/** The RESP2 codec: the recursive reply parser over a growing buffer, and the encoders it must undo. Buffers and
    strings are sequences of bytes, one `char` each. */
module Resp {
  import opened Wrappers
  import opened Decimal

  /** What the parser makes of a reply. Both null bulk strings and null arrays become null. `Odd` is whatever
      JavaScript's `Number` makes of an integer line that is no integer: nothing is said of it but the line. */
  datatype Value =
    | Str(text: string) | Err(message: string) | Num(n: int) | Odd(line: string) | Nil | Arr(items: seq<Value>)

  /** More bytes needed; an unknown type byte, for which the parser throws; a bulk length or array count that is no
      integer, or a bulk length below -1, which no server sends and this model does not follow; or a reply and the
      bytes it took. */
  datatype Parsed = NeedMore | Bad | Unmodelled | Reply(value: Value, consumed: nat)

  datatype Items = Stop(why: Parsed) | All(values: seq<Value>, consumed: nat)

  /** The first CRLF at or after `from`, or -1. */
  function Crlf(buf: string, from: nat): (r: int)
    ensures r == -1 || (from <= r && r + 2 <= |buf|)
    decreases |buf| - from
  {
    if from + 1 >= |buf| then -1
    else if buf[from] == '\r' && buf[from + 1] == '\n' then from
    else Crlf(buf, from + 1)
  }

  /** The value of an integer line, whatever it says. */
  function AsNumber(line: string): Value {
    if Number(line).Some? then Num(Number(line).value) else Odd(line)
  }

  function Parse(buf: string, offset: nat): (r: Parsed)
    ensures r.Reply? ==> r.consumed > 0 && offset + r.consumed <= |buf|
    decreases |buf| - offset, 0, 2
  {
    if offset >= |buf| then NeedMore
    else
      var lineEnd := Crlf(buf, offset + 1);
      if lineEnd == -1 then NeedMore else ParseLine(buf, offset, lineEnd)
  }

  /** The reply whose first line ends at `lineEnd`. */
  function ParseLine(buf: string, offset: nat, lineEnd: nat): (r: Parsed)
    requires offset < lineEnd && lineEnd + 2 <= |buf|
    ensures r.Reply? ==> r.consumed > 0 && offset + r.consumed <= |buf|
    decreases |buf| - offset, 0, 1
  {
    var line := buf[offset + 1..lineEnd];
    var next := lineEnd + 2;
    match buf[offset]
    case '+' => Reply(Str(line), next - offset)
    case '-' => Reply(Err(line), next - offset)
    case ':' => Reply(AsNumber(line), next - offset)
    case '$' => ParseBulk(buf, offset, next, Number(line))
    case '*' => ParseArray(buf, offset, next, Number(line))
    case _ => Bad
  }

  function ParseBulk(buf: string, offset: nat, start: nat, length: Option<int>): (r: Parsed)
    requires offset < start <= |buf|
    ensures r.Reply? ==> r.consumed > 0 && offset + r.consumed <= |buf|
  {
    if length.None? || length.value < -1 then Unmodelled
    else if length.value == -1 then Reply(Nil, start - offset)
    else if |buf| < start + length.value + 2 then NeedMore
    else Reply(Str(buf[start..start + length.value]), start + length.value + 2 - offset)
  }

  function ParseArray(buf: string, offset: nat, start: nat, count: Option<int>): (r: Parsed)
    requires offset < start <= |buf|
    ensures r.Reply? ==> r.consumed > 0 && offset + r.consumed <= |buf|
    decreases |buf| - offset, 0, 0
  {
    if count.None? then Unmodelled
    else if count.value == -1 then Reply(Nil, start - offset)
    else
      match ParseItems(buf, start, count.value)
      case Stop(why) => why
      case All(values, consumed) => Reply(Arr(values), start + consumed - offset)
  }

  /** The `count` replies from `cursor` on. */
  function ParseItems(buf: string, cursor: nat, count: int): (r: Items)
    requires cursor <= |buf|
    ensures r.Stop? ==> !r.why.Reply?
    ensures r.All? ==> cursor + r.consumed <= |buf|
    decreases |buf| - cursor, 1, count
  {
    if count <= 0 then All([], 0)
    else
      match Parse(buf, cursor)
      case Reply(value, consumed) => Prepend([value], consumed, ParseItems(buf, cursor + consumed, count - 1))
      case other => Stop(other)
  }

  function Prepend(values: seq<Value>, consumed: nat, rest: Items): Items {
    match rest
    case Stop(_) => rest
    case All(more, n) => All(values + more, consumed + n)
  }

  /** `tryParseReply`: reads one reply at `offset`. */
  method TryParseReply(buf: string, offset: nat) returns (r: Parsed)
    ensures r == Parse(buf, offset)
    decreases |buf| - offset, 0
  {
    if offset >= |buf| { return NeedMore; }
    var kind := buf[offset];
    var lineEnd := Crlf(buf, offset + 1);
    if lineEnd == -1 { return NeedMore; }
    var line := buf[offset + 1..lineEnd];
    assert Parse(buf, offset) == ParseLine(buf, offset, lineEnd);
    match kind
    case '+' => return Reply(Str(line), lineEnd + 2 - offset);
    case '-' => return Reply(Err(line), lineEnd + 2 - offset);
    case ':' =>
      return Reply(AsNumber(line), lineEnd + 2 - offset);
    case '$' => return ParseBulk(buf, offset, lineEnd + 2, Number(line));
    case '*' =>
      if Number(line).None? { return Unmodelled; }
      if Number(line).value == -1 { return Reply(Nil, lineEnd + 2 - offset); }
      var items := TryParseItems(buf, lineEnd + 2, Number(line).value);
      if items.Stop? { return items.why; }
      return Reply(Arr(items.values), lineEnd + 2 + items.consumed - offset);
    case _ => return Bad;
  }

  /** The loop of `tryParseReply` over the items of an array. */
  method TryParseItems(buf: string, start: nat, count: int) returns (r: Items)
    requires start <= |buf|
    ensures r == ParseItems(buf, start, count)
    decreases |buf| - start, 1
  {
    var cursor: nat := start;
    var values: seq<Value> := [];
    var i := 0;
    CollectNone(buf, start, count);
    while i < count
      invariant Collected(buf, start, count, values, cursor, count - i)
    {
      var item := TryParseReply(buf, cursor);
      CollectNext(buf, start, count, values, cursor, count - i, item);
      if !item.Reply? { return Stop(item); }
      values := values + [item.value];
      cursor := cursor + item.consumed;
      i := i + 1;
    }
    CollectDone(buf, start, count, values, cursor, count - i);
    return All(values, cursor - start);
  }

  /** The items read so far, and `left` to go from `cursor`. */
  ghost predicate Collected(buf: string, start: nat, count: int, values: seq<Value>, cursor: nat, left: int) {
    && start <= cursor <= |buf|
    && ParseItems(buf, start, count) == Prepend(values, cursor - start, ParseItems(buf, cursor, left))
  }

  lemma CollectNone(buf: string, start: nat, count: int)
    requires start <= |buf|
    ensures Collected(buf, start, count, [], start, count)
  {
    var items := ParseItems(buf, start, count);
    if items.All? { assert [] + items.values == items.values; }
  }

  lemma ItemsOneByOne(buf: string, cursor: nat, count: int)
    requires cursor <= |buf| && count > 0
    ensures var item := Parse(buf, cursor);
      ParseItems(buf, cursor, count) == if item.Reply?
        then Prepend([item.value], item.consumed, ParseItems(buf, cursor + item.consumed, count - 1)) else Stop(item)
  {
  }

  lemma CollectNext(buf: string, start: nat, count: int, values: seq<Value>, cursor: nat, left: int, item: Parsed)
    requires Collected(buf, start, count, values, cursor, left) && left > 0 && item == Parse(buf, cursor)
    ensures if item.Reply? then Collected(buf, start, count, values + [item.value], cursor + item.consumed, left - 1)
      else ParseItems(buf, start, count) == Stop(item)
  {
    ItemsOneByOne(buf, cursor, left);
    if item.Reply? {
      var rest := ParseItems(buf, cursor + item.consumed, left - 1);
      PrependTwice(values, cursor - start, item.value, item.consumed, rest);
    }
  }

  lemma CollectDone(buf: string, start: nat, count: int, values: seq<Value>, cursor: nat, left: int)
    requires Collected(buf, start, count, values, cursor, left) && left <= 0
    ensures ParseItems(buf, start, count) == All(values, cursor - start)
  {
    assert values + [] == values;
  }

  lemma PrependTwice(values: seq<Value>, n: nat, value: Value, m: nat, rest: Items)
    ensures Prepend(values, n, Prepend([value], m, rest)) == Prepend(values + [value], n + m, rest)
  {
    if rest.All? { assert values + ([value] + rest.values) == values + [value] + rest.values; }
  }

  // ----- prefix stability -----------------------------------------------------------------------------

  lemma {:induction false} CrlfStable(buf: string, more: string, from: nat)
    requires Crlf(buf, from) != -1
    ensures Crlf(buf + more, from) == Crlf(buf, from)
    decreases |buf| - from
  {
    if !(buf[from] == '\r' && buf[from + 1] == '\n') { CrlfStable(buf, more, from + 1); }
  }

  /** Bytes that arrive later never change a verdict already reached. */
  lemma {:induction false} ParseStable(buf: string, more: string, offset: nat)
    requires Parse(buf, offset) != NeedMore
    ensures Parse(buf + more, offset) == Parse(buf, offset)
    decreases |buf| - offset, 0, 2
  {
    CrlfStable(buf, more, offset + 1);
    LineStable(buf, more, offset, Crlf(buf, offset + 1));
  }

  lemma {:induction false} LineStable(buf: string, more: string, offset: nat, lineEnd: nat)
    requires offset < lineEnd && lineEnd + 2 <= |buf| && ParseLine(buf, offset, lineEnd) != NeedMore
    ensures ParseLine(buf + more, offset, lineEnd) == ParseLine(buf, offset, lineEnd)
    decreases |buf| - offset, 0, 1
  {
    var line := buf[offset + 1..lineEnd];
    assert (buf + more)[offset + 1..lineEnd] == line;
    if buf[offset] == '$' {
      BulkStable(buf, more, offset, lineEnd + 2, Number(line));
    } else if buf[offset] == '*' {
      ArrayStable(buf, more, offset, lineEnd + 2, Number(line));
    }
  }

  lemma {:induction false} ArrayStable(buf: string, more: string, offset: nat, start: nat, count: Option<int>)
    requires offset < start <= |buf| && ParseArray(buf, offset, start, count) != NeedMore
    ensures ParseArray(buf + more, offset, start, count) == ParseArray(buf, offset, start, count)
    decreases |buf| - offset, 0, 0
  {
    if count.Some? && count.value != -1 { ItemsStable(buf, more, start, count.value); }
  }

  lemma BulkStable(buf: string, more: string, offset: nat, start: nat, length: Option<int>)
    requires offset < start <= |buf| && ParseBulk(buf, offset, start, length) != NeedMore
    ensures ParseBulk(buf + more, offset, start, length) == ParseBulk(buf, offset, start, length)
  {
    if length.Some? && length.value >= 0 {
      assert (buf + more)[start..start + length.value] == buf[start..start + length.value];
    }
  }

  lemma {:induction false} ItemsStable(buf: string, more: string, cursor: nat, count: int)
    requires cursor <= |buf| && ParseItems(buf, cursor, count) != Stop(NeedMore)
    ensures ParseItems(buf + more, cursor, count) == ParseItems(buf, cursor, count)
    decreases |buf| - cursor, 1, count
  {
    if count > 0 {
      var item := Parse(buf, cursor);
      ItemsOneByOne(buf, cursor, count);
      ParseStable(buf, more, cursor);
      if item.Reply? { ItemsStable(buf, more, cursor + item.consumed, count - 1); }
      SameItems(buf, buf + more, cursor, count, item);
    }
  }

  lemma SameItems(a: string, b: string, cursor: nat, count: int, item: Parsed)
    requires cursor <= |a| && cursor <= |b| && count > 0 && item == Parse(a, cursor) == Parse(b, cursor)
    requires item.Reply? ==>
      ParseItems(a, cursor + item.consumed, count - 1) == ParseItems(b, cursor + item.consumed, count - 1)
    ensures ParseItems(a, cursor, count) == ParseItems(b, cursor, count)
  {
    ItemsOneByOne(a, cursor, count);
    ItemsOneByOne(b, cursor, count);
  }

  // ----- the protocol's encoder -----------------------------------------------------------------------

  /** Replies as the protocol defines them. */
  datatype Wire =
    | SimpleString(text: string) | SimpleError(message: string) | Integer(n: int)
    | BulkString(bytes: string) | NullBulk | NullArray | Array(items: seq<Wire>)

  function Encode(w: Wire): string {
    match w
    case SimpleString(s) => "+" + s + "\r\n"
    case SimpleError(s) => "-" + s + "\r\n"
    case Integer(n) => ":" + Show(n) + "\r\n"
    case BulkString(s) => "$" + Show(|s|) + "\r\n" + (s + "\r\n")
    case NullBulk => "$" + Show(-1) + "\r\n"
    case NullArray => "*" + Show(-1) + "\r\n"
    case Array(items) => "*" + Show(|items|) + "\r\n" + EncodeAll(items)
  }

  function EncodeAll(ws: seq<Wire>): string {
    if ws == [] then "" else Encode(ws[0]) + EncodeAll(ws[1..])
  }

  function Meaning(w: Wire): Value {
    match w
    case SimpleString(s) => Str(s)
    case SimpleError(s) => Err(s)
    case Integer(n) => Num(n)
    case BulkString(s) => Str(s)
    case NullBulk => Nil
    case NullArray => Nil
    case Array(items) => Arr(Meanings(items))
  }

  function Meanings(ws: seq<Wire>): (r: seq<Value>)
    ensures |r| == |ws|
  {
    if ws == [] then [] else [Meaning(ws[0])] + Meanings(ws[1..])
  }

  predicate CrlfFree(s: string) { Crlf(s, 0) == -1 }

  /** Only simple strings and errors restrict their text: a CRLF would end them early. */
  predicate WellFormed(w: Wire) {
    match w
    case SimpleString(s) => CrlfFree(s)
    case SimpleError(s) => CrlfFree(s)
    case Array(items) => forall x <- items :: WellFormed(x)
    case _ => true
  }

  predicate AllWellFormed(ws: seq<Wire>) { forall x <- ws :: WellFormed(x) }

  // ----- the parser undoes the encoder ----------------------------------------------------------------

  lemma {:induction false} CrlfAfter(pre: string, s: string, i: nat, rest: string)
    requires i <= |s| && Crlf(s, i) == -1
    ensures Crlf(pre + s + "\r\n" + rest, |pre| + i) == |pre| + |s|
    decreases |s| - i
  {
    var buf := pre + s + "\r\n" + rest;
    if i == |s| {
      assert buf[|pre| + i] == '\r' && buf[|pre| + i + 1] == '\n';
    } else {
      assert buf[|pre| + i] == s[i];
      if i + 1 < |s| {
        assert buf[|pre| + i + 1] == s[i + 1];
      } else {
        assert buf[|pre| + i + 1] == '\r';
      }
      CrlfAfter(pre, s, i + 1, rest);
    }
  }

  lemma {:induction false} NumbersAreCrlfFree(s: string, i: nat)
    requires forall j :: 0 <= j < |s| ==> s[j] != '\r'
    ensures Crlf(s, i) == -1
    decreases |s| - i
  {
    if i + 1 < |s| { NumbersAreCrlfFree(s, i + 1); }
  }

  lemma ShownLine(n: int)
    ensures CrlfFree(Show(n)) && Number(Show(n)) == Some(n)
  {
    NumberOfShow(n);
    ValueOfDigits(if n < 0 then -n else n);
    NumbersAreCrlfFree(Show(n), 0);
  }

  /** The first line of a reply, wherever it starts. */
  lemma LineAt(pre: string, kind: char, line: string, rest: string, buf: string)
    requires CrlfFree(line) && buf == pre + [kind] + line + "\r\n" + rest
    ensures buf[|pre|] == kind
    ensures Crlf(buf, |pre| + 1) == |pre| + 1 + |line|
    ensures buf[|pre| + 1..|pre| + 1 + |line|] == line
  {
    CrlfAfter(pre + [kind], line, 0, rest);
  }

  /** Parsing undoes encoding, in the middle of any buffer. */
  lemma {:induction false} RoundTrip(pre: string, w: Wire, rest: string)
    requires WellFormed(w)
    ensures Parse(pre + Encode(w) + rest, |pre|) == Reply(Meaning(w), |Encode(w)|)
    decreases w, 0
  {
    match w
    case Array(items) =>
      RoundTripAll(pre + "*" + Show(|items|) + "\r\n", items, rest);
      ArrayTrip(pre, items, rest);
    case BulkString(s) => BulkTrip(pre, s, rest, pre + Encode(w) + rest);
    case _ => LineTrip(pre, w, rest);
  }

  /** A reply of one line, from the first CRLF on. */
  lemma OneLine(pre: string, kind: char, line: string, rest: string, buf: string)
    requires CrlfFree(line) && buf == pre + [kind] + line + "\r\n" + rest
    ensures var n := |line| + 3;
      && (kind == '+' ==> Parse(buf, |pre|) == Reply(Str(line), n))
      && (kind == '-' ==> Parse(buf, |pre|) == Reply(Err(line), n))
      && (kind == ':' ==> Parse(buf, |pre|) == Reply(AsNumber(line), n))
      && (kind == '$' && Number(line) == Some(-1) ==> Parse(buf, |pre|) == Reply(Nil, n))
      && (kind == '*' && Number(line) == Some(-1) ==> Parse(buf, |pre|) == Reply(Nil, n))
  {
    LineAt(pre, kind, line, rest, buf);
    assert Parse(buf, |pre|) == ParseLine(buf, |pre|, |pre| + 1 + |line|);
  }

  lemma Flat(pre: string, head: string, kind: char, line: string, rest: string)
    requires head == [kind]
    ensures pre + (head + line + "\r\n") + rest == pre + [kind] + line + "\r\n" + rest
  {
  }

  /** Replies of one line. */
  lemma LineTrip(pre: string, w: Wire, rest: string)
    requires WellFormed(w) && !w.Array? && !w.BulkString?
    ensures Parse(pre + Encode(w) + rest, |pre|) == Reply(Meaning(w), |Encode(w)|)
  {
    match w
    case SimpleString(s) => TextTrip(pre, "+", '+', s, rest);
    case SimpleError(s) => TextTrip(pre, "-", '-', s, rest);
    case Integer(n) => NumberTrip(pre, ":", ':', n, rest);
    case NullBulk => NumberTrip(pre, "$", '$', -1, rest);
    case NullArray => NumberTrip(pre, "*", '*', -1, rest);
  }

  lemma TextTrip(pre: string, head: string, kind: char, s: string, rest: string)
    requires head == [kind] && (kind == '+' || kind == '-') && CrlfFree(s)
    ensures Parse(pre + (head + s + "\r\n") + rest, |pre|) == Reply(if kind == '+' then Str(s) else Err(s), |s| + 3)
  {
    Flat(pre, head, kind, s, rest);
    OneLine(pre, kind, s, rest, pre + (head + s + "\r\n") + rest);
  }

  lemma NumberTrip(pre: string, head: string, kind: char, n: int, rest: string)
    requires head == [kind] && (kind == ':' || (n == -1 && (kind == '$' || kind == '*')))
    ensures Parse(pre + (head + Show(n) + "\r\n") + rest, |pre|)
      == Reply(if kind == ':' then Num(n) else Nil, |Show(n)| + 3)
  {
    ShownLine(n);
    Flat(pre, head, kind, Show(n), rest);
    OneLine(pre, kind, Show(n), rest, pre + (head + Show(n) + "\r\n") + rest);
  }

  lemma ArrayTrip(pre: string, items: seq<Wire>, rest: string)
    requires var head := pre + "*" + Show(|items|) + "\r\n";
      ParseItems(head + EncodeAll(items) + rest, |head|, |items|) == All(Meanings(items), |EncodeAll(items)|)
    ensures Parse(pre + Encode(Array(items)) + rest, |pre|) == Reply(Meaning(Array(items)), |Encode(Array(items))|)
  {
    Regroup(pre, Show(|items|), EncodeAll(items), rest);
    ArrayParts(pre, Show(|items|), EncodeAll(items) + rest, pre + Encode(Array(items)) + rest, |items|,
               Meanings(items), |EncodeAll(items)|);
  }

  lemma ArrayParts(pre: string, line: string, after: string, buf: string, count: nat, values: seq<Value>, consumed: nat)
    requires line == Show(count) && buf == pre + ['*'] + line + "\r\n" + after
    requires ParseItems(buf, |pre| + 3 + |line|, count) == All(values, consumed)
    ensures Parse(buf, |pre|) == Reply(Arr(values), 3 + |line| + consumed)
  {
    ShownLine(count);
    LineAt(pre, '*', line, after, buf);
    ArrayParses(buf, |pre|, |pre| + 1 + |line|, count, values, consumed);
  }

  lemma Regroup(pre: string, line: string, body: string, rest: string)
    ensures pre + ("*" + line + "\r\n" + body) + rest == pre + ['*'] + line + "\r\n" + (body + rest)
    ensures pre + ("*" + line + "\r\n" + body) + rest == (pre + "*" + line + "\r\n") + body + rest
  {
  }

  lemma ArrayParses(buf: string, offset: nat, lineEnd: nat, count: nat, values: seq<Value>, consumed: nat)
    requires offset < |buf| && buf[offset] == '*' && Crlf(buf, offset + 1) == lineEnd
    requires Number(buf[offset + 1..lineEnd]) == Some(count)
    requires ParseItems(buf, lineEnd + 2, count) == All(values, consumed)
    ensures Parse(buf, offset) == Reply(Arr(values), lineEnd + 2 + consumed - offset)
  {
    assert Parse(buf, offset) == ParseLine(buf, offset, lineEnd);
  }

  lemma BulkTrip(pre: string, s: string, rest: string, buf: string)
    requires buf == pre + Encode(BulkString(s)) + rest
    ensures Parse(buf, |pre|) == Reply(Str(s), |Encode(BulkString(s))|)
  {
    ShownLine(|s|);
    var head := "$" + Show(|s|) + "\r\n";
    LineAt(pre, '$', Show(|s|), s + "\r\n" + rest, buf);
    assert buf == (pre + head) + s + ("\r\n" + rest);
    assert buf[|pre + head|..|pre + head| + |s|] == s;
  }

  lemma {:induction false} RoundTripAll(pre: string, ws: seq<Wire>, rest: string)
    requires AllWellFormed(ws)
    ensures ParseItems(pre + EncodeAll(ws) + rest, |pre|, |ws|) == All(Meanings(ws), |EncodeAll(ws)|)
    decreases ws, 1
  {
    if ws != [] {
      var e, es := Encode(ws[0]), EncodeAll(ws[1..]);
      RoundTrip(pre, ws[0], es + rest);
      RoundTripAll(pre + e, ws[1..], rest);
      FirstThenRest(pre, e, es, rest, |ws|, Meaning(ws[0]), Meanings(ws[1..]));
    }
  }

  lemma FirstThenRest(pre: string, e: string, es: string, rest: string, count: nat, value: Value, values: seq<Value>)
    requires count > 0 && Parse(pre + e + (es + rest), |pre|) == Reply(value, |e|)
    requires ParseItems((pre + e) + es + rest, |pre + e|, count - 1) == All(values, |es|)
    ensures ParseItems(pre + (e + es) + rest, |pre|, count) == All([value] + values, |e| + |es|)
  {
    Resplit(pre, e, es, rest);
    ItemsNext(pre + (e + es) + rest, |pre|, count, value, |e|, values, |es|);
  }

  lemma Resplit(pre: string, e: string, es: string, rest: string)
    ensures pre + (e + es) + rest == pre + e + (es + rest) == (pre + e) + es + rest
  {
  }

  lemma ItemsNext(buf: string, cursor: nat, count: nat, value: Value, n: nat, values: seq<Value>, m: nat)
    requires count > 0 && Parse(buf, cursor) == Reply(value, n)
    requires ParseItems(buf, cursor + n, count - 1) == All(values, m)
    ensures ParseItems(buf, cursor, count) == All([value] + values, n + m)
  {
  }

  /** A simple string survives exactly when it holds no CRLF. */
  lemma SimpleStringExactly(s: string, rest: string)
    ensures Parse(Encode(SimpleString(s)) + rest, 0) == Reply(Str(s), |s| + 3) <==> CrlfFree(s)
  {
    var buf := Encode(SimpleString(s)) + rest;
    if CrlfFree(s) {
      RoundTrip("", SimpleString(s), rest);
      assert "" + Encode(SimpleString(s)) + rest == buf;
    } else {
      CrlfWithin("+", s, "\r\n" + rest, 0);
      assert buf == "+" + s + ("\r\n" + rest);
    }
  }

  lemma {:induction false} CrlfWithin(pre: string, s: string, rest: string, i: nat)
    requires Crlf(s, i) != -1
    ensures Crlf(pre + s + rest, |pre| + i) == |pre| + Crlf(s, i)
    decreases |s| - i
  {
    var buf := pre + s + rest;
    assert buf[|pre| + i] == s[i] && buf[|pre| + i + 1] == s[i + 1];
    if !(s[i] == '\r' && s[i + 1] == '\n') { CrlfWithin(pre, s, rest, i + 1); }
  }

  // ----- the command encoder --------------------------------------------------------------------------

  function Bulks(args: seq<string>): seq<Wire> { seq(|args|, i requires 0 <= i < |args| => BulkString(args[i])) }

  function Strs(args: seq<string>): seq<Value> { seq(|args|, i requires 0 <= i < |args| => Str(args[i])) }

  /** A command is an array of bulk strings. */
  method EncodeCommand(args: seq<string>) returns (out: string)
    ensures out == Encode(Array(Bulks(args)))
  {
    out := "*" + Show(|args|) + "\r\n";
    ghost var head := out;
    for i := 0 to |args|
      invariant out == head + EncodeAll(Bulks(args)[..i])
    {
      var bulk := "$" + Show(|args[i]|) + "\r\n" + (args[i] + "\r\n");
      BulksNext(args, i, bulk);
      Regrouped(head, EncodeAll(Bulks(args)[..i]), bulk);
      out := out + bulk;
    }
    assert Bulks(args)[..|args|] == Bulks(args);
  }

  lemma BulksNext(args: seq<string>, i: nat, bulk: string)
    requires i < |args| && bulk == Encode(BulkString(args[i]))
    ensures EncodeAll(Bulks(args)[..i + 1]) == EncodeAll(Bulks(args)[..i]) + bulk
  {
    EncodeAllAppend(Bulks(args)[..i], Bulks(args)[i]);
    assert Bulks(args)[..i + 1] == Bulks(args)[..i] + [Bulks(args)[i]];
  }

  lemma EncodeAllCons(w: Wire, ws: seq<Wire>)
    ensures EncodeAll([w] + ws) == Encode(w) + EncodeAll(ws)
  {
    assert ([w] + ws)[1..] == ws;
  }

  lemma Regrouped(a: string, b: string, c: string)
    ensures (a + b) + c == a + (b + c)
  {
  }

  lemma {:induction false} EncodeAllAppend(ws: seq<Wire>, w: Wire)
    ensures EncodeAll(ws + [w]) == EncodeAll(ws) + Encode(w)
  {
    if ws == [] {
      EncodeAllCons(w, []);
      assert [] + [w] == [w] + [];
      assert Encode(w) + "" == "" + Encode(w);
    } else {
      EncodeAllAppend(ws[1..], w);
      EncodeAllCons(ws[0], ws[1..] + [w]);
      assert ws + [w] == [ws[0]] + (ws[1..] + [w]);
      Regrouped(Encode(ws[0]), EncodeAll(ws[1..]), Encode(w));
    }
  }

  lemma {:induction false} MeaningsOfBulks(args: seq<string>)
    ensures Meanings(Bulks(args)) == Strs(args)
  {
    if args != [] {
      MeaningsOfBulks(args[1..]);
      assert Bulks(args)[1..] == Bulks(args[1..]);
      assert Strs(args) == [Str(args[0])] + Strs(args[1..]);
    }
  }

  /** The parser reads back exactly the arguments of a command, CRLFs inside them included. */
  lemma CommandRoundTrip(args: seq<string>, rest: string)
    ensures var e := Encode(Array(Bulks(args))); Parse(e + rest, 0) == Reply(Arr(Strs(args)), |e|)
  {
    var e := Encode(Array(Bulks(args)));
    RoundTrip("", Array(Bulks(args)), rest);
    assert "" + e + rest == e + rest;
    MeaningsOfBulks(args);
  }
}
