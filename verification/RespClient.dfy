/** `RawRespClient`: bytes arrive in chunks of any size, and complete replies settle the waiting callers first in,
    first out. */
module RespClient {
  import opened Resp

  datatype Outcome = Resolved(value: Value) | Rejected(reason: Reason)

  datatype Reason = ReplyError(message: string) | Unparsable | Disconnected

  /** `settled` is what the callers have seen, in order. */
  datatype Client = Client(buffer: string, pending: seq<nat>, settled: seq<(nat, Outcome)>)

  function Settlement(v: Value): Outcome {
    if v.Err? then Rejected(ReplyError(v.message)) else Resolved(v)
  }

  /** The caller at the head of the queue, if there is one, gets `o`. */
  function Settle(c: Client, o: Outcome): Client {
    if c.pending == [] then c
    else c.(pending := c.pending[1..], settled := c.settled + [(c.pending[0], o)])
  }

  /** The loop of `onData`: every complete reply is delivered; on an unknown type byte the buffer is dropped. */
  function Drain(c: Client): Client
    decreases |c.buffer|
  {
    match Parse(c.buffer, 0)
    case Reply(value, consumed) => Drain(Settle(c.(buffer := c.buffer[consumed..]), Settlement(value)))
    case Bad => Settle(c.(buffer := ""), Rejected(Unparsable))
    case _ => c
  }

  function Receive(c: Client, chunk: string): Client {
    Drain(c.(buffer := c.buffer + chunk))
  }

  function Fail(c: Client): Client {
    var failed := seq(|c.pending|, i requires 0 <= i < |c.pending| => (c.pending[i], Rejected(Disconnected)));
    c.(pending := [], settled := c.settled + failed)
  }

  /** No bulk length or array count that the loop gets to is outside the protocol. */
  predicate Modelled(buffer: string)
    decreases |buffer|
  {
    match Parse(buffer, 0)
    case Reply(_, consumed) => Modelled(buffer[consumed..])
    case Unmodelled => false
    case _ => true
  }

  class RawRespClient {
    var buffer: string
    var pending: seq<nat>
    var settled: seq<(nat, Outcome)>

    ghost function View(): Client reads this { Client(buffer, pending, settled) }

    constructor ()
      ensures View() == Client("", [], [])
    {
      buffer, pending, settled := "", [], [];
    }

    method Send(call: nat, args: seq<string>) returns (written: string)
      modifies this
      ensures View() == old(View()).(pending := old(pending) + [call])
      ensures written == Encode(Array(Bulks(args)))
    {
      written := EncodeCommand(args);
      pending := pending + [call];
    }

    /** `pending.shift()`, and settling what it returns. */
    method Shift(o: Outcome)
      modifies this
      ensures View() == Settle(old(View()), o)
    {
      if pending != [] {
        settled := settled + [(pending[0], o)];
        pending := pending[1..];
      }
    }

    method OnData(chunk: string)
      requires Modelled(buffer + chunk)
      modifies this
      ensures View() == Receive(old(View()), chunk)
    {
      buffer := buffer + chunk;
      var progressed := true;
      while progressed
        invariant Modelled(buffer) && Drain(View()) == Receive(old(View()), chunk)
        invariant !progressed ==> Parse(buffer, 0) == NeedMore
        decreases |buffer|, progressed
      {
        progressed := false;
        var result := TryParseReply(buffer, 0);
        if result == Bad {
          buffer := "";
          Shift(Rejected(Unparsable));
          return;
        }
        if result.Reply? {
          buffer := buffer[result.consumed..];
          if result.value.Err? {
            Shift(Rejected(ReplyError(result.value.message)));
          } else {
            Shift(Resolved(result.value));
          }
          progressed := true;
        }
      }
    }

    method FailAllPending()
      modifies this
      ensures View() == Fail(old(View()))
      ensures buffer == old(buffer) && pending == [] && |settled| == |old(settled)| + |old(pending)|
      ensures settled[..|old(settled)|] == old(settled)
      ensures forall i :: 0 <= i < |old(pending)| ==>
        settled[|old(settled)| + i] == (old(pending)[i], Rejected(Disconnected))
    {
      var waiting := pending;
      pending := [];
      for i := 0 to |waiting|
        invariant buffer == old(buffer) && pending == []
        invariant settled == old(settled) + Fail(old(View())).settled[|old(settled)|..|old(settled)| + i]
      {
        settled := settled + [(waiting[i], Rejected(Disconnected))];
      }
    }
  }

  // ----- chunking does not matter ---------------------------------------------------------------------

  /** Draining `buffer` meets no unknown type byte. */
  predicate Clean(buffer: string)
    decreases |buffer|
  {
    match Parse(buffer, 0)
    case Reply(_, consumed) => Clean(buffer[consumed..])
    case Bad => false
    case _ => true
  }

  /** One reply delivered. */
  function Deliver(c: Client, value: Value, consumed: nat): Client
    requires consumed <= |c.buffer|
  {
    Settle(c.(buffer := c.buffer[consumed..]), Settlement(value))
  }

  lemma DeliverMore(c: Client, more: string, value: Value, consumed: nat)
    requires Parse(c.buffer, 0) == Reply(value, consumed)
    ensures var c' := c.(buffer := c.buffer + more); var next := Deliver(c, value, consumed);
      Drain(c') == Drain(next.(buffer := next.buffer + more))
  {
    ParseStable(c.buffer, more, 0);
    assert (c.buffer + more)[consumed..] == c.buffer[consumed..] + more;
  }

  lemma {:induction false} DrainThenMore(c: Client, more: string)
    requires Clean(c.buffer)
    ensures Drain(Drain(c).(buffer := Drain(c).buffer + more)) == Drain(c.(buffer := c.buffer + more))
    decreases |c.buffer|
  {
    var r := Parse(c.buffer, 0);
    if r.Reply? {
      DrainThenMore(Deliver(c, r.value, r.consumed), more);
      DeliverMore(c, more, r.value, r.consumed);
    }
  }

  /** Two chunks have the effect of one, unless the first already made the parser throw and drop its buffer. */
  lemma TwoChunks(c: Client, a: string, b: string)
    requires Modelled(c.buffer + a + b) && Clean(c.buffer + a)
    ensures Modelled(c.buffer + a) && Modelled(Receive(c, a).buffer + b)
    ensures Receive(Receive(c, a), b) == Receive(c, a + b)
  {
    ModelledPrefix(c.buffer + a, b);
    ModelledRest(c.(buffer := c.buffer + a), b);
    DrainThenMore(c.(buffer := c.buffer + a), b);
    SameBytes(c, a, b);
  }

  lemma {:induction false} ModelledPrefix(a: string, b: string)
    requires Modelled(a + b)
    ensures Modelled(a)
    decreases |a|
  {
    var r := Parse(a, 0);
    if r != NeedMore { ParseStable(a, b, 0); }
    if r.Reply? {
      assert (a + b)[r.consumed..] == a[r.consumed..] + b;
      ModelledPrefix(a[r.consumed..], b);
    }
  }

  /** What draining keeps of the first bytes goes on as the whole would have. */
  lemma {:induction false} ModelledRest(c: Client, more: string)
    requires Clean(c.buffer) && Modelled(c.buffer + more)
    ensures Modelled(Drain(c).buffer + more)
    decreases |c.buffer|
  {
    var r := Parse(c.buffer, 0);
    if r.Reply? {
      ParseStable(c.buffer, more, 0);
      assert (c.buffer + more)[r.consumed..] == c.buffer[r.consumed..] + more;
      ModelledRest(Deliver(c, r.value, r.consumed), more);
    }
  }

  lemma SameBytes(c: Client, a: string, b: string)
    ensures c.(buffer := c.buffer + a + b) == c.(buffer := c.buffer + (a + b))
  {
  }

  /** Nothing of `buffer` would be left in it. */
  predicate Spent(buffer: string)
    decreases |buffer|
  {
    match Parse(buffer, 0)
    case Reply(_, consumed) => Spent(buffer[consumed..])
    case Bad => true
    case _ => buffer == ""
  }

  /** An unknown type byte drops all that follows in the buffer. */
  lemma {:induction false} DirtyDrain(c: Client, more: string)
    requires !Clean(c.buffer)
    ensures Drain(c.(buffer := c.buffer + more)) == Drain(c) && Drain(c).buffer == ""
    decreases |c.buffer|
  {
    var r := Parse(c.buffer, 0);
    if r.Reply? {
      DirtyDrain(Deliver(c, r.value, r.consumed), more);
      DeliverMore(c, more, r.value, r.consumed);
    } else {
      ParseStable(c.buffer, more, 0);
    }
  }

  /** Bytes go unnoticed exactly when there are none, or nobody waits and they are all used up. */
  lemma {:induction false} Unnoticed(c: Client)
    ensures Drain(c) == c.(buffer := "") <==> c.buffer == "" || (c.pending == [] && Spent(c.buffer))
    decreases |c.buffer|
  {
    var r := Parse(c.buffer, 0);
    if r.Reply? {
      DrainSettles(Deliver(c, r.value, r.consumed));
      if c.pending == [] { Unnoticed(c.(buffer := c.buffer[r.consumed..])); }
    }
  }

  lemma {:induction false} DrainSettles(c: Client)
    ensures |c.settled| <= |Drain(c).settled|
    decreases |c.buffer|
  {
    var r := Parse(c.buffer, 0);
    if r.Reply? { DrainSettles(Deliver(c, r.value, r.consumed)); }
  }

  /** Exactly when two chunks have the effect of one: when the first does not make the parser throw, or when the
      second goes unnoticed anyway. */
  lemma TwoChunksExactly(c: Client, a: string, b: string)
    requires Modelled(c.buffer + a + b) && Modelled(Receive(c, a).buffer + b)
    ensures Receive(Receive(c, a), b) == Receive(c, a + b)
      <==> Clean(c.buffer + a) || b == "" || (Receive(c, a).pending == [] && Spent(b))
  {
    if Clean(c.buffer + a) {
      TwoChunks(c, a, b);
    } else {
      DirtyDrain(c.(buffer := c.buffer + a), b);
      SameBytes(c, a, b);
      assert "" + b == b;
      Unnoticed(Receive(c, a).(buffer := b));
    }
  }

  lemma UnknownType(buf: string, lineEnd: nat)
    requires 0 < lineEnd && lineEnd + 2 <= |buf| && buf[0] == '?'
    ensures ParseLine(buf, 0, lineEnd) == Bad
  {
  }

  /** If it did, what the second chunk brings is read as a fresh stream, so cutting there is observable. */
  lemma CutAtError(c: Client)
    requires c.buffer == "" && c.pending != []
    ensures Receive(Receive(c, "?\r\n"), "+") != Receive(c, "?\r\n" + "+")
  {
    assert Crlf("?\r\n", 1) == 1;
    assert "" + "?\r\n" == "?\r\n";
    var bad := "?\r\n" + "+";
    assert bad[1] == '\r' && bad[2] == '\n' && Crlf(bad, 1) == 1;
    assert "" + bad == bad;
    UnknownType("?\r\n", 1);
    UnknownType(bad, 1);
    assert Parse("+", 0) == NeedMore;
    assert Receive(c, "?\r\n").buffer == "" && Receive(c, bad).buffer == "";
    assert "" + "+" == "+";
  }

  lemma {:induction false} CleanPrefix(a: string, b: string)
    requires Clean(a + b)
    ensures Clean(a)
    decreases |a|
  {
    var r := Parse(a, 0);
    if r != NeedMore {
      ParseStable(a, b, 0);
      if r.Reply? {
        assert (a + b)[r.consumed..] == a[r.consumed..] + b;
        CleanPrefix(a[r.consumed..], b);
      }
    }
  }

  function Flatten(chunks: seq<string>): string {
    if chunks == [] then "" else Flatten(chunks[..|chunks| - 1]) + chunks[|chunks| - 1]
  }

  function Feed(c: Client, chunks: seq<string>): Client {
    if chunks == [] then c else Receive(Feed(c, chunks[..|chunks| - 1]), chunks[|chunks| - 1])
  }

  /** However a stream is cut, the callers see the same. */
  lemma {:induction false} AnyChunking(c: Client, chunks: seq<string>)
    requires Drain(c) == c && Modelled(c.buffer + Flatten(chunks)) && Clean(c.buffer + Flatten(chunks))
    ensures Feed(c, chunks) == Receive(c, Flatten(chunks))
  {
    if chunks == [] {
      assert c.buffer + "" == c.buffer;
    } else {
      var init, last := chunks[..|chunks| - 1], chunks[|chunks| - 1];
      assert c.buffer + Flatten(chunks) == c.buffer + Flatten(init) + last;
      CleanPrefix(c.buffer + Flatten(init), last);
      ModelledPrefix(c.buffer + Flatten(init), last);
      AnyChunking(c, init);
      TwoChunks(c, Flatten(init), last);
    }
  }

  // ----- every caller is settled at most once, in turn --------------------------------------------------

  datatype Happening = Sent(call: nat) | Data(chunk: string) | Lost

  function Meet(c: Client, h: Happening): Client {
    match h
    case Sent(call) => c.(pending := c.pending + [call])
    case Data(chunk) => Receive(c, chunk)
    case Lost => Fail(c)
  }

  function Play(hs: seq<Happening>): Client {
    if hs == [] then Client("", [], []) else Meet(Play(hs[..|hs| - 1]), hs[|hs| - 1])
  }

  function Calls(hs: seq<Happening>): seq<nat> {
    if hs == [] then []
    else Calls(hs[..|hs| - 1]) + (if hs[|hs| - 1].Sent? then [hs[|hs| - 1].call] else [])
  }

  function Callers(settled: seq<(nat, Outcome)>): seq<nat> {
    seq(|settled|, i requires 0 <= i < |settled| => settled[i].0)
  }

  lemma {:induction false} DrainKeepsCallers(c: Client)
    ensures Callers(Drain(c).settled) + Drain(c).pending == Callers(c.settled) + c.pending
    decreases |c.buffer|
  {
    var r := Parse(c.buffer, 0);
    if r.Reply? { DrainKeepsCallers(Deliver(c, r.value, r.consumed)); }
  }

  /** Whatever is sent, received (unknown type bytes included) and lost: the callers settled so far and those still
      waiting are, in order, exactly the calls made. */
  lemma {:induction false} CallersConserved(hs: seq<Happening>)
    ensures Callers(Play(hs).settled) + Play(hs).pending == Calls(hs)
  {
    if hs != [] {
      CallersConserved(hs[..|hs| - 1]);
      var c := Play(hs[..|hs| - 1]);
      match hs[|hs| - 1]
      case Data(chunk) => DrainKeepsCallers(c.(buffer := c.buffer + chunk));
      case _ =>
    }
  }

  /** What `send`, `onData` and `failAllPending` do to the queue, whatever the parser makes of the bytes. */
  datatype Move = Queue(call: nat) | Shift(outcome: Outcome) | FailAll

  function Moved(c: Client, m: Move): Client {
    match m
    case Queue(call) => c.(pending := c.pending + [call])
    case Shift(outcome) => Settle(c, outcome)
    case FailAll => Fail(c)
  }

  function AllMoved(ms: seq<Move>): Client {
    if ms == [] then Client("", [], []) else Moved(AllMoved(ms[..|ms| - 1]), ms[|ms| - 1])
  }

  function Queued(ms: seq<Move>): seq<nat> {
    if ms == [] then [] else Queued(ms[..|ms| - 1]) + (if ms[|ms| - 1].Queue? then [ms[|ms| - 1].call] else [])
  }

  /** The same of the queue alone: adding at its end, `shift` and emptying it keep every call in its place, so
      conservation does not rest on what the parser makes of the bytes. */
  lemma {:induction false} QueueConserved(ms: seq<Move>)
    ensures Callers(AllMoved(ms).settled) + AllMoved(ms).pending == Queued(ms)
  {
    if ms != [] {
      QueueConserved(ms[..|ms| - 1]);
      var c := AllMoved(ms[..|ms| - 1]);
      assert Callers(c.settled) + c.pending == Queued(ms[..|ms| - 1]);
    }
  }

  // ----- the i-th call gets the i-th reply ----------------------------------------------------------------

  function Stream(hs: seq<Happening>): string {
    if hs == [] then ""
    else Stream(hs[..|hs| - 1]) + (if hs[|hs| - 1].Data? then hs[|hs| - 1].chunk else "")
  }

  /** How many of the replies `ws` have arrived entirely with the bytes `data`, */
  function Complete(data: string, ws: seq<Wire>): (k: nat)
    ensures k <= |ws|
  {
    if ws == [] || |data| < |Encode(ws[0])| then 0
    else 1 + Complete(data[|Encode(ws[0])|..], ws[1..])
  }

  /** and how many bytes those take. */
  function Taken(data: string, ws: seq<Wire>): (t: nat)
    ensures t <= |data|
  {
    if ws == [] || |data| < |Encode(ws[0])| then 0
    else |Encode(ws[0])| + Taken(data[|Encode(ws[0])|..], ws[1..])
  }

  /** The first `n` calls, each with what its reply settles it with. Only a simple error rejects its caller. */
  function Paired(calls: seq<nat>, ws: seq<Wire>, n: nat): seq<(nat, Outcome)>
    requires n <= |calls| && n <= |ws|
  {
    seq(n, i requires 0 <= i < n =>
      (calls[i], if ws[i].SimpleError? then Rejected(ReplyError(ws[i].message)) else Resolved(Meaning(ws[i]))))
  }

  lemma SettledAsSent(w: Wire)
    ensures Settlement(Meaning(w))
      == if w.SimpleError? then Rejected(ReplyError(w.message)) else Resolved(Meaning(w))
  {
  }

  /** Part of a reply is never taken for a whole one. */
  lemma PartNeedsMore(part: string, w: Wire)
    requires WellFormed(w) && part <= Encode(w) && |part| < |Encode(w)|
    ensures Parse(part, 0) == NeedMore
  {
    var e := Encode(w);
    RoundTrip("", w, "");
    assert "" + e + "" == e && part + e[|part|..] == e;
    if Parse(part, 0) != NeedMore { ParseStable(part, e[|part|..], 0); }
  }

  lemma FirstReply(data: string, ws: seq<Wire>)
    requires AllWellFormed(ws) && ws != [] && data <= EncodeAll(ws) && |data| >= |Encode(ws[0])|
    ensures Parse(data, 0) == Reply(Meaning(ws[0]), |Encode(ws[0])|)
    ensures data[|Encode(ws[0])|..] <= EncodeAll(ws[1..])
  {
    var e := Encode(ws[0]);
    Headed(data, e, EncodeAll(ws[1..]));
    ParseHead(data, ws[0], data[|e|..]);
  }

  lemma Headed(data: string, e: string, es: string)
    requires data <= e + es && |data| >= |e|
    ensures data == e + data[|e|..] && data[|e|..] <= es
  {
    assert data[..|e|] == e;
    assert (e + es)[|e|..] == es;
  }

  lemma ParseHead(data: string, w: Wire, rest: string)
    requires WellFormed(w) && data == Encode(w) + rest
    ensures Parse(data, 0) == Reply(Meaning(w), |Encode(w)|)
  {
    RoundTrip("", w, rest);
    assert "" + Encode(w) + rest == data;
  }

  lemma NoReply(data: string, ws: seq<Wire>)
    requires AllWellFormed(ws) && data <= EncodeAll(ws) && (ws == [] || |data| < |Encode(ws[0])|)
    ensures Parse(data, 0) == NeedMore
  {
    if ws != [] {
      assert data <= Encode(ws[0]);
      PartNeedsMore(data, ws[0]);
    }
  }

  /** Draining part of a well-formed stream delivers its complete replies, in order, and keeps the rest. */
  lemma {:induction false} DrainStream(c: Client, ws: seq<Wire>)
    requires AllWellFormed(ws) && c.buffer <= EncodeAll(ws) && Complete(c.buffer, ws) <= |c.pending|
    ensures var k := Complete(c.buffer, ws);
      Drain(c) == Client(c.buffer[Taken(c.buffer, ws)..], c.pending[k..], c.settled + Paired(c.pending, ws, k))
    decreases ws
  {
    if ws == [] || |c.buffer| < |Encode(ws[0])| {
      NoReply(c.buffer, ws);
    } else {
      FirstReply(c.buffer, ws);
      var next := Deliver(c, Meaning(ws[0]), |Encode(ws[0])|);
      DrainStream(next, ws[1..]);
      PairedNext(c.pending, ws, Complete(c.buffer, ws));
    }
  }

  lemma PairedNext(calls: seq<nat>, ws: seq<Wire>, n: nat)
    requires 0 < n <= |calls| && n <= |ws|
    ensures Paired(calls, ws, n) == [(calls[0], Settlement(Meaning(ws[0])))] + Paired(calls[1..], ws[1..], n - 1)
    ensures calls[1..][n - 1..] == calls[n..]
  {
    SettledAsSent(ws[0]);
  }

  lemma Dropped<T>(s: seq<T>, n: nat, m: nat)
    requires n + m <= |s|
    ensures s[n..][m..] == s[n + m..]
  {
  }

  /** Reading `data`, and then `more` with what `data` left over, reads as much as reading both at once. */
  predicate Additive(data: string, more: string, ws: seq<Wire>) {
    var k, t := Complete(data, ws), Taken(data, ws);
    && Complete(data + more, ws) == k + Complete(data[t..] + more, ws[k..])
    && Taken(data + more, ws) == t + Taken(data[t..] + more, ws[k..])
    && data[t..] + more <= EncodeAll(ws[k..])
  }

  lemma AdditiveNext(data: string, more: string, ws: seq<Wire>, n: nat)
    requires ws != [] && n == |Encode(ws[0])| && n <= |data| && Additive(data[n..], more, ws[1..])
    ensures Additive(data, more, ws)
  {
    assert (data + more)[n..] == data[n..] + more;
    Dropped(ws, 1, Complete(data, ws) - 1);
    Dropped(data, n, Taken(data, ws) - n);
  }

  lemma {:induction false} CompleteMore(data: string, more: string, ws: seq<Wire>)
    requires data + more <= EncodeAll(ws) && AllWellFormed(ws)
    ensures Additive(data, more, ws)
  {
    if ws == [] || |data| < |Encode(ws[0])| {
      assert data[0..] == data && ws[0..] == ws;
    } else {
      var n := |Encode(ws[0])|;
      FirstReply(data + more, ws);
      assert (data + more)[n..] == data[n..] + more;
      CompleteMore(data[n..], more, ws[1..]);
      AdditiveNext(data, more, ws, n);
    }
  }

  /** The server never answers a call that was not made. */
  ghost predicate Answering(hs: seq<Happening>, ws: seq<Wire>) {
    forall i :: 0 <= i <= |hs| ==> Complete(Stream(hs[..i]), ws) <= |Calls(hs[..i])|
  }

  /** `c` has dealt with `data`, the first bytes of the encoding of `ws`: the i-th of its calls whose reply is all
      there got the i-th of `ws`; the others wait; and the bytes of no whole reply are kept. */
  ghost predicate Dealt(c: Client, data: string, ws: seq<Wire>, calls: seq<nat>) {
    var k := Complete(data, ws);
    k <= |calls| && c == Client(data[Taken(data, ws)..], calls[k..], Paired(calls, ws, k))
  }

  /** However sends and chunks interleave, while the bytes are those of well-formed replies and the connection
      holds, the i-th call gets the i-th reply, as soon as its last byte is there. */
  lemma {:induction false} InTurn(hs: seq<Happening>, ws: seq<Wire>)
    requires forall i :: 0 <= i < |hs| ==> !hs[i].Lost?
    requires AllWellFormed(ws) && Stream(hs) <= EncodeAll(ws) && Answering(hs, ws)
    ensures Dealt(Play(hs), Stream(hs), ws, Calls(hs))
  {
    if hs != [] {
      var init, last := hs[..|hs| - 1], hs[|hs| - 1];
      AnsweringBefore(hs, ws);
      InTurn(init, ws);
      NextInTurn(Play(init), last, Stream(init), ws, Calls(init), Stream(hs), Calls(hs));
    }
  }

  /** Read off the wire: a simple error rejects its caller with its message, and any other reply, an array that holds
      errors included, resolves it. */
  lemma OutcomesInTurn(hs: seq<Happening>, ws: seq<Wire>, i: nat)
    requires forall j :: 0 <= j < |hs| ==> !hs[j].Lost?
    requires AllWellFormed(ws) && Stream(hs) <= EncodeAll(ws) && Answering(hs, ws) && i < Complete(Stream(hs), ws)
    ensures i < |Play(hs).settled| && i < |Calls(hs)|
    ensures match ws[i]
      case SimpleError(m) => Play(hs).settled[i] == (Calls(hs)[i], Rejected(ReplyError(m)))
      case SimpleString(s) => Play(hs).settled[i] == (Calls(hs)[i], Resolved(Str(s)))
      case BulkString(s) => Play(hs).settled[i] == (Calls(hs)[i], Resolved(Str(s)))
      case Integer(n) => Play(hs).settled[i] == (Calls(hs)[i], Resolved(Num(n)))
      case NullBulk => Play(hs).settled[i] == (Calls(hs)[i], Resolved(Nil))
      case NullArray => Play(hs).settled[i] == (Calls(hs)[i], Resolved(Nil))
      case Array(items) => Play(hs).settled[i] == (Calls(hs)[i], Resolved(Arr(Meanings(items))))
  {
    InTurn(hs, ws);
  }

  /** Well-formed replies, whole or in part, are among the bytes the client is modelled for, and never make it throw. */
  lemma {:induction false} WellFormedModelled(data: string, ws: seq<Wire>)
    requires AllWellFormed(ws) && data <= EncodeAll(ws)
    ensures Modelled(data) && Clean(data)
    decreases ws
  {
    if ws == [] || |data| < |Encode(ws[0])| {
      NoReply(data, ws);
    } else {
      FirstReply(data, ws);
      WellFormedModelled(data[|Encode(ws[0])|..], ws[1..]);
    }
  }

  /** An unknown type byte after `ws`: the replies before it settle their callers, the next caller is rejected, and
      all that follows is dropped. */
  lemma {:induction false} UnknownTypeRejects(c: Client, ws: seq<Wire>, bad: string)
    requires AllWellFormed(ws) && c.buffer == EncodeAll(ws) + bad && |ws| < |c.pending|
    requires bad != [] && bad[0] !in "+-:$*" && Crlf(bad, 1) != -1
    ensures Drain(c) == Client("", c.pending[|ws| + 1..],
      c.settled + Paired(c.pending, ws, |ws|) + [(c.pending[|ws|], Rejected(Unparsable))])
    decreases ws
  {
    if ws == [] {
      assert c.buffer == bad;
      UnknownByte(bad, Crlf(bad, 1));
    } else {
      FirstOfMany(c, ws, bad);
      var next := Deliver(c, Meaning(ws[0]), |Encode(ws[0])|);
      UnknownTypeRejects(next, ws[1..], bad);
      PairedNext(c.pending, ws, |ws|);
      OneMoreSettled(c.settled, (c.pending[0], Settlement(Meaning(ws[0]))), Paired(c.pending[1..], ws[1..], |ws| - 1));
    }
  }

  lemma FirstOfMany(c: Client, ws: seq<Wire>, bad: string)
    requires AllWellFormed(ws) && ws != [] && c.buffer == EncodeAll(ws) + bad
    ensures |Encode(ws[0])| <= |c.buffer| && c.buffer[|Encode(ws[0])|..] == EncodeAll(ws[1..]) + bad
    ensures Drain(c) == Drain(Deliver(c, Meaning(ws[0]), |Encode(ws[0])|))
  {
    var e, es := Encode(ws[0]), EncodeAll(ws[1..]);
    CutAfter(c.buffer, e, es, bad);
    ParseHead(c.buffer, ws[0], es + bad);
    DrainOne(c, Meaning(ws[0]), |e|);
  }

  lemma CutAfter(data: string, e: string, es: string, bad: string)
    requires data == (e + es) + bad
    ensures data == e + (es + bad) && |e| <= |data| && data[|e|..] == es + bad
  {
  }

  lemma DrainOne(c: Client, value: Value, consumed: nat)
    requires Parse(c.buffer, 0) == Reply(value, consumed)
    ensures Drain(c) == Drain(Deliver(c, value, consumed))
  {
  }

  lemma UnknownByte(buf: string, lineEnd: nat)
    requires buf != [] && buf[0] !in "+-:$*" && Crlf(buf, 1) == lineEnd
    ensures Parse(buf, 0) == Bad
  {
    assert Parse(buf, 0) == ParseLine(buf, 0, lineEnd);
  }

  lemma OneMoreSettled<T>(settled: seq<T>, first: T, more: seq<T>)
    ensures (settled + [first]) + more == settled + ([first] + more)
  {
  }

  lemma AnsweringBefore(hs: seq<Happening>, ws: seq<Wire>)
    requires hs != [] && Stream(hs) <= EncodeAll(ws) && Answering(hs, ws)
    ensures var init := hs[..|hs| - 1];
      && Answering(init, ws) && Stream(init) <= EncodeAll(ws) && Complete(Stream(hs), ws) <= |Calls(hs)|
  {
    var init := hs[..|hs| - 1];
    assert hs[..|hs|] == hs;
    forall i | 0 <= i <= |init| ensures Complete(Stream(init[..i]), ws) <= |Calls(init[..i])| {
      assert init[..i] == hs[..i];
    }
  }

  lemma NextInTurn(c: Client, h: Happening, data: string, ws: seq<Wire>, calls: seq<nat>, data': string,
                   calls': seq<nat>)
    requires AllWellFormed(ws) && Dealt(c, data, ws, calls) && !h.Lost?
    requires data' == data + (if h.Data? then h.chunk else "") && calls' == calls + (if h.Sent? then [h.call] else [])
    requires data' <= EncodeAll(ws) && Complete(data', ws) <= |calls'|
    ensures Dealt(Meet(c, h), data', ws, calls')
  {
    if h.Sent? {
      assert data' == data;
      SentInTurn(c, data, ws, calls, h.call);
    } else {
      assert calls' == calls;
      ChunkInTurn(c, data, h.chunk, ws, calls);
    }
  }

  lemma SentInTurn(c: Client, data: string, ws: seq<Wire>, calls: seq<nat>, call: nat)
    requires Dealt(c, data, ws, calls)
    ensures Dealt(c.(pending := c.pending + [call]), data, ws, calls + [call])
  {
    var k := Complete(data, ws);
    assert (calls + [call])[k..] == calls[k..] + [call];
    assert Paired(calls + [call], ws, k) == Paired(calls, ws, k);
  }

  lemma ReceiveRest(c: Client, chunk: string, ws: seq<Wire>) returns (c': Client, k: nat, t: nat)
    requires AllWellFormed(ws) && c.buffer + chunk <= EncodeAll(ws) && Complete(c.buffer + chunk, ws) <= |c.pending|
    ensures c' == Receive(c, chunk) && k == Complete(c.buffer + chunk, ws) && t == Taken(c.buffer + chunk, ws)
    ensures k <= |c.pending| && t <= |c.buffer + chunk|
    ensures c' == Client((c.buffer + chunk)[t..], c.pending[k..], c.settled + Paired(c.pending, ws, k))
  {
    DrainStream(c.(buffer := c.buffer + chunk), ws);
    c', k, t := Receive(c, chunk), Complete(c.buffer + chunk, ws), Taken(c.buffer + chunk, ws);
  }

  /** What is left to deal with after `data` is itself the beginning of a well-formed stream. */
  lemma RestOfStream(c: Client, data: string, chunk: string, ws: seq<Wire>, calls: seq<nat>)
    requires AllWellFormed(ws) && data + chunk <= EncodeAll(ws) && Dealt(c, data, ws, calls)
    requires Complete(data + chunk, ws) <= |calls|
    ensures var rest := ws[Complete(data, ws)..];
      && AllWellFormed(rest) && c.buffer + chunk <= EncodeAll(rest) && Complete(c.buffer + chunk, rest) <= |c.pending|
  {
    CompleteMore(data, chunk, ws);
    AllWellFormedFrom(ws, Complete(data, ws));
  }

  lemma JoinUp(c: Client, c': Client, data: string, chunk: string, ws: seq<Wire>, calls: seq<nat>, m: nat, u: nat)
    requires AllWellFormed(ws) && data + chunk <= EncodeAll(ws) && Dealt(c, data, ws, calls)
    requires Complete(data + chunk, ws) <= |calls|
    requires var rest := ws[Complete(data, ws)..];
      m == Complete(c.buffer + chunk, rest) && u == Taken(c.buffer + chunk, rest)
    requires m <= |c.pending| && u <= |c.buffer + chunk|
    requires var paired := Paired(c.pending, ws[Complete(data, ws)..], m);
      c' == Client((c.buffer + chunk)[u..], c.pending[m..], c.settled + paired)
    ensures Dealt(c', data + chunk, ws, calls)
  {
    CompleteMore(data, chunk, ws);
    PairedSplit(calls, ws, Complete(data, ws), m);
    SliceSplit(data, chunk, Taken(data, ws), u);
  }

  /** A client that has dealt with `data`, and then receives `chunk`, has dealt with both. */
  lemma ChunkInTurn(c: Client, data: string, chunk: string, ws: seq<Wire>, calls: seq<nat>)
    requires AllWellFormed(ws) && data + chunk <= EncodeAll(ws) && Dealt(c, data, ws, calls)
    requires Complete(data + chunk, ws) <= |calls|
    ensures Dealt(Receive(c, chunk), data + chunk, ws, calls)
  {
    RestOfStream(c, data, chunk, ws, calls);
    var c', m, u := ReceiveRest(c, chunk, ws[Complete(data, ws)..]);
    JoinUp(c, c', data, chunk, ws, calls, m, u);
  }

  lemma PairedSplit(calls: seq<nat>, ws: seq<Wire>, k: nat, m: nat)
    requires k + m <= |calls| && k + m <= |ws|
    ensures Paired(calls, ws, k) + Paired(calls[k..], ws[k..], m) == Paired(calls, ws, k + m)
    ensures calls[k..][m..] == calls[k + m..]
  {
  }

  lemma SliceSplit(data: string, chunk: string, t: nat, u: nat)
    requires t <= |data| && u <= |data[t..] + chunk|
    ensures (data[t..] + chunk)[u..] == (data + chunk)[t + u..]
  {
  }

  lemma AllWellFormedFrom(ws: seq<Wire>, k: nat)
    requires AllWellFormed(ws) && k <= |ws|
    ensures AllWellFormed(ws[k..])
  {
  }
}
