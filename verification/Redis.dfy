/** Redis as the scripts see it: keys that are gone the moment their time is up, and the two Lua scripts run
    over them. This is the reference the in-process client is measured against. */
module Redis {
  import opened Wrappers
  import opened Decimal

  /** A value and, for a key with a time to live, the instant it ends. */
  datatype Cell = Cell(value: string, expires: Option<int>)

  type Db = map<string, Cell>

  datatype Reply =
    | Ok | Bulk(text: Option<string>) | Count(count: nat) | Pair(status: string, amount: int)
    | Failure(message: string)

  predicate Over(c: Cell, now: int) { c.expires.Some? && c.expires.value <= now }

  /** What is left at `now`. */
  function Live(db: Db, now: int): Db {
    map k | k in db && !Over(db[k], now) :: db[k]
  }

  // ----- the commands the scripts use ---------------------------------------------------------------

  function Get(db: Db, key: string): Option<string> {
    if key in db then Some(db[key].value) else None
  }

  function Set(db: Db, key: string, value: string): Db {
    db[key := Cell(value, None)]
  }

  function SetEx(db: Db, key: string, value: string, expires: int): Db {
    db[key := Cell(value, Some(expires))]
  }

  function Del(db: Db, key: string): Db { db - {key} }

  function ToNumber(text: Option<string>): Option<int> {
    if text.None? then None else Number(text.value)
  }

  /** INCRBY and DECRBY keep the key's time to live. */
  function IncrBy(db: Db, key: string, delta: int): Db
    requires key in db ==> Number(db[key].value).Some?
  {
    if key in db then db[key := Cell(Show(Number(db[key].value).value + delta), db[key].expires)]
    else db[key := Cell(Show(delta), None)]
  }

  // ----- reserve.lua, release.lua ---------------------------------------------------------------------

  function ReserveScript(db: Db, now: int, stockKey: string, resvKey: string, qty: int, ttl: int): (Db, Reply)
    requires ttl > 0
  {
    if qty <= 0 then (db, Failure("INVALID_QTY"))
    else
      var available := ToNumber(Get(db, stockKey));
      if available.None? then (db, Pair("UNKNOWN_SKU", 0))
      else if available.value < qty then (db, Pair("INSUFFICIENT_STOCK", available.value))
      else (SetEx(IncrBy(db, stockKey, -qty), resvKey, Show(qty), now + ttl * 1000), Pair("OK", available.value - qty))
  }

  function ReleaseScript(db: Db, stockKey: string, resvKey: string, mode: string): (Db, Reply)
    requires stockKey in db ==> Number(db[stockKey].value).Some?
  {
    var qty := ToNumber(Get(db, resvKey));
    if qty.None? then (db, Pair("ALREADY_RESOLVED", 0))
    else
      var db' := Del(db, resvKey);
      if mode == "RELEASE" then (IncrBy(db', stockKey, qty.value), Pair("RELEASED", qty.value))
      else if mode == "COMMIT" then (db', Pair("COMMITTED", qty.value))
      else (db', Failure("INVALID_MODE"))
  }

  function DelAll(db: Db, keys: seq<string>): (Db, nat) {
    if keys == [] then (db, 0)
    else
      var (db', n) := DelAll(db, keys[..|keys| - 1]);
      var key := keys[|keys| - 1];
      (Del(db', key), if key in db' then n + 1 else n)
  }

  // ----- one command, and a run -----------------------------------------------------------------------

  datatype Command =
    | GET(key: string) | SET(key: string, value: string) | DEL(keys: seq<string>)
    | RESERVE(stockKey: string, resvKey: string, qty: int, ttl: int)
    | RELEASE(stockKey: string, resvKey: string, mode: string)

  /** `setStock` writes `String(qty)` and nothing else is ever set; and times to live are positive. */
  predicate Sane(c: Command) {
    match c
    case SET(_, value) => Canonical(value)
    case RESERVE(_, _, _, ttl) => ttl > 0
    case _ => true
  }

  predicate Numeric(db: Db) {
    forall k {:trigger Canonical(db[k].value)} :: k in db ==> Canonical(db[k].value)
  }

  predicate Readable(db: Db) {
    forall k {:trigger Number(db[k].value)} :: k in db ==> Number(db[k].value).Some?
  }

  lemma NumericReadable(db: Db)
    requires Numeric(db)
    ensures Readable(db)
  {
    forall k | k in db ensures Number(db[k].value).Some? { assert Canonical(db[k].value); }
  }

  /** What Redis does with `c` at `now`, over the keys still live. */
  function Serve(db: Db, now: int, c: Command): (Db, Reply)
    requires Numeric(db) && Sane(c)
  {
    NumericReadable(db);
    match c
    case GET(key) => (db, Bulk(Get(db, key)))
    case SET(key, value) => (Set(db, key, value), Ok)
    case DEL(keys) => var (db', n) := DelAll(db, keys); (db', Count(n))
    case RESERVE(stockKey, resvKey, qty, ttl) => ReserveScript(db, now, stockKey, resvKey, qty, ttl)
    case RELEASE(stockKey, resvKey, mode) => ReleaseScript(db, stockKey, resvKey, mode)
  }

  /** DEL removes every key it names, and counts those that were there. */
  lemma {:induction false} DelAllExactly(db: Db, keys: seq<string>)
    ensures DelAll(db, keys).0 == db - (set k | k in keys)
    ensures DelAll(db, keys).1 == |set k | k in keys && k in db|
  {
    if keys != [] {
      var init, last := keys[..|keys| - 1], keys[|keys| - 1];
      DelAllExactly(db, init);
      assert keys == init + [last];
      assert (set k | k in keys) == (set k | k in init) + {last};
      var gone := set k | k in init && k in db;
      assert (set k | k in keys && k in db) == if last in db then gone + {last} else gone;
      assert last in DelAll(db, init).0 <==> last in db && last !in gone;
      assert last in gone ==> gone + {last} == gone;
    }
  }

  lemma {:induction false} DelAllNumeric(db: Db, keys: seq<string>)
    requires Numeric(db)
    ensures Numeric(DelAll(db, keys).0)
  {
    if keys != [] { DelAllNumeric(db, keys[..|keys| - 1]); }
  }

  lemma NumericPut(db: Db, key: string, cell: Cell, n: int)
    requires Numeric(db) && cell.value == Show(n)
    ensures Numeric(db[key := cell])
  {
    NumberOfShow(n);
  }

  lemma NumericIncrBy(db: Db, key: string, delta: int)
    requires Numeric(db) && Readable(db)
    ensures Numeric(IncrBy(db, key, delta))
  {
    if key in db {
      var n := Number(db[key].value).value + delta;
      NumericPut(db, key, Cell(Show(n), db[key].expires), n);
    } else {
      NumericPut(db, key, Cell(Show(delta), None), delta);
    }
  }

  lemma NumericDel(db: Db, key: string)
    requires Numeric(db)
    ensures Numeric(Del(db, key))
  {
  }

  lemma ReserveNumeric(db: Db, now: int, stockKey: string, resvKey: string, qty: int, ttl: int)
    requires Numeric(db) && ttl > 0
    ensures Numeric(ReserveScript(db, now, stockKey, resvKey, qty, ttl).0)
  {
    NumericReadable(db);
    NumericIncrBy(db, stockKey, -qty);
    NumericPut(IncrBy(db, stockKey, -qty), resvKey, Cell(Show(qty), Some(now + ttl * 1000)), qty);
  }

  lemma ReleaseNumeric(db: Db, stockKey: string, resvKey: string, mode: string)
    requires Numeric(db) && Readable(db)
    ensures Numeric(ReleaseScript(db, stockKey, resvKey, mode).0)
  {
    var qty := ToNumber(Get(db, resvKey));
    NumericDel(db, resvKey);
    NumericReadable(Del(db, resvKey));
    if qty.Some? { NumericIncrBy(Del(db, resvKey), stockKey, qty.value); }
  }

  lemma ServeNumeric(db: Db, now: int, c: Command)
    requires Numeric(db) && Sane(c)
    ensures Numeric(Serve(db, now, c).0)
  {
    NumericReadable(db);
    match c
    case DEL(keys) => DelAllNumeric(db, keys);
    case RESERVE(stockKey, resvKey, qty, ttl) => ReserveNumeric(db, now, stockKey, resvKey, qty, ttl);
    case RELEASE(stockKey, resvKey, mode) => ReleaseNumeric(db, stockKey, resvKey, mode);
    case _ =>
  }

  predicate AllSane(calls: seq<(int, Command)>) { forall i :: 0 <= i < |calls| ==> Sane(calls[i].1) }

  /** An eagerly expiring database after the first `n` of `calls`, and its replies. */
  ghost function Eager(db: Db, calls: seq<(int, Command)>, n: nat): (r: (Db, seq<Reply>))
    requires Numeric(db) && AllSane(calls) && n <= |calls|
    ensures Numeric(r.0) && |r.1| == n
  {
    if n == 0 then (db, [])
    else
      var (before, replies) := Eager(db, calls, n - 1);
      var (now, c) := calls[n - 1];
      ServeNumeric(Live(before, now), now, c);
      var (after, reply) := Serve(Live(before, now), now, c);
      (after, replies + [reply])
  }

  lemma EagerNext(db: Db, calls: seq<(int, Command)>, n: nat)
    requires Numeric(db) && AllSane(calls) && n < |calls|
    ensures var (before, replies) := Eager(db, calls, n); var (now, c) := calls[n];
      && Numeric(Live(before, now))
      && Eager(db, calls, n + 1)
        == (Serve(Live(before, now), now, c).0, replies + [Serve(Live(before, now), now, c).1])
  {
  }

  lemma LiveTwice(db: Db, t: int, now: int)
    requires t <= now
    ensures Live(Live(db, t), now) == Live(db, now)
  {
  }

  // ----- how long a reservation lasts -------------------------------------------------------------------

  /** `c` may change what is at `key`. */
  predicate Touches(c: Command, key: string) {
    match c
    case GET(_) => false
    case SET(k, _) => k == key
    case DEL(keys) => key in keys
    case RESERVE(stockKey, resvKey, _, _) => key == stockKey || key == resvKey
    case RELEASE(stockKey, resvKey, _) => key == stockKey || key == resvKey
  }

  lemma Untouched(db: Db, now: int, c: Command, key: string)
    requires Numeric(db) && Sane(c) && !Touches(c, key)
    ensures key in Serve(db, now, c).0 <==> key in db
    ensures key in db ==> Serve(db, now, c).0[key] == db[key]
  {
    NumericReadable(db);
    match c
    case DEL(keys) => DelAllExactly(db, keys);
    case RESERVE(stockKey, resvKey, qty, ttl) => ReserveElsewhere(db, now, stockKey, resvKey, qty, ttl, key);
    case RELEASE(stockKey, resvKey, mode) => ReleaseElsewhere(db, stockKey, resvKey, mode, key);
    case _ =>
  }

  lemma ReserveElsewhere(db: Db, now: int, stockKey: string, resvKey: string, qty: int, ttl: int, key: string)
    requires Readable(db) && ttl > 0 && key != stockKey && key != resvKey
    ensures var db' := ReserveScript(db, now, stockKey, resvKey, qty, ttl).0;
      (key in db' <==> key in db) && (key in db ==> db'[key] == db[key])
  {
  }

  lemma ReleaseElsewhere(db: Db, stockKey: string, resvKey: string, mode: string, key: string)
    requires Readable(db) && key != stockKey && key != resvKey
    ensures var db' := ReleaseScript(db, stockKey, resvKey, mode).0;
      (key in db' <==> key in db) && (key in db ==> db'[key] == db[key])
  {
  }

  /** At `now` the reservation is there if its time is not up, and if it is there it is as it was made. */
  ghost predicate Lasting(db: Db, key: string, qty: int, end: int, now: int) {
    && (key in db ==> db[key] == Cell(Show(qty), Some(end)))
    && (now < end ==> key in db)
  }

  lemma LastingLater(db: Db, key: string, qty: int, end: int, before: int, now: int)
    requires Lasting(db, key, qty, end, before) && before <= now
    ensures Lasting(Live(db, now), key, qty, end, now)
    ensures key in Live(db, now) <==> now < end
  {
  }

  /** An accepted reservation is there from then on. */
  lemma Reserved(db: Db, t: int, stockKey: string, resvKey: string, qty: int, ttl: int, left: int)
    requires Numeric(db) && ttl > 0 && stockKey != resvKey
    requires ReserveScript(db, t, stockKey, resvKey, qty, ttl).1 == Pair("OK", left)
    ensures Lasting(ReserveScript(db, t, stockKey, resvKey, qty, ttl).0, resvKey, qty, t + ttl * 1000, t)
  {
  }

  /** A run of commands at non-decreasing times. */
  ghost predicate Run(calls: seq<(int, Command)>) {
    AllSane(calls) && forall i, j :: 0 <= i < j < |calls| ==> calls[i].0 <= calls[j].0
  }

  /** The first call makes a reservation at `resvKey`, which is accepted. */
  ghost predicate Makes(db: Db, calls: seq<(int, Command)>, resvKey: string, left: int) {
    && Numeric(db) && Run(calls) && calls != []
    && calls[0].1.RESERVE? && calls[0].1.resvKey == resvKey && calls[0].1.stockKey != resvKey
    && Eager(db, calls, 1).1 == [Pair("OK", left)]
  }

  lemma Made(db: Db, calls: seq<(int, Command)>, resvKey: string, left: int)
    requires Makes(db, calls, resvKey, left)
    ensures var (t, c) := calls[0]; Lasting(Eager(db, calls, 1).0, resvKey, c.qty, t + c.ttl * 1000, t)
  {
    var (t, c) := calls[0];
    EagerNext(db, calls, 0);
    assert Eager(db, calls, 0) == (db, []);
    assert Eager(db, calls, 1).1 == [Serve(Live(db, t), t, c).1];
    Reserved(Live(db, t), t, c.stockKey, resvKey, c.qty, c.ttl, left);
  }

  lemma LastsNext(db: Db, calls: seq<(int, Command)>, n: nat, key: string, qty: int, end: int)
    requires Numeric(db) && Run(calls) && 0 < n < |calls| && !Touches(calls[n].1, key)
    requires Lasting(Eager(db, calls, n).0, key, qty, end, calls[n - 1].0)
    ensures Lasting(Eager(db, calls, n + 1).0, key, qty, end, calls[n].0)
  {
    var before := Eager(db, calls, n).0;
    var (now, c) := calls[n];
    EagerNext(db, calls, n);
    assert calls[n - 1].0 <= now && Sane(c);
    LastsOne(before, calls[n - 1].0, now, c, key, qty, end);
    assert Eager(db, calls, n + 1).0 == Serve(Live(before, now), now, c).0;
  }

  lemma {:induction false} LastsUntouched(db: Db, calls: seq<(int, Command)>, resvKey: string, left: int, n: nat)
    requires Makes(db, calls, resvKey, left) && 0 < n <= |calls|
    requires forall i :: 0 < i < n ==> !Touches(calls[i].1, resvKey)
    ensures var (t, c) := calls[0]; Lasting(Eager(db, calls, n).0, resvKey, c.qty, t + c.ttl * 1000, calls[n - 1].0)
  {
    var (t, c) := calls[0];
    if n == 1 {
      Made(db, calls, resvKey, left);
    } else {
      LastsUntouched(db, calls, resvKey, left, n - 1);
      LastsNext(db, calls, n - 1, resvKey, c.qty, t + c.ttl * 1000);
    }
  }

  lemma LastsOne(db: Db, before: int, now: int, c: Command, key: string, qty: int, end: int)
    requires Numeric(db) && Sane(c) && !Touches(c, key) && before <= now && Lasting(db, key, qty, end, before)
    ensures Numeric(Live(db, now)) && Lasting(Serve(Live(db, now), now, c).0, key, qty, end, now)
  {
    LastingLater(db, key, qty, end, before, now);
    LiveNumeric(db, now);
    Untouched(Live(db, now), now, c, key);
  }

  lemma LiveNumeric(db: Db, now: int)
    requires Numeric(db)
    ensures Numeric(Live(db, now))
  {
  }

  lemma ReleasedIfLasting(db: Db, before: int, now: int, stockKey: string, key: string, mode: string, qty: int,
                          end: int)
    requires Numeric(db) && before <= now && Lasting(db, key, qty, end, before)
    requires mode == "RELEASE" || mode == "COMMIT"
    ensures Numeric(Live(db, now))
    ensures Serve(Live(db, now), now, RELEASE(stockKey, key, mode)).1
      == if now < end then Pair(if mode == "RELEASE" then "RELEASED" else "COMMITTED", qty)
         else Pair("ALREADY_RESOLVED", 0)
  {
    LastingLater(db, key, qty, end, before, now);
    LiveNumeric(db, now);
    NumberOfShow(qty);
  }

  /** A reservation that nothing touched is released, or committed, exactly when fewer than `ttl` seconds have passed;
      from then on the answer is ALREADY_RESOLVED. */
  lemma ReservationLasts(db: Db, calls: seq<(int, Command)>, stockKey: string, resvKey: string, mode: string, left: int)
    requires Makes(db, calls, resvKey, left) && |calls| >= 2 && (mode == "RELEASE" || mode == "COMMIT")
    requires calls[|calls| - 1].1 == RELEASE(stockKey, resvKey, mode)
    requires forall i :: 0 < i < |calls| - 1 ==> !Touches(calls[i].1, resvKey)
    ensures var (t, c) := calls[0]; var now := calls[|calls| - 1].0;
      Eager(db, calls, |calls|).1[|calls| - 1]
        == if now < t + c.ttl * 1000 then Pair(if mode == "RELEASE" then "RELEASED" else "COMMITTED", c.qty)
           else Pair("ALREADY_RESOLVED", 0)
  {
    var n := |calls| - 1;
    var (t, c) := calls[0];
    LastsUntouched(db, calls, resvKey, left, n);
    ReleasedIfLasting(Eager(db, calls, n).0, calls[n - 1].0, calls[n].0, stockKey, resvKey, mode, c.qty,
                      t + c.ttl * 1000);
    LastReply(db, calls);
  }

  lemma LastReply(db: Db, calls: seq<(int, Command)>)
    requires Numeric(db) && Run(calls) && calls != []
    ensures var n := |calls| - 1; var (now, c) := calls[n]; var before := Eager(db, calls, n).0;
      Numeric(Live(before, now)) && Eager(db, calls, |calls|).1[n] == Serve(Live(before, now), now, c).1
  {
    EagerNext(db, calls, |calls| - 1);
  }
}
