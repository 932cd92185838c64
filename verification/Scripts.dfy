/** The stock counters and reservations of module `Inventory` are what the Lua scripts leave in Redis under the
    `stock:` and `resv:` keys. */
module Scripts {
  import opened Wrappers
  import opened Decimal
  import opened Inventory
  import opened Text
  import R = Redis

  /** `resv:{id}` */
  function ResvKey(id: nat): string { "resv:" + Show(id) }

  predicate IsStockKey(key: string) { |key| >= 6 && key[..6] == "stock:" }

  lemma KeysApart(warehouse: string, sku: string, id: nat)
    ensures IsStockKey(StockKey(warehouse, sku)) && !IsStockKey(ResvKey(id))
  {
    assert StockKey(warehouse, sku)[..6] == "stock:";
    assert ResvKey(id)[0] == 'r';
  }

  lemma ResvKeyInjective(a: nat, b: nat)
    requires ResvKey(a) == ResvKey(b)
    ensures a == b
  {
    assert ResvKey(a)[5..] == Show(a) && ResvKey(b)[5..] == Show(b);
    ShowInjective(a, b);
  }

  /** Two warehouses share a stock key for some skus exactly when one id, with a colon after it, begins the other. */
  lemma StockKeysMeetExactly(w1: string, w2: string)
    ensures (exists s1, s2 :: StockKey(w1, s1) == StockKey(w2, s2)) <==> w1 + ":" <= w2 + ":" || w2 + ":" <= w1 + ":"
  {
    if s1, s2 :| StockKey(w1, s1) == StockKey(w2, s2) { MeetIsPrefix(w1, s1, w2, s2); }
    if w1 + ":" <= w2 + ":" { PrefixMeets(w1, w2); }
    if w2 + ":" <= w1 + ":" { PrefixMeets(w2, w1); }
  }

  lemma MeetIsPrefix(w1: string, s1: string, w2: string, s2: string)
    requires StockKey(w1, s1) == StockKey(w2, s2)
    ensures w1 + ":" <= w2 + ":" || w2 + ":" <= w1 + ":"
  {
    var a, b := w1 + ":" + s1, w2 + ":" + s2;
    assert StockKey(w1, s1)[6..] == a && StockKey(w2, s2)[6..] == b;
    assert a[..|w1| + 1] == w1 + ":" && b[..|w2| + 1] == w2 + ":";
    if |w1| <= |w2| {
      assert b[..|w2| + 1][..|w1| + 1] == b[..|w1| + 1];
    } else {
      assert a[..|w1| + 1][..|w2| + 1] == a[..|w2| + 1];
    }
  }

  lemma PrefixMeets(w1: string, w2: string)
    requires w1 + ":" <= w2 + ":"
    ensures exists s1, s2 :: StockKey(w1, s1) == StockKey(w2, s2)
  {
    if |w1| == |w2| {
      assert (w1 + ":")[..|w1|] == w1 && (w2 + ":")[..|w2|] == w2;
      assert StockKey(w1, "") == StockKey(w2, "");
    } else {
      var b := w2[|w1| + 1..];
      assert (w2 + ":")[..|w1| + 1] == w2[..|w1| + 1] && w2 == (w1 + ":") + b;
      StockKeyClash(w1, b, "");
      assert StockKey(w1, b + ":" + "") == StockKey(w2, "");
    }
  }

  /** So two warehouses without a colon never share one, */
  lemma StockKeyInjective(w1: string, s1: string, w2: string, s2: string)
    requires ':' !in w1 && ':' !in w2 && StockKey(w1, s1) == StockKey(w2, s2)
    ensures w1 == w2 && s1 == s2
  {
    MeetIsPrefix(w1, s1, w2, s2);
    if w1 + ":" <= w2 + ":" { NoColonInside(w1, w2); } else { NoColonInside(w2, w1); }
    assert StockKey(w1, s1)[6 + |w1| + 1..] == s1 && StockKey(w2, s2)[6 + |w2| + 1..] == s2;
  }

  lemma NoColonInside(w1: string, w2: string)
    requires ':' !in w2 && w1 + ":" <= w2 + ":"
    ensures w1 == w2
  {
    assert (w1 + ":")[|w1|] == ':' && (w2 + ":")[|w1|] == ':';
    assert (w1 + ":")[..|w1|] == w1 && (w2 + ":")[..|w2|] == w2;
  }

  /** and any warehouse with a colon shares one with another warehouse, for every sku. */
  lemma StockKeyClash(a: string, b: string, sku: string)
    ensures StockKey(a + ":" + b, sku) == StockKey(a, b + ":" + sku) && a + ":" + b != a
  {
    assert "stock:" + (a + ":" + b) + ":" + sku == "stock:" + a + ":" + (b + ":" + sku);
    assert |a + ":" + b| > |a|;
  }

  /** The counters, none with a time to live, */
  ghost predicate HoldsStock(stock: map<Key, int>, db: R.Db) {
    && (forall k :: k in stock ==> IsStockKey(k))
    && (forall k :: IsStockKey(k) ==> (k in db <==> k in stock))
    && (forall k :: k in stock ==> db[k] == R.Cell(Show(stock[k]), None))
  }

  /** and the reservations, all with one. */
  ghost predicate HoldsResv(resv: map<nat, int>, db: R.Db) {
    && (forall id: nat {:trigger ResvKey(id)} :: ResvKey(id) in db <==> id in resv)
    && (forall id: nat {:trigger ResvKey(id)} :: id in resv ==>
         db[ResvKey(id)].value == Show(resv[id]) && db[ResvKey(id)].expires.Some?)
  }

  ghost predicate Represents(inv: Depot, db: R.Db) { HoldsStock(inv.stock, db) && HoldsResv(inv.resv, db) }

  lemma ResvKeysApart(id: nat)
    ensures forall other: nat {:trigger ResvKey(other)} :: ResvKey(other) == ResvKey(id) ==> other == id
    ensures !IsStockKey(ResvKey(id))
  {
    forall other: nat | ResvKey(other) == ResvKey(id) ensures other == id { ResvKeyInjective(other, id); }
    KeysApart("", "", id);
  }

  lemma PutStock(stock: map<Key, int>, resv: map<nat, int>, db: R.Db, key: Key, n: int)
    requires HoldsStock(stock, db) && HoldsResv(resv, db) && IsStockKey(key)
    ensures var db' := db[key := R.Cell(Show(n), None)]; HoldsStock(stock[key := n], db') && HoldsResv(resv, db')
  {
    forall id: nat ensures ResvKey(id) != key { ResvKeysApart(id); }
  }

  lemma PutResv(stock: map<Key, int>, resv: map<nat, int>, db: R.Db, id: nat, qty: int, expires: int)
    requires HoldsStock(stock, db) && HoldsResv(resv, db)
    ensures var db' := db[ResvKey(id) := R.Cell(Show(qty), Some(expires))];
      HoldsStock(stock, db') && HoldsResv(resv[id := qty], db')
  {
    ResvKeysApart(id);
  }

  lemma DropResv(stock: map<Key, int>, resv: map<nat, int>, db: R.Db, id: nat)
    requires HoldsStock(stock, db) && HoldsResv(resv, db)
    ensures HoldsStock(stock, db - {ResvKey(id)}) && HoldsResv(resv - {id}, db - {ResvKey(id)})
  {
    ResvKeysApart(id);
  }

  lemma ReservedRepresents(inv: Depot, db: R.Db, key: Key, qty: int, expires: int, order: string, line: nat)
    requires Represents(inv, db) && IsStockKey(key) && CanReserve(inv, key, qty)
    ensures Represents(Reserve(inv, key, qty, order, line),
      db[key := R.Cell(Show(inv.stock[key] - qty), None)]
        [ResvKey(|inv.ledger|) := R.Cell(Show(qty), Some(expires))])
  {
    var stock := inv.stock[key := inv.stock[key] - qty];
    PutStock(inv.stock, inv.resv, db, key, inv.stock[key] - qty);
    PutResv(stock, inv.resv, db[key := R.Cell(Show(inv.stock[key] - qty), None)], |inv.ledger|, qty, expires);
  }

  /** reserve.lua accepts exactly what `Reserve` does, leaves what it leaves, and otherwise changes nothing. */
  lemma ReserveRefines(inv: Depot, db: R.Db, now: int, key: Key, qty: int, ttl: int, order: string, line: nat)
    requires Represents(inv, db) && IsStockKey(key) && ttl > 0
    ensures var (db', reply) := R.ReserveScript(db, now, key, ResvKey(|inv.ledger|), qty, ttl);
      if CanReserve(inv, key, qty)
      then Represents(Reserve(inv, key, qty, order, line), db') && reply == R.Pair("OK", inv.stock[key] - qty)
      else db' == db && reply == (if qty <= 0 then R.Failure("INVALID_QTY")
                                  else if key !in inv.stock then R.Pair("UNKNOWN_SKU", 0)
                                  else R.Pair("INSUFFICIENT_STOCK", inv.stock[key]))
  {
    if CanReserve(inv, key, qty) {
      ReserveAccepts(inv, db, now, key, qty, ttl);
      ReservedRepresents(inv, db, key, qty, now + ttl * 1000, order, line);
    } else {
      ReserveRefuses(inv, db, now, key, qty, ttl);
    }
  }

  lemma ReserveAccepts(inv: Depot, db: R.Db, now: int, key: Key, qty: int, ttl: int)
    requires Represents(inv, db) && IsStockKey(key) && ttl > 0 && CanReserve(inv, key, qty)
    ensures R.ReserveScript(db, now, key, ResvKey(|inv.ledger|), qty, ttl)
      == (db[key := R.Cell(Show(inv.stock[key] - qty), None)]
            [ResvKey(|inv.ledger|) := R.Cell(Show(qty), Some(now + ttl * 1000))], R.Pair("OK", inv.stock[key] - qty))
  {
    StockCell(inv, db, key);
    ScriptOutcome(db, now, key, inv.stock[key], ResvKey(|inv.ledger|), qty, ttl);
  }

  lemma ReserveRefuses(inv: Depot, db: R.Db, now: int, key: Key, qty: int, ttl: int)
    requires Represents(inv, db) && IsStockKey(key) && ttl > 0 && !CanReserve(inv, key, qty)
    ensures R.ReserveScript(db, now, key, ResvKey(|inv.ledger|), qty, ttl)
      == (db, if qty <= 0 then R.Failure("INVALID_QTY")
              else if key !in inv.stock then R.Pair("UNKNOWN_SKU", 0)
              else R.Pair("INSUFFICIENT_STOCK", inv.stock[key]))
  {
    StockCell(inv, db, key);
    if key in inv.stock {
      ScriptOutcome(db, now, key, inv.stock[key], ResvKey(|inv.ledger|), qty, ttl);
    } else {
      UnknownOutcome(db, now, key, ResvKey(|inv.ledger|), qty, ttl);
    }
  }

  lemma StockCell(inv: Depot, db: R.Db, key: Key)
    requires Represents(inv, db) && IsStockKey(key)
    ensures key in inv.stock <==> key in db
    ensures key in inv.stock ==> db[key] == R.Cell(Show(inv.stock[key]), None)
  {
  }

  /** reserve.lua on a known key that holds `available`. */
  lemma ScriptOutcome(db: R.Db, now: int, key: Key, available: int, resvKey: string, qty: int, ttl: int)
    requires ttl > 0 && key in db && db[key] == R.Cell(Show(available), None)
    ensures R.ReserveScript(db, now, key, resvKey, qty, ttl)
      == if qty <= 0 then (db, R.Failure("INVALID_QTY"))
         else if available < qty then (db, R.Pair("INSUFFICIENT_STOCK", available))
         else (db[key := R.Cell(Show(available - qty), None)][resvKey := R.Cell(Show(qty), Some(now + ttl * 1000))],
               R.Pair("OK", available - qty))
  {
    NumberOfShow(available);
  }

  lemma UnknownOutcome(db: R.Db, now: int, key: Key, resvKey: string, qty: int, ttl: int)
    requires ttl > 0 && key !in db
    ensures R.ReserveScript(db, now, key, resvKey, qty, ttl)
      == (db, if qty <= 0 then R.Failure("INVALID_QTY") else R.Pair("UNKNOWN_SKU", 0))
  {
  }

  /** release.lua does what `Resolve` does. */
  lemma ResolveRefines(inv: Depot, db: R.Db, key: Key, id: nat, mode: Mode)
    requires Represents(inv, db) && IsStockKey(key)
    ensures key in db ==> Number(db[key].value).Some?
    ensures var (db', reply) := R.ReleaseScript(db, key, ResvKey(id), if mode == RELEASE then "RELEASE" else "COMMIT");
      && Represents(Resolve(inv, key, id, mode), db')
      && reply == (if id !in inv.resv then R.Pair("ALREADY_RESOLVED", 0)
                   else if mode == RELEASE then R.Pair("RELEASED", inv.resv[id])
                   else R.Pair("COMMITTED", inv.resv[id]))
  {
    StockCell(inv, db, key);
    if key in inv.stock { NumberOfShow(inv.stock[key]); }
    if id in inv.resv {
      ResvKeysApart(id);
      var current := if key in inv.stock then inv.stock[key] else 0;
      ReleaseOutcome(db, key, ResvKey(id), current, inv.resv[id], mode);
      DropResv(inv.stock, inv.resv, db, id);
      PutStock(inv.stock, inv.resv - {id}, db - {ResvKey(id)}, key, current + inv.resv[id]);
    } else {
      assert ResvKey(id) !in db;
    }
  }

  /** release.lua on a live reservation of `qty`, with `current` at the counter. */
  lemma ReleaseOutcome(db: R.Db, key: Key, resvKey: string, current: int, qty: int, mode: Mode)
    requires resvKey in db && db[resvKey].value == Show(qty) && resvKey != key
    requires if key in db then db[key] == R.Cell(Show(current), None) else current == 0
    ensures key in db ==> Number(db[key].value).Some?
    ensures R.ReleaseScript(db, key, resvKey, if mode == RELEASE then "RELEASE" else "COMMIT")
      == if mode == RELEASE then ((db - {resvKey})[key := R.Cell(Show(current + qty), None)], R.Pair("RELEASED", qty))
         else (db - {resvKey}, R.Pair("COMMITTED", qty))
  {
    NumberOfShow(qty);
    NumberOfShow(current);
  }

  lemma SetRefines(inv: Depot, db: R.Db, key: Key, qty: int)
    requires Represents(inv, db) && IsStockKey(key)
    ensures Represents(SetStock(inv, key, qty), R.Set(db, key, Show(qty)))
  {
    PutStock(inv.stock, inv.resv, db, key, qty);
  }

  // ----- expiry ---------------------------------------------------------------------------------------

  function LapseAll(inv: Depot, ids: seq<nat>): Depot {
    if ids == [] then inv else Lapse(LapseAll(inv, ids[..|ids| - 1]), ids[|ids| - 1])
  }

  lemma {:induction false} LapseAllLeaves(inv: Depot, ids: seq<nat>)
    ensures LapseAll(inv, ids).stock == inv.stock
    ensures LapseAll(inv, ids).resv == map id | id in inv.resv && id !in ids :: inv.resv[id]
  {
    if ids != [] {
      LapseAllLeaves(inv, ids[..|ids| - 1]);
      assert ids == ids[..|ids| - 1] + [ids[|ids| - 1]];
    }
  }

  lemma SeqOf(s: set<nat>) returns (ids: seq<nat>)
    ensures forall id :: id in ids <==> id in s
  {
    ids := [];
    var rest := s;
    while rest != {}
      invariant rest <= s && forall id :: id in ids <==> id in s && id !in rest
      decreases rest
    {
      var id :| id in rest;
      ids := ids + [id];
      rest := rest - {id};
    }
  }

  /** The passing of time makes some reservations lapse and does nothing else: no unit goes back to stock. */
  lemma TimePasses(inv: Depot, db: R.Db, now: int) returns (ids: seq<nat>)
    requires Represents(inv, db)
    ensures Represents(LapseAll(inv, ids), R.Live(db, now))
    ensures LapseAll(inv, ids).stock == inv.stock
    ensures forall id :: id in ids <==>
      id in inv.resv && db[ResvKey(id)].expires.Some? && db[ResvKey(id)].expires.value <= now
  {
    ids := SeqOf(set id | id in inv.resv && R.Over(db[ResvKey(id)], now));
    LapseAllLeaves(inv, ids);
    forall id: nat ensures !IsStockKey(ResvKey(id)) { ResvKeysApart(id); }
  }
}
