/** Stock counters and reservations as the two Lua scripts leave them, together with a ledger of every
    reservation ever taken. The scripts read and write `stock` and `resv` only; `ledger` and `provisioned`
    are bookkeeping that lets conservation be stated, and the scripts never look at them. */
module Inventory {

  type Key = string

  /** `stock:{warehouse}:{sku}` */
  function StockKey(warehouse: string, sku: string): Key {
    "stock:" + warehouse + ":" + sku
  }

  datatype Mode = RELEASE | COMMIT

  /** What became of a reservation. An expired one is gone from Redis, and its units were not put back. */
  datatype Fate = Live | Released | Committed | Expired

  /** One reservation: the key it was taken from, and the order line it was taken for. */
  datatype Entry = Entry(key: Key, qty: int, order: string, line: nat, fate: Fate)

  /** `resv` holds only a quantity per reservation id, as in Redis. Ids are positions in the ledger, so a
      new one is always fresh. */
  datatype Depot = Depot(stock: map<Key, int>, resv: map<nat, int>, ledger: seq<Entry>, provisioned: map<Key, int>)

  const EMPTY := Depot(map[], map[], [], map[])

  predicate CanReserve(inv: Depot, key: Key, qty: int) {
    qty > 0 && key in inv.stock && inv.stock[key] >= qty
  }

  function Reserve(inv: Depot, key: Key, qty: int, order: string, line: nat): Depot
    requires CanReserve(inv, key, qty)
  {
    inv.(stock := inv.stock[key := inv.stock[key] - qty],
         resv := inv.resv[|inv.ledger| := qty],
         ledger := inv.ledger + [Entry(key, qty, order, line, Live)])
  }

  /** The release/commit script. The credited key is the caller's: the reservation does not record it. */
  function Resolve(inv: Depot, key: Key, id: nat, mode: Mode): Depot {
    if id !in inv.resv then inv
    else if mode == RELEASE then
      var current := if key in inv.stock then inv.stock[key] else 0;
      inv.(stock := inv.stock[key := current + inv.resv[id]],
           resv := inv.resv - {id},
           ledger := Mark(inv.ledger, id, Released))
    else
      inv.(resv := inv.resv - {id}, ledger := Mark(inv.ledger, id, Committed))
  }

  /** The reservation key lapses. Nothing is added back to the counter. */
  function Lapse(inv: Depot, id: nat): Depot {
    if id !in inv.resv then inv
    else inv.(resv := inv.resv - {id}, ledger := Mark(inv.ledger, id, Expired))
  }

  function SetStock(inv: Depot, key: Key, qty: int): Depot {
    var before := if key in inv.stock then inv.stock[key] else 0;
    var total := if key in inv.provisioned then inv.provisioned[key] else 0;
    inv.(stock := inv.stock[key := qty], provisioned := inv.provisioned[key := total + qty - before])
  }

  function Mark(ledger: seq<Entry>, id: nat, fate: Fate): seq<Entry> {
    if id < |ledger| then ledger[id := ledger[id].(fate := fate)] else ledger
  }

  // ----- conservation ------------------------------------------------------------------------------

  /** Units taken from `key` by reservations that met `fate`. */
  function Tally(ledger: seq<Entry>, key: Key, fate: Fate): int {
    if |ledger| == 0 then 0
    else Tally(ledger[..|ledger| - 1], key, fate) + Weight(ledger[|ledger| - 1], key, fate)
  }

  function Weight(e: Entry, key: Key, fate: Fate): int {
    if e.key == key && e.fate == fate then e.qty else 0
  }

  lemma TallyAppend(ledger: seq<Entry>, e: Entry, key: Key, fate: Fate)
    ensures Tally(ledger + [e], key, fate) == Tally(ledger, key, fate) + Weight(e, key, fate)
  {
    assert (ledger + [e])[..|ledger|] == ledger;
  }

  lemma {:induction false} TallyMark(ledger: seq<Entry>, id: nat, to: Fate, key: Key, fate: Fate)
    requires id < |ledger|
    ensures Tally(Mark(ledger, id, to), key, fate)
         == Tally(ledger, key, fate) - Weight(ledger[id], key, fate) + Weight(ledger[id].(fate := to), key, fate)
  {
    var n := |ledger| - 1;
    if id == n {
      assert Mark(ledger, id, to)[..n] == ledger[..n];
    } else {
      TallyMark(ledger[..n], id, to, key, fate);
      assert Mark(ledger, id, to)[..n] == Mark(ledger[..n], id, to);
    }
  }

  ghost predicate Matches(resv: map<nat, int>, ledger: seq<Entry>) {
    && (forall id: nat :: id in resv <==> id < |ledger| && ledger[id].fate == Live)
    && (forall id: nat :: id in resv ==> resv[id] == ledger[id].qty)
  }

  /** For every key: available + live + committed + expired = provisioned, and available is never negative. */
  ghost predicate Conserved(inv: Depot) {
    && inv.stock.Keys == inv.provisioned.Keys
    && Matches(inv.resv, inv.ledger)
    && (forall i :: 0 <= i < |inv.ledger| ==> inv.ledger[i].qty > 0 && inv.ledger[i].key in inv.stock)
    && (forall k :: k in inv.stock ==> inv.stock[k] >= 0 && Balanced(inv, k))
  }

  ghost predicate Balanced(inv: Depot, k: Key)
    requires k in inv.stock && k in inv.provisioned
  {
    inv.stock[k] + Tally(inv.ledger, k, Live) + Tally(inv.ledger, k, Committed) + Tally(inv.ledger, k, Expired)
      == inv.provisioned[k]
  }

  lemma ReserveConserves(inv: Depot, key: Key, qty: int, order: string, line: nat)
    requires Conserved(inv) && CanReserve(inv, key, qty)
    ensures Conserved(Reserve(inv, key, qty, order, line))
  {
    var inv' := Reserve(inv, key, qty, order, line);
    var e := Entry(key, qty, order, line, Live);
    forall k | k in inv'.stock ensures Balanced(inv', k) {
      assert Balanced(inv, k);
      TallyAppend(inv.ledger, e, k, Live);
      TallyAppend(inv.ledger, e, k, Committed);
      TallyAppend(inv.ledger, e, k, Expired);
    }
  }

  lemma MarkTallies(inv: Depot, id: nat, to: Fate, k: Key)
    requires Conserved(inv) && id in inv.resv && k in inv.stock && to != Live
    ensures var l := Mark(inv.ledger, id, to); var e := inv.ledger[id];
      Tally(l, k, Live) + Tally(l, k, Committed) + Tally(l, k, Expired)
        == inv.provisioned[k] - inv.stock[k] - (if e.key == k && to == Released then e.qty else 0)
  {
    assert Balanced(inv, k);
    TallyMark(inv.ledger, id, to, k, Live);
    TallyMark(inv.ledger, id, to, k, Committed);
    TallyMark(inv.ledger, id, to, k, Expired);
  }

  lemma ResolveMatches(inv: Depot, key: Key, id: nat, mode: Mode)
    requires Conserved(inv) && id in inv.resv && inv.ledger[id].key == key
    ensures var inv' := Resolve(inv, key, id, mode);
      && inv'.stock.Keys == inv.stock.Keys && inv'.provisioned == inv.provisioned && Matches(inv'.resv, inv'.ledger)
      && forall i :: 0 <= i < |inv'.ledger| ==> inv'.ledger[i].qty > 0 && inv'.ledger[i].key in inv.stock
  {
    assert key in inv.stock;
  }

  lemma ResolveBalances(inv: Depot, key: Key, id: nat, mode: Mode, k: Key)
    requires Conserved(inv) && id in inv.resv && inv.ledger[id].key == key && k in inv.stock
    ensures var inv' := Resolve(inv, key, id, mode);
      k in inv'.stock && k in inv'.provisioned && inv'.stock[k] >= 0 && Balanced(inv', k)
  {
    MarkTallies(inv, id, if mode == RELEASE then Released else Committed, k);
  }

  /** Releasing conserves because the caller names the key the reservation was taken from. */
  lemma ResolveConserves(inv: Depot, key: Key, id: nat, mode: Mode)
    requires Conserved(inv)
    requires id in inv.resv ==> inv.ledger[id].key == key
    ensures Conserved(Resolve(inv, key, id, mode))
  {
    if id in inv.resv {
      var inv' := Resolve(inv, key, id, mode);
      ResolveMatches(inv, key, id, mode);
      forall k | k in inv'.stock ensures inv'.stock[k] >= 0 && Balanced(inv', k) {
        assert k in inv.stock.Keys;
        ResolveBalances(inv, key, id, mode, k);
      }
    }
  }

  /** The script cannot check the key it credits, and conservation depends on it: exactly a live reservation released
      to another key breaks the balance. */
  lemma ResolveConservesExactly(inv: Depot, key: Key, id: nat, mode: Mode)
    requires Conserved(inv)
    ensures Conserved(Resolve(inv, key, id, mode))
      <==> !(id in inv.resv && mode == RELEASE && inv.ledger[id].key != key)
  {
    if id in inv.resv {
      var inv', own := Resolve(inv, key, id, mode), inv.ledger[id].key;
      if mode == RELEASE && own != key {
        MarkTallies(inv, id, Released, own);
        assert own in inv'.stock && !Balanced(inv', own);
      } else {
        ResolveConserves(inv, own, id, mode);
      }
    }
  }

  lemma LapseConserves(inv: Depot, id: nat)
    requires Conserved(inv)
    ensures Conserved(Lapse(inv, id))
  {
    if id in inv.resv {
      var inv' := Lapse(inv, id);
      forall k | k in inv'.stock ensures Balanced(inv', k) {
        MarkTallies(inv, id, Expired, k);
      }
    }
  }

  lemma {:induction false} TallyOfUnknownKey(ledger: seq<Entry>, key: Key, fate: Fate)
    requires forall i :: 0 <= i < |ledger| ==> ledger[i].key != key
    ensures Tally(ledger, key, fate) == 0
  {
    if |ledger| > 0 {
      TallyOfUnknownKey(ledger[..|ledger| - 1], key, fate);
    }
  }

  lemma SetStockConserves(inv: Depot, key: Key, qty: int)
    requires Conserved(inv) && qty >= 0
    ensures Conserved(SetStock(inv, key, qty))
  {
    var inv' := SetStock(inv, key, qty);
    forall k | k in inv'.stock ensures Balanced(inv', k) {
      if k in inv.stock {
        assert Balanced(inv, k);
      } else {
        TallyOfUnknownKey(inv.ledger, k, Live);
        TallyOfUnknownKey(inv.ledger, k, Committed);
        TallyOfUnknownKey(inv.ledger, k, Expired);
      }
    }
  }
}
