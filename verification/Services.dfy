/** The four services the orchestrator calls, as objects updated in place. */
module Services {
  import opened Inventory
  import opened Saga

  datatype ReservationResult =
    | Accepted(reservationId: nat, remaining: int)
    | Rejected(reason: Reason, remaining: int)

  datatype Reason = INSUFFICIENT_STOCK | INVALID_QTY | UNKNOWN_SKU

  datatype Resolution = ALREADY_RESOLVED | RELEASED | COMMITTED

  /** Redis as the two scripts see it. `ledger` and `provisioned` are proof bookkeeping. */
  class InventoryService {
    var stock: map<Key, int>
    var resv: map<nat, int>
    var nextId: nat
    ghost var ledger: seq<Entry>
    ghost var provisioned: map<Key, int>

    ghost predicate Valid() reads this { nextId == |ledger| }

    ghost function View(): Depot reads this { Depot(stock, resv, ledger, provisioned) }

    constructor ()
      ensures Valid() && View() == EMPTY
    {
      stock, resv, nextId, ledger, provisioned := map[], map[], 0, [], map[];
    }

    method SetStock(warehouse: string, sku: string, qty: int)
      requires Valid()
      modifies this
      ensures Valid() && View() == Inventory.SetStock(old(View()), StockKey(warehouse, sku), qty)
    {
      var key := StockKey(warehouse, sku);
      provisioned := Inventory.SetStock(View(), key, qty).provisioned;
      stock := stock[key := qty];
    }

    /** The ghost arguments say for which order line the reservation is made. */
    method Reserve(warehouse: string, sku: string, qty: int, ghost order: OrderId, ghost line: nat)
      returns (result: ReservationResult)
      requires Valid()
      modifies this
      ensures Valid()
      ensures var key := StockKey(warehouse, sku);
        && (result.Accepted? <==> qty > 0 && key in old(stock) && old(stock)[key] >= qty)
        && (result.Accepted? ==>
             && result.reservationId == |old(ledger)| && result.remaining == old(stock)[key] - qty
             && View() == Inventory.Reserve(old(View()), key, qty, order, line))
        && (result.Rejected? ==> View() == old(View()))
        && (result.Rejected? ==> match result.reason
             case INVALID_QTY => qty <= 0
             case UNKNOWN_SKU => qty > 0 && key !in old(stock) && result.remaining == 0
             case INSUFFICIENT_STOCK => qty > 0 && key in old(stock) && result.remaining == old(stock)[key] < qty)
    {
      if qty <= 0 { return Rejected(INVALID_QTY, 0); }
      var key := StockKey(warehouse, sku);
      if key !in stock { return Rejected(UNKNOWN_SKU, 0); }
      var available := stock[key];
      if available < qty { return Rejected(INSUFFICIENT_STOCK, available); }
      var id := nextId;
      nextId := nextId + 1;
      stock := stock[key := available - qty];
      resv := resv[id := qty];
      ledger := ledger + [Entry(key, qty, order, line, Live)];
      return Accepted(id, available - qty);
    }

    method Resolve(warehouse: string, sku: string, id: nat, mode: Mode) returns (r: Resolution)
      requires Valid()
      modifies this
      ensures Valid() && View() == Inventory.Resolve(old(View()), StockKey(warehouse, sku), id, mode)
      ensures r == if id !in old(resv) then ALREADY_RESOLVED else if mode == RELEASE then RELEASED else COMMITTED
    {
      var key := StockKey(warehouse, sku);
      if id !in resv { return ALREADY_RESOLVED; }
      var qty := resv[id];
      ledger := Mark(ledger, id, if mode == RELEASE then Released else Committed);
      resv := resv - {id};
      if mode == RELEASE {
        stock := stock[key := (if key in stock then stock[key] else 0) + qty];
        return RELEASED;
      }
      return COMMITTED;
    }

    /** Redis drops a reservation whose time is up. */
    method Lapse(id: nat)
      requires Valid()
      modifies this
      ensures Valid() && View() == Inventory.Lapse(old(View()), id)
    {
      ledger := Inventory.Lapse(View(), id).ledger;
      resv := resv - {id};
    }
  }

  class PaymentGateway {
    var charges: map<OrderId, string>
    const failFor: set<OrderId>

    constructor (failFor: set<OrderId>)
      ensures charges == map[] && this.failFor == failFor
    {
      charges, this.failFor := map[], failFor;
    }

    method Charge(o: OrderId) returns (ok: bool, paymentId: string)
      modifies this
      ensures ok <==> o !in failFor
      ensures charges == if ok then old(charges)[o := "pay_" + o] else old(charges)
      ensures ok ==> paymentId == "pay_" + o
    {
      if o in failFor { return false, ""; }
      paymentId := "pay_" + o;
      charges := charges[o := paymentId];
      ok := true;
    }

    method Refund(o: OrderId) returns (alreadyRefunded: bool)
      modifies this
      ensures alreadyRefunded <==> o !in old(charges)
      ensures charges == old(charges) - {o}
    {
      if o !in charges { return true; }
      charges := charges - {o};
      alreadyRefunded := false;
    }
  }

  class ShippingProvider {
    var shipments: map<OrderId, string>
    const failFor: set<OrderId>

    constructor (failFor: set<OrderId>)
      ensures shipments == map[] && this.failFor == failFor
    {
      shipments, this.failFor := map[], failFor;
    }

    method Schedule(o: OrderId, warehouse: string) returns (ok: bool, shipmentId: string)
      modifies this
      ensures ok <==> o !in failFor
      ensures shipments == if ok then old(shipments)[o := "ship_" + o] else old(shipments)
      ensures ok ==> shipmentId == "ship_" + o
    {
      if o in failFor { return false, ""; }
      shipmentId := "ship_" + o;
      shipments := shipments[o := shipmentId];
      ok := true;
    }

    method Cancel(o: OrderId)
      modifies this
      ensures shipments == old(shipments) - {o}
    {
      shipments := shipments - {o};
    }
  }

  /** `InMemoryOrderStore`: a map that remembers insertion order, as JavaScript's does. */
  class OrderStore {
    var orders: map<OrderId, Order>
    var ids: seq<OrderId>

    ghost predicate Valid() reads this {
      && (forall o :: o in orders <==> o in ids)
      && (forall i, j :: 0 <= i < j < |ids| ==> ids[i] != ids[j])
    }

    constructor ()
      ensures Valid() && orders == map[]
    {
      orders, ids := map[], [];
    }

    method Create(o: OrderId, order: Order)
      requires Valid()
      modifies this
      ensures Valid() && orders == old(orders)[o := order]
      ensures ids == if o in old(orders) then old(ids) else old(ids) + [o]
    {
      if o !in orders { ids := ids + [o]; }
      orders := orders[o := order];
    }

    /** Throws on an unknown id, leaving the store as it was. */
    method UpdateStatus(o: OrderId, status: Status, ev: Event) returns (found: bool)
      requires Valid()
      modifies this
      ensures Valid() && (found <==> o in old(orders))
      ensures found ==> var was := old(orders)[o];
        orders == old(orders)[o := Order(was.lines, status, was.history + [ev])]
      ensures !found ==> orders == old(orders)
      ensures ids == old(ids)
    {
      found := o in orders;
      if found { orders := orders[o := orders[o].(status := status, history := orders[o].history + [ev])]; }
    }

    /** Every order not yet terminal, once each, in insertion order. */
    method NonTerminal() returns (stuck: seq<OrderId>)
      requires Valid()
      ensures forall o :: o in stuck <==> o in orders && orders[o].status !in {CONFIRMED, CANCELLED, FAILED}
      ensures forall o :: o in stuck <==> o in orders && !IsTerminal(orders[o].status)
      ensures forall i, j :: 0 <= i < j < |stuck| ==> stuck[i] != stuck[j]
      ensures |stuck| == |set o | o in orders && !IsTerminal(orders[o].status)|
      ensures stuck == Pending(ids, orders)
    {
      stuck := [];
      for i := 0 to |ids|
        invariant stuck == Pending(ids[..i], orders)
      {
        assert ids[..i + 1][..i] == ids[..i];
        if !IsTerminal(orders[ids[i]].status) {
          stuck := stuck + [ids[i]];
        }
      }
      assert ids[..|ids|] == ids;
      PendingOnce(ids, orders);
      CountDistinct(stuck);
      assert (set o | o in stuck) == set o | o in orders && !IsTerminal(orders[o].status);
    }
  }

  lemma {:induction false} PendingOnce(ids: seq<OrderId>, orders: map<OrderId, Order>)
    requires forall i, j :: 0 <= i < j < |ids| ==> ids[i] != ids[j]
    ensures forall o :: o in Pending(ids, orders) <==> o in ids && o in orders && !IsTerminal(orders[o].status)
    ensures forall i, j :: 0 <= i < j < |Pending(ids, orders)| ==> Pending(ids, orders)[i] != Pending(ids, orders)[j]
  {
    if ids != [] {
      PendingOnce(ids[..|ids| - 1], orders);
      assert ids == ids[..|ids| - 1] + [ids[|ids| - 1]];
      assert ids[|ids| - 1] !in ids[..|ids| - 1];
    }
  }

  /** The unfinished among `ids`, in their order. */
  function Pending(ids: seq<OrderId>, orders: map<OrderId, Order>): seq<OrderId> {
    if ids == [] then []
    else
      var last := ids[|ids| - 1];
      Pending(ids[..|ids| - 1], orders) + (if last in orders && !IsTerminal(orders[last].status) then [last] else [])
  }

  lemma {:induction false} CountDistinct(s: seq<OrderId>)
    requires forall i, j :: 0 <= i < j < |s| ==> s[i] != s[j]
    ensures |set o | o in s| == |s|
  {
    if s != [] {
      var init, last := s[..|s| - 1], s[|s| - 1];
      CountDistinct(init);
      assert last !in init;
      assert (set o | o in s) == (set o | o in init) + {last};
    }
  }

  /** What the orchestrator needs of the bus: the order of the messages on the "orders" topic. */
  class OrdersTopic {
    var log: seq<(OrderId, Event)>

    constructor ()
      ensures log == []
    {
      log := [];
    }

    method Publish(o: OrderId, ev: Event)
      modifies this
      ensures log == old(log) + [(o, ev)]
    {
      log := log + [(o, ev)];
    }
  }
}
