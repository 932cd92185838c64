/** The statuses as the tables spell them. */
module PgStatus {
  import opened PgTables
  import opened PgRefinement
  import Saga
  import Services

  function Text(status: Saga.Status): string {
    match status
    case CREATED => "CREATED"
    case INVENTORY_RESERVED => "INVENTORY_RESERVED"
    case PAYMENT_CHARGED => "PAYMENT_CHARGED"
    case SHIPPING_SCHEDULED => "SHIPPING_SCHEDULED"
    case CONFIRMED => "CONFIRMED"
    case COMPENSATING => "COMPENSATING"
    case CANCELLED => "CANCELLED"
    case FAILED => "FAILED"
  }

  /** `m` has the orders of `orders`, with their statuses. */
  ghost predicate Spells(m: Memory, orders: map<Saga.OrderId, Saga.Order>) {
    m.Keys == orders.Keys && forall id :: id in m ==> m[id].status == Text(orders[id].status)
  }

  /** A status is final for the tables exactly when it is for the saga. */
  lemma TextIsTerminal(status: Saga.Status)
    ensures Text(status) in {"CONFIRMED", "CANCELLED", "FAILED"} <==> Saga.IsTerminal(status)
    ensures Saga.IsTerminal(status) <==> status in {Saga.CONFIRMED, Saga.CANCELLED, Saga.FAILED}
  {
    match status
    case CREATED => assert Text(status)[1] == 'R';
    case INVENTORY_RESERVED => assert Text(status)[0] == 'I';
    case PAYMENT_CHARGED => assert Text(status)[0] == 'P';
    case SHIPPING_SCHEDULED => assert Text(status)[0] == 'S';
    case COMPENSATING => assert Text(status)[2] == 'M';
    case _ =>
  }

  /** Both stores give the startup sweep the same orders. */
  lemma SweepAlike(t: Tables, m: Memory, orders: map<Saga.OrderId, Saga.Order>, ids: seq<Saga.OrderId>)
    requires Stands(t, m) && Spells(m, orders)
    requires (forall o :: o in orders <==> o in ids) && (forall i, j :: 0 <= i < j < |ids| ==> ids[i] != ids[j])
    ensures forall id :: Known(Oldest(Select(t.orders, NotTerminal)), id) <==>
      id in orders && !Saga.IsTerminal(orders[id].status)
    ensures forall id :: Known(Oldest(Select(t.orders, NotTerminal)), id) <==> id in Services.Pending(ids, orders)
  {
    forall id ensures Known(Oldest(Select(t.orders, NotTerminal)), id) <==> id in m && Listed(m[id], NotTerminal) {
      QueryLists(t, m, NotTerminal, id);
    }
    Services.PendingOnce(ids, orders);
    forall id ensures id in m && Listed(m[id], NotTerminal) <==> id in orders && !Saga.IsTerminal(orders[id].status) {
      if id in m {
        assert id in orders.Keys;
        TextIsTerminal(orders[id].status);
      }
    }
  }
}
