/** `recoverStuck` and the startup sweep over it, with no other writer. */
module Recovery {
  import opened Saga
  import opened SagaInvariant
  import opened SagaSteps
  import opened Orchestrator

  /** Recovery of order `o` touches no other order: not its record, charge, shipment or reservations. */
  ghost predicate OnlyOrder(w: World, w': World, o: OrderId) {
    && w'.runs == w.runs && w'.crashed == w.crashed
    && w'.orders.Keys == w.orders.Keys
    && (forall q :: q in w.orders && q != o ==> w'.orders[q] == w.orders[q])
    && w'.charges <= w.charges && w.charges <= w'.charges + {o}
    && w'.shipments <= w.shipments && w.shipments <= w'.shipments + {o}
    && LedgerStep(w.inv.ledger, w'.inv.ledger, o)
  }

  lemma OnlyOrderTrans(w0: World, w1: World, w2: World, o: OrderId)
    requires OnlyOrder(w0, w1, o) && OnlyOrder(w1, w2, o)
    ensures OnlyOrder(w0, w2, o)
  {
  }

  lemma RescueStep(w: World, r: nat)
    requires Inv(w) && Enabled(w, RecoverStep(r), false)
    ensures OnlyOrder(w, Apply(w, RecoverStep(r), false), w.recs[r].order)
  {
    var rec := w.recs[r];
    assert RecOk(w, rec) && OrderOk(w, rec.order);
    StepInventory(w, rec.order, rec.proc, false);
    StepFrame(w, rec.order, rec.proc, false);
    RecoverersOnlyUndo(w, rec);
  }

  lemma RecoverersOnlyUndo(w: World, rec: Recoverer)
    requires rec.order in w.orders && RecShape(rec.proc)
    ensures var s := Step(w, rec.order, rec.proc, false).0; s.charges <= w.charges && s.shipments <= w.shipments
  {
  }

  /** A recoverer's awaits, one after another. */
  lemma {:induction false} RescueRun(before: seq<Action>, after: seq<Action>, r: nat, o: OrderId)
    requires Extends(before, after, Rescuer(r))
    requires var w := Exec(INIT, before, false); Present(w, Rescuer(r)) && w.recs[r].order == o
    ensures var w, w' := Exec(INIT, before, false), Exec(INIT, after, false);
      OnlyOrder(w, w', o) && Present(w', Rescuer(r)) && w'.recs[r].order == o && w'.recs.Keys == w.recs.Keys
  {
    if |after| == |before| {
      assert after == before;
    } else {
      var init := after[..|after| - 1];
      assert Extends(before, init, Rescuer(r));
      RescueRun(before, init, r, o);
      Reachable(init, false);
      RescueStep(Exec(INIT, init, false), r);
      Acted(init, Rescuer(r), false);
      assert after == init + [RecoverStep(r)];
      OnlyOrderTrans(Exec(INIT, before, false), Exec(INIT, init, false), Exec(INIT, after, false), o);
    }
  }

  class RecoverySweep {
    const saga: SagaOrchestrator

    ghost predicate Valid()
      reads this, saga, saga.inventory, saga.payments, saga.shipping, saga.topic, saga.store
    {
      saga.Valid()
    }

    /** Over any store, whatever was done to it before. */
    constructor (saga: SagaOrchestrator)
      requires saga.Valid()
      ensures Valid() && this.saga == saga
    {
      this.saga := saga;
    }

    /** A no-op for a terminal order; otherwise undoes what its history proves and cancels it. */
    method RecoverStuck(o: OrderId) returns (result: Order)
      requires Valid() && o in saga.store.orders
      requires !IsTerminal(saga.store.orders[o].status) ==> o in saga.World().crashed
      modifies saga, saga.inventory, saga.payments, saga.shipping, saga.topic, saga.store
      ensures Valid() && o in saga.store.orders && result == saga.store.orders[o]
      ensures IsTerminal(old(saga.store.orders)[o].status) ==> saga.actions == old(saga.actions)
      ensures !IsTerminal(old(saga.store.orders)[o].status) ==> result.status == CANCELLED
      ensures OnlyOrder(old(saga.World()), saga.World(), o)
    {
      var order := saga.store.orders[o];
      if IsTerminal(order.status) { return order; }

      ghost var r := Start(o);
      ghost var started := saga.actions;

      var reservations := FirstReserved(order.history);
      var paid, shipped := Charged in order.history, Shipped in order.history;
      result := saga.Unwind(o, reservations, paid, shipped, Rescuer(r));

      RescueRun(started, saga.actions, r, o);
    }

    /** A new recoverer of `o`, about to write its first record. */
    ghost method Start(o: OrderId) returns (r: nat)
      requires Valid() && o in saga.store.orders
      requires !IsTerminal(saga.store.orders[o].status) && o in saga.World().crashed
      modifies saga
      ensures Valid() && saga.At(Rescuer(r), o, Recovery(saga.store.orders[o]))
      ensures var w := old(saga.World());
        saga.World() == w.(recs := w.recs[r := Recoverer(o, Recovery(saga.store.orders[o]), true)])
    {
      r := Above(saga.World().recs.Keys);
      ghost var before := saga.actions;
      assert (before + [Recover(r, o)])[..|before|] == before;
      saga.actions := before + [Recover(r, o)];
    }

    /** The startup sweep: it reports how many orders were unfinished, leaves none, and disturbs no finished order.
        A sweep that finds none does nothing at all, so a second sweep changes nothing. */
    method RecoverStuckOrders() returns (recovered: nat)
      requires Valid()
      requires forall o <- saga.store.orders :: !IsTerminal(saga.store.orders[o].status) ==> o in saga.World().crashed
      modifies saga, saga.inventory, saga.payments, saga.shipping, saga.topic, saga.store
      ensures Valid()
      ensures var was := old(saga.store.orders);
        && recovered == |set o | o in was && !IsTerminal(was[o].status)|
        && saga.store.orders.Keys == was.Keys
        && (forall o <- was ::
             saga.store.orders[o].status == if IsTerminal(was[o].status) then was[o].status else CANCELLED)
      ensures Spares(old(saga.World()), saga.World(), Unfinished(old(saga.World())))
      ensures recovered == 0 ==> saga.actions == old(saga.actions)
    {
      var stuck := saga.store.NonTerminal();
      ghost var w0 := saga.World();
      for i := 0 to |stuck|
        invariant Valid() && Swept(w0, saga.World(), stuck, i)
        invariant i == 0 ==> saga.actions == old(saga.actions)
      {
        ghost var w := saga.World();
        var result := RecoverStuck(stuck[i]);
        SweptNext(w0, w, saga.World(), stuck, i);
      }
      recovered := |stuck|;
    }
  }

  lemma Above(s: set<nat>) returns (r: nat)
    ensures forall x <- s :: x < r
  {
    if s == {} {
      r := 0;
    } else {
      var x :| x in s;
      r := Above(s - {x});
      assert forall y <- s :: y == x || y in s - {x};
      if r <= x { r := x + 1; }
    }
  }

  ghost function Unfinished(w: World): set<OrderId> {
    set o | o in w.orders && !IsTerminal(w.orders[o].status)
  }

  /** No order outside `some` lost or gained a record, a charge, a shipment or a reservation, and no reservation of
      such an order met another fate. */
  ghost predicate Spares(w: World, w': World, some: set<OrderId>) {
    && w'.orders.Keys == w.orders.Keys && w'.runs == w.runs && w'.crashed == w.crashed
    && (forall q :: q in w.orders && q !in some ==> w'.orders[q] == w.orders[q])
    && (forall q :: q !in some ==> (q in w'.charges <==> q in w.charges) && (q in w'.shipments <==> q in w.shipments))
    && |w.inv.ledger| <= |w'.inv.ledger|
    && (forall id :: 0 <= id < |w.inv.ledger| ==>
         w'.inv.ledger[id].order == w.inv.ledger[id].order
         && (w.inv.ledger[id].order !in some ==> w'.inv.ledger[id] == w.inv.ledger[id]))
    && (forall id :: |w.inv.ledger| <= id < |w'.inv.ledger| ==> w'.inv.ledger[id].order in some)
  }

  /** The first `i` of the `stuck` orders are recovered, and nothing else was touched. */
  ghost predicate Swept(w0: World, w: World, stuck: seq<OrderId>, i: nat) {
    && i <= |stuck|
    && (forall o :: o in stuck <==> o in Unfinished(w0))
    && (forall a, b :: 0 <= a < b < |stuck| ==> stuck[a] != stuck[b])
    && Spares(w0, w, Unfinished(w0))
    && (forall j :: 0 <= j < i ==> stuck[j] in w.orders && w.orders[stuck[j]].status == CANCELLED)
    && (forall j :: i <= j < |stuck| ==>
         stuck[j] in w0.orders && stuck[j] in w.orders && w.orders[stuck[j]] == w0.orders[stuck[j]])
  }

  lemma SweptNext(w0: World, w: World, w': World, stuck: seq<OrderId>, i: nat)
    requires i < |stuck| && Swept(w0, w, stuck, i) && OnlyOrder(w, w', stuck[i])
    requires stuck[i] in w'.orders && w'.orders[stuck[i]].status == CANCELLED
    ensures Swept(w0, w', stuck, i + 1)
  {
    assert stuck[i] in stuck;
    SparesOne(w0, w, w', stuck[i], Unfinished(w0));
  }

  lemma SparesOne(w0: World, w: World, w': World, o: OrderId, some: set<OrderId>)
    requires Spares(w0, w, some) && OnlyOrder(w, w', o) && o in some
    ensures Spares(w0, w', some)
  {
  }
}
