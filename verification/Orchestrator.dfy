/** `SagaOrchestrator`, awaited without interruption. The objects it drives always stand in a state of the saga
    machine, and each of its awaits is one step of that machine; so what holds of all runs holds of it. */
module Orchestrator {
  import opened Inventory
  import opened Saga
  import opened SagaInvariant
  import opened SagaSteps
  import opened SagaAlone
  import opened Services

  /** Only awaits of one activity: the run of `o`, or the recoverer `r`. */
  datatype Who = Runner(o: OrderId) | Rescuer(r: nat)

  predicate By(who: Who, a: Action) {
    match who
    case Runner(o) => a.Run? && a.o == o
    case Rescuer(r) => a.RecoverStep? && a.r == r
  }

  ghost predicate Present(w: World, who: Who) {
    match who
    case Runner(o) => o in w.orders && o in w.runs && o !in w.crashed
    case Rescuer(r) => r in w.recs && w.recs[r].alive && w.recs[r].order in w.orders
  }

  ghost function OrderOf(w: World, who: Who): OrderId
    requires Present(w, who)
  {
    match who
    case Runner(o) => o
    case Rescuer(r) => w.recs[r].order
  }

  ghost function ProcOf(w: World, who: Who): Proc
    requires Present(w, who)
  {
    match who
    case Runner(o) => w.runs[o]
    case Rescuer(r) => w.recs[r].proc
  }

  function Await(who: Who, ok: bool): Action {
    match who
    case Runner(o) => Run(o, ok)
    case Rescuer(r) => RecoverStep(r)
  }

  lemma Acted(actions: seq<Action>, who: Who, ok: bool)
    requires Present(Exec(INIT, actions, false), who)
    requires who.Rescuer? ==> !ok
    ensures var w, w' := Exec(INIT, actions, false), Exec(INIT, actions + [Await(who, ok)], false);
      var (s, p') := Step(w, OrderOf(w, who), ProcOf(w, who), ok);
      && Present(w', who) && OrderOf(w', who) == OrderOf(w, who) && ProcOf(w', who) == p'
      && w'.inv == s.inv && w'.charges == s.charges && w'.shipments == s.shipments
      && w'.orders == s.orders && w'.log == s.log && w'.crashed == w.crashed
  {
    assert (actions + [Await(who, ok)])[..|actions|] == actions;
    var w := Exec(INIT, actions, false);
    StepFrame(w, OrderOf(w, who), ProcOf(w, who), ok);
  }

  /** The first message of an order goes out. */
  lemma FirstAwait(actions: seq<Action>, o: OrderId)
    requires var w := Exec(INIT, actions, false);
      o in w.orders && o in w.runs && o !in w.crashed && w.runs[o] == Proc([], false, false, Publishing(Created))
    ensures var w := Exec(INIT, actions, false);
      Exec(INIT, actions + [Await(Runner(o), false)], false)
        == w.(log := w.log + [(o, Created)], runs := w.runs[o := Proc([], false, false, Ready)])
  {
    assert (actions + [Await(Runner(o), false)])[..|actions|] == actions;
  }

  /** `after` is the run `before` continued by awaits of `who` only. */
  ghost predicate Extends(before: seq<Action>, after: seq<Action>, who: Who) {
    before <= after && forall i :: |before| <= i < |after| ==> By(who, after[i])
  }

  lemma ExtendsTrans(a: seq<Action>, b: seq<Action>, c: seq<Action>, who: Who)
    requires Extends(a, b, who) && Extends(b, c, who)
    ensures Extends(a, c, who)
  {
    forall i | |a| <= i < |c| ensures By(who, c[i]) {
      if i < |b| { assert c[i] == b[i]; }
    }
  }

  class SagaOrchestrator {
    const inventory: InventoryService
    const payments: PaymentGateway
    const shipping: ShippingProvider
    const topic: OrdersTopic
    const store: OrderStore
    ghost var actions: seq<Action>

    ghost function World(): World reads this { Exec(INIT, actions, false) }

    ghost predicate Valid()
      reads this, inventory, payments, shipping, topic, store
    {
      && inventory.Valid() && store.Valid()
      && var w := World();
      && inventory.View() == w.inv
      && payments.charges.Keys == w.charges
      && shipping.shipments.Keys == w.shipments
      && topic.log == w.log
      && store.orders == w.orders
    }

    constructor (inventory: InventoryService, payments: PaymentGateway, shipping: ShippingProvider,
                 topic: OrdersTopic, store: OrderStore)
      requires inventory.Valid() && inventory.View() == EMPTY && store.Valid() && store.orders == map[]
      requires payments.charges == map[] && shipping.shipments == map[] && topic.log == []
      ensures Valid() && actions == []
      ensures this.inventory == inventory && this.payments == payments && this.shipping == shipping
      ensures this.topic == topic && this.store == store
    {
      this.inventory, this.payments, this.shipping := inventory, payments, shipping;
      this.topic, this.store := topic, store;
      actions := [];
    }

    /** `createOrder` under a fresh id; delivering the message it publishes starts the run. */
    method CreateOrder(o: OrderId, lines: seq<Line>)
      requires Valid() && o !in store.orders
      modifies this, store, topic
      ensures Valid() && At(Runner(o), o, Proc([], false, false, Ready))
      ensures store.orders == old(store.orders)[o := Order(lines, CREATED, [])]
      ensures topic.log == old(topic.log) + [(o, Created)]
      ensures var w := old(World());
        World() == w.(orders := store.orders, log := topic.log, runs := w.runs[o := Proc([], false, false, Ready)])
    {
      StoreNew(o, lines);
      ghost var stored := actions;
      Announce(o, Created, Proc([], false, false, Publishing(Created)), Runner(o));
      FirstAwait(stored, o);
    }

    /** `await this.store.create(order)` */
    method StoreNew(o: OrderId, lines: seq<Line>)
      requires Valid() && o !in store.orders
      modifies this, store
      ensures Valid() && At(Runner(o), o, Proc([], false, false, Publishing(Created)))
      ensures store.orders == old(store.orders)[o := Order(lines, CREATED, [])]
      ensures var w := old(World());
        World() == w.(orders := store.orders, runs := w.runs[o := Proc([], false, false, Publishing(Created))])
    {
      Reachable(actions, false);
      store.Create(o, Order(lines, CREATED, []));
      assert (actions + [Create(o, lines)])[..|actions|] == actions;
      actions := actions + [Create(o, lines)];
    }

    /** The process running `o` dies between two awaits: nothing durable changes. */
    ghost method Die(o: OrderId)
      requires Valid() && Present(World(), Runner(o)) && !World().runs[o].phase.Done?
      modifies this
      ensures Valid() && World() == old(World()).(crashed := old(World()).crashed + {o})
    {
      assert (actions + [Crash(o)])[..|actions|] == actions;
      actions := actions + [Crash(o)];
    }

    /** Somebody sets a counter. */
    method SetStock(warehouse: string, sku: string, qty: nat)
      requires Valid()
      modifies this, inventory
      ensures Valid()
      ensures World() == old(World()).(inv := Inventory.SetStock(old(World()).inv, StockKey(warehouse, sku), qty))
    {
      ghost var a := Provision(StockKey(warehouse, sku), qty);
      inventory.SetStock(warehouse, sku, qty);
      assert (actions + [a])[..|actions|] == actions;
      actions := actions + [a];
    }

    /** A reservation's time runs out. */
    method Lapse(id: nat)
      requires Valid()
      modifies this, inventory
      ensures Valid() && World() == old(World()).(inv := Inventory.Lapse(old(World()).inv, id))
    {
      inventory.Lapse(id);
      assert (actions + [Expire(id)])[..|actions|] == actions;
      actions := actions + [Expire(id)];
    }

    /** Where `who` stands after the run so far. */
    ghost predicate At(who: Who, o: OrderId, p: Proc) reads this {
      Present(World(), who) && OrderOf(World(), who) == o && ProcOf(World(), who) == p
    }

    /** `await this.store.updateStatus(...)` */
    method Record(o: OrderId, status: Status, ev: Event, ghost p: Proc, ghost who: Who)
      requires Valid() && At(who, o, p) && p.phase == Recording(ev) && status == StatusOf(ev)
      modifies this, store
      ensures Valid() && At(who, o, p.(phase := Publishing(ev))) && actions == old(actions) + [Await(who, false)]
      ensures o in old(store.orders)
      ensures var was := old(store.orders)[o];
        store.orders == old(store.orders)[o := Order(was.lines, status, was.history + [ev])]
    {
      var found := store.UpdateStatus(o, status, ev);
      Acted(actions, who, false);
      actions := actions + [Await(who, false)];
    }

    /** `await this.eventBus.publish(...)` */
    method Announce(o: OrderId, ev: Event, ghost p: Proc, ghost who: Who)
      requires Valid() && At(who, o, p) && p.phase == Publishing(ev)
      modifies this, topic
      ensures Valid() && At(who, o, p.(phase := AfterPublish(p, ev))) && actions == old(actions) + [Await(who, false)]
      ensures topic.log == old(topic.log) + [(o, ev)]
    {
      topic.Publish(o, ev);
      Acted(actions, who, false);
      actions := actions + [Await(who, false)];
    }

    /** `transition`: the store write, then the publish. */
    method Transition(o: OrderId, status: Status, ev: Event, ghost p: Proc, ghost who: Who)
      requires Valid() && At(who, o, p) && p.phase == Recording(ev) && status == StatusOf(ev)
      modifies this, store, topic
      ensures Valid() && At(who, o, p.(phase := AfterPublish(p, ev)))
      ensures Extends(old(actions), actions, who)
      ensures o in old(store.orders)
      ensures var was := old(store.orders)[o];
        store.orders == old(store.orders)[o := Order(was.lines, status, was.history + [ev])]
    {
      Record(o, status, ev, p, who);
      Announce(o, ev, p.(phase := Publishing(ev)), who);
    }

    /** `await this.shipping.cancel(...)` */
    method CancelShipment(o: OrderId, ghost p: Proc, ghost who: Who)
      requires Valid() && At(who, o, p) && p.phase.Cancelling?
      modifies this, shipping
      ensures Valid() && At(who, o, p.(phase := AfterCancel(p))) && actions == old(actions) + [Await(who, false)]
    {
      shipping.Cancel(o);
      Acted(actions, who, false);
      actions := actions + [Await(who, false)];
    }

    /** `await this.payments.refund(...)` */
    method Refund(o: OrderId, ghost p: Proc, ghost who: Who)
      requires Valid() && At(who, o, p) && p.phase.Refunding?
      modifies this, payments
      ensures Valid() && At(who, o, p.(phase := NextRelease(p.held, 0)))
      ensures actions == old(actions) + [Await(who, false)]
    {
      var _ := payments.Refund(o);
      Acted(actions, who, false);
      actions := actions + [Await(who, false)];
    }

    /** `await this.inventory.release(...)` */
    method Release(o: OrderId, r: Held, ghost p: Proc, ghost who: Who)
      requires Valid() && At(who, o, p) && p.phase.Releasing? && p.phase.i < |p.held| && r == p.held[p.phase.i]
      modifies this, inventory
      ensures Valid() && At(who, o, p.(phase := NextRelease(p.held, p.phase.i + 1)))
      ensures actions == old(actions) + [Await(who, false)]
    {
      var _ := inventory.Resolve(r.warehouse, r.sku, r.id, RELEASE);
      Acted(actions, who, false);
      actions := actions + [Await(who, false)];
    }

    /** `for (const r of reservations) await this.inventory.release(...)` */
    method ReleaseAll(o: OrderId, reservations: seq<Held>, ghost p: Proc, ghost who: Who)
      requires Valid() && At(who, o, p.(phase := NextRelease(p.held, 0))) && reservations == p.held
      modifies this, inventory
      ensures Valid() && At(who, o, p.(phase := Recording(Cancelled)))
      ensures Extends(old(actions), actions, who)
    {
      for i := 0 to |reservations|
        invariant Valid() && At(who, o, p.(phase := NextRelease(p.held, i)))
        invariant Extends(old(actions), actions, who)
      {
        Release(o, reservations[i], p.(phase := Releasing(i)), who);
      }
    }

    /** The shipment, if there was one, and then the payment. */
    method UndoCalls(o: OrderId, paid: bool, shipped: bool, ghost p: Proc, ghost who: Who)
      requires Valid() && p.paid == paid && p.shipped == shipped
      requires At(who, o, p.(phase := AfterPublish(p, Compensating)))
      modifies this, payments, shipping
      ensures Valid() && At(who, o, p.(phase := NextRelease(p.held, 0)))
      ensures Extends(old(actions), actions, who)
    {
      if shipped {
        CancelShipment(o, p.(phase := Cancelling), who);
      }
      if paid {
        Refund(o, p.(phase := Refunding), who);
      }
    }

    /** The completed steps are undone in reverse, and then the reservations in the order they were made. */
    method Compensate(o: OrderId, reservations: seq<Held>, paid: bool, shipped: bool, ghost who: Who)
      requires Valid() && At(who, o, Proc(reservations, paid, shipped, Recording(Compensating)))
      modifies this, inventory, payments, shipping, topic, store
      ensures Valid() && At(who, o, Proc(reservations, paid, shipped, Recording(Cancelled)))
      ensures Extends(old(actions), actions, who)
    {
      ghost var p := Proc(reservations, paid, shipped, Recording(Compensating));
      Transition(o, COMPENSATING, Compensating, p, who);
      ghost var recorded := actions;
      UndoCalls(o, paid, shipped, p, who);
      ghost var undone := actions;
      ExtendsTrans(old(actions), recorded, undone, who);
      ReleaseAll(o, reservations, p, who);
      ExtendsTrans(old(actions), undone, actions, who);
    }

    method Fail(o: OrderId, ghost p: Proc, ghost who: Who)
      requires Valid() && At(who, o, p) && p.phase == Recording(Cancelled)
      modifies this, topic, store
      ensures Valid() && At(who, o, p.(phase := Done(false)))
      ensures o in store.orders && store.orders[o].status == CANCELLED
      ensures Extends(old(actions), actions, who)
    {
      Transition(o, CANCELLED, Cancelled, p, who);
    }

    /** `compensate`, then `fail`. */
    method Unwind(o: OrderId, reservations: seq<Held>, paid: bool, shipped: bool, ghost who: Who)
      returns (result: Order)
      requires Valid() && At(who, o, Proc(reservations, paid, shipped, Recording(Compensating)))
      modifies this, inventory, payments, shipping, topic, store
      ensures Valid() && At(who, o, Proc(reservations, paid, shipped, Done(false)))
      ensures Extends(old(actions), actions, who)
      ensures o in store.orders && result == store.orders[o] && result.status == CANCELLED
    {
      Compensate(o, reservations, paid, shipped, who);
      Fail(o, Proc(reservations, paid, shipped, Recording(Cancelled)), who);
      result := store.orders[o];
    }

    /** `await this.inventory.reserve(...)` for the next line. */
    method ReserveNext(o: OrderId, line: Line, reservations: seq<Held>, ghost order: Order)
      returns (ok: bool, reservations': seq<Held>)
      requires Valid() && At(Runner(o), o, Proc(reservations, false, false, Reserving))
      requires o in store.orders && store.orders[o] == order
      requires |reservations| < |order.lines| && line == order.lines[|reservations|]
      modifies this, inventory
      ensures Valid() && store.orders[o] == order && actions == old(actions) + [Saga.Run(o, true)]
      ensures ok <==> line.qty > 0 && line.Key() in old(inventory.stock) && old(inventory.stock)[line.Key()] >= line.qty
      ensures ok ==> inventory.stock == old(inventory.stock)[line.Key() := old(inventory.stock)[line.Key()] - line.qty]
      ensures |reservations'| == |reservations| + (if ok then 1 else 0)
      ensures ok ==> At(Runner(o), o, Proc(reservations', false, false, NextReserve(reservations', |order.lines|)))
      ensures !ok ==> At(Runner(o), o, Proc(reservations', false, false, Recording(Compensating)))
    {
      var answer := inventory.Reserve(line.warehouse, line.sku, line.qty, o, |reservations|);
      Acted(actions, Runner(o), true);
      actions := actions + [Await(Runner(o), true)];
      ok := answer.Accepted?;
      reservations' := reservations;
      if ok { reservations' := reservations + [Held(line.warehouse, line.sku, answer.reservationId)]; }
    }

    /** `await this.payments.charge(...)` */
    method Charge(o: OrderId, ghost held: seq<Held>) returns (ok: bool)
      requires Valid() && At(Runner(o), o, Proc(held, false, false, Charging))
      modifies this, payments
      ensures Valid() && actions == old(actions) + [Saga.Run(o, ok)] && (ok <==> o !in payments.failFor)
      ensures At(Runner(o), o, Proc(held, false, false, if ok then Recording(Charged) else Recording(Compensating)))
    {
      var paymentId;
      ok, paymentId := payments.Charge(o);
      Acted(actions, Runner(o), ok);
      actions := actions + [Await(Runner(o), ok)];
    }

    /** `await this.shipping.schedule(...)` */
    method Schedule(o: OrderId, warehouse: string, ghost held: seq<Held>) returns (ok: bool)
      requires Valid() && At(Runner(o), o, Proc(held, false, false, Shipping))
      modifies this, shipping
      ensures Valid() && actions == old(actions) + [Saga.Run(o, ok)] && (ok <==> o !in shipping.failFor)
      ensures At(Runner(o), o, Proc(held, !ok, false, if ok then Recording(Shipped) else Recording(Compensating)))
    {
      var shipmentId;
      ok, shipmentId := shipping.Schedule(o, warehouse);
      Acted(actions, Runner(o), ok);
      actions := actions + [Await(Runner(o), ok)];
    }

    /** `await this.inventory.commit(...)` */
    method Commit(o: OrderId, r: Held, i: nat, ghost held: seq<Held>)
      requires Valid() && At(Runner(o), o, Proc(held, false, false, Committing(i))) && i < |held| && r == held[i]
      modifies this, inventory
      ensures Valid() && At(Runner(o), o, Proc(held, false, false, NextCommit(held, i + 1)))
      ensures actions == old(actions) + [Saga.Run(o, true)]
    {
      var _ := inventory.Resolve(r.warehouse, r.sku, r.id, COMMIT);
      Acted(actions, Runner(o), true);
      actions := actions + [Await(Runner(o), true)];
    }

    /** `await this.mustGet(...)` */
    method Begin(o: OrderId) returns (order: Order)
      requires Valid() && At(Runner(o), o, Proc([], false, false, Ready))
      modifies this
      ensures Valid() && o in store.orders && order == store.orders[o]
      ensures At(Runner(o), o, Proc([], false, false, NextReserve([], |order.lines|)))
      ensures actions == old(actions) + [Saga.Run(o, true)]
    {
      order := store.orders[o];
      Acted(actions, Runner(o), true);
      actions := actions + [Await(Runner(o), true)];
    }

    /** The same await, with what it says about filling the order from the `stock` the activity began with. */
    method ReserveFilling(o: OrderId, order: Order, reservations: seq<Held>, ghost stock: map<Key, int>)
      returns (ok: bool, reservations': seq<Held>)
      requires Valid() && At(Runner(o), o, Proc(reservations, false, false, Reserving))
      requires o in store.orders && store.orders[o] == order && |reservations| < |order.lines|
      requires var done := order.lines[..|reservations|];
        Fillable(stock, done) && inventory.stock == Less(stock, done)
      modifies this, inventory
      ensures Valid() && store.orders[o] == order && actions == old(actions) + [Saga.Run(o, true)]
      ensures |reservations'| == |reservations| + (if ok then 1 else 0)
      ensures ok ==> At(Runner(o), o, Proc(reservations', false, false, NextReserve(reservations', |order.lines|)))
      ensures ok ==> var done := order.lines[..|reservations'|];
        Fillable(stock, done) && inventory.stock == Less(stock, done)
      ensures !ok ==> At(Runner(o), o, Proc(reservations', false, false, Recording(Compensating)))
      ensures !ok ==> !Fillable(stock, order.lines)
    {
      var i := |reservations|;
      assert order.lines[..i + 1] == order.lines[..i] + [order.lines[i]];
      FillableNext(stock, order.lines[..i], order.lines[i]);
      ok, reservations' := ReserveNext(o, order.lines[i], reservations, order);
      if !ok { NotFillable(stock, order.lines, i + 1); }
    }

    /** Step 1: every line, or up to the first that cannot be reserved. */
    method ReserveAll(o: OrderId) returns (ok: bool, order: Order, reservations: seq<Held>)
      requires Valid() && At(Runner(o), o, Proc([], false, false, Ready))
      modifies this, inventory
      ensures Valid() && Extends(old(actions), actions, Runner(o))
      ensures o in store.orders && order == store.orders[o]
      ensures ok <==> Fillable(old(inventory.stock), order.lines)
      ensures At(Runner(o), o,
        Proc(reservations, false, false, if ok then Recording(Reserved(reservations)) else Recording(Compensating)))
    {
      order := Begin(o);
      ok, reservations := true, [];
      ghost var stock := inventory.stock;
      Reachable(actions, false);
      NothingAsked(World().inv);
      assert order.lines[..0] == [];
      for i := 0 to |order.lines|
        invariant Valid() && o in store.orders && store.orders[o] == order && |reservations| == i && ok
        invariant At(Runner(o), o, Proc(reservations, false, false, NextReserve(reservations, |order.lines|)))
        invariant Extends(old(actions), actions, Runner(o))
        invariant Fillable(stock, order.lines[..i]) && inventory.stock == Less(stock, order.lines[..i])
      {
        ok, reservations := ReserveFilling(o, order, reservations, stock);
        if !ok { return; }
      }
      assert order.lines[..|order.lines|] == order.lines;
    }

    /** Step 4: commit every reservation, then confirm. */
    method Confirm(o: OrderId, reservations: seq<Held>) returns (result: Order)
      requires Valid() && At(Runner(o), o, Proc(reservations, false, false, NextCommit(reservations, 0)))
      modifies this, inventory, topic, store
      ensures Valid() && Extends(old(actions), actions, Runner(o))
      ensures At(Runner(o), o, Proc(reservations, false, false, Done(true)))
      ensures o in store.orders && result == store.orders[o]
    {
      for i := 0 to |reservations|
        invariant Valid() && At(Runner(o), o, Proc(reservations, false, false, NextCommit(reservations, i)))
        invariant Extends(old(actions), actions, Runner(o))
      {
        Commit(o, reservations[i], i, reservations);
      }
      Transition(o, CONFIRMED, Confirmed, Proc(reservations, false, false, Recording(Confirmed)), Runner(o));
      result := store.orders[o];
    }

    /** Step 3, and what follows it. */
    method Ship(o: OrderId, order: Order, reservations: seq<Held>) returns (result: Order)
      requires Valid() && At(Runner(o), o, Proc(reservations, false, false, Shipping))
      modifies this, inventory, payments, shipping, topic, store
      ensures Valid() && Extends(old(actions), actions, Runner(o)) && Finished(o, result, o !in shipping.failFor)
    {
      var primaryWarehouse := if order.lines == [] then "unknown" else order.lines[0].warehouse;
      var shipped := Schedule(o, primaryWarehouse, reservations);
      ghost var called := actions;
      if !shipped {
        result := Unwind(o, reservations, true, false, Runner(o));
        ExtendsTrans(old(actions), called, actions, Runner(o));
        return;
      }
      Transition(o, SHIPPING_SCHEDULED, Shipped, Proc(reservations, false, false, Recording(Shipped)), Runner(o));
      ghost var recorded := actions;
      ExtendsTrans(old(actions), called, recorded, Runner(o));
      result := Confirm(o, reservations);
      ExtendsTrans(old(actions), recorded, actions, Runner(o));
    }

    /** Step 2, and what follows it. */
    method Pay(o: OrderId, order: Order, reservations: seq<Held>) returns (result: Order)
      requires Valid() && At(Runner(o), o, Proc(reservations, false, false, Charging))
      modifies this, inventory, payments, shipping, topic, store
      ensures Valid() && Extends(old(actions), actions, Runner(o))
      ensures Finished(o, result, o !in payments.failFor && o !in shipping.failFor)
    {
      var paid := Charge(o, reservations);
      ghost var called := actions;
      if !paid {
        result := Unwind(o, reservations, false, false, Runner(o));
        ExtendsTrans(old(actions), called, actions, Runner(o));
        return;
      }
      Transition(o, PAYMENT_CHARGED, Charged, Proc(reservations, false, false, Recording(Charged)), Runner(o));
      ghost var recorded := actions;
      ExtendsTrans(old(actions), called, recorded, Runner(o));
      result := Ship(o, order, reservations);
      ExtendsTrans(old(actions), recorded, actions, Runner(o));
    }

    /** The saga of one order, await by await. */
    method Steps(o: OrderId) returns (result: Order)
      requires Valid() && At(Runner(o), o, Proc([], false, false, Ready))
      modifies this, inventory, payments, shipping, topic, store
      ensures Valid() && Extends(old(actions), actions, Runner(o))
      ensures o in old(store.orders) && Finished(o, result,
        Fillable(old(inventory.stock), old(store.orders)[o].lines) && o !in payments.failFor && o !in shipping.failFor)
    {
      var reserved, order, reservations := ReserveAll(o);
      if !reserved {
        result := Unwind(o, reservations, false, false, Runner(o));
        return;
      }
      ghost var p := Proc(reservations, false, false, Recording(Reserved(reservations)));
      Transition(o, INVENTORY_RESERVED, Reserved(reservations), p, Runner(o));
      result := Pay(o, order, reservations);
    }

    /** The activity of `o` has ended, and `result` is the order as it left it. */
    ghost predicate Finished(o: OrderId, result: Order, confirmed: bool) reads this, store {
      && Present(World(), Runner(o)) && World().runs[o].phase == Done(confirmed)
      && o in store.orders && result == store.orders[o]
    }

    /** The saga of one order, from the delivery of its `order.created`, when nothing else acts meanwhile. It is
        confirmed exactly when the whole order can be filled and neither service declines, and has then taken
        exactly what was asked; otherwise it is cancelled and nothing is left of it. */
    method Run(o: OrderId) returns (result: Order)
      requires Valid() && At(Runner(o), o, Proc([], false, false, Ready))
      modifies this, inventory, payments, shipping, topic, store
      ensures Valid() && Extends(old(actions), actions, Runner(o))
      ensures o in old(store.orders) && store.orders == old(store.orders)[o := result]
      ensures result.lines == old(store.orders)[o].lines
      ensures result.status == CONFIRMED || result.status == CANCELLED
      ensures result.status == CONFIRMED <==>
        Fillable(old(inventory.stock), result.lines) && o !in payments.failFor && o !in shipping.failFor
      ensures inventory.stock == if result.status == CONFIRMED then Less(old(inventory.stock), result.lines)
                                 else old(inventory.stock)
      ensures inventory.resv == old(inventory.resv)
      ensures payments.charges.Keys == old(payments.charges.Keys) + (if result.status == CONFIRMED then {o} else {})
      ensures shipping.shipments.Keys == old(shipping.shipments.Keys) + (if result.status == CONFIRMED then {o} else {})
      ensures OthersStand(old(World()), World(), o)
    {
      ghost var before := actions;
      result := Steps(o);
      AloneRun(before, actions, o);
      RunnerLeaves(before, actions, o);
    }
  }

  /** No other activity moved, and nobody died or began to recover. */
  ghost predicate OthersStand(w0: World, w: World, o: OrderId) {
    o in w.runs && w.runs == w0.runs[o := w.runs[o]] && w.crashed == w0.crashed && w.recs == w0.recs
  }

  lemma {:induction false} RunnerLeaves(before: seq<Action>, after: seq<Action>, o: OrderId)
    requires Extends(before, after, Runner(o)) && Present(Exec(INIT, before, false), Runner(o))
    ensures Present(Exec(INIT, after, false), Runner(o))
    ensures OthersStand(Exec(INIT, before, false), Exec(INIT, after, false), o)
  {
    if |after| == |before| {
      assert after == before;
    } else {
      var init, a := after[..|after| - 1], after[|after| - 1];
      assert Extends(before, init, Runner(o));
      RunnerLeaves(before, init, o);
      var w := Exec(INIT, init, false);
      StepFrame(w, o, w.runs[o], a.ok);
    }
  }

  /** The effect of a run undisturbed from its start to its end. */
  lemma AloneRun(before: seq<Action>, after: seq<Action>, o: OrderId)
    requires Extends(before, after, Runner(o))
    requires var w0 := Exec(INIT, before, false);
      Present(w0, Runner(o)) && w0.runs[o] == Proc([], false, false, Ready)
    requires var w := Exec(INIT, after, false); Present(w, Runner(o)) && w.runs[o].phase.Done?
    ensures var w0, w := Exec(INIT, before, false), Exec(INIT, after, false);
      var confirmed := w.runs[o].phase.confirmed;
      && w.orders == w0.orders[o := w.orders[o]] && w.orders[o].lines == w0.orders[o].lines
      && w.orders[o].status == (if confirmed then CONFIRMED else CANCELLED)
      && w.inv.stock == (if confirmed then Less(w0.inv.stock, w.orders[o].lines) else w0.inv.stock)
      && w.inv.resv == w0.inv.resv
      && w.charges == w0.charges + (if confirmed then {o} else {})
      && w.shipments == w0.shipments + (if confirmed then {o} else {})
  {
    Reachable(before, false);
    Reachable(after, false);
    var w0, w := Exec(INIT, before, false), Exec(INIT, after, false);
    assert OrderOk(w0, o) && OrderOk(w, o);
    AloneThroughout(before, after, o);
    NetStock(w0, w, o);
    NetCalls(w0, w, o);
  }

  lemma {:induction false} AloneThroughout(before: seq<Action>, after: seq<Action>, o: OrderId)
    requires Extends(before, after, Runner(o))
    requires var w0 := Exec(INIT, before, false);
      Present(w0, Runner(o)) && OrderOk(w0, o) && w0.runs[o] == Proc([], false, false, Ready)
    ensures Alone(Exec(INIT, before, false), Exec(INIT, after, false), o)
  {
    if |after| == |before| {
      assert after == before;
    } else {
      var init, a := after[..|after| - 1], after[|after| - 1];
      assert Extends(before, init, Runner(o));
      AloneThroughout(before, init, o);
      Reachable(init, false);
      AloneStep(Exec(INIT, before, false), Exec(INIT, init, false), o, a.ok);
    }
  }
}
