/** The order-fulfilment saga as a step machine. One step is one `await` of the orchestrator; between any two
    steps of one activity every other order, recoverer, crash, expiry and stock update may act. */
module Saga {
  import opened Inventory

  type OrderId = string

  datatype Line = Line(warehouse: string, sku: string, qty: int) {
    function Key(): Key { StockKey(warehouse, sku) }
  }

  /** What the orchestrator remembers of a reservation it made. */
  datatype Held = Held(warehouse: string, sku: string, id: nat) {
    function Key(): Key { StockKey(warehouse, sku) }
  }

  datatype Event =
    | Created | Reserved(reservations: seq<Held>) | Charged | Shipped | Confirmed | Compensating | Cancelled

  datatype Status =
    | CREATED | INVENTORY_RESERVED | PAYMENT_CHARGED | SHIPPING_SCHEDULED | CONFIRMED
    | COMPENSATING | CANCELLED | FAILED

  predicate IsTerminal(s: Status) { s == CONFIRMED || s == CANCELLED || s == FAILED }

  function StatusOf(ev: Event): Status {
    match ev
    case Created => CREATED
    case Reserved(_) => INVENTORY_RESERVED
    case Charged => PAYMENT_CHARGED
    case Shipped => SHIPPING_SCHEDULED
    case Confirmed => CONFIRMED
    case Compensating => COMPENSATING
    case Cancelled => CANCELLED
  }

  /** The durable order record. */
  datatype Order = Order(lines: seq<Line>, status: Status, history: seq<Event>) {
    function Record(ev: Event): Order { Order(lines, StatusOf(ev), history + [ev]) }
  }

  /** The await an activity is suspended at. `transition` is two awaits: the store write and the publish. */
  datatype Phase =
    | Recording(ev: Event) | Publishing(ev: Event)
    | Ready | Reserving | Charging | Shipping | Committing(i: nat)
    | Cancelling | Refunding | Releasing(i: nat)
    | Done(confirmed: bool)

  /** The volatile part of an activity: the `reservations` list and the `completed` flags of `compensate`. */
  datatype Proc = Proc(held: seq<Held>, paid: bool, shipped: bool, phase: Phase)

  datatype Recoverer = Recoverer(order: OrderId, proc: Proc, alive: bool)

  /** `inv`, `charges`, `shipments`, `orders` and `log` outlive every process. `runs` is the single activity
      that creates and then runs each order, and `crashed` says which of them died (a dead one is kept as it
      stood). `recs` are the calls of `recoverStuck`. */
  datatype World = World(
    inv: Depot, charges: set<OrderId>, shipments: set<OrderId>, orders: map<OrderId, Order>,
    log: seq<(OrderId, Event)>,
    runs: map<OrderId, Proc>, crashed: set<OrderId>, recs: map<nat, Recoverer>)

  const INIT := World(EMPTY, {}, {}, map[], [], map[], {}, map[])

  // ----- control flow ------------------------------------------------------------------------------

  function NextReserve(held: seq<Held>, lines: nat): Phase {
    if |held| < lines then Reserving else Recording(Reserved(held))
  }

  function NextCommit(held: seq<Held>, i: nat): Phase {
    if i < |held| then Committing(i) else Recording(Confirmed)
  }

  function NextRelease(held: seq<Held>, i: nat): Phase {
    if i < |held| then Releasing(i) else Recording(Cancelled)
  }

  /** After `transition` returns. */
  function AfterPublish(p: Proc, ev: Event): Phase {
    match ev
    case Created => Ready
    case Reserved(_) => Charging
    case Charged => Shipping
    case Shipped => NextCommit(p.held, 0)
    case Confirmed => Done(true)
    case Compensating => if p.shipped then Cancelling else AfterCancel(p)
    case Cancelled => Done(false)
  }

  function AfterCancel(p: Proc): Phase {
    if p.paid then Refunding else NextRelease(p.held, 0)
  }

  // ----- one await ---------------------------------------------------------------------------------

  /** One await of an activity on order `o`. `ok` is the answer of the payment or shipping service, when the
      step asks for one. */
  function Step(w: World, o: OrderId, p: Proc, ok: bool): (World, Proc)
    requires o in w.orders
  {
    var n := |w.orders[o].lines|;
    match p.phase
    case Ready => (w, p.(phase := NextReserve(p.held, n)))
    case Reserving => if |p.held| < n then ReserveLine(w, o, p, w.orders[o].lines[|p.held|]) else (w, p)
    case Recording(ev) => (w.(orders := w.orders[o := w.orders[o].Record(ev)]), p.(phase := Publishing(ev)))
    case Publishing(ev) => (w.(log := w.log + [(o, ev)]), p.(phase := AfterPublish(p, ev)))
    case Charging =>
      if ok then (w.(charges := w.charges + {o}), p.(phase := Recording(Charged)))
      else (w, p.(phase := Recording(Compensating)))
    case Shipping =>
      if ok then (w.(shipments := w.shipments + {o}), p.(phase := Recording(Shipped)))
      else (w, p.(paid := true, phase := Recording(Compensating)))
    case Committing(i) =>
      if i < |p.held| then
        (w.(inv := Resolve(w.inv, p.held[i].Key(), p.held[i].id, COMMIT)), p.(phase := NextCommit(p.held, i + 1)))
      else (w, p)
    case Cancelling => (w.(shipments := w.shipments - {o}), p.(phase := AfterCancel(p)))
    case Refunding => (w.(charges := w.charges - {o}), p.(phase := NextRelease(p.held, 0)))
    case Releasing(i) =>
      if i < |p.held| then
        (w.(inv := Resolve(w.inv, p.held[i].Key(), p.held[i].id, RELEASE)), p.(phase := NextRelease(p.held, i + 1)))
      else (w, p)
    case Done(_) => (w, p)
  }

  function ReserveLine(w: World, o: OrderId, p: Proc, line: Line): (World, Proc)
    requires o in w.orders
  {
    if CanReserve(w.inv, line.Key(), line.qty) then
      var held := p.held + [Held(line.warehouse, line.sku, |w.inv.ledger|)];
      (w.(inv := Reserve(w.inv, line.Key(), line.qty, o, |p.held|)),
       p.(held := held, phase := NextReserve(held, |w.orders[o].lines|)))
    else (w, p.(phase := Recording(Compensating)))
  }

  // ----- recovery ----------------------------------------------------------------------------------

  /** `reservationsFromHistory`: what the first INVENTORY_RESERVED record lists. */
  function FirstReserved(history: seq<Event>): seq<Held> {
    if history == [] then []
    else if history[0].Reserved? then history[0].reservations
    else FirstReserved(history[1..])
  }

  /** `recoverStuck` rebuilds what was done from the history it was handed. */
  function Recovery(order: Order): Proc {
    Proc(FirstReserved(order.history), Charged in order.history, Shipped in order.history, Recording(Compensating))
  }

  // ----- the machine -------------------------------------------------------------------------------

  datatype Action =
    | Create(o: OrderId, lines: seq<Line>)
    | Run(o: OrderId, ok: bool)
    | Crash(o: OrderId)
    | Recover(r: nat, o: OrderId)
    | RecoverStep(r: nat)
    | CrashRecoverer(r: nat)
    | Expire(id: nat)
    | Provision(key: Key, qty: int)

  predicate Busy(rec: Recoverer) { rec.alive && !rec.proc.phase.Done? }

  /** An order is recovered only once its own activity is dead. With `solo`, recoveries of one order also
      exclude each other; without it any number may race. */
  predicate Enabled(w: World, a: Action, solo: bool) {
    match a
    case Create(o, _) => o !in w.orders
    case Run(o, _) => o in w.orders && o in w.runs && o !in w.crashed
    case Crash(o) => o in w.runs && o !in w.crashed && !w.runs[o].phase.Done?
    case Recover(r, o) =>
      && o in w.orders && o in w.crashed && r !in w.recs && !IsTerminal(w.orders[o].status)
      && (solo ==> forall q <- w.recs :: w.recs[q].order == o ==> !Busy(w.recs[q]))
    case RecoverStep(r) => r in w.recs && w.recs[r].alive && w.recs[r].order in w.orders
    case CrashRecoverer(r) => r in w.recs && Busy(w.recs[r])
    case Expire(id) => id in w.inv.resv
    case Provision(_, qty) => qty >= 0
  }

  /** An action that is not enabled does nothing, so every sequence of actions is a run. */
  function Apply(w: World, a: Action, solo: bool): World {
    if !Enabled(w, a, solo) then w else
    match a
    case Create(o, lines) =>
      w.(orders := w.orders[o := Order(lines, CREATED, [])],
         runs := w.runs[o := Proc([], false, false, Publishing(Created))])
    case Run(o, ok) =>
      var (w', p') := Step(w, o, w.runs[o], ok);
      w'.(runs := w.runs[o := p'])
    case Crash(o) => w.(crashed := w.crashed + {o})
    case Recover(r, o) => w.(recs := w.recs[r := Recoverer(o, Recovery(w.orders[o]), true)])
    case RecoverStep(r) =>
      var (w', p') := Step(w, w.recs[r].order, w.recs[r].proc, false);
      w'.(recs := w.recs[r := w.recs[r].(proc := p')])
    case CrashRecoverer(r) => w.(recs := w.recs[r := w.recs[r].(alive := false)])
    case Expire(id) => w.(inv := Lapse(w.inv, id))
    case Provision(key, qty) => w.(inv := SetStock(w.inv, key, qty))
  }

  function Exec(w: World, actions: seq<Action>, solo: bool): World {
    if actions == [] then w
    else Apply(Exec(w, actions[..|actions| - 1], solo), actions[|actions| - 1], solo)
  }
}
