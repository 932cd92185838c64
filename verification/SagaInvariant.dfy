/** What every step of the saga machine keeps. Each order has its own invariant, a function of where its
    activity stands (or stood when it died) and of how far recovery has got. */
module SagaInvariant {
  import opened Inventory
  import opened Saga

  // ----- what an activity has done, read off its phase ----------------------------------------------

  /** How many of reserved, charged, shipped, confirmed the activity has durably recorded. */
  function Stage(p: Proc, n: nat): nat {
    match p.phase
    case Ready | Reserving => 0
    case Charging => 1
    case Shipping => 2
    case Committing(_) => 3
    case Recording(ev) => StageAt(p, n, ev, 0)
    case Publishing(ev) => StageAt(p, n, ev, 1)
    case Cancelling | Refunding | Releasing(_) => FailedStage(p, n)
    case Done(confirmed) => if confirmed then 4 else FailedStage(p, n)
  }

  function StageAt(p: Proc, n: nat, ev: Event, written: nat): nat {
    match ev
    case Created => 0
    case Reserved(_) => written
    case Charged => 1 + written
    case Shipped => 2 + written
    case Confirmed => 3 + written
    case Compensating | Cancelled => FailedStage(p, n)
  }

  /** The records a failing activity had made before it turned to `compensate`. */
  function FailedStage(p: Proc, n: nat): nat {
    if p.paid then 2 else if |p.held| == n then 1 else 0
  }

  function Forward(stage: nat, held: seq<Held>): seq<Event> {
    if stage == 0 then []
    else if stage == 1 then [Reserved(held)]
    else if stage == 2 then [Reserved(held), Charged]
    else if stage == 3 then [Reserved(held), Charged, Shipped]
    else [Reserved(held), Charged, Shipped, Confirmed]
  }

  function Suffix(p: Proc): seq<Event> {
    match p.phase
    case Cancelling | Refunding | Releasing(_) => [Compensating]
    case Recording(ev) => if ev.Cancelled? then [Compensating] else []
    case Publishing(ev) =>
      if ev.Compensating? then [Compensating] else if ev.Cancelled? then [Compensating, Cancelled] else []
    case Done(confirmed) => if confirmed then [] else [Compensating, Cancelled]
    case Ready | Reserving | Charging | Shipping | Committing(_) => []
  }

  /** The records an activity has written. */
  function Wrote(p: Proc, n: nat): seq<Event> {
    Forward(Stage(p, n), p.held) + Suffix(p)
  }

  /** The activity has written CONFIRMED or CANCELLED. */
  predicate Over(p: Proc) {
    match p.phase
    case Publishing(ev) => ev.Confirmed? || ev.Cancelled?
    case Done(_) => true
    case _ => false
  }

  /** The fate the activity itself has given to its `j`-th reservation. */
  function FateOf(p: Proc, j: nat): Fate {
    match p.phase
    case Committing(i) => if j < i then Committed else Live
    case Releasing(i) => if j < i then Released else Live
    case Recording(ev) => if ev.Confirmed? then Committed else if ev.Cancelled? then Released else Live
    case Publishing(ev) => if ev.Confirmed? then Committed else if ev.Cancelled? then Released else Live
    case Done(confirmed) => if confirmed then Committed else Released
    case Ready | Reserving | Charging | Shipping | Cancelling | Refunding => Live
  }

  /** The payment the activity made is not refunded by it. */
  predicate Paying(p: Proc) {
    match p.phase
    case Recording(ev) => ev.Charged? || ev.Shipped? || ev.Confirmed? || (ev.Compensating? && p.paid)
    case Publishing(ev) => ev.Charged? || ev.Shipped? || ev.Confirmed? || (ev.Compensating? && p.paid)
    case Shipping | Committing(_) | Refunding => true
    case Done(confirmed) => confirmed
    case Ready | Reserving | Charging | Cancelling | Releasing(_) => false
  }

  predicate Delivering(p: Proc) {
    match p.phase
    case Recording(ev) => ev.Shipped? || ev.Confirmed?
    case Publishing(ev) => ev.Shipped? || ev.Confirmed?
    case Committing(_) => true
    case Done(confirmed) => confirmed
    case _ => false
  }

  // ----- the shape of an activity -------------------------------------------------------------------

  predicate ShapeAt(p: Proc, n: nat, ev: Event) {
    match ev
    case Created => p.held == [] && !p.paid
    case Reserved(hs) => hs == p.held && |p.held| == n && !p.paid
    case Charged | Shipped | Confirmed => |p.held| == n && !p.paid
    case Compensating | Cancelled => p.paid ==> |p.held| == n
  }

  predicate Shape(p: Proc, n: nat) {
    && |p.held| <= n
    && !p.shipped
    && match p.phase
       case Recording(ev) => !ev.Created? && ShapeAt(p, n, ev)
       case Publishing(ev) => ShapeAt(p, n, ev)
       case Ready => p.held == [] && !p.paid
       case Reserving => |p.held| < n && !p.paid
       case Charging | Shipping => |p.held| == n && !p.paid
       case Committing(i) => i < n == |p.held| && !p.paid
       case Cancelling => false
       case Refunding => p.paid && |p.held| == n
       case Releasing(i) => i < |p.held| && (p.paid ==> |p.held| == n)
       case Done(confirmed) => if confirmed then |p.held| == n && !p.paid else p.paid ==> |p.held| == n
  }

  // ----- one order ----------------------------------------------------------------------------------

  /** The reservations an activity holds, and only those, were taken for its lines, each from that line's key. */
  ghost predicate Owns(ledger: seq<Entry>, o: OrderId, held: seq<Held>, lines: seq<Line>) {
    && |held| <= |lines|
    && (forall j :: 0 <= j < |held| ==>
         && held[j].warehouse == lines[j].warehouse && held[j].sku == lines[j].sku
         && held[j].id < |ledger|
         && ledger[held[j].id].key == lines[j].Key() && ledger[held[j].id].qty == lines[j].qty
         && ledger[held[j].id].order == o && ledger[held[j].id].line == j)
    && (forall id :: 0 <= id < |ledger| && ledger[id].order == o ==>
         ledger[id].line < |held| && held[ledger[id].line].id == id)
  }

  /** Each reservation met the fate its activity gave it, unless it expired first or recovery released it. */
  ghost predicate FatesOk(ledger: seq<Entry>, p: Proc, n: nat, crashed: bool)
    requires forall j :: 0 <= j < |p.held| ==> p.held[j].id < |ledger|
  {
    forall j :: 0 <= j < |p.held| ==>
      var f := ledger[p.held[j].id].fate;
      || f == FateOf(p, j) || f == Expired
      || (crashed && Stage(p, n) >= 1 && FateOf(p, j) == Live && f == Released)
  }

  /** Everything the history records is undone. */
  ghost predicate Undone(w: World, o: OrderId, p: Proc, n: nat)
    requires forall j :: 0 <= j < |p.held| ==> p.held[j].id < |w.inv.ledger|
  {
    && (Stage(p, n) >= 1 ==> Resolved(w.inv.ledger, p.held, |p.held|))
    && (Stage(p, n) >= 2 ==> o !in w.charges)
    && (Stage(p, n) >= 3 ==> o !in w.shipments)
  }

  ghost predicate Resolved(ledger: seq<Entry>, held: seq<Held>, upTo: nat)
    requires forall j :: 0 <= j < |held| ==> held[j].id < |ledger|
  {
    forall j :: 0 <= j < upTo && j < |held| ==> ledger[held[j].id].fate != Live
  }

  predicate Unwinding(tail: seq<Event>) {
    && (forall i :: 0 <= i < |tail| ==> tail[i] == Compensating || tail[i] == Cancelled)
    && (tail != [] ==> tail[0] == Compensating)
  }

  /** The messages published about one order. */
  function Published(log: seq<(OrderId, Event)>, o: OrderId): seq<Event> {
    if log == [] then []
    else Published(log[..|log| - 1], o) + (if log[|log| - 1].0 == o then [log[|log| - 1].1] else [])
  }

  /** What recovery has appended to the activity's own records. */
  function Tail(w: World, o: OrderId): seq<Event>
    requires o in w.orders && o in w.runs
  {
    var n := |Wrote(w.runs[o], |w.orders[o].lines|)|;
    if n <= |w.orders[o].history| then w.orders[o].history[n..] else []
  }

  ghost predicate OrderOk(w: World, o: OrderId)
    requires o in w.orders && o in w.runs
  {
    var ord, p := w.orders[o], w.runs[o];
    var n := |ord.lines|;
    && Shape(p, n)
    && Owns(w.inv.ledger, o, p.held, ord.lines)
    && FatesOk(w.inv.ledger, p, n, o in w.crashed)
    && Wrote(p, n) <= ord.history
    && ord.status == (if ord.history == [] then CREATED else StatusOf(ord.history[|ord.history| - 1]))
    && (if o in w.crashed then CrashedOk(w, o, ord, p, n) else RunningOk(w, o, ord, p, n))
  }

  ghost predicate RunningOk(w: World, o: OrderId, ord: Order, p: Proc, n: nat) {
    && ord.history == Wrote(p, n)
    && (o in w.charges <==> Paying(p))
    && (o in w.shipments <==> Delivering(p))
    && Published(w.log, o) + (if p.phase.Publishing? then [p.phase.ev] else []) == [Created] + ord.history
  }

  ghost predicate CrashedOk(w: World, o: OrderId, ord: Order, p: Proc, n: nat)
    requires o in w.orders && o in w.runs
    requires forall j :: 0 <= j < |p.held| ==> p.held[j].id < |w.inv.ledger|
  {
    var tail := Tail(w, o);
    && !p.phase.Done?
    && Unwinding(tail)
    && (o in w.charges ==> Paying(p))
    && (Stage(p, n) < 2 && Paying(p) ==> o in w.charges)
    && (o in w.shipments ==> Delivering(p))
    && (Stage(p, n) < 3 && Delivering(p) ==> o in w.shipments)
    && (Over(p) ==> tail == [] && (o in w.charges <==> Paying(p)) && (o in w.shipments <==> Delivering(p)))
    && (Cancelled in tail ==> Undone(w, o, p, n))
    && (tail != [] && tail[|tail| - 1] == Compensating ==>
         exists r :: r in w.recs && w.recs[r].order == o && MidRecovery(w.recs[r].proc))
  }

  // ----- one recoverer ------------------------------------------------------------------------------

  /** It has recorded COMPENSATING and not yet CANCELLED. */
  predicate MidRecovery(q: Proc) {
    match q.phase
    case Publishing(ev) => ev.Compensating?
    case Cancelling | Refunding | Releasing(_) => true
    case Recording(ev) => ev.Cancelled?
    case _ => false
  }

  predicate PastCancel(q: Proc) {
    match q.phase
    case Refunding | Releasing(_) => true
    case Recording(ev) => ev.Cancelled?
    case Publishing(ev) => ev.Cancelled?
    case Done(_) => true
    case _ => false
  }

  predicate PastRefund(q: Proc) { PastCancel(q) && !q.phase.Refunding? }

  /** How many of the listed reservations it has released. */
  function ReleasedUpTo(q: Proc): nat {
    if q.phase.Releasing? then q.phase.i else if PastRefund(q) then |q.held| else 0
  }

  /** A recoverer only ever runs `compensate` and `fail`. */
  predicate RecShape(q: Proc) {
    match q.phase
    case Recording(ev) => ev.Compensating? || ev.Cancelled?
    case Publishing(ev) => ev.Compensating? || ev.Cancelled?
    case Cancelling => q.shipped
    case Refunding => q.paid
    case Releasing(i) => i < |q.held|
    case Done(confirmed) => !confirmed
    case _ => false
  }

  ghost predicate RecOk(w: World, rec: Recoverer) {
    var o, q := rec.order, rec.proc;
    && o in w.orders && o in w.runs && o in w.crashed
    && var p, n := w.runs[o], |w.orders[o].lines|;
    && !Over(p)
    && q.held == (if Stage(p, n) >= 1 then p.held else [])
    && (q.paid <==> Stage(p, n) >= 2)
    && (q.shipped <==> Stage(p, n) >= 3)
    && RecShape(q)
    && (PastCancel(q) && q.shipped ==> o !in w.shipments)
    && (PastRefund(q) && q.paid ==> o !in w.charges)
    && (forall j :: 0 <= j < |q.held| ==> q.held[j].id < |w.inv.ledger|)
    && Resolved(w.inv.ledger, q.held, ReleasedUpTo(q))
    && (q.phase != Recording(Compensating) ==> Tail(w, o) != [])
  }

  // ----- the whole machine --------------------------------------------------------------------------

  /** Every id in the durable and volatile state is that of a known order. */
  ghost predicate Domains(w: World) {
    && w.orders.Keys == w.runs.Keys
    && w.crashed <= w.runs.Keys
    && w.charges <= w.orders.Keys && w.shipments <= w.orders.Keys
    && (forall id :: 0 <= id < |w.inv.ledger| ==> w.inv.ledger[id].order in w.orders)
    && (forall i :: 0 <= i < |w.log| ==> w.log[i].0 in w.orders)
  }

  ghost predicate OrdersOk(w: World)
    requires Domains(w)
  {
    forall o {:trigger OrderOk(w, o)} :: o in w.orders ==> OrderOk(w, o)
  }

  ghost predicate RecsOk(w: World) {
    forall r {:trigger RecOk(w, w.recs[r])} :: r in w.recs ==> RecOk(w, w.recs[r])
  }

  ghost predicate Inv(w: World) {
    Conserved(w.inv) && Domains(w) && OrdersOk(w) && RecsOk(w)
  }
}
