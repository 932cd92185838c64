/** Every action of the saga machine keeps the invariant. */
module SagaSteps {
  import opened Inventory
  import opened Saga
  import opened SagaInvariant

  // ----- frames -------------------------------------------------------------------------------------

  /** A ledger step on behalf of order `o`: nobody else's reservations change, and a resolved one stays so. */
  ghost predicate LedgerStep(l: seq<Entry>, l': seq<Entry>, o: OrderId) {
    && |l| <= |l'|
    && (forall id :: 0 <= id < |l| ==>
         l'[id] == l[id] || (l[id].order == o && l[id].fate == Live && l'[id] == l[id].(fate := l'[id].fate)))
    && (forall id :: |l| <= id < |l'| ==> l'[id].order == o)
  }

  /** Nothing that concerns order `q` changed. */
  ghost predicate Untouched(w: World, w': World, q: OrderId) {
    && q in w.orders && q in w'.orders && w'.orders[q] == w.orders[q]
    && q in w.runs && q in w'.runs && w'.runs[q] == w.runs[q]
    && (q in w'.crashed <==> q in w.crashed)
    && (q in w'.charges <==> q in w.charges)
    && (q in w'.shipments <==> q in w.shipments)
    && Published(w'.log, q) == Published(w.log, q)
    && (forall r :: r in w.recs && w.recs[r].order == q ==> r in w'.recs && w'.recs[r] == w.recs[r])
  }

  lemma FrameOrder(w: World, w': World, o: OrderId, q: OrderId)
    requires q != o && Untouched(w, w', q) && OrderOk(w, q)
    requires LedgerStep(w.inv.ledger, w'.inv.ledger, o)
    ensures OrderOk(w', q)
  {
    FrameHeld(w.inv.ledger, w'.inv.ledger, o, q, w.runs[q], w.orders[q].lines, q in w.crashed);
    if q in w.crashed { FrameCrashed(w, w', o, q); }
  }

  lemma FrameHeld(l: seq<Entry>, l': seq<Entry>, o: OrderId, q: OrderId, p: Proc, lines: seq<Line>, crashed: bool)
    requires q != o && LedgerStep(l, l', o) && Owns(l, q, p.held, lines) && FatesOk(l, p, |lines|, crashed)
    ensures Owns(l', q, p.held, lines) && FatesOk(l', p, |lines|, crashed)
  {
  }

  lemma FrameCrashed(w: World, w': World, o: OrderId, q: OrderId)
    requires q != o && Untouched(w, w', q) && OrderOk(w, q) && q in w.crashed
    requires LedgerStep(w.inv.ledger, w'.inv.ledger, o)
    requires Owns(w'.inv.ledger, q, w'.runs[q].held, w'.orders[q].lines)
    ensures CrashedOk(w', q, w'.orders[q], w'.runs[q], |w'.orders[q].lines|)
  {
    assert Tail(w', q) == Tail(w, q);
  }

  lemma FrameRec(w: World, w': World, o: OrderId, rec: Recoverer)
    requires rec.order != o && Untouched(w, w', rec.order) && RecOk(w, rec)
    requires LedgerStep(w.inv.ledger, w'.inv.ledger, o)
    ensures RecOk(w', rec)
  {
  }

  // ----- the inventory effect of one await ------------------------------------------------------------

  /** The reservations an activity lists belong to its order, under the keys it lists them with. */
  ghost predicate Names(ledger: seq<Entry>, o: OrderId, held: seq<Held>) {
    forall j :: 0 <= j < |held| ==>
      held[j].id < |ledger| && ledger[held[j].id].order == o && ledger[held[j].id].key == held[j].Key()
  }

  lemma ResolveSteps(inv: Depot, key: Key, id: nat, mode: Mode, o: OrderId)
    requires Conserved(inv)
    requires id in inv.resv ==> inv.ledger[id].key == key && inv.ledger[id].order == o
    ensures Conserved(Resolve(inv, key, id, mode))
    ensures LedgerStep(inv.ledger, Resolve(inv, key, id, mode).ledger, o)
  {
    ResolveConserves(inv, key, id, mode);
  }

  /** What one await does to the inventory, */
  function InvAfter(w: World, o: OrderId, p: Proc): Depot
    requires o in w.orders
  {
    match p.phase
    case Reserving =>
      var lines, n := w.orders[o].lines, |p.held|;
      if n < |lines| && CanReserve(w.inv, lines[n].Key(), lines[n].qty)
      then Reserve(w.inv, lines[n].Key(), lines[n].qty, o, n) else w.inv
    case Committing(i) => if i < |p.held| then Resolve(w.inv, p.held[i].Key(), p.held[i].id, COMMIT) else w.inv
    case Releasing(i) => if i < |p.held| then Resolve(w.inv, p.held[i].Key(), p.held[i].id, RELEASE) else w.inv
    case _ => w.inv
  }

  /** and how many reservations the activity then lists. */
  function HeldAfter(w: World, o: OrderId, p: Proc): nat
    requires o in w.orders
  {
    var lines, n := w.orders[o].lines, |p.held|;
    if p.phase.Reserving? && n < |lines| && CanReserve(w.inv, lines[n].Key(), lines[n].qty) then n + 1 else n
  }

  lemma StepInv(w: World, o: OrderId, p: Proc, ok: bool)
    requires o in w.orders
    ensures Step(w, o, p, ok).0.inv == InvAfter(w, o, p)
    ensures |Step(w, o, p, ok).1.held| == HeldAfter(w, o, p)
  {
  }

  lemma ReserveSteps(inv: Depot, key: Key, qty: int, o: OrderId, line: nat)
    requires Conserved(inv) && CanReserve(inv, key, qty)
    ensures Conserved(Reserve(inv, key, qty, o, line))
    ensures LedgerStep(inv.ledger, Reserve(inv, key, qty, o, line).ledger, o)
  {
    ReserveConserves(inv, key, qty, o, line);
  }

  lemma InvSteps(w: World, o: OrderId, p: Proc)
    requires o in w.orders && Conserved(w.inv) && Names(w.inv.ledger, o, p.held)
    ensures Conserved(InvAfter(w, o, p)) && LedgerStep(w.inv.ledger, InvAfter(w, o, p).ledger, o)
  {
    var n, lines := |p.held|, w.orders[o].lines;
    if p.phase.Reserving? && n < |lines| && CanReserve(w.inv, lines[n].Key(), lines[n].qty) {
      ReserveSteps(w.inv, lines[n].Key(), lines[n].qty, o, n);
    } else if p.phase.Committing? && p.phase.i < n {
      ResolveSteps(w.inv, p.held[p.phase.i].Key(), p.held[p.phase.i].id, COMMIT, o);
    } else if p.phase.Releasing? && p.phase.i < n {
      ResolveSteps(w.inv, p.held[p.phase.i].Key(), p.held[p.phase.i].id, RELEASE, o);
    }
  }

  lemma StepInventory(w: World, o: OrderId, p: Proc, ok: bool)
    requires o in w.orders && Conserved(w.inv) && Names(w.inv.ledger, o, p.held)
    ensures Conserved(Step(w, o, p, ok).0.inv)
    ensures LedgerStep(w.inv.ledger, Step(w, o, p, ok).0.inv.ledger, o)
  {
    StepInv(w, o, p, ok);
    InvSteps(w, o, p);
  }

  lemma PublishedAppend(log: seq<(OrderId, Event)>, m: (OrderId, Event), q: OrderId)
    ensures Published(log + [m], q) == Published(log, q) + (if m.0 == q then [m.1] else [])
  {
    assert (log + [m])[..|log|] == log;
  }

  // ----- control flow alone -----------------------------------------------------------------------------

  /** Where the activity of an order with `n` lines may stand after one await. */
  ghost predicate Moves(p: Proc, p': Proc, n: nat) {
    && Shape(p', n)
    && p.held <= p'.held
    && Wrote(p', n) == Wrote(p, n) + (if p.phase.Recording? then [p.phase.ev] else [])
  }

  lemma MoveReserving(p: Proc, p': Proc, n: nat, h: Held)
    requires Shape(p, n) && p.phase.Reserving?
    requires p' == p.(phase := Recording(Compensating))
          || p' == p.(held := p.held + [h], phase := NextReserve(p.held + [h], n))
    ensures Moves(p, p', n) && Paying(p') == Paying(p) && Delivering(p') == Delivering(p)
    ensures forall j: nat :: FateOf(p', j) == FateOf(p, j) == Live
  {
  }

  lemma MoveRecording(p: Proc, n: nat)
    requires Shape(p, n) && p.phase.Recording?
    ensures var p' := p.(phase := Publishing(p.phase.ev));
      && Moves(p, p', n) && Paying(p') == Paying(p) && Delivering(p') == Delivering(p)
      && forall j: nat :: FateOf(p', j) == FateOf(p, j)
  {
    var ev := p.phase.ev;
    match ev
    case Reserved(hs) =>
    case Charged => assert [Reserved(p.held)] + [ev] == [Reserved(p.held), Charged];
    case Shipped => assert [Reserved(p.held), Charged] + [ev] == [Reserved(p.held), Charged, Shipped];
    case Confirmed =>
      assert [Reserved(p.held), Charged, Shipped] + [ev] == [Reserved(p.held), Charged, Shipped, Confirmed];
    case Compensating =>
    case Cancelled =>
  }

  lemma MovePublishing(p: Proc, n: nat)
    requires Shape(p, n) && p.phase.Publishing?
    ensures var p' := p.(phase := AfterPublish(p, p.phase.ev));
      && Moves(p, p', n) && Paying(p') == Paying(p) && Delivering(p') == Delivering(p)
      && forall j: nat | j < |p.held| :: FateOf(p', j) == FateOf(p, j)
  {
  }

  lemma MoveCalling(w: World, o: OrderId, p: Proc, ok: bool)
    requires o in w.orders && Shape(p, |w.orders[o].lines|)
    requires p.phase.Ready? || p.phase.Charging? || p.phase.Shipping? || p.phase.Refunding?
    ensures var (w', p') := Step(w, o, p, ok);
      && Moves(p, p', |w.orders[o].lines|)
      && p'.held == p.held
      && (forall j: nat | j < |p.held| :: FateOf(p', j) == FateOf(p, j))
      && (Paying(p') <==> if p.phase.Charging? then ok else if p.phase.Refunding? then false else Paying(p))
      && (Delivering(p') <==> if p.phase.Shipping? then ok else Delivering(p))
  {
  }

  lemma MoveResolving(p: Proc, n: nat)
    requires Shape(p, n) && (p.phase.Committing? || p.phase.Releasing?)
    ensures var i := p.phase.i;
      var p' := p.(phase := if p.phase.Committing? then NextCommit(p.held, i + 1) else NextRelease(p.held, i + 1));
      && Moves(p, p', n) && Paying(p') == Paying(p) && Delivering(p') == Delivering(p)
      && FateOf(p', i) == (if p.phase.Committing? then Committed else Released)
      && forall j: nat | j < |p.held| && j != i :: FateOf(p', j) == FateOf(p, j)
  {
  }

  // ----- a step of the order's own activity -----------------------------------------------------------

  /** A live activity and its order are as the invariant says. */
  ghost predicate Live1(w: World, o: OrderId) {
    && o in w.orders && o in w.runs && o !in w.crashed && OrderOk(w, o) && Conserved(w.inv)
  }

  /** The entries keep their owners. */
  ghost predicate SameTags(l: seq<Entry>, l': seq<Entry>) {
    && |l'| == |l|
    && (forall id :: 0 <= id < |l| ==> l'[id] == l[id].(fate := l'[id].fate))
  }

  lemma OwnsKept(l: seq<Entry>, l': seq<Entry>, o: OrderId, held: seq<Held>, lines: seq<Line>)
    requires Owns(l, o, held, lines) && SameTags(l, l')
    ensures Owns(l', o, held, lines)
  {
  }

  lemma OwnsAppend(l: seq<Entry>, o: OrderId, held: seq<Held>, lines: seq<Line>)
    requires Owns(l, o, held, lines) && |held| < |lines|
    ensures var line := lines[|held|];
      Owns(l + [Entry(line.Key(), line.qty, o, |held|, Live)], o,
           held + [Held(line.warehouse, line.sku, |l|)], lines)
  {
  }

  lemma RunReserving(w: World, o: OrderId, ok: bool)
    requires Live1(w, o) && w.runs[o].phase.Reserving?
    ensures OrderOk(Apply(w, Run(o, ok), false), o)
  {
    var p, ord := w.runs[o], w.orders[o];
    var line := ord.lines[|p.held|];
    var h := Held(line.warehouse, line.sku, |w.inv.ledger|);
    if CanReserve(w.inv, line.Key(), line.qty) {
      var p' := p.(held := p.held + [h], phase := NextReserve(p.held + [h], |ord.lines|));
      var w' := w.(inv := Reserve(w.inv, line.Key(), line.qty, o, |p.held|), runs := w.runs[o := p']);
      assert Apply(w, Run(o, ok), false) == w';
      RunReserved(w, w', o, h, p');
    } else {
      var p' := p.(phase := Recording(Compensating));
      assert Apply(w, Run(o, ok), false) == w.(runs := w.runs[o := p']);
      RunRefused(w, w.(runs := w.runs[o := p']), o, p');
    }
  }

  lemma RunReserved(w: World, w': World, o: OrderId, h: Held, p': Proc)
    requires Live1(w, o) && w.runs[o].phase.Reserving?
    requires var p, ord := w.runs[o], w.orders[o]; var line := ord.lines[|p.held|];
      && CanReserve(w.inv, line.Key(), line.qty)
      && h == Held(line.warehouse, line.sku, |w.inv.ledger|)
      && p' == p.(held := p.held + [h], phase := NextReserve(p.held + [h], |ord.lines|))
      && w' == w.(inv := Reserve(w.inv, line.Key(), line.qty, o, |p.held|), runs := w.runs[o := p'])
    ensures OrderOk(w', o)
  {
    var p, ord := w.runs[o], w.orders[o];
    MoveReserving(p, p', |ord.lines|, h);
    OwnsAppend(w.inv.ledger, o, p.held, ord.lines);
    assert FatesOk(w'.inv.ledger, p', |ord.lines|, false);
    StillRunning(w, w', o, ord, p, p', |ord.lines|);
    RunningOrder(w, w', o, p');
  }

  lemma RunRefused(w: World, w': World, o: OrderId, p': Proc)
    requires Live1(w, o) && w.runs[o].phase.Reserving?
    requires p' == w.runs[o].(phase := Recording(Compensating)) && w' == w.(runs := w.runs[o := p'])
    ensures OrderOk(w', o)
  {
    var p, ord := w.runs[o], w.orders[o];
    MoveReserving(p, p', |ord.lines|, Held("", "", 0));
    assert FatesOk(w'.inv.ledger, p', |ord.lines|, false);
    StillRunning(w, w', o, ord, p, p', |ord.lines|);
    RunningOrder(w, w', o, p');
  }

  lemma RunRecording(w: World, o: OrderId, ok: bool)
    requires Live1(w, o) && w.runs[o].phase.Recording?
    ensures OrderOk(Apply(w, Run(o, ok), false), o)
  {
    var p, ord := w.runs[o], w.orders[o];
    var history, ev := ord.history, p.phase.ev;
    var p' := p.(phase := Publishing(ev));
    MoveRecording(p, |ord.lines|);
    assert ([Created] + history) + [ev] == [Created] + (history + [ev]);
    RunRecorded(w, o, p', ev, w.(orders := w.orders[o := ord.Record(ev)], runs := w.runs[o := p']));
  }

  lemma RunRecorded(w: World, o: OrderId, p': Proc, ev: Event, w': World)
    requires Live1(w, o) && w.runs[o].phase == Recording(ev) && p' == w.runs[o].(phase := Publishing(ev))
    requires w' == w.(orders := w.orders[o := w.orders[o].Record(ev)], runs := w.runs[o := p'])
    requires Moves(w.runs[o], p', |w.orders[o].lines|)
    requires Paying(p') == Paying(w.runs[o]) && Delivering(p') == Delivering(w.runs[o])
    requires forall j: nat :: FateOf(p', j) == FateOf(w.runs[o], j)
    requires ([Created] + w.orders[o].history) + [ev] == [Created] + (w.orders[o].history + [ev])
    ensures OrderOk(w', o)
  {
    assert FatesOk(w'.inv.ledger, p', |w.orders[o].lines|, false);
    assert RunningOk(w', o, w'.orders[o], p', |w.orders[o].lines|);
  }

  lemma RunPublishing(w: World, o: OrderId, ok: bool)
    requires Live1(w, o) && w.runs[o].phase.Publishing?
    ensures OrderOk(Apply(w, Run(o, ok), false), o)
  {
    var p := w.runs[o];
    var ev, p' := p.phase.ev, p.(phase := AfterPublish(p, p.phase.ev));
    MovePublishing(p, |w.orders[o].lines|);
    RunPublished(w, w.(log := w.log + [(o, ev)], runs := w.runs[o := p']), o, p', ev);
  }

  lemma RunPublished(w: World, w': World, o: OrderId, p': Proc, ev: Event)
    requires Live1(w, o) && w.runs[o].phase == Publishing(ev) && !p'.phase.Publishing? && p'.held == w.runs[o].held
    requires w' == w.(log := w.log + [(o, ev)], runs := w.runs[o := p'])
    requires Moves(w.runs[o], p', |w.orders[o].lines|)
    requires Paying(p') == Paying(w.runs[o]) && Delivering(p') == Delivering(w.runs[o])
    requires forall j: nat | j < |p'.held| :: FateOf(p', j) == FateOf(w.runs[o], j)
    ensures OrderOk(w', o)
  {
    PublishedAppend(w.log, (o, ev), o);
    assert FatesOk(w'.inv.ledger, p', |w.orders[o].lines|, false);
    assert RunningOk(w', o, w'.orders[o], p', |w.orders[o].lines|);
  }

  lemma ResolveLedger(inv: Depot, key: Key, id: nat, mode: Mode)
    requires Conserved(inv) && id < |inv.ledger|
    ensures var l, l' := inv.ledger, Resolve(inv, key, id, mode).ledger;
      && SameTags(l, l')
      && (forall i :: 0 <= i < |l| && i != id ==> l'[i] == l[i])
      && l'[id].fate == (if l[id].fate != Live then l[id].fate else if mode == RELEASE then Released else Committed)
  {
  }

  lemma FatesResolved(l: seq<Entry>, l': seq<Entry>, o: OrderId, p: Proc, p': Proc, lines: seq<Line>, i: nat, f: Fate)
    requires Owns(l, o, p.held, lines) && FatesOk(l, p, |lines|, false) && SameTags(l, l')
    requires p'.held == p.held && i < |p.held| && FateOf(p', i) == f && FateOf(p, i) == Live
    requires forall j: nat | j < |p.held| && j != i :: FateOf(p', j) == FateOf(p, j)
    requires forall id :: 0 <= id < |l| && id != p.held[i].id ==> l'[id] == l[id]
    requires l'[p.held[i].id].fate == (if l[p.held[i].id].fate != Live then l[p.held[i].id].fate else f)
    ensures FatesOk(l', p', |lines|, false)
  {
  }

  lemma RunResolving(w: World, o: OrderId, ok: bool)
    requires Live1(w, o) && (w.runs[o].phase.Committing? || w.runs[o].phase.Releasing?)
    ensures OrderOk(Apply(w, Run(o, ok), false), o)
  {
    var p := w.runs[o];
    var i := p.phase.i;
    var mode := if p.phase.Committing? then COMMIT else RELEASE;
    var p' := p.(phase := if p.phase.Committing? then NextCommit(p.held, i + 1) else NextRelease(p.held, i + 1));
    var w' := w.(inv := Resolve(w.inv, p.held[i].Key(), p.held[i].id, mode), runs := w.runs[o := p']);
    assert Apply(w, Run(o, ok), false) == w';
    RunResolved(w, o, i, mode, p', w');
  }

  lemma RunResolved(w: World, o: OrderId, i: nat, mode: Mode, p': Proc, w': World)
    requires Live1(w, o) && (w.runs[o].phase.Committing? || w.runs[o].phase.Releasing?) && i == w.runs[o].phase.i
    requires mode == if w.runs[o].phase.Committing? then COMMIT else RELEASE
    requires var p := w.runs[o];
      && i < |p.held|
      && p' == p.(phase := if p.phase.Committing? then NextCommit(p.held, i + 1) else NextRelease(p.held, i + 1))
      && w' == w.(inv := Resolve(w.inv, p.held[i].Key(), p.held[i].id, mode), runs := w.runs[o := p'])
    ensures OrderOk(w', o)
  {
    var p, ord := w.runs[o], w.orders[o];
    MoveResolving(p, |ord.lines|);
    ResolvedFates(w.inv, w'.inv, o, p, p', ord.lines, i, mode);
    StillRunning(w, w', o, ord, p, p', |ord.lines|);
    RunningOrder(w, w', o, p');
  }

  lemma ResolvedFates(inv: Depot, inv': Depot, o: OrderId, p: Proc, p': Proc, lines: seq<Line>, i: nat, mode: Mode)
    requires Conserved(inv) && Owns(inv.ledger, o, p.held, lines) && FatesOk(inv.ledger, p, |lines|, false)
    requires p'.held == p.held && i < |p.held| && inv' == Resolve(inv, p.held[i].Key(), p.held[i].id, mode)
    requires FateOf(p', i) == (if mode == COMMIT then Committed else Released) && FateOf(p, i) == Live
    requires forall j: nat | j < |p.held| && j != i :: FateOf(p', j) == FateOf(p, j)
    ensures Owns(inv'.ledger, o, p'.held, lines) && FatesOk(inv'.ledger, p', |lines|, false)
  {
    ResolveLedger(inv, p.held[i].Key(), p.held[i].id, mode);
    OwnsKept(inv.ledger, inv'.ledger, o, p.held, lines);
    FatesResolved(inv.ledger, inv'.ledger, o, p, p', lines, i, if mode == COMMIT then Committed else Released);
  }

  lemma RunningOrder(w: World, w': World, o: OrderId, p': Proc)
    requires o in w.orders && o in w.runs && o !in w.crashed && OrderOk(w, o)
    requires w' == w.(inv := w'.inv, runs := w.runs[o := p'])
    requires var ord := w.orders[o]; var n := |ord.lines|;
      && Shape(p', n) && Wrote(p', n) == Wrote(w.runs[o], n) && Owns(w'.inv.ledger, o, p'.held, ord.lines)
      && FatesOk(w'.inv.ledger, p', n, false) && RunningOk(w', o, ord, p', n)
    ensures OrderOk(w', o)
  {
  }

  /** A step that neither records nor publishes, and changes neither payment nor delivery. */
  lemma StillRunning(w: World, w': World, o: OrderId, ord: Order, p: Proc, p': Proc, n: nat)
    requires RunningOk(w, o, ord, p, n) && Moves(p, p', n) && Paying(p') == Paying(p) && Delivering(p') == Delivering(p)
    requires !p.phase.Recording? && !p.phase.Publishing? && !p'.phase.Publishing?
    requires w' == w.(inv := w'.inv, runs := w'.runs)
    ensures RunningOk(w', o, ord, p', n)
  {
  }

  lemma RunCalling(w: World, o: OrderId, ok: bool)
    requires Live1(w, o)
    requires var ph := w.runs[o].phase; ph.Ready? || ph.Charging? || ph.Shipping? || ph.Refunding?
    ensures OrderOk(Apply(w, Run(o, ok), false), o)
  {
    MoveCalling(w, o, w.runs[o], ok);
  }

  /** What an action on behalf of order `o` must leave in place. */
  ghost predicate Within(w: World, w': World, o: OrderId) {
    && LedgerStep(w.inv.ledger, w'.inv.ledger, o)
    && w'.orders.Keys == w'.runs.Keys == w.orders.Keys + {o}
    && w'.crashed <= w'.runs.Keys && w'.charges <= w'.orders.Keys && w'.shipments <= w'.orders.Keys
    && (forall i :: 0 <= i < |w'.log| ==> w'.log[i].0 in w'.orders)
    && (forall q {:trigger Untouched(w, w', q)} :: q in w.orders && q != o ==> Untouched(w, w', q))
    && (forall r :: r in w'.recs && w'.recs[r].order != o ==> r in w.recs && w'.recs[r] == w.recs[r])
  }

  /** An action on behalf of order `o` keeps the invariant if it keeps it for `o`. */
  lemma Localize(w: World, w': World, o: OrderId)
    requires Inv(w) && Conserved(w'.inv) && Within(w, w', o) && OrderOk(w', o) && RecsOfOk(w', o)
    ensures Inv(w')
  {
    LocalizeOrders(w, w', o);
    LocalizeRecs(w, w', o);
  }

  ghost predicate RecsOfOk(w: World, o: OrderId) {
    forall r {:trigger RecOk(w, w.recs[r])} :: r in w.recs && w.recs[r].order == o ==> RecOk(w, w.recs[r])
  }

  lemma LocalizeDomains(w: World, w': World, o: OrderId)
    requires Domains(w) && Within(w, w', o)
    ensures Domains(w')
  {
  }

  lemma LocalizeOrders(w: World, w': World, o: OrderId)
    requires Inv(w) && Within(w, w', o) && OrderOk(w', o)
    ensures Domains(w') && OrdersOk(w')
  {
    LocalizeDomains(w, w', o);
    forall q | q in w'.orders ensures OrderOk(w', q) {
      LocalizeOrder(w, w', o, q);
    }
  }

  lemma LocalizeRecs(w: World, w': World, o: OrderId)
    requires Inv(w) && Within(w, w', o) && RecsOfOk(w', o)
    ensures RecsOk(w')
  {
    forall r | r in w'.recs ensures RecOk(w', w'.recs[r]) {
      if w'.recs[r].order != o { LocalizeRec(w, w', o, r); }
    }
  }

  lemma LocalizeOrder(w: World, w': World, o: OrderId, q: OrderId)
    requires Inv(w) && Within(w, w', o) && OrderOk(w', o) && q in w'.orders
    ensures OrderOk(w', q)
  {
    if q != o {
      assert Untouched(w, w', q) && OrderOk(w, q);
      FrameOrder(w, w', o, q);
    }
  }

  lemma LocalizeRec(w: World, w': World, o: OrderId, r: nat)
    requires Inv(w) && Within(w, w', o) && r in w'.recs && w'.recs[r].order != o
    ensures RecOk(w', w'.recs[r])
  {
    assert RecOk(w, w.recs[r]);
    assert Untouched(w, w', w.recs[r].order);
    FrameRec(w, w', o, w.recs[r]);
  }

  /** One await on behalf of `o` leaves every other order alone, and touches neither lines nor control. */
  lemma StepFrame(w: World, o: OrderId, p: Proc, ok: bool)
    requires o in w.orders
    ensures var w' := Step(w, o, p, ok).0;
      && w'.runs == w.runs && w'.crashed == w.crashed && w'.recs == w.recs
      && w'.orders.Keys == w.orders.Keys && w'.orders[o].lines == w.orders[o].lines
      && w'.charges <= w.charges + {o} && w'.shipments <= w.shipments + {o}
      && w.charges <= w'.charges + {o} && w.shipments <= w'.shipments + {o}
      && (w'.log == w.log || exists ev :: w'.log == w.log + [(o, ev)])
      && (forall q :: q in w.orders && q != o ==>
           w'.orders[q] == w.orders[q] && Published(w'.log, q) == Published(w.log, q))
  {
    if p.phase.Publishing? {
      var m := (o, p.phase.ev);
      forall q | q != o ensures Published(w.log + [m], q) == Published(w.log, q) { PublishedAppend(w.log, m, q); }
    }
  }

  lemma RunStep(w: World, o: OrderId, ok: bool)
    requires Live1(w, o)
    ensures OrderOk(Apply(w, Run(o, ok), false), o)
  {
    match w.runs[o].phase
    case Recording(_) => RunRecording(w, o, ok);
    case Publishing(_) => RunPublishing(w, o, ok);
    case Reserving => RunReserving(w, o, ok);
    case Committing(_) => RunResolving(w, o, ok);
    case Releasing(_) => RunResolving(w, o, ok);
    case Done(_) =>
      var w' := Apply(w, Run(o, ok), false);
      assert w'.runs[o] == w.runs[o];
    case _ => RunCalling(w, o, ok);
  }

  // ----- a step of a recoverer ------------------------------------------------------------------------

  /** Progress that other activities of a dead order may make without disturbing a recoverer of it. */
  ghost predicate Onward(w: World, w': World, o: OrderId)
    requires o in w.orders && o in w.runs
  {
    && o in w'.orders && o in w'.runs && o in w'.crashed
    && w'.orders[o].lines == w.orders[o].lines && w'.runs[o] == w.runs[o]
    && (o in w'.charges ==> o in w.charges) && (o in w'.shipments ==> o in w.shipments)
    && |w.inv.ledger| <= |w'.inv.ledger|
    && (forall id :: 0 <= id < |w.inv.ledger| && w.inv.ledger[id].fate != Live ==> w'.inv.ledger[id].fate != Live)
    && (Tail(w, o) != [] ==> Tail(w', o) != [])
  }

  lemma RecKept(w: World, w': World, rec: Recoverer)
    requires RecOk(w, rec) && Onward(w, w', rec.order)
    ensures RecOk(w', rec)
  {
  }

  /** A dead order and one of its recoverers are as the invariant says. */
  ghost predicate Recovering(w: World, r: nat) {
    && r in w.recs && RecOk(w, w.recs[r]) && w.recs[r].alive && OrderOk(w, w.recs[r].order) && Conserved(w.inv)
  }

  /** After a step of that recoverer they still are. */
  ghost predicate Recovered(w: World, r: nat, w': World) {
    && r in w.recs && r in w'.recs
    && var o := w.recs[r].order;
    && o in w.orders && o in w.runs && o in w'.orders && o in w'.runs
    && OrderOk(w', o) && RecOk(w', w'.recs[r]) && Onward(w, w', o)
  }

  /** Whoever was in the middle of recovering `o` still is. */
  ghost predicate StillMid(w: World, w': World, o: OrderId) {
    forall r :: r in w.recs && w.recs[r].order == o && MidRecovery(w.recs[r].proc) ==>
      r in w'.recs && w'.recs[r].order == o && MidRecovery(w'.recs[r].proc)
  }

  /** A dead order stays as the invariant says while recovery works on it. */
  lemma CrashedKept(w: World, w': World, o: OrderId)
    requires o in w.orders && o in w.runs && OrderOk(w, o) && o in w.crashed
    requires Onward(w, w', o) && w'.orders[o] == w.orders[o]
    requires var p, n := w.runs[o], |w.orders[o].lines|;
      && Owns(w'.inv.ledger, o, p.held, w.orders[o].lines)
      && FatesOk(w'.inv.ledger, p, n, true)
      && (Stage(p, n) < 2 || Over(p) ==> (o in w'.charges <==> o in w.charges))
      && (Stage(p, n) < 3 || Over(p) ==> (o in w'.shipments <==> o in w.shipments))
    requires StillMid(w, w', o)
    ensures OrderOk(w', o)
  {
    var p, n := w.runs[o], |w.orders[o].lines|;
    assert Tail(w', o) == Tail(w, o);
    if Cancelled in Tail(w, o) {
      assert Undone(w, o, p, n);
      assert Undone(w', o, p, n);
    }
  }

  /** What a recoverer must show of its next phase. */
  lemma RecAdvanced(w: World, w': World, rec: Recoverer, q': Proc)
    requires RecOk(w, rec) && Onward(w, w', rec.order)
    requires q' == rec.proc.(phase := q'.phase) && RecShape(q')
    requires PastCancel(q') && q'.shipped ==> rec.order !in w'.shipments
    requires PastRefund(q') && q'.paid ==> rec.order !in w'.charges
    requires Resolved(w'.inv.ledger, q'.held, ReleasedUpTo(q'))
    requires q'.phase != Recording(Compensating) ==> Tail(w', rec.order) != []
    ensures RecOk(w', rec.(proc := q'))
  {
  }

  lemma RecRecording(w: World, r: nat, w': World)
    requires Recovering(w, r) && w.recs[r].proc.phase.Recording?
    requires w' == Apply(w, RecoverStep(r), false)
    ensures Recovered(w, r, w')
  {
    var o, ev := w.recs[r].order, w.recs[r].proc.phase.ev;
    assert w' == w.(orders := w.orders[o := w.orders[o].Record(ev)], recs := w'.recs);
    TailRecorded(w, w', o, ev);
    RecRecordedOnward(w, r, w', o, ev);
    RecRecordedOrder(w, r, w', o, ev);
  }

  lemma TailRecorded(w: World, w': World, o: OrderId, ev: Event)
    requires o in w.orders && o in w.runs && OrderOk(w, o) && o in w.crashed
    requires w' == w.(orders := w.orders[o := w.orders[o].Record(ev)], recs := w'.recs)
    ensures Tail(w', o) == Tail(w, o) + [ev]
  {
  }

  lemma RecRecordedOnward(w: World, r: nat, w': World, o: OrderId, ev: Event)
    requires r in w.recs && RecOk(w, w.recs[r]) && o == w.recs[r].order && w.recs[r].proc.phase == Recording(ev)
    requires w' == w.(orders := w.orders[o := w.orders[o].Record(ev)], recs := w'.recs)
    requires r in w'.recs && w'.recs[r] == w.recs[r].(proc := w.recs[r].proc.(phase := Publishing(ev)))
    requires Tail(w', o) == Tail(w, o) + [ev]
    ensures Onward(w, w', o) && RecOk(w', w'.recs[r])
  {
    RecAdvanced(w, w', w.recs[r], w.recs[r].proc.(phase := Publishing(ev)));
  }

  lemma RecRecordedOrder(w: World, r: nat, w': World, o: OrderId, ev: Event)
    requires Recovering(w, r) && o == w.recs[r].order && w.recs[r].proc.phase == Recording(ev)
    requires w' == w.(orders := w.orders[o := w.orders[o].Record(ev)], recs := w'.recs)
    requires r in w'.recs && w'.recs[r] == w.recs[r].(proc := w.recs[r].proc.(phase := Publishing(ev)))
    requires Tail(w', o) == Tail(w, o) + [ev]
    ensures OrderOk(w', o)
  {
    CrashedFacts(w, o);
    if ev == Cancelled { RecUndone(w, w.recs[r]); }
    if ev == Compensating { assert MidRecovery(w'.recs[r].proc); }
    RecordUnwinds(Tail(w, o), ev);
    RecordedOk(w, w', o, ev);
  }

  lemma RecordUnwinds(tail: seq<Event>, ev: Event)
    requires Unwinding(tail) && (ev == Compensating || (ev == Cancelled && tail != []))
    ensures Unwinding(tail + [ev])
    ensures Cancelled in tail + [ev] ==> ev == Cancelled || Cancelled in tail
    ensures (tail + [ev])[|tail + [ev]| - 1] == ev
  {
  }

  lemma RecordedOk(w: World, w': World, o: OrderId, ev: Event)
    requires o in w.orders && o in w.runs && OrderOk(w, o) && o in w.crashed && !Over(w.runs[o])
    requires w' == w.(orders := w.orders[o := w.orders[o].Record(ev)], recs := w'.recs)
    requires Tail(w', o) == Tail(w, o) + [ev] && Unwinding(Tail(w', o)) && (ev == Compensating || ev == Cancelled)
    requires forall j :: 0 <= j < |w.runs[o].held| ==> w.runs[o].held[j].id < |w.inv.ledger|
    requires Cancelled in Tail(w', o) ==> Undone(w, o, w.runs[o], |w.orders[o].lines|)
    requires ev == Compensating ==> exists r :: r in w'.recs && w'.recs[r].order == o && MidRecovery(w'.recs[r].proc)
    ensures OrderOk(w', o)
  {
    assert CrashedOk(w', o, w'.orders[o], w.runs[o], |w.orders[o].lines|);
  }

  /** A recoverer about to record CANCELLED has undone everything. */
  lemma RecUndone(w: World, rec: Recoverer)
    requires RecOk(w, rec) && rec.proc.phase == Recording(Cancelled) && OrderOk(w, rec.order)
    ensures Undone(w, rec.order, w.runs[rec.order], |w.orders[rec.order].lines|)
  {
  }

  lemma RecPublishing(w: World, r: nat, w': World)
    requires Recovering(w, r) && (w.recs[r].proc.phase.Publishing? || w.recs[r].proc.phase.Done?)
    requires w' == Apply(w, RecoverStep(r), false)
    ensures Recovered(w, r, w')
  {
    var rec := w.recs[r];
    var q := rec.proc;
    var q' := if q.phase.Done? then q else q.(phase := AfterPublish(q, q.phase.ev));
    assert w' == w.(log := w'.log, recs := w.recs[r := rec.(proc := q')]);
    if q.phase.Publishing? { PublishedNext(q); }
    RecPublished(w, w', rec, q');
    assert StillMid(w, w', rec.order);
    LogOnly(w, w', rec.order);
  }

  lemma RecPublished(w: World, w': World, rec: Recoverer, q': Proc)
    requires RecOk(w, rec) && w' == w.(log := w'.log, recs := w'.recs) && q' == rec.proc.(phase := q'.phase)
    requires RecShape(q') && ReleasedUpTo(q') == ReleasedUpTo(rec.proc)
    requires PastCancel(q') && q'.shipped ==> PastCancel(rec.proc)
    requires PastRefund(q') && q'.paid ==> PastRefund(rec.proc)
    requires rec.proc.phase != Recording(Compensating)
    ensures RecOk(w', rec.(proc := q')) && Onward(w, w', rec.order)
  {
    RecAdvanced(w, w', rec, q');
  }

  lemma LogOnly(w: World, w': World, o: OrderId)
    requires o in w.orders && o in w.runs && OrderOk(w, o) && o in w.crashed
    requires w' == w.(log := w'.log, recs := w'.recs) && StillMid(w, w', o)
    ensures OrderOk(w', o)
  {
    CrashedKept(w, w', o);
  }

  lemma PublishedNext(q: Proc)
    requires RecShape(q) && q.phase.Publishing?
    ensures var q' := q.(phase := AfterPublish(q, q.phase.ev));
      && RecShape(q') && ReleasedUpTo(q') == ReleasedUpTo(q) && (MidRecovery(q) ==> MidRecovery(q'))
      && (PastCancel(q') && q'.shipped ==> PastCancel(q)) && (PastRefund(q') && q'.paid ==> PastRefund(q))
  {
  }

  lemma RecCalling(w: World, r: nat, w': World)
    requires Recovering(w, r) && (w.recs[r].proc.phase.Cancelling? || w.recs[r].proc.phase.Refunding?)
    requires w' == Apply(w, RecoverStep(r), false)
    ensures Recovered(w, r, w')
  {
    var rec := w.recs[r];
    var o, q := rec.order, rec.proc;
    if q.phase.Cancelling? {
      var q' := q.(phase := AfterCancel(q));
      assert w' == w.(shipments := w.shipments - {o}, recs := w.recs[r := rec.(proc := q')]);
      RecCalled(w, r, w', q');
    } else {
      var q' := q.(phase := NextRelease(q.held, 0));
      assert w' == w.(charges := w.charges - {o}, recs := w.recs[r := rec.(proc := q')]);
      RecCalled(w, r, w', q');
    }
  }

  lemma RecCalled(w: World, r: nat, w': World, q': Proc)
    requires Recovering(w, r) && (w.recs[r].proc.phase.Cancelling? || w.recs[r].proc.phase.Refunding?)
    requires var q, o := w.recs[r].proc, w.recs[r].order;
      && q' == q.(phase := if q.phase.Cancelling? then AfterCancel(q) else NextRelease(q.held, 0))
      && w' == w.(shipments := if q.phase.Cancelling? then w.shipments - {o} else w.shipments,
                  charges := if q.phase.Cancelling? then w.charges else w.charges - {o},
                  recs := w.recs[r := w.recs[r].(proc := q')])
    ensures Recovered(w, r, w')
  {
    var rec := w.recs[r];
    CalledOnward(w, w', rec.order);
    RecAdvanced(w, w', rec, q');
    assert StillMid(w, w', rec.order);
    CrashedKept(w, w', rec.order);
  }

  lemma CalledOnward(w: World, w': World, o: OrderId)
    requires o in w.orders && o in w.runs && o in w.crashed
    requires w' == w.(charges := w'.charges, shipments := w'.shipments, recs := w'.recs)
    requires w'.charges <= w.charges && w'.shipments <= w.shipments
    ensures Onward(w, w', o)
  {
    assert Tail(w', o) == Tail(w, o);
  }

  lemma FatesReleased(l: seq<Entry>, l': seq<Entry>, o: OrderId, p: Proc, lines: seq<Line>, i: nat)
    requires Owns(l, o, p.held, lines) && FatesOk(l, p, |lines|, true) && SameTags(l, l')
    requires i < |p.held| && Stage(p, |lines|) >= 1
    requires forall id :: 0 <= id < |l| && id != p.held[i].id ==> l'[id] == l[id]
    requires l'[p.held[i].id].fate == (if l[p.held[i].id].fate != Live then l[p.held[i].id].fate else Released)
    ensures FatesOk(l', p, |lines|, true)
  {
  }

  lemma RecReleasing(w: World, r: nat, w': World)
    requires Recovering(w, r) && w.recs[r].proc.phase.Releasing?
    requires w' == Apply(w, RecoverStep(r), false)
    ensures Recovered(w, r, w')
  {
    var rec := w.recs[r];
    assert r in w'.recs && w'.recs == w.recs[r := w'.recs[r]];
    assert w'.recs[r] == rec.(proc := rec.proc.(phase := NextRelease(rec.proc.held, rec.proc.phase.i + 1)));
    assert Releases(w, rec, w');
    RecReleasingKeeps(w, r, w');
  }

  lemma RecReleasingKeeps(w: World, r: nat, w': World)
    requires r in w.recs && Releases(w, w.recs[r], w')
    requires r in w'.recs && w'.recs == w.recs[r := w'.recs[r]]
    requires var rec := w.recs[r];
      w'.recs[r] == rec.(proc := rec.proc.(phase := NextRelease(rec.proc.held, rec.proc.phase.i + 1)))
    ensures Recovered(w, r, w')
  {
    RecReleases(w, w.recs[r], w', w'.recs[r].proc);
    ReleasedFates(w, w.recs[r], w');
    ReleaseKeeps(w, w.recs[r], w', r);
  }

  /** A dead order, a recoverer about to release one reservation, and the state after it did. */
  ghost predicate Releases(w: World, rec: Recoverer, w': World) {
    && RecOk(w, rec) && OrderOk(w, rec.order) && Conserved(w.inv) && rec.proc.phase.Releasing?
    && var h := rec.proc.held[rec.proc.phase.i];
    && w' == w.(inv := Resolve(w.inv, h.Key(), h.id, RELEASE), recs := w'.recs)
  }

  lemma ReleasedFates(w: World, rec: Recoverer, w': World)
    requires Releases(w, rec, w')
    ensures var p, ord := w.runs[rec.order], w.orders[rec.order];
      Owns(w'.inv.ledger, rec.order, p.held, ord.lines) && FatesOk(w'.inv.ledger, p, |ord.lines|, true)
  {
    var i, p, ord := rec.proc.phase.i, w.runs[rec.order], w.orders[rec.order];
    ResolveLedger(w.inv, p.held[i].Key(), p.held[i].id, RELEASE);
    OwnsKept(w.inv.ledger, w'.inv.ledger, rec.order, p.held, ord.lines);
    FatesReleased(w.inv.ledger, w'.inv.ledger, rec.order, p, ord.lines, i);
  }

  lemma ReleaseKeeps(w: World, rec: Recoverer, w': World, r: nat)
    requires Releases(w, rec, w') && Onward(w, w', rec.order)
    requires r in w.recs && w.recs[r] == rec && r in w'.recs && w'.recs == w.recs[r := w'.recs[r]]
    requires w'.recs[r].order == rec.order && MidRecovery(w'.recs[r].proc)
    requires var p, ord := w.runs[rec.order], w.orders[rec.order];
      Owns(w'.inv.ledger, rec.order, p.held, ord.lines) && FatesOk(w'.inv.ledger, p, |ord.lines|, true)
    ensures OrderOk(w', rec.order)
  {
    assert StillMid(w, w', rec.order);
    CrashedKept(w, w', rec.order);
  }

  lemma RecReleases(w: World, rec: Recoverer, w': World, q': Proc)
    requires Releases(w, rec, w')
    requires q' == rec.proc.(phase := NextRelease(rec.proc.held, rec.proc.phase.i + 1))
    ensures RecOk(w', rec.(proc := q')) && Onward(w, w', rec.order)
  {
    var q, i := rec.proc, rec.proc.phase.i;
    ReleasesOnward(w, rec, w');
    ReleasedNext(q, q');
    ResolvedNext(w.inv.ledger, w'.inv.ledger, q.held, i);
    RecAdvanced(w, w', rec, q');
  }

  lemma ReleasesOnward(w: World, rec: Recoverer, w': World)
    requires Releases(w, rec, w')
    ensures Onward(w, w', rec.order) && |w'.inv.ledger| == |w.inv.ledger|
    ensures w'.inv.ledger[rec.proc.held[rec.proc.phase.i].id].fate != Live
  {
    var h := rec.proc.held[rec.proc.phase.i];
    ResolveLedger(w.inv, h.Key(), h.id, RELEASE);
  }

  lemma ReleasedNext(q: Proc, q': Proc)
    requires RecShape(q) && q.phase.Releasing? && q' == q.(phase := NextRelease(q.held, q.phase.i + 1))
    ensures RecShape(q') && ReleasedUpTo(q') == q.phase.i + 1 && ReleasedUpTo(q) == q.phase.i
    ensures PastCancel(q) && PastRefund(q) && PastCancel(q') && PastRefund(q')
  {
  }

  lemma ResolvedNext(l: seq<Entry>, l': seq<Entry>, held: seq<Held>, i: nat)
    requires i < |held| && |l'| == |l| && forall j :: 0 <= j < |held| ==> held[j].id < |l|
    requires Resolved(l, held, i) && l'[held[i].id].fate != Live
    requires forall id :: 0 <= id < |l| && l[id].fate != Live ==> l'[id].fate != Live
    ensures Resolved(l', held, i + 1)
  {
  }

  // ----- every action ---------------------------------------------------------------------------------

  lemma RunKeeps(w: World, o: OrderId, ok: bool)
    requires Inv(w) && Enabled(w, Run(o, ok), false)
    ensures Inv(Apply(w, Run(o, ok), false))
  {
    var p := w.runs[o];
    var w' := Apply(w, Run(o, ok), false);
    assert OrderOk(w, o);
    StepInventory(w, o, p, ok);
    RunStep(w, o, ok);
    RunWithin(w, o, ok, w');
    Localize(w, w', o);
  }

  /** Nobody recovers an order whose activity lives. */
  lemma NoRecoverer(w: World, o: OrderId)
    requires RecsOk(w) && o !in w.crashed
    ensures forall r :: r in w.recs ==> w.recs[r].order != o
  {
    forall r | r in w.recs ensures w.recs[r].order != o {
      assert RecOk(w, w.recs[r]);
    }
  }

  /** An await on behalf of `o`, whoever made it. */
  lemma StepWithin(w: World, o: OrderId, p: Proc, ok: bool, w': World)
    requires Domains(w) && o in w.orders
    requires var s := Step(w, o, p, ok).0;
      && LedgerStep(w.inv.ledger, s.inv.ledger, o) && w' == s.(runs := w'.runs, recs := w'.recs)
    requires w'.runs.Keys == w.runs.Keys && forall q :: q in w.runs && q != o ==> w'.runs[q] == w.runs[q]
    requires forall r :: r in w'.recs && w'.recs[r].order != o ==> r in w.recs && w'.recs[r] == w.recs[r]
    requires forall r :: r in w.recs && w.recs[r].order != o ==> r in w'.recs && w'.recs[r] == w.recs[r]
    ensures Within(w, w', o)
  {
    StepFrame(w, o, p, ok);
    FramedWithin(w, Step(w, o, p, ok).0, o, w');
  }

  lemma FramedWithin(w: World, s: World, o: OrderId, w': World)
    requires Domains(w) && o in w.orders
    requires LedgerStep(w.inv.ledger, s.inv.ledger, o) && w' == s.(runs := w'.runs, recs := w'.recs)
    requires s.crashed == w.crashed && s.orders.Keys == w.orders.Keys
    requires s.charges <= w.charges + {o} && s.shipments <= w.shipments + {o}
    requires w.charges <= s.charges + {o} && w.shipments <= s.shipments + {o}
    requires s.log == w.log || exists ev :: s.log == w.log + [(o, ev)]
    requires forall q :: q in w.orders && q != o ==>
      s.orders[q] == w.orders[q] && Published(s.log, q) == Published(w.log, q)
    requires w'.runs.Keys == w.runs.Keys && forall q :: q in w.runs && q != o ==> w'.runs[q] == w.runs[q]
    requires forall r :: r in w'.recs && w'.recs[r].order != o ==> r in w.recs && w'.recs[r] == w.recs[r]
    requires forall r :: r in w.recs && w.recs[r].order != o ==> r in w'.recs && w'.recs[r] == w.recs[r]
    ensures Within(w, w', o)
  {
    forall q | q in w.orders && q != o ensures Untouched(w, w', q) {}
  }

  lemma RunWithin(w: World, o: OrderId, ok: bool, w': World)
    requires Inv(w) && Enabled(w, Run(o, ok), false) && w' == Apply(w, Run(o, ok), false)
    requires LedgerStep(w.inv.ledger, w'.inv.ledger, o)
    ensures Within(w, w', o) && forall r :: r in w'.recs ==> w'.recs[r].order != o
  {
    var (s, p') := Step(w, o, w.runs[o], ok);
    StepFrame(w, o, w.runs[o], ok);
    assert w' == s.(runs := w.runs[o := p']);
    StepWithin(w, o, w.runs[o], ok, w');
    NoRecoverer(w, o);
  }

  lemma RecoverWithin(w: World, r: nat, w': World)
    requires Inv(w) && Enabled(w, RecoverStep(r), false) && w' == Apply(w, RecoverStep(r), false)
    requires LedgerStep(w.inv.ledger, w'.inv.ledger, w.recs[r].order)
    ensures Within(w, w', w.recs[r].order)
    ensures w'.recs == w.recs[r := w'.recs[r]] && w'.recs[r].order == w.recs[r].order
  {
    var o, p := w.recs[r].order, w.recs[r].proc;
    var (s, p') := Step(w, o, p, false);
    assert w' == s.(recs := w.recs[r := w.recs[r].(proc := p')]);
    StepFrame(w, o, p, false);
    StepWithin(w, o, p, false, w');
  }

  lemma RecoverStepKeeps(w: World, r: nat)
    requires Inv(w) && Enabled(w, RecoverStep(r), false)
    ensures Inv(Apply(w, RecoverStep(r), false))
  {
    var o := w.recs[r].order;
    var w' := Apply(w, RecoverStep(r), false);
    assert RecOk(w, w.recs[r]) && OrderOk(w, o);
    StepInventory(w, o, w.recs[r].proc, false);
    RecStep(w, r, w');
    RecoverWithin(w, r, w');
    RecoverRecs(w, r, w');
    Localize(w, w', o);
  }

  lemma RecoverRecs(w: World, r: nat, w': World)
    requires RecsOk(w) && r in w.recs && r in w'.recs && w'.recs == w.recs[r := w'.recs[r]] && RecOk(w', w'.recs[r])
    requires w.recs[r].order in w.orders && w.recs[r].order in w.runs && Onward(w, w', w.recs[r].order)
    ensures RecsOfOk(w', w.recs[r].order)
  {
    forall q | q in w'.recs && w'.recs[q].order == w.recs[r].order ensures RecOk(w', w'.recs[q]) {
      if q != r {
        assert RecOk(w, w.recs[q]);
        RecKept(w, w', w.recs[q]);
      }
    }
  }

  lemma RecStep(w: World, r: nat, w': World)
    requires Recovering(w, r) && w' == Apply(w, RecoverStep(r), false)
    ensures Recovered(w, r, w')
  {
    match w.recs[r].proc.phase
    case Recording(_) => RecRecording(w, r, w');
    case Releasing(_) => RecReleasing(w, r, w');
    case Publishing(_) => RecPublishing(w, r, w');
    case Done(_) => RecPublishing(w, r, w');
    case _ => RecCalling(w, r, w');
  }

  lemma CreateKeeps(w: World, o: OrderId, lines: seq<Line>)
    requires Inv(w) && o !in w.orders
    ensures Inv(Apply(w, Create(o, lines), false))
  {
    var w' := Apply(w, Create(o, lines), false);
    CreateWithin(w, w', o, lines);
    CreatedOk(w, w', o, lines);
    forall r | r in w.recs ensures w.recs[r].order != o { assert RecOk(w, w.recs[r]); }
    Localize(w, w', o);
  }

  lemma CreateWithin(w: World, w': World, o: OrderId, lines: seq<Line>)
    requires Domains(w) && o !in w.orders && w' == Apply(w, Create(o, lines), false)
    ensures Within(w, w', o)
  {
    forall q | q in w.orders && q != o ensures Untouched(w, w', q) {}
  }

  lemma CreatedOk(w: World, w': World, o: OrderId, lines: seq<Line>)
    requires Domains(w) && o !in w.orders && w' == Apply(w, Create(o, lines), false)
    ensures OrderOk(w', o)
  {
    PublishedNone(w.log, o);
  }

  lemma {:induction false} PublishedNone(log: seq<(OrderId, Event)>, o: OrderId)
    requires forall i :: 0 <= i < |log| ==> log[i].0 != o
    ensures Published(log, o) == []
  {
    if log != [] { PublishedNone(log[..|log| - 1], o); }
  }

  lemma CrashKeeps(w: World, o: OrderId)
    requires Inv(w) && Enabled(w, Crash(o), false)
    ensures Inv(Apply(w, Crash(o), false))
  {
    var w' := Apply(w, Crash(o), false);
    assert OrderOk(w, o);
    assert Tail(w', o) == [];
    assert OrderOk(w', o);
    forall r | r in w.recs ensures w.recs[r].order != o { assert RecOk(w, w.recs[r]); }
    Localize(w, w', o);
  }

  /** What the invariant says of a dead order. */
  lemma CrashedFacts(w: World, o: OrderId)
    requires o in w.orders && o in w.runs && OrderOk(w, o) && o in w.crashed
    ensures var p, ord, tail := w.runs[o], w.orders[o], Tail(w, o);
      && Shape(p, |ord.lines|) && ord.history == Wrote(p, |ord.lines|) + tail && Unwinding(tail)
      && (Over(p) ==> tail == [])
      && (forall j :: 0 <= j < |p.held| ==> p.held[j].id < |w.inv.ledger|)
      && (Cancelled in tail ==> Undone(w, o, p, |ord.lines|))
      && (Over(p) ==> (o in w.charges <==> Paying(p)) && (o in w.shipments <==> Delivering(p)))
  {
  }

  /** `recoverStuck` reads off the history exactly what the dead activity had recorded. */
  lemma RecoveryReads(w: World, o: OrderId)
    requires o in w.orders && o in w.runs && OrderOk(w, o) && o in w.crashed && !IsTerminal(w.orders[o].status)
    ensures RecOk(w, Recoverer(o, Recovery(w.orders[o]), true))
  {
    var p, ord := w.runs[o], w.orders[o];
    CrashedFacts(w, o);
    HistoryReads(p, |ord.lines|, ord.history, Tail(w, o));
    Unended(w, o);
    StartsOk(w, o);
  }

  lemma Unended(w: World, o: OrderId)
    requires o in w.orders && o in w.runs && OrderOk(w, o) && !IsTerminal(w.orders[o].status)
    ensures w.orders[o].history != [] ==> !IsTerminal(StatusOf(w.orders[o].history[|w.orders[o].history| - 1]))
  {
  }

  lemma StartsOk(w: World, o: OrderId)
    requires o in w.orders && o in w.runs && o in w.crashed && !Over(w.runs[o])
    requires var p, ord := w.runs[o], w.orders[o]; var n := |ord.lines|;
      && FirstReserved(ord.history) == (if Stage(p, n) >= 1 then p.held else [])
      && (Charged in ord.history <==> Stage(p, n) >= 2) && (Shipped in ord.history <==> Stage(p, n) >= 3)
      && forall j :: 0 <= j < |p.held| ==> p.held[j].id < |w.inv.ledger|
    ensures RecOk(w, Recoverer(o, Recovery(w.orders[o]), true))
  {
  }

  lemma HistoryReads(p: Proc, n: nat, h: seq<Event>, tail: seq<Event>)
    requires h == Wrote(p, n) + tail && Unwinding(tail) && (Over(p) ==> tail == [])
    requires Shape(p, n)
    ensures FirstReserved(h) == (if Stage(p, n) >= 1 then p.held else [])
    ensures Charged in h <==> Stage(p, n) >= 2
    ensures Shipped in h <==> Stage(p, n) >= 3
    ensures Over(p) ==> h != [] && IsTerminal(StatusOf(h[|h| - 1]))
  {
    WroteParts(p, n);
    PartsRead(Stage(p, n), p.held, Suffix(p), tail, h);
    if Over(p) { OverReads(p, n); }
  }

  lemma PartsRead(k: nat, held: seq<Held>, suffix: seq<Event>, tail: seq<Event>, h: seq<Event>)
    requires k <= 4 && suffix in {[], [Compensating], [Compensating, Cancelled]} && Unwinding(tail)
    requires h == (Forward(k, held) + suffix) + tail
    ensures FirstReserved(h) == (if k >= 1 then held else [])
    ensures (Charged in h <==> k >= 2) && (Shipped in h <==> k >= 3)
  {
    assert h == Forward(k, held) + (suffix + tail);
    ForwardReads(k, held, suffix + tail);
  }

  lemma OverReads(p: Proc, n: nat)
    requires Shape(p, n) && Over(p)
    ensures var h := Wrote(p, n); h + [] == h && h != [] && IsTerminal(StatusOf(h[|h| - 1]))
  {
    WroteParts(p, n);
  }

  lemma WroteParts(p: Proc, n: nat)
    requires Shape(p, n)
    ensures Stage(p, n) <= 4
    ensures Suffix(p) in {[], [Compensating], [Compensating, Cancelled]}
    ensures Over(p) ==> Suffix(p) == [Compensating, Cancelled] || (Stage(p, n) == 4 && Suffix(p) == [])
  {
  }

  lemma ForwardReads(k: nat, held: seq<Held>, rest: seq<Event>)
    requires k <= 4 && forall i :: 0 <= i < |rest| ==> rest[i] == Compensating || rest[i] == Cancelled
    ensures var h := Forward(k, held) + rest;
      && FirstReserved(h) == (if k >= 1 then held else [])
      && (Charged in h <==> k >= 2) && (Shipped in h <==> k >= 3)
  {
    var h := Forward(k, held) + rest;
    forall i | k <= i < |h| ensures h[i] == Compensating || h[i] == Cancelled {
      assert h[i] == rest[i - k];
    }
    if k == 0 {
      NoReserved(h);
    } else {
      assert h[0] == Reserved(held);
    }
    assert k >= 2 ==> h[1] == Charged;
    assert k >= 3 ==> h[2] == Shipped;
  }

  lemma {:induction false} NoReserved(h: seq<Event>)
    requires forall i :: 0 <= i < |h| ==> !h[i].Reserved?
    ensures FirstReserved(h) == []
  {
    if h != [] { NoReserved(h[1..]); }
  }

  lemma RecoverKeeps(w: World, r: nat, o: OrderId)
    requires Inv(w) && Enabled(w, Recover(r, o), false)
    ensures Inv(Apply(w, Recover(r, o), false))
  {
    var w' := Apply(w, Recover(r, o), false);
    assert OrderOk(w, o);
    RecoveryReads(w, o);
    RecsOnly(w, w', o, r);
  }

  lemma CrashRecovererKeeps(w: World, r: nat)
    requires Inv(w) && Enabled(w, CrashRecoverer(r), false)
    ensures Inv(Apply(w, CrashRecoverer(r), false))
  {
    assert RecOk(w, w.recs[r]);
    RecsOnly(w, Apply(w, CrashRecoverer(r), false), w.recs[r].order, r);
  }

  /** Starting or killing a recoverer moves nothing else. */
  lemma RecsOnly(w: World, w': World, o: OrderId, r: nat)
    requires Inv(w) && o in w.orders && o in w.crashed && r in w'.recs && w' == w.(recs := w.recs[r := w'.recs[r]])
    requires w'.recs[r].order == o && RecOk(w, w'.recs[r])
    requires r in w.recs ==> w.recs[r].order == o && w.recs[r].proc == w'.recs[r].proc
    ensures Inv(w')
  {
    assert OrderOk(w, o);
    RecsOnlyMid(w, w', o, r);
    RecsOnlyOrder(w, w', o);
    RecsOnlyRec(w, w', w'.recs[r]);
    RecoverRecs2(w, w', o, r);
    RecsOnlyWithin(w, w', o, r);
    Localize(w, w', o);
  }

  lemma RecsOnlyWithin(w: World, w': World, o: OrderId, r: nat)
    requires Domains(w) && o in w.orders && r in w'.recs && w' == w.(recs := w.recs[r := w'.recs[r]])
    requires w'.recs[r].order == o && (r in w.recs ==> w.recs[r].order == o)
    ensures Within(w, w', o)
  {
  }

  lemma RecsOnlyMid(w: World, w': World, o: OrderId, r: nat)
    requires r in w'.recs && w' == w.(recs := w.recs[r := w'.recs[r]]) && w'.recs[r].order == o
    requires r in w.recs ==> w.recs[r].proc == w'.recs[r].proc
    ensures StillMid(w, w', o)
  {
  }

  lemma RecsOnlyRec(w: World, w': World, rec: Recoverer)
    requires RecOk(w, rec) && w' == w.(recs := w'.recs)
    ensures RecOk(w', rec)
  {
    RecKept(w, w', rec);
  }

  lemma RecsOnlyOrder(w: World, w': World, o: OrderId)
    requires o in w.orders && o in w.runs && OrderOk(w, o) && w' == w.(recs := w'.recs) && StillMid(w, w', o)
    ensures OrderOk(w', o)
  {
    if o in w.crashed { CrashedKept(w, w', o); }
  }

  lemma RecoverRecs2(w: World, w': World, o: OrderId, r: nat)
    requires RecsOk(w) && r in w'.recs && w' == w.(recs := w.recs[r := w'.recs[r]]) && o in w.crashed
    requires o in w.orders && o in w.runs && RecOk(w', w'.recs[r])
    ensures RecsOfOk(w', o)
  {
    forall q | q in w'.recs && w'.recs[q].order == o ensures RecOk(w', w'.recs[q]) {
      if q != r {
        assert RecOk(w, w.recs[q]);
        RecsOnlyRec(w, w', w.recs[q]);
      }
    }
  }

  lemma ProvisionKeeps(w: World, key: Key, qty: int)
    requires Inv(w) && qty >= 0
    ensures Inv(Apply(w, Provision(key, qty), false))
  {
    var w' := Apply(w, Provision(key, qty), false);
    SetStockConserves(w.inv, key, qty);
    assert w' == w.(inv := SetStock(w.inv, key, qty));
    forall q | q in w.orders ensures OrderOk(w', q) { assert OrderOk(w, q); SameLedgerOrder(w, w', q); }
    forall r | r in w.recs ensures RecOk(w', w.recs[r]) { assert RecOk(w, w.recs[r]); SameLedgerRec(w, w', w.recs[r]); }
  }

  lemma SameLedgerOrder(w: World, w': World, q: OrderId)
    requires w' == w.(inv := w'.inv) && w'.inv.ledger == w.inv.ledger
    requires q in w.orders && q in w.runs && OrderOk(w, q)
    ensures OrderOk(w', q)
  {
    if q in w.crashed { CrashedKept(w, w', q); }
  }

  lemma SameLedgerRec(w: World, w': World, rec: Recoverer)
    requires w' == w.(inv := w'.inv) && w'.inv.ledger == w.inv.ledger && RecOk(w, rec)
    ensures RecOk(w', rec)
  {
  }

  lemma ExpireKeeps(w: World, id: nat)
    requires Inv(w) && Enabled(w, Expire(id), false)
    ensures Inv(Apply(w, Expire(id), false))
  {
    var w' := w.(inv := Lapse(w.inv, id));
    assert w' == Apply(w, Expire(id), false);
    LapseConserves(w.inv, id);
    assert w'.inv.ledger == Mark(w.inv.ledger, id, Expired) && id < |w.inv.ledger|;
    assert Domains(w');
    ExpireOrders(w, w', id);
    ExpireRecs(w, w', id);
  }

  lemma ExpireOrders(w: World, w': World, id: nat)
    requires w' == w.(inv := w'.inv) && id < |w.inv.ledger| && w'.inv.ledger == Mark(w.inv.ledger, id, Expired)
    requires Domains(w) && Domains(w') && OrdersOk(w)
    ensures OrdersOk(w')
  {
    forall q | q in w.orders ensures OrderOk(w', q) { assert OrderOk(w, q); ExpireOrder(w, w', id, q); }
  }

  lemma ExpireRecs(w: World, w': World, id: nat)
    requires w' == w.(inv := w'.inv) && id < |w.inv.ledger| && w'.inv.ledger == Mark(w.inv.ledger, id, Expired)
    requires RecsOk(w)
    ensures RecsOk(w')
  {
    forall r | r in w.recs ensures RecOk(w', w.recs[r]) { assert RecOk(w, w.recs[r]); ExpireRec(w, w', id, w.recs[r]); }
  }

  lemma ExpireRec(w: World, w': World, id: nat, rec: Recoverer)
    requires w' == w.(inv := w'.inv) && id < |w.inv.ledger| && w'.inv.ledger == Mark(w.inv.ledger, id, Expired)
    requires RecOk(w, rec)
    ensures RecOk(w', rec)
  {
    RecKept(w, w', rec);
  }

  lemma ExpireOrder(w: World, w': World, id: nat, q: OrderId)
    requires w' == w.(inv := w'.inv) && id < |w.inv.ledger| && w'.inv.ledger == Mark(w.inv.ledger, id, Expired)
    requires q in w.orders && q in w.runs && OrderOk(w, q)
    ensures OrderOk(w', q)
  {
    var p, lines := w.runs[q], w.orders[q].lines;
    ExpiredHeld(w.inv.ledger, id, q, p, lines, q in w.crashed);
    if q in w.crashed { CrashedKept(w, w', q); }
  }

  lemma ExpiredHeld(l: seq<Entry>, id: nat, q: OrderId, p: Proc, lines: seq<Line>, crashed: bool)
    requires id < |l| && Owns(l, q, p.held, lines) && FatesOk(l, p, |lines|, crashed)
    ensures Owns(Mark(l, id, Expired), q, p.held, lines) && FatesOk(Mark(l, id, Expired), p, |lines|, crashed)
  {
    OwnsKept(l, Mark(l, id, Expired), q, p.held, lines);
  }

  lemma ActionKeeps(w: World, a: Action, solo: bool)
    requires Inv(w)
    ensures Inv(Apply(w, a, solo))
  {
    if Enabled(w, a, solo) {
      assert Apply(w, a, solo) == Apply(w, a, false);
      match a
      case Create(o, lines) => CreateKeeps(w, o, lines);
      case Run(o, ok) => RunKeeps(w, o, ok);
      case Crash(o) => CrashKeeps(w, o);
      case Recover(r, o) => RecoverKeeps(w, r, o);
      case RecoverStep(r) => RecoverStepKeeps(w, r);
      case CrashRecoverer(r) => CrashRecovererKeeps(w, r);
      case Expire(id) => ExpireKeeps(w, id);
      case Provision(key, qty) => ProvisionKeeps(w, key, qty);
    }
  }

  /** Every state of every run is as the invariant says. */
  lemma {:induction false} RunsKeep(w: World, actions: seq<Action>, solo: bool)
    requires Inv(w)
    ensures Inv(Exec(w, actions, solo))
  {
    if actions != [] {
      RunsKeep(w, actions[..|actions| - 1], solo);
      ActionKeeps(Exec(w, actions[..|actions| - 1], solo), actions[|actions| - 1], solo);
    }
  }

  lemma Reachable(actions: seq<Action>, solo: bool)
    ensures Inv(Exec(INIT, actions, solo))
  {
    RunsKeep(INIT, actions, solo);
  }
}
