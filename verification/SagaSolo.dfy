/** Runs in which the recoveries of one order exclude each other, and what goes wrong when they do not. */
module SagaSolo {
  import opened Inventory
  import opened Saga
  import opened SagaInvariant
  import opened SagaSteps
  import opened SagaTheorems

  /** COMPENSATING any number of times, then CANCELLED at most once. */
  predicate CancelledLast(tail: seq<Event>) {
    forall i :: 0 <= i < |tail| - 1 ==> tail[i] == Compensating
  }

  ghost predicate SoloOrders(w: World)
    requires Domains(w)
  {
    forall o {:trigger Tail(w, o)} :: o in w.crashed ==> CancelledLast(Tail(w, o))
  }

  /** A recoverer that has still to record finds the order not cancelled yet. */
  ghost predicate SoloRecs(w: World) {
    && (forall r :: r in w.recs ==> w.recs[r].order in w.orders && w.recs[r].order in w.runs)
    && (forall r :: r in w.recs && Busy(w.recs[r]) && w.recs[r].proc.phase != Publishing(Cancelled) ==>
         Cancelled !in Tail(w, w.recs[r].order))
    && (forall r, q :: r in w.recs && q in w.recs && r != q && Busy(w.recs[r]) && Busy(w.recs[q]) ==>
         w.recs[r].order != w.recs[q].order)
  }

  ghost predicate Solo(w: World) {
    Inv(w) && SoloOrders(w) && SoloRecs(w)
  }

  /** The order record is written only by a Recording await, and then gains exactly that record. */
  lemma Writes(w: World, a: Action, solo: bool, o: OrderId)
    requires o in w.orders
    ensures o in Apply(w, a, solo).orders
    ensures var w' := Apply(w, a, solo);
      || w'.orders[o] == w.orders[o]
      || (a.Run? && a.o == o && o in w.runs && o !in w.crashed && w.runs[o].phase.Recording?
          && w'.orders[o] == w.orders[o].Record(w.runs[o].phase.ev))
      || (a.RecoverStep? && a.r in w.recs && w.recs[a.r].alive && w.recs[a.r].order == o
          && w.recs[a.r].proc.phase.Recording? && w'.orders[o] == w.orders[o].Record(w.recs[a.r].proc.phase.ev))
  {
  }

  /** One action writes to a terminal order exactly when it is a recoverer's await of the store. */
  lemma ReopenedExactlyWhen(w: World, a: Action, solo: bool, o: OrderId)
    requires Inv(w) && o in w.orders && IsTerminal(w.orders[o].status)
    ensures o in Apply(w, a, solo).orders
    ensures Apply(w, a, solo).orders[o] != w.orders[o] <==>
      && a.RecoverStep? && a.r in w.recs && w.recs[a.r].alive && w.recs[a.r].order == o
      && w.recs[a.r].proc.phase.Recording?
  {
    Writes(w, a, solo, o);
    assert OrderOk(w, o);
    TerminalEnds(w, o);
    if && a.RecoverStep? && a.r in w.recs && w.recs[a.r].alive && w.recs[a.r].order == o
       && w.recs[a.r].proc.phase.Recording? {
      assert |Apply(w, a, solo).orders[o].history| == |w.orders[o].history| + 1;
    }
  }

  /** A live recoverer of `o` that has yet to record COMPENSATING or CANCELLED. */
  ghost predicate Unsettled(w: World, o: OrderId, r: nat) {
    r in w.recs && w.recs[r].alive && w.recs[r].order == o && Left(w.recs[r].proc) >= 2
  }

  /** A terminal order, and no recoverer of it that still has a record to write. */
  ghost predicate Settled(w: World, o: OrderId) {
    o in w.orders && IsTerminal(w.orders[o].status) && forall r :: !Unsettled(w, o, r)
  }

  /** Nobody but the recoverer itself comes nearer to or further from its end, and no new one starts on a terminal
      order. */
  lemma OthersUnsettled(w: World, a: Action, o: OrderId)
    requires o in w.orders && IsTerminal(w.orders[o].status) && forall r :: !Unsettled(w, o, r)
    requires a.RecoverStep? && Enabled(w, a, false) && w.recs[a.r].order == o ==>
      Left(Step(w, o, w.recs[a.r].proc, false).1) <= 1
    ensures forall r :: !Unsettled(Apply(w, a, false), o, r)
  {
    forall r ensures !Unsettled(Apply(w, a, false), o, r) {
      assert !Unsettled(w, o, r);
      if a.Run? && Enabled(w, a, false) { StepFrame(w, a.o, w.runs[a.o], a.ok); }
      if a.RecoverStep? && Enabled(w, a, false) { StepFrame(w, w.recs[a.r].order, w.recs[a.r].proc, false); }
    }
  }

  lemma SettledStep(w: World, a: Action, o: OrderId)
    requires Inv(w) && Settled(w, o)
    ensures Settled(Apply(w, a, false), o) && Apply(w, a, false).orders[o] == w.orders[o]
  {
    var w' := Apply(w, a, false);
    if a.RecoverStep? && Enabled(w, a, false) {
      assert RecOk(w, w.recs[a.r]);
      assert !Unsettled(w, o, a.r);
      if !w.recs[a.r].proc.phase.Done? { LeftShrinks(w, w.recs[a.r].order, w.recs[a.r].proc); }
    }
    ReopenedExactlyWhen(w, a, false, o);
    OthersUnsettled(w, a, o);
  }

  lemma {:induction false} SettledForever(w: World, more: seq<Action>, o: OrderId)
    requires Inv(w) && Settled(w, o)
    ensures var w' := Exec(w, more, false); Inv(w') && Settled(w', o) && w'.orders[o] == w.orders[o]
  {
    if more != [] {
      var before := Exec(w, more[..|more| - 1], false);
      SettledForever(w, more[..|more| - 1], o);
      SettledStep(before, more[|more| - 1], o);
      ActionKeeps(before, more[|more| - 1], false);
    }
  }

  /** Left alone, such a recoverer comes to write, and the order is not what it was. */
  lemma Reopens(w: World, o: OrderId, r: nat) returns (more: seq<Action>)
    requires Inv(w) && o in w.orders && Unsettled(w, o, r)
    ensures o in Exec(w, more, false).orders && Exec(w, more, false).orders[o] != w.orders[o]
  {
    var left := Left(w.recs[r].proc);
    more := Repeat(RecoverStep(r), left - 2);
    RecovererAlone(w, r, left, left - 2);
    var u := Exec(w, more, false);
    if u.orders[o] == w.orders[o] {
      LastRecord(u, r);
      ExecNext(w, more, RecoverStep(r), false);
      more := more + [RecoverStep(r)];
    }
  }

  lemma LastRecord(w: World, r: nat)
    requires Inv(w) && r in w.recs && w.recs[r].alive && w.recs[r].order in w.orders && Left(w.recs[r].proc) == 2
    ensures var o, w' := w.recs[r].order, Apply(w, RecoverStep(r), false); o in w'.orders && w'.orders[o] != w.orders[o]
  {
    assert RecOk(w, w.recs[r]);
    var o := w.recs[r].order;
    assert w.recs[r].proc.phase == Recording(Cancelled);
    assert |Apply(w, RecoverStep(r), false).orders[o].history| == |w.orders[o].history| + 1;
  }

  /** A terminal order is done for good, whatever happens from here on, exactly when no live recoverer of it still has
      a record to write. */
  lemma DoneForGoodExactly(w: World, o: OrderId)
    requires Inv(w) && o in w.orders && IsTerminal(w.orders[o].status)
    ensures (forall more: seq<Action> ::
        o in Exec(w, more, false).orders && Exec(w, more, false).orders[o] == w.orders[o])
      <==> !exists r :: r in w.recs && w.recs[r].alive && w.recs[r].order == o && Left(w.recs[r].proc) >= 2
  {
    if r :| r in w.recs && w.recs[r].alive && w.recs[r].order == o && Left(w.recs[r].proc) >= 2 {
      var more := Reopens(w, o, r);
      assert Exec(w, more, false).orders[o] != w.orders[o];
    } else {
      forall more: seq<Action>
        ensures o in Exec(w, more, false).orders && Exec(w, more, false).orders[o] == w.orders[o]
      {
        SettledForever(w, more, o);
      }
    }
  }

  /** A CONFIRMED order is never written again, however many recoverers race. */
  lemma ConfirmedStays(w: World, a: Action, solo: bool, o: OrderId)
    requires Inv(w) && o in w.orders && w.orders[o].status == CONFIRMED
    ensures o in Apply(w, a, solo).orders && Apply(w, a, solo).orders[o] == w.orders[o]
  {
    Writes(w, a, solo, o);
    assert OrderOk(w, o);
    if a.RecoverStep? && a.r in w.recs && w.recs[a.r].order == o {
      assert RecOk(w, w.recs[a.r]);
    }
    ConfirmedIsOver(w, o);
  }

  lemma ConfirmedIsOver(w: World, o: OrderId)
    requires o in w.orders && o in w.runs && OrderOk(w, o) && w.orders[o].status == CONFIRMED
    ensures Over(w.runs[o])
  {
    var tail := TailOf(w, o);
    var p, n, h := w.runs[o], |w.orders[o].lines|, w.orders[o].history;
    WroteParts(p, n);
    OwnLast(Wrote(p, n), tail);
    assert h == Wrote(p, n);
    LastConfirmed(p, n);
  }

  lemma OwnLast(own: seq<Event>, tail: seq<Event>)
    requires var h := own + tail; Unwinding(tail) && h != [] && StatusOf(h[|h| - 1]) == CONFIRMED
    ensures tail == []
  {
  }

  lemma LastConfirmed(p: Proc, n: nat)
    requires Shape(p, n) && Wrote(p, n) != [] && StatusOf(Wrote(p, n)[|Wrote(p, n)| - 1]) == CONFIRMED
    ensures Over(p)
  {
    WroteParts(p, n);
  }

  lemma ExecNext(w: World, actions: seq<Action>, a: Action, solo: bool)
    ensures Exec(w, actions + [a], solo) == Apply(Exec(w, actions, solo), a, solo)
  {
    assert (actions + [a])[..|actions|] == actions;
  }

  lemma {:induction false} ConfirmedForever(actions: seq<Action>, more: seq<Action>, solo: bool, o: OrderId)
    requires var w := Exec(INIT, actions, solo); o in w.orders && w.orders[o].status == CONFIRMED
    ensures var w, w' := Exec(INIT, actions, solo), Exec(INIT, actions + more, solo);
      o in w'.orders && w'.orders[o] == w.orders[o]
  {
    if more == [] {
      assert actions + more == actions;
    } else {
      var init := more[..|more| - 1];
      ConfirmedForever(actions, init, solo, o);
      assert actions + more == (actions + init) + [more[|more| - 1]];
      Reachable(actions + init, solo);
      ConfirmedStays(Exec(INIT, actions + init, solo), more[|more| - 1], solo, o);
      ExecNext(INIT, actions + init, more[|more| - 1], solo);
    }
  }

  // ----- a CANCELLED order can be reopened by a racing recoverer ------------------------------------------

  /** It happens to any order. Two recoverers both saw it unfinished: the first cancels it, then the second writes
      COMPENSATING over CANCELLED. */
  lemma RacingReopens(o: OrderId, lines: seq<Line>)
    ensures exists actions: seq<Action>, a: Action ::
      var w, w' := Exec(INIT, actions, false), Exec(INIT, actions + [a], false);
      && o in w.orders && w.orders[o].lines == lines && w.orders[o].status == CANCELLED
      && o in w'.orders && w'.orders[o].status == COMPENSATING
  {
    var w := Exec(INIT, Overtaken(o, lines), false);
    OvertakenRuns(o, lines);
    FirstCancels(o, lines);
    SecondReopens(w, o);
    ExecNext(INIT, Overtaken(o, lines), RecoverStep(2), false);
  }

  /** The first recoverer has cancelled the order; the second has still to begin. */
  function Overtaken(o: OrderId, lines: seq<Line>): seq<Action> {
    Racing(o, lines) + [RecoverStep(1)] + [RecoverStep(1)] + [RecoverStep(1)]
  }

  lemma OvertakenRuns(o: OrderId, lines: seq<Line>)
    ensures Exec(INIT, Overtaken(o, lines), false)
      == Apply(Apply(Apply(Race(o, lines), RecoverStep(1), false), RecoverStep(1), false), RecoverStep(1), false)
  {
    RaceRuns(o, lines);
    ExecNext(INIT, Racing(o, lines), RecoverStep(1), false);
    ExecNext(INIT, Racing(o, lines) + [RecoverStep(1)], RecoverStep(1), false);
    ExecNext(INIT, Racing(o, lines) + [RecoverStep(1)] + [RecoverStep(1)], RecoverStep(1), false);
  }

  function Racing(o: OrderId, lines: seq<Line>): seq<Action> {
    [] + [Create(o, lines)] + [Crash(o)] + [Recover(1, o)] + [Recover(2, o)]
  }

  lemma RaceRuns(o: OrderId, lines: seq<Line>)
    ensures Exec(INIT, Racing(o, lines), false) == Race(o, lines)
  {
    ExecNext(INIT, [], Create(o, lines), false);
    ExecNext(INIT, [] + [Create(o, lines)], Crash(o), false);
    ExecNext(INIT, [] + [Create(o, lines)] + [Crash(o)], Recover(1, o), false);
    ExecNext(INIT, [] + [Create(o, lines)] + [Crash(o)] + [Recover(1, o)], Recover(2, o), false);
    TwoRecoverers(o, lines);
  }

  lemma SecondReopens(w: World, o: OrderId)
    requires o in w.orders && 2 in w.recs && w.recs[2] == Recoverer(o, START, true)
    ensures var w' := Apply(w, RecoverStep(2), false); o in w'.orders && w'.orders[o].status == COMPENSATING
  {
  }

  const START := Proc([], false, false, Recording(Compensating))

  /** An order whose activity died before it published anything, and two recoverers about to start. */
  function Race(o: OrderId, lines: seq<Line>): World {
    World(EMPTY, {}, {}, map[o := Order(lines, CREATED, [])], [], map[o := Proc([], false, false, Publishing(Created))],
          {o}, map[1 := Recoverer(o, START, true), 2 := Recoverer(o, START, true)])
  }

  lemma TwoRecoverers(o: OrderId, lines: seq<Line>)
    ensures var w2 := Apply(Apply(INIT, Create(o, lines), false), Crash(o), false);
      Apply(Apply(w2, Recover(1, o), false), Recover(2, o), false) == Race(o, lines)
  {
    var w1 := Apply(INIT, Create(o, lines), false);
    assert w1.runs == map[o := Proc([], false, false, Publishing(Created))];
    var w2 := Apply(w1, Crash(o), false);
    assert w2.orders == map[o := Order(lines, CREATED, [])] && w2.crashed == {o};
    assert Recovery(w2.orders[o]) == START;
    var w3 := Apply(w2, Recover(1, o), false);
    assert w3.recs == map[1 := Recoverer(o, START, true)];
  }

  lemma FirstCancels(o: OrderId, lines: seq<Line>)
    ensures
      var w := Apply(Apply(Apply(Race(o, lines), RecoverStep(1), false), RecoverStep(1), false), RecoverStep(1), false);
      && o in w.orders && w.orders[o].lines == lines && w.orders[o].status == CANCELLED
      && 2 in w.recs && w.recs[2] == Race(o, lines).recs[2]
  {
    var w1 := Apply(Race(o, lines), RecoverStep(1), false);
    FirstMoves(Race(o, lines), o, Recording(Compensating), Publishing(Compensating));
    var w2 := Apply(w1, RecoverStep(1), false);
    FirstMoves(w1, o, Publishing(Compensating), Recording(Cancelled));
    FirstMoves(w2, o, Recording(Cancelled), Publishing(Cancelled));
  }

  /** One await of the first of the two recoverers, who has nothing to undo. */
  lemma FirstMoves(w: World, o: OrderId, from: Phase, to: Phase)
    requires o in w.orders && 1 in w.recs && 2 in w.recs && w.recs[1] == Recoverer(o, START.(phase := from), true)
    requires (from == Recording(Compensating) && to == Publishing(Compensating))
      || (from == Publishing(Compensating) && to == Recording(Cancelled))
      || (from == Recording(Cancelled) && to == Publishing(Cancelled))
    ensures var w' := Apply(w, RecoverStep(1), false);
      && o in w'.orders && 1 in w'.recs && 2 in w'.recs
      && w'.recs[1] == Recoverer(o, START.(phase := to), true) && w'.recs[2] == w.recs[2]
      && w'.orders[o].lines == w.orders[o].lines && (from == Recording(Cancelled) ==> w'.orders[o].status == CANCELLED)
  {
  }

  // ----- one recoverer at a time --------------------------------------------------------------------------

  /** Nothing that the solo invariant looks at changed, except perhaps that some recoverer went idle. */
  ghost predicate Quiet(w: World, w': World) {
    && w'.crashed == w.crashed && w'.recs.Keys == w.recs.Keys
    && (forall o :: o in w.crashed && o in w.orders && o in w.runs ==>
         o in w'.orders && o in w'.runs && Tail(w', o) == Tail(w, o))
    && (forall r :: r in w.recs ==>
         && w'.recs[r].order == w.recs[r].order
         && (Busy(w'.recs[r]) ==> Busy(w.recs[r]))
         && (w.recs[r].proc.phase == Publishing(Cancelled) ==>
              w'.recs[r].proc.phase == Publishing(Cancelled) || !Busy(w'.recs[r])))
  }

  lemma QuietKeeps(w: World, w': World)
    requires Solo(w) && Inv(w') && Quiet(w, w')
    ensures Solo(w')
  {
    forall r | r in w'.recs ensures w'.recs[r].order in w.crashed { assert RecOk(w, w.recs[r]); }
  }

  lemma SoloRun(w: World, o: OrderId, ok: bool)
    requires Solo(w) && Enabled(w, Run(o, ok), true)
    ensures Solo(Apply(w, Run(o, ok), true))
  {
    var w' := Apply(w, Run(o, ok), true);
    ActionKeeps(w, Run(o, ok), true);
    StepFrame(w, o, w.runs[o], ok);
    QuietKeeps(w, w');
  }

  lemma SoloCrash(w: World, o: OrderId)
    requires Solo(w) && Enabled(w, Crash(o), true)
    ensures Solo(Apply(w, Crash(o), true))
  {
    var w' := Apply(w, Crash(o), true);
    ActionKeeps(w, Crash(o), true);
    assert OrderOk(w, o);
    assert Tail(w', o) == [];
    forall q | q in w.crashed ensures Tail(w', q) == Tail(w, q) {}
    forall r | r in w.recs ensures w.recs[r].order in w.crashed { assert RecOk(w, w.recs[r]); }
  }

  /** An unfinished order whose records end with at most one CANCELLED has none yet. */
  lemma UnfinishedTail(w: World, o: OrderId)
    requires o in w.orders && o in w.runs && OrderOk(w, o) && o in w.crashed
    requires CancelledLast(Tail(w, o)) && !IsTerminal(w.orders[o].status)
    ensures Cancelled !in Tail(w, o)
  {
    var tail, h := Tail(w, o), w.orders[o].history;
    if tail != [] { assert tail[|tail| - 1] == h[|h| - 1]; }
  }

  lemma SoloRecover(w: World, r: nat, o: OrderId)
    requires Solo(w) && Enabled(w, Recover(r, o), true)
    ensures Solo(Apply(w, Recover(r, o), true))
  {
    ActionKeeps(w, Recover(r, o), true);
    assert OrderOk(w, o);
    UnfinishedTail(w, o);
    SoloStarted(w, w.(recs := w.recs[r := Recoverer(o, Recovery(w.orders[o]), true)]), r, o);
  }

  lemma SoloStarted(w: World, w': World, r: nat, o: OrderId)
    requires Domains(w) && Domains(w') && SoloOrders(w) && SoloRecs(w) && o in w.orders && o in w.runs && r !in w.recs
    requires r in w'.recs && w'.recs[r].order == o && w' == w.(recs := w.recs[r := w'.recs[r]])
    requires Cancelled !in Tail(w, o) && forall q <- w.recs :: w.recs[q].order == o ==> !Busy(w.recs[q])
    ensures SoloOrders(w') && SoloRecs(w')
  {
    forall q | q in w.orders && q in w.runs ensures Tail(w', q) == Tail(w, q) {}
  }

  lemma SoloRecoverStep(w: World, r: nat)
    requires Solo(w) && Enabled(w, RecoverStep(r), true)
    ensures Solo(Apply(w, RecoverStep(r), true))
  {
    var w' := Apply(w, RecoverStep(r), true);
    ActionKeeps(w, RecoverStep(r), true);
    var rec := w.recs[r];
    assert RecOk(w, rec) && OrderOk(w, rec.order);
    if rec.proc.phase.Recording? {
      SoloRecords(w, r, w');
    } else {
      SoloWorks(w, r, w');
    }
  }

  lemma SoloRecords(w: World, r: nat, w': World)
    requires Solo(w) && Enabled(w, RecoverStep(r), true) && w.recs[r].proc.phase.Recording?
    requires RecOk(w, w.recs[r]) && OrderOk(w, w.recs[r].order) && w' == Apply(w, RecoverStep(r), true) && Inv(w')
    ensures Solo(w')
  {
    var rec := w.recs[r];
    var o, ev := rec.order, rec.proc.phase.ev;
    assert w'.recs == w.recs[r := rec.(proc := rec.proc.(phase := Publishing(ev)))];
    assert w'.orders == w.orders[o := w.orders[o].Record(ev)] && w'.runs == w.runs && w'.crashed == w.crashed;
    assert ev == Compensating || ev == Cancelled;
    TailRecorded(w, w.(orders := w.orders[o := w.orders[o].Record(ev)]), o, ev);
    assert Tail(w', o) == Tail(w.(orders := w.orders[o := w.orders[o].Record(ev)]), o);
    Recorded(w, w', r, ev);
  }

  lemma Recorded(w: World, w': World, r: nat, ev: Event)
    requires Domains(w) && SoloOrders(w) && SoloRecs(w) && Inv(w') && r in w.recs && Busy(w.recs[r])
    requires w.recs[r].proc.phase == Recording(ev) && (ev == Compensating || ev == Cancelled)
    requires var o := w.recs[r].order;
      && w'.recs == w.recs[r := w.recs[r].(proc := w.recs[r].proc.(phase := Publishing(ev)))]
      && w'.orders == w.orders[o := w.orders[o].Record(ev)] && w'.runs == w.runs && w'.crashed == w.crashed
      && o in w.crashed && Tail(w', o) == Tail(w, o) + [ev]
      && forall e <- Tail(w, o) :: e == Compensating || e == Cancelled
    ensures Solo(w')
  {
    var o := w.recs[r].order;
    assert Cancelled !in Tail(w, o);
    forall q | q in w.orders && q in w.runs && q != o ensures Tail(w', q) == Tail(w, q) {}
    forall i | 0 <= i < |Tail(w, o)| ensures Tail(w, o)[i] == Compensating {
      assert Tail(w, o)[i] in Tail(w, o);
    }
    assert SoloOrders(w');
  }

  lemma SoloWorks(w: World, r: nat, w': World)
    requires Solo(w) && Enabled(w, RecoverStep(r), true) && !w.recs[r].proc.phase.Recording?
    requires RecOk(w, w.recs[r]) && w' == Apply(w, RecoverStep(r), true) && Inv(w')
    ensures Solo(w')
  {
    var q := w.recs[r].proc;
    StepFrame(w, w.recs[r].order, q, false);
    WorksKeeps(w, w.recs[r].order, q);
    WorksQuiet(w, w', r, Step(w, w.recs[r].order, q, false).1);
    QuietKeeps(w, w');
  }

  lemma WorksQuiet(w: World, w': World, r: nat, q': Proc)
    requires r in w.recs && w'.orders == w.orders && w'.runs == w.runs && w'.crashed == w.crashed
    requires w'.recs == w.recs[r := w.recs[r].(proc := q')]
    requires w.recs[r].proc.phase.Done? ==> q'.phase.Done?
    requires w.recs[r].proc.phase == Publishing(Cancelled) ==> q'.phase.Done?
    ensures Quiet(w, w')
  {
    forall o | o in w.orders && o in w.runs ensures Tail(w', o) == Tail(w, o) {}
  }

  lemma WorksKeeps(w: World, o: OrderId, q: Proc)
    requires o in w.orders && RecShape(q) && !q.phase.Recording?
    ensures var (w', q') := Step(w, o, q, false);
      && w'.orders == w.orders && (q.phase.Done? ==> q'.phase.Done?)
      && (q.phase == Publishing(Cancelled) ==> q'.phase.Done?)
  {
  }

  lemma SoloKeeps(w: World, a: Action)
    requires Solo(w)
    ensures Solo(Apply(w, a, true))
  {
    if Enabled(w, a, true) {
      match a
      case Run(o, ok) => SoloRun(w, o, ok);
      case Crash(o) => SoloCrash(w, o);
      case Recover(r, o) => SoloRecover(w, r, o);
      case RecoverStep(r) => SoloRecoverStep(w, r);
      case _ => SoloElsewhere(w, a);
    }
  }

  lemma SoloElsewhere(w: World, a: Action)
    requires Solo(w) && Enabled(w, a, true) && (a.Create? || a.CrashRecoverer? || a.Expire? || a.Provision?)
    ensures Solo(Apply(w, a, true))
  {
    var w' := Apply(w, a, true);
    ActionKeeps(w, a, true);
    forall o | o in w.crashed ensures Tail(w', o) == Tail(w, o) {}
    QuietKeeps(w, w');
  }

  lemma {:induction false} SoloReachable(actions: seq<Action>)
    ensures Solo(Exec(INIT, actions, true))
  {
    if actions != [] {
      SoloReachable(actions[..|actions| - 1]);
      SoloKeeps(Exec(INIT, actions[..|actions| - 1], true), actions[|actions| - 1]);
    }
  }

  /** With one recoverer at a time, the records of compensation are COMPENSATING, as often as recovery was
      started, and then CANCELLED once. */
  lemma SoloGrammar(actions: seq<Action>, o: OrderId)
    requires o in Exec(INIT, actions, true).orders
    ensures var w := Exec(INIT, actions, true);
      && o in w.runs
      && exists k: nat, rest: seq<Event> :: k <= 4 && w.orders[o].history == Forward(k, w.runs[o].held) + rest
           && Unwinding(rest) && CancelledLast(rest) && (k == 4 ==> rest == [])
  {
    SoloReachable(actions);
    SoloRest(Exec(INIT, actions, true), o);
  }

  lemma SoloRest(w: World, o: OrderId)
    requires Solo(w) && o in w.orders
    ensures o in w.runs
    ensures exists k: nat, rest: seq<Event> :: k <= 4 && w.orders[o].history == Forward(k, w.runs[o].held) + rest
              && Unwinding(rest) && CancelledLast(rest) && (k == 4 ==> rest == [])
  {
    assert OrderOk(w, o);
    var k, rest := OrderGrammar(w, o);
    assert o in w.crashed ==> CancelledLast(Tail(w, o));
    assert CancelledLast(rest);
  }

  /** With one recoverer at a time, a terminal order is never written again. */
  lemma {:induction false} TerminalForever(actions: seq<Action>, more: seq<Action>, o: OrderId)
    requires var w := Exec(INIT, actions, true); o in w.orders && IsTerminal(w.orders[o].status)
    ensures var w, w' := Exec(INIT, actions, true), Exec(INIT, actions + more, true);
      o in w'.orders && w'.orders[o] == w.orders[o]
  {
    if more == [] {
      assert actions + more == actions;
    } else {
      var init := more[..|more| - 1];
      TerminalForever(actions, init, o);
      assert actions + more == (actions + init) + [more[|more| - 1]];
      SoloReachable(actions + init);
      TerminalStays(Exec(INIT, actions + init, true), more[|more| - 1], o);
      ExecNext(INIT, actions + init, more[|more| - 1], true);
    }
  }

  lemma TerminalStays(w: World, a: Action, o: OrderId)
    requires Solo(w) && o in w.orders && IsTerminal(w.orders[o].status)
    ensures o in Apply(w, a, true).orders && Apply(w, a, true).orders[o] == w.orders[o]
  {
    Writes(w, a, true, o);
    assert OrderOk(w, o);
    TerminalEnds(w, o);
    if a.RecoverStep? && a.r in w.recs && w.recs[a.r].order == o {
      assert RecOk(w, w.recs[a.r]);
    }
  }

  lemma TerminalEnds(w: World, o: OrderId)
    requires o in w.orders && o in w.runs && OrderOk(w, o) && IsTerminal(w.orders[o].status)
    ensures Over(w.runs[o]) || (o in w.crashed && Cancelled in Tail(w, o))
  {
    var tail := TailOf(w, o);
    LastTerminal(w.runs[o], |w.orders[o].lines|, tail, w.orders[o].history);
  }

  lemma LastTerminal(p: Proc, n: nat, tail: seq<Event>, h: seq<Event>)
    requires Shape(p, n) && Unwinding(tail) && h == Wrote(p, n) + tail && h != [] && IsTerminal(StatusOf(h[|h| - 1]))
    ensures Over(p) || Cancelled in tail
  {
    if tail == [] {
      assert h == Wrote(p, n);
      if StatusOf(h[|h| - 1]) == CONFIRMED { LastConfirmed(p, n); } else { LastCancelled(p, n); }
    } else {
      TailTerminal(tail);
    }
  }

  lemma TailTerminal(tail: seq<Event>)
    requires Unwinding(tail) && tail != [] && IsTerminal(StatusOf(tail[|tail| - 1]))
    ensures Cancelled in tail
  {
  }
}
