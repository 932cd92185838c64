/** Any number of recoverers of one order leave the same world behind as one does. */
module SagaRacing {
  import opened Inventory
  import opened Saga
  import opened SagaInvariant
  import opened SagaSteps
  import opened SagaTheorems

  /** An action of some recoverer of `o`. */
  predicate Rescues(w0: World, a: Action, o: OrderId) {
    match a
    case Recover(_, q) => q == o
    case RecoverStep(r) => r in w0.recs ==> w0.recs[r].order == o
    case CrashRecoverer(r) => r in w0.recs ==> w0.recs[r].order == o
    case _ => false
  }

  ghost predicate AllRescue(w0: World, actions: seq<Action>, o: OrderId) {
    forall i :: 0 <= i < |actions| ==> Rescues(w0, actions[i], o)
  }

  /** The ledger `l` is `l0` but for live reservations of `o` that have been released. */
  ghost predicate OnlyReleased(l0: seq<Entry>, l: seq<Entry>, o: OrderId) {
    && |l| == |l0|
    && (forall id :: 0 <= id < |l0| ==>
         l[id] == l0[id] || (l0[id].order == o && l0[id].fate == Live && l[id] == l0[id].(fate := Released)))
  }

  /** What recoverers of `o` may have done to `w0`. */
  ghost predicate Tended(w0: World, w: World, o: OrderId) {
    && w.runs == w0.runs && w.crashed == w0.crashed && w.orders.Keys == w0.orders.Keys
    && (o in w.orders ==> w.orders[o].lines == w0.orders[o].lines)
    && w.charges - {o} == w0.charges - {o} && w.shipments - {o} == w0.shipments - {o}
    && w.inv.provisioned == w0.inv.provisioned
    && OnlyReleased(w0.inv.ledger, w.inv.ledger, o)
    && w0.recs.Keys <= w.recs.Keys
    && (forall r :: r in w.recs ==> if r in w0.recs then w.recs[r].order == w0.recs[r].order else w.recs[r].order == o)
  }

  /** One await of a recoverer only ever releases. */
  lemma RescueLedger(w: World, rec: Recoverer)
    requires RecOk(w, rec) && OrderOk(w, rec.order) && Conserved(w.inv)
    ensures var s := Step(w, rec.order, rec.proc, false).0;
      OnlyReleased(w.inv.ledger, s.inv.ledger, rec.order) && s.inv.provisioned == w.inv.provisioned
  {
    var q := rec.proc;
    StepInv(w, rec.order, q, false);
    RecHolds(w, rec);
    if q.phase.Releasing? {
      var h := q.held[q.phase.i];
      ResolveLedger(w.inv, h.Key(), h.id, RELEASE);
    }
  }

  /** What a recoverer lists are its order's reservations. */
  lemma RecHolds(w: World, rec: Recoverer)
    requires RecOk(w, rec) && OrderOk(w, rec.order)
    ensures RecShape(rec.proc)
    ensures forall j :: 0 <= j < |rec.proc.held| ==>
      rec.proc.held[j].id < |w.inv.ledger| && w.inv.ledger[rec.proc.held[j].id].order == rec.order
  {
  }

  lemma ReleasedOnwards(l0: seq<Entry>, l1: seq<Entry>, l2: seq<Entry>, o: OrderId)
    requires OnlyReleased(l0, l1, o) && OnlyReleased(l1, l2, o)
    ensures OnlyReleased(l0, l2, o)
  {
  }

  lemma TendStep(w0: World, w: World, r: nat, o: OrderId)
    requires Inv(w) && Tended(w0, w, o) && Enabled(w, RecoverStep(r), false) && w.recs[r].order == o
    ensures Tended(w0, Apply(w, RecoverStep(r), false), o)
  {
    var rec := w.recs[r];
    assert RecOk(w, rec) && OrderOk(w, o);
    var (s, q') := Step(w, o, rec.proc, false);
    RescueLedger(w, rec);
    StepFrame(w, o, rec.proc, false);
    TendedOn(w0, w, s, r, o, q');
  }

  lemma TendedOn(w0: World, w: World, s: World, r: nat, o: OrderId, q': Proc)
    requires Tended(w0, w, o) && r in w.recs && w.recs[r].order == o && o in w.orders
    requires s.runs == w.runs && s.crashed == w.crashed && s.orders.Keys == w.orders.Keys
    requires s.orders[o].lines == w.orders[o].lines && s.inv.provisioned == w.inv.provisioned
    requires s.charges <= w.charges + {o} && s.shipments <= w.shipments + {o}
    requires w.charges <= s.charges + {o} && w.shipments <= s.shipments + {o}
    requires OnlyReleased(w.inv.ledger, s.inv.ledger, o)
    ensures Tended(w0, s.(recs := w.recs[r := w.recs[r].(proc := q')]), o)
  {
    ReleasedOnwards(w0.inv.ledger, w.inv.ledger, s.inv.ledger, o);
  }

  lemma TendAction(w0: World, w: World, a: Action, o: OrderId)
    requires Inv(w) && Tended(w0, w, o) && Rescues(w0, a, o)
    ensures Tended(w0, Apply(w, a, false), o)
  {
    if a.RecoverStep? && Enabled(w, a, false) { TendStep(w0, w, a.r, o); }
  }

  lemma {:induction false} TendRun(w0: World, actions: seq<Action>, o: OrderId)
    requires Inv(w0) && AllRescue(w0, actions, o)
    ensures Inv(Exec(w0, actions, false)) && Tended(w0, Exec(w0, actions, false), o)
  {
    if actions != [] {
      var init := actions[..|actions| - 1];
      TendRun(w0, init, o);
      TendAction(w0, Exec(w0, init, false), actions[|actions| - 1], o);
      ActionKeeps(Exec(w0, init, false), actions[|actions| - 1], false);
    }
  }

  /** A cancelled order's reservation is no longer what it was only if recovery was to release it. */
  lemma SettledEntry(w0: World, w: World, o: OrderId, id: nat)
    requires Tended(w0, w, o) && o in w.orders && o in w.runs && OrderOk(w, o) && o in w.crashed
    requires Undone(w, o, w.runs[o], |w.orders[o].lines|) && id < |w.inv.ledger|
    ensures var e0, e, p := w0.inv.ledger[id], w.inv.ledger[id], w.runs[o];
      e == if e0.order == o && e0.fate == Live
           then e0.(fate := Residue(p, Stage(p, |w.orders[o].lines|) >= 1, e0.line)) else e0
  {
    if w0.inv.ledger[id].order == o { ResidueOf(w, o, id); }
  }

  /** Counters and reservation keys follow from the ledger and what was provisioned. */
  lemma LedgerDecides(a: Depot, b: Depot)
    requires Conserved(a) && Conserved(b) && a.ledger == b.ledger && a.provisioned == b.provisioned
    ensures a == b
  {
    assert a.stock.Keys == b.stock.Keys;
    forall k | k in a.stock ensures k in b.stock && a.stock[k] == b.stock[k] {
      assert k in b.stock.Keys && Balanced(a, k) && Balanced(b, k);
    }
    forall id: nat ensures id in a.resv <==> id in b.resv {}
    assert a.resv.Keys == b.resv.Keys;
  }

  lemma SameCalls(s0: set<OrderId>, s1: set<OrderId>, s2: set<OrderId>, o: OrderId)
    requires s1 - {o} == s0 - {o} && s2 - {o} == s0 - {o} && (o in s1 <==> o in s2)
    ensures s1 == s2
  {
    forall q ensures q in s1 <==> q in s2 {
      if q != o { assert q in s1 <==> q in s1 - {o}; assert q in s2 <==> q in s2 - {o}; }
    }
  }

  lemma SettledAlike(w0: World, w1: World, w2: World, o: OrderId)
    requires Tended(w0, w1, o) && Tended(w0, w2, o) && Inv(w1) && Inv(w2) && o in w1.orders && o in w0.crashed
    requires w1.orders[o].status == CANCELLED && o in w2.orders && w2.orders[o].status == CANCELLED
    ensures w1.inv == w2.inv && w1.charges == w2.charges && w1.shipments == w2.shipments
  {
    assert OrderOk(w1, o) && OrderOk(w2, o);
    CancelledIsUndone(w1, o);
    CancelledIsUndone(w2, o);
    SurvivingCalls(w1, o);
    SurvivingCalls(w2, o);
    SameCalls(w0.charges, w1.charges, w2.charges, o);
    SameCalls(w0.shipments, w1.shipments, w2.shipments, o);
    forall id | 0 <= id < |w1.inv.ledger| ensures w1.inv.ledger[id] == w2.inv.ledger[id] {
      SettledEntry(w0, w1, o, id);
      SettledEntry(w0, w2, o, id);
    }
    LedgerDecides(w1.inv, w2.inv);
  }

  /** From any state in which the process of `o` is dead, whatever recoverers of `o` do, in any number, interleaved at
      will and crashing or not: once the order is cancelled, stock counters, reservation keys, charges and shipments
      are the same. */
  lemma RacingLeavesTheSame(before: seq<Action>, a1: seq<Action>, a2: seq<Action>, o: OrderId)
    requires var w0 := Exec(INIT, before, false); o in w0.crashed && AllRescue(w0, a1, o) && AllRescue(w0, a2, o)
    requires var w1, w2 := Exec(INIT, before + a1, false), Exec(INIT, before + a2, false);
      && o in w1.orders && w1.orders[o].status == CANCELLED
      && o in w2.orders && w2.orders[o].status == CANCELLED
    ensures var w1, w2 := Exec(INIT, before + a1, false), Exec(INIT, before + a2, false);
      w1.inv == w2.inv && w1.charges == w2.charges && w1.shipments == w2.shipments
  {
    var w0 := Exec(INIT, before, false);
    Reachable(before, false);
    ExecConcat(INIT, before, a1, false);
    ExecConcat(INIT, before, a2, false);
    TendRun(w0, a1, o);
    TendRun(w0, a2, o);
    SettledAlike(w0, Exec(w0, a1, false), Exec(w0, a2, false), o);
  }

  /** In particular a race ends as one undisturbed recovery does. */
  lemma RacingIsLikeOne(before: seq<Action>, race: seq<Action>, o: OrderId, r: nat)
    requires var w0 := Exec(INIT, before, false);
      && o in w0.orders && o in w0.crashed && !IsTerminal(w0.orders[o].status)
      && r !in w0.recs && AllRescue(w0, race, o)
    requires var w := Exec(INIT, before + race, false); o in w.orders && w.orders[o].status == CANCELLED
    ensures exists n: nat ::
      var w1 := Exec(INIT, before + [Recover(r, o)] + Repeat(RecoverStep(r), n), false);
      var w2 := Exec(INIT, before + race, false);
      && o in w1.orders && w1.orders[o].status == CANCELLED
      && w1.inv == w2.inv && w1.charges == w2.charges && w1.shipments == w2.shipments
  {
    RecoveryCompletes(before, o, r);
    var n: nat :| var w1 := Exec(INIT, before + [Recover(r, o)] + Repeat(RecoverStep(r), n), false);
      o in w1.orders && w1.orders[o].status == CANCELLED;
    var one := [Recover(r, o)] + Repeat(RecoverStep(r), n);
    assert before + one == before + [Recover(r, o)] + Repeat(RecoverStep(r), n);
    RacingLeavesTheSame(before, one, race, o);
  }

  /** And from where nobody has begun to recover, a race is any mix of calls of `recoverStuck` for the order, awaits of
      theirs and deaths of theirs. */
  lemma FirstRaces(before: seq<Action>, a1: seq<Action>, a2: seq<Action>, o: OrderId)
    requires var w0 := Exec(INIT, before, false); o in w0.crashed && w0.recs == map[]
    requires forall a <- a1 + a2 :: (a.Recover? && a.o == o) || a.RecoverStep? || a.CrashRecoverer?
    requires var w1, w2 := Exec(INIT, before + a1, false), Exec(INIT, before + a2, false);
      && o in w1.orders && w1.orders[o].status == CANCELLED
      && o in w2.orders && w2.orders[o].status == CANCELLED
    ensures var w1, w2 := Exec(INIT, before + a1, false), Exec(INIT, before + a2, false);
      w1.inv == w2.inv && w1.charges == w2.charges && w1.shipments == w2.shipments
  {
    var w0 := Exec(INIT, before, false);
    forall i | 0 <= i < |a1| ensures Rescues(w0, a1[i], o) { assert a1[i] in a1 + a2; }
    forall i | 0 <= i < |a2| ensures Rescues(w0, a2[i], o) { assert a2[i] in a1 + a2; }
    RacingLeavesTheSame(before, a1, a2, o);
  }
}
