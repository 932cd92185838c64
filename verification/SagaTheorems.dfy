/** What the invariant says about whole runs: any number of orders, recoverers, crashes, expiries and stock
    updates, in any interleaving. */
module SagaTheorems {
  import opened Inventory
  import opened Saga
  import opened SagaInvariant
  import opened SagaSteps

  /** No overselling and no phantom stock: what was provisioned is available, reserved, sold or expired. */
  lemma Conservation(actions: seq<Action>, solo: bool, key: Key)
    ensures var inv := Exec(INIT, actions, solo).inv;
      && (key in inv.stock <==> key in inv.provisioned)
      && (key in inv.stock ==>
           && inv.stock[key] >= 0
           && inv.stock[key] + Tally(inv.ledger, key, Live) + Tally(inv.ledger, key, Committed)
                + Tally(inv.ledger, key, Expired) == inv.provisioned[key])
  {
    Reachable(actions, solo);
    var inv := Exec(INIT, actions, solo).inv;
    assert key in inv.stock ==> Balanced(inv, key);
  }

  // ----- all or nothing -------------------------------------------------------------------------------

  /** Whatever else happened meanwhile, an activity that ran to its end either fulfilled its order entirely or
      left nothing of it behind. A reservation that expired first is the only exception, and stays expired. */
  lemma AllOrNothing(actions: seq<Action>, solo: bool, o: OrderId)
    requires var w := Exec(INIT, actions, solo); o in w.runs && w.runs[o].phase.Done?
    ensures var w := Exec(INIT, actions, solo);
      && o in w.orders && !(o in w.crashed)
      && var ord, held := w.orders[o], w.runs[o].held;
      && (forall id :: 0 <= id < |w.inv.ledger| && w.inv.ledger[id].order == o ==>
           w.inv.ledger[id].fate == Expired
           || w.inv.ledger[id].fate == (if ord.status == CONFIRMED then Committed else Released))
      && (ord.status == CONFIRMED || ord.status == CANCELLED)
      && (o in w.charges <==> ord.status == CONFIRMED)
      && (o in w.shipments <==> ord.status == CONFIRMED)
      && (ord.status == CONFIRMED ==>
           && ord.history == [Reserved(held), Charged, Shipped, Confirmed]
           && |held| == |ord.lines|
           && forall j :: 0 <= j < |held| ==>
                && held[j].id < |w.inv.ledger| && w.inv.ledger[held[j].id].line == j
                && w.inv.ledger[held[j].id].key == ord.lines[j].Key()
                && w.inv.ledger[held[j].id].qty == ord.lines[j].qty)
  {
    Reachable(actions, solo);
    var w := Exec(INIT, actions, solo);
    assert OrderOk(w, o);
    var p, ord := w.runs[o], w.orders[o];
    assert ord.history == Wrote(p, |ord.lines|);
    DoneHistory(p, |ord.lines|);
    forall id | 0 <= id < |w.inv.ledger| && w.inv.ledger[id].order == o
      ensures w.inv.ledger[id].fate == Expired || w.inv.ledger[id].fate == FateOf(p, w.inv.ledger[id].line)
    {
      assert p.held[w.inv.ledger[id].line].id == id;
    }
  }

  lemma DoneHistory(p: Proc, n: nat)
    requires Shape(p, n) && p.phase.Done?
    ensures var h := Wrote(p, n);
      && |h| >= 1 && h[|h| - 1] == (if p.phase.confirmed then Confirmed else Cancelled)
      && (p.phase.confirmed ==> h == [Reserved(p.held), Charged, Shipped, Confirmed])
  {
  }

  // ----- runs in which nothing expires -----------------------------------------------------------------

  ghost predicate Timely(actions: seq<Action>) { forall i :: 0 <= i < |actions| ==> !actions[i].Expire? }

  ghost predicate NoneExpired(ledger: seq<Entry>) { forall id :: 0 <= id < |ledger| ==> ledger[id].fate != Expired }

  lemma StepExpiresNone(w: World, o: OrderId, p: Proc, ok: bool)
    requires o in w.orders && NoneExpired(w.inv.ledger)
    ensures NoneExpired(Step(w, o, p, ok).0.inv.ledger)
  {
    StepInv(w, o, p, ok);
  }

  /** Only expiry makes a reservation expired. */
  lemma {:induction false} TimelyRuns(actions: seq<Action>, solo: bool)
    requires Timely(actions)
    ensures NoneExpired(Exec(INIT, actions, solo).inv.ledger)
  {
    if actions != [] {
      TimelyRuns(actions[..|actions| - 1], solo);
      var w, a := Exec(INIT, actions[..|actions| - 1], solo), actions[|actions| - 1];
      if Enabled(w, a, solo) {
        match a
        case Run(o, ok) => StepExpiresNone(w, o, w.runs[o], ok);
        case RecoverStep(r) => StepExpiresNone(w, w.recs[r].order, w.recs[r].proc, false);
        case _ =>
      }
    }
  }

  /** Without expiry the alternative is strict: every reservation committed and both calls made, or every one released
      and neither. */
  lemma AllOrNothingExactly(actions: seq<Action>, solo: bool, o: OrderId)
    requires Timely(actions)
    requires var w := Exec(INIT, actions, solo); o in w.runs && w.runs[o].phase.Done?
    ensures var w := Exec(INIT, actions, solo);
      && o in w.orders
      && var confirmed := w.orders[o].status == CONFIRMED;
      && (w.orders[o].status == if confirmed then CONFIRMED else CANCELLED)
      && (o in w.charges <==> confirmed) && (o in w.shipments <==> confirmed)
      && (forall id :: 0 <= id < |w.inv.ledger| && w.inv.ledger[id].order == o ==>
           w.inv.ledger[id].fate == if confirmed then Committed else Released)
  {
    AllOrNothing(actions, solo, o);
    TimelyRuns(actions, solo);
  }

  // ----- crash anywhere, recover any number of times ----------------------------------------------------

  /** What is left of the reservation for `line` of an activity that died as `p` and was recovered. `recorded`
      says whether the order's history has the INVENTORY_RESERVED record. */
  function Residue(p: Proc, recorded: bool, line: nat): Fate {
    match p.phase
    case Recording(ev) =>
      if ev.Confirmed? then Committed else if ev.Cancelled? || recorded then Released else Live
    case Committing(i) => if line < i then Committed else Released
    case Releasing(i) => if line < i || recorded then Released else Live
    case Publishing(ev) => if ev.Cancelled? || recorded then Released else Live
    case _ => if recorded then Released else Live
  }

  /** Once recovery has recorded CANCELLED, everything the history records is undone. */
  lemma CancelledIsUndone(w: World, o: OrderId)
    requires o in w.orders && o in w.runs && OrderOk(w, o) && o in w.crashed && w.orders[o].status == CANCELLED
    ensures Undone(w, o, w.runs[o], |w.orders[o].lines|)
  {
    var p, ord, tail := w.runs[o], w.orders[o], Tail(w, o);
    CrashedFacts(w, o);
    if tail != [] {
      LastOfTail(Wrote(p, |ord.lines|), tail);
    } else {
      assert ord.history == Wrote(p, |ord.lines|);
      LastCancelled(p, |ord.lines|);
      OverUndone(w, o);
    }
  }

  lemma LastOfTail(own: seq<Event>, tail: seq<Event>)
    requires tail != [] && Unwinding(tail) && StatusOf((own + tail)[|own + tail| - 1]) == CANCELLED
    ensures Cancelled in tail
  {
    assert (own + tail)[|own + tail| - 1] == tail[|tail| - 1];
  }

  lemma OverUndone(w: World, o: OrderId)
    requires o in w.orders && o in w.runs && OrderOk(w, o) && o in w.crashed
    requires var p := w.runs[o]; Over(p) && !Paying(p) && !Delivering(p) && forall j: nat :: FateOf(p, j) == Released
    ensures Undone(w, o, w.runs[o], |w.orders[o].lines|)
  {
  }

  lemma LastCancelled(p: Proc, n: nat)
    requires Shape(p, n) && Wrote(p, n) != [] && StatusOf(Wrote(p, n)[|Wrote(p, n)| - 1]) == CANCELLED
    ensures Over(p) && !Paying(p) && !Delivering(p) && forall j: nat :: FateOf(p, j) == Released
  {
    WroteParts(p, n);
  }

  lemma RecordedIff(h: seq<Event>, p: Proc, n: nat, tail: seq<Event>)
    requires h == Wrote(p, n) + tail && Unwinding(tail) && Shape(p, n)
    ensures (exists e <- h :: e.Reserved?) <==> Stage(p, n) >= 1
  {
    WroteParts(p, n);
    if Stage(p, n) >= 1 {
      assert h[0].Reserved? && h[0] in h;
    }
  }

  lemma ResidueOf(w: World, o: OrderId, id: nat)
    requires o in w.orders && o in w.runs && OrderOk(w, o) && o in w.crashed
    requires Undone(w, o, w.runs[o], |w.orders[o].lines|)
    requires id < |w.inv.ledger| && w.inv.ledger[id].order == o
    ensures var e, p := w.inv.ledger[id], w.runs[o];
      e.fate == Expired || e.fate == Residue(p, Stage(p, |w.orders[o].lines|) >= 1, e.line)
  {
    assert w.runs[o].held[w.inv.ledger[id].line].id == id;
  }

  lemma SurvivingCalls(w: World, o: OrderId)
    requires o in w.orders && o in w.runs && OrderOk(w, o) && o in w.crashed
    requires Undone(w, o, w.runs[o], |w.orders[o].lines|)
    ensures o in w.charges <==> w.runs[o].phase == Recording(Charged)
    ensures o in w.shipments <==> w.runs[o].phase == Recording(Shipped)
  {
  }

  /** An order whose activity died at any await, and which recovery then cancelled: however many recoverers
      raced, and however many of those died, exactly this survives. Only reservations never recorded, or a
      prefix already committed, stay out of stock; a charge or a shipment survives only if the crash fell
      between that call and its own record. */
  lemma CrashResidue(actions: seq<Action>, solo: bool, o: OrderId)
    requires var w := Exec(INIT, actions, solo); o in w.crashed && o in w.orders && w.orders[o].status == CANCELLED
    ensures var w := Exec(INIT, actions, solo);
      && o in w.runs
      && (o in w.charges <==> w.runs[o].phase == Recording(Charged))
      && (o in w.shipments <==> w.runs[o].phase == Recording(Shipped))
      && var recorded := exists e <- w.orders[o].history :: e.Reserved?;
      && (forall id :: 0 <= id < |w.inv.ledger| && w.inv.ledger[id].order == o ==>
           w.inv.ledger[id].fate == Expired
           || w.inv.ledger[id].fate == Residue(w.runs[o], recorded, w.inv.ledger[id].line))
  {
    Reachable(actions, solo);
    var w := Exec(INIT, actions, solo);
    assert OrderOk(w, o);
    CancelledIsUndone(w, o);
    SurvivingCalls(w, o);
    RecordedIff(w.orders[o].history, w.runs[o], |w.orders[o].lines|, Tail(w, o));
    forall id | 0 <= id < |w.inv.ledger| && w.inv.ledger[id].order == o
      ensures var recorded := exists e <- w.orders[o].history :: e.Reserved?;
        w.inv.ledger[id].fate == Expired
        || w.inv.ledger[id].fate == Residue(w.runs[o], recorded, w.inv.ledger[id].line)
    {
      ResidueOf(w, o, id);
    }
  }

  /** Without expiry the residue is exact, reservation by reservation. */
  lemma CrashResidueExactly(actions: seq<Action>, solo: bool, o: OrderId)
    requires Timely(actions)
    requires var w := Exec(INIT, actions, solo); o in w.crashed && o in w.orders && w.orders[o].status == CANCELLED
    ensures var w := Exec(INIT, actions, solo);
      && o in w.runs
      && (o in w.charges <==> w.runs[o].phase == Recording(Charged))
      && (o in w.shipments <==> w.runs[o].phase == Recording(Shipped))
      && var recorded := exists e <- w.orders[o].history :: e.Reserved?;
      && (forall id :: 0 <= id < |w.inv.ledger| && w.inv.ledger[id].order == o ==>
           w.inv.ledger[id].fate == Residue(w.runs[o], recorded, w.inv.ledger[id].line))
  {
    CrashResidue(actions, solo, o);
    TimelyRuns(actions, solo);
  }

  /** Racing recoverers are harmless: two runs in which the activity of `o` died at the same point and the order
      was cancelled agree on its charge, its shipment and every reservation that did not expire, whether one
      recoverer worked in the first and any number raced in the second, or the other way round. */
  lemma RacingIsHarmless(a1: seq<Action>, solo1: bool, a2: seq<Action>, solo2: bool, o: OrderId)
    requires var w1, w2 := Exec(INIT, a1, solo1), Exec(INIT, a2, solo2);
      && o in w1.crashed && o in w1.orders && w1.orders[o].status == CANCELLED
      && o in w2.crashed && o in w2.orders && w2.orders[o].status == CANCELLED
      && o in w1.runs && o in w2.runs && w1.runs[o] == w2.runs[o] && w1.orders[o].lines == w2.orders[o].lines
    ensures var w1, w2 := Exec(INIT, a1, solo1), Exec(INIT, a2, solo2);
      && (o in w1.charges <==> o in w2.charges)
      && (o in w1.shipments <==> o in w2.shipments)
      && forall j :: 0 <= j < |w1.runs[o].held| ==>
           var id := w1.runs[o].held[j].id;
           && id < |w1.inv.ledger| && id < |w2.inv.ledger|
           && (w1.inv.ledger[id].fate == Expired || w2.inv.ledger[id].fate == Expired
               || w1.inv.ledger[id] == w2.inv.ledger[id])
  {
    Reachable(a1, solo1);
    Reachable(a2, solo2);
    var w1, w2 := Exec(INIT, a1, solo1), Exec(INIT, a2, solo2);
    assert OrderOk(w1, o) && OrderOk(w2, o);
    CancelledIsUndone(w1, o);
    CancelledIsUndone(w2, o);
    SurvivingCalls(w1, o);
    SurvivingCalls(w2, o);
    forall j | 0 <= j < |w1.runs[o].held| ensures var id := w1.runs[o].held[j].id;
      && id < |w1.inv.ledger| && id < |w2.inv.ledger|
      && (w1.inv.ledger[id].fate == Expired || w2.inv.ledger[id].fate == Expired
          || w1.inv.ledger[id] == w2.inv.ledger[id])
    {
      HeldResidue(w1, o, j);
      HeldResidue(w2, o, j);
    }
  }

  lemma HeldResidue(w: World, o: OrderId, j: nat)
    requires o in w.orders && o in w.runs && OrderOk(w, o) && o in w.crashed && j < |w.runs[o].held|
    requires Undone(w, o, w.runs[o], |w.orders[o].lines|)
    ensures var id, line, n := w.runs[o].held[j].id, w.orders[o].lines[j], |w.orders[o].lines|;
      && id < |w.inv.ledger|
      && var e := w.inv.ledger[id];
      && e == Entry(line.Key(), line.qty, o, j, e.fate)
      && (e.fate == Expired || e.fate == Residue(w.runs[o], Stage(w.runs[o], n) >= 1, j))
  {
    ResidueOf(w, o, w.runs[o].held[j].id);
  }

  /** Once all recoverers of an order are finished, it is CANCELLED. */
  lemma AllFinished(actions: seq<Action>, solo: bool, o: OrderId, r: nat)
    requires var w := Exec(INIT, actions, solo); r in w.recs && w.recs[r].order == o
    requires var w := Exec(INIT, actions, solo);
      forall q <- w.recs :: w.recs[q].order == o ==> w.recs[q].proc.phase.Done?
    ensures var w := Exec(INIT, actions, solo); o in w.orders && w.orders[o].status == CANCELLED
  {
    Reachable(actions, solo);
    var w := Exec(INIT, actions, solo);
    assert RecOk(w, w.recs[r]) && OrderOk(w, o);
    var h, tail := w.orders[o].history, Tail(w, o);
    assert tail != [] && tail[|tail| - 1] == h[|h| - 1];
  }

  /** Steps are undone in reverse: in every run, once a recoverer comes to the payment the shipment it found recorded is
      gone, and once it comes to the reservations the payment is gone too. */
  lemma UndoneInReverse(actions: seq<Action>, solo: bool, r: nat)
    requires r in Exec(INIT, actions, solo).recs
    ensures var w := Exec(INIT, actions, solo); var o, q := w.recs[r].order, w.recs[r].proc;
      && o in w.orders
      && (q.shipped ==> Shipped in w.orders[o].history) && (q.paid ==> Charged in w.orders[o].history)
      && (q.phase.Refunding? || q.phase.Releasing? ==> q.shipped ==> o !in w.shipments)
      && (q.phase.Releasing? ==> q.paid ==> o !in w.charges)
      && (q.phase.Releasing? ==> forall j :: 0 <= j < q.phase.i && j < |q.held| ==>
           q.held[j].id < |w.inv.ledger| && w.inv.ledger[q.held[j].id].fate != Live)
  {
    Reachable(actions, solo);
    var w := Exec(INIT, actions, solo);
    var o := w.recs[r].order;
    assert RecOk(w, w.recs[r]) && OrderOk(w, o);
    CrashedFacts(w, o);
    HistoryReads(w.runs[o], |w.orders[o].lines|, w.orders[o].history, Tail(w, o));
  }

  // ----- recovery completes -----------------------------------------------------------------------------

  /** How many awaits a recoverer still has to make. */
  function Left(q: Proc): nat {
    match q.phase
    case Done(_) => 0
    case Publishing(ev) => if ev.Cancelled? then 1 else LeftToUndo(q) + (if q.shipped then 1 else 0)
    case Recording(ev) => if ev.Cancelled? then 2 else LeftToUndo(q) + (if q.shipped then 2 else 1)
    case Cancelling => LeftToUndo(q)
    case Refunding => |q.held| + 3
    case Releasing(i) => if i < |q.held| then |q.held| - i + 2 else 2
    case _ => 0
  }

  function LeftToUndo(q: Proc): nat {
    |q.held| + 3 + (if q.paid then 1 else 0)
  }

  /** One await brings a recoverer one closer to its end, with CANCELLED on record when only the publish is left. */
  lemma StepLeft(w: World, r: nat)
    requires Inv(w) && r in w.recs && Busy(w.recs[r])
    requires w.recs[r].order in w.orders
    requires Left(w.recs[r].proc) <= 1 ==> w.orders[w.recs[r].order].status == CANCELLED
    ensures var w' := Apply(w, RecoverStep(r), false);
      && r in w'.recs && w'.recs[r].alive && w'.recs[r].order == w.recs[r].order
      && Left(w'.recs[r].proc) == Left(w.recs[r].proc) - 1
      && w'.recs[r].order in w'.orders
      && (Left(w'.recs[r].proc) <= 1 ==> w'.orders[w.recs[r].order].status == CANCELLED)
  {
    assert RecOk(w, w.recs[r]);
    LeftShrinks(w, w.recs[r].order, w.recs[r].proc);
  }

  lemma LeftShrinks(w: World, o: OrderId, q: Proc)
    requires o in w.orders && RecShape(q) && !q.phase.Done?
    ensures var (w', q') := Step(w, o, q, false);
      && Left(q') == Left(q) - 1 && w'.recs == w.recs && o in w'.orders
      && (Left(q') <= 1 ==> if Left(q) <= 1 then w'.orders == w.orders else w'.orders[o].status == CANCELLED)
  {
  }

  function Repeat(a: Action, n: nat): seq<Action> { seq(n, _ => a) }

  /** A recoverer `r` with `left` awaits to go, whose order is CANCELLED if only the publish is left. */
  ghost predicate Nearing(w: World, r: nat, left: nat) {
    && Inv(w) && r in w.recs && w.recs[r].alive && w.recs[r].order in w.orders
    && Left(w.recs[r].proc) == left
    && (left <= 1 ==> w.orders[w.recs[r].order].status == CANCELLED)
  }

  lemma NearingStep(w: World, r: nat, left: nat)
    requires Nearing(w, r, left) && left > 0
    ensures var w' := Apply(w, RecoverStep(r), false); Nearing(w', r, left - 1) && w'.recs[r].order == w.recs[r].order
  {
    StepLeft(w, r);
    ActionKeeps(w, RecoverStep(r), false);
  }

  lemma {:induction false} RecovererAlone(w: World, r: nat, left: nat, n: nat)
    requires Nearing(w, r, left) && n <= left
    ensures var wn := Exec(w, Repeat(RecoverStep(r), n), false);
      Nearing(wn, r, left - n) && wn.recs[r].order == w.recs[r].order
  {
    if n > 0 {
      RecovererAlone(w, r, left, n - 1);
      assert Repeat(RecoverStep(r), n)[..n - 1] == Repeat(RecoverStep(r), n - 1);
      NearingStep(Exec(w, Repeat(RecoverStep(r), n - 1), false), r, left - n + 1);
    }
  }

  lemma {:induction false} ExecConcat(w: World, a: seq<Action>, b: seq<Action>, solo: bool)
    ensures Exec(w, a + b, solo) == Exec(Exec(w, a, solo), b, solo)
  {
    if b == [] {
      assert a + b == a;
    } else {
      ExecConcat(w, a, b[..|b| - 1], solo);
      assert (a + b)[..|a + b| - 1] == a + b[..|b| - 1];
    }
  }

  /** From wherever an order was left, one undisturbed `recoverStuck` brings it to CANCELLED. */
  lemma RecoveryCompletes(actions: seq<Action>, o: OrderId, r: nat)
    requires var w := Exec(INIT, actions, false);
      && o in w.orders && o in w.crashed && !IsTerminal(w.orders[o].status) && r !in w.recs
    ensures exists n: nat ::
      var w' := Exec(INIT, actions + [Recover(r, o)] + Repeat(RecoverStep(r), n), false);
      o in w'.orders && w'.orders[o].status == CANCELLED
  {
    Reachable(actions, false);
    var w := Exec(INIT, actions, false);
    var started := actions + [Recover(r, o)];
    assert started[..|actions|] == actions;
    var w1 := Exec(INIT, started, false);
    Reachable(started, false);
    var left := Left(w1.recs[r].proc);
    assert Nearing(w1, r, left);
    RecovererAlone(w1, r, left, left);
    ExecConcat(INIT, started, Repeat(RecoverStep(r), left), false);
  }

  /** A recoverer may die at any of its awaits. Nothing else changes then, and it never takes another step. */
  lemma RecovererDies(w: World, r: nat, solo: bool)
    requires r in w.recs && w.recs[r].alive && !w.recs[r].proc.phase.Done?
    ensures var w' := Apply(w, CrashRecoverer(r), solo);
      w' == w.(recs := w.recs[r := w.recs[r].(alive := false)])
  {
  }

  lemma {:induction false} DeadForGood(w: World, more: seq<Action>, r: nat, solo: bool)
    requires r in w.recs && !w.recs[r].alive
    ensures r in Exec(w, more, solo).recs && Exec(w, more, solo).recs[r] == w.recs[r]
    ensures Apply(Exec(w, more, solo), RecoverStep(r), solo) == Exec(w, more, solo)
  {
    if more != [] {
      DeadForGood(w, more[..|more| - 1], r, solo);
      DeadStays(Exec(w, more[..|more| - 1], solo), more[|more| - 1], r, solo);
    }
  }

  lemma DeadStays(w: World, a: Action, r: nat, solo: bool)
    requires r in w.recs && !w.recs[r].alive
    ensures r in Apply(w, a, solo).recs && Apply(w, a, solo).recs[r] == w.recs[r]
  {
    if Enabled(w, a, solo) {
      if a.Run? { StepFrame(w, a.o, w.runs[a.o], a.ok); }
      if a.RecoverStep? { StepFrame(w, w.recs[a.r].order, w.recs[a.r].proc, false); }
    }
  }

  // ----- the history ------------------------------------------------------------------------------------

  /** The status an order stands at after the first `k` of reserved, charged, shipped and confirmed. */
  function ForwardStatus(k: nat): Status
    requires k <= 4
  {
    [CREATED, INVENTORY_RESERVED, PAYMENT_CHARGED, SHIPPING_SCHEDULED, CONFIRMED][k]
  }

  /** The history is the first `k` of reserved, charged, shipped and confirmed and then `rest`, records of
      compensation; and the status says how far it got, or, once there are such records, which of the two came last. */
  ghost predicate Told(ord: Order, held: seq<Held>, k: nat, rest: seq<Event>) {
    && k <= 4 && ord.history == Forward(k, held) + rest && Unwinding(rest) && (k == 4 ==> rest == [])
    && ord.status == (if rest == [] then ForwardStatus(k)
                      else if rest[|rest| - 1] == Compensating then COMPENSATING else CANCELLED)
  }

  /** The history of every order in every run: reserved, charged, shipped up to some point, then the records of
      compensation if there are any; or those three and confirmed. The status is that of the last record. */
  lemma HistoryGrammar(actions: seq<Action>, solo: bool, o: OrderId)
    requires o in Exec(INIT, actions, solo).orders
    ensures var w := Exec(INIT, actions, solo);
      && o in w.runs
      && var ord, held := w.orders[o], w.runs[o].held;
      && ord.status == (if ord.history == [] then CREATED else StatusOf(ord.history[|ord.history| - 1]))
      && ord.status != FAILED
      && exists k: nat, rest: seq<Event> :: Told(ord, held, k, rest)
  {
    Reachable(actions, solo);
    assert OrderOk(Exec(INIT, actions, solo), o);
    var k, rest := GrammarOf(Exec(INIT, actions, solo), o);
  }

  lemma GrammarOf(w: World, o: OrderId) returns (k: nat, rest: seq<Event>)
    requires o in w.orders && o in w.runs && OrderOk(w, o)
    ensures var ord := w.orders[o];
      && ord.status == (if ord.history == [] then CREATED else StatusOf(ord.history[|ord.history| - 1]))
      && ord.status != FAILED && Told(ord, w.runs[o].held, k, rest)
  {
    k, rest := OrderGrammar(w, o);
    LastRecordTells(w, o);
    NeverFailed(w.orders[o]);
    LastStatus(w.orders[o], k, w.runs[o].held, rest);
  }

  lemma LastRecordTells(w: World, o: OrderId)
    requires o in w.orders && o in w.runs && OrderOk(w, o)
    ensures var ord := w.orders[o];
      ord.status == if ord.history == [] then CREATED else StatusOf(ord.history[|ord.history| - 1])
  {
  }

  lemma LastStatus(ord: Order, k: nat, held: seq<Held>, rest: seq<Event>)
    requires ord.status == (if ord.history == [] then CREATED else StatusOf(ord.history[|ord.history| - 1]))
    requires k <= 4 && ord.history == Forward(k, held) + rest && Unwinding(rest) && (k == 4 ==> rest == [])
    ensures Told(ord, held, k, rest)
  {
    if rest == [] {
      assert ord.history == Forward(k, held);
    } else {
      assert ord.history[|ord.history| - 1] == rest[|rest| - 1];
    }
  }

  /** `ord` stands at each status exactly when its history is that much of reserved, charged, shipped and confirmed and
      nothing else, or when its last record is that of the compensation. */
  ghost predicate Stands(ord: Order, held: seq<Held>) {
    var h := ord.history;
    && (h == [] <==> ord.status == CREATED)
    && (h == [Reserved(held)] <==> ord.status == INVENTORY_RESERVED)
    && (h == [Reserved(held), Charged] <==> ord.status == PAYMENT_CHARGED)
    && (h == [Reserved(held), Charged, Shipped] <==> ord.status == SHIPPING_SCHEDULED)
    && (h == [Reserved(held), Charged, Shipped, Confirmed] <==> ord.status == CONFIRMED)
    && (h != [] && h[|h| - 1] == Compensating <==> ord.status == COMPENSATING)
    && (h != [] && h[|h| - 1] == Cancelled <==> ord.status == CANCELLED)
  }

  lemma StatusExactly(actions: seq<Action>, solo: bool, o: OrderId)
    requires o in Exec(INIT, actions, solo).orders
    ensures var w := Exec(INIT, actions, solo); o in w.runs && Stands(w.orders[o], w.runs[o].held)
  {
    Reachable(actions, solo);
    var w := Exec(INIT, actions, solo);
    assert OrderOk(w, o);
    var k, rest := GrammarOf(w, o);
    FormsApart(w.orders[o], w.runs[o].held, k, rest);
  }

  lemma FormsApart(ord: Order, held: seq<Held>, k: nat, rest: seq<Event>)
    requires Told(ord, held, k, rest)
    ensures Stands(ord, held)
  {
    var h := ord.history;
    if rest == [] {
      assert h == Forward(k, held);
    } else {
      assert h[|h| - 1] == rest[|rest| - 1];
      assert rest[|rest| - 1] == Compensating || rest[|rest| - 1] == Cancelled;
    }
  }

  lemma NeverFailed(ord: Order)
    requires ord.status == (if ord.history == [] then CREATED else StatusOf(ord.history[|ord.history| - 1]))
    ensures ord.status != FAILED
  {
  }

  lemma OrderGrammar(w: World, o: OrderId) returns (k: nat, rest: seq<Event>)
    requires o in w.orders && o in w.runs && OrderOk(w, o)
    ensures k <= 4 && w.orders[o].history == Forward(k, w.runs[o].held) + rest
    ensures Unwinding(rest) && (k == 4 ==> rest == [])
    ensures rest == Suffix(w.runs[o]) + (if o in w.crashed then Tail(w, o) else [])
    ensures Suffix(w.runs[o]) in {[], [Compensating], [Compensating, Cancelled]}
    ensures Suffix(w.runs[o]) == [Compensating, Cancelled] ==> rest == Suffix(w.runs[o])
  {
    var tail := TailOf(w, o);
    k, rest := ProcGrammar(w.runs[o], |w.orders[o].lines|, tail);
  }

  lemma ProcGrammar(p: Proc, n: nat, tail: seq<Event>) returns (k: nat, rest: seq<Event>)
    requires Shape(p, n) && Unwinding(tail) && (Over(p) ==> tail == [])
    ensures k <= 4 && Wrote(p, n) + tail == Forward(k, p.held) + rest
    ensures Unwinding(rest) && (k == 4 ==> rest == [])
    ensures rest == Suffix(p) + tail
    ensures Suffix(p) in {[], [Compensating], [Compensating, Cancelled]}
    ensures Suffix(p) == [Compensating, Cancelled] ==> rest == Suffix(p)
  {
    WroteParts(p, n);
    k, rest := Stage(p, n), Suffix(p) + tail;
    assert Wrote(p, n) + tail == Forward(k, p.held) + rest;
    if k == 4 { FourIsOver(p, n); }
    if Suffix(p) == [Compensating, Cancelled] {
      TwoIsOver(p);
      assert rest == Suffix(p);
    }
    SuffixUnwinds(Suffix(p), tail);
  }

  lemma SuffixUnwinds(suffix: seq<Event>, tail: seq<Event>)
    requires suffix in {[], [Compensating], [Compensating, Cancelled]} && Unwinding(tail)
    ensures Unwinding(suffix + tail)
  {
  }

  lemma TailOf(w: World, o: OrderId) returns (tail: seq<Event>)
    requires o in w.orders && o in w.runs && OrderOk(w, o)
    ensures w.orders[o].history == Wrote(w.runs[o], |w.orders[o].lines|) + tail
    ensures tail == (if o in w.crashed then Tail(w, o) else [])
    ensures Unwinding(tail) && (Over(w.runs[o]) ==> tail == []) && Shape(w.runs[o], |w.orders[o].lines|)
  {
    tail := if o in w.crashed then Tail(w, o) else [];
  }

  lemma TwoIsOver(p: Proc)
    requires Suffix(p) == [Compensating, Cancelled]
    ensures Over(p)
  {
  }

  lemma FourIsOver(p: Proc, n: nat)
    requires Shape(p, n) && Stage(p, n) == 4
    ensures Over(p) && Suffix(p) == []
  {
  }

  /** What was published about an order whose activity lives is `order.created` followed by its history, short
      at most of the one record between the store write and the publish. */
  lemma Publication(actions: seq<Action>, solo: bool, o: OrderId)
    requires var w := Exec(INIT, actions, solo); o in w.orders && o !in w.crashed
    ensures var w := Exec(INIT, actions, solo);
      var all := [Created] + w.orders[o].history;
      || Published(w.log, o) == all
      || Published(w.log, o) == all[..|all| - 1]
  {
    Reachable(actions, solo);
    var w := Exec(INIT, actions, solo);
    assert OrderOk(w, o);
    if w.runs[o].phase.Publishing? {
      var pub, ev := Published(w.log, o), w.runs[o].phase.ev;
      assert (pub + [ev])[..|pub|] == pub;
    }
  }
}
