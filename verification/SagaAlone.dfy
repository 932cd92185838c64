/** What an activity does when nothing else acts: its exact net effect. */
module SagaAlone {
  import opened Inventory
  import opened Saga
  import opened SagaInvariant
  import opened SagaSteps
  import opened SagaTheorems

  /** Units that `lines` ask of `key`. */
  function Demand(lines: seq<Line>, key: Key): int {
    if lines == [] then 0
    else Demand(lines[..|lines| - 1], key) + Ask(lines[|lines| - 1], key)
  }

  function Ask(line: Line, key: Key): int {
    if line.Key() == key then line.qty else 0
  }

  /** Every line is a positive quantity of a known key, and together they ask no more of any key than it has. */
  ghost predicate Fillable(stock: map<Key, int>, lines: seq<Line>) {
    && (forall j :: 0 <= j < |lines| ==> lines[j].qty > 0 && lines[j].Key() in stock)
    && (forall k :: k in stock ==> Demand(lines, k) <= stock[k])
  }

  /** Stock after `lines` have been taken from it. */
  function Less(stock: map<Key, int>, lines: seq<Line>): map<Key, int> {
    map k | k in stock :: stock[k] - Demand(lines, k)
  }

  lemma DemandAppend(lines: seq<Line>, line: Line, key: Key)
    ensures Demand(lines + [line], key) == Demand(lines, key) + Ask(line, key)
  {
    assert (lines + [line])[..|lines|] == lines;
  }

  lemma {:induction false} DemandGrows(lines: seq<Line>, i: nat, key: Key)
    requires i <= |lines| && forall j :: 0 <= j < |lines| ==> lines[j].qty > 0
    ensures Demand(lines[..i], key) <= Demand(lines, key)
  {
    if i < |lines| {
      var init := lines[..|lines| - 1];
      DemandGrows(init, i, key);
      assert init[..i] == lines[..i];
    } else {
      assert lines[..i] == lines;
    }
  }

  /** Reserving line by line accepts the next line exactly when the longer order is fillable. */
  lemma FillableNext(stock: map<Key, int>, lines: seq<Line>, line: Line)
    requires Fillable(stock, lines)
    ensures var left := Less(stock, lines);
      Fillable(stock, lines + [line]) <==> line.qty > 0 && line.Key() in left && left[line.Key()] >= line.qty
    ensures line.Key() in stock ==>
      Less(stock, lines + [line]) == Less(stock, lines)[line.Key() := Less(stock, lines)[line.Key()] - line.qty]
  {
    var longer := lines + [line];
    forall k ensures Demand(longer, k) == Demand(lines, k) + Ask(line, k) { DemandAppend(lines, line, k); }
    if Fillable(stock, longer) {
      assert longer[|lines|] == line;
    }
  }

  /** An order cannot be filled if it cannot be filled as far as one of its lines. */
  lemma NotFillable(stock: map<Key, int>, lines: seq<Line>, i: nat)
    requires i <= |lines| && !Fillable(stock, lines[..i])
    ensures !Fillable(stock, lines)
  {
    if Fillable(stock, lines) {
      forall k | k in stock ensures Demand(lines[..i], k) <= stock[k] { DemandGrows(lines, i, k); }
    }
  }

  lemma NothingAsked(inv: Depot)
    requires Conserved(inv)
    ensures Fillable(inv.stock, []) && Less(inv.stock, []) == inv.stock
  {
  }

  // ----- what an undisturbed activity leaves alone --------------------------------------------------------

  /** `w` follows from `w0` by awaits of the activity of `o` alone, which had reserved nothing at `w0`. */
  ghost predicate Alone(w0: World, w: World, o: OrderId) {
    var l0, l := w0.inv.ledger, w.inv.ledger;
    && o in w.runs && o in w.orders && o !in w.crashed
    && w.inv.provisioned == w0.inv.provisioned
    && (forall i :: 0 <= i < |l0| ==> l0[i].order != o)
    && Mine(l0, l, o, |w.runs[o].held|)
    && o in w0.orders && w.orders == w0.orders[o := w.orders[o]] && w.orders[o].lines == w0.orders[o].lines
    && w.charges - {o} == w0.charges - {o} && w.shipments - {o} == w0.shipments - {o}
  }

  lemma AloneStep(w0: World, w: World, o: OrderId, ok: bool)
    requires Inv(w) && Alone(w0, w, o)
    ensures Alone(w0, Apply(w, Run(o, ok), false), o)
  {
    assert OrderOk(w, o);
    var p := w.runs[o];
    var (s, p') := Step(w, o, p, ok);
    AloneInventory(w0, w, o, p, ok);
    StepFrame(w, o, p, ok);
    OnlyMine(w0, w, s, o, p');
  }

  lemma OnlyMine(w0: World, w: World, s: World, o: OrderId, p': Proc)
    requires Alone(w0, w, o) && s.inv.provisioned == w0.inv.provisioned
    requires Mine(w0.inv.ledger, s.inv.ledger, o, |p'.held|)
    requires s.orders.Keys == w.orders.Keys && s.orders[o].lines == w.orders[o].lines && s.crashed == w.crashed
    requires forall q :: q in w.orders && q != o ==> s.orders[q] == w.orders[q]
    requires s.charges <= w.charges + {o} && s.shipments <= w.shipments + {o}
    requires w.charges <= s.charges + {o} && w.shipments <= s.shipments + {o}
    ensures Alone(w0, s.(runs := w.runs[o := p']), o)
  {
    assert s.orders == w0.orders[o := s.orders[o]];
  }

  /** The ledger `l` is `l0` and the `n` reservations made since for the first `n` lines of `o`. */
  ghost predicate Mine(l0: seq<Entry>, l: seq<Entry>, o: OrderId, n: nat) {
    && l0 <= l && |l| == |l0| + n
    && (forall i :: |l0| <= i < |l| ==> l[i].order == o && l[i].line == i - |l0| && l[i].fate != Expired)
  }

  lemma AloneInventory(w0: World, w: World, o: OrderId, p: Proc, ok: bool)
    requires Conserved(w.inv) && Alone(w0, w, o) && OrderOk(w, o) && p == w.runs[o]
    ensures var (w', p') := Step(w, o, p, ok);
      w'.inv.provisioned == w0.inv.provisioned && Mine(w0.inv.ledger, w'.inv.ledger, o, |p'.held|)
  {
    StepInv(w, o, p, ok);
    OwnFates(w, o);
    MineAfter(w0.inv, w, o, p);
  }

  lemma MineAfter(inv0: Depot, w: World, o: OrderId, p: Proc)
    requires Conserved(w.inv) && o in w.orders && Owns(w.inv.ledger, o, p.held, w.orders[o].lines)
    requires w.inv.provisioned == inv0.provisioned && Mine(inv0.ledger, w.inv.ledger, o, |p.held|)
    requires forall i :: 0 <= i < |inv0.ledger| ==> inv0.ledger[i].order != o
    ensures InvAfter(w, o, p).provisioned == inv0.provisioned
    ensures Mine(inv0.ledger, InvAfter(w, o, p).ledger, o, HeldAfter(w, o, p))
  {
    if (p.phase.Committing? || p.phase.Releasing?) && p.phase.i < |p.held| {
      var h := p.held[p.phase.i];
      assert w.inv.ledger[h.id].order == o && h.id >= |inv0.ledger|;
      MineResolved(inv0.ledger, w.inv, h, o, |p.held|, if p.phase.Committing? then COMMIT else RELEASE);
    }
  }

  lemma MineResolved(l0: seq<Entry>, inv: Depot, h: Held, o: OrderId, n: nat, mode: Mode)
    requires Conserved(inv) && Mine(l0, inv.ledger, o, n) && |l0| <= h.id < |inv.ledger|
    ensures Mine(l0, Resolve(inv, h.Key(), h.id, mode).ledger, o, n)
    ensures Resolve(inv, h.Key(), h.id, mode).provisioned == inv.provisioned
  {
    ResolveLedger(inv, h.Key(), h.id, mode);
  }

  // ----- the exact effect on stock ------------------------------------------------------------------------

  lemma {:induction false} TallyConcat(a: seq<Entry>, b: seq<Entry>, key: Key, fate: Fate)
    ensures Tally(a + b, key, fate) == Tally(a, key, fate) + Tally(b, key, fate)
  {
    if b == [] {
      assert a + b == a;
    } else {
      var b' := b[..|b| - 1];
      TallyConcat(a, b', key, fate);
      TallyAppend(a + b', b[|b| - 1], key, fate);
      assert a + b == (a + b') + [b[|b| - 1]];
    }
  }

  lemma {:induction false} TallyNone(l: seq<Entry>, key: Key, fate: Fate)
    requires forall i :: 0 <= i < |l| ==> l[i].fate != fate
    ensures Tally(l, key, fate) == 0
  {
    if l != [] { TallyNone(l[..|l| - 1], key, fate); }
  }

  lemma {:induction false} TallyIsDemand(l: seq<Entry>, lines: seq<Line>, key: Key, fate: Fate)
    requires |l| == |lines|
    requires forall i :: 0 <= i < |l| ==> l[i].key == lines[i].Key() && l[i].qty == lines[i].qty && l[i].fate == fate
    ensures Tally(l, key, fate) == Demand(lines, key)
  {
    if l != [] { TallyIsDemand(l[..|l| - 1], lines[..|l| - 1], key, fate); }
  }

  /** Every reservation in `l` since `l0` met fate `f`: one for each of `lines` in turn, if committed. */
  ghost predicate Met(l0: seq<Entry>, l: seq<Entry>, lines: seq<Line>, f: Fate) {
    && (f == Committed || f == Released)
    && (f == Committed ==> |l| == |l0| + |lines|)
    && (forall i :: |l0| <= i < |l| ==>
         && l[i].fate == f && i - |l0| < |lines|
         && l[i].key == lines[i - |l0|].Key() && l[i].qty == lines[i - |l0|].qty)
  }

  /** `inv` follows from `inv0` by new reservations that all met fate `f`. */
  ghost predicate Since(inv0: Depot, inv: Depot, lines: seq<Line>, f: Fate) {
    && Conserved(inv0) && Conserved(inv) && inv.provisioned == inv0.provisioned && inv0.ledger <= inv.ledger
    && Met(inv0.ledger, inv.ledger, lines, f)
  }

  lemma TallyGain(l0: seq<Entry>, mine: seq<Entry>, lines: seq<Line>, f: Fate, k: Key)
    requires (f == Committed || f == Released) && forall i :: 0 <= i < |mine| ==> mine[i].fate == f
    requires f == Committed ==> |mine| == |lines|
    requires f == Committed ==>
      forall i :: 0 <= i < |mine| ==> mine[i].key == lines[i].Key() && mine[i].qty == lines[i].qty
    ensures var l := l0 + mine;
      && Tally(l, k, Live) == Tally(l0, k, Live) && Tally(l, k, Expired) == Tally(l0, k, Expired)
      && Tally(l, k, Committed) == Tally(l0, k, Committed) + (if f == Committed then Demand(lines, k) else 0)
  {
    TallyConcat(l0, mine, k, Live);
    TallyNone(mine, k, Live);
    TallyConcat(l0, mine, k, Expired);
    TallyNone(mine, k, Expired);
    TallyConcat(l0, mine, k, Committed);
    if f == Committed { TallyIsDemand(mine, lines, k, Committed); } else { TallyNone(mine, k, Committed); }
  }

  lemma KeyAfter(inv0: Depot, inv: Depot, lines: seq<Line>, f: Fate, k: Key)
    requires Since(inv0, inv, lines, f) && k in inv.stock
    ensures k in inv0.stock && inv.stock[k] == inv0.stock[k] - (if f == Committed then Demand(lines, k) else 0)
  {
    var mine := inv.ledger[|inv0.ledger|..];
    assert inv.ledger == inv0.ledger + mine;
    TallyGain(inv0.ledger, mine, lines, f, k);
    assert k in inv.provisioned.Keys;
    assert k in inv0.stock.Keys;
    assert Balanced(inv, k) && Balanced(inv0, k);
  }

  lemma StockAfter(inv0: Depot, inv: Depot, lines: seq<Line>, f: Fate)
    requires Since(inv0, inv, lines, f)
    ensures inv.stock == if f == Committed then Less(inv0.stock, lines) else inv0.stock
    ensures inv.resv == inv0.resv
  {
    forall k | k in inv.stock
      ensures k in inv0.stock && inv.stock[k] == inv0.stock[k] - (if f == Committed then Demand(lines, k) else 0)
    {
      KeyAfter(inv0, inv, lines, f, k);
    }
    SameDomain(inv0, inv);
    ResvAfter(inv0, inv, lines, f);
    LessThan(inv0.stock, inv.stock, lines, f == Committed);
  }

  lemma LessThan(stock0: map<Key, int>, stock: map<Key, int>, lines: seq<Line>, taken: bool)
    requires stock.Keys == stock0.Keys
    requires forall k :: k in stock ==> k in stock0 && stock[k] == stock0[k] - (if taken then Demand(lines, k) else 0)
    ensures stock == if taken then Less(stock0, lines) else stock0
  {
  }

  lemma SameDomain(inv0: Depot, inv: Depot)
    requires Conserved(inv0) && Conserved(inv) && inv.provisioned == inv0.provisioned
    ensures inv.stock.Keys == inv0.stock.Keys
  {
  }

  lemma ResvAfter(inv0: Depot, inv: Depot, lines: seq<Line>, f: Fate)
    requires Since(inv0, inv, lines, f)
    ensures inv.resv == inv0.resv
  {
    assert Matches(inv.resv, inv.ledger) && Matches(inv0.resv, inv0.ledger);
    SameLive(inv0.ledger, inv.ledger, inv0.resv, inv.resv);
  }

  lemma SameLive(l0: seq<Entry>, l: seq<Entry>, resv0: map<nat, int>, resv: map<nat, int>)
    requires Matches(resv0, l0) && Matches(resv, l) && l0 <= l && forall i :: |l0| <= i < |l| ==> l[i].fate != Live
    ensures resv == resv0
  {
    forall id: nat ensures id in resv <==> id in resv0 {}
    assert resv.Keys == resv0.Keys;
  }

  /** An undisturbed run that ended confirmed took exactly what the order asked for; one that was unwound left
      stock and reservations as they were. */
  lemma NetStock(w0: World, w: World, o: OrderId)
    requires Conserved(w0.inv) && Conserved(w.inv) && Alone(w0, w, o) && OrderOk(w, o) && w.runs[o].phase.Done?
    ensures w.inv.stock == if w.runs[o].phase.confirmed then Less(w0.inv.stock, w.orders[o].lines) else w0.inv.stock
    ensures w.inv.resv == w0.inv.resv
  {
    var f := if w.runs[o].phase.confirmed then Committed else Released;
    AllMet(w0, w, o, f);
    assert Since(w0.inv, w.inv, w.orders[o].lines, f);
    StockAfter(w0.inv, w.inv, w.orders[o].lines, f);
  }

  /** It is charged and shipped if it ended confirmed, and otherwise neither. */
  lemma NetCalls(w0: World, w: World, o: OrderId)
    requires Alone(w0, w, o) && OrderOk(w, o) && w.runs[o].phase.Done? && o !in w0.charges && o !in w0.shipments
    ensures var confirmed := w.runs[o].phase.confirmed;
      && w.orders[o].status == (if confirmed then CONFIRMED else CANCELLED)
      && w.charges == w0.charges + (if confirmed then {o} else {})
      && w.shipments == w0.shipments + (if confirmed then {o} else {})
  {
    CallsMade(w0, w, o);
    SetsAfter(w0.charges, w.charges, o);
    SetsAfter(w0.shipments, w.shipments, o);
    DoneHistory(w.runs[o], |w.orders[o].lines|);
  }

  lemma SetsAfter(s0: set<OrderId>, s: set<OrderId>, o: OrderId)
    requires s - {o} == s0 - {o} && o !in s0
    ensures s == s0 + (if o in s then {o} else {})
  {
    assert s0 - {o} == s0;
  }

  lemma AllMet(w0: World, w: World, o: OrderId, f: Fate)
    requires Alone(w0, w, o) && OrderOk(w, o) && w.runs[o].phase == Done(f == Committed)
    requires f == Committed || f == Released
    ensures Met(w0.inv.ledger, w.inv.ledger, w.orders[o].lines, f)
  {
    OwnFates(w, o);
    DoneMet(w0.inv.ledger, w.inv.ledger, w.runs[o], o, w.orders[o].lines, f);
  }

  lemma OwnFates(w: World, o: OrderId)
    requires o in w.orders && o in w.runs && o !in w.crashed && OrderOk(w, o)
    ensures var p, lines := w.runs[o], w.orders[o].lines;
      Shape(p, |lines|) && Owns(w.inv.ledger, o, p.held, lines) && FatesOk(w.inv.ledger, p, |lines|, false)
  {
  }

  lemma DoneMet(l0: seq<Entry>, l: seq<Entry>, p: Proc, o: OrderId, lines: seq<Line>, f: Fate)
    requires Mine(l0, l, o, |p.held|) && Owns(l, o, p.held, lines) && FatesOk(l, p, |lines|, false)
    requires Shape(p, |lines|) && p.phase == Done(f == Committed) && (f == Committed || f == Released)
    ensures Met(l0, l, lines, f)
  {
    forall i | |l0| <= i < |l|
      ensures l[i].fate == f && l[i].key == lines[i - |l0|].Key() && l[i].qty == lines[i - |l0|].qty
    {
      assert p.held[l[i].line].id == i;
      assert FateOf(p, i - |l0|) == f;
    }
  }

  lemma CallsMade(w0: World, w: World, o: OrderId)
    requires Alone(w0, w, o) && OrderOk(w, o) && w.runs[o].phase.Done?
    ensures var c := w.runs[o].phase.confirmed;
      && (o in w.charges <==> c) && (o in w.shipments <==> c)
  {
  }
}
