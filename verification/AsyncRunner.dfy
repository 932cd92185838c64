/** The subscriber that starts one `run` for each `order.created` it is given. */
module AsyncRunner {
  import opened Saga
  import opened SagaInvariant
  import opened SagaSteps
  import opened Bus

  type Message = (OrderId, Event)

  /** The runs that handling `events` in turn starts. */
  function Starts(events: seq<Message>): seq<OrderId> {
    if events == [] then []
    else
      var (o, ev) := events[|events| - 1];
      Starts(events[..|events| - 1]) + (if ev == Created then [o] else [])
  }

  class SagaRunner {
    var started: seq<OrderId>
    ghost var handled: seq<Message>

    ghost predicate Valid() reads this { started == Starts(handled) }

    constructor ()
      ensures Valid() && handled == []
    {
      started, handled := [], [];
    }

    /** The handler: it starts a run and does not wait for it. */
    method Handle(event: Message)
      requires Valid()
      modifies this
      ensures Valid() && handled == old(handled) + [event]
    {
      handled := handled + [event];
      assert handled[..|handled| - 1] == old(handled);
      if event.1 != Created { return; }
      started := started + [event.0];
    }
  }

  lemma StartsNext(events: seq<Message>, o: OrderId, ev: Event)
    ensures Starts(events + [(o, ev)]) == Starts(events) + (if ev == Created then [o] else [])
  {
    assert (events + [(o, ev)])[..|events|] == events;
  }

  lemma {:induction false} StartsKnown(events: seq<Message>, o: OrderId)
    requires forall i :: 0 <= i < |events| ==> events[i].0 != o
    ensures o !in Starts(events)
  {
    if events != [] { StartsKnown(events[..|events| - 1], o); }
  }

  /** Handling more events only starts more runs. */
  lemma {:induction false} StartsMore(events: seq<Message>, n: nat)
    requires n <= |events|
    ensures Starts(events[..n]) <= Starts(events)
  {
    if n == |events| {
      assert events[..n] == events;
    } else {
      StartsMore(events[..|events| - 1], n);
      assert events[..|events| - 1][..n] == events[..n];
    }
  }

  lemma FewerInPrefix(some: seq<OrderId>, all: seq<OrderId>, o: OrderId)
    requires some <= all
    ensures multiset(some)[o] <= multiset(all)[o]
  {
    assert all == some + all[|some|..];
  }

  lemma StartsSoFar(events: seq<Message>, n: nat, o: OrderId)
    requires n <= |events|
    ensures multiset(Starts(events[..n]))[o] <= multiset(Starts(events))[o]
    ensures n == |events| ==> events[..n] == events
  {
    StartsMore(events, n);
    FewerInPrefix(Starts(events[..n]), Starts(events), o);
  }

  // ----- order.created is published once ------------------------------------------------------------------

  /** The activity of `o` has published `order.created`. */
  predicate Announced(w: World, o: OrderId) { o in w.runs && w.runs[o].phase != Publishing(Created) }

  ghost predicate Once(w: World, o: OrderId) {
    multiset(Starts(w.log))[o] == if Announced(w, o) then 1 else 0
  }

  /** One await publishes `order.created` exactly when that is what it was to publish, and never leads back there. */
  lemma StepAnnounces(w: World, o: OrderId, p: Proc, ok: bool)
    requires o in w.orders && (Shape(p, |w.orders[o].lines|) || RecShape(p))
    ensures var (w', p') := Step(w, o, p, ok);
      && p'.phase != Publishing(Created)
      && Starts(w'.log) == Starts(w.log) + (if p.phase == Publishing(Created) then [o] else [])
  {
    if p.phase.Publishing? { StartsNext(w.log, o, p.phase.ev); }
  }

  lemma Moved(w: World, w': World, q: OrderId, p': Proc, o: OrderId)
    requires Once(w, o) && q in w.runs && w'.runs == w.runs[q := p'] && p'.phase != Publishing(Created)
    requires Starts(w'.log) == Starts(w.log) + (if w.runs[q].phase == Publishing(Created) then [q] else [])
    ensures Once(w', o)
  {
  }

  lemma RunOnce(w: World, q: OrderId, ok: bool, solo: bool, o: OrderId)
    requires Once(w, o) && Enabled(w, Run(q, ok), solo) && Shape(w.runs[q], |w.orders[q].lines|)
    ensures Once(Apply(w, Run(q, ok), solo), o)
  {
    var (w', p') := Step(w, q, w.runs[q], ok);
    StepAnnounces(w, q, w.runs[q], ok);
    Moved(w, w'.(runs := w.runs[q := p']), q, p', o);
  }

  lemma RecoverStepOnce(w: World, r: nat, solo: bool, o: OrderId)
    requires Once(w, o) && Enabled(w, RecoverStep(r), solo) && RecShape(w.recs[r].proc)
    ensures Once(Apply(w, RecoverStep(r), solo), o)
  {
    StepAnnounces(w, w.recs[r].order, w.recs[r].proc, false);
    StepFrame(w, w.recs[r].order, w.recs[r].proc, false);
  }

  lemma CreateOnce(w: World, q: OrderId, lines: seq<Line>, solo: bool, o: OrderId)
    requires Once(w, o) && q !in w.orders && Domains(w)
    ensures Once(Apply(w, Create(q, lines), solo), o)
  {
    if q == o { StartsKnown(w.log, o); }
  }

  lemma ActionOnce(w: World, a: Action, solo: bool, o: OrderId)
    requires Inv(w) && Once(w, o)
    ensures Once(Apply(w, a, solo), o)
  {
    if Enabled(w, a, solo) {
      match a
      case Run(q, ok) =>
        assert OrderOk(w, q);
        RunOnce(w, q, ok, solo, o);
      case RecoverStep(r) =>
        assert RecOk(w, w.recs[r]);
        RecoverStepOnce(w, r, solo, o);
      case Create(q, lines) => CreateOnce(w, q, lines, solo, o);
      case _ => Elsewhere(w, a, solo);
    }
  }

  lemma Elsewhere(w: World, a: Action, solo: bool)
    requires !a.Run? && !a.RecoverStep? && !a.Create?
    ensures Apply(w, a, solo).log == w.log && Apply(w, a, solo).runs == w.runs
  {
  }

  /** In every run of the saga machine `order.created` of an order is on the topic exactly once from when its
      activity published it, whoever crashed or recovered since. */
  lemma {:induction false} CreatedOnce(actions: seq<Action>, solo: bool, o: OrderId)
    ensures var w := Exec(INIT, actions, solo);
      multiset(Starts(w.log))[o] == if Announced(w, o) then 1 else 0
  {
    if actions != [] {
      CreatedOnce(actions[..|actions| - 1], solo, o);
      Reachable(actions[..|actions| - 1], solo);
      ActionOnce(Exec(INIT, actions[..|actions| - 1], solo), actions[|actions| - 1], solo, o);
    }
  }

  /** A runner fed by the bus starts no order twice, and once its group is caught up it has started exactly the
      orders that were announced. */
  lemma OneRunPerOrder(b: State<Message>, key: string, actions: seq<Action>, solo: bool, o: OrderId)
    requires Ok(b, "", 0) && key in b.cursors && Log(b, TopicOf(key)) == Exec(INIT, actions, solo).log
    ensures var w, started := Exec(INIT, actions, solo), multiset(Starts(Got(b.delivered, key, 0)));
      && started[o] <= 1
      && (o in started ==> Announced(w, o))
      && (b.cursors[key] == |w.log| ==> (o in started <==> Announced(w, o)))
  {
    var w := Exec(INIT, actions, solo);
    Processed(b, key);
    CreatedOnce(actions, solo, o);
    StartsSoFar(w.log, b.cursors[key], o);
  }
}
