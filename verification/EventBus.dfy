/** `InMemoryEventBus`: per-group cursors over per-topic logs, and one drain at a time. */
module EventBus {
  import opened Bus

  // ----- how far behind a topic's groups are -----------------------------------------------------------

  /** Events of `topic` still to be delivered, summed over the groups `keys`. */
  function Lag<E>(b: State<E>, keys: seq<string>, topic: string): int {
    if keys == [] then 0
    else
      var key := keys[|keys| - 1];
      Lag(b, keys[..|keys| - 1], topic)
        + (if TopicOf(key) == topic && key in b.cursors then |Log(b, topic)| - b.cursors[key] else 0)
  }

  lemma {:induction false} LagNonNegative<E>(b: State<E>, keys: seq<string>, topic: string)
    requires Shaped(b)
    ensures Lag(b, keys, topic) >= 0
  {
    if keys != [] {
      LagNonNegative(b, keys[..|keys| - 1], topic);
      var key := keys[|keys| - 1];
      if key in b.cursors { assert GroupOk(b, key); }
    }
  }

  lemma {:induction false} LagSame<E>(b: State<E>, b': State<E>, keys: seq<string>, topic: string)
    requires Log(b', topic) == Log(b, topic)
    requires forall i :: 0 <= i < |keys| ==>
      (keys[i] in b.cursors <==> keys[i] in b'.cursors)
        && (keys[i] in b.cursors ==> b'.cursors[keys[i]] == b.cursors[keys[i]])
    ensures Lag(b', keys, topic) == Lag(b, keys, topic)
  {
    if keys != [] { LagSame(b, b', keys[..|keys| - 1], topic); }
  }

  /** Delivering one event to one group of the topic brings the topic one closer to its end. */
  lemma {:induction false} LagShrinks<E>(b: State<E>, keys: seq<string>, key: string, topic: string)
    requires key in b.cursors && TopicOf(key) == topic && key in keys
    requires forall i, j :: 0 <= i < j < |keys| ==> keys[i] != keys[j]
    ensures Lag(Advance(b, key), keys, topic) == Lag(b, keys, topic) - 1
  {
    var init, last := keys[..|keys| - 1], keys[|keys| - 1];
    if last == key {
      forall i | 0 <= i < |init| ensures init[i] != key { assert init[i] == keys[i]; }
      LagSame(b, Advance(b, key), init, topic);
    } else {
      LagShrinks(b, init, key, topic);
    }
  }

  ghost predicate CaughtUp<E>(b: State<E>, topic: string) {
    forall key :: key in b.cursors && TopicOf(key) == topic ==> b.cursors[key] == |Log(b, topic)|
  }

  /** Logs, groups and handlers only grow, and only groups of `topic` hear anything. */
  ghost predicate Kept<E>(b: State<E>, b': State<E>, topic: string) {
    Grows(b, b') && forall key :: key in b.cursors && TopicOf(key) != topic ==> b'.cursors[key] == b.cursors[key]
  }

  /** While handlers are awaited, logs and groups may grow but no cursor moves. */
  ghost predicate Meanwhile<E>(b: State<E>, b': State<E>) {
    && b.keys <= b'.keys && b.delivered <= b'.delivered
    && (forall t :: t in b.topics ==> t in b'.topics && b.topics[t] <= b'.topics[t])
    && (forall key :: key in b.cursors ==> key in b'.cursors && b'.cursors[key] == b.cursors[key])
    && (forall key :: key in b.handlers ==> key in b'.handlers && b.handlers[key] <= b'.handlers[key])
  }

  lemma MeanwhileTrans<E>(a: State<E>, b: State<E>, c: State<E>)
    requires Meanwhile(a, b) && Meanwhile(b, c)
    ensures Meanwhile(a, c)
  {
  }

  lemma ActMeanwhile<E>(b: State<E>, e: Effect<E>)
    requires Shaped(b)
    ensures Meanwhile(b, Act(b, e))
  {
  }

  lemma ActKeeps<E>(b: State<E>, e: Effect<E>, current: string, done: nat)
    requires Ok(b, current, done) && current in b.handlers && done <= |b.handlers[current]|
    ensures Ok(Act(b, e), current, done)
  {
    match e
    case Append(topic, event) => AddEventKeeps(b, topic, event, current, done);
    case Join(topic, group, handler) => AddHandlerKeeps(b, topic, group, handler, current, done);
  }

  lemma KeptStep<E>(a: State<E>, b: State<E>, c: State<E>, key: string, topic: string)
    requires Kept(a, b, topic) && Meanwhile(b, c) && key in c.cursors && TopicOf(key) == topic
    ensures Kept(a, Advance(c, key), topic)
  {
  }

  class InMemoryEventBus<E(==)> {
    var topics: map<string, seq<E>>
    var keys: seq<string>
    var cursors: map<string, nat>
    var handlers: map<string, seq<nat>>
    var draining: bool
    ghost var delivered: seq<Delivery<E>>
    ghost var joined: map<string, seq<nat>>

    ghost function View(): State<E> reads this { State(topics, keys, cursors, handlers, delivered, joined) }

    /** Nothing is in flight, and every handler has seen exactly the log from where it joined to its group's cursor. */
    ghost predicate Valid() reads this { !draining && Ok(View(), "", 0) }

    constructor ()
      ensures Valid() && View() == State(map[], [], map[], map[], [], map[])
    {
      topics, keys, cursors, handlers, draining, delivered, joined := map[], [], map[], map[], false, [], map[];
      new;
      assert Shaped(View());
      forall key, index: nat ensures ExactAt(View(), key, index, "", 0) {}
    }

    /** `log.push(event)` */
    method Push(topic: string, event: E)
      modifies this`topics
      ensures View() == AddEvent(old(View()), topic, event)
    {
      topics := topics[topic := (if topic in topics then topics[topic] else []) + [event]];
    }

    /** At any moment, a drain or not: every handler has still seen exactly what it had to. */
    method Subscribe(topic: string, group: string, handler: nat)
      requires Shaped(View())
      modifies this`keys, this`cursors, this`handlers, this`joined
      ensures View() == AddHandler(old(View()), topic, group, handler)
      ensures old(Valid()) ==> Valid()
      ensures forall current, done: nat {:trigger Ok(old(View()), current, done)} ::
        Ok(old(View()), current, done) && current in old(handlers) && done <= |old(handlers)[current]| ==>
          Ok(View(), current, done)
    {
      SubscribeKeeps(View(), topic, group, handler);
      var key := GroupKey(topic, group);
      joined := AddHandler(View(), topic, group, handler).joined;
      handlers := handlers[key := (if key in handlers then handlers[key] else []) + [handler]];
      if key !in cursors {
        keys := keys + [key];
        cursors := cursors[key := 0];
      }
    }

    /** One thing that happens while a handler is awaited. */
    method Other(effect: Effect<E>)
      requires draining && Shaped(View())
      modifies this
      ensures draining && View() == Act(old(View()), effect)
      decreases 1, 0
    {
      match effect
      case Append(topic, event) => Publish(topic, event, []);
      case Join(topic, group, handler) => Subscribe(topic, group, handler);
    }

    /** All that happens while handler number `done - 1` of `current` is awaited. */
    method Others(effects: seq<Effect<E>>, ghost current: string, ghost done: nat)
      requires draining && Ok(View(), current, done) && current in handlers && done <= |handlers[current]|
      modifies this
      ensures draining && Ok(View(), current, done) && Meanwhile(old(View()), View())
      decreases 1, 1
    {
      ghost var start := View();
      for i := 0 to |effects|
        invariant draining && Ok(View(), current, done) && Meanwhile(start, View())
        invariant current in View().handlers && done <= |View().handlers[current]|
      {
        ghost var b := View();
        Other(effects[i]);
        Acted(start, b, effects[i], current, done);
      }
    }

    /** `await h(event)` for handler number `i`, and what else happens before it returns. */
    method ServeOne(key: string, i: nat, others: seq<seq<Effect<E>>>, ghost start: State<E>)
      returns (rest: seq<seq<Effect<E>>>)
      requires draining && Serving(start, View(), key, i) && i < |View().handlers[key]|
      modifies this
      ensures draining && Serving(start, View(), key, i + 1)
      ensures if others == [] then rest == [] && SameButDelivered(old(View()), View()) else rest == others[1..]
      decreases 1, 2
    {
      ServeNext(start, View(), key, i);
      delivered := Serve(View(), key, i).delivered;
      rest := others;
      if others != [] {
        ghost var b := View();
        Others(others[0], key, i + 1);
        ServingLater(start, b, View(), key, i + 1);
        rest := others[1..];
      }
    }

    /** `for (const h of handlers) await h(event)`: the list is live, so a handler that joins meanwhile is called too.
        `others` says, await by await, what else happens. */
    method ServeAll(key: string, others: seq<seq<Effect<E>>>, ghost start: State<E>) returns (rest: seq<seq<Effect<E>>>)
      requires draining && View() == start && Serving(start, start, key, 0)
      modifies this
      ensures draining && Served(start, View(), key)
      ensures |rest| < |others| || (rest == others && SameButDelivered(start, View()))
      decreases 1, 3
    {
      rest := others;
      var i := 0;
      while i < |handlers[key]|
        invariant draining && Serving(start, View(), key, i)
        invariant |rest| < |others| || (rest == others && SameButDelivered(start, View()))
        decreases |rest|, |handlers[key]| - i
      {
        rest := ServeOne(key, i, rest, start);
        i := i + 1;
      }
    }

    /** The next event of a group that has one, to all its handlers. */
    method DeliverNext(key: string, topic: string, others: seq<seq<Effect<E>>>) returns (rest: seq<seq<Effect<E>>>)
      requires draining && Ok(View(), "", 0) && key in cursors && TopicOf(key) == topic
      requires cursors[key] < |Log(View(), topic)|
      modifies this
      ensures draining && Ok(View(), "", 0) && Kept(old(View()), View(), topic)
      ensures Nearer(old(View()), others, View(), rest, topic)
      decreases 1, 4
    {
      ghost var b := View();
      ServingNone(b, key);
      rest := ServeAll(key, others, b);
      TurnTaken(b, View(), key, topic, others, rest);
      MoveOn(key);
    }

    /** `this.groupCursors.set(key, cursor + 1)` */
    method MoveOn(key: string)
      requires key in View().cursors
      modifies this`cursors
      ensures View() == Advance(old(View()), key)
    {
      cursors := cursors[key := cursors[key] + 1];
    }

    /** One group's turn in a pass of `drain`. */
    method Turn(key: string, topic: string, others: seq<seq<Effect<E>>>)
      returns (rest: seq<seq<Effect<E>>>, progress: bool)
      requires draining && Ok(View(), "", 0) && key in cursors
      modifies this
      ensures draining && Ok(View(), "", 0) && Kept(old(View()), View(), topic)
      ensures progress <==> TopicOf(key) == topic && old(cursors)[key] < |Log(old(View()), topic)|
      ensures if progress then Nearer(old(View()), others, View(), rest, topic)
              else View() == old(View()) && rest == others
      decreases 1, 5
    {
      KeptNone(View(), topic);
      rest, progress := others, false;
      if TopicOf(key) == topic {
        var log := if topic in topics then topics[topic] else [];
        if cursors[key] < |log| {
          rest := DeliverNext(key, topic, others);
          progress := true;
        }
      }
    }

    /** One pass over the groups, those that join during it included. */
    method Pass(topic: string, others: seq<seq<Effect<E>>>) returns (rest: seq<seq<Effect<E>>>, progress: bool)
      requires draining && Ok(View(), "", 0)
      modifies this
      ensures draining && Ok(View(), "", 0) && Kept(old(View()), View(), topic)
      ensures if progress then Nearer(old(View()), others, View(), rest, topic)
              else rest == others && View() == old(View()) && CaughtUp(View(), topic)
      decreases 1, 6
    {
      ghost var start := View();
      KeptNone(start, topic);
      rest, progress := others, false;
      var i := 0;
      while i < |keys|
        invariant draining && Ok(View(), "", 0) && Kept(start, View(), topic) && i <= |View().keys|
        invariant if progress then Nearer(start, others, View(), rest, topic)
                  else rest == others && View() == start && CaughtUpTo(start, topic, i)
        decreases |rest|, Lag(View(), keys, topic), |keys| - i
      {
        ghost var b, before := View(), rest;
        assert keys[i] in cursors && GroupOk(b, keys[i]);
        LagNonNegative(b, keys, topic);
        var moved;
        rest, moved := Turn(keys[i], topic, rest);
        PassOn(start, others, b, before, View(), rest, topic, progress, moved);
        if !progress && !moved { CaughtUpNext(start, topic, i); }
        progress := progress || moved;
        i := i + 1;
      }
      if !progress { AllCaughtUp(start, topic); }
    }

    /** Delivers until a whole pass finds nothing to deliver. It ends, because each pass either uses up something that
        happens elsewhere or brings the topic closer to its end. */
    method Drain(topic: string, others: seq<seq<Effect<E>>>)
      requires !draining ==> Valid()
      modifies this
      ensures if old(draining) then draining && View() == old(View())
              else Valid() && Kept(old(View()), View(), topic) && CaughtUp(View(), topic)
      decreases if draining then 0 else 2, 0
    {
      if draining { return; }
      KeptNone(View(), topic);
      draining := true;
      var rest := others;
      var madeProgress := true;
      while madeProgress
        invariant draining && Ok(View(), "", 0) && Kept(old(View()), View(), topic)
        invariant !madeProgress ==> CaughtUp(View(), topic)
        decreases |rest|, Lag(View(), keys, topic), madeProgress
      {
        ghost var b := View();
        LagNonNegative(b, keys, topic);
        rest, madeProgress := Pass(topic, rest);
        KeptTrans(old(View()), b, View(), topic);
      }
      draining := false;
    }

    /** Called while nothing drains, it delivers every event of the topic to every group on it, those included that
        were published or joined while handlers were awaited; groups on other topics hear nothing, whatever was
        published to those meanwhile. Called while a drain is under way, from inside a handler too, it only appends. */
    method Publish(topic: string, event: E, others: seq<seq<Effect<E>>>)
      requires !draining ==> Valid()
      modifies this
      ensures if old(draining) then draining && View() == AddEvent(old(View()), topic, event)
              else Valid() && Kept(AddEvent(old(View()), topic, event), View(), topic) && CaughtUp(View(), topic)
      ensures Log(old(View()), topic) + [event] <= Log(View(), topic)
      decreases if draining then 0 else 2, 1
    {
      if !draining { AddEventKeeps(View(), topic, event, "", 0); }
      Push(topic, event);
      ghost var b := View();
      Drain(topic, others);
      assert b.topics[topic] <= topics[topic];
    }
  }

  lemma SubscribeKeeps<E>(b: State<E>, topic: string, group: string, handler: nat)
    requires Shaped(b)
    ensures Ok(b, "", 0) ==> Ok(AddHandler(b, topic, group, handler), "", 0)
    ensures forall current, done: nat {:trigger Ok(b, current, done)} ::
      Ok(b, current, done) && current in b.handlers && done <= |b.handlers[current]|
      ==> Ok(AddHandler(b, topic, group, handler), current, done)
  {
    if Ok(b, "", 0) { AddHandlerKeeps(b, topic, group, handler, "", 0); }
    forall current, done: nat | Ok(b, current, done) && current in b.handlers && done <= |b.handlers[current]|
      ensures Ok(AddHandler(b, topic, group, handler), current, done)
    {
      AddHandlerKeeps(b, topic, group, handler, current, done);
    }
  }

  /** Less is left to happen elsewhere, or as much but the topic is nearer its end. */
  ghost predicate Nearer<E>(b: State<E>, others: seq<seq<Effect<E>>>, b': State<E>, rest: seq<seq<Effect<E>>>,
                            topic: string) {
    |rest| < |others| || (|rest| == |others| && Lag(b', b'.keys, topic) < Lag(b, b.keys, topic))
  }

  lemma KeptNone<E>(b: State<E>, topic: string)
    ensures Kept(b, b, topic)
  {
  }

  lemma KeptTrans<E>(a: State<E>, b: State<E>, c: State<E>, topic: string)
    requires Kept(a, b, topic) && Kept(b, c, topic)
    ensures Kept(a, c, topic)
  {
  }

  lemma TurnTaken<E>(b: State<E>, c: State<E>, key: string, topic: string, others: seq<seq<Effect<E>>>,
                     rest: seq<seq<Effect<E>>>)
    requires key in b.cursors && TopicOf(key) == topic
    requires Served(b, c, key)
    requires |rest| < |others| || (rest == others && SameButDelivered(b, c))
    ensures Ok(Advance(c, key), "", 0) && Kept(b, Advance(c, key), topic)
    ensures Nearer(b, others, Advance(c, key), rest, topic)
  {
    assert GroupOk(c, key) && Log(b, topic) <= Log(c, topic);
    AdvanceKeeps(c, key, "");
    KeptNone(b, topic);
    KeptStep(b, b, c, key, topic);
    if rest == others && SameButDelivered(b, c) {
      LagShrinks(c, c.keys, key, topic);
      LagSame(b, c, b.keys, topic);
    }
  }

  ghost predicate CaughtUpTo<E>(b: State<E>, topic: string, i: nat) {
    forall j :: 0 <= j < i && j < |b.keys| && b.keys[j] in b.cursors && TopicOf(b.keys[j]) == topic ==>
      b.cursors[b.keys[j]] >= |Log(b, topic)|
  }

  lemma CaughtUpNext<E>(b: State<E>, topic: string, i: nat)
    requires CaughtUpTo(b, topic, i) && i < |b.keys| && b.keys[i] in b.cursors
    requires !(TopicOf(b.keys[i]) == topic && b.cursors[b.keys[i]] < |Log(b, topic)|)
    ensures CaughtUpTo(b, topic, i + 1)
  {
  }

  lemma AllCaughtUp<E>(b: State<E>, topic: string)
    requires Shaped(b) && CaughtUpTo(b, topic, |b.keys|)
    ensures CaughtUp(b, topic)
  {
    forall key | key in b.cursors && TopicOf(key) == topic ensures b.cursors[key] == |Log(b, topic)| {
      assert GroupOk(b, key);
      assert key in b.keys;
      var j :| 0 <= j < |b.keys| && b.keys[j] == key;
    }
  }

  lemma PassOn<E>(start: State<E>, others: seq<seq<Effect<E>>>, b: State<E>, before: seq<seq<Effect<E>>>,
                  b': State<E>, rest: seq<seq<Effect<E>>>, topic: string, progress: bool, moved: bool)
    requires Kept(start, b, topic) && Kept(b, b', topic)
    requires if progress then Nearer(start, others, b, before, topic) else before == others && b == start
    requires if moved then Nearer(b, before, b', rest, topic) else b' == b && rest == before
    ensures Kept(start, b', topic) && |b.keys| <= |b'.keys|
    ensures if progress || moved then Nearer(start, others, b', rest, topic) else rest == others && b' == start
  {
    KeptTrans(start, b, b', topic);
  }

  ghost predicate SameButDelivered<E>(b: State<E>, b': State<E>) { b' == b.(delivered := b'.delivered) }

  lemma Acted<E>(start: State<E>, b: State<E>, e: Effect<E>, current: string, done: nat)
    requires Meanwhile(start, b) && Ok(b, current, done) && current in b.handlers && done <= |b.handlers[current]|
    ensures var b' := Act(b, e);
      Meanwhile(start, b') && Ok(b', current, done) && current in b'.handlers && done <= |b'.handlers[current]|
  {
    ActKeeps(b, e, current, done);
    ActMeanwhile(b, e);
    MeanwhileTrans(start, b, Act(b, e));
  }

  /** The first `done` handlers of `key` have its current event. */
  ghost predicate Serving<E>(start: State<E>, b: State<E>, key: string, done: nat) {
    && Meanwhile(start, b) && Ok(b, key, done) && key in b.cursors && b.cursors[key] < |Log(b, TopicOf(key))|
    && key in b.handlers && done <= |b.handlers[key]|
  }

  /** All of its handlers have it. */
  ghost predicate Served<E>(start: State<E>, b: State<E>, key: string) {
    key in b.handlers && Serving(start, b, key, |b.handlers[key]|)
  }

  lemma ServingNone<E>(b: State<E>, key: string)
    requires Ok(b, "", 0) && key in b.cursors && b.cursors[key] < |Log(b, TopicOf(key))|
    ensures Serving(b, b, key, 0)
  {
    Idle(b, "", key);
  }

  lemma ServeNext<E>(start: State<E>, b: State<E>, key: string, done: nat)
    requires Serving(start, b, key, done) && done < |b.handlers[key]|
    ensures Serving(start, Serve(b, key, done), key, done + 1)
  {
    assert GroupOk(b, key);
    ServeKeeps(b, key, done);
  }

  lemma ServingLater<E>(start: State<E>, b: State<E>, b': State<E>, key: string, done: nat)
    requires Serving(start, b, key, done) && Meanwhile(b, b') && Ok(b', key, done)
    ensures Serving(start, b', key, done)
  {
    MeanwhileTrans(start, b, b');
  }
}
