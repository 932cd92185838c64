/** The state of the in-memory event bus, and what every one of its steps keeps. */
module Bus {
  import opened Text

  /** `delivered` records which handler of which group saw which event, and `joined` at which cursor each handler
      came; both are bookkeeping for the statements and no step reads them. `keys` is the order in which groups
      were first seen, which is the order a JavaScript map iterates in. */
  datatype State<E> = State(
    topics: map<string, seq<E>>, keys: seq<string>, cursors: map<string, nat>, handlers: map<string, seq<nat>>,
    delivered: seq<Delivery<E>>, joined: map<string, seq<nat>>)

  datatype Delivery<E> = Delivery(key: string, index: nat, event: E)

  /** What happens elsewhere while a handler is awaited: the handler's own doing, or anybody else's. */
  datatype Effect<E> = Append(topic: string, event: E) | Join(topic: string, group: string, handler: nat)

  function GroupKey(topic: string, group: string): string { topic + ":" + group }

  /** `splitKey(key)[0]` */
  function TopicOf(key: string): string
  {
    IndexBound(key, ':');
    key[..IndexOf(key, ':')]
  }

  /** A group hears the topic it subscribed to exactly when the topic's name has no colon. */
  lemma TopicOfKey(topic: string, group: string)
    ensures TopicOf(GroupKey(topic, group)) == topic <==> ':' !in topic
  {
    var key := GroupKey(topic, group);
    IndexBound(key, ':');
    if ':' !in topic {
      IndexAfter(topic, ':', group);
      assert key == topic + [':'] + group;
    } else {
      var i :| 0 <= i < |topic| && topic[i] == ':';
      assert key[i] == ':';
    }
  }

  function Log<E>(b: State<E>, topic: string): seq<E> {
    if topic in b.topics then b.topics[topic] else []
  }

  function AddEvent<E>(b: State<E>, topic: string, event: E): State<E> {
    b.(topics := b.topics[topic := Log(b, topic) + [event]])
  }

  function AddHandler<E>(b: State<E>, topic: string, group: string, handler: nat): State<E> {
    var key := GroupKey(topic, group);
    var cursor := if key in b.cursors then b.cursors[key] else 0;
    b.(keys := if key in b.cursors then b.keys else b.keys + [key],
       cursors := b.cursors[key := cursor],
       handlers := b.handlers[key := (if key in b.handlers then b.handlers[key] else []) + [handler]],
       joined := b.joined[key := (if key in b.joined then b.joined[key] else []) + [cursor]])
  }

  function Act<E>(b: State<E>, e: Effect<E>): State<E> {
    match e
    case Append(topic, event) => AddEvent(b, topic, event)
    case Join(topic, group, handler) => AddHandler(b, topic, group, handler)
  }

  /** The events handler number `index` of group `key` has seen, in order. */
  function Got<E>(delivered: seq<Delivery<E>>, key: string, index: nat): seq<E> {
    if delivered == [] then []
    else
      var d := delivered[|delivered| - 1];
      Got(delivered[..|delivered| - 1], key, index) + (if d.key == key && d.index == index then [d.event] else [])
  }

  /** The groups, once each, in the order they were first seen. */
  ghost predicate Listed(keys: seq<string>, cursors: map<string, nat>) {
    && (forall i, j :: 0 <= i < j < |keys| ==> keys[i] != keys[j])
    && (forall i :: 0 <= i < |keys| ==> keys[i] in cursors)
    && (forall key {:trigger key in keys} :: key in cursors ==> key in keys)
  }

  ghost predicate GroupOk<E>(b: State<E>, key: string)
    requires key in b.cursors
  {
    && key in b.handlers && key in b.joined && |b.joined[key]| == |b.handlers[key]| > 0 && b.joined[key][0] == 0
    && b.cursors[key] <= |Log(b, TopicOf(key))|
  }

  ghost predicate Shaped<E>(b: State<E>) {
    && Listed(b.keys, b.cursors)
    && b.handlers.Keys == b.cursors.Keys && b.joined.Keys == b.cursors.Keys
    && (forall key {:trigger GroupOk(b, key)} :: key in b.cursors ==> GroupOk(b, key))
  }

  /** How far handler `index` of group `key` has got: to the group's cursor, or one further if the group's current
      event, with handlers before number `done` served, has already reached it. */
  function Reach<E>(b: State<E>, key: string, index: nat, current: string, done: nat): nat
    requires key in b.cursors
  {
    b.cursors[key] + (if key == current && index < done then 1 else 0)
  }

  /** A handler has seen exactly the log of its topic from where it joined to where it has got: each event once,
      in order. */
  ghost predicate ExactAt<E>(b: State<E>, key: string, index: nat, current: string, done: nat)
    requires key in b.cursors ==> GroupOk(b, key)
  {
    if key in b.cursors && index < |b.handlers[key]| then
      var log, reach := Log(b, TopicOf(key)), Reach(b, key, index, current, done);
      && b.joined[key][index] <= reach <= |log|
      && Got(b.delivered, key, index) == log[b.joined[key][index]..reach]
    else Got(b.delivered, key, index) == []
  }

  ghost predicate Exact<E>(b: State<E>, current: string, done: nat)
    requires Shaped(b)
  {
    forall key, index: nat {:trigger ExactAt(b, key, index, current, done)} :: ExactAt(b, key, index, current, done)
  }

  ghost predicate Ok<E>(b: State<E>, current: string, done: nat) {
    Shaped(b) && Exact(b, current, done)
  }

  // ----- every step keeps it ----------------------------------------------------------------------------

  lemma AddEventKeeps<E>(b: State<E>, topic: string, event: E, current: string, done: nat)
    requires Ok(b, current, done)
    ensures Ok(AddEvent(b, topic, event), current, done)
  {
    var b' := AddEvent(b, topic, event);
    forall key | key in b.cursors ensures GroupOk(b', key) { assert GroupOk(b, key); }
    forall key, index: nat ensures ExactAt(b', key, index, current, done) {
      if key in b.cursors { assert GroupOk(b, key); }
      assert ExactAt(b, key, index, current, done);
      LongerLog(b, b', key, index, current, done);
    }
  }

  lemma LongerLog<E>(b: State<E>, b': State<E>, key: string, index: nat, current: string, done: nat)
    requires b' == b.(topics := b'.topics)
    requires key in b.cursors ==> GroupOk(b, key) && GroupOk(b', key)
    requires ExactAt(b, key, index, current, done) && Log(b, TopicOf(key)) <= Log(b', TopicOf(key))
    ensures ExactAt(b', key, index, current, done)
  {
    var topic := TopicOf(key);
    if key in b.cursors && index < |b.handlers[key]| {
      Prefixed(Log(b, topic), Log(b', topic), b.joined[key][index], Reach(b, key, index, current, done));
    }
  }

  lemma Prefixed<E>(a: seq<E>, b: seq<E>, lo: nat, hi: nat)
    requires a <= b && lo <= hi <= |a|
    ensures a[lo..hi] == b[lo..hi]
  {
  }

  lemma AddHandlerKeeps<E>(b: State<E>, topic: string, group: string, handler: nat, current: string, done: nat)
    requires Ok(b, current, done)
    requires if current in b.handlers then done <= |b.handlers[current]| else done == 0
    ensures Ok(AddHandler(b, topic, group, handler), current, done)
  {
    var b', k := AddHandler(b, topic, group, handler), GroupKey(topic, group);
    AddHandlerShapes(b, b', k, handler);
    forall key, index: nat ensures ExactAt(b', key, index, current, done) {
      AddHandlerExact(b, b', k, handler, key, index, current, done);
    }
  }

  /** `b'` is `b` with one more handler for group `k`. */
  ghost predicate Added<E>(b: State<E>, b': State<E>, k: string, handler: nat)
    requires Shaped(b)
  {
    var cursor := if k in b.cursors then b.cursors[k] else 0;
    && b'.topics == b.topics && b'.delivered == b.delivered
    && b'.keys == (if k in b.cursors then b.keys else b.keys + [k])
    && b'.cursors == b.cursors[k := cursor]
    && b'.handlers == b.handlers[k := (if k in b.cursors then b.handlers[k] else []) + [handler]]
    && b'.joined == b.joined[k := (if k in b.cursors then b.joined[k] else []) + [cursor]]
  }

  lemma AddHandlerShapes<E>(b: State<E>, b': State<E>, k: string, handler: nat)
    requires Shaped(b) && Added(b, b', k, handler)
    ensures Shaped(b')
  {
    AddedKeys(b, b', k, handler);
    forall key | key in b'.cursors ensures GroupOk(b', key) { AddedGroup(b, b', k, handler, key); }
  }

  lemma AddedKeys<E>(b: State<E>, b': State<E>, k: string, handler: nat)
    requires Shaped(b) && Added(b, b', k, handler)
    ensures Listed(b'.keys, b'.cursors) && b'.handlers.Keys == b'.cursors.Keys && b'.joined.Keys == b'.cursors.Keys
  {
    NextListed(b.keys, b.cursors, k, if k in b.cursors then b.cursors[k] else 0);
    assert b'.cursors.Keys == b.cursors.Keys + {k};
  }

  lemma AddedGroup<E>(b: State<E>, b': State<E>, k: string, handler: nat, key: string)
    requires Shaped(b) && Added(b, b', k, handler) && key in b'.cursors
    ensures GroupOk(b', key)
  {
    if key in b.cursors { assert GroupOk(b, key); }
    assert Log(b', TopicOf(key)) == Log(b, TopicOf(key));
  }

  lemma AddHandlerExact<E>(b: State<E>, b': State<E>, k: string, handler: nat, key: string, index: nat,
                           current: string, done: nat)
    requires Ok(b, current, done) && Shaped(b') && Added(b, b', k, handler)
    requires if current in b.handlers then done <= |b.handlers[current]| else done == 0
    ensures key in b'.cursors ==> GroupOk(b', key)
    ensures ExactAt(b', key, index, current, done)
  {
    assert key in b.cursors ==> GroupOk(b, key);
    assert ExactAt(b, key, index, current, done);
    if key != k {
      SameHandlers(b, b', key, index, current, done);
    } else {
      MoreHandlers(b, b', k, handler, index, current, done);
    }
  }

  lemma NextListed(keys: seq<string>, cursors: map<string, nat>, k: string, cursor: nat)
    requires Listed(keys, cursors)
    ensures Listed(if k in cursors then keys else keys + [k], cursors[k := cursor])
  {
  }

  lemma MoreHandlers<E>(b: State<E>, b': State<E>, k: string, handler: nat, index: nat, current: string, done: nat)
    requires k in b'.cursors && GroupOk(b', k) && (k in b.cursors ==> GroupOk(b, k))
    requires b'.delivered == b.delivered && Log(b', TopicOf(k)) == Log(b, TopicOf(k))
    requires b'.cursors[k] == if k in b.cursors then b.cursors[k] else 0
    requires b'.handlers[k] == (if k in b.cursors then b.handlers[k] else []) + [handler]
    requires b'.joined[k] == (if k in b.cursors then b.joined[k] else []) + [b'.cursors[k]]
    requires k == current ==> if k in b.cursors then done <= |b.handlers[k]| else done == 0
    requires ExactAt(b, k, index, current, done)
    ensures ExactAt(b', k, index, current, done)
  {
  }

  lemma SameHandlers<E>(b: State<E>, b': State<E>, key: string, index: nat, current: string, done: nat)
    requires key in b'.cursors <==> key in b.cursors
    requires key in b.cursors ==> GroupOk(b, key) && GroupOk(b', key)
    requires key in b.cursors ==> b'.cursors[key] == b.cursors[key]
    requires key in b.cursors ==> b'.handlers[key] == b.handlers[key] && b'.joined[key] == b.joined[key]
    requires b'.delivered == b.delivered && Log(b', TopicOf(key)) == Log(b, TopicOf(key))
    requires ExactAt(b, key, index, current, done)
    ensures ExactAt(b', key, index, current, done)
  {
  }

  lemma GotAppend<E>(delivered: seq<Delivery<E>>, d: Delivery<E>, key: string, index: nat)
    ensures Got(delivered + [d], key, index)
         == Got(delivered, key, index) + (if d.key == key && d.index == index then [d.event] else [])
  {
    assert (delivered + [d])[..|delivered|] == delivered;
  }

  /** Handler number `index` of group `key` is called with the group's current event. */
  function Serve<E>(b: State<E>, key: string, index: nat): State<E>
    requires key in b.cursors && b.cursors[key] < |Log(b, TopicOf(key))|
  {
    b.(delivered := b.delivered + [Delivery(key, index, Log(b, TopicOf(key))[b.cursors[key]])])
  }

  lemma ServeKeeps<E>(b: State<E>, key: string, index: nat)
    requires Ok(b, key, index) && key in b.cursors && b.cursors[key] < |Log(b, TopicOf(key))|
    requires GroupOk(b, key) && index < |b.handlers[key]|
    ensures Ok(Serve(b, key, index), key, index + 1)
  {
    var b', done := Serve(b, key, index), index + 1;
    var d := Delivery(key, index, Log(b, TopicOf(key))[b.cursors[key]]);
    forall k | k in b.cursors ensures GroupOk(b', k) { assert GroupOk(b, k); }
    forall k, i: nat ensures ExactAt(b', k, i, key, done) {
      assert k in b.cursors ==> GroupOk(b, k);
      assert ExactAt(b, k, i, key, index);
      GotAppend(b.delivered, d, k, i);
      ServedAt(b, b', key, index, k, i);
    }
  }

  lemma ServedAt<E>(b: State<E>, b': State<E>, key: string, index: nat, k: string, i: nat)
    requires b' == b.(delivered := b'.delivered)
    requires k in b.cursors ==> GroupOk(b, k) && GroupOk(b', k)
    requires ExactAt(b, k, i, key, index)
    requires key in b.cursors && GroupOk(b, key)
    requires b.cursors[key] < |Log(b, TopicOf(key))| && index < |b.handlers[key]|
    requires Got(b'.delivered, k, i)
      == Got(b.delivered, k, i) + (if key == k && index == i then [Log(b, TopicOf(key))[b.cursors[key]]] else [])
    ensures ExactAt(b', k, i, key, index + 1)
  {
    if k == key && i == index {
      var log, lo, hi := Log(b, TopicOf(key)), b.joined[key][index], b.cursors[key];
      assert log[lo..hi] + [log[hi]] == log[lo..hi + 1];
    }
  }

  /** All handlers served: the cursor moves on. */
  function Advance<E>(b: State<E>, key: string): State<E>
    requires key in b.cursors
  {
    b.(cursors := b.cursors[key := b.cursors[key] + 1])
  }

  lemma AdvanceKeeps<E>(b: State<E>, key: string, next: string)
    requires key in b.cursors && GroupOk(b, key) && Ok(b, key, |b.handlers[key]|)
    requires b.cursors[key] < |Log(b, TopicOf(key))|
    ensures Ok(Advance(b, key), next, 0)
  {
    var b' := Advance(b, key);
    forall k | k in b'.cursors ensures GroupOk(b', k) { assert GroupOk(b, k); }
    forall k, i: nat ensures ExactAt(b', k, i, next, 0) {
      assert k in b.cursors ==> GroupOk(b, k);
      assert ExactAt(b, k, i, key, |b.handlers[key]|);
    }
  }

  lemma Idle<E>(b: State<E>, current: string, next: string)
    requires Ok(b, current, 0)
    ensures Ok(b, next, 0)
  {
    forall k, i: nat ensures ExactAt(b, k, i, next, 0) {
      assert k in b.cursors ==> GroupOk(b, k);
      assert ExactAt(b, k, i, current, 0);
    }
  }

  /** What a group has processed is exactly its topic's log up to its cursor. */
  lemma Processed<E>(b: State<E>, key: string)
    requires Ok(b, "", 0) && key in b.cursors
    ensures b.cursors[key] <= |Log(b, TopicOf(key))|
    ensures Got(b.delivered, key, 0) == Log(b, TopicOf(key))[..b.cursors[key]]
  {
    assert GroupOk(b, key) && ExactAt(b, key, 0, "", 0);
  }

  /** Cursors and logs only grow, groups and handlers are only added. */
  ghost predicate Grows<E>(b: State<E>, b': State<E>) {
    && b.keys <= b'.keys && b.delivered <= b'.delivered
    && (forall t :: t in b.topics ==> t in b'.topics && b.topics[t] <= b'.topics[t])
    && (forall key :: key in b.cursors ==> key in b'.cursors && b.cursors[key] <= b'.cursors[key])
    && (forall key :: key in b.handlers ==> key in b'.handlers && b.handlers[key] <= b'.handlers[key])
  }
}
