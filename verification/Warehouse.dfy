/** Warehouse nodes that fold the stock-event log into a local view, and lose touch with it now and then. */
module Warehouse {
  import opened Bus

  datatype Change = Change(sku: string, delta: int)

  type Stock = map<string, int>

  function Qty(s: Stock, sku: string): int { if sku in s then s[sku] else 0 }

  function Bump(s: Stock, c: Change): Stock { s[c.sku := Qty(s, c.sku) + c.delta] }

  /** The stock a log of changes amounts to. */
  function Fold(log: seq<Change>): Stock {
    if log == [] then map[] else Bump(Fold(log[..|log| - 1]), log[|log| - 1])
  }

  datatype Node = Node(stock: Stock, connected: bool, applied: nat)

  function ApplyChange(n: Node, c: Change): Node { Node(Bump(n.stock, c), n.connected, n.applied + 1) }

  /** The handler: a disconnected node lets the event go by. */
  function OnEvent(n: Node, c: Change): Node { if n.connected then ApplyChange(n, c) else n }

  function ApplyEach(n: Node, cs: seq<Change>): Node {
    if cs == [] then n else ApplyChange(ApplyEach(n, cs[..|cs| - 1]), cs[|cs| - 1])
  }

  /** What `slice(appliedCount)` returns. */
  function Missed(log: seq<Change>, applied: nat): seq<Change> {
    if applied <= |log| then log[applied..] else []
  }

  function Reconnected(n: Node, log: seq<Change>): Node {
    ApplyEach(n.(connected := true), Missed(log, n.applied))
  }

  class WarehouseNode {
    var localStock: Stock
    var connected: bool
    var appliedCount: nat

    ghost function View(): Node reads this { Node(localStock, connected, appliedCount) }

    constructor ()
      ensures View() == Node(map[], true, 0)
    {
      localStock, connected, appliedCount := map[], true, 0;
    }

    method Apply(event: Change)
      modifies this
      ensures View() == ApplyChange(old(View()), event)
    {
      var current := if event.sku in localStock then localStock[event.sku] else 0;
      localStock := localStock[event.sku := current + event.delta];
      appliedCount := appliedCount + 1;
    }

    method Handle(event: Change)
      modifies this
      ensures View() == OnEvent(old(View()), event)
    {
      if !connected { return; }
      Apply(event);
    }

    method Disconnect()
      modifies this
      ensures View() == old(View()).(connected := false)
    {
      connected := false;
    }

    method Reconnect(history: seq<Change>)
      modifies this
      ensures View() == Reconnected(old(View()), history)
    {
      connected := true;
      var missed := Missed(history, appliedCount);
      ghost var start := View();
      for i := 0 to |missed|
        invariant View() == ApplyEach(start, missed[..i])
      {
        assert missed[..i + 1][..i] == missed[..i];
        Apply(missed[i]);
      }
      assert missed[..|missed|] == missed;
    }
  }

  // ----- nodes on a bus -----------------------------------------------------------------------------------

  const TOPIC := "stock-events"

  /** The group of a node, as the bus files it. */
  function NodeKey(id: string): string { GroupKey(TOPIC, "warehouse-node:" + id) }

  /** The log of stock events, and for each node its state and its group's cursor on the bus. `served` are the nodes
      whose handler has been called with the group's current event while the bus has still to move the cursor. */
  datatype Cluster = Cluster(log: seq<Change>, nodes: map<string, Node>, cursors: map<string, nat>, served: set<string>)

  datatype Step =
    | Open(id: string) | Emit(c: Change) | Call(id: string) | Move(id: string)
    | Disconnect(id: string) | Reconnect(id: string)

  /** How far the bus has handed the log to a node. */
  function Reached(w: Cluster, id: string): nat
    requires id in w.cursors
  {
    w.cursors[id] + (if id in w.served then 1 else 0)
  }

  predicate Quiescent(w: Cluster, id: string) { id in w.cursors && Reached(w, id) == |w.log| }

  /** `careful` schedules reconnect a node only when the bus has nothing undelivered for it. */
  predicate Enabled(w: Cluster, s: Step, careful: bool) {
    match s
    case Open(id) => id !in w.nodes && id !in w.cursors && id !in w.served
    case Emit(_) => true
    case Call(id) => id in w.nodes && id in w.cursors && id !in w.served && w.cursors[id] < |w.log|
    case Move(id) => id in w.nodes && id in w.cursors && id in w.served
    case Disconnect(id) => id in w.nodes
    case Reconnect(id) => id in w.nodes && (careful ==> Quiescent(w, id))
  }

  function Take(w: Cluster, s: Step, careful: bool): Cluster {
    if !Enabled(w, s, careful) then w else
    match s
    case Open(id) => w.(nodes := w.nodes[id := Node(map[], true, 0)], cursors := w.cursors[id := 0])
    case Emit(c) => w.(log := w.log + [c])
    case Call(id) =>
      w.(nodes := w.nodes[id := OnEvent(w.nodes[id], w.log[w.cursors[id]])], served := w.served + {id})
    case Move(id) => w.(cursors := w.cursors[id := w.cursors[id] + 1], served := w.served - {id})
    case Disconnect(id) => w.(nodes := w.nodes[id := w.nodes[id].(connected := false)])
    case Reconnect(id) => w.(nodes := w.nodes[id := Reconnected(w.nodes[id], w.log)])
  }

  function TakeAll(steps: seq<Step>, careful: bool): Cluster {
    if steps == [] then Cluster([], map[], map[], {})
    else Take(TakeAll(steps[..|steps| - 1], careful), steps[|steps| - 1], careful)
  }

  /** A node's stock is the log up to what it applied; a connected node has applied all it was handed. */
  ghost predicate InStep(w: Cluster, id: string)
    requires id in w.nodes && id in w.cursors
  {
    var n, reached := w.nodes[id], Reached(w, id);
    && n.applied <= reached <= |w.log|
    && n.stock == Fold(w.log[..n.applied])
    && (n.connected ==> n.applied == reached)
  }

  ghost predicate AllInStep(w: Cluster) {
    && w.nodes.Keys == w.cursors.Keys && w.served <= w.nodes.Keys
    && forall id {:trigger InStep(w, id)} :: id in w.nodes ==> InStep(w, id)
  }

  lemma {:induction false} ApplyEachFolds(n: Node, before: seq<Change>, cs: seq<Change>)
    requires n.stock == Fold(before)
    ensures ApplyEach(n, cs) == Node(Fold(before + cs), n.connected, n.applied + |cs|)
  {
    if cs == [] {
      assert before + cs == before;
    } else {
      ApplyEachFolds(n, before, cs[..|cs| - 1]);
      assert (before + cs)[..|before + cs| - 1] == before + cs[..|cs| - 1];
    }
  }

  /** Reconnecting keeps a node in step exactly when the bus has nothing undelivered for it. */
  lemma ReconnectExactly(w: Cluster, id: string)
    requires id in w.nodes && id in w.cursors && InStep(w, id)
    ensures var w' := Take(w, Reconnect(id), false); InStep(w', id) <==> Quiescent(w, id)
  {
    var n := w.nodes[id];
    var rest := w.log[n.applied..];
    ApplyEachFolds(n.(connected := true), w.log[..n.applied], rest);
    assert w.log[..n.applied] + rest == w.log && w.log[..|w.log|] == w.log;
  }

  lemma CallKeeps(w: Cluster, id: string)
    requires Enabled(w, Call(id), true) && InStep(w, id)
    ensures InStep(Take(w, Call(id), true), id)
  {
    var n := w.nodes[id];
    assert w.log[..n.applied + 1][..n.applied] == w.log[..n.applied];
  }

  lemma StepKeeps(w: Cluster, s: Step)
    requires AllInStep(w)
    ensures AllInStep(Take(w, s, true))
  {
    var w' := Take(w, s, true);
    forall id | id in w'.nodes ensures InStep(w', id) {
      if id in w.nodes {
        assert InStep(w, id);
        var n := w.nodes[id];
        match s
        case Reconnect(r) => if r == id && Enabled(w, s, true) { ReconnectExactly(w, id); }
        case Emit(c) => assert w'.log[..n.applied] == w.log[..n.applied];
        case Call(d) => if d == id && Enabled(w, s, true) { CallKeeps(w, id); }
        case _ =>
      } else {
        assert w'.log[..0] == [];
      }
    }
  }

  lemma {:induction false} CarefulRuns(steps: seq<Step>)
    ensures AllInStep(TakeAll(steps, true))
  {
    if steps != [] {
      CarefulRuns(steps[..|steps| - 1]);
      StepKeeps(TakeAll(steps[..|steps| - 1], true), steps[|steps| - 1]);
    }
  }

  /** After any careful schedule, a connected node has applied exactly what the bus handed it, and once its group is
      caught up it holds what the whole log amounts to: no event lost, none applied twice, all such nodes alike. A node
      still cut off holds what the log amounted to when it was. */
  lemma Convergence(steps: seq<Step>, id: string)
    requires id in TakeAll(steps, true).nodes
    ensures var w := TakeAll(steps, true); var n := w.nodes[id];
      && id in w.cursors
      && n.applied <= |w.log| && n.stock == Fold(w.log[..n.applied])
      && (n.connected ==> n.applied == Reached(w, id))
      && (n.connected && Quiescent(w, id) ==> n.applied == |w.log| && n.stock == Fold(w.log))
  {
    CarefulRuns(steps);
    var w := TakeAll(steps, true);
    assert InStep(w, id);
    assert w.log[..|w.log|] == w.log;
  }

  // ----- the bus the nodes are on -----------------------------------------------------------------------------

  /** The cluster is what the nodes' groups and their topic are on the bus `b`. */
  ghost predicate Mirrors(w: Cluster, b: State<Change>) {
    && w.log == Log(b, TOPIC)
    && (forall id {:trigger NodeKey(id)} :: (id in w.cursors <==> NodeKey(id) in b.cursors)
          && (id in w.cursors ==> w.cursors[id] == b.cursors[NodeKey(id)]))
  }

  const PREFIX := "stock-events:warehouse-node:"

  predicate IsNodeKey(key: string) { PREFIX <= key }

  function NodeOf(key: string): string
    requires IsNodeKey(key)
  {
    key[|PREFIX|..]
  }

  lemma NodeKeys(id: string)
    ensures TopicOf(NodeKey(id)) == TOPIC
    ensures IsNodeKey(NodeKey(id)) && NodeOf(NodeKey(id)) == id
    ensures forall other: string {:trigger NodeKey(other)} :: NodeKey(other) == NodeKey(id) ==> other == id
  {
    TopicOfKey(TOPIC, "warehouse-node:" + id);
    NodeKeyText(id);
    forall other: string | NodeKey(other) == NodeKey(id) ensures other == id { NodeKeyText(other); }
  }

  lemma NodeKeyText(id: string)
    ensures NodeKey(id) == PREFIX + id && NodeKey(id)[|PREFIX|..] == id
  {
  }

  lemma KeyOfNode(key: string)
    requires IsNodeKey(key)
    ensures NodeKey(NodeOf(key)) == key
  {
    NodeKeyText(NodeOf(key));
  }

  /** What the bus does for a node's group is the cluster's step of the same name, */
  lemma BusSteps(w: Cluster, b: State<Change>, id: string, c: Change, handler: nat, careful: bool)
    requires Mirrors(w, b) && w.nodes.Keys == w.cursors.Keys && w.served <= w.nodes.Keys
    ensures Mirrors(Take(w, Emit(c), careful), AddEvent(b, TOPIC, c))
    ensures id !in w.nodes ==>
      Mirrors(Take(w, Open(id), careful), AddHandler(b, TOPIC, "warehouse-node:" + id, handler))
    ensures Enabled(w, Call(id), careful) ==>
      var key := NodeKey(id);
      && key in b.cursors && b.cursors[key] < |Log(b, TopicOf(key))|
      && w.log[w.cursors[id]] == Log(b, TopicOf(key))[b.cursors[key]]
      && Mirrors(Take(w, Call(id), careful), Serve(b, key, 0))
    ensures Enabled(w, Move(id), careful) ==>
      NodeKey(id) in b.cursors && Mirrors(Take(w, Move(id), careful), Advance(b, NodeKey(id)))
    ensures Mirrors(Take(w, Disconnect(id), careful), b) && Mirrors(Take(w, Reconnect(id), careful), b)
  {
    NodeKeys(id);
    assert (id in w.cursors <==> NodeKey(id) in b.cursors) && GroupKey(TOPIC, "warehouse-node:" + id) == NodeKey(id);
  }

  /** and what it does for other topics and groups is no step at all. */
  lemma BusElsewhere(w: Cluster, b: State<Change>, topic: string, group: string, c: Change, handler: nat, key: string)
    requires Mirrors(w, b)
    ensures topic != TOPIC ==> Mirrors(w, AddEvent(b, topic, c))
    ensures !IsNodeKey(GroupKey(topic, group)) ==> Mirrors(w, AddHandler(b, topic, group, handler))
    ensures !IsNodeKey(key) && key in b.cursors ==> Mirrors(w, Advance(b, key))
  {
    forall id ensures IsNodeKey(NodeKey(id)) { NodeKeys(id); }
  }

  // ----- nodes on the bus itself ------------------------------------------------------------------------------

  /** The bus, the nodes, and the groups whose current event is being handed out. */
  datatype System = System(bus: State<Change>, nodes: map<string, Node>, inFlight: set<string>)

  const FRESH := System(State(map[], [], map[], map[], [], map[]), map[], {})

  /** A publish to any topic, a subscription of any group that is no node's, the construction of a node, the call of
      a handler of any group, the move of any cursor, and a node that loses and regains touch. */
  datatype Doing =
    | Post(topic: string, c: Change) | Enlist(topic: string, group: string, handler: nat)
    | Boot(id: string, handler: nat) | Hand(key: string, index: nat)
    | Shift(key: string) | Cut(id: string) | Heal(id: string)

  /** How far the bus has handed its log to node `id`. */
  function Given(s: System, id: string): nat
    requires NodeKey(id) in s.bus.cursors
  {
    s.bus.cursors[NodeKey(id)] + (if NodeKey(id) in s.inFlight then 1 else 0)
  }

  /** A group's first handler is called when no event of the group is being handed out, the others while one is, and
      the cursor moves after that. */
  predicate Possible(s: System, d: Doing, careful: bool) {
    match d
    case Post(_, _) => true
    case Enlist(topic, group, _) => !IsNodeKey(GroupKey(topic, group))
    case Boot(id, _) => id !in s.nodes
    case Hand(key, index) =>
      && key in s.bus.cursors && key in s.bus.handlers && index < |s.bus.handlers[key]|
      && s.bus.cursors[key] < |Log(s.bus, TopicOf(key))| && (index == 0 <==> key !in s.inFlight)
    case Shift(key) => key in s.bus.cursors && key in s.inFlight
    case Cut(id) => id in s.nodes
    case Heal(id) => id in s.nodes && (careful ==> NodeKey(id) in s.bus.cursors && Given(s, id) == |Log(s.bus, TOPIC)|)
  }

  function Do(s: System, d: Doing, careful: bool): System {
    if !Possible(s, d, careful) then s else
    match d
    case Post(topic, c) => s.(bus := AddEvent(s.bus, topic, c))
    case Enlist(topic, group, handler) => s.(bus := AddHandler(s.bus, topic, group, handler))
    case Boot(id, handler) =>
      s.(bus := AddHandler(s.bus, TOPIC, "warehouse-node:" + id, handler), nodes := s.nodes[id := Node(map[], true, 0)])
    case Hand(key, index) =>
      var event := Log(s.bus, TopicOf(key))[s.bus.cursors[key]];
      s.(bus := Serve(s.bus, key, index), inFlight := s.inFlight + {key},
         nodes := if IsNodeKey(key) && NodeOf(key) in s.nodes
                  then s.nodes[NodeOf(key) := OnEvent(s.nodes[NodeOf(key)], event)] else s.nodes)
    case Shift(key) => s.(bus := Advance(s.bus, key), inFlight := s.inFlight - {key})
    case Cut(id) => s.(nodes := s.nodes[id := s.nodes[id].(connected := false)])
    case Heal(id) => s.(nodes := s.nodes[id := Reconnected(s.nodes[id], Log(s.bus, TOPIC))])
  }

  function DoAll(ds: seq<Doing>, careful: bool): System {
    if ds == [] then FRESH else Do(DoAll(ds[..|ds| - 1], careful), ds[|ds| - 1], careful)
  }

  /** The cluster steps that one doing amounts to: one, or none. */
  function StepsOf(s: System, d: Doing, careful: bool): seq<Step> {
    if !Possible(s, d, careful) then [] else
    match d
    case Post(topic, c) => if topic == TOPIC then [Emit(c)] else []
    case Enlist(_, _, _) => []
    case Boot(id, _) => [Open(id)]
    case Hand(key, _) => if IsNodeKey(key) then [Call(NodeOf(key))] else []
    case Shift(key) => if IsNodeKey(key) then [Move(NodeOf(key))] else []
    case Cut(id) => [Disconnect(id)]
    case Heal(id) => [Reconnect(id)]
  }

  function Schedule(ds: seq<Doing>, careful: bool): seq<Step> {
    if ds == [] then []
    else
      var init := ds[..|ds| - 1];
      Schedule(init, careful) + StepsOf(DoAll(init, careful), ds[|ds| - 1], careful)
  }

  /** `w` is the cluster that the system shows. */
  ghost predicate Shows(s: System, w: Cluster) {
    && w.nodes == s.nodes && w.cursors.Keys == s.nodes.Keys && w.served <= s.nodes.Keys && Mirrors(w, s.bus)
    && (forall id {:trigger NodeKey(id)} {:trigger id in w.served} ::
         id in w.served <==> id in s.nodes && NodeKey(id) in s.inFlight)
  }

  /** A node's group has that node's handler and no other. */
  ghost predicate Sound(s: System) {
    && s.bus.handlers.Keys == s.bus.cursors.Keys && s.inFlight <= s.bus.cursors.Keys
    && (forall id {:trigger NodeKey(id)} :: NodeKey(id) in s.bus.cursors ==>
         NodeKey(id) in s.bus.handlers && |s.bus.handlers[NodeKey(id)]| == 1)
  }

  lemma SoundStep(s: System, w: Cluster, d: Doing, careful: bool)
    requires Sound(s) && Shows(s, w)
    ensures Sound(Do(s, d, careful))
  {
    if Possible(s, d, careful) {
      match d
      case Enlist(_, _, _) => forall id ensures IsNodeKey(NodeKey(id)) { NodeKeys(id); }
      case Boot(id, _) => NodeKeys(id); assert GroupKey(TOPIC, "warehouse-node:" + id) == NodeKey(id);
        assert NodeKey(id) !in s.bus.cursors;
      case _ =>
    }
  }

  /** Steps taken from `w` on. */
  function TakeMany(w: Cluster, steps: seq<Step>, careful: bool): Cluster {
    if steps == [] then w else Take(TakeMany(w, steps[..|steps| - 1], careful), steps[|steps| - 1], careful)
  }

  lemma HandShows(s: System, w: Cluster, key: string, index: nat, careful: bool)
    requires Sound(s) && Shows(s, w) && Possible(s, Hand(key, index), careful)
    ensures Shows(Do(s, Hand(key, index), careful), TakeMany(w, StepsOf(s, Hand(key, index), careful), careful))
  {
    forall id ensures NodeKey(id) == key ==> IsNodeKey(key) && id == NodeOf(key) { NodeKeys(id); }
    if IsNodeKey(key) {
      var id := NodeOf(key);
      KeyOfNode(key);
      NodeKeys(id);
      assert id in w.cursors && |s.bus.handlers[NodeKey(id)]| == 1;
      BusSteps(w, s.bus, id, Change("", 0), 0, careful);
      assert [Call(id)][..0] == [];
    }
  }

  lemma ShiftShows(s: System, w: Cluster, key: string, careful: bool)
    requires Sound(s) && Shows(s, w) && Possible(s, Shift(key), careful)
    ensures Shows(Do(s, Shift(key), careful), TakeMany(w, StepsOf(s, Shift(key), careful), careful))
  {
    if IsNodeKey(key) {
      KeyOfNode(key);
      MoveShows(s, w, NodeOf(key), careful);
    } else {
      BusElsewhere(w, s.bus, "", "", Change("", 0), 0, key);
      forall id ensures NodeKey(id) != key { NodeKeys(id); }
    }
  }

  lemma MoveShows(s: System, w: Cluster, id: string, careful: bool)
    requires Sound(s) && Shows(s, w) && Possible(s, Shift(NodeKey(id)), careful)
    ensures var d := Shift(NodeKey(id));
      Shows(Do(s, d, careful), TakeMany(w, StepsOf(s, d, careful), careful))
  {
    NodeKeys(id);
    assert id in w.cursors && id in w.served;
    BusSteps(w, s.bus, id, Change("", 0), 0, careful);
    assert [Move(id)][..0] == [];
  }

  lemma BootShows(s: System, w: Cluster, id: string, handler: nat, careful: bool)
    requires Sound(s) && Shows(s, w) && Possible(s, Boot(id, handler), careful)
    ensures Shows(Do(s, Boot(id, handler), careful), TakeMany(w, StepsOf(s, Boot(id, handler), careful), careful))
  {
    NodeKeys(id);
    assert id !in w.cursors && NodeKey(id) !in s.bus.cursors;
    BusSteps(w, s.bus, id, Change("", 0), handler, careful);
    assert [Open(id)][..0] == [];
  }

  lemma DoingShows(s: System, w: Cluster, d: Doing, careful: bool)
    requires Sound(s) && Shows(s, w)
    ensures Shows(Do(s, d, careful), TakeMany(w, StepsOf(s, d, careful), careful))
  {
    if Possible(s, d, careful) {
      match d
      case Post(topic, c) =>
        BusSteps(w, s.bus, "", c, 0, careful);
        BusElsewhere(w, s.bus, topic, "", c, 0, "");
        assert [Emit(c)][..0] == [];
      case Enlist(topic, group, handler) => BusElsewhere(w, s.bus, topic, group, Change("", 0), handler, "");
      case Boot(id, handler) => BootShows(s, w, id, handler, careful);
      case Hand(key, index) => HandShows(s, w, key, index, careful);
      case Shift(key) => ShiftShows(s, w, key, careful);
      case Cut(id) => assert [Disconnect(id)][..0] == []; assert NodeKey(id) in s.bus.cursors;
      case Heal(id) => assert [Reconnect(id)][..0] == []; assert NodeKey(id) in s.bus.cursors;
    }
  }

  lemma {:induction false} TakeOn(steps: seq<Step>, more: seq<Step>, careful: bool)
    ensures TakeAll(steps + more, careful) == TakeMany(TakeAll(steps, careful), more, careful)
  {
    if more == [] {
      assert steps + more == steps;
    } else {
      TakeOn(steps, more[..|more| - 1], careful);
      assert (steps + more)[..|steps + more| - 1] == steps + more[..|more| - 1];
    }
  }

  /** Whatever the bus and the nodes do, what they show is a run of the cluster. */
  lemma {:induction false} BusRuns(ds: seq<Doing>, careful: bool)
    ensures Sound(DoAll(ds, careful)) && Shows(DoAll(ds, careful), TakeAll(Schedule(ds, careful), careful))
  {
    if ds != [] {
      var init, d := ds[..|ds| - 1], ds[|ds| - 1];
      BusRuns(init, careful);
      var s, w := DoAll(init, careful), TakeAll(Schedule(init, careful), careful);
      SoundStep(s, w, d, careful);
      DoingShows(s, w, d, careful);
      TakeOn(Schedule(init, careful), StepsOf(s, d, careful), careful);
    }
  }

  /** Convergence of nodes on the in-memory bus: over any run of it in which nodes reconnect only when it has nothing
      undelivered for them. */
  lemma BusConvergence(ds: seq<Doing>, id: string)
    requires id in DoAll(ds, true).nodes
    ensures var s := DoAll(ds, true); var n, log := s.nodes[id], Log(s.bus, TOPIC);
      && NodeKey(id) in s.bus.cursors
      && n.applied <= |log| && n.stock == Fold(log[..n.applied])
      && (n.connected ==> n.applied == Given(s, id))
      && (n.connected && Given(s, id) == |log| ==> n.stock == Fold(log))
  {
    BusRuns(ds, true);
    Convergence(Schedule(ds, true), id);
    assert NodeKey(id) in DoAll(ds, true).bus.cursors;
  }

  lemma NextDoing(ds: seq<Doing>, d: Doing)
    ensures DoAll(ds + [d], true) == Do(DoAll(ds, true), d, true)
  {
    assert (ds + [d])[..|ds|] == ds;
  }

  /** What holds of a node's group in every run. */
  lemma GroupOfNode(ds: seq<Doing>, id: string)
    requires id in DoAll(ds, true).nodes
    ensures var b, key := DoAll(ds, true).bus, NodeKey(id);
      && key in b.cursors && key in b.handlers && |b.handlers[key]| == 1 && TopicOf(key) == TOPIC && IsNodeKey(key)
      && NodeOf(key) == id && Given(DoAll(ds, true), id) <= |Log(b, TOPIC)|
  {
    BusRuns(ds, true);
    CarefulRuns(Schedule(ds, true));
    NodeKeys(id);
    var w := TakeAll(Schedule(ds, true), true);
    assert id in w.cursors && InStep(w, id);
    assert NodeKey(id) in DoAll(ds, true).bus.cursors;
  }

  /** The cursor moves on after a handler's call. */
  lemma Shifted(ds: seq<Doing>, id: string)
    requires id in DoAll(ds, true).nodes && NodeKey(id) in DoAll(ds, true).inFlight
    ensures var s, s' := DoAll(ds, true), DoAll(ds + [Shift(NodeKey(id))], true); var key := NodeKey(id);
      && s'.nodes == s.nodes && key !in s'.inFlight && key in s.bus.cursors && key in s'.bus.cursors
      && Log(s'.bus, TOPIC) == Log(s.bus, TOPIC) && Given(s', id) == Given(s, id)
  {
    GroupOfNode(ds, id);
    NextDoing(ds, Shift(NodeKey(id)));
  }

  /** A node whose group has an event to come can be handed it. */
  lemma Handed(ds: seq<Doing>, id: string)
    requires id in DoAll(ds, true).nodes && NodeKey(id) !in DoAll(ds, true).inFlight
    requires NodeKey(id) in DoAll(ds, true).bus.cursors
    requires Given(DoAll(ds, true), id) < |Log(DoAll(ds, true).bus, TOPIC)|
    ensures var s, s' := DoAll(ds, true), DoAll(ds + [Hand(NodeKey(id), 0)], true); var key := NodeKey(id);
      && id in s'.nodes && s'.nodes[id].connected == s.nodes[id].connected && key in s'.bus.cursors
      && Log(s'.bus, TOPIC) == Log(s.bus, TOPIC) && Given(s', id) == Given(s, id) + 1
  {
    GroupOfNode(ds, id);
    NextDoing(ds, Hand(NodeKey(id), 0));
  }

  /** From `s` to `s'` the bus has handed node `id` another `k` events of the same log. */
  ghost predicate Further(s: System, s': System, id: string, k: nat) {
    && id in s.nodes && id in s'.nodes && s'.nodes[id].connected == s.nodes[id].connected
    && NodeKey(id) in s.bus.cursors && NodeKey(id) in s'.bus.cursors
    && Log(s'.bus, TOPIC) == Log(s.bus, TOPIC) && Given(s', id) == Given(s, id) + k
  }

  lemma OneFurther(ds: seq<Doing>, id: string) returns (more: seq<Doing>)
    requires id in DoAll(ds, true).nodes && NodeKey(id) in DoAll(ds, true).bus.cursors
    requires Given(DoAll(ds, true), id) < |Log(DoAll(ds, true).bus, TOPIC)|
    ensures Further(DoAll(ds, true), DoAll(ds + more, true), id, 1)
  {
    if NodeKey(id) in DoAll(ds, true).inFlight {
      Shifted(ds, id);
      Handed(ds + [Shift(NodeKey(id))], id);
      more := [Shift(NodeKey(id))] + [Hand(NodeKey(id), 0)];
      assert ds + more == ds + [Shift(NodeKey(id))] + [Hand(NodeKey(id), 0)];
    } else {
      Handed(ds, id);
      more := [Hand(NodeKey(id), 0)];
    }
  }

  lemma FurtherOn(a: System, b: System, c: System, id: string, j: nat, k: nat)
    requires Further(a, b, id, j) && Further(b, c, id, k)
    ensures Further(a, c, id, j + k)
  {
  }

  /** From any state the bus can hand a node all there is. */
  lemma {:induction false} CatchesUp(ds: seq<Doing>, id: string, left: nat) returns (more: seq<Doing>)
    requires id in DoAll(ds, true).nodes && NodeKey(id) in DoAll(ds, true).bus.cursors
    requires Given(DoAll(ds, true), id) + left == |Log(DoAll(ds, true).bus, TOPIC)|
    ensures Further(DoAll(ds, true), DoAll(ds + more, true), id, left)
    decreases left
  {
    if left == 0 {
      more := [];
      assert ds + more == ds;
    } else {
      var first := OneFurther(ds, id);
      var rest := CatchesUp(ds + first, id, left - 1);
      FurtherOn(DoAll(ds, true), DoAll(ds + first, true), DoAll(ds + first + rest, true), id, 1, left - 1);
      more := first + rest;
      assert ds + more == ds + first + rest;
    }
  }

  lemma {:induction false} StaysConnected(n: Node, cs: seq<Change>)
    ensures ApplyEach(n, cs).connected == n.connected
  {
    if cs != [] { StaysConnected(n, cs[..|cs| - 1]); }
  }

  /** Whatever has happened, every node can still come to hold what the whole log amounts to: the bus hands out what is
      left, and then the node regains touch. */
  lemma CanConverge(ds: seq<Doing>, id: string) returns (more: seq<Doing>)
    requires id in DoAll(ds, true).nodes
    ensures var log, s' := Log(DoAll(ds, true).bus, TOPIC), DoAll(ds + more, true);
      && Log(s'.bus, TOPIC) == log && id in s'.nodes
      && s'.nodes[id].connected && s'.nodes[id].stock == Fold(log) && s'.nodes[id].applied == |log|
  {
    GroupOfNode(ds, id);
    var s := DoAll(ds, true);
    var rest := CatchesUp(ds, id, |Log(s.bus, TOPIC)| - Given(s, id));
    NextDoing(ds + rest, Heal(id));
    var n := DoAll(ds + rest, true).nodes[id];
    StaysConnected(n.(connected := true), Missed(Log(s.bus, TOPIC), n.applied));
    more := rest + [Heal(id)];
    assert ds + more == ds + rest + [Heal(id)];
    BusConvergence(ds + more, id);
  }

  // ----- reconnecting too early -----------------------------------------------------------------------------

  /** The handler that may be running returns, and then the bus hands the node `n` more events. */
  function DeliverN(w: Cluster, id: string, n: nat): Cluster {
    if n == 0 then Take(w, Move(id), false)
    else Take(Take(DeliverN(w, id, n - 1), Call(id), false), Move(id), false)
  }

  lemma ReconnectFolds(w: Cluster, id: string)
    requires id in w.nodes && id in w.cursors && InStep(w, id)
    ensures Reconnected(w.nodes[id], w.log) == Node(Fold(w.log), true, |w.log|)
  {
    var n := w.nodes[id];
    ApplyEachFolds(n.(connected := true), w.log[..n.applied], w.log[n.applied..]);
    assert w.log[..n.applied] + w.log[n.applied..] == w.log;
  }

  lemma FoldNext(log: seq<Change>, c: Change)
    ensures Fold(log + [c]) == Bump(Fold(log), c)
  {
    assert (log + [c])[..|log|] == log;
  }

  /** The log with the `k` events from `from` on once more. */
  function Twice(log: seq<Change>, from: nat, k: nat): seq<Change>
    requires from + k <= |log|
  {
    log + log[from..from + k]
  }

  lemma TwiceNext(log: seq<Change>, from: nat, k: nat)
    requires from + k < |log|
    ensures Twice(log, from, k + 1) == Twice(log, from, k) + [log[from + k]]
  {
  }

  /** `w'` is `w` except that node `id` has applied the whole log, and `k` of the undelivered events twice. */
  predicate AppliedTwice(w: Cluster, w': Cluster, id: string, k: nat)
    requires id in w.cursors && Reached(w, id) + k <= |w.log|
  {
    var from := Reached(w, id);
    && w'.log == w.log && id in w'.nodes && id !in w'.served && id in w'.cursors && w'.cursors[id] == from + k
    && w'.nodes[id] == Node(Fold(Twice(w.log, from, k)), true, |w.log| + k)
  }

  lemma OneMore(w: Cluster, u: Cluster, id: string, k: nat)
    requires id in w.cursors && Reached(w, id) + k < |w.log| && AppliedTwice(w, u, id, k)
    ensures AppliedTwice(w, Take(Take(u, Call(id), false), Move(id), false), id, k + 1)
  {
    var from := Reached(w, id);
    TwiceNext(w.log, from, k);
    FoldNext(Twice(w.log, from, k), w.log[from + k]);
  }

  lemma ReconnectOnly(w: Cluster, id: string)
    requires id in w.nodes && id in w.cursors && InStep(w, id)
    ensures AppliedTwice(w, DeliverN(Take(w, Reconnect(id), false), id, 0), id, 0)
  {
    ReconnectFolds(w, id);
    assert Twice(w.log, Reached(w, id), 0) == w.log;
  }

  lemma {:induction false} ThenDelivered(w: Cluster, w0: Cluster, id: string, k: nat)
    requires id in w.cursors && Reached(w, id) + k <= |w.log| && AppliedTwice(w, DeliverN(w0, id, 0), id, 0)
    ensures AppliedTwice(w, DeliverN(w0, id, k), id, k)
  {
    if k > 0 {
      ThenDelivered(w, w0, id, k - 1);
      OneMore(w, DeliverN(w0, id, k - 1), id, k - 1);
    }
  }

  /** A node that reconnects while `k` events are undelivered, and is then given those, has applied each of them
      twice. */
  lemma EarlyReconnect(w: Cluster, id: string, k: nat)
    requires id in w.nodes && id in w.cursors && InStep(w, id) && Reached(w, id) + k <= |w.log|
    ensures AppliedTwice(w, DeliverN(Take(w, Reconnect(id), false), id, k), id, k)
  {
    ReconnectOnly(w, id);
    ThenDelivered(w, Take(w, Reconnect(id), false), id, k);
  }

  function Net(log: seq<Change>, sku: string): int {
    if log == [] then 0
    else Net(log[..|log| - 1], sku) + (if log[|log| - 1].sku == sku then log[|log| - 1].delta else 0)
  }

  lemma {:induction false} QtyIsNet(a: seq<Change>, b: seq<Change>, sku: string)
    ensures Qty(Fold(a + b), sku) == Qty(Fold(a), sku) + Net(b, sku)
  {
    if b == [] {
      assert a + b == a;
    } else {
      QtyIsNet(a, b[..|b| - 1], sku);
      assert (a + b)[..|a + b| - 1] == a + b[..|b| - 1];
    }
  }

  /** So, once caught up, it shows the right quantity of a sku exactly when the undelivered events cancelled out. */
  lemma EarlyReconnectShows(w: Cluster, id: string, sku: string)
    requires id in w.nodes && id in w.cursors && InStep(w, id)
    ensures var from := Reached(w, id);
      var w' := DeliverN(Take(w, Reconnect(id), false), id, |w.log| - from);
      && id in w'.nodes
      && (Qty(w'.nodes[id].stock, sku) == Qty(Fold(w.log), sku) <==> Net(w.log[from..], sku) == 0)
  {
    var from := Reached(w, id);
    EarlyReconnect(w, id, |w.log| - from);
    assert Twice(w.log, from, |w.log| - from) == w.log + w.log[from..];
    QtyIsNet(w.log, w.log[from..], sku);
  }
}
