/** Editing a chain's gateway in etcd: any number of admin clients read the configuration, edit their copy
    and commit it if the revision is still the one they read (http_handler/handler.go:105-112, 340-371,
    426-464, 546-593, 614-680, 718-746, 788-860). */
module GatewayStore {
  import opened Wrappers
  import opened NodePool
  import opened NodeSelection
  import opened Gateways

  datatype Op =
    | SetNodeWeight(key: string, weight: int)
    | CreateNode(newKey: string, newWeight: int)
    | RemoveNode(oldKey: string)
    | AddRoute(name: string, includes: seq<string>, excludes: seq<string>)
    | RemoveRoute(name: string, includes: seq<string>, excludes: seq<string>)
    | DeleteRoute(name: string)

  /** The edited configuration, or `None` where the handler answers that there is no such route. */
  function Edited(op: Op, c: Config): Option<Config> {
    match op
    case SetNodeWeight(key, weight) => Some(c.(weights := WeightSet(c.weights, key, weight)))
    case CreateNode(key, weight) => Some(c.(weights := WeightSet(c.weights, key, weight)))
    case RemoveNode(key) => Some(Config(WeightSet(c.weights, key, DEFAULT_WEIGHT), Cleared(c.routes, key)))
    case AddRoute(name, inc, exc) => Some(c.(routes := RouteAdded(c.routes, name, inc, exc)))
    case RemoveRoute(name, inc, exc) =>
      var r := RouteRemoved(c.routes, name, inc, exc);
      if r.Some? then Some(c.(routes := r.value)) else None
    case DeleteRoute(name) => if name in c.routes then Some(c.(routes := c.routes - {name})) else None
  }

  /** What an operation does to the node keys in the same transaction. */
  function NodesAfter(op: Op, nodes: set<string>): set<string> {
    match op
    case CreateNode(key, _) => nodes + {key}
    case RemoveNode(key) => nodes - {key}
    case _ => nodes
  }

  /** What is stored under the gateway key. */
  datatype Cell = Absent | Unreadable | Present(config: Config)

  const EMPTY := Config([], map[])

  /** A client between its read and its commit. */
  datatype Pending = Pending(op: Op, base: Config, modRevision: nat)

  /** `modRevision` is that of the gateway key, 0 when it is absent; `revision` is the store's. `history`
      holds what was written to the gateway key since the beginning. */
  datatype World = World(cell: Cell, modRevision: nat, revision: nat, nodes: set<string>,
                         clients: seq<Pending>, history: seq<Entry>)

  datatype Entry = Committed(op: Op) | Written(cell: Cell)

  const START := World(Absent, 0, 0, {}, [], [])

  /** A node created with the default weight leaves the gateway alone, and is a `NodeChange` here.
      `Outside` is a write or deletion of the gateway key by somebody else, `NodeChange` one of a node key. */
  datatype Step =
    | Read(op: Op)
    | Commit(i: nat)
    | Abandon(i: nat)
    | Outside(cell: Cell)
    | NodeChange(nodes: set<string>)

  /** The configuration a client decodes: an absent one is empty. */
  function Decoded(cell: Cell): Option<Config> {
    match cell
    case Absent => Some(EMPTY)
    case Unreadable => None
    case Present(config) => Some(config)
  }

  predicate Enabled(w: World, step: Step) {
    match step
    case Read(op) =>
      && Decoded(w.cell).Some? && Edited(op, Decoded(w.cell).value).Some?
      && (op.CreateNode? ==> op.newWeight != DEFAULT_WEIGHT)
    case Commit(i) => i < |w.clients|
    case Abandon(i) => i < |w.clients|
    case Outside(_) => true
    case NodeChange(_) => true
  }

  /** The transaction's condition. */
  predicate Succeeds(w: World, p: Pending) {
    w.modRevision == p.modRevision && (p.op.CreateNode? ==> p.op.newKey !in w.nodes)
  }

  /** Drops a client. */
  function Leave(clients: seq<Pending>, i: nat): seq<Pending>
    requires i < |clients|
  {
    clients[..i] + clients[i + 1..]
  }

  /** The client's edited copy; a client that has read always has one. */
  function Copy(p: Pending): Config {
    var c := Edited(p.op, p.base);
    if c.Some? then c.value else p.base
  }

  /** A put gives the key the store's new revision; a deletion leaves it absent. */
  function Put(w: World, cell: Cell, entry: Entry): World {
    w.(cell := cell, revision := w.revision + 1, modRevision := if cell == Absent then 0 else w.revision + 1,
       history := w.history + [entry])
  }

  function Next(w: World, step: Step): World
    requires Enabled(w, step)
  {
    match step
    case Read(op) => w.(clients := w.clients + [Pending(op, Decoded(w.cell).value, w.modRevision)])
    case Commit(i) =>
      var p := w.clients[i];
      var v := w.(clients := Leave(w.clients, i));
      if Succeeds(w, p) then Put(v, Present(Copy(p)), Committed(p.op)).(nodes := NodesAfter(p.op, w.nodes)) else v
    case Abandon(i) => w.(clients := Leave(w.clients, i))
    case Outside(cell) => Put(w, cell, Written(cell))
    case NodeChange(nodes) => w.(nodes := nodes, revision := w.revision + 1)
  }

  predicate Reaches(w: World, steps: seq<Step>, v: World)
    decreases |steps|
  {
    if steps == [] then v == w
    else Enabled(w, steps[0]) && Reaches(Next(w, steps[0]), steps[1..], v)
  }

  // ----- serialisability -----

  /** One after the other: every operation edits the configuration the entry before it left. */
  function Replay(history: seq<Entry>): Cell {
    if history == [] then Absent
    else
      var cell := Replay(history[..|history| - 1]);
      match history[|history| - 1]
      case Written(other) => other
      case Committed(op) =>
        if Decoded(cell).Some? && Edited(op, Decoded(cell).value).Some?
        then Present(Edited(op, Decoded(cell).value).value) else Unreadable
  }

  /** A client whose revision is still current holds the current configuration. */
  predicate Current(cell: Cell, modRevision: nat, revision: nat, p: Pending) {
    && p.modRevision <= revision
    && (p.modRevision == modRevision ==> Decoded(cell) == Some(p.base))
    && (p.modRevision == 0 ==> p.base == EMPTY)
    && Edited(p.op, p.base).Some?
  }

  predicate Inv(w: World) {
    && w.modRevision <= w.revision
    && (w.modRevision == 0 <==> w.cell == Absent)
    && w.cell == Replay(w.history)
    && (forall i :: 0 <= i < |w.clients| ==> Current(w.cell, w.modRevision, w.revision, w.clients[i]))
  }

  lemma ReplayMore(history: seq<Entry>, entry: Entry)
    ensures Replay(history + [entry]) ==
            match entry
            case Written(cell) => cell
            case Committed(op) =>
              var before := Decoded(Replay(history));
              if before.Some? && Edited(op, before.value).Some? then Present(Edited(op, before.value).value)
              else Unreadable
  {
    assert (history + [entry])[..|history|] == history;
  }

  lemma PutKeeps(w: World, cell: Cell, entry: Entry)
    requires Inv(w)
    requires match entry
             case Written(c) => c == cell
             case Committed(op) =>
               Decoded(w.cell).Some? && Edited(op, Decoded(w.cell).value) == Decoded(cell) && cell.Present?
    ensures Inv(Put(w, cell, entry))
  {
    hide Edited, Replay;
    ReplayMore(w.history, entry);
  }

  lemma InvStep(w: World, step: Step)
    requires Inv(w) && Enabled(w, step)
    ensures Inv(Next(w, step))
  {
    hide Edited, Replay;
    match step
    case Commit(i) =>
      var p := w.clients[i];
      var v := w.(clients := Leave(w.clients, i));
      assert Current(w.cell, w.modRevision, w.revision, p);
      if Succeeds(w, p) {
        PutKeeps(v, Present(Copy(p)), Committed(p.op));
      }
    case Outside(cell) => PutKeeps(w, cell, Written(cell));
    case _ =>
  }

  lemma {:induction false} InvReached(w: World, steps: seq<Step>, v: World)
    requires Inv(w) && Reaches(w, steps, v)
    ensures Inv(v)
    decreases |steps|
  {
    hide Inv, Enabled, Next;
    if steps != [] {
      InvStep(w, steps[0]);
      InvReached(Next(w, steps[0]), steps[1..], v);
    }
  }

  lemma StartSerial()
    ensures Inv(START)
  {
  }

  /** In every run of any number of clients, with outside writes and deletions of the key, the stored
      configuration is the result of the committed operations one after the other. */
  lemma AlwaysSerial(steps: seq<Step>, w: World)
    requires Reaches(START, steps, w)
    ensures w.cell == Replay(w.history)
  {
    hide Replay, Reaches;
    StartSerial();
    InvReached(START, steps, w);
  }

  /** In every such run a commit that succeeds applies its operation to exactly the configuration stored at
      that moment. */
  lemma CommitsAreSerial(steps: seq<Step>, w: World, i: nat)
    requires Reaches(START, steps, w) && i < |w.clients| && Succeeds(w, w.clients[i])
    ensures Decoded(w.cell).Some? && Decoded(w.cell) == Decoded(Replay(w.history))
    ensures Edited(w.clients[i].op, Decoded(w.cell).value).Some?
    ensures Next(w, Commit(i)).cell == Present(Edited(w.clients[i].op, Decoded(w.cell).value).value)
  {
    hide Edited, Replay, Reaches;
    StartSerial();
    InvReached(START, steps, w);
    assert Current(w.cell, w.modRevision, w.revision, w.clients[i]);
  }

  // ----- what the operations keep -----

  ghost predicate Tidy(cell: Cell) {
    cell.Present? ==> UniqueWeights(cell.config.weights)
  }

  lemma EditedTidy(op: Op, c: Config)
    requires UniqueWeights(c.weights) && Edited(op, c).Some?
    ensures UniqueWeights(Edited(op, c).value.weights)
  {
    hide WeightSet, UniqueWeights, Cleared, RouteAdded, RouteRemoved;
    match op
    case SetNodeWeight(key, weight) => SetWeightUpdates(c.weights, key, weight);
    case CreateNode(key, weight) => SetWeightUpdates(c.weights, key, weight);
    case RemoveNode(key) => SetWeightUpdates(c.weights, key, DEFAULT_WEIGHT);
    case _ =>
  }

  /** What the weight operations mean: one node's effective weight, and no route, changes; a deleted node
      has the default weight. */
  lemma WeightOpsMean(op: Op, c: Config, k: string)
    requires UniqueWeights(c.weights) && (op.SetNodeWeight? || op.CreateNode? || op.RemoveNode?)
    ensures Edited(op, c).Some?
    ensures var after := Edited(op, c).value;
            Effective(after.weights, k) == match op
                                           case SetNodeWeight(key, w) => if k == key then w else Effective(c.weights, k)
                                           case CreateNode(key, w) => if k == key then w else Effective(c.weights, k)
                                           case RemoveNode(key) => if k == key then 100 else Effective(c.weights, k)
                                           case _ => 0
    ensures !op.RemoveNode? ==> Edited(op, c).value.routes == c.routes
    ensures op.RemoveNode? ==> Edited(op, c).value.routes == Cleared(c.routes, op.oldKey)
  {
    hide WeightSet, Effective, UniqueWeights, Cleared;
    match op
    case SetNodeWeight(key, w) => SetWeightUpdates(c.weights, key, w);
    case CreateNode(key, w) => SetWeightUpdates(c.weights, key, w);
    case RemoveNode(key) => SetWeightUpdates(c.weights, key, DEFAULT_WEIGHT);
  }

  /** What the route operations mean: no weight changes, nor the route of another method; removing needs a
      route; a deleted route lets every node through. */
  lemma RouteOpsMean(op: Op, c: Config, other: string, n: Info)
    requires op.AddRoute? || op.RemoveRoute? || op.DeleteRoute?
    ensures Edited(op, c).Some? <==> op.AddRoute? || op.name in c.routes
    ensures Edited(op, c).Some? ==>
              var after := Edited(op, c).value;
              && after.weights == c.weights
              && (other != op.name ==> RouteOf(after.routes, other) == RouteOf(c.routes, other))
              && (op.AddRoute? ==> after.routes == RouteAdded(c.routes, op.name, op.includes, op.excludes))
              && (op.RemoveRoute? ==> Some(after.routes) == RouteRemoved(c.routes, op.name, op.includes, op.excludes))
              && (op.DeleteRoute? ==> Passes(RouteOf(after.routes, op.name), n))
  {
    hide RouteAdded, RouteRemoved, Passes;
    match op
    case AddRoute(name, inc, exc) => AddedRouting(c.routes, name, inc, exc, other, n);
    case RemoveRoute(name, inc, exc) => RemovedRouting(c.routes, name, inc, exc, other, n);
    case DeleteRoute(name) => NoRoutePasses(n);
  }

  lemma NoRoutePasses(n: Info)
    ensures Passes(None, n)
  {
  }

  /** A client that commits before anybody else has written succeeds, unless it creates a node that is
      there; the transaction does to the node keys what the operation says. */
  lemma UndisturbedCommits(steps: seq<Step>, w: World, op: Op)
    requires Reaches(START, steps, w) && Enabled(w, Read(op)) && (op.CreateNode? ==> op.newKey !in w.nodes)
    ensures var v, i := Next(w, Read(op)), |w.clients|;
            && i < |v.clients| && Succeeds(v, v.clients[i])
            && Next(v, Commit(i)).cell == Present(Edited(op, Decoded(w.cell).value).value)
            && Next(v, Commit(i)).nodes == (if op.CreateNode? then w.nodes + {op.newKey}
                                            else if op.RemoveNode? then w.nodes - {op.oldKey} else w.nodes)
  {
    hide Edited, Replay, Reaches;
  }

  /** A gateway that is not stored yet is edited from the empty configuration; an unreadable one cannot be
      edited. */
  lemma FirstEdit(w: World, key: string, weight: int)
    requires weight != 100
    ensures w.cell == Absent ==> Enabled(w, Read(SetNodeWeight(key, weight)))
    ensures w.cell == Absent ==>
              Edited(SetNodeWeight(key, weight), Decoded(w.cell).value)
              == Some(Config([WeightInfo(key, weight)], map[]))
    ensures w.cell == Unreadable ==> !Enabled(w, Read(SetNodeWeight(key, weight)))
  {
    assert [] + [WeightInfo(key, weight)] == [WeightInfo(key, weight)];
  }

  /** A commit that does not succeed changes nothing. */
  lemma FailedCommits(w: World, i: nat)
    requires i < |w.clients| && !Succeeds(w, w.clients[i])
    ensures Next(w, Commit(i)) == w.(clients := Leave(w.clients, i))
    ensures w.modRevision != w.clients[i].modRevision
            || (w.clients[i].op.CreateNode? && w.clients[i].op.newKey in w.nodes)
  {
  }

  /** If outside writes have unique keys, so has every configuration the clients commit. */
  lemma {:induction false} HistoryTidy(history: seq<Entry>)
    requires forall i :: 0 <= i < |history| && history[i].Written? ==> Tidy(history[i].cell)
    ensures Tidy(Replay(history))
  {
    hide Edited, UniqueWeights;
    if history != [] {
      var init := history[..|history| - 1];
      HistoryTidy(init);
      var last := history[|history| - 1];
      var before := Decoded(Replay(init));
      if last.Committed? && before.Some? && Edited(last.op, before.value).Some? {
        EmptyUnique();
        EditedTidy(last.op, before.value);
      }
    }
  }

  lemma EmptyUnique()
    ensures UniqueWeights(EMPTY.weights)
  {
  }

  /** Deleting a node takes its key, its weight and its place in every route in one commit. */
  lemma RemoveNodeForgets(steps: seq<Step>, w: World, i: nat, key: string)
    requires Reaches(START, steps, w)
    requires i < |w.clients| && w.clients[i].op == RemoveNode(key) && Succeeds(w, w.clients[i])
    requires forall j :: 0 <= j < |w.history| && w.history[j].Written? ==> Tidy(w.history[j].cell)
    ensures var v := Next(w, Commit(i));
            && v.cell.Present? && key !in v.nodes
            && Effective(v.cell.config.weights, key) == DEFAULT_WEIGHT
            && (forall name :: name in v.cell.config.routes ==>
                  key !in v.cell.config.routes[name].includeKeys && key !in v.cell.config.routes[name].excludeKeys)
  {
    hide WeightSet, Effective, UniqueWeights, Replay, Reaches, Cleared;
    CommitsAreSerial(steps, w, i);
    HistoryTidy(w.history);
    EmptyUnique();
    var c := Decoded(w.cell).value;
    SetWeightUpdates(c.weights, key, DEFAULT_WEIGHT);
    forall name | name in Cleared(c.routes, key)
      ensures key !in Cleared(c.routes, key)[name].includeKeys && key !in Cleared(c.routes, key)[name].excludeKeys
    {
      ClearedForgets(c.routes, key, name);
    }
  }
}
