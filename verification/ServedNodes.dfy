/** From the pools to the request flow: which roles the node selection gives to `ServeHTTP`, and the one
    case in which the archive-hash cache changes an answer. */
module ServedNodes {
  import opened Wrappers
  import opened JsonScan
  import opened BlockContexts
  import opened NodePool
  import P = NodeProtocol
  import L = PoolLists
  import opened NodeSelection
  import opened ArchiveHashCaches
  import opened Serving
  import opened CacheRuns

  // ----- the pools of a chain -----

  /** Every node stands in the list its own source and type name. */
  predicate WellPlaced(p: Pools) {
    && (forall n :: n in p.archive ==> KindOf(n.source, n.nodeType) == Archive)
    && (forall n :: n in p.state ==> KindOf(n.source, n.nodeType) == State)
    && (forall n :: n in p.native ==> KindOf(n.source, n.nodeType) == Native)
  }

  lemma {:induction false} ListedByKey(ns: seq<Info>, n: Info)
    requires UniqueKeys(ns) && n in ns
    ensures n.key in ByKey(ns) && ByKey(ns)[n.key] == n
  {
    if n != ns[0] {
      ListedByKey(ns[1..], n);
    }
  }

  lemma ListPlaced(s: P.LB, lists: Lists, pool: PoolId, n: Info)
    requires P.Reachable(s) && Represents(lists, s.slots) && UniqueKeys(ListAtPool(lists, pool))
    requires n in ListAtPool(lists, pool)
    ensures KindOf(n.source, n.nodeType) == pool.kind
  {
    hide P.Reachable, UniqueKeys, ByKey, KindOf;
    P.NodesArePlaced(s);
    ListedByKey(ListAtPool(lists, pool), n);
    assert Slot(pool, n.key) in s.slots;
  }

  /** In every run the lists of every chain are well placed. */
  lemma ReachablePools(steps: seq<P.Step>, s: P.LB, lists: Lists, chain: string, p: Pools)
    requires L.Leads(P.START, map[], steps, s, lists)
    requires p.archive == ListAtPool(lists, PoolId(Archive, chain))
    requires p.state == ListAtPool(lists, PoolId(State, chain))
    requires p.native == ListAtPool(lists, PoolId(Native, chain))
    ensures WellPlaced(p)
  {
    hide P.Reachable, Represents, UniqueKeys, KindOf, ListAtPool, L.Leads;
    L.ListsRepresentSlots(steps, s, lists);
    forall n | n in p.archive ensures KindOf(n.source, n.nodeType) == Archive {
      ListPlaced(s, lists, PoolId(Archive, chain), n);
    }
    forall n | n in p.state ensures KindOf(n.source, n.nodeType) == State {
      ListPlaced(s, lists, PoolId(State, chain), n);
    }
    forall n | n in p.native ensures KindOf(n.source, n.nodeType) == Native {
      ListPlaced(s, lists, PoolId(Native, chain), n);
    }
  }

  // ----- the roles of chosen nodes -----

  /** The role of a node is that of its own source and type, as the flow reads it. */
  function RoleOf(n: Info): Role {
    match KindOf(n.source, n.nodeType)
    case Archive => ArchiveRole
    case State => StateRole
    case Native => NativeRole
  }

  function RoleOfChoice(chosen: Option<Info>): Option<Role> {
    if chosen.Some? then Some(RoleOf(chosen.value)) else None
  }

  /** `nodes` are choices from these pools, as `GetNode` makes them, and `up` gives their roles. */
  ghost predicate ChoosesFrom(up: Upstream, nodes: (Ask, nat) -> Option<Info>, p: Pools, ctx: Option<BlockContext>) {
    forall ask, n: nat ::
      && Chosen(p, ctx, ask == ForArchive, ask == ForNative, nodes(ask, n))
      && up.pick(ask, n) == RoleOfChoice(nodes(ask, n))
  }

  /** Some picked node is usable. */
  ghost predicate CanChoose(p: Pools, ctx: Option<BlockContext>, ask: Ask) {
    var picked := Picked(p.archive, p.state, p.native, ctx, p.height, ask == ForArchive, ask == ForNative);
    exists n :: n in picked && Usable(p, n)
  }

  /** The pool an unforced request is served from, by its role. */
  function UnforcedRole(p: Pools, ctx: Option<BlockContext>): Role {
    if NeedsArchive(ctx, p.height) then (if p.archive == [] then StateRole else ArchiveRole)
    else (if p.state == [] then ArchiveRole else StateRole)
  }

  /** A choice from well placed pools has the role asked for, and an unforced one the role of the pool the
      decision names; there is a choice exactly when some picked node is usable. */
  lemma ChoiceRole(p: Pools, ctx: Option<BlockContext>, ask: Ask, chosen: Option<Info>)
    requires WellPlaced(p) && Chosen(p, ctx, ask == ForArchive, ask == ForNative, chosen)
    ensures chosen.Some? <==> CanChoose(p, ctx, ask)
    ensures chosen.Some? ==>
              RoleOf(chosen.value) == match ask
                                      case ForArchive => ArchiveRole
                                      case ForNative => NativeRole
                                      case Unforced => UnforcedRole(p, ctx)
  {
    hide Picked, Usable, KindOf, NeedsArchive, IsAvailable;
  }

  /** The choices of the node selection keep to what was asked for, and do not change with the call. */
  lemma SelectionObeys(up: Upstream, nodes: (Ask, nat) -> Option<Info>, p: Pools, ctx: Option<BlockContext>)
    requires WellPlaced(p) && ChoosesFrom(up, nodes, p, ctx)
    ensures Obeys(up)
    ensures forall ask, n: nat, m: nat :: up.pick(ask, n) == up.pick(ask, m)
    ensures forall ask, n: nat :: up.pick(ask, n).Some? <==> CanChoose(p, ctx, ask)
  {
    hide WellPlaced, Chosen, CanChoose, RoleOf, UnforcedRole;
    forall ask, n: nat
      ensures up.pick(ask, n) == if !CanChoose(p, ctx, ask) then None
                                 else Some(match ask
                                           case ForArchive => ArchiveRole
                                           case ForNative => NativeRole
                                           case Unforced => UnforcedRole(p, ctx))
    {
      ChoiceRole(p, ctx, ask, nodes(ask, n));
    }
    UnforcedIsNotNative(p, ctx);
  }

  lemma UnforcedIsNotNative(p: Pools, ctx: Option<BlockContext>)
    ensures UnforcedRole(p, ctx) != NativeRole
  {
  }

  // ----- the case in which the cache changes an answer -----

  /** The reader finds a missed block in one body and neither code in the other. */
  ghost predicate Tells(rd: Reader, missed: Text, served: Text) {
    && STATE_BLOCK_NOT_FOUND in CodesOf(rd, missed)
    && STATE_BLOCK_NOT_FOUND !in CodesOf(rd, served) && INVALID_BLOCK_ID !in CodesOf(rd, served)
  }

  /** Nodes chosen from a one-node state pool of the given weight beside a usable archive node. */
  function NodesOf(s: Info, a: Info, usable: bool): (Ask, nat) -> Option<Info> {
    (ask: Ask, n: nat) => match ask
      case ForArchive => Some(a)
      case ForNative => None
      case Unforced => if usable then Some(s) else None
  }

  function PoolsOf(s: Info, a: Info, usable: bool): Pools {
    Pools([a], [s], [], None, None, if usable then map[] else map[s.key := 0])
  }

  /** State nodes answer `missed` and archive nodes `served`. */
  function UpstreamOf(nodes: (Ask, nat) -> Option<Info>, missed: Text, served: Text): Upstream {
    Upstream((ask: Ask, n: nat) => RoleOfChoice(nodes(ask, n)),
             (role: Role, n: nat) => Response(200, if role == StateRole then missed else served),
             (status: int, body: Text) => body)
  }

  lemma PickedOne(x: Info)
    ensures Preferred([x]) == [x]
  {
    assert AvailableOf([x]) == (if IsAvailable(x) then [x] else []) by { assert [x][..0] == []; }
  }

  lemma NodesAreChosen(s: Info, a: Info, usable: bool, ctx: Option<BlockContext>, ask: Ask, n: nat)
    requires s.key != a.key && PinnedHash(ctx).Some?
    ensures Chosen(PoolsOf(s, a, usable), ctx, ask == ForArchive, ask == ForNative, NodesOf(s, a, usable)(ask, n))
  {
    hide Preferred, IsAvailable;
    PickedOne(s);
    PickedOne(a);
    PreferredEmpty([]);
    var p := PoolsOf(s, a, usable);
    assert Picked(p.archive, p.state, p.native, ctx, p.height, ask == ForArchive, ask == ForNative)
        == match ask case ForArchive => [a] case ForNative => [] case Unforced => [s];
    assert Usable(p, a) && (Usable(p, s) <==> usable);
    assert a in [a] && s in [s];
    hide Picked, Usable;
  }

  lemma UpstreamChooses(s: Info, a: Info, usable: bool, ctx: Option<BlockContext>, missed: Text, served: Text)
    requires s.key != a.key && PinnedHash(ctx).Some?
    requires KindOf(s.source, s.nodeType) == State && KindOf(a.source, a.nodeType) == Archive
    ensures var up := UpstreamOf(NodesOf(s, a, usable), missed, served);
            && WellPlaced(PoolsOf(s, a, usable)) && ChoosesFrom(up, NodesOf(s, a, usable), PoolsOf(s, a, usable), ctx)
            && Obeys(up) && Steady(up)
  {
    hide KindOf;
    var up, nodes, p := UpstreamOf(NodesOf(s, a, usable), missed, served), NodesOf(s, a, usable), PoolsOf(s, a, usable);
    forall ask, n: nat
      ensures Chosen(p, ctx, ask == ForArchive, ask == ForNative, nodes(ask, n))
      ensures up.pick(ask, n) == RoleOfChoice(nodes(ask, n))
    {
      NodesAreChosen(s, a, usable, ctx, ask, n);
    }
    hide Chosen, RoleOfChoice;
    SelectionObeys(up, nodes, p, ctx);
  }

  function PinnedTo(chain: string, hash: Text): Request {
    Request(chain, false, false, Some(BlockContext(Some(Hash(hash)), "Equals")))
  }

  /** A request whose block the state node misses and the archive node serves teaches the cache its hash. */
  lemma MissTeaches(rd: Reader, chain: string, hash: Text, missed: Text, served: Text, s: Info, a: Info)
    requires Tells(rd, missed, served)
    requires KindOf(s.source, s.nodeType) == State && KindOf(a.source, a.nodeType) == Archive
    ensures var up := UpstreamOf(NodesOf(s, a, true), missed, served);
            Serve(rd, up, PinnedTo(chain, hash), false).remember == Some(hash)
  {
    hide CodesOf, KindOf;
    var nodes, req := NodesOf(s, a, true), PinnedTo(chain, hash);
    var up := UpstreamOf(nodes, missed, served);
    assert nodes(Unforced, 0) == Some(s) && nodes(ForArchive, 2) == Some(a);
    assert up.pick(Unforced, 0) == Some(StateRole) && up.pick(ForArchive, 2) == Some(ArchiveRole);
    var b := Made(up, ArchiveRole, 1);
    assert Made(up, StateRole, 0) == Attempt(StateRole, 200, missed) && b == Attempt(ArchiveRole, 200, served);
    assert Proven(rd, req, b) == Some(hash);
  }

  lemma OneLook(rd: Reader, req: Request, up: Upstream, hash: Text) returns (steps: seq<Step>, w: World)
    requires Obeys(up) && Learned(rd, Run(req, up, false)) == Some(hash)
    ensures Reaches(rd, EMPTY, steps, w) && w.chains == Added(map[], req.chain, hash)
    ensures w.learned == [Run(req, up, false)]
  {
    hide Learned, Obeys;
    steps := [Look(req, up), Learn(0)];
    var w1 := CacheRuns.Next(rd, EMPTY, steps[0]);
    assert w1.flying == [Run(req, up, false)];
    w := CacheRuns.Next(rd, w1, steps[1]);
    assert steps[1..] == [Learn(0)] && steps[1..][1..] == [];
    assert Reaches(rd, w1, steps[1..], w);
  }

  lemma AlwaysMissed(rd: Reader, chain: string, hash: Text, missed: Text, served: Text, nodes: (Ask,
                     nat) -> Option<Info>)
    requires Tells(rd, missed, served)
    ensures MissesBy(rd, (c, h) => true, PinnedTo(chain, hash), UpstreamOf(nodes, missed, served))
  {
    hide CodesOf;
  }

  /** The exception in `CacheKeepsAnswers` is real. After one request has taught the cache its hash, the
      state node's weight is set to zero; the next request for that hash is answered by the archive node,
      and without the cache it would be told that there is no backend. */
  lemma CacheCanChangeAnswer(rd: Reader, chain: string, hash: Text, missed: Text, served: Text, s: Info, a: Info)
    returns (missing: (string, Text) -> bool, steps: seq<Step>, w: World, req: Request, up: Upstream)
    requires Tells(rd, missed, served) && s.key != a.key
    requires KindOf(s.source, s.nodeType) == State && KindOf(a.source, a.nodeType) == Archive
    ensures Reaches(rd, EMPTY, steps, w) && AllMissBy(rd, missing, w.learned)
    ensures Obeys(up) && Steady(up) && MissesBy(rd, missing, req, up)
    ensures WellPlaced(PoolsOf(s, a, false)) && ChoosesFrom(up, NodesOf(s, a, false), PoolsOf(s, a, false), req.ctx)
    ensures Shortcut(req, Cached(w.chains, req)) && OnlyArchiveUsable(up)
    ensures Serve(rd, up, req, false).result == NoBackend
    ensures Serve(rd, up, req, Cached(w.chains, req)).result != Serve(rd, up, req, false).result
  {
    hide CodesOf, KindOf, Serve, Reaches, MissesBy, ChoosesFrom, Obeys, Steady, WellPlaced, Tells;
    missing, req := (c, h) => true, PinnedTo(chain, hash);
    var before := UpstreamOf(NodesOf(s, a, true), missed, served);
    up := UpstreamOf(NodesOf(s, a, false), missed, served);
    UpstreamChooses(s, a, true, req.ctx, missed, served);
    UpstreamChooses(s, a, false, req.ctx, missed, served);
    MissTeaches(rd, chain, hash, missed, served, s, a);
    steps, w := OneLook(rd, req, before, hash);
    AlwaysMissed(rd, chain, hash, missed, served, NodesOf(s, a, true));
    AlwaysMissed(rd, chain, hash, missed, served, NodesOf(s, a, false));
    CacheKeepsAnswers(rd, missing, steps, w, req, up);
    assert NodesOf(s, a, false)(Unforced, 0) == None && NodesOf(s, a, false)(ForArchive, 0) == Some(a);
    assert up.pick(Unforced, 0) == None && up.pick(ForArchive, 0).Some?;
    NoneWithout(rd, up, req);
  }

  lemma NoneWithout(rd: Reader, up: Upstream, req: Request)
    requires !req.archive && up.pick(Unforced, 0).None?
    ensures Serve(rd, up, req, false).result == NoBackend
  {
    hide ArchiveStage;
  }
}
