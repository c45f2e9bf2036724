/** Choosing a node: the pool decision of utils/pick_nodes.go, the method routes of
    lb/jsonrpc/gateway_map.go and the weighted draw of lb/selector/random/random.go.

    A pool slice is an array: the shortcut of `PickNodes` compares the identity of two slices. */
module NodeSelection {
  import opened Wrappers
  import opened NodePool
  import opened BlockContexts

  // ----- availability -----

  predicate IsAvailable(n: Info) {
    n.state == STATE_AVAILABLE
  }

  function AvailableOf(ns: seq<Info>): (r: seq<Info>)
    ensures forall x :: x in r <==> x in ns && IsAvailable(x)
  {
    if ns == [] then []
    else AvailableOf(ns[..|ns| - 1]) + (if IsAvailable(ns[|ns| - 1]) then [ns[|ns| - 1]] else [])
  }

  function Preferred(ns: seq<Info>): seq<Info> {
    if AvailableOf(ns) == [] then ns else AvailableOf(ns)
  }

  lemma {:induction false} AllAvailable(ns: seq<Info>)
    requires forall i :: 0 <= i < |ns| ==> IsAvailable(ns[i])
    ensures AvailableOf(ns) == ns
  {
    hide IsAvailable;
    if ns != [] {
      var n := |ns| - 1;
      assert AvailableOf(ns) == AvailableOf(ns[..n]) + [ns[n]];
      hide AvailableOf;
      AllAvailable(ns[..n]);
      assert ns == ns[..n] + [ns[n]];
    }
  }

  /** `preferAvailableNodes`: the input slice itself unless some but not all nodes are available. */
  method PreferAvailable(nodes: array<Info>) returns (r: array<Info>)
    ensures r[..] == Preferred(nodes[..]) && (r == nodes || fresh(r))
  {
    if nodes.Length == 0 {
      return nodes;
    }
    var allAvailable := true;
    for i := 0 to nodes.Length
      invariant allAvailable ==> forall j :: 0 <= j < i ==> IsAvailable(nodes[j])
    {
      if !IsAvailable(nodes[i]) {
        allAvailable := false;
        break;
      }
    }
    if allAvailable {
      assert nodes[..nodes.Length] == nodes[..];
      AllAvailable(nodes[..]);
      return nodes;
    }
    var available := [];
    for i := 0 to nodes.Length
      invariant available == AvailableOf(nodes[..i])
    {
      assert nodes[..i + 1][..i] == nodes[..i];
      if IsAvailable(nodes[i]) {
        available := available + [nodes[i]];
      }
    }
    assert nodes[..nodes.Length] == nodes[..];
    if |available| > 0 {
      r := new Info[|available|](i requires 0 <= i < |available| => available[i]);
      assert r[..] == available;
      return r;
    }
    return nodes;
  }

  // ----- state or archive -----

  /** Must the request go to archive nodes? Only if it is pinned with "Equals" to a numbered block that is
      not among the latest 64, or whose distance from the head is unknown. */
  predicate NeedsArchive(ctx: Option<BlockContext>, height: Option<int>) {
    && ctx.Some? && ctx.value.kind == "Equals" && ctx.value.blockId.Some? && ctx.value.blockId.value.Number?
    && var n := ctx.value.blockId.value.n;
       n != LATEST && n != PENDING && (height.None? || n < height.value - 64)
  }

  /** The decision with every input at hand. */
  function Picked(archive: seq<Info>, state: seq<Info>, native: seq<Info>, ctx: Option<BlockContext>,
                  height: Option<int>, forceArchive: bool, forceNative: bool): seq<Info>
  {
    var a, s, n := Preferred(archive), Preferred(state), Preferred(native);
    if forceNative then n
    else if forceArchive then a
    else if NeedsArchive(ctx, height) then (if a == [] then s else a)
    else (if s == [] then a else s)
  }

  /** `PickNodes`. `ctx` is what the block context getter would return; `asked` tells whether the getter
      was called. */
  method PickNodes(ctx: Option<BlockContext>, height: Option<int>, archive: array<Info>, state: array<Info>,
                   native: array<Info>,
                   forceArchive: bool, forceNative: bool)
    returns (nodes: array<Info>, asked: bool)
    ensures nodes[..] == Picked(archive[..], state[..], native[..], ctx, height, forceArchive, forceNative)
    ensures forceArchive || forceNative || archive.Length == 0 || state.Length == 0 ==> !asked
  {
    hide Preferred, AvailableOf;
    PreferredEmpty(archive[..]);
    PreferredEmpty(state[..]);
    var archiveNodes := PreferAvailable(archive);
    var stateNodes := PreferAvailable(state);
    var nativeNodes := PreferAvailable(native);
    asked := false;
    if forceNative {
      return nativeNodes, false;
    }
    if forceArchive {
      return archiveNodes, false;
    }
    if stateNodes.Length == 0 {
      stateNodes := archiveNodes;
    }
    if archiveNodes.Length == 0 {
      archiveNodes := stateNodes;
    }
    if stateNodes.Length == archiveNodes.Length && (stateNodes.Length == 0 || stateNodes == archiveNodes) {
      return stateNodes, false;
    }
    asked := true;
    if ctx.None? || ctx.value.kind != "Equals" || ctx.value.blockId.None? || !ctx.value.blockId.value.Number? {
      return stateNodes, true;
    }
    var n := ctx.value.blockId.value.n;
    if n == LATEST || n == PENDING {
      return stateNodes, true;
    }
    if height.None? {
      return archiveNodes, true;
    }
    if n >= height.value - 64 {
      return stateNodes, true;
    }
    return archiveNodes, true;
  }

  lemma PreferredEmpty(ns: seq<Info>)
    ensures Preferred(ns) == [] <==> ns == []
    ensures forall x :: x in Preferred(ns) ==> x in ns
    ensures forall x :: x in Preferred(ns) && !IsAvailable(x) ==> forall y :: y in ns ==> !IsAvailable(y)
    ensures forall x :: x in ns && IsAvailable(x) ==> x in Preferred(ns)
    ensures (forall x :: x in ns ==> !IsAvailable(x)) ==> Preferred(ns) == ns
  {
    if AvailableOf(ns) != [] {
      assert AvailableOf(ns)[0] in AvailableOf(ns);
    }
  }

  /** An unforced pick finds a node whenever the state or archive pool has one. A pick holds exactly the
      available nodes of one pool, those with state 1, or the whole pool when it has none. */
  lemma PickedSound(archive: seq<Info>, state: seq<Info>, native: seq<Info>, ctx: Option<BlockContext>,
                    height: Option<int>, forceArchive: bool, forceNative: bool)
    ensures var p := Picked(archive, state, native, ctx, height, forceArchive, forceNative);
            var pool := PoolUsed(archive, state, native, ctx, height, forceArchive, forceNative);
            && (!forceArchive && !forceNative ==> (p != [] <==> archive != [] || state != []))
            && ((exists x :: x in pool && x.state == 1) ==> forall x :: x in p <==> x in pool && x.state == 1)
            && ((forall x :: x in pool ==> x.state != 1) ==> p == pool)
  {
    hide Preferred;
    PreferredEmpty(archive);
    PreferredEmpty(state);
    PreferredEmpty(native);
  }

  function PoolUsed(archive: seq<Info>, state: seq<Info>, native: seq<Info>, ctx: Option<BlockContext>,
                    height: Option<int>, forceArchive: bool, forceNative: bool): seq<Info>
  {
    if forceNative then native
    else if forceArchive then archive
    else if NeedsArchive(ctx, height) then (if archive == [] then state else archive)
    else (if state == [] then archive else state)
  }

  /** Which pool an unforced request gets, for every context: with nodes in both pools, the archive nodes
      exactly when the context pins a block number with "Equals", that number is neither the latest nor the
      pending tag, and it lies below height minus 64 or the height is unknown. */
  lemma PickRule(archive: seq<Info>, state: seq<Info>, native: seq<Info>, ctx: Option<BlockContext>,
                 height: Option<int>)
    requires archive != [] && state != []
    ensures Picked(archive, state, native, ctx, height, false, false)
         == if && ctx.Some? && ctx.value.kind == "Equals" && ctx.value.blockId.Some? && ctx.value.blockId.value.Number?
               && ctx.value.blockId.value.n != -2 && ctx.value.blockId.value.n != -1
               && (height.None? || ctx.value.blockId.value.n < height.value - 64)
            then Preferred(archive) else Preferred(state)
  {
    hide Preferred;
    PreferredEmpty(archive);
    PreferredEmpty(state);
  }

  /** Forced picks, and picks with one empty pool, do not depend on the context. */
  lemma ForcedRule(archive: seq<Info>, state: seq<Info>, native: seq<Info>, ctx: Option<BlockContext>,
                   height: Option<int>, forceArchive: bool)
    ensures Picked(archive, state, native, ctx, height, forceArchive, true) == Preferred(native)
    ensures Picked(archive, state, native, ctx, height, true, false) == Preferred(archive)
    ensures Picked([], state, native, ctx, height, false, false) == Preferred(state)
    ensures Picked(archive, [], native, ctx, height, false, false) == Preferred(archive)
  {
    hide Preferred;
    PreferredEmpty([]);
  }

  function AtBlock(n: nat): Option<BlockContext> {
    Some(BlockContext(Some(Number(n)), "Equals"))
  }

  /** The pick is monotone in the block number: with nodes in both pools, there is one boundary below which
      the archive nodes are picked and from which on the state nodes are, for all blocks alike. Without a
      known height the archive nodes are picked for every block. */
  lemma PickIsMonotone(archive: seq<Info>, state: seq<Info>, native: seq<Info>, height: Option<int>, m: nat, n: nat)
    requires archive != [] && state != [] && m <= n
    ensures var low, high := Picked(archive, state, native, AtBlock(m), height, false, false),
                             Picked(archive, state, native, AtBlock(n), height, false, false);
            && low in {Preferred(archive), Preferred(state)} && high in {Preferred(archive), Preferred(state)}
            && (high == Preferred(archive) != Preferred(state) ==> low == Preferred(archive))
            && (low == Preferred(state) != Preferred(archive) ==> high == Preferred(state))
            && (height.None? ==> low == high == Preferred(archive))
            && (height.Some? ==> low == if m < height.value - 64 then Preferred(archive) else Preferred(state))
  {
    hide Preferred;
    PreferredEmpty(archive);
    PreferredEmpty(state);
  }

  // ----- method routes -----

  datatype MethodRoute = MethodRoute(includeKeys: map<string, bool>, excludeKeys: map<string, bool>)

  predicate Marked(keys: map<string, bool>, key: string) {
    key in keys && keys[key]
  }

  /** Does the route let the node serve the method? */
  predicate Passes(route: Option<MethodRoute>, n: Info) {
    route.Some? ==>
      if |route.value.includeKeys| > 0 then Marked(route.value.includeKeys, n.key)
      else !Marked(route.value.excludeKeys, n.key)
  }

  function Routed(route: Option<MethodRoute>, ns: seq<Info>): seq<Info> {
    if ns == [] then []
    else Routed(route, ns[..|ns| - 1]) + (if Passes(route, ns[|ns| - 1]) then [ns[|ns| - 1]] else [])
  }

  lemma {:induction false} RoutedPasses(route: Option<MethodRoute>, ns: seq<Info>, x: Info)
    ensures x in Routed(route, ns) <==> x in ns && Passes(route, x)
  {
    if ns != [] {
      var n := |ns| - 1;
      RoutedPasses(route, ns[..n], x);
      assert ns == ns[..n] + [ns[n]];
    }
  }

  /** A node is let through exactly when there is no route, or it is marked as included, or nobody is
      included and it is not marked as excluded. */
  lemma RoutedIn(route: Option<MethodRoute>, ns: seq<Info>, x: Info)
    ensures x in Routed(route, ns) <==>
              && x in ns
              && (route.Some? ==>
                    var inc, exc := route.value.includeKeys, route.value.excludeKeys;
                    || (x.key in inc && inc[x.key])
                    || (inc == map[] && !(x.key in exc && exc[x.key])))
  {
    RoutedPasses(route, ns, x);
  }

  lemma {:induction false} RoutedAll(route: Option<MethodRoute>, ns: seq<Info>)
    requires forall i :: 0 <= i < |ns| ==> Passes(route, ns[i])
    ensures Routed(route, ns) == ns
  {
    hide Passes;
    if ns != [] {
      var n := |ns| - 1;
      RoutedAll(route, ns[..n]);
      assert ns == ns[..n] + [ns[n]];
    }
  }

  /** `FilterNodesByMethod` and `applyMethodRoutes`; `route` is the method's route, if it has one. */
  method FilterNodes(route: Option<MethodRoute>, nodes: seq<Info>) returns (r: seq<Info>)
    ensures r == Routed(route, nodes)
  {
    if route.None? || (|route.value.includeKeys| == 0 && |route.value.excludeKeys| == 0) {
      RoutedAll(route, nodes);
      return nodes;
    }
    r := [];
    for i := 0 to |nodes|
      invariant r == Routed(route, nodes[..i])
    {
      assert nodes[..i + 1][..i] == nodes[..i];
      if |route.value.includeKeys| > 0 {
        if Marked(route.value.includeKeys, nodes[i].key) {
          r := r + [nodes[i]];
        }
      } else if !Marked(route.value.excludeKeys, nodes[i].key) {
        r := r + [nodes[i]];
      }
    }
    assert nodes[..|nodes|] == nodes;
  }

  // ----- the weighted draw -----

  const DEFAULT_WEIGHT := 100

  function WeightOf(weights: map<string, int>, key: string): int {
    if key in weights then weights[key] else DEFAULT_WEIGHT
  }

  function WeightsOf(weights: map<string, int>, ns: seq<Info>): (ws: seq<int>)
    ensures |ws| == |ns| && forall i :: 0 <= i < |ns| ==> ws[i] == WeightOf(weights, ns[i].key)
  {
    seq(|ns|, i requires 0 <= i < |ns| => WeightOf(weights, ns[i].key))
  }

  predicate NonNegative(ws: seq<int>) {
    forall i :: 0 <= i < |ws| ==> ws[i] >= 0
  }

  function Sum(ws: seq<int>): int {
    if ws == [] then 0 else ws[0] + Sum(ws[1..])
  }

  /** The sum of the weights before position `i`. */
  function Before(ws: seq<int>, i: nat): int
    requires i <= |ws|
  {
    if i == 0 then 0 else ws[0] + Before(ws[1..], i - 1)
  }

  lemma {:induction false} BeforeNext(ws: seq<int>, i: nat)
    requires i < |ws|
    ensures Before(ws, i + 1) == Before(ws, i) + ws[i]
  {
    if i > 0 {
      BeforeNext(ws[1..], i - 1);
    }
  }

  lemma {:induction false} BeforeAll(ws: seq<int>)
    ensures Before(ws, |ws|) == Sum(ws)
  {
    if ws != [] {
      BeforeAll(ws[1..]);
    }
  }

  lemma {:induction false} BeforeGrows(ws: seq<int>, i: nat, j: nat)
    requires NonNegative(ws) && i <= j <= |ws|
    ensures 0 <= Before(ws, i) <= Before(ws, j)
    decreases j
  {
    if i < j {
      BeforeNext(ws, j - 1);
      BeforeGrows(ws, i, j - 1);
    } else if i > 0 {
      BeforeNext(ws, i - 1);
      BeforeGrows(ws, i - 1, i - 1);
    }
  }

  /** Node `i` is selected by the draws of its own half-open range. */
  predicate Selects(ws: seq<int>, draw: int, i: nat) {
    i < |ws| && Before(ws, i) <= draw < Before(ws, i) + ws[i]
  }

  /** A source of draws: below every positive bound it gives some number. */
  ghost predicate Draws(random: nat -> nat) {
    forall n: nat :: n > 0 ==> random(n) < n
  }

  /** `GetNode` from the picked nodes on: route filter, weight sum and draw. */
  method DrawNode(nodes: seq<Info>, route: Option<MethodRoute>, weights: map<string, int>, random: nat -> nat)
    returns (chosen: Option<Info>, index: nat)
    requires NonNegative(WeightsOf(weights, Routed(route, nodes))) && Draws(random)
    ensures var ns := Routed(route, nodes); var ws := WeightsOf(weights, ns);
            && (chosen.Some? <==> Sum(ws) > 0)
            && (chosen.Some? ==> Selects(ws, random(Sum(ws)), index) && chosen.value == ns[index])
  {
    var ns := FilterNodes(route, nodes);
    ghost var ws := WeightsOf(weights, ns);
    BeforeAll(ws);
    if |ns| == 0 {
      return None, 0;
    }
    var weightSum := 0;
    for i := 0 to |ns|
      invariant weightSum == Before(ws, i)
    {
      BeforeNext(ws, i);
      weightSum := weightSum + WeightOf(weights, ns[i].key);
    }
    BeforeGrows(ws, 0, |ws|);
    if weightSum == 0 {
      return None, 0;
    }
    var draw := random(weightSum);
    var curWeight := 0;
    for i := 0 to |ns|
      invariant curWeight == Before(ws, i) <= draw
    {
      BeforeNext(ws, i);
      curWeight := curWeight + WeightOf(weights, ns[i].key);
      if curWeight > draw {
        return Some(ns[i]), i;
      }
    }
    assert false;
  }

  /** Every draw selects exactly one node. */
  lemma DrawSelectsOne(ws: seq<int>, draw: int, i: nat, j: nat)
    requires NonNegative(ws) && Selects(ws, draw, i) && Selects(ws, draw, j)
    ensures i == j
  {
    if i < j {
      BeforeNext(ws, i);
      BeforeGrows(ws, i + 1, j);
    } else if j < i {
      BeforeNext(ws, j);
      BeforeGrows(ws, j + 1, i);
    }
  }

  /** The number of draws that select node `i` is exactly its weight; a zero-weight node is never drawn. */
  lemma DrawsPerNode(ws: seq<int>, i: nat)
    requires NonNegative(ws) && i < |ws|
    ensures |(set d | 0 <= d < Sum(ws) && Selects(ws, d, i))| == ws[i]
  {
    BeforeAll(ws);
    BeforeNext(ws, i);
    BeforeGrows(ws, 0, i);
    BeforeGrows(ws, i + 1, |ws|);
    var lo := Before(ws, i);
    IntervalSize(lo, lo + ws[i]);
    assert (set d | 0 <= d < Sum(ws) && Selects(ws, d, i)) == Interval(lo, lo + ws[i]);
  }

  predicate Within(lo: int, d: int, hi: int) {
    lo <= d < hi
  }

  function Interval(lo: int, hi: int): set<int> {
    set d | lo <= d < hi && Within(lo, d, hi)
  }

  lemma {:induction false} IntervalSize(lo: int, hi: int)
    requires lo <= hi
    ensures |Interval(lo, hi)| == hi - lo
    decreases hi - lo
  {
    if lo < hi {
      IntervalSize(lo, hi - 1);
      assert Interval(lo, hi) == Interval(lo, hi - 1) + {hi - 1};
    } else {
      assert Interval(lo, hi) == {};
    }
  }

  /** The pools, height, route and weights a request is chosen from. */
  datatype Pools = Pools(archive: seq<Info>, state: seq<Info>, native: seq<Info>, height: Option<int>,
                         route: Option<MethodRoute>, weights: map<string, int>)

  predicate Usable(p: Pools, n: Info) {
    Passes(p.route, n) && WeightOf(p.weights, n.key) != 0
  }

  /** A node is usable when the route lets it through and no weight of zero is set for it. */
  lemma UsableIs(p: Pools, n: Info)
    ensures Usable(p, n) <==> n in Routed(p.route, [n]) && !(n.key in p.weights && p.weights[n.key] == 0)
  {
    RoutedPasses(p.route, [n], n);
  }

  /** What a choice from the pools is: a usable node of the one pool the decision names, unavailable only if
      that whole pool is; and none exactly when no picked node is usable. */
  ghost predicate Chosen(p: Pools, ctx: Option<BlockContext>, forceArchive: bool, forceNative: bool,
                         chosen: Option<Info>) {
    var picked := Picked(p.archive, p.state, p.native, ctx, p.height, forceArchive, forceNative);
    var pool := PoolUsed(p.archive, p.state, p.native, ctx, p.height, forceArchive, forceNative);
    && (chosen.Some? ==>
          && chosen.value in picked && chosen.value in pool && Usable(p, chosen.value)
          && (!IsAvailable(chosen.value) ==> forall y :: y in pool ==> !IsAvailable(y)))
    && (chosen.None? <==> forall x :: x in picked ==> !Usable(p, x))
  }

  /** A draw over the routed picked nodes is a choice. */
  lemma DrawIsChoice(p: Pools, ctx: Option<BlockContext>, forceArchive: bool, forceNative: bool, draw: int,
                     chosen: Option<Info>, index: nat)
    requires var ns := Routed(p.route, Picked(p.archive, p.state, p.native, ctx, p.height, forceArchive, forceNative));
             var ws := WeightsOf(p.weights, ns);
             && NonNegative(ws) && (chosen.Some? <==> Sum(ws) > 0)
             && (chosen.Some? ==> Selects(ws, draw, index) && chosen.value == ns[index])
    ensures Chosen(p, ctx, forceArchive, forceNative, chosen)
  {
    hide Picked, PoolUsed, Sum, Before, Passes, Routed;
    var picked := Picked(p.archive, p.state, p.native, ctx, p.height, forceArchive, forceNative);
    var ns := Routed(p.route, picked);
    var ws := WeightsOf(p.weights, ns);
    PickedSound(p.archive, p.state, p.native, ctx, p.height, forceArchive, forceNative);
    SumZero(ws);
    if chosen.Some? {
      assert ns[index] in ns && ws[index] > 0;
      RoutedPasses(p.route, picked, chosen.value);
      var i :| 0 <= i < |picked| && picked[i] == chosen.value;
      assert Usable(p, picked[i]);
    } else {
      forall x | x in picked ensures !Usable(p, x) {
        RoutedPasses(p.route, picked, x);
        if x in ns {
          var i :| 0 <= i < |ns| && ns[i] == x;
          assert ws[i] == 0;
        }
      }
    }
  }

  /** `GetNode`. */
  method GetNode(ctx: Option<BlockContext>, height: Option<int>, archive: array<Info>, state: array<Info>,
                 native: array<Info>, forceArchive: bool, forceNative: bool, route: Option<MethodRoute>,
                 weights: map<string, int>, random: nat -> nat)
    returns (chosen: Option<Info>)
    requires Draws(random) && forall key :: key in weights ==> weights[key] >= 0
    ensures var p := Pools(archive[..], state[..], native[..], height, route, weights);
            Chosen(p, ctx, forceArchive, forceNative, chosen)
  {
    hide Picked, Chosen, Sum, Before, Passes, Routed, Selects;
    var nodes, _ := PickNodes(ctx, height, archive, state, native, forceArchive, forceNative);
    var index;
    chosen, index := DrawNode(nodes[..], route, weights, random);
    ghost var p := Pools(archive[..], state[..], native[..], height, route, weights);
    ghost var total := Sum(WeightsOf(weights, Routed(route, nodes[..])));
    DrawIsChoice(p, ctx, forceArchive, forceNative, if total > 0 then random(total) else 0, chosen, index);
  }

  lemma {:induction false} SumZero(ws: seq<int>)
    requires NonNegative(ws)
    ensures Sum(ws) >= 0
    ensures Sum(ws) == 0 ==> forall i :: 0 <= i < |ws| ==> ws[i] == 0
  {
    if ws != [] {
      SumZero(ws[1..]);
    }
  }
}
