/** Gateway configurations: the edits of discovery/discovery.go:42-88 and http_handler/handler.go, and what
    the balancer makes of them (lb/jsonrpc/gateway_map.go:90-106). */
module Gateways {
  import opened Wrappers
  import opened NodePool
  import opened NodeSelection

  datatype WeightInfo = WeightInfo(nodeKey: string, weight: int)

  type Weights = seq<WeightInfo>
  type Routes = map<string, MethodRoute>

  datatype Config = Config(weights: Weights, routes: Routes)

  // ----- weights -----

  /** The first entry for the key, or the length. */
  function IndexOf(ws: Weights, key: string): (i: nat)
    ensures i <= |ws|
    ensures i < |ws| ==> ws[i].nodeKey == key
    ensures forall j :: 0 <= j < i ==> ws[j].nodeKey != key
    decreases |ws|
  {
    if ws == [] then 0
    else if ws[0].nodeKey == key then 0
    else 1 + IndexOf(ws[1..], key)
  }

  /** The list after `SetWeight`: the default weight is not stored. */
  function WeightSet(ws: Weights, key: string, weight: int): Weights {
    var i := IndexOf(ws, key);
    if weight == DEFAULT_WEIGHT then (if i == |ws| then ws else ws[..i] + ws[i + 1..])
    else if i == |ws| then ws + [WeightInfo(key, weight)]
    else ws[..i] + [WeightInfo(key, weight)] + ws[i + 1..]
  }

  /** What `UpdateGateway` makes of the list: a later entry wins. */
  function WeightMap(ws: Weights): map<string, int> {
    if ws == [] then map[]
    else WeightMap(ws[..|ws| - 1])[ws[|ws| - 1].nodeKey := ws[|ws| - 1].weight]
  }

  method BuildWeightMap(ws: Weights) returns (r: map<string, int>)
    ensures r == WeightMap(ws)
  {
    r := map[];
    for i := 0 to |ws|
      invariant r == WeightMap(ws[..i])
    {
      assert ws[..i + 1][..i] == ws[..i];
      r := r[ws[i].nodeKey := ws[i].weight];
    }
    assert ws[..|ws|] == ws;
  }

  function Count(ws: Weights, key: string): nat {
    if ws == [] then 0 else Count(ws[..|ws| - 1], key) + if ws[|ws| - 1].nodeKey == key then 1 else 0
  }

  ghost predicate UniqueWeights(ws: Weights) {
    forall key :: Count(ws, key) <= 1
  }

  /** The weight a node gets. */
  function Effective(ws: Weights, key: string): int {
    WeightOf(WeightMap(ws), key)
  }

  lemma {:induction false} CountPlus(a: Weights, b: Weights, key: string)
    ensures Count(a + b, key) == Count(a, key) + Count(b, key)
    decreases |b|
  {
    if b == [] {
      assert a + b == a;
    } else {
      var rest := b[..|b| - 1];
      assert (a + b)[..|a + b| - 1] == a + rest;
      CountPlus(a, rest, key);
    }
  }

  /** The last part that has an entry for the key decides. */
  lemma {:induction false} EffectivePlus(a: Weights, b: Weights, key: string)
    ensures Effective(a + b, key) == if Count(b, key) > 0 then Effective(b, key) else Effective(a, key)
    ensures key in WeightMap(a + b) <==> Count(a, key) > 0 || Count(b, key) > 0
    decreases |b|
  {
    if b == [] {
      assert a + b == a;
      Counted(a, key);
    } else {
      var rest := b[..|b| - 1];
      assert (a + b)[..|a + b| - 1] == a + rest;
      EffectivePlus(a, rest, key);
      Counted(rest, key);
    }
  }

  lemma {:induction false} Counted(ws: Weights, key: string)
    ensures key in WeightMap(ws) <==> Count(ws, key) > 0
  {
    if ws != [] {
      Counted(ws[..|ws| - 1], key);
    }
  }

  lemma {:induction false} NoneBefore(ws: Weights, key: string)
    requires forall j :: 0 <= j < |ws| ==> ws[j].nodeKey != key
    ensures Count(ws, key) == 0
  {
    if ws != [] {
      NoneBefore(ws[..|ws| - 1], key);
    }
  }

  lemma One(x: WeightInfo, key: string)
    ensures Count([x], key) == if x.nodeKey == key then 1 else 0
    ensures x.nodeKey == key ==> Effective([x], key) == x.weight
  {
    assert [x][..0] == [];
  }

  /** What a list with the entry `x` between two parts says of a key. */
  ghost predicate SplitAt(a: Weights, x: WeightInfo, b: Weights, key: string) {
    && Count(a + [x] + b, key) == Count(a, key) + Count(b, key) + (if x.nodeKey == key then 1 else 0)
    && Effective(a + [x] + b, key)
       == if Count(b, key) > 0 then Effective(b, key) else if x.nodeKey == key then x.weight else Effective(a, key)
  }

  lemma Split(a: Weights, x: WeightInfo, b: Weights, key: string)
    ensures SplitAt(a, x, b, key)
  {
    hide Effective, Count;
    CountPlus(a + [x], b, key);
    CountPlus(a, [x], key);
    EffectivePlus(a + [x], b, key);
    EffectivePlus(a, [x], key);
    One(x, key);
  }

  /** What `SetWeight` does to the number of entries for a key and to its effective weight. */
  lemma SetWeightAt(ws: Weights, key: string, weight: int, k: string)
    ensures var after := WeightSet(ws, key, weight);
            && (k != key ==> Count(after, k) == Count(ws, k) && Effective(after, k) == Effective(ws, k))
            && (Count(ws, key) <= 1 ==> Count(after, key) <= 1)
            && (Effective(after, key) == weight <==> Count(ws, key) <= 1 || Effective(ws, key) == weight)
  {
    hide Count, Effective;
    var i := IndexOf(ws, key);
    if i == |ws| {
      NoneBefore(ws, key);
      Absent(ws, key);
      Appended(ws, WeightInfo(key, weight), k);
      Appended(ws, WeightInfo(key, weight), key);
    } else {
      var a, b := ws[..i], ws[i + 1..];
      var y := WeightInfo(key, weight);
      assert ws == a + [ws[i]] + b;
      NoneBefore(a, key);
      Absent(a, key);
      Split(a, ws[i], b, k);
      Split(a, ws[i], b, key);
      Split(a, y, b, k);
      Split(a, y, b, key);
      CountPlus(a, b, k);
      CountPlus(a, b, key);
      EffectivePlus(a, b, k);
      EffectivePlus(a, b, key);
    }
  }

  lemma Absent(ws: Weights, key: string)
    requires Count(ws, key) == 0
    ensures Effective(ws, key) == 100
  {
    Counted(ws, key);
  }

  lemma Appended(ws: Weights, x: WeightInfo, k: string)
    ensures Count(ws + [x], k) == Count(ws, k) + if x.nodeKey == k then 1 else 0
    ensures Effective(ws + [x], k) == if x.nodeKey == k then x.weight else Effective(ws, k)
  {
    assert (ws + [x])[..|ws|] == ws;
  }

  /** From a list with unique keys `SetWeight` gives one with unique keys, whose effective weights are the
      old ones updated at the key. */
  lemma SetWeightUpdates(ws: Weights, key: string, weight: int)
    requires UniqueWeights(ws)
    ensures UniqueWeights(WeightSet(ws, key, weight))
    ensures forall k :: Effective(WeightSet(ws, key, weight), k) == if k == key then weight else Effective(ws, k)
  {
    hide WeightSet, Effective, Count;
    forall k
      ensures Count(WeightSet(ws, key, weight), k) <= 1
      ensures Effective(WeightSet(ws, key, weight), k) == if k == key then weight else Effective(ws, k)
    {
      assert Count(ws, k) <= 1 && Count(ws, key) <= 1;
      SetWeightAt(ws, key, weight, k);
    }
  }

  /** On any list: the effective weights are updated as asked exactly when the key has at most one entry or
      already has the weight. With two entries only the first is edited, and the other one decides. */
  lemma SetWeightUpdatesIff(ws: Weights, key: string, weight: int)
    ensures var after := WeightSet(ws, key, weight);
            (forall k :: Effective(after, k) == if k == key then weight else Effective(ws, k))
            <==> Count(ws, key) <= 1 || Effective(ws, key) == weight
  {
    hide WeightSet, Effective, Count;
    SetWeightAt(ws, key, weight, key);
    if Count(ws, key) <= 1 || Effective(ws, key) == weight {
      forall k ensures Effective(WeightSet(ws, key, weight), k) == if k == key then weight else Effective(ws, k) {
        SetWeightAt(ws, key, weight, k);
      }
    }
  }

  lemma SetWeightCanFail()
    ensures var ws := [WeightInfo("n", 10), WeightInfo("n", 20)];
            Effective(WeightSet(ws, "n", 30), "n") == 20
  {
    var ws := [WeightInfo("n", 10), WeightInfo("n", 20)];
    assert WeightSet(ws, "n", 30) == [WeightInfo("n", 30)] + [WeightInfo("n", 20)];
    Appended([WeightInfo("n", 30)], WeightInfo("n", 20), "n");
  }

  // ----- routes -----

  function Mark(keys: map<string, bool>, names: seq<string>): map<string, bool> {
    map k | k in keys.Keys + (set n | n in names) :: if k in names then true else keys[k]
  }

  function Unmark(keys: map<string, bool>, names: seq<string>): map<string, bool> {
    map k | k in keys && k !in names :: keys[k]
  }

  predicate IsEmpty(route: MethodRoute) {
    |route.includeKeys| == 0 && |route.excludeKeys| == 0
  }

  const NO_ROUTE := MethodRoute(map[], map[])

  function RouteOf(routes: Routes, name: string): Option<MethodRoute> {
    if name in routes then Some(routes[name]) else None
  }

  /** Stores a route, or drops the entry when the route is empty. */
  function Stored(routes: Routes, name: string, route: MethodRoute): Routes {
    if IsEmpty(route) then routes - {name} else routes[name := route]
  }

  function RouteAdded(routes: Routes, name: string, includes: seq<string>, excludes: seq<string>): Routes {
    var route := if name in routes then routes[name] else NO_ROUTE;
    routes[name := MethodRoute(Mark(route.includeKeys, includes), Mark(route.excludeKeys, excludes))]
  }

  /** `None` when the method has no route. */
  function RouteRemoved(routes: Routes, name: string, includes: seq<string>, excludes: seq<string>): Option<Routes> {
    if name !in routes then None
    else
      var route := routes[name];
      Some(Stored(routes, name, MethodRoute(Unmark(route.includeKeys, includes), Unmark(route.excludeKeys, excludes))))
  }

  function Without(route: MethodRoute, key: string): MethodRoute {
    MethodRoute(route.includeKeys - {key}, route.excludeKeys - {key})
  }

  function Cleared(routes: Routes, key: string): Routes {
    map name | name in routes && !IsEmpty(Without(routes[name], key)) :: Without(routes[name], key)
  }

  predicate Fresh(keys: map<string, bool>, names: seq<string>) {
    forall i :: 0 <= i < |names| ==> names[i] !in keys
  }

  lemma UnmarkMark(keys: map<string, bool>, names: seq<string>)
    ensures Unmark(Mark(keys, names), names) == keys <==> Fresh(keys, names)
  {
    var back := Unmark(Mark(keys, names), names);
    if back == keys {
      forall i | 0 <= i < |names| ensures names[i] !in keys {
        assert names[i] in names && names[i] !in back;
      }
    }
    if Fresh(keys, names) {
      assert forall k :: k in keys ==> k !in names;
      assert back.Keys == keys.Keys;
    }
  }

  /** Removing the nodes that were just added to a method's route gives the routes back exactly when the
      method had no route, or a route that is not empty and held none of these nodes. */
  lemma RemoveUndoesAdd(routes: Routes, name: string, includes: seq<string>, excludes: seq<string>)
    ensures RouteRemoved(RouteAdded(routes, name, includes, excludes), name, includes, excludes) == Some(routes)
            <==> name !in routes
                 || (!IsEmpty(routes[name]) && Fresh(routes[name].includeKeys, includes)
                     && Fresh(routes[name].excludeKeys, excludes))
  {
    hide Mark, Unmark, Fresh;
    var route := if name in routes then routes[name] else NO_ROUTE;
    UnmarkMark(route.includeKeys, includes);
    UnmarkMark(route.excludeKeys, excludes);
    NothingHeld(includes);
    NothingHeld(excludes);
    var added := RouteAdded(routes, name, includes, excludes);
    var left := MethodRoute(Unmark(added[name].includeKeys, includes), Unmark(added[name].excludeKeys, excludes));
    var back := Stored(added, name, left);
    if name !in routes {
      assert back == routes;
    } else if left == route && !IsEmpty(route) {
      assert back == routes;
    }
  }

  lemma NothingHeld(names: seq<string>)
    ensures Fresh(map[], names)
  {
  }

  /** After `ClearMethodRoute` no route mentions the node and none is empty. */
  lemma ClearedForgets(routes: Routes, key: string, name: string)
    requires name in Cleared(routes, key)
    ensures name in routes && !IsEmpty(Cleared(routes, key)[name])
    ensures key !in Cleared(routes, key)[name].includeKeys && key !in Cleared(routes, key)[name].excludeKeys
  {
  }

  /** Clearing one route, or dropping it when it is then empty, as another node sees it. */
  lemma WithoutRouting(route: MethodRoute, key: string, n: Info)
    requires n.key != key
    ensures var left := if IsEmpty(Without(route, key)) then None else Some(Without(route, key));
            Passes(left, n) == Passes(Some(route), n)
            <==> !(route.includeKeys.Keys == {key} && !Marked(route.excludeKeys, n.key))
  {
    hide Marked;
    WithoutKey(route.includeKeys, key, n.key);
    WithoutKey(route.excludeKeys, key, n.key);
  }

  /** For another node, clearing changes whether it may serve a method exactly when the cleared node was
      the only included one and the other node is not excluded: then the method opens to it. */
  lemma ClearedRouting(routes: Routes, key: string, name: string, n: Info)
    requires n.key != key
    ensures Passes(RouteOf(Cleared(routes, key), name), n) == Passes(RouteOf(routes, name), n)
            <==> !(name in routes && routes[name].includeKeys.Keys == {key} && !Marked(routes[name].excludeKeys, n.key))
  {
    hide Passes, IsEmpty, Without, Marked;
    if name in routes {
      WithoutRouting(routes[name], key, n);
    }
  }

  lemma WithoutKey(keys: map<string, bool>, key: string, other: string)
    requires other != key
    ensures Marked(keys - {key}, other) == Marked(keys, other)
    ensures |keys - {key}| == 0 <==> |keys| == 0 || keys.Keys == {key}
    ensures |keys - {key}| == 0 ==> !Marked(keys, other)
    ensures keys.Keys == {key} ==> |keys| > 0
  {
    assert (keys - {key}).Keys == keys.Keys - {key};
  }

  lemma MarkIs(keys: map<string, bool>, names: seq<string>, k: string)
    ensures k in Mark(keys, names) <==> k in names || k in keys
    ensures Marked(Mark(keys, names), k) <==> k in names || Marked(keys, k)
    ensures k in Unmark(keys, names) <==> k !in names && k in keys
    ensures Marked(Unmark(keys, names), k) <==> k !in names && Marked(keys, k)
  {
  }

  /** What a map of keys must hold to count as non-empty. */
  lemma AnyKey(keys: map<string, bool>)
    ensures |keys| > 0 <==> exists k :: k in keys
  {
    if |keys| > 0 {
      assert keys != map[];
      var k :| k in keys;
    }
  }

  /** After nodes have been added to a method's route: if anybody is included now, exactly those included
      before or now may serve it; else exactly those excluded neither before nor now. Other methods are as
      before. */
  lemma AddedRouting(routes: Routes, name: string, inc: seq<string>, exc: seq<string>, other: string, n: Info)
    ensures other != name ==> RouteOf(RouteAdded(routes, name, inc, exc), other) == RouteOf(routes, other)
    ensures var was := if name in routes then routes[name] else MethodRoute(map[], map[]);
            Passes(RouteOf(RouteAdded(routes, name, inc, exc), name), n) <==>
              if inc != [] || exists k :: k in was.includeKeys then n.key in inc || Marked(was.includeKeys, n.key)
              else n.key !in exc && !Marked(was.excludeKeys, n.key)
  {
    hide Mark, Marked;
    var was := if name in routes then routes[name] else MethodRoute(map[], map[]);
    MarkIs(was.includeKeys, inc, n.key);
    MarkIs(was.excludeKeys, exc, n.key);
    AnyKey(Mark(was.includeKeys, inc));
    if inc != [] {
      MarkIs(was.includeKeys, inc, inc[0]);
    }
    forall k ensures k in Mark(was.includeKeys, inc) <==> k in inc || k in was.includeKeys {
      MarkIs(was.includeKeys, inc, k);
    }
  }

  /** Nodes can be removed from a method's route exactly when it has one. Then, if anybody is still included,
      exactly those still included may serve it; else exactly those not excluded any more. */
  lemma RemovedRouting(routes: Routes, name: string, inc: seq<string>, exc: seq<string>, other: string, n: Info)
    ensures RouteRemoved(routes, name, inc, exc).Some? <==> name in routes
    ensures name in routes && other != name ==>
              RouteOf(RouteRemoved(routes, name, inc, exc).value, other) == RouteOf(routes, other)
    ensures name in routes ==>
              var was, after := routes[name], RouteOf(RouteRemoved(routes, name, inc, exc).value, name);
              Passes(after, n) <==>
                if exists k :: k in was.includeKeys && k !in inc then n.key !in inc && Marked(was.includeKeys, n.key)
                else !(n.key !in exc && Marked(was.excludeKeys, n.key))
  {
    hide Unmark, Marked;
    if name in routes {
      var was := routes[name];
      MarkIs(was.includeKeys, inc, n.key);
      MarkIs(was.excludeKeys, exc, n.key);
      AnyKey(Unmark(was.includeKeys, inc));
      AnyKey(Unmark(was.excludeKeys, exc));
      forall k ensures k in Unmark(was.includeKeys, inc) <==> k !in inc && k in was.includeKeys {
        MarkIs(was.includeKeys, inc, k);
      }
      if |Unmark(was.excludeKeys, exc)| == 0 {
        NoMarks(Unmark(was.excludeKeys, exc), n.key);
      }
    }
  }

  lemma NoMarks(keys: map<string, bool>, k: string)
    requires |keys| == 0
    ensures !Marked(keys, k)
  {
  }

  /** Clearing a node leaves the marks of all others in the routes that stay. */
  lemma ClearedKeeps(routes: Routes, key: string, name: string, k: string)
    requires name in Cleared(routes, key) && k != key
    ensures name in routes
    ensures Marked(Cleared(routes, key)[name].includeKeys, k) == Marked(routes[name].includeKeys, k)
    ensures Marked(Cleared(routes, key)[name].excludeKeys, k) == Marked(routes[name].excludeKeys, k)
  {
  }

  method MarkAll(keys: map<string, bool>, names: seq<string>) returns (r: map<string, bool>)
    ensures r == Mark(keys, names)
  {
    r := keys;
    for i := 0 to |names|
      invariant r == Mark(keys, names[..i])
    {
      r := r[names[i] := true];
      assert names[..i + 1] == names[..i] + [names[i]];
    }
    assert names[..|names|] == names;
  }

  method UnmarkAll(keys: map<string, bool>, names: seq<string>) returns (r: map<string, bool>)
    ensures r == Unmark(keys, names)
  {
    r := keys;
    for i := 0 to |names|
      invariant r == Unmark(keys, names[..i])
    {
      r := r - {names[i]};
      assert names[..i + 1] == names[..i] + [names[i]];
    }
    assert names[..|names|] == names;
  }

  // ----- the configuration as it is edited in place -----

  class Gateway {
    var weights: Weights
    var routes: Routes

    constructor (config: Config)
      ensures Value() == config
    {
      weights, routes := config.weights, config.routes;
    }

    function Value(): Config
      reads this
    {
      Config(weights, routes)
    }

    method SetWeight(key: string, weight: int)
      modifies `weights
      ensures weights == WeightSet(old(weights), key, weight)
    {
      var i := 0;
      while i < |weights| && weights[i].nodeKey != key
        invariant i <= |weights| && weights == old(weights)
        invariant forall j :: 0 <= j < i ==> weights[j].nodeKey != key
      {
        i := i + 1;
      }
      assert i == IndexOf(weights, key);
      if weight == DEFAULT_WEIGHT {
        if i < |weights| {
          weights := weights[..i] + weights[i + 1..];
        }
      } else if i < |weights| {
        weights := weights[i := weights[i].(weight := weight)];
      } else {
        weights := weights + [WeightInfo(key, weight)];
      }
    }

    /** Drops the node from every route, and the routes that are then empty. */
    method ClearMethodRoute(key: string)
      modifies `routes
      ensures routes == Cleared(old(routes), key)
    {
      hide IsEmpty, Without;
      var rest := routes.Keys;
      ghost var before := routes;
      while rest != {}
        invariant rest <= before.Keys
        invariant forall name :: name in rest ==> name in routes && routes[name] == before[name]
        invariant forall name :: name in before.Keys - rest ==>
                    RouteOf(routes, name) == RouteOf(Cleared(before, key), name)
        invariant routes.Keys <= before.Keys
        decreases |rest|
      {
        var name :| name in rest;
        rest := rest - {name};
        var route := Without(routes[name], key);
        if IsEmpty(route) {
          routes := routes - {name};
        } else {
          routes := routes[name := route];
        }
      }
      forall name ensures RouteOf(routes, name) == RouteOf(Cleared(before, key), name) {
      }
      SameRoutes(routes, Cleared(before, key));
    }

    /** The edit of `AddMethodRoute`. */
    method AddMethodRoute(name: string, includes: seq<string>, excludes: seq<string>)
      modifies `routes
      ensures routes == RouteAdded(old(routes), name, includes, excludes)
    {
      hide Mark;
      var route := if name in routes then routes[name] else NO_ROUTE;
      var inc := MarkAll(route.includeKeys, includes);
      var exc := MarkAll(route.excludeKeys, excludes);
      routes := routes[name := MethodRoute(inc, exc)];
    }

    /** The edit of `RemoveMethodRoute`; false is the answer that the route was not found. */
    method RemoveMethodRoute(name: string, includes: seq<string>, excludes: seq<string>) returns (found: bool)
      modifies `routes
      ensures found <==> RouteRemoved(old(routes), name, includes, excludes).Some?
      ensures routes == if found then RouteRemoved(old(routes), name, includes, excludes).value else old(routes)
    {
      hide Unmark;
      if name !in routes {
        return false;
      }
      hide RouteOf;
      var route, r := routes[name], routes;
      var inc := UnmarkAll(route.includeKeys, includes);
      if |inc| == 0 {
        r := r - {name};
      }
      var exc := UnmarkAll(route.excludeKeys, excludes);
      if |exc| == 0 {
        r := r - {name};
      }
      DropThenStore(routes, r, name, MethodRoute(inc, exc));
      if |inc| == 0 && |exc| == 0 {
        r := r - {name};
      } else {
        r := r[name := MethodRoute(inc, exc)];
      }
      routes := r;
      return true;
    }
  }

  lemma DropThenStore(routes: Routes, r: Routes, name: string, route: MethodRoute)
    requires r in {routes, routes - {name}, routes - {name} - {name}}
    ensures r - {name} == routes - {name} && r[name := route] == routes[name := route]
  {
  }

  lemma SameRoutes(a: Routes, b: Routes)
    requires forall name :: RouteOf(a, name) == RouteOf(b, name)
    ensures a == b
  {
    forall name ensures name in a <==> name in b {
      assert RouteOf(a, name) == RouteOf(b, name);
    }
    forall name | name in a ensures a[name] == b[name] {
      assert RouteOf(a, name) == RouteOf(b, name);
    }
  }

  /** The balancer's view of all gateways. */
  class GatewayStrategy {
    var weightMap: map<string, map<string, int>>
    var methodRouteMap: map<string, Routes>

    method UpdateGateway(chain: string, config: Config)
      modifies this
      ensures weightMap == old(weightMap)[chain := WeightMap(config.weights)]
      ensures methodRouteMap == old(methodRouteMap)[chain := config.routes]
    {
      var weights := BuildWeightMap(config.weights);
      weightMap := weightMap[chain := weights];
      methodRouteMap := methodRouteMap[chain := config.routes];
    }
  }
}
