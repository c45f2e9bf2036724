/** Building runs of the whole system, one stretch after the other. */
module WorldPaths {
  import P = NodeProtocol
  import M = NodeMoves
  import D = Discovery
  import opened Convergence

  /** The worlds of `path`, one step after the other, lead from `w` to `v`. */
  ghost predicate Leads(ne: NodeKeys, hidden: bool, w: World, path: seq<World>, v: World)
    decreases |path|
  {
    if path == [] then v == w
    else WorldMoves(ne, hidden, w, path[0]) && Leads(ne, hidden, path[0], path[1..], v)
  }

  lemma OneMove(ne: NodeKeys, hidden: bool, w: World, v: World)
    requires WorldMoves(ne, hidden, w, v)
    ensures Leads(ne, hidden, w, [v], v)
  {
    hide WorldMoves;
    assert [v][1..] == [];
  }

  lemma {:induction false} Joined(ne: NodeKeys, hidden: bool, u: World, a: seq<World>, v: World, b: seq<World>,
                                  w: World)
    requires Leads(ne, hidden, u, a, v) && Leads(ne, hidden, v, b, w)
    ensures Leads(ne, hidden, u, a + b, w)
    decreases |a|
  {
    hide WorldMoves;
    if a == [] {
      assert a + b == b;
    } else {
      assert (a + b)[1..] == a[1..] + b;
      Joined(ne, hidden, a[0], a[1..], v, b, w);
    }
  }

  /** From the start, such a path is a run. */
  lemma {:induction false} PathMoves(ne: NodeKeys, hidden: bool, w: World, path: seq<World>, v: World)
    requires Leads(ne, hidden, w, path, v)
    ensures var run := [w] + path;
            run[|run| - 1] == v && forall i :: 0 <= i < |run| - 1 ==> WorldMoves(ne, hidden, run[i], run[i + 1])
    decreases |path|
  {
    hide WorldMoves;
    var run := [w] + path;
    if path != [] {
      PathMoves(ne, hidden, path[0], path[1..], v);
      assert [path[0]] + path[1..] == path;
      forall i | 0 <= i < |run| - 1 ensures WorldMoves(ne, hidden, run[i], run[i + 1]) {
        assert i > 0 ==> WorldMoves(ne, hidden, path[i - 1], path[i]);
      }
    }
  }

  lemma IsRun(ne: NodeKeys, hidden: bool, path: seq<World>, v: World)
    requires Leads(ne, hidden, START, path, v)
    ensures WorldRun(ne, hidden, [START] + path) && ([START] + path)[|path|] == v
  {
    PathMoves(ne, hidden, START, path, v);
  }

  /** The event loop and the checks go on while discovery and the store rest. */
  lemma {:induction false} BalancePath(ne: NodeKeys, hidden: bool, w: World, steps: seq<P.Step>, lb: P.LB)
    returns (path: seq<World>)
    requires P.Reaches(w.lb, steps, lb) && forall i :: 0 <= i < |steps| ==> !steps[i].Emit?
    ensures Leads(ne, hidden, w, path, w.(lb := lb))
    decreases |steps|
  {
    hide P.Next, P.Enabled;
    if steps == [] {
      path := [];
    } else {
      var v := w.(lb := P.Next(w.lb, steps[0]));
      assert Balances(w, v, steps[0]);
      var rest := BalancePath(ne, hidden, v, steps[1..], lb);
      path := [v] + rest;
      assert path[1..] == rest;
    }
  }

  lemma ContentsMore(log: seq<seq<D.WatchEvent>>, e: D.WatchEvent)
    ensures D.Contents(log + [[e]], |log| + 1) == D.Stored(D.Contents(log, |log|), e)
    ensures D.Flat((log + [[e]])[|log|..|log| + 1]) == [e]
  {
    hide D.StoredAll, D.Flat, D.Stored;
    var more := log + [[e]];
    D.ContentsResume(more, |log|, |more|);
    assert more[..|log|] == log[..|log|] && more[|log|..|more|] == [[e]];
    OneEvent(D.Contents(log, |log|), e);
  }

  lemma OneEvent(m: Values, e: D.WatchEvent)
    ensures D.Flat([[e]]) == [e] && D.StoredAll(m, [e]) == D.Stored(m, e)
  {
    assert D.Flat([[e]]) == [e] + D.Flat([]) == [e];
    assert [e][1..] == [];
  }

  function Now(w: World): Values {
    D.Contents(w.log, |w.log|)
  }

  function AfterCommit(w: World, e: D.WatchEvent): World {
    w.(log := w.log + [[e]])
  }

  /** One good event is committed. */
  lemma CommitMove(ne: NodeKeys, hidden: bool, w: World, e: D.WatchEvent)
    requires GoodEvent(ne, Now(w), e)
    ensures WorldMoves(ne, hidden, w, AfterCommit(w, e)) && Now(AfterCommit(w, e)) == D.Stored(Now(w), e)
  {
    hide GoodEvent, D.Contents, D.Stored;
    ContentsMore(w.log, e);
    assert [e][1..] == [] && GoodEvents(ne, D.Stored(Now(w), e), []);
    assert GoodEvents(ne, Now(w), [e]);
    assert Commits(ne, w, AfterCommit(w, e), [e]);
  }

  /** The watch has caught up but for one put of a node key, and receives it. */
  function AfterPut(ne: NodeKeys, w: World, key: string, v: string): World {
    World(w.log, D.State(w.d.known[key := v], |w.log|, w.d.out + [D.PutOut(key, v)]),
          w.lb.(queue := w.lb.queue + [P.Put(ne.target(key, v))]))
  }

  lemma PutMove(ne: NodeKeys, hidden: bool, w: World, key: string, v: string)
    requires WellKeyed(ne) && ne.isNode(key) && ne.env.decodes(key, v)
    requires w.d.rev + 1 == |w.log| && w.log[|w.log| - 1] == [D.WatchPut(key, v)]
    ensures WorldMoves(ne, hidden, w, AfterPut(ne, w, key, v))
  {
    var n, e, w' := w.d.rev, D.WatchPut(key, v), AfterPut(ne, w, key, v);
    assert w.log == w.log[..n] + [[e]];
    ContentsMore(w.log[..n], e);
    assert [e][1..] == [];
    assert D.Processed(ne.env, D.Dispatched(ne.env, w.d, e), []) == D.Dispatched(ne.env, w.d, e);
    assert D.Processed(ne.env, w.d, [e]) == D.Dispatched(ne.env, w.d, e);
    var sent := [D.PutOut(key, v)];
    assert w'.d.out[|w.d.out|..] == sent && sent[..0] == [];
    assert NodeEvents(ne, sent) == [P.Put(ne.target(key, v))];
    assert Receives(ne, w, w', |w.log|);
  }

  /** A put is taken, checked and applied. */
  lemma SettlePath(ne: NodeKeys, hidden: bool, w: World, lb: P.LB, t: P.Target) returns (path: seq<World>, v: World)
    requires w.lb == M.Behind(lb, P.Put(t)) && M.Idle(lb)
    ensures Leads(ne, hidden, w, path, v) && v == w.(lb := v.lb) && M.Settles(lb, t, v.lb)
  {
    var steps, lb' := M.TakeSettled(lb, t);
    hide M.Settles, P.Reaches;
    path := BalancePath(ne, hidden, w, steps, lb');
    v := w.(lb := lb');
  }
}
