/** A node that is deleted and created again in another role while the watch is broken: when the store has
    been compacted in between, the resync sees a changed value and no deletion, and the old node stays
    pooled. */
module HiddenDeletes {
  import opened Wrappers
  import P = NodeProtocol
  import M = NodeMoves
  import D = Discovery
  import opened Convergence
  import opened WorldPaths

  /** A key is put, the watch receives it, and its node comes into the pool. */
  lemma FirstPut(ne: NodeKeys, key: string, v: string) returns (path: seq<World>, w: World)
    requires WellKeyed(ne) && ne.isNode(key) && Good(ne, key, v)
    ensures Leads(ne, true, START, path, w) && Now(w) == map[key := v]
    ensures w.d == D.State(map[key := v], 1, [D.PutOut(key, v)]) && |w.log| == 1
    ensures M.Settles(P.START, ne.target(key, v), w.lb)
  {
    assert Now(START) == map[];
    var e := D.WatchPut(key, v);
    CommitMove(ne, true, START, e);
    var w1 := AfterCommit(START, e);
    PutMove(ne, true, w1, key, v);
    var w2 := AfterPut(ne, w1, key, v);
    hide Leads, WorldMoves, M.Settles, D.Contents;
    var rest;
    rest, w := SettlePath(ne, true, w2, P.START, ne.target(key, v));
    OneMove(ne, true, START, w1);
    OneMove(ne, true, w1, w2);
    Joined(ne, true, START, [w1], w1, [w2], w2);
    path := [w1] + [w2] + rest;
    Joined(ne, true, START, [w1] + [w2], w2, rest, w);
  }

  /** The resync finds another value under the known key, and sends that value only. */
  lemma ResyncMove(ne: NodeKeys, w: World, key: string, v1: string, v2: string) returns (w': World)
    requires WellKeyed(ne) && ne.isNode(key) && ne.env.decodes(key, v2) && v1 != v2 && Now(w) == map[key := v2]
    requires w.d == D.State(map[key := v1], 1, [D.PutOut(key, v1)]) && w.lb.queue == []
    ensures WorldMoves(ne, true, w, w') && w'.log == w.log && w'.d.rev == |w.log|
    ensures w'.lb == M.Behind(w.lb, P.Put(ne.target(key, v2)))
  {
    hide D.Contents;
    var sent, snap := [D.PutOut(key, v2)], map[key := v2];
    var d := D.State(snap, |w.log|, [D.PutOut(key, v1), D.PutOut(key, v2)]);
    assert d.out == w.d.out + sent && d.out[|w.d.out|..] == sent && d.out[..1] == w.d.out && sent[..0] == [];
    assert D.SeenAll(map[], w.d.out) == map[key := v1] by { assert w.d.out[..0] == []; }
    assert D.Resynced(ne.env, w.d, snap, |w.log|, sent, d);
    assert NodeEvents(ne, sent) == [P.Put(ne.target(key, v2))];
    w' := World(w.log, d, M.Behind(w.lb, P.Put(ne.target(key, v2))));
    assert Resyncs(ne, w, w', sent);
  }

  /** Every commit keeps the slot of a live key, and still the pools do not converge: the run puts a key,
      lets its node into the pool, deletes the key, creates it again in another slot, and resyncs past
      both. All is then quiet, and the old node is pooled although the store does not hold it. */
  lemma HiddenDeleteLeavesOldNode(ne: NodeKeys, key: string, v1: string, v2: string)
    returns (run: seq<World>, w: World)
    requires WellKeyed(ne) && ne.isNode(key) && Good(ne, key, v1) && Good(ne, key, v2)
    requires P.SlotOf(ne.target(key, v1)) != P.SlotOf(ne.target(key, v2))
    ensures WorldRun(ne, true, run) && run[|run| - 1] == w && Quiet(w) && Now(w) == map[key := v2]
    ensures P.SlotOf(ne.target(key, v1)) in w.lb.slots && !HoldsExactly(ne, Now(w), w.lb)
  {
    hide WorldMoves, Leads, D.Contents, P.SlotOf, P.InfoOf;
    var first, w1 := FirstPut(ne, key, v1);
    var e1, e2 := D.WatchDelete(key, Some(v1)), D.WatchPut(key, v2);
    var w2 := AfterCommit(w1, e1);
    CommitMove(ne, true, w1, e1);
    var w3 := AfterCommit(w2, e2);
    CommitMove(ne, true, w2, e2);
    var w4 := ResyncMove(ne, w3, key, v1, v2);
    var last;
    last, w := SettlePath(ne, true, w4, w3.lb, ne.target(key, v2));
    OneMove(ne, true, w1, w2);
    OneMove(ne, true, w2, w3);
    OneMove(ne, true, w3, w4);
    Joined(ne, true, START, first, w1, [w2], w2);
    Joined(ne, true, START, first + [w2], w2, [w3], w3);
    Joined(ne, true, START, first + [w2] + [w3], w3, [w4], w4);
    Joined(ne, true, START, first + [w2] + [w3] + [w4], w4, last, w);
    run := [START] + (first + [w2] + [w3] + [w4] + last);
    IsRun(ne, true, first + [w2] + [w3] + [w4] + last, w);
  }
}
