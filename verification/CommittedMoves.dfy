/** A commit that moves a live key to another slot, in the whole system: why commits must keep the slots of
    live keys. */
module CommittedMoves {
  import P = NodeProtocol
  import M = NodeMoves
  import D = Discovery
  import opened Convergence
  import opened WorldPaths

  /** The world once the watch has received everything committed. */
  function CaughtUp(ne: NodeKeys, w: World): World
    requires w.d.rev <= |w.log|
  {
    var d := D.Processed(ne.env, w.d, D.Flat(w.log[w.d.rev..|w.log|])).(rev := |w.log|);
    var sent := if |w.d.out| <= |d.out| then d.out[|w.d.out|..] else [];
    World(w.log, d, w.lb.(queue := w.lb.queue + NodeEvents(ne, sent)))
  }

  /** The watch can catch up, and a later commit does not keep it from doing so. */
  lemma CaughtUpMove(ne: NodeKeys, w: World, e: D.WatchEvent)
    requires WellKeyed(ne) && WorldInv(ne, w)
    ensures WorldInv(ne, CaughtUp(ne, w))
    ensures WorldMoves(ne, false, AfterCommit(w, e), AfterCommit(CaughtUp(ne, w), e))
  {
    hide WellKeyed, P.FullInv, Mirrors, D.Agrees, GoodEvents, GoodMap, GoodOuts, D.SeenAll, NodeEvents;
    var n, es := |w.log|, D.Flat(w.log[w.d.rev..|w.log|]);
    GoodUpTo(ne, w.log, w.d.rev, n);
    var sent := GoodResponse(ne, w.d, D.Contents(w.log, w.d.rev), es);
    var v := CaughtUp(ne, w);
    assert v.d.out == w.d.out + sent;
    assert v.d.out[..|w.d.out|] == w.d.out;
    assert Receives(ne, w, v, n);
    ReceivesInv(ne, w, v, n);
    assert AfterCommit(w, e).log[w.d.rev..n] == w.log[w.d.rev..n];
    assert Receives(ne, AfterCommit(w, e), AfterCommit(v, e), n);
  }

  /** Discovery has caught up, the loop is idle and wants exactly what is known. */
  ghost predicate Caught(ne: NodeKeys, w: World) {
    && w.d.rev == |w.log| && D.Agrees(ne.env, w.d, Now(w)) && GoodMap(ne, Now(w)) && Mirrors(ne, w.d.known, w.lb.wanted)
    && M.Idle(w.lb) && P.GensInv(w.lb) && P.FailedBound(w.lb)
  }

  /** A put of a key, received, in agreement with the store. */
  lemma AgreesPut(ne: NodeKeys, w: World, key: string, v: string)
    requires WellKeyed(ne) && ne.isNode(key) && ne.env.decodes(key, v)
    requires D.Agrees(ne.env, w.d, Now(w))
    ensures var w' := AfterPut(ne, AfterCommit(w, D.WatchPut(key, v)), key, v);
            Now(w') == Now(w)[key := v] && D.Agrees(ne.env, w'.d, Now(w'))
  {
    hide D.Agrees, D.Contents;
    var e := D.WatchPut(key, v);
    ContentsMore(w.log, e);
    D.AgreesEvent(ne.env, w.d, Now(w), e);
    D.AgreesAnyRev(ne.env, D.Dispatched(ne.env, w.d, e), Now(w)[key := v], |w.log| + 1);
  }

  /** The key of a wanted node, and its stored value. */
  lemma KeyOf(ne: NodeKeys, w: World, id: P.Identity) returns (key: string)
    requires WellKeyed(ne) && Caught(ne, w) && id in w.lb.wanted
    ensures ne.isNode(key) && ne.ident(key) == id && key in w.d.known && key in Now(w)
    ensures w.d.known[key] == Now(w)[key] && w.lb.wanted[id] == ne.target(key, Now(w)[key])
    ensures Good(ne, key, Now(w)[key])
  {
    hide WellKeyed, D.Agrees, D.Contents, Good;
    KnownIsStored(ne, w.d, Now(w));
    key :| key in w.d.known && ne.isNode(key) && ne.ident(key) == id;
  }

  /** A key is committed once more with the value it has, and the watch receives it. */
  lemma SamePut(ne: NodeKeys, w: World, key: string) returns (path: seq<World>, v: World)
    requires WellKeyed(ne) && Caught(ne, w) && ne.isNode(key) && key in w.d.known && key in Now(w)
    requires w.d.known[key] == Now(w)[key] && Good(ne, key, Now(w)[key])
    ensures Leads(ne, false, w, path, v) && v.lb == M.Behind(w.lb, P.Put(ne.target(key, Now(w)[key])))
    ensures v.d.rev == |v.log| && v.d.known == w.d.known && Now(v) == Now(w) && D.Agrees(ne.env, v.d, Now(v))
  {
    hide WellKeyed, D.Agrees, D.Contents, GoodMap, Mirrors, WorldMoves, Leads;
    hide P.GensInv, P.FailedBound, P.SlotOf, M.Idle;
    var value := Now(w)[key];
    var e := D.WatchPut(key, value);
    var w1 := AfterCommit(w, e);
    v := AfterPut(ne, w1, key, value);
    CommitMove(ne, false, w, e);
    PutMove(ne, false, w1, key, value);
    AgreesPut(ne, w, key, value);
    assert Now(w)[key := value] == Now(w) && w.d.known[key := value] == w.d.known;
    OneMove(ne, false, w, w1);
    OneMove(ne, false, w1, v);
    Joined(ne, false, w, [w1], w1, [v], v);
    path := [w1] + [v];
  }

  /** A node whose check failed is put again with the value it has, and passes. */
  lemma PutAgain(ne: NodeKeys, w: World, id: P.Identity) returns (path: seq<World>, v: World)
    requires WellKeyed(ne) && Caught(ne, w) && id in M.FailedNow(w.lb)
    ensures Leads(ne, false, w, path, v) && Caught(ne, v) && Now(v) == Now(w)
    ensures M.FailedNow(v.lb) == M.FailedNow(w.lb) - {id} && w.lb.slots.Keys <= v.lb.slots.Keys
  {
    assert id in w.lb.wanted;
    var key := KeyOf(ne, w, id);
    hide WellKeyed, D.Agrees, D.Contents, GoodMap, Mirrors, Leads, Good;
    hide P.GensInv, P.FailedBound, M.FailedNow, M.Behind;
    var first, w1 := SamePut(ne, w, key);
    var rest;
    rest, v := SettlePath(ne, false, w1, w.lb, w.lb.wanted[id]);
    M.SettledAgain(w.lb, id, v.lb);
    path := first + rest;
    Joined(ne, false, w, first, w1, rest, v);
  }

  /** Putting failed nodes again, the system comes to rest with nothing lost. */
  lemma {:induction false} ComeToRest(ne: NodeKeys, w: World) returns (path: seq<World>, v: World)
    requires WellKeyed(ne) && Caught(ne, w)
    ensures Leads(ne, false, w, path, v) && Caught(ne, v) && Quiet(v) && Now(v) == Now(w)
    ensures w.lb.slots.Keys <= v.lb.slots.Keys
    decreases M.FailedNow(w.lb)
  {
    if M.FailedNow(w.lb) == {} {
      path, v := [], w;
      assert forall id :: id in w.lb.gens.current && w.lb.gens.current[id] in w.lb.failed ==> id in M.FailedNow(w.lb);
    } else {
      hide WellKeyed, Caught, D.Contents, Leads, Quiet, M.FailedNow;
      var id :| id in M.FailedNow(w.lb);
      var first, w1 := PutAgain(ne, w, id);
      var rest;
      rest, v := ComeToRest(ne, w1);
      path := first + rest;
      Joined(ne, false, w, first, w1, rest, v);
    }
  }

  /** The old slot belongs to no key of a store in which its key has moved. */
  lemma OldSlotIsWrong(ne: NodeKeys, m: Values, lb: P.LB, key: string, t: P.Target)
    requires WellKeyed(ne) && GoodMap(ne, m) && ne.isNode(key) && key in m && P.IdOf(t) == ne.ident(key)
    requires P.SlotOf(t) in lb.slots && P.SlotOf(ne.target(key, m[key])) != P.SlotOf(t)
    ensures !HoldsExactly(ne, m, lb)
  {
    forall other | other in m && ne.isNode(other) ensures P.SlotOf(ne.target(other, m[other])) != P.SlotOf(t) {
      assert Good(ne, other, m[other]);
      P.OwnerOfSlot(t);
      P.OwnerOfSlot(ne.target(other, m[other]));
    }
  }

  /** After the moving put has been received and applied, all is as the store says, except for the old
      node. */
  lemma MoveReceived(ne: NodeKeys, w: World, key: string, v: string) returns (path: seq<World>, w': World)
    requires WellKeyed(ne) && WorldInv(ne, w) && w.d.rev == |w.log| && ne.isNode(key) && Good(ne, key, v)
    requires key in Now(w) && M.MayShow(w.lb, ne.ident(key))
    ensures Leads(ne, false, AfterCommit(w, D.WatchPut(key, v)), path, w') && Caught(ne, w')
    ensures Now(w') == Now(w)[key := v] && P.SlotOf(ne.target(key, Now(w)[key])) in w'.lb.slots
  {
    hide P.FullInv, D.Agrees, D.Contents, GoodMap, GoodEvents, Mirrors, KnownNodes, WorldMoves, Leads, P.GensInv,
         P.FailedBound, M.Idle, P.HeardAll, M.MayShow, P.SlotOf, WellKeyed;
    var id, u := ne.ident(key), ne.target(key, v);
    var will := P.HeardAll(w.lb.wanted, w.lb.queue);
    GoodUpTo(ne, w.log, |w.log|, |w.log|);
    KnownIsStored(ne, w.d, Now(w));
    WillHold(ne, w.d.known, Now(w), will, key);
    var w1 := AfterCommit(w, D.WatchPut(key, v));
    var w2 := AfterPut(ne, w1, key, v);
    PutMove(ne, false, w1, key, v);
    AgreesPut(ne, w, key, v);
    var steps, lb := M.MoveApplied(w.lb, u);
    w' := w2.(lb := lb);
    var rest := BalancePath(ne, false, w2, steps, lb);
    MirrorsPut(ne, w.d.known, will, key, v);
    GoodStoredPut(ne, Now(w), key, v);
    OneMove(ne, false, w1, w2);
    path := [w2] + rest;
    Joined(ne, false, w1, [w2], w2, rest, w');
  }

  lemma WillHold(ne: NodeKeys, known: Values, m: Values, will: Wanted, key: string)
    requires Mirrors(ne, known, will) && KnownNodes(ne, known, m) && ne.isNode(key) && key in m
    ensures ne.ident(key) in will && will[ne.ident(key)] == ne.target(key, m[key])
  {
  }

  lemma GoodStoredPut(ne: NodeKeys, m: Values, key: string, v: string)
    requires GoodMap(ne, m) && Good(ne, key, v)
    ensures GoodMap(ne, m[key := v])
  {
    hide Good;
  }

  /** Commits must keep the slots of live keys. Take any world reached without a move, and any put of a live
      node key with a good value in another slot. If the old node is pooled or may still come into the pool
      by the time the watch has caught up, then after that one commit the system has a continuation, of
      ordinary steps only, after which all is quiet and the old node is pooled although the store does not
      hold it. */
  lemma CommittedMoveLeavesOldNode(ne: NodeKeys, run: seq<World>, key: string, v: string)
    returns (path: seq<World>, w': World)
    requires WellKeyed(ne) && WorldRun(ne, false, run) && ne.isNode(key) && Good(ne, key, v)
    requires var w := run[|run| - 1];
             && key in Now(w) && P.SlotOf(ne.target(key, v)) != P.SlotOf(ne.target(key, Now(w)[key]))
             && w.d.rev <= |w.log| && M.MayShow(CaughtUp(ne, w).lb, ne.ident(key))
    ensures var w := run[|run| - 1];
            && Leads(ne, false, AfterCommit(w, D.WatchPut(key, v)), path, w') && Quiet(w')
            && Now(w') == Now(w)[key := v] && P.SlotOf(ne.target(key, Now(w)[key])) in w'.lb.slots
            && !HoldsExactly(ne, Now(w'), w'.lb)
  {
    hide WellKeyed, WorldRun, WorldInv, WorldMoves, Leads, Quiet, HoldsExactly, CaughtUp;
    hide D.Contents, P.SlotOf, M.MayShow;
    assert run != [] by { NotEmpty(ne, run); }
    var w, e := run[|run| - 1], D.WatchPut(key, v);
    AlwaysWorldInv(ne, run, |run| - 1);
    CaughtUpMove(ne, w, e);
    var c := CaughtUp(ne, w);
    CaughtUpRests(ne, w);
    var second, w2 := MoveReceived(ne, c, key, v);
    var third;
    third, w' := ComeToRest(ne, w2);
    OneMove(ne, false, AfterCommit(w, e), AfterCommit(c, e));
    Joined(ne, false, AfterCommit(w, e), [AfterCommit(c, e)], AfterCommit(c, e), second, w2);
    path := [AfterCommit(c, e)] + second + third;
    Joined(ne, false, AfterCommit(w, e), [AfterCommit(c, e)] + second, w2, third, w');
    StoredIsGood(ne, w, key);
    OldSlotIsWrong(ne, Now(w'), w'.lb, key, ne.target(key, Now(w)[key]));
  }

  lemma NotEmpty(ne: NodeKeys, run: seq<World>)
    requires WorldRun(ne, false, run)
    ensures run != []
  {
  }

  lemma CaughtUpRests(ne: NodeKeys, w: World)
    requires w.d.rev <= |w.log|
    ensures CaughtUp(ne, w).log == w.log && CaughtUp(ne, w).d.rev == |w.log|
  {
  }

  lemma StoredIsGood(ne: NodeKeys, w: World, key: string)
    requires WorldInv(ne, w) && key in Now(w)
    ensures Good(ne, key, Now(w)[key])
  {
    GoodUpTo(ne, w.log, |w.log|, |w.log|);
  }
}
