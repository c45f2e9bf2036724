/** Discovery, event queue, event loop and health checks together: the node pools end up holding exactly
    what the store holds. */
module Convergence {
  import opened Wrappers
  import P = NodeProtocol
  import D = Discovery

  type Values = map<string, string>
  type Wanted = map<P.Identity, P.Target>

  /** Which keys are node keys, the node a value of such a key announces, and the identity of a key. */
  datatype NodeKeys = NodeKeys(env: D.Env, isNode: string -> bool, target: (string, string) -> P.Target,
                               ident: string -> P.Identity)

  /** Node keys are tracked, and distinct node keys name distinct nodes. */
  ghost predicate WellKeyed(ne: NodeKeys) {
    && (forall key :: ne.isNode(key) ==> ne.env.kind(key).Tracked?)
    && (forall key, key' :: ne.isNode(key) && ne.isNode(key') && ne.ident(key) == ne.ident(key') ==> key == key')
  }

  /** A value fit for a node key: it decodes and names the key's node. */
  predicate Good(ne: NodeKeys, key: string, v: string) {
    ne.isNode(key) ==> ne.env.decodes(key, v) && P.IdOf(ne.target(key, v)) == ne.ident(key)
  }

  ghost predicate GoodMap(ne: NodeKeys, m: Values) {
    forall key :: key in m ==> Good(ne, key, m[key])
  }

  /** If `m` has a value for the key, the new value announces a node in the same slot. */
  predicate KeepsSlot(ne: NodeKeys, m: Values, key: string, v: string) {
    ne.isNode(key) && key in m ==> P.SlotOf(ne.target(key, v)) == P.SlotOf(ne.target(key, m[key]))
  }

  ghost predicate KeepsSlots(ne: NodeKeys, m: Values, m': Values) {
    forall key :: key in m' ==> KeepsSlot(ne, m, key, m'[key])
  }

  /** Committed events: a put has a good value and does not move a key that exists; a deletion's previous
      value, when sent, is the one that was stored. A deleted key may come back in another slot. */
  predicate GoodEvent(ne: NodeKeys, m: Values, e: D.WatchEvent) {
    match e
    case WatchPut(key, v) => Good(ne, key, v) && KeepsSlot(ne, m, key, v)
    case WatchDelete(key, prev) => key in m && (prev.Some? ==> prev.value == m[key])
  }

  ghost predicate GoodEvents(ne: NodeKeys, m: Values, es: seq<D.WatchEvent>)
    decreases |es|
  {
    es == [] || (GoodEvent(ne, m, es[0]) && GoodEvents(ne, D.Stored(m, es[0]), es[1..]))
  }

  // ----- the events of the node channel -----

  /** A sent event that reaches the node channel has a good value and moves no known key. */
  predicate GoodOut(ne: NodeKeys, known: Values, o: D.Out) {
    match o
    case PutOut(key, v) => Good(ne, key, v) && KeepsSlot(ne, known, key, v)
    case HeightOut(_, _) => true
    case DeleteOut(key, prev) =>
      ne.isNode(key) ==> prev.Some? && Good(ne, key, prev.value) && KeepsSlot(ne, known, key, prev.value)
  }

  ghost predicate GoodOuts(ne: NodeKeys, known: Values, sent: seq<D.Out>)
    decreases |sent|
  {
    sent == [] ||
    (GoodOuts(ne, known, sent[..|sent| - 1])
     && GoodOut(ne, D.SeenAll(known, sent[..|sent| - 1]), sent[|sent| - 1]))
  }

  function NodeEvents(ne: NodeKeys, sent: seq<D.Out>): seq<P.Event>
    decreases |sent|
  {
    if sent == [] then []
    else NodeEvents(ne, sent[..|sent| - 1]) + NodeEvent(ne, sent[|sent| - 1])
  }

  function NodeEvent(ne: NodeKeys, o: D.Out): seq<P.Event> {
    match o
    case PutOut(key, v) => if ne.isNode(key) then [P.Put(ne.target(key, v))] else []
    case HeightOut(_, _) => []
    case DeleteOut(key, prev) =>
      if ne.isNode(key) && prev.Some? then [P.Delete(ne.target(key, prev.value))] else []
  }

  /** `w` holds exactly the nodes of `known`. */
  ghost predicate Mirrors(ne: NodeKeys, known: Values, w: Wanted) {
    && (forall key :: key in known && ne.isNode(key) ==>
          ne.ident(key) in w && w[ne.ident(key)] == ne.target(key, known[key]))
    && (forall id :: id in w ==> exists key :: key in known && ne.isNode(key) && ne.ident(key) == id)
  }

  lemma MirrorsPut(ne: NodeKeys, known: Values, w: Wanted, key: string, v: string)
    requires WellKeyed(ne) && Mirrors(ne, known, w) && ne.isNode(key)
    ensures Mirrors(ne, known[key := v], w[ne.ident(key) := ne.target(key, v)])
  {
    var known', w' := known[key := v], w[ne.ident(key) := ne.target(key, v)];
    forall id | id in w'
      ensures exists x :: x in known' && ne.isNode(x) && ne.ident(x) == id
    {
      if id == ne.ident(key) {
        assert key in known';
      } else {
        var x :| x in known && ne.isNode(x) && ne.ident(x) == id;
        assert x in known';
      }
    }
  }

  lemma MirrorsDelete(ne: NodeKeys, known: Values, w: Wanted, key: string)
    requires WellKeyed(ne) && Mirrors(ne, known, w) && ne.isNode(key)
    ensures Mirrors(ne, known - {key}, w - {ne.ident(key)})
  {
    var known' := known - {key};
    forall id | id in w - {ne.ident(key)} ensures exists x :: x in known' && ne.isNode(x) && ne.ident(x) == id {
      var x :| x in known && ne.isNode(x) && ne.ident(x) == id;
      assert x in known';
    }
  }

  lemma MirrorsOther(ne: NodeKeys, known: Values, w: Wanted, key: string, v: string)
    requires Mirrors(ne, known, w) && !ne.isNode(key)
    ensures Mirrors(ne, known[key := v], w) && Mirrors(ne, known - {key}, w)
  {
    forall id | id in w
      ensures exists x :: x in known[key := v] && ne.isNode(x) && ne.ident(x) == id
      ensures exists x :: x in known - {key} && ne.isNode(x) && ne.ident(x) == id
    {
      var x :| x in known && ne.isNode(x) && ne.ident(x) == id;
      assert x in known[key := v] && x in known - {key};
    }
  }

  lemma MirrorsOut(ne: NodeKeys, known: Values, w: Wanted, o: D.Out)
    requires WellKeyed(ne) && Mirrors(ne, known, w) && GoodOut(ne, known, o)
    ensures Mirrors(ne, D.Seen(known, o), P.HeardAll(w, NodeEvent(ne, o)))
  {
    hide Mirrors, P.SlotOf;
    if !ne.isNode(o.key) {
      MirrorsOther(ne, known, w, o.key, if o.DeleteOut? then "" else o.value);
    } else {
      match o
      case PutOut(key, v) => MirrorsPut(ne, known, w, key, v);
      case DeleteOut(key, prev) => MirrorsDelete(ne, known, w, key);
      case HeightOut(_, _) =>
    }
  }

  /** A known key's node is wanted in its slot, so an event that keeps the key's slot moves no node. */
  lemma KeepingOut(ne: NodeKeys, known: Values, w: Wanted, o: D.Out)
    requires WellKeyed(ne) && Mirrors(ne, known, w) && GoodOut(ne, known, o)
    ensures P.Keeping(w, NodeEvent(ne, o))
  {
    hide P.SlotOf, P.IdOf;
    if ne.isNode(o.key) && ne.ident(o.key) in w {
      var key :| key in known && ne.isNode(key) && ne.ident(key) == ne.ident(o.key);
      assert key == o.key;
    }
  }

  lemma {:induction false} MirrorsOuts(ne: NodeKeys, known: Values, w: Wanted, sent: seq<D.Out>)
    requires WellKeyed(ne) && Mirrors(ne, known, w) && GoodOuts(ne, known, sent)
    ensures Mirrors(ne, D.SeenAll(known, sent), P.HeardAll(w, NodeEvents(ne, sent)))
    ensures P.Keeping(w, NodeEvents(ne, sent))
    decreases |sent|
  {
    hide WellKeyed, Mirrors, GoodOut, P.SameSlot;
    if sent != [] {
      var n := |sent| - 1;
      var before, o := NodeEvents(ne, sent[..n]), sent[n];
      MirrorsOuts(ne, known, w, sent[..n]);
      MirrorsOut(ne, D.SeenAll(known, sent[..n]), P.HeardAll(w, before), o);
      KeepingOut(ne, D.SeenAll(known, sent[..n]), P.HeardAll(w, before), o);
      P.HeardConcat(w, before, NodeEvent(ne, o));
      P.KeepingConcat(w, before, NodeEvent(ne, o));
    }
  }

  // ----- what discovery sends is good -----

  lemma GoodStored(ne: NodeKeys, m: Values, e: D.WatchEvent)
    requires GoodMap(ne, m) && GoodEvent(ne, m, e)
    ensures GoodMap(ne, D.Stored(m, e))
  {
    hide Good, KeepsSlot;
  }

  lemma {:induction false} GoodStoredAll(ne: NodeKeys, m: Values, es: seq<D.WatchEvent>)
    requires GoodMap(ne, m) && GoodEvents(ne, m, es)
    ensures GoodMap(ne, D.StoredAll(m, es))
    decreases |es|
  {
    hide GoodMap, GoodEvent;
    if es != [] {
      GoodStored(ne, m, es[0]);
      GoodStoredAll(ne, D.Stored(m, es[0]), es[1..]);
    }
  }

  /** Known node values are the stored ones. */
  ghost predicate KnownNodes(ne: NodeKeys, known: Values, m: Values) {
    forall key :: ne.isNode(key) ==> (key in known <==> key in m) && (key in m ==> known[key] == m[key])
  }

  lemma KnownIsStored(ne: NodeKeys, d: D.State, m: Values)
    requires D.Agrees(ne.env, d, m) && GoodMap(ne, m) && WellKeyed(ne)
    ensures KnownNodes(ne, d.known, m) && GoodMap(ne, d.known)
  {
    hide D.SeenAll, P.IdOf;
  }

  lemma GoodPut(ne: NodeKeys, d: D.State, m: Values, key: string, v: string) returns (sent: seq<D.Out>)
    requires KnownNodes(ne, d.known, m) && Good(ne, key, v) && KeepsSlot(ne, m, key, v)
    ensures D.DispatchedPut(ne.env, d, key, v).out == d.out + sent && GoodOuts(ne, d.known, sent)
  {
    hide Good, P.SlotOf;
    assert KeepsSlot(ne, d.known, key, v);
    hide KeepsSlot, KnownNodes;
    sent := if ne.env.kind(key).Unknown? || !ne.env.decodes(key, v) then []
            else if ne.env.kind(key).Height? then [D.HeightOut(key, v)]
            else [D.PutOut(key, v)];
    OneOut(ne, d.known, sent);
  }

  lemma GoodDelete(ne: NodeKeys, d: D.State, m: Values, key: string, prev: Option<string>) returns (sent: seq<D.Out>)
    requires KnownNodes(ne, d.known, m) && GoodMap(ne, m) && key in m && (prev.Some? ==> prev.value == m[key])
    ensures D.DispatchedDelete(ne.env, d, key, prev).out == d.out + sent && GoodOuts(ne, d.known, sent)
  {
    hide Good, P.SlotOf;
    var last := if prev.Some? then prev else if key in d.known then Some(d.known[key]) else None;
    assert Good(ne, key, m[key]);
    assert GoodOut(ne, d.known, D.DeleteOut(key, last));
    hide KnownNodes, GoodMap, KeepsSlot;
    sent := if ne.env.kind(key).Tracked? then [D.DeleteOut(key, last)] else [];
    OneOut(ne, d.known, sent);
  }

  lemma OneOut(ne: NodeKeys, known: Values, sent: seq<D.Out>)
    requires |sent| <= 1 && (sent != [] ==> GoodOut(ne, known, sent[0]))
    ensures GoodOuts(ne, known, sent)
  {
    hide GoodOut;
    if sent != [] {
      assert sent[..0] == [];
    }
  }

  /** Dispatching one good event sends good events only. */
  lemma GoodDispatch(ne: NodeKeys, d: D.State, m: Values, e: D.WatchEvent) returns (sent: seq<D.Out>)
    requires WellKeyed(ne) && D.Agrees(ne.env, d, m) && GoodMap(ne, m) && GoodEvent(ne, m, e)
    ensures D.Dispatched(ne.env, d, e).out == d.out + sent && GoodOuts(ne, d.known, sent)
  {
    hide WellKeyed, D.Agrees, GoodMap, Good, KeepsSlot, KnownNodes, GoodOuts;
    KnownIsStored(ne, d, m);
    match e
    case WatchPut(key, v) => sent := GoodPut(ne, d, m, key, v);
    case WatchDelete(key, prev) => sent := GoodDelete(ne, d, m, key, prev);
  }

  lemma {:induction false} GoodResponse(ne: NodeKeys, d: D.State, m: Values, es: seq<D.WatchEvent>)
    returns (sent: seq<D.Out>)
    requires WellKeyed(ne) && D.Agrees(ne.env, d, m) && GoodMap(ne, m) && GoodEvents(ne, m, es)
    ensures D.Processed(ne.env, d, es).out == d.out + sent && GoodOuts(ne, d.known, sent)
    decreases |es|
  {
    hide D.Agrees, GoodMap, GoodEvent, GoodOuts, D.Dispatched, D.Stored, WellKeyed, D.SeenAll;
    if es == [] {
      sent := [];
      OneOut(ne, d.known, sent);
    } else {
      var d1 := D.Dispatched(ne.env, d, es[0]);
      var first := GoodDispatch(ne, d, m, es[0]);
      D.AgreesEvent(ne.env, d, m, es[0]);
      KnownAfter(ne, d, m, first, d1, D.Stored(m, es[0]));
      GoodStored(ne, m, es[0]);
      var more := GoodResponse(ne, d1, D.Stored(m, es[0]), es[1..]);
      sent := first + more;
      GoodOutsConcat(ne, d.known, first, more);
      assert d.out + sent == d.out + first + more;
    }
  }

  /** What is known after sending is what was known, with what was sent. */
  lemma KnownAfter(ne: NodeKeys, d: D.State, m: Values, sent: seq<D.Out>, d': D.State, m': Values)
    requires D.Agrees(ne.env, d, m) && D.Agrees(ne.env, d', m') && d'.out == d.out + sent
    ensures d'.known == D.SeenAll(d.known, sent)
  {
    SeenConcat(map[], d.out, sent);
    hide D.SeenAll;
  }

  lemma {:induction false} GoodOutsConcat(ne: NodeKeys, known: Values, a: seq<D.Out>, b: seq<D.Out>)
    requires GoodOuts(ne, known, a) && GoodOuts(ne, D.SeenAll(known, a), b)
    ensures GoodOuts(ne, known, a + b)
    decreases |b|
  {
    hide GoodOut;
    if b == [] {
      assert a + b == a;
    } else {
      var n := |b| - 1;
      assert (a + b)[..|a| + n] == a + b[..n];
      GoodOutsConcat(ne, known, a, b[..n]);
      SeenConcat(known, a, b[..n]);
    }
  }

  /** A key nothing was sent for is known as before. */
  lemma {:induction false} SeenOther(known: Values, sent: seq<D.Out>, key: string)
    requires forall i :: 0 <= i < |sent| ==> sent[i].key != key
    ensures key in D.SeenAll(known, sent) <==> key in known
    ensures key in known ==> D.SeenAll(known, sent)[key] == known[key]
    decreases |sent|
  {
    if sent != [] {
      SeenOther(known, sent[..|sent| - 1], key);
    }
  }

  lemma GoodJustified(ne: NodeKeys, known: Values, snap: Values, o: D.Out)
    requires GoodMap(ne, known) && GoodMap(ne, snap) && KeepsSlots(ne, known, snap)
    requires D.Justified(ne.env, known, snap, o)
    ensures GoodOut(ne, known, o)
  {
    hide Good, P.SlotOf;
  }

  lemma {:induction false} GoodResync(ne: NodeKeys, known: Values, snap: Values, sent: seq<D.Out>, n: nat)
    requires GoodMap(ne, known) && GoodMap(ne, snap) && KeepsSlots(ne, known, snap)
    requires D.ResyncEvents(ne.env, known, snap, sent) && n <= |sent|
    ensures GoodOuts(ne, known, sent[..n])
    decreases n
  {
    if n > 0 {
      GoodResync(ne, known, snap, sent, n - 1);
      assert sent[..n][..n - 1] == sent[..n - 1];
      var o := sent[n - 1];
      GoodJustified(ne, known, snap, o);
      SeenOther(known, sent[..n - 1], o.key);
      hide GoodMap, KeepsSlots, Good, P.SlotOf, D.ResyncEvents, D.SeenAll;
    }
  }

  // ----- the whole system -----

  datatype World = World(log: seq<seq<D.WatchEvent>>, d: D.State, lb: P.LB)

  /** Discovery went from `d` to `d'` and its node events were queued. */
  ghost predicate Announced(ne: NodeKeys, d: D.State, d': D.State, lb: P.LB, lb': P.LB) {
    && |d.out| <= |d'.out| && d'.out[..|d.out|] == d.out
    && lb' == lb.(queue := lb.queue + NodeEvents(ne, d'.out[|d.out|..]))
  }

  /** One step: a commit of good events, a watch response, a resync (or the first start), a step of the
      event loop or of a health check, or a step that changes none of this (a watch break, a compaction,
      a failed resync). With `hidden`, a resync may find a known key in another slot, as when a deletion
      and a new creation fell into the compacted part. */
  ghost predicate WorldMoves(ne: NodeKeys, hidden: bool, w: World, w': World) {
    || (exists batch :: Commits(ne, w, w', batch))
    || (exists header: nat :: Receives(ne, w, w', header))
    || (exists sent :: Resyncs(ne, w, w', sent) && (hidden || KeepsSlots(ne, w.d.known, D.Contents(w.log, |w.log|))))
    || (exists a :: Balances(w, w', a))
    || w' == w
  }

  ghost predicate Commits(ne: NodeKeys, w: World, w': World, batch: seq<D.WatchEvent>) {
    w' == World(w.log + [batch], w.d, w.lb) && GoodEvents(ne, D.Contents(w.log, |w.log|), batch)
  }

  ghost predicate Receives(ne: NodeKeys, w: World, w': World, header: nat) {
    w'.log == w.log && D.Responds(ne.env, w.log, w.d, header, w'.d) && Announced(ne, w.d, w'.d, w.lb, w'.lb)
  }

  ghost predicate Resyncs(ne: NodeKeys, w: World, w': World, sent: seq<D.Out>) {
    && w'.log == w.log && Announced(ne, w.d, w'.d, w.lb, w'.lb)
    && D.Resynced(ne.env, w.d, D.Contents(w.log, |w.log|), |w.log|, sent, w'.d)
  }

  ghost predicate Balances(w: World, w': World, a: P.Step) {
    !a.Emit? && P.Enabled(w.lb, a) && w' == World(w.log, w.d, P.Next(w.lb, a))
  }

  const START := World([], D.State(map[], 0, []), P.START)

  ghost predicate WorldRun(ne: NodeKeys, hidden: bool, run: seq<World>) {
    && run != [] && run[0] == START
    && forall i :: 0 <= i < |run| - 1 ==> WorldMoves(ne, hidden, run[i], run[i + 1])
  }

  ghost predicate WorldInv(ne: NodeKeys, w: World) {
    && w.d.rev <= |w.log| && D.Agrees(ne.env, w.d, D.Contents(w.log, w.d.rev))
    && GoodEvents(ne, map[], D.Flat(w.log))
    && P.FullInv(w.lb)
    && Mirrors(ne, w.d.known, P.HeardAll(w.lb.wanted, w.lb.queue))
  }

  lemma {:induction false} GoodConcat(ne: NodeKeys, m: Values, a: seq<D.WatchEvent>, b: seq<D.WatchEvent>)
    ensures GoodEvents(ne, m, a + b) <==> GoodEvents(ne, m, a) && GoodEvents(ne, D.StoredAll(m, a), b)
    decreases |a|
  {
    hide GoodEvent;
    if a == [] {
      assert a + b == b;
    } else {
      assert (a + b)[1..] == a[1..] + b;
      GoodConcat(ne, D.Stored(m, a[0]), a[1..], b);
    }
  }

  /** Up to every revision the store is good, and so are the events that follow. */
  lemma GoodUpTo(ne: NodeKeys, log: seq<seq<D.WatchEvent>>, rev: nat, header: nat)
    requires rev <= header <= |log| && GoodEvents(ne, map[], D.Flat(log))
    ensures GoodMap(ne, D.Contents(log, rev)) && GoodEvents(ne, D.Contents(log, rev), D.Flat(log[rev..header]))
  {
    assert log == log[..rev] + (log[rev..header] + log[header..]);
    D.FlatConcat(log[..rev], log[rev..header] + log[header..]);
    D.FlatConcat(log[rev..header], log[header..]);
    GoodConcat(ne, map[], D.Flat(log[..rev]), D.Flat(log[rev..header]) + D.Flat(log[header..]));
    GoodConcat(ne, D.Contents(log, rev), D.Flat(log[rev..header]), D.Flat(log[header..]));
    GoodStoredAll(ne, map[], D.Flat(log[..rev]));
  }

  lemma {:induction false} SeenConcat(m: Values, a: seq<D.Out>, b: seq<D.Out>)
    ensures D.SeenAll(m, a + b) == D.SeenAll(D.SeenAll(m, a), b)
    decreases |b|
  {
    if b == [] {
      assert a + b == a;
    } else {
      var n := |b| - 1;
      assert (a + b)[..|a| + n] == a + b[..n];
      SeenConcat(m, a, b[..n]);
    }
  }

  lemma {:induction false} Queued(lb: P.LB, es: seq<P.Event>)
    requires P.FullInv(lb) && P.Keeping(P.HeardAll(lb.wanted, lb.queue), es)
    ensures P.FullInv(lb.(queue := lb.queue + es))
    decreases |es|
  {
    hide P.FullInv, P.SameSlot, P.HeardAll;
    if es == [] {
      assert lb.queue + es == lb.queue;
    } else {
      P.FullInvStep(lb, P.Emit(es[0]));
      HeardOne(lb.wanted, lb.queue, es[0]);
      Queued(P.Next(lb, P.Emit(es[0])), es[1..]);
      assert lb.queue + [es[0]] + es[1..] == lb.queue + es;
    }
  }

  lemma HeardOne(w: Wanted, es: seq<P.Event>, e: P.Event)
    ensures P.HeardAll(w, es + [e]) == P.Heard(P.HeardAll(w, es), e)
  {
    P.HeardConcat(w, es, [e]);
    assert [e][1..] == [];
  }

  /** Sending good events keeps the queue in step with what is known. */
  lemma AnnouncedInv(ne: NodeKeys, w: World, w': World, sent: seq<D.Out>)
    requires WellKeyed(ne) && WorldInv(ne, w) && GoodOuts(ne, w.d.known, sent)
    requires w'.log == w.log && w'.d.out == w.d.out + sent && Announced(ne, w.d, w'.d, w.lb, w'.lb)
    requires w'.d.rev <= |w'.log| && D.Agrees(ne.env, w'.d, D.Contents(w'.log, w'.d.rev))
    ensures WorldInv(ne, w')
  {
    hide P.FullInv, Mirrors, GoodEvents, GoodOuts, D.Agrees, WellKeyed, D.SeenAll, P.HeardAll, P.Keeping, NodeEvents;
    assert w'.d.out[|w.d.out|..] == sent;
    KnownAfter(ne, w.d, D.Contents(w.log, w.d.rev), sent, w'.d, D.Contents(w'.log, w'.d.rev));
    MirrorsOuts(ne, w.d.known, P.HeardAll(w.lb.wanted, w.lb.queue), sent);
    Queued(w.lb, NodeEvents(ne, sent));
    P.HeardConcat(w.lb.wanted, w.lb.queue, NodeEvents(ne, sent));
  }

  lemma CommitsInv(ne: NodeKeys, w: World, w': World, batch: seq<D.WatchEvent>)
    requires WorldInv(ne, w) && Commits(ne, w, w', batch)
    ensures WorldInv(ne, w')
  {
    hide P.FullInv, Mirrors, D.Agrees;
    assert w'.log[..w.d.rev] == w.log[..w.d.rev];
    assert w.log[..|w.log|] == w.log;
    D.FlatConcat(w.log, [batch]);
    assert D.Flat([batch]) == batch + [] == batch;
    GoodConcat(ne, map[], D.Flat(w.log), batch);
  }

  lemma ReceivesInv(ne: NodeKeys, w: World, w': World, header: nat)
    requires WellKeyed(ne) && WorldInv(ne, w) && Receives(ne, w, w', header)
    ensures WorldInv(ne, w')
  {
    hide P.FullInv, Mirrors, D.Agrees, GoodEvents, GoodMap, GoodOuts, WellKeyed;
    var m, es := D.Contents(w.log, w.d.rev), D.Flat(w.log[w.d.rev..header]);
    GoodUpTo(ne, w.log, w.d.rev, header);
    var sent := GoodResponse(ne, w.d, m, es);
    D.ContentsResume(w.log, w.d.rev, header);
    D.AgreesResponse(ne.env, w.d, m, es);
    D.AgreesAnyRev(ne.env, D.Processed(ne.env, w.d, es), D.Contents(w.log, header), header);
    AnnouncedInv(ne, w, w', sent);
  }

  lemma ResyncsInv(ne: NodeKeys, w: World, w': World, sent: seq<D.Out>)
    requires WellKeyed(ne) && WorldInv(ne, w) && Resyncs(ne, w, w', sent)
    requires KeepsSlots(ne, w.d.known, D.Contents(w.log, |w.log|))
    ensures WorldInv(ne, w')
  {
    hide P.FullInv, Mirrors, D.Agrees, GoodEvents, GoodMap, GoodOuts, WellKeyed, KeepsSlots, D.ResyncEvents, KnownNodes;
    GoodUpTo(ne, w.log, w.d.rev, |w.log|);
    GoodUpTo(ne, w.log, |w.log|, |w.log|);
    KnownIsStored(ne, w.d, D.Contents(w.log, w.d.rev));
    GoodResync(ne, w.d.known, D.Contents(w.log, |w.log|), sent, |sent|);
    assert sent[..|sent|] == sent;
    AnnouncedInv(ne, w, w', sent);
  }

  lemma BalancesInv(ne: NodeKeys, w: World, w': World, a: P.Step)
    requires WorldInv(ne, w) && Balances(w, w', a)
    ensures WorldInv(ne, w')
  {
    hide P.FullInv, Mirrors, D.Agrees, GoodEvents, P.HeardAll, P.Next, P.Enabled;
    P.FullInvStep(w.lb, a);
    P.WantedAhead(w.lb, a);
  }

  lemma WorldInvStep(ne: NodeKeys, w: World, w': World)
    requires WellKeyed(ne) && WorldInv(ne, w) && WorldMoves(ne, false, w, w')
    ensures WorldInv(ne, w')
  {
    hide WorldInv, WellKeyed, Commits, Receives, Resyncs, Balances, KeepsSlots;
    if batch :| Commits(ne, w, w', batch) {
      CommitsInv(ne, w, w', batch);
    } else if header: nat :| Receives(ne, w, w', header) {
      ReceivesInv(ne, w, w', header);
    } else if sent :| Resyncs(ne, w, w', sent) && KeepsSlots(ne, w.d.known, D.Contents(w.log, |w.log|)) {
      ResyncsInv(ne, w, w', sent);
    } else if a :| Balances(w, w', a) {
      BalancesInv(ne, w, w', a);
    }
  }

  lemma StartWorld(ne: NodeKeys)
    ensures WorldInv(ne, START)
  {
    P.StartInv();
    assert START.log[..0] == [];
  }

  lemma {:induction false} AlwaysWorldInv(ne: NodeKeys, run: seq<World>, n: nat)
    requires WellKeyed(ne) && WorldRun(ne, false, run) && n < |run|
    ensures WorldInv(ne, run[n])
  {
    hide WellKeyed, WorldMoves, WorldInv;
    if n == 0 {
      StartWorld(ne);
    } else {
      AlwaysWorldInv(ne, run, n - 1);
      assert WorldMoves(ne, false, run[n - 1], run[n - 1 + 1]);
      WorldInvStep(ne, run[n - 1], run[n]);
    }
  }

  /** The watch has caught up, the queue is drained, the loop is idle, and the latest check of every node
      has passed: it neither runs nor has failed. Older checks may still run. */
  ghost predicate Quiet(w: World) {
    && w.d.rev == |w.log| && w.lb.queue == [] && w.lb.pc.Ready? && w.lb.holder.None?
    && (forall c :: c in w.lb.checks ==> !P.IsCurrent(w.lb.gens, P.IdOf(c.target), c.gen))
    && forall id :: id in w.lb.gens.current ==> w.lb.gens.current[id] !in w.lb.failed
  }

  /** The loop's part: when all is quiet, every wanted node, and no other, is in the pool as wanted. */
  lemma SettledPool(w: World)
    requires P.FullInv(w.lb) && Quiet(w)
    ensures forall id :: id in w.lb.wanted ==>
              var t := w.lb.wanted[id]; P.SlotOf(t) in w.lb.slots && w.lb.slots[P.SlotOf(t)] == P.InfoOf(t)
    ensures forall sl :: sl in w.lb.slots ==>
              P.Owner(sl) in w.lb.wanted && sl == P.SlotOf(w.lb.wanted[P.Owner(sl)])
  {
    hide P.SlotOf, P.InfoOf, P.Owner, P.AppliersInv, P.PlacesInv, P.Keeping, P.FailedInv;
  }

  /** The pools hold exactly the nodes of `m`, each in its own list and with its stored state. */
  ghost predicate HoldsExactly(ne: NodeKeys, m: Values, lb: P.LB) {
    && (forall key :: ne.isNode(key) && key in m ==>
          var t := ne.target(key, m[key]); P.SlotOf(t) in lb.slots && P.Shows(lb.slots[P.SlotOf(t)], t))
    && (forall sl :: sl in lb.slots ==>
          exists key :: key in m && ne.isNode(key) && sl == P.SlotOf(ne.target(key, m[key])))
  }

  lemma MirroredPool(ne: NodeKeys, w: World, m: Values)
    requires P.FullInv(w.lb) && Quiet(w) && Mirrors(ne, w.d.known, w.lb.wanted) && KnownNodes(ne, w.d.known, m)
    ensures HoldsExactly(ne, m, w.lb)
  {
    hide P.FullInv, P.SlotOf, P.InfoOf, P.Owner, P.Shows, Quiet;
    SettledPool(w);
    forall key | ne.isNode(key) && key in m
      ensures var t := ne.target(key, m[key]); P.SlotOf(t) in w.lb.slots && P.Shows(w.lb.slots[P.SlotOf(t)], t)
    {
      P.InfoShows(ne.target(key, m[key]));
      assert ne.ident(key) in w.lb.wanted;
    }
    forall sl | sl in w.lb.slots
      ensures exists key :: key in m && ne.isNode(key) && sl == P.SlotOf(ne.target(key, m[key]))
    {
      var key :| key in w.d.known && ne.isNode(key) && ne.ident(key) == P.Owner(sl);
      assert key in m;
    }
  }

  /** Convergence: in every run, from any history of puts and deletes, watch breaks, compactions, resyncs
      and check interleavings, whenever all is quiet the pools hold exactly the nodes of the store. A node
      may be deleted and come back under another role; only a live key must keep its slot, and a resync
      must find known keys in their slots. */
  lemma PoolsConverge(ne: NodeKeys, run: seq<World>, n: nat)
    requires WellKeyed(ne) && WorldRun(ne, false, run) && n < |run| && Quiet(run[n])
    ensures HoldsExactly(ne, D.Contents(run[n].log, |run[n].log|), run[n].lb)
  {
    hide WellKeyed, WorldRun, HoldsExactly, P.FullInv, Mirrors, D.Agrees, GoodEvents, GoodMap, KnownNodes, D.Contents;
    var w := run[n];
    var m := D.Contents(w.log, |w.log|);
    AlwaysWorldInv(ne, run, n);
    GoodUpTo(ne, w.log, |w.log|, |w.log|);
    KnownIsStored(ne, w.d, m);
    MirroredPool(ne, w, m);
  }
}
