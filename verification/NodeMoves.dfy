/** Why the events of a live node must name one slot: what happens when one does not. */
module NodeMoves {
  import opened Wrappers
  import opened NodePool
  import opened NodeProtocol

  /** Nothing is queued, running or half done. */
  predicate Idle(s: LB) {
    s.queue == [] && s.pc.Ready? && s.holder.None? && s.checks == {}
  }

  /** The latest check of no node has failed. */
  ghost predicate NoneFailed(s: LB) {
    forall id :: id in s.gens.current ==> s.gens.current[id] !in s.failed
  }

  /** The wanted node of the identity is pooled, or may still come into the pool: an event of it is still
      queued, or its latest check has not failed. */
  ghost predicate MayShow(s: LB, id: Identity) {
    || (exists i :: 0 <= i < |s.queue| && IdOf(s.queue[i].target) == id)
    || (id in s.gens.current && id in s.wanted
        && (s.gens.current[id] !in s.failed || SlotOf(s.wanted[id]) in s.slots))
  }

  lemma {:induction false} HeardLater(w: map<Identity, Target>, es: seq<Event>, id: Identity)
    requires id in HeardAll(w, es) && id !in w
    ensures exists i :: 0 <= i < |es| && IdOf(es[i].target) == id
    decreases |es|
  {
    hide IdOf;
    if IdOf(es[0].target) != id {
      HeardLater(Heard(w, es[0]), es[1..], id);
      var i :| 0 <= i < |es[1..]| && IdOf(es[1..][i].target) == id;
      assert es[i + 1] == es[1..][i];
    }
  }

  lemma MayShowTake(s: LB, id: Identity)
    requires FullInv(s) && Enabled(s, Take) && MayShow(s, id) && id in HeardAll(s.wanted, s.queue)
    ensures MayShow(Next(s, Take), id)
  {
    hide SlotOf, InfoOf, PoolInv, PlacesInv, AppliersInv, SettlingInv, Applier, IdOf, Keeping;
    var s' := Next(s, Take);
    var e := s.queue[0];
    if IdOf(e.target) == id {
      if e.Delete? {
        HeardLater(s'.wanted, s'.queue, id);
      }
    } else if i :| 0 <= i < |s.queue| && IdOf(s.queue[i].target) == id {
      assert s'.queue[i - 1] == s.queue[i];
    }
  }

  lemma MayShowKept(s: LB, s': LB, id: Identity)
    requires MayShow(s, id) && s'.queue == s.queue && s'.gens == s.gens
    requires s'.wanted == s.wanted && s'.failed == s.failed
    requires forall sl :: sl in s.slots && Owner(sl) in s.gens.current ==> sl in s'.slots
    requires id in s.gens.current && id in s.wanted ==> Owner(SlotOf(s.wanted[id])) == id
    ensures MayShow(s', id)
  {
    hide SlotOf, Owner, IdOf;
  }

  lemma MayShowRemove(s: LB, id: Identity)
    requires Inv(s) && s.pc.Removing? && MayShow(s, id)
    ensures MayShow(Next(s, Remove), id)
  {
    hide SlotOf, AppliersInv, Owner, IdOf, MayShow;
    OwnersOfWanted(s);
    OwnerOfSlot(s.pc.t);
    MayShowKept(s, Next(s, Remove), id);
  }

  lemma MayShowOther(s: LB, a: Step, id: Identity)
    requires GensInv(s) && Enabled(s, a) && !a.Emit? && !a.Fail? && !a.Take? && !a.Remove? && MayShow(s, id)
    ensures MayShow(Next(s, a), id)
  {
    hide SlotOf, InfoOf, Owner, IdOf, InPool, MayShow, IsCurrent;
    OwnersOfWanted(s);
    hide GensInv;
    MayShowKept(s, Next(s, a), id);
  }

  lemma MayShowStep(s: LB, a: Step, id: Identity)
    requires FullInv(s) && Enabled(s, a) && !a.Emit? && !a.Fail?
    requires MayShow(s, id) && id in HeardAll(s.wanted, s.queue)
    ensures MayShow(Next(s, a), id)
  {
    hide Next, MayShow, HeardAll, GensInv, AppliersInv, PlacesInv, PoolInv, SettlingInv, FailedInv, Keeping;
    if a.Take? {
      MayShowTake(s, id);
    } else if a.Remove? {
      MayShowRemove(s, id);
    } else {
      MayShowOther(s, a, id);
    }
  }

  function PcRank(pc: Pc): nat {
    match pc case Ready => 0 case Deciding(_, _) => 2 case Applying(_, _) => 1 case Removing(_) => 1
  }

  /** Fewer events, less to do for the loop, fewer checks, or the lock released. */
  predicate Closer(s: LB, s': LB) {
    || |s'.queue| < |s.queue|
    || (s'.queue == s.queue && PcRank(s'.pc) < PcRank(s.pc))
    || (s'.queue == s.queue && s'.pc == s.pc && |s'.checks| < |s.checks|)
    || (s'.queue == s.queue && s'.pc == s.pc && s'.checks == s.checks && s.holder.Some? && s'.holder.None?)
  }

  lemma PublishDrains(s: LB)
    requires s.holder.Some?
    ensures Enabled(s, Publish) && Next(s, Publish).failed == s.failed && Closer(s, Next(s, Publish))
  {
    hide SlotOf, InfoOf, IdOf, PcRank;
  }

  lemma LoopDrains(s: LB) returns (a: Step)
    requires !s.pc.Ready?
    ensures Enabled(s, a) && !a.Emit? && !a.Fail? && Next(s, a).failed == s.failed && Closer(s, Next(s, a))
  {
    hide SlotOf, InfoOf, InPool, IdOf;
    match s.pc
    case Deciding(_, _) => a := Decide;
    case Applying(_, _) => a := ApplyNow;
    case Removing(_) => a := Remove;
  }

  lemma TakeDrains(s: LB)
    requires s.pc.Ready? && s.holder.None? && s.queue != []
    ensures Enabled(s, Take) && Next(s, Take).failed == s.failed && Closer(s, Next(s, Take))
  {
    hide IdOf, PcRank;
  }

  lemma AcquireDrains(s: LB, c: Check)
    requires c in s.checks && s.holder.None?
    ensures Enabled(s, Acquire(c)) && Next(s, Acquire(c)).failed == s.failed && Closer(s, Next(s, Acquire(c)))
  {
    hide IdOf, IsCurrent, PcRank;
  }

  /** A step towards idleness. */
  lemma DrainStep(s: LB) returns (a: Step)
    requires !Idle(s)
    ensures Enabled(s, a) && !a.Emit? && !a.Fail? && Next(s, a).failed == s.failed && Closer(s, Next(s, a))
  {
    hide Next, Enabled, Closer;
    if s.holder.Some? {
      a := Publish;
      PublishDrains(s);
    } else if !s.pc.Ready? {
      a := LoopDrains(s);
    } else if s.queue != [] {
      a := Take;
      TakeDrains(s);
    } else {
      var c :| c in s.checks;
      a := Acquire(c);
      AcquireDrains(s, c);
    }
  }

  /** From every state the loop and the checks can finish: all events are taken and all checks pass. */
  lemma {:induction false} Drain(s: LB, id: Identity) returns (steps: seq<Step>, s': LB)
    requires FullInv(s) && id in HeardAll(s.wanted, s.queue) && MayShow(s, id)
    ensures Reaches(s, steps, s') && FullInv(s') && Idle(s') && MayShow(s', id)
    ensures s'.wanted == HeardAll(s.wanted, s.queue) && s'.failed == s.failed
    ensures forall i :: 0 <= i < |steps| ==> !steps[i].Emit?
    decreases |s.queue|, PcRank(s.pc), |s.checks|, if s.holder.Some? then 1 else 0
  {
    hide FullInv, MayShow, Next, HeardAll, Reaches, Enabled;
    if Idle(s) {
      steps, s' := [], s;
      DrainDone(s);
    } else {
      var a := DrainStep(s);
      FullInvStep(s, a);
      MayShowStep(s, a, id);
      WantedAhead(s, a);
      var rest;
      rest, s' := Drain(Next(s, a), id);
      steps := [a] + rest;
      ReachesMore(s, a, rest, s');
    }
  }

  lemma DrainDone(s: LB)
    requires Idle(s)
    ensures Reaches(s, [], s) && HeardAll(s.wanted, s.queue) == s.wanted
  {
  }

  function Behind(s: LB, e: Event): LB {
    s.(queue := s.queue + [e])
  }

  /** An event at the end of the queue does not disturb what goes on before it. */
  lemma BehindStep(s: LB, a: Step, e: Event)
    requires Enabled(s, a) && !a.Emit?
    ensures Enabled(Behind(s, e), a) && Next(Behind(s, e), a) == Behind(Next(s, a), e)
  {
    hide SlotOf, InfoOf, InPool, IdOf, IsCurrent;
    match a
    case Take => assert (s.queue + [e])[1..] == s.queue[1..] + [e];
    case Decide =>
    case ApplyNow =>
    case Remove =>
    case Fail(_) =>
    case Acquire(_) =>
    case Publish =>
  }

  lemma {:induction false} BehindRun(s: LB, steps: seq<Step>, s': LB, e: Event)
    requires Reaches(s, steps, s') && forall i :: 0 <= i < |steps| ==> !steps[i].Emit?
    ensures Reaches(Behind(s, e), steps, Behind(s', e))
    decreases |steps|
  {
    hide Next, Behind;
    if steps != [] {
      BehindStep(s, steps[0], e);
      BehindRun(Next(s, steps[0]), steps[1..], s', e);
    }
  }

  /** One put, taken, checked where needed, and applied. */
  ghost predicate Settles(s: LB, t: Target, s': LB) {
    && Idle(s') && s'.slots == s.slots[SlotOf(t) := InfoOf(t)] && s'.wanted == s.wanted[IdOf(t) := t]
    && s'.gens == Bumped(s.gens, IdOf(t)) && s'.failed == s.failed
  }

  /** The put is taken and its check started. */
  function Checking(s: LB, t: Target): LB {
    var g := Bumped(s.gens, IdOf(t));
    s.(gens := g, wanted := s.wanted[IdOf(t) := t], checks := s.checks + {Check(g.last, t)})
  }

  lemma CheckSettled(s: LB, t: Target) returns (steps: seq<Step>, s': LB)
    requires Idle(s)
    ensures Reaches(Checking(s, t), steps, s') && Settles(s, t, s')
    ensures forall i :: 0 <= i < |steps| ==> !steps[i].Emit?
  {
    hide SlotOf, InfoOf, IdOf;
    var c := Check(s.gens.last + 1, t);
    var s1 := Checking(s, t);
    var s2 := Next(s1, Acquire(c));
    s' := Next(s2, Publish);
    ReachesStep(s2, Publish);
    ReachesMore(s1, Acquire(c), [Publish], s');
    steps := [Acquire(c)] + [Publish];
  }

  lemma TakeSettled(s: LB, t: Target) returns (steps: seq<Step>, s': LB)
    requires Idle(s)
    ensures Reaches(Behind(s, Put(t)), steps, s') && Settles(s, t, s')
    ensures forall i :: 0 <= i < |steps| ==> !steps[i].Emit?
  {
    hide InPool, SlotOf, InfoOf, IdOf, Reaches;
    var s1 := Behind(s, Put(t));
    var s2 := Next(s1, Take);
    var s3 := Next(s2, Decide);
    var rest;
    if s3.pc.Applying? {
      rest, s' := [ApplyNow], Next(s3, ApplyNow);
      ReachesStep(s3, ApplyNow);
    } else {
      assert s3 == Checking(s, t);
      rest, s' := CheckSettled(s, t);
    }
    hide Settles, Next, Behind;
    ReachesMore(s2, Decide, rest, s');
    ReachesMore(s1, Take, [Decide] + rest, s');
    steps := [Take] + ([Decide] + rest);
  }

  lemma PutSettled(s: LB, t: Target) returns (steps: seq<Step>, s': LB)
    requires Idle(s)
    ensures Reaches(s, steps, s') && Settles(s, t, s')
  {
    hide SlotOf, InfoOf, IdOf;
    var rest;
    rest, s' := TakeSettled(s, t);
    ReachesMore(s, Emit(Put(t)), rest, s');
    steps := [Emit(Put(t))] + rest;
  }

  function FailedNow(s: LB): set<Identity> {
    set id | id in s.gens.current && s.gens.current[id] in s.failed
  }

  /** What is wanted, announced and settled once more: one failed check less, and nothing lost. */
  lemma SettledAgain(s: LB, id: Identity, s': LB)
    requires GensInv(s) && FailedBound(s) && id in FailedNow(s) && Settles(s, s.wanted[id], s')
    ensures GensInv(s') && FailedBound(s') && s'.wanted == s.wanted
    ensures FailedNow(s') == FailedNow(s) - {id} && s.slots.Keys <= s'.slots.Keys
  {
    hide SlotOf, InfoOf;
    SettledGens(s, s.wanted[id], s');
    assert s'.wanted == s.wanted;
  }

  lemma RefreshOne(s: LB, id: Identity) returns (steps: seq<Step>, s': LB)
    requires Idle(s) && GensInv(s) && FailedBound(s) && id in FailedNow(s)
    ensures Reaches(s, steps, s') && Idle(s') && GensInv(s') && FailedBound(s') && s'.wanted == s.wanted
    ensures FailedNow(s') == FailedNow(s) - {id} && s.slots.Keys <= s'.slots.Keys
  {
    assert id in s.wanted;
    hide Reaches, GensInv, FailedBound, FailedNow;
    steps, s' := PutSettled(s, s.wanted[id]);
    SettledAgain(s, id, s');
  }

  /** Announcing again what is wanted, the nodes whose check failed pass it too. */
  lemma {:induction false} Refresh(s: LB) returns (steps: seq<Step>, s': LB)
    requires Idle(s) && GensInv(s) && FailedBound(s)
    ensures Reaches(s, steps, s') && Idle(s') && NoneFailed(s') && s'.wanted == s.wanted
    ensures s.slots.Keys <= s'.slots.Keys
    decreases FailedNow(s)
  {
    if FailedNow(s) == {} {
      steps, s' := [], s;
      assert forall id :: id in s.gens.current && s.gens.current[id] in s.failed ==> id in FailedNow(s);
    } else {
      hide Reaches, FailedNow, GensInv, FailedBound, Idle, NoneFailed;
      var id :| id in FailedNow(s);
      var first, s1 := RefreshOne(s, id);
      var rest;
      rest, s' := Refresh(s1);
      steps := first + rest;
      ReachesConcat(s, first, s1, rest, s');
    }
  }

  /** All that is queued settles with the old node pooled, and then the put that moves it is applied. */
  lemma MoveApplied(s: LB, u: Target) returns (steps: seq<Step>, s': LB)
    requires FullInv(s) && IdOf(u) in HeardAll(s.wanted, s.queue) && MayShow(s, IdOf(u))
    ensures Reaches(Behind(s, Put(u)), steps, s') && forall i :: 0 <= i < |steps| ==> !steps[i].Emit?
    ensures Idle(s') && GensInv(s') && FailedBound(s')
    ensures s'.wanted == HeardAll(s.wanted, s.queue)[IdOf(u) := u]
    ensures SlotOf(HeardAll(s.wanted, s.queue)[IdOf(u)]) in s'.slots
  {
    hide Reaches, HeardAll, SlotOf, InfoOf, IdOf;
    var id := IdOf(u);
    var first, s1 := Drain(s, id);
    assert SlotOf(s1.wanted[id]) in s1.slots by { IdleShows(s1, id); }
    BehindRun(s, first, s1, Put(u));
    var second;
    second, s' := TakeSettled(s1, u);
    SettledGens(s1, u, s');
    steps := first + second;
    ReachesConcat(Behind(s, Put(u)), first, Behind(s1, Put(u)), second, s');
  }

  /** Live nodes must keep their slots. Take any state reached without a move, any put `u` of an identity
      that will still be wanted by then but in another slot: if the node it replaces is pooled or may still
      come into the pool, there is a continuation after which all is quiet, `u` is wanted, and the old node
      is still pooled. */
  lemma MoveLeavesOldNode(s: LB, u: Target) returns (steps: seq<Step>, s': LB)
    requires FullInv(s) && IdOf(u) in HeardAll(s.wanted, s.queue) && MayShow(s, IdOf(u))
    requires SlotOf(u) != SlotOf(HeardAll(s.wanted, s.queue)[IdOf(u)])
    ensures Reaches(Next(s, Emit(Put(u))), steps, s') && Idle(s') && NoneFailed(s')
    ensures IdOf(u) in s'.wanted && s'.wanted[IdOf(u)] == u
    ensures SlotOf(HeardAll(s.wanted, s.queue)[IdOf(u)]) in s'.slots
  {
    hide Reaches, HeardAll, SlotOf, InfoOf, IdOf, FullInv, MayShow, GensInv;
    var first, s1 := MoveApplied(s, u);
    var rest;
    rest, s' := Refresh(s1);
    steps := first + rest;
    ReachesConcat(Behind(s, Put(u)), first, s1, rest, s');
  }

  lemma IdleShows(s: LB, id: Identity)
    requires FullInv(s) && Idle(s) && MayShow(s, id)
    ensures id in s.wanted && SlotOf(s.wanted[id]) in s.slots
  {
    hide SlotOf, InfoOf, AppliersInv, PlacesInv, Keeping;
  }

  lemma SettledGens(s: LB, t: Target, s': LB)
    requires GensInv(s) && Settles(s, t, s')
    ensures GensInv(s')
  {
    hide SlotOf, InfoOf;
  }

  /** Of the identity of `u` only `u` itself is pooled, queued or about to be applied. */
  ghost predicate OnlyNode(s: LB, u: Target) {
    && (forall sl :: sl in s.slots && Owner(sl) == IdOf(u) ==> sl == SlotOf(u))
    && (forall t, gen: nat :: Applier(s, t, gen) && IdOf(t) == IdOf(u) && IsCurrent(s.gens, IdOf(u), gen) ==> t == u)
    && (forall i :: 0 <= i < |s.queue| && IdOf(s.queue[i].target) == IdOf(u) ==> s.queue[i] == Put(u))
  }

  /** No step from here on announces the identity. */
  ghost predicate Unannounced(id: Identity, steps: seq<Step>) {
    forall i :: 0 <= i < |steps| ==> !(steps[i].Emit? && IdOf(steps[i].e.target) == id)
  }

  lemma OnlyNodeTake(s: LB, u: Target)
    requires Inv(s) && OnlyNode(s, u) && Enabled(s, Take)
    ensures OnlyNode(Next(s, Take), u)
  {
    var e := s.queue[0];
    AppliersStep(s, Take);
    var s' := Next(s, Take);
    forall t, gen: nat | Applier(s', t, gen) && IdOf(t) == IdOf(u) && IsCurrent(s'.gens, IdOf(u), gen)
      ensures t == u
    {
      if IdOf(e.target) == IdOf(u) {
        assert Applier(s, t, gen) ==> gen <= s.gens.last;
      }
    }
    hide SlotOf, InfoOf, Owner, Inv;
  }

  lemma OnlyNodeApplied(s: LB, a: Step, u: Target)
    requires Inv(s) && OnlyNode(s, u) && Enabled(s, a) && (a.Publish? || a.ApplyNow?)
    ensures OnlyNode(Next(s, a), u)
  {
    var c := if a.Publish? then s.holder.value else Check(s.pc.gen, s.pc.t);
    assert c == Check(c.gen, c.target) && Applier(s, c.target, c.gen);
    OwnerOfSlot(c.target);
    AppliersStep(s, a);
    hide SlotOf, InfoOf, Owner, IdOf, AppliersInv, GensInv, Applier;
  }

  lemma OnlyNodeStep(s: LB, a: Step, u: Target)
    requires Inv(s) && OnlyNode(s, u) && Enabled(s, a) && !(a.Emit? && IdOf(a.e.target) == IdOf(u))
    ensures OnlyNode(Next(s, a), u)
  {
    hide SlotOf, InfoOf, Owner, IdOf, InPool, Inv, IsCurrent;
    match a
    case Take => OnlyNodeTake(s, u);
    case Publish => OnlyNodeApplied(s, a, u);
    case ApplyNow => OnlyNodeApplied(s, a, u);
    case Fail(c) => assert c == Check(c.gen, c.target);
    case Acquire(c) => assert c == Check(c.gen, c.target);
    case _ =>
  }

  lemma {:induction false} OnlyNodeReached(s: LB, steps: seq<Step>, s': LB, u: Target)
    requires Inv(s) && OnlyNode(s, u) && Reaches(s, steps, s') && Unannounced(IdOf(u), steps)
    ensures OnlyNode(s', u)
    decreases |steps|
  {
    hide Inv, OnlyNode, Next, IdOf;
    if steps != [] {
      OnlyNodeStep(s, steps[0], u);
      InvStep(s, steps[0]);
      OnlyNodeReached(Next(s, steps[0]), steps[1..], s', u);
    }
  }

  /** The other half: a put that moves a node which is neither pooled nor able to come into the pool any
      more does no harm. In every continuation without another event of the identity, the pool holds
      nothing of it outside the new slot. */
  lemma HarmlessMove(s: LB, u: Target, steps: seq<Step>, s': LB)
    requires FullInv(s) && !MayShow(s, IdOf(u)) && IdOf(u) in HeardAll(s.wanted, s.queue)
    requires Reaches(Next(s, Emit(Put(u))), steps, s') && Unannounced(IdOf(u), steps)
    ensures forall sl :: sl in s'.slots && Owner(sl) == IdOf(u) ==> sl == SlotOf(u)
  {
    InvStep(s, Emit(Put(u)));
    NothingOfIt(s, u);
    hide FullInv, Inv, MayShow, Reaches, HeardAll, Unannounced;
    OnlyNodeReached(Next(s, Emit(Put(u))), steps, s', u);
  }

  lemma NothingOfIt(s: LB, u: Target)
    requires FullInv(s) && !MayShow(s, IdOf(u)) && IdOf(u) in HeardAll(s.wanted, s.queue)
    ensures OnlyNode(Next(s, Emit(Put(u))), u)
  {
    var id := IdOf(u);
    assert id in s.wanted by {
      hide FullInv;
      if id !in s.wanted {
        HeardLater(s.wanted, s.queue, id);
      }
    }
    if s.pc.Removing? {
      OwnerOfSlot(s.pc.t);
    }
    AppliersStep(s, Emit(Put(u)));
    hide SlotOf, InfoOf, Owner, IdOf, HeardAll, Keeping, AppliersInv, SettlingInv, Applier;
  }

  // ----- runs put together -----

  lemma ReachesStep(s: LB, a: Step)
    requires Enabled(s, a)
    ensures Reaches(s, [a], Next(s, a))
  {
    assert [a][1..] == [];
  }

  lemma ReachesMore(s: LB, a: Step, rest: seq<Step>, s': LB)
    requires Enabled(s, a) && Reaches(Next(s, a), rest, s')
    ensures Reaches(s, [a] + rest, s')
  {
    hide Next;
    assert ([a] + rest)[1..] == rest;
  }

  lemma {:induction false} ReachesConcat(s: LB, a: seq<Step>, mid: LB, b: seq<Step>, s': LB)
    requires Reaches(s, a, mid) && Reaches(mid, b, s')
    ensures Reaches(s, a + b, s')
    decreases |a|
  {
    hide Next;
    if a == [] {
      assert a + b == b;
    } else {
      assert (a + b)[1..] == a[1..] + b;
      ReachesConcat(Next(s, a[0]), a[1..], mid, b, s');
    }
  }
}
