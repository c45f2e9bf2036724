/** The node event loop and its concurrent health checks (lb/lb.go:115-195, 234-260,
    lb/node_generation.go), as a state machine over their atomic steps.

    The loop handles one event at a time: an event's generation is bumped or forgotten under the
    generation lock, the pool is then read, and then changed, in separate steps. Any number of health
    checks run beside it; a check that passes takes the generation lock, compares its generation, and
    upserts its node before it lets go of the lock.
 */
module NodeProtocol {
  import opened Wrappers
  import opened NodePool

  /** A node as discovery announces it. */
  datatype Target = Target(chain: string, key: string, source: string, role: int, state: int, addr: (string, int),
                           weight: int)

  datatype Event = Put(target: Target) | Delete(target: Target)

  datatype Identity = Identity(chain: string, key: string, native: bool)

  function IdOf(t: Target): Identity {
    Identity(t.chain, t.key, t.source == "native")
  }

  function SlotOf(t: Target): Slot {
    Slot(PoolId(KindOf(t.source, t.role), t.chain), t.key)
  }

  function InfoOf(t: Target): Info {
    MakeInfo(t.key, t.addr, t.source, t.role, t.weight, t.state)
  }

  // ----- generations -----

  datatype Gens = Gens(last: nat, current: map<Identity, nat>)

  function Bumped(g: Gens, id: Identity): Gens {
    Gens(g.last + 1, g.current[id := g.last + 1])
  }

  function Forgotten(g: Gens, id: Identity): Gens {
    Gens(g.last, g.current - {id})
  }

  /** A missing entry reads as generation 0, which no check ever has. */
  predicate IsCurrent(g: Gens, id: Identity, gen: nat) {
    (if id in g.current then g.current[id] else 0) == gen
  }

  /** `nodeGenerations`. */
  class NodeGenerations {
    var last: nat
    var current: map<Identity, nat>

    constructor ()
      ensures State() == Gens(0, map[])
    {
      last, current := 0, map[];
    }

    function State(): Gens
      reads this
    {
      Gens(last, current)
    }

    method Bump(id: Identity) returns (gen: nat)
      modifies this
      ensures State() == Bumped(old(State()), id) && IsCurrent(State(), id, gen) && gen > old(last)
    {
      last := last + 1;
      current := current[id := last];
      return last;
    }

    method Forget(id: Identity)
      modifies this
      ensures State() == Forgotten(old(State()), id) && forall gen :: gen > 0 ==> !IsCurrent(State(), id, gen)
    {
      current := current - {id};
    }

    /** `ApplyIfCurrent`: under the lock, the update `apply` of the state `st` runs exactly when the
        generation is current. */
    method ApplyIfCurrent<S>(id: Identity, gen: nat, st: S, apply: S -> S) returns (applied: bool, st': S)
      ensures applied == IsCurrent(State(), id, gen)
      ensures st' == if applied then apply(st) else st
    {
      if (if id in current then current[id] else 0) != gen {
        return false, st;
      }
      return true, apply(st);
    }
  }

  // ----- the machine -----

  datatype Check = Check(gen: nat, target: Target)

  /** Where the event loop is: after a bump it has not yet looked at the pool (`Deciding`), or it is
      about to upsert without a check (`Applying`); after a forget it is about to remove (`Removing`). */
  datatype Pc = Ready | Deciding(t: Target, gen: nat) | Applying(t: Target, gen: nat) | Removing(t: Target)

  /** `holder` is the check that holds the generation lock and is about to upsert. The last three fields
      only record history: the latest put of every identity that has not been deleted since, the last
      generation applied to the pool for an identity, and the generations whose check failed. */
  datatype LB = LB(
    queue: seq<Event>, pc: Pc, gens: Gens, checks: set<Check>, holder: Option<Check>, slots: map<Slot, Info>,
    wanted: map<Identity, Target>, done: map<Identity, nat>, failed: set<nat>)

  const START := LB([], Ready, Gens(0, map[]), {}, None, map[], map[], map[], {})

  datatype Step =
    | Emit(e: Event)
    | Take
    | Decide
    | ApplyNow
    | Remove
    | Fail(c: Check)
    | Acquire(c: Check)
    | Publish

  predicate Enabled(s: LB, a: Step) {
    match a
    case Emit(_) => true
    case Take => s.pc.Ready? && s.queue != [] && s.holder.None?
    case Decide => s.pc.Deciding?
    case ApplyNow => s.pc.Applying?
    case Remove => s.pc.Removing?
    case Fail(c) => c in s.checks
    case Acquire(c) => c in s.checks && s.holder.None?
    case Publish => s.holder.Some?
  }

  function Applied(s: LB, t: Target, gen: nat): LB {
    s.(slots := s.slots[SlotOf(t) := InfoOf(t)], done := s.done[IdOf(t) := gen])
  }

  function Taken(s: LB, e: Event): LB {
    var id := IdOf(e.target);
    if e.Put? then
      var g := Bumped(s.gens, id);
      s.(gens := g, pc := Deciding(e.target, g.last), wanted := s.wanted[id := e.target])
    else s.(gens := Forgotten(s.gens, id), pc := Removing(e.target), wanted := s.wanted - {id})
  }

  ghost function Decided(s: LB): LB
    requires s.pc.Deciding?
  {
    var t := s.pc.t;
    if t.state != STATE_AVAILABLE && InPool(s.slots, t.chain, t.key, t.source == "native") then
      s.(pc := Applying(t, s.pc.gen))
    else s.(pc := Ready, checks := s.checks + {Check(s.pc.gen, t)})
  }

  ghost function Next(s: LB, a: Step): LB
    requires Enabled(s, a)
  {
    match a
    case Emit(e) => s.(queue := s.queue + [e])
    case Take => Taken(s.(queue := s.queue[1..]), s.queue[0])
    case Decide => Decided(s)
    case ApplyNow => Applied(s, s.pc.t, s.pc.gen).(pc := Ready)
    case Remove => s.(slots := s.slots - {SlotOf(s.pc.t)}, pc := Ready)
    case Fail(c) => s.(checks := s.checks - {c}, failed := s.failed + {c.gen})
    case Acquire(c) =>
      var t := s.(checks := s.checks - {c});
      if IsCurrent(s.gens, IdOf(c.target), c.gen) then t.(holder := Some(c)) else t
    case Publish => Applied(s, s.holder.value.target, s.holder.value.gen).(holder := None)
  }

  ghost predicate Reaches(s: LB, steps: seq<Step>, s': LB)
    decreases |steps|
  {
    if steps == [] then s == s'
    else Enabled(s, steps[0]) && Reaches(Next(s, steps[0]), steps[1..], s')
  }

  // ----- generations fence stale checks -----

  /** The checks that may still change the pool. */
  function Live(s: LB): set<Check> {
    s.checks + (if s.holder.Some? then {s.holder.value} else {})
  }

  /** The loop or a live check may still apply generation `gen` of the identity of `t`. */
  predicate Applier(s: LB, t: Target, gen: nat) {
    Check(gen, t) in Live(s) || s.pc == Deciding(t, gen) || s.pc == Applying(t, gen)
  }

  ghost predicate GensInv(s: LB) {
    && s.wanted.Keys == s.gens.current.Keys
    && (forall id :: id in s.gens.current ==> 1 <= s.gens.current[id] <= s.gens.last && IdOf(s.wanted[id]) == id)
    && (forall i, j :: i in s.gens.current && j in s.gens.current && s.gens.current[i] == s.gens.current[j] ==> i == j)
  }

  /** Whoever may apply a generation does so for a generation already given out, for which no one else
      may, and which is newer than everything applied to that identity if it is still current. */
  ghost predicate AppliersInv(s: LB) {
    && (forall t, gen: nat :: Applier(s, t, gen) ==> 1 <= gen <= s.gens.last)
    && (forall t, t', gen: nat :: Applier(s, t, gen) && Applier(s, t', gen) ==> t == t')
    && (forall t, gen: nat :: Applier(s, t, gen) && IsCurrent(s.gens, IdOf(t), gen) ==>
          IdOf(t) in s.wanted && s.wanted[IdOf(t)] == t && (IdOf(t) in s.done ==> s.done[IdOf(t)] < gen))
    && (forall id :: id in s.done ==> s.done[id] <= s.gens.last)
  }

  /** Each generation has at most one place it can be applied from; what the loop or the lock holder is
      about to apply is current; what the loop is about to remove has no generation. */
  ghost predicate PlacesInv(s: LB) {
    && (s.holder.Some? ==> s.holder.value !in s.checks)
    && (s.holder.Some? ==> IsCurrent(s.gens, IdOf(s.holder.value.target), s.holder.value.gen))
    && (s.pc.Deciding? || s.pc.Applying? ==>
          Check(s.pc.gen, s.pc.t) !in Live(s) && IsCurrent(s.gens, IdOf(s.pc.t), s.pc.gen))
    && (s.pc.Removing? ==> IdOf(s.pc.t) !in s.gens.current)
  }

  ghost predicate Inv(s: LB) {
    GensInv(s) && AppliersInv(s) && PlacesInv(s)
  }

  /** A bump gives its only applier a generation newer than all others. */
  lemma AppliersBumped(s: LB, s': LB, t: Target)
    requires GensInv(s) && AppliersInv(s)
    requires s'.gens == Bumped(s.gens, IdOf(t)) && s'.wanted == s.wanted[IdOf(t) := t] && s'.done == s.done
    requires forall u, gen: nat :: Applier(s', u, gen) ==> Applier(s, u, gen) || (u == t && gen == s.gens.last + 1)
    ensures AppliersInv(s')
  {
    hide Applier, IdOf;
    assert forall u, gen: nat :: Applier(s, u, gen) && IsCurrent(s'.gens, IdOf(u), gen) ==>
        IdOf(u) != IdOf(t) && IsCurrent(s.gens, IdOf(u), gen);
  }

  lemma InvTakePut(s: LB)
    requires Inv(s) && Enabled(s, Take) && s.queue[0].Put?
    ensures Inv(Next(s, Take))
  {
    var s' := Next(s, Take);
    var t := s.queue[0].target;
    AppliersBumped(s, s', t);
    assert GensInv(s');
    assert !Applier(s, t, s.gens.last + 1);
    hide AppliersInv, GensInv;
  }

  lemma FewerAppliers(s: LB, s': LB)
    requires GensInv(s) && AppliersInv(s)
    requires s'.gens == s.gens && s'.wanted == s.wanted && s'.done == s.done
    requires forall u, gen: nat :: Applier(s', u, gen) ==> Applier(s, u, gen)
    ensures GensInv(s') && AppliersInv(s')
  {
    hide Applier;
  }

  lemma InvTakeDelete(s: LB)
    requires Inv(s) && Enabled(s, Take) && s.queue[0].Delete?
    ensures Inv(Next(s, Take))
  {
    var s' := Next(s, Take);
    assert forall u, gen: nat :: Applier(s', u, gen) ==> Applier(s, u, gen);
  }

  lemma InvDecide(s: LB)
    requires Inv(s) && Enabled(s, Decide)
    ensures Inv(Next(s, Decide))
  {
    hide GensInv, AppliersInv, InPool, IdOf;
    FewerAppliers(s, Next(s, Decide));
  }

  /** Applying a generation uses up its only applier. */
  lemma InvApplied(s: LB, s': LB, t: Target, gen: nat)
    requires Inv(s) && Applier(s, t, gen) && IsCurrent(s.gens, IdOf(t), gen)
    requires forall u, g: nat :: Applier(s', u, g) ==> Applier(s, u, g) && g != gen
    requires s'.gens == s.gens && s'.wanted == s.wanted && s'.done == s.done[IdOf(t) := gen] && PlacesInv(s')
    ensures Inv(s')
  {
  }

  lemma InvApplyNow(s: LB)
    requires Inv(s) && Enabled(s, ApplyNow)
    ensures Inv(Next(s, ApplyNow))
  {
    hide SlotOf, InfoOf, IdOf;
    var s' := Next(s, ApplyNow);
    assert Applier(s, s.pc.t, s.pc.gen);
    forall u, g: nat | Applier(s', u, g) ensures Applier(s, u, g) && g != s.pc.gen {
      assert Applier(s, u, g);
    }
    InvApplied(s, s', s.pc.t, s.pc.gen);
  }

  lemma InvPublish(s: LB)
    requires Inv(s) && Enabled(s, Publish)
    ensures Inv(Next(s, Publish))
  {
    var s' := Next(s, Publish);
    var c := s.holder.value;
    assert c == Check(c.gen, c.target) && Applier(s, c.target, c.gen);
    forall u, g: nat | Applier(s', u, g) ensures Applier(s, u, g) && g != c.gen {
      assert Applier(s, u, g);
    }
    InvApplied(s, s', c.target, c.gen);
  }

  lemma InvCheckStep(s: LB, a: Step)
    requires Inv(s) && Enabled(s, a) && (a.Fail? || a.Acquire?)
    ensures Inv(Next(s, a))
  {
    hide GensInv, IdOf, IsCurrent;
    var s' := Next(s, a);
    assert a.c == Check(a.c.gen, a.c.target);
    assert Applier(s, a.c.target, a.c.gen);
    hide AppliersInv;
    FewerAppliers(s, s');
  }

  /** Every step keeps the invariant. */
  lemma InvStep(s: LB, a: Step)
    requires Inv(s) && Enabled(s, a)
    ensures Inv(Next(s, a))
  {
    match a
    case Emit(e) => FewerAppliers(s, Next(s, a));
    case Take => if s.queue[0].Put? { InvTakePut(s); } else { InvTakeDelete(s); }
    case Decide => InvDecide(s);
    case ApplyNow => InvApplyNow(s);
    case Remove => FewerAppliers(s, Next(s, a));
    case Fail(c) => InvCheckStep(s, a);
    case Acquire(c) => InvCheckStep(s, a);
    case Publish => InvPublish(s);
  }

  lemma {:induction false} ReachedInv(s: LB, steps: seq<Step>, s': LB)
    requires Inv(s) && Reaches(s, steps, s')
    ensures Inv(s')
    decreases |steps|
  {
    if steps != [] {
      InvStep(s, steps[0]);
      ReachedInv(Next(s, steps[0]), steps[1..], s');
    }
  }

  ghost predicate Reachable(s: LB) {
    exists steps :: Reaches(START, steps, s)
  }

  lemma ReachableInv(s: LB)
    requires Reachable(s)
    ensures Inv(s)
  {
    var steps :| Reaches(START, steps, s);
    ReachedInv(START, steps, s);
  }

  /** In every reachable state, whatever is about to be applied to an identity, by the loop or by a
      check, has a larger generation than everything applied to that identity before. */
  lemma AppliedGenerationsIncrease(s: LB)
    requires Reachable(s)
    ensures s.holder.Some? ==>
              var c := s.holder.value;
              IdOf(c.target) in s.done ==> s.done[IdOf(c.target)] < c.gen
    ensures s.pc.Applying? ==> IdOf(s.pc.t) in s.done ==> s.done[IdOf(s.pc.t)] < s.pc.gen
  {
    ReachableInv(s);
    if s.holder.Some? {
      assert s.holder.value == Check(s.holder.value.gen, s.holder.value.target);
      assert Applier(s, s.holder.value.target, s.holder.value.gen);
    }
    if s.pc.Applying? {
      assert Applier(s, s.pc.t, s.pc.gen);
    }
  }

  /** Only generations after `n` are current for the identity. */
  predicate FreshAfter(s: LB, id: Identity, n: nat) {
    n <= s.gens.last && (id in s.gens.current ==> s.gens.current[id] > n)
  }

  lemma {:induction false} StaysFresh(s: LB, steps: seq<Step>, s': LB, id: Identity, n: nat)
    requires Reaches(s, steps, s') && FreshAfter(s, id, n)
    ensures FreshAfter(s', id, n)
    decreases |steps|
  {
    if steps != [] {
      StaysFresh(Next(s, steps[0]), steps[1..], s', id, n);
    }
  }

  /** Once the loop has taken a put or delete of an identity, no health check of that identity that was
      already running, or already given a generation, ever reaches the pool: in every continuation, a
      check of that identity that is about to upsert was started after the event was taken. */
  lemma StaleChecksNeverApply(s: LB, steps: seq<Step>, s': LB)
    requires Reachable(s) && Enabled(s, Take) && Reaches(Next(s, Take), steps, s')
    ensures var id := IdOf(s.queue[0].target);
            s'.holder.Some? && IdOf(s'.holder.value.target) == id ==>
              s'.holder.value.gen > s.gens.last && s'.holder.value !in Live(s)
  {
    var id := IdOf(s.queue[0].target);
    ReachableInv(s);
    InvStep(s, Take);
    ReachedInv(Next(s, Take), steps, s');
    StaysFresh(Next(s, Take), steps, s', id, s.gens.last);
    if s'.holder.Some? && IdOf(s'.holder.value.target) == id {
      var c := s'.holder.value;
      assert c == Check(c.gen, c.target);
      assert Applier(s', c.target, c.gen);
      assert c in Live(s) ==> Applier(s, c.target, c.gen);
    }
  }

  // ----- the pool holds what the latest events say -----

  function Owner(sl: Slot): Identity {
    Identity(sl.pool.chain, sl.key, sl.pool.kind == Native)
  }

  lemma OwnerOfSlot(t: Target)
    ensures Owner(SlotOf(t)) == IdOf(t)
  {
  }

  /** What is wanted once an event has been taken. */
  function Heard(w: map<Identity, Target>, e: Event): map<Identity, Target> {
    var id := IdOf(e.target);
    if e.Put? then w[id := e.target] else w - {id}
  }

  function HeardAll(w: map<Identity, Target>, es: seq<Event>): map<Identity, Target>
    decreases |es|
  {
    if es == [] then w else HeardAll(Heard(w, es[0]), es[1..])
  }

  lemma {:induction false} HeardConcat(w: map<Identity, Target>, a: seq<Event>, b: seq<Event>)
    ensures HeardAll(w, a + b) == HeardAll(HeardAll(w, a), b)
    decreases |a|
  {
    if a == [] {
      assert a + b == b;
    } else {
      assert (a + b)[1..] == a[1..] + b;
      HeardConcat(Heard(w, a[0]), a[1..], b);
    }
  }

  /** An event of an identity that is still wanted names the slot the identity has. */
  predicate SameSlot(w: map<Identity, Target>, e: Event) {
    IdOf(e.target) in w ==> SlotOf(e.target) == SlotOf(w[IdOf(e.target)])
  }

  /** Taken in order, the events keep slots: a live node is never moved. */
  predicate Keeping(w: map<Identity, Target>, es: seq<Event>)
    decreases |es|
  {
    es == [] || (SameSlot(w, es[0]) && Keeping(Heard(w, es[0]), es[1..]))
  }

  lemma {:induction false} KeepingConcat(w: map<Identity, Target>, a: seq<Event>, b: seq<Event>)
    ensures Keeping(w, a + b) <==> Keeping(w, a) && Keeping(HeardAll(w, a), b)
    decreases |a|
  {
    hide SameSlot;
    if a == [] {
      assert a + b == b;
    } else {
      assert (a + b)[1..] == a[1..] + b;
      KeepingConcat(Heard(w, a[0]), a[1..], b);
    }
  }

  /** Every pooled node sits in the slot of a wanted node, or in the one the loop is about to clear; and
      when an identity's latest event has been applied, the pool shows exactly that event's node. */
  ghost predicate PoolInv(s: LB) {
    && (forall sl :: sl in s.slots ==>
          || (Owner(sl) in s.wanted && sl == SlotOf(s.wanted[Owner(sl)]))
          || (s.pc.Removing? && sl == SlotOf(s.pc.t)))
    && (forall id :: id in s.gens.current && id in s.wanted && id in s.done && s.done[id] == s.gens.current[id] ==>
          SlotOf(s.wanted[id]) in s.slots && s.slots[SlotOf(s.wanted[id])] == InfoOf(s.wanted[id]))
  }

  /** The latest generation of an identity is still to be applied, has failed its check, or is applied. */
  ghost predicate SettlingInv(s: LB) {
    forall id :: id in s.gens.current && id in s.wanted ==>
      || Applier(s, s.wanted[id], s.gens.current[id])
      || s.gens.current[id] in s.failed
      || (id in s.done && s.done[id] == s.gens.current[id])
  }

  predicate FailedBound(s: LB) {
    forall gen :: gen in s.failed ==> gen <= s.gens.last
  }

  /** A generation whose check failed is applied by no one. */
  ghost predicate FailedInv(s: LB) {
    FailedBound(s) && forall t, gen: nat :: Applier(s, t, gen) ==> gen !in s.failed
  }

  ghost predicate FullInv(s: LB) {
    Inv(s) && Keeping(s.wanted, s.queue) && PoolInv(s) && SettlingInv(s) && FailedInv(s)
  }

  /** A step that is no announcement, or announces no move. */
  predicate KeepsSlot(s: LB, a: Step) {
    a.Emit? ==> SameSlot(HeardAll(s.wanted, s.queue), a.e)
  }

  ghost predicate KeepingRun(s: LB, steps: seq<Step>)
    decreases |steps|
  {
    steps == [] || (Enabled(s, steps[0]) && KeepsSlot(s, steps[0]) && KeepingRun(Next(s, steps[0]), steps[1..]))
  }

  /** Taking an event moves it from the queue into what is wanted; other steps touch neither. */
  lemma WantedAhead(s: LB, a: Step)
    requires !a.Emit? && Enabled(s, a)
    ensures var s' := Next(s, a); HeardAll(s'.wanted, s'.queue) == HeardAll(s.wanted, s.queue)
  {
    hide SlotOf, InfoOf, InPool, IsCurrent;
  }

  lemma KeepingStep(s: LB, a: Step)
    requires Keeping(s.wanted, s.queue) && Enabled(s, a) && KeepsSlot(s, a)
    ensures Keeping(Next(s, a).wanted, Next(s, a).queue)
  {
    hide SlotOf, InfoOf, InPool, IsCurrent, SameSlot;
    if a.Emit? {
      KeepingConcat(s.wanted, s.queue, [a.e]);
      assert [a.e][1..] == [];
    }
  }

  lemma SettlingTake(s: LB)
    requires Inv(s) && SettlingInv(s) && Enabled(s, Take)
    ensures SettlingInv(Next(s, Take))
  {
    hide AppliersInv, PlacesInv, IdOf;
  }

  lemma SettlingCheck(s: LB, a: Step)
    requires GensInv(s) && SettlingInv(s) && Enabled(s, a) && (a.Fail? || a.Acquire?)
    ensures SettlingInv(Next(s, a))
  {
    assert a.c == Check(a.c.gen, a.c.target);
  }

  lemma SettlingApplied(s: LB, a: Step)
    requires Inv(s) && SettlingInv(s) && Enabled(s, a) && (a.ApplyNow? || a.Publish?)
    ensures SettlingInv(Next(s, a))
  {
    var s' := Next(s, a);
    var c := if a.Publish? then s.holder.value else Check(s.pc.gen, s.pc.t);
    assert c == Check(c.gen, c.target) && Applier(s, c.target, c.gen);
    hide AppliersInv, PlacesInv, SlotOf, InfoOf;
  }

  lemma SettlingStep(s: LB, a: Step)
    requires Inv(s) && SettlingInv(s) && Enabled(s, a)
    ensures SettlingInv(Next(s, a))
  {
    hide AppliersInv, PlacesInv, InPool;
    match a
    case Take => SettlingTake(s);
    case Fail(_) => SettlingCheck(s, a);
    case Acquire(_) => SettlingCheck(s, a);
    case ApplyNow => SettlingApplied(s, a);
    case Publish => SettlingApplied(s, a);
    case Emit(_) =>
    case Decide =>
    case Remove =>
  }

  lemma AppliersStep(s: LB, a: Step)
    requires Enabled(s, a)
    ensures forall t, gen: nat :: Applier(Next(s, a), t, gen) ==>
              Applier(s, t, gen) || (a.Take? && gen == s.gens.last + 1)
  {
    hide SlotOf, InfoOf, IdOf, InPool;
    if a.Fail? || a.Acquire? {
      assert a.c == Check(a.c.gen, a.c.target);
    }
  }

  lemma FailUsesUp(s: LB, c: Check)
    requires Inv(s) && c in s.checks
    ensures forall t :: !Applier(Next(s, Fail(c)), t, c.gen)
  {
    assert c == Check(c.gen, c.target);
    assert Applier(s, c.target, c.gen) && c.gen <= s.gens.last;
    AppliersStep(s, Fail(c));
    hide GensInv;
  }

  lemma FailedStep(s: LB, a: Step)
    requires Inv(s) && FailedInv(s) && Enabled(s, a)
    ensures FailedInv(Next(s, a))
  {
    AppliersStep(s, a);
    if a.Fail? {
      FailUsesUp(s, a.c);
      assert a.c == Check(a.c.gen, a.c.target) && Applier(s, a.c.target, a.c.gen);
    }
    hide Applier, PlacesInv, GensInv, IdOf, SlotOf, InfoOf, InPool;
  }

  lemma AppliedIsWanted(s: LB, t: Target, gen: nat)
    requires Inv(s) && Applier(s, t, gen) && IsCurrent(s.gens, IdOf(t), gen)
    ensures IdOf(t) in s.wanted && s.wanted[IdOf(t)] == t
  {
  }

  lemma OwnersOfWanted(s: LB)
    requires GensInv(s)
    ensures forall id :: id in s.gens.current ==> Owner(SlotOf(s.wanted[id])) == id
  {
    forall id | id in s.gens.current ensures Owner(SlotOf(s.wanted[id])) == id {
      OwnerOfSlot(s.wanted[id]);
    }
  }

  /** Applying the current generation of an identity keeps the pool right. */
  lemma PoolApplied(s: LB, s': LB, t: Target, gen: nat)
    requires Inv(s) && PoolInv(s)
    requires Applier(s, t, gen) && IsCurrent(s.gens, IdOf(t), gen)
    requires s'.gens == s.gens && s'.wanted == s.wanted && s'.done == s.done[IdOf(t) := gen]
    requires s'.slots == s.slots[SlotOf(t) := InfoOf(t)] && (s.pc.Removing? ==> s'.pc == s.pc)
    ensures PoolInv(s')
  {
    hide AppliersInv, PlacesInv, Applier, SlotOf, InfoOf, Owner, IdOf;
    AppliedIsWanted(s, t, gen);
    OwnerOfSlot(t);
    OwnersOfWanted(s);
  }

  lemma PoolRemoved(s: LB)
    requires Inv(s) && PoolInv(s) && s.pc.Removing?
    ensures PoolInv(Next(s, Remove))
  {
    OwnerOfSlot(s.pc.t);
    OwnersOfWanted(s);
    hide AppliersInv, Applier, SlotOf, InfoOf, Owner, IdOf;
  }

  lemma PoolTakenPut(s: LB, s': LB, t: Target)
    requires Inv(s) && PoolInv(s) && !s.pc.Removing? && SameSlot(s.wanted, Put(t))
    requires s'.slots == s.slots && s'.done == s.done
    requires s'.gens == Bumped(s.gens, IdOf(t)) && s'.wanted == s.wanted[IdOf(t) := t]
    ensures PoolInv(s')
  {
    hide PlacesInv, InfoOf, SlotOf, Owner, IdOf, Applier;
    OwnerOfSlot(t);
    OwnersOfWanted(s);
  }

  lemma PoolTakenDelete(s: LB, s': LB, t: Target)
    requires Inv(s) && PoolInv(s) && !s.pc.Removing? && SameSlot(s.wanted, Delete(t))
    requires s'.slots == s.slots && s'.done == s.done && s'.pc == Removing(t)
    requires s'.gens == Forgotten(s.gens, IdOf(t)) && s'.wanted == s.wanted - {IdOf(t)}
    ensures PoolInv(s')
  {
    hide PlacesInv, AppliersInv, InfoOf, SlotOf, Owner, IdOf, Applier;
    OwnerOfSlot(t);
    OwnersOfWanted(s);
  }

  lemma PoolTaken(s: LB)
    requires Inv(s) && PoolInv(s) && Enabled(s, Take) && SameSlot(s.wanted, s.queue[0])
    ensures PoolInv(Next(s, Take))
  {
    hide Inv, PoolInv, SameSlot, InfoOf, SlotOf, IdOf;
    if s.queue[0].Put? {
      PoolTakenPut(s, Next(s, Take), s.queue[0].target);
    } else {
      PoolTakenDelete(s, Next(s, Take), s.queue[0].target);
    }
  }

  /** A step that leaves the pool and the history alone and does not start or end a removal. */
  lemma PoolSame(s: LB, s': LB)
    requires PoolInv(s) && s'.slots == s.slots && s'.gens == s.gens && s'.wanted == s.wanted && s'.done == s.done
    requires s.pc.Removing? ==> s'.pc == s.pc
    ensures PoolInv(s')
  {
    hide InfoOf, SlotOf, Owner;
  }

  lemma PoolInvStep(s: LB, a: Step)
    requires Inv(s) && PoolInv(s) && Enabled(s, a) && (a.Take? ==> SameSlot(s.wanted, s.queue[0]))
    ensures PoolInv(Next(s, a))
  {
    hide InfoOf, SlotOf, InPool, PoolInv, GensInv, AppliersInv, SameSlot;
    match a
    case ApplyNow =>
      assert Applier(s, s.pc.t, s.pc.gen);
      PoolApplied(s, Next(s, a), s.pc.t, s.pc.gen);
    case Publish =>
      var c := s.holder.value;
      assert c == Check(c.gen, c.target) && Applier(s, c.target, c.gen);
      PoolApplied(s, Next(s, a), c.target, c.gen);
    case Remove => PoolRemoved(s);
    case Take => PoolTaken(s);
    case Emit(_) => PoolSame(s, Next(s, a));
    case Decide => PoolSame(s, Next(s, a));
    case Fail(_) => PoolSame(s, Next(s, a));
    case Acquire(_) => PoolSame(s, Next(s, a));
  }

  lemma FullInvStep(s: LB, a: Step)
    requires FullInv(s) && Enabled(s, a) && KeepsSlot(s, a)
    ensures FullInv(Next(s, a))
  {
    hide Inv, PoolInv, SettlingInv, FailedInv, Next, KeepsSlot, SameSlot;
    FailedStep(s, a);
    InvStep(s, a);
    KeepingStep(s, a);
    PoolInvStep(s, a);
    SettlingStep(s, a);
  }

  lemma {:induction false} FullInvReached(s: LB, steps: seq<Step>, s': LB)
    requires FullInv(s) && Reaches(s, steps, s') && KeepingRun(s, steps)
    ensures FullInv(s')
    decreases |steps|
  {
    hide FullInv, Next, KeepsSlot;
    if steps != [] {
      FullInvStep(s, steps[0]);
      FullInvReached(Next(s, steps[0]), steps[1..], s');
    }
  }

  lemma StartInv()
    ensures FullInv(START)
  {
  }

  /** In every run in which live nodes keep their slots: a pooled node belongs to an identity that was put
      and not deleted since, except the one the loop is just removing. A node may come back under another
      role once it has been deleted. */
  lemma RemovedNodesStayOut(steps: seq<Step>, s: LB, id: Identity)
    requires Reaches(START, steps, s) && KeepingRun(START, steps)
    requires id !in s.wanted && !(s.pc.Removing? && IdOf(s.pc.t) == id)
    ensures forall sl :: sl in s.slots ==> Owner(sl) != id
  {
    StartInv();
    FullInvReached(START, steps, s);
    if s.pc.Removing? {
      OwnerOfSlot(s.pc.t);
    }
    hide Inv, SettlingInv, Reaches, KeepingRun, SlotOf, IdOf, Owner;
  }

  // ----- what stands in every run, moves or not -----

  /** No step from here on takes an event of the identity. */
  ghost predicate NoEventOf(id: Identity, s: LB, steps: seq<Step>)
    decreases |steps|
  {
    steps == [] ||
    (Enabled(s, steps[0]) && (steps[0].Take? ==> IdOf(s.queue[0].target) != id)
     && NoEventOf(id, Next(s, steps[0]), steps[1..]))
  }

  /** The generation of `t` is the current one of its identity, has been applied and shows. */
  ghost predicate Standing(s: LB, t: Target, gen: nat) {
    var id := IdOf(t);
    && id in s.gens.current && s.gens.current[id] == gen
    && id in s.done && s.done[id] == gen
    && SlotOf(t) in s.slots && s.slots[SlotOf(t)] == InfoOf(t)
  }

  /** Whoever applies a generation applies one that is not standing. */
  lemma AppliesOther(s: LB, t: Target, gen: nat, c: Check)
    requires Inv(s) && Standing(s, t, gen) && Applier(s, c.target, c.gen)
    requires IsCurrent(s.gens, IdOf(c.target), c.gen)
    ensures IdOf(c.target) != IdOf(t) && SlotOf(c.target) != SlotOf(t)
  {
    OwnerOfSlot(t);
    OwnerOfSlot(c.target);
    hide SlotOf, Owner, Applier, PlacesInv;
  }

  lemma StandingStep(s: LB, a: Step, t: Target, gen: nat)
    requires Inv(s) && Standing(s, t, gen) && Enabled(s, a) && (a.Take? ==> IdOf(s.queue[0].target) != IdOf(t))
    ensures Standing(Next(s, a), t, gen)
  {
    if a.Publish? {
      assert s.holder.value == Check(s.holder.value.gen, s.holder.value.target);
      AppliesOther(s, t, gen, s.holder.value);
    } else if a.ApplyNow? {
      AppliesOther(s, t, gen, Check(s.pc.gen, s.pc.t));
    } else if a.Remove? {
      OwnerOfSlot(t);
      OwnerOfSlot(s.pc.t);
    }
    hide AppliersInv, SlotOf, InfoOf, Owner, IdOf, InPool;
  }

  /** What was applied stands until a newer event of that identity is taken. */
  lemma {:induction false} AppliedStands(s: LB, steps: seq<Step>, s': LB, t: Target, gen: nat)
    requires Inv(s) && Standing(s, t, gen) && Reaches(s, steps, s') && NoEventOf(IdOf(t), s, steps)
    ensures Standing(s', t, gen)
    decreases |steps|
  {
    if steps != [] {
      hide Inv, Standing, Next;
      StandingStep(s, steps[0], t, gen);
      InvStep(s, steps[0]);
      AppliedStands(Next(s, steps[0]), steps[1..], s', t, gen);
    }
  }

  /** An update the loop applies without a check, a downgrade, is never undone by an older check: in every
      run, moves or not, the pool shows it until a newer event of that identity is taken. */
  lemma DowngradeStands(s: LB, steps: seq<Step>, s': LB)
    requires Reachable(s) && s.pc.Applying? && Reaches(Next(s, ApplyNow), steps, s')
    requires NoEventOf(IdOf(s.pc.t), Next(s, ApplyNow), steps)
    ensures SlotOf(s.pc.t) in s'.slots && s'.slots[SlotOf(s.pc.t)] == InfoOf(s.pc.t)
  {
    ReachableInv(s);
    InvStep(s, ApplyNow);
    assert Standing(Next(s, ApplyNow), s.pc.t, s.pc.gen);
    hide Inv, Next, NoEventOf, Reachable, Reaches, SlotOf, InfoOf;
    AppliedStands(Next(s, ApplyNow), steps, s', s.pc.t, s.pc.gen);
  }

  /** The slot is clear and its identity has no generation. */
  ghost predicate Cleared(s: LB, t: Target) {
    IdOf(t) !in s.gens.current && SlotOf(t) !in s.slots
  }

  lemma ClearedStep(s: LB, a: Step, t: Target)
    requires Inv(s) && Cleared(s, t) && Enabled(s, a) && (a.Take? ==> IdOf(s.queue[0].target) != IdOf(t))
    ensures Cleared(Next(s, a), t)
  {
    OwnerOfSlot(t);
    if a.Publish? {
      var c := s.holder.value;
      assert c == Check(c.gen, c.target) && Applier(s, c.target, c.gen);
      OwnerOfSlot(c.target);
    } else if a.ApplyNow? {
      assert Applier(s, s.pc.t, s.pc.gen);
      OwnerOfSlot(s.pc.t);
    }
    hide SlotOf, InfoOf, Owner, IdOf, InPool, Applier;
  }

  lemma {:induction false} ClearedStands(s: LB, steps: seq<Step>, s': LB, t: Target)
    requires Inv(s) && Cleared(s, t) && Reaches(s, steps, s') && NoEventOf(IdOf(t), s, steps)
    ensures Cleared(s', t)
    decreases |steps|
  {
    if steps != [] {
      hide Inv, Cleared, Next;
      ClearedStep(s, steps[0], t);
      InvStep(s, steps[0]);
      ClearedStands(Next(s, steps[0]), steps[1..], s', t);
    }
  }

  /** In every run, moves or not, the slot a delete clears stays clear until a newer event of that identity
      is taken: no check brings the node back, not even one that runs between forgetting its generation
      and removing it. */
  lemma RemovalStands(s: LB, steps: seq<Step>, s': LB)
    requires Reachable(s) && s.pc.Removing? && Reaches(Next(s, Remove), steps, s')
    requires NoEventOf(IdOf(s.pc.t), Next(s, Remove), steps)
    ensures SlotOf(s.pc.t) !in s'.slots
  {
    ReachableInv(s);
    InvStep(s, Remove);
    assert Cleared(Next(s, Remove), s.pc.t);
    hide Inv, Next, NoEventOf, Reachable, Reaches, SlotOf;
    ClearedStands(Next(s, Remove), steps, s', s.pc.t);
  }

  // ----- which updates skip the health check -----

  /** A node of this chain, key and namespace is in some list. */
  ghost predicate Pooled(slots: map<Slot, Info>, t: Target) {
    exists kind :: var sl := Slot(PoolId(kind, t.chain), t.key);
      sl in slots && (slots[sl].source == "native" <==> t.source == "native")
  }

  lemma PooledIs(slots: map<Slot, Info>, t: Target)
    ensures Pooled(slots, t) <==> InPool(slots, t.chain, t.key, t.source == "native")
  {
    if Pooled(slots, t) {
      var kind :| var sl := Slot(PoolId(kind, t.chain), t.key);
        sl in slots && (slots[sl].source == "native" <==> t.source == "native");
      assert HoldsAt(slots, Slot(PoolId(kind, t.chain), t.key), t.source == "native");
    }
    if InPool(slots, t.chain, t.key, t.source == "native") {
      var kind :| HoldsAt(slots, Slot(PoolId(kind, t.chain), t.key), t.source == "native");
      var sl := Slot(PoolId(kind, t.chain), t.key);
      assert sl in slots && (slots[sl].source == "native" <==> t.source == "native");
    }
  }

  /** A put of a pooled node whose state is not 1 is in the pool after the loop's own three steps, without
      any check. */
  lemma DowngradeIsImmediate(s: LB, t: Target)
    requires Enabled(s, Take) && s.queue[0] == Put(t) && t.state != 1 && Pooled(s.slots, t)
    ensures var s1 := Next(s, Take);
            && Enabled(s1, Decide)
            && var s2 := Next(s1, Decide);
               && Enabled(s2, ApplyNow)
               && var s3 := Next(s2, ApplyNow);
                  s3.slots == s.slots[SlotOf(t) := InfoOf(t)] && s3.pc.Ready? && s3.checks == s.checks
  {
    PooledIs(s.slots, t);
    hide SlotOf, InfoOf, InPool, IdOf;
  }

  /** Every other put leaves the pool alone and starts a check of its node. */
  lemma OthersAreChecked(s: LB, t: Target)
    requires Enabled(s, Take) && s.queue[0] == Put(t) && (t.state == 1 || !Pooled(s.slots, t))
    ensures var s2 := Next(Next(s, Take), Decide);
            s2.slots == s.slots && s2.pc.Ready? && s2.checks == s.checks + {Check(s.gens.last + 1, t)}
  {
    PooledIs(s.slots, t);
    hide SlotOf, InfoOf, InPool, IdOf;
  }

  ghost predicate AppliesDowngrades(s: LB) {
    s.pc.Applying? ==> s.pc.t.state != 1
  }

  lemma {:induction false} DowngradesReached(s: LB, steps: seq<Step>, s': LB)
    requires AppliesDowngrades(s) && Reaches(s, steps, s')
    ensures AppliesDowngrades(s')
    decreases |steps|
  {
    hide SlotOf, InfoOf, InPool, IdOf, IsCurrent;
    if steps != [] {
      DowngradesReached(Next(s, steps[0]), steps[1..], s');
    }
  }

  /** In every run, a step that puts an available node into a slot publishes a passed check of that very
      node. */
  lemma AvailableOnlyByCheck(s: LB, a: Step, sl: Slot)
    requires Reachable(s) && Enabled(s, a) && sl in Next(s, a).slots && Next(s, a).slots[sl].state == 1
    requires sl in s.slots ==> s.slots[sl] != Next(s, a).slots[sl]
    ensures a.Publish? && sl == SlotOf(s.holder.value.target) && Next(s, a).slots[sl] == InfoOf(s.holder.value.target)
  {
    var steps :| Reaches(START, steps, s);
    DowngradesReached(START, steps, s);
    hide SlotOf, Reaches, InPool, IdOf;
  }

  /** The lock holder, who is about to publish, is a check that passed: it was running and acquired. */
  lemma HolderWasChecked(s: LB, a: Step)
    requires Enabled(s, a) && Next(s, a).holder.Some? && Next(s, a).holder != s.holder
    ensures a == Acquire(Next(s, a).holder.value) && a.c in s.checks
  {
    hide SlotOf, InfoOf, InPool, IdOf, IsCurrent;
  }

  /** The pooled form of an announced node: its own key, address, role, state, source and weight, with the
      default source and the least weight where it has none. */
  predicate Shows(info: Info, t: Target) {
    && info.key == t.key && info.addr == t.addr && info.nodeType == t.role && info.state == t.state
    && info.source == (if t.source == "" then "official" else t.source)
    && info.weight == (if t.weight > 0 then t.weight else 1)
  }

  lemma InfoShows(t: Target)
    ensures Shows(InfoOf(t), t)
    ensures SlotOf(t).key == t.key && SlotOf(t).pool.chain == t.chain
    ensures SlotOf(t).pool.kind == if t.source == "native" then Native else if t.role == 2 then Archive else State
  {
  }

  /** Every pooled node stands in the list of its own source and role. */
  ghost predicate Placed(slots: map<Slot, Info>) {
    forall sl :: sl in slots ==>
      sl.key == slots[sl].key && sl.pool.kind == KindOf(slots[sl].source, slots[sl].nodeType)
  }

  lemma PlacedOne(t: Target)
    ensures SlotOf(t).key == InfoOf(t).key
    ensures SlotOf(t).pool.kind == KindOf(InfoOf(t).source, InfoOf(t).nodeType)
  {
  }

  lemma PlacedStep(s: LB, a: Step)
    requires Placed(s.slots) && Enabled(s, a)
    ensures Placed(Next(s, a).slots)
  {
    if a.Publish? {
      PlacedOne(s.holder.value.target);
    } else if a.ApplyNow? {
      PlacedOne(s.pc.t);
    }
    hide SlotOf, InfoOf, KindOf, InPool, IdOf;
  }

  lemma {:induction false} PlacedReached(s: LB, steps: seq<Step>, s': LB)
    requires Placed(s.slots) && Reaches(s, steps, s')
    ensures Placed(s'.slots)
    decreases |steps|
  {
    hide Placed, Next;
    if steps != [] {
      PlacedStep(s, steps[0]);
      PlacedReached(Next(s, steps[0]), steps[1..], s');
    }
  }

  /** In every reachable state a pooled node stands in the list its own source and type name; so a node
      outside the native lists is an archive node exactly when it stands in an archive list. */
  lemma NodesArePlaced(s: LB)
    requires Reachable(s)
    ensures Placed(s.slots)
    ensures forall sl :: sl in s.slots && sl.pool.kind != Native ==>
              (s.slots[sl].nodeType == 2 <==> sl.pool.kind == Archive)
  {
    var steps :| Reaches(START, steps, s);
    PlacedReached(START, steps, s);
  }
}
