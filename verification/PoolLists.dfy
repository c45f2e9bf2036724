/** The selector's node lists over whole runs: lists that are upserted into and removed from as the event
    loop and the checks go on always represent the slots of the machine, with unique keys. */
module PoolLists {
  import opened NodePool
  import P = NodeProtocol

  ghost predicate UniqueLists(lists: Lists) {
    forall pool :: UniqueKeys(ListAtPool(lists, pool))
  }

  function UpsertedAt(lists: Lists, t: P.Target): Lists {
    var pool := P.SlotOf(t).pool;
    lists[pool := Upserted(ListAtPool(lists, pool), P.InfoOf(t))]
  }

  function RemovedAt(lists: Lists, t: P.Target): Lists {
    var pool := P.SlotOf(t).pool;
    lists[pool := Removed(ListAtPool(lists, pool), t.key)]
  }

  /** What a step does to the lists. */
  function ListsNext(lists: Lists, s: P.LB, a: P.Step): Lists
    requires P.Enabled(s, a)
  {
    match a
    case ApplyNow => UpsertedAt(lists, s.pc.t)
    case Publish => UpsertedAt(lists, s.holder.value.target)
    case Remove => RemovedAt(lists, s.pc.t)
    case _ => lists
  }

  /** The steps lead from a state with its lists to another one. */
  ghost predicate Leads(s: P.LB, lists: Lists, steps: seq<P.Step>, s': P.LB, lists': Lists)
    decreases |steps|
  {
    if steps == [] then s' == s && lists' == lists
    else
      && P.Enabled(s, steps[0])
      && Leads(P.Next(s, steps[0]), ListsNext(lists, s, steps[0]), steps[1..], s', lists')
  }

  lemma UpsertedKeeps(lists: Lists, slots: map<Slot, Info>, t: P.Target)
    requires Represents(lists, slots) && UniqueLists(lists)
    ensures Represents(UpsertedAt(lists, t), slots[P.SlotOf(t) := P.InfoOf(t)]) && UniqueLists(UpsertedAt(lists, t))
  {
    hide Represents, UniqueKeys, Upserted;
    var pool := P.SlotOf(t).pool;
    UpsertedSlots(lists, slots, pool, P.InfoOf(t));
    UpsertIsUpdate(ListAtPool(lists, pool), P.InfoOf(t));
    forall p ensures UniqueKeys(ListAtPool(UpsertedAt(lists, t), p)) {
      assert UniqueKeys(ListAtPool(lists, p));
    }
  }

  lemma RemovedKeeps(lists: Lists, slots: map<Slot, Info>, t: P.Target)
    requires Represents(lists, slots) && UniqueLists(lists)
    ensures Represents(RemovedAt(lists, t), slots - {P.SlotOf(t)}) && UniqueLists(RemovedAt(lists, t))
  {
    hide Represents, UniqueKeys, Removed;
    var pool := P.SlotOf(t).pool;
    RemovedSlots(lists, slots, pool, t.key);
    RemoveIsRemoval(ListAtPool(lists, pool), t.key);
    forall p ensures UniqueKeys(ListAtPool(RemovedAt(lists, t), p)) {
      assert UniqueKeys(ListAtPool(lists, p));
    }
  }

  lemma ListsStep(lists: Lists, s: P.LB, a: P.Step)
    requires Represents(lists, s.slots) && UniqueLists(lists) && P.Enabled(s, a)
    ensures Represents(ListsNext(lists, s, a), P.Next(s, a).slots) && UniqueLists(ListsNext(lists, s, a))
  {
    hide Represents, UniqueLists, UpsertedAt, RemovedAt, P.SlotOf, P.InfoOf, P.IdOf, InPool;
    match a
    case ApplyNow => UpsertedKeeps(lists, s.slots, s.pc.t);
    case Publish => UpsertedKeeps(lists, s.slots, s.holder.value.target);
    case Remove => RemovedKeeps(lists, s.slots, s.pc.t);
    case _ =>
  }

  lemma {:induction false} ListsReached(s: P.LB, lists: Lists, steps: seq<P.Step>, s': P.LB, lists': Lists)
    requires Represents(lists, s.slots) && UniqueLists(lists) && Leads(s, lists, steps, s', lists')
    ensures Represents(lists', s'.slots) && UniqueLists(lists') && P.Reaches(s, steps, s')
    decreases |steps|
  {
    hide Represents, UniqueLists, P.Next, P.Enabled, ListsNext;
    if steps != [] {
      ListsStep(lists, s, steps[0]);
      ListsReached(P.Next(s, steps[0]), ListsNext(lists, s, steps[0]), steps[1..], s', lists');
    }
  }

  /** In every run from the start, with empty lists, the lists hold exactly the nodes of the slots, each key
      once in its list. */
  lemma ListsRepresentSlots(steps: seq<P.Step>, s: P.LB, lists: Lists)
    requires Leads(P.START, map[], steps, s, lists)
    ensures Represents(lists, s.slots) && UniqueLists(lists) && P.Reachable(s)
  {
    assert Represents(map[], P.START.slots) && UniqueLists(map[]);
    hide Represents, UniqueLists, Leads;
    ListsReached(P.START, map[], steps, s, lists);
  }

  /** Every run has such lists. */
  lemma {:induction false} RunHasLists(s: P.LB, lists: Lists, steps: seq<P.Step>, s': P.LB) returns (lists': Lists)
    requires P.Reaches(s, steps, s')
    ensures Leads(s, lists, steps, s', lists')
    decreases |steps|
  {
    hide P.Next, P.Enabled, ListsNext;
    if steps == [] {
      lists' := lists;
    } else {
      lists' := RunHasLists(P.Next(s, steps[0]), ListsNext(lists, s, steps[0]), steps[1..], s');
    }
  }
}
