/** Nodes and the per-chain pools of the selector (lb/lbnode/node.go, lb/selector/random/random.go). */
module NodePool {

  datatype Kind = Archive | State | Native

  /** What a node is: identity fields and the two mutable ones. */
  datatype Info = Info(key: string, addr: (string, int), source: string, nodeType: int, weight: int, state: int)

  const NODE_TYPE_ARCHIVE := 2
  const STATE_AVAILABLE := 1

  /** `lbnode.New` and `SetState`: a non-positive weight becomes 1, an empty source "official". */
  function MakeInfo(key: string, addr: (string, int), source: string, nodeType: int, weight: int, state: int): Info {
    Info(key, addr, if source == "" then "official" else source, nodeType, if weight <= 0 then 1 else weight, state)
  }

  /** The list a node belongs to. */
  function KindOf(source: string, role: int): Kind {
    if source == "native" then Native else if role == NODE_TYPE_ARCHIVE then Archive else State
  }

  /** Node objects are shared: everything but weight and state is fixed when they are built. */
  class Node {
    const key: string
    const addr: (string, int)
    const source: string
    const nodeType: int
    var weight: int
    var state: int

    constructor (info: Info)
      ensures Value() == info
    {
      key, addr, source, nodeType := info.key, info.addr, info.source, info.nodeType;
      weight, state := info.weight, info.state;
    }

    function Value(): Info
      reads this
    {
      Info(key, addr, source, nodeType, weight, state)
    }

    method UpdateFrom(other: Node)
      modifies this
      ensures weight == old(other.weight) && state == old(other.state)
    {
      weight, state := other.weight, other.state;
    }
  }

  // ----- lists of nodes -----

  function Upserted(ns: seq<Info>, n: Info): seq<Info> {
    if ns == [] then [n]
    else if ns[0].key == n.key then [n] + ns[1..]
    else [ns[0]] + Upserted(ns[1..], n)
  }

  function Removed(ns: seq<Info>, key: string): seq<Info> {
    if ns == [] then []
    else if ns[0].key == key then ns[1..]
    else [ns[0]] + Removed(ns[1..], key)
  }

  /** What a list holds, by key. */
  function ByKey(ns: seq<Info>): map<string, Info> {
    if ns == [] then map[] else ByKey(ns[1..])[ns[0].key := ns[0]]
  }

  predicate UniqueKeys(ns: seq<Info>) {
    ns == [] || (ns[0].key !in ByKey(ns[1..]) && UniqueKeys(ns[1..]))
  }

  /** Upserting is a map update and keeps keys unique. */
  lemma {:induction false} UpsertIsUpdate(ns: seq<Info>, n: Info)
    ensures ByKey(Upserted(ns, n)) == ByKey(ns)[n.key := n]
    ensures UniqueKeys(ns) ==> UniqueKeys(Upserted(ns, n))
  {
    if ns != [] && ns[0].key != n.key {
      UpsertIsUpdate(ns[1..], n);
      assert Upserted(ns, n)[1..] == Upserted(ns[1..], n);
    }
  }

  /** Removing is removal from the map and keeps keys unique. */
  lemma {:induction false} RemoveIsRemoval(ns: seq<Info>, key: string)
    requires UniqueKeys(ns)
    ensures ByKey(Removed(ns, key)) == ByKey(ns) - {key}
    ensures UniqueKeys(Removed(ns, key))
  {
    if ns != [] && ns[0].key != key {
      RemoveIsRemoval(ns[1..], key);
      assert Removed(ns, key)[1..] == Removed(ns[1..], key);
    }
  }

  /** The values of a list of node objects. */
  function Values(nodes: seq<Node>): (vs: seq<Info>)
    reads nodes
    ensures |vs| == |nodes| && forall i :: 0 <= i < |nodes| ==> vs[i] == nodes[i].Value()
  {
    seq(|nodes|, i requires 0 <= i < |nodes| reads nodes => nodes[i].Value())
  }

  /** Where the first entry with the key is, the lists differ exactly there. */
  lemma {:induction false} ListAt(vs: seq<Info>, n: Info, i: nat)
    requires i <= |vs| && forall j :: 0 <= j < i ==> vs[j].key != n.key
    ensures i == |vs| ==> Upserted(vs, n) == vs + [n] && Removed(vs, n.key) == vs
    ensures i < |vs| && vs[i].key == n.key ==>
              Upserted(vs, n) == vs[i := n] && Removed(vs, n.key) == vs[..i] + vs[i + 1..]
    decreases i
  {
    if i > 0 {
      ListAt(vs[1..], n, i - 1);
    }
  }

  ghost predicate Distinct(nodes: seq<Node>) {
    forall i, j :: 0 <= i < j < |nodes| ==> nodes[i] != nodes[j]
  }

  /** `node` stands where `was` stood: it has the same key and is not the same node otherwise. */
  predicate Replaces(node: Node, was: Node, now: Node) {
    && now == node && was.key == node.key
    && !(was.addr == node.addr && was.source == node.source && was.nodeType == node.nodeType)
  }

  /** `UpsertInto`: an entry with the same identity is refreshed in place and keeps its object; another
      entry with the same key is replaced; a new key is appended. */
  method UpsertInto(nodes: seq<Node>, node: Node) returns (r: seq<Node>)
    requires node !in nodes && Distinct(nodes)
    modifies nodes
    ensures Values(r) == Upserted(old(Values(nodes)), old(node.Value()))
    ensures Distinct(r) && forall i :: 0 <= i < |r| ==> r[i] in nodes || r[i] == node
    ensures |nodes| <= |r| && forall i :: 0 <= i < |nodes| ==> r[i] == nodes[i] || Replaces(node, nodes[i], r[i])
  {
    hide Upserted, Removed;
    ghost var vs, n := Values(nodes), node.Value();
    var i := 0;
    while i < |nodes| && nodes[i].key != node.key
      invariant i <= |nodes| && forall j :: 0 <= j < i ==> vs[j].key != n.key
    {
      i := i + 1;
    }
    ListAt(vs, n, i);
    if i == |nodes| {
      r := nodes + [node];
    } else if nodes[i].addr == node.addr && nodes[i].source == node.source && nodes[i].nodeType == node.nodeType {
      nodes[i].UpdateFrom(node);
      r := nodes;
      assert nodes[i].Value() == n;
    } else {
      r := nodes[i := node];
    }
  }

  /** The removal loop of `RemoveNode`. */
  method RemoveFrom(nodes: seq<Node>, key: string) returns (r: seq<Node>)
    requires Distinct(nodes)
    ensures Values(r) == Removed(Values(nodes), key)
    ensures Distinct(r) && forall i :: 0 <= i < |r| ==> r[i] in nodes
  {
    hide Upserted, Removed;
    ghost var vs, n := Values(nodes), Info(key, ("", 0), "", 0, 0, 0);
    var i := 0;
    while i < |nodes| && nodes[i].key != key
      invariant i <= |nodes| && forall j :: 0 <= j < i ==> vs[j].key != n.key
    {
      i := i + 1;
    }
    ListAt(vs, n, i);
    r := if i == |nodes| then nodes else nodes[..i] + nodes[i + 1..];
    if i < |nodes| {
      ValuesWithout(nodes, i);
    }
  }

  lemma ValuesWithout(nodes: seq<Node>, i: nat)
    requires i < |nodes|
    ensures Values(nodes[..i] + nodes[i + 1..]) == Values(nodes)[..i] + Values(nodes)[i + 1..]
  {
  }

  // ----- the selector's pools -----

  datatype PoolId = PoolId(kind: Kind, chain: string)

  /** One place a node can hold. */
  datatype Slot = Slot(pool: PoolId, key: string)

  type Lists = map<PoolId, seq<Info>>

  function ListAtPool<T>(c: map<PoolId, seq<T>>, p: PoolId): seq<T> {
    if p in c then c[p] else []
  }

  /** The slots and their nodes, as a map: what the lists hold. */
  ghost predicate Represents(c: Lists, slots: map<Slot, Info>) {
    forall s: Slot ::
      && (s in slots <==> s.key in ByKey(ListAtPool(c, s.pool)))
      && (s in slots ==> slots[s] == ByKey(ListAtPool(c, s.pool))[s.key])
  }

  lemma UpsertedSlots(c: Lists, slots: map<Slot, Info>, p: PoolId, n: Info)
    requires Represents(c, slots)
    ensures Represents(c[p := Upserted(ListAtPool(c, p), n)], slots[Slot(p, n.key) := n])
  {
    hide ByKey, Upserted;
    UpsertIsUpdate(ListAtPool(c, p), n);
  }

  lemma RemovedSlots(c: Lists, slots: map<Slot, Info>, p: PoolId, key: string)
    requires Represents(c, slots) && UniqueKeys(ListAtPool(c, p))
    ensures Represents(c[p := Removed(ListAtPool(c, p), key)], slots - {Slot(p, key)})
  {
    RemoveIsRemoval(ListAtPool(c, p), key);
  }

  /** Does the chain hold a node of this key in the given namespace? */
  ghost predicate InPool(slots: map<Slot, Info>, chain: string, key: string, native: bool) {
    exists kind :: HoldsAt(slots, Slot(PoolId(kind, chain), key), native)
  }

  predicate HoldsAt(slots: map<Slot, Info>, s: Slot, native: bool) {
    s in slots && (slots[s].source == "native") == native
  }
}
