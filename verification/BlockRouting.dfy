/** From the tree of a routing argument to the nodes picked: what each kind of block id means. */
module BlockRouting {
  import opened Wrappers
  import opened JsonScan
  import opened JsonText
  import opened JsonRpcRequest
  import opened BlockContexts
  import opened NodePool
  import opened NodeSelection

  /** Among members that name no field, the object has at most one block_id, a plain string `id`, and at
      most one type, a plain string `kind`. */
  predicate HasFields(ms: Members, id: Option<Text>, kind: Option<Text>)
    decreases ms
  {
    match ms
    case NoMember => id == None && kind == None
    case Member(key, _, _, v, _, _, rest) =>
      if key == "block_id" then
        id.Some? && v == Str(id.value) && IsUnescaped(id.value) && HasFields(rest, None, kind)
      else if key == "type" then
        kind.Some? && v == Str(kind.value) && IsUnescaped(kind.value) && HasFields(rest, id, None)
      else IsUnescaped(key) && !CaseVariant(key, "block_id") && !CaseVariant(key, "type") && HasFields(rest, id, kind)
  }

  /** What a block id string means. */
  ghost predicate Means(lib: Library, id: Text, r: Option<BlockId>) {
    if id == "earliest" then r == Some(Number(0))
    else if id == "pending" then r == Some(Number(-1))
    else if id == "latest" then r == Some(Number(-2))
    else if id == "finalized" then r == Some(Number(-3))
    else if id == "safe" then r == Some(Number(-4))
    else if |id| == 66 then r == match lib.hash(id) case Some(h) => Some(Hash(h)) case None => None
    else
      var n := lib.hexNumber(id);
      r == if n.Some? && n.value < 0x8000_0000_0000_0000 then Some(Number(n.value)) else None
  }

  lemma ParsedMeans(lib: Library, id: Text)
    ensures Means(lib, id, ParseBlockId(lib, id))
  {
  }

  lemma FieldOf(lib: Library, key: Text)
    requires FaithfulLibrary(lib) && IsUnescaped(key)
    ensures CaseVariant(key, "block_id") ==> lib.field(key) == Some(BlockIdField)
    ensures CaseVariant(key, "type") ==> lib.field(key) == Some(TypeField)
    ensures !CaseVariant(key, "block_id") && !CaseVariant(key, "type") ==> lib.field(key) == None
  {
    assert lib.field(key) == Some(BlockIdField) <==> CaseVariant(key, ContextName(BlockIdField));
    assert lib.field(key) == Some(TypeField) <==> CaseVariant(key, ContextName(TypeField));
  }

  lemma ExactNames()
    ensures IsUnescaped("block_id") && CaseVariant("block_id", "block_id")
    ensures IsUnescaped("type") && CaseVariant("type", "type")
  {
  }

  /** Decoding such members takes exactly the two strings over. */
  lemma {:induction false} FieldsDecoded(lib: Library, acc: BlockContext, ms: Members, id: Option<Text>,
                                         kind: Option<Text>)
    requires FaithfulLibrary(lib) && HasFields(ms, id, kind)
    requires id.Some? ==> ParseBlockId(lib, id.value).Some?
    ensures DecodeContextMembers(lib, Some(acc), ms)
         == Some(BlockContext(if id.Some? then ParseBlockId(lib, id.value) else acc.blockId,
                              if kind.Some? then kind.value else acc.kind))
    decreases ms
  {
    hide FaithfulLibrary, ParseBlockId, IsUnescaped, CaseVariant;
    ExactNames();
    if ms.Member? {
      FieldOf(lib, ms.key);
      if ms.key == "block_id" {
        Unescaped(lib, id.value);
        FieldsDecoded(lib, acc.(blockId := ParseBlockId(lib, id.value)), ms.rest, None, kind);
      } else if ms.key == "type" {
        Unescaped(lib, kind.value);
        FieldsDecoded(lib, acc.(kind := kind.value), ms.rest, id, None);
      } else {
        FieldsDecoded(lib, acc, ms.rest, id, kind);
      }
    }
  }

  lemma Unescaped(lib: Library, t: Text)
    requires FaithfulLibrary(lib) && IsUnescaped(t)
    ensures lib.unescape(t) == Some(t)
  {
  }

  /** A block id that does not parse makes the whole argument an error. */
  lemma {:induction false} BadIdFails(lib: Library, acc: Option<BlockContext>, ms: Members, id: Option<Text>,
                                      kind: Option<Text>)
    requires FaithfulLibrary(lib) && HasFields(ms, id, kind)
    requires acc == None || (id.Some? && ParseBlockId(lib, id.value).None?)
    ensures DecodeContextMembers(lib, acc, ms) == None
    decreases ms
  {
    hide FaithfulLibrary, ParseBlockId, IsUnescaped, CaseVariant;
    ExactNames();
    if ms.Member? {
      FieldOf(lib, ms.key);
      var next := DecodeContextMember(lib, acc, ms.key, ms.value);
      if ms.key == "block_id" {
        Unescaped(lib, id.value);
        BadIdFails(lib, next, ms.rest, None, kind);
      } else if ms.key == "type" {
        Unescaped(lib, kind.value);
        BadIdFails(lib, next, ms.rest, id, None);
      } else {
        BadIdFails(lib, next, ms.rest, id, kind);
      }
    }
  }

  /** From the tree: an object with one block_id and one type decodes to what the block id means, with
      that type, or not at all when it means nothing. */
  lemma PinnedArgument(lib: Library, v: Value, id: Text, kind: Text)
    requires FaithfulLibrary(lib) && v.Obj? && HasFields(v.members, Some(id), Some(kind))
    ensures exists r :: Means(lib, id, r)
    ensures forall r :: Means(lib, id, r) ==>
              DecodeContext(lib, v) == if r.Some? then Some(BlockContext(r, kind)) else None
  {
    hide FaithfulLibrary, HasFields, Means;
    ParsedMeans(lib, id);
    forall r | Means(lib, id, r) ensures r == ParseBlockId(lib, id) {
      OneMeaning(lib, id, r, ParseBlockId(lib, id));
    }
    hide ParseBlockId;
    if ParseBlockId(lib, id).Some? {
      FieldsDecoded(lib, NO_CONTEXT, v.members, Some(id), Some(kind));
    } else {
      BadIdFails(lib, Some(NO_CONTEXT), v.members, Some(id), Some(kind));
    }
  }

  lemma OneMeaning(lib: Library, id: Text, r: Option<BlockId>, r': Option<BlockId>)
    requires Means(lib, id, r) && Means(lib, id, r')
    ensures r == r'
  {
  }

  /** From the tree to the pick, for the tags: with nodes in both pools, a request pinned to the latest or
      the pending block stays on state nodes at every height; one pinned to another tag goes to archive
      nodes when the height is unknown or large enough. */
  lemma TagRouting(lib: Library, v: Value, id: Text, archive: seq<Info>, state: seq<Info>, native: seq<Info>,
                   height: Option<int>)
    requires FaithfulLibrary(lib) && v.Obj? && HasFields(v.members, Some(id), Some("Equals"))
    requires archive != [] && state != []
    ensures var picked := Picked(archive, state, native, DecodeContext(lib, v), height, false, false);
            && (id in {"latest", "pending"} ==> picked == Preferred(state))
            && (id in {"earliest", "finalized", "safe"} ==>
                  var least := if id == "earliest" then 64 else if id == "finalized" then 61 else 60;
                  picked == if height.None? || height.value > least then Preferred(archive) else Preferred(state))
  {
    hide FaithfulLibrary, HasFields, Preferred;
    PinnedArgument(lib, v, id, "Equals");
    PreferredEmpty(archive);
    PreferredEmpty(state);
    if id in {"latest", "pending", "earliest", "finalized", "safe"} {
      var n := if id == "latest" then -2 else if id == "pending" then -1 else if id == "earliest" then 0
               else if id == "finalized" then -3 else -4;
      assert Means(lib, id, Some(Number(n)));
    }
  }
}
