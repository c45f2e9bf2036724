/** The routing argument of a request (lb/block_context.go): which argument is selected, and how it is
    decoded into a block context, by the byte walker and by the reference decoder over the tree. */
module BlockContexts {
  import opened Wrappers
  import opened JsonScan
  import opened JsonText
  import opened JsonRpcRequest

  datatype BlockId = Number(n: int) | Hash(h: Text)

  /** `kind` is "Equals", "Contains" or anything else; empty when absent. */
  datatype BlockContext = BlockContext(blockId: Option<BlockId>, kind: Text)

  const NO_CONTEXT := BlockContext(None, [])

  const SAFE := -4
  const FINALIZED := -3
  const LATEST := -2
  const PENDING := -1
  const EARLIEST := 0

  datatype ContextField = BlockIdField | TypeField

  /** What the libraries do: matching of raw keys, unescaping of raw string contents, block ids that are
      not strings (`None` an error, `Some(None)` an absent id), and hash and hex number decoding. */
  datatype Library = Library(
    field: Text -> Option<ContextField>,
    unescape: Text -> Option<Text>,
    otherId: Text -> Option<Option<BlockId>>,
    hash: Text -> Option<Text>,
    hexNumber: Text -> Option<nat>)

  function FoldedContextField(key: Text): Option<ContextField> {
    if EqualFold(key, "block_id") then Some(BlockIdField)
    else if EqualFold(key, "type") then Some(TypeField)
    else None
  }

  predicate Plain(t: Text) {
    IsPlainASCII(t) && NoBackslash(t)
  }

  function ContextName(f: ContextField): Text {
    match f case BlockIdField => "block_id" case TypeField => "type"
  }

  /** On plain ASCII the library finds the field whose name a key spells, in any case, and leaves strings
      as they are. */
  ghost predicate FaithfulLibrary(lib: Library) {
    && (forall key, f :: IsUnescaped(key) ==> (lib.field(key) == Some(f) <==> CaseVariant(key, ContextName(f))))
    && (forall c :: IsUnescaped(c) ==> lib.unescape(c) == Some(c))
  }

  lemma FaithfulContext(lib: Library, t: Text)
    requires FaithfulLibrary(lib) && Plain(t)
    ensures lib.field(t) == FoldedContextField(t) && lib.unescape(t) == Some(t)
  {
    PlainIsUnescaped(t);
    FoldedIsVariant(t, ContextName(BlockIdField));
    FoldedIsVariant(t, ContextName(TypeField));
    assert forall f :: lib.field(t) == Some(f) <==> CaseVariant(t, ContextName(f));
    hide CaseVariant, EqualFold;
  }

  /** `parseBlockIDString`. */
  function ParseBlockId(lib: Library, input: Text): Option<BlockId> {
    if input == "earliest" then Some(Number(EARLIEST))
    else if input == "latest" then Some(Number(LATEST))
    else if input == "pending" then Some(Number(PENDING))
    else if input == "finalized" then Some(Number(FINALIZED))
    else if input == "safe" then Some(Number(SAFE))
    else if |input| == 66 then
      (match lib.hash(input) case None => None case Some(h) => Some(Hash(h)))
    else
      match lib.hexNumber(input)
      case None => None
      case Some(n) => if n > 0x7fff_ffff_ffff_ffff then None else Some(Number(n))
  }

  // ----- the reference decoder -----

  function DecodeBlockId(lib: Library, v: Value): Option<Option<BlockId>> {
    match v
    case Str(content) =>
      (match lib.unescape(content)
       case None => None
       case Some(t) => match ParseBlockId(lib, t) case None => None case Some(id) => Some(Some(id)))
    case Scalar(_) => lib.otherId(Print(v))
    case Arr(_, _) => lib.otherId(Print(v))
    case Obj(_, _) => lib.otherId(Print(v))
  }

  function DecodeKind(lib: Library, v: Value, prior: Text): Option<Text> {
    match v
    case Str(content) => lib.unescape(content)
    case Scalar(text) => if text == "null" then Some(prior) else None
    case Arr(_, _) => None
    case Obj(_, _) => None
  }

  function DecodeContextMember(lib: Library, acc: Option<BlockContext>, key: Text, v: Value): Option<BlockContext> {
    if acc.None? then None
    else
      match lib.field(key)
      case None => acc
      case Some(BlockIdField) =>
        (match DecodeBlockId(lib, v) case None => None case Some(id) => Some(acc.value.(blockId := id)))
      case Some(TypeField) =>
        match DecodeKind(lib, v, acc.value.kind) case None => None case Some(t) => Some(acc.value.(kind := t))
  }

  /** Later members overwrite earlier ones; an error anywhere is an error. */
  function DecodeContextMembers(lib: Library, acc: Option<BlockContext>, ms: Members): Option<BlockContext>
    decreases ms
  {
    match ms
    case NoMember => acc
    case Member(key, _, _, v, _, _, rest) =>
      DecodeContextMembers(lib, DecodeContextMember(lib, acc, key, v), rest)
  }

  function DecodeContext(lib: Library, v: Value): Option<BlockContext> {
    match v
    case Obj(_, members) => DecodeContextMembers(lib, Some(NO_CONTEXT), members)
    case Scalar(text) => if text == "null" then Some(NO_CONTEXT) else None
    case Str(_) => None
    case Arr(_, _) => None
  }

  // ----- the fast decoder -----

  datatype ContextScan = ContextScan(declined: bool, blockId: Option<Text>, kind: Option<Text>)

  /** The callback of `decodeBlockContextFast`. */
  function OnContextMember(st: ContextScan, key: Text, escaped: bool, value: Text): (ContextScan, bool) {
    var declined := (st.(declined := true), false);
    if escaped || !IsPlainASCII(key) then declined
    else if key != "block_id" && key != "type" then
      if FoldedContextField(key).Some? then declined else (st, true)
    else if (if key == "block_id" then st.blockId.Some? else st.kind.Some?) then declined
    else if value == [] || value[0] != '"' || |value| < 2 then declined
    else
      var content := value[1..|value| - 1];
      if !NoBackslash(content) || !IsPlainASCII(content) then declined
      else if key == "block_id" then (st.(blockId := Some(content)), true)
      else (st.(kind := Some(content)), true)
  }

  function ContextCallback(s: Text): Callback<ContextScan> {
    (st: ContextScan, idx: nat, c: Child) =>
      OnContextMember(st, Slice(s, c.ks, c.ke), c.escaped, Slice(s, c.vs, c.ve))
  }

  /** The context the scanned strings stand for; `None` if the block id does not parse. */
  function Finish(lib: Library, st: ContextScan): Option<BlockContext> {
    var kind := if st.kind.Some? then st.kind.value else [];
    if st.blockId.None? then Some(BlockContext(None, kind))
    else
      match ParseBlockId(lib, st.blockId.value)
      case None => None
      case Some(id) => Some(BlockContext(Some(id), kind))
  }

  datatype Fast = Declined | Handled(result: Option<BlockContext>)

  const SCAN_START := ContextScan(false, None, None)

  function FastContext(lib: Library, raw: Text): Fast {
    if raw == [] || raw[0] != '{' then Declined
    else
      var (st, end) := Calls(ContextCallback(raw), SCAN_START, WalkObject(raw, 0), 0);
      if end.None? || st.declined then Declined else Handled(Finish(lib, st))
  }

  method DecodeBlockContextFast(lib: Library, raw: Text) returns (fast: Fast)
    ensures fast == FastContext(lib, raw)
  {
    if |raw| == 0 || raw[0] != '{' {
      return Declined;
    }
    var st, _, ok := ScanObject(raw, 0, SCAN_START, ContextCallback(raw));
    if !ok || st.declined {
      return Declined;
    }
    var ctx := BlockContext(None, if st.kind.Some? then st.kind.value else []);
    if st.blockId.Some? {
      var bnh := ParseBlockId(lib, st.blockId.value);
      if bnh.None? {
        return Handled(None);
      }
      ctx := ctx.(blockId := bnh);
    }
    return Handled(Some(ctx));
  }

  // ----- agreement of the decoders -----

  /** The objects the fast decoder takes: plain keys, none a case variant of a field, and each field at
      most once (`id` and `kind` tell which were seen), as a plain string. */
  predicate SimpleContext(ms: Members, id: bool, kind: bool)
    decreases ms
  {
    match ms
    case NoMember => true
    case Member(key, _, _, v, _, _, rest) =>
      && Plain(key)
      && if key == "block_id" then !id && v.Str? && Plain(v.content) && SimpleContext(rest, true, kind)
         else if key == "type" then !kind && v.Str? && Plain(v.content) && SimpleContext(rest, id, true)
         else FoldedContextField(key).None? && SimpleContext(rest, id, kind)
  }

  lemma ExactContextFields(key: Text)
    ensures key == "block_id" ==> FoldedContextField(key) == Some(BlockIdField)
    ensures key == "type" ==> FoldedContextField(key) == Some(TypeField)
  {
  }

  lemma BackslashIn(t: Text)
    ensures NoBackslash(t) <==> '\\' !in t
  {
  }

  /** One member: declined, or taken over into the scan exactly as the reference takes it over. */
  lemma ContextMemberAgrees(lib: Library, st: ContextScan, key: Text, escaped: bool, v: Value)
    requires FaithfulLibrary(lib) && Wf(v) && !st.declined && escaped == ('\\' in key)
    ensures var (next, more) := OnContextMember(st, key, escaped, Print(v));
            && more == !next.declined
            && (more ==> Plain(key) && Finish(lib, next) == DecodeContextMember(lib, Finish(lib, st), key, v))
            && (more && key == "block_id" ==> v.Str? && Plain(v.content) && st.blockId.None?
                                              && next == st.(blockId := Some(v.content)))
            && (more && key == "type" ==> v.Str? && Plain(v.content) && st.kind.None?
                                          && next == st.(kind := Some(v.content)))
            && (more && key != "block_id" && key != "type" ==> FoldedContextField(key).None? && next == st)
            && (!more && Plain(key) ==>
                  if key == "block_id" then st.blockId.Some? || !v.Str? || !Plain(v.content)
                  else if key == "type" then st.kind.Some? || !v.Str? || !Plain(v.content)
                  else FoldedContextField(key).Some?)
  {
    hide FaithfulLibrary, FoldedContextField, IsPlainASCII, NoBackslash, ParseBlockId, Wf, Print;
    ExactContextFields(key);
    ContentOf(v);
    BackslashIn(key);
    if Plain(key) {
      FaithfulContext(lib, key);
    }
    if v.Str? && Plain(v.content) {
      FaithfulContext(lib, v.content);
    }
  }

  lemma {:induction false} ContextMembersAgree(s: Text, lib: Library, st: ContextScan, w: Walk, ms: Members,
                                               end: nat, idx: nat)
    requires FaithfulLibrary(lib) && WfMembers(ms) && ShowsMembers(s, w, ms, end) && !st.declined
    ensures var (last, e) := Calls(ContextCallback(s), st, w, idx);
            && last.declined == !SimpleContext(ms, st.blockId.Some?, st.kind.Some?)
            && (!last.declined ==> e == Some(end)
                                   && Finish(lib, last) == DecodeContextMembers(lib, Finish(lib, st), ms))
    decreases ms
  {
    hide FaithfulLibrary, Plain, OnContextMember, Finish, DecodeContextMember, Wf, IsBody, Spaces, Occurs, At;
    if ms.Member? {
      MemberText(s, w.child, ms.key, ms.value);
      ContextMemberAgrees(lib, st, ms.key, w.child.escaped, ms.value);
      var (next, more) := OnContextMember(st, ms.key, w.child.escaped, Print(ms.value));
      if more {
        ContextMembersAgree(s, lib, next, w.rest, ms.rest, end, idx + 1);
      }
    }
  }

  /** The fast decoder handles exactly the simple objects; it declines every other value, and what it
      handles it decodes, or refuses, as the reference does. */
  lemma ContextAgrees(lib: Library, v: Value)
    requires FaithfulLibrary(lib) && Wf(v)
    ensures FastContext(lib, Print(v)).Handled? <==> v.Obj? && SimpleContext(v.members, false, false)
    ensures FastContext(lib, Print(v)).Handled? ==> FastContext(lib, Print(v)).result == DecodeContext(lib, v)
  {
    hide FaithfulLibrary, Wf, Occurs, SimpleContext, DecodeContextMembers, WalkObject, Print;
    var s := Print(v);
    PrintAtStart(v);
    FirstByte(s, 0, v);
    if v.Obj? {
      ObjectShown(s, 0, v);
      WfMembersOf(v);
      ContextMembersAgree(s, lib, SCAN_START, WalkObject(s, 0), v.members, Width(v), 0);
    }
  }

  lemma PrintAtStart(v: Value)
    ensures Occurs(Print(v), 0, v)
  {
    LaidOut(Print(v), 0, v);
  }

  lemma WfMembersOf(v: Value)
    requires Wf(v) && v.Obj?
    ensures WfMembers(v.members)
  {
  }

  // ----- the selected argument -----

  function Len(es: Elems): nat {
    match es case NoElem => 0 case Elem(_, _, _, rest) => 1 + Len(rest)
  }

  predicate AtLeastTwo(es: Elems) {
    es.Elem? && es.rest.Elem?
  }

  function Last(es: Elems): Value
    requires es.Elem?
  {
    if es.rest.Elem? then Last(es.rest) else es.value
  }

  /** The argument the reference selects from a full argument list: the second for second-argument
      methods that have one, else the last. */
  function Selected(es: Elems, second: bool): Value
    requires es.Elem?
  {
    if second && es.rest.Elem? then es.rest.value else Last(es)
  }

  datatype ArgScan = ArgScan(count: nat, last: (nat, nat), second: (nat, nat))

  /** The callback of `blockContextArgument`. */
  function ArgCallback(stop: bool): Callback<ArgScan> {
    (st: ArgScan, idx: nat, c: Child) =>
      var next := ArgScan(st.count + 1, (c.vs, c.ve), if idx == 1 then (c.vs, c.ve) else st.second);
      (next, idx != 1 || !stop)
  }

  const ARG_START := ArgScan(0, (0, 0), (0, 0))

  const NATIVE_SKIP_THRESHOLD := 8192

  /** What `blockContextArgument` returns: the raw argument and the count, or an error. `debug` is
      whether debug logging is on; `native` is what the library's skip finds at index 1. */
  function Argument(s: Text, second: bool, debug: bool, native: Option<Text>): Option<(Text, nat)> {
    var i := SpaceEnd(s, 0);
    if i >= |s| then None
    else if s[i] != '[' then
      if SpaceEnd(s, i + 4) == |s| && "null" <= s[i..] then Some(([], 0)) else None
    else
      var stop := second && !debug;
      if stop && |s| > NATIVE_SKIP_THRESHOLD && native.Some? then Some((native.value, 2))
      else
        var (st, end) := Calls(ArgCallback(stop), ARG_START, WalkArray(s, i), 0);
        if end.None? then None
        else if st.count == 0 then Some(([], 0))
        else if !(stop && st.count == 2) && SpaceEnd(s, end.value) != |s| then None
        else if second && st.count > 1 then Some((Slice(s, st.second.0, st.second.1), st.count))
        else Some((Slice(s, st.last.0, st.last.1), st.count))
  }

  method BlockContextArgument(s: Text, second: bool, debug: bool, native: Option<Text>)
    returns (raw: Text, count: nat, ok: bool)
    ensures Argument(s, second, debug, native) == if ok then Some((raw, count)) else None
  {
    var i := SkipSpace(s, 0);
    if i >= |s| {
      return [], 0, false;
    }
    if s[i] != '[' {
      var j := SkipSpace(s, i + 4);
      return [], 0, j == |s| && "null" <= s[i..];
    }
    var stop := second && !debug;
    if stop && |s| > NATIVE_SKIP_THRESHOLD {
      if native.Some? {
        return native.value, 2, true;
      }
    }
    var st, end, scanned := ScanArray(s, i, ARG_START, ArgCallback(stop));
    if !scanned {
      return [], 0, false;
    }
    if st.count == 0 {
      return [], 0, true;
    }
    if !(stop && st.count == 2) {
      var j := SkipSpace(s, end);
      if j != |s| {
        return [], 0, false;
      }
    }
    if second && st.count > 1 {
      return Slice(s, st.second.0, st.second.1), st.count, true;
    }
    return Slice(s, st.last.0, st.last.1), st.count, true;
  }

  predicate Spans(s: Text, span: (nat, nat), v: Value) {
    Occurs(s, span.0, v) && span.1 == span.0 + Width(v)
  }

  /** A complete walk ends on the last argument and has marked the second. */
  lemma {:induction false} FullWalk(s: Text, st: ArgScan, w: Walk, es: Elems, end: nat, idx: nat)
    requires ShowsElems(s, w, es, end)
    ensures var (last, e) := Calls(ArgCallback(false), st, w, idx);
            && e == Some(end) && last.count == st.count + Len(es)
            && (es.Elem? ==> Spans(s, last.last, Last(es)))
            && (idx == 0 && AtLeastTwo(es) ==> Spans(s, last.second, es.rest.value))
            && (idx == 1 && es.Elem? ==> Spans(s, last.second, es.value))
            && (idx >= 2 ==> last.second == st.second)
    decreases es
  {
    hide Occurs;
    if es.Elem? {
      var (next, _) := ArgCallback(false)(st, idx, w.child);
      FullWalk(s, next, w.rest, es.rest, end, idx + 1);
    }
  }

  /** Stopping at the second argument, the walk has marked it too, or has seen the whole list. */
  lemma StoppedWalk(s: Text, w: Walk, es: Elems, end: nat)
    requires ShowsElems(s, w, es, end)
    ensures var (last, e) := Calls(ArgCallback(true), ARG_START, w, 0);
            && e.Some? && last.count == (if Len(es) <= 2 then Len(es) else 2)
            && (Len(es) <= 1 ==> e == Some(end))
            && (Len(es) == 1 ==> Spans(s, last.last, es.value))
            && (AtLeastTwo(es) ==> Spans(s, last.second, es.rest.value))
  {
    hide Occurs;
    if es.Elem? {
      var (next, _) := ArgCallback(true)(ARG_START, 0, w.child);
      assert Calls(ArgCallback(true), ARG_START, w, 0) == Calls(ArgCallback(true), next, w.rest, 1);
      if es.rest.Elem? {
        var (stopped, _) := ArgCallback(true)(next, 1, w.rest.child);
        assert Calls(ArgCallback(true), next, w.rest, 1) == (stopped, Some(w.rest.child.ve));
      }
    }
  }

  lemma SpansText(s: Text, span: (nat, nat), v: Value)
    requires Spans(s, span, v)
    ensures Slice(s, span.0, span.1) == Print(v)
  {
    SliceIsPrint(s, span.0, v);
  }

  /** For every valid argument list the selected argument is the reference's, whether or not the walk
      stops early or the native skip is used; the count is exact up to 2, or exact when debugging. */
  lemma ArgumentAgrees(doc: Document, second: bool, debug: bool, native: Option<Text>)
    requires WfDocument(doc) && doc.value.Arr?
    requires native == if AtLeastTwo(doc.value.elems) then Some(Print(doc.value.elems.rest.value)) else None
    ensures var es := doc.value.elems;
            var n := if second && !debug && Len(es) > 2 then 2 else Len(es);
            Argument(PrintDocument(doc), second, debug, native)
            == Some((if es.NoElem? then [] else Print(Selected(es, second)), n))
  {
    hide Occurs, WalkArray, Print, PrintDocument, Slice;
    var s := PrintDocument(doc);
    var i := |doc.lead|;
    DocumentAt(doc);
    FirstByte(s, i, doc.value);
    ArrayShown(s, i, doc.value);
    var end := i + Width(doc.value);
    SpacesAt(s, end, doc.trail, 0);
    var es := doc.value.elems;
    if second && !debug {
      StoppedWalk(s, WalkArray(s, i), es, end);
      var st := Calls(ArgCallback(true), ARG_START, WalkArray(s, i), 0).0;
      if Len(es) == 1 {
        SpansText(s, st.last, es.value);
      } else if AtLeastTwo(es) {
        SpansText(s, st.second, es.rest.value);
      }
    } else {
      FullWalk(s, ARG_START, WalkArray(s, i), es, end, 0);
      var st := Calls(ArgCallback(false), ARG_START, WalkArray(s, i), 0).0;
      if es.Elem? {
        SpansText(s, st.last, Last(es));
        if AtLeastTwo(es) {
          SpansText(s, st.second, es.rest.value);
        }
      }
    }
  }

  lemma PrefixAt(s: Text, i: nat)
    requires i <= |s|
    ensures "null" <= s[i..] <==> At(s, i, "null")
  {
    if "null" <= s[i..] {
      assert forall k :: 0 <= k < 4 ==> s[i + k] == s[i..][k];
    }
    if At(s, i, "null") {
      assert s[i..][..4] == "null";
    }
  }

  lemma NullByte(s: Text, i: nat, k: nat)
    requires At(s, i, "null") && k < 4
    ensures !IsSpace(s[i + k]) && s[i + k] == "null"[k]
  {
    assert s[i + k] == "null"[k];
  }

  /** A scalar document that starts with these four bytes and goes on with nothing but space is null. */
  lemma NullOnly(s: Text, i: nat, t: Text, trail: Text)
    requires IsScalar(t) && At(s, i, t) && Spaces(trail) && At(s, i + |t|, trail) && i + |t| + |trail| == |s|
    requires At(s, i, "null") && SpaceEnd(s, i + 4) == |s|
    ensures t == "null"
  {
    assert |trail| > 0 ==> IsSpace(trail[0]) && s[i + |t| + 0] == trail[0];
    if |t| < 4 {
      NullByte(s, i, |t|);
    }
    assert |t| > 4 ==> s[i + 4] == t[4] && !Structural(t[4]);
    assert forall k :: 0 <= k < 4 ==> t[k] == "null"[k];
  }

  /** A null argument list means no arguments; every other list that is not an array is an error. */
  lemma OtherArguments(doc: Document, second: bool, debug: bool, native: Option<Text>)
    requires WfDocument(doc) && !doc.value.Arr?
    ensures Argument(PrintDocument(doc), second, debug, native)
            == if doc.value == Scalar("null") then Some(([], 0)) else None
  {
    hide At, Spaces, PrintDocument, IsScalar, Quoted;
    var s := PrintDocument(doc);
    var i := |doc.lead|;
    DocumentAt(doc);
    FirstByte(s, i, doc.value);
    PrefixAt(s, i);
    if At(s, i, "null") {
      NullByte(s, i, 0);
      if SpaceEnd(s, i + 4) == |s| {
        NullOnly(s, i, doc.value.text, doc.trail);
      }
    }
    if doc.value == Scalar("null") {
      SpacesAt(s, i + 4, doc.trail, 0);
    }
  }

  // ----- the block context of a request list -----

  datatype Call = Call(methodName: Text, params: Text)

  /** The libraries' answers that do not depend on this code: the raw argument at index 1 of a large
      list, and the decoding of an argument the fast decoder declined. */
  datatype Fallback = Fallback(native: Text -> Option<Text>, decode: Text -> Option<BlockContext>)

  predicate UsesSecond(methodName: Text) {
    methodName == "contractMultiCall" || methodName == "simulateTransactions" || methodName == "estimateGas"
  }

  /** The libraries answer for an argument list as the reference does. */
  ghost predicate FallbackAnswers(lib: Library, fb: Fallback, methodName: Text, doc: Document) {
    doc.value.Arr? ==>
      var es, second := doc.value.elems, UsesSecond(methodName);
      && fb.native(PrintDocument(doc)) == (if AtLeastTwo(es) then Some(Print(es.rest.value)) else None)
      && (es.Elem? ==> fb.decode(Print(Selected(es, second))) == DecodeContext(lib, Selected(es, second)))
  }

  /** The call's raw parameters are those of `tree`, and the libraries answer as the reference does. */
  ghost predicate Answered(lib: Library, fb: Fallback, call: Call, tree: Option<Document>) {
    if tree.None? then call.params == []
    else
      && WfDocument(tree.value) && call.params == PrintDocument(tree.value)
      && FallbackAnswers(lib, fb, call.methodName, tree.value)
  }

  /** The context one call asks for: that of its selected argument; a second-argument method without a
      second argument means the latest block. */
  ghost function ContextOf(lib: Library, methodName: Text, tree: Option<Document>): Option<BlockContext> {
    if tree.None? || !tree.value.value.Arr? || tree.value.value.elems.NoElem? then None
    else
      var es := tree.value.value.elems;
      if UsesSecond(methodName) && !AtLeastTwo(es) then Some(BlockContext(Some(Number(LATEST)), "Contains"))
      else DecodeContext(lib, Selected(es, UsesSecond(methodName)))
  }

  /** Which argument counts, method by method. */
  lemma RoutedArgument(lib: Library, name: Text, doc: Document)
    requires doc.value.Arr?
    ensures var es, ctx := doc.value.elems, ContextOf(lib, name, Some(doc));
            if es.NoElem? then ctx == None
            else if name in {"contractMultiCall", "simulateTransactions", "estimateGas"} then
              if es.rest.NoElem? then ctx == Some(BlockContext(Some(Number(-2)), "Contains"))
              else ctx == DecodeContext(lib, es.rest.value)
            else ctx == DecodeContext(lib, Last(es))
  {
    hide DecodeContext;
  }

  /** The first context that some call from `k` on asks for. */
  ghost function FirstContext(lib: Library, calls: seq<Call>, trees: seq<Option<Document>>,
                              k: nat): Option<BlockContext>
    requires k <= |calls| == |trees|
    decreases |calls| - k
  {
    if k == |calls| then None
    else
      var ctx := ContextOf(lib, calls[k].methodName, trees[k]);
      if ctx.Some? then ctx else FirstContext(lib, calls, trees, k + 1)
  }

  method DecodeBlockContext(lib: Library, fb: Fallback, raw: Text, ghost v: Value) returns (ctx: Option<BlockContext>)
    requires FaithfulLibrary(lib) && Wf(v) && raw == Print(v) && fb.decode(raw) == DecodeContext(lib, v)
    ensures ctx == DecodeContext(lib, v)
  {
    ContextAgrees(lib, v);
    var fast := DecodeBlockContextFast(lib, raw);
    return if fast.Handled? then fast.result else fb.decode(raw);
  }

  lemma SelectedWf(es: Elems, second: bool)
    requires WfElems(es) && es.Elem?
    ensures Wf(Selected(es, second))
    decreases es
  {
    if es.rest.Elem? {
      SelectedWf(es.rest, false);
    }
  }

  /** The context of one call, from its bytes. */
  method CallContext(lib: Library, fb: Fallback, debug: bool, call: Call, ghost tree: Option<Document>)
    returns (ctx: Option<BlockContext>)
    requires FaithfulLibrary(lib) && Answered(lib, fb, call, tree)
    ensures ctx == ContextOf(lib, call.methodName, tree)
  {
    var second := UsesSecond(call.methodName);
    var native := fb.native(call.params);
    var raw, count, ok := BlockContextArgument(call.params, second, debug, native);
    ghost var v := Scalar("0");
    if tree.Some? {
      if tree.value.value.Arr? {
        ArgumentAgrees(tree.value, second, debug, native);
        if tree.value.value.elems.Elem? {
          v := Selected(tree.value.value.elems, second);
          SelectedWf(tree.value.value.elems, second);
        }
      } else {
        OtherArguments(tree.value, second, debug, native);
      }
    }
    if !ok || count == 0 {
      return None;
    }
    if second && count == 1 {
      return Some(BlockContext(Some(Number(LATEST)), "Contains"));
    }
    ctx := DecodeBlockContext(lib, fb, raw, v);
  }

  /** `ParseBlockContext`: over the parsed requests of a body, the context the reference decoders find in
      the trees of their arguments. */
  method ParseBlockContext(lib: Library, fb: Fallback, debug: bool, calls: seq<Call>,
                           ghost trees: seq<Option<Document>>)
    returns (ctx: Option<BlockContext>)
    requires FaithfulLibrary(lib) && |calls| == |trees|
    requires forall k :: 0 <= k < |calls| ==> Answered(lib, fb, calls[k], trees[k])
    ensures ctx == FirstContext(lib, calls, trees, 0)
  {
    for k := 0 to |calls|
      invariant FirstContext(lib, calls, trees, 0) == FirstContext(lib, calls, trees, k)
    {
      ctx := CallContext(lib, fb, debug, calls[k], trees[k]);
      if ctx.Some? {
        return;
      }
    }
    return None;
  }
}
