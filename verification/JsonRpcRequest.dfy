/** The two request parsers of jsonrpc/ext.go: the borrowing fast path over the byte walker and the
    reference decoder, stated over the tree of module JsonText, and the proof that they agree.

    What the reference library does with keys and strings that are not plain ASCII is a parameter
    (`Decoder`), so the agreement holds whatever it does there. The fields of a request are those of
    section 4 of the JSON-RPC 2.0 Specification, a batch is that of section 6.
 */
module JsonRpcRequest {
  import opened Wrappers
  import opened JsonScan
  import opened JsonText

  datatype Field = Jsonrpc | Method | Params | Id

  /** Absent strings are empty; absent raw fields are `None`. */
  datatype Request = Request(jsonrpc: Text, methodName: Text, params: Option<Text>, id: Option<Text>)

  const NO_REQUEST := Request([], [], None, None)

  // ----- the reference decoder -----

  /** The library's key matching and string unescaping, on raw key and string contents. */
  datatype Decoder = Decoder(field: Text -> Option<Field>, unescape: Text -> Option<Text>)

  predicate IsPlainASCII(t: Text) {
    forall k :: 0 <= k < |t| ==> Printable(t[k])
  }

  predicate NoBackslash(t: Text) {
    forall k :: 0 <= k < |t| ==> t[k] != '\\'
  }

  function Lower(c: char): char {
    if 'A' <= c <= 'Z' then c + 32 as char else c
  }

  predicate EqualFold(a: Text, b: Text) {
    |a| == |b| && forall k :: 0 <= k < |a| ==> Lower(a[k]) == Lower(b[k])
  }

  /** The field a plain key names, ignoring case. */
  function FoldedField(key: Text): Option<Field> {
    if EqualFold(key, "jsonrpc") then Some(Jsonrpc)
    else if EqualFold(key, "method") then Some(Method)
    else if EqualFold(key, "params") then Some(Params)
    else if EqualFold(key, "id") then Some(Id)
    else None
  }

  /** Text of bytes from 0x20 to 0x7e without a backslash. */
  predicate IsUnescaped(t: Text) {
    forall k :: 0 <= k < |t| ==> 0x20 <= t[k] as int <= 0x7e && t[k] != '\\'
  }

  /** `key` is `name` with some letters in upper case; `name` has lower-case letters only. */
  predicate CaseVariant(key: Text, name: Text) {
    && |key| == |name|
    && forall k :: 0 <= k < |key| ==>
         key[k] == name[k] || ('a' <= name[k] <= 'z' && key[k] as int == name[k] as int - 32)
  }

  function NameOf(f: Field): Text {
    match f case Jsonrpc => "jsonrpc" case Method => "method" case Params => "params" case Id => "id"
  }

  /** On plain ASCII the library finds the field whose name a key spells, in any case, and leaves strings
      as they are. */
  ghost predicate Faithful(d: Decoder) {
    && (forall key, f :: IsUnescaped(key) ==> (d.field(key) == Some(f) <==> CaseVariant(key, NameOf(f))))
    && (forall c :: IsUnescaped(c) ==> d.unescape(c) == Some(c))
  }

  lemma FoldedIsVariant(key: Text, name: Text)
    requires IsUnescaped(key) && forall k :: 0 <= k < |name| ==> 'a' <= name[k] <= 'z' || name[k] == '_'
    ensures EqualFold(key, name) <==> CaseVariant(key, name)
  {
    if |key| == |name| {
      forall k | 0 <= k < |key| ensures Lower(key[k]) == Lower(name[k]) <==>
          (key[k] == name[k] || ('a' <= name[k] <= 'z' && key[k] as int == name[k] as int - 32))
      {
        LowerIs(key[k], name[k]);
      }
    }
  }

  lemma LowerIs(a: char, b: char)
    requires 0x20 <= a as int <= 0x7e && ('a' <= b <= 'z' || b == '_')
    ensures Lower(a) == Lower(b) <==> a == b || ('a' <= b <= 'z' && a as int == b as int - 32)
  {
  }

  /** The two tests of the fast path together pass exactly the unescaped text. */
  lemma PlainIsUnescaped(t: Text)
    ensures IsPlainASCII(t) && NoBackslash(t) <==> IsUnescaped(t)
  {
  }

  lemma FaithfulStrings(d: Decoder, c: Text)
    requires Faithful(d) && IsPlainASCII(c) && NoBackslash(c)
    ensures d.unescape(c) == Some(c)
  {
    PlainIsUnescaped(c);
  }

  /** On plain keys the folding match of the fast path is the library's match. */
  lemma FaithfulFolds(d: Decoder, key: Text)
    requires Faithful(d) && IsPlainASCII(key) && NoBackslash(key)
    ensures d.field(key) == FoldedField(key)
  {
    FoldedIsVariant(key, NameOf(Jsonrpc));
    FoldedIsVariant(key, NameOf(Method));
    FoldedIsVariant(key, NameOf(Params));
    FoldedIsVariant(key, NameOf(Id));
    assert forall f :: d.field(key) == Some(f) <==> CaseVariant(key, NameOf(f));
    hide CaseVariant, EqualFold;
  }

  /** Decoding `v` into a string that holds `prior`: null leaves it, other kinds are errors. */
  function DecodeString(d: Decoder, v: Value, prior: Text): Option<Text> {
    match v
    case Str(content) => d.unescape(content)
    case Scalar(text) => if text == "null" then Some(prior) else None
    case Arr(_, _) => None
    case Obj(_, _) => None
  }

  function DecodeMember(d: Decoder, r: Request, key: Text, v: Value): Option<Request> {
    match d.field(key)
    case None => Some(r)
    case Some(Params) => Some(r.(params := Some(Print(v))))
    case Some(Id) => Some(r.(id := Some(Print(v))))
    case Some(Jsonrpc) =>
      (match DecodeString(d, v, r.jsonrpc) case None => None case Some(t) => Some(r.(jsonrpc := t)))
    case Some(Method) =>
      (match DecodeString(d, v, r.methodName) case None => None case Some(t) => Some(r.(methodName := t)))
  }

  /** Later members overwrite earlier ones. */
  function DecodeMembers(d: Decoder, r: Request, ms: Members): Option<Request>
    decreases ms
  {
    match ms
    case NoMember => Some(r)
    case Member(key, _, _, v, _, _, rest) =>
      match DecodeMember(d, r, key, v)
      case None => None
      case Some(next) => DecodeMembers(d, next, rest)
  }

  /** An element of a batch: null is an absent request. */
  function DecodeItem(d: Decoder, v: Value): Option<Option<Request>> {
    match v
    case Obj(_, members) =>
      (match DecodeMembers(d, NO_REQUEST, members) case None => None case Some(r) => Some(Some(r)))
    case Scalar(text) => if text == "null" then Some(None) else None
    case Str(_) => None
    case Arr(_, _) => None
  }

  function DecodeItems(d: Decoder, es: Elems): Option<seq<Option<Request>>> {
    match es
    case NoElem => Some([])
    case Elem(v, _, _, rest) =>
      match DecodeItem(d, v)
      case None => None
      case Some(item) =>
        match DecodeItems(d, rest) case None => None case Some(items) => Some([item] + items)
  }

  /** A request body: one value with white space around it. */
  datatype Document = Document(lead: Text, value: Value, trail: Text)

  predicate WfDocument(doc: Document) {
    Spaces(doc.lead) && Wf(doc.value) && Spaces(doc.trail)
  }

  function PrintDocument(doc: Document): Text {
    doc.lead + Print(doc.value) + doc.trail
  }

  /** `parseRequestDecoded`: a batch, or one object (null decodes to an empty request). */
  function DecodeDocument(d: Decoder, doc: Document): Option<seq<Option<Request>>> {
    if doc.value.Arr? then DecodeItems(d, doc.value.elems)
    else
      match DecodeItem(d, doc.value)
      case None => None
      case Some(item) => Some([Some(if item.Some? then item.value else NO_REQUEST)])
  }

  // ----- the borrowing parser -----

  datatype RequestScan = RequestScan(ok: bool, req: Request)

  /** The callback of `scanRequestObject`. */
  function OnRequestMember(st: RequestScan, key: Text, escaped: bool, value: Text): (RequestScan, bool) {
    var declined := (st.(ok := false), false);
    if key == "jsonrpc" || key == "method" then
      if value == [] || value[0] != '"' || |value| < 2 then declined
      else
        var content := value[1..|value| - 1];
        if !IsPlainASCII(content) then declined
        else if key == "jsonrpc" then (st.(req := st.req.(jsonrpc := content)), true)
        else (st.(req := st.req.(methodName := content)), true)
    else if key == "params" then (st.(req := st.req.(params := Some(value))), true)
    else if key == "id" then (st.(req := st.req.(id := Some(value))), true)
    else if escaped || !IsPlainASCII(key) || FoldedField(key).Some? then declined
    else (st, true)
  }

  function RequestCallback(s: Text): Callback<RequestScan> {
    (st: RequestScan, idx: nat, c: Child) =>
      OnRequestMember(st, Slice(s, c.ks, c.ke), c.escaped, Slice(s, c.vs, c.ve))
  }

  function ScanRequest(s: Text, i: nat): Option<Request> {
    var (st, end) := Calls(RequestCallback(s), RequestScan(true, NO_REQUEST), WalkObject(s, i), 0);
    if st.ok && end.Some? then Some(st.req) else None
  }

  method ScanRequestObject(s: Text, i: nat) returns (req: Request, ok: bool)
    ensures ScanRequest(s, i) == if ok then Some(req) else None
  {
    var st, _, scanned := ScanObject(s, i, RequestScan(true, NO_REQUEST), RequestCallback(s));
    return st.req, st.ok && scanned;
  }

  datatype BatchScan = BatchScan(declined: bool, reqs: seq<Request>)

  /** The callback of `parseRequestBorrowed` on batch items. */
  function BatchCallback(s: Text): Callback<BatchScan> {
    (st: BatchScan, idx: nat, c: Child) =>
      if c.vs >= |s| || s[c.vs] != '{' || ScanRequest(s, c.vs).None? then (st.(declined := true), false)
      else (st.(reqs := st.reqs + [ScanRequest(s, c.vs).value]), true)
  }

  /** What the fast path returns on a body that the validator accepts. */
  function Borrowed(s: Text): Option<seq<Request>> {
    var i := SpaceEnd(s, 0);
    if !NoBackslash(s) || i >= |s| then None
    else if s[i] == '{' then
      (match ScanRequest(s, i) case None => None case Some(r) => Some([r]))
    else if s[i] == '[' then
      var (st, end) := Calls(BatchCallback(s), BatchScan(false, []), WalkArray(s, i), 0);
      if end.None? || st.declined then None else Some(st.reqs)
    else None
  }

  /** `parseRequestBorrowed`; `valid` is the validator's answer for `body`. */
  method ParseRequestBorrowed(body: Text, valid: bool) returns (reqs: seq<Request>, ok: bool)
    ensures (if ok then Some(reqs) else None) == if valid then Borrowed(body) else None
  {
    if !NoBackslash(body) || !valid {
      return [], false;
    }
    var i := SkipSpace(body, 0);
    if i >= |body| {
      return [], false;
    }
    if body[i] == '{' {
      var req, scanned := ScanRequestObject(body, i);
      return [req], scanned;
    } else if body[i] == '[' {
      var st, _, scanned := ScanArray(body, i, BatchScan(false, []), BatchCallback(body));
      return st.reqs, scanned && !st.declined;
    }
    return [], false;
  }

  // ----- agreement -----

  /** The members the fast path takes: fields spelled exactly, string fields with plain strings, and
      other keys that are plain and do not fold onto a field. */
  predicate SimpleMember(key: Text, v: Value) {
    if key == "jsonrpc" || key == "method" then v.Str? && IsPlainASCII(v.content)
    else key == "params" || key == "id" || (IsPlainASCII(key) && FoldedField(key).None?)
  }

  predicate SimpleMembers(ms: Members) {
    match ms
    case NoMember => true
    case Member(key, _, _, v, _, _, rest) => SimpleMember(key, v) && SimpleMembers(rest)
  }

  predicate SimpleItems(es: Elems) {
    match es
    case NoElem => true
    case Elem(v, _, _, rest) => v.Obj? && SimpleMembers(v.members) && SimpleItems(rest)
  }

  /** The documents the fast path takes. */
  predicate Simple(doc: Document) {
    && NoBackslash(PrintDocument(doc))
    && match doc.value
       case Obj(_, members) => SimpleMembers(members)
       case Arr(_, elems) => SimpleItems(elems)
       case Str(_) => false
       case Scalar(_) => false
  }

  lemma ExactFields(key: Text)
    ensures key == "jsonrpc" ==> FoldedField(key) == Some(Jsonrpc)
    ensures key == "method" ==> FoldedField(key) == Some(Method)
    ensures key == "params" ==> FoldedField(key) == Some(Params)
    ensures key == "id" ==> FoldedField(key) == Some(Id)
    ensures key == "jsonrpc" || key == "method" || key == "params" || key == "id"
            ==> IsPlainASCII(key) && NoBackslash(key)
  {
    if key == "params" {
      assert Lower(key[0]) != Lower("method"[0]);
    }
  }

  lemma SliceAt(s: Text, i: nat, t: Text)
    requires At(s, i, t)
    ensures Slice(s, i, i + |t|) == t
  {
  }

  lemma NoBackslashAt(s: Text, i: nat, t: Text)
    requires NoBackslash(s) && At(s, i, t)
    ensures NoBackslash(t)
  {
    forall k | 0 <= k < |t| ensures t[k] != '\\' {
      assert s[i + k] == t[k];
    }
  }

  /** The raw text of a string value, quotes taken off, is its content. */
  lemma ContentOf(v: Value)
    requires Wf(v)
    ensures v.Str? <==> Print(v) != [] && Print(v)[0] == '"'
    ensures v.Str? ==> |Print(v)| >= 2 && Print(v)[1..|Print(v)| - 1] == v.content
  {
  }

  /** One member: the callback goes on exactly on simple members, and then does what the decoder does. */
  lemma MemberAgrees(d: Decoder, st: RequestScan, key: Text, v: Value)
    requires Faithful(d) && st.ok && Wf(v) && NoBackslash(key) && (v.Str? ==> NoBackslash(v.content))
    ensures var (next, more) := OnRequestMember(st, key, false, Print(v));
            && more == next.ok == SimpleMember(key, v)
            && (more ==> DecodeMember(d, st.req, key, v) == Some(next.req))
  {
    hide Faithful, IsPlainASCII, NoBackslash, FoldedField, Wf, Print;
    ExactFields(key);
    ContentOf(v);
    if IsPlainASCII(key) {
      FaithfulFolds(d, key);
    }
    if v.Str? && IsPlainASCII(v.content) {
      FaithfulStrings(d, v.content);
    }
  }

  /** The callback is given the raw key and value of a laid out member. */
  lemma MemberText(s: Text, c: Child, key: Text, v: Value)
    requires ShowsKey(s, c, key) && ShowsValue(s, c, v)
    ensures Slice(s, c.ks, c.ke) == key && Slice(s, c.vs, c.ve) == Print(v)
  {
    SliceAt(s, c.ks, key);
    SliceIsPrint(s, c.vs, v);
  }

  lemma MemberSeen(s: Text, c: Child, key: Text, v: Value)
    requires NoBackslash(s) && ShowsKey(s, c, key) && ShowsValue(s, c, v)
    ensures Slice(s, c.ks, c.ke) == key && !c.escaped && NoBackslash(key)
    ensures Slice(s, c.vs, c.ve) == Print(v)
    ensures v.Str? ==> NoBackslash(v.content)
  {
    NoBackslashAt(s, c.ks, key);
    MemberText(s, c, key, v);
    if v.Str? {
      NoBackslashAt(s, c.vs + 1, v.content);
    }
  }

  lemma {:induction false} MembersAgree(s: Text, d: Decoder, st: RequestScan, w: Walk, ms: Members, end: nat, idx: nat)
    requires Faithful(d) && st.ok && WfMembers(ms) && NoBackslash(s) && ShowsMembers(s, w, ms, end)
    ensures var (last, e) := Calls(RequestCallback(s), st, w, idx);
            && last.ok == SimpleMembers(ms)
            && (last.ok ==> e == Some(end) && DecodeMembers(d, st.req, ms) == Some(last.req))
    decreases ms
  {
    hide Faithful, NoBackslash, OnRequestMember, SimpleMember, DecodeMember, ShowsKey, ShowsValue, Wf, IsBody, Spaces;
    if ms.Member? {
      MemberSeen(s, w.child, ms.key, ms.value);
      MemberAgrees(d, st, ms.key, ms.value);
      var (next, more) := OnRequestMember(st, ms.key, false, Print(ms.value));
      if more {
        MembersAgree(s, d, next, w.rest, ms.rest, end, idx + 1);
      }
    }
  }

  lemma ObjectAgrees(s: Text, d: Decoder, i: nat, v: Value)
    requires Faithful(d) && NoBackslash(s) && Wf(v) && v.Obj? && Occurs(s, i, v)
    ensures ScanRequest(s, i).Some? <==> SimpleMembers(v.members)
    ensures ScanRequest(s, i).Some? ==> DecodeItem(d, v) == Some(Some(ScanRequest(s, i).value))
  {
    ObjectShown(s, i, v);
    MembersAgree(s, d, RequestScan(true, NO_REQUEST), WalkObject(s, i), v.members, i + Width(v), 0);
  }

  function Present(reqs: seq<Request>): (items: seq<Option<Request>>)
    ensures |items| == |reqs| && forall k :: 0 <= k < |reqs| ==> items[k] == Some(reqs[k])
  {
    seq(|reqs|, k requires 0 <= k < |reqs| => Some(reqs[k]))
  }

  lemma {:induction false} ItemsAgree(s: Text, d: Decoder, st: BatchScan, w: Walk, es: Elems, end: nat, idx: nat)
    requires Faithful(d) && NoBackslash(s) && WfElems(es) && ShowsElems(s, w, es, end) && !st.declined
    ensures var (last, e) := Calls(BatchCallback(s), st, w, idx);
            && last.declined == !SimpleItems(es)
            && (SimpleItems(es) ==> e == Some(end) && |st.reqs| <= |last.reqs| && last.reqs[..|st.reqs|] == st.reqs
                                    && DecodeItems(d, es) == Some(Present(last.reqs[|st.reqs|..])))
    decreases es
  {
    hide Faithful, NoBackslash, Occurs, Wf, Spaces, ScanRequest, SimpleMembers, DecodeItem;
    match es
    case NoElem =>
    case Elem(v, _, _, rest) =>
      FirstByte(s, w.child.vs, v);
      if v.Obj? {
        ObjectAgrees(s, d, w.child.vs, v);
        if ScanRequest(s, w.child.vs).Some? {
          var r := ScanRequest(s, w.child.vs).value;
          ItemsAgree(s, d, st.(reqs := st.reqs + [r]), w.rest, rest, end, idx + 1);
          if SimpleItems(rest) {
            var last := Calls(BatchCallback(s), st, w, idx).0;
            assert last.reqs[|st.reqs|] == (st.reqs + [r])[|st.reqs|] == r;
            assert last.reqs[|st.reqs|..] == [r] + last.reqs[|st.reqs| + 1..];
            assert Present(last.reqs[|st.reqs|..]) == [Some(r)] + Present(last.reqs[|st.reqs| + 1..]);
          }
        }
      }
  }

  /** Where the value of a document stands in its text. */
  lemma DocumentAt(doc: Document)
    requires WfDocument(doc)
    ensures var s := PrintDocument(doc);
            && Occurs(s, |doc.lead|, doc.value) && SpaceEnd(s, 0) == |doc.lead| < |s|
            && |doc.lead| + Width(doc.value) + |doc.trail| == |s|
            && At(s, |doc.lead| + Width(doc.value), doc.trail)
  {
    hide Wf, Occurs, Print, Width, Spaces, SpaceEnd, IsSpace, IsDelimiter;
    var s := PrintDocument(doc);
    WholeText(s);
    hide At;
    AtConcat(s, 0, doc.lead + Print(doc.value), doc.trail);
    AtConcat(s, 0, doc.lead, Print(doc.value));
    LaidOut(s, |doc.lead|, doc.value);
    FirstByte(s, |doc.lead|, doc.value);
    NoSpace(s[|doc.lead|]);
    SpacesAt(s, 0, doc.lead, 0);
  }

  lemma WholeText(s: Text)
    ensures At(s, 0, s)
  {
  }

  lemma NoSpace(c: char)
    requires !IsDelimiter(c)
    ensures !IsSpace(c)
  {
  }

  /** On every valid body the fast path accepts exactly the simple documents, single or batch, and then
      returns, field by field, what the reference decoder returns. */
  lemma BorrowedAgrees(d: Decoder, doc: Document)
    requires Faithful(d) && WfDocument(doc)
    ensures Borrowed(PrintDocument(doc)).Some? <==> Simple(doc)
    ensures Simple(doc) ==> DecodeDocument(d, doc) == Some(Present(Borrowed(PrintDocument(doc)).value))
  {
    hide Faithful, NoBackslash, PrintDocument, ScanRequest, SimpleMembers, DecodeItem, Occurs, At;
    var s := PrintDocument(doc);
    DocumentAt(doc);
    var i := |doc.lead|;
    FirstByte(s, i, doc.value);
    if NoBackslash(s) {
      if doc.value.Obj? {
        ObjectAgrees(s, d, i, doc.value);
        if ScanRequest(s, i).Some? {
          assert Present([ScanRequest(s, i).value]) == [Some(ScanRequest(s, i).value)];
        }
      } else if doc.value.Arr? {
        ArrayShown(s, i, doc.value);
        ItemsAgree(s, d, BatchScan(false, []), WalkArray(s, i), doc.value.elems, i + Width(doc.value), 0);
      }
    }
  }

  /** `IsBatch`, on any text: whether the first byte that is no space is an opening bracket. */
  method IsBatch(msg: Text) returns (batch: bool)
    ensures var k := SpaceEnd(msg, 0); batch <==> k < |msg| && msg[k] == '['
  {
    var k := 0;
    while k < |msg|
      invariant SpaceEnd(msg, 0) == SpaceEnd(msg, k) && k <= |msg|
    {
      if !IsSpace(msg[k]) {
        return msg[k] == '[';
      }
      k := k + 1;
    }
    return false;
  }

  /** On a document that bracket is there exactly when the value is an array. */
  lemma BatchIsArray(doc: Document)
    requires WfDocument(doc)
    ensures var msg, k := PrintDocument(doc), SpaceEnd(PrintDocument(doc), 0);
            k < |msg| && (msg[k] == '[' <==> doc.value.Arr?)
  {
    DocumentAt(doc);
    FirstByte(PrintDocument(doc), |doc.lead|, doc.value);
  }

  // ----- entering the request flow -----

  /** `ParseRequest` on a document: the fast path, or else the reference decoder, whose answer is given. */
  method ParseRequest(d: Decoder, body: Text, decoded: Option<seq<Option<Request>>>, ghost doc: Document)
    returns (reqs: Option<seq<Option<Request>>>)
    requires Faithful(d) && WfDocument(doc) && body == PrintDocument(doc) && decoded == DecodeDocument(d, doc)
    ensures reqs == DecodeDocument(d, doc)
  {
    BorrowedAgrees(d, doc);
    var fast, ok := ParseRequestBorrowed(body, true);
    return if ok then Some(Present(fast)) else decoded;
  }

  /** `Crashed` stands for reading a request that is not there. */
  datatype Entry = Crashed | Rejected | Entered(batch: bool, methodName: Text)

  /** `ValidateRequest`. */
  predicate ValidRequest(req: Option<Request>) {
    req.Some? && req.value.jsonrpc == "2.0" && req.value.methodName != []
  }

  /** `generateRequestContext` on parsed requests: the method of a single one is read before any of them is
      validated. */
  method GenerateRequestContext(reqs: seq<Option<Request>>) returns (e: Entry)
    ensures e.Crashed? <==> reqs == [] || reqs == [None]
    ensures e.Entered? <==>
              reqs != [] && forall i :: 0 <= i < |reqs| ==>
                reqs[i].Some? && reqs[i].value.jsonrpc == "2.0" && reqs[i].value.methodName != ""
    ensures e.Entered? ==>
              && e.batch == (|reqs| > 1)
              && (if e.batch then e.methodName == "unknown"
                  else reqs[0].Some? && e.methodName == reqs[0].value.methodName)
  {
    var batch := |reqs| > 1;
    var name := "unknown";
    if !batch {
      if |reqs| == 0 || reqs[0].None? {
        return Crashed;
      }
      name := reqs[0].value.methodName;
    }
    for i := 0 to |reqs|
      invariant forall j :: 0 <= j < i ==> ValidRequest(reqs[j])
    {
      if !ValidRequest(reqs[i]) {
        return Rejected;
      }
    }
    return Entered(batch, name);
  }

  predicate IsNull(v: Value) {
    v == Scalar("null")
  }

  /** The empty array and the array that holds null alone. */
  predicate NothingToRead(v: Value) {
    v.Arr? && (v.elems.NoElem? || (IsNull(v.elems.value) && v.elems.rest.NoElem?))
  }

  /** Of the documents the decoder takes, exactly the empty array and the array of one null give a request
      list whose first request cannot be read; the null document itself is read as an empty request. */
  lemma FirstRequestReadable(d: Decoder, doc: Document)
    requires DecodeDocument(d, doc).Some?
    ensures var reqs := DecodeDocument(d, doc).value;
            (reqs == [] || reqs == [None]) <==> NothingToRead(doc.value)
  {
    hide DecodeMembers;
    if doc.value.Arr? && doc.value.elems.Elem? {
      var reqs, rest := DecodeDocument(d, doc).value, doc.value.elems.rest;
      var item, items := DecodeItem(d, doc.value.elems.value).value, DecodeItems(d, rest).value;
      assert reqs == [item] + items && reqs[0] == item;
      assert items == [] <==> rest.NoElem?;
      assert reqs == [None] <==> item == None && items == [];
    }
  }

  lemma NullArrayCrashes(d: Decoder, doc: Document)
    requires doc.value == Arr([], Elem(Scalar("null"), [], [], NoElem))
    ensures DecodeDocument(d, doc) == Some([None]) && NothingToRead(doc.value)
  {
    var none: Option<Request> := None;
    assert DecodeItem(d, Scalar("null")) == Some(none) && DecodeItems(d, NoElem) == Some([]);
    assert [none] + [] == [none];
  }
}
