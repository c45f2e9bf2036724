/** The two parsers together: from the bytes of a request body to the block context of its requests
    (jsonrpc/ext.go:54-65, lb/lb.go:655-683, lb/block_context.go:20-45). */
module RequestBlocks {
  import opened Wrappers
  import opened JsonScan
  import opened JsonText
  import opened JsonRpcRequest
  import opened BlockContexts

  // ----- reading the tree of a body -----

  function Elements(es: Elems): seq<Value> {
    match es case NoElem => [] case Elem(v, _, _, rest) => [v] + Elements(rest)
  }

  /** The request values of a body. */
  function ItemsOf(doc: Document): seq<Value> {
    if doc.value.Arr? then Elements(doc.value.elems) else [doc.value]
  }

  /** The value of the last member that names the params. */
  function ParamsIn(d: Decoder, ms: Members): Option<Value>
    decreases ms
  {
    match ms
    case NoMember => None
    case Member(key, _, _, v, _, _, rest) =>
      var later := ParamsIn(d, rest);
      if later.Some? then later else if d.field(key) == Some(Params) then Some(v) else None
  }

  /** The argument tree of a request value. */
  function TreeOf(d: Decoder, v: Value): Option<Document> {
    if v.Obj? && ParamsIn(d, v.members).Some? then Some(Document([], ParamsIn(d, v.members).value, [])) else None
  }

  function MethodOf(d: Decoder, v: Value): Text {
    match DecodeItem(d, v) case Some(Some(r)) => r.methodName case _ => []
  }

  /** The first block context that a request value from `k` on asks for, read from its own tree. */
  ghost function ContextFrom(d: Decoder, lib: Library, vs: seq<Value>, k: nat): Option<BlockContext>
    requires k <= |vs|
    decreases |vs| - k
  {
    if k == |vs| then None
    else
      var ctx := ContextOf(lib, MethodOf(d, vs[k]), TreeOf(d, vs[k]));
      if ctx.Some? then ctx else ContextFrom(d, lib, vs, k + 1)
  }

  // ----- parsed requests carry their trees -----

  lemma {:induction false} ParamsDecoded(d: Decoder, r: Request, ms: Members)
    requires DecodeMembers(d, r, ms).Some?
    ensures var v := ParamsIn(d, ms);
            DecodeMembers(d, r, ms).value.params == if v.Some? then Some(Print(v.value)) else r.params
    decreases ms
  {
    if ms.Member? {
      ParamsDecoded(d, DecodeMember(d, r, ms.key, ms.value).value, ms.rest);
    }
  }

  lemma {:induction false} ParamsWf(d: Decoder, ms: Members)
    requires WfMembers(ms) && ParamsIn(d, ms).Some?
    ensures Wf(ParamsIn(d, ms).value)
    decreases ms
  {
    if ParamsIn(d, ms.rest).Some? {
      ParamsWf(d, ms.rest);
    }
  }

  lemma {:induction false} ItemsDecoded(d: Decoder, es: Elems)
    requires DecodeItems(d, es).Some?
    ensures |DecodeItems(d, es).value| == |Elements(es)|
    ensures forall i :: 0 <= i < |Elements(es)| ==> DecodeItem(d, Elements(es)[i]) == Some(DecodeItems(d, es).value[i])
    decreases es
  {
    hide DecodeItem;
    if es.Elem? {
      ItemsDecoded(d, es.rest);
    }
  }

  lemma {:induction false} ElementsWf(es: Elems, i: nat)
    requires WfElems(es) && i < |Elements(es)|
    ensures Wf(Elements(es)[i])
    decreases es
  {
    if i > 0 {
      ElementsWf(es.rest, i - 1);
    }
  }

  /** A body whose requests are all present was decoded from that many request values. */
  lemma BodyDecoded(d: Decoder, doc: Document, reqs: seq<Option<Request>>, i: nat)
    requires WfDocument(doc) && DecodeDocument(d, doc) == Some(reqs) && i < |reqs|
    requires reqs[i].Some? && reqs[i].value != NO_REQUEST
    ensures |ItemsOf(doc)| == |reqs| && Wf(ItemsOf(doc)[i]) && DecodeItem(d, ItemsOf(doc)[i]) == Some(reqs[i])
  {
    hide DecodeMembers;
    if doc.value.Arr? {
      ItemsDecoded(d, doc.value.elems);
      ElementsWf(doc.value.elems, i);
    }
  }

  function CallOf(r: Request): Call {
    Call(r.methodName, if r.params.Some? then r.params.value else [])
  }

  /** The raw params of a parsed request are those of its tree. */
  lemma ItemAnswered(d: Decoder, lib: Library, fb: Fallback, v: Value, r: Request)
    requires Wf(v) && DecodeItem(d, v) == Some(Some(r))
    requires TreeOf(d, v).Some? ==> FallbackAnswers(lib, fb, MethodOf(d, v), TreeOf(d, v).value)
    ensures Answered(lib, fb, CallOf(r), TreeOf(d, v)) && CallOf(r).methodName == MethodOf(d, v)
  {
    hide FallbackAnswers, Wf;
    WfMembersOf(v);
    ParamsDecoded(d, NO_REQUEST, v.members);
    var p := ParamsIn(d, v.members);
    if p.Some? {
      ParamsWf(d, v.members);
      assert [] + Print(p.value) + [] == Print(p.value);
    }
  }

  lemma {:induction false} SameContext(d: Decoder, lib: Library, vs: seq<Value>, calls: seq<Call>,
                                       trees: seq<Option<Document>>, k: nat)
    requires k <= |vs| == |calls| == |trees|
    requires forall i :: 0 <= i < |vs| ==> calls[i].methodName == MethodOf(d, vs[i]) && trees[i] == TreeOf(d, vs[i])
    ensures FirstContext(lib, calls, trees, k) == ContextFrom(d, lib, vs, k)
    decreases |vs| - k
  {
    hide ContextOf, MethodOf, TreeOf;
    if k < |vs| {
      SameContext(d, lib, vs, calls, trees, k + 1);
    }
  }

  // ----- from bytes to the block context -----

  /** The libraries answer for every argument list of the body. */
  ghost predicate AnswersAll(d: Decoder, lib: Library, fb: Fallback, vs: seq<Value>) {
    forall i :: 0 <= i < |vs| ==>
      TreeOf(d, vs[i]).Some? ==> FallbackAnswers(lib, fb, MethodOf(d, vs[i]), TreeOf(d, vs[i]).value)
  }

  /** A body is parsed, its requests are validated, and their block context is found: for every document
      the flow is entered with, single or batch, it is the one read from the document's own tree. */
  method BodyContext(d: Decoder, lib: Library, fb: Fallback, debug: bool, body: Text,
                     decoded: Option<seq<Option<Request>>>, ghost doc: Document)
    returns (entry: Entry, ctx: Option<BlockContext>)
    requires Faithful(d) && FaithfulLibrary(lib) && WfDocument(doc) && body == PrintDocument(doc)
    requires decoded == DecodeDocument(d, doc) && AnswersAll(d, lib, fb, ItemsOf(doc))
    ensures entry.Entered? <==>
              && DecodeDocument(d, doc).Some? && DecodeDocument(d, doc).value != []
              && forall i :: 0 <= i < |DecodeDocument(d, doc).value| ==> ValidRequest(DecodeDocument(d, doc).value[i])
    ensures entry.Entered? ==> ctx == ContextFrom(d, lib, ItemsOf(doc), 0)
  {
    hide Faithful, FaithfulLibrary, WfDocument, PrintDocument, DecodeDocument, ItemsOf;
    var parsed := ParseRequest(d, body, decoded, doc);
    if parsed.None? {
      return Rejected, None;
    }
    var reqs := parsed.value;
    entry := GenerateRequestContext(reqs);
    if !entry.Entered? {
      return entry, None;
    }
    var calls := seq(|reqs|, i requires 0 <= i < |reqs| && reqs[i].Some? => CallOf(reqs[i].value));
    ghost var vs := ItemsOf(doc);
    BodyDecoded(d, doc, reqs, 0);
    ghost var trees := seq(|vs|, i requires 0 <= i < |vs| => TreeOf(d, vs[i]));
    forall i | 0 <= i < |reqs|
      ensures Answered(lib, fb, calls[i], trees[i]) && calls[i].methodName == MethodOf(d, vs[i])
    {
      BodyDecoded(d, doc, reqs, i);
      ItemAnswered(d, lib, fb, vs[i], reqs[i].value);
    }
    ctx := ParseBlockContext(lib, fb, debug, calls, trees);
    SameContext(d, lib, vs, calls, trees, 0);
  }
}
