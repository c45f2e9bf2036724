/** The request flow of `ServeHTTP` (lb/lb.go:387-619): first attempt, archive retry, native retry, the
    archive-hash shortcut, and the two memos of the request context (types/lib.go:76-117).

    Node choice and upstream answers are oracles: they may depend on everything and differ from call to
    call. `GenerateRequestContext` in module JsonRpcRequest says which parsed requests enter this flow. */
module Serving {
  import opened Wrappers
  import opened JsonScan
  import opened BlockContexts
  import opened ResponseFilter
  import opened ArchiveHashCaches

  const STATE_BLOCK_NOT_FOUND := -39006
  const INVALID_BLOCK_ID := -39007
  const COSMOS_PRECOMPILE := -39008

  datatype Role = StateRole | ArchiveRole | NativeRole

  /** What a node is asked for: any node the block context allows, an archive node, or a native node. */
  datatype Ask = Unforced | ForArchive | ForNative

  /** `batch` is whether there are several calls, `archive` whether the client asked for archive. */
  datatype Request = Request(chain: string, batch: bool, archive: bool, ctx: Option<BlockContext>)

  /** The library parts of reading a response: trimming, and the error codes of a trimmed body. */
  datatype Reader = Reader(trim: Text -> Text, codes: Text -> set<int>)

  ghost predicate Trims(rd: Reader) {
    forall body :: TrimOf(body, rd.trim(body))
  }

  datatype Response = Response(status: int, body: Text)

  /** What happens around one request. `pick` gives the role of the chosen node for each choice and
      `reply` the response of each attempt, both with the number of the call; `rendered` gives the body
      after the proxy writes its own error with a status over a body. */
  datatype Upstream = Upstream(pick: (Ask, nat) -> Option<Role>, reply: (Role, nat) -> Response,
                               rendered: (int, Text) -> Text)

  /** Choices keep to what was asked for. */
  ghost predicate Obeys(up: Upstream) {
    forall n: nat ::
      && (up.pick(ForArchive, n).Some? ==> up.pick(ForArchive, n).value == ArchiveRole)
      && (up.pick(ForNative, n).Some? ==> up.pick(ForNative, n).value == NativeRole)
      && (up.pick(Unforced, n).Some? ==> up.pick(Unforced, n).value != NativeRole)
  }

  datatype Attempt = Attempt(role: Role, status: int, body: Text)

  /** `NoBackend` and `NoNativeBackend` are the answers when no node can be chosen. */
  datatype Result = NoBackend | NoNativeBackend | Served(attempt: Attempt)

  datatype Outcome = Outcome(trace: seq<Attempt>, result: Result, remember: Option<Text>)

  const GATEWAY_TIMEOUT := 504
  const BAD_GATEWAY := 502

  /** A timeout and an unreachable node become the proxy's own error response. */
  function Made(up: Upstream, role: Role, n: nat): Attempt {
    var r := up.reply(role, n);
    Attempt(role, r.status,
            if r.status == GATEWAY_TIMEOUT || r.status == BAD_GATEWAY then up.rendered(r.status, r.body) else r.body)
  }

  /** The error codes found in a body. */
  ghost function CodesOf(rd: Reader, body: Text): set<int> {
    if rd.trim(body) == [] || !HasErrorKey(body) then {} else rd.codes(rd.trim(body))
  }

  // ----- the flow -----

  /** Does the cache send the request straight to archive? `cached` is whether its hash is cached. */
  predicate Shortcut(req: Request, cached: bool) {
    !req.archive && !req.batch && PinnedHash(req.ctx).Some? && cached
  }

  /** The first chosen role, and whether the request counts as an archive request by then. */
  function FirstChoice(up: Upstream, req: Request, cached: bool): (Option<Role>, bool) {
    var shortcut := Shortcut(req, cached);
    var forced := req.archive || shortcut;
    var first := up.pick(if forced then ForArchive else Unforced, 0);
    if first.None? && shortcut then (up.pick(Unforced, 1), up.pick(Unforced, 1) == Some(ArchiveRole))
    else (first, forced || first == Some(ArchiveRole))
  }

  /** What an archive retry proves: the archive served the pinned hash. */
  ghost function Proven(rd: Reader, req: Request, a: Attempt): Option<Text> {
    var codes := CodesOf(rd, a.body);
    if req.batch || a.status != 200 || STATE_BLOCK_NOT_FOUND in codes || INVALID_BLOCK_ID in codes then None
    else PinnedHash(req.ctx)
  }

  ghost function NativeStage(rd: Reader, up: Upstream, trace: seq<Attempt>, remember: Option<Text>): Outcome
    requires trace != []
  {
    var last := trace[|trace| - 1];
    if COSMOS_PRECOMPILE !in CodesOf(rd, last.body) then Outcome(trace, Served(last), remember)
    else if up.pick(ForNative, 3).None? then Outcome(trace, NoNativeBackend, remember)
    else
      var a := Made(up, up.pick(ForNative, 3).value, 2);
      Outcome(trace + [a], Served(a), remember)
  }

  ghost predicate Retries(rd: Reader, archive: bool, a: Attempt) {
    !archive && STATE_BLOCK_NOT_FOUND in CodesOf(rd, a.body)
  }

  ghost function ArchiveStage(rd: Reader, up: Upstream, req: Request, archive: bool, a: Attempt): Outcome {
    if !Retries(rd, archive, a) then NativeStage(rd, up, [a], None)
    else if up.pick(ForArchive, 2).None? then Outcome([a], NoBackend, None)
    else
      var b := Made(up, up.pick(ForArchive, 2).value, 1);
      NativeStage(rd, up, [a, b], Proven(rd, req, b))
  }

  ghost function Serve(rd: Reader, up: Upstream, req: Request, cached: bool): Outcome {
    var (role, archive) := FirstChoice(up, req, cached);
    if role.None? then Outcome([], NoBackend, None)
    else ArchiveStage(rd, up, req, archive, Made(up, role.value, 0))
  }

  /** The request context and the response of one request. */
  class Exchange {
    const parser: Option<() -> Option<BlockContext>>
    const preset: Option<BlockContext>
    const upstreamTimeout: int
    var context: Option<BlockContext>
    var contextDone: bool
    ghost var parses: nat
    var archive: bool
    var native: bool
    var keyKnown: bool
    var hasKey: bool
    var status: int
    var body: Text
    var path: Text
    var readTimeout: int
    var attempts: seq<Attempt>

    /** `timeout` is the read timeout configured for the request's method. */
    constructor (archiveHeader: bool, preset: Option<BlockContext>, parser: Option<() -> Option<BlockContext>>,
                 path: Text, timeout: int)
      ensures Valid() && !keyKnown && archive == archiveHeader && !native && attempts == []
      ensures this.preset == preset && this.parser == parser && this.path == path && upstreamTimeout == timeout
    {
      this.preset, this.parser, context, contextDone, parses := preset, parser, preset, false, 0;
      this.path, readTimeout, upstreamTimeout := path, 0, timeout;
      archive, native, keyKnown, hasKey := archiveHeader, false, false, false;
      status, body, attempts := 200, [], [];
    }

    /** What the context memo stands for. */
    function Context(): Option<BlockContext> {
      if preset.Some? || parser.None? then preset else parser.value()
    }

    /** The parser ran at most once, and a known context is the right one. */
    ghost predicate ContextValid()
      reads `context, `contextDone, `parses
    {
      && parses == (if contextDone then 1 else 0)
      && (contextDone ==> preset.None? && parser.Some? && context == Context())
      && (!contextDone ==> context == preset)
    }

    /** A known filter answer is the answer for the body as it is now. */
    ghost predicate FilterValid()
      reads `keyKnown, `hasKey, `body
    {
      keyKnown ==> hasKey == HasErrorKey(body)
    }

    ghost predicate Valid()
      reads this
    {
      ContextValid() && FilterValid()
    }

    method GetBlockContext() returns (r: Option<BlockContext>)
      requires ContextValid()
      modifies `context, `contextDone, `parses
      ensures ContextValid() && r == Context() && parses <= 1
    {
      if context.None? && !contextDone && parser.Some? {
        context := parser.value();
        contextDone := true;
        parses := parses + 1;
      }
      return context;
    }

    /** `CachedResponseContainsErrorKey`, called with the body or with the body trimmed. */
    method CachedContainsErrorKey(text: Text) returns (r: bool)
      requires FilterValid() && TrimOf(body, text)
      modifies `keyKnown, `hasKey
      ensures FilterValid() && r == HasErrorKey(body)
    {
      if !keyKnown {
        TrimKeepsErrorKey(body, text);
        hasKey := ContainsErrorKey(text);
        keyKnown := true;
      }
      return hasKey;
    }

    method ResetResponse()
      modifies `keyKnown, `hasKey, `status, `body
      ensures !keyKnown && body == []
    {
      keyKnown, hasKey := false, false;
      status, body := 200, [];
    }

    /** `attemptRequest`: native nodes are called at the root path, and every attempt has the timeout of
        the method. */
    method AttemptRequest(up: Upstream, role: Role, n: nat)
      modifies `keyKnown, `hasKey, `status, `body, `path, `readTimeout, `attempts
      ensures !keyKnown && attempts == old(attempts) + [Made(up, role, n)]
      ensures status == Made(up, role, n).status && body == Made(up, role, n).body
      ensures path == (if native then "/" else old(path)) && readTimeout == upstreamTimeout
    {
      keyKnown, hasKey := false, false;
      if native {
        path := "/";
      }
      readTimeout := upstreamTimeout;
      var r := up.reply(role, n);
      status, body := r.status, r.body;
      if status == GATEWAY_TIMEOUT {
        body := up.rendered(GATEWAY_TIMEOUT, body);
      }
      if status == BAD_GATEWAY {
        body := up.rendered(BAD_GATEWAY, body);
      }
      attempts := attempts + [Attempt(role, status, body)];
    }

    /** `parseRPCErrorCodes`. */
    method ParseErrorCodes(rd: Reader) returns (codes: set<int>)
      requires FilterValid() && Trims(rd)
      modifies `keyKnown, `hasKey
      ensures FilterValid() && codes == CodesOf(rd, body)
    {
      var trimmed := rd.trim(body);
      if |trimmed| == 0 {
        return {};
      }
      var has := CachedContainsErrorKey(trimmed);
      if !has {
        return {};
      }
      return rd.codes(trimmed);
    }

    /** `writeNoBackend`: a new body, so no filter answer may be known. */
    method WriteNoBackend(up: Upstream)
      requires !keyKnown
      modifies `body, `status
      ensures body == up.rendered(200, old(body)) && status == 200
    {
      status, body := 200, up.rendered(200, body);
    }

    /** `routeCachedArchiveHash`. */
    method RouteCachedArchiveHash(cache: ArchiveHashCache, chain: string, batch: bool) returns (r: bool)
      requires ContextValid()
      modifies `context, `contextDone, `parses, `archive
      ensures ContextValid() && archive == (old(archive) || r)
      ensures var hash := PinnedHash(Context());
              r <==> !old(archive) && !native && !batch && hash.Some? && Holds(cache.chains, chain, hash.value)
    {
      if archive || native || batch {
        return false;
      }
      var known := cache.HasChain(chain);
      if !known {
        return false;
      }
      var ctx := GetBlockContext();
      var hash := PinnedHash(ctx);
      if hash.None? {
        return false;
      }
      r := cache.Contains(chain, hash.value);
      archive := archive || r;
    }

    /** The choice before the first attempt, with the way back when no archive node is usable. */
    method ChooseFirst(cache: ArchiveHashCache, up: Upstream, req: Request) returns (role: Option<Role>)
      requires ContextValid() && !native && archive == req.archive && Context() == req.ctx
      modifies `context, `contextDone, `parses, `archive
      ensures ContextValid()
      ensures var hash := PinnedHash(req.ctx);
              var cached := hash.Some? && Holds(old(cache.chains), req.chain, hash.value);
              role == FirstChoice(up, req, cached).0 && (role.Some? ==> archive == FirstChoice(up, req, cached).1)
    {
      var shortcut := RouteCachedArchiveHash(cache, req.chain, req.batch);
      role := up.pick(if archive then ForArchive else Unforced, 0);
      if role.None? && shortcut {
        archive := false;
        role := up.pick(Unforced, 1);
      }
      if role == Some(ArchiveRole) {
        archive := true;
      }
    }

    /** The archive retry. `remember` is what was added to the cache. */
    method RetryWithArchive(rd: Reader, up: Upstream, req: Request, cache: ArchiveHashCache, ghost a: Attempt)
      returns (chosen: bool, remember: Option<Text>)
      requires Valid() && Trims(rd) && Context() == req.ctx && !archive && attempts == [a]
      modifies this, cache
      ensures Valid() && native == old(native)
      ensures chosen <==> up.pick(ForArchive, 2).Some?
      ensures chosen ==>
                var b := Made(up, up.pick(ForArchive, 2).value, 1);
                && attempts == [a, b] && status == b.status && body == b.body && remember == Proven(rd, req, b)
      ensures !chosen ==> attempts == [a] && remember == None
      ensures cache.chains == if remember.None? || cache.size <= 0 then old(cache.chains)
                              else Added(old(cache.chains), req.chain, remember.value)
    {
      hide CodesOf, HasErrorKey, PinnedHash, Added;
      remember := None;
      ResetResponse();
      archive := true;
      var role := up.pick(ForArchive, 2);
      chosen := role.Some?;
      if !chosen {
        WriteNoBackend(up);
        return;
      }
      AttemptRequest(up, role.value, 1);
      var codes := ParseErrorCodes(rd);
      if !req.batch && status == 200 && STATE_BLOCK_NOT_FOUND !in codes && INVALID_BLOCK_ID !in codes {
        var ctx := GetBlockContext();
        remember := PinnedHash(ctx);
        if remember.Some? {
          cache.Add(req.chain, remember.value);
        }
      }
    }

    /** The native retry, when the last response asks for it. */
    method RetryWithNative(rd: Reader, up: Upstream, ghost trace: seq<Attempt>, ghost remember: Option<Text>)
      returns (result: Result)
      requires Valid() && Trims(rd) && !native && attempts == trace && trace != []
      requires body == trace[|trace| - 1].body && status == trace[|trace| - 1].status
      modifies this
      ensures Valid() && Outcome(attempts, result, remember) == NativeStage(rd, up, trace, remember)
      ensures |attempts| > |trace| ==> path == "/" && readTimeout == upstreamTimeout
      ensures result.Served? ==> body == result.attempt.body && status == result.attempt.status
    {
      hide CodesOf, HasErrorKey;
      var codes := ParseErrorCodes(rd);
      if COSMOS_PRECOMPILE in codes {
        ResetResponse();
        native := true;
        var role := up.pick(ForNative, 3);
        if role.None? {
          WriteNoBackend(up);
          return NoNativeBackend;
        }
        AttemptRequest(up, role.value, 2);
      }
      result := Served(attempts[|attempts| - 1]);
    }

    /** `ServeHTTP` from the node choice on. Both memos are right whenever they are read, and stay right
        for the processors that run afterwards. */
    method ServeHTTP(rd: Reader, up: Upstream, req: Request, cache: ArchiveHashCache)
      returns (result: Result, remember: Option<Text>)
      requires Valid() && Trims(rd) && !keyKnown && !native && attempts == []
      requires archive == req.archive && Context() == req.ctx
      modifies this, cache
      ensures Valid()
      ensures var hash := PinnedHash(req.ctx);
              var cached := hash.Some? && Holds(old(cache.chains), req.chain, hash.value);
              Outcome(attempts, result, remember) == Serve(rd, up, req, cached)
      ensures result.Served? ==> body == result.attempt.body && status == result.attempt.status
      ensures cache.chains == if remember.None? || cache.size <= 0 then old(cache.chains)
                              else Added(old(cache.chains), req.chain, remember.value)
    {
      hide CodesOf, HasErrorKey, PinnedHash, Added, Holds, Made, NativeStage, FirstChoice, Proven;
      remember := None;
      var role := ChooseFirst(cache, up, req);
      if role.None? {
        WriteNoBackend(up);
        return NoBackend, None;
      }
      AttemptRequest(up, role.value, 0);
      ghost var a := Made(up, role.value, 0);
      assert attempts == [a];
      var codes := ParseErrorCodes(rd);
      if !archive && STATE_BLOCK_NOT_FOUND in codes {
        var chosen;
        chosen, remember := RetryWithArchive(rd, up, req, cache, a);
        if !chosen {
          return NoBackend, None;
        }
      }
      result := RetryWithNative(rd, up, attempts, remember);
    }
  }

  // ----- attempts -----

  function Rank(role: Role): int {
    match role case StateRole => 0 case ArchiveRole => 1 case NativeRole => 2
  }

  ghost predicate Forward(trace: seq<Attempt>) {
    && |trace| <= 3
    && (forall i, j :: 0 <= i < j < |trace| ==> Rank(trace[i].role) < Rank(trace[j].role))
  }

  /** Every run makes at most three attempts, and their roles only move forward from state to archive to
      native, none twice. */
  lemma AttemptsMoveForward(rd: Reader, up: Upstream, req: Request, cached: bool)
    requires Obeys(up)
    ensures Forward(Serve(rd, up, req, cached).trace)
  {
    hide CodesOf, PinnedHash;
  }

  ghost predicate Asks(rd: Reader, a: Attempt, code: int) {
    code in CodesOf(rd, a.body)
  }

  /** An archive attempt follows a state attempt exactly when that missed, and a native attempt follows
      exactly when the response before it asked for one. */
  ghost predicate Warranted(rd: Reader, trace: seq<Attempt>) {
    forall i :: 0 < i < |trace| ==>
      && (trace[i].role == ArchiveRole ==> Asks(rd, trace[i - 1], STATE_BLOCK_NOT_FOUND))
      && (trace[i].role == NativeRole ==> Asks(rd, trace[i - 1], COSMOS_PRECOMPILE))
  }

  /** The client gets the response of the last attempt, and that response leaves no retry open; an error
      of the proxy stands for a retry that no node could take. */
  ghost predicate Settled(rd: Reader, o: Outcome) {
    var n := |o.trace|;
    match o.result
    case Served(last) =>
      && n > 0 && last == o.trace[n - 1]
      && (Asks(rd, last, STATE_BLOCK_NOT_FOUND) ==> last.role != StateRole)
      && (Asks(rd, last, COSMOS_PRECOMPILE) ==> last.role == NativeRole)
    case NoBackend => n == 0 || (n == 1 && o.trace[0].role == StateRole && Asks(rd, o.trace[0], STATE_BLOCK_NOT_FOUND))
    case NoNativeBackend => n > 0 && o.trace[n - 1].role != NativeRole && Asks(rd, o.trace[n - 1], COSMOS_PRECOMPILE)
  }

  lemma RetriesAreSettled(rd: Reader, up: Upstream, req: Request, cached: bool)
    requires Obeys(up)
    ensures var o := Serve(rd, up, req, cached);
            Warranted(rd, o.trace) && Settled(rd, o)
  {
    hide CodesOf, PinnedHash;
  }

  /** The codes of a body are those the library reads from it trimmed, unless it is blank or has neither
      of the two quoted keys. */
  lemma CodesAre(rd: Reader, body: Text)
    ensures CodesOf(rd, body)
         == if rd.trim(body) != [] && (Contains(body, "\"error\"") || Contains(body, "\"Error\""))
            then rd.codes(rd.trim(body)) else {}
  {
    ErrorTokens(body);
    hide HasErrorKey, Contains;
  }

  ghost predicate PinsHash(ctx: Option<BlockContext>) {
    exists hash :: ctx == Some(BlockContext(Some(Hash(hash)), "Equals"))
  }

  lemma PinsIs(ctx: Option<BlockContext>)
    ensures PinsHash(ctx) <==> PinnedHash(ctx).Some?
  {
    if hash :| ctx == Some(BlockContext(Some(Hash(hash)), "Equals")) {
      PinnedIs(ctx, hash);
    }
    if PinnedHash(ctx).Some? {
      PinnedIs(ctx, PinnedHash(ctx).value);
    }
  }

  lemma FirstChoiceRule(up: Upstream, req: Request, cached: bool)
    requires Obeys(up)
    ensures var first := if req.archive then up.pick(ForArchive, 0)
                         else if req.batch || !PinsHash(req.ctx) || !cached then up.pick(Unforced, 0)
                         else if up.pick(ForArchive, 0).Some? then up.pick(ForArchive, 0)
                         else up.pick(Unforced, 1);
            FirstChoice(up, req, cached).0 == first
    ensures FirstChoice(up, req, cached).0.Some? ==>
              (FirstChoice(up, req, cached).1 <==> FirstChoice(up, req, cached).0 == Some(ArchiveRole))
  {
    PinsIs(req.ctx);
    hide PinnedHash, PinsHash;
  }

  /** The first choice: an archive request asks for archive only; a request with a cached hash asks for
      archive and then for any node; any other request asks for any node. The answers that no node is
      available, exactly: without an attempt, when the first choice fails; after
      a state attempt, when it missed with -39006 and there is no archive node; before a native attempt,
      when the last response asked for one with -39008 and there is no native node. The first attempt has
      the role that was chosen. */
  lemma NoBackendRule(rd: Reader, up: Upstream, req: Request, cached: bool)
    requires Obeys(up)
    ensures var first := if req.archive then up.pick(ForArchive, 0)
                         else if req.batch || !PinsHash(req.ctx) || !cached then up.pick(Unforced, 0)
                         else if up.pick(ForArchive, 0).Some? then up.pick(ForArchive, 0)
                         else up.pick(Unforced, 1);
            var o := Serve(rd, up, req, cached);
            && (o.trace == [] <==> first.None?)
            && (o.trace != [] ==> o.trace[0] == Made(up, first.value, 0))
            && (o.result == NoBackend <==>
                  || first.None?
                  || (first == Some(StateRole) && Asks(rd, o.trace[0], -39006) && up.pick(ForArchive, 2).None?))
            && (o.result == NoNativeBackend <==>
                  && o.result != NoBackend
                  && var last := o.trace[|o.trace| - 1];
                     last.role != NativeRole && Asks(rd, last, -39008) && up.pick(ForNative, 3).None?)
  {
    FirstChoiceRule(up, req, cached);
    RolesPicked(up, req, cached);
    hide CodesOf, Made, PinnedHash, PinsHash, FirstChoice, Proven;
    MadeRole(up, StateRole);
    MadeRole(up, ArchiveRole);
    MadeRole(up, NativeRole);
  }

  lemma RolesPicked(up: Upstream, req: Request, cached: bool)
    requires Obeys(up)
    ensures FirstChoice(up, req, cached).0 != Some(NativeRole)
    ensures up.pick(ForArchive, 2) in {None, Some(ArchiveRole)} && up.pick(ForNative, 3) in {None, Some(NativeRole)}
  {
  }

  /** An attempt is the upstream's response, with the proxy's own error over a 502 or 504. */
  lemma MadeRole(up: Upstream, role: Role)
    ensures forall n: nat :: Made(up, role, n).role == role && Made(up, role, n).status == up.reply(role, n).status
    ensures forall n: nat ::
              Made(up, role, n).body == var r := up.reply(role, n);
                                        if r.status in {502, 504} then up.rendered(r.status, r.body) else r.body
  {
  }

  /** Later attempts are the upstream's responses too. */
  lemma LaterAttempts(rd: Reader, up: Upstream, req: Request, cached: bool)
    requires Obeys(up)
    ensures var trace := Serve(rd, up, req, cached).trace;
            forall i :: 0 < i < |trace| ==>
              trace[i] == Made(up, trace[i].role, if trace[i].role == NativeRole then 2 else 1)
  {
    hide CodesOf, Made, PinnedHash;
    MadeRole(up, ArchiveRole);
    MadeRole(up, NativeRole);
  }

  /** The hash was pinned with "Equals" by a request that is not a batch and that was missed by a state
      node and then served by an archive node. */
  ghost predicate Earned(rd: Reader, req: Request, hash: Text, trace: seq<Attempt>) {
    && !req.batch && !req.archive && req.ctx == Some(BlockContext(Some(Hash(hash)), "Equals")) && |trace| >= 2
    && trace[0].role == StateRole && Asks(rd, trace[0], -39006)
    && trace[1].role == ArchiveRole && trace[1].status == 200
    && !Asks(rd, trace[1], -39006) && !Asks(rd, trace[1], -39007)
  }

  /** A hash is remembered exactly when the request earned it. */
  lemma RememberedIsEarned(rd: Reader, up: Upstream, req: Request, cached: bool, hash: Text)
    requires Obeys(up)
    ensures var o := Serve(rd, up, req, cached);
            o.remember == Some(hash) <==> Earned(rd, req, hash, o.trace)
  {
    hide CodesOf, Made, PinnedHash;
    PinnedIs(req.ctx, hash);
    MadeRole(up, StateRole);
    MadeRole(up, ArchiveRole);
    MadeRole(up, NativeRole);
  }
}
