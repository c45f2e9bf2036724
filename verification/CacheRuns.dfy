/** The archive-hash cache over every interleaving of requests and evictions: where cached hashes come
    from, and when the shortcut changes an answer (lb/lb.go:387-440, lb/lb.go:551-593). */
module CacheRuns {
  import opened Wrappers
  import opened JsonScan
  import opened BlockContexts
  import opened ArchiveHashCaches
  import opened Serving

  /** One request, what happens around it, and what the cache answered when it looked. */
  datatype Run = Run(req: Request, up: Upstream, cached: bool)

  /** `flying` holds the requests between their lookup and their end, `learned` those that have put their
      hash into the cache. */
  datatype World = World(chains: Chains, flying: seq<Run>, learned: seq<Run>)

  datatype Step =
    | Look(req: Request, up: Upstream)
    | Learn(i: nat)
    | Leave(i: nat)
    | Evict(chain: string, hash: Text)

  predicate Cached(chains: Chains, req: Request) {
    PinnedHash(req.ctx).Some? && Holds(chains, req.chain, PinnedHash(req.ctx).value)
  }

  ghost function Learned(rd: Reader, run: Run): Option<Text> {
    Serve(rd, run.up, run.req, run.cached).remember
  }

  ghost predicate Enabled(rd: Reader, w: World, step: Step) {
    match step
    case Look(_, up) => Obeys(up)
    case Learn(i) => i < |w.flying| && Learned(rd, w.flying[i]).Some?
    case Leave(i) => i < |w.flying|
    case Evict(_, _) => true
  }

  ghost function Next(rd: Reader, w: World, step: Step): World
    requires Enabled(rd, w, step)
  {
    match step
    case Look(req, up) => w.(flying := w.flying + [Run(req, up, Cached(w.chains, req))])
    case Learn(i) =>
      w.(chains := Added(w.chains, w.flying[i].req.chain, Learned(rd, w.flying[i]).value),
         learned := w.learned + [w.flying[i]])
    case Leave(i) => w.(flying := w.flying[..i] + w.flying[i + 1..])
    case Evict(chain, hash) => w.(chains := Evicted(w.chains, chain, hash))
  }

  ghost predicate Reaches(rd: Reader, w: World, steps: seq<Step>, v: World)
    decreases |steps|
  {
    if steps == [] then v == w
    else Enabled(rd, w, steps[0]) && Reaches(rd, Next(rd, w, steps[0]), steps[1..], v)
  }

  const EMPTY := World(map[], [], [])

  /** The run is one that earned the hash for the chain. */
  ghost predicate Teaches(rd: Reader, run: Run, chain: string, hash: Text) {
    && run.req.chain == chain
    && Earned(rd, run.req, hash, Serve(rd, run.up, run.req, run.cached).trace)
  }

  ghost predicate Taught(rd: Reader, runs: seq<Run>, chain: string, hash: Text) {
    exists i :: 0 <= i < |runs| && Teaches(rd, runs[i], chain, hash)
  }

  ghost predicate Sourced(rd: Reader, w: World) {
    && (forall i :: 0 <= i < |w.flying| ==> Obeys(w.flying[i].up))
    && (forall chain, hash :: Holds(w.chains, chain, hash) ==> Taught(rd, w.learned, chain, hash))
  }

  lemma TaughtMore(rd: Reader, runs: seq<Run>, run: Run, chain: string, hash: Text)
    requires Taught(rd, runs, chain, hash) || Teaches(rd, run, chain, hash)
    ensures Taught(rd, runs + [run], chain, hash)
  {
    hide Teaches;
    if i :| 0 <= i < |runs| && Teaches(rd, runs[i], chain, hash) {
      assert (runs + [run])[i] == runs[i];
    } else {
      assert (runs + [run])[|runs|] == run;
    }
  }

  lemma SourcedStep(rd: Reader, w: World, step: Step)
    requires Sourced(rd, w) && Enabled(rd, w, step)
    ensures Sourced(rd, Next(rd, w, step))
  {
    hide Taught, Obeys, Serve;
    var v := Next(rd, w, step);
    match step
    case Learn(i) =>
      var run := w.flying[i];
      RememberedIsEarned(rd, run.up, run.req, run.cached, Learned(rd, run).value);
      forall chain, hash | Holds(v.chains, chain, hash) ensures Taught(rd, v.learned, chain, hash) {
        assert Holds(w.chains, chain, hash) || Teaches(rd, run, chain, hash);
        TaughtMore(rd, w.learned, run, chain, hash);
      }
    case _ =>
  }

  lemma {:induction false} SourcedReached(rd: Reader, w: World, steps: seq<Step>, v: World)
    requires Sourced(rd, w) && Reaches(rd, w, steps, v)
    ensures Sourced(rd, v)
    decreases |steps|
  {
    hide Sourced, Enabled, Next;
    if steps != [] {
      SourcedStep(rd, w, steps[0]);
      SourcedReached(rd, Next(rd, w, steps[0]), steps[1..], v);
    }
  }

  lemma EmptyIsSourced(rd: Reader)
    ensures Sourced(rd, EMPTY)
  {
  }

  /** In every mix of requests and evictions, every cached hash was pinned with "Equals" on that chain by
      a request that is no batch, missed with -39006 on a state node and was then served by an archive
      node with status 200 and neither -39006 nor -39007. */
  lemma CachedHashesAreEarned(rd: Reader, steps: seq<Step>, w: World, chain: string, hash: Text)
    requires Reaches(rd, EMPTY, steps, w) && Holds(w.chains, chain, hash)
    ensures exists i :: 0 <= i < |w.learned| && Teaches(rd, w.learned[i], chain, hash)
  {
    EmptyIsSourced(rd);
    SourcedReached(rd, EMPTY, steps, w);
    hide Teaches, Reaches;
    assert Taught(rd, w.learned, chain, hash);
  }

  /** A run that earned its hash can teach it, and then the cache holds it. */
  lemma EarnedIsHeld(rd: Reader, w: World, i: nat, hash: Text)
    requires i < |w.flying| && Obeys(w.flying[i].up) && Teaches(rd, w.flying[i], w.flying[i].req.chain, hash)
    ensures Enabled(rd, w, Learn(i)) && Holds(Next(rd, w, Learn(i)).chains, w.flying[i].req.chain, hash)
  {
    hide Serve;
    var run := w.flying[i];
    RememberedIsEarned(rd, run.up, run.req, run.cached, hash);
    HeldAfter(w.chains, run.req.chain, hash, run.req.chain, hash);
  }

  // ----- the answer with and without the cache -----

  /** The answers of a role, and whether a node can be chosen, do not change during the request. */
  ghost predicate Steady(up: Upstream) {
    && (forall ask, n: nat, m: nat :: up.pick(ask, n) == up.pick(ask, m))
    && (forall role, n: nat, m: nat :: up.reply(role, n) == up.reply(role, m))
  }

  /** State nodes miss a pinned request exactly when `missing` says so of its chain and hash. */
  ghost predicate MissesBy(rd: Reader, missing: (string, Text) -> bool, req: Request, up: Upstream) {
    PinnedHash(req.ctx).Some? ==>
      var gone := missing(req.chain, PinnedHash(req.ctx).value);
      forall n: nat :: Asks(rd, Made(up, StateRole, n), STATE_BLOCK_NOT_FOUND) <==> gone
  }

  /** Every cached hash is one that state nodes miss. */
  ghost predicate OnlyMissing(missing: (string, Text) -> bool, chains: Chains) {
    forall chain, hash :: Holds(chains, chain, hash) ==> missing(chain, hash)
  }

  ghost predicate AllMissBy(rd: Reader, missing: (string, Text) -> bool, runs: seq<Run>) {
    forall i :: 0 <= i < |runs| ==> MissesBy(rd, missing, runs[i].req, runs[i].up)
  }

  lemma FirstAttempt(rd: Reader, up: Upstream, req: Request, cached: bool)
    ensures var o := Serve(rd, up, req, cached);
            o.trace != [] ==> exists role :: o.trace[0] == Made(up, role, 0)
  {
    hide CodesOf, Made, Retries, Proven;
  }

  lemma TaughtIsMissing(rd: Reader, missing: (string, Text) -> bool, run: Run, chain: string, hash: Text)
    requires MissesBy(rd, missing, run.req, run.up) && Teaches(rd, run, chain, hash)
    ensures missing(chain, hash)
  {
    hide Serve, CodesOf;
    FirstAttempt(rd, run.up, run.req, run.cached);
    var trace := Serve(rd, run.up, run.req, run.cached).trace;
    assert trace[0] == Made(run.up, StateRole, 0);
    assert Asks(rd, Made(run.up, StateRole, 0), STATE_BLOCK_NOT_FOUND);
  }

  lemma SourcedIsMissing(rd: Reader, missing: (string, Text) -> bool, w: World)
    requires Sourced(rd, w) && AllMissBy(rd, missing, w.learned)
    ensures OnlyMissing(missing, w.chains)
  {
    hide MissesBy, Teaches;
    forall chain, hash | Holds(w.chains, chain, hash) ensures missing(chain, hash) {
      assert Taught(rd, w.learned, chain, hash);
      var i :| 0 <= i < |w.learned| && Teaches(rd, w.learned[i], chain, hash);
      TaughtIsMissing(rd, missing, w.learned[i], chain, hash);
    }
  }

  /** The one case in which the shortcut helps: no node can be chosen on the normal path, but an archive
      node can. */
  predicate OnlyArchiveUsable(up: Upstream) {
    up.pick(Unforced, 0).None? && up.pick(ForArchive, 0).Some?
  }

  lemma ShortcutAnswer(rd: Reader, up: Upstream, req: Request)
    requires Obeys(up) && Steady(up) && Shortcut(req, true)
    requires Asks(rd, Made(up, StateRole, 0), STATE_BLOCK_NOT_FOUND)
    ensures Serve(rd, up, req, true).result == Serve(rd, up, req, false).result <==> !OnlyArchiveUsable(up)
  {
    hide CodesOf, PinnedHash, Proven, Made;
    assert up.pick(ForArchive, 2) == up.pick(ForArchive, 0) && up.pick(Unforced, 1) == up.pick(Unforced, 0);
    SameAttempt(up, ArchiveRole, 0, 1);
  }

  lemma SameAttempt(up: Upstream, role: Role, n: nat, m: nat)
    requires Steady(up)
    ensures Made(up, role, n) == Made(up, role, m)
  {
    assert up.reply(role, n) == up.reply(role, m);
  }

  /** In every reachable world, if role answers are steady and state misses depend only on chain and hash,
      the answer a request gets with the cache equals the one it gets without it, except exactly when the
      cache sends it to archive and only archive nodes are usable. */
  lemma CacheKeepsAnswers(rd: Reader, missing: (string, Text) -> bool, steps: seq<Step>, w: World, req: Request,
                          up: Upstream)
    requires Reaches(rd, EMPTY, steps, w) && AllMissBy(rd, missing, w.learned)
    requires Obeys(up) && Steady(up) && MissesBy(rd, missing, req, up)
    ensures Serve(rd, up, req, Cached(w.chains, req)).result == Serve(rd, up, req, false).result
            <==> !(Shortcut(req, Cached(w.chains, req)) && OnlyArchiveUsable(up))
  {
    hide Serve, Sourced, Reaches, Steady, Obeys, AllMissBy;
    EmptyIsSourced(rd);
    SourcedReached(rd, EMPTY, steps, w);
    SourcedIsMissing(rd, missing, w);
    if Shortcut(req, Cached(w.chains, req)) {
      ShortcutAnswer(rd, up, req);
    } else {
      NoShortcut(rd, up, req, Cached(w.chains, req));
    }
  }

  lemma NoShortcut(rd: Reader, up: Upstream, req: Request, cached: bool)
    requires !Shortcut(req, cached)
    ensures Serve(rd, up, req, cached) == Serve(rd, up, req, false)
  {
  }
}
