/** How long a shutdown waits for running requests: `gracefulExitWait` (cmd/proxy/main.go:62-90), against
    the timeouts of the attempts a request can make (lb/lb.go:490-495). Every `int64` operation is checked
    to stay in range, which is to say that nothing overflows. */
module Shutdown {
  import opened Wrappers
  import opened JsonScan
  import opened ResponseFilter
  import opened Serving

  newtype int64 = x: int | -0x8000_0000_0000_0000 <= x < 0x8000_0000_0000_0000

  const MAX_UPSTREAM_ATTEMPTS: int64 := 3
  const SHUTDOWN_REQUEST_BUFFER: int64 := 5_000_000_000
  const MAX_EXIT_WAIT: int64 := 0x7fff_ffff_ffff_ffff
  const MILLISECOND: int64 := 1_000_000

  /** Timeouts in milliseconds. */
  datatype Config = Config(defaultRpcTimeout: int64, methodTimeouts: map<string, int64>,
                           connDialTimeout: int64, connMaxWaitTimeout: int64)

  predicate IsLargest(cfg: Config, m: int64) {
    && (m == cfg.defaultRpcTimeout || m in cfg.methodTimeouts.Values)
    && cfg.defaultRpcTimeout <= m
    && (forall name :: name in cfg.methodTimeouts ==> cfg.methodTimeouts[name] <= m)
  }

  function Positive(x: int64): int {
    if x > 0 then x as int else 0
  }

  function Min(a: int, b: int): int {
    if a < b then a else b
  }

  /** The wait for a largest timeout `m`, in unbounded arithmetic. */
  function Wait(cfg: Config, m: int64): int {
    if m <= 0 then SHUTDOWN_REQUEST_BUFFER as int
    else
      var perAttempt := m as int + Positive(cfg.connDialTimeout) + Positive(cfg.connMaxWaitTimeout);
      Min(MAX_EXIT_WAIT as int, 3 * perAttempt * 1_000_000 + SHUTDOWN_REQUEST_BUFFER as int)
  }

  method LargestTimeout(cfg: Config) returns (m: int64)
    ensures IsLargest(cfg, m)
  {
    m := cfg.defaultRpcTimeout;
    var rest := cfg.methodTimeouts.Keys;
    while rest != {}
      invariant rest <= cfg.methodTimeouts.Keys && cfg.defaultRpcTimeout <= m
      invariant m == cfg.defaultRpcTimeout || m in cfg.methodTimeouts.Values
      invariant forall name :: name in cfg.methodTimeouts.Keys - rest ==> cfg.methodTimeouts[name] <= m
      decreases |rest|
    {
      var name :| name in rest;
      rest := rest - {name};
      if cfg.methodTimeouts[name] > m {
        m := cfg.methodTimeouts[name];
      }
    }
  }

  /** The positive overheads added to `base`, or saturation when the sum would exceed the bound. */
  method AddOverheads(base: int64, overheads: seq<int64>, bound: int64) returns (saturated: bool, sum: int64)
    requires base > 0 && bound >= 0 && |overheads| == 2
    ensures saturated ==> base as int + Positive(overheads[0]) + Positive(overheads[1]) > bound as int
    ensures !saturated ==> sum as int == base as int + Positive(overheads[0]) + Positive(overheads[1])
  {
    sum := base;
    for i := 0 to |overheads|
      invariant sum > 0
      invariant sum as int == base as int + (if i > 0 then Positive(overheads[0]) else 0)
                              + (if i > 1 then Positive(overheads[1]) else 0)
    {
      if overheads[i] <= 0 {
        continue;
      }
      if overheads[i] > bound - sum {
        return true, sum;
      }
      sum := sum + overheads[i];
    }
    return false, sum;
  }

  /** `None` is a missing configuration. */
  method GracefulExitWait(config: Option<Config>) returns (r: int64)
    ensures config.None? ==> r == SHUTDOWN_REQUEST_BUFFER
    ensures config.Some? ==> exists m :: IsLargest(config.value, m)
    ensures config.Some? ==> forall m :: IsLargest(config.value, m) ==> r as int == Wait(config.value, m)
  {
    hide IsLargest;
    if config.None? {
      return SHUTDOWN_REQUEST_BUFFER;
    }
    var cfg := config.value;
    var m := LargestTimeout(cfg);
    forall other | IsLargest(cfg, other) ensures other == m {
      OneLargest(cfg, m, other);
    }
    if m <= 0 {
      return SHUTDOWN_REQUEST_BUFFER;
    }
    var maxPerAttempt := (MAX_EXIT_WAIT - SHUTDOWN_REQUEST_BUFFER) / MILLISECOND / MAX_UPSTREAM_ATTEMPTS;
    assert maxPerAttempt == 3_074_457_343_951;
    var saturated, perAttempt := AddOverheads(m, [cfg.connDialTimeout, cfg.connMaxWaitTimeout], maxPerAttempt);
    if saturated || perAttempt > maxPerAttempt {
      return MAX_EXIT_WAIT;
    }
    r := MAX_UPSTREAM_ATTEMPTS * perAttempt * MILLISECOND + SHUTDOWN_REQUEST_BUFFER;
  }

  lemma OneLargest(cfg: Config, a: int64, b: int64)
    requires IsLargest(cfg, a) && IsLargest(cfg, b)
    ensures a == b
  {
  }

  // ----- attempts -----

  /** Go's 64-bit product. */
  function Wrapped(x: int): int {
    (x + 0x8000_0000_0000_0000) % 0x1_0000_0000_0000_0000 - 0x8000_0000_0000_0000
  }

  /** `upstreamReadTimeout`, in nanoseconds. */
  function ReadTimeout(cfg: Config, name: string): int {
    var own := name in cfg.methodTimeouts && cfg.methodTimeouts[name] > 0;
    var ms := if own then cfg.methodTimeouts[name] else cfg.defaultRpcTimeout;
    Wrapped(ms as int * MILLISECOND as int)
  }

  /** A method's own positive timeout counts, and else the default; in nanoseconds, as long as that fits. */
  lemma ReadTimeoutIs(cfg: Config, name: string, ms: int64)
    requires if name in cfg.methodTimeouts && cfg.methodTimeouts[name] > 0 then ms == cfg.methodTimeouts[name]
             else ms == cfg.defaultRpcTimeout
    requires -0x8000_0000_0000_0000 <= ms as int * 1_000_000 < 0x8000_0000_0000_0000
    ensures ReadTimeout(cfg, name) == ms as int * 1_000_000
  {
  }

  /** The configured time of one attempt, in nanoseconds. */
  function AttemptTime(cfg: Config, name: string): int {
    ReadTimeout(cfg, name) + (Positive(cfg.connDialTimeout) + Positive(cfg.connMaxWaitTimeout)) * MILLISECOND as int
  }

  lemma Unsaturated(cfg: Config, m: int64)
    requires m > 0 && Wait(cfg, m) < MAX_EXIT_WAIT as int
    ensures var overhead := Positive(cfg.connDialTimeout) + Positive(cfg.connMaxWaitTimeout);
            Wait(cfg, m) == 3 * (m as int + overhead) * 1_000_000 + SHUTDOWN_REQUEST_BUFFER as int
  {
  }

  /** The time for some attempts, and the buffer. */
  function Needs(cfg: Config, name: string, attempts: nat): int {
    attempts * AttemptTime(cfg, name) + SHUTDOWN_REQUEST_BUFFER as int
  }

  /** The wait covers the timeouts of all attempts of any run for the method, with the buffer to spare. */
  ghost predicate Covers(cfg: Config, m: int64, name: string) {
    forall rd, up, req, cached :: Obeys(up) ==> Needs(cfg, name, |Serve(rd, up, req, cached).trace|) <= Wait(cfg, m)
  }

  /** A wait below the largest one covers all runs of a method exactly when the read timeout the method gets
      is at most the largest configured one, which only a wrapped product can exceed. */
  lemma WaitCoversRuns(cfg: Config, m: int64, name: string)
    requires m > 0 && Wait(cfg, m) < MAX_EXIT_WAIT as int
    ensures Covers(cfg, m, name) <==> ReadTimeout(cfg, name) <= m as int * 1_000_000
  {
    hide Serve, ReadTimeout, Wait, Obeys;
    Unsaturated(cfg, m);
    var overhead := (Positive(cfg.connDialTimeout) + Positive(cfg.connMaxWaitTimeout)) * 1_000_000;
    if ReadTimeout(cfg, name) <= m as int * 1_000_000 {
      forall rd, up, req, cached | Obeys(up)
        ensures Needs(cfg, name, |Serve(rd, up, req, cached).trace|) <= Wait(cfg, m)
      {
        AttemptsMoveForward(rd, up, req, cached);
        Scale(|Serve(rd, up, req, cached).trace|, AttemptTime(cfg, name), m as int * 1_000_000 + overhead);
      }
    }
    var rd, up, req := ThreeAttempts();
    if Covers(cfg, m, name) {
      assert Needs(cfg, name, |Serve(rd, up, req, false).trace|) <= Wait(cfg, m);
    }
  }

  /** Every node answers with both codes, so the request goes from state to archive to native. */
  lemma ThreeAttempts() returns (rd: Reader, up: Upstream, req: Request)
    ensures Obeys(up) && |Serve(rd, up, req, false).trace| == 3
  {
    var body := "\"error\"";
    rd := Reader(text => text, text => {STATE_BLOCK_NOT_FOUND, COSMOS_PRECOMPILE});
    up := Upstream((ask: Ask, n: nat) => Some(match ask
                                              case Unforced => StateRole
                                              case ForArchive => ArchiveRole
                                              case ForNative => NativeRole),
                   (role: Role, n: nat) => Response(200, body),
                   (status: int, text: Text) => text);
    req := Request("", false, false, None);
    assert TokenAt(body, 0);
    assert CodesOf(rd, body) == {STATE_BLOCK_NOT_FOUND, COSMOS_PRECOMPILE};
    assert Made(up, StateRole, 0).body == body && Made(up, ArchiveRole, 1).body == body;
  }

  /** The default timeout is a duration: in nanoseconds it fits 64 bits. It may be negative. */
  predicate IsDuration(cfg: Config) {
    cfg.defaultRpcTimeout as int * 1_000_000 >= -0x8000_0000_0000_0000
  }

  /** In particular it covers all runs of every method whenever the default timeout is a duration. */
  lemma DurationsAreCovered(cfg: Config, m: int64, name: string)
    requires IsDuration(cfg) && IsLargest(cfg, m) && m > 0 && Wait(cfg, m) < MAX_EXIT_WAIT as int
    ensures Covers(cfg, m, name)
  {
    hide Covers;
    WaitCoversRuns(cfg, m, name);
    Unsaturated(cfg, m);
  }

  /** The first default below that bound: its product wraps around to a timeout the wait does not cover. A
      default at which the product has wrapped further is covered again. */
  lemma WrappedDefaults()
    ensures var cfg := Config(-9_223_372_036_855, map["m" := 1], 0, 0);
            && IsLargest(cfg, 1) && !IsDuration(cfg) && IsDuration(cfg.(defaultRpcTimeout := -9_223_372_036_854))
            && !Covers(cfg, 1, "other")
    ensures var cfg := Config(-18_446_744_073_710, map["m" := 1], 0, 0);
            IsLargest(cfg, 1) && !IsDuration(cfg) && Covers(cfg, 1, "other")
  {
    hide Covers;
    var timeouts: map<string, int64> := map["m" := 1];
    assert "m" in timeouts && timeouts["m"] in timeouts.Values;
    WaitCoversRuns(Config(-9_223_372_036_855, timeouts, 0, 0), 1, "other");
    WaitCoversRuns(Config(-18_446_744_073_710, timeouts, 0, 0), 1, "other");
  }

  lemma Scale(n: nat, x: int, y: int)
    requires n <= 3 && x <= y && y >= 0
    ensures n * x <= 3 * y
  {
    if n == 0 {
    } else if n == 1 {
    } else if n == 2 {
    } else {
    }
  }
}
