/** The usage collector (usage/collector.go) as a state machine over every interleaving of `Record` calls,
    the flush loop and `Close`. Durations are in nanoseconds. */
module UsageCollector {
  const UNKNOWN_CLIENT := "unknown"
  const NANOS_PER_MILLI := 1_000_000

  type Totals = map<string, nat>

  function Get(m: Totals, client: string): nat {
    if client in m then m[client] else 0
  }

  function Plus(m: Totals, client: string, d: nat): Totals {
    m[client := Get(m, client) + d]
  }

  function Sum(m: Totals, batch: Totals): Totals {
    map client | client in m.Keys + batch.Keys :: Get(m, client) + Get(batch, client)
  }

  /** Whole milliseconds, and never less than one. */
  function Usage(d: nat): (ms: nat)
    ensures if d < 1_000_000 then ms == 1 else 0 <= d - ms * 1_000_000 < 1_000_000
  {
    if d / NANOS_PER_MILLI < 1 then 1 else d / NANOS_PER_MILLI
  }

  function Reports(batch: Totals): Totals {
    map client | client in batch :: Usage(batch[client])
  }

  function Ones(batch: Totals): Totals {
    map client | client in batch :: 1
  }

  datatype Loop = Idle | LoopSnapping | LoopWriting(batch: Totals) | Exited

  /** `Close`, which runs once. `Expired` is the case where its context ends while the loop still runs. */
  datatype Closer = Open | Marked | Waiting | CloseSnapping | CloseWriting(final: Totals) | Finished | Expired

  /** Per client: the durations of written batches, the milliseconds their records report, and the number
      of these records. */
  datatype Tally = Tally(spent: Totals, reported: Totals, records: Totals)

  /** The durations accepted, and what became of written batches. */
  datatype Books = Books(accepted: Totals, sent: Tally, dropped: Tally)

  /** `posters` counts the `Record` calls between leaving the critical section and posting the token. */
  datatype State = State(active: Totals, closed: bool, token: bool, posters: nat, loop: Loop, stopped: bool,
                         closer: Closer, gauge: int, books: Books)

  const START := State(map[], false, false, 0, Idle, false, Open, 0,
                       Books(map[], Tally(map[], map[], map[]), Tally(map[], map[], map[])))

  datatype LoopMove = Tick | TakeToken | Snapshot | Write(ok: bool) | Exit

  datatype CloseMove = Mark | Stop | Join | Expire | FinalSnapshot | FinalWrite(ok: bool)

  datatype Step = Record(client: string, duration: int) | Post | LoopStep(l: LoopMove) | CloseStep(c: CloseMove)

  predicate LoopEnabled(s: State, move: LoopMove) {
    match move
    case Tick => s.loop == Idle
    case TakeToken => s.loop == Idle && s.token
    case Snapshot => s.loop == LoopSnapping
    case Write(_) => s.loop.LoopWriting?
    case Exit => s.loop == Idle && s.stopped
  }

  predicate CloseEnabled(s: State, move: CloseMove) {
    match move
    case Mark => s.closer == Open
    case Stop => s.closer == Marked
    case Join => s.closer == Waiting && s.loop == Exited
    case Expire => s.closer == Waiting
    case FinalSnapshot => s.closer == CloseSnapping
    case FinalWrite(_) => s.closer.CloseWriting?
  }

  predicate Enabled(s: State, step: Step) {
    match step
    case Record(_, _) => true
    case Post => s.posters > 0
    case LoopStep(move) => LoopEnabled(s, move)
    case CloseStep(move) => CloseEnabled(s, move)
  }

  /** The critical section of `Record`. */
  function Recorded(threshold: nat, s: State, client: string, duration: int): State {
    if duration < 0 || s.closed then s
    else
      var isNew := client !in s.active;
      var active := Plus(s.active, client, duration);
      s.(active := active,
         books := s.books.(accepted := Plus(s.books.accepted, client, duration)),
         gauge := s.gauge + if isNew then 1 else 0,
         posters := s.posters + if isNew && |active| >= threshold then 1 else 0)
  }

  function Tallied(t: Tally, batch: Totals): Tally {
    Tally(Sum(t.spent, batch), Sum(t.reported, Reports(batch)), Sum(t.records, Ones(batch)))
  }

  /** The end of a write: the batch was delivered or dropped. */
  function Written(books: Books, batch: Totals, ok: bool): Books {
    if ok then books.(sent := Tallied(books.sent, batch)) else books.(dropped := Tallied(books.dropped, batch))
  }

  function LoopNext(s: State, move: LoopMove): State
    requires LoopEnabled(s, move)
  {
    match move
    case Tick => s.(loop := LoopSnapping)
    case TakeToken => s.(loop := LoopSnapping, token := false)
    case Snapshot => if |s.active| == 0 then s.(loop := Idle) else s.(loop := LoopWriting(s.active), active := map[])
    case Write(ok) => s.(loop := Idle, gauge := s.gauge - |s.loop.batch|, books := Written(s.books, s.loop.batch, ok))
    case Exit => s.(loop := Exited)
  }

  function CloseNext(s: State, move: CloseMove): State
    requires CloseEnabled(s, move)
  {
    match move
    case Mark => s.(closed := true, closer := Marked)
    case Stop => s.(stopped := true, closer := Waiting)
    case Join => s.(closer := CloseSnapping)
    case Expire => s.(closer := Expired)
    case FinalSnapshot =>
      if |s.active| == 0 then s.(closed := true, closer := Finished)
      else s.(closed := true, closer := CloseWriting(s.active), active := map[])
    case FinalWrite(ok) =>
      s.(closer := Finished, gauge := s.gauge - |s.closer.final|, books := Written(s.books, s.closer.final, ok))
  }

  function Next(threshold: nat, s: State, step: Step): State
    requires Enabled(s, step)
  {
    match step
    case Record(client, duration) => Recorded(threshold, s, client, duration)
    case Post => s.(posters := s.posters - 1, token := true)
    case LoopStep(move) => LoopNext(s, move)
    case CloseStep(move) => CloseNext(s, move)
  }

  predicate Reaches(threshold: nat, s: State, steps: seq<Step>, t: State)
    decreases |steps|
  {
    if steps == [] then t == s
    else Enabled(s, steps[0]) && Reaches(threshold, Next(threshold, s, steps[0]), steps[1..], t)
  }

  // ----- invariants -----

  function LoopBatch(s: State): Totals {
    if s.loop.LoopWriting? then s.loop.batch else map[]
  }

  function CloseBatch(s: State): Totals {
    if s.closer.CloseWriting? then s.closer.final else map[]
  }

  /** What was accepted from a client is in memory, in a write, sent or dropped. */
  predicate ConservedFor(s: State, client: string) {
    Get(s.books.accepted, client) == Get(s.active, client) + Get(LoopBatch(s), client) + Get(CloseBatch(s), client)
                                     + Get(s.books.sent.spent, client) + Get(s.books.dropped.spent, client)
  }

  predicate GaugeExact(s: State) {
    s.gauge == |s.active| + |LoopBatch(s)| + |CloseBatch(s)|
  }

  /** Reported milliseconds are off by at most one for every emitted record. */
  predicate ReportedFor(t: Tally, client: string) {
    var slack := NANOS_PER_MILLI * Get(t.records, client);
    -slack <= Get(t.spent, client) - NANOS_PER_MILLI * Get(t.reported, client) <= slack
  }

  /** Of delivered usage, and of dropped usage. */
  predicate AllReportedFor(b: Books, client: string) {
    ReportedFor(b.sent, client) && ReportedFor(b.dropped, client)
  }

  /** No wake-up is lost. */
  predicate Woken(threshold: nat, s: State) {
    s.loop != Exited && |s.active| >= threshold ==> s.token || s.posters > 0 || s.loop == LoopSnapping
  }

  predicate Ordered(s: State) {
    && (s.closer != Open ==> s.closed)
    && (s.stopped ==> s.closed)
    && (s.loop == Exited ==> s.stopped)
    && (s.closer in {CloseSnapping, Finished} || s.closer.CloseWriting? ==> s.loop == Exited)
    && (s.closer == Finished || s.closer.CloseWriting? ==> s.active == map[])
  }

  ghost predicate Inv(threshold: nat, s: State) {
    && (forall client :: ConservedFor(s, client))
    && (forall client :: AllReportedFor(s.books, client))
    && GaugeExact(s) && Woken(threshold, s) && Ordered(s)
  }

  lemma GetSum(m: Totals, batch: Totals, client: string)
    ensures Get(Sum(m, batch), client) == Get(m, client) + Get(batch, client)
  {
  }

  lemma NothingIn(client: string)
    ensures Get(map[], client) == 0
  {
  }

  lemma GetPlus(m: Totals, client: string, d: nat, other: string)
    ensures Get(Plus(m, client, d), other) == Get(m, other) + if other == client then d else 0
  {
  }

  lemma NewKey(m: Totals, client: string, d: nat)
    ensures |Plus(m, client, d)| == |m| + if client in m then 0 else 1
  {
    assert Plus(m, client, d).Keys == m.Keys + {client};
  }

  lemma TalliedFor(t: Tally, batch: Totals, client: string)
    ensures Get(Tallied(t, batch).spent, client) == Get(t.spent, client) + Get(batch, client)
    ensures ReportedFor(t, client) ==> ReportedFor(Tallied(t, batch), client)
  {
    hide Sum, Usage, Get;
    GetSum(t.spent, batch, client);
    GetSum(t.reported, Reports(batch), client);
    GetSum(t.records, Ones(batch), client);
    OneRecord(batch, client);
  }

  lemma WrittenFor(books: Books, batch: Totals, ok: bool, client: string)
    ensures var after := Written(books, batch, ok);
            && after.accepted == books.accepted
            && Get(after.sent.spent, client) + Get(after.dropped.spent, client)
               == Get(books.sent.spent, client) + Get(books.dropped.spent, client) + Get(batch, client)
    ensures AllReportedFor(books, client) ==> AllReportedFor(Written(books, batch, ok), client)
  {
    hide Tallied, ReportedFor, Get;
    TalliedFor(books.sent, batch, client);
    TalliedFor(books.dropped, batch, client);
  }

  lemma OneRecord(batch: Totals, client: string)
    ensures var ones := Get(Ones(batch), client);
            var slack := NANOS_PER_MILLI * ones;
            -slack <= Get(batch, client) - NANOS_PER_MILLI * Get(Reports(batch), client) <= slack
  {
    hide Usage;
  }

  // Each kind of step keeps the invariant.

  lemma RecordKeeps(threshold: nat, s: State, client: string, d: int)
    requires Inv(threshold, s) && threshold > 0
    ensures Inv(threshold, Recorded(threshold, s, client, d))
  {
    hide Get, Plus;
    var t := Recorded(threshold, s, client, d);
    if d >= 0 {
      NewKey(s.active, client, d);
      forall other ensures ConservedFor(t, other) && AllReportedFor(t.books, other) {
        assert ConservedFor(s, other) && AllReportedFor(s.books, other);
        GetPlus(s.active, client, d, other);
        GetPlus(s.books.accepted, client, d, other);
      }
    }
  }

  lemma LoopKeeps(threshold: nat, s: State, move: LoopMove)
    requires Inv(threshold, s) && LoopEnabled(s, move) && threshold > 0
    ensures Inv(threshold, LoopNext(s, move))
  {
    hide Get, Written;
    var t := LoopNext(s, move);
    forall client ensures ConservedFor(t, client) && AllReportedFor(t.books, client) {
      assert ConservedFor(s, client) && AllReportedFor(s.books, client);
      NothingIn(client);
      if move.Write? {
        WrittenFor(s.books, s.loop.batch, move.ok, client);
      }
    }
  }

  lemma CloseKeeps(threshold: nat, s: State, move: CloseMove)
    requires Inv(threshold, s) && CloseEnabled(s, move) && threshold > 0
    ensures Inv(threshold, CloseNext(s, move))
  {
    hide Get, Written;
    var t := CloseNext(s, move);
    forall client ensures ConservedFor(t, client) && AllReportedFor(t.books, client) {
      assert ConservedFor(s, client) && AllReportedFor(s.books, client);
      NothingIn(client);
      if move.FinalWrite? {
        WrittenFor(s.books, s.closer.final, move.ok, client);
      }
    }
  }

  lemma PostKeeps(threshold: nat, s: State)
    requires Inv(threshold, s) && s.posters > 0
    ensures Inv(threshold, s.(posters := s.posters - 1, token := true))
  {
    hide Get;
    var t := s.(posters := s.posters - 1, token := true);
    forall client ensures ConservedFor(t, client) && AllReportedFor(t.books, client) {
      assert ConservedFor(s, client) && AllReportedFor(s.books, client);
    }
  }

  lemma StepKeeps(threshold: nat, s: State, step: Step)
    requires Inv(threshold, s) && threshold > 0 && Enabled(s, step)
    ensures Inv(threshold, Next(threshold, s, step))
  {
    hide Inv, Recorded, LoopNext, CloseNext, LoopEnabled, CloseEnabled;
    match step
    case Record(client, d) => RecordKeeps(threshold, s, client, d);
    case Post => PostKeeps(threshold, s);
    case LoopStep(move) => LoopKeeps(threshold, s, move);
    case CloseStep(move) => CloseKeeps(threshold, s, move);
  }

  lemma {:induction false} InvReached(threshold: nat, s: State, steps: seq<Step>, t: State)
    requires Inv(threshold, s) && threshold > 0 && Reaches(threshold, s, steps, t)
    ensures Inv(threshold, t)
    decreases |steps|
  {
    hide Inv, Next, Enabled;
    if steps != [] {
      StepKeeps(threshold, s, steps[0]);
      InvReached(threshold, Next(threshold, s, steps[0]), steps[1..], t);
    }
  }

  lemma StartInv(threshold: nat)
    requires threshold > 0
    ensures Inv(threshold, START)
  {
    forall client ensures ConservedFor(START, client) && AllReportedFor(START.books, client) {
    }
  }

  /** In every run: durations are conserved per client, the gauge counts the keys in memory, reports are
      off by at most a millisecond a record, for delivered and for dropped usage, and no wake-up is lost. */
  lemma AlwaysInv(threshold: nat, steps: seq<Step>, t: State)
    requires threshold > 0 && Reaches(threshold, START, steps, t)
    ensures forall client :: ConservedFor(t, client)
    ensures forall client :: ReportedFor(t.books.sent, client) && ReportedFor(t.books.dropped, client)
    ensures GaugeExact(t) && Woken(threshold, t)
  {
    StartInv(threshold);
    InvReached(threshold, START, steps, t);
    hide ConservedFor, ReportedFor, Reaches;
    forall client ensures ReportedFor(t.books.sent, client) && ReportedFor(t.books.dropped, client) {
      assert AllReportedFor(t.books, client);
    }
  }

  lemma FinishedStays(threshold: nat, s: State, step: Step)
    requires s.closer == Finished && Enabled(s, step)
    ensures Next(threshold, s, step).closer == Finished
  {
    hide Written, Plus;
  }

  /** After a `Close` whose context did not expire nothing is left in memory, whatever is called later:
      everything accepted was sent or dropped, and the gauge is back to zero. */
  lemma {:induction false} CloseLeavesNothing(threshold: nat, steps: seq<Step>, s: State, later: seq<Step>, t: State)
    requires threshold > 0 && Reaches(threshold, START, steps, s) && s.closer == Finished
    requires Reaches(threshold, s, later, t)
    ensures t.active == map[] && t.loop == Exited && t.closer == Finished && t.gauge == 0
    ensures forall client ::
              RecordedIn(steps, client) == Get(t.books.sent.spent, client) + Get(t.books.dropped.spent, client)
  {
    hide Reaches, Get;
    StartInv(threshold);
    InvReached(threshold, START, steps, s);
    StaysFinished(threshold, s, later, t);
    InvReached(threshold, s, later, t);
    forall client
      ensures RecordedIn(steps, client) == Get(t.books.sent.spent, client) + Get(t.books.dropped.spent, client)
    {
      AcceptedReached(threshold, START, steps, s, client);
      AcceptedReached(threshold, s, later, t, client);
      assert ConservedFor(t, client);
      NothingIn(client);
    }
  }

  lemma {:induction false} StaysFinished(threshold: nat, s: State, steps: seq<Step>, t: State)
    requires s.closer == Finished && Reaches(threshold, s, steps, t)
    ensures t.closer == Finished
    decreases |steps|
  {
    hide Next, Enabled;
    if steps != [] {
      FinishedStays(threshold, s, steps[0]);
      StaysFinished(threshold, Next(threshold, s, steps[0]), steps[1..], t);
    }
  }

  // ----- what was recorded, and where it went, from the steps alone -----

  /** The durations recorded for a client before the collector was closed. */
  function RecordedIn(steps: seq<Step>, client: string): nat {
    if steps == [] || steps[0] == CloseStep(Mark) then 0
    else
      (match steps[0] case Record(c, d) => if c == client && d >= 0 then d else 0 case _ => 0)
      + RecordedIn(steps[1..], client)
  }

  lemma AcceptedStep(threshold: nat, s: State, step: Step, client: string)
    requires Ordered(s) && Enabled(s, step)
    ensures var t := Next(threshold, s, step);
            && (t.closed <==> s.closed || step == CloseStep(Mark))
            && Get(t.books.accepted, client)
               == Get(s.books.accepted, client)
                  + if step.Record? && step.client == client && step.duration >= 0 && !s.closed then step.duration
                    else 0
  {
    hide Get, Plus, Sum, Tallied;
    match step
    case Record(c, d) => if d >= 0 { GetPlus(s.books.accepted, c, d, client); }
    case Post =>
    case LoopStep(_) =>
    case CloseStep(_) =>
  }

  lemma {:induction false} AcceptedReached(threshold: nat, s: State, steps: seq<Step>, t: State, client: string)
    requires threshold > 0 && Inv(threshold, s) && Reaches(threshold, s, steps, t)
    ensures Get(t.books.accepted, client)
         == Get(s.books.accepted, client) + if s.closed then 0 else RecordedIn(steps, client)
    decreases |steps|
  {
    if steps != [] {
      AcceptedStep(threshold, s, steps[0], client);
      hide Inv, Next, Get, Enabled;
      StepKeeps(threshold, s, steps[0]);
      AcceptedReached(threshold, Next(threshold, s, steps[0]), steps[1..], t, client);
    }
  }

  /** In every run, what was recorded for a client before the collector was closed, and nothing else, is in
      memory, in a write, sent or dropped. */
  lemma RecordedIsConserved(threshold: nat, steps: seq<Step>, t: State, client: string)
    requires threshold > 0 && Reaches(threshold, START, steps, t)
    ensures RecordedIn(steps, client)
         == Get(t.active, client) + Get(LoopBatch(t), client) + Get(CloseBatch(t), client)
            + Get(t.books.sent.spent, client) + Get(t.books.dropped.spent, client)
  {
    StartInv(threshold);
    AlwaysInv(threshold, steps, t);
    AcceptedReached(threshold, START, steps, t, client);
    assert ConservedFor(t, client);
    NothingIn(client);
    hide Get, Reaches, Inv;
  }

  /** The durations of a client in the batches whose writes ended with `ok`. */
  function WrittenIn(threshold: nat, s: State, steps: seq<Step>, ok: bool, client: string): nat
    decreases |steps|
  {
    if steps == [] || !Enabled(s, steps[0]) then 0
    else
      (if steps[0] == LoopStep(Write(ok)) then Get(LoopBatch(s), client)
       else if steps[0] == CloseStep(FinalWrite(ok)) then Get(CloseBatch(s), client)
       else 0)
      + WrittenIn(threshold, Next(threshold, s, steps[0]), steps[1..], ok, client)
  }

  /** `b` after a write of `batch` that ended with `ok`. */
  lemma SpentWrite(b: Books, batch: Totals, ok: bool, client: string)
    ensures var a := Written(b, batch, ok);
            && Get(a.sent.spent, client) == Get(b.sent.spent, client) + (if ok then Get(batch, client) else 0)
            && Get(a.dropped.spent, client) == Get(b.dropped.spent, client) + (if ok then 0 else Get(batch, client))
  {
    hide Get, Sum, Reports, Ones;
    GetSum(b.sent.spent, batch, client);
    GetSum(b.dropped.spent, batch, client);
  }

  /** The sent and dropped durations of a client. */
  function Spent(b: Books, ok: bool, client: string): nat {
    Get(if ok then b.sent.spent else b.dropped.spent, client)
  }

  lemma LoopSpent(s: State, move: LoopMove, ok: bool, client: string)
    requires LoopEnabled(s, move)
    ensures Spent(LoopNext(s, move).books, ok, client)
         == Spent(s.books, ok, client) + if move == Write(ok) then Get(LoopBatch(s), client) else 0
  {
    hide Get, Written;
    if move.Write? {
      SpentWrite(s.books, s.loop.batch, move.ok, client);
    }
  }

  lemma CloseSpent(s: State, move: CloseMove, ok: bool, client: string)
    requires CloseEnabled(s, move)
    ensures Spent(CloseNext(s, move).books, ok, client)
         == Spent(s.books, ok, client) + if move == FinalWrite(ok) then Get(CloseBatch(s), client) else 0
  {
    hide Get, Written;
    if move.FinalWrite? {
      SpentWrite(s.books, s.closer.final, move.ok, client);
    }
  }

  lemma SpentStep(threshold: nat, s: State, step: Step, ok: bool, client: string)
    requires Enabled(s, step)
    ensures Spent(Next(threshold, s, step).books, ok, client)
         == Spent(s.books, ok, client)
            + if step == LoopStep(Write(ok)) then Get(LoopBatch(s), client)
              else if step == CloseStep(FinalWrite(ok)) then Get(CloseBatch(s), client) else 0
  {
    hide Get, Plus, LoopNext, CloseNext, LoopEnabled, CloseEnabled;
    match step
    case Record(_, _) =>
    case Post =>
    case LoopStep(move) => LoopSpent(s, move, ok, client);
    case CloseStep(move) => CloseSpent(s, move, ok, client);
  }

  lemma {:induction false} SpentReached(threshold: nat, s: State, steps: seq<Step>, t: State, ok: bool, client: string)
    requires Reaches(threshold, s, steps, t)
    ensures Spent(t.books, ok, client) == Spent(s.books, ok, client) + WrittenIn(threshold, s, steps, ok, client)
    decreases |steps|
  {
    hide Get, Next, Enabled, LoopBatch, CloseBatch, Spent;
    if steps != [] {
      SpentStep(threshold, s, steps[0], ok, client);
      SpentReached(threshold, Next(threshold, s, steps[0]), steps[1..], t, ok, client);
    }
  }

  /** In every run, what counts as sent is what was in the batches whose writes succeeded, and what counts
      as dropped what was in those whose writes failed. */
  lemma WrittenIsBooked(threshold: nat, steps: seq<Step>, t: State, client: string)
    requires Reaches(threshold, START, steps, t)
    ensures Get(t.books.sent.spent, client) == WrittenIn(threshold, START, steps, true, client)
    ensures Get(t.books.dropped.spent, client) == WrittenIn(threshold, START, steps, false, client)
  {
    hide WrittenIn, Reaches, Get;
    NothingIn(client);
    SpentReached(threshold, START, steps, t, true, client);
    SpentReached(threshold, START, steps, t, false, client);
  }

  // ----- progress -----

  /** A tick of the idle loop and the two steps after it empty the window, whatever its size. */
  lemma TickFlushes(threshold: nat, s: State, ok: bool, client: string)
    requires s.loop == Idle && s.active != map[]
    ensures var s1 := Next(threshold, s, LoopStep(Tick));
            && Enabled(s1, LoopStep(Snapshot))
            && var s2 := Next(threshold, s1, LoopStep(Snapshot));
               && s2.active == map[] && Enabled(s2, LoopStep(Write(ok)))
               && var s3 := Next(threshold, s2, LoopStep(Write(ok)));
                  && s3.active == map[] && s3.loop == Idle && s3.gauge == s.gauge - |s.active|
                  && Get(s3.books.sent.spent, client)
                     == Get(s.books.sent.spent, client) + if ok then Get(s.active, client) else 0
  {
    hide Get, Tallied, Reports, Ones;
    assert |s.active| != 0;
    TalliedFor(s.books.sent, s.active, client);
  }

  /** A pending post can be made, a posted token can be taken by the idle loop, and that is a tick which uses
      up the token. */
  lemma TokenFlushes(threshold: nat, s: State)
    ensures s.posters > 0 ==>
              Enabled(s, Post) && Next(threshold, s, Post) == s.(token := true, posters := s.posters - 1)
    ensures s.loop == Idle && s.token ==>
              && Enabled(s, LoopStep(TakeToken))
              && Next(threshold, s, LoopStep(TakeToken)) == Next(threshold, s, LoopStep(Tick)).(token := false)
    ensures !s.token ==> !Enabled(s, LoopStep(TakeToken))
  {
  }

  lemma JoinFinishes(threshold: nat, s: State, ok: bool) returns (steps: seq<Step>, t: State)
    requires s.closer == Waiting && s.loop == Exited
    ensures Reaches(threshold, s, steps, t) && t.closer == Finished && CloseStep(Expire) !in steps
  {
    hide Get, Written, Plus, Recorded, LoopNext;
    var s1 := Next(threshold, s, CloseStep(Join));
    var s2 := Next(threshold, s1, CloseStep(FinalSnapshot));
    var rest;
    if s2.closer == Finished {
      rest, t := [], s2;
    } else {
      t := Next(threshold, s2, CloseStep(FinalWrite(ok)));
      ReachesOne(threshold, s2, CloseStep(FinalWrite(ok)), [], t);
      rest := [CloseStep(FinalWrite(ok))] + [];
    }
    ReachesOne(threshold, s1, CloseStep(FinalSnapshot), rest, t);
    ReachesOne(threshold, s, CloseStep(Join), [CloseStep(FinalSnapshot)] + rest, t);
    steps := [CloseStep(Join)] + ([CloseStep(FinalSnapshot)] + rest);
  }

  /** Closing an idle collector comes to its end, with the last window written. */
  lemma CloseFinishes(threshold: nat, s: State, ok: bool) returns (steps: seq<Step>, t: State)
    requires s.closer == Open && s.loop == Idle
    ensures Reaches(threshold, s, steps, t) && t.closer == Finished && CloseStep(Expire) !in steps
  {
    hide Reaches, Written, Recorded;
    var s1 := Next(threshold, s, CloseStep(Mark));
    var s2 := Next(threshold, s1, CloseStep(Stop));
    var s3 := Next(threshold, s2, LoopStep(Exit));
    var rest;
    rest, t := JoinFinishes(threshold, s3, ok);
    ReachesOne(threshold, s2, LoopStep(Exit), rest, t);
    ReachesOne(threshold, s1, CloseStep(Stop), [LoopStep(Exit)] + rest, t);
    ReachesOne(threshold, s, CloseStep(Mark), [CloseStep(Stop)] + ([LoopStep(Exit)] + rest), t);
    steps := [CloseStep(Mark)] + ([CloseStep(Stop)] + ([LoopStep(Exit)] + rest));
  }

  lemma ReachesOne(threshold: nat, s: State, step: Step, rest: seq<Step>, t: State)
    requires Enabled(s, step) && Reaches(threshold, Next(threshold, s, step), rest, t)
    ensures Reaches(threshold, s, [step] + rest, t)
  {
    hide Next, Enabled;
    assert ([step] + rest)[1..] == rest;
  }

  // ----- the collector's methods, step by step -----

  /** `clean` trims white space. */
  function ClientOf(clean: string -> string, raw: string): string {
    if clean(raw) == "" then UNKNOWN_CLIENT else clean(raw)
  }

  datatype UsageRecord = UsageRecord(client: string, usage: nat)

  predicate Listed(records: seq<UsageRecord>, client: string) {
    exists i :: 0 <= i < |records| && records[i].client == client
  }

  lemma ListedMore(records: seq<UsageRecord>, r: UsageRecord)
    ensures forall client :: Listed(records, client) ==> Listed(records + [r], client)
    ensures Listed(records + [r], r.client)
  {
    forall client | Listed(records, client) ensures Listed(records + [r], client) {
      var i :| 0 <= i < |records| && records[i].client == client;
      assert (records + [r])[i].client == client;
    }
    assert (records + [r])[|records|] == r;
  }

  /** The records list the batch: each client once, with its usage. */
  predicate Lists(records: seq<UsageRecord>, batch: Totals) {
    && (forall client :: client in batch ==> Listed(records, client))
    && (forall i, j :: 0 <= i < j < |records| ==> records[i].client != records[j].client)
    && (forall i :: 0 <= i < |records| ==>
          records[i].client in batch && records[i].usage == Usage(batch[records[i].client]))
  }

  /** The records of a batch. */
  method RecordsOf(batch: Totals) returns (records: seq<UsageRecord>)
    ensures Lists(records, batch)
  {
    hide Usage;
    records := [];
    var rest := batch.Keys;
    while rest != {}
      invariant rest <= batch.Keys
      invariant forall i :: 0 <= i < |records| ==> records[i].client in batch.Keys - rest
      invariant forall i :: 0 <= i < |records| ==> records[i].usage == Usage(batch[records[i].client])
      invariant forall i, j :: 0 <= i < j < |records| ==> records[i].client != records[j].client
      invariant forall c :: c in batch.Keys - rest ==> Listed(records, c)
      decreases |rest|
    {
      var client :| client in rest;
      ListedMore(records, UsageRecord(client, Usage(batch[client])));
      records := records + [UsageRecord(client, Usage(batch[client]))];
      rest := rest - {client};
    }
  }

  class Collector {
    const threshold: nat
    var active: Totals
    var closed: bool
    var token: bool
    var gauge: int

    constructor (threshold: nat)
      requires threshold > 0
      ensures this.threshold == threshold && Shows(START)
    {
      this.threshold := threshold;
      active, closed, token, gauge := map[], false, false, 0;
    }

    /** The object is the shared part of a machine state. */
    ghost predicate Shows(s: State)
      reads this
    {
      s.active == active && s.closed == closed && s.token == token && s.gauge == gauge
    }

    /** The critical section of `Record`; `shouldFlush` is whether the caller goes on to post a token. */
    method RecordLocked(client: string, duration: int, ghost s: State) returns (shouldFlush: bool)
      requires Shows(s)
      modifies this
      ensures Shows(Recorded(threshold, s, client, duration))
      ensures Recorded(threshold, s, client, duration).posters == s.posters + if shouldFlush then 1 else 0
      ensures duration < 0 || old(closed) ==> active == old(active) && gauge == old(gauge) && !shouldFlush
      ensures duration >= 0 && !old(closed) ==>
                && active == old(active)[client := Get(old(active), client) + duration]
                && gauge == old(gauge) + (if client in old(active) then 0 else 1)
                && (shouldFlush <==> client !in old(active) && |active| >= threshold)
      ensures closed == old(closed) && token == old(token)
    {
      if duration < 0 || closed {
        return false;
      }
      if client in active {
        active := active[client := active[client] + duration];
        return false;
      }
      active := active[client := duration];
      gauge := gauge + 1;
      return |active| >= threshold;
    }

    method PostToken(ghost s: State)
      requires Shows(s) && s.posters > 0
      modifies this
      ensures Shows(Next(threshold, s, Post))
    {
      token := true;
    }

    /** A `Record` call that is not interrupted: one `Record` step, and one `Post` step when it is due. */
    method RecordUsage(clean: string -> string, raw: string, duration: int, ghost s: State) returns (ghost t: State)
      requires Shows(s)
      modifies this
      ensures Shows(t) && t.posters == s.posters
      ensures var client := if clean(raw) == "" then "unknown" else clean(raw);
              var r := Recorded(threshold, s, client, duration);
              t == if r.posters == s.posters then r else Next(threshold, r, Post)
    {
      hide Recorded;
      var client := ClientOf(clean, raw);
      var shouldFlush := RecordLocked(client, duration, s);
      t := Recorded(threshold, s, client, duration);
      if shouldFlush {
        PostToken(t);
        t := Next(threshold, t, Post);
      }
    }

    /** `snapshot(false)`, called by the loop. */
    method TakeSnapshot(ghost s: State) returns (batch: Totals)
      requires Shows(s) && s.loop == LoopSnapping
      modifies this
      ensures Shows(LoopNext(s, Snapshot)) && batch == LoopBatch(LoopNext(s, Snapshot))
    {
      batch := Swap(false);
    }

    /** `snapshot(true)`, called by `Close` after the loop has ended. */
    method TakeFinalSnapshot(ghost s: State) returns (batch: Totals)
      requires Shows(s) && s.closer == CloseSnapping
      modifies this
      ensures Shows(CloseNext(s, FinalSnapshot)) && batch == CloseBatch(CloseNext(s, FinalSnapshot))
    {
      batch := Swap(true);
    }

    method Swap(closeCollector: bool) returns (batch: Totals)
      modifies this
      ensures batch == old(active) && active == map[] && closed == (old(closed) || closeCollector)
      ensures token == old(token) && gauge == old(gauge)
    {
      if closeCollector {
        closed := true;
      }
      if |active| == 0 {
        return map[];
      }
      batch := active;
      active := map[];
    }

    /** `writeSnapshot`: the producer gets exactly one record for each client of the batch, and the gauge
        goes down by their number whether or not the write succeeds. */
    method WriteRecords(batch: Totals) returns (records: seq<UsageRecord>)
      modifies `gauge
      ensures Lists(records, batch) && gauge == old(gauge) - |batch|
    {
      hide Lists;
      records := RecordsOf(batch);
      gauge := gauge - |batch|;
    }

    /** Called by the loop, this is the loop's write step. */
    method WriteSnapshot(batch: Totals, ok: bool, ghost s: State) returns (records: seq<UsageRecord>)
      requires Shows(s) && s.loop.LoopWriting? && s.loop.batch == batch
      modifies this
      ensures Lists(records, batch) && Shows(LoopNext(s, Write(ok)))
    {
      hide Lists, Written;
      records := WriteRecords(batch);
    }

    /** Called by `Close`, it is the write step of closing. */
    method WriteFinalSnapshot(batch: Totals, ok: bool, ghost s: State) returns (records: seq<UsageRecord>)
      requires Shows(s) && s.closer.CloseWriting? && s.closer.final == batch
      modifies this
      ensures Lists(records, batch) && Shows(CloseNext(s, FinalWrite(ok)))
    {
      hide Lists, Written;
      records := WriteRecords(batch);
    }
  }

  // ----- records and books -----

  function UsageIn(records: seq<UsageRecord>, client: string): nat {
    if records == [] then 0
    else UsageIn(records[..|records| - 1], client)
         + if records[|records| - 1].client == client then records[|records| - 1].usage else 0
  }

  function CountIn(records: seq<UsageRecord>, client: string): nat {
    if records == [] then 0
    else CountIn(records[..|records| - 1], client) + if records[|records| - 1].client == client then 1 else 0
  }

  lemma {:induction false} NotListed(records: seq<UsageRecord>, client: string)
    requires forall i :: 0 <= i < |records| ==> records[i].client != client
    ensures UsageIn(records, client) == 0 && CountIn(records, client) == 0
  {
    if records != [] {
      NotListed(records[..|records| - 1], client);
    }
  }

  lemma {:induction false} ListedOnce(records: seq<UsageRecord>, i: nat)
    requires i < |records| && forall j, k :: 0 <= j < k < |records| ==> records[j].client != records[k].client
    ensures UsageIn(records, records[i].client) == records[i].usage && CountIn(records, records[i].client) == 1
  {
    var n := |records| - 1;
    if i == n {
      NotListed(records[..n], records[i].client);
    } else {
      ListedOnce(records[..n], i);
    }
  }

  /** What the producer is given is what the books enter as reported and as records. */
  lemma BooksMatchRecords(records: seq<UsageRecord>, batch: Totals, client: string)
    requires Lists(records, batch)
    ensures UsageIn(records, client) == Get(Reports(batch), client)
    ensures CountIn(records, client) == Get(Ones(batch), client)
  {
    hide Usage;
    if client in batch {
      assert Listed(records, client);
      var i :| 0 <= i < |records| && records[i].client == client;
      ListedOnce(records, i);
    } else {
      NotListed(records, client);
    }
  }
}
