/** The etcd discovery loop (discovery/etcd/discovery.go): initial snapshot, watch with resume, and
    resynchronisation after compaction.

    A store revision is a batch of events. A watch response carries every event after the last processed
    revision up to its header revision. Key parsing and value decoding are parameters (`Env`). The five
    output channels are one sequence here.
 */
module Discovery {
  import opened Wrappers

  /** Node, native node, gateway, mirror and version keys are tracked; heights are forwarded only. */
  datatype KeyKind = Unknown | Height | Tracked

  datatype Env = Env(kind: string -> KeyKind, decodes: (string, string) -> bool)

  /** What is sent to the consumers. A delete carries the last value, if one is known. */
  datatype Out = PutOut(key: string, value: string) | HeightOut(key: string, value: string)
               | DeleteOut(key: string, prev: Option<string>)

  /** `knownKeys`, `watchRevision` and everything sent so far. */
  datatype State = State(known: map<string, string>, rev: nat, out: seq<Out>)

  function DispatchedPut(env: Env, d: State, key: string, value: string): State {
    match env.kind(key)
    case Unknown => d
    case Height => if env.decodes(key, value) then d.(out := d.out + [HeightOut(key, value)]) else d
    case Tracked =>
      if env.decodes(key, value) then d.(known := d.known[key := value], out := d.out + [PutOut(key, value)]) else d
  }

  function DispatchedDelete(env: Env, d: State, key: string, prev: Option<string>): State {
    var last := if prev.Some? then prev else if key in d.known then Some(d.known[key]) else None;
    var d' := d.(known := d.known - {key});
    if env.kind(key).Tracked? then d'.(out := d'.out + [DeleteOut(key, last)]) else d'
  }

  /** A watch event; `prev` is the previous key-value pair's value when the server sent it. */
  datatype WatchEvent = WatchPut(key: string, value: string) | WatchDelete(key: string, prev: Option<string>)

  function Dispatched(env: Env, d: State, e: WatchEvent): State {
    match e
    case WatchPut(key, value) => DispatchedPut(env, d, key, value)
    case WatchDelete(key, prev) => DispatchedDelete(env, d, key, prev)
  }

  function Processed(env: Env, d: State, es: seq<WatchEvent>): State
    decreases |es|
  {
    if es == [] then d else Processed(env, Dispatched(env, d, es[0]), es[1..])
  }

  /** Every node of the snapshot: keys are distinct. */
  datatype KV = KV(key: string, value: string)

  ghost predicate IsSnapshot(kvs: seq<KV>, snap: map<string, string>) {
    && (forall i, j :: 0 <= i < j < |kvs| ==> kvs[i].key != kvs[j].key)
    && (forall i :: 0 <= i < |kvs| ==> kvs[i].key in snap && snap[kvs[i].key] == kvs[i].value)
    && (forall key :: key in snap ==> KV(key, snap[key]) in kvs)
  }

  // ----- what consumers see -----

  /** The keys and values a consumer of the events holds. */
  function Seen(m: map<string, string>, o: Out): map<string, string> {
    match o
    case PutOut(key, value) => m[key := value]
    case HeightOut(_, _) => m
    case DeleteOut(key, _) => m - {key}
  }

  function SeenAll(m: map<string, string>, out: seq<Out>): map<string, string>
    decreases |out|
  {
    if out == [] then m else Seen(SeenAll(m, out[..|out| - 1]), out[|out| - 1])
  }

  lemma SeenMore(m: map<string, string>, out: seq<Out>, o: Out)
    ensures SeenAll(m, out + [o]) == Seen(SeenAll(m, out), o)
  {
    assert (out + [o])[..|out|] == out;
  }

  /** `known` is the fold of everything sent, and agrees with the store contents `m`: a tracked key that
      is absent is unknown, one whose stored value decodes is known with that value. (A stored value that
      does not decode leaves the last good value in place.) */
  ghost predicate Agrees(env: Env, d: State, m: map<string, string>) {
    && d.known == SeenAll(map[], d.out)
    && (forall key :: key in d.known ==> env.kind(key).Tracked? && key in m)
    && (forall key :: key in m && env.kind(key).Tracked? && env.decodes(key, m[key]) ==>
          key in d.known && d.known[key] == m[key])
  }

  // ----- the store -----

  function Stored(m: map<string, string>, e: WatchEvent): map<string, string> {
    match e
    case WatchPut(key, value) => m[key := value]
    case WatchDelete(key, _) => m - {key}
  }

  function StoredAll(m: map<string, string>, es: seq<WatchEvent>): map<string, string>
    decreases |es|
  {
    if es == [] then m else StoredAll(Stored(m, es[0]), es[1..])
  }

  /** What one event sends: a put of a tracked key or of a height, when its value decodes; a deletion of a
      tracked key, with the value the server sent along or else the one last known; and nothing else. */
  lemma EventSends(env: Env, d: State, e: WatchEvent)
    ensures Dispatched(env, d, e).rev == d.rev
    ensures Dispatched(env, d, e).out
         == d.out + match e
                    case WatchPut(key, value) =>
                      if !env.decodes(key, value) || env.kind(key).Unknown? then []
                      else if env.kind(key).Height? then [HeightOut(key, value)]
                      else [PutOut(key, value)]
                    case WatchDelete(key, prev) =>
                      if !env.kind(key).Tracked? then []
                      else if prev.Some? then [DeleteOut(key, prev)]
                      else if key in d.known then [DeleteOut(key, Some(d.known[key]))]
                      else [DeleteOut(key, None)]
  {
  }

  // ----- heights -----

  /** The heights a consumer holds: the last one sent for each key. */
  function HeightsSeen(out: seq<Out>): map<string, string>
    decreases |out|
  {
    if out == [] then map[]
    else
      var before := HeightsSeen(out[..|out| - 1]);
      match out[|out| - 1] case HeightOut(key, value) => before[key := value] case _ => before
  }

  /** Every stored height that decodes has reached the consumer. */
  ghost predicate HeightsAgree(env: Env, out: seq<Out>, m: map<string, string>) {
    forall key :: key in m && env.kind(key).Height? && env.decodes(key, m[key]) ==>
      key in HeightsSeen(out) && HeightsSeen(out)[key] == m[key]
  }

  lemma HeightsEvent(env: Env, d: State, m: map<string, string>, e: WatchEvent)
    requires HeightsAgree(env, d.out, m)
    ensures HeightsAgree(env, Dispatched(env, d, e).out, Stored(m, e))
  {
    EventSends(env, d, e);
    hide Dispatched;
    var out := Dispatched(env, d, e).out;
    if |out| > |d.out| {
      assert out[..|d.out|] == d.out;
    } else {
      assert out == d.out;
    }
  }

  lemma {:induction false} HeightsResponse(env: Env, d: State, m: map<string, string>, es: seq<WatchEvent>)
    requires HeightsAgree(env, d.out, m)
    ensures HeightsAgree(env, Processed(env, d, es).out, StoredAll(m, es))
    decreases |es|
  {
    hide HeightsAgree, Dispatched, Stored;
    if es != [] {
      HeightsEvent(env, d, m, es[0]);
      HeightsResponse(env, Dispatched(env, d, es[0]), Stored(m, es[0]), es[1..]);
    }
  }

  lemma AgreesEvent(env: Env, d: State, m: map<string, string>, e: WatchEvent)
    requires Agrees(env, d, m)
    ensures Agrees(env, Dispatched(env, d, e), Stored(m, e))
  {
    var d' := Dispatched(env, d, e);
    if |d'.out| > |d.out| {
      SeenMore(map[], d.out, d'.out[|d.out|]);
    }
  }

  lemma {:induction false} AgreesResponse(env: Env, d: State, m: map<string, string>, es: seq<WatchEvent>)
    requires Agrees(env, d, m)
    ensures Agrees(env, Processed(env, d, es), StoredAll(m, es)) && Processed(env, d, es).rev == d.rev
    decreases |es|
  {
    if es != [] {
      AgreesEvent(env, d, m, es[0]);
      AgreesResponse(env, Dispatched(env, d, es[0]), Stored(m, es[0]), es[1..]);
    }
  }

  // ----- resync -----

  /** The events of a resync: one per key, only for keys that changed, with the right values. */
  ghost predicate ResyncEvents(env: Env, known: map<string, string>, snap: map<string, string>, sent: seq<Out>) {
    && (forall i, j :: 0 <= i < j < |sent| ==> sent[i].key != sent[j].key)
    && (forall i :: 0 <= i < |sent| ==> Justified(env, known, snap, sent[i]))
  }

  predicate Justified(env: Env, known: map<string, string>, snap: map<string, string>, o: Out) {
    match o
    case PutOut(key, value) =>
      && env.kind(key).Tracked? && key in snap && snap[key] == value && env.decodes(key, value)
      && (key in known ==> known[key] != value)
    case HeightOut(key, value) => env.kind(key).Height? && key in snap && snap[key] == value
    case DeleteOut(key, prev) => env.kind(key).Tracked? && key in known && key !in snap && prev == Some(known[key])
  }

  /** One resync against `snap`, taken at revision `header`, that sends `sent`. */
  ghost predicate Resynced(env: Env, d: State, snap: map<string, string>, header: nat, sent: seq<Out>, d': State) {
    && d'.rev == header && d'.out == d.out + sent && ResyncEvents(env, d.known, snap, sent) && Agrees(env, d', snap)
    && SendsHeights(env, snap, sent)
  }

  /** A resync sends every height again. */
  ghost predicate SendsHeights(env: Env, snap: map<string, string>, sent: seq<Out>) {
    forall key :: key in snap && env.kind(key).Height? && env.decodes(key, snap[key]) ==>
      HeightOut(key, snap[key]) in sent
  }

  /** During the first loop of a resync: the keys of `todo` are still to be looked at. */
  ghost predicate Deleting(env: Env, d0: State, snap: map<string, string>, todo: set<string>, d: State,
                           sent: seq<Out>) {
    && d.rev == d0.rev && d.out == d0.out + sent && d.known == SeenAll(map[], d.out)
    && (forall key :: key in d.known <==> key in d0.known && (key in snap || key in todo))
    && (forall key :: key in d.known ==> d.known[key] == d0.known[key])
    && ResyncEvents(env, d0.known, snap, sent)
    && (forall i :: 0 <= i < |sent| ==> sent[i].key !in todo && sent[i].key !in snap)
  }

  lemma OneMore(env: Env, known: map<string, string>, snap: map<string, string>, sent: seq<Out>, o: Out)
    requires ResyncEvents(env, known, snap, sent) && Justified(env, known, snap, o)
    requires forall i :: 0 <= i < |sent| ==> sent[i].key != o.key
    ensures ResyncEvents(env, known, snap, sent + [o])
  {
    hide Justified;
  }

  lemma DeletingStep(env: Env, d0: State, snap: map<string, string>, todo: set<string>, d: State, sent: seq<Out>,
                     key: string)
    requires Deleting(env, d0, snap, todo, d, sent) && key in todo && key in d0.known && env.kind(key).Tracked?
    ensures key in d.known
    ensures key in snap ==> Deleting(env, d0, snap, todo - {key}, d, sent)
    ensures key !in snap ==>
              Deleting(env, d0, snap, todo - {key}, DispatchedDelete(env, d, key, Some(d.known[key])),
                       sent + [DeleteOut(key, Some(d.known[key]))])
  {
    hide ResyncEvents, SeenAll;
    if key !in snap {
      var o := DeleteOut(key, Some(d.known[key]));
      OneMore(env, d0.known, snap, sent, o);
      SeenMore(map[], d.out, o);
      assert d0.out + (sent + [o]) == (d0.out + sent) + [o];
    }
  }

  /** During the second loop of a resync: the pairs from `n` on are still to be looked at. */
  ghost predicate Putting(env: Env, d0: State, kvs: seq<KV>, snap: map<string, string>, n: nat, d: State,
                          sent: seq<Out>) {
    && d.rev == d0.rev && d.out == d0.out + sent && d.known == SeenAll(map[], d.out)
    && ResyncEvents(env, d0.known, snap, sent)
    && (forall key :: key in d.known ==> env.kind(key).Tracked? && key in snap)
    && (forall i :: n <= i < |kvs| ==> Untouched(d0.known, d.known, sent, kvs[i].key))
    && (forall i :: 0 <= i < n && i < |kvs| ==> Settled(env, d.known, kvs[i]) && HeightSent(env, sent, kvs[i]))
  }

  predicate HeightSent(env: Env, sent: seq<Out>, kv: KV) {
    env.kind(kv.key).Height? && env.decodes(kv.key, kv.value) ==> HeightOut(kv.key, kv.value) in sent
  }

  ghost predicate Untouched(known0: map<string, string>, known: map<string, string>, sent: seq<Out>, key: string) {
    && (key in known <==> key in known0) && (key in known ==> known[key] == known0[key])
    && forall j :: 0 <= j < |sent| ==> sent[j].key != key
  }

  predicate Settled(env: Env, known: map<string, string>, kv: KV) {
    env.kind(kv.key).Tracked? && env.decodes(kv.key, kv.value) ==> kv.key in known && known[kv.key] == kv.value
  }

  /** A pair whose value is the known one is skipped. */
  lemma PuttingSkip(env: Env, d0: State, kvs: seq<KV>, snap: map<string, string>, n: nat, d: State, sent: seq<Out>)
    requires Putting(env, d0, kvs, snap, n, d, sent) && n < |kvs|
    requires kvs[n].key in d.known && d.known[kvs[n].key] == kvs[n].value
    ensures Putting(env, d0, kvs, snap, n + 1, d, sent)
  {
    hide ResyncEvents, SeenAll, Untouched;
  }

  lemma NotSent(known0: map<string, string>, known: map<string, string>, sent: seq<Out>, key: string)
    requires Untouched(known0, known, sent, key)
    ensures forall j :: 0 <= j < |sent| ==> sent[j].key != key
  {
  }

  lemma UntouchedMore(known0: map<string, string>, known: map<string, string>, sent: seq<Out>, o: Out, key: string)
    requires Untouched(known0, known, sent, key) && key != o.key
    ensures Untouched(known0, Seen(known, o), sent + [o], key)
  {
  }

  lemma TailUntouched(d0: State, kvs: seq<KV>, snap: map<string, string>, n: nat, known: map<string, string>,
                      sent: seq<Out>, o: Out)
    requires IsSnapshot(kvs, snap) && n < |kvs| && o.key == kvs[n].key
    requires forall i :: n <= i < |kvs| ==> Untouched(d0.known, known, sent, kvs[i].key)
    ensures forall i :: n + 1 <= i < |kvs| ==> Untouched(d0.known, Seen(known, o), sent + [o], kvs[i].key)
  {
    hide Untouched;
    forall i | n + 1 <= i < |kvs| ensures Untouched(d0.known, Seen(known, o), sent + [o], kvs[i].key) {
      UntouchedMore(d0.known, known, sent, o, kvs[i].key);
    }
  }

  lemma HeadSettled(env: Env, kvs: seq<KV>, snap: map<string, string>, n: nat, known: map<string, string>, o: Out)
    requires IsSnapshot(kvs, snap) && n < |kvs| && forall i :: 0 <= i < n ==> Settled(env, known, kvs[i])
    requires o == PutOut(kvs[n].key, kvs[n].value) || (o.HeightOut? && env.kind(kvs[n].key).Height?)
    ensures forall i :: 0 <= i < n + 1 ==> Settled(env, Seen(known, o), kvs[i])
  {
    forall i | 0 <= i < n + 1 ensures Settled(env, Seen(known, o), kvs[i]) {
      assert i < n ==> Settled(env, known, kvs[i]);
    }
  }

  /** A pair that sends `o` and, if tracked, becomes known. */
  lemma PuttingSent(env: Env, d0: State, kvs: seq<KV>, snap: map<string, string>, n: nat, d: State, sent: seq<Out>,
                    o: Out, d': State)
    requires Putting(env, d0, kvs, snap, n, d, sent) && IsSnapshot(kvs, snap) && n < |kvs|
    requires o.key == kvs[n].key && Justified(env, d0.known, snap, o)
    requires d' == State(Seen(d.known, o), d.rev, d.out + [o])
    requires o == PutOut(kvs[n].key, kvs[n].value)
             || (o == HeightOut(kvs[n].key, kvs[n].value) && env.kind(o.key).Height?)
    ensures Putting(env, d0, kvs, snap, n + 1, d', sent + [o])
  {
    hide ResyncEvents, SeenAll, Untouched, Settled, IsSnapshot;
    forall i | 0 <= i < n + 1 ensures HeightSent(env, sent + [o], kvs[i]) {
      assert i < n ==> HeightSent(env, sent, kvs[i]);
      assert o in sent + [o];
    }
    hide HeightSent;
    TailUntouched(d0, kvs, snap, n, d.known, sent, o);
    HeadSettled(env, kvs, snap, n, d.known, o);
    NotSent(d0.known, d.known, sent, kvs[n].key);
    OneMore(env, d0.known, snap, sent, o);
    SeenMore(map[], d.out, o);
    assert d0.out + (sent + [o]) == (d0.out + sent) + [o];
  }

  /** Any other pair is dispatched, and sends at most one event. */
  lemma PuttingStep(env: Env, d0: State, kvs: seq<KV>, snap: map<string, string>, n: nat, d: State, sent: seq<Out>)
    returns (sent': seq<Out>)
    requires Putting(env, d0, kvs, snap, n, d, sent) && IsSnapshot(kvs, snap) && n < |kvs|
    requires !(kvs[n].key in d.known && d.known[kvs[n].key] == kvs[n].value)
    ensures Putting(env, d0, kvs, snap, n + 1, DispatchedPut(env, d, kvs[n].key, kvs[n].value), sent')
  {
    var key, value := kvs[n].key, kvs[n].value;
    var d' := DispatchedPut(env, d, key, value);
    assert Untouched(d0.known, d.known, sent, key);
    if d'.out == d.out {
      sent' := sent;
      hide ResyncEvents, SeenAll, Untouched;
    } else {
      var o := if env.kind(key).Height? then HeightOut(key, value) else PutOut(key, value);
      sent' := sent + [o];
      hide ResyncEvents, SeenAll, Putting;
      PuttingSent(env, d0, kvs, snap, n, d, sent, o, d');
    }
  }

  lemma PuttingDone(env: Env, d0: State, kvs: seq<KV>, snap: map<string, string>, d: State, sent: seq<Out>)
    requires Putting(env, d0, kvs, snap, |kvs|, d, sent) && IsSnapshot(kvs, snap)
    ensures Agrees(env, d, snap)
  {
    hide ResyncEvents, SeenAll, Untouched;
    forall key | key in snap && env.kind(key).Tracked? && env.decodes(key, snap[key])
      ensures key in d.known && d.known[key] == snap[key]
    {
      assert KV(key, snap[key]) in kvs;
    }
  }

  lemma DeletingToPutting(env: Env, d0: State, kvs: seq<KV>, snap: map<string, string>, d: State, sent: seq<Out>)
    requires Deleting(env, d0, snap, {}, d, sent) && IsSnapshot(kvs, snap)
    requires forall key :: key in d0.known ==> env.kind(key).Tracked?
    ensures Putting(env, d0, kvs, snap, 0, d, sent)
  {
    hide ResyncEvents, SeenAll;
  }

  class Discover {
    var known: map<string, string>
    var watchRevision: nat
    var out: seq<Out>

    constructor ()
      ensures Now() == State(map[], 0, [])
    {
      known, watchRevision, out := map[], 0, [];
    }

    function Now(): State
      reads this
    {
      State(known, watchRevision, out)
    }

    method DispatchPut(env: Env, key: string, value: string)
      modifies this
      ensures Now() == DispatchedPut(env, old(Now()), key, value)
    {
      match env.kind(key)
      case Unknown =>
      case Height =>
        if env.decodes(key, value) {
          out := out + [HeightOut(key, value)];
        }
      case Tracked =>
        if !env.decodes(key, value) {
          return;
        }
        known := known[key := value];
        out := out + [PutOut(key, value)];
    }

    method DispatchDelete(env: Env, key: string, prev: Option<string>)
      modifies this
      ensures Now() == DispatchedDelete(env, old(Now()), key, prev)
    {
      var last := prev;
      if last.None? && key in known {
        last := Some(known[key]);
      }
      known := known - {key};
      if env.kind(key).Tracked? {
        out := out + [DeleteOut(key, last)];
      }
    }

    /** One response of `processWatchEvents`. */
    method ProcessResponse(env: Env, events: seq<WatchEvent>, header: nat)
      modifies this
      ensures Now() == Processed(env, old(Now()), events).(rev := header)
    {
      assert events[0..] == events;
      for i := 0 to |events|
        invariant Processed(env, old(Now()), events) == Processed(env, Now(), events[i..])
        invariant watchRevision == old(watchRevision)
      {
        assert events[i..][1..] == events[i + 1..];
        match events[i]
        case WatchPut(key, value) => DispatchPut(env, key, value);
        case WatchDelete(key, prev) => DispatchDelete(env, key, prev);
      }
      watchRevision := header;
    }

    /** The first loop of `resync`: known keys that are gone are deleted. */
    method DeleteGone(env: Env, live: set<string>, ghost snap: map<string, string>, ghost d0: State)
      returns (ghost sent: seq<Out>)
      requires Now() == d0 && live == snap.Keys && Deleting(env, d0, snap, d0.known.Keys, d0, [])
      requires forall key :: key in d0.known ==> env.kind(key).Tracked?
      modifies this
      ensures Deleting(env, d0, snap, {}, Now(), sent)
    {
      hide Deleting, DispatchedDelete;
      sent := [];
      var todo := known.Keys;
      while todo != {}
        invariant todo <= d0.known.Keys && Deleting(env, d0, snap, todo, Now(), sent)
      {
        var key :| key in todo;
        DeletingStep(env, d0, snap, todo, Now(), sent, key);
        todo := todo - {key};
        if key !in live {
          sent := sent + [DeleteOut(key, Some(known[key]))];
          DispatchDelete(env, key, Some(known[key]));
        }
      }
    }

    /** The second loop: pairs with a new value are dispatched. */
    method PutChanged(env: Env, kvs: seq<KV>, ghost snap: map<string, string>, ghost d0: State, ghost gone: seq<Out>)
      returns (ghost sent: seq<Out>)
      requires IsSnapshot(kvs, snap) && Putting(env, d0, kvs, snap, 0, Now(), gone)
      modifies this
      ensures Putting(env, d0, kvs, snap, |kvs|, Now(), sent)
    {
      hide Putting, IsSnapshot, DispatchedPut;
      sent := gone;
      for n := 0 to |kvs|
        invariant Putting(env, d0, kvs, snap, n, Now(), sent)
      {
        var key, value := kvs[n].key, kvs[n].value;
        if key in known && known[key] == value {
          PuttingSkip(env, d0, kvs, snap, n, Now(), sent);
          continue;
        }
        sent := PuttingStep(env, d0, kvs, snap, n, Now(), sent);
        DispatchPut(env, key, value);
      }
    }

    /** `resync` against a snapshot read at revision `header`; `m` is the store at the last processed
        revision. A first start is a resync of an empty state. */
    method Resync(env: Env, kvs: seq<KV>, header: nat, ghost snap: map<string, string>, ghost m: map<string, string>)
      returns (ghost sent: seq<Out>)
      requires Agrees(env, Now(), m) && IsSnapshot(kvs, snap)
      modifies this
      ensures Resynced(env, old(Now()), snap, header, sent, Now())
    {
      ghost var d0 := Now();
      DeletingFirst(env, d0, snap, m);
      hide Deleting, Putting, IsSnapshot, Resynced, Agrees;
      var live := set kv | kv in kvs :: kv.key;
      LiveKeys(kvs, snap, live);
      sent := DeleteGone(env, live, snap, d0);
      DeletingToPutting(env, d0, kvs, snap, Now(), sent);
      sent := PutChanged(env, kvs, snap, d0, sent);
      ResyncDone(env, d0, kvs, snap, header, Now(), sent);
      watchRevision := header;
    }
  }

  lemma DeletingFirst(env: Env, d: State, snap: map<string, string>, m: map<string, string>)
    requires Agrees(env, d, m)
    ensures Deleting(env, d, snap, d.known.Keys, d, []) && forall key :: key in d.known ==> env.kind(key).Tracked?
  {
    hide SeenAll;
    assert d.out + [] == d.out;
  }

  lemma LiveKeys(kvs: seq<KV>, snap: map<string, string>, live: set<string>)
    requires IsSnapshot(kvs, snap) && live == set kv | kv in kvs :: kv.key
    ensures live == snap.Keys
  {
    forall key | key in snap ensures key in live {
      assert KV(key, snap[key]) in kvs;
    }
  }

  lemma ResyncDone(env: Env, d0: State, kvs: seq<KV>, snap: map<string, string>, header: nat, d: State, sent: seq<Out>)
    requires Putting(env, d0, kvs, snap, |kvs|, d, sent) && IsSnapshot(kvs, snap)
    ensures Resynced(env, d0, snap, header, sent, d.(rev := header))
  {
    PuttingDone(env, d0, kvs, snap, d, sent);
  }

  // ----- whole runs -----

  function Flat(log: seq<seq<WatchEvent>>): seq<WatchEvent> {
    if log == [] then [] else log[0] + Flat(log[1..])
  }

  /** The store after the first `rev` revisions. */
  function Contents(log: seq<seq<WatchEvent>>, rev: nat): map<string, string>
    requires rev <= |log|
  {
    StoredAll(map[], Flat(log[..rev]))
  }

  lemma {:induction false} StoredConcat(m: map<string, string>, a: seq<WatchEvent>, b: seq<WatchEvent>)
    ensures StoredAll(m, a + b) == StoredAll(StoredAll(m, a), b)
    decreases |a|
  {
    if a == [] {
      assert a + b == b;
    } else {
      assert (a + b)[1..] == a[1..] + b;
      StoredConcat(Stored(m, a[0]), a[1..], b);
    }
  }

  lemma {:induction false} FlatConcat(a: seq<seq<WatchEvent>>, b: seq<seq<WatchEvent>>)
    ensures Flat(a + b) == Flat(a) + Flat(b)
    decreases |a|
  {
    if a == [] {
      assert a + b == b;
    } else {
      assert (a + b)[1..] == a[1..] + b;
      FlatConcat(a[1..], b);
    }
  }

  /** The events of revisions `rev + 1` to `header` take the store from one to the other. */
  lemma ContentsResume(log: seq<seq<WatchEvent>>, rev: nat, header: nat)
    requires rev <= header <= |log|
    ensures Contents(log, header) == StoredAll(Contents(log, rev), Flat(log[rev..header]))
  {
    assert log[..header] == log[..rev] + log[rev..header];
    FlatConcat(log[..rev], log[rev..header]);
    StoredConcat(map[], Flat(log[..rev]), Flat(log[rev..header]));
  }

  /** The store's revisions and the discovery loop. */
  datatype System = System(log: seq<seq<WatchEvent>>, d: State)

  /** A watch response with header revision `header`. */
  ghost predicate Responds(env: Env, log: seq<seq<WatchEvent>>, d: State, header: nat, d': State) {
    d.rev <= header <= |log| && d' == Processed(env, d, Flat(log[d.rev..header])).(rev := header)
  }

  /** One step: a commit, a watch response up to some revision, a resync against a snapshot of the
      current revision (the first start is one), or a step that changes neither (a watch break, a
      compaction, a failed resync). */
  ghost predicate Moves(env: Env, s: System, s': System) {
    || (exists batch :: s' == System(s.log + [batch], s.d))
    || (s'.log == s.log && exists header: nat :: Responds(env, s.log, s.d, header, s'.d))
    || (s'.log == s.log && exists sent :: Resynced(env, s.d, Contents(s.log, |s.log|), |s.log|, sent, s'.d))
    || s' == s
  }

  ghost predicate Run(env: Env, run: seq<System>) {
    && run != [] && run[0].d == State(map[], 0, [])
    && forall i :: 0 <= i < |run| - 1 ==> Moves(env, run[i], run[i + 1])
  }

  ghost predicate InStep(env: Env, s: System) {
    s.d.rev <= |s.log| && Agrees(env, s.d, Contents(s.log, s.d.rev))
  }

  lemma MovesInStep(env: Env, s: System, s': System)
    requires InStep(env, s) && Moves(env, s, s')
    ensures InStep(env, s')
  {
    hide Agrees, SeenAll;
    if batch :| s' == System(s.log + [batch], s.d) {
      assert s'.log[..s.d.rev] == s.log[..s.d.rev];
    } else if header: nat :| s'.log == s.log && Responds(env, s.log, s.d, header, s'.d) {
      var d := Processed(env, s.d, Flat(s.log[s.d.rev..header]));
      ContentsResume(s.log, s.d.rev, header);
      AgreesResponse(env, s.d, Contents(s.log, s.d.rev), Flat(s.log[s.d.rev..header]));
      AgreesAnyRev(env, d, Contents(s.log, header), header);
    }
  }

  /** Sending every stored height once brings the consumer up to date, whatever it held. */
  lemma {:induction false} HeightsSent(env: Env, known: map<string, string>, snap: map<string, string>, out: seq<Out>,
                                       sent: seq<Out>, key: string, n: nat)
    requires ResyncEvents(env, known, snap, sent) && n <= |sent|
    requires key in snap && HeightOut(key, snap[key]) in sent[..n]
    ensures key in HeightsSeen(out + sent[..n]) && HeightsSeen(out + sent[..n])[key] == snap[key]
    decreases n
  {
    var all := out + sent[..n];
    assert all[..|all| - 1] == out + sent[..n - 1] && all[|all| - 1] == sent[n - 1];
    assert Justified(env, known, snap, sent[n - 1]);
    if sent[n - 1] != HeightOut(key, snap[key]) {
      assert sent[..n] == sent[..n - 1] + [sent[n - 1]];
      HeightsSent(env, known, snap, out, sent, key, n - 1);
    }
    hide ResyncEvents;
  }

  lemma HeightsResynced(env: Env, d: State, snap: map<string, string>, header: nat, sent: seq<Out>, d': State)
    requires Resynced(env, d, snap, header, sent, d')
    ensures HeightsAgree(env, d'.out, snap)
  {
    hide ResyncEvents, HeightsSeen, Agrees;
    forall key | key in snap && env.kind(key).Height? && env.decodes(key, snap[key])
      ensures key in HeightsSeen(d'.out) && HeightsSeen(d'.out)[key] == snap[key]
    {
      assert sent[..|sent|] == sent;
      HeightsSent(env, d.known, snap, d.out, sent, key, |sent|);
    }
  }

  lemma AgreesAnyRev(env: Env, d: State, m: map<string, string>, rev: nat)
    requires Agrees(env, d, m)
    ensures Agrees(env, d.(rev := rev), m)
  {
  }

  /** In every run of starts, commits, responses, breaks, compactions, failed resyncs and resyncs, at
      every point, `knownKeys` is the fold of the events sent and agrees with the store at
      `watchRevision`. */
  lemma {:induction false} AlwaysInStep(env: Env, run: seq<System>, n: nat)
    requires Run(env, run) && n < |run|
    ensures InStep(env, run[n])
  {
    if n == 0 {
      assert run[0].log[..0] == [];
    } else {
      AlwaysInStep(env, run, n - 1);
      assert Moves(env, run[n - 1], run[n - 1 + 1]);
      MovesInStep(env, run[n - 1], run[n]);
    }
  }

  /** In every such run the consumers hold every height the store had at `watchRevision`, if it decodes. */
  lemma {:induction false} HeightsInStep(env: Env, run: seq<System>, n: nat)
    requires Run(env, run) && n < |run|
    ensures run[n].d.rev <= |run[n].log| && HeightsAgree(env, run[n].d.out, Contents(run[n].log, run[n].d.rev))
  {
    AlwaysInStep(env, run, n);
    hide HeightsAgree, Agrees, ResyncEvents;
    if n == 0 {
      assert run[0].log[..0] == [];
      NoHeights(env);
    } else {
      HeightsInStep(env, run, n - 1);
      AlwaysInStep(env, run, n - 1);
      assert Moves(env, run[n - 1], run[n - 1 + 1]);
      MovesHeights(env, run[n - 1], run[n]);
    }
  }

  lemma NoHeights(env: Env)
    ensures HeightsAgree(env, [], map[])
  {
  }

  lemma MovesHeights(env: Env, s: System, s': System)
    requires InStep(env, s) && Moves(env, s, s') && HeightsAgree(env, s.d.out, Contents(s.log, s.d.rev))
    ensures s'.d.rev <= |s'.log| && HeightsAgree(env, s'.d.out, Contents(s'.log, s'.d.rev))
  {
    hide Agrees, SeenAll, HeightsAgree;
    if batch :| s' == System(s.log + [batch], s.d) {
      assert s'.log[..s.d.rev] == s.log[..s.d.rev];
    } else if header: nat :| s'.log == s.log && Responds(env, s.log, s.d, header, s'.d) {
      ContentsResume(s.log, s.d.rev, header);
      HeightsResponse(env, s.d, Contents(s.log, s.d.rev), Flat(s.log[s.d.rev..header]));
    } else if sent :| s'.log == s.log && Resynced(env, s.d, Contents(s.log, |s.log|), |s.log|, sent, s'.d) {
      HeightsResynced(env, s.d, Contents(s.log, |s.log|), |s.log|, sent, s'.d);
    }
  }
}
