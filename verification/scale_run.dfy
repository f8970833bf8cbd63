/**
 One call of `FunctionScaler.Scale` (gateway/scaling/function_scaler.go) as a machine that is fed
 the answers of the provider. `FunctionScalers` proves that the method runs this machine, and
 `Cluster` lets many of them run at once against one provider.
 */
module ScaleRuns {

  import opened Wrappers
  import opened Service

  /** Go's `uint` fields of `ScalingConfig`. */
  datatype Config = Config(maxPollCount: uint64, setScaleRetries: uint64)

  /** Go's conversion `int(x)` of a `uint`: the upper half turns negative. */
  function AsInt(x: uint64): int {
    if x < TWO_TO_THE_64 / 2 then x else x - TWO_TO_THE_64
  }

  /** It is the only 64-bit integer that agrees with `x` modulo 2^64. */
  lemma AsIntWraps(x: uint64, n: int)
    ensures AsInt(x) == n <==> -0x8000_0000_0000_0000 <= n < 0x8000_0000_0000_0000 && (n == x || n == x - 0x1_0000_0000_0000_0000)
  {
  }

  function Attempts(cfg: Config): nat {
    if AsInt(cfg.setScaleRetries) > 0 then AsInt(cfg.setScaleRetries) else 0
  }

  function Polls(cfg: Config): nat {
    if AsInt(cfg.maxPollCount) > 0 then AsInt(cfg.maxPollCount) else 0
  }

  datatype ScaleResult = ScaleResult(available: bool, err: Option<Error>, found: bool)

  const READY := ScaleResult(true, None, true)

  const EMPTY_RESPONSE_ERROR: Error := "empty response from server"

  /** Which of the three calls of `GetReplicas` is made: lines 57, 104 and 156. */
  datatype Site = Live | Attempt(i: nat) | Poll(k: nat)

  datatype Event =
    | Asked(site: Site, answer: FlightResult)                  // GetReplicas
    | Cached(response: ServiceQueryResponse)                   // Cache.Set
    | Requested(i: nat, count: uint64, err: Option<Error>)     // SetReplicas, line 125
    | Slept                                                    // time.Sleep

  datatype Phase =
    | Querying
    | Attempting(i: nat)
    | Setting(i: nat)
    | Polling(k: nat)
    | Finished(result: ScaleResult)
    | Panicked                                                 // a type assertion on nil

  datatype Run = Run(phase: Phase, minReplicas: uint64, log: seq<Event>)

  datatype Input = Answer(answer: FlightResult) | Reply(err: Option<Error>)

  /** The replica count that a scale-up asks for, from the minimum in the first live answer. */
  function Target(minReplicas: uint64): uint64 {
    if minReplicas > 0 then minReplicas else 1
  }

  /** `count` is the larger one of 1 and the minimum. */
  predicate LargerOfOneAnd(minReplicas: uint64, count: uint64) {
    count >= 1 && count >= minReplicas && (count == 1 || count == minReplicas)
  }

  lemma TargetIsLarger(minReplicas: uint64, count: uint64)
    ensures LargerOfOneAnd(minReplicas, count) <==> count == Target(minReplicas)
  {
  }

  function Start(cached: ServiceQueryResponse, hit: bool): Run {
    Run(if hit && cached.availableReplicas > 0 then Finished(READY) else Querying, 1, [])
  }

  function EnterPoll(cfg: Config, k: nat): Phase {
    if k < Polls(cfg) then Polling(k) else Finished(READY)
  }

  function EnterAttempts(cfg: Config): Phase {
    if 0 < Attempts(cfg) then Attempting(0) else EnterPoll(cfg, 0)
  }

  function AfterFailure(cfg: Config, i: nat, err: Error): Phase {
    if i + 1 < Attempts(cfg) then Attempting(i + 1) else Finished(ScaleResult(false, Some(err), true))
  }

  function OnLive(cfg: Config, r: Run, a: FlightResult): Run {
    var log := r.log + [Asked(Live, a)];
    if a.err.Some? then r.(phase := Finished(ScaleResult(false, a.err, false)), log := log)
    else if a.res.None? then r.(phase := Finished(ScaleResult(false, Some(EMPTY_RESPONSE_ERROR), false)), log := log)
    else if a.res.value.availableReplicas > 0 then r.(phase := Finished(READY), log := log)
    else
      Run(if a.res.value.replicas == 0 then EnterAttempts(cfg) else EnterPoll(cfg, 0),
          Target(a.res.value.minReplicas), log + [Cached(a.res.value)])
  }

  function OnAttempt(cfg: Config, r: Run, i: nat, a: FlightResult): Run {
    var log := r.log + [Asked(Attempt(i), a)];
    if a.err.Some? then r.(phase := AfterFailure(cfg, i, a.err.value), log := log + [Slept])
    else if a.res.None? then r.(phase := Panicked, log := log)
    else r.(phase := if a.res.value.replicas > 0 then EnterPoll(cfg, 0) else Setting(i),
            log := log + [Cached(a.res.value)])
  }

  function OnPoll(cfg: Config, r: Run, k: nat, a: FlightResult): Run {
    var log := r.log + [Asked(Poll(k), a)];
    if a.res.None? then r.(phase := Panicked, log := log)
    else if a.err.Some? then r.(phase := Finished(ScaleResult(false, a.err, true)), log := log)
    else if a.res.value.availableReplicas > 0 then
      r.(phase := Finished(READY), log := log + [Cached(a.res.value)])
    else r.(phase := EnterPoll(cfg, k + 1), log := log + [Cached(a.res.value), Slept])
  }

  predicate Asking(r: Run) {
    r.phase.Querying? || r.phase.Attempting? || r.phase.Polling?
  }

  predicate Over(r: Run) {
    r.phase.Finished? || r.phase.Panicked?
  }

  function OnAnswer(cfg: Config, r: Run, a: FlightResult): Run
    requires Asking(r)
  {
    match r.phase
    case Querying => OnLive(cfg, r, a)
    case Attempting(i) => OnAttempt(cfg, r, i, a)
    case Polling(k) => OnPoll(cfg, r, k, a)
  }

  function OnReply(cfg: Config, r: Run, err: Option<Error>): Run
    requires r.phase.Setting?
  {
    var i := r.phase.i;
    var log := r.log + [Requested(i, r.minReplicas, err)];
    match err
    case None => r.(phase := EnterPoll(cfg, 0), log := log)
    case Some(e) => r.(phase := AfterFailure(cfg, i, e), log := log + [Slept])
  }

  predicate Accepts(r: Run, input: Input) {
    match input
    case Answer(_) => Asking(r)
    case Reply(_) => r.phase.Setting?
  }

  function OnInput(cfg: Config, r: Run, input: Input): Run
    requires Accepts(r, input)
  {
    match input
    case Answer(a) => OnAnswer(cfg, r, a)
    case Reply(err) => OnReply(cfg, r, err)
  }

  /** `inputs` is a trace of provider answers that a run can meet. */
  predicate Possible(cfg: Config, r: Run, inputs: seq<Input>)
    decreases |inputs|
  {
    inputs == [] || (Accepts(r, inputs[0]) && Possible(cfg, OnInput(cfg, r, inputs[0]), inputs[1..]))
  }

  function After(cfg: Config, r: Run, inputs: seq<Input>): Run
    requires Possible(cfg, r, inputs)
    decreases |inputs|
  {
    if inputs == [] then r else After(cfg, OnInput(cfg, r, inputs[0]), inputs[1..])
  }

  /** A bound on the requests still to be made. */
  function Rank(cfg: Config, r: Run): nat {
    var a, p := Attempts(cfg), Polls(cfg);
    match r.phase
    case Querying => 2 * a + p + 4
    case Attempting(i) => 2 * (if i < a then a - i else 0) + p + 3
    case Setting(i) => 2 * (if i < a then a - i else 0) + p + 2
    case Polling(k) => (if k < p then p - k else 0) + 1
    case _ => 0
  }

  /** Every answer brings a run closer to its end, so every run ends. */
  lemma InputReducesRank(cfg: Config, r: Run, input: Input)
    requires Accepts(r, input)
    ensures Rank(cfg, OnInput(cfg, r, input)) < Rank(cfg, r)
  {
  }

  // Counting what a run does.

  datatype Tally = Tally(queries: nat, updates: nat, successes: nat, sleeps: nat)

  function Plus(t: Tally, e: Event): Tally {
    match e
    case Asked(_, _) => t.(queries := t.queries + 1)
    case Cached(_) => t
    case Requested(_, _, err) =>
      t.(updates := t.updates + 1, successes := t.successes + if err.None? then 1 else 0)
    case Slept => t.(sleeps := t.sleeps + 1)
  }

  function TallyOf(log: seq<Event>): Tally {
    if log == [] then Tally(0, 0, 0, 0) else Plus(TallyOf(log[..|log| - 1]), log[|log| - 1])
  }

  lemma TallyAppend(log: seq<Event>, e: Event)
    ensures TallyOf(log + [e]) == Plus(TallyOf(log), e)
  {
    assert (log + [e])[..|log|] == log;
  }

  lemma TallyAppend2(log: seq<Event>, e: Event, e': Event)
    ensures TallyOf(log + [e, e']) == Plus(Plus(TallyOf(log), e), e')
  {
    assert log + [e, e'] == log + [e] + [e'];
    TallyAppend(log, e);
    TallyAppend(log + [e], e');
  }

  predicate Within(t: Tally, queries: nat, updates: nat, successes: nat, sleeps: nat) {
    t.queries <= queries && t.updates <= updates && t.successes <= successes && t.sleeps <= sleeps
  }

  predicate CountsOk(cfg: Config, phase: Phase, t: Tally) {
    var a, p := Attempts(cfg), Polls(cfg);
    match phase
    case Querying => Within(t, 0, 0, 0, 0)
    case Attempting(i) => i < a && Within(t, 1 + i, i, 0, i)
    case Setting(i) => i < a && Within(t, 2 + i, i, 0, i)
    case Polling(k) => k < p && Within(t, 1 + a + k, a, 1, a + k)
    case _ => Within(t, 1 + a + p, a, 1, a + p)
  }

  // What each input adds to the tally, and that the bounds allow for it.

  lemma LiveTally(cfg: Config, r: Run, a: FlightResult)
    ensures TallyOf(OnLive(cfg, r, a).log) == TallyOf(r.log).(queries := TallyOf(r.log).queries + 1)
  {
    var log := r.log + [Asked(Live, a)];
    TallyAppend(r.log, Asked(Live, a));
    if a.Good() {
      TallyAppend(log, Cached(a.res.value));
    }
  }

  lemma LiveCounts(cfg: Config, r: Run, a: FlightResult, t: Tally)
    requires CountsOk(cfg, r.phase, t) && r.phase.Querying?
    ensures CountsOk(cfg, OnLive(cfg, r, a).phase, t.(queries := t.queries + 1))
  {
  }

  lemma AttemptTally(cfg: Config, r: Run, i: nat, a: FlightResult)
    ensures var t := TallyOf(r.log);
            TallyOf(OnAttempt(cfg, r, i, a).log) ==
            t.(queries := t.queries + 1, sleeps := t.sleeps + if a.err.Some? then 1 else 0)
  {
    var log := r.log + [Asked(Attempt(i), a)];
    TallyAppend(r.log, Asked(Attempt(i), a));
    if a.err.Some? {
      TallyAppend(log, Slept);
    } else if a.res.Some? {
      TallyAppend(log, Cached(a.res.value));
    }
  }

  lemma AttemptCounts(cfg: Config, r: Run, i: nat, a: FlightResult, t: Tally)
    requires CountsOk(cfg, r.phase, t) && r.phase == Attempting(i)
    ensures CountsOk(cfg, OnAttempt(cfg, r, i, a).phase,
                     t.(queries := t.queries + 1, sleeps := t.sleeps + if a.err.Some? then 1 else 0))
  {
  }

  /** The poll is answered that no replica is available. */
  predicate SeesNone(a: FlightResult) {
    a.Good() && a.res.value.availableReplicas == 0
  }

  lemma PollTally(cfg: Config, r: Run, k: nat, a: FlightResult)
    ensures var t := TallyOf(r.log);
            TallyOf(OnPoll(cfg, r, k, a).log) ==
            t.(queries := t.queries + 1, sleeps := t.sleeps + if SeesNone(a) then 1 else 0)
  {
    var log := r.log + [Asked(Poll(k), a)];
    TallyAppend(r.log, Asked(Poll(k), a));
    if SeesNone(a) {
      TallyAppend2(log, Cached(a.res.value), Slept);
    } else if a.Good() {
      TallyAppend(log, Cached(a.res.value));
    }
  }

  lemma PollCounts(cfg: Config, r: Run, k: nat, a: FlightResult, t: Tally)
    requires CountsOk(cfg, r.phase, t) && r.phase == Polling(k)
    ensures CountsOk(cfg, OnPoll(cfg, r, k, a).phase,
                     t.(queries := t.queries + 1, sleeps := t.sleeps + if SeesNone(a) then 1 else 0))
  {
  }

  lemma ReplyTally(cfg: Config, r: Run, err: Option<Error>)
    requires r.phase.Setting?
    ensures var t := TallyOf(r.log);
            TallyOf(OnReply(cfg, r, err).log) ==
            if err.None? then t.(updates := t.updates + 1, successes := t.successes + 1)
            else t.(updates := t.updates + 1, sleeps := t.sleeps + 1)
  {
    var e := Requested(r.phase.i, r.minReplicas, err);
    TallyAppend(r.log, e);
    if err.Some? {
      TallyAppend(r.log + [e], Slept);
    }
  }

  lemma ReplyCounts(cfg: Config, r: Run, err: Option<Error>, t: Tally)
    requires CountsOk(cfg, r.phase, t) && r.phase.Setting?
    ensures CountsOk(cfg, OnReply(cfg, r, err).phase,
                     if err.None? then t.(updates := t.updates + 1, successes := t.successes + 1)
                     else t.(updates := t.updates + 1, sleeps := t.sleeps + 1))
  {
  }

  lemma LiveKeepsCounts(cfg: Config, r: Run, a: FlightResult)
    requires CountsOk(cfg, r.phase, TallyOf(r.log)) && r.phase.Querying?
    ensures CountsOk(cfg, OnLive(cfg, r, a).phase, TallyOf(OnLive(cfg, r, a).log))
  {
    LiveTally(cfg, r, a);
    LiveCounts(cfg, r, a, TallyOf(r.log));
  }

  lemma AttemptKeepsCounts(cfg: Config, r: Run, i: nat, a: FlightResult)
    requires CountsOk(cfg, r.phase, TallyOf(r.log)) && r.phase == Attempting(i)
    ensures CountsOk(cfg, OnAttempt(cfg, r, i, a).phase, TallyOf(OnAttempt(cfg, r, i, a).log))
  {
    AttemptTally(cfg, r, i, a);
    AttemptCounts(cfg, r, i, a, TallyOf(r.log));
  }

  lemma PollKeepsCounts(cfg: Config, r: Run, k: nat, a: FlightResult)
    requires CountsOk(cfg, r.phase, TallyOf(r.log)) && r.phase == Polling(k)
    ensures CountsOk(cfg, OnPoll(cfg, r, k, a).phase, TallyOf(OnPoll(cfg, r, k, a).log))
  {
    PollTally(cfg, r, k, a);
    PollCounts(cfg, r, k, a, TallyOf(r.log));
  }

  lemma ReplyKeepsCounts(cfg: Config, r: Run, err: Option<Error>)
    requires CountsOk(cfg, r.phase, TallyOf(r.log)) && r.phase.Setting?
    ensures CountsOk(cfg, OnReply(cfg, r, err).phase, TallyOf(OnReply(cfg, r, err).log))
  {
    ReplyTally(cfg, r, err);
    ReplyCounts(cfg, r, err, TallyOf(r.log));
  }

  // Why a run requests replicas.

  /** The `j`-th event of a log is a request that the code had a reason to make. */
  predicate Justified(log: seq<Event>, j: nat)
    requires j < |log| && log[j].Requested?
  {
    && 2 <= j
    && log[j - 1].Cached? && log[j - 1].response.replicas == 0
    && log[j - 2] == Asked(Attempt(log[j].i), FlightResult(Some(log[j - 1].response), None))
    && log[0].Asked? && log[0].answer.res.Some?
    && LargerOfOneAnd(log[0].answer.res.value.minReplicas, log[j].count)
  }

  ghost predicate RequestsOk(r: Run) {
    && (forall j: nat :: j < |r.log| && r.log[j].Requested? ==> Justified(r.log, j))
    && (r.phase.Attempting? || r.phase.Setting? ==>
          && r.log != [] && r.log[0].Asked? && r.log[0].answer.res.Some?
          && LargerOfOneAnd(r.log[0].answer.res.value.minReplicas, r.minReplicas))
    && (r.phase.Setting? ==>
          && 2 <= |r.log|
          && r.log[|r.log| - 1].Cached? && r.log[|r.log| - 1].response.replicas == 0
          && r.log[|r.log| - 2] ==
             Asked(Attempt(r.phase.i), FlightResult(Some(r.log[|r.log| - 1].response), None)))
    && (r.phase.Querying? ==> r.log == [])
  }

  /** Events that are no requests keep the others justified. */
  lemma JustifiedStays(log: seq<Event>, more: seq<Event>)
    requires forall j: nat :: j < |log| && log[j].Requested? ==> Justified(log, j)
    requires forall j :: 0 <= j < |more| ==> !more[j].Requested?
    ensures forall j: nat :: j < |log + more| && (log + more)[j].Requested? ==> Justified(log + more, j)
  {
    forall j: nat | j < |log + more| && (log + more)[j].Requested? ensures Justified(log + more, j) {
      assert j < |log|;
      assert Justified(log, j);
    }
  }

  lemma LiveKeepsRequests(cfg: Config, r: Run, a: FlightResult)
    requires RequestsOk(r) && r.phase.Querying?
    ensures RequestsOk(OnLive(cfg, r, a))
  {
  }

  lemma AttemptKeepsRequests(cfg: Config, r: Run, i: nat, a: FlightResult)
    requires RequestsOk(r) && r.phase == Attempting(i)
    ensures RequestsOk(OnAttempt(cfg, r, i, a))
  {
    var r' := OnAttempt(cfg, r, i, a);
    JustifiedStays(r.log, r'.log[|r.log|..]);
    assert r'.log == r.log + r'.log[|r.log|..];
  }

  lemma PollKeepsRequests(cfg: Config, r: Run, k: nat, a: FlightResult)
    requires RequestsOk(r) && r.phase == Polling(k)
    ensures RequestsOk(OnPoll(cfg, r, k, a))
  {
    var r' := OnPoll(cfg, r, k, a);
    JustifiedStays(r.log, r'.log[|r.log|..]);
    assert r'.log == r.log + r'.log[|r.log|..];
  }

  lemma ReplyKeepsRequests(cfg: Config, r: Run, err: Option<Error>)
    requires RequestsOk(r) && r.phase.Setting?
    ensures RequestsOk(OnReply(cfg, r, err))
  {
    var r', e := OnReply(cfg, r, err), Requested(r.phase.i, r.minReplicas, err);
    RequestJustified(r, e);
    JustifiedStays(r.log + [e], r'.log[|r.log| + 1..]);
    assert r'.log == (r.log + [e]) + r'.log[|r.log| + 1..];
  }

  lemma RequestJustified(r: Run, e: Event)
    requires RequestsOk(r) && r.phase.Setting? && e.Requested? && e.i == r.phase.i && e.count == r.minReplicas
    ensures forall j: nat :: j < |r.log| + 1 && (r.log + [e])[j].Requested? ==> Justified(r.log + [e], j)
  {
    forall j: nat | j < |r.log| + 1 && (r.log + [e])[j].Requested? ensures Justified(r.log + [e], j) {
      assert j < |r.log| ==> Justified(r.log, j);
    }
  }

  /**
   However the provider answers, one run makes at most `1 + SetScaleRetries + MaxPollCount`
   queries and `SetScaleRetries` updates, at most one update succeeds, and it sleeps at most
   `SetScaleRetries + MaxPollCount` times; each update comes right after the same attempt was
   answered that no replica is desired, and is for the larger one of 1 and the minimum of the
   first live answer.
   */
  lemma {:induction false} RunIsBounded(cfg: Config, cached: ServiceQueryResponse, hit: bool, inputs: seq<Input>)
    requires Possible(cfg, Start(cached, hit), inputs)
    ensures var a, p := Attempts(cfg), Polls(cfg);
            var log := After(cfg, Start(cached, hit), inputs).log;
            && Within(TallyOf(log), 1 + a + p, a, 1, a + p)
            && forall j: nat :: j < |log| && log[j].Requested? ==> Justified(log, j)
  {
    BoundsKept(cfg, Start(cached, hit), inputs);
  }

  lemma {:induction false} BoundsKept(cfg: Config, r: Run, inputs: seq<Input>)
    requires CountsOk(cfg, r.phase, TallyOf(r.log)) && RequestsOk(r) && Possible(cfg, r, inputs)
    ensures CountsOk(cfg, After(cfg, r, inputs).phase, TallyOf(After(cfg, r, inputs).log))
    ensures RequestsOk(After(cfg, r, inputs))
    decreases |inputs|
  {
    if inputs != [] {
      match inputs[0] {
        case Reply(err) =>
          ReplyKeepsCounts(cfg, r, err);
          ReplyKeepsRequests(cfg, r, err);
        case Answer(a) =>
          match r.phase
          case Querying =>
            LiveKeepsCounts(cfg, r, a);
            LiveKeepsRequests(cfg, r, a);
          case Attempting(i) =>
            AttemptKeepsCounts(cfg, r, i, a);
            AttemptKeepsRequests(cfg, r, i, a);
          case Polling(k) =>
            PollKeepsCounts(cfg, r, k, a);
            PollKeepsRequests(cfg, r, k, a);
      }
      BoundsKept(cfg, OnInput(cfg, r, inputs[0]), inputs[1..]);
    }
  }

  // What a run caches.

  /** A cached response is the answer before it; an answer without error is cached next, or ends the run. */
  predicate CachedRightly(log: seq<Event>, j: nat)
    requires j < |log|
  {
    && (log[j].Cached? ==>
          1 <= j && log[j - 1].Asked? && log[j - 1].answer == FlightResult(Some(log[j].response), None))
    && (log[j].Asked? && log[j].answer.Good() && (log[j].site.Live? ==> log[j].answer.res.value.availableReplicas == 0) ==>
          j + 1 < |log| && log[j + 1] == Cached(log[j].answer.res.value))
    && (log[j].Asked? && log[j].site.Live? && log[j].answer.Good() && log[j].answer.res.value.availableReplicas > 0 ==>
          j + 1 == |log|)
  }

  ghost predicate CachesOk(r: Run) {
    && (forall j: nat :: j < |r.log| ==> CachedRightly(r.log, j))
    && (forall j: nat :: j < |r.log| && !Over(r) && r.log[j].Asked? && r.log[j].site.Live? ==>
          r.log[j].answer.Good() && r.log[j].answer.res.value.availableReplicas == 0)
  }

  lemma InputKeepsCaches(cfg: Config, r: Run, input: Input)
    requires CachesOk(r) && Accepts(r, input)
    ensures CachesOk(OnInput(cfg, r, input))
  {
    var r' := OnInput(cfg, r, input);
    assert r.log <= r'.log;
    forall j: nat | j < |r'.log| ensures CachedRightly(r'.log, j) {
      if j < |r.log| {
        assert CachedRightly(r.log, j);
      }
    }
  }

  lemma {:induction false} CachesKept(cfg: Config, r: Run, inputs: seq<Input>)
    requires CachesOk(r) && Possible(cfg, r, inputs)
    ensures CachesOk(After(cfg, r, inputs))
    decreases |inputs|
  {
    if inputs != [] {
      InputKeepsCaches(cfg, r, inputs[0]);
      CachesKept(cfg, OnInput(cfg, r, inputs[0]), inputs[1..]);
    }
  }

  /**
   Whatever is cached is an answer that was just given without error, and every such answer is
   cached at once, but for a first one that sees a replica, with which the run ends.
   */
  lemma AnswersAreCached(cfg: Config, cached: ServiceQueryResponse, hit: bool, inputs: seq<Input>)
    requires Possible(cfg, Start(cached, hit), inputs)
    ensures var log := After(cfg, Start(cached, hit), inputs).log;
            forall j: nat :: j < |log| ==> CachedRightly(log, j)
  {
    CachesKept(cfg, Start(cached, hit), inputs);
  }

  // How a run ends.

  datatype Cause =
    | FreshEntry          // a fresh cache entry with an available replica
    | NotFound            // the first query failed
    | LivePositive        // the first query saw an available replica
    | AttemptsFailed      // every attempt to scale up failed
    | PollFailed          // a poll failed
    | PollPositive        // a poll saw an available replica
    | PollsExhausted      // MaxPollCount polls went by

  /** The cause, told from how the log of a finished run ends. */
  function CauseOf(log: seq<Event>): Cause {
    var n := |log|;
    if n == 0 then FreshEntry
    else if n == 1 then
      if log[0].Asked? && log[0].answer.Good() then LivePositive else NotFound
    else
      match log[n - 1]
      case Asked(_, _) => PollFailed
      case Cached(_) => if log[n - 2].Asked? && log[n - 2].site.Poll? then PollPositive else PollsExhausted
      case Requested(_, _, _) => PollsExhausted
      case Slept => if log[n - 2].Cached? then PollsExhausted else AttemptsFailed
  }

  predicate AttemptFailed(log: seq<Event>, i: nat) {
    exists j :: 0 <= j < |log| && FailsAttempt(log[j], i)
  }

  predicate FailsAttempt(e: Event, i: nat) {
    || (e.Asked? && e.site == Attempt(i) && e.answer.err.Some?)
    || (e.Requested? && e.i == i && e.err.Some?)
  }

  predicate PollSawZero(log: seq<Event>, k: nat) {
    exists j :: 0 <= j < |log| && SeesZero(log[j], k)
  }

  predicate SeesZero(e: Event, k: nat) {
    e.Asked? && e.site == Poll(k) && e.answer.Good() && e.answer.res.value.availableReplicas == 0
  }

  /** The error that an event of the log carries. */
  function ErrorOf(e: Event): Option<Error> {
    match e
    case Asked(_, a) => if a.err.None? && a.res.None? then Some("empty response from server") else a.err
    case Requested(_, _, err) => err
    case _ => None
  }

  /** What a finished run returns, by its cause. */
  function ResultOf(log: seq<Event>): ScaleResult {
    match CauseOf(log)
    case NotFound => ScaleResult(false, if log == [] then None else ErrorOf(log[|log| - 1]), false)
    case PollFailed => ScaleResult(false, if log == [] then None else ErrorOf(log[|log| - 1]), true)
    case AttemptsFailed => ScaleResult(false, if |log| < 2 then None else ErrorOf(log[|log| - 2]), true)
    case _ => READY
  }

  /** What the log of a finished run shows of its cause. */
  ghost predicate Evidence(cfg: Config, log: seq<Event>) {
    match CauseOf(log)
    case FreshEntry => log == []
    case NotFound => |log| == 1 && log[0].Asked? && log[0].site == Live && !log[0].answer.Good()
    case LivePositive =>
      && |log| == 1 && log[0].Asked? && log[0].site == Live && log[0].answer.Good()
      && log[0].answer.res.value.availableReplicas > 0
    case AttemptsFailed =>
      && 0 < Attempts(cfg)
      && (forall i: nat :: i < Attempts(cfg) ==> AttemptFailed(log, i))
      && 2 <= |log| && FailsAttempt(log[|log| - 2], Attempts(cfg) - 1)
    case PollFailed =>
      log != [] && var e := log[|log| - 1]; e.Asked? && e.site.Poll? && e.answer.err.Some?
    case PollPositive =>
      && 2 <= |log| && var e := log[|log| - 2];
         e.Asked? && e.site.Poll? && e.answer.Good() && e.answer.res.value.availableReplicas > 0
    case PollsExhausted => forall k: nat :: k < Polls(cfg) ==> PollSawZero(log, k)
  }

  ghost predicate Progress(cfg: Config, r: Run) {
    match r.phase
    case Querying => r.log == []
    case Attempting(i) => 2 <= |r.log| && i < Attempts(cfg) && forall j: nat :: j < i ==> AttemptFailed(r.log, j)
    case Setting(i) => 2 <= |r.log| && i < Attempts(cfg) && forall j: nat :: j < i ==> AttemptFailed(r.log, j)
    case Polling(k) => 2 <= |r.log| && k < Polls(cfg) && forall j: nat :: j < k ==> PollSawZero(r.log, j)
    case Finished(result) => Evidence(cfg, r.log) && result == ResultOf(r.log)
    case Panicked => true
  }

  lemma EvidenceStays(log: seq<Event>, more: seq<Event>)
    ensures forall i: nat :: AttemptFailed(log, i) ==> AttemptFailed(log + more, i)
    ensures forall k: nat :: PollSawZero(log, k) ==> PollSawZero(log + more, k)
  {
    forall i: nat | AttemptFailed(log, i) ensures AttemptFailed(log + more, i) {
      var j :| 0 <= j < |log| && FailsAttempt(log[j], i);
      assert (log + more)[j] == log[j];
    }
    forall k: nat | PollSawZero(log, k) ensures PollSawZero(log + more, k) {
      var j :| 0 <= j < |log| && SeesZero(log[j], k);
      assert (log + more)[j] == log[j];
    }
  }

  lemma LiveProgress(cfg: Config, r: Run, a: FlightResult)
    requires Progress(cfg, r) && r.phase.Querying?
    ensures Progress(cfg, OnLive(cfg, r, a))
  {
  }

  lemma AttemptProgress(cfg: Config, r: Run, i: nat, a: FlightResult)
    requires Progress(cfg, r) && r.phase == Attempting(i)
    ensures Progress(cfg, OnAttempt(cfg, r, i, a))
  {
    var e := Asked(Attempt(i), a);
    var r' := OnAttempt(cfg, r, i, a);
    EvidenceStays(r.log, r'.log[|r.log|..]);
    assert r'.log == r.log + r'.log[|r.log|..];
    assert r'.log[|r.log|] == e;
    assert a.err.Some? ==> FailsAttempt(e, i) && AttemptFailed(r'.log, i);
  }

  lemma ReplyProgress(cfg: Config, r: Run, err: Option<Error>)
    requires Progress(cfg, r) && r.phase.Setting?
    ensures Progress(cfg, OnReply(cfg, r, err))
  {
    var i := r.phase.i;
    var e := Requested(i, r.minReplicas, err);
    var r' := OnReply(cfg, r, err);
    EvidenceStays(r.log, r'.log[|r.log|..]);
    assert r'.log == r.log + r'.log[|r.log|..];
    assert r'.log[|r.log|] == e;
    assert err.Some? ==> FailsAttempt(e, i) && AttemptFailed(r'.log, i);
  }

  lemma PollProgress(cfg: Config, r: Run, k: nat, a: FlightResult)
    requires Progress(cfg, r) && r.phase == Polling(k)
    ensures Progress(cfg, OnPoll(cfg, r, k, a))
  {
    var e := Asked(Poll(k), a);
    var r' := OnPoll(cfg, r, k, a);
    EvidenceStays(r.log, r'.log[|r.log|..]);
    assert r'.log == r.log + r'.log[|r.log|..];
    assert r'.log[|r.log|] == e;
    assert a.Good() && a.res.value.availableReplicas == 0 ==> SeesZero(e, k) && PollSawZero(r'.log, k);
  }

  lemma {:induction false} ProgressKept(cfg: Config, r: Run, inputs: seq<Input>)
    requires Progress(cfg, r) && Possible(cfg, r, inputs)
    ensures Progress(cfg, After(cfg, r, inputs))
    decreases |inputs|
  {
    if inputs != [] {
      match inputs[0] {
        case Reply(err) => ReplyProgress(cfg, r, err);
        case Answer(a) =>
          match r.phase
          case Querying => LiveProgress(cfg, r, a);
          case Attempting(i) => AttemptProgress(cfg, r, i, a);
          case Polling(k) => PollProgress(cfg, r, k, a);
      }
      ProgressKept(cfg, OnInput(cfg, r, inputs[0]), inputs[1..]);
    }
  }

  lemma LogGrows(cfg: Config, r: Run, inputs: seq<Input>)
    requires Possible(cfg, r, inputs)
    ensures r.log <= After(cfg, r, inputs).log
    ensures inputs != [] ==> r.log != After(cfg, r, inputs).log
    decreases |inputs|
  {
    if inputs != [] {
      LogGrows(cfg, OnInput(cfg, r, inputs[0]), inputs[1..]);
    }
  }

  /**
   However the provider answers, a run that ends returns what the one cause it ends with
   prescribes, and its log shows that cause. Found is false exactly when the first live query
   failed; found with an error means that every attempt or a poll failed; without an error the
   function is reported available, and then a fresh positive entry, a positive answer to the
   first query or to a poll, or `MaxPollCount` polls that all saw no replica are the reason.
   */
  lemma EndIsClassified(cfg: Config, cached: ServiceQueryResponse, hit: bool, inputs: seq<Input>)
    requires Possible(cfg, Start(cached, hit), inputs)
    requires After(cfg, Start(cached, hit), inputs).phase.Finished?
    ensures var r := After(cfg, Start(cached, hit), inputs);
            var cause := CauseOf(r.log);
            && Evidence(cfg, r.log)
            && r.phase.result == ResultOf(r.log)
            && (cause == FreshEntry <==> hit && cached.availableReplicas > 0)
            && (!r.phase.result.found <==> cause == NotFound)
            && (r.phase.result.found && r.phase.result.err.Some? <==> cause == AttemptsFailed || cause == PollFailed)
            && (r.phase.result.err.None? <==> r.phase.result == READY)
            && (r.phase.result == READY <==> cause in {FreshEntry, LivePositive, PollPositive, PollsExhausted})
  {
    var r := After(cfg, Start(cached, hit), inputs);
    ProgressKept(cfg, Start(cached, hit), inputs);
    LogGrows(cfg, Start(cached, hit), inputs);
  }

  /** `GetReplicas` returns a struct, so that a flight of it never yields nil, not even with an error. */
  predicate ByValue(inputs: seq<Input>) {
    forall j :: 0 <= j < |inputs| && inputs[j].Answer? ==> inputs[j].answer.res.Some?
  }

  /** No type assertion of `Scale` fails on the answers of a provider that returns structs. */
  lemma {:induction false} StructAnswersNeverPanic(cfg: Config, r: Run, inputs: seq<Input>)
    requires !r.phase.Panicked? && Possible(cfg, r, inputs) && ByValue(inputs)
    ensures !After(cfg, r, inputs).phase.Panicked?
    decreases |inputs|
  {
    if inputs != [] {
      assert inputs[0].Answer? ==> inputs[0].answer.res.Some?;
      assert forall j :: 0 <= j < |inputs[1..]| ==> inputs[1..][j] == inputs[j + 1];
      StructAnswersNeverPanic(cfg, OnInput(cfg, r, inputs[0]), inputs[1..]);
    }
  }

  /** Exactly these answers panic: nil without an error in an attempt, and any nil in a poll. */
  lemma NilAnswersPanic(cfg: Config, r: Run, a: FlightResult)
    requires Asking(r)
    ensures OnAnswer(cfg, r, a).phase.Panicked? <==>
            a.res.None? && (r.phase.Polling? || (r.phase.Attempting? && a.err.None?))
  {
  }
}
