/** `FunctionScaler.Scale` (gateway/scaling/function_scaler.go), as one request runs it. */
module FunctionScalers {

  import opened Wrappers
  import opened Service
  import opened ServiceName
  import opened FunctionCaches
  import opened Providers
  import opened ScaleRuns
  import opened Retries

  /** The machine, fed by the oracles of a provider from its n-th request on, until it ends. */
  function Drive(cfg: Config, answers: (nat, Pair) -> FlightResult,
                 replies: (nat, Pair, uint64) -> Option<Error>, pair: Pair, r: Run, n: nat): (end: Run)
    ensures Over(end)
    decreases Rank(cfg, r)
  {
    if Over(r) then r
    else if r.phase.Setting? then
      var err := replies(n, pair, r.minReplicas);
      InputReducesRank(cfg, r, Reply(err));
      Drive(cfg, answers, replies, pair, OnReply(cfg, r, err), n + 1)
    else
      InputReducesRank(cfg, r, Answer(answers(n, pair)));
      Drive(cfg, answers, replies, pair, OnAnswer(cfg, r, answers(n, pair)), n + 1)
  }

  /** The inputs that a driven run meets; `Drive` is one of the traces of the machine. */
  function InputsOf(cfg: Config, answers: (nat, Pair) -> FlightResult,
                    replies: (nat, Pair, uint64) -> Option<Error>, pair: Pair, r: Run, n: nat): seq<Input>
    decreases Rank(cfg, r)
  {
    if Over(r) then []
    else if r.phase.Setting? then
      var err := replies(n, pair, r.minReplicas);
      InputReducesRank(cfg, r, Reply(err));
      [Reply(err)] + InputsOf(cfg, answers, replies, pair, OnReply(cfg, r, err), n + 1)
    else
      InputReducesRank(cfg, r, Answer(answers(n, pair)));
      [Answer(answers(n, pair))] + InputsOf(cfg, answers, replies, pair, OnAnswer(cfg, r, answers(n, pair)), n + 1)
  }

  /** So every theorem about the traces of the machine holds of what `Scale` does. */
  lemma {:induction false} DriveIsATrace(cfg: Config, answers: (nat, Pair) -> FlightResult,
                                         replies: (nat, Pair, uint64) -> Option<Error>, pair: Pair, r: Run, n: nat)
    ensures var inputs := InputsOf(cfg, answers, replies, pair, r, n);
            Possible(cfg, r, inputs) && After(cfg, r, inputs) == Drive(cfg, answers, replies, pair, r, n)
    decreases Rank(cfg, r)
  {
    if !Over(r) {
      var input := if r.phase.Setting? then Reply(replies(n, pair, r.minReplicas)) else Answer(answers(n, pair));
      var r' := OnInput(cfg, r, input);
      InputReducesRank(cfg, r, input);
      DriveIsATrace(cfg, answers, replies, pair, r', n + 1);
      var inputs := InputsOf(cfg, answers, replies, pair, r, n);
      assert inputs == [input] + InputsOf(cfg, answers, replies, pair, r', n + 1);
      assert inputs[1..] == InputsOf(cfg, answers, replies, pair, r', n + 1);
    }
  }

  /** What one request works on: its function, the clock it reads, and what it found there. */
  datatype Context = Context(pair: Pair, clock: nat -> int, requests: seq<Request>, history: seq<SetEvent>)

  /** What a run has done to the provider's log, the cache's history and the number of pauses. */
  datatype Effects = Effects(requests: seq<Request>, history: seq<SetEvent>, sleeps: nat)

  /** The effects with one more event; the clock shows `clock(n)` after n provider requests. */
  function Plus(c: Context, fx: Effects, e: Event): Effects {
    match e
    case Asked(_, _) => fx.(requests := fx.requests + [Query(c.pair)])
    case Cached(response) => fx.(history := fx.history + [SetEvent(c.pair, c.clock(|fx.requests|), response)])
    case Requested(_, count, _) => fx.(requests := fx.requests + [Update(c.pair, count)])
    case Slept => fx.(sleeps := fx.sleeps + 1)
  }

  function EffectsOf(c: Context, log: seq<Event>): Effects {
    if log == [] then Effects(c.requests, c.history, 0)
    else Plus(c, EffectsOf(c, log[..|log| - 1]), log[|log| - 1])
  }

  lemma EffectsAppend(c: Context, log: seq<Event>, e: Event)
    ensures EffectsOf(c, log + [e]) == Plus(c, EffectsOf(c, log), e)
  {
    assert (log + [e])[..|log|] == log;
  }

  /** All requests of a run are for the function it works on. */
  predicate OnlyFor(c: Context, requests: seq<Request>) {
    forall k :: |c.requests| <= k < |requests| ==> requests[k].pair == c.pair
  }

  /** Pauses and queries are counted alike by the effects of a log and by its tally. */
  lemma {:induction false} EffectsTally(c: Context, log: seq<Event>)
    ensures EffectsOf(c, log).sleeps == TallyOf(log).sleeps
    ensures |EffectsOf(c, log).requests| == |c.requests| + TallyOf(log).queries + TallyOf(log).updates
    ensures c.requests <= EffectsOf(c, log).requests
    ensures c.history <= EffectsOf(c, log).history
    ensures OnlyFor(c, EffectsOf(c, log).requests)
  {
    if log != [] {
      EffectsTally(c, log[..|log| - 1]);
    }
  }

  /** The log has an update of this count. */
  predicate HasUpdate(log: seq<Event>, count: uint64) {
    exists j :: 0 <= j < |log| && log[j].Requested? && log[j].count == count
  }

  predicate HasCached(log: seq<Event>, response: ServiceQueryResponse) {
    exists j :: 0 <= j < |log| && log[j] == Cached(response)
  }

  /** The updates of a run are events of its log, and so is what it caches, for the function it works on. */
  lemma {:induction false} EffectsAreEvents(c: Context, log: seq<Event>)
    ensures var fx := EffectsOf(c, log);
            && (forall k :: |c.requests| <= k < |fx.requests| && fx.requests[k].Update? ==> HasUpdate(log, fx.requests[k].count))
            && (forall k :: |c.history| <= k < |fx.history| ==>
                  fx.history[k].pair == c.pair && HasCached(log, fx.history[k].response))
  {
    if log != [] {
      var init := log[..|log| - 1];
      EffectsAreEvents(c, init);
      EffectsTally(c, init);
      HasMore(init, log[|log| - 1]);
      assert log == init + [log[|log| - 1]];
    }
  }

  lemma HasMore(log: seq<Event>, e: Event)
    ensures forall count :: HasUpdate(log, count) || (e.Requested? && e.count == count) ==> HasUpdate(log + [e], count)
    ensures forall response :: HasCached(log, response) || e == Cached(response) ==> HasCached(log + [e], response)
  {
    assert (log + [e])[|log|] == e;
    forall count | HasUpdate(log, count) ensures HasUpdate(log + [e], count) {
      var j :| 0 <= j < |log| && log[j].Requested? && log[j].count == count;
      assert (log + [e])[j] == log[j];
    }
    forall response | HasCached(log, response) ensures HasCached(log + [e], response) {
      var j :| 0 <= j < |log| && log[j] == Cached(response);
      assert (log + [e])[j] == log[j];
    }
  }

  /** A log after a query from `site`, whose good answer is cached. */
  function Observed(log: seq<Event>, site: Site, answer: FlightResult): seq<Event> {
    if answer.Good() then log + [Asked(site, answer)] + [Cached(answer.res.value)] else log + [Asked(site, answer)]
  }

  /** What one attempt does to a run in which the n-th request is still to be made, and the next request. */
  function Attempted(cfg: Config, answers: (nat, Pair) -> FlightResult, replies: (nat, Pair, uint64) -> Option<Error>,
                     pair: Pair, r: Run, i: nat, n: nat): (Run, nat)
  {
    var r1 := OnAttempt(cfg, r, i, answers(n, pair));
    if r1.phase == Setting(i) then (OnReply(cfg, r1, replies(n + 1, pair, r1.minReplicas)), n + 2)
    else (r1, n + 1)
  }

  /** Attempts `i`, `i + 1`, ... of a run whose next request is the n-th; the run after them and the next request. */
  function RetryLoop(cfg: Config, answers: (nat, Pair) -> FlightResult, replies: (nat, Pair, uint64) -> Option<Error>,
                     pair: Pair, r: Run, i: nat, n: nat): (Run, nat)
    decreases Attempts(cfg) - i
  {
    if r.phase != Attempting(i) || i >= Attempts(cfg) then (r, n)
    else
      var (r', n') := Attempted(cfg, answers, replies, pair, r, i, n);
      RetryLoop(cfg, answers, replies, pair, r', i + 1, n')
  }

  /** Polls `k`, `k + 1`, ... of a run whose next request is the n-th. */
  function PollLoop(cfg: Config, answers: (nat, Pair) -> FlightResult, pair: Pair, r: Run, k: nat, n: nat): Run
    decreases Polls(cfg) - k
  {
    if r.phase != Polling(k) || k >= Polls(cfg) then r
    else PollLoop(cfg, answers, pair, OnPoll(cfg, r, k, answers(n, pair)), k + 1, n + 1)
  }

  lemma DriveAsks(cfg: Config, answers: (nat, Pair) -> FlightResult, replies: (nat, Pair, uint64) -> Option<Error>,
                  pair: Pair, r: Run, n: nat)
    requires Asking(r)
    ensures Drive(cfg, answers, replies, pair, r, n)
         == Drive(cfg, answers, replies, pair, OnAnswer(cfg, r, answers(n, pair)), n + 1)
  {
    InputReducesRank(cfg, r, Answer(answers(n, pair)));
  }

  lemma AttemptDrives(cfg: Config, answers: (nat, Pair) -> FlightResult, replies: (nat, Pair, uint64) -> Option<Error>,
                      pair: Pair, r: Run, i: nat, n: nat)
    requires r.phase == Attempting(i)
    ensures var (r', n') := Attempted(cfg, answers, replies, pair, r, i, n);
            Drive(cfg, answers, replies, pair, r, n) == Drive(cfg, answers, replies, pair, r', n')
  {
    var r1 := OnAttempt(cfg, r, i, answers(n, pair));
    DriveAsks(cfg, answers, replies, pair, r, n);
    if r1.phase == Setting(i) {
      InputReducesRank(cfg, r1, Reply(replies(n + 1, pair, r1.minReplicas)));
    }
  }

  lemma {:induction false} RetryLoopDrives(cfg: Config, answers: (nat, Pair) -> FlightResult,
                                           replies: (nat, Pair, uint64) -> Option<Error>, pair: Pair, r: Run, i: nat, n: nat)
    ensures var (r', n') := RetryLoop(cfg, answers, replies, pair, r, i, n);
            Drive(cfg, answers, replies, pair, r, n) == Drive(cfg, answers, replies, pair, r', n')
    decreases Attempts(cfg) - i
  {
    if r.phase == Attempting(i) && i < Attempts(cfg) {
      AttemptDrives(cfg, answers, replies, pair, r, i, n);
      var (r', n') := Attempted(cfg, answers, replies, pair, r, i, n);
      RetryLoopDrives(cfg, answers, replies, pair, r', i + 1, n');
    }
  }

  lemma {:induction false} PollLoopDrives(cfg: Config, answers: (nat, Pair) -> FlightResult,
                                          replies: (nat, Pair, uint64) -> Option<Error>, pair: Pair, r: Run, k: nat, n: nat)
    requires r.phase == EnterPoll(cfg, k) || Over(r)
    ensures Drive(cfg, answers, replies, pair, r, n) == PollLoop(cfg, answers, pair, r, k, n)
    decreases Polls(cfg) - k
  {
    if r.phase == Polling(k) {
      DriveAsks(cfg, answers, replies, pair, r, n);
      PollLoopDrives(cfg, answers, replies, pair, OnPoll(cfg, r, k, answers(n, pair)), k + 1, n + 1);
    }
  }

  /** What a poll that is answered so returns, or `None` when there is to be another round. */
  function OutcomeOfPoll(a: FlightResult): Option<Outcome> {
    if a.res.None? then Some(Panics)
    else if a.err.Some? then Some(Returned(ScaleResult(false, a.err, true)))
    else if a.res.value.availableReplicas > 0 then Some(Returned(READY))
    else None
  }

  lemma PollShows(cfg: Config, r: Run, k: nat, a: FlightResult)
    ensures var r', log := OnPoll(cfg, r, k, a), Observed(r.log, Poll(k), a);
            match OutcomeOfPoll(a)
            case Some(o) => Over(r') && o == OutcomeOf(r'.phase) && r'.log == log
            case None => r'.phase == EnterPoll(cfg, k + 1) && r'.log == log + [Slept]
  {
  }

  /** The k-th poll leads from one run of a sequence to the next. */
  predicate PollLink(cfg: Config, answers: (nat, Pair) -> FlightResult, pair: Pair, runs: seq<Run>, k: nat, n: nat)
    requires k + 1 < |runs|
  {
    k < Polls(cfg) && runs[k].phase == Polling(k) && runs[k + 1] == OnPoll(cfg, runs[k], k, answers(n + k, pair))
  }

  /** The runs before and after each poll, of which the first one is the n-th request. */
  ghost predicate PollsLinked(cfg: Config, answers: (nat, Pair) -> FlightResult, pair: Pair, runs: seq<Run>, n: nat) {
    runs != [] && forall k: nat :: k + 1 < |runs| ==> PollLink(cfg, answers, pair, runs, k, n)
  }

  lemma PollLinked(cfg: Config, answers: (nat, Pair) -> FlightResult, pair: Pair, runs: seq<Run>, n: nat)
    returns (runs': seq<Run>)
    requires PollsLinked(cfg, answers, pair, runs, n)
    requires var k := |runs| - 1; k < Polls(cfg) && runs[k].phase == Polling(k)
    ensures var k := |runs| - 1;
            runs' == runs + [OnPoll(cfg, runs[k], k, answers(n + k, pair))] && PollsLinked(cfg, answers, pair, runs', n)
  {
    var m := |runs| - 1;
    runs' := runs + [OnPoll(cfg, runs[m], m, answers(n + m, pair))];
    forall k: nat | k + 1 < |runs'| ensures PollLink(cfg, answers, pair, runs', k, n) {
      assert k < m ==> PollLink(cfg, answers, pair, runs, k, n);
    }
  }

  /** Where there is no next poll, the runs have gone through the whole loop. */
  lemma {:induction false} LinkedIsPollLoop(cfg: Config, answers: (nat, Pair) -> FlightResult, pair: Pair, runs: seq<Run>, n: nat, k: nat)
    requires PollsLinked(cfg, answers, pair, runs, n) && k < |runs|
    requires var m := |runs| - 1; m >= Polls(cfg) || runs[m].phase != Polling(m)
    ensures PollLoop(cfg, answers, pair, runs[k], k, n + k) == runs[|runs| - 1]
    decreases |runs| - k
  {
    if k + 1 < |runs| {
      assert PollLink(cfg, answers, pair, runs, k, n);
      LinkedIsPollLoop(cfg, answers, pair, runs, n, k + 1);
    }
  }

  /** How an attempt that has been run shows: its error, whether it panicked, and its log without the pause. */
  predicate Shows(cfg: Config, r': Run, i: nat, log: seq<Event>, err: Option<Error>, panicked: bool) {
    && (panicked ==> err.None?)
    && (r'.phase.Panicked? <==> panicked)
    && (!panicked ==> r'.phase == if err.None? then EnterPoll(cfg, 0) else AfterFailure(cfg, i, err.value))
    && r'.log == if err.Some? then log + [Slept] else log
  }

  lemma AttemptShows(cfg: Config, answers: (nat, Pair) -> FlightResult, replies: (nat, Pair, uint64) -> Option<Error>,
                     pair: Pair, r: Run, i: nat, n: nat)
    requires r.phase == Attempting(i)
    ensures var (r', n') := Attempted(cfg, answers, replies, pair, r, i, n);
            var answer := answers(n, pair);
            var log := Observed(r.log, Attempt(i), answer);
            && r'.minReplicas == r.minReplicas
            && if answer.err.Some? then n' == n + 1 && Shows(cfg, r', i, log, answer.err, false)
               else if answer.res.None? then n' == n + 1 && Shows(cfg, r', i, log, None, true)
               else if answer.res.value.replicas > 0 then n' == n + 1 && Shows(cfg, r', i, log, None, false)
               else
                 var err := replies(n + 1, pair, r.minReplicas);
                 n' == n + 2 && Shows(cfg, r', i, log + [Requested(i, r.minReplicas, err)], err, false)
  {
  }

  /** The k-th attempt leads from one run of a sequence, with its next request, to the next. */
  predicate AttemptLink(cfg: Config, answers: (nat, Pair) -> FlightResult, replies: (nat, Pair, uint64) -> Option<Error>,
                        pair: Pair, runs: seq<(Run, nat)>, k: nat)
    requires k + 1 < |runs|
  {
    && k < Attempts(cfg) && runs[k].0.phase == Attempting(k)
    && runs[k + 1] == Attempted(cfg, answers, replies, pair, runs[k].0, k, runs[k].1)
  }

  /** The runs before and after each attempt. */
  ghost predicate AttemptsLinked(cfg: Config, answers: (nat, Pair) -> FlightResult, replies: (nat, Pair, uint64) -> Option<Error>,
                                 pair: Pair, runs: seq<(Run, nat)>)
  {
    runs != [] && forall k: nat :: k + 1 < |runs| ==> AttemptLink(cfg, answers, replies, pair, runs, k)
  }

  lemma AttemptLinked(cfg: Config, answers: (nat, Pair) -> FlightResult, replies: (nat, Pair, uint64) -> Option<Error>,
                      pair: Pair, runs: seq<(Run, nat)>, next: (Run, nat))
    requires AttemptsLinked(cfg, answers, replies, pair, runs)
    requires var k := |runs| - 1;
             && k < Attempts(cfg) && runs[k].0.phase == Attempting(k)
             && next == Attempted(cfg, answers, replies, pair, runs[k].0, k, runs[k].1)
    ensures AttemptsLinked(cfg, answers, replies, pair, runs + [next])
  {
    forall k: nat | k + 1 < |runs + [next]| ensures AttemptLink(cfg, answers, replies, pair, runs + [next], k) {
      assert k + 1 < |runs| ==> AttemptLink(cfg, answers, replies, pair, runs, k);
    }
  }

  /** Where there is no next attempt, the runs have gone through the whole loop. */
  lemma {:induction false} LinkedIsRetryLoop(cfg: Config, answers: (nat, Pair) -> FlightResult,
                                             replies: (nat, Pair, uint64) -> Option<Error>, pair: Pair, runs: seq<(Run, nat)>, k: nat)
    requires AttemptsLinked(cfg, answers, replies, pair, runs) && k < |runs|
    requires var m := |runs| - 1; m >= Attempts(cfg) || runs[m].0.phase != Attempting(m)
    ensures RetryLoop(cfg, answers, replies, pair, runs[k].0, k, runs[k].1) == runs[|runs| - 1]
    decreases |runs| - k
  {
    if k + 1 < |runs| {
      assert AttemptLink(cfg, answers, replies, pair, runs, k);
      LinkedIsRetryLoop(cfg, answers, replies, pair, runs, k + 1);
    }
  }

  /** The error that the routine handed to `Retry` returns on an attempt. */
  function AttemptError(answers: (nat, Pair) -> FlightResult, replies: (nat, Pair, uint64) -> Option<Error>,
                        pair: Pair, r: Run, n: nat): Option<Error>
  {
    var answer := answers(n, pair);
    if answer.err.Some? || answer.res.None? || answer.res.value.replicas > 0 then answer.err
    else replies(n + 1, pair, r.minReplicas)
  }

  /** What the routine returns on the attempts that `RetryLoop` makes. */
  function Returns(cfg: Config, answers: (nat, Pair) -> FlightResult, replies: (nat, Pair, uint64) -> Option<Error>,
                   pair: Pair, r: Run, i: nat, n: nat): seq<Option<Error>>
    decreases Attempts(cfg) - i
  {
    if r.phase != Attempting(i) || i >= Attempts(cfg) then []
    else
      var (r', n') := Attempted(cfg, answers, replies, pair, r, i, n);
      [AttemptError(answers, replies, pair, r, n)] + Returns(cfg, answers, replies, pair, r', i + 1, n')
  }

  /** Attempts that return this, one after the other as `Retry` makes them, lead from `r` to `end`. */
  predicate LeadsAsRetried(cfg: Config, r: Run, end: Run, returned: seq<Option<Error>>, attempts: int) {
    var err := if returned == [] then None else returned[|returned| - 1];
    var sleeps := TallyOf(end.log).sleeps - TallyOf(r.log).sleeps;
    && 0 <= sleeps && Retried(returned, attempts, err, sleeps)
    && end.phase == if err.None? then EnterPoll(cfg, 0) else Finished(ScaleResult(false, err, true))
  }

  /** The attempts of a run that does not panic are those of `Retry`, and lead where its error does. */
  lemma RetryLoopIsRetry(cfg: Config, answers: (nat, Pair) -> FlightResult,
                         replies: (nat, Pair, uint64) -> Option<Error>, pair: Pair, r: Run, n: nat)
    requires r.phase == EnterAttempts(cfg)
    ensures var end := RetryLoop(cfg, answers, replies, pair, r, 0, n).0;
            !end.phase.Panicked? ==>
              LeadsAsRetried(cfg, r, end, Returns(cfg, answers, replies, pair, r, 0, n), AsInt(cfg.setScaleRetries))
  {
    if 0 < Attempts(cfg) {
      RetriesFrom(cfg, answers, replies, pair, r, 0, n);
    }
  }

  lemma {:induction false} RetriesFrom(cfg: Config, answers: (nat, Pair) -> FlightResult,
                                       replies: (nat, Pair, uint64) -> Option<Error>, pair: Pair, r: Run, i: nat, n: nat)
    requires r.phase == Attempting(i) && i < Attempts(cfg)
    ensures var end := RetryLoop(cfg, answers, replies, pair, r, i, n).0;
            !end.phase.Panicked? ==>
              LeadsAsRetried(cfg, r, end, Returns(cfg, answers, replies, pair, r, i, n), Attempts(cfg) - i)
    decreases Attempts(cfg) - i
  {
    var (r', n') := Attempted(cfg, answers, replies, pair, r, i, n);
    var err := AttemptError(answers, replies, pair, r, n);
    var end := RetryLoop(cfg, answers, replies, pair, r', i + 1, n').0;
    var rest := Returns(cfg, answers, replies, pair, r', i + 1, n');
    AttemptReturns(cfg, answers, replies, pair, r, i, n);
    if r'.phase == Attempting(i + 1) {
      RetriesFrom(cfg, answers, replies, pair, r', i + 1, n');
      if !end.phase.Panicked? {
        LeadsAgain(cfg, r, r', end, err, rest, i);
      }
    } else if !r'.phase.Panicked? {
      LeadsOnce(cfg, r, r', err, i);
      assert [err] + rest == [err];
    }
  }

  lemma LeadsAgain(cfg: Config, r: Run, r': Run, end: Run, err: Option<Error>, rest: seq<Option<Error>>, i: nat)
    requires r'.phase == Attempting(i + 1) && i + 1 < Attempts(cfg) && err.Some?
    requires TallyOf(r'.log).sleeps == TallyOf(r.log).sleeps + 1
    requires LeadsAsRetried(cfg, r', end, rest, Attempts(cfg) - (i + 1))
    ensures LeadsAsRetried(cfg, r, end, [err] + rest, Attempts(cfg) - i)
  {
    RetriedAgain(err, rest, Attempts(cfg) - i, rest[|rest| - 1], TallyOf(end.log).sleeps - TallyOf(r'.log).sleeps);
  }

  lemma LeadsOnce(cfg: Config, r: Run, r': Run, err: Option<Error>, i: nat)
    requires i < Attempts(cfg) && r'.phase != Attempting(i + 1)
    requires r'.phase == if err.None? then EnterPoll(cfg, 0) else AfterFailure(cfg, i, err.value)
    requires TallyOf(r'.log).sleeps == TallyOf(r.log).sleeps + if err.Some? then 1 else 0
    ensures LeadsAsRetried(cfg, r, r', [err], Attempts(cfg) - i)
  {
    RetriedOnce(err, Attempts(cfg) - i);
  }

  /** One attempt: its error decides how the run goes on, and is followed by a pause. */
  lemma AttemptReturns(cfg: Config, answers: (nat, Pair) -> FlightResult,
                       replies: (nat, Pair, uint64) -> Option<Error>, pair: Pair, r: Run, i: nat, n: nat)
    requires r.phase == Attempting(i)
    ensures var r' := Attempted(cfg, answers, replies, pair, r, i, n).0;
            var err := AttemptError(answers, replies, pair, r, n);
            !r'.phase.Panicked? ==>
              && r'.phase == (if err.None? then EnterPoll(cfg, 0) else AfterFailure(cfg, i, err.value))
              && TallyOf(r'.log).sleeps == TallyOf(r.log).sleeps + if err.Some? then 1 else 0
  {
    AttemptShows(cfg, answers, replies, pair, r, i, n);
    var answer := answers(n, pair);
    var log := Observed(r.log, Attempt(i), answer);
    ObservingTakesNoPause(r.log, Attempt(i), answer);
    if answer.Good() && answer.res.value.replicas == 0 {
      var e := Requested(i, r.minReplicas, replies(n + 1, pair, r.minReplicas));
      TallyAppend(log, e);
      TallyAppend(log + [e], Slept);
    } else {
      TallyAppend(log, Slept);
    }
  }

  lemma ObservingTakesNoPause(log: seq<Event>, site: Site, answer: FlightResult)
    ensures TallyOf(Observed(log, site, answer)).sleeps == TallyOf(log).sleeps
  {
    TallyAppend(log, Asked(site, answer));
    if answer.Good() {
      TallyAppend(log + [Asked(site, answer)], Cached(answer.res.value));
    }
  }

  /** Where a run is once its attempts are over. */
  predicate AfterAttempts(cfg: Config, phase: Phase, err: Option<Error>, panicked: bool) {
    if panicked then phase.Panicked?
    else phase == if err.None? then EnterPoll(cfg, 0) else Finished(ScaleResult(false, err, true))
  }

  /** Where a run is before the i-th attempt, or after the last one. */
  predicate Retrying(cfg: Config, phase: Phase, i: nat, err: Option<Error>) {
    if i < Attempts(cfg) then phase == Attempting(i) else AfterAttempts(cfg, phase, err, false)
  }

  /**
   What a driven run does to its surroundings is bounded: `1 + 2 * SetScaleRetries + MaxPollCount`
   provider requests and `SetScaleRetries + MaxPollCount` pauses, whatever the provider answers.
   Nothing that was logged or stored before is touched.
   */
  lemma DrivenEffectsAreBounded(cfg: Config, answers: (nat, Pair) -> FlightResult,
                                replies: (nat, Pair, uint64) -> Option<Error>, c: Context,
                                cached: ServiceQueryResponse, hit: bool)
    ensures var end := Drive(cfg, answers, replies, c.pair, Start(cached, hit), |c.requests|);
            var fx := EffectsOf(c, end.log);
            && c.requests <= fx.requests && c.history <= fx.history
            && |fx.requests| <= |c.requests| + 1 + 2 * Attempts(cfg) + Polls(cfg)
            && fx.sleeps <= Attempts(cfg) + Polls(cfg)
  {
    var r, n := Start(cached, hit), |c.requests|;
    DriveIsATrace(cfg, answers, replies, c.pair, r, n);
    RunIsBounded(cfg, cached, hit, InputsOf(cfg, answers, replies, c.pair, r, n));
    EffectsTally(c, Drive(cfg, answers, replies, c.pair, r, n).log);
  }

  /** From `before` on, every update is for the larger one of 1 and this minimum. */
  predicate UpdatesAskFor(requests: seq<Request>, before: nat, minReplicas: uint64) {
    forall k :: before <= k < |requests| && requests[k].Update? ==> LargerOfOneAnd(minReplicas, requests[k].count)
  }

  /** What a run requests is settled by the first answer of the provider. */
  lemma DrivenUpdatesAskForMinimum(cfg: Config, answers: (nat, Pair) -> FlightResult,
                                   replies: (nat, Pair, uint64) -> Option<Error>, c: Context,
                                   cached: ServiceQueryResponse, hit: bool)
    ensures var end := Drive(cfg, answers, replies, c.pair, Start(cached, hit), |c.requests|);
            var fx, first := EffectsOf(c, end.log), answers(|c.requests|, c.pair);
            UpdatesAskFor(fx.requests, |c.requests|, if first.res.Some? then first.res.value.minReplicas else 0)
  {
    var r, n := Start(cached, hit), |c.requests|;
    var end := Drive(cfg, answers, replies, c.pair, r, n);
    DriveIsATrace(cfg, answers, replies, c.pair, r, n);
    RunIsBounded(cfg, cached, hit, InputsOf(cfg, answers, replies, c.pair, r, n));
    DriveAsksFirst(cfg, answers, replies, c.pair, cached, hit, n);
    JustifiedUpdates(c, end.log, answers(n, c.pair));
  }

  lemma JustifiedUpdates(c: Context, log: seq<Event>, first: FlightResult)
    requires forall j: nat :: j < |log| && log[j].Requested? ==> Justified(log, j)
    requires log == [] || log[0] == Asked(Live, first)
    ensures UpdatesAskFor(EffectsOf(c, log).requests, |c.requests|, if first.res.Some? then first.res.value.minReplicas else 0)
  {
    var requests := EffectsOf(c, log).requests;
    EffectsAreEvents(c, log);
    forall k | |c.requests| <= k < |requests| && requests[k].Update?
      ensures first.res.Some? && LargerOfOneAnd(first.res.value.minReplicas, requests[k].count)
    {
      assert HasUpdate(log, requests[k].count);
      var j: nat :| j < |log| && log[j].Requested? && log[j].count == requests[k].count;
      assert Justified(log, j);
    }
  }

  /** The log of a driven run starts with the provider's first answer. */
  lemma DriveAsksFirst(cfg: Config, answers: (nat, Pair) -> FlightResult, replies: (nat, Pair, uint64) -> Option<Error>,
                       pair: Pair, cached: ServiceQueryResponse, hit: bool, n: nat)
    ensures var log := Drive(cfg, answers, replies, pair, Start(cached, hit), n).log;
            log == [] || log[0] == Asked(Live, answers(n, pair))
  {
    var r := Start(cached, hit);
    if !Over(r) {
      var r1 := OnLive(cfg, r, answers(n, pair));
      DriveAsks(cfg, answers, replies, pair, r, n);
      DriveIsATrace(cfg, answers, replies, pair, r1, n + 1);
      LogGrows(cfg, r1, InputsOf(cfg, answers, replies, pair, r1, n + 1));
      assert r1.log[0] == Asked(Live, answers(n, pair));
    }
  }

  datatype Outcome = Returned(result: ScaleResult) | Panics

  function OutcomeOf(phase: Phase): Outcome {
    match phase
    case Finished(result) => Returned(result)
    case _ => Panics
  }

  class FunctionScaler {
    const cfg: Config
    const cache: FunctionCache
    const provider: Provider

    constructor (cfg: Config, cache: FunctionCache, provider: Provider)
      ensures this.cfg == cfg && this.cache == cache && this.provider == provider
    {
      this.cfg, this.cache, this.provider := cfg, cache, provider;
    }

    ghost predicate Ready(c: Context, log: seq<Event>, sleeps: nat)
      reads this, provider, cache, cache.Repr
    {
      cache.Valid() && provider !in cache.Repr && Effects(provider.log, cache.history, sleeps) == EffectsOf(c, log)
    }

    /** A flight of `GetReplicas`. */
    method Ask(fn: Pair, ghost site: Site, ghost c: Context, ghost log: seq<Event>, ghost sleeps: nat)
      returns (answer: FlightResult)
      requires c.pair == fn && Ready(c, log, sleeps)
      modifies provider
      ensures answer == provider.answers(|old(provider.log)|, fn)
      ensures Ready(c, log + [Asked(site, answer)], sleeps)
      ensures |provider.log| == |old(provider.log)| + 1
    {
      answer := provider.GetReplicas(fn);
      EffectsAppend(c, log, Asked(site, answer));
    }

    /** A flight of `SetReplicas`. */
    method Request(fn: Pair, i: nat, count: uint64, ghost c: Context, ghost log: seq<Event>, ghost sleeps: nat)
      returns (err: Option<Error>)
      requires c.pair == fn && Ready(c, log, sleeps)
      modifies provider
      ensures err == provider.replies(|old(provider.log)|, fn, count)
      ensures Ready(c, log + [Requested(i, count, err)], sleeps)
      ensures |provider.log| == |old(provider.log)| + 1
    {
      err := provider.SetReplicas(fn, count);
      EffectsAppend(c, log, Requested(i, count, err));
    }

    method Store(fn: Pair, response: ServiceQueryResponse, now: int,
                 ghost c: Context, ghost log: seq<Event>, ghost sleeps: nat)
      requires c.pair == fn && Ready(c, log, sleeps) && now == c.clock(|provider.log|)
      modifies cache.Repr
      ensures fresh(cache.Repr - old(cache.Repr))
      ensures Ready(c, log + [Cached(response)], sleeps)
    {
      cache.Set(fn, response, now);
      EffectsAppend(c, log, Cached(response));
    }

    /** A query whose answer is cached when it is one: lines 104-114 and 156-163. */
    method Observe(fn: Pair, ghost site: Site, clock: nat -> int, ghost c: Context, ghost log: seq<Event>, ghost sleeps: nat)
      returns (answer: FlightResult)
      requires c.pair == fn && c.clock == clock && Ready(c, log, sleeps)
      modifies cache.Repr, provider
      ensures fresh(cache.Repr - old(cache.Repr))
      ensures answer == provider.answers(|old(provider.log)|, fn)
      ensures Ready(c, Observed(log, site, answer), sleeps)
      ensures |provider.log| == |old(provider.log)| + 1
    {
      answer := Ask(fn, site, c, log, sleeps);
      if answer.Good() {
        Store(fn, answer.res.value, clock(|provider.log|), c, log + [Asked(site, answer)], sleeps);
      }
    }

    /**
     The routine handed to `Retry` (lines 102-140): one query, and one update when no replica is
     desired. `log'` leaves out the pause after a failure, which `Retry` makes.
     */
    method TryToScale(fn: Pair, i: nat, minReplicas: uint64, clock: nat -> int,
                      ghost c: Context, ghost r: Run, ghost sleeps: nat)
      returns (err: Option<Error>, panicked: bool, ghost log': seq<Event>, ghost r': Run)
      requires c.pair == fn && c.clock == clock && Ready(c, r.log, sleeps)
      requires r.phase == Attempting(i) && i < Attempts(cfg) && r.minReplicas == minReplicas
      modifies cache.Repr, provider
      ensures fresh(cache.Repr - old(cache.Repr))
      ensures Ready(c, log', sleeps)
      ensures Shows(cfg, r', i, log', err, panicked) && r'.minReplicas == minReplicas
      ensures (r', |provider.log|) == Attempted(cfg, provider.answers, provider.replies, fn, r, i, |old(provider.log)|)
    {
      r' := Attempted(cfg, provider.answers, provider.replies, fn, r, i, |provider.log|).0;
      AttemptShows(cfg, provider.answers, provider.replies, fn, r, i, |provider.log|);
      var answer := Observe(fn, Attempt(i), clock, c, r.log, sleeps);
      log' := Observed(r.log, Attempt(i), answer);
      if answer.err.Some? {
        return answer.err, false, log', r';
      }
      if answer.res.None? {
        return None, true, log', r';
      }
      var queryResponse := answer.res.value;
      if queryResponse.replicas > 0 {
        return None, false, log', r';
      }
      err := Request(fn, i, minReplicas, c, log', sleeps);
      log' := log' + [Requested(i, minReplicas, err)];
      panicked := false;
    }

    /**
     One turn of the loop of `types.Retry`: the routine, and the pause when it failed. `runs` are the
     runs before this attempt and those before it, each with the number of its next request.
     */
    method RetryOnce(fn: Pair, i: nat, minReplicas: uint64, clock: nat -> int,
                     ghost c: Context, ghost runs: seq<(Run, nat)>, ghost sleeps: nat)
      returns (err: Option<Error>, panicked: bool, ghost runs': seq<(Run, nat)>)
      requires |runs| == i + 1 && runs[i].1 == |provider.log|
      requires AttemptsLinked(cfg, provider.answers, provider.replies, fn, runs)
      requires c.pair == fn && c.clock == clock && Ready(c, runs[i].0.log, sleeps)
      requires runs[i].0.phase == Attempting(i) && i < Attempts(cfg) && runs[i].0.minReplicas == minReplicas
      modifies cache.Repr, provider
      ensures fresh(cache.Repr - old(cache.Repr))
      ensures |runs'| == i + 2 && runs'[0] == runs[0] && runs'[i + 1].1 == |provider.log|
      ensures AttemptsLinked(cfg, provider.answers, provider.replies, fn, runs')
      ensures Ready(c, runs'[i + 1].0.log, if err.Some? then sleeps + 1 else sleeps)
      ensures runs'[i + 1].0.minReplicas == minReplicas
      ensures if err.None? then AfterAttempts(cfg, runs'[i + 1].0.phase, err, panicked)
              else !panicked && Retrying(cfg, runs'[i + 1].0.phase, i + 1, err)
    {
      ghost var log', r';
      err, panicked, log', r' := TryToScale(fn, i, minReplicas, clock, c, runs[i].0, sleeps);
      AttemptLinked(cfg, provider.answers, provider.replies, fn, runs, (r', |provider.log|));
      runs' := runs + [(r', |provider.log|)];
      if err.Some? {
        EffectsAppend(c, log', Slept);
      }
    }

    /** `types.Retry` around `TryToScale` (line 102). */
    method RetryToScale(fn: Pair, minReplicas: uint64, clock: nat -> int,
                        ghost c: Context, ghost r: Run, ghost sleeps0: nat)
      returns (err: Option<Error>, panicked: bool, slept: nat, ghost r': Run)
      requires c.pair == fn && c.clock == clock && Ready(c, r.log, sleeps0)
      requires r.phase == EnterAttempts(cfg) && r.minReplicas == minReplicas
      modifies cache.Repr, provider
      ensures fresh(cache.Repr - old(cache.Repr))
      ensures Ready(c, r'.log, sleeps0 + slept)
      ensures (r', |provider.log|) == RetryLoop(cfg, provider.answers, provider.replies, fn, r, 0, |old(provider.log)|)
      ensures AfterAttempts(cfg, r'.phase, err, panicked)
    {
      ghost var runs;
      err, panicked, slept, runs := RetryAll(fn, minReplicas, clock, c, r, sleeps0);
      r' := runs[|runs| - 1].0;
      LinkedIsRetryLoop(cfg, provider.answers, provider.replies, fn, runs, 0);
    }

    /** The loop itself, with the runs before and after each of its attempts. */
    method RetryAll(fn: Pair, minReplicas: uint64, clock: nat -> int, ghost c: Context, ghost r: Run, ghost sleeps0: nat)
      returns (err: Option<Error>, panicked: bool, slept: nat, ghost runs: seq<(Run, nat)>)
      requires c.pair == fn && c.clock == clock && Ready(c, r.log, sleeps0)
      requires r.phase == EnterAttempts(cfg) && r.minReplicas == minReplicas
      modifies cache.Repr, provider
      ensures fresh(cache.Repr - old(cache.Repr))
      ensures AttemptsLinked(cfg, provider.answers, provider.replies, fn, runs) && runs[0] == (r, |old(provider.log)|)
      ensures var (end, n) := runs[|runs| - 1];
              && (|runs| - 1 >= Attempts(cfg) || !end.phase.Attempting?)
              && Ready(c, end.log, sleeps0 + slept) && n == |provider.log|
              && AfterAttempts(cfg, end.phase, err, panicked)
    {
      err, panicked, slept, runs := None, false, 0, [(r, |provider.log|)];
      var i := 0;
      while i < AsInt(cfg.setScaleRetries)
        invariant 0 <= i <= Attempts(cfg)
        invariant fresh(cache.Repr - old(cache.Repr))
        invariant |runs| == i + 1 && runs[0] == (r, |old(provider.log)|) && runs[i].1 == |provider.log|
        invariant Ready(c, runs[i].0.log, sleeps0 + slept)
        invariant AttemptsLinked(cfg, provider.answers, provider.replies, fn, runs)
        invariant runs[i].0.minReplicas == minReplicas && !panicked && Retrying(cfg, runs[i].0.phase, i, err)
      {
        err, panicked, runs := RetryOnce(fn, i, minReplicas, clock, c, runs, sleeps0 + slept);
        if panicked || err.None? {
          return;
        }
        slept := slept + 1;
        i := i + 1;
      }
    }

    /**
     One round of the polling loop (lines 156-188), up to and with its pause; `None` means another
     round. `runs` are the runs before this poll and those before it, `n` is the first poll's request.
     */
    method PollOnce(fn: Pair, i: nat, clock: nat -> int, ghost c: Context, ghost runs: seq<Run>, ghost n: nat, ghost sleeps: nat)
      returns (outcome: Option<Outcome>, ghost runs': seq<Run>)
      requires |runs| == i + 1 && |provider.log| == n + i && PollsLinked(cfg, provider.answers, fn, runs, n)
      requires c.pair == fn && c.clock == clock && Ready(c, runs[i].log, sleeps)
      requires runs[i].phase == Polling(i) && i < Polls(cfg)
      modifies cache.Repr, provider
      ensures fresh(cache.Repr - old(cache.Repr))
      ensures |runs'| == i + 2 && runs'[0] == runs[0] && |provider.log| == n + i + 1
      ensures PollsLinked(cfg, provider.answers, fn, runs', n)
      ensures Ready(c, runs'[i + 1].log, if outcome.None? then sleeps + 1 else sleeps)
      ensures match outcome
              case Some(o) => Over(runs'[i + 1]) && o == OutcomeOf(runs'[i + 1].phase)
              case None => runs'[i + 1].phase == EnterPoll(cfg, i + 1)
    {
      runs' := PollLinked(cfg, provider.answers, fn, runs, n);
      PollShows(cfg, runs[i], i, provider.answers(n + i, fn));
      outcome := Polled(fn, i, clock, c, runs[i].log, sleeps);
    }

    /** A poll, what it returns, and the pause when it returns nothing. */
    method Polled(fn: Pair, i: nat, clock: nat -> int, ghost c: Context, ghost log: seq<Event>, ghost sleeps: nat)
      returns (outcome: Option<Outcome>)
      requires c.pair == fn && c.clock == clock && Ready(c, log, sleeps)
      modifies cache.Repr, provider
      ensures fresh(cache.Repr - old(cache.Repr))
      ensures |provider.log| == |old(provider.log)| + 1
      ensures var answer := provider.answers(|old(provider.log)|, fn);
              && outcome == OutcomeOfPoll(answer)
              && if outcome.None? then Ready(c, Observed(log, Poll(i), answer) + [Slept], sleeps + 1)
                 else Ready(c, Observed(log, Poll(i), answer), sleeps)
    {
      var answer := Observe(fn, Poll(i), clock, c, log, sleeps);
      outcome := OnePoll(answer);
      if outcome.None? {
        EffectsAppend(c, Observed(log, Poll(i), answer), Slept);
      }
    }

    /** The branches of a round, once it has its answer (lines 159-186). */
    method OnePoll(answer: FlightResult) returns (outcome: Option<Outcome>)
      ensures outcome == OutcomeOfPoll(answer)
    {
      if answer.res.None? {
        return Some(Panics);
      }
      if answer.err.Some? {
        return Some(Returned(ScaleResult(false, answer.err, true)));
      }
      if answer.res.value.availableReplicas > 0 {
        return Some(Returned(READY));
      }
      return None;
    }

    /** The polling loop (lines 154-196). */
    method Hold(fn: Pair, clock: nat -> int, ghost c: Context, ghost r: Run, ghost sleeps0: nat)
      returns (outcome: Outcome, slept: nat, ghost r': Run)
      requires c.pair == fn && c.clock == clock && Ready(c, r.log, sleeps0)
      requires r.phase == EnterPoll(cfg, 0)
      modifies cache.Repr, provider
      ensures fresh(cache.Repr - old(cache.Repr))
      ensures Ready(c, r'.log, sleeps0 + slept)
      ensures r' == PollLoop(cfg, provider.answers, fn, r, 0, |old(provider.log)|)
      ensures outcome == OutcomeOf(r'.phase)
    {
      ghost var runs;
      outcome, slept, runs := PollAll(fn, clock, c, r, sleeps0);
      r' := runs[|runs| - 1];
      LinkedIsPollLoop(cfg, provider.answers, fn, runs, |old(provider.log)|, 0);
    }

    /** The loop itself, with the runs before and after each of its polls. */
    method PollAll(fn: Pair, clock: nat -> int, ghost c: Context, ghost r: Run, ghost sleeps0: nat)
      returns (outcome: Outcome, slept: nat, ghost runs: seq<Run>)
      requires c.pair == fn && c.clock == clock && Ready(c, r.log, sleeps0)
      requires r.phase == EnterPoll(cfg, 0)
      modifies cache.Repr, provider
      ensures fresh(cache.Repr - old(cache.Repr))
      ensures PollsLinked(cfg, provider.answers, fn, runs, |old(provider.log)|) && runs[0] == r
      ensures var end := runs[|runs| - 1];
              && (|runs| - 1 >= Polls(cfg) || Over(end))
              && Ready(c, end.log, sleeps0 + slept) && outcome == OutcomeOf(end.phase)
    {
      slept, runs := 0, [r];
      ghost var n := |provider.log|;
      var i := 0;
      while i < AsInt(cfg.maxPollCount)
        invariant 0 <= i <= Polls(cfg)
        invariant fresh(cache.Repr - old(cache.Repr))
        invariant |runs| == i + 1 && runs[0] == r && |provider.log| == n + i
        invariant Ready(c, runs[i].log, sleeps0 + slept)
        invariant PollsLinked(cfg, provider.answers, fn, runs, n)
        invariant runs[i].phase == EnterPoll(cfg, i)
      {
        var ended;
        ended, runs := PollOnce(fn, i, clock, c, runs, n, sleeps0 + slept);
        if ended.Some? {
          return ended.value, slept, runs;
        }
        slept := slept + 1;
        i := i + 1;
      }
      outcome := Returned(READY);
    }

    /** The rest of `Scale`, once the function is known and no replica is available (lines 88-196). */
    method ScaleUp(fn: Pair, queryResponse: ServiceQueryResponse, clock: nat -> int, ghost c: Context, ghost r: Run)
      returns (outcome: Outcome, slept: nat, ghost r': Run)
      requires c.pair == fn && c.clock == clock && Ready(c, r.log, 0)
      requires r.phase == (if queryResponse.replicas == 0 then EnterAttempts(cfg) else EnterPoll(cfg, 0))
      requires r.minReplicas == Target(queryResponse.minReplicas)
      modifies cache.Repr, provider
      ensures fresh(cache.Repr - old(cache.Repr))
      ensures Ready(c, r'.log, slept)
      ensures outcome == OutcomeOf(r'.phase)
      ensures r' == Drive(cfg, provider.answers, provider.replies, fn, r, |old(provider.log)|)
    {
      slept, r' := 0, r;
      if queryResponse.replicas == 0 {
        var minReplicas := 1;
        if queryResponse.minReplicas > 0 {
          minReplicas := queryResponse.minReplicas;
        }
        var err, panicked;
        err, panicked, slept, r' := RetryToScale(fn, minReplicas, clock, c, r, 0);
        RetryLoopDrives(cfg, provider.answers, provider.replies, fn, r, 0, |old(provider.log)|);
        if panicked {
          return Panics, slept, r';
        }
        if err.Some? {
          return Returned(ScaleResult(false, err, true)), slept, r';
        }
      }
      PollLoopDrives(cfg, provider.answers, provider.replies, fn, r', 0, |provider.log|);
      var polled;
      outcome, polled, r' := Hold(fn, clock, c, r', slept);
      slept := slept + polled;
    }

    /** The first live query (lines 54-90); `None` means that no replica is available yet. */
    method QueryLive(fn: Pair, clock: nat -> int, ghost c: Context, ghost r: Run)
      returns (outcome: Option<Outcome>, response: ServiceQueryResponse, ghost r': Run)
      requires c.pair == fn && c.clock == clock && Ready(c, r.log, 0)
      modifies cache.Repr, provider
      ensures fresh(cache.Repr - old(cache.Repr))
      ensures Ready(c, r'.log, 0)
      ensures |provider.log| == |old(provider.log)| + 1
      ensures r' == OnLive(cfg, r, provider.answers(|old(provider.log)|, fn))
      ensures match outcome
              case Some(o) => Over(r') && o == OutcomeOf(r'.phase)
              case None =>
                && r'.phase == (if response.replicas == 0 then EnterAttempts(cfg) else EnterPoll(cfg, 0))
                && r'.minReplicas == Target(response.minReplicas)
    {
      var live := Ask(fn, Live, c, r.log, 0);
      r' := OnLive(cfg, r, live);
      response := EMPTY_RESPONSE;
      if live.err.Some? {
        return Some(Returned(ScaleResult(false, live.err, false))), response, r';
      }
      if live.res.None? {
        return Some(Returned(ScaleResult(false, Some(EMPTY_RESPONSE_ERROR), false))), response, r';
      }
      response := live.res.value;
      if response.availableReplicas > 0 {
        return Some(Returned(READY)), response, r';
      }
      Store(fn, response, clock(|provider.log|), c, r.log + [Asked(Live, live)], 0);
      outcome := None;
    }

    /** `Scale` after the cache did not do (lines 54-196). */
    method ScaleLive(fn: Pair, clock: nat -> int, ghost c: Context, ghost r: Run)
      returns (outcome: Outcome, slept: nat, ghost r': Run)
      requires c.pair == fn && c.clock == clock && Ready(c, r.log, 0) && r.phase.Querying?
      modifies cache.Repr, provider
      ensures fresh(cache.Repr - old(cache.Repr))
      ensures Ready(c, r'.log, slept)
      ensures outcome == OutcomeOf(r'.phase)
      ensures r' == Drive(cfg, provider.answers, provider.replies, fn, r, |old(provider.log)|)
    {
      DriveAsks(cfg, provider.answers, provider.replies, fn, r, |provider.log|);
      var ended, queryResponse;
      ended, queryResponse, r' := QueryLive(fn, clock, c, r);
      if ended.Some? {
        return ended.value, 0, r';
      }
      outcome, slept, r' := ScaleUp(fn, queryResponse, clock, c, r');
    }

    /**
     `Scale`, when the clock shows `clock(n)` after `n` requests to the provider: its result, the
     requests it makes, what it stores in the cache and when, and its pauses are those of the
     machine driven by the provider's answers, and every update that it makes is for the larger one
     of 1 and the minimum that it is first answered.
     */
    method Scale(fn: Pair, clock: nat -> int) returns (outcome: Outcome, slept: nat)
      requires cache.Valid() && provider !in cache.Repr
      modifies cache.Repr, provider
      ensures cache.Valid() && provider !in cache.Repr && fresh(cache.Repr - old(cache.Repr))
      ensures var c := Context(fn, clock, old(provider.log), old(cache.history));
              var (cached, hit) := Lookup(Replay(c.history), CacheKey(fn), cache.expiry, clock(|c.requests|));
              var end := Drive(cfg, provider.answers, provider.replies, fn, Start(cached, hit), |c.requests|);
              && outcome == OutcomeOf(end.phase)
              && Effects(provider.log, cache.history, slept) == EffectsOf(c, end.log)
      ensures var n := |old(provider.log)|;
              var first := provider.answers(n, fn);
              UpdatesAskFor(provider.log, n, if first.res.Some? then first.res.value.minReplicas else 0)
    {
      ghost var c := Context(fn, clock, provider.log, cache.history);
      var cachedResponse, hit := cache.Get(fn, clock(|provider.log|));
      ghost var r := Start(cachedResponse, hit);
      DrivenUpdatesAskForMinimum(cfg, provider.answers, provider.replies, c, cachedResponse, hit);
      if hit && cachedResponse.availableReplicas > 0 {
        return Returned(READY), 0;
      }
      outcome, slept, r := ScaleLive(fn, clock, c, r);
    }
  }
}
