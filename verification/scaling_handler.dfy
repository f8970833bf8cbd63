/** The HTTP handler around `Scale` (gateway/handlers/scaling.go). */
module ScalingHandler {

  import opened Wrappers
  import opened Service
  import opened ServiceName
  import opened Resolver
  import opened FunctionCaches
  import opened Providers
  import opened ScaleRuns
  import opened FunctionScalers

  const STATUS_NOT_FOUND := 404
  const STATUS_INTERNAL_SERVER_ERROR := 500

  datatype Effect = CalledNext | Wrote(status: int)

  class ResponseWriter {
    var effects: seq<Effect>

    constructor ()
      ensures effects == []
    {
      effects := [];
    }
  }

  /** What the handler does with a result of `Scale`; `None` is the call of `Error()` on a nil error. */
  function Reaction(res: ScaleResult): Option<seq<Effect>> {
    if !res.found then (if res.err.Some? then Some([Wrote(STATUS_NOT_FOUND)]) else None)
    else if res.err.Some? then Some([Wrote(STATUS_INTERNAL_SERVER_ERROR)])
    else if res.available then Some([CalledNext])
    else Some([])
  }

  /**
   On every result that `Scale` can return the handler does exactly one thing: it calls `next`
   when the function is reported available, writes 404 when the first live query failed, and 500
   when an attempt or a poll did. It neither reads a nil error nor falls through to the end.
   */
  lemma OneReaction(cfg: Config, cached: ServiceQueryResponse, hit: bool, inputs: seq<Input>)
    requires Possible(cfg, Start(cached, hit), inputs)
    requires After(cfg, Start(cached, hit), inputs).phase.Finished?
    ensures var r := After(cfg, Start(cached, hit), inputs);
            var reaction := Reaction(r.phase.result);
            && reaction in {Some([CalledNext]), Some([Wrote(STATUS_NOT_FOUND)]), Some([Wrote(STATUS_INTERNAL_SERVER_ERROR)])}
            && (reaction == Some([Wrote(STATUS_NOT_FOUND)]) <==> CauseOf(r.log) == NotFound)
            && (reaction == Some([Wrote(STATUS_INTERNAL_SERVER_ERROR)]) <==> CauseOf(r.log) in {AttemptsFailed, PollFailed})
  {
    EndIsClassified(cfg, cached, hit, inputs);
    assert [CalledNext] != [Wrote(STATUS_NOT_FOUND)] && [CalledNext] != [Wrote(STATUS_INTERNAL_SERVER_ERROR)];
    assert [Wrote(STATUS_NOT_FOUND)][0] != [Wrote(STATUS_INTERNAL_SERVER_ERROR)][0];
  }

  lemma InputsByValue(cfg: Config, answers: (nat, Pair) -> FlightResult,
                      replies: (nat, Pair, uint64) -> Option<Error>, pair: Pair, r: Run, n: nat)
    requires forall k, p :: answers(k, p).res.Some?
    ensures ByValue(InputsOf(cfg, answers, replies, pair, r, n))
    decreases Rank(cfg, r)
  {
    if !Over(r) {
      var input := if r.phase.Setting? then Reply(replies(n, pair, r.minReplicas)) else Answer(answers(n, pair));
      InputReducesRank(cfg, r, input);
      InputsByValue(cfg, answers, replies, pair, OnInput(cfg, r, input), n + 1);
    }
  }

  /** The one thing that the handler does for a run that ended by this cause. */
  function EffectOf(cause: Cause): Effect {
    match cause
    case NotFound => Wrote(404)
    case AttemptsFailed => Wrote(500)
    case PollFailed => Wrote(500)
    case _ => CalledNext
  }

  /** What a driven run comes to, for the handler: the reaction that its cause calls for, when answers are structs. */
  lemma DrivenReaction(cfg: Config, provider: Provider, pair: Pair, cached: ServiceQueryResponse, hit: bool, n: nat)
    requires forall k, p :: provider.answers(k, p).res.Some?
    ensures var end := Drive(cfg, provider.answers, provider.replies, pair, Start(cached, hit), n);
            && end.phase.Finished?
            && Reaction(end.phase.result) == Some([EffectOf(CauseOf(end.log))])
  {
    var r := Start(cached, hit);
    var inputs := InputsOf(cfg, provider.answers, provider.replies, pair, r, n);
    DriveIsATrace(cfg, provider.answers, provider.replies, pair, r, n);
    InputsByValue(cfg, provider.answers, provider.replies, pair, r, n);
    StructAnswersNeverPanic(cfg, r, inputs);
    OneReaction(cfg, cached, hit, inputs);
  }

  /** The branches of the handler (lines 30-54). */
  method Respond(w: ResponseWriter, res: ScaleResult) returns (panicked: bool)
    modifies w
    ensures panicked <==> Reaction(res).None?
    ensures w.effects == old(w.effects) + (if panicked then [] else Reaction(res).value)
  {
    panicked := false;
    if !res.found {
      if res.err.None? {
        return true;
      }
      w.effects := w.effects + [Wrote(STATUS_NOT_FOUND)];
      return;
    }
    if res.err.Some? {
      w.effects := w.effects + [Wrote(STATUS_INTERNAL_SERVER_ERROR)];
      return;
    }
    if res.available {
      w.effects := w.effects + [CalledNext];
      return;
    }
  }

  /** From `before` on, all requests are for this function. */
  predicate AllFor(fn: Pair, before: nat, log: seq<Request>) {
    forall k :: before <= k < |log| ==> log[k].pair == fn
  }

  /** How a call of `Scale` for this function ends, from what the provider and the cache show before it. */
  ghost function EndOf(fn: Pair, scaler: FunctionScaler, clock: nat -> int): Run
    reads scaler.provider, scaler.cache
  {
    var n := |scaler.provider.log|;
    var (cached, hit) := Lookup(Replay(scaler.cache.history), CacheKey(fn), scaler.cache.expiry, clock(n));
    Drive(scaler.cfg, scaler.provider.answers, scaler.provider.replies, fn, Start(cached, hit), n)
  }

  /** `Scale`, as far as the handler is concerned: with a provider that returns structs it returns. */
  method ScaleOnce(fn: Pair, scaler: FunctionScaler, clock: nat -> int) returns (outcome: Outcome, ghost end: Run)
    requires scaler.cache.Valid() && scaler.provider !in scaler.cache.Repr
    requires forall k, p :: scaler.provider.answers(k, p).res.Some?
    modifies scaler.cache.Repr, scaler.provider
    ensures scaler.cache.Valid() && fresh(scaler.cache.Repr - old(scaler.cache.Repr))
    ensures end == old(EndOf(fn, scaler, clock))
    ensures outcome.Returned? && Reaction(outcome.result) == Some([EffectOf(CauseOf(end.log))])
    ensures old(scaler.provider.log) <= scaler.provider.log
    ensures AllFor(fn, |old(scaler.provider.log)|, scaler.provider.log)
  {
    ghost var c := Context(fn, clock, scaler.provider.log, scaler.cache.history);
    ghost var n := |c.requests|;
    ghost var (cached, hit) := Lookup(Replay(c.history), CacheKey(fn), scaler.cache.expiry, clock(n));
    end := Drive(scaler.cfg, scaler.provider.answers, scaler.provider.replies, fn, Start(cached, hit), n);
    DrivenReaction(scaler.cfg, scaler.provider, fn, cached, hit, n);
    EffectsTally(c, end.log);
    var slept;
    outcome, slept := scaler.Scale(fn, clock);
  }

  /** The handler, once the function is known (lines 28-54). */
  method Handle(w: ResponseWriter, fn: Pair, scaler: FunctionScaler, clock: nat -> int)
    returns (panicked: bool, ghost end: Run)
    requires scaler.cache.Valid() && scaler.provider !in scaler.cache.Repr
    requires w !in scaler.cache.Repr && w as object != scaler.provider
    requires forall k, p :: scaler.provider.answers(k, p).res.Some?
    modifies w, scaler.cache.Repr, scaler.provider
    ensures scaler.cache.Valid()
    ensures end == old(EndOf(fn, scaler, clock))
    ensures !panicked && w.effects == old(w.effects) + [EffectOf(CauseOf(end.log))]
    ensures old(scaler.provider.log) <= scaler.provider.log
    ensures AllFor(fn, |old(scaler.provider.log)|, scaler.provider.log)
  {
    var outcome;
    outcome, end := ScaleOnce(fn, scaler, clock);
    panicked := Respond(w, outcome.result);
  }

  /**
   The handler: the function named in the URL is scaled, and no other one, and whatever a provider
   that returns structs answers, the request gets exactly one response: 404 when the first query
   failed, 500 when all attempts or a poll did, and `next` otherwise.
   */
  method ServeHTTP(w: ResponseWriter, url: string, scaler: FunctionScaler, defaultNamespace: string, clock: nat -> int)
    returns (panicked: bool, ghost end: Run)
    requires scaler.cache.Valid() && scaler.provider !in scaler.cache.Repr
    requires w !in scaler.cache.Repr && w as object != scaler.provider
    requires forall k, p :: scaler.provider.answers(k, p).res.Some?
    modifies w, scaler.cache.Repr, scaler.provider
    ensures scaler.cache.Valid()
    ensures end == old(EndOf(GetNamespace(defaultNamespace, GetServiceName(url)), scaler, clock))
    ensures !panicked && |w.effects| == |old(w.effects)| + 1 && old(w.effects) <= w.effects
    ensures var effect := w.effects[|w.effects| - 1];
            && effect in {CalledNext, Wrote(404), Wrote(500)}
            && (effect == Wrote(404) <==> CauseOf(end.log) == NotFound)
            && (effect == Wrote(500) <==> CauseOf(end.log) == AttemptsFailed || CauseOf(end.log) == PollFailed)
    ensures old(scaler.provider.log) <= scaler.provider.log
    ensures AllFor(GetNamespace(defaultNamespace, GetServiceName(url)), |old(scaler.provider.log)|, scaler.provider.log)
  {
    var fn := GetNamespace(defaultNamespace, GetServiceName(url));
    panicked, end := Handle(w, fn, scaler, clock);
  }
}
