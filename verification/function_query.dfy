/** The read-through cache of provider answers (gateway/scaling/function_query.go), run by one caller. */
module FunctionQuery {

  import opened Wrappers
  import opened Service
  import opened ServiceName
  import opened FunctionCaches
  import opened Providers

  datatype QueryResult = Value(response: ServiceQueryResponse) | Failed(err: Error)

  function KeyError(pair: Pair): Error {
    "error with cache key: " + CacheKey(pair)
  }

  class CachedFunctionQuery {
    const cache: FunctionCache
    const provider: Provider

    constructor (cache: FunctionCache, provider: Provider)
      ensures this.cache == cache && this.provider == provider
    {
      this.cache, this.provider := cache, provider;
    }

    /**
     `at1`, `at2` and `at3` are what the clock shows at the lookup, the `Set` and the second lookup.
     A hit is returned and no request is made; otherwise one request is made, an error is handed on
     and nothing is cached, and an answer is cached and the cache asked again. `QueriedByPair` says
     what this means for the function that is asked for.
     */
    method Get(pair: Pair, at1: int, at2: int, at3: int) returns (r: QueryResult)
      requires cache.Valid() && provider !in cache.Repr
      modifies cache.Repr, provider
      ensures cache.Valid() && fresh(cache.Repr - old(cache.Repr))
      ensures var answer := provider.answers(|old(provider.log)|, pair);
              && (r, cache.history) == Queried(old(cache.history), cache.expiry, pair, answer, at1, at2, at3)
              && provider.log == old(provider.log) +
                   if Lookup(Replay(old(cache.history)), CacheKey(pair), cache.expiry, at1).1 then [] else [Query(pair)]
    {
      var query, hit := cache.Get(pair, at1);
      if hit {
        return Value(query);
      }
      var answer := provider.GetReplicas(pair);
      if answer.err.Some? {
        return Failed(answer.err.value);
      }
      if answer.res.Some? {
        cache.Set(pair, answer.res.value, at2);
      }
      query, hit := cache.Get(pair, at3);
      if !hit {
        return Failed(KeyError(pair));
      }
      return Value(query);
    }

    method GetAnnotations(pair: Pair, at1: int, at2: int, at3: int)
      returns (annotations: map<string, string>, err: Option<Error>)
      requires cache.Valid() && provider !in cache.Repr
      modifies cache.Repr, provider
      ensures cache.Valid() && fresh(cache.Repr - old(cache.Repr))
      ensures var answer := provider.answers(|old(provider.log)|, pair);
              var (r, h) := Queried(old(cache.history), cache.expiry, pair, answer, at1, at2, at3);
              && cache.history == h
              && (r.Failed? <==> err.Some?)
              && (r.Failed? ==> err == Some(r.err) && annotations == map[])
              && (r.Value? ==> annotations == match r.response.annotations case Some(a) => a case None => map[])
    {
      var r := Get(pair, at1, at2, at3);
      match r
      case Failed(e) => return map[], Some(e);
      case Value(response) =>
        return (match response.annotations case Some(a) => a case None => map[]), None;
    }
  }

  /** The result of `Get` and the history after it, by what the cache says of the key. */
  function Queried(h: seq<SetEvent>, expiry: int, pair: Pair, answer: FlightResult, at1: int, at2: int, at3: int)
    : (QueryResult, seq<SetEvent>)
  {
    var (cached, hit) := Lookup(Replay(h), CacheKey(pair), expiry, at1);
    if hit then (Value(cached), h)
    else if answer.err.Some? then (Failed(answer.err.value), h)
    else
      var h' := if answer.res.Some? then h + [SetEvent(pair, at2, answer.res.value)] else h;
      var (query, again) := Lookup(Replay(h'), CacheKey(pair), expiry, at3);
      (if again then Value(query) else Failed(KeyError(pair)), h')
  }

  /**
   Unless another function with the same key was stored: a fresh entry of the function itself is returned as it is; otherwise
   the provider's error, or its answer unless that expires before it can be read back; and an
   answer that is nil without an error is no answer, so that a clock set back may revive an entry.
   An error is never cached.
   */
  lemma QueriedByPair(h: seq<SetEvent>, expiry: int, pair: Pair, answer: FlightResult, at1: int, at2: int, at3: int)
    requires Unconfused(h, pair)
    ensures var (r, h') := Queried(h, expiry, pair, answer, at1, at2, at3);
            && Unconfused(h', pair)
            && (Fresh(h, pair, expiry, at1) ==> r == Value(LatestSet(h, pair).value.response) && h' == h)
            && (!Fresh(h, pair, expiry, at1) ==>
                  && h' == (if answer.Good() then h + [SetEvent(pair, at2, answer.res.value)] else h)
                  && r == (if answer.err.Some? then Failed(answer.err.value)
                           else if answer.res.Some? && at3 <= at2 + expiry then Value(answer.res.value)
                           else if answer.res.None? && Fresh(h, pair, expiry, at3) then
                             Value(LatestSet(h, pair).value.response)
                           else Failed(KeyError(pair))))
  {
    KeysCollide(pair, pair);
    CacheRefinesHistory(h, pair, expiry, at1);
    CacheRefinesHistory(h, pair, expiry, at3);
    if answer.res.Some? {
      var h' := h + [SetEvent(pair, at2, answer.res.value)];
      CacheRefinesHistory(h', pair, expiry, at3);
      assert h'[..|h|] == h;
    }
  }
}

/**
 Any number of callers of `CachedFunctionQuery.Get` at once. Lookups, `Set`s, the clock and the
 single-flight group of the provider query interleave freely; a provider may answer anything.
 */
module CachedQueryProtocol {

  import opened Wrappers
  import opened Service
  import opened ServiceName
  import opened FunctionCaches
  import opened FunctionQuery
  import F = Flights

  /** What the closure of the caller that starts a flight captures, and the miss that made it call. */
  datatype Job = Job(pair: Pair, missedAt: int, seen: nat)

  datatype Pc =
    | Start                                           // at c.cache.Get, line 45
    | Missed(at: int, seen: nat)                      // at c.singleFlight.Do, line 48
    | Waiting(f: nat)                                 // in Do
    | Answered(f: nat, res: Option<ServiceQueryResponse>)  // at c.cache.Set, line 59
    | Stored(f: nat)                                  // at c.cache.Get, line 68
    | Returned(r: QueryResult, at: int, via: Option<Via>)

  /** The flight that a caller came through, and how many calls of `Set` there were when it returned. */
  datatype Via = Via(f: nat, seen: nat)

  datatype Caller = Caller(pair: Pair, pc: Pc)

  /** A response that the provider gave without error. */
  datatype Answer = Answer(pair: Pair, at: int, response: ServiceQueryResponse)

  datatype State = State(now: int, expiry: int, history: seq<SetEvent>, flights: seq<F.Flight<Job>>,
                         callers: seq<Caller>, answers: seq<Answer>)

  datatype Step =
    | Tick(d: nat)
    | LookUp(i: nat)
    | Join(i: nat)
    | Provide(f: nat, out: FlightResult)
    | Publish(f: nat)
    | Receive(i: nat)
    | Store(i: nat)
    | Reread(i: nat)

  predicate Enabled(s: State, step: Step) {
    match step
    case Tick(_) => true
    case LookUp(i) => i < |s.callers| && s.callers[i].pc.Start?
    case Join(i) => i < |s.callers| && s.callers[i].pc.Missed?
    case Provide(f, _) => f < |s.flights| && s.flights[f].stage.Running?
    case Publish(f) => f < |s.flights| && s.flights[f].stage.Ran?
    case Receive(i) =>
      && i < |s.callers| && s.callers[i].pc.Waiting? && s.callers[i].pc.f < |s.flights|
      && s.flights[s.callers[i].pc.f].stage.Published?
    case Store(i) => i < |s.callers| && s.callers[i].pc.Answered?
    case Reread(i) => i < |s.callers| && s.callers[i].pc.Stored?
  }

  function Goto(s: State, i: nat, pc: Pc): State
    requires i < |s.callers|
  {
    s.(callers := s.callers[i := s.callers[i].(pc := pc)])
  }

  function CacheGet(s: State, pair: Pair): (ServiceQueryResponse, bool) {
    Lookup(Replay(s.history), CacheKey(pair), s.expiry, s.now)
  }

  function Apply(s: State, step: Step): State
    requires Enabled(s, step)
  {
    match step
    case Tick(d) => s.(now := s.now + d)
    case LookUp(i) =>
      var (query, hit) := CacheGet(s, s.callers[i].pair);
      Goto(s, i, if hit then Returned(Value(query), s.now, None) else Missed(s.now, |s.history|))
    case Join(i) =>
      var pair := s.callers[i].pair;
      var (flights, f) := F.Join(s.flights, GetKey(pair), Job(pair, s.callers[i].pc.at, s.callers[i].pc.seen));
      Goto(s, i, Waiting(f)).(flights := flights)
    case Provide(f, out) =>
      var answer := Answer(s.flights[f].job.pair, s.now, if out.Good() then out.res.value else EMPTY_RESPONSE);
      s.(flights := F.Run(s.flights, f, out), answers := if out.Good() then s.answers + [answer] else s.answers)
    case Publish(f) => s.(flights := F.Publish(s.flights, f))
    case Receive(i) =>
      var f := s.callers[i].pc.f;
      var out := s.flights[f].stage.out;
      Goto(s, i, if out.err.Some? then Returned(Failed(out.err.value), s.now, Some(Via(f, |s.history|)))
                 else Answered(f, out.res))
    case Store(i) =>
      (match s.callers[i].pc.res
       case Some(response) =>
         Goto(s, i, Stored(s.callers[i].pc.f)).(history := s.history + [SetEvent(s.callers[i].pair, s.now, response)])
       case None => Goto(s, i, Stored(s.callers[i].pc.f)))
    case Reread(i) =>
      var (query, hit) := CacheGet(s, s.callers[i].pair);
      Goto(s, i, Returned(if hit then Value(query) else Failed(KeyError(s.callers[i].pair)), s.now,
                          Some(Via(s.callers[i].pc.f, |s.history|))))
  }

  function Init(pairs: seq<Pair>, expiry: int, now: int): State {
    State(now, expiry, [], [], seq(|pairs|, i requires 0 <= i < |pairs| => Caller(pairs[i], Start)), [])
  }

  predicate Possible(s: State, steps: seq<Step>)
    decreases |steps|
  {
    steps == [] || (Enabled(s, steps[0]) && Possible(Apply(s, steps[0]), steps[1..]))
  }

  function After(s: State, steps: seq<Step>): State
    requires Possible(s, steps)
    decreases |steps|
  {
    if steps == [] then s else After(Apply(s, steps[0]), steps[1..])
  }

  /** The provider gave this response for this very function, no later than `until`. */
  ghost predicate Provided(answers: seq<Answer>, pair: Pair, response: ServiceQueryResponse, until: int) {
    exists a :: a in answers && a.pair == pair && a.response == response && a.at <= until
  }

  /** A `Set` of this response for this pair is at most `expiry` old at `at`. */
  ghost predicate SetRecently(history: seq<SetEvent>, pair: Pair, response: ServiceQueryResponse, expiry: int, at: int) {
    exists e :: e in history && e.pair == pair && e.response == response && e.at <= at <= e.at + expiry
  }

  ghost predicate EventOk(s: State, known: iset<Pair>, e: SetEvent) {
    e.pair in known && e.at <= s.now && Provided(s.answers, e.pair, e.response, e.at)
  }

  ghost predicate MissOk(s: State, pair: Pair, at: int, seen: nat) {
    seen <= |s.history| && !Fresh(s.history[..seen], pair, s.expiry, at)
  }

  ghost predicate FlightOk(s: State, known: iset<Pair>, f: nat)
    requires f < |s.flights|
  {
    var flight := s.flights[f];
    && flight.key == GetKey(flight.job.pair)
    && flight.job.pair in known
    && MissOk(s, flight.job.pair, flight.job.missedAt, flight.job.seen)
    && (!flight.stage.Running? && flight.stage.out.Good() ==>
          Provided(s.answers, flight.job.pair, flight.stage.out.res.value, s.now))
  }

  ghost predicate CallerOk(s: State, known: iset<Pair>, i: nat)
    requires i < |s.callers|
  {
    var Caller(pair, pc) := s.callers[i];
    && pair in known
    && match pc
       case Missed(at, seen) => MissOk(s, pair, at, seen)
       case Waiting(f) => f < |s.flights| && s.flights[f].key == GetKey(pair)
       case Answered(f, res) => Came(s, pair, f, FlightResult(res, None)) && (res.Some? ==> Provided(s.answers, pair, res.value, s.now))
       case Stored(f) => CameWell(s, pair, f)
       case Returned(r, at, via) =>
         && (r.Value? ==> at <= s.now && SetRecently(s.history, pair, r.response, s.expiry, at))
         && (via.None? ==> r.Value?)
         && (via.Some? ==> ViaOk(s, pair, r, at, via.value))
       case _ => true
  }

  /** This is how the flight of a caller came out. */
  predicate Came(s: State, pair: Pair, f: nat, out: FlightResult) {
    f < |s.flights| && s.flights[f].key == GetKey(pair) && s.flights[f].stage == F.Published(out)
  }

  predicate CameWell(s: State, pair: Pair, f: nat) {
    f < |s.flights| && s.flights[f].stage.Published? && Came(s, pair, f, FlightResult(s.flights[f].stage.out.res, None))
  }

  /**
   What a caller has returned by its flight: the flight's error, if it had one; otherwise a value, or
   the key error, and then nothing fresh was cached for its pair.
   */
  ghost predicate ViaOk(s: State, pair: Pair, r: QueryResult, at: int, via: Via) {
    && via.f < |s.flights| && s.flights[via.f].key == GetKey(pair) && s.flights[via.f].stage.Published?
    && var err := s.flights[via.f].stage.out.err;
       if err.Some? then r == Failed(err.value)
       else r.Value? || (r == Failed("error with cache key: " + pair.name + "." + pair.namespace) && MissOk(s, pair, at, via.seen))
  }

  ghost predicate Inv(s: State, known: iset<Pair>) {
    && (forall e :: e in s.history ==> EventOk(s, known, e))
    && (forall f: nat :: f < |s.flights| ==> FlightOk(s, known, f))
    && (forall i: nat :: i < |s.callers| ==> CallerOk(s, known, i))
    && F.AtMostOneLive(s.flights)
    && KeysApart(known)
  }

  lemma ProvidedStays(answers: seq<Answer>, more: seq<Answer>, pair: Pair, response: ServiceQueryResponse, until: int, later: int)
    requires Provided(answers, pair, response, until) && until <= later
    ensures Provided(answers + more, pair, response, later)
  {
    var a :| a in answers && a.pair == pair && a.response == response && a.at <= until;
    assert a in answers + more;
  }

  /** A caller that the cache answers gets the value of a `Set` for its pair that has not expired. */
  lemma HitIsRecent(s: State, known: iset<Pair>, pair: Pair)
    requires Inv(s, known) && pair in known
    ensures var (query, hit) := CacheGet(s, pair);
            && (hit <==> Fresh(s.history, pair, s.expiry, s.now))
            && (hit ==> SetRecently(s.history, pair, query, s.expiry, s.now))
  {
    assert forall e :: e in s.history ==> EventOk(s, known, e);
    CacheRefinesHistory(s.history, pair, s.expiry, s.now);
    var latest := LatestSet(s.history, pair);
    if latest.Some? {
      assert EventOk(s, known, latest.value);
    }
  }

  /** Nothing that was set, flown or answered is forgotten by a step, and the clock does not go back. */
  ghost predicate Grows(s: State, s': State) {
    && s.now <= s'.now && s'.expiry == s.expiry
    && s.history <= s'.history && s.answers <= s'.answers
    && |s'.callers| == |s.callers|
    && (forall i: nat :: i < |s.callers| ==> s'.callers[i].pair == s.callers[i].pair)
    && |s.flights| <= |s'.flights|
    && (forall f: nat :: f < |s.flights| ==>
          && s'.flights[f].key == s.flights[f].key && s'.flights[f].job == s.flights[f].job
          && (s.flights[f].stage.Published? ==> s'.flights[f] == s.flights[f]))
  }

  lemma StepGrows(s: State, step: Step)
    requires Enabled(s, step)
    ensures Grows(s, Apply(s, step))
  {
  }

  lemma EventsKept(s: State, known: iset<Pair>, step: Step, e: SetEvent)
    requires Inv(s, known) && Enabled(s, step) && e in Apply(s, step).history
    ensures EventOk(Apply(s, step), known, e)
  {
    var s' := Apply(s, step);
    StepGrows(s, step);
    var more := s'.answers[|s.answers|..];
    assert s'.answers == s.answers + more;
    if e in s.history {
      assert EventOk(s, known, e);
      ProvidedStays(s.answers, more, e.pair, e.response, e.at, e.at);
    } else {
      assert CallerOk(s, known, step.i);
      ProvidedStays(s.answers, more, e.pair, e.response, s.now, e.at);
    }
  }

  lemma MissKept(s: State, s': State, pair: Pair, at: int, seen: nat)
    requires Grows(s, s') && MissOk(s, pair, at, seen)
    ensures MissOk(s', pair, at, seen)
  {
    assert s'.history[..seen] == s.history[..seen];
  }

  lemma FlightKept(s: State, known: iset<Pair>, step: Step, f: nat)
    requires Inv(s, known) && Enabled(s, step) && f < |Apply(s, step).flights|
    ensures FlightOk(Apply(s, step), known, f)
  {
    var s' := Apply(s, step);
    StepGrows(s, step);
    var more := s'.answers[|s.answers|..];
    assert s'.answers == s.answers + more;
    if f < |s.flights| {
      assert FlightOk(s, known, f);
      var job := s.flights[f].job;
      MissKept(s, s', job.pair, job.missedAt, job.seen);
      if s'.flights[f].stage == s.flights[f].stage || step == Publish(f) {
        if !s'.flights[f].stage.Running? && s'.flights[f].stage.out.Good() {
          ProvidedStays(s.answers, more, job.pair, s'.flights[f].stage.out.res.value, s.now, s'.now);
        }
      } else if step.out.Good() {
        assert s'.answers[|s.answers|] in s'.answers;
      }
    } else {
      assert CallerOk(s, known, step.i);
      MissKept(s, s', s.callers[step.i].pair, s.callers[step.i].pc.at, s.callers[step.i].pc.seen);
    }
  }

  lemma RecentKept(s: State, s': State, pair: Pair, v: ServiceQueryResponse, at: int)
    requires Grows(s, s') && SetRecently(s.history, pair, v, s.expiry, at)
    ensures SetRecently(s'.history, pair, v, s.expiry, at)
  {
    var e :| e in s.history && e.pair == pair && e.response == v && e.at <= at <= e.at + s.expiry;
    assert e in s'.history;
  }

  lemma OtherCallerKept(s: State, known: iset<Pair>, step: Step, i: nat)
    requires Inv(s, known) && Enabled(s, step) && i < |s.callers| && Apply(s, step).callers[i] == s.callers[i]
    ensures CallerOk(Apply(s, step), known, i)
  {
    var s' := Apply(s, step);
    StepGrows(s, step);
    var more := s'.answers[|s.answers|..];
    assert s'.answers == s.answers + more;
    assert CallerOk(s, known, i);
    match s.callers[i].pc
    case Missed(at, seen) => MissKept(s, s', s.callers[i].pair, at, seen);
    case Answered(_, Some(v)) => ProvidedStays(s.answers, more, s.callers[i].pair, v, s.now, s'.now);
    case Returned(r, at, via) =>
      if r.Value? {
        RecentKept(s, s', s.callers[i].pair, r.response, at);
      }
      if via.Some? && MissOk(s, s.callers[i].pair, at, via.value.seen) {
        MissKept(s, s', s.callers[i].pair, at, via.value.seen);
      }
    case _ =>
  }

  lemma KeyErrorText(pair: Pair)
    ensures KeyError(pair) == "error with cache key: " + pair.name + "." + pair.namespace
  {
    assert CacheKey(pair) == pair.name + ("." + pair.namespace);
  }

  lemma MovedCallerKept(s: State, known: iset<Pair>, step: Step, i: nat)
    requires Inv(s, known) && Enabled(s, step) && i < |s.callers| && Apply(s, step).callers[i] != s.callers[i]
    ensures CallerOk(Apply(s, step), known, i)
  {
    assert CallerOk(s, known, i);
    var pair := s.callers[i].pair;
    match step
    case LookUp(_) =>
      HitIsRecent(s, known, pair);
      assert s.history[..|s.history|] == s.history;
    case Reread(_) =>
      HitIsRecent(s, known, pair);
      assert s.history[..|s.history|] == s.history;
      KeyErrorText(pair);
    case Receive(_) =>
      var f := s.callers[i].pc.f;
      assert FlightOk(s, known, f);
      ApartKeys(known, pair, s.flights[f].job.pair);
    case _ =>
  }

  lemma StepKeepsInv(s: State, known: iset<Pair>, step: Step)
    requires Inv(s, known) && Enabled(s, step)
    ensures Inv(Apply(s, step), known)
  {
    var s' := Apply(s, step);
    forall e | e in s'.history ensures EventOk(s', known, e) {
      EventsKept(s, known, step, e);
    }
    forall f: nat | f < |s'.flights| ensures FlightOk(s', known, f) {
      FlightKept(s, known, step, f);
    }
    StepGrows(s, step);
    forall i: nat | i < |s'.callers| ensures CallerOk(s', known, i) {
      if s'.callers[i] == s.callers[i] {
        OtherCallerKept(s, known, step, i);
      } else {
        MovedCallerKept(s, known, step, i);
      }
    }
  }

  lemma {:induction false} RunKeepsInv(s: State, known: iset<Pair>, steps: seq<Step>)
    requires Inv(s, known) && Possible(s, steps)
    ensures Inv(After(s, steps), known) && Grows(s, After(s, steps))
    decreases |steps|
  {
    if steps != [] {
      StepKeepsInv(s, known, steps[0]);
      StepGrows(s, steps[0]);
      RunKeepsInv(Apply(s, steps[0]), known, steps[1..]);
    }
  }

  function Known(pairs: seq<Pair>): iset<Pair> {
    iset p | p in pairs
  }

  /** What a caller has returned without error was provided for its pair, and then `Set` not too long ago. */
  ghost predicate ReturnOk(s: State, i: nat)
    requires i < |s.callers|
  {
    var Caller(pair, pc) := s.callers[i];
    pc.Returned? && pc.r.Value? ==>
      exists e :: && e in s.history && e.pair == pair && e.response == pc.r.response
                  && e.at <= pc.at <= e.at + s.expiry
                  && Provided(s.answers, pair, e.response, e.at)
  }

  /** A caller that found no entry returns its flight's error, or why it has none. */
  ghost predicate FailureOk(s: State, i: nat)
    requires i < |s.callers|
  {
    var Caller(pair, pc) := s.callers[i];
    pc.Returned? ==> if pc.via.None? then pc.r.Value? else ViaOk(s, pair, pc.r, pc.at, pc.via.value)
  }

  ghost predicate Sound(s: State) {
    && (forall i: nat :: i < |s.callers| ==> ReturnOk(s, i) && FailureOk(s, i))
    && (forall e :: e in s.history ==> Provided(s.answers, e.pair, e.response, e.at))
    && (forall f: nat :: f < |s.flights| ==>
          var job := s.flights[f].job;
          job.seen <= |s.history| && !Fresh(s.history[..job.seen], job.pair, s.expiry, job.missedAt))
  }

  lemma InvIsSound(s: State, known: iset<Pair>)
    requires Inv(s, known)
    ensures Sound(s)
  {
    assert forall e :: e in s.history ==> EventOk(s, known, e);
    forall i: nat | i < |s.callers| ensures ReturnOk(s, i) && FailureOk(s, i) {
      assert CallerOk(s, known, i);
      var Caller(pair, pc) := s.callers[i];
      if pc.Returned? && pc.via.Some? {
        assert ViaOk(s, pair, pc.r, pc.at, pc.via.value);
      }
    }
    forall f: nat | f < |s.flights|
      ensures var job := s.flights[f].job;
              job.seen <= |s.history| && !Fresh(s.history[..job.seen], job.pair, s.expiry, job.missedAt)
    {
      assert FlightOk(s, known, f);
    }
  }

  /**
   In every interleaving of callers for functions with different keys: a value returned without
   error was given by the provider for that function and namespace, and was then `Set` for them at
   a time at most `expiry` before it was read; nothing else than such answers is ever cached, so no
   error is; and whoever starts a flight had found no fresh entry for its pair.
   */
  lemma ValuesAreProvidedAndRecent(pairs: seq<Pair>, expiry: int, now: int, steps: seq<Step>)
    requires KeysApart(Known(pairs))
    requires Possible(Init(pairs, expiry, now), steps)
    ensures var s := After(Init(pairs, expiry, now), steps);
            && Sound(s) && s.expiry == expiry && |s.callers| == |pairs|
            && forall i: nat :: i < |pairs| ==> s.callers[i].pair == pairs[i]
  {
    RunKeepsInv(Init(pairs, expiry, now), Known(pairs), steps);
    InvIsSound(After(Init(pairs, expiry, now), steps), Known(pairs));
  }

  ghost predicate AlwaysSound(pairs: seq<Pair>) {
    forall expiry, now, steps ::
      Possible(Init(pairs, expiry, now), steps) ==> Sound(After(Init(pairs, expiry, now), steps))
  }

  /** That holds of every run exactly when no two callers ask for different functions under one key. */
  lemma SoundExactlyWhenKeysApart(pairs: seq<Pair>)
    ensures AlwaysSound(pairs) <==> KeysApart(Known(pairs))
  {
    if KeysApart(Known(pairs)) {
      forall expiry, now, steps | Possible(Init(pairs, expiry, now), steps)
        ensures Sound(After(Init(pairs, expiry, now), steps))
      {
        ValuesAreProvidedAndRecent(pairs, expiry, now, steps);
      }
    } else {
      var p, q :| p in pairs && q in pairs && Shifted(p, q);
      var i: nat :| i < |pairs| && pairs[i] == p;
      var j: nat :| j < |pairs| && pairs[j] == q;
      var steps := SharedKeyLeaks(pairs, i, j);
      assert !ReturnOk(After(Init(pairs, 0, 0), steps), j);
    }
  }

  /** A caller is answered what the provider gave for another function. */
  lemma SharedKeyLeaks(pairs: seq<Pair>, i: nat, j: nat) returns (steps: seq<Step>)
    requires i < |pairs| && j < |pairs| && Shifted(pairs[i], pairs[j])
    ensures Possible(Init(pairs, 0, 0), steps)
    ensures var s := After(Init(pairs, 0, 0), steps);
            && |s.callers| == |pairs|
            && s.callers[j] == Caller(pairs[j], Returned(Value(EMPTY_RESPONSE), 0, None))
            && s.answers == [Answer(pairs[i], 0, EMPTY_RESPONSE)] && pairs[i] != pairs[j]
  {
    var s0 := Init(pairs, 0, 0);
    KeysCollide(pairs[i], pairs[j]);
    GetAnswer(pairs, 0, i, EMPTY_RESPONSE, 0);
    var s1 := After(s0, AnswerSteps(i, EMPTY_RESPONSE));
    var later := [Store(i)] + [LookUp(j)];
    LeakAfterSet(s1, pairs[i], pairs[j], i, j);
    Concat(s0, AnswerSteps(i, EMPTY_RESPONSE), later);
    steps := AnswerSteps(i, EMPTY_RESPONSE) + later;
  }

  lemma LeakedHit(s: State, p: Pair, q: Pair)
    requires s.now == 0 && s.expiry == 0 && s.history == [SetEvent(p, 0, EMPTY_RESPONSE)] && Shifted(p, q)
    ensures CacheGet(s, q) == (EMPTY_RESPONSE, true)
  {
    ShiftedIsAnswered(p, q, EMPTY_RESPONSE, 0);
  }

  lemma LookUpHits(s: State, j: nat)
    requires j < |s.callers| && s.callers[j].pc.Start? && CacheGet(s, s.callers[j].pair).1
    ensures Enabled(s, LookUp(j))
    ensures Apply(s, LookUp(j)) == Goto(s, j, Returned(Value(CacheGet(s, s.callers[j].pair).0), s.now, None))
  {
  }

  lemma LeakAfterSet(s: State, p: Pair, q: Pair, i: nat, j: nat)
    requires i < |s.callers| && s.callers[i] == Caller(p, Answered(0, Some(EMPTY_RESPONSE)))
    requires j < |s.callers| && s.callers[j] == Caller(q, Start)
    requires s.now == 0 && s.expiry == 0 && s.history == [] && Shifted(p, q)
    ensures var steps := [Store(i)] + [LookUp(j)];
            && Possible(s, steps)
            && After(s, steps).answers == s.answers && |After(s, steps).callers| == |s.callers|
            && After(s, steps).callers[j] == Caller(q, Returned(Value(EMPTY_RESPONSE), 0, None))
  {
    var s1 := Apply(s, Store(i));
    assert s1.history == [SetEvent(p, 0, EMPTY_RESPONSE)];
    LeakedHit(s1, p, q);
    LookUpHits(s1, j);
    Prepend(s1, LookUp(j), [], 0);
    assert [LookUp(j)] + [] == [LookUp(j)];
    Prepend(s, Store(i), [LookUp(j)], 0);
  }

  predicate OfCaller(step: Step, i: nat) {
    step in {LookUp(i), Join(i), Receive(i), Store(i), Reread(i)}
  }

  /** A caller that finds a fresh entry can only return its value, and asks the provider nothing. */
  lemma FreshEntryMakesNoCall(s: State, known: iset<Pair>, i: nat, step: Step)
    requires Inv(s, known) && i < |s.callers| && s.callers[i].pc.Start?
    requires Fresh(s.history, s.callers[i].pair, s.expiry, s.now)
    requires Enabled(s, step) && OfCaller(step, i)
    ensures var v := LatestSet(s.history, s.callers[i].pair).value.response;
            Apply(s, step) == Goto(s, i, Returned(Value(v), s.now, None))
    ensures Apply(s, step).flights == s.flights && Apply(s, step).answers == s.answers
  {
    assert CallerOk(s, known, i);
    assert forall e :: e in s.history ==> EventOk(s, known, e);
    CacheRefinesHistory(s.history, s.callers[i].pair, s.expiry, s.now);
  }

  // One caller at a time.

  /** What `Get` does with nobody in between, when time passes before the `Set` and before the second lookup. */
  function AloneSteps(s: State, i: nat, out: FlightResult, d1: nat, d2: nat): seq<Step>
    requires i < |s.callers|
  {
    var n := |s.flights|;
    if CacheGet(s, s.callers[i].pair).1 then [LookUp(i)]
    else if out.err.Some? then FlightSteps(i, n, out)
    else FlightSteps(i, n, out) + CacheSteps(i, d1, d2)
  }

  function FlightSteps(i: nat, n: nat, out: FlightResult): seq<Step> {
    [LookUp(i)] + ([Join(i)] + ([Provide(n, out)] + ([Publish(n)] + [Receive(i)])))
  }

  function CacheSteps(i: nat, d1: nat, d2: nat): seq<Step> {
    ([Tick(d1)] + [Store(i)]) + ([Tick(d2)] + [Reread(i)])
  }

  /** A state that a caller has reached alone: the time, the history, and where the caller is. */
  ghost predicate At(s: State, s': State, i: nat, now: int, history: seq<SetEvent>, pc: Pc) {
    && i < |s.callers| && s'.expiry == s.expiry && s'.now == now && s'.history == history
    && s'.callers == s.callers[i := s.callers[i].(pc := pc)]
  }

  ghost predicate Leads(s: State, steps: seq<Step>, s': State) {
    Possible(s, steps) && After(s, steps) == s'
  }

  lemma LeadsFirst(s: State, step: Step, steps: seq<Step>, s': State)
    requires Enabled(s, step) && Leads(Apply(s, step), steps, s')
    ensures Leads(s, [step] + steps, s')
  {
    assert ([step] + steps)[1..] == steps;
  }

  lemma LeadsLast(s: State, step: Step)
    requires Enabled(s, step)
    ensures Leads(s, [step], Apply(s, step))
  {
    LeadsFirst(s, step, [], Apply(s, step));
    assert [step] + [] == [step];
  }

  lemma LeadsOn(s: State, a: seq<Step>, s': State, b: seq<Step>, s'': State)
    requires Leads(s, a, s') && Leads(s', b, s'')
    ensures Leads(s, a + b, s'')
  {
    Concat(s, a, b);
  }

  lemma FlightAlone(s: State, i: nat, out: FlightResult) returns (s': State)
    requires i < |s.callers| && s.callers[i].pc.Start? && F.AllPublished(s.flights)
    requires !CacheGet(s, s.callers[i].pair).1
    ensures Leads(s, FlightSteps(i, |s.flights|, out), s')
    ensures var n := |s.flights|;
            At(s, s', i, s.now, s.history,
               if out.err.Some? then Returned(Failed(out.err.value), s.now, Some(Via(n, |s.history|)))
               else Answered(n, out.res))
  {
    var pair, n := s.callers[i].pair, |s.flights|;
    F.JoinStarts(s.flights, GetKey(pair), Job(pair, s.now, |s.history|));
    var s1 := Apply(s, LookUp(i));
    var s2 := Apply(s1, Join(i));
    var s3 := Apply(s2, Provide(n, out));
    assert s3.flights[n].stage == F.Ran(out);
    var s4 := Apply(s3, Publish(n));
    assert s4.flights[n].stage == F.Published(out);
    assert s4.callers == s.callers[i := Caller(pair, Waiting(n))];
    s' := Apply(s4, Receive(i));
    LeadsLast(s4, Receive(i));
    LeadsFirst(s3, Publish(n), [Receive(i)], s');
    LeadsFirst(s2, Provide(n, out), [Publish(n)] + [Receive(i)], s');
    LeadsFirst(s1, Join(i), [Provide(n, out)] + ([Publish(n)] + [Receive(i)]), s');
    LeadsFirst(s, LookUp(i), [Join(i)] + ([Provide(n, out)] + ([Publish(n)] + [Receive(i)])), s');
  }

  lemma StoreAlone(s: State, i: nat, d: nat) returns (s': State)
    requires i < |s.callers| && s.callers[i].pc.Answered?
    ensures Leads(s, [Tick(d)] + [Store(i)], s')
    ensures var pc := s.callers[i].pc;
            At(s, s', i, s.now + d,
               if pc.res.Some? then s.history + [SetEvent(s.callers[i].pair, s.now + d, pc.res.value)] else s.history,
               Stored(pc.f))
  {
    var s1 := Apply(s, Tick(d));
    s' := Apply(s1, Store(i));
    LeadsLast(s1, Store(i));
    LeadsFirst(s, Tick(d), [Store(i)], s');
  }

  function Reply(lookup: (ServiceQueryResponse, bool), pair: Pair): QueryResult {
    if lookup.1 then Value(lookup.0) else Failed(KeyError(pair))
  }

  lemma RereadAlone(s: State, i: nat, d: nat, lookup: (ServiceQueryResponse, bool)) returns (s': State)
    requires i < |s.callers| && s.callers[i].pc.Stored?
    requires lookup == CacheGet(s.(now := s.now + d), s.callers[i].pair)
    ensures Leads(s, [Tick(d)] + [Reread(i)], s')
    ensures At(s, s', i, s.now + d, s.history,
               Returned(Reply(lookup, s.callers[i].pair), s.now + d, Some(Via(s.callers[i].pc.f, |s.history|))))
  {
    var s1 := Apply(s, Tick(d));
    s' := Apply(s1, Reread(i));
    LeadsLast(s1, Reread(i));
    LeadsFirst(s, Tick(d), [Reread(i)], s');
  }

  lemma MissAlone(s: State, i: nat, out: FlightResult, d1: nat, d2: nat) returns (s': State)
    requires i < |s.callers| && s.callers[i].pc.Start? && F.AllPublished(s.flights)
    requires !CacheGet(s, s.callers[i].pair).1 && out.err.None?
    ensures Leads(s, FlightSteps(i, |s.flights|, out) + CacheSteps(i, d1, d2), s')
    ensures i < |s'.callers| && s'.callers[i].pc.Returned?
    ensures s'.history == (if out.res.Some? then s.history + [SetEvent(s.callers[i].pair, s.now + d1, out.res.value)] else s.history)
    ensures var pair := s.callers[i].pair;
            s'.callers[i].pc.r == Reply(Lookup(Replay(s'.history), CacheKey(pair), s.expiry, s.now + d1 + d2), pair)
  {
    var s1 := FlightAlone(s, i, out);
    var s2 := StoreAlone(s1, i, d1);
    var lookup := CacheGet(s2.(now := s2.now + d2), s2.callers[i].pair);
    s' := RereadAlone(s2, i, d2, lookup);
    LeadsOn(s1, [Tick(d1)] + [Store(i)], s2, [Tick(d2)] + [Reread(i)], s');
    LeadsOn(s, FlightSteps(i, |s.flights|, out), s1, CacheSteps(i, d1, d2), s');
  }

  /** With nobody in between, the steps of a caller do what the method `Get` does. */
  lemma AloneIsGet(s: State, i: nat, out: FlightResult, d1: nat, d2: nat) returns (s': State)
    requires i < |s.callers| && s.callers[i].pc.Start? && F.AllPublished(s.flights)
    ensures Leads(s, AloneSteps(s, i, out, d1, d2), s')
    ensures i < |s'.callers| && s'.callers[i].pc.Returned?
    ensures (s'.callers[i].pc.r, s'.history) ==
            Queried(s.history, s.expiry, s.callers[i].pair, out, s.now, s.now + d1, s.now + d1 + d2)
  {
    if CacheGet(s, s.callers[i].pair).1 {
      LookUpHits(s, i);
      s' := Apply(s, LookUp(i));
      LeadsLast(s, LookUp(i));
    } else if out.err.Some? {
      s' := FlightAlone(s, i, out);
    } else {
      s' := MissAlone(s, i, out, d1, d2);
    }
  }

  // Progress.

  /** Something besides the clock can move. */
  ghost predicate CanGoOn(s: State) {
    exists step: Step :: !step.Tick? && Enabled(s, step)
  }

  /** `Get` never gets stuck: something besides the clock can move as long as a caller has not returned. */
  lemma StuckOnlyWhenReturned(s: State, known: iset<Pair>, i: nat)
    requires Inv(s, known) && i < |s.callers| && !s.callers[i].pc.Returned?
    ensures CanGoOn(s)
  {
    assert CallerOk(s, known, i);
    match s.callers[i].pc
    case Start => assert Enabled(s, LookUp(i));
    case Missed(_, _) => assert Enabled(s, Join(i));
    case Waiting(f) =>
      assert Enabled(s, Provide(f, FlightResult(None, None))) || Enabled(s, Publish(f)) || Enabled(s, Receive(i));
    case Answered(_, _) => assert Enabled(s, Store(i));
    case Stored(_) => assert Enabled(s, Reread(i));
  }

  // How old a value can be.

  /** The provider gave this response for this very function at a time in between. */
  ghost predicate ProvidedBetween(answers: seq<Answer>, pair: Pair, response: ServiceQueryResponse, from: int, until: int) {
    exists a :: a in answers && a.pair == pair && a.response == response && from <= a.at <= until
  }

  /** The value that a caller is about to `Set`: on a finished good flight, or handed out already. */
  function Held(s: State, i: nat): Option<ServiceQueryResponse>
    requires i < |s.callers|
  {
    match s.callers[i].pc
    case Waiting(f) =>
      if f < |s.flights| && !s.flights[f].stage.Running? && s.flights[f].stage.out.Good() then
        s.flights[f].stage.out.res
      else None
    case Answered(_, res) => res
    case _ => None
  }

  /** Nobody holds a value that was given more than `delay` ago. */
  ghost predicate Timely(s: State, delay: nat) {
    forall i: nat :: i < |s.callers| && Held(s, i).Some? ==>
      ProvidedBetween(s.answers, s.callers[i].pair, Held(s, i).value, s.now - delay, s.now)
  }

  ghost predicate TimelyRun(s: State, steps: seq<Step>, delay: nat)
    requires Possible(s, steps)
    decreases |steps|
  {
    Timely(s, delay) && (steps == [] || TimelyRun(Apply(s, steps[0]), steps[1..], delay))
  }

  ghost predicate TimelyEvents(s: State, delay: nat) {
    forall e :: e in s.history ==> ProvidedBetween(s.answers, e.pair, e.response, e.at - delay, e.at)
  }

  lemma {:induction false} TimelyEventsKept(s: State, steps: seq<Step>, delay: nat)
    requires Possible(s, steps) && TimelyRun(s, steps, delay) && TimelyEvents(s, delay)
    ensures TimelyEvents(After(s, steps), delay)
    decreases |steps|
  {
    if steps != [] {
      var s' := Apply(s, steps[0]);
      StepGrows(s, steps[0]);
      forall e | e in s'.history ensures ProvidedBetween(s'.answers, e.pair, e.response, e.at - delay, e.at) {
        if e !in s.history {
          assert Held(s, steps[0].i) == Some(e.response);
        }
        var a :| a in s.answers && a.pair == e.pair && a.response == e.response && e.at - delay <= a.at <= e.at;
        assert a in s'.answers;
      }
      TimelyEventsKept(s', steps[1..], delay);
    }
  }

  /** Every value that was returned without error was given at most `bound` before. */
  ghost predicate AgesWithin(s: State, bound: int) {
    forall i: nat :: i < |s.callers| && s.callers[i].pc.Returned? && s.callers[i].pc.r.Value? ==>
      ProvidedBetween(s.answers, s.callers[i].pair, s.callers[i].pc.r.response,
                      s.callers[i].pc.at - bound, s.callers[i].pc.at)
  }

  /** In a timely run a value is at most `expiry + delay` old, and with a negative expiry there is none. */
  lemma AgeIsBounded(pairs: seq<Pair>, expiry: int, now: int, steps: seq<Step>, delay: nat)
    requires KeysApart(Known(pairs))
    requires Possible(Init(pairs, expiry, now), steps) && TimelyRun(Init(pairs, expiry, now), steps, delay)
    ensures AgesWithin(After(Init(pairs, expiry, now), steps), expiry + delay)
    ensures expiry < 0 ==> forall bound :: AgesWithin(After(Init(pairs, expiry, now), steps), bound)
  {
    var s := After(Init(pairs, expiry, now), steps);
    ValuesAreProvidedAndRecent(pairs, expiry, now, steps);
    TimelyEventsKept(Init(pairs, expiry, now), steps, delay);
    forall i: nat | i < |s.callers| && s.callers[i].pc.Returned? && s.callers[i].pc.r.Value?
      ensures 0 <= expiry
      ensures ProvidedBetween(s.answers, s.callers[i].pair, s.callers[i].pc.r.response,
                              s.callers[i].pc.at - (expiry + delay), s.callers[i].pc.at)
    {
      assert ReturnOk(s, i);
      var pc := s.callers[i].pc;
      var e :| e in s.history && e.pair == s.callers[i].pair && e.response == pc.r.response && e.at <= pc.at <= e.at + expiry;
      assert ProvidedBetween(s.answers, e.pair, e.response, e.at - delay, e.at);
    }
  }

  /**
   The age of a value runs from its `Set`, not from the provider's answer: a timely run in which a
   value is returned `expiry + delay` after the provider gave it, the only time that it did.
   */
  lemma AgeRunsFromSet(pair: Pair, expiry: nat, delay: nat, response: ServiceQueryResponse)
    returns (steps: seq<Step>)
    ensures Possible(Init([pair], expiry, 0), steps) && TimelyRun(Init([pair], expiry, 0), steps, delay)
    ensures var s := After(Init([pair], expiry, 0), steps);
            && s.callers == [Caller(pair, Returned(Value(response), expiry + delay, Some(Via(0, 1))))]
            && s.answers == [Answer(pair, 0, response)]
  {
    var s0 := Init([pair], expiry, 0);
    GetAnswer([pair], expiry, 0, response, delay);
    var s1 := After(s0, AnswerSteps(0, response));
    assert s1.callers == [Caller(pair, Answered(0, Some(response)))];
    LateSet(s1, pair, response, delay);
    steps := AnswerSteps(0, response) + LateSteps(delay, expiry);
    Concat(s0, AnswerSteps(0, response), LateSteps(delay, expiry));
    ConcatTimely(s0, AnswerSteps(0, response), LateSteps(delay, expiry), delay);
  }

  /** All timely runs of callers for functions with different keys. */
  ghost predicate AlwaysWithin(expiry: int, delay: nat, bound: int) {
    forall pairs, now, steps ::
      && KeysApart(Known(pairs))
      && Possible(Init(pairs, expiry, now), steps) && TimelyRun(Init(pairs, expiry, now), steps, delay)
      ==> AgesWithin(After(Init(pairs, expiry, now), steps), bound)
  }

  /** The bound is exact: no smaller one holds of all runs, whatever the expiry and the delay. */
  lemma AgeBoundIsExact(expiry: int, delay: nat, bound: int)
    ensures AlwaysWithin(expiry, delay, bound) <==> expiry < 0 || expiry + delay <= bound
  {
    if expiry < 0 || expiry + delay <= bound {
      forall pairs, now, steps |
        && KeysApart(Known(pairs))
        && Possible(Init(pairs, expiry, now), steps) && TimelyRun(Init(pairs, expiry, now), steps, delay)
        ensures AgesWithin(After(Init(pairs, expiry, now), steps), bound)
      {
        AgeIsBounded(pairs, expiry, now, steps, delay);
      }
    } else {
      var pair := Pair("", "");
      var steps := AgeRunsFromSet(pair, expiry, delay, EMPTY_RESPONSE);
      DotFreeIsApart(pair, pair);
      assert KeysApart(Known([pair]));
      var s := After(Init([pair], expiry, 0), steps);
      assert s.callers[0] == Caller(pair, Returned(Value(EMPTY_RESPONSE), expiry + delay, Some(Via(0, 1))));
      assert !AgesWithin(s, bound);
    }
  }

  /** So values stay within the expiry exactly when nothing passes between an answer and its `Set`. */
  lemma AgeIsWithinExpiryIffNoDelay(expiry: nat, delay: nat)
    ensures AlwaysWithin(expiry, delay, expiry) <==> delay == 0
  {
    AgeBoundIsExact(expiry, delay, expiry);
  }

  // Runs.

  function AnswerSteps(i: nat, response: ServiceQueryResponse): seq<Step> {
    [LookUp(i)] + ([Join(i)] + ([Provide(0, FlightResult(Some(response), None))] + ([Publish(0)] + [Receive(i)])))
  }

  function LateSteps(delay: nat, expiry: nat): seq<Step> {
    [Tick(delay)] + ([Store(0)] + ([Tick(expiry)] + [Reread(0)]))
  }

  /** A caller finds nothing, starts a flight, and is handed the provider's answer, all at one time. */
  lemma GetAnswer(pairs: seq<Pair>, expiry: int, i: nat, response: ServiceQueryResponse, delay: nat)
    requires i < |pairs|
    ensures Possible(Init(pairs, expiry, 0), AnswerSteps(i, response))
    ensures TimelyRun(Init(pairs, expiry, 0), AnswerSteps(i, response), delay)
    ensures var s := After(Init(pairs, expiry, 0), AnswerSteps(i, response));
            && s.now == 0 && s.expiry == expiry && s.history == []
            && s.callers == Init(pairs, expiry, 0).callers[i := Caller(pairs[i], Answered(0, Some(response)))]
            && s.answers == [Answer(pairs[i], 0, response)]
  {
    var pair, out := pairs[i], FlightResult(Some(response), None);
    var s0 := Init(pairs, expiry, 0);
    var s1 := Apply(s0, LookUp(i));
    assert s1.callers == s0.callers[i := Caller(pair, Missed(0, 0))];
    var s2 := Apply(s1, Join(i));
    assert s2.callers == s0.callers[i := Caller(pair, Waiting(0))];
    var flight := F.Flight(GetKey(pair), Job(pair, 0, 0), F.Running);
    assert s2.flights == [flight];
    var s3 := Apply(s2, Provide(0, out));
    assert s3.flights == [flight.(stage := F.Ran(out))];
    assert Answer(pair, 0, response) in s3.answers;
    TakeAnswer(s3, i, response, delay);
    assert s3.callers[i := Caller(pair, Answered(0, Some(response)))] == s0.callers[i := Caller(pair, Answered(0, Some(response)))];
    Prepend(s2, Provide(0, out), [Publish(0)] + [Receive(i)], delay);
    Prepend(s1, Join(i), [Provide(0, out)] + ([Publish(0)] + [Receive(i)]), delay);
    Prepend(s0, LookUp(i), [Join(i)] + ([Provide(0, out)] + ([Publish(0)] + [Receive(i)])), delay);
  }

  /** The flight is published, and handed to its only member. */
  lemma TakeAnswer(s: State, i: nat, response: ServiceQueryResponse, delay: nat)
    requires i < |s.callers| && s.callers[i].pc == Waiting(0)
    requires forall j: nat :: j < |s.callers| && j != i ==> s.callers[j].pc.Start?
    requires |s.flights| == 1 && s.flights[0].stage == F.Ran(FlightResult(Some(response), None))
    requires s.answers == [Answer(s.callers[i].pair, s.now, response)]
    ensures var steps := [Publish(0)] + [Receive(i)];
            && Possible(s, steps) && TimelyRun(s, steps, delay)
            && After(s, steps) == Goto(s, i, Answered(0, Some(response))).(flights := F.Publish(s.flights, 0))
  {
    assert Answer(s.callers[i].pair, s.now, response) in s.answers;
    var s1 := Apply(s, Publish(0));
    var s2 := Apply(s1, Receive(i));
    Prepend(s1, Receive(i), [], delay);
    assert [Receive(i)] + [] == [Receive(i)];
    Prepend(s, Publish(0), [Receive(i)], delay);
  }

  /** The second half: the answer is kept for `delay`, cached, and read back as late as can be. */
  lemma LateSet(s: State, pair: Pair, response: ServiceQueryResponse, delay: nat)
    requires s.now == 0 && 0 <= s.expiry && s.history == []
    requires s.callers == [Caller(pair, Answered(0, Some(response)))] && s.answers == [Answer(pair, 0, response)]
    ensures var steps := LateSteps(delay, s.expiry);
            && Possible(s, steps) && TimelyRun(s, steps, delay)
            && After(s, steps).callers == [Caller(pair, Returned(Value(response), s.expiry + delay, Some(Via(0, 1))))]
            && After(s, steps).answers == s.answers
  {
    assert Answer(pair, 0, response) in s.answers;
    var s1 := Apply(s, Tick(delay));
    var s2 := Apply(s1, Store(0));
    assert s2.callers == [Caller(pair, Stored(0))];
    var s3 := Apply(s2, Tick(s.expiry));
    HitAfterStore(s3, pair, delay, response);
    var s4 := Apply(s3, Reread(0));
    assert s4.callers == [Caller(pair, Returned(Value(response), s.expiry + delay, Some(Via(0, 1))))];
    Prepend(s3, Reread(0), [], delay);
    assert [Reread(0)] + [] == [Reread(0)];
    Prepend(s2, Tick(s.expiry), [Reread(0)], delay);
    Prepend(s1, Store(0), [Tick(s.expiry)] + [Reread(0)], delay);
    Prepend(s, Tick(delay), [Store(0)] + ([Tick(s.expiry)] + [Reread(0)]), delay);
  }

  lemma HitAfterStore(s: State, pair: Pair, at: int, response: ServiceQueryResponse)
    requires s.history == [SetEvent(pair, at, response)] && s.now <= at + s.expiry
    ensures CacheGet(s, pair) == (response, true)
  {
  }

  lemma Prepend(s: State, step: Step, steps: seq<Step>, delay: nat)
    requires Enabled(s, step) && Possible(Apply(s, step), steps)
    ensures Possible(s, [step] + steps)
    ensures After(s, [step] + steps) == After(Apply(s, step), steps)
    ensures Timely(s, delay) && TimelyRun(Apply(s, step), steps, delay) ==> TimelyRun(s, [step] + steps, delay)
  {
    assert ([step] + steps)[1..] == steps;
  }

  lemma {:induction false} Concat(s: State, a: seq<Step>, b: seq<Step>)
    requires Possible(s, a) && Possible(After(s, a), b)
    ensures Possible(s, a + b) && After(s, a + b) == After(After(s, a), b)
    decreases |a|
  {
    if a == [] {
      assert a + b == b;
    } else {
      Concat(Apply(s, a[0]), a[1..], b);
      assert (a + b)[1..] == a[1..] + b;
    }
  }

  lemma {:induction false} ConcatTimely(s: State, a: seq<Step>, b: seq<Step>, delay: nat)
    requires Possible(s, a) && Possible(After(s, a), b) && Possible(s, a + b)
    requires TimelyRun(s, a, delay) && TimelyRun(After(s, a), b, delay)
    ensures TimelyRun(s, a + b, delay)
    decreases |a|
  {
    if a == [] {
      assert a + b == b;
    } else {
      assert (a + b)[1..] == a[1..] + b;
      ConcatTimely(Apply(s, a[0]), a[1..], b, delay);
    }
  }
}
