/** The arithmetic of alerts (`CalculateReplicas` in gateway/handlers/alerthandler.go). */
module ReplicaArithmetic {

  import opened Service

  const FIRING := "firing"

  /** `math.Ceil`. */
  function Ceil(x: real): int {
    -((-x).Floor)
  }

  /** The step of one alert: the ceiling of a percentage of the capped maximum, in exact arithmetic. */
  function StepOf(max: uint64, scalingFactor: uint64): uint64 {
    Wrap(Ceil(max as real / 100.0 * scalingFactor as real))
  }

  /** `CalculateReplicas`; `cap` is `DefaultMaxReplicas`. */
  function CalculateReplicas(cap: uint64, status: string, currentReplicas: uint64, maxReplicas: uint64,
                             minReplicas: uint64, scalingFactor: uint64): uint64
  {
    var max := Min(maxReplicas, cap);
    var step := StepOf(max, scalingFactor);
    if status == FIRING && step > 0 then Raise(max, step, currentReplicas) else minReplicas
  }

  /** One step up, in the wrapping arithmetic of `uint64`, but not over the maximum. */
  function Raise(max: uint64, step: uint64, currentReplicas: uint64): uint64 {
    var raised := Wrap(currentReplicas + step);
    if raised > max then max else raised
  }

  lemma CeilSpec(x: real, n: int)
    requires n as real - 1.0 < x <= n as real
    ensures Ceil(x) == n
  {
    assert (-x).Floor <= -n;
  }

  lemma CeilDiv(p: nat, n: nat)
    requires n == (p + 99) / 100
    ensures 100 * (n - 1) < p <= 100 * n
    ensures Ceil(p as real / 100.0) == n
  {
    CeilSpec(p as real / 100.0, n);
  }

  /** The step in whole numbers: the least one that is at least the percentage. */
  lemma StepIsCeiling(max: uint64, scalingFactor: uint64)
    requires scalingFactor <= 100
    ensures StepOf(max, scalingFactor) == (max * scalingFactor + 99) / 100
    ensures 100 * (StepOf(max, scalingFactor) - 1) < max * scalingFactor <= 100 * StepOf(max, scalingFactor)
    ensures StepOf(max, scalingFactor) <= max
    ensures StepOf(max, scalingFactor) >= 1 <==> max >= 1 && scalingFactor >= 1
  {
    ProductBounds(max, scalingFactor);
    PercentOf(max, scalingFactor);
    StepOfProduct(max, scalingFactor, max * scalingFactor);
  }

  lemma StepOfProduct(max: uint64, scalingFactor: uint64, p: nat)
    requires max as real / 100.0 * scalingFactor as real == p as real / 100.0
    requires p <= 100 * max
    ensures StepOf(max, scalingFactor) == (p + 99) / 100
    ensures 100 * (StepOf(max, scalingFactor) - 1) < p <= 100 * StepOf(max, scalingFactor)
    ensures StepOf(max, scalingFactor) <= max
  {
    CeilDiv(p, (p + 99) / 100);
  }

  lemma PercentOf(max: int, f: int)
    ensures max as real / 100.0 * f as real == (max * f) as real / 100.0
  {
    assert max as real * f as real == (max * f) as real;
  }

  lemma ProductBounds(max: nat, f: nat)
    requires f <= 100
    ensures 0 <= max * f <= 100 * max
    ensures max * f >= 1 <==> max >= 1 && f >= 1
  {
  }

  lemma WrappedSum(a: uint64, b: uint64)
    ensures Wrap(a + b) == if a + b < TWO_TO_THE_64 then a + b else a + b - TWO_TO_THE_64
  {
  }

  lemma RaiseSpec(m: uint64, s: uint64, c: uint64)
    requires 1 <= s <= m < TWO_TO_THE_64 / 2
    ensures c <= m ==> Raise(m, s, c) == Min(m, c + s)
    ensures c > m ==> (Raise(m, s, c) == m <==> c + s < TWO_TO_THE_64)
    ensures Raise(m, s, c) <= m
  {
    WrappedSum(c, s);
  }

  /**
   What one firing alert does to a count: below the capped maximum `m` it adds the step, up to
   `m`; above it the count comes down to `m`, unless the addition wraps around, in which case the
   count falls below `m`.
   */
  lemma FiringAlert(cap: uint64, c: uint64, maxReplicas: uint64, minReplicas: uint64, f: uint64)
    requires 1 <= f <= 100 && 1 <= maxReplicas && 1 <= cap < TWO_TO_THE_64 / 2
    ensures var m := Min(maxReplicas, cap);
            var s := StepOf(m, f);
            var c' := CalculateReplicas(cap, "firing", c, maxReplicas, minReplicas, f);
            && s == (m * f + 99) / 100 && 1 <= s <= m
            && (c <= m ==> c' == Min(m, c + s))
            && (c > m ==> (c' == m <==> c + s < TWO_TO_THE_64))
            && c' <= m
  {
    var m := Min(maxReplicas, cap);
    StepIsCeiling(m, f);
    RaiseSpec(m, StepOf(m, f), c);
  }

  /** The count after `n` firing alerts in a row. */
  function Fire(cap: uint64, c: uint64, maxReplicas: uint64, minReplicas: uint64, f: uint64, n: nat): uint64 {
    if n == 0 then c
    else CalculateReplicas(cap, FIRING, Fire(cap, c, maxReplicas, minReplicas, f, n - 1), maxReplicas, minReplicas, f)
  }

  lemma OneMore(m: nat, c: nat, s: nat, n: nat)
    requires 1 <= n
    ensures Min(m, Min(m, c + (n - 1) * s) + s) == Min(m, c + n * s)
  {
    assert (n - 1) * s + s == n * s;
  }

  /** `n` firing alerts in a row take a count `c <= m` to `min(m, c + n * s)`. */
  lemma {:induction false} FiringAlertsAddUp(cap: uint64, c: uint64, maxReplicas: uint64, minReplicas: uint64, f: uint64, n: nat)
    requires 1 <= f <= 100 && 1 <= maxReplicas && 1 <= cap < TWO_TO_THE_64 / 2
    requires c <= Min(maxReplicas, cap)
    ensures var m := Min(maxReplicas, cap);
            Fire(cap, c, maxReplicas, minReplicas, f, n) == Min(m, c + n * StepOf(m, f))
  {
    if n > 0 {
      FiringAlertsAddUp(cap, c, maxReplicas, minReplicas, f, n - 1);
      FiringAlert(cap, Fire(cap, c, maxReplicas, minReplicas, f, n - 1), maxReplicas, minReplicas, f);
      OneMore(Min(maxReplicas, cap), c, StepOf(Min(maxReplicas, cap), f), n);
    }
  }

  lemma EnoughSteps(m: nat, f: nat, s: nat, n: nat)
    requires m * f <= 100 * s && 100 <= n * f
    ensures m <= n * s
  {
    assert 100 * m <= (n * f) * m == n * (m * f) <= n * (100 * s) == 100 * (n * s) by {
      MulMonotone(m, 100, n * f);
      MulMonotone(n, m * f, 100 * s);
    }
  }

  lemma MulMonotone(k: nat, a: int, b: int)
    requires a <= b
    ensures k * a <= k * b
  {
  }

  /** `ceil(100 / f)`. */
  function AlertsNeeded(f: uint64): (n: nat)
    requires 1 <= f
    ensures 100 <= n * f
    ensures n > 0 && (n - 1) * f < 100
  {
    var n := (100 + f - 1) / f;
    assert n * f + (100 + f - 1) % f == 100 + f - 1;
    n
  }

  /** Adding the step to the count wraps around. */
  predicate Wraps(c: uint64, step: nat) {
    c + step >= TWO_TO_THE_64
  }

  lemma {:induction false} FireFirst(cap: uint64, c: uint64, maxReplicas: uint64, minReplicas: uint64, f: uint64, n: nat)
    requires n >= 1
    ensures var c' := CalculateReplicas(cap, FIRING, c, maxReplicas, minReplicas, f);
            Fire(cap, c, maxReplicas, minReplicas, f, n) == Fire(cap, c', maxReplicas, minReplicas, f, n - 1)
  {
    if n == 1 {
      assert Fire(cap, c, maxReplicas, minReplicas, f, 0) == c;
    } else {
      FireFirst(cap, c, maxReplicas, minReplicas, f, n - 1);
    }
  }

  lemma {:induction false} FiringFromAbove(cap: uint64, c: uint64, maxReplicas: uint64, minReplicas: uint64, f: uint64, n: nat)
    requires 1 <= f <= 100 && 1 <= maxReplicas && 1 <= cap < TWO_TO_THE_64 / 2 && 1 <= n
    requires var m := Min(maxReplicas, cap); c > m && !Wraps(c, StepOf(m, f))
    ensures Fire(cap, c, maxReplicas, minReplicas, f, n) == Min(maxReplicas, cap)
  {
    if n == 1 {
      FiringAlert(cap, c, maxReplicas, minReplicas, f);
      assert Fire(cap, c, maxReplicas, minReplicas, f, 0) == c;
    } else {
      FiringFromAbove(cap, c, maxReplicas, minReplicas, f, n - 1);
      FiringAlert(cap, Min(maxReplicas, cap), maxReplicas, minReplicas, f);
    }
  }

  lemma OneStepMore(n: int, s: int)
    ensures n * s == s + (n - 1) * s
  {
  }

  /** An alert that wraps around leaves a count below the step, and so within the maximum. */
  lemma WrappingAlert(cap: uint64, c: uint64, maxReplicas: uint64, minReplicas: uint64, f: uint64)
    requires 1 <= f <= 100 && 1 <= maxReplicas && 1 <= cap < TWO_TO_THE_64 / 2
    requires Wraps(c, StepOf(Min(maxReplicas, cap), f))
    ensures var m := Min(maxReplicas, cap);
            var c' := CalculateReplicas(cap, FIRING, c, maxReplicas, minReplicas, f);
            c' == c + StepOf(m, f) - TWO_TO_THE_64 && c' <= m
  {
    var m := Min(maxReplicas, cap);
    StepIsCeiling(m, f);
    WrappedSum(c, StepOf(m, f));
  }

  /** The first alert wraps around, and the others add up from there. */
  lemma FiringWhenWrapping(cap: uint64, c: uint64, maxReplicas: uint64, minReplicas: uint64, f: uint64, n: nat)
    requires 1 <= f <= 100 && 1 <= maxReplicas && 1 <= cap < TWO_TO_THE_64 / 2 && 1 <= n
    requires Wraps(c, StepOf(Min(maxReplicas, cap), f))
    ensures var m := Min(maxReplicas, cap);
            Fire(cap, c, maxReplicas, minReplicas, f, n) == Min(m, c + n * StepOf(m, f) - TWO_TO_THE_64)
  {
    WrappingAlert(cap, c, maxReplicas, minReplicas, f);
    FireFirst(cap, c, maxReplicas, minReplicas, f, n);
    FiringAlertsAddUp(cap, CalculateReplicas(cap, FIRING, c, maxReplicas, minReplicas, f), maxReplicas, minReplicas, f, n - 1);
    OneStepMore(n, StepOf(Min(maxReplicas, cap), f));
  }

  /** What `n` firing alerts in a row make of a count, for a capped maximum `m` and a step `s`. */
  function Fired(m: nat, s: nat, c: uint64, n: nat): int {
    if n == 0 then c
    else if c <= m then Min(m, c + n * s)
    else if !Wraps(c, s) then m
    else Min(m, c + n * s - TWO_TO_THE_64)
  }

  /** For every count and every number of alerts. */
  lemma FireIsFired(cap: uint64, c: uint64, maxReplicas: uint64, minReplicas: uint64, f: uint64, n: nat)
    requires 1 <= f <= 100 && 1 <= maxReplicas && 1 <= cap < TWO_TO_THE_64 / 2
    ensures var m := Min(maxReplicas, cap);
            Fire(cap, c, maxReplicas, minReplicas, f, n) == Fired(m, StepOf(m, f), c, n)
  {
    var m := Min(maxReplicas, cap);
    FiringAlert(cap, c, maxReplicas, minReplicas, f);
    if n > 0 {
      if c <= m {
        FiringAlertsAddUp(cap, c, maxReplicas, minReplicas, f, n);
      } else if Wraps(c, StepOf(m, f)) {
        FiringWhenWrapping(cap, c, maxReplicas, minReplicas, f, n);
      } else {
        FiringFromAbove(cap, c, maxReplicas, minReplicas, f, n);
      }
    }
  }

  /** So many steps are enough: from below, from above, and around. */
  predicate Reaches(m: nat, s: nat, c: uint64, n: nat) {
    || (c <= m && c + n * s >= m)
    || (c > m && n >= 1 && !Wraps(c, s))
    || (c > m && n >= 1 && Wraps(c, s) && c + n * s >= TWO_TO_THE_64 + m)
  }

  /** `n` firing alerts take a count to the maximum exactly when so many steps are enough. */
  lemma FiringReachesMaxExactly(cap: uint64, c: uint64, maxReplicas: uint64, minReplicas: uint64, f: uint64, n: nat)
    requires 1 <= f <= 100 && 1 <= maxReplicas && 1 <= cap < TWO_TO_THE_64 / 2
    ensures var m := Min(maxReplicas, cap);
            Fire(cap, c, maxReplicas, minReplicas, f, n) == m <==> Reaches(m, StepOf(m, f), c, n)
  {
    FireIsFired(cap, c, maxReplicas, minReplicas, f, n);
  }

  lemma EnoughAlerts(f: uint64, n: nat)
    requires 1 <= f && n >= AlertsNeeded(f)
    ensures 100 <= n * f
  {
    MulMonotone(f, AlertsNeeded(f), n);
  }

  lemma StepsToMax(m: uint64, f: uint64, n: nat)
    requires 1 <= f <= 100 && n >= AlertsNeeded(f)
    ensures m <= n * StepOf(m, f)
  {
    StepIsCeiling(m, f);
    EnoughAlerts(f, n);
    EnoughSteps(m, f, StepOf(m, f), n);
  }

  /**
   Whatever the maximum is, `ceil(100 / f)` firing alerts take every count to it, except for one so
   high that the first addition wraps around and that falls short after that: exactly such a count
   needs more, and one more is enough. Then it stays: no further update is due.
   */
  lemma FiringReachesMax(cap: uint64, c: uint64, maxReplicas: uint64, minReplicas: uint64, f: uint64)
    requires 1 <= f <= 100 && 1 <= maxReplicas && 1 <= cap < TWO_TO_THE_64 / 2
    ensures var m, n := Min(maxReplicas, cap), AlertsNeeded(f);
            var s := StepOf(m, f);
            && (Fire(cap, c, maxReplicas, minReplicas, f, n) == m <==> !(Wraps(c, s) && c + n * s < TWO_TO_THE_64 + m))
            && (forall k: nat :: k > n ==> Fire(cap, c, maxReplicas, minReplicas, f, k) == m)
            && CalculateReplicas(cap, FIRING, m, maxReplicas, minReplicas, f) == m
  {
    var m, n := Min(maxReplicas, cap), AlertsNeeded(f);
    FiringAlert(cap, m, maxReplicas, minReplicas, f);
    StepsToMax(m, f, n);
    FiringReachesMaxExactly(cap, c, maxReplicas, minReplicas, f, n);
    forall k: nat | k > n ensures Fire(cap, c, maxReplicas, minReplicas, f, k) == m {
      MoreReaches(cap, c, maxReplicas, minReplicas, f, k);
    }
  }

  /** Whatever the count is, the first alert leaves one within the maximum. */
  lemma MoreReaches(cap: uint64, c: uint64, maxReplicas: uint64, minReplicas: uint64, f: uint64, n: nat)
    requires 1 <= f <= 100 && 1 <= maxReplicas && 1 <= cap < TWO_TO_THE_64 / 2
    requires n > AlertsNeeded(f)
    ensures Fire(cap, c, maxReplicas, minReplicas, f, n) == Min(maxReplicas, cap)
  {
    var m := Min(maxReplicas, cap);
    var s := StepOf(m, f);
    StepsToMax(m, f, n - 1);
    StepsToMax(m, f, n);
    OneStepMore(n, s);
    FiringReachesMaxExactly(cap, c, maxReplicas, minReplicas, f, n);
  }

  /** An alert that is not firing, or whose step is 0, asks for the minimum, which nothing caps. */
  lemma OtherAlert(cap: uint64, status: string, c: uint64, maxReplicas: uint64, minReplicas: uint64, f: uint64)
    requires f <= 100
    ensures CalculateReplicas(cap, status, c, maxReplicas, minReplicas, f) == minReplicas
            <== status != FIRING || Min(maxReplicas, cap) == 0 || f == 0
    ensures CalculateReplicas(cap, status, c, maxReplicas, minReplicas, f) <= Min(maxReplicas, cap)
            || CalculateReplicas(cap, status, c, maxReplicas, minReplicas, f) == minReplicas
  {
    StepIsCeiling(Min(maxReplicas, cap), f);
  }
}

/** Lists of alerts (`handleAlerts`, `scaleService`) against a provider of many functions. */
module Alerts {

  import opened Wrappers
  import opened Service
  import opened ServiceName
  import opened Ranges
  import opened ReplicaArithmetic

  datatype Alert = Alert(status: string, functionName: string)

  datatype Call = Queried | Updated(count: uint64)

  /**
   A function as the provider keeps it. What it answers to a query, and how it replies to an update,
   may depend in any way on the calls for this function so far, and on these only.
   */
  datatype Function = Function(
    answers: seq<Call> -> (ServiceQueryResponse, Option<Error>),
    replies: (seq<Call>, uint64) -> Option<Error>,
    calls: seq<Call>)

  type World = map<Pair, Function>

  const UNKNOWN_FUNCTION: Error := "unknown function"

  /** `ServiceQuery` over a world. */
  class ServiceTable {
    var world: World

    constructor (world: World)
      ensures this.world == world
    {
      this.world := world;
    }

    method GetReplicas(pair: Pair) returns (response: ServiceQueryResponse, err: Option<Error>)
      modifies this
      ensures pair !in old(world) ==> err.Some? && world == old(world)
      ensures pair in old(world) ==>
                var fn := old(world)[pair];
                (response, err) == fn.answers(fn.calls) && world == old(world)[pair := Called(fn, Queried)]
    {
      if pair !in world {
        return EMPTY_RESPONSE, Some(UNKNOWN_FUNCTION);
      }
      var fn := world[pair];
      world := world[pair := Called(fn, Queried)];
      var answer := fn.answers(fn.calls);
      return answer.0, answer.1;
    }

    method SetReplicas(pair: Pair, count: uint64) returns (err: Option<Error>)
      requires pair in world
      modifies this
      ensures var fn := old(world)[pair];
              err == fn.replies(fn.calls, count) && world == old(world)[pair := Called(fn, Updated(count))]
    {
      var fn := world[pair];
      err := fn.replies(fn.calls, count);
      world := world[pair := Called(fn, Updated(count))];
    }
  }

  function Called(fn: Function, call: Call): Function {
    fn.(calls := fn.calls + [call])
  }

  function NewReplicas(status: string, r: ServiceQueryResponse): uint64 {
    CalculateReplicas(DEFAULT_MAX_REPLICAS, status, r.replicas, r.maxReplicas, r.minReplicas, r.scalingFactor)
  }

  /** One alert for a function, on its own: the function after it, and the error of a failed update. */
  function AlertOn(fn: Function, status: string): (Function, Option<Error>) {
    var (response, err) := fn.answers(fn.calls);
    var queried := Called(fn, Queried);
    var count := NewReplicas(status, response);
    if err.Some? || count == response.replicas then (queried, None)
    else (Called(queried, Updated(count)), fn.replies(queried.calls, count))
  }

  datatype Failure = Failure(pair: Pair, err: Error)

  function AlertStep(d: string, w: World, alert: Alert): (World, seq<Failure>) {
    var pair := GetNamespace(d, alert.functionName);
    if pair.name == "" || pair !in w then (w, [])
    else
      var (fn, err) := AlertOn(w[pair], alert.status);
      (w[pair := fn], if err.Some? then [Failure(pair, err.value)] else [])
  }

  function RunAlerts(d: string, w: World, alerts: seq<Alert>): (World, seq<Failure>) {
    if alerts == [] then (w, [])
    else
      var (w', failures) := RunAlerts(d, w, alerts[..|alerts| - 1]);
      var (w'', more) := AlertStep(d, w', alerts[|alerts| - 1]);
      (w'', failures + more)
  }

  function ErrorsOf(failures: seq<Failure>): seq<Error> {
    seq(|failures|, i requires 0 <= i < |failures| => failures[i].err)
  }

  method ScaleService(alert: Alert, service: ServiceTable, defaultNamespace: string) returns (err: Option<Error>)
    modifies service
    ensures var (w, failures) := AlertStep(defaultNamespace, old(service.world), alert);
            && service.world == w
            && (match err
                case None => failures == []
                case Some(e) => ErrorsOf(failures) == [e])
  {
    err := None;
    var pair := GetNamespace(defaultNamespace, alert.functionName);
    if |pair.name| > 0 {
      var queryResponse, getErr := service.GetReplicas(pair);
      if getErr.None? {
        var newReplicas := NewReplicas(alert.status, queryResponse);
        if newReplicas == queryResponse.replicas {
          return None;
        }
        var updateErr := service.SetReplicas(pair, newReplicas);
        if updateErr.Some? {
          err := updateErr;
        }
      }
    }
  }

  /** One entry per failed update, in the order of the alerts; failed lookups leave none. */
  method HandleAlerts(alerts: seq<Alert>, service: ServiceTable, defaultNamespace: string) returns (errors: seq<Error>)
    modifies service
    ensures var (w, failures) := RunAlerts(defaultNamespace, old(service.world), alerts);
            service.world == w && errors == ErrorsOf(failures)
  {
    errors := [];
    for i := 0 to |alerts|
      invariant var (w, failures) := RunAlerts(defaultNamespace, old(service.world), alerts[..i]);
                service.world == w && errors == ErrorsOf(failures)
    {
      assert alerts[..i + 1][..i] == alerts[..i];
      var err := ScaleService(alerts[i], service, defaultNamespace);
      if err.Some? {
        errors := errors + [err.value];
      }
    }
    assert alerts[..|alerts|] == alerts;
  }

  predicate IsFor(d: string, alert: Alert, pair: Pair) {
    GetNamespace(d, alert.functionName) == pair && pair.name != ""
  }

  /** The alerts that are for one function. */
  function AlertsFor(d: string, alerts: seq<Alert>, pair: Pair): seq<Alert> {
    if alerts == [] then []
    else
      var last := alerts[|alerts| - 1];
      var init := AlertsFor(d, alerts[..|alerts| - 1], pair);
      if IsFor(d, last, pair) then init + [last] else init
  }

  function FailuresFor(failures: seq<Failure>, pair: Pair): seq<Error> {
    if failures == [] then []
    else
      var last := failures[|failures| - 1];
      FailuresFor(failures[..|failures| - 1], pair) + if last.pair == pair then [last.err] else []
  }

  /** A function by itself under a list of alerts: no other function, no names, no map. */
  function Fold(fn: Function, alerts: seq<Alert>): (Function, seq<Error>) {
    if alerts == [] then (fn, [])
    else
      var (fn', errors) := Fold(fn, alerts[..|alerts| - 1]);
      var (fn'', err) := AlertOn(fn', alerts[|alerts| - 1].status);
      (fn'', errors + if err.Some? then [err.value] else [])
  }

  lemma FoldAppend(fn: Function, alerts: seq<Alert>, last: Alert)
    ensures var (fn', errors) := Fold(fn, alerts);
            var (fn'', err) := AlertOn(fn', last.status);
            Fold(fn, alerts + [last]) == (fn'', errors + if err.Some? then [err.value] else [])
  {
    assert (alerts + [last])[..|alerts|] == alerts;
  }

  lemma FailuresAppend(failures: seq<Failure>, more: seq<Failure>, pair: Pair)
    requires |more| <= 1
    ensures FailuresFor(failures + more, pair) == FailuresFor(failures, pair) + FailuresFor(more, pair)
  {
    if more != [] {
      assert (failures + more)[..|failures|] == failures;
    } else {
      assert failures + more == failures;
    }
  }

  lemma AlertStepOn(d: string, w: World, alert: Alert, pair: Pair)
    ensures var (w', more) := AlertStep(d, w, alert);
            && w'.Keys == w.Keys && |more| <= 1
            && (pair in w && IsFor(d, alert, pair) ==>
                  var (fn, err) := AlertOn(w[pair], alert.status);
                  w'[pair] == fn && FailuresFor(more, pair) == if err.Some? then [err.value] else [])
            && (pair in w && !IsFor(d, alert, pair) ==> w'[pair] == w[pair])
            && (pair !in w || !IsFor(d, alert, pair) ==> FailuresFor(more, pair) == [])
  {
  }

  /**
   However alerts for different functions are mixed, each function ends as if only its own alerts
   had been handled, with the same failed updates in the same order.
   */
  lemma {:induction false} EachFunctionOnItsOwn(d: string, w: World, alerts: seq<Alert>, pair: Pair)
    ensures var (w', failures) := RunAlerts(d, w, alerts);
            && w'.Keys == w.Keys
            && (pair in w ==> (w'[pair], FailuresFor(failures, pair)) == Fold(w[pair], AlertsFor(d, alerts, pair)))
            && (pair !in w ==> FailuresFor(failures, pair) == [])
  {
    if alerts != [] {
      var init, last := alerts[..|alerts| - 1], alerts[|alerts| - 1];
      var (w1, failures) := RunAlerts(d, w, init);
      EachFunctionOnItsOwn(d, w, init, pair);
      AlertStepOn(d, w1, last, pair);
      FailuresAppend(failures, AlertStep(d, w1, last).1, pair);
      var more := FailuresFor(AlertStep(d, w1, last).1, pair);
      if pair in w && IsFor(d, last, pair) {
        FoldAppend(w[pair], AlertsFor(d, init, pair), last);
      } else {
        assert FailuresFor(failures, pair) + more == FailuresFor(failures, pair);
      }
    }
  }

  /** The errors of the updates among the calls from `start` on, in order. */
  function FailedUpdates(replies: (seq<Call>, uint64) -> Option<Error>, calls: seq<Call>, start: nat): seq<Error> {
    if |calls| <= start then []
    else
      var init, last := calls[..|calls| - 1], calls[|calls| - 1];
      var err := if last.Updated? then replies(init, last.count) else None;
      FailedUpdates(replies, init, start) + if err.Some? then [err.value] else []
  }

  lemma FailedUpdatesAppend(replies: (seq<Call>, uint64) -> Option<Error>, calls: seq<Call>, start: nat, call: Call)
    requires start <= |calls|
    ensures var err := if call.Updated? then replies(calls, call.count) else None;
            FailedUpdates(replies, calls + [call], start) ==
            FailedUpdates(replies, calls, start) + if err.Some? then [err.value] else []
  {
    assert (calls + [call])[..|calls|] == calls;
  }

  /**
   A function's errors are exactly those of the updates made for it that failed, one for each, and
   each of its alerts is one query and at most one update.
   */
  lemma {:induction false} OneErrorPerFailedUpdate(fn: Function, alerts: seq<Alert>)
    ensures var (fn', errors) := Fold(fn, alerts);
            && fn.calls <= fn'.calls && |alerts| <= |fn'.calls| - |fn.calls| <= 2 * |alerts|
            && fn'.answers == fn.answers && fn'.replies == fn.replies
            && errors == FailedUpdates(fn.replies, fn'.calls, |fn.calls|)
  {
    if alerts != [] {
      var init, status := alerts[..|alerts| - 1], alerts[|alerts| - 1].status;
      OneErrorPerFailedUpdate(fn, init);
      var (fn1, errors) := Fold(fn, init);
      var count := NewReplicas(status, fn1.answers(fn1.calls).0);
      FailedUpdatesAppend(fn.replies, fn1.calls, |fn.calls|, Queried);
      FailedUpdatesAppend(fn.replies, fn1.calls + [Queried], |fn.calls|, Updated(count));
      assert errors + [] == errors;
    }
  }

  /** Only the order of the alerts of each function matters: alerts for different functions commute. */
  lemma OnlyOrderPerFunctionMatters(d: string, w: World, a: seq<Alert>, b: seq<Alert>)
    requires forall pair :: AlertsFor(d, a, pair) == AlertsFor(d, b, pair)
    ensures RunAlerts(d, w, a).0 == RunAlerts(d, w, b).0
    ensures forall pair :: FailuresFor(RunAlerts(d, w, a).1, pair) == FailuresFor(RunAlerts(d, w, b).1, pair)
  {
    forall pair
      ensures FailuresFor(RunAlerts(d, w, a).1, pair) == FailuresFor(RunAlerts(d, w, b).1, pair)
      ensures RunAlerts(d, w, a).0.Keys == RunAlerts(d, w, b).0.Keys == w.Keys
      ensures pair in w ==> RunAlerts(d, w, a).0[pair] == RunAlerts(d, w, b).0[pair]
    {
      EachFunctionOnItsOwn(d, w, a, pair);
      EachFunctionOnItsOwn(d, w, b, pair);
    }
  }

  /** The counts that a list of alerts leads to, when nothing fails: `CalculateReplicas`, folded. */
  function FoldCount(r: ServiceQueryResponse, alerts: seq<Alert>): ServiceQueryResponse {
    if alerts == [] then r
    else
      var r' := FoldCount(r, alerts[..|alerts| - 1]);
      r'.(replicas := CalculateReplicas(DEFAULT_MAX_REPLICAS, alerts[|alerts| - 1].status, r'.replicas,
                                        r'.maxReplicas, r'.minReplicas, r'.scalingFactor))
  }

  /** What the provider would answer now. */
  function Current(fn: Function): ServiceQueryResponse {
    fn.answers(fn.calls).0
  }

  /** After these calls a query succeeds and changes nothing, and an update succeeds and sets the count. */
  predicate ObeysAfter(fn: Function, calls: seq<Call>, count: uint64) {
    var (response, err) := fn.answers(calls);
    && err.None? && fn.replies(calls, count).None?
    && fn.answers(calls + [Queried]).0 == response
    && fn.answers(calls + [Updated(count)]).0 == response.(replicas := count)
  }

  ghost predicate Obeys(fn: Function) {
    forall calls, count :: ObeysAfter(fn, calls, count)
  }

  /** With a provider that does as it is told, the final count is the fold of the function's own alerts. */
  lemma {:induction false} FinalCountIsFold(d: string, w: World, alerts: seq<Alert>, pair: Pair)
    requires pair in w && Obeys(w[pair])
    ensures var (w', failures) := RunAlerts(d, w, alerts);
            && pair in w'
            && Current(w'[pair]) == FoldCount(Current(w[pair]), AlertsFor(d, alerts, pair))
            && FailuresFor(failures, pair) == []
  {
    EachFunctionOnItsOwn(d, w, alerts, pair);
    FoldWithoutFailures(w[pair], AlertsFor(d, alerts, pair));
  }

  lemma {:induction false} FoldWithoutFailures(fn: Function, alerts: seq<Alert>)
    requires Obeys(fn)
    ensures var (fn', errors) := Fold(fn, alerts);
            Current(fn') == FoldCount(Current(fn), alerts) && errors == [] && Obeys(fn')
  {
    if alerts != [] {
      var init, status := alerts[..|alerts| - 1], alerts[|alerts| - 1].status;
      FoldWithoutFailures(fn, init);
      AlertObeyed(Fold(fn, init).0, status);
    }
  }

  lemma AlertObeyed(fn: Function, status: string)
    requires Obeys(fn)
    ensures var (fn', err) := AlertOn(fn, status);
            Current(fn') == Current(fn).(replicas := NewReplicas(status, Current(fn))) && err.None? && Obeys(fn')
  {
    var count := NewReplicas(status, Current(fn));
    assert ObeysAfter(fn, fn.calls, count);
    assert ObeysAfter(fn, fn.calls + [Queried], count);
    var fn' := AlertOn(fn, status).0;
    forall calls, k ensures ObeysAfter(fn', calls, k) {
      assert ObeysAfter(fn, calls, k);
    }
  }

  lemma {:induction false} FoldKeepsLabels(r: ServiceQueryResponse, alerts: seq<Alert>)
    ensures FoldCount(r, alerts) == r.(replicas := FoldCount(r, alerts).replicas)
  {
    if alerts != [] {
      FoldKeepsLabels(r, alerts[..|alerts| - 1]);
    }
  }

  /** Whatever came before, a last alert that is not firing leaves the function at its minimum. */
  lemma LastResolvedSetsMin(d: string, w: World, alerts: seq<Alert>, pair: Pair)
    requires pair in w && Obeys(w[pair]) && Current(w[pair]).scalingFactor <= 100
    requires var mine := AlertsFor(d, alerts, pair); mine != [] && mine[|mine| - 1].status != "firing"
    ensures var w' := RunAlerts(d, w, alerts).0;
            pair in w' && Current(w'[pair]) == Current(w[pair]).(replicas := Current(w[pair]).minReplicas)
  {
    var r, mine := Current(w[pair]), AlertsFor(d, alerts, pair);
    var before := FoldCount(r, mine[..|mine| - 1]);
    FinalCountIsFold(d, w, alerts, pair);
    FoldKeepsLabels(r, mine[..|mine| - 1]);
    OtherAlert(DEFAULT_MAX_REPLICAS, mine[|mine| - 1].status, before.replicas, r.maxReplicas, r.minReplicas, r.scalingFactor);
  }

  /** An accepted function whose maximum is not 0. */
  predicate CanReachMax(r: ServiceQueryResponse) {
    1 <= r.scalingFactor <= 100 && 1 <= r.maxReplicas
  }

  /** The calls that one more alert makes for a function: a query, and an update of what it calculates if that is new. */
  function CallsOf(fn: Function, status: string): seq<Call> {
    var (r, err) := fn.answers(fn.calls);
    var count := CalculateReplicas(DEFAULT_MAX_REPLICAS, status, r.replicas, r.maxReplicas, r.minReplicas, r.scalingFactor);
    if err.Some? || count == r.replicas then [Queried] else [Queried, Updated(count)]
  }

  /**
   After any alerts, the next one makes exactly these calls for its function, and none for the
   others, nor for a function that the provider does not know or an alert that names none.
   */
  lemma EachAlertCalls(d: string, w: World, alerts: seq<Alert>, alert: Alert, pair: Pair)
    requires pair in w
    ensures var w1, w2 := RunAlerts(d, w, alerts).0, RunAlerts(d, w, alerts + [alert]).0;
            && pair in w1 && w1.Keys == w2.Keys == w.Keys
            && w2[pair].calls == w1[pair].calls +
                 if GetNamespace(d, alert.functionName) == pair && pair.name != "" then CallsOf(w1[pair], alert.status) else []
  {
    assert (alerts + [alert])[..|alerts|] == alerts;
    EachFunctionOnItsOwn(d, w, alerts, pair);
    var w1 := RunAlerts(d, w, alerts).0;
    AlertStepOn(d, w1, alert, pair);
    AlertOnCalls(w1[pair], alert.status);
  }

  lemma AlertOnCalls(fn: Function, status: string)
    ensures AlertOn(fn, status).0.calls == fn.calls + CallsOf(fn, status)
  {
    var count := NewReplicas(status, fn.answers(fn.calls).0);
    assert fn.calls + [Queried] + [Updated(count)] == fn.calls + [Queried, Updated(count)];
  }

  function Queries(n: nat): seq<Call> {
    if n == 0 then [] else Queries(n - 1) + [Queried]
  }

  /** At its maximum a function is queried by firing alerts, but not updated any more. */
  lemma {:induction false} NoUpdatesAtMax(fn: Function, alerts: seq<Alert>)
    requires Obeys(fn) && forall a :: a in alerts ==> a.status == "firing"
    requires var r := Current(fn);
             CanReachMax(r) && r.replicas == Min(r.maxReplicas, DEFAULT_MAX_REPLICAS)
    ensures var fn' := Fold(fn, alerts).0;
            && Current(fn') == Current(fn) && Obeys(fn')
            && fn'.calls == fn.calls + Queries(|alerts|)
  {
    if alerts == [] {
      assert fn.calls + [] == fn.calls;
    } else {
      var init, fn1 := alerts[..|alerts| - 1], Fold(fn, alerts[..|alerts| - 1]).0;
      NoUpdatesAtMax(fn, init);
      assert alerts[|alerts| - 1] in alerts;
      QueryAtMax(fn1);
      assert fn.calls + Queries(|init|) + [Queried] == fn.calls + Queries(|alerts|);
    }
  }

  lemma QueryAtMax(fn: Function)
    requires Obeys(fn)
    requires var r := Current(fn);
             CanReachMax(r) && r.replicas == Min(r.maxReplicas, DEFAULT_MAX_REPLICAS)
    ensures CallsOf(fn, FIRING) == [Queried]
    ensures var fn' := AlertOn(fn, FIRING).0;
            fn'.calls == fn.calls + [Queried] && Current(fn') == Current(fn) && Obeys(fn')
  {
    var r := Current(fn);
    AlertObeyed(fn, FIRING);
    FiringAlert(DEFAULT_MAX_REPLICAS, r.replicas, r.maxReplicas, r.minReplicas, r.scalingFactor);
    AlertOnCalls(fn, FIRING);
  }

  /** So a function that its alerts have taken to its maximum gets no further update from them. */
  lemma MaxedFunctionIsOnlyQueried(d: string, w: World, alerts: seq<Alert>, pair: Pair)
    requires pair in w && Obeys(w[pair]) && forall a :: a in AlertsFor(d, alerts, pair) ==> a.status == "firing"
    requires var r := Current(w[pair]);
             CanReachMax(r) && r.replicas == Min(r.maxReplicas, DEFAULT_MAX_REPLICAS)
    ensures var w' := RunAlerts(d, w, alerts).0;
            pair in w' && w'[pair].calls == w[pair].calls + Queries(|AlertsFor(d, alerts, pair)|)
  {
    EachFunctionOnItsOwn(d, w, alerts, pair);
    NoUpdatesAtMax(w[pair], AlertsFor(d, alerts, pair));
  }

  lemma {:induction false} FoldCountOfFiring(r: ServiceQueryResponse, alerts: seq<Alert>)
    requires forall a :: a in alerts ==> a.status == FIRING
    ensures FoldCount(r, alerts) ==
            r.(replicas := Fire(DEFAULT_MAX_REPLICAS, r.replicas, r.maxReplicas, r.minReplicas, r.scalingFactor, |alerts|))
  {
    if alerts != [] {
      FoldCountOfFiring(r, alerts[..|alerts| - 1]);
      assert alerts[|alerts| - 1] in alerts;
    }
  }

  /**
   Among any other alerts, firing alerts for a function take it to its capped maximum exactly when
   there are so many that their steps reach it.
   */
  lemma FiringAlertsReachMax(d: string, w: World, alerts: seq<Alert>, pair: Pair)
    requires pair in w && Obeys(w[pair]) && CanReachMax(Current(w[pair]))
    requires forall a :: a in AlertsFor(d, alerts, pair) ==> a.status == FIRING
    ensures var w' := RunAlerts(d, w, alerts).0;
            var r, n := Current(w[pair]), |AlertsFor(d, alerts, pair)|;
            var m := Min(r.maxReplicas, DEFAULT_MAX_REPLICAS);
            && pair in w'
            && (Current(w'[pair]).replicas == m <==> Reaches(m, StepOf(m, r.scalingFactor), r.replicas, n))
            && (n > AlertsNeeded(r.scalingFactor) ==> Current(w'[pair]).replicas == m)
  {
    var r, mine := Current(w[pair]), AlertsFor(d, alerts, pair);
    FinalCountIsFold(d, w, alerts, pair);
    FoldCountOfFiring(r, mine);
    FiringReachesMaxExactly(DEFAULT_MAX_REPLICAS, r.replicas, r.maxReplicas, r.minReplicas, r.scalingFactor, |mine|);
    if |mine| > AlertsNeeded(r.scalingFactor) {
      MoreReaches(DEFAULT_MAX_REPLICAS, r.replicas, r.maxReplicas, r.minReplicas, r.scalingFactor, |mine|);
    }
  }
}
