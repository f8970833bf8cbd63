/**
 Everybody who writes the replica count of one function at once: scale-from-zero runs that share
 single flights, alerts, and manual scale requests. Between what a writer reads and what it writes
 any number of steps of the others may come, and each request may fail, applied or not.
 */
module Cluster {

  import opened Wrappers
  import opened Service
  import opened Ranges
  import opened ReplicaArithmetic
  import opened ScaleRuns
  import F = Flights
  import A = Alerts

  /** The function's labels as one query reads them. */
  datatype Labels = Labels(min: uint64, max: uint64, factor: uint64)

  /**
   The cap, the scaling configuration, and the labels that the function may have: it can be
   deployed again at any time, so that each query may read other ones.
   */
  datatype Settings = Settings(cap: uint64, labels: iset<Labels>, cfg: Config)
  {
    ghost predicate Accepted() {
      && 1 <= cap < TWO_TO_THE_64 / 2
      && forall l :: l in labels ==> 1 <= l.factor <= 100
    }

    /** No label asks for more replicas than the cap. */
    ghost predicate MinWithinCap() {
      forall l :: l in labels ==> l.min <= cap
    }
  }

  datatype Wait = Free | OnGet(f: nat) | OnSet(f: nat)

  datatype Scaler = Scaler(run: Run, wait: Wait)

  /** An alert before its query, with the update that it decided on, and done. */
  datatype AlertPc = Fresh(status: string) | Pending(count: uint64) | Handled

  /** A manual request before the clamp, with the clamped count on its way to the provider, and done. */
  datatype ManualPc = Asked(count: uint64) | Corrected(count: uint64) | Served

  datatype State = State(
    desired: uint64,
    scalers: seq<Scaler>,
    gets: seq<F.Flight<()>>,
    sets: seq<F.Flight<uint64>>,
    alerts: seq<AlertPc>,
    manuals: seq<ManualPc>)

  datatype Step =
    | Ask(i: nat)                                                // a scaler joins the flight of a query
    | RunGet(f: nat, labels: Labels, available: uint64, err: Option<Error>)  // the provider answers it
    | PublishGet(f: nat)
    | Receive(i: nat)
    | Request(i: nat)                                            // a scaler joins the flight of an update
    | RunSet(f: nat, applied: bool, err: Option<Error>)          // the provider executes it
    | PublishSet(f: nat)
    | Acknowledge(i: nat)
    | Observe(j: nat, labels: Labels)                            // an alert queries and decides
    | Update(j: nat, applied: bool)                              // an alert's update
    | Clamp(k: nat)                                              // a manual request is corrected
    | Forward(k: nat, applied: bool)                             // and passed on to the provider

  const GET := "GetReplicas"
  const SET := "SetReplicas"

  predicate Enabled(x: Settings, s: State, step: Step) {
    match step
    case Ask(i) => i < |s.scalers| && s.scalers[i].wait.Free? && Asking(s.scalers[i].run)
    case RunGet(f, labels, _, _) => f < |s.gets| && s.gets[f].stage.Running? && labels in x.labels
    case PublishGet(f) => f < |s.gets| && s.gets[f].stage.Ran?
    case Receive(i) =>
      && i < |s.scalers| && s.scalers[i].wait.OnGet? && s.scalers[i].wait.f < |s.gets|
      && s.gets[s.scalers[i].wait.f].stage.Published? && Asking(s.scalers[i].run)
    case Request(i) => i < |s.scalers| && s.scalers[i].wait.Free? && s.scalers[i].run.phase.Setting?
    case RunSet(f, _, _) => f < |s.sets| && s.sets[f].stage.Running?
    case PublishSet(f) => f < |s.sets| && s.sets[f].stage.Ran?
    case Acknowledge(i) =>
      && i < |s.scalers| && s.scalers[i].wait.OnSet? && s.scalers[i].wait.f < |s.sets|
      && s.sets[s.scalers[i].wait.f].stage.Published? && s.scalers[i].run.phase.Setting?
    case Observe(j, labels) => j < |s.alerts| && s.alerts[j].Fresh? && labels in x.labels
    case Update(j, _) => j < |s.alerts| && s.alerts[j].Pending?
    case Clamp(k) => k < |s.manuals| && s.manuals[k].Asked?
    case Forward(k, _) => k < |s.manuals| && s.manuals[k].Corrected?
  }

  function Move(s: State, i: nat, run: Run, wait: Wait): State
    requires i < |s.scalers|
  {
    s.(scalers := s.scalers[i := Scaler(run, wait)])
  }

  /** What the provider answers to a query: the desired count of the moment, and the labels. */
  function AnswerOf(s: State, l: Labels, available: uint64, err: Option<Error>): FlightResult {
    if err.Some? then FlightResult(Some(EMPTY_RESPONSE), err)
    else FlightResult(Some(ServiceQueryResponse(s.desired, l.max, l.min, l.factor, available, None)), None)
  }

  function Apply(x: Settings, s: State, step: Step): State
    requires Enabled(x, s, step)
  {
    match step
    case Ask(i) =>
      var (gets, f) := F.Join(s.gets, GET, ());
      Move(s, i, s.scalers[i].run, OnGet(f)).(gets := gets)
    case RunGet(f, labels, available, err) => s.(gets := F.Run(s.gets, f, AnswerOf(s, labels, available, err)))
    case PublishGet(f) => s.(gets := F.Publish(s.gets, f))
    case Receive(i) =>
      Move(s, i, OnAnswer(x.cfg, s.scalers[i].run, s.gets[s.scalers[i].wait.f].stage.out), Free)
    case Request(i) =>
      var (sets, f) := F.Join(s.sets, SET, s.scalers[i].run.minReplicas);
      Move(s, i, s.scalers[i].run, OnSet(f)).(sets := sets)
    case RunSet(f, applied, err) =>
      s.(sets := F.Run(s.sets, f, FlightResult(None, err)), desired := if applied then s.sets[f].job else s.desired)
    case PublishSet(f) => s.(sets := F.Publish(s.sets, f))
    case Acknowledge(i) =>
      Move(s, i, OnReply(x.cfg, s.scalers[i].run, s.sets[s.scalers[i].wait.f].stage.out.err), Free)
    case Observe(j, l) =>
      var count := CalculateReplicas(x.cap, s.alerts[j].status, s.desired, l.max, l.min, l.factor);
      s.(alerts := s.alerts[j := if count == s.desired then Handled else Pending(count)])
    case Update(j, applied) =>
      s.(desired := if applied then s.alerts[j].count else s.desired, alerts := s.alerts[j := Handled])
    case Clamp(k) =>
      s.(manuals := s.manuals[k := Corrected(ClampReplicas(x.cap, s.manuals[k].count))])
    case Forward(k, applied) =>
      s.(desired := if applied then s.manuals[k].count else s.desired, manuals := s.manuals[k := Served])
  }

  /** Requests that come in with `desired` replicas set; a scaler has looked in its cache. */
  predicate Initial(s: State, desired: uint64) {
    && s.desired == desired && s.gets == [] && s.sets == []
    && (forall i :: 0 <= i < |s.scalers| ==>
          s.scalers[i].wait.Free? && s.scalers[i].run in {Run(Querying, 1, []), Run(Finished(READY), 1, [])})
    && (forall j :: 0 <= j < |s.alerts| ==> s.alerts[j].Fresh?)
    && (forall k :: 0 <= k < |s.manuals| ==> s.manuals[k].Asked?)
  }

  predicate Possible(x: Settings, s: State, steps: seq<Step>)
    decreases |steps|
  {
    steps == [] || (Enabled(x, s, steps[0]) && Possible(x, Apply(x, s, steps[0]), steps[1..]))
  }

  function After(x: Settings, s: State, steps: seq<Step>): State
    requires Possible(x, s, steps)
    decreases |steps|
  {
    if steps == [] then s else After(x, Apply(x, s, steps[0]), steps[1..])
  }

  predicate Climbing(r: Run) {
    r.phase.Attempting? || r.phase.Setting?
  }

  // The bound.

  /** What a query that was answered without error said of the minimum. */
  predicate GetOk(x: Settings, flight: F.Flight<()>) {
    !flight.stage.Running? && flight.stage.out.Good() ==> flight.stage.out.res.value.minReplicas <= x.cap
  }

  ghost predicate Bounded(x: Settings, s: State) {
    && s.desired <= x.cap
    && (forall f :: 0 <= f < |s.gets| ==> GetOk(x, s.gets[f]))
    && (forall f :: 0 <= f < |s.sets| ==> 1 <= s.sets[f].job <= x.cap)
    && (forall i :: 0 <= i < |s.scalers| && Climbing(s.scalers[i].run) ==> 1 <= s.scalers[i].run.minReplicas <= x.cap)
    && (forall j :: 0 <= j < |s.alerts| && s.alerts[j].Pending? ==> s.alerts[j].count <= x.cap)
    && (forall k :: 0 <= k < |s.manuals| && s.manuals[k].Corrected? ==> 1 <= s.manuals[k].count <= x.cap)
  }

  lemma FlightStepKeepsBound(x: Settings, s: State, step: Step)
    requires x.Accepted() && x.MinWithinCap() && Bounded(x, s) && Enabled(x, s, step)
    requires step.Ask? || step.RunGet? || step.PublishGet? || step.RunSet? || step.PublishSet?
    ensures Bounded(x, Apply(x, s, step))
  {
    var s' := Apply(x, s, step);
    assert |s'.sets| == |s.sets| && forall f :: 0 <= f < |s.sets| ==> s'.sets[f].job == s.sets[f].job;
  }

  lemma ScalerStepKeepsBound(x: Settings, s: State, step: Step)
    requires x.Accepted() && x.MinWithinCap() && Bounded(x, s) && Enabled(x, s, step)
    requires step.Receive? || step.Request? || step.Acknowledge?
    ensures Bounded(x, Apply(x, s, step))
  {
    if step.Receive? {
      assert GetOk(x, s.gets[s.scalers[step.i].wait.f]);
    }
  }

  lemma OtherStepKeepsBound(x: Settings, s: State, step: Step)
    requires x.Accepted() && x.MinWithinCap() && Bounded(x, s) && Enabled(x, s, step)
    requires step.Observe? || step.Update? || step.Clamp? || step.Forward?
    ensures Bounded(x, Apply(x, s, step))
  {
    if step.Observe? {
      OtherAlert(x.cap, s.alerts[step.j].status, s.desired, step.labels.max, step.labels.min, step.labels.factor);
    }
  }

  lemma StepKeepsBound(x: Settings, s: State, step: Step)
    requires x.Accepted() && x.MinWithinCap() && Bounded(x, s) && Enabled(x, s, step)
    ensures Bounded(x, Apply(x, s, step))
  {
    if step.Receive? || step.Request? || step.Acknowledge? {
      ScalerStepKeepsBound(x, s, step);
    } else if step.Observe? || step.Update? || step.Clamp? || step.Forward? {
      OtherStepKeepsBound(x, s, step);
    } else {
      FlightStepKeepsBound(x, s, step);
    }
  }

  lemma {:induction false} RunKeepsBound(x: Settings, s: State, steps: seq<Step>)
    requires x.Accepted() && x.MinWithinCap() && Bounded(x, s) && Possible(x, s, steps)
    ensures Bounded(x, After(x, s, steps))
    decreases |steps|
  {
    if steps != [] {
      StepKeepsBound(x, s, steps[0]);
      RunKeepsBound(x, Apply(x, s, steps[0]), steps[1..]);
    }
  }

  /** No writers, however many and however interleaved, take the function above the cap. */
  ghost predicate NeverAboveCap(x: Settings, desired: uint64) {
    forall s, steps :: Initial(s, desired) && Possible(x, s, steps) ==> After(x, s, steps).desired <= x.cap
  }

  /** A resolved alert asks for the minimum that it reads, whatever it is. */
  lemma ResolvedAlertSetsMin(x: Settings, l: Labels, desired: uint64)
    requires x.Accepted() && l in x.labels && desired != l.min
    ensures var s := State(desired, [], [], [], [Fresh("resolved")], []);
            var steps := [Observe(0, l), Update(0, true)];
            Initial(s, desired) && Possible(x, s, steps) && After(x, s, steps).desired == l.min
  {
    var s := State(desired, [], [], [], [Fresh("resolved")], []);
    var steps := [Observe(0, l), Update(0, true)];
    OtherAlert(x.cap, "resolved", desired, l.max, l.min, l.factor);
    var s1 := Apply(x, s, Observe(0, l));
    assert s1.alerts == [Pending(l.min)];
    assert steps[1..] == [Update(0, true)];
    var s2 := Apply(x, s1, Update(0, true));
    assert steps[1..][1..] == [];
    assert After(x, s1, steps[1..]) == s2;
  }

  /**
   With alerts, scale-from-zero runs and manual requests interleaved on stale reads, a count that
   starts within the cap stays there in every run exactly when every minimum that can be read is
   within the cap: nothing in the code clamps the minimum.
   */
  lemma NeverAboveCapIffMinWithinCap(x: Settings, desired: uint64)
    requires x.Accepted() && desired <= x.cap
    ensures NeverAboveCap(x, desired) <==> x.MinWithinCap()
  {
    if x.MinWithinCap() {
      forall s, steps | Initial(s, desired) && Possible(x, s, steps)
        ensures After(x, s, steps).desired <= x.cap
      {
        RunKeepsBound(x, s, steps);
      }
    } else {
      var l :| l in x.labels && l.min > x.cap;
      ResolvedAlertSetsMin(x, l, desired);
    }
  }

  /** Every write on the way is within the cap, and those of scalers and manual requests are at least 1. */
  lemma WritesAreBounded(x: Settings, s: State, desired: uint64, steps: seq<Step>)
    requires x.Accepted() && x.MinWithinCap() && desired <= x.cap
    requires Initial(s, desired) && Possible(x, s, steps)
    ensures var s' := After(x, s, steps);
            && s'.desired <= x.cap
            && (forall f :: 0 <= f < |s'.sets| ==> 1 <= s'.sets[f].job <= x.cap)
            && (forall j :: 0 <= j < |s'.alerts| && s'.alerts[j].Pending? ==> s'.alerts[j].count <= x.cap)
            && (forall k :: 0 <= k < |s'.manuals| && s'.manuals[k].Corrected? ==> 1 <= s'.manuals[k].count <= x.cap)
  {
    RunKeepsBound(x, s, steps);
  }

  /** With the cap of the code, an alert decides here as `scaleService` does for a function that answers the same. */
  lemma AlertDecidesAsScaleService(x: Settings, s: State, j: nat, l: Labels, fn: A.Function)
    requires x.cap == DEFAULT_MAX_REPLICAS && Enabled(x, s, Observe(j, l))
    requires var (r, err) := fn.answers(fn.calls);
             err.None? && r.replicas == s.desired && l == Labels(r.minReplicas, r.maxReplicas, r.scalingFactor)
    ensures var calls := A.CallsOf(fn, s.alerts[j].status);
            Apply(x, s, Observe(j, l)) ==
            s.(alerts := s.alerts[j := if calls == [A.Queried] then Handled else Pending(calls[1].count)])
  {
  }

  /** A manual request that goes through sets the allowed count that is nearest to the one asked for. */
  lemma ManualSetsNearest(x: Settings, s: State, k: nat, other: uint64)
    requires x.Accepted() && Enabled(x, s, Clamp(k)) && 1 <= other <= x.cap
    ensures var asked, s1 := s.manuals[k].count, Apply(x, s, Clamp(k));
            && s1.desired == s.desired && Enabled(x, s1, Forward(k, true))
            && var c := Apply(x, s1, Forward(k, true)).desired;
               && 1 <= c <= x.cap
               && (if c <= asked then asked - c else c - asked) <= (if other <= asked then asked - other else other - asked)
  {
    ClampIsNearest(x.cap, s.manuals[k].count, other);
  }

  // What scale-from-zero runs are told.

  /** An event of a run is what some flight was published with. */
  ghost predicate Told(s: State, e: Event) {
    match e
    case Asked(_, answer) => exists f :: 0 <= f < |s.gets| && s.gets[f].stage == F.Published(answer)
    case Requested(_, _, err) => exists f :: 0 <= f < |s.sets| && s.sets[f].stage.Published? && s.sets[f].stage.out.err == err
    case _ => true
  }

  ghost predicate ToldOk(s: State) {
    forall i, j :: 0 <= i < |s.scalers| && 0 <= j < |s.scalers[i].run.log| ==> Told(s, s.scalers[i].run.log[j])
  }

  lemma ToldStays(x: Settings, s: State, step: Step, e: Event)
    requires Told(s, e) && Enabled(x, s, step)
    ensures Told(Apply(x, s, step), e)
  {
    var s' := Apply(x, s, step);
    if e.Asked? {
      var f :| 0 <= f < |s.gets| && s.gets[f].stage == F.Published(e.answer);
      assert s'.gets[f] == s.gets[f];
    } else if e.Requested? {
      var f :| 0 <= f < |s.sets| && s.sets[f].stage.Published? && s.sets[f].stage.out.err == e.err;
      assert s'.sets[f] == s.sets[f];
    }
  }

  /** What a step adds to the log of a run is what it was told. */
  lemma NewEventTold(x: Settings, s: State, step: Step, i: nat, j: nat)
    requires Enabled(x, s, step) && i < |s.scalers|
    requires |s.scalers[i].run.log| <= j < |Apply(x, s, step).scalers[i].run.log|
    ensures s.scalers[i].run.log <= Apply(x, s, step).scalers[i].run.log
    ensures Told(Apply(x, s, step), Apply(x, s, step).scalers[i].run.log[j])
  {
    var s', run := Apply(x, s, step), s.scalers[i].run;
    if step.Receive? {
      assert s'.gets[s.scalers[i].wait.f].stage.Published?;
    } else {
      assert s'.sets[s.scalers[i].wait.f].stage.Published?;
    }
  }

  lemma StepKeepsTold(x: Settings, s: State, step: Step)
    requires ToldOk(s) && Enabled(x, s, step)
    ensures ToldOk(Apply(x, s, step))
  {
    var s' := Apply(x, s, step);
    forall i, j | 0 <= i < |s'.scalers| && 0 <= j < |s'.scalers[i].run.log|
      ensures Told(s', s'.scalers[i].run.log[j])
    {
      if j < |s.scalers[i].run.log| {
        LogStays(x, s, step, i);
        ToldStays(x, s, step, s.scalers[i].run.log[j]);
      } else {
        NewEventTold(x, s, step, i, j);
      }
    }
  }

  lemma LogStays(x: Settings, s: State, step: Step, i: nat)
    requires Enabled(x, s, step) && i < |s.scalers|
    ensures s.scalers[i].run.log <= Apply(x, s, step).scalers[i].run.log
  {
  }

  /**
   In every run, what the log of a scale-from-zero run says it was answered is what some flight was
   published with.
   */
  lemma {:induction false} RunsAreTold(x: Settings, s: State, steps: seq<Step>)
    requires ToldOk(s) && Possible(x, s, steps)
    ensures ToldOk(After(x, s, steps))
    decreases |steps|
  {
    if steps != [] {
      StepKeepsTold(x, s, steps[0]);
      RunsAreTold(x, Apply(x, s, steps[0]), steps[1..]);
    }
  }

  /** A step that hands an outcome on brings the run closer to its end. */
  lemma OutcomeAdvancesRun(x: Settings, s: State, step: Step)
    requires Enabled(x, s, step) && (step.Receive? || step.Acknowledge?)
    ensures Rank(x.cfg, Apply(x, s, step).scalers[step.i].run) < Rank(x.cfg, s.scalers[step.i].run)
    ensures Apply(x, s, step).scalers[step.i].wait.Free?
  {
    var run := s.scalers[step.i].run;
    if step.Receive? {
      InputReducesRank(x.cfg, run, Answer(s.gets[s.scalers[step.i].wait.f].stage.out));
    } else {
      InputReducesRank(x.cfg, run, Reply(s.sets[s.scalers[step.i].wait.f].stage.out.err));
    }
  }

  // Progress.

  /** Whoever waits is on a flight that there is, for what its run is at. */
  predicate WaitOk(s: State, i: nat)
    requires i < |s.scalers|
  {
    match s.scalers[i].wait
    case Free => true
    case OnGet(f) => f < |s.gets| && Asking(s.scalers[i].run)
    case OnSet(f) => f < |s.sets| && s.scalers[i].run.phase.Setting?
  }

  ghost predicate WaitsOk(s: State) {
    forall i: nat :: i < |s.scalers| ==> WaitOk(s, i)
  }

  lemma StepKeepsWaits(x: Settings, s: State, step: Step)
    requires WaitsOk(s) && Enabled(x, s, step)
    ensures WaitsOk(Apply(x, s, step))
  {
    var s' := Apply(x, s, step);
    forall i: nat | i < |s'.scalers| ensures WaitOk(s', i) {
      assert WaitOk(s, i);
    }
  }

  lemma {:induction false} RunKeepsWaits(x: Settings, s: State, steps: seq<Step>)
    requires WaitsOk(s) && Possible(x, s, steps)
    ensures WaitsOk(After(x, s, steps))
    decreases |steps|
  {
    if steps != [] {
      StepKeepsWaits(x, s, steps[0]);
      RunKeepsWaits(x, Apply(x, s, steps[0]), steps[1..]);
    }
  }

  /** Everybody is through. */
  ghost predicate Done(s: State) {
    && (forall i: nat :: i < |s.scalers| ==> Over(s.scalers[i].run))
    && (forall j: nat :: j < |s.alerts| ==> s.alerts[j].Handled?)
    && (forall k: nat :: k < |s.manuals| ==> s.manuals[k].Served?)
  }

  /** No writer gets stuck: in every run some step is possible as long as somebody is not through. */
  lemma StuckOnlyWhenDone(x: Settings, s: State, desired: uint64, steps: seq<Step>, l: Labels)
    requires Initial(s, desired) && Possible(x, s, steps) && l in x.labels
    ensures var s' := After(x, s, steps);
            !Done(s') ==> exists step :: Enabled(x, s', step)
  {
    RunKeepsWaits(x, s, steps);
    if !Done(After(x, s, steps)) {
      SomeoneCanStep(x, After(x, s, steps), l);
    }
  }

  lemma SomeoneCanStep(x: Settings, s: State, l: Labels)
    requires WaitsOk(s) && !Done(s) && l in x.labels
    ensures exists step :: Enabled(x, s, step)
  {
    if i: nat :| i < |s.scalers| && !Over(s.scalers[i].run) {
      ScalerCanStep(x, s, i, l);
    } else if j: nat :| j < |s.alerts| && !s.alerts[j].Handled? {
      assert Enabled(x, s, Observe(j, l)) || Enabled(x, s, Update(j, true));
    } else {
      var k: nat :| k < |s.manuals| && !s.manuals[k].Served?;
      assert Enabled(x, s, Clamp(k)) || Enabled(x, s, Forward(k, true));
    }
  }

  lemma ScalerCanStep(x: Settings, s: State, i: nat, l: Labels)
    requires WaitsOk(s) && i < |s.scalers| && !Over(s.scalers[i].run) && l in x.labels
    ensures exists step :: Enabled(x, s, step)
  {
    assert WaitOk(s, i);
    match s.scalers[i].wait
    case Free => assert Enabled(x, s, Ask(i)) || Enabled(x, s, Request(i));
    case OnGet(f) =>
      assert Enabled(x, s, RunGet(f, l, 0, None)) || Enabled(x, s, PublishGet(f)) || Enabled(x, s, Receive(i));
    case OnSet(f) =>
      assert Enabled(x, s, RunSet(f, true, None)) || Enabled(x, s, PublishSet(f)) || Enabled(x, s, Acknowledge(i));
  }

  // Scale-from-zero alone.

  /** All labels that can be read ask for the same count when scaling from zero. */
  ghost predicate OneTarget(x: Settings, t: uint64) {
    forall l :: l in x.labels ==> LargerOfOneAnd(l.min, t)
  }

  /** Zero is seen only when the function started there, and with it the target. */
  ghost predicate SawOk(x: Settings, t: uint64, d0: uint64, flight: F.Flight<()>) {
    !flight.stage.Running? && flight.stage.out.Good() ==>
      var r := flight.stage.out.res.value;
      && (r.replicas == 0 ==> d0 == 0)
      && (OneTarget(x, t) ==> LargerOfOneAnd(r.minReplicas, t))
  }

  /** Nobody climbs from above zero, nor without an attempt; and everybody who climbs goes to `t`. */
  predicate ClimbOk(x: Settings, t: uint64, d0: uint64, run: Run) {
    Climbing(run) ==> d0 == 0 && Attempts(x.cfg) > 0 && run.minReplicas == t
  }

  ghost predicate OnlyFromZero(x: Settings, t: uint64, d0: uint64, s: State) {
    && (d0 > 0 || Attempts(x.cfg) == 0 || OneTarget(x, t))
    && s.alerts == [] && s.manuals == []
    && (s.desired == d0 || (d0 == 0 && Attempts(x.cfg) > 0 && s.desired == t))
    && (forall f :: 0 <= f < |s.gets| ==> SawOk(x, t, d0, s.gets[f]))
    && (s.sets != [] ==> d0 == 0 && Attempts(x.cfg) > 0)
    && (forall f :: 0 <= f < |s.sets| ==> s.sets[f].job == t)
    && (forall i :: 0 <= i < |s.scalers| ==> ClimbOk(x, t, d0, s.scalers[i].run))
  }

  lemma FlightStepFromZero(x: Settings, t: uint64, d0: uint64, s: State, step: Step)
    requires OnlyFromZero(x, t, d0, s) && Enabled(x, s, step)
    requires !step.Receive? && !step.Request? && !step.Acknowledge?
    ensures OnlyFromZero(x, t, d0, Apply(x, s, step))
    ensures Apply(x, s, step).desired != s.desired ==> Apply(x, s, step).desired == t && d0 == 0
  {
    if step.RunSet? || step.PublishSet? {
      assert s.sets[step.f].job == t;
    } else {
      assert Apply(x, s, step).sets == s.sets;
    }
  }

  lemma ScalerStepFromZero(x: Settings, t: uint64, d0: uint64, s: State, step: Step)
    requires OnlyFromZero(x, t, d0, s) && Enabled(x, s, step)
    requires step.Receive? || step.Request? || step.Acknowledge?
    ensures OnlyFromZero(x, t, d0, Apply(x, s, step)) && Apply(x, s, step).desired == s.desired
  {
    var run := s.scalers[step.i].run;
    assert ClimbOk(x, t, d0, run);
    if step.Receive? {
      var flight := s.gets[s.scalers[step.i].wait.f];
      assert SawOk(x, t, d0, flight);
      ReceiveFromZero(x, t, d0, run, flight);
    } else if step.Request? {
      var sets := F.Join(s.sets, SET, run.minReplicas).0;
      assert sets == s.sets || sets == s.sets + [F.Flight(SET, run.minReplicas, F.Running)];
    }
  }

  lemma ReceiveFromZero(x: Settings, t: uint64, d0: uint64, run: Run, flight: F.Flight<()>)
    requires d0 > 0 || Attempts(x.cfg) == 0 || OneTarget(x, t)
    requires Asking(run) && ClimbOk(x, t, d0, run)
    requires flight.stage.Published? && SawOk(x, t, d0, flight)
    ensures ClimbOk(x, t, d0, OnAnswer(x.cfg, run, flight.stage.out))
  {
  }

  lemma {:induction false} RunFromZero(x: Settings, t: uint64, d0: uint64, s: State, steps: seq<Step>)
    requires OnlyFromZero(x, t, d0, s) && Possible(x, s, steps)
    ensures OnlyFromZero(x, t, d0, After(x, s, steps))
    ensures s.desired > 0 ==> After(x, s, steps).desired == s.desired
    decreases |steps|
  {
    if steps != [] {
      if steps[0].Receive? || steps[0].Request? || steps[0].Acknowledge? {
        ScalerStepFromZero(x, t, d0, s, steps[0]);
      } else {
        FlightStepFromZero(x, t, d0, s, steps[0]);
      }
      RunFromZero(x, t, d0, Apply(x, s, steps[0]), steps[1..]);
    }
  }

  /** Scale-from-zero runs are the only writers. */
  predicate ScalersOnly(s: State, d0: uint64) {
    Initial(s, d0) && s.alerts == [] && s.manuals == []
  }

  /**
   With any number of interleaved `Scale` runs as the only writers, acting on stale answers from
   shared flights, the desired count keeps its initial value or goes from 0 to the target `t` of
   the minimum label, and once it is not 0 it stays as it is for the rest of the run.
   */
  lemma DesiredMovesOnceFromZero(x: Settings, t: uint64, s: State, d0: uint64, steps: seq<Step>, later: seq<Step>)
    requires ScalersOnly(s, d0) && (d0 > 0 || Attempts(x.cfg) == 0 || OneTarget(x, t))
    requires Possible(x, s, steps) && Possible(x, After(x, s, steps), later)
    ensures var s1 := After(x, s, steps);
            var s2 := After(x, s1, later);
            && (s1.desired == d0 || (d0 == 0 && Attempts(x.cfg) > 0 && s1.desired == t))
            && (s1.desired > 0 ==> s2.desired == s1.desired)
  {
    RunFromZero(x, t, d0, s, steps);
    RunFromZero(x, t, d0, After(x, s, steps), later);
  }

  ghost predicate AlwaysMovesOnce(x: Settings, d0: uint64) {
    forall s, steps, later ::
      ScalersOnly(s, d0) && Possible(x, s, steps) && Possible(x, After(x, s, steps), later) &&
      After(x, s, steps).desired > 0 ==>
        After(x, After(x, s, steps), later).desired == After(x, s, steps).desired
  }

  /**
   A count that is not 0 stays as it is in all such runs exactly when the function started above 0,
   or no attempts are made, or all labels that can be read have one target.
   */
  lemma MovesOnceExactlyWithOneTarget(x: Settings, d0: uint64)
    ensures AlwaysMovesOnce(x, d0) <==> d0 > 0 || Attempts(x.cfg) == 0 || exists t :: OneTarget(x, t)
  {
    if d0 > 0 || Attempts(x.cfg) == 0 || exists t :: OneTarget(x, t) {
      var t: uint64 :| d0 > 0 || Attempts(x.cfg) == 0 || OneTarget(x, t);
      forall s, steps, later |
        ScalersOnly(s, d0) && Possible(x, s, steps) && Possible(x, After(x, s, steps), later) &&
        After(x, s, steps).desired > 0
        ensures After(x, After(x, s, steps), later).desired == After(x, s, steps).desired
      {
        DesiredMovesOnceFromZero(x, t, s, d0, steps, later);
      }
    } else {
      assert !OneTarget(x, 0);
      var l1 :| l1 in x.labels;
      assert !OneTarget(x, Target(l1.min));
      var l2 :| l2 in x.labels && Target(l2.min) != Target(l1.min);
      TwoTargetsMoveTwice(x, l1, l2);
    }
  }

  // Two runs that read different labels.

  ghost predicate Leads(x: Settings, s: State, steps: seq<Step>, s': State) {
    Possible(x, s, steps) && After(x, s, steps) == s'
  }

  lemma LeadsFirst(x: Settings, s: State, step: Step, steps: seq<Step>, s': State)
    requires Enabled(x, s, step) && Leads(x, Apply(x, s, step), steps, s')
    ensures Leads(x, s, [step] + steps, s')
  {
    assert ([step] + steps)[1..] == steps;
  }

  lemma LeadsLast(x: Settings, s: State, step: Step)
    requires Enabled(x, s, step)
    ensures Leads(x, s, [step], Apply(x, s, step))
  {
    LeadsFirst(x, s, step, [], Apply(x, s, step));
    assert [step] + [] == [step];
  }

  lemma {:induction false} LeadsOn(x: Settings, s: State, a: seq<Step>, s': State, b: seq<Step>, s'': State)
    requires Leads(x, s, a, s') && Leads(x, s', b, s'')
    ensures Leads(x, s, a + b, s'')
    decreases |a|
  {
    if a == [] {
      assert a + b == b;
    } else {
      LeadsOn(x, Apply(x, s, a[0]), a[1..], s', b, s'');
      assert (a + b)[0] == a[0] && (a + b)[1..] == a[1..] + b;
    }
  }

  function QuerySteps(i: nat, l: Labels, n: nat): seq<Step> {
    [Ask(i)] + ([RunGet(n, l, 0, None)] + ([PublishGet(n)] + [Receive(i)]))
  }

  function Queried(x: Settings, s: State, i: nat, l: Labels): State
    requires i < |s.scalers| && Asking(s.scalers[i].run)
  {
    var answer := AnswerOf(s, l, 0, None);
    Move(s, i, OnAnswer(x.cfg, s.scalers[i].run, answer), Free)
      .(gets := s.gets + [F.Flight(GET, (), F.Published(answer))])
  }

  /** One run queries, while the others do nothing. */
  lemma QueryLeads(x: Settings, s: State, i: nat, l: Labels)
    requires i < |s.scalers| && s.scalers[i].wait.Free? && Asking(s.scalers[i].run)
    requires F.AllPublished(s.gets) && l in x.labels
    ensures Leads(x, s, QuerySteps(i, l, |s.gets|), Queried(x, s, i, l))
  {
    var n, run, answer := |s.gets|, s.scalers[i].run, AnswerOf(s, l, 0, None);
    F.JoinStarts(s.gets, GET, ());
    var s1 := Apply(x, s, Ask(i));
    assert s1 == Move(s, i, run, OnGet(n)).(gets := s.gets + [F.Flight(GET, (), F.Running)]);
    var s2 := Apply(x, s1, RunGet(n, l, 0, None));
    assert s2.gets == s.gets + [F.Flight(GET, (), F.Ran(answer))];
    var s3 := Apply(x, s2, PublishGet(n));
    assert s3 == Move(s, i, run, OnGet(n)).(gets := s.gets + [F.Flight(GET, (), F.Published(answer))]);
    assert Apply(x, s3, Receive(i)) == Queried(x, s, i, l);
    LeadsLast(x, s3, Receive(i));
    LeadsFirst(x, s2, PublishGet(n), [Receive(i)], Queried(x, s, i, l));
    LeadsFirst(x, s1, RunGet(n, l, 0, None), [PublishGet(n)] + [Receive(i)], Queried(x, s, i, l));
    LeadsFirst(x, s, Ask(i), [RunGet(n, l, 0, None)] + ([PublishGet(n)] + [Receive(i)]), Queried(x, s, i, l));
  }

  predicate ReadyToSet(s: State, i: nat, t: uint64) {
    i < |s.scalers| && s.scalers[i].wait.Free? && s.scalers[i].run.phase == Setting(0) && s.scalers[i].run.minReplicas == t
  }

  /** A run that finds zero twice is about to request its target. */
  lemma ClimbLeads(x: Settings, s: State, i: nat, l: Labels) returns (steps: seq<Step>, s': State)
    requires i < |s.scalers| && s.scalers[i] == Scaler(Run(Querying, 1, []), Free)
    requires Attempts(x.cfg) > 0 && s.desired == 0 && F.AllPublished(s.gets) && l in x.labels
    ensures Leads(x, s, steps, s')
    ensures ReadyToSet(s', i, Target(l.min)) && |s'.scalers| == |s.scalers|
    ensures s'.desired == 0 && F.AllPublished(s'.gets) && s'.sets == s.sets
    ensures forall j :: 0 <= j < |s.scalers| && j != i ==> s'.scalers[j] == s.scalers[j]
  {
    var s1 := Queried(x, s, i, l);
    QueryLeads(x, s, i, l);
    assert s1.scalers[i].run.phase == Attempting(0);
    s' := Queried(x, s1, i, l);
    QueryLeads(x, s1, i, l);
    steps := QuerySteps(i, l, |s.gets|) + QuerySteps(i, l, |s1.gets|);
    LeadsOn(x, s, QuerySteps(i, l, |s.gets|), s1, QuerySteps(i, l, |s1.gets|), s');
  }

  function SetSteps(i: nat, n: nat): seq<Step> {
    [Request(i)] + ([RunSet(n, true, None)] + [PublishSet(n)])
  }

  /** One run requests its target, and gets it. */
  lemma SetLeads(x: Settings, s: State, i: nat, t: uint64) returns (s': State)
    requires ReadyToSet(s, i, t) && F.AllPublished(s.sets)
    ensures Leads(x, s, SetSteps(i, |s.sets|), s')
    ensures s'.desired == t && F.AllPublished(s'.sets) && |s'.scalers| == |s.scalers|
    ensures forall j :: 0 <= j < |s.scalers| && j != i ==> s'.scalers[j] == s.scalers[j]
  {
    var n, out := |s.sets|, FlightResult(None, None);
    F.JoinStarts(s.sets, SET, t);
    var s1 := Apply(x, s, Request(i));
    assert s1.sets == s.sets + [F.Flight(SET, t, F.Running)];
    var s2 := Apply(x, s1, RunSet(n, true, None));
    assert s2.sets == s.sets + [F.Flight(SET, t, F.Ran(out))];
    s' := Apply(x, s2, PublishSet(n));
    assert s'.sets == s.sets + [F.Flight(SET, t, F.Published(out))];
    LeadsLast(x, s2, PublishSet(n));
    LeadsFirst(x, s1, RunSet(n, true, None), [PublishSet(n)], s');
    LeadsFirst(x, s, Request(i), [RunSet(n, true, None)] + [PublishSet(n)], s');
  }

  /** Both find zero, one sets the target of its labels, and then the other that of the new ones. */
  lemma TwoTargetsMoveTwice(x: Settings, l1: Labels, l2: Labels)
    requires Attempts(x.cfg) > 0 && l1 in x.labels && l2 in x.labels && Target(l1.min) != Target(l2.min)
    ensures !AlwaysMovesOnce(x, 0)
  {
    var idle := Scaler(Run(Querying, 1, []), Free);
    var s := State(0, [idle, idle], [], [], [], []);
    var a, s1 := ClimbLeads(x, s, 0, l1);
    var b, s2 := ClimbLeads(x, s1, 1, l2);
    var s3 := SetLeads(x, s2, 0, Target(l1.min));
    var s4 := SetLeads(x, s3, 1, Target(l2.min));
    LeadsOn(x, s, a, s1, b, s2);
    LeadsOn(x, s, a + b, s2, SetSteps(0, |s2.sets|), s3);
    var steps, later := a + b + SetSteps(0, |s2.sets|), SetSteps(1, |s3.sets|);
    assert ScalersOnly(s, 0) && Possible(x, s, steps) && Possible(x, After(x, s, steps), later);
    assert After(x, s, steps).desired == Target(l1.min) > 0;
  }
}
