/**
 The contract of a single-flight group, stated on its own: callers join the live flight of
 their key or start one, a flight runs its function once and publishes once, and a member
 leaves with what its flight published. `SingleFlight` below and `SyncGroup` are proved to refine
 it, and `CachedQueryProtocol` and `Cluster` are built on it.
 */
module Flights {

  import opened Wrappers
  import opened Service

  datatype Stage = Running | Ran(out: FlightResult) | Published(out: FlightResult)

  /** `job` is what the function captured by the caller that started the flight works on. */
  datatype Flight<+J> = Flight(key: string, job: J, stage: Stage)

  predicate Live<J>(fs: seq<Flight<J>>, key: string, f: nat) {
    f < |fs| && fs[f].key == key && !fs[f].stage.Published?
  }

  ghost predicate AtMostOneLive<J>(fs: seq<Flight<J>>) {
    forall f, g, key :: Live(fs, key, f) && Live(fs, key, g) ==> f == g
  }

  function FindLive<J>(fs: seq<Flight<J>>, key: string): (r: Option<nat>)
    ensures r.Some? ==> Live(fs, key, r.value)
    ensures r.None? ==> forall f: nat :: !Live(fs, key, f)
  {
    if fs == [] then None
    else
      var last := |fs| - 1;
      if Live(fs, key, last) then Some(last)
      else
        var r := FindLive(fs[..last], key);
        assert r.None? ==> forall f: nat :: Live(fs, key, f) ==> f == last || Live(fs[..last], key, f);
        r
  }

  /** The flight that a caller of `key` ends up on, and the flights after it has joined. */
  function Join<J>(fs: seq<Flight<J>>, key: string, job: J): (r: (seq<Flight<J>>, nat))
    ensures r.1 < |r.0| && r.0[r.1].key == key
    ensures fs <= r.0
    ensures AtMostOneLive(fs) ==> AtMostOneLive(r.0)
  {
    match FindLive(fs, key)
    case Some(f) => (fs, f)
    case None =>
      var fs' := fs + [Flight(key, job, Running)];
      assert forall f: nat, k :: Live(fs', k, f) ==> Live(fs, k, f) || (f == |fs| && k == key);
      (fs', |fs|)
  }

  predicate AllPublished<J>(fs: seq<Flight<J>>) {
    forall f :: 0 <= f < |fs| ==> fs[f].stage.Published?
  }

  lemma JoinStarts<J>(fs: seq<Flight<J>>, key: string, job: J)
    requires AllPublished(fs)
    ensures Join(fs, key, job) == (fs + [Flight(key, job, Running)], |fs|)
  {
  }

  function Run<J>(fs: seq<Flight<J>>, f: nat, out: FlightResult): (r: seq<Flight<J>>)
    requires f < |fs| && fs[f].stage.Running?
    ensures AtMostOneLive(fs) ==> AtMostOneLive(r)
  {
    var r := fs[f := fs[f].(stage := Ran(out))];
    assert forall g: nat, k :: Live(r, k, g) ==> Live(fs, k, g);
    r
  }

  function Publish<J>(fs: seq<Flight<J>>, f: nat): (r: seq<Flight<J>>)
    requires f < |fs| && fs[f].stage.Ran?
    ensures AtMostOneLive(fs) ==> AtMostOneLive(r)
  {
    var r := fs[f := fs[f].(stage := Published(fs[f].stage.out))];
    assert forall g: nat, k :: Live(r, k, g) ==> Live(fs, k, g);
    r
  }

  datatype Member = Outside | In(f: nat) | Got(f: nat, out: FlightResult)

  datatype Group = Group(flights: seq<Flight<nat>>, keys: seq<string>, members: seq<Member>)

  datatype Action =
    | Stutter
    | DoJoin(i: nat)
    | DoRun(f: nat, out: FlightResult)
    | DoPublish(f: nat)
    | DoLeave(i: nat)

  predicate Next(g: Group, a: Action, g': Group) {
    && |g.keys| == |g.members|
    && match a
       case Stutter => g' == g
       case DoJoin(i) =>
         && i < |g.members| && g.members[i].Outside?
         && var (fs, f) := Join(g.flights, g.keys[i], i);
            g' == g.(flights := fs, members := g.members[i := In(f)])
       case DoRun(f, out) =>
         && f < |g.flights| && g.flights[f].stage.Running?
         && g' == g.(flights := Run(g.flights, f, out))
       case DoPublish(f) =>
         && f < |g.flights| && g.flights[f].stage.Ran?
         && g' == g.(flights := Publish(g.flights, f))
       case DoLeave(i) =>
         && i < |g.members| && g.members[i].In? && g.members[i].f < |g.flights|
         && var f := g.members[i].f;
         && g.flights[f].stage.Published?
         && g' == g.(members := g.members[i := Got(f, g.flights[f].stage.out)])
  }

  /** Members are on flights of their own key, and hold what their flight published. */
  ghost predicate Ok(g: Group) {
    && |g.keys| == |g.members|
    && AtMostOneLive(g.flights)
    && forall i: nat :: i < |g.members| && !g.members[i].Outside? ==>
         && g.members[i].f < |g.flights|
         && g.flights[g.members[i].f].key == g.keys[i]
         && (g.members[i].Got? ==> g.flights[g.members[i].f].stage == Published(g.members[i].out))
  }

  /** The contract is kept by every action, and a published outcome stays published. */
  lemma NextKeepsOk(g: Group, a: Action, g': Group)
    requires Ok(g) && Next(g, a, g')
    ensures Ok(g')
    ensures |g.flights| <= |g'.flights|
    ensures forall f: nat :: f < |g.flights| && g.flights[f].stage.Published? ==> g'.flights[f] == g.flights[f]
  {
    if a.DoJoin? {
      var r := Join(g.flights, g.keys[a.i], a.i);
      assert forall f: nat :: f < |g.flights| ==> r.0[f] == g.flights[f];
    }
  }
}

/**
 `SingleFlight.Do` (gateway/scaling/single.go) as a transition system: one program counter
 per caller, one per executor goroutine, and one step per statement that touches the lock,
 the map, a wait-group or a result. `Step` names the statement and who runs it, so that a
 sequence of steps is one interleaving.
 */
module SingleFlight {

  import opened Wrappers
  import opened Service
  import Flights

  datatype Holder = ByCaller(i: nat) | ByExecutor(c: nat)

  datatype CallerPc =
    | Outside                               // has not called Do
    | Contending                            // at s.lock.Lock(), line 32
    | Locked                                // at the lookup, line 34
    | Found(c: nat)                         // at s.lock.Unlock(), line 35
    | Inserted(c: nat)                      // at call.wg.Add(1), line 49
    | Added(c: nat)                         // at s.lock.Unlock(), line 51
    | Unlocked(c: nat)                      // at the go statement, line 53
    | Waiting(c: nat)                       // at call.wg.Wait(), lines 36 and 70
    | Reading(c: nat)                       // at the reads of call.res, lines 38 and 72
    | Returned(c: nat, out: FlightResult)

  datatype ExecutorPc =
    | Unborn
    | Running                               // in f(), line 55
    | Ran(out: FlightResult)                // at s.lock.Lock(), line 57
    | Holding(out: FlightResult)            // at call.res = ..., line 58
    | Published(out: FlightResult)          // at call.wg.Done(), line 63
    | Signalled(out: FlightResult)          // at delete(s.calls, key), line 65
    | Deleted(out: FlightResult)            // at s.lock.Unlock(), line 67
    | Finished(out: FlightResult)

  datatype Caller = Caller(key: string, pc: CallerPc, entered: nat)

  datatype Call = Call(key: string, creator: nat, wg: nat, res: Option<FlightResult>,
                       exec: ExecutorPc, publishedAt: nat)

  datatype State = State(lock: Option<Holder>, calls: map<string, nat>, objs: seq<Call>,
                         callers: seq<Caller>, clock: nat, crashed: bool)

  datatype Step =
    | Enter(i: nat)
    | Acquire(i: nat)
    | Hit(i: nat)
    | UnlockJoin(i: nat)
    | Miss(i: nat)
    | Add(i: nat)
    | UnlockOwner(i: nat)
    | Spawn(i: nat)
    | Wake(i: nat)
    | Return(i: nat)
    | RunF(c: nat, out: FlightResult)
    | AcquireExec(c: nat)
    | Publish(c: nat)
    | Done(c: nat)
    | Delete(c: nat)
    | UnlockExec(c: nat)

  /** The call object that a caller works on, once it has one. */
  function Held(pc: CallerPc): Option<nat> {
    match pc
    case Outside | Contending | Locked => None
    case Found(c) => Some(c)
    case Inserted(c) => Some(c)
    case Added(c) => Some(c)
    case Unlocked(c) => Some(c)
    case Waiting(c) => Some(c)
    case Reading(c) => Some(c)
    case Returned(c, _) => Some(c)
  }

  /** The guards. `c < |s.objs|` only keeps `Apply` total; the invariant implies it. */
  predicate Enabled(s: State, step: Step) {
    match step
    case Enter(i) => i < |s.callers| && s.callers[i].pc.Outside?
    case Acquire(i) => i < |s.callers| && s.callers[i].pc.Contending? && s.lock.None?
    case Hit(i) => i < |s.callers| && s.callers[i].pc.Locked? && s.callers[i].key in s.calls
    case UnlockJoin(i) => i < |s.callers| && s.callers[i].pc.Found?
    case Miss(i) => i < |s.callers| && s.callers[i].pc.Locked? && s.callers[i].key !in s.calls
    case Add(i) => i < |s.callers| && s.callers[i].pc.Inserted? && s.callers[i].pc.c < |s.objs|
    case UnlockOwner(i) => i < |s.callers| && s.callers[i].pc.Added?
    case Spawn(i) => i < |s.callers| && s.callers[i].pc.Unlocked? && s.callers[i].pc.c < |s.objs|
    case Wake(i) =>
      && i < |s.callers| && s.callers[i].pc.Waiting? && s.callers[i].pc.c < |s.objs|
      && s.objs[s.callers[i].pc.c].wg == 0
    case Return(i) => i < |s.callers| && s.callers[i].pc.Reading? && s.callers[i].pc.c < |s.objs|
    case RunF(c, _) => c < |s.objs| && s.objs[c].exec.Running?
    case AcquireExec(c) => c < |s.objs| && s.objs[c].exec.Ran? && s.lock.None?
    case Publish(c) => c < |s.objs| && s.objs[c].exec.Holding?
    case Done(c) => c < |s.objs| && s.objs[c].exec.Published?
    case Delete(c) => c < |s.objs| && s.objs[c].exec.Signalled?
    case UnlockExec(c) => c < |s.objs| && s.objs[c].exec.Deleted?
  }

  function Goto(s: State, i: nat, pc: CallerPc): State
    requires i < |s.callers|
  {
    s.(callers := s.callers[i := s.callers[i].(pc := pc)], clock := s.clock + 1)
  }

  function Exec(s: State, c: nat, pc: ExecutorPc): State
    requires c < |s.objs|
  {
    s.(objs := s.objs[c := s.objs[c].(exec := pc)], clock := s.clock + 1)
  }

  /** One statement. Reading a nil `call.res` and `Done` on a zero counter panic: `crashed`. */
  function Apply(s: State, step: Step): State
    requires Enabled(s, step)
  {
    match step
    case Enter(i) =>
      var callers := s.callers[i := s.callers[i].(pc := Contending, entered := s.clock)];
      s.(callers := callers, clock := s.clock + 1)
    case Acquire(i) => Goto(s, i, Locked).(lock := Some(ByCaller(i)))
    case Hit(i) => Goto(s, i, Found(s.calls[s.callers[i].key]))
    case UnlockJoin(i) => Goto(s, i, Waiting(s.callers[i].pc.c)).(lock := None)
    case Miss(i) =>
      var call := Call(s.callers[i].key, i, 0, None, Unborn, 0);
      Goto(s, i, Inserted(|s.objs|)).(objs := s.objs + [call], calls := s.calls[s.callers[i].key := |s.objs|])
    case Add(i) =>
      var c := s.callers[i].pc.c;
      Goto(s, i, Added(c)).(objs := s.objs[c := s.objs[c].(wg := s.objs[c].wg + 1)])
    case UnlockOwner(i) => Goto(s, i, Unlocked(s.callers[i].pc.c)).(lock := None)
    case Spawn(i) =>
      var c := s.callers[i].pc.c;
      Goto(s, i, Waiting(c)).(objs := s.objs[c := s.objs[c].(exec := Running)])
    case Wake(i) => Goto(s, i, Reading(s.callers[i].pc.c))
    case Return(i) =>
      var c := s.callers[i].pc.c;
      (match s.objs[c].res
       case Some(out) => Goto(s, i, Returned(c, out))
       case None => s.(crashed := true, clock := s.clock + 1))
    case RunF(c, out) => Exec(s, c, Ran(out))
    case AcquireExec(c) => Exec(s, c, Holding(s.objs[c].exec.out)).(lock := Some(ByExecutor(c)))
    case Publish(c) =>
      var out := s.objs[c].exec.out;
      var call := s.objs[c].(exec := Published(out), res := Some(out), publishedAt := s.clock);
      s.(objs := s.objs[c := call], clock := s.clock + 1)
    case Done(c) =>
      if s.objs[c].wg == 0 then s.(crashed := true, clock := s.clock + 1)
      else
        var call := s.objs[c].(exec := Signalled(s.objs[c].exec.out), wg := s.objs[c].wg - 1);
        s.(objs := s.objs[c := call], clock := s.clock + 1)
    case Delete(c) => Exec(s, c, Deleted(s.objs[c].exec.out)).(calls := s.calls - {s.objs[c].key})
    case UnlockExec(c) => Exec(s, c, Finished(s.objs[c].exec.out)).(lock := None)
  }

  /** `NewSingleFlight`, with one future caller of `Do` per key in `keys`. */
  function Init(keys: seq<string>): State {
    State(None, map[], [], seq(|keys|, i requires 0 <= i < |keys| => Caller(keys[i], Outside, 0)), 0, false)
  }

  /** `steps` is an interleaving that can happen from `s`. */
  predicate Possible(s: State, steps: seq<Step>)
    decreases |steps|
  {
    steps == [] || (Enabled(s, steps[0]) && Possible(Apply(s, steps[0]), steps[1..]))
  }

  function After(s: State, steps: seq<Step>): State
    requires Possible(s, steps)
    decreases |steps|
  {
    if steps == [] then s else After(Apply(s, steps[0]), steps[1..])
  }

  // The invariant.

  predicate CallerHoldsLock(pc: CallerPc) {
    pc.Locked? || pc.Found? || pc.Inserted? || pc.Added?
  }

  predicate ExecutorHoldsLock(pc: ExecutorPc) {
    pc.Holding? || pc.Published? || pc.Signalled? || pc.Deleted?
  }

  /** The key of the call is still to be deleted. */
  predicate Pending(pc: ExecutorPc) {
    !pc.Deleted? && !pc.Finished?
  }

  predicate Signal(pc: ExecutorPc) {
    pc.Signalled? || pc.Deleted? || pc.Finished?
  }

  predicate CallerOk(s: State, i: nat)
    requires i < |s.callers|
  {
    var caller := s.callers[i];
    && caller.entered <= s.clock
    && (CallerHoldsLock(caller.pc) <==> s.lock == Some(ByCaller(i)))
    && (Held(caller.pc).Some? ==>
          var c := Held(caller.pc).value;
          && c < |s.objs|
          && s.objs[c].key == caller.key
          && caller.entered < s.clock
          && (s.objs[c].res.Some? ==> caller.entered < s.objs[c].publishedAt)
          && (s.objs[c].exec.Unborn? && s.objs[c].wg == 0 ==> caller.pc.Inserted?)
          && (caller.pc.Inserted? ==> s.objs[c].creator == i && s.objs[c].exec.Unborn? && s.objs[c].wg == 0)
          && (caller.pc.Added? || caller.pc.Unlocked? ==>
                s.objs[c].creator == i && s.objs[c].exec.Unborn? && s.objs[c].wg == 1)
          && (caller.pc.Reading? ==> Signal(s.objs[c].exec))
          && (caller.pc.Returned? ==> s.objs[c].res == Some(caller.pc.out)))
  }

  predicate CallOk(s: State, c: nat)
    requires c < |s.objs|
  {
    var call := s.objs[c];
    && (ExecutorHoldsLock(call.exec) <==> s.lock == Some(ByExecutor(c)))
    && (Pending(call.exec) <==> call.key in s.calls && s.calls[call.key] == c)
    && (call.exec.Unborn? ==>
          && call.creator < |s.callers|
          && (s.callers[call.creator].pc in {Inserted(c), Added(c), Unlocked(c)})
          && call.wg <= 1)
    && (call.exec.Running? || call.exec.Ran? || call.exec.Holding? || call.exec.Published? ==> call.wg == 1)
    && (Signal(call.exec) ==> call.wg == 0)
    && (call.exec.Unborn? || call.exec.Running? || call.exec.Ran? || call.exec.Holding? ==> call.res.None?)
    && (call.exec.Published? || Signal(call.exec) ==> call.res == Some(call.exec.out))
    && (call.res.Some? ==> call.publishedAt < s.clock)
  }

  /** The map has no dangling entries, and the lock no dangling holder. */
  ghost predicate RefsOk(s: State) {
    && (forall key :: key in s.calls ==> s.calls[key] < |s.objs| && s.objs[s.calls[key]].key == key)
    && (s.lock.Some? ==>
          match s.lock.value
          case ByCaller(i) => i < |s.callers|
          case ByExecutor(c) => c < |s.objs|)
  }

  ghost predicate Inv(s: State) {
    && !s.crashed
    && (forall i: nat :: i < |s.callers| ==> CallerOk(s, i))
    && (forall c: nat :: c < |s.objs| ==> CallOk(s, c))
    && RefsOk(s)
  }

  lemma InitInv(keys: seq<string>)
    ensures Inv(Init(keys))
  {
  }

  /** The step is a statement of an executor goroutine. */
  predicate OfExecutor(step: Step) {
    step.RunF? || step.AcquireExec? || step.Publish? || step.Done? || step.Delete? || step.UnlockExec?
  }

  /** What the invariant says of the caller or executor that takes a step; it does not panic. */
  lemma ActorOk(s: State, step: Step)
    requires Inv(s) && Enabled(s, step)
    ensures !Apply(s, step).crashed
    ensures OfExecutor(step) ==> CallOk(s, step.c)
    ensures !OfExecutor(step) ==>
              && CallerOk(s, step.i)
              && (Held(s.callers[step.i].pc).Some? ==> CallOk(s, Held(s.callers[step.i].pc).value))
  {
    if OfExecutor(step) {
      assert CallOk(s, step.c);
    } else {
      assert CallerOk(s, step.i);
      assert Held(s.callers[step.i].pc).Some? ==> CallOk(s, Held(s.callers[step.i].pc).value);
    }
  }

  lemma CallerKeptByHit(s: State, step: Step)
    requires Inv(s) && Enabled(s, step) && step.Hit?
    ensures CallerOk(Apply(s, step), step.i)
  {
    // A call that is still unborn was unlocked by its creator, because the lock is held by another.
    var c := s.calls[s.callers[step.i].key];
    assert CallerOk(s, step.i);
    assert CallOk(s, c);
    if s.objs[c].exec.Unborn? {
      assert CallerOk(s, s.objs[c].creator);
    }
  }

  lemma CallerKeptByItself(s: State, step: Step)
    requires Inv(s) && Enabled(s, step) && !OfExecutor(step)
    ensures CallerOk(Apply(s, step), step.i)
  {
    if step.Hit? {
      CallerKeptByHit(s, step);
    } else {
      ActorOk(s, step);
    }
  }

  lemma CallerKeptByCaller(s: State, step: Step, i: nat)
    requires Inv(s) && Enabled(s, step) && !OfExecutor(step) && i < |s.callers| && i != step.i
    ensures CallerOk(Apply(s, step), i)
  {
    ActorOk(s, step);
    assert CallerOk(s, i);
  }

  lemma CallerKeptByExecutor(s: State, step: Step, i: nat)
    requires Inv(s) && Enabled(s, step) && OfExecutor(step) && i < |s.callers|
    ensures CallerOk(Apply(s, step), i)
  {
    ActorOk(s, step);
    assert CallerOk(s, i);
  }

  /** A call object that the step neither makes nor changes. */
  lemma CallLeftByCaller(s: State, step: Step, c: nat)
    requires Inv(s) && Enabled(s, step) && !OfExecutor(step) && !step.Miss? && c < |s.objs|
    requires Held(s.callers[step.i].pc) != Some(c)
    ensures CallOk(Apply(s, step), c)
  {
    ActorOk(s, step);
    assert CallOk(s, c);
  }

  lemma CallMovedByCaller(s: State, step: Step, c: nat)
    requires Inv(s) && Enabled(s, step) && !OfExecutor(step) && !step.Miss? && c < |s.objs|
    requires Held(s.callers[step.i].pc) == Some(c)
    ensures CallOk(Apply(s, step), c)
  {
    ActorOk(s, step);
  }

  lemma CallKeptByMiss(s: State, step: Step, c: nat)
    requires Inv(s) && Enabled(s, step) && step.Miss? && c < |Apply(s, step).objs|
    ensures CallOk(Apply(s, step), c)
  {
    ActorOk(s, step);
    assert c < |s.objs| ==> CallOk(s, c);
  }

  lemma CallKeptByCaller(s: State, step: Step, c: nat)
    requires Inv(s) && Enabled(s, step) && !OfExecutor(step) && c < |Apply(s, step).objs|
    ensures CallOk(Apply(s, step), c)
  {
    if step.Miss? {
      CallKeptByMiss(s, step, c);
    } else if Held(s.callers[step.i].pc) == Some(c) {
      CallMovedByCaller(s, step, c);
    } else {
      CallLeftByCaller(s, step, c);
    }
  }

  lemma CallKeptByExecutor(s: State, step: Step, c: nat)
    requires Inv(s) && Enabled(s, step) && OfExecutor(step) && c < |s.objs|
    ensures CallOk(Apply(s, step), c)
  {
    ActorOk(s, step);
    assert CallOk(s, c);
  }

  lemma CallersKept(s: State, step: Step)
    requires Inv(s) && Enabled(s, step)
    ensures forall i: nat :: i < |s.callers| ==> CallerOk(Apply(s, step), i)
    ensures |Apply(s, step).callers| == |s.callers|
  {
    forall i: nat | i < |s.callers| ensures CallerOk(Apply(s, step), i) {
      if OfExecutor(step) {
        CallerKeptByExecutor(s, step, i);
      } else if i == step.i {
        CallerKeptByItself(s, step);
      } else {
        CallerKeptByCaller(s, step, i);
      }
    }
  }

  lemma CallsKept(s: State, step: Step)
    requires Inv(s) && Enabled(s, step)
    ensures forall c: nat :: c < |Apply(s, step).objs| ==> CallOk(Apply(s, step), c)
  {
    forall c: nat | c < |Apply(s, step).objs| ensures CallOk(Apply(s, step), c) {
      if OfExecutor(step) {
        CallKeptByExecutor(s, step, c);
      } else {
        CallKeptByCaller(s, step, c);
      }
    }
  }

  lemma RefsKeptByCaller(s: State, step: Step)
    requires Inv(s) && Enabled(s, step) && !OfExecutor(step)
    ensures RefsOk(Apply(s, step))
  {
  }

  lemma RefsKeptByExecutor(s: State, step: Step)
    requires Inv(s) && Enabled(s, step) && OfExecutor(step)
    ensures RefsOk(Apply(s, step))
  {
  }

  /** Every statement of every caller and executor keeps the invariant. */
  lemma StepKeepsInv(s: State, step: Step)
    requires Inv(s) && Enabled(s, step)
    ensures Inv(Apply(s, step))
  {
    if OfExecutor(step) {
      RefsKeptByExecutor(s, step);
    } else {
      RefsKeptByCaller(s, step);
    }
    ActorOk(s, step);
    CallersKept(s, step);
    CallsKept(s, step);
  }

  lemma {:induction false} RunKeepsInv(s: State, steps: seq<Step>)
    requires Inv(s) && Possible(s, steps)
    ensures Inv(After(s, steps))
    decreases |steps|
  {
    if steps != [] {
      StepKeepsInv(s, steps[0]);
      RunKeepsInv(Apply(s, steps[0]), steps[1..]);
    }
  }

  // Safety over every interleaving.

  /** How often an interleaving assigns `call.res` of call object `c`. */
  function Writes(steps: seq<Step>, c: nat): nat {
    if steps == [] then 0
    else (if steps[0] == Publish(c) then 1 else 0) + Writes(steps[1..], c)
  }

  function HasResult(s: State, c: nat): nat {
    if c < |s.objs| && s.objs[c].res.Some? then 1 else 0
  }

  /** The caller's key never changes, call objects are never removed, a result is never overwritten. */
  ghost predicate Preserves(s: State, s': State) {
    && |s'.callers| == |s.callers|
    && (forall i: nat :: i < |s.callers| ==> s'.callers[i].key == s.callers[i].key)
    && |s.objs| <= |s'.objs|
    && (forall c: nat :: c < |s.objs| ==>
          && s'.objs[c].key == s.objs[c].key
          && (s.objs[c].res.Some? ==>
                s'.objs[c].res == s.objs[c].res && s'.objs[c].publishedAt == s.objs[c].publishedAt))
  }

  lemma CallerStepPreserves(s: State, step: Step)
    requires Inv(s) && Enabled(s, step) && !OfExecutor(step)
    ensures Preserves(s, Apply(s, step))
  {
  }

  lemma ExecutorStepPreserves(s: State, step: Step)
    requires Inv(s) && Enabled(s, step) && OfExecutor(step)
    ensures Preserves(s, Apply(s, step))
  {
    ActorOk(s, step);
  }

  lemma StepPreserves(s: State, step: Step)
    requires Inv(s) && Enabled(s, step)
    ensures Preserves(s, Apply(s, step))
  {
    if OfExecutor(step) {
      ExecutorStepPreserves(s, step);
    } else {
      CallerStepPreserves(s, step);
    }
  }

  lemma {:induction false} RunPreserves(s: State, steps: seq<Step>)
    requires Inv(s) && Possible(s, steps)
    ensures Preserves(s, After(s, steps))
    decreases |steps|
  {
    if steps != [] {
      StepKeepsInv(s, steps[0]);
      StepPreserves(s, steps[0]);
      RunPreserves(Apply(s, steps[0]), steps[1..]);
    }
  }

  lemma StepWrites(s: State, step: Step, c: nat)
    requires Inv(s) && Enabled(s, step)
    ensures HasResult(Apply(s, step), c) == HasResult(s, c) + (if step == Publish(c) then 1 else 0)
  {
    ActorOk(s, step);
  }

  lemma {:induction false} ResultWrittenOnce(s: State, steps: seq<Step>, c: nat)
    requires Inv(s) && Possible(s, steps)
    ensures Writes(steps, c) + HasResult(s, c) == HasResult(After(s, steps), c)
    decreases |steps|
  {
    if steps != [] {
      StepKeepsInv(s, steps[0]);
      StepWrites(s, steps[0], c);
      ResultWrittenOnce(Apply(s, steps[0]), steps[1..], c);
    }
  }

  predicate HasRun(s: State, c: nat, out: FlightResult) {
    && c < |s.objs|
    && s.objs[c].exec in {Ran(out), Holding(out), Published(out), Signalled(out), Deleted(out), Finished(out)}
  }

  /** What an executor carries is what its run of `f` returned. */
  lemma {:induction false} OutcomeComesFromF(s: State, steps: seq<Step>, c: nat, out: FlightResult)
    requires Inv(s) && Possible(s, steps)
    requires HasRun(After(s, steps), c, out)
    ensures HasRun(s, c, out) || RunF(c, out) in steps
    decreases |steps|
  {
    if steps != [] {
      var s' := Apply(s, steps[0]);
      StepKeepsInv(s, steps[0]);
      OutcomeComesFromF(s', steps[1..], c, out);
      assert HasRun(s', c, out) && !HasRun(s, c, out) ==> steps[0] == RunF(c, out);
    }
  }

  /**
   In every interleaving of any callers, a caller that has returned has the outcome of the one
   call object it joined or created: a call of its own key, whose result was assigned exactly
   once, after that caller entered `Do`, to what `f` returned in that flight. No read of a nil
   result and no negative wait-group counter happens on the way.
   */
  lemma EveryReturnIsItsFlightsResult(keys: seq<string>, steps: seq<Step>, i: nat)
    requires Possible(Init(keys), steps) && i < |keys|
    ensures !After(Init(keys), steps).crashed
    ensures |After(Init(keys), steps).callers| == |keys|
    ensures var s := After(Init(keys), steps);
            s.callers[i].pc.Returned? ==>
              var Returned(c, out) := s.callers[i].pc;
              && c < |s.objs| && s.objs[c].key == keys[i]
              && s.objs[c].res == Some(out)
              && Writes(steps, c) == 1
              && s.callers[i].entered < s.objs[c].publishedAt < s.clock
              && RunF(c, out) in steps
  {
    InitInv(keys);
    RunKeepsInv(Init(keys), steps);
    RunPreserves(Init(keys), steps);
    var s := After(Init(keys), steps);
    assert CallerOk(s, i);
    if s.callers[i].pc.Returned? {
      var Returned(c, out) := s.callers[i].pc;
      assert CallOk(s, c);
      ResultWrittenOnce(Init(keys), steps, c);
      OutcomeComesFromF(Init(keys), steps, c, out);
    }
  }

  /** Whoever has passed `Wait` finds the result in place, and nothing that happens later changes it. */
  lemma ReaderSeesFinalResult(s: State, i: nat, later: seq<Step>)
    requires Inv(s) && Possible(s, later)
    requires i < |s.callers| && s.callers[i].pc.Reading?
    ensures var c := s.callers[i].pc.c;
            && c < |s.objs| && s.objs[c].res.Some?
            && c < |After(s, later).objs| && After(s, later).objs[c].res == s.objs[c].res
  {
    assert CallerOk(s, i);
    assert CallOk(s, s.callers[i].pc.c);
    RunPreserves(s, later);
  }

  /**
   At most one execution of `f` is live for a key, the map holds a key exactly when some
   executor of that key has still to delete it, and it is empty when no call is pending.
   */
  lemma OneLiveExecutionPerKey(s: State)
    requires Inv(s)
    ensures forall c: nat, d: nat ::
              (&& c < |s.objs| && s.objs[c].exec.Running?
               && d < |s.objs| && s.objs[d].exec.Running?
               && s.objs[c].key == s.objs[d].key)
              ==> c == d
    ensures forall key :: key in s.calls <==>
              exists c: nat :: c < |s.objs| && s.objs[c].key == key && Pending(s.objs[c].exec)
    ensures (forall c: nat :: c < |s.objs| ==> !Pending(s.objs[c].exec)) ==> s.calls == map[]
  {
    forall key | key in s.calls
      ensures exists c: nat :: c < |s.objs| && s.objs[c].key == key && Pending(s.objs[c].exec)
    {
      assert CallOk(s, s.calls[key]);
    }
    forall c: nat | c < |s.objs| && Pending(s.objs[c].exec)
      ensures s.objs[c].key in s.calls && s.calls[s.objs[c].key] == c
    {
      assert CallOk(s, c);
    }
  }

  // Progress.

  function CallerWork(pc: CallerPc): nat {
    match pc
    case Outside => 14
    case Contending => 13
    case Locked => 12
    case Found(_) => 3
    case Inserted(_) => 5
    case Added(_) => 4
    case Unlocked(_) => 3
    case Waiting(_) => 2
    case Reading(_) => 1
    case Returned(_, _) => 0
  }

  function ExecutorWork(pc: ExecutorPc): nat {
    match pc
    case Unborn => 6
    case Running => 6
    case Ran(_) => 5
    case Holding(_) => 4
    case Published(_) => 3
    case Signalled(_) => 2
    case Deleted(_) => 1
    case Finished(_) => 0
  }

  function CallersWork(callers: seq<Caller>): nat {
    if callers == [] then 0 else CallersWork(callers[..|callers| - 1]) + CallerWork(callers[|callers| - 1].pc)
  }

  function ExecutorsWork(objs: seq<Call>): nat {
    if objs == [] then 0 else ExecutorsWork(objs[..|objs| - 1]) + ExecutorWork(objs[|objs| - 1].exec)
  }

  /** A bound on the number of statements still to be executed. */
  function Work(s: State): nat {
    CallersWork(s.callers) + ExecutorsWork(s.objs)
  }

  lemma {:induction false} CallersWorkUpdate(callers: seq<Caller>, i: nat, caller: Caller)
    requires i < |callers|
    ensures CallersWork(callers[i := caller]) == CallersWork(callers) - CallerWork(callers[i].pc) + CallerWork(caller.pc)
    decreases |callers|
  {
    var last := |callers| - 1;
    if i == last {
      assert callers[i := caller][..last] == callers[..last];
    } else {
      assert callers[i := caller][..last] == callers[..last][i := caller];
      CallersWorkUpdate(callers[..last], i, caller);
    }
  }

  lemma {:induction false} ExecutorsWorkUpdate(objs: seq<Call>, c: nat, call: Call)
    requires c < |objs|
    ensures ExecutorsWork(objs[c := call]) == ExecutorsWork(objs) - ExecutorWork(objs[c].exec) + ExecutorWork(call.exec)
    decreases |objs|
  {
    var last := |objs| - 1;
    if c == last {
      assert objs[c := call][..last] == objs[..last];
    } else {
      assert objs[c := call][..last] == objs[..last][c := call];
      ExecutorsWorkUpdate(objs[..last], c, call);
    }
  }

  lemma ExecutorStepReducesWork(s: State, step: Step)
    requires Inv(s) && Enabled(s, step) && OfExecutor(step)
    ensures Work(Apply(s, step)) < Work(s)
  {
    ActorOk(s, step);
    ExecutorsWorkUpdate(s.objs, step.c, Apply(s, step).objs[step.c]);
  }

  lemma MissReducesWork(s: State, step: Step)
    requires Inv(s) && Enabled(s, step) && step.Miss?
    ensures Work(Apply(s, step)) < Work(s)
  {
    var s' := Apply(s, step);
    CallersWorkUpdate(s.callers, step.i, s'.callers[step.i]);
    assert s'.objs[..|s.objs|] == s.objs;
  }

  /** Steps of a caller that also change its call object. */
  lemma OwnerStepReducesWork(s: State, step: Step)
    requires Inv(s) && Enabled(s, step) && (step.Add? || step.Spawn?)
    ensures Work(Apply(s, step)) < Work(s)
  {
    var s', c := Apply(s, step), s.callers[step.i].pc.c;
    assert CallerOk(s, step.i);
    assert CallOk(s, c);
    CallersWorkUpdate(s.callers, step.i, s'.callers[step.i]);
    ExecutorsWorkUpdate(s.objs, c, s'.objs[c]);
  }

  lemma CallerStepReducesWork(s: State, step: Step)
    requires Inv(s) && Enabled(s, step) && !OfExecutor(step)
    ensures Work(Apply(s, step)) < Work(s)
  {
    if step.Miss? {
      MissReducesWork(s, step);
    } else if step.Add? || step.Spawn? {
      OwnerStepReducesWork(s, step);
    } else {
      ActorOk(s, step);
      CallersWorkUpdate(s.callers, step.i, Apply(s, step).callers[step.i]);
    }
  }

  /** Every statement that runs leaves less work: no schedule goes on for ever. */
  lemma StepReducesWork(s: State, step: Step)
    requires Inv(s) && Enabled(s, step)
    ensures Work(Apply(s, step)) < Work(s)
  {
    if OfExecutor(step) {
      ExecutorStepReducesWork(s, step);
    } else {
      CallerStepReducesWork(s, step);
    }
  }

  /** Everyone has returned and every goroutine has ended. */
  ghost predicate Quiescent(s: State) {
    && (forall i: nat :: i < |s.callers| ==> s.callers[i].pc.Returned?)
    && (forall c: nat :: c < |s.objs| ==> s.objs[c].exec.Finished?)
  }

  ghost predicate CanStep(s: State) {
    exists step :: Enabled(s, step)
  }

  lemma LockHolderCanStep(s: State)
    requires Inv(s) && s.lock.Some?
    ensures CanStep(s)
  {
    match s.lock.value
    case ByCaller(i) =>
      assert CallerOk(s, i);
      assert Enabled(s, Hit(i)) || Enabled(s, Miss(i)) || Enabled(s, UnlockJoin(i)) || Enabled(s, Add(i))
          || Enabled(s, UnlockOwner(i));
    case ByExecutor(c) =>
      assert CallOk(s, c);
      assert Enabled(s, Publish(c)) || Enabled(s, Done(c)) || Enabled(s, Delete(c)) || Enabled(s, UnlockExec(c));
  }

  lemma ExecutorCanStep(s: State, c: nat)
    requires Inv(s) && s.lock.None? && c < |s.objs| && !s.objs[c].exec.Finished?
    ensures CanStep(s)
  {
    assert CallOk(s, c);
    if s.objs[c].exec.Unborn? {
      var i := s.objs[c].creator;
      assert CallerOk(s, i);
      assert Enabled(s, Spawn(i));
    } else {
      assert Enabled(s, RunF(c, FlightResult(None, None))) || Enabled(s, AcquireExec(c));
    }
  }

  lemma CallerCanStep(s: State, i: nat)
    requires Inv(s) && s.lock.None? && i < |s.callers| && !s.callers[i].pc.Returned?
    ensures CanStep(s)
  {
    assert CallerOk(s, i);
    if s.callers[i].pc.Waiting? {
      var c := s.callers[i].pc.c;
      assert CallOk(s, c);
      if s.objs[c].exec.Finished? {
        assert Enabled(s, Wake(i));
      } else {
        ExecutorCanStep(s, c);
      }
    } else {
      assert Enabled(s, Enter(i)) || Enabled(s, Acquire(i)) || Enabled(s, Spawn(i)) || Enabled(s, Return(i));
    }
  }

  /** `Do` never gets stuck: someone can move until everyone has returned and every goroutine has ended. */
  lemma StuckOnlyWhenQuiescent(s: State)
    requires Inv(s)
    ensures CanStep(s) <==> !Quiescent(s)
    ensures Quiescent(s) ==> s.calls == map[] && s.lock.None?
  {
    if s.lock.Some? {
      LockHolderCanStep(s);
      match s.lock.value
      case ByCaller(i) => assert CallerOk(s, i);
      case ByExecutor(c) => assert CallOk(s, c);
    } else if i: nat :| i < |s.callers| && !s.callers[i].pc.Returned? {
      CallerCanStep(s, i);
    } else if c: nat :| c < |s.objs| && !s.objs[c].exec.Finished? {
      ExecutorCanStep(s, c);
    } else {
      OneLiveExecutionPerKey(s);
    }
  }

  lemma {:induction false} RunSpendsWork(s: State, steps: seq<Step>)
    requires Inv(s) && Possible(s, steps)
    ensures |steps| + Work(After(s, steps)) <= Work(s)
    decreases |steps|
  {
    if steps != [] {
      StepKeepsInv(s, steps[0]);
      StepReducesWork(s, steps[0]);
      RunSpendsWork(Apply(s, steps[0]), steps[1..]);
    }
  }

  lemma {:induction false} WorkOfNewCallers(callers: seq<Caller>)
    requires forall i: nat :: i < |callers| ==> callers[i].pc.Outside?
    ensures CallersWork(callers) == 14 * |callers|
  {
    if callers != [] {
      WorkOfNewCallers(callers[..|callers| - 1]);
    }
  }

  /**
   However `n` callers and their executors are scheduled, they execute at most `14 * n` statements,
   and when no statement can run, every caller has returned and `calls` is empty.
   */
  lemma EveryScheduleEnds(keys: seq<string>, steps: seq<Step>)
    requires Possible(Init(keys), steps)
    ensures |steps| <= 14 * |keys|
    ensures var s := After(Init(keys), steps);
            !CanStep(s) ==>
              && s.calls == map[] && s.lock.None? && |s.callers| == |keys|
              && forall i: nat :: i < |keys| ==> s.callers[i].pc.Returned?
  {
    InitInv(keys);
    RunKeepsInv(Init(keys), steps);
    RunPreserves(Init(keys), steps);
    RunSpendsWork(Init(keys), steps);
    WorkOfNewCallers(Init(keys).callers);
    StuckOnlyWhenQuiescent(After(Init(keys), steps));
  }

  // The contract.

  function StageOf(pc: ExecutorPc): Flights.Stage {
    match pc
    case Unborn => Flights.Running
    case Running => Flights.Running
    case Ran(out) => Flights.Ran(out)
    case Holding(out) => Flights.Ran(out)
    case Published(out) => Flights.Published(out)
    case Signalled(out) => Flights.Published(out)
    case Deleted(out) => Flights.Published(out)
    case Finished(out) => Flights.Published(out)
  }

  function MemberOf(pc: CallerPc): Flights.Member {
    match pc
    case Returned(c, out) => Flights.Got(c, out)
    case _ => if Held(pc).Some? then Flights.In(Held(pc).value) else Flights.Outside
  }

  /** What is left of a state when locks, wait-groups and the map are forgotten. */
  function Abstract(s: State): Flights.Group {
    Flights.Group(
      seq(|s.objs|, c requires 0 <= c < |s.objs| =>
        Flights.Flight(s.objs[c].key, s.objs[c].creator, StageOf(s.objs[c].exec))),
      seq(|s.callers|, i requires 0 <= i < |s.callers| => s.callers[i].key),
      seq(|s.callers|, i requires 0 <= i < |s.callers| => MemberOf(s.callers[i].pc)))
  }

  function ActionOf(step: Step): Flights.Action {
    match step
    case Hit(i) => Flights.DoJoin(i)
    case Miss(i) => Flights.DoJoin(i)
    case RunF(c, out) => Flights.DoRun(c, out)
    case Publish(c) => Flights.DoPublish(c)
    case Return(i) => Flights.DoLeave(i)
    case _ => Flights.Stutter
  }

  /** While a caller holds the lock, the map and the unpublished flights say the same. */
  lemma LookupFindsLiveFlight(s: State, i: nat)
    requires Inv(s) && i < |s.callers| && s.callers[i].pc.Locked?
    ensures var key := s.callers[i].key;
            Flights.FindLive(Abstract(s).flights, key) == (if key in s.calls then Some(s.calls[key]) else None)
  {
    var key := s.callers[i].key;
    var fs := Abstract(s).flights;
    assert CallerOk(s, i);
    if key in s.calls {
      assert CallOk(s, s.calls[key]);
      assert Flights.Live(fs, key, s.calls[key]);
    }
    forall f: nat | Flights.Live(fs, key, f) ensures key in s.calls && s.calls[key] == f {
      assert CallOk(s, f);
    }
  }

  lemma JoinRefines(s: State, step: Step)
    requires Inv(s) && Enabled(s, step) && (step.Hit? || step.Miss?)
    ensures Flights.Next(Abstract(s), ActionOf(step), Abstract(Apply(s, step)))
  {
    LookupFindsLiveFlight(s, step.i);
    var g, g' := Abstract(s), Abstract(Apply(s, step));
    assert CallerOk(s, step.i);
    assert g'.keys == g.keys;
    assert g'.flights == Flights.Join(g.flights, g.keys[step.i], step.i).0;
    assert g'.members == g.members[step.i := Flights.In(Flights.Join(g.flights, g.keys[step.i], step.i).1)];
  }

  lemma ExecutorRefines(s: State, step: Step)
    requires Inv(s) && Enabled(s, step) && OfExecutor(step)
    ensures Flights.Next(Abstract(s), ActionOf(step), Abstract(Apply(s, step)))
  {
    var g, g' := Abstract(s), Abstract(Apply(s, step));
    ActorOk(s, step);
    assert g'.keys == g.keys;
    assert g'.members == g.members;
    if step.RunF? {
      assert g'.flights == Flights.Run(g.flights, step.c, step.out);
    } else if step.Publish? {
      assert g'.flights == Flights.Publish(g.flights, step.c);
    } else {
      assert g'.flights == g.flights;
    }
  }

  lemma ReturnRefines(s: State, step: Step)
    requires Inv(s) && Enabled(s, step) && step.Return?
    ensures Flights.Next(Abstract(s), ActionOf(step), Abstract(Apply(s, step)))
  {
    var g, g' := Abstract(s), Abstract(Apply(s, step));
    ActorOk(s, step);
    assert g'.keys == g.keys;
    assert g'.flights == g.flights;
    assert g'.members == g.members[step.i := MemberOf(Apply(s, step).callers[step.i].pc)];
  }

  /** The other statements of a caller change nothing that the contract speaks of. */
  lemma CallerRefines(s: State, step: Step)
    requires Inv(s) && Enabled(s, step) && !OfExecutor(step) && !step.Hit? && !step.Miss? && !step.Return?
    ensures Flights.Next(Abstract(s), ActionOf(step), Abstract(Apply(s, step)))
  {
    var g, g' := Abstract(s), Abstract(Apply(s, step));
    ActorOk(s, step);
    assert g'.keys == g.keys;
    assert g'.flights == g.flights;
    assert g'.members == g.members;
  }

  /** `Do` refines the single-flight contract: every statement is one of its actions or changes nothing. */
  lemma DoRefinesFlights(s: State, step: Step)
    requires Inv(s) && Enabled(s, step)
    ensures Flights.Next(Abstract(s), ActionOf(step), Abstract(Apply(s, step)))
  {
    if OfExecutor(step) {
      ExecutorRefines(s, step);
    } else if step.Hit? || step.Miss? {
      JoinRefines(s, step);
    } else if step.Return? {
      ReturnRefines(s, step);
    } else {
      CallerRefines(s, step);
    }
  }

  lemma StepKeepsContract(s: State, step: Step)
    requires Inv(s) && Flights.Ok(Abstract(s)) && Enabled(s, step)
    ensures Flights.Ok(Abstract(Apply(s, step)))
  {
    DoRefinesFlights(s, step);
    Flights.NextKeepsOk(Abstract(s), ActionOf(step), Abstract(Apply(s, step)));
  }

  lemma {:induction false} RunKeepsContract(s: State, steps: seq<Step>)
    requires Inv(s) && Flights.Ok(Abstract(s)) && Possible(s, steps)
    ensures Flights.Ok(Abstract(After(s, steps)))
    decreases |steps|
  {
    if steps != [] {
      StepKeepsInv(s, steps[0]);
      StepKeepsContract(s, steps[0]);
      RunKeepsContract(Apply(s, steps[0]), steps[1..]);
    }
  }

  /** So the contract holds in every state that callers of `Do` can reach. */
  lemma EveryRunMeetsContract(keys: seq<string>, steps: seq<Step>)
    requires Possible(Init(keys), steps)
    ensures Flights.Ok(Abstract(After(Init(keys), steps)))
  {
    InitInv(keys);
    RunKeepsContract(Init(keys), steps);
  }
}
