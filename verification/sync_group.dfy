/**
 `Group.Do` of golang.org/x/sync/singleflight
 (gateway/vendor/golang.org/x/sync/singleflight/singleflight.go), which the scaler and the cached
 query call, as a transition system. Unlike in `SingleFlight`, the caller that starts a flight runs
 the function itself, writes the two halves of the result outside the lock, signals and deletes in
 one locked section, and does not wait.
 */
module SyncGroup {

  import opened Wrappers
  import opened Service
  import Flights

  datatype Pc =
    | Contending                            // at g.mu.Lock(), line 92
    | Locked                                // at the lookup, line 96
    | Found(c: nat)                         // at g.mu.Unlock(), line 98
    | Waiting(c: nat)                       // at c.wg.Wait(), line 99
    | Created(c: nat)                       // at c.wg.Add(1), line 109
    | Added(c: nat)                         // at g.m[key] = c, line 110
    | Inserted(c: nat)                      // at g.mu.Unlock(), line 111
    | Calling(c: nat)                       // in fn(), line 198
    | Ran(c: nat, out: FlightResult)        // at the write of c.val, line 198
    | HalfWritten(c: nat, out: FlightResult)  // at the write of c.err, line 198
    | Written(c: nat)                       // at g.mu.Lock(), line 156
    | Relocked(c: nat)                      // at c.wg.Done(), line 158
    | Signalled(c: nat)                     // at the deletion, lines 159-161
    | Deleted(c: nat)                       // at g.mu.Unlock(), line 157
    | Reading(c: nat)                       // at the reads of c.val and c.err, lines 106 and 114
    | Returned(c: nat, out: FlightResult)

  datatype Caller = Caller(key: string, pc: Pc)

  /** The fields `val` and `err` start as nil, so that a read before the writes would go unnoticed. */
  datatype Call = Call(key: string, creator: nat, wg: nat, val: Option<ServiceQueryResponse>, err: Option<Error>)
  {
    function Result(): FlightResult {
      FlightResult(val, err)
    }
  }

  datatype State = State(lock: Option<nat>, m: map<string, nat>, calls: seq<Call>, callers: seq<Caller>, crashed: bool)

  /** Caller `i` runs the statement it is at; `out` is what `fn` returns, if that is it. */
  datatype Step = Step(i: nat, out: FlightResult)

  function Held(pc: Pc): Option<nat> {
    if pc.Contending? || pc.Locked? then None else Some(pc.c)
  }

  predicate Enabled(s: State, step: Step) {
    && step.i < |s.callers|
    && var pc := s.callers[step.i].pc;
    && (Held(pc).Some? ==> pc.c < |s.calls|)
    && (pc.Contending? || pc.Written? ==> s.lock.None?)
    && (pc.Waiting? ==> s.calls[pc.c].wg == 0)
    && !pc.Returned?
  }

  // One statement, by what it does to the program counter, the mutex, the map and the calls.

  function NextPc(s: State, step: Step): Pc
    requires Enabled(s, step)
  {
    var key := s.callers[step.i].key;
    match s.callers[step.i].pc
    case Contending => Locked
    case Locked => if key in s.m then Found(s.m[key]) else Created(|s.calls|)
    case Found(c) => Waiting(c)
    case Waiting(c) => Reading(c)
    case Created(c) => Added(c)
    case Added(c) => Inserted(c)
    case Inserted(c) => Calling(c)
    case Calling(c) => Ran(c, step.out)
    case Ran(c, out) => HalfWritten(c, out)
    case HalfWritten(c, _) => Written(c)
    case Written(c) => Relocked(c)
    case Relocked(c) => Signalled(c)
    case Signalled(c) => Deleted(c)
    case Deleted(c) => Reading(c)
    case Reading(c) => Returned(c, s.calls[c].Result())
  }

  function NextLock(s: State, step: Step): Option<nat>
    requires Enabled(s, step)
  {
    var pc := s.callers[step.i].pc;
    if pc.Contending? || pc.Written? then Some(step.i)
    else if pc.Found? || pc.Inserted? || pc.Deleted? then None
    else s.lock
  }

  function NextMap(s: State, step: Step): map<string, nat>
    requires Enabled(s, step)
  {
    var Caller(key, pc) := s.callers[step.i];
    if pc.Added? then s.m[key := pc.c]
    else if pc.Signalled? && key in s.m && s.m[key] == pc.c then s.m - {key}
    else s.m
  }

  /** The call that a caller works on, after the statement. */
  function NextCall(pc: Pc, call: Call): Call {
    match pc
    case Created(_) => call.(wg := call.wg + 1)
    case Ran(_, out) => call.(val := out.res)
    case HalfWritten(_, out) => call.(err := out.err)
    case Relocked(_) => if call.wg > 0 then call.(wg := call.wg - 1) else call
    case _ => call
  }

  function NextCalls(s: State, step: Step): seq<Call>
    requires Enabled(s, step)
  {
    var Caller(key, pc) := s.callers[step.i];
    if pc.Locked? && key !in s.m then s.calls + [Call(key, step.i, 0, None, None)]
    else if Held(pc).Some? then s.calls[pc.c := NextCall(pc, s.calls[pc.c])]
    else s.calls
  }

  /** `Done` on a zero counter panics. */
  predicate Panics(s: State, step: Step)
    requires Enabled(s, step)
  {
    var pc := s.callers[step.i].pc;
    pc.Relocked? && s.calls[pc.c].wg == 0
  }

  function Apply(s: State, step: Step): State
    requires Enabled(s, step)
  {
    State(NextLock(s, step), NextMap(s, step), NextCalls(s, step),
          s.callers[step.i := s.callers[step.i].(pc := NextPc(s, step))], s.crashed || Panics(s, step))
  }

  /** A new `Group`, with one future caller of `Do` per key in `keys`. */
  function Init(keys: seq<string>): State {
    State(None, map[], [], seq(|keys|, i requires 0 <= i < |keys| => Caller(keys[i], Contending)), false)
  }

  predicate Possible(s: State, steps: seq<Step>)
    decreases |steps|
  {
    steps == [] || (Enabled(s, steps[0]) && Possible(Apply(s, steps[0]), steps[1..]))
  }

  function After(s: State, steps: seq<Step>): State
    requires Possible(s, steps)
    decreases |steps|
  {
    if steps == [] then s else After(Apply(s, steps[0]), steps[1..])
  }

  // The invariant.

  predicate HoldsLock(pc: Pc) {
    pc.Locked? || pc.Found? || pc.Created? || pc.Added? || pc.Inserted? || pc.Relocked? || pc.Signalled? || pc.Deleted?
  }

  /** Only the creator of a call gets here. */
  predicate Working(pc: Pc) {
    Held(pc).Some? && !pc.Found? && !pc.Waiting? && !pc.Reading? && !pc.Returned?
  }

  /** What the creator of a call has done with it, and what its fields are worth. */
  function StageOf(pc: Pc, call: Call): Flights.Stage {
    match pc
    case Ran(_, out) => Flights.Ran(out)
    case HalfWritten(_, out) => Flights.Ran(out)
    case Written(_) => Flights.Ran(call.Result())
    case Relocked(_) => Flights.Ran(call.Result())
    case Signalled(_) => Flights.Published(call.Result())
    case Deleted(_) => Flights.Published(call.Result())
    case Reading(_) => Flights.Published(call.Result())
    case Returned(_, _) => Flights.Published(call.Result())
    case _ => Flights.Running
  }

  function CreatorPc(s: State, c: nat): Pc
    requires c < |s.calls|
  {
    var i := s.calls[c].creator;
    if i < |s.callers| then s.callers[i].pc else Contending
  }

  function Stage(s: State, c: nat): Flights.Stage
    requires c < |s.calls|
  {
    StageOf(CreatorPc(s, c), s.calls[c])
  }

  predicate InMap(s: State, c: nat)
    requires c < |s.calls|
  {
    s.calls[c].key in s.m && s.m[s.calls[c].key] == c
  }

  predicate CallerOk(s: State, i: nat)
    requires i < |s.callers|
  {
    var Caller(key, pc) := s.callers[i];
    && (HoldsLock(pc) <==> s.lock == Some(i))
    && (Held(pc).Some? ==>
          && pc.c < |s.calls|
          && s.calls[pc.c].key == key
          && (Working(pc) ==> s.calls[pc.c].creator == i)
          && (pc.Created? || pc.Added? ==> key !in s.m)
          && (pc.Found? || pc.Waiting? ==> s.calls[pc.c].creator != i)
          && (s.calls[pc.c].creator != i ==> !CreatorPc(s, pc.c).Created? && !CreatorPc(s, pc.c).Added?)
          && (pc.Reading? || pc.Returned? ==> Stage(s, pc.c).Published?)
          && (pc.Returned? ==> pc.out == s.calls[pc.c].Result()))
  }

  predicate CallOk(s: State, c: nat)
    requires c < |s.calls|
  {
    var call, pc := s.calls[c], CreatorPc(s, c);
    && call.creator < |s.callers|
    && Held(pc) == Some(c) && !pc.Found? && !pc.Waiting?
    && call.wg == (if pc.Created? || Stage(s, c).Published? then 0 else 1)
    && (InMap(s, c) <==>
          pc.Inserted? || pc.Calling? || pc.Ran? || pc.HalfWritten? || pc.Written? || pc.Relocked? || pc.Signalled?)
    && (pc.HalfWritten? ==> call.val == pc.out.res)
  }

  ghost predicate RefsOk(s: State) {
    && (forall key :: key in s.m ==> s.m[key] < |s.calls| && s.calls[s.m[key]].key == key)
    && (s.lock.Some? ==> s.lock.value < |s.callers|)
  }

  ghost predicate Inv(s: State) {
    && !s.crashed
    && (forall i: nat :: i < |s.callers| ==> CallerOk(s, i))
    && (forall c: nat :: c < |s.calls| ==> CallOk(s, c))
    && RefsOk(s)
  }

  /** What the invariant says of the caller that takes a step, and of its call; it does not panic. */
  lemma ActorOk(s: State, step: Step)
    requires Inv(s) && Enabled(s, step)
    ensures !Apply(s, step).crashed && CallerOk(s, step.i)
    ensures var pc := s.callers[step.i].pc;
            && (Held(pc).Some? ==> CallOk(s, pc.c))
            && (pc.Locked? && s.callers[step.i].key in s.m ==> CallOk(s, s.m[s.callers[step.i].key]))
  {
    assert CallerOk(s, step.i);
    var pc := s.callers[step.i].pc;
    if Held(pc).Some? {
      assert CallOk(s, pc.c);
    }
  }

  lemma ActorKept(s: State, step: Step)
    requires Inv(s) && Enabled(s, step)
    ensures CallerOk(Apply(s, step), step.i)
  {
    ActorOk(s, step);
    var pc := s.callers[step.i].pc;
    if pc.Locked? && s.callers[step.i].key in s.m {
      // The call in the map was unlocked by its creator, because the lock is held by another.
      assert CallerOk(s, s.calls[s.m[s.callers[step.i].key]].creator);
    }
  }

  /** What a step of caller `a` leaves alone, and which way the stage of a call goes. */
  ghost predicate Frame(s: State, s': State, a: nat) {
    && a < |s.callers| == |s'.callers|
    && s'.callers[a].key == s.callers[a].key
    && (forall j: nat :: j < |s.callers| && j != a ==> s'.callers[j] == s.callers[j])
    && (forall j: nat :: j != a ==> (s'.lock == Some(j) <==> s.lock == Some(j)))
    && (forall key :: key in s'.m ==> key in s.m || s.lock == Some(a))
    && |s.calls| <= |s'.calls|
    && (forall c: nat :: c < |s.calls| ==> CallFrame(s, s', a, c))
  }

  predicate CallFrame(s: State, s': State, a: nat, c: nat)
    requires c < |s.calls| <= |s'.calls|
  {
    && s'.calls[c].key == s.calls[c].key && s'.calls[c].creator == s.calls[c].creator
    && (s.calls[c].creator != a ==> s'.calls[c] == s.calls[c] && (InMap(s', c) <==> InMap(s, c)))
    && (Stage(s, c).Published? ==> Stage(s', c) == Stage(s, c) && s'.calls[c] == s.calls[c])
    && (!CreatorPc(s, c).Created? && !CreatorPc(s, c).Added? ==> !CreatorPc(s', c).Created? && !CreatorPc(s', c).Added?)
  }

  lemma StepFramesOwnCall(s: State, step: Step, c: nat)
    requires Inv(s) && Enabled(s, step) && c < |s.calls| && s.calls[c].creator == step.i
    ensures c < |Apply(s, step).calls| && CallFrame(s, Apply(s, step), step.i, c)
  {
    ActorOk(s, step);
    assert CallOk(s, c);
  }

  lemma StepFramesOtherCall(s: State, step: Step, c: nat)
    requires Inv(s) && Enabled(s, step) && c < |s.calls| && s.calls[c].creator != step.i
    ensures c < |Apply(s, step).calls| && CallFrame(s, Apply(s, step), step.i, c)
  {
    assert CallerOk(s, step.i);
    assert CallOk(s, c);
  }

  lemma StepFrames(s: State, step: Step)
    requires Inv(s) && Enabled(s, step)
    ensures Frame(s, Apply(s, step), step.i)
  {
    ActorOk(s, step);
    forall c: nat | c < |s.calls| ensures c < |Apply(s, step).calls| && CallFrame(s, Apply(s, step), step.i, c) {
      if s.calls[c].creator == step.i {
        StepFramesOwnCall(s, step, c);
      } else {
        StepFramesOtherCall(s, step, c);
      }
    }
  }

  lemma OtherCallerKept(s: State, s': State, a: nat, i: nat)
    requires Frame(s, s', a) && i < |s.callers| && i != a && CallerOk(s, i)
    ensures CallerOk(s', i)
  {
    var pc := s.callers[i].pc;
    if Held(pc).Some? {
      assert CallFrame(s, s', a, pc.c);
    }
  }

  lemma OtherCallKept(s: State, s': State, a: nat, c: nat)
    requires Frame(s, s', a) && c < |s.calls| && s.calls[c].creator != a && CallOk(s, c)
    ensures CallOk(s', c)
  {
    assert CallFrame(s, s', a, c);
  }

  /** The call that the actor itself works on. */
  lemma OwnCallKept(s: State, step: Step, c: nat)
    requires Inv(s) && Enabled(s, step) && c < |s.calls| && s.calls[c].creator == step.i
    ensures c < |Apply(s, step).calls| && CallOk(Apply(s, step), c)
  {
    assert CallOk(s, c);
    assert CallerOk(s, step.i);
  }

  lemma NewCallOk(s: State, step: Step)
    requires Inv(s) && Enabled(s, step) && |Apply(s, step).calls| > |s.calls|
    ensures |Apply(s, step).calls| == |s.calls| + 1 && CallOk(Apply(s, step), |s.calls|)
  {
  }

  lemma RefsKept(s: State, step: Step)
    requires Inv(s) && Enabled(s, step)
    ensures RefsOk(Apply(s, step))
  {
    ActorOk(s, step);
  }

  /** Every statement of every caller keeps the invariant. */
  lemma StepKeepsInv(s: State, step: Step)
    requires Inv(s) && Enabled(s, step)
    ensures Inv(Apply(s, step))
  {
    var s' := Apply(s, step);
    ActorOk(s, step);
    RefsKept(s, step);
    StepFrames(s, step);
    forall i: nat | i < |s'.callers| ensures CallerOk(s', i) {
      if i == step.i {
        ActorKept(s, step);
      } else {
        OtherCallerKept(s, s', step.i, i);
      }
    }
    forall c: nat | c < |s'.calls| ensures CallOk(s', c) {
      if c >= |s.calls| {
        NewCallOk(s, step);
      } else if s.calls[c].creator == step.i {
        OwnCallKept(s, step, c);
      } else {
        OtherCallKept(s, s', step.i, c);
      }
    }
  }

  // The contract.

  function MemberOf(pc: Pc): Flights.Member {
    match pc
    case Returned(c, out) => Flights.Got(c, out)
    case _ => if Held(pc).Some? then Flights.In(pc.c) else Flights.Outside
  }

  /** What is left of a state when the lock, the wait-groups and the map are forgotten. */
  function Abstract(s: State): Flights.Group {
    Flights.Group(
      seq(|s.calls|, c requires 0 <= c < |s.calls| =>
        Flights.Flight(s.calls[c].key, s.calls[c].creator, Stage(s, c))),
      seq(|s.callers|, i requires 0 <= i < |s.callers| => s.callers[i].key),
      seq(|s.callers|, i requires 0 <= i < |s.callers| => MemberOf(s.callers[i].pc)))
  }

  function ActionOf(s: State, step: Step): Flights.Action
    requires step.i < |s.callers|
  {
    match s.callers[step.i].pc
    case Locked => Flights.DoJoin(step.i)
    case Calling(c) => Flights.DoRun(c, step.out)
    case Relocked(c) => Flights.DoPublish(c)
    case Reading(_) => Flights.DoLeave(step.i)
    case _ => Flights.Stutter
  }

  /** For the caller at the lookup, the map and the unpublished flights say the same. */
  lemma LookupFindsLiveFlight(s: State, i: nat)
    requires Inv(s) && i < |s.callers| && s.callers[i].pc.Locked?
    ensures var key := s.callers[i].key;
            Flights.FindLive(Abstract(s).flights, key) == (if key in s.m then Some(s.m[key]) else None)
  {
    var key := s.callers[i].key;
    var fs := Abstract(s).flights;
    assert CallerOk(s, i);
    if key in s.m {
      LiveIsInMap(s, i, s.m[key]);
      assert Flights.Live(fs, key, s.m[key]);
    }
    forall f: nat | Flights.Live(fs, key, f) ensures key in s.m && s.m[key] == f {
      LiveIsInMap(s, i, f);
    }
  }

  lemma LiveIsInMap(s: State, i: nat, c: nat)
    requires Inv(s) && i < |s.callers| && s.callers[i].pc.Locked? && c < |s.calls|
    ensures !Stage(s, c).Published? <==> InMap(s, c)
  {
    assert CallerOk(s, i);
    assert CallOk(s, c);
    assert CallerOk(s, s.calls[c].creator);
  }

  /** How the stages move: only that of the actor's own call, and only where its fields are written or signalled. */
  lemma StageMoves(s: State, step: Step, c: nat)
    requires Inv(s) && Enabled(s, step) && c < |s.calls|
    ensures var s', pc := Apply(s, step), s.callers[step.i].pc;
            && c < |s'.calls| && s'.calls[c].key == s.calls[c].key && s'.calls[c].creator == s.calls[c].creator
            && Stage(s', c) ==
               if pc == Calling(c) then Flights.Ran(step.out)
               else if pc == Relocked(c) then Flights.Published(s.calls[c].Result())
               else Stage(s, c)
  {
    ActorOk(s, step);
    assert CallOk(s, c);
  }

  lemma EachFlightMoves(s: State, step: Step)
    requires Inv(s) && Enabled(s, step)
    ensures var fs, fs', pc := Abstract(s).flights, Abstract(Apply(s, step)).flights, s.callers[step.i].pc;
            && |fs| <= |fs'|
            && forall c: nat :: c < |fs| ==>
                 fs'[c] == fs[c].(stage := if pc == Calling(c) then Flights.Ran(step.out)
                                           else if pc == Relocked(c) then Flights.Published(s.calls[c].Result())
                                           else fs[c].stage)
  {
    var fs, fs', pc := Abstract(s).flights, Abstract(Apply(s, step)).flights, s.callers[step.i].pc;
    forall c: nat | c < |fs|
      ensures c < |fs'|
      ensures fs'[c] == fs[c].(stage := if pc == Calling(c) then Flights.Ran(step.out)
                                        else if pc == Relocked(c) then Flights.Published(s.calls[c].Result())
                                        else fs[c].stage)
    {
      StageMoves(s, step, c);
    }
  }

  lemma FlightsMove(s: State, step: Step)
    requires Inv(s) && Enabled(s, step)
    ensures var fs, fs', pc := Abstract(s).flights, Abstract(Apply(s, step)).flights, s.callers[step.i].pc;
            match pc
            case Locked =>
              fs' == if s.callers[step.i].key in s.m then fs
                     else fs + [Flights.Flight(s.callers[step.i].key, step.i, Flights.Running)]
            case Calling(c) => c < |fs| && fs[c].stage.Running? && fs' == Flights.Run(fs, c, step.out)
            case Relocked(c) => c < |fs| && fs[c].stage.Ran? && fs' == Flights.Publish(fs, c)
            case _ => fs' == fs
  {
    ActorOk(s, step);
    EachFlightMoves(s, step);
  }

  lemma MembersMove(s: State, step: Step)
    requires Inv(s) && Enabled(s, step)
    ensures var g, g' := Abstract(s), Abstract(Apply(s, step));
            && g'.keys == g.keys
            && g'.members == g.members[step.i := MemberOf(Apply(s, step).callers[step.i].pc)]
  {
    ActorOk(s, step);
  }

  /** `Do` refines the single-flight contract: every statement is one of its actions or changes nothing. */
  lemma DoRefinesFlights(s: State, step: Step)
    requires Inv(s) && Enabled(s, step)
    ensures Flights.Next(Abstract(s), ActionOf(s, step), Abstract(Apply(s, step)))
  {
    ActorOk(s, step);
    FlightsMove(s, step);
    MembersMove(s, step);
    if s.callers[step.i].pc.Locked? {
      LookupFindsLiveFlight(s, step.i);
    }
  }

  lemma StepKeepsContract(s: State, step: Step)
    requires Inv(s) && Flights.Ok(Abstract(s)) && Enabled(s, step)
    ensures Flights.Ok(Abstract(Apply(s, step)))
    ensures |Apply(s, step).callers| == |s.callers|
    ensures forall i: nat :: i < |s.callers| ==> Apply(s, step).callers[i].key == s.callers[i].key
  {
    DoRefinesFlights(s, step);
    Flights.NextKeepsOk(Abstract(s), ActionOf(s, step), Abstract(Apply(s, step)));
    StepFrames(s, step);
  }

  lemma {:induction false} RunKeepsContract(s: State, steps: seq<Step>)
    requires Inv(s) && Flights.Ok(Abstract(s)) && Possible(s, steps)
    ensures Inv(After(s, steps)) && Flights.Ok(Abstract(After(s, steps)))
    ensures |After(s, steps).callers| == |s.callers|
    ensures forall i: nat :: i < |s.callers| ==> After(s, steps).callers[i].key == s.callers[i].key
    decreases |steps|
  {
    if steps != [] {
      StepKeepsInv(s, steps[0]);
      StepKeepsContract(s, steps[0]);
      RunKeepsContract(Apply(s, steps[0]), steps[1..]);
    }
  }

  // Where a result comes from.

  /** The writes of `c.val` and of `c.err`. */
  datatype Half = Val | Err

  /** Whether a half of call `c` has been written, by where its creator is. */
  function Wrote(s: State, c: nat, half: Half): nat {
    if c >= |s.calls| || StageOf(CreatorPc(s, c), s.calls[c]).Running? || CreatorPc(s, c).Ran? then 0
    else if CreatorPc(s, c).HalfWritten? && half.Err? then 0
    else 1
  }

  /** Whether a caller at `pc` is about to write it. */
  function Writing(pc: Pc, c: nat, half: Half): nat {
    if (if half.Val? then pc.Ran? else pc.HalfWritten?) && pc.c == c then 1 else 0
  }

  /** How often an interleaving writes it. */
  function Writes(s: State, steps: seq<Step>, c: nat, half: Half): nat
    requires Possible(s, steps)
    decreases |steps|
  {
    if steps == [] then 0
    else Writing(s.callers[steps[0].i].pc, c, half) + Writes(Apply(s, steps[0]), steps[1..], c, half)
  }

  lemma StepWrites(s: State, step: Step, c: nat, half: Half)
    requires Inv(s) && Enabled(s, step)
    ensures Wrote(Apply(s, step), c, half) == Wrote(s, c, half) + Writing(s.callers[step.i].pc, c, half)
  {
    ActorOk(s, step);
    if c < |s.calls| {
      assert CallOk(s, c);
    }
  }

  lemma {:induction false} HalvesWrittenOnce(s: State, steps: seq<Step>, c: nat, half: Half)
    requires Inv(s) && Possible(s, steps)
    ensures Wrote(After(s, steps), c, half) == Wrote(s, c, half) + Writes(s, steps, c, half)
    decreases |steps|
  {
    if steps != [] {
      StepKeepsInv(s, steps[0]);
      StepWrites(s, steps[0], c, half);
      HalvesWrittenOnce(Apply(s, steps[0]), steps[1..], c, half);
    }
  }

  /** In one of the steps the `fn` of call `c` returned `out`. */
  predicate FnReturned(s: State, steps: seq<Step>, c: nat, out: FlightResult)
    requires Possible(s, steps)
    decreases |steps|
  {
    && steps != []
    && (|| (s.callers[steps[0].i].pc == Calling(c) && steps[0].out == out)
        || FnReturned(Apply(s, steps[0]), steps[1..], c, out))
  }

  predicate HasRun(s: State, c: nat, out: FlightResult) {
    c < |s.calls| && Stage(s, c) in {Flights.Ran(out), Flights.Published(out)}
  }

  lemma {:induction false} OutcomeComesFromFn(s: State, steps: seq<Step>, c: nat, out: FlightResult)
    requires Inv(s) && Possible(s, steps) && HasRun(After(s, steps), c, out)
    ensures HasRun(s, c, out) || FnReturned(s, steps, c, out)
    decreases |steps|
  {
    if steps != [] {
      StepKeepsInv(s, steps[0]);
      OutcomeComesFromFn(Apply(s, steps[0]), steps[1..], c, out);
      if HasRun(Apply(s, steps[0]), c, out) {
        StepRuns(s, steps[0], c, out);
      }
    }
  }

  lemma StepRuns(s: State, step: Step, c: nat, out: FlightResult)
    requires Inv(s) && Enabled(s, step) && HasRun(Apply(s, step), c, out)
    ensures HasRun(s, c, out) || (s.callers[step.i].pc == Calling(c) && step.out == out)
  {
    ActorOk(s, step);
    if c < |s.calls| {
      StageMoves(s, step, c);
    } else {
      NewCallOk(s, step);
    }
  }

  /** A flight that is published is not joined any more. */
  lemma {:induction false} PublishedIsNotJoined(s: State, steps: seq<Step>, i: nat, c: nat)
    requires Inv(s) && Possible(s, steps) && i < |s.callers| && c < |s.calls|
    requires Stage(s, c).Published? && Held(s.callers[i].pc) != Some(c)
    ensures i < |After(s, steps).callers| && Held(After(s, steps).callers[i].pc) != Some(c)
    decreases |steps|
  {
    if steps != [] {
      StepKeepsInv(s, steps[0]);
      StepFrames(s, steps[0]);
      assert CallFrame(s, Apply(s, steps[0]), steps[0].i, c);
      if steps[0].i == i {
        NextHeld(s, steps[0], c);
      }
      PublishedIsNotJoined(Apply(s, steps[0]), steps[1..], i, c);
    }
  }

  lemma NextHeld(s: State, step: Step, c: nat)
    requires Inv(s) && Enabled(s, step) && c < |s.calls|
    requires Stage(s, c).Published? && Held(s.callers[step.i].pc) != Some(c)
    ensures Held(Apply(s, step).callers[step.i].pc) != Some(c)
  {
    if s.callers[step.i].pc.Locked? {
      LiveIsInMap(s, step.i, c);
      assert RefsOk(s);
    }
  }

  /** Whoever has not entered `Do` yet returns with the result of a flight that is not published by then. */
  lemma ResultIsPublishedAfterEntry(s: State, steps: seq<Step>, i: nat)
    requires Inv(s) && Possible(s, steps) && i < |s.callers| && s.callers[i].pc.Contending?
    ensures i < |After(s, steps).callers|
    ensures var pc := After(s, steps).callers[i].pc;
            pc.Returned? && pc.c < |s.calls| ==> !Stage(s, pc.c).Published?
  {
    CallersStay(s, steps);
    var pc := After(s, steps).callers[i].pc;
    if pc.Returned? && pc.c < |s.calls| && Stage(s, pc.c).Published? {
      PublishedIsNotJoined(s, steps, i, pc.c);
      assert false;
    }
  }

  lemma {:induction false} CallersStay(s: State, steps: seq<Step>)
    requires Inv(s) && Possible(s, steps)
    ensures |After(s, steps).callers| == |s.callers|
    decreases |steps|
  {
    if steps != [] {
      StepKeepsInv(s, steps[0]);
      StepFrames(s, steps[0]);
      CallersStay(Apply(s, steps[0]), steps[1..]);
    }
  }

  /**
   In every interleaving of any callers at most one flight of a key is live, nothing panics, and a
   caller that has returned has both halves of the result of one call, of its own key, that was
   published before: each half was written exactly once, and together they are what `fn` returned
   to the creator of that call.
   */
  lemma EveryReturnIsItsFlightsResult(keys: seq<string>, steps: seq<Step>)
    requires Possible(Init(keys), steps)
    ensures var s := After(Init(keys), steps);
            && !s.crashed && |s.callers| == |keys|
            && Flights.Ok(Abstract(s))
            && forall i: nat :: i < |keys| && s.callers[i].pc.Returned? ==>
                 var Returned(c, out) := s.callers[i].pc;
                 && c < |s.calls| && s.calls[c].key == keys[i] && Stage(s, c) == Flights.Published(out)
                 && Writes(Init(keys), steps, c, Val) == 1 == Writes(Init(keys), steps, c, Err)
                 && FnReturned(Init(keys), steps, c, out)
  {
    RunKeepsContract(Init(keys), steps);
    var s := After(Init(keys), steps);
    forall i: nat | i < |keys| && s.callers[i].pc.Returned?
      ensures var Returned(c, out) := s.callers[i].pc;
              && c < |s.calls| && s.calls[c].key == keys[i] && Stage(s, c) == Flights.Published(out)
              && Writes(Init(keys), steps, c, Val) == 1 == Writes(Init(keys), steps, c, Err)
              && FnReturned(Init(keys), steps, c, out)
    {
      assert CallerOk(s, i);
      assert s.callers[i].key == keys[i];
      var Returned(c, out) := s.callers[i].pc;
      HalvesWrittenOnce(Init(keys), steps, c, Val);
      HalvesWrittenOnce(Init(keys), steps, c, Err);
      OutcomeComesFromFn(Init(keys), steps, c, out);
    }
  }

  // Progress.

  function CallerWork(pc: Pc): nat {
    match pc
    case Contending => 13
    case Locked => 12
    case Found(_) => 3
    case Waiting(_) => 2
    case Created(_) => 11
    case Added(_) => 10
    case Inserted(_) => 9
    case Calling(_) => 8
    case Ran(_, _) => 7
    case HalfWritten(_, _) => 6
    case Written(_) => 5
    case Relocked(_) => 4
    case Signalled(_) => 3
    case Deleted(_) => 2
    case Reading(_) => 1
    case Returned(_, _) => 0
  }

  /** A bound on the number of statements still to be executed. */
  function Work(callers: seq<Caller>): nat {
    if callers == [] then 0 else Work(callers[..|callers| - 1]) + CallerWork(callers[|callers| - 1].pc)
  }

  lemma {:induction false} WorkUpdate(callers: seq<Caller>, i: nat, caller: Caller)
    requires i < |callers|
    ensures Work(callers[i := caller]) == Work(callers) - CallerWork(callers[i].pc) + CallerWork(caller.pc)
    decreases |callers|
  {
    var last := |callers| - 1;
    if i == last {
      assert callers[i := caller][..last] == callers[..last];
    } else {
      assert callers[i := caller][..last] == callers[..last][i := caller];
      WorkUpdate(callers[..last], i, caller);
    }
  }

  /** Every statement brings the caller that runs it closer to its return. */
  lemma StepReducesWork(s: State, step: Step)
    requires Inv(s) && Enabled(s, step)
    ensures Work(Apply(s, step).callers) < Work(s.callers)
  {
    var caller := Apply(s, step).callers[step.i];
    PcAdvances(s, step);
    WorkUpdate(s.callers, step.i, caller);
  }

  lemma PcAdvances(s: State, step: Step)
    requires Inv(s) && Enabled(s, step)
    ensures var callers := Apply(s, step).callers;
            && |callers| == |s.callers| && callers == s.callers[step.i := callers[step.i]]
            && CallerWork(callers[step.i].pc) < CallerWork(s.callers[step.i].pc)
  {
    ActorOk(s, step);
  }

  predicate CanMove(s: State, i: nat) {
    Enabled(s, Step(i, FlightResult(None, None)))
  }

  ghost predicate CanStep(s: State) {
    exists i :: CanMove(s, i)
  }

  /** Someone can move until everyone has returned, and then the map is empty and the lock free. */
  lemma StuckOnlyWhenAllReturned(s: State)
    requires Inv(s)
    ensures CanStep(s) <==> exists i: nat :: i < |s.callers| && !s.callers[i].pc.Returned?
    ensures !CanStep(s) ==> s.m == map[] && s.lock.None?
  {
    if i: nat :| i < |s.callers| && !s.callers[i].pc.Returned? {
      SomeoneCanMove(s, i);
    } else {
      if key :| key in s.m {
        MapHasWorker(s, key);
      }
      if s.lock.Some? {
        LockHasWorker(s);
      }
    }
  }

  lemma LockHasWorker(s: State)
    requires Inv(s) && s.lock.Some?
    ensures exists i: nat :: i < |s.callers| && !s.callers[i].pc.Returned?
  {
    assert CallerOk(s, s.lock.value);
    assert !s.callers[s.lock.value].pc.Returned?;
  }

  lemma MapHasWorker(s: State, key: string)
    requires Inv(s) && key in s.m
    ensures exists i: nat :: i < |s.callers| && !s.callers[i].pc.Returned?
  {
    var c := s.m[key];
    assert CallOk(s, c);
    assert !s.callers[s.calls[c].creator].pc.Returned?;
  }

  lemma SomeoneCanMove(s: State, i: nat)
    requires Inv(s) && i < |s.callers| && !s.callers[i].pc.Returned?
    ensures CanStep(s)
  {
    if s.lock.Some? {
      assert CallerOk(s, s.lock.value);
      assert CanMove(s, s.lock.value);
    } else {
      assert CallerOk(s, i);
      if s.callers[i].pc.Waiting? {
        var c := s.callers[i].pc.c;
        assert CallOk(s, c);
        assert CallerOk(s, s.calls[c].creator);
        assert CanMove(s, i) || CanMove(s, s.calls[c].creator);
      } else {
        assert CanMove(s, i);
      }
    }
  }

  lemma {:induction false} RunSpendsWork(s: State, steps: seq<Step>)
    requires Inv(s) && Possible(s, steps)
    ensures |steps| + Work(After(s, steps).callers) <= Work(s.callers)
    decreases |steps|
  {
    if steps != [] {
      StepKeepsInv(s, steps[0]);
      StepReducesWork(s, steps[0]);
      RunSpendsWork(Apply(s, steps[0]), steps[1..]);
    }
  }

  lemma {:induction false} WorkOfNewCallers(callers: seq<Caller>)
    requires forall i: nat :: i < |callers| ==> callers[i].pc.Contending?
    ensures Work(callers) == 13 * |callers|
  {
    if callers != [] {
      WorkOfNewCallers(callers[..|callers| - 1]);
    }
  }

  /** However `n` callers are scheduled, they execute at most `13 * n` statements, and none of them is left behind. */
  lemma EveryScheduleEnds(keys: seq<string>, steps: seq<Step>)
    requires Possible(Init(keys), steps)
    ensures |steps| <= 13 * |keys|
    ensures var s := After(Init(keys), steps);
            !CanStep(s) ==>
              && s.m == map[] && s.lock.None? && |s.callers| == |keys|
              && forall i: nat :: i < |keys| ==> s.callers[i].pc.Returned?
  {
    RunKeepsContract(Init(keys), steps);
    RunSpendsWork(Init(keys), steps);
    WorkOfNewCallers(Init(keys).callers);
    StuckOnlyWhenAllReturned(After(Init(keys), steps));
  }
}
