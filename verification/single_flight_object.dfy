/**
 `SingleFlight` as the object it is (gateway/scaling/single.go): a map of calls whose wait-group and
 result are updated in place. Its locked sections are methods; each of them does to the object
 what the steps of the transition system do in a row, with nobody else able to hold the lock.
 */
module SingleFlightObject {

  import opened Wrappers
  import opened Service
  import M = SingleFlight

  class Call {
    var wg: nat
    var res: Option<FlightResult>

    constructor ()
      ensures wg == 0 && res == None
    {
      wg, res := 0, None;
    }
  }

  class SingleFlight {
    var calls: map<string, Call>

    /** All call objects that were ever in the map, by number. */
    ghost var objs: seq<Call>

    constructor ()
      ensures calls == map[] && objs == []
    {
      calls, objs := map[], [];
    }

    /** The heap holds this map, and these wait-groups and results. */
    ghost predicate Holds(numbers: map<string, nat>, values: seq<M.Call>)
      reads this, objs
    {
      && |objs| == |values|
      && (forall c, d :: 0 <= c < d < |objs| ==> objs[c] != objs[d])
      && calls.Keys == numbers.Keys
      && (forall key :: key in calls ==> numbers[key] < |objs| && calls[key] == objs[numbers[key]])
      && (forall c :: 0 <= c < |objs| ==> objs[c].wg == values[c].wg && objs[c].res == values[c].res)
    }

    /** Heap and transition system agree on the map and on every wait-group and result. */
    ghost predicate Represents(s: M.State)
      reads this, objs
    {
      Holds(s.calls, s.objs)
    }

    /** Lines 32-51: the caller joins the call in flight for its key, or registers one and owns it. */
    method Enter(key: string, ghost s: M.State, ghost i: nat)
      returns (call: Call, owner: bool, ghost s': M.State, ghost c: nat)
      requires Represents(s) && M.Inv(s) && M.Enabled(s, M.Acquire(i)) && s.callers[i].key == key
      modifies this
      ensures owner <==> key !in old(calls)
      ensures M.Possible(s, EnterSteps(i, owner)) && s' == M.After(s, EnterSteps(i, owner))
      ensures Represents(s') && s'.lock.None?
      ensures c < |objs| && call == objs[c] && key in calls && calls[key] == call
      ensures i < |s'.callers| && s'.callers[i].pc == if owner then M.Unlocked(c) else M.Waiting(c)
    {
      if key in calls {
        JoinSection(s, i);
        return calls[key], false, M.After(s, EnterSteps(i, false)), s.calls[key];
      }
      OwnSection(s, i);
      owner, s', c := true, M.After(s, EnterSteps(i, true)), |s.objs|;
      call := Register(key, s.calls, s.objs, M.Call(key, i, 1, None, M.Unborn, 0));
    }

    /** Lines 41-49: a new call with one pending signal, under its key. */
    method Register(key: string, ghost numbers: map<string, nat>, ghost values: seq<M.Call>, ghost value: M.Call)
      returns (call: Call)
      requires Holds(numbers, values) && value.wg == 1 && value.res == None
      modifies this
      ensures Holds(numbers[key := |values|], values + [value])
      ensures fresh(call) && call.wg == 1 && call.res == None
      ensures calls == old(calls)[key := call] && objs == old(objs) + [call]
    {
      call := new Call();
      calls := calls[key := call];
      call.wg := call.wg + 1;
      objs := objs + [call];
    }

    /** Lines 57-67: the executor publishes the outcome, wakes the waiters and forgets the key. */
    method Complete(key: string, call: Call, out: FlightResult, ghost s: M.State, ghost c: nat)
      returns (ghost s': M.State)
      requires Represents(s) && M.Inv(s) && M.Enabled(s, M.AcquireExec(c))
      requires s.objs[c].key == key && s.objs[c].exec == M.Ran(out) && call == objs[c]
      modifies this, call
      ensures key !in calls && call.wg == 0 && call.res == Some(out) && objs == old(objs)
      ensures M.Possible(s, CompleteSteps(c)) && s' == M.After(s, CompleteSteps(c))
      ensures Represents(s')
    {
      assert M.CallOk(s, c);
      CompleteSection(s, c, out);
      s' := M.After(s, CompleteSteps(c));
      call.res := Some(out);
      call.wg := call.wg - 1;
      calls := calls - {key};
    }

    /** Lines 38 and 72, once `Wait` has let the caller through: the result is there. */
    method Read(call: Call, ghost s: M.State, ghost i: nat) returns (out: FlightResult)
      requires Represents(s) && M.Inv(s)
      requires i < |s.callers| && s.callers[i].pc.Reading? && s.callers[i].pc.c < |objs|
      requires call == objs[s.callers[i].pc.c]
      ensures M.Enabled(s, M.Return(i))
      ensures M.Apply(s, M.Return(i)).callers[i].pc == M.Returned(s.callers[i].pc.c, out)
    {
      assert M.CallerOk(s, i);
      assert M.CallOk(s, s.callers[i].pc.c);
      out := call.res.value;
    }
  }

  function EnterSteps(i: nat, owner: bool): seq<M.Step> {
    if owner then [M.Acquire(i)] + ([M.Miss(i)] + ([M.Add(i)] + [M.UnlockOwner(i)]))
    else [M.Acquire(i)] + ([M.Hit(i)] + [M.UnlockJoin(i)])
  }

  function CompleteSteps(c: nat): seq<M.Step> {
    [M.AcquireExec(c)] + ([M.Publish(c)] + ForgetSteps(c))
  }

  function ForgetSteps(c: nat): seq<M.Step> {
    [M.Done(c)] + ([M.Delete(c)] + [M.UnlockExec(c)])
  }

  lemma OneStep(s: M.State, step: M.Step, rest: seq<M.Step>)
    requires M.Enabled(s, step) && M.Possible(M.Apply(s, step), rest)
    ensures M.Possible(s, [step] + rest)
    ensures M.After(s, [step] + rest) == M.After(M.Apply(s, step), rest)
  {
    assert ([step] + rest)[1..] == rest;
  }

  /** What joining does: the caller waits, and nothing else has changed when the lock is free again. */
  lemma JoinSection(s: M.State, i: nat)
    requires M.Enabled(s, M.Acquire(i)) && s.callers[i].key in s.calls
    ensures M.Possible(s, EnterSteps(i, false))
    ensures var s' := M.After(s, EnterSteps(i, false));
            && s'.lock.None? && s'.calls == s.calls && s'.objs == s.objs && |s'.callers| == |s.callers|
            && s'.callers[i].pc == M.Waiting(s.calls[s.callers[i].key])
  {
    var s1 := M.Apply(s, M.Acquire(i));
    var s2 := M.Apply(s1, M.Hit(i));
    OneStep(s2, M.UnlockJoin(i), []);
    assert [M.UnlockJoin(i)] + [] == [M.UnlockJoin(i)];
    OneStep(s1, M.Hit(i), [M.UnlockJoin(i)]);
    OneStep(s, M.Acquire(i), [M.Hit(i)] + [M.UnlockJoin(i)]);
  }

  /** What a miss does: a new call with one pending signal is in the map. */
  lemma OwnSection(s: M.State, i: nat)
    requires M.Enabled(s, M.Acquire(i)) && s.callers[i].key !in s.calls
    ensures M.Possible(s, EnterSteps(i, true))
    ensures var s' := M.After(s, EnterSteps(i, true));
            var key := s.callers[i].key;
            && s'.lock.None? && s'.calls == s.calls[key := |s.objs|] && |s'.callers| == |s.callers|
            && s'.objs == s.objs + [M.Call(key, i, 1, None, M.Unborn, 0)]
            && s'.callers[i].pc == M.Unlocked(|s.objs|)
  {
    var s1 := M.Apply(s, M.Acquire(i));
    var s2 := M.Apply(s1, M.Miss(i));
    var s3 := M.Apply(s2, M.Add(i));
    OneStep(s3, M.UnlockOwner(i), []);
    assert [M.UnlockOwner(i)] + [] == [M.UnlockOwner(i)];
    OneStep(s2, M.Add(i), [M.UnlockOwner(i)]);
    OneStep(s1, M.Miss(i), [M.Add(i)] + [M.UnlockOwner(i)]);
    OneStep(s, M.Acquire(i), [M.Miss(i)] + ([M.Add(i)] + [M.UnlockOwner(i)]));
  }

  lemma ForgetSection(s: M.State, c: nat, out: FlightResult)
    requires c < |s.objs| && s.objs[c].exec == M.Published(out) && s.objs[c].wg == 1
    ensures M.Possible(s, ForgetSteps(c))
    ensures var s' := M.After(s, ForgetSteps(c));
            && s'.lock.None? && s'.calls == s.calls - {s.objs[c].key}
            && s'.objs == s.objs[c := s.objs[c].(wg := 0, exec := M.Finished(out))]
  {
    var s1 := M.Apply(s, M.Done(c));
    var s2 := M.Apply(s1, M.Delete(c));
    OneStep(s2, M.UnlockExec(c), []);
    assert [M.UnlockExec(c)] + [] == [M.UnlockExec(c)];
    OneStep(s1, M.Delete(c), [M.UnlockExec(c)]);
    OneStep(s, M.Done(c), [M.Delete(c)] + [M.UnlockExec(c)]);
  }

  /** What completing does: the result is published, the signal given, and the key is gone. */
  lemma CompleteSection(s: M.State, c: nat, out: FlightResult)
    requires M.Enabled(s, M.AcquireExec(c)) && s.objs[c].exec == M.Ran(out) && s.objs[c].wg == 1
    ensures M.Possible(s, CompleteSteps(c))
    ensures var s' := M.After(s, CompleteSteps(c));
            && s'.lock.None? && s'.calls == s.calls - {s.objs[c].key}
            && s'.objs == s.objs[c := s.objs[c].(wg := 0, res := Some(out), exec := M.Finished(out),
                                                 publishedAt := s.clock + 1)]
  {
    var s1 := M.Apply(s, M.AcquireExec(c));
    var s2 := M.Apply(s1, M.Publish(c));
    var call := s.objs[c].(res := Some(out), exec := M.Published(out), publishedAt := s.clock + 1);
    assert s2.objs == s.objs[c := call];
    ForgetSection(s2, c, out);
    assert M.After(s2, ForgetSteps(c)).objs == s.objs[c := call.(wg := 0, exec := M.Finished(out))];
    OneStep(s1, M.Publish(c), ForgetSteps(c));
    OneStep(s, M.AcquireExec(c), [M.Publish(c)] + ForgetSteps(c));
  }
}
