/**
 `Scale` against a provider that keeps its promises: queries succeed, and an update takes effect
 exactly when it succeeds. Which updates fail, and when replicas become available, whether or not
 any are desired, is left to the environment.
 */
module ScaleWorlds {

  import opened Wrappers
  import opened Service
  import opened ScaleRuns

  /**
   `available(n)`: the replicas that the n-th query finds ready;
   `replies(i)`: how the update of the i-th attempt goes.
   */
  datatype World = World(minReplicas: uint64, available: nat -> uint64, replies: nat -> Option<Error>)

  function AnswerOf(w: World, desired: uint64, n: nat): FlightResult {
    FlightResult(Some(ServiceQueryResponse(desired, 0, w.minReplicas, 0, w.available(n), None)), None)
  }

  /** A run to its end, from the n-th query on. */
  function Settle(cfg: Config, w: World, r: Run, desired: uint64, n: nat): Run
    decreases Rank(cfg, r)
  {
    if Over(r) then r
    else if r.phase.Setting? then
      var err := w.replies(r.phase.i);
      InputReducesRank(cfg, r, Reply(err));
      Settle(cfg, w, OnReply(cfg, r, err), if err.None? then r.minReplicas else desired, n)
    else
      InputReducesRank(cfg, r, Answer(AnswerOf(w, desired, n)));
      Settle(cfg, w, OnAnswer(cfg, r, AnswerOf(w, desired, n)), desired, n + 1)
  }

  /** The run ended because an available replica was seen, and not because the polls ran out. */
  predicate Genuine(r: Run) {
    r.phase == Finished(READY) && CauseOf(r.log) in {LivePositive, PollPositive}
  }

  /** One of the polls from the k-th on finds a replica, when the k-th poll is the n-th query. */
  ghost predicate ReadyInTime(cfg: Config, w: World, k: nat, n: nat) {
    exists m: nat :: n <= m < n + Polls(cfg) - k && w.available(m) > 0
  }

  predicate PastLive(r: Run) {
    && 2 <= |r.log|
    && (r.phase == Finished(READY) ==> CauseOf(r.log) == PollsExhausted)
  }

  lemma {:induction false} PollsSettle(cfg: Config, w: World, r: Run, desired: uint64, k: nat, n: nat)
    requires r.phase == EnterPoll(cfg, k) && PastLive(r)
    ensures var end := Settle(cfg, w, r, desired, n);
            && end.phase == Finished(READY)
            && (Genuine(end) <==> ReadyInTime(cfg, w, k, n))
    decreases Polls(cfg) - k
  {
    if k < Polls(cfg) {
      var a := AnswerOf(w, desired, n);
      InputReducesRank(cfg, r, Answer(a));
      var r' := OnPoll(cfg, r, k, a);
      if a.res.value.availableReplicas > 0 {
        assert w.available(n) > 0;
      } else {
        PollsSettle(cfg, w, r', desired, k + 1, n + 1);
      }
    }
  }

  /** The first attempt from the i-th on, before the a-th, whose update succeeds. */
  function FirstSuccess(w: World, i: nat, a: nat): (k: Option<nat>)
    ensures k.Some? ==> i <= k.value < a && w.replies(k.value).None?
    ensures forall j: nat :: i <= j < (if k.Some? then k.value else a) ==> w.replies(j).Some?
    decreases a - i
  {
    if i >= a then None
    else if w.replies(i).None? then Some(i)
    else FirstSuccess(w, i + 1, a)
  }

  /** What comes of the attempts: an error when none succeeds, and otherwise what the polls find. */
  ghost predicate AttemptsEnd(cfg: Config, w: World, end: Run, i: nat, n: nat)
    requires 0 < Attempts(cfg)
  {
    match FirstSuccess(w, i, Attempts(cfg))
    case Some(k) =>
      && end.phase == Finished(READY)
      && k >= i && (Genuine(end) <==> ReadyInTime(cfg, w, 0, n + (k - i) + 1))
    case None => end.phase == Finished(ScaleResult(false, w.replies(Attempts(cfg) - 1), true))
  }

  lemma {:induction false} AttemptsSettle(cfg: Config, w: World, r: Run, i: nat, n: nat)
    requires r.phase == Attempting(i) && i < Attempts(cfg) && 2 <= |r.log| && 0 < r.minReplicas
    ensures AttemptsEnd(cfg, w, Settle(cfg, w, r, 0, n), i, n)
    decreases Attempts(cfg) - i
  {
    var a, err := AnswerOf(w, 0, n), w.replies(i);
    var r1 := OnAttempt(cfg, r, i, a);
    var r2 := OnReply(cfg, r1, err);
    var desired := if err.None? then r1.minReplicas else 0;
    OneAttempt(cfg, w, r, i, n);
    if err.None? {
      PollsSettle(cfg, w, r2, desired, 0, n + 1);
    } else if i + 1 < Attempts(cfg) {
      AttemptsSettle(cfg, w, r2, i + 1, n + 1);
    }
  }

  lemma OneAttempt(cfg: Config, w: World, r: Run, i: nat, n: nat)
    requires r.phase == Attempting(i)
    ensures var r1 := OnAttempt(cfg, r, i, AnswerOf(w, 0, n));
            && r1.phase == Setting(i)
            && Settle(cfg, w, r, 0, n) ==
               Settle(cfg, w, OnReply(cfg, r1, w.replies(i)), if w.replies(i).None? then r.minReplicas else 0, n + 1)
  {
    var a := AnswerOf(w, 0, n);
    InputReducesRank(cfg, r, Answer(a));
    var r1 := OnAttempt(cfg, r, i, a);
    InputReducesRank(cfg, r1, Reply(w.replies(i)));
    assert Settle(cfg, w, r, 0, n) == Settle(cfg, w, r1, 0, n + 1);
  }

  /**
   Against such a provider `Scale` reports an error exactly when the first query sees no replica,
   replicas have to be requested and all of the `SetScaleRetries` updates fail, and that is the
   last one's. Otherwise it reports the function available, and it does so on a genuine
   observation exactly when the first query sees a replica, or one of the `MaxPollCount` polls does:
   those after the first query when nothing is requested, and those after the first update that
   succeeds otherwise. If not, it takes the exhaustion exit.
   */
  lemma GenuineExactlyWhenReadyInTime(cfg: Config, w: World, desired: uint64)
    ensures var end := Settle(cfg, w, Start(EMPTY_RESPONSE, false), desired, 0);
            var success := FirstSuccess(w, 0, Attempts(cfg));
            && (w.available(0) == 0 && desired == 0 && 0 < Attempts(cfg) && success.None? ==>
                  end.phase == Finished(ScaleResult(false, w.replies(Attempts(cfg) - 1), true)))
            && (end.phase == Finished(READY) <==> w.available(0) > 0 || desired > 0 || Attempts(cfg) == 0 || success.Some?)
            && (Genuine(end) <==>
                  || w.available(0) > 0
                  || ((desired > 0 || Attempts(cfg) == 0) && ReadyInTime(cfg, w, 0, 1))
                  || (desired == 0 && success.Some? && ReadyInTime(cfg, w, 0, success.value + 2)))
  {
    var r := Start(EMPTY_RESPONSE, false);
    var a := AnswerOf(w, desired, 0);
    InputReducesRank(cfg, r, Answer(a));
    var r1 := OnLive(cfg, r, a);
    assert Settle(cfg, w, r, desired, 0) == Settle(cfg, w, r1, desired, 1);
    if a.res.value.availableReplicas == 0 {
      if desired == 0 && 0 < Attempts(cfg) {
        AttemptsSettle(cfg, w, r1, 0, 1);
      } else {
        PollsSettle(cfg, w, r1, desired, 0, 1);
      }
    }
  }
}
