/** The bounded retry loop (gateway/types/retry.go). */
module Retries {

  import opened Wrappers
  import opened Service

  /**
   What a retry loop comes to, by what the routine returned on each call: every call but the last
   failed, the last one succeeded or was the last there is, its outcome is returned, and each
   failure was followed by a pause.
   */
  predicate Retried(returned: seq<Option<Error>>, attempts: int, err: Option<Error>, sleeps: nat) {
    && |returned| <= (if attempts > 0 then attempts else 0)
    && (forall i :: 0 <= i < |returned| - 1 ==> returned[i].Some?)
    && err == (if returned == [] then None else returned[|returned| - 1])
    && (|returned| < attempts ==> returned != [] && err.None?)
    && sleeps == (if err.None? && returned != [] then |returned| - 1 else |returned|)
  }

  /** A first attempt that fails, with more to come, is followed by a pause and a loop with one attempt less. */
  lemma RetriedAgain(first: Option<Error>, rest: seq<Option<Error>>, attempts: int, err: Option<Error>, sleeps: nat)
    requires first.Some? && 1 < attempts && Retried(rest, attempts - 1, err, sleeps)
    ensures Retried([first] + rest, attempts, err, sleeps + 1)
  {
  }

  /** The only attempt made: it succeeds, or it is the last one. */
  lemma RetriedOnce(first: Option<Error>, attempts: int)
    requires 1 <= attempts && (first.Some? ==> attempts == 1)
    ensures Retried([first], attempts, first, if first.Some? then 1 else 0)
  {
  }

  /**
   `Retry`. What the routine returns on attempt `i` is `outcomes(i)`; `called` lists the attempts
   it was called with and `sleeps` counts the pauses. It is called on exactly `0..k`, where `k` is
   the first attempt that succeeds, or the last one; each failure is followed by a pause; the
   error of the last attempt is returned, and only when every attempt failed.
   */
  method Retry(outcomes: int -> Option<Error>, attempts: int)
    returns (err: Option<Error>, called: seq<int>, sleeps: nat)
    ensures |called| <= (if attempts > 0 then attempts else 0)
    ensures forall i :: 0 <= i < |called| ==> called[i] == i
    ensures forall i :: 0 <= i < |called| - 1 ==> outcomes(i).Some?
    ensures attempts > 0 ==> called != [] && err == outcomes(|called| - 1)
    ensures |called| < attempts ==> err.None?
    ensures attempts <= 0 ==> err.None?
    ensures err.Some? <==> attempts > 0 && forall i :: 0 <= i < attempts ==> outcomes(i).Some?
    ensures sleeps == (if err.None? && called != [] then |called| - 1 else |called|)
    ensures Retried(seq(|called|, i requires 0 <= i < |called| => outcomes(i)), attempts, err, sleeps)
  {
    err, called, sleeps := None, [], 0;
    var i := 0;
    while i < attempts
      invariant 0 <= i && (i <= attempts || i == 0)
      invariant called == seq(i, j requires 0 <= j < i => j)
      invariant forall j :: 0 <= j < i ==> outcomes(j).Some?
      invariant err == if i == 0 then None else outcomes(i - 1)
      invariant sleeps == i
    {
      var res := outcomes(i);
      called := called + [i];
      if res.Some? {
        err := res;
      } else {
        err := None;
        break;
      }
      sleeps := sleeps + 1;
      i := i + 1;
    }
  }
}
