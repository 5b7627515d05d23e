/** The retry loop of internal/scheduler/tasks.go and the backoff of internal/scheduler/scheduler.go. */
module Retries {
  import opened Outcomes
  import opened Durations

  const SHIFT_CAP: nat := 10

  datatype TaskFailure = TaskFailure(task: string, attempts: int)

  /** The outside world of one run: whether the i-th call succeeds (counting from 0), whether the context is
      cancelled during the i-th wait (counting from 1), and after how long, and whether the store can record. */
  datatype World = World(succeeds: nat -> bool, cancelled: nat -> Option<nat>, storeFails: bool)

  function AtLeastOne(n: int): nat {
    if n < 1 then 1 else n
  }

  /** Every call fails and nobody interrupts, until no retry is left. */
  ghost predicate Exhausts(w: World, maxRetries: int) {
    && (forall i: nat :: i < AtLeastOne(maxRetries) ==> !w.succeeds(i))
    && (forall i: nat :: 1 <= i < AtLeastOne(maxRetries) ==> w.cancelled(i).None?)
  }

  /** How long a timer for `d` runs: one that is not positive fires at once. */
  function Lasts(d: int): nat {
    if d > 0 then d else 0
  }

  /** The first n waits together. */
  function TotalWait(base: int, n: nat): nat {
    if n == 0 then 0 else TotalWait(base, n - 1) + Lasts(Delay(base, n, SHIFT_CAP))
  }

  class Scheduler {
    const maxRetries: int
    const baseBackoff: int
    var failures: seq<TaskFailure>

    constructor (maxRetries: int, baseBackoff: int)
      ensures this.maxRetries == maxRetries && this.baseBackoff == baseBackoff && failures == []
    {
      this.maxRetries, this.baseBackoff, failures := maxRetries, baseBackoff, [];
    }

    method CalculateBackoff(attempt: int) returns (wait: int)
      ensures wait == Delay(baseBackoff, AtLeastOne(attempt), SHIFT_CAP)
    {
      var a := attempt;
      if a <= 0 {
        a := 1;
      }
      var shift := a - 1;
      if shift > 10 {
        shift := 10;
      }
      wait := Wrap64(baseBackoff * Pow2(shift));
    }

    /** Calls the task at most maxRetries times (once, if that is no positive number). A failure is recorded
        exactly when all those calls fail and no wait is interrupted. It waits once between two calls, and a wait
        that is interrupted lasts until then. Without overflow, and that is any base of at most MaxInt64/1024, the
        waits before call k + 1 add up to base * sum(i = 1..k) of 2^min(i-1, 10). */
    method RunWithRetry(task: string, w: World) returns (calls: nat, waited: int)
      modifies this
      ensures 1 <= calls <= AtLeastOne(maxRetries)
      ensures forall i: nat :: i < calls - 1 ==> !w.succeeds(i)
      ensures forall i: nat :: 1 <= i < calls ==> w.cancelled(i).None?
      ensures calls < AtLeastOne(maxRetries) ==> w.succeeds(calls - 1) || w.cancelled(calls).Some?
      ensures failures == old(failures) + if Exhausts(w, maxRetries) && !w.storeFails
                                          then [TaskFailure(task, AtLeastOne(maxRetries))] else []
      ensures Exhausts(w, maxRetries) ==> calls == AtLeastOne(maxRetries)
      ensures w.succeeds(calls - 1) || calls == AtLeastOne(maxRetries) ==> waited == TotalWait(baseBackoff, calls - 1)
      ensures !w.succeeds(calls - 1) && calls < AtLeastOne(maxRetries) ==>
                waited == TotalWait(baseBackoff, calls - 1)
                          + Min(w.cancelled(calls).value, Lasts(Delay(baseBackoff, calls, SHIFT_CAP)))
      ensures 0 <= baseBackoff <= MAX_INT64 / 1024 ==>
                0 <= waited <= baseBackoff * Doublings(AtLeastOne(maxRetries) - 1, SHIFT_CAP)
                && (w.succeeds(calls - 1) || Exhausts(w, maxRetries) ==>
                    waited == baseBackoff * Doublings(calls - 1, SHIFT_CAP))
    {
      hide Doublings, Pow2, Delay;
      calls, waited := 0, 0;
      NoWaitYet(baseBackoff);
      var attempts := 0;
      while true
        invariant attempts == calls < AtLeastOne(maxRetries) && failures == old(failures)
        invariant forall i: nat :: i < calls ==> !w.succeeds(i)
        invariant forall i: nat :: 1 <= i <= calls ==> w.cancelled(i).None?
        invariant waited == TotalWait(baseBackoff, calls)
        invariant 0 <= baseBackoff <= MAX_INT64 / 1024 ==> waited == baseBackoff * Doublings(calls, SHIFT_CAP)
        decreases AtLeastOne(maxRetries) - calls
      {
        WaitsGrow(baseBackoff, calls, AtLeastOne(maxRetries) - 1);
        calls := calls + 1;
        if w.succeeds(calls - 1) {
          return;
        }
        attempts := attempts + 1;
        if attempts >= maxRetries {
          if !w.storeFails {
            failures := failures + [TaskFailure(task, attempts)];
          }
          return;
        }
        var backoff := CalculateBackoff(attempts);
        NextWait(baseBackoff, calls - 1);
        WaitsGrow(baseBackoff, calls, AtLeastOne(maxRetries) - 1);
        match w.cancelled(calls) {
          case Some(after) =>
            waited := waited + if after < backoff then after else if backoff > 0 then backoff else 0;
            return;
          case None =>
            waited := waited + if backoff > 0 then backoff else 0;
        }
      }
    }
  }

  lemma NoWaitYet(base: int)
    ensures base * Doublings(0, SHIFT_CAP) == 0
  {
  }

  lemma CapIs1024()
    ensures Pow2(SHIFT_CAP) == 1024
  {
    assert Pow2(1) == 2 && Pow2(2) == 4 && Pow2(3) == 8 && Pow2(4) == 16 && Pow2(5) == 32;
    assert Pow2(6) == 64 && Pow2(7) == 128 && Pow2(8) == 256 && Pow2(9) == 512;
  }

  lemma NextWait(base: int, n: nat)
    ensures 0 <= base <= MAX_INT64 / 1024 ==>
              Delay(base, n + 1, SHIFT_CAP) >= 0
              && base * Doublings(n + 1, SHIFT_CAP) == base * Doublings(n, SHIFT_CAP) + Delay(base, n + 1, SHIFT_CAP)
  {
    if 0 <= base <= MAX_INT64 / 1024 {
      CapIs1024();
      DelayExact(base, n + 1, SHIFT_CAP);
      DelayAdds(base, n, SHIFT_CAP);
    }
  }

  lemma {:induction false} WaitsGrow(base: int, m: nat, n: nat)
    requires m <= n
    ensures 0 <= base <= MAX_INT64 / 1024 ==> 0 <= base * Doublings(m, SHIFT_CAP) <= base * Doublings(n, SHIFT_CAP)
  {
    if m < n {
      WaitsGrow(base, m, n - 1);
      NextWait(base, n - 1);
    }
  }

  /** One nanosecond beyond the bound, the longest delay turns negative: the loop then does not wait at all. */
  lemma BoundIsTight()
    ensures Delay(MAX_INT64 / 1024, 11, SHIFT_CAP) >= 0
    ensures Delay(MAX_INT64 / 1024 + 1, 11, SHIFT_CAP) < 0
  {
    CapIs1024();
  }
}
