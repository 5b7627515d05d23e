/** time.Duration arithmetic: signed 64-bit, wrapping, and the capped doubling both retry loops share. */
module Durations {

  const NANOS_PER_DAY: int := 86_400_000_000_000

  /** The calendar day of an instant, in UTC. */
  function DayOf(t: int): int {
    t / NANOS_PER_DAY
  }

  const MAX_INT64: int := 0x7fff_ffff_ffff_ffff
  const TWO_64: int := 0x1_0000_0000_0000_0000

  function Wrap64(x: int): (r: int)
    ensures -MAX_INT64 - 1 <= r <= MAX_INT64
    ensures -MAX_INT64 - 1 <= x <= MAX_INT64 ==> r == x
  {
    (x + MAX_INT64 + 1) % TWO_64 - MAX_INT64 - 1
  }

  function Pow2(n: nat): (p: int)
    ensures p >= 1
  {
    if n == 0 then 1 else 2 * Pow2(n - 1)
  }

  function Min(a: int, b: int): int {
    if a < b then a else b
  }

  /** `base * time.Duration(1<<min(attempt-1, cap))` for an attempt counted from one. */
  function Delay(base: int, attempt: int, cap: nat): int
    requires attempt >= 1
  {
    Wrap64(base * Pow2(Min(attempt - 1, cap)))
  }

  /** The sum of 2^min(i-1, cap) for i from 1 to n: total waiting in units of the base delay. */
  function Doublings(n: nat, cap: nat): (s: int)
    ensures s >= n
  {
    if n == 0 then 0 else Doublings(n - 1, cap) + Pow2(Min(n - 1, cap))
  }

  lemma {:induction false} Pow2Monotone(m: nat, n: nat)
    requires m <= n
    ensures Pow2(m) <= Pow2(n)
  {
    if m < n {
      Pow2Monotone(m, n - 1);
    }
  }

  /** With base at most MaxInt64 / 2^cap no delay ever wraps. */
  lemma DelayExact(base: int, attempt: int, cap: nat)
    requires attempt >= 1
    requires 0 <= base && base * Pow2(cap) <= MAX_INT64
    ensures Delay(base, attempt, cap) == base * Pow2(Min(attempt - 1, cap))
    ensures 0 <= Delay(base, attempt, cap) <= base * Pow2(cap)
  {
    var p := Pow2(Min(attempt - 1, cap));
    Pow2Monotone(Min(attempt - 1, cap), cap);
    assert 0 <= base * p <= base * Pow2(cap) by {
      assert base * (Pow2(cap) - p) >= 0;
    }
  }

  /** Closed form of the waiting time: doubling up to the cap, then linear. */
  lemma {:induction false} DoublingsClosedForm(n: nat, cap: nat)
    ensures n <= cap + 1 ==> Doublings(n, cap) == Pow2(n) - 1
    ensures n > cap + 1 ==> Doublings(n, cap) == Pow2(cap + 1) - 1 + Pow2(cap) * (n - cap - 1)
  {
    if n > 0 {
      DoublingsClosedForm(n - 1, cap);
      if n > cap + 1 {
        assert Pow2(cap) * (n - cap - 1) == Pow2(cap) * (n - 1 - cap - 1) + Pow2(cap);
      }
    }
  }

  /** One more failed attempt adds exactly its delay to the total. */
  lemma DelayAdds(base: int, n: nat, cap: nat)
    requires 0 <= base && base * Pow2(cap) <= MAX_INT64
    ensures base * Doublings(n + 1, cap) == base * Doublings(n, cap) + Delay(base, n + 1, cap)
  {
    DelayExact(base, n + 1, cap);
    Distribute(base, Doublings(n, cap), Pow2(Min(n, cap)));
  }

  lemma Distribute(x: int, y: int, z: int)
    ensures x * (y + z) == x * y + x * z
  {
  }
}
