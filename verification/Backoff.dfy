/**
  The capped exponential delay of the consumer loops, computed the way Go computes
  it: a left shift of a signed 64-bit integer that wraps around silently.
 */
module Backoff {

  const BASE: nat := 250_000_000           // 250ms in nanoseconds
  const MAX: nat := 30_000_000_000         // 30s
  const WORD: int := 0x1_0000_0000_0000_0000

  function Pow2(n: nat): (p: nat)
    ensures p > 0
  {
    if n == 0 then 1 else 2 * Pow2(n - 1)
  }

  /** What the delay should be: BASE doubled once per earlier attempt, at most MAX. */
  function Delay(attempt: int): nat {
    var n := if attempt < 1 then 1 else attempt;
    var d := BASE * Pow2(n - 1);
    if d > MAX then MAX else d
  }

  /** The signed value of the low 64 bits. */
  function Wrap(x: int): int {
    var w := x % WORD;
    if w >= WORD / 2 then w - WORD else w
  }

  /** Go's d << k on an int64: bits shifted out are lost, counts of 64 and more give zero. */
  function ShiftLeft(d: int, k: nat): int {
    if k >= 64 then 0 else Wrap(d * Pow2(k))
  }

  lemma {:induction false} Pow2Adds(m: nat, n: nat)
    ensures Pow2(m + n) == Pow2(m) * Pow2(n)
  {
    if m > 0 {
      Pow2Adds(m - 1, n);
      assert Pow2(m + n) == 2 * (Pow2(m - 1) * Pow2(n));
    }
  }

  lemma {:induction false} Pow2Grows(m: nat, n: nat)
    requires m <= n
    ensures Pow2(m) <= Pow2(n)
  {
    if m < n {
      Pow2Grows(m, n - 1);
    }
  }

  lemma Powers()
    ensures Pow2(6) == 64 && Pow2(7) == 128 && Pow2(28) == 0x1000_0000 && Pow2(35) == 0x8_0000_0000
    ensures Pow2(36) == 0x10_0000_0000 && Pow2(64) == WORD
  {
    assert Pow2(6) == 64;
    assert Pow2(7) == 128;
    Pow2Adds(7, 7);
    Pow2Adds(14, 14);
    assert Pow2(28) == 0x1000_0000;
    Pow2Adds(28, 7);
    assert Pow2(36) == 2 * Pow2(35);
    Pow2Adds(36, 28);
  }

  const CHUNK: int := 0x800_0000_0000      // 2^43, more than MAX

  lemma WrapKeepsMultiples(m: int)
    ensures exists q :: Wrap(CHUNK * m) == CHUNK * q
  {
    var w := (CHUNK * m) % WORD;
    var k := (CHUNK * m) / WORD;
    assert CHUNK * m == WORD * k + w;
    assert w == CHUNK * (m - 0x20_0000 * k);
    assert w - WORD == CHUNK * (m - 0x20_0000 * k - 0x20_0000);
  }

  /** An overflowing shift is a multiple of 2^43, so no positive wrapped value is below the cap. */
  lemma OverflowIsFar(k: nat)
    requires 36 <= k < 64
    ensures ShiftLeft(BASE, k) <= 0 || ShiftLeft(BASE, k) > MAX
  {
    Powers();
    Pow2Adds(36, k - 36);
    var m := 1_953_125 * Pow2(k - 36);
    assert BASE * Pow2(k) == CHUNK * m;
    WrapKeepsMultiples(m);
  }

  lemma ShiftIsExact(k: nat)
    requires k < 36
    ensures ShiftLeft(BASE, k) == BASE * Pow2(k)
  {
    Powers();
    Pow2Grows(k, 35);
  }

  /** backoff, on every attempt number: the wrapped shift never shows. */
  method Backoff(attempt: int) returns (d: nat)
    ensures d == Delay(attempt)
  {
    var n := if attempt < 1 then 1 else attempt;
    var shifted := ShiftLeft(BASE, n - 1);
    if n - 1 < 36 {
      ShiftIsExact(n - 1);
    } else {
      LongWaitsAreCapped(n - 1);
    }
    if shifted > MAX || shifted <= 0 {
      return MAX;
    }
    return shifted;
  }

  lemma LongWaitsAreCapped(k: nat)
    requires k >= 36
    ensures ShiftLeft(BASE, k) <= 0 || ShiftLeft(BASE, k) > MAX
    ensures BASE * Pow2(k) > MAX
  {
    Powers();
    Pow2Grows(36, k);
    if k < 64 {
      OverflowIsFar(k);
    }
  }

  /** The first wait is 250 ms, each later one twice the one before up to 30 s, and so later
      attempts never wait less. */
  lemma DelaysAreMonotone(m: int, n: int)
    requires m <= n
    ensures m <= 1 ==> Delay(m) == 250_000_000
    ensures m >= 1 ==> Delay(m + 1) == if 2 * Delay(m) <= 30_000_000_000 then 2 * Delay(m) else 30_000_000_000
    ensures 250_000_000 <= Delay(m) <= Delay(n) <= 30_000_000_000
  {
    var a, b := if m < 1 then 1 else m, if n < 1 then 1 else n;
    Pow2Grows(a - 1, b - 1);
    Pow2Grows(0, a - 1);
  }
}
