/** Identifiers, small datatypes and the retry delay shared by the whole model. */
module Core {

  datatype Option<+T> = None | Some(value: T)

  datatype Result<+R, +E> = Ok(value: R) | Err(error: E)

  type EmailId = nat
  type EntryId = nat
  type TaskId = nat
  type Key = nat
  type SenderName = string

  type Byte = b: int | 0 <= b < 256

  type Bytes = seq<Byte>

  /** Lease given to whoever claims a queue entry, in milliseconds. */
  const LEASE_MS: nat := 300_000

  const MAX_ATTEMPTS: nat := 3

  const U64_MAX: nat := 0xFFFF_FFFF_FFFF_FFFF

  function Min(a: int, b: int): int {
    if a <= b then a else b
  }

  function Pow2(n: nat): (p: nat)
    ensures p >= 1
  {
    if n == 0 then 1 else 2 * Pow2(n - 1)
  }

  /** The delay in seconds before the next attempt; None where `30 << (attempt - 1)` leaves u64. */
  function Backoff(attempt: nat): Option<nat> {
    var shift := if attempt == 0 then 0 else attempt - 1;
    if shift >= 64 || 30 * Pow2(shift) > U64_MAX then None
    else Some(Min(30 * Pow2(shift), 3600))
  }

  lemma {:induction false} Pow2Monotone(a: nat, b: nat)
    requires a <= b
    ensures Pow2(a) <= Pow2(b)
    decreases b
  {
    if a < b {
      Pow2Monotone(a, b - 1);
    }
  }

  lemma Pow2At59()
    ensures Pow2(59) == 0x800_0000_0000_0000
  {
    assert Pow2(10) == 1024;
    assert Pow2(20) == 0x10_0000 by { assert Pow2(15) == 0x8000; }
    assert Pow2(30) == 0x4000_0000 by { assert Pow2(25) == 0x200_0000; }
    assert Pow2(40) == 0x100_0000_0000 by { assert Pow2(35) == 0x8_0000_0000; }
    assert Pow2(50) == 0x4_0000_0000_0000 by { assert Pow2(45) == 0x2000_0000_0000; }
    assert Pow2(55) == 0x80_0000_0000_0000;
  }

  /** The u64 arithmetic is safe exactly for the first sixty attempts. */
  lemma BackoffDefined(attempt: nat)
    ensures Backoff(attempt).Some? <==> attempt <= 60
  {
    Pow2At59();
    var shift := if attempt == 0 then 0 else attempt - 1;
    if attempt <= 60 {
      Pow2Monotone(shift, 59);
    } else {
      assert Pow2(60) == 2 * Pow2(59);
      Pow2Monotone(60, shift);
    }
  }

  /** Delays never shrink from one attempt to a later one and never pass an hour. */
  lemma BackoffMonotone(a: nat, b: nat)
    requires a <= b <= 60
    ensures Backoff(a).Some? && Backoff(b).Some?
    ensures 30 <= Backoff(a).value <= Backoff(b).value <= 3600
  {
    BackoffDefined(a);
    BackoffDefined(b);
    Pow2Monotone(if a == 0 then 0 else a - 1, if b == 0 then 0 else b - 1);
  }

  /** Retry delay in milliseconds; the worker asks for it only below MAX_ATTEMPTS. */
  function RetryDelayMs(attempt: nat): (d: nat)
    requires attempt <= 60
    ensures 30_000 <= d <= 3_600_000
  {
    BackoffMonotone(attempt, attempt);
    1000 * Backoff(attempt).value
  }

  lemma RetryDelays()
    ensures RetryDelayMs(1) == 30_000 && RetryDelayMs(2) == 60_000
  {
  }
}
