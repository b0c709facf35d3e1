/** The enforcement clock: when a healthy VM is due for its next scheduled run. Times and
    durations are whole nanoseconds; Go's Duration is a signed 64-bit integer, so the sum that
    can leave that range is wrapped explicitly and the subtraction of two times saturates. */
module Enforcement {
  import opened Text

  const MAX: int := 0x7FFF_FFFF_FFFF_FFFF
  const MIN: int := -0x8000_0000_0000_0000

  function Wrap(x: int): (r: int)
    ensures MIN <= r <= MAX
    ensures MIN <= x <= MAX ==> r == x
  {
    (x + 0x8000_0000_0000_0000) % 0x1_0000_0000_0000_0000 - 0x8000_0000_0000_0000
  }

  function Since(now: int, last: int): int {
    if now - last > MAX then MAX else if now - last < MIN then MIN else now - last
  }

  /** A per-VM delay: the digest of the UID reduced to a tenth of the interval. */
  function Jitter(seed: nat, uid: string, interval: int): (j: int)
    requires interval > 0
    ensures j == 0 || 0 <= j < interval / 10
  {
    var spread := interval / 10;
    if spread <= 0 || uid == "" then 0 else seed % spread
  }

  lemma {:induction false} Apart(a: nat, b: nat, d: nat)
    requires a < b
    ensures b * d >= a * d + d
  {
    assert (b - 1) * d + d == b * d;
    if a < b - 1 { Apart(a, b - 1, d); }
  }

  lemma ModuloOfSum(n: nat, d: nat, r: nat)
    requires r < d
    ensures (n * d + r) % d == r
  {
    var q := (n * d + r) / d;
    var rem := (n * d + r) % d;
    assert q * d + rem == n * d + r;
    if q < n { Apart(q, n, d); } else if q > n { Apart(n, q, d); }
  }

  /** The delays use the whole tenth of the interval evenly: digests that differ by a multiple of it
      share a delay, and every delay below it is the digest of that value. */
  lemma JitterSpreads(delay: nat, n: nat, uid: string, interval: int)
    requires interval > 0 && delay < interval / 10
    ensures Jitter(n * (interval / 10) + delay, uid, interval) == if uid == "" then 0 else delay
  {
    ModuloOfSum(n, interval / 10, delay);
  }

  datatype Verdict = Verdict(due: bool, wait: int)

  function EnforcementDue(interval: Option<int>, seed: nat, uid: string, last: Option<int>, now: int): Verdict {
    if interval.None? || interval.value <= 0 || last.None? then Verdict(false, 0)
    else
      var elapsed := Since(now, last.value);
      var effective := Wrap(interval.value + Jitter(seed, uid, interval.value));
      if elapsed >= effective then Verdict(true, 0) else Verdict(false, Wrap(effective - elapsed))
  }

  predicate Fits(seed: nat, uid: string, interval: int)
    requires interval > 0
  {
    interval + Jitter(seed, uid, interval) <= MAX
  }

  /** A VM that is not due gets a positive wait, and is due at exactly the instants from the end
      of that wait on. */
  lemma WaitIsExact(interval: int, seed: nat, uid: string, last: int, now: int, later: int)
    requires 0 < interval <= MAX && Fits(seed, uid, interval)
    requires last <= now <= later
    ensures var v := EnforcementDue(Some(interval), seed, uid, Some(last), now);
            && v.due == (now - last >= interval + Jitter(seed, uid, interval))
            && (!v.due ==> v.wait > 0)
            && (!v.due ==> (EnforcementDue(Some(interval), seed, uid, Some(last), later).due
                            <==> later >= now + v.wait))
  {
  }

  /** The wait ends when interval and jitter have passed since the last completion. */
  lemma WaitEnds(interval: int, seed: nat, uid: string, last: int, now: int)
    requires 0 < interval <= MAX && Fits(seed, uid, interval) && last <= now
    ensures var v := EnforcementDue(Some(interval), seed, uid, Some(last), now);
            !v.due ==> now + v.wait == last + interval + Jitter(seed, uid, interval)
  {
  }

  /** No run is due before the interval has passed, exactly when interval plus jitter fits in 64
      bits. Otherwise the sum wraps to a negative duration and every VM is always due. */
  lemma NeverEarlyIffFits(interval: int, seed: nat, uid: string, last: int)
    requires 0 < interval <= MAX
    ensures (forall now :: now >= last && EnforcementDue(Some(interval), seed, uid, Some(last), now).due
               ==> now - last >= interval)
            <==> Fits(seed, uid, interval)
  {
    if !Fits(seed, uid, interval) {
      var j := Jitter(seed, uid, interval);
      assert Wrap(interval + j) == interval + j - 0x1_0000_0000_0000_0000 < 0;
      assert EnforcementDue(Some(interval), seed, uid, Some(last), last).due;
    }
  }

  /** An interval below ten elevenths of the range always fits, whatever the UID. */
  lemma OrdinaryIntervalsFit(interval: int, seed: nat, uid: string)
    requires 0 < interval && interval + interval / 10 <= MAX
    ensures Fits(seed, uid, interval)
  {
  }
}
