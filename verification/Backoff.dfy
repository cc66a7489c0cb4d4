/** The retry delay: a doubling loop on wrapping 64-bit integers, for every configured base and
    cap, against the documented envelope in unbounded arithmetic. */
module Backoff {
  import opened Basics

  const MAX_INT64: int := 0x7fff_ffff_ffff_ffff

  predicate IsInt64(n: int) {
    -MAX_INT64 - 1 <= n <= MAX_INT64
  }

  /** Two's-complement wrap-around of a 64-bit signed result. */
  function Wrap64(n: int): (w: int)
    ensures IsInt64(w)
    ensures IsInt64(n) ==> w == n
    ensures MAX_INT64 < n <= 2 * MAX_INT64 ==> w == n - 2 * MAX_INT64 - 2 < 0
  {
    (n + MAX_INT64 + 1) % (2 * MAX_INT64 + 2) - MAX_INT64 - 1
  }

  datatype Policy = Policy(maxRetries: int, maxTotal: int, baseBackoff: int, maxBackoff: int)

  function Pow2(n: nat): (p: nat)
    ensures p >= 1
  {
    if n == 0 then 1 else 2 * Pow2(n - 1)
  }

  /** base * 2^n, capped. */
  function Capped(base: int, cap: int, n: nat): int {
    Min(cap, base * Pow2(n))
  }

  /** The documented envelope. */
  function Documented(p: Policy, attempt: int): int
    requires attempt >= 1
  {
    Capped(p.baseBackoff, p.maxBackoff, attempt - 1)
  }

  /** The envelope the loop computes. A base that is not positive takes part in the first
      attempt only: its double is not positive either and sends the loop to the cap, or has
      wrapped to a positive number that is then doubled on. */
  function Envelope(p: Policy, attempt: int): int
    requires attempt >= 1
  {
    if p.baseBackoff > 0 || attempt == 1 then Documented(p, attempt)
    else
      var doubled := Wrap64(2 * p.baseBackoff);
      if doubled <= 0 then p.maxBackoff else Capped(doubled, p.maxBackoff, attempt - 2)
  }

  lemma {:induction false} Pow2Monotone(m: nat, n: nat)
    requires m <= n
    ensures Pow2(m) <= Pow2(n)
    decreases n - m
  {
    if m == n {
    } else {
      Pow2Monotone(m, n - 1);
    }
  }

  lemma FirstPower(base: int)
    ensures base * Pow2(0) == base
  {
  }

  lemma Doubled(base: int, n: nat)
    ensures base * Pow2(n + 1) == 2 * (base * Pow2(n))
  {
  }

  lemma ScaleMonotone(base: int, a: int, b: int)
    requires base >= 0 && a <= b
    ensures base * a <= base * b
  {
  }

  lemma CappedMonotone(base: int, cap: int, m: nat, n: nat)
    requires base >= 0 && m <= n
    ensures Capped(base, cap, m) <= Capped(base, cap, n)
  {
    Pow2Monotone(m, n);
    ScaleMonotone(base, Pow2(m), Pow2(n));
  }

  /** The loop of backoffDuration as it stands: n doublings that wrap and stop at the cap. */
  function Doubling(envelope: int, cap: int, n: nat): int
    decreases n
  {
    if n == 0 then Min(cap, envelope)
    else
      var next := Wrap64(envelope * 2);
      if next <= 0 || next >= cap then cap else Doubling(next, cap, n - 1)
  }

  /** From a positive value, wrapping does not show: the loop gives the capped exact power. */
  lemma {:induction false} DoublingExact(base: int, cap: int, n: nat)
    requires 0 < base <= MAX_INT64 && cap <= MAX_INT64
    ensures Doubling(base, cap, n) == Capped(base, cap, n)
    decreases n
  {
    hide Pow2, Wrap64;
    FirstPower(base);
    if n == 0 {
    } else {
      var next := Wrap64(base * 2);
      Doubled(base, 0);
      CappedMonotone(base, cap, 1, n);
      if next <= 0 || next >= cap {
      } else {
        DoublingExact(next, cap, n - 1);
        SamePower(base, n);
      }
    }
  }

  lemma {:induction false} SamePower(base: int, n: nat)
    requires n > 0
    ensures (base * 2) * Pow2(n - 1) == base * Pow2(n)
  {
  }

  method ComputeEnvelope(p: Policy, attempt: int) returns (envelope: int)
    requires attempt >= 1
    requires IsInt64(p.baseBackoff) && IsInt64(p.maxBackoff)
    ensures envelope == Envelope(p, attempt)
  {
    hide Wrap64, Envelope;
    LoopIsEnvelope(p, attempt);
    envelope := p.baseBackoff;
    var i := 1;
    while i < attempt
      invariant 1 <= i <= attempt
      invariant Doubling(envelope, p.maxBackoff, attempt - i) == Envelope(p, attempt)
    {
      envelope := Wrap64(envelope * 2);
      i := i + 1;
      if envelope <= 0 || envelope >= p.maxBackoff {
        envelope := p.maxBackoff;
        break;
      }
    }
    if envelope > p.maxBackoff {
      envelope := p.maxBackoff;
    }
  }

  lemma LoopIsEnvelope(p: Policy, attempt: int)
    requires attempt >= 1 && IsInt64(p.baseBackoff) && IsInt64(p.maxBackoff)
    ensures Doubling(p.baseBackoff, p.maxBackoff, attempt - 1) == Envelope(p, attempt)
  {
    hide Pow2, Wrap64;
    var doubled := Wrap64(2 * p.baseBackoff);
    FirstPower(p.baseBackoff);
    if p.baseBackoff > 0 {
      DoublingExact(p.baseBackoff, p.maxBackoff, attempt - 1);
    } else if attempt > 1 && doubled > 0 {
      CapReached(doubled, p.maxBackoff, attempt - 2);
      DoublingExact(doubled, p.maxBackoff, attempt - 2);
    }
  }

  lemma CapReached(base: int, cap: int, n: nat)
    ensures base >= cap && base > 0 ==> Capped(base, cap, n) == cap
  {
    if base > 0 {
      FirstPower(base);
      CappedMonotone(base, cap, 0, n);
    }
  }

  /** The loop gives the documented envelope exactly when the base is positive, or on the first
      attempt, or when the cap lies below even a base that doubles downwards. */
  lemma EnvelopeExact(p: Policy, attempt: int)
    requires attempt >= 1 && IsInt64(p.baseBackoff) && IsInt64(p.maxBackoff)
    ensures Envelope(p, attempt) == Documented(p, attempt) <==>
            p.baseBackoff > 0 || attempt == 1 || p.maxBackoff <= p.baseBackoff * Pow2(attempt - 1)
  {
    hide Pow2;
    if p.baseBackoff <= 0 && attempt > 1 {
      var b, doubled := p.baseBackoff, Wrap64(2 * p.baseBackoff);
      Doubled(b, attempt - 2);
      ScaleMonotone(-b, 1, Pow2(attempt - 2));
      if doubled > 0 {
        ScaleMonotone(doubled, 1, Pow2(attempt - 2));
      }
    }
  }

  /** For a base of zero the documented formula gives no wait at all; the loop waits up to the cap
      from the second retry on. */
  lemma ZeroBaseJumps(p: Policy, attempt: int)
    requires p.baseBackoff == 0 && p.maxBackoff > 0 && attempt >= 2
    ensures Documented(p, attempt) == 0 && Envelope(p, attempt) == p.maxBackoff
  {
  }

  /** The clamped random factor; the generator promises [0, 1). */
  function Jitter(r: real): real {
    if r < 0.0 then 0.0 else if r >= 1.0 then 0.999999 else r
  }

  /** Conversion of a float to an integer truncates toward zero. */
  function Trunc(x: real): int {
    if x >= 0.0 then x.Floor else -((-x).Floor)
  }

  /** The jittered part of an envelope. */
  function Share(r: real, envelope: int): int {
    Trunc(Times(Jitter(r), envelope))
  }

  function Times(f: real, n: int): real {
    f * n as real
  }

  /** backoffDuration as the router sees it. */
  function Delay(p: Policy, attempt: int, retryAfter: int, r: real): int {
    if retryAfter > 0 then retryAfter
    else if attempt < 1 then 0
    else Share(r, Envelope(p, attempt))
  }

  method BackoffDuration(p: Policy, attempt: int, retryAfter: int, r: real) returns (d: int)
    requires IsInt64(p.baseBackoff) && IsInt64(p.maxBackoff)
    ensures d == Delay(p, attempt, retryAfter, r)
  {
    if retryAfter > 0 {
      return retryAfter;
    }
    if attempt < 1 {
      return 0;
    }
    hide Share, Envelope;
    var envelope := ComputeEnvelope(p, attempt);
    return Share(r, envelope);
  }

  /** Later attempts never have a smaller envelope, whatever base and cap are. */
  lemma EnvelopeMonotone(p: Policy, a: int, b: int)
    requires 1 <= a <= b
    ensures Envelope(p, a) <= Envelope(p, b)
  {
    hide Pow2, Wrap64;
    var doubled := Wrap64(2 * p.baseBackoff);
    if p.baseBackoff > 0 {
      CappedMonotone(p.baseBackoff, p.maxBackoff, a - 1, b - 1);
    } else if a == 1 {
      FirstPower(p.baseBackoff);
      if b > 1 && doubled > 0 {
        ScaleMonotone(doubled, 0, Pow2(b - 2));
      }
    } else if doubled > 0 {
      CappedMonotone(doubled, p.maxBackoff, a - 2, b - 2);
    }
  }

  lemma TimesBounds(f: real, n: int)
    requires 0.0 <= f < 1.0
    ensures n >= 0 ==> 0.0 <= Times(f, n) <= n as real
    ensures n <= 0 ==> n as real <= Times(f, n) <= 0.0
  {
    var x := n as real;
    assert x - f * x == (1.0 - f) * x;
  }

  lemma TruncBounds(y: real, n: int)
    ensures 0.0 <= y <= n as real ==> 0 <= Trunc(y) <= n
    ensures n as real <= y <= 0.0 ==> n <= Trunc(y) <= 0
  {
  }

  lemma ShareBounds(r: real, n: int)
    ensures if n >= 0 then 0 <= Share(r, n) <= n else n <= Share(r, n) <= 0
  {
    hide Trunc, Times;
    TimesBounds(Jitter(r), n);
    TruncBounds(Times(Jitter(r), n), n);
  }

  /** The envelope is positive, or at least not negative, when base and cap are. */
  lemma EnvelopeSign(p: Policy, attempt: int)
    requires attempt >= 1 && p.baseBackoff >= 0 && p.maxBackoff >= 0
    ensures Envelope(p, attempt) >= 0
  {
    hide Pow2;
    ScaleMonotone(p.baseBackoff, 0, Pow2(attempt - 1));
  }

  /** Without a hint the delay lies between 0 and the envelope, whatever the generator returns;
      a hint is obeyed verbatim. With base and cap not negative, no delay is negative. */
  lemma DelayBounds(p: Policy, attempt: int, retryAfter: int, r: real)
    ensures retryAfter > 0 ==> Delay(p, attempt, retryAfter, r) == retryAfter
    ensures retryAfter <= 0 && attempt >= 1 ==>
              var d, e := Delay(p, attempt, retryAfter, r), Envelope(p, attempt);
              if e >= 0 then 0 <= d <= e else e <= d <= 0
    ensures p.baseBackoff >= 0 && p.maxBackoff >= 0 ==> 0 <= Delay(p, attempt, retryAfter, r)
  {
    hide Envelope, Share;
    if retryAfter <= 0 && attempt >= 1 {
      ShareBounds(r, Envelope(p, attempt));
      if p.baseBackoff >= 0 && p.maxBackoff >= 0 {
        EnvelopeSign(p, attempt);
      }
    }
  }

  /** The jittered delay is the drawn share of the envelope, cut to a whole nanosecond; draws
      outside [0, 1) count as the nearest one inside. */
  lemma ShareExact(r: real, envelope: int)
    requires envelope >= 0
    ensures 0.0 <= r < 1.0 ==> r * (envelope as real) - 1.0 < Share(r, envelope) as real <= r * (envelope as real)
    ensures r < 0.0 ==> Share(r, envelope) == 0
    ensures r >= 1.0 ==> Share(r, envelope) == Share(0.999999, envelope)
  {
    hide Times;
    TimesBounds(Jitter(r), envelope);
    if 0.0 <= r < 1.0 {
      TimesIs(r, envelope);
    } else if r < 0.0 {
      TimesIs(0.0, envelope);
    }
  }

  lemma TimesIs(f: real, n: int)
    ensures Times(f, n) == f * (n as real)
    ensures f == 0.0 ==> Times(f, n) == 0.0
  {
  }
}
