/**
  The settings that shape delivery (app/config.py), and the arithmetic behind
  the two windows the worker relies on: how long an in-flight claim lives and
  how long an entry must sit pending before another worker may adopt it.
  Floats are modelled as reals.
 */
module Config {

  datatype Settings = Settings(
    verifyTokenPlaceholder: bool,
    appSecretPlaceholder: bool,
    requireSignature: bool,
    maxRetries: int,
    backoffBase: real,
    backoffMaxSeconds: real,
    downstreamTimeoutSeconds: real,
    claimMinIdleMs: int,
    deliveredTtlSeconds: int,
    dedupTtlSeconds: int,
    batchSize: int)
  {
    /** The ceiling validate() compares with the reclaim delay. */
    function AttemptCeiling(): real {
      downstreamTimeoutSeconds + backoffMaxSeconds
    }

    function ClaimTtlSeconds(): int {
      Truncate(AttemptCeiling()) + 5
    }

    function MinIdleSeconds(): real {
      claimMinIdleMs as real / 1000.0
    }

    function Backoff(retry: nat): real {
      var raw := Power(backoffBase, retry);
      if raw <= backoffMaxSeconds then raw else backoffMaxSeconds
    }

    /** asyncio.sleep returns at once for a delay that is not positive. */
    function SleepSeconds(retry: nat): real {
      if Backoff(retry) >= 0.0 then Backoff(retry) else 0.0
    }

    predicate IdleExceedsAttempt() {
      AttemptCeiling() < MinIdleSeconds()
    }
  }

  datatype Problem = VerifyTokenUnset | AppSecretUnset | IdleTooShort

  /** Python's int() on a finite float: drop the fraction, towards zero. */
  function Truncate(x: real): int {
    if x >= 0.0 then x.Floor else -((-x).Floor)
  }

  function Power(base: real, exponent: nat): real {
    if exponent == 0 then 1.0 else base * Power(base, exponent - 1)
  }

  /** Settings.validate(): every problem is collected; a non-empty list is raised. */
  method Validate(s: Settings) returns (problems: seq<Problem>)
    ensures VerifyTokenUnset in problems <==> s.verifyTokenPlaceholder
    ensures AppSecretUnset in problems <==> s.requireSignature && s.appSecretPlaceholder
    ensures IdleTooShort in problems <==> !s.IdleExceedsAttempt()
    ensures problems == [] <==>
      !s.verifyTokenPlaceholder && !(s.requireSignature && s.appSecretPlaceholder) && s.IdleExceedsAttempt()
    ensures IdleTooShort in problems
      <==> 1000.0 * (s.downstreamTimeoutSeconds + s.backoffMaxSeconds) >= s.claimMinIdleMs as real
  {
    problems := [];
    if s.verifyTokenPlaceholder {
      problems := problems + [VerifyTokenUnset];
    }
    if s.requireSignature && s.appSecretPlaceholder {
      problems := problems + [AppSecretUnset];
    }
    var attemptCeiling := s.downstreamTimeoutSeconds + s.backoffMaxSeconds;
    if attemptCeiling >= s.claimMinIdleMs as real / 1000.0 {
      problems := problems + [IdleTooShort];
    }
  }

  /** int() drops the fraction: what is left is no further from zero, by less than one, and on the same side. */
  lemma TruncatesTowardsZero(x: real)
    ensures x >= 0.0 ==> 0 <= Truncate(x) && Truncate(x) as real <= x < Truncate(x) as real + 1.0
    ensures x <= 0.0 ==> Truncate(x) <= 0 && Truncate(x) as real - 1.0 < x <= Truncate(x) as real
  {
    assert x.Floor as real <= x < x.Floor as real + 1.0;
    assert (-x).Floor as real <= -x < (-x).Floor as real + 1.0;
  }

  /**
    The claim outlasts timeout and backoff cap together by more than four seconds
    although int() drops the fraction, and by less than six; by at most five where
    they add up to zero or more, and by at least five where they do not.
   */
  lemma ClaimTtlSlack(s: Settings)
    ensures var ceiling := s.downstreamTimeoutSeconds + s.backoffMaxSeconds;
      && ceiling + 4.0 < s.ClaimTtlSeconds() as real < ceiling + 6.0
      && (ceiling >= 0.0 ==> s.ClaimTtlSeconds() as real <= ceiling + 5.0)
      && (ceiling <= 0.0 ==> s.ClaimTtlSeconds() as real >= ceiling + 5.0)
  {
    TruncatesTowardsZero(s.AttemptCeiling());
  }

  /** Powers are what they are called: one, the base, and products for sums of exponents. */
  lemma {:induction false} PowerLaws(base: real, m: nat, n: nat)
    ensures Power(base, 0) == 1.0 && Power(base, 1) == base
    ensures Power(base, m + n) == Power(base, m) * Power(base, n)
  {
    assert Power(base, 1) == base * Power(base, 0) == base;
    PowerAdds(base, m, n, Power(base, n));
  }

  lemma {:induction false} PowerAdds(base: real, m: nat, n: nat, p: real)
    requires Power(base, n) == p
    ensures Power(base, m + n) == Power(base, m) * p
  {
    if m == 0 {
      assert 1.0 * p == p;
    } else {
      PowerAdds(base, m - 1, n, p);
      var q := Power(base, m - 1);
      PowerNext(base, m - 1, q);
      PowerNext(base, (m - 1) + n, q * p);
      Reassociate(base, q, p);
    }
  }

  lemma PowerNext(base: real, n: nat, p: real)
    requires Power(base, n) == p
    ensures Power(base, n + 1) == base * p
  {
  }

  lemma Reassociate(x: real, y: real, z: real)
    ensures x * (y * z) == x * y * z
  {
  }

  /**
    The backoff is the smaller of the power and the cap: at most either, and one of
    them. So after the first failure it is the base or the cap, and where both it and
    the next are below the cap, the next is the base times as long.
   */
  lemma {:induction false} BackoffIsTheSmaller(s: Settings, retry: nat)
    ensures s.Backoff(retry) <= Power(s.backoffBase, retry) && s.Backoff(retry) <= s.backoffMaxSeconds
    ensures s.Backoff(retry) == Power(s.backoffBase, retry) || s.Backoff(retry) == s.backoffMaxSeconds
    ensures s.Backoff(1) == if s.backoffBase <= s.backoffMaxSeconds then s.backoffBase else s.backoffMaxSeconds
    ensures s.Backoff(retry) < s.backoffMaxSeconds && s.Backoff(retry + 1) < s.backoffMaxSeconds ==>
      s.Backoff(retry + 1) == s.backoffBase * s.Backoff(retry)
  {
    PowerLaws(s.backoffBase, 1, retry);
    assert 1 + retry == retry + 1;
  }

  lemma {:induction false} PowerGrows(base: real, n: nat)
    requires base >= 1.0
    ensures 1.0 <= Power(base, n) <= Power(base, n + 1)
  {
    if n > 0 {
      PowerGrows(base, n - 1);
    }
    var p := Power(base, n);
    assert Power(base, n + 1) == base * p;
    assert (base - 1.0) * p >= 0.0;
  }

  /** The backoff never shrinks from one retry to a later one, and is capped. */
  lemma {:induction false} BackoffGrowsToTheCap(s: Settings, early: nat, late: nat)
    requires s.backoffBase >= 1.0
    requires early <= late
    ensures s.Backoff(early) <= s.Backoff(late) <= s.backoffMaxSeconds
    decreases late - early
  {
    if early < late {
      PowerGrows(s.backoffBase, early);
      BackoffGrowsToTheCap(s, early + 1, late);
    }
  }

  /** Whether the uncapped backoff is smaller at the next retry: an exact test on the base and the retry alone. */
  predicate PowerShrinks(base: real, retry: nat) {
    if base >= 1.0 then false
    else if base > 0.0 then true
    else if base == 0.0 then retry == 0
    else retry % 2 == 0
  }

  /** The sign of a power: positive for a positive base, alternating for a negative one. */
  lemma {:induction false} PowerSign(base: real, n: nat)
    ensures base > 0.0 ==> Power(base, n) > 0.0
    ensures base == 0.0 ==> Power(base, n) == if n == 0 then 1.0 else 0.0
    ensures base < 0.0 ==> if n % 2 == 0 then Power(base, n) > 0.0 else Power(base, n) < 0.0
  {
    if n > 0 {
      PowerSign(base, n - 1);
      SignOfProduct(base, Power(base, n - 1));
    }
  }

  lemma SignOfProduct(x: real, y: real)
    ensures (x > 0.0 && y > 0.0) || (x < 0.0 && y < 0.0) ==> x * y > 0.0
    ensures (x > 0.0 && y < 0.0) || (x < 0.0 && y > 0.0) ==> x * y < 0.0
  {
  }

  lemma OneLess(base: real, p: real)
    ensures base * p - p == (base - 1.0) * p
  {
  }

  lemma {:induction false} PowerShrinksWhen(base: real, n: nat)
    ensures Power(base, n + 1) < Power(base, n) <==> PowerShrinks(base, n)
  {
    var p := Power(base, n);
    assert Power(base, n + 1) == base * p;
    if base >= 1.0 {
      PowerGrows(base, n);
    } else {
      PowerSign(base, n);
      OneLess(base, p);
      SignOfProduct(base - 1.0, p);
      if p == 0.0 {
        assert base * p == 0.0;
      }
    }
  }

  /**
    The startup check does not look at the base. For every base and every retry,
    the backoff is smaller at the next retry exactly when the power is and the cap
    does not hide it. So it never shrinks for a base of at least 1, and for one
    between 0 and 1 it shrinks as long as the next power is below the cap.
   */
  lemma {:induction false} BackoffShrinksWhen(s: Settings, retry: nat)
    ensures s.Backoff(retry + 1) < s.Backoff(retry)
      <==> PowerShrinks(s.backoffBase, retry) && Power(s.backoffBase, retry + 1) < s.backoffMaxSeconds
  {
    PowerShrinksWhen(s.backoffBase, retry);
  }
}
