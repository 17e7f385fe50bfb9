/** The jitter of the retrying client, which is fixed by the attempt: 0.8 + 0.4 |sin(attempt)|. */
module RetryJitter {
  import opened RetryClient

  // ---- the sine of a whole number, by its alternating series ----

  /** x^(2i+1) / (2i+1)!, without the sign. */
  function Term(x: real, i: nat): real {
    if i == 0 then x else Term(x, i - 1) * (x * x) / ((2 * i) * (2 * i + 1)) as real
  }

  function Sum(x: real, n: nat): real {
    if n == 0 then 0.0
    else if n % 2 == 1 then Sum(x, n - 1) + Term(x, n - 1) else Sum(x, n - 1) - Term(x, n - 1)
  }

  /** A function that agrees with the sine on the attempts: once the terms of its series
      shrink it lies between consecutive partial sums. */
  ghost predicate IsSine(sine: nat -> real) {
    && (forall k :: -1.0 <= sine(k) <= 1.0)
    && (forall k: nat, m: nat {:trigger Sum(k as real, 2 * m)} ::
          k * k <= (4 * m + 2) * (4 * m + 3) ==> Sum(k as real, 2 * m) <= sine(k) <= Sum(k as real, 2 * m + 1))
  }

  function Abs(x: real): real {
    if x < 0.0 then -x else x
  }

  function Jitter(sine: nat -> real, attempt: nat): real {
    0.8 + 0.4 * Abs(sine(attempt))
  }

  // ---- its values ----

  lemma SumsOfTwo()
    ensures 0.9079 <= Sum(2.0, 4) && Sum(2.0, 5) <= 0.9094
  {
    assert Term(2.0, 0) == 2.0 / 1.0;
    assert Term(2.0, 1) == 4.0 / 3.0;
    assert Term(2.0, 2) == 4.0 / 15.0;
    assert Term(2.0, 3) == 8.0 / 315.0;
    assert Term(2.0, 4) == 4.0 / 2835.0;
    assert Sum(2.0, 1) == 2.0 / 1.0;
    assert Sum(2.0, 2) == 2.0 / 3.0;
    assert Sum(2.0, 3) == 14.0 / 15.0;
    assert Sum(2.0, 4) == 286.0 / 315.0;
    assert Sum(2.0, 5) == 2578.0 / 2835.0;
  }

  lemma SumsOfThree()
    ensures 0.1408 <= Sum(3.0, 6) && Sum(3.0, 7) <= 0.1412
  {
    assert Term(3.0, 0) == 3.0 / 1.0;
    assert Term(3.0, 1) == 9.0 / 2.0;
    assert Term(3.0, 2) == 81.0 / 40.0;
    assert Term(3.0, 3) == 243.0 / 560.0;
    assert Term(3.0, 4) == 243.0 / 4480.0;
    assert Term(3.0, 5) == 2187.0 / 492800.0;
    assert Term(3.0, 6) == 6561.0 / 25625600.0;
    assert Sum(3.0, 1) == 3.0 / 1.0;
    assert Sum(3.0, 2) == -3.0 / 2.0;
    assert Sum(3.0, 3) == 21.0 / 40.0;
    assert Sum(3.0, 4) == 51.0 / 560.0;
    assert Sum(3.0, 5) == 93.0 / 640.0;
    assert Sum(3.0, 6) == 69423.0 / 492800.0;
    assert Sum(3.0, 7) == 516651.0 / 3660800.0;
  }

  lemma SumsOfFive()
    ensures Sum(5.0, 7) <= -0.93
  {
    assert Term(5.0, 0) == 5.0 / 1.0;
    assert Term(5.0, 1) == 125.0 / 6.0;
    assert Term(5.0, 2) == 625.0 / 24.0;
    assert Term(5.0, 3) == 15625.0 / 1008.0;
    assert Term(5.0, 4) == 390625.0 / 72576.0;
    assert Term(5.0, 5) == 1953125.0 / 1596672.0;
    assert Term(5.0, 6) == 48828125.0 / 249080832.0;
    assert Sum(5.0, 1) == 5.0 / 1.0;
    assert Sum(5.0, 2) == -95.0 / 6.0;
    assert Sum(5.0, 3) == 245.0 / 24.0;
    assert Sum(5.0, 4) == -5335.0 / 1008.0;
    assert Sum(5.0, 5) == 6505.0 / 72576.0;
    assert Sum(5.0, 6) == -1810015.0 / 1596672.0;
    assert Sum(5.0, 7) == -233534215.0 / 249080832.0;
  }

  lemma Attempts(sine: nat -> real)
    requires IsSine(sine)
    ensures 0.9079 <= sine(2) <= 0.9094
    ensures 0.1408 <= sine(3) <= 0.1412
    ensures sine(5) <= -0.93
  {
    SumsOfTwo();
    SumsOfThree();
    SumsOfFive();
    assert Sum(2 as real, 2 * 2) <= sine(2) <= Sum(2 as real, 2 * 2 + 1);
    assert Sum(3 as real, 2 * 3) <= sine(3) <= Sum(3 as real, 2 * 3 + 1);
    assert Sum(5 as real, 2 * 3) <= sine(5) <= Sum(5 as real, 2 * 3 + 1);
  }

  // ---- the waits ----

  /** calculateBackoff of an attempt. */
  function Wait(cfg: RetryConfig, sine: nat -> real, attempt: nat): nat
    requires cfg.multiplier >= 0.0 && -1.0 <= sine(attempt) <= 1.0
  {
    Backoff(cfg, attempt, Jitter(sine, attempt))
  }

  /** Of the retries up to `n` none waits less than an earlier one. */
  ghost predicate WaitsGrow(cfg: RetryConfig, sine: nat -> real, n: nat)
    requires cfg.multiplier >= 0.0 && IsSine(sine)
  {
    forall k: nat, l: nat :: 1 <= k <= l <= n ==> Wait(cfg, sine, k) <= Wait(cfg, sine, l)
  }

  /** The multiplier makes up for the jitters of attempt `k` and the next one. */
  predicate MadeUpFor(multiplier: real, sine: nat -> real, k: nat) {
    Jitter(sine, k) <= multiplier * Jitter(sine, k + 1)
  }

  lemma {:induction false} LaterWaitIsNoLess(cfg: RetryConfig, sine: nat -> real, k: nat, l: nat)
    requires IsSine(sine) && cfg.multiplier >= 0.0 && k <= l
    requires forall m: nat :: k <= m < l ==> MadeUpFor(cfg.multiplier, sine, m)
    ensures Wait(cfg, sine, k) <= Wait(cfg, sine, l)
    decreases l
  {
    if k < l {
      LaterWaitIsNoLess(cfg, sine, k, l - 1);
      assert MadeUpFor(cfg.multiplier, sine, l - 1);
      NextWaitIsNoLess(cfg, l - 1, Jitter(sine, l - 1), Jitter(sine, l));
    }
  }

  /** Of any number of retries none waits less than an earlier one, whatever the initial and
      the largest backoff, exactly if the multiplier makes up for all the jitters on the way. */
  lemma WaitsGrowIff(cfg: RetryConfig, sine: nat -> real, n: nat)
    requires IsSine(sine) && cfg.multiplier > 0.0
    ensures (forall initial: nat, max: nat :: WaitsGrow(Scaling(cfg, cfg.multiplier, initial, max), sine, n))
            <==> forall k: nat :: 1 <= k < n ==> MadeUpFor(cfg.multiplier, sine, k)
  {
    if k: nat :| 1 <= k < n && !MadeUpFor(cfg.multiplier, sine, k) {
      var initial, max := NextWaitMayBeLess(cfg, k, Jitter(sine, k), Jitter(sine, k + 1));
      var c := Scaling(cfg, cfg.multiplier, initial, max);
      assert Wait(c, sine, k) > Wait(c, sine, k + 1);
      assert !WaitsGrow(c, sine, n);
    } else {
      forall initial: nat, max: nat ensures WaitsGrow(Scaling(cfg, cfg.multiplier, initial, max), sine, n) {
        var c := Scaling(cfg, cfg.multiplier, initial, max);
        forall k: nat, l: nat | 1 <= k <= l <= n ensures Wait(c, sine, k) <= Wait(c, sine, l) {
          LaterWaitIsNoLess(c, sine, k, l);
        }
      }
    }
  }

  lemma Jitters(sine: nat -> real)
    requires IsSine(sine)
    ensures 1.16316 <= Jitter(sine, 2) <= 1.16376 && 0.85632 <= Jitter(sine, 3) <= 0.85648
    ensures Jitter(sine, 5) >= 1.172
  {
    Attempts(sine);
  }

  /** Up to the fifth retry it is the third that decides. */
  lemma FiveWaitsGrowIff(cfg: RetryConfig, sine: nat -> real, n: nat)
    requires IsSine(sine) && cfg.multiplier > 0.0 && 3 <= n <= 5
    ensures (forall initial: nat, max: nat :: WaitsGrow(Scaling(cfg, cfg.multiplier, initial, max), sine, n))
            <==> MadeUpFor(cfg.multiplier, sine, 2)
  {
    WaitsGrowIff(cfg, sine, n);
    if MadeUpFor(cfg.multiplier, sine, 2) { OthersAreMadeUpFor(cfg.multiplier, sine); }
  }

  lemma OthersAreMadeUpFor(multiplier: real, sine: nat -> real)
    requires IsSine(sine) && MadeUpFor(multiplier, sine, 2)
    ensures forall k: nat :: 1 <= k < 5 ==> MadeUpFor(multiplier, sine, k)
  {
    Jitters(sine);
    AtLeast(multiplier, Jitter(sine, 3), Jitter(sine, 2));
    Outweighs(multiplier, sine, 1);
    Outweighs(multiplier, sine, 3);
    Outweighs(multiplier, sine, 4);
  }

  lemma Outweighs(multiplier: real, sine: nat -> real, k: nat)
    requires IsSine(sine) && multiplier >= 1.358 && k in {1, 3, 4}
    ensures MadeUpFor(multiplier, sine, k)
  {
    Jitters(sine);
    assert -1.0 <= sine(k) <= 1.0 && -1.0 <= sine(k + 1) <= 1.0;
    Outweighed(multiplier, Jitter(sine, k), Jitter(sine, k + 1));
  }

  lemma Outweighed(m: real, x: real, y: real)
    requires m >= 1.358 && 0.0 <= y && x <= 1.358 * y
    ensures x <= m * y
  {
    Scaled(y, 1.358, m);
  }

  lemma AtLeast(m: real, x: real, y: real)
    requires 0.8 <= x <= 0.85648 && 1.16316 <= y <= m * x
    ensures m > 1.358
  {
    if m <= 1.358 {
      Scaled(x, m, 1.358);
      Scaled(1.358, x, 0.85648);
    }
  }

  /** The multiplier from which on it does lies between 1.358 and 1.3591. */
  lemma ThirdWaitThreshold(sine: nat -> real, multiplier: real)
    requires IsSine(sine)
    ensures multiplier >= 1.3591 ==> MadeUpFor(multiplier, sine, 2)
    ensures multiplier <= 1.358 ==> !MadeUpFor(multiplier, sine, 2)
  {
    Jitters(sine);
    if multiplier >= 1.3591 { Scaled(Jitter(sine, 3), 1.3591, multiplier); }
    if MadeUpFor(multiplier, sine, 2) { AtLeast(multiplier, Jitter(sine, 3), Jitter(sine, 2)); }
  }

  // ---- all attempts ----

  /** The sine of the difference of an attempt and 1. */
  predicate Before(sine: nat -> real, cosine: nat -> real, k: nat) {
    sine(k) == sine(k + 1) * cosine(1) - cosine(k + 1) * sine(1)
  }

  ghost predicate IsCosine(sine: nat -> real, cosine: nat -> real) {
    (forall k :: -1.0 <= cosine(k) <= 1.0) && (forall k: nat :: Before(sine, cosine, k))
  }

  lemma AtMost(x: real, c: real)
    requires -1.0 <= c <= 1.0
    ensures Abs(x * c) <= Abs(x)
  {
    var y := Abs(x);
    Scaled(y, c, 1.0);
    Scaled(y, -1.0, c);
    if x < 0.0 { assert x == -y && x * c == -(y * c); }
  }

  lemma NextSine(sine: nat -> real, cosine: nat -> real, k: nat)
    requires IsCosine(sine, cosine)
    ensures Abs(sine(k)) <= Abs(sine(k + 1)) + Abs(sine(1))
  {
    assert Before(sine, cosine, k);
    assert -1.0 <= cosine(1) <= 1.0 && -1.0 <= cosine(k + 1) <= 1.0;
    AtMostTheSum(sine(k + 1), cosine(1), sine(1), cosine(k + 1));
  }

  lemma AtMostTheSum(x: real, c: real, y: real, d: real)
    requires -1.0 <= c <= 1.0 && -1.0 <= d <= 1.0
    ensures Abs(x * c - d * y) <= Abs(x) + Abs(y)
  {
    AtMost(x, c);
    AtMost(y, d);
  }

  /** However many retries there are, a multiplier of 1 + sin(1)/2 or more makes up for
      their jitters, so that none waits less than an earlier one. */
  lemma AllWaitsGrow(cfg: RetryConfig, sine: nat -> real, cosine: nat -> real, n: nat)
    requires IsSine(sine) && IsCosine(sine, cosine) && cfg.multiplier >= 1.0 + sine(1) / 2.0
    ensures WaitsGrow(cfg, sine, n)
  {
    SineOfOne(sine);
    forall k: nat ensures MadeUpFor(cfg.multiplier, sine, k) {
      NextSine(sine, cosine, k);
      AnyIsMadeUpFor(cfg.multiplier, Abs(sine(k)), Abs(sine(k + 1)), sine(1));
    }
    forall k: nat, l: nat | 1 <= k <= l <= n ensures Wait(cfg, sine, k) <= Wait(cfg, sine, l) {
      LaterWaitIsNoLess(cfg, sine, k, l);
    }
  }

  /** That is less than 1.421. */
  lemma SineOfOne(sine: nat -> real)
    requires IsSine(sine)
    ensures 0.0 < sine(1) && 1.0 + sine(1) / 2.0 < 1.421
  {
    assert Term(1.0, 0) == 1.0;
    assert Term(1.0, 1) == 1.0 / 6.0;
    assert Term(1.0, 2) == 1.0 / 120.0;
    assert Sum(1.0, 1) == 1.0;
    assert Sum(1.0, 2) == 5.0 / 6.0;
    assert Sum(1.0, 3) == 101.0 / 120.0;
    assert Sum(1 as real, 2 * 1) <= sine(1) <= Sum(1 as real, 2 * 1 + 1);
  }

  lemma AnyIsMadeUpFor(multiplier: real, s: real, s': real, one: real)
    requires multiplier >= 1.0 + one / 2.0 && 0.0 <= s <= s' + one && 0.0 <= s' && 0.0 < one
    ensures 0.8 + 0.4 * s <= multiplier * (0.8 + 0.4 * s')
  {
    var j := 0.8 + 0.4 * s';
    Scaled(j, 1.0 + one / 2.0, multiplier);
    Scaled(one, 0.0, s');
    assert (1.0 + one / 2.0) * j == 0.8 + 0.4 * s' + 0.4 * one + 0.2 * (one * s');
  }
}
