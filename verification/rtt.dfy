/**
 The round-trip time estimator of a TCP socket: Van Jacobson's scaled mean and variance, and Karn's rule for
 segments that were retransmitted.  Section 4.2.3.1 of RFC 1122 requires both.
 */
module RoundTrip {

  const WORD: int := 0x1_0000_0000
  const TICK_RATE: nat := 100
  const CAP: nat := 240 * TICK_RATE

  /** The value an unsigned 32-bit field keeps. */
  function U32(x: int): nat { x % WORD }

  /** The value a signed 32-bit variable keeps. */
  function S32(x: int): int {
    if x % WORD < WORD / 2 then x % WORD else x % WORD - WORD
  }

  /** Eight times the mean, four times the mean deviation, and the timeout in force, all in ticks. */
  datatype Estimator = Estimator(avg: nat, dev: nat, rto: nat)

  function Capped(rto: nat): nat {
    if rto > CAP then CAP else rto
  }

  function Pow2(k: nat): (r: nat)
    ensures r >= 1
  {
    if k == 0 then 1 else 2 * Pow2(k - 1)
  }

  /** Karn's rule: after `k` retransmissions keep the backed-off timeout and learn nothing. */
  function BackOff(rto: nat, k: nat): nat {
    Capped(U32(rto * Pow2(k)))
  }

  /** One measured round trip, in the 32-bit arithmetic of the code. */
  function Sample(e: Estimator, measured: int): Estimator {
    var t := if measured == 0 then 1 else measured;
    var e1 :=
      if e.avg == 0 then
        var dev := U32(t * 4);
        Estimator(U32(dev * 2), dev, e.rto)
      else
        var err := S32(t - e.avg / 8);
        var size := if err < 0 then -err else err;
        Estimator(U32(e.avg + err), U32(e.dev + S32(size - e.dev / 4)), e.rto);
    e1.(rto := Capped(U32(e1.avg / 8 + e1.dev)))
  }

  /** What happens to the estimator when a segment is acknowledged for the first time. */
  function Acknowledged(e: Estimator, retransmits: nat, measured: int): Estimator {
    if retransmits != 0 then e.(rto := BackOff(e.rto, retransmits)) else Sample(e, measured)
  }

  // ---------- bounds ----------

  /** The estimator has seen samples between `lo` and `hi` only. */
  ghost predicate Within(e: Estimator, lo: nat, hi: nat) {
    && 8 * lo <= e.avg <= 8 * hi + 7
    && e.dev <= 4 * hi + 3
  }

  lemma SmallIsExact(x: int)
    requires -0x8000_0000 <= x < 0x8000_0000
    ensures S32(x) == x && (x >= 0 ==> U32(x) == x)
  {
  }

  lemma SmoothedMean(avg: nat, t: nat, lo: nat, hi: nat)
    requires 8 * lo <= avg <= 8 * hi + 7 && lo <= t <= hi
    ensures lo <= avg / 8 <= hi
    ensures 8 * lo <= avg + t - avg / 8 <= 8 * hi + 7
  {
  }

  lemma SmoothedDeviation(dev: nat, size: nat, hi: nat)
    requires dev <= 4 * hi + 3 && size < hi
    ensures 0 <= dev + size - dev / 4 <= 4 * hi + 3
  {
  }

  /** After the first sample no 32-bit operation overflows, so the update is the plain integer one. */
  lemma SampleIsExact(e: Estimator, t: nat, lo: nat, hi: nat)
    requires 1 <= lo <= t <= hi <= 0x800_0000 && e.avg != 0 && Within(e, lo, hi)
    ensures var err := t - e.avg / 8;
            var size := if err < 0 then -err else err;
            && Sample(e, t).avg == e.avg + err
            && Sample(e, t).dev == e.dev + size - e.dev / 4
  {
    SmoothedMean(e.avg, t, lo, hi);
    var err := t - e.avg / 8;
    var size := if err < 0 then -err else err;
    SmoothedDeviation(e.dev, size, hi);
    SmallIsExact(err);
    SmallIsExact(e.avg + err);
    SmallIsExact(size - e.dev / 4);
    SmallIsExact(e.dev + size - e.dev / 4);
  }

  lemma FirstSample(e: Estimator, t: nat)
    requires 1 <= t <= 0x800_0000 && e.avg == 0
    ensures Sample(e, t).avg == 8 * t && Sample(e, t).dev == 4 * t
  {
    SmallIsExact(t * 4);
    SmallIsExact(t * 8);
  }

  /** The timeout computed from bounded estimates is itself bounded. */
  lemma TimeoutBounds(e: Estimator, t: nat, lo: nat, hi: nat)
    requires 1 <= lo <= hi <= 0x800_0000 && Within(Sample(e, t), lo, hi)
    ensures (if lo < CAP then lo else CAP) <= Sample(e, t).rto
    ensures Sample(e, t).rto <= (if 5 * hi + 3 < CAP then 5 * hi + 3 else CAP)
  {
    var s := Sample(e, t);
    SmallIsExact(s.avg / 8 + s.dev);
  }

  lemma SampleStaysWithin(e: Estimator, t: nat, lo: nat, hi: nat)
    requires 1 <= lo <= t <= hi <= 0x800_0000 && (e.avg == 0 || Within(e, lo, hi))
    ensures Within(Sample(e, t), lo, hi)
  {
    if e.avg == 0 {
      FirstSample(e, t);
    } else {
      SampleIsExact(e, t, lo, hi);
      SmoothedMean(e.avg, t, lo, hi);
      var err := t - e.avg / 8;
      SmoothedDeviation(e.dev, if err < 0 then -err else err, hi);
    }
  }

  /** Van Jacobson's update over the integers: gain 1/8 for the mean and 1/4 for the deviation. */
  function Jacobson(e: Estimator, t: nat): Estimator
    requires e.avg == 0 || e.avg + t >= e.avg / 8
  {
    if e.avg == 0 then Estimator(8 * t, 4 * t, Capped(5 * t))
    else
      var err := t - e.avg / 8;
      var avg := e.avg + err;
      var dev := e.dev - e.dev / 4 + (if err < 0 then -err else err);
      Estimator(avg, dev, Capped(avg / 8 + dev))
  }

  /** The 32-bit update is that one; a round trip shorter than a tick counts as one. */
  lemma SampleIsJacobson(e: Estimator, measured: nat, hi: nat)
    requires measured <= hi && 1 <= hi <= 0x800_0000 && (e.avg == 0 || Within(e, 1, hi))
    ensures Sample(e, measured) == Jacobson(e, if measured == 0 then 1 else measured)
  {
    var t := if measured == 0 then 1 else measured;
    ShortCountsAsOne(e, measured);
    SampleStaysWithin(e, t, 1, hi);
    TimeoutIsSum(e, t, hi);
    if e.avg == 0 {
      FirstSample(e, t);
    } else {
      SampleIsExact(e, t, 1, hi);
    }
  }

  lemma ShortCountsAsOne(e: Estimator, measured: int)
    ensures Sample(e, measured) == Sample(e, if measured == 0 then 1 else measured)
  {
  }

  lemma TimeoutIsSum(e: Estimator, t: nat, hi: nat)
    requires hi <= 0x800_0000 && Within(Sample(e, t), 1, hi)
    ensures Sample(e, t).rto == Capped(Sample(e, t).avg / 8 + Sample(e, t).dev)
  {
    SmallIsExact(Sample(e, t).avg / 8 + Sample(e, t).dev);
  }

  ghost function Samples(e: Estimator, ts: seq<nat>): Estimator {
    if ts == [] then e else Sample(Samples(e, ts[..|ts| - 1]), ts[|ts| - 1])
  }

  /** After any non-empty run of samples between `lo` and `hi`, mean, deviation and timeout are bounded by them. */
  lemma {:induction false} RunBounds(e: Estimator, ts: seq<nat>, lo: nat, hi: nat)
    requires e.avg == 0 && ts != [] && 1 <= lo && hi <= 0x800_0000
    requires forall i | 0 <= i < |ts| :: lo <= ts[i] <= hi
    ensures Within(Samples(e, ts), lo, hi)
    ensures (if lo < CAP then lo else CAP) <= Samples(e, ts).rto <= (if 5 * hi + 3 < CAP then 5 * hi + 3 else CAP)
    decreases |ts|
  {
    var n := |ts| - 1;
    var before := Samples(e, ts[..n]);
    assert lo <= ts[n] <= hi;
    if n > 0 {
      RunBounds(e, ts[..n], lo, hi);
    }
    SampleStaysWithin(before, ts[n], lo, hi);
    TimeoutBounds(before, ts[n], lo, hi);
  }

  // ---------- convergence ----------

  ghost function Repeated(e: Estimator, t: nat, n: nat): Estimator {
    if n == 0 then e else Sample(Repeated(e, t, n - 1), t)
  }

  /**
   A constant round trip leaves the mean alone and shrinks the deviation by at least one per sample until it is small.
   */
  lemma {:induction false} ConstantSamples(e: Estimator, t: nat, n: nat)
    requires 1 <= t <= 0x800_0000 && e.avg == 8 * t && e.dev == 4 * t
    ensures var r := Repeated(e, t, n);
            r.avg == 8 * t && r.dev <= 4 * t && (r.dev <= 3 || r.dev <= 4 * t - n)
  {
    if n > 0 {
      ConstantSamples(e, t, n - 1);
      SampleIsExact(Repeated(e, t, n - 1), t, t, t);
    }
  }

  /** Repeating the first sample drives the deviation to at most 3, and the timeout to within 3 ticks of the truth. */
  lemma Converges(e: Estimator, t: nat, n: nat)
    requires 1 <= t <= 0x800_0000 && e.avg == 0 && n >= 4 * t
    ensures var r := Repeated(Sample(e, t), t, n + 1);
            && r.avg == 8 * t && r.dev <= 3
            && Capped(t) <= r.rto <= Capped(t + 3)
  {
    FirstSample(e, t);
    var first := Sample(e, t);
    ConstantSamples(first, t, n);
    ConstantSamples(first, t, n + 1);
    var r := Repeated(first, t, n + 1);
    SmallIsExact(r.avg / 8 + r.dev);
  }

  // ---------- back-off ----------

  lemma {:induction false} Pow2Adds(a: nat, b: nat)
    ensures Pow2(a + b) == Pow2(a) * Pow2(b)
  {
    if a > 0 {
      Pow2Adds(a - 1, b);
      assert Pow2(a) * Pow2(b) == 2 * (Pow2(a - 1) * Pow2(b));
    }
  }

  lemma {:induction false} Pow2Grows(j: nat, k: nat)
    requires j <= k
    ensures 1 <= Pow2(j) <= Pow2(k)
    decreases k
  {
    if j < k {
      Pow2Grows(j, k - 1);
    } else if k > 0 {
      Pow2Grows(j - 1, k - 1);
    }
  }

  lemma Pow2Values()
    ensures Pow2(15) == 32768 && Pow2(17) == 131072 && Pow2(32) == WORD
  {
    assert Pow2(4) == 16;
    assert Pow2(8) == 256;
    assert Pow2(12) == 4096;
    assert Pow2(16) == 65536;
    Pow2Adds(16, 16);
  }

  lemma {:induction false} Distribute(d: nat, q: nat, m: nat, p: nat, w: nat)
    requires p * q == w
    ensures (d * q + m) * p == d * w + m * p
  {
    if d > 0 {
      Distribute(d - 1, q, m, p, w);
      assert d * q + m == ((d - 1) * q + m) + q;
      assert d * w == (d - 1) * w + w;
    }
  }

  lemma ProductBelow(m: nat, q: nat, p: nat)
    requires m < q && p > 0
    ensures m * p < q * p
  {
    ProductGrows(p, m + 1, q);
    assert p * (m + 1) == p * m + p;
  }

  lemma SplitAt(r: nat, q: nat) returns (d: nat, m: nat)
    requires q > 0
    ensures r == d * q + m && m == r % q < q
  {
    d, m := r / q, r % q;
  }

  /** Shifting keeps the low bits and loses those above. */
  lemma ShiftKeeps(r: nat, p: nat, q: nat)
    requires p > 0 && q > 0 && p * q == WORD
    ensures U32(r * p) == r % q * p
  {
    var d, m := SplitAt(r, q);
    var kept := m * p;
    assert r * p == d * WORD + kept by {
      Distribute(d, q, m, p, WORD);
    }
    assert kept < WORD by {
      ProductBelow(m, q, p);
    }
    WordRemainder(d, kept);
  }

  lemma {:induction false} WordRemainder(d: nat, m: nat)
    requires m < WORD
    ensures (d * WORD + m) % WORD == m
  {
    if d > 0 {
      WordRemainder(d - 1, m);
      assert d * WORD + m == (d - 1) * WORD + m + WORD;
    }
  }

  lemma ShiftedOut(rto: nat, k: nat)
    requires k >= 32
    ensures BackOff(rto, k) == 0
  {
    var p := Pow2(k - 32);
    Pow2Values();
    Pow2Adds(k - 32, 32);
    Associate(rto, p, WORD);
    WordRemainder(rto * p, 0);
  }

  lemma Associate(a: nat, b: nat, c: nat)
    ensures a * (b * c) == (a * b) * c
  {
  }

  lemma PowersOfWord(k: nat)
    requires k <= 32
    ensures Pow2(k) * Pow2(32 - k) == WORD
  {
    Pow2Values();
    Pow2Adds(k, 32 - k);
  }

  lemma ShortShift(rto: nat, k: nat)
    requires rto <= CAP && k < 32 && rto < Pow2(32 - k)
    ensures BackOff(rto, k) == Capped(rto * Pow2(k)) && rto % Pow2(32 - k) == rto
  {
    PowersOfWord(k);
    SmallRemainder(rto, Pow2(32 - k));
    ShiftKeeps(rto, Pow2(k), Pow2(32 - k));
  }

  lemma LongShift(rto: nat, k: nat)
    requires rto <= CAP && k < 32 && rto >= Pow2(32 - k)
    ensures Capped(rto * Pow2(k)) == CAP
    ensures BackOff(rto, k) == (if rto % Pow2(32 - k) == 0 then 0 else CAP)
  {
    var p, q := Pow2(k), Pow2(32 - k);
    PowersOfWord(k);
    ShiftKeeps(rto, p, q);
    ShiftIsLong(k, q);
    ProductGrows(p, q, rto);
    var m := rto % q;
    if m > 0 {
      ProductGrows(p, 1, m);
    }
  }

  /**
   Backing off doubles the timeout per retransmission, up to the cap, exactly when the shift leaves something of it: not
   all of its bits are among those shifted out.
   */
  lemma BackOffIsDoubling(rto: nat, k: nat)
    requires rto <= CAP
    ensures BackOff(rto, k) == Capped(rto * Pow2(k)) <==> rto == 0 || (k < 32 && rto % Pow2(32 - k) != 0)
  {
    if k >= 32 {
      ShiftedOut(rto, k);
      ProductGrows(rto, 1, Pow2(k));
    } else if rto < Pow2(32 - k) {
      ShortShift(rto, k);
    } else {
      LongShift(rto, k);
    }
  }

  lemma ShiftIsLong(k: nat, q: nat)
    requires k < 32 && q == Pow2(32 - k) <= CAP
    ensures Pow2(k) > CAP
  {
    Pow2Values();
    if 32 - k >= 15 {
      Pow2Grows(15, 32 - k);
    } else {
      Pow2Grows(15, k);
    }
  }

  /** With any timeout the estimator can produce, seventeen retransmissions are safe. */
  lemma BackOffIsSafe(rto: nat, k: nat)
    requires rto <= CAP && k <= 17
    ensures BackOff(rto, k) == Capped(rto * Pow2(k)) >= rto
  {
    Pow2Values();
    Pow2Grows(0, k);
    Pow2Grows(15, 32 - k);
    SmallRemainder(rto, Pow2(32 - k));
    BackOffIsDoubling(rto, k);
    ProductGrows(rto, 1, Pow2(k));
  }

  lemma SmallRemainder(m: nat, q: nat)
    requires m < q
    ensures m % q == m
  {
  }

  lemma {:induction false} ProductGrows(r: nat, p: nat, q: nat)
    requires p <= q
    ensures r * p <= r * q
  {
    if r > 0 {
      ProductGrows(r - 1, p, q);
      assert r * p == (r - 1) * p + p && r * q == (r - 1) * q + q;
    }
  }

  /** The initial timeout, a multiple of four, is lost altogether after thirty retransmissions. */
  lemma BackOffCanVanish()
    ensures 3 * TICK_RATE % Pow2(32 - 30) == 0 && BackOff(3 * TICK_RATE, 30) == 0
  {
    assert Pow2(2) == 4;
    LongShift(3 * TICK_RATE, 30);
  }
}
