/** TCK frequency arithmetic: the divisor search of the adapter and the period conversion above it. */
module Frequency {

  const MAX_FREQUENCY: nat := 30000000
  const MIN_FREQUENCY: nat := 457
  const NS_PER_S: nat := 1000000000

  /** TCK for a divisor with the divide-by-5 prescaler off (FTDI AN_108, section 3.8). */
  function Tck(divisor: nat): nat
  {
    DivAtLeast(60000000, (1 + divisor) * 2, 0);
    60000000 / ((1 + divisor) * 2)
  }

  /** The request the adapter works with: 1 Hz to 30 MHz. */
  function Clamped(frequency: nat): (r: nat)
    ensures 1 <= r <= MAX_FREQUENCY
  {
    if frequency > MAX_FREQUENCY then MAX_FREQUENCY else if frequency < 1 then 1 else frequency
  }

  /** The divisor the adapter programs. */
  function DivisorFor(frequency: nat): (d: nat)
    ensures d <= 0xFFFF
  {
    var q := 60000000 / (2 * Clamped(frequency));
    var d := if q > 0 then q - 1 else q;
    if d > 0xFFFF then 0xFFFF else d
  }

  lemma DivAtLeast(x: nat, y: nat, z: nat)
    requires y > 0
    ensures x / y >= z <==> x >= z * y
  {
    var q := x / y;
    assert x == q * y + x % y && 0 <= x % y < y;
    if q >= z {
      assert q * y >= z * y by { MulMono(z, q, y); }
    } else {
      assert (q + 1) * y <= z * y by { MulMono(q + 1, z, y); }
    }
  }

  lemma MulMono(a: nat, b: nat, y: nat)
    requires a <= b
    ensures a * y <= b * y
  {
  }

  /** A divisor reaches a frequency exactly when it is at most the one the adapter picks. */
  lemma ReachesIff(frequency: nat, d: nat)
    requires 1 <= frequency <= MAX_FREQUENCY && d <= 0xFFFF
    ensures Tck(d) >= frequency <==> d <= DivisorFor(frequency)
  {
    DivAtLeast(60000000, (1 + d) * 2, frequency);
    DivAtLeast(60000000, 2 * frequency, 1 + d);
    assert frequency * ((1 + d) * 2) == (1 + d) * (2 * frequency);
  }

  lemma TckAntitone(d: nat, e: nat)
    requires d <= e
    ensures Tck(e) <= Tck(d)
  {
    var t := Tck(e);
    DivAtLeast(60000000, (1 + e) * 2, t);
    DivAtLeast(60000000, (1 + d) * 2, t);
    MulMono((1 + d) * 2, (1 + e) * 2, t);
  }

  /** The frequency set is the lowest one the chip offers that is not below the request. */
  lemma FrequencyIsOptimal(frequency: nat)
    ensures var f := Tck(DivisorFor(frequency));
      && f >= Clamped(frequency)
      && MIN_FREQUENCY <= f <= MAX_FREQUENCY
      && (forall d :: 0 <= d <= 0xFFFF && Tck(d) >= Clamped(frequency) ==> Tck(d) >= f)
  {
    var c, e := Clamped(frequency), DivisorFor(frequency);
    assert DivisorFor(c) == e;
    ReachesIff(c, e);
    TckAntitone(e, 0xFFFF);
    TckAntitone(0, e);
    forall d | 0 <= d <= 0xFFFF && Tck(d) >= c ensures Tck(d) >= Tck(e) {
      ReachesIff(c, d);
      TckAntitone(d, e);
    }
  }

  /** The same in numbers: requests above 30 MHz get 30 MHz, a request for 0 gets 457 Hz. */
  lemma FrequencyInRange(frequency: nat)
    ensures var f := Tck(DivisorFor(frequency));
      && 457 <= f <= 30000000
      && (frequency > 30000000 ==> f == 30000000) && (frequency == 0 ==> f == 457)
      && (1 <= frequency <= 30000000 ==> f >= frequency && f == Tck(DivisorFor(f)))
    ensures Tck(0) == 30000000 && Tck(1) == 15000000 && Tck(2) == 10000000 && Tck(0xFFFF) == 457
  {
    FrequencyIsOptimal(frequency);
    FrequencySettles(frequency);
  }

  /** A period of 0 is taken as 100 ns. */
  lemma PeriodZero()
    ensures FrequencySet(0) == FrequencySet(100) == 10000000 && PeriodReported(0) == 100
  {
  }

  /** Asking again for the frequency that was set changes nothing. */
  lemma FrequencySettles(frequency: nat)
    ensures var f := Tck(DivisorFor(frequency)); Tck(DivisorFor(f)) == f
  {
    var f := Tck(DivisorFor(frequency));
    FrequencyIsOptimal(frequency);
    FrequencyIsOptimal(f);
  }

  /** The request made for a period in nanoseconds; 0 stands for 100. */
  function FrequencyOfPeriod(period: nat): nat
  {
    NS_PER_S / (if period == 0 then 100 else period)
  }

  /** The frequency set for a period. */
  function FrequencySet(period: nat): nat
  {
    Tck(DivisorFor(FrequencyOfPeriod(period)))
  }

  /** The period reported for a period. */
  function PeriodReported(period: nat): (r: nat)
    ensures 33 <= r <= 2188183
  {
    FrequencyIsOptimal(FrequencyOfPeriod(period));
    DivAtLeast(NS_PER_S, FrequencySet(period), 33);
    DivAtLeast(NS_PER_S, FrequencySet(period), 2188184);
    NS_PER_S / FrequencySet(period)
  }

  /** Dividing by a quotient gives the divisor back exactly when the remainder is smaller than the quotient. */
  lemma QuotientOfQuotient(n: nat, f: nat)
    requires 0 < f <= n
    ensures n / f > 0 && n / (n / f) >= f && (n / (n / f) == f <==> n % f < n / f)
  {
    var p := n / f;
    DivAtLeast(n, f, 1);
    DivAtLeast(n, p, f);
    DivAtLeast(n, p, f + 1);
    assert n == p * f + n % f;
    assert (f + 1) * p == p * f + p && f * p == p * f;
  }

  /** A request keeps a frequency that is set exactly when it is that frequency, or exceeds the maximum set. */
  lemma RequestKeeps(frequency: nat, request: nat)
    requires var f := Tck(DivisorFor(frequency)); request >= f
    ensures var f := Tck(DivisorFor(frequency));
      Tck(DivisorFor(request)) == f <==> f == MAX_FREQUENCY || request == f
  {
    FrequencyIsOptimal(frequency);
    FrequencyIsOptimal(request);
    FrequencySettles(frequency);
  }

  /**
    Asking for the reported period keeps the frequency exactly at the maximum, or when dividing a
    second by the frequency leaves fewer nanoseconds than the period has.
  */
  lemma PeriodSettlesIff(period: nat)
    ensures var f := FrequencySet(period);
      FrequencySet(PeriodReported(period)) == f <==> f == 30000000 || 1000000000 % f < 1000000000 / f
  {
    hide DivisorFor, Tck;
    var f := FrequencySet(period);
    FrequencyIsOptimal(FrequencyOfPeriod(period));
    QuotientOfQuotient(NS_PER_S, f);
    RequestKeeps(FrequencyOfPeriod(period), FrequencyOfPeriod(PeriodReported(period)));
  }

  /** It does not always: 67 ns sets 15 MHz and reports 66 ns, and 66 ns sets 30 MHz. */
  lemma PeriodNeedNotSettle()
    ensures FrequencySet(67) == 15000000 && PeriodReported(67) == 66 && FrequencySet(66) == 30000000
  {
  }
}
