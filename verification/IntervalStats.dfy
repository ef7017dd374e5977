/** Interval statistics: total, least and greatest of the time intervals within a limit. */
module IntervalStats {

  const BILLION: nat := 1_000_000_000
  const NEVER: nat := 0xFFFF_FFFF
  const WORD: nat := 0x1_0000_0000_0000_0000

  datatype Time = Time(sec: int, nsec: int)

  predicate Normal(t: Time) { 0 <= t.nsec < BILLION }

  function Nanos(t: Time): int { t.sec * BILLION + t.nsec }

  predicate Less(a: Time, b: Time) { a.sec < b.sec || (a.sec == b.sec && a.nsec < b.nsec) }

  function Difference(start: Time, end: Time): (r: Time)
    ensures Nanos(r) == Nanos(end) - Nanos(start)
    ensures Normal(start) && Normal(end) ==> Normal(r)
  {
    if end.nsec - start.nsec < 0 then Time(end.sec - start.sec - 1, BILLION + end.nsec - start.nsec)
    else Time(end.sec - start.sec, end.nsec - start.nsec)
  }

  function Sum(a: Time, b: Time): (r: Time)
    ensures Nanos(r) == Nanos(a) + Nanos(b)
    ensures Normal(a) && Normal(b) ==> Normal(r)
  {
    if a.nsec + b.nsec >= BILLION then Time(a.sec + b.sec + 1, a.nsec + b.nsec - BILLION)
    else Time(a.sec + b.sec, a.nsec + b.nsec)
  }

  /** Division goes through an unsigned sixty-four bit count of nanoseconds. */
  function Quotient(t: Time, divisor: nat): (r: Time)
    requires 0 < divisor
    ensures Normal(r) && Nanos(r) == (Nanos(t) % WORD) / divisor
  {
    var n := (Nanos(t) % WORD) / divisor;
    Time(n / BILLION, n % BILLION)
  }

  lemma LessIsLess(a: Time, b: Time)
    requires Normal(a) && Normal(b)
    ensures Less(a, b) <==> Nanos(a) < Nanos(b)
  {
  }

  /** The quotient is right exactly for times whose nanoseconds fit the word. */
  lemma QuotientExactIff(t: Time, divisor: nat)
    requires Normal(t) && t.sec >= 0 && 0 < divisor <= NEVER
    ensures Nanos(Quotient(t, divisor)) == Nanos(t) / divisor <==> Nanos(t) < WORD
  {
    var n, m := Nanos(t), Nanos(t) % WORD;
    if n >= WORD {
      assert m + WORD <= n;
      QuotientGap(m, n, divisor);
    }
  }

  lemma QuotientGap(m: nat, n: nat, d: nat)
    requires 0 < d && m + d <= n
    ensures m / d < n / d
  {
    var q := m / d;
    assert m == q * d + m % d;
    assert (q + 1) * d == q * d + d <= n;
    QuotientLow(n, q + 1, d);
  }

  lemma QuotientLow(n: nat, q: nat, d: nat)
    requires 0 < d && q * d <= n
    ensures q <= n / d
  {
    var k := n / d;
    assert k * d + d > n;
    assert (k + 1 - q) * d == k * d + d - q * d > 0;
  }

  lemma QuotientHigh(n: nat, q: nat, d: nat)
    requires 0 < d && n <= q * d
    ensures n / d <= q
  {
    var k := n / d;
    assert k * d <= n < q * d + d;
    assert (q + 1 - k) * d == q * d + d - k * d > 0;
  }

  lemma QuotientBetween(n: nat, low: nat, high: nat, d: nat)
    requires 0 < d && n <= high * d
    ensures n / d <= high && (low <= n / d <==> low * d <= n)
  {
    QuotientHigh(n, high, d);
    if low * d <= n {
      QuotientLow(n, low, d);
    } else {
      var k := n / d;
      assert k * d <= n < low * d;
      assert (low - k) * d == low * d - k * d > 0;
    }
  }

  // ------------------------------------------------------------------ statistics

  datatype Stats = Stats(total: Time, min: Time, max: Time)

  const RESET := Stats(Time(0, 0), Time(NEVER, NEVER), Time(0, 0))

  datatype Sample = Sample(start: Time, end: Time)

  predicate Sane(s: Sample) { Normal(s.start) && Normal(s.end) }

  /** The limit is compared part by part and need not be normalized. */
  predicate Accepted(lim: Time, s: Sample) {
    var d := Difference(s.start, s.end);
    d.sec >= 0 && d.nsec >= 0 && !Less(lim, d)
  }

  /** The nanoseconds that a sample lasts. */
  function Lasts(s: Sample): int { Nanos(s.end) - Nanos(s.start) }

  /** A sample counts when it does not end before it starts and its seconds, then its nanoseconds,
      are within the limit. */
  predicate Counts(lim: Time, s: Sample) {
    var n := Lasts(s);
    n >= 0 && (n / BILLION < lim.sec || (n / BILLION == lim.sec && n % BILLION <= lim.nsec))
  }

  /** Exactly these samples are accepted; under a normalized limit they are those that last from
      nothing up to the limit, both included. */
  lemma AcceptedIff(lim: Time, s: Sample)
    requires Sane(s)
    ensures Accepted(lim, s) <==> Counts(lim, s)
    ensures Normal(lim) ==> (Accepted(lim, s) <==> 0 <= Lasts(s) <= Nanos(lim))
    ensures Accepted(lim, s) ==> Difference(s.start, s.end) == Time(Lasts(s) / BILLION, Lasts(s) % BILLION)
  {
    var d, n := Difference(s.start, s.end), Lasts(s);
    assert n == d.sec * BILLION + d.nsec && 0 <= d.nsec < BILLION;
    assert n / BILLION == d.sec && n % BILLION == d.nsec;
  }

  function Track(st: Stats, first: bool, lim: Time, s: Sample): Stats {
    var d := Difference(s.start, s.end);
    var b := if first then RESET else st;
    if !Accepted(lim, s) then b
    else if first then Stats(d, d, d)
    else Stats(Sum(b.total, d), if Less(d, b.min) then d else b.min, if Less(b.max, d) then d else b.max)
  }

  function TrackAll(lim: Time, run: seq<Sample>): (r: Stats)
    requires run != [] && forall i :: 0 <= i < |run| ==> Sane(run[i])
    ensures Normal(r.total)
    decreases |run|
  {
    assert Sane(run[|run| - 1]);
    if |run| == 1 then Track(RESET, true, lim, run[0])
    else Track(TrackAll(lim, run[..|run| - 1]), false, lim, run[|run| - 1])
  }

  /** The intervals that count, each as seconds and nanoseconds. */
  function Intervals(lim: Time, run: seq<Sample>): (r: seq<Time>)
    requires forall i :: 0 <= i < |run| ==> Sane(run[i])
    ensures forall i :: 0 <= i < |r| ==> Normal(r[i]) && r[i].sec >= 0
    decreases |run|
  {
    if run == [] then []
    else
      var rest, last := Intervals(lim, run[..|run| - 1]), run[|run| - 1];
      if Counts(lim, last) then rest + [Time(Lasts(last) / BILLION, Lasts(last) % BILLION)] else rest
  }

  function Total(ts: seq<Time>): int
    decreases |ts|
  {
    if ts == [] then 0 else Total(ts[..|ts| - 1]) + Nanos(ts[|ts| - 1])
  }

  ghost predicate IsLeast(ts: seq<Time>, t: Time) { t in ts && forall i :: 0 <= i < |ts| ==> !Less(ts[i], t) }

  ghost predicate IsGreatest(ts: seq<Time>, t: Time) { t in ts && forall i :: 0 <= i < |ts| ==> !Less(t, ts[i]) }

  /** The start value of the minimum is not below this interval. */
  predicate Short(t: Time) { t.sec <= NEVER }

  /** When the reported minimum can be trusted: it was set by the first sample, or some
      interval is short enough to replace its start value. */
  ghost predicate Trusted(lim: Time, run: seq<Sample>)
    requires run != [] && forall i :: 0 <= i < |run| ==> Sane(run[i])
  {
    Counts(lim, run[0]) || exists t :: t in Intervals(lim, run) && Short(t)
  }

  ghost predicate Right(st: Stats, ts: seq<Time>, trusted: bool) {
    && Nanos(st.total) == Total(ts)
    && (if ts == [] then st == RESET else IsGreatest(ts, st.max))
    && (if trusted then IsLeast(ts, st.min) else st.min == RESET.min)
  }

  ghost predicate AllNormal(ts: seq<Time>) { forall i :: 0 <= i < |ts| ==> Normal(ts[i]) && ts[i].sec >= 0 }

  ghost predicate AllLong(ts: seq<Time>) { forall i :: 0 <= i < |ts| ==> !Short(ts[i]) }

  lemma LeastNext(min: Time, ts: seq<Time>, trusted: bool, d: Time)
    requires AllNormal(ts) && Normal(d) && (if trusted then IsLeast(ts, min) else min == RESET.min && AllLong(ts))
    ensures var next := if Less(d, min) then d else min;
            if trusted || Short(d) then IsLeast(ts + [d], next) else next == RESET.min && AllLong(ts + [d])
  {
    var us := ts + [d];
    assert us[|ts|] == d && forall i :: 0 <= i < |ts| ==> us[i] == ts[i];
    if trusted {
      var k :| 0 <= k < |ts| && ts[k] == min;
      assert us[k] == min;
    }
  }

  lemma GreatestNext(max: Time, ts: seq<Time>, d: Time)
    requires if ts == [] then max == RESET.max && Normal(d) && d.sec >= 0 else IsGreatest(ts, max)
    ensures IsGreatest(ts + [d], if Less(max, d) then d else max)
  {
    var us := ts + [d];
    assert us[|ts|] == d && forall i :: 0 <= i < |ts| ==> us[i] == ts[i];
    if ts != [] {
      var k :| 0 <= k < |ts| && ts[k] == max;
      assert us[k] == max;
    }
  }

  lemma StepRight(st: Stats, ts: seq<Time>, trusted: bool, lim: Time, s: Sample)
    requires Sane(s) && Accepted(lim, s) && Normal(st.total) && AllNormal(ts)
    requires Right(st, ts, trusted) && (!trusted ==> AllLong(ts))
    ensures var d := Difference(s.start, s.end);
            Right(Track(st, false, lim, s), ts + [d], trusted || Short(d)) && (Short(d) || trusted || AllLong(ts + [d]))
  {
    var d := Difference(s.start, s.end);
    LeastNext(st.min, ts, trusted, d);
    GreatestNext(st.max, ts, d);
    assert (ts + [d])[..|ts|] == ts;
    assert Total(ts + [d]) == Total(ts) + Nanos(d);
  }

  lemma {:induction false} TrackedRight(lim: Time, run: seq<Sample>)
    requires run != [] && forall i :: 0 <= i < |run| ==> Sane(run[i])
    ensures Right(TrackAll(lim, run), Intervals(lim, run), Trusted(lim, run))
    ensures !Trusted(lim, run) ==> AllLong(Intervals(lim, run))
    decreases |run|
  {
    var ts := Intervals(lim, run);
    var before, last := run[..|run| - 1], run[|run| - 1];
    AcceptedIff(lim, last);
    hide Accepted, Difference, Counts, Lasts;
    if |run| == 1 {
      assert before == [];
      if Accepted(lim, last) {
        var d := Difference(last.start, last.end);
        assert ts == [d] && ts[..0] == [] && Total([]) == 0;
        assert d in ts && !Less(d, d);
      }
    } else {
      TrackedRight(lim, before);
      assert before[0] == run[0];
      if Accepted(lim, last) {
        var us, d := Intervals(lim, before), Difference(last.start, last.end);
        StepRight(TrackAll(lim, before), us, Trusted(lim, before), lim, last);
        TrustedNext(lim, run, before, us, d);
      }
    }
  }

  lemma TrustedNext(lim: Time, run: seq<Sample>, before: seq<Sample>, us: seq<Time>, d: Time)
    requires |run| > 1 && forall i :: 0 <= i < |run| ==> Sane(run[i])
    requires before == run[..|run| - 1] && us == Intervals(lim, before) && Intervals(lim, run) == us + [d]
    ensures Trusted(lim, run) <==> Trusted(lim, before) || Short(d)
  {
    assert before[0] == run[0];
    assert forall t :: t in us + [d] <==> t in us || t == d;
  }

  /** After any series of samples the total is the sum and the maximum the greatest of the
      accepted intervals; the minimum is the least of them exactly when it can be trusted.
      With a limit of at most 0xFFFFFFFF seconds it always can. */
  lemma StatisticsAreRight(lim: Time, run: seq<Sample>)
    requires run != [] && forall i :: 0 <= i < |run| ==> Sane(run[i])
    requires Intervals(lim, run) != []
    ensures var st, ts := TrackAll(lim, run), Intervals(lim, run);
            && Nanos(st.total) == Total(ts) && IsGreatest(ts, st.max)
            && (IsLeast(ts, st.min) <==> Trusted(lim, run))
            && (lim.sec <= NEVER ==> Trusted(lim, run))
  {
    TrackedRight(lim, run);
    var ts := Intervals(lim, run);
    WithinLimit(lim, run);
    assert ts[0] in ts;
  }

  lemma {:induction false} WithinLimit(lim: Time, run: seq<Sample>)
    requires forall i :: 0 <= i < |run| ==> Sane(run[i])
    ensures forall i :: 0 <= i < |Intervals(lim, run)| ==> Intervals(lim, run)[i].sec <= lim.sec
    decreases |run|
  {
    if run != [] {
      WithinLimit(lim, run[..|run| - 1]);
    }
  }

  lemma {:induction false} TotalBounds(ts: seq<Time>, min: int, max: int)
    requires forall i :: 0 <= i < |ts| ==> min <= Nanos(ts[i]) <= max
    ensures min * |ts| <= Total(ts) <= max * |ts|
    decreases |ts|
  {
    if ts != [] {
      TotalBounds(ts[..|ts| - 1], min, max);
      assert min * |ts| == min * (|ts| - 1) + min && max * |ts| == max * (|ts| - 1) + max;
    }
  }

  lemma AtMost(ts: seq<Time>, max: Time)
    requires AllNormal(ts) && IsGreatest(ts, max)
    ensures Nanos(max) >= 0 && Total(ts) <= Nanos(max) * |ts|
  {
    forall i | 0 <= i < |ts| ensures 0 <= Nanos(ts[i]) <= Nanos(max) {
      LessIsLess(max, ts[i]);
    }
    hide Nanos;
    TotalBounds(ts, 0, Nanos(max));
  }

  lemma AtLeast(ts: seq<Time>, min: Time, max: Time)
    requires AllNormal(ts) && IsLeast(ts, min) && IsGreatest(ts, max)
    ensures Nanos(min) >= 0 && Nanos(min) * |ts| <= Total(ts)
  {
    forall i | 0 <= i < |ts| ensures Nanos(min) <= Nanos(ts[i]) <= Nanos(max) {
      LessIsLess(ts[i], min);
      LessIsLess(max, ts[i]);
    }
    hide Nanos;
    TotalBounds(ts, Nanos(min), Nanos(max));
  }

  lemma {:induction false} TotalNat(ts: seq<Time>)
    requires AllNormal(ts)
    ensures Total(ts) >= 0
    decreases |ts|
  {
    if ts != [] {
      TotalNat(ts[..|ts| - 1]);
    }
  }

  /** The average is at most the greatest interval.  It is at least the least one exactly when
      the total, cut to sixty-four bits, still allows that: always if it fits. */
  lemma MeanBetween(lim: Time, run: seq<Sample>)
    requires run != [] && (forall i :: 0 <= i < |run| ==> Sane(run[i])) && Intervals(lim, run) != []
    ensures var st, ts := TrackAll(lim, run), Intervals(lim, run);
            var mean := Nanos(Quotient(st.total, |ts|));
            && mean <= Nanos(st.max)
            && (Trusted(lim, run) ==> (Nanos(st.min) <= mean <==> Nanos(st.min) * |ts| <= Total(ts) % WORD))
            && (Trusted(lim, run) && Total(ts) < WORD ==> Nanos(st.min) <= mean)
  {
    var st, ts := TrackAll(lim, run), Intervals(lim, run);
    hide TrackAll, Trusted, Total, Quotient, Nanos, IsLeast, IsGreatest;
    TrackedRight(lim, run);
    TotalNat(ts);
    AtMost(ts, st.max);
    CutDown(Total(ts));
    if Trusted(lim, run) {
      AtLeast(ts, st.min, st.max);
      QuotientBetween(Total(ts) % WORD, Nanos(st.min), Nanos(st.max), |ts|);
    } else {
      QuotientHigh(Total(ts) % WORD, Nanos(st.max), |ts|);
    }
  }

  lemma CutDown(n: nat)
    ensures 0 <= n % WORD <= n && (n < WORD ==> n % WORD == n)
  {
  }

  /** One interval of two to the sixty-four nanoseconds: the average is zero. */
  lemma MeanBelowLeast(s: Sample, lim: Time)
    requires s.start == Time(0, 0) && s.end == Time(18446744073, 709551616) && lim.sec > 18446744073
    ensures Sane(s) && Intervals(lim, [s]) == [s.end]
    ensures var st := TrackAll(lim, [s]); st.min == s.end && Nanos(Quotient(st.total, 1)) == 0 < Nanos(st.min)
  {
    assert [s][..0] == [];
    assert Intervals(lim, []) == [];
    assert Nanos(s.end) == WORD;
  }

  /** The caller's three results, updated in place. */
  class Tracker {
    var total: Time
    var min: Time
    var max: Time

    ghost function Model(): Stats
      reads this
    {
      Stats(total, min, max)
    }

    constructor ()
      ensures Model() == RESET
    {
      total, min, max := RESET.total, RESET.min, RESET.max;
    }

    method TrackLim(i: int, lim: Time, s: Sample)
      modifies this
      ensures Model() == Track(old(Model()), i == 0, lim, s)
    {
      var dta := Difference(s.start, s.end);
      if i == 0 {
        total, min, max := Time(0, 0), Time(NEVER, NEVER), Time(0, 0);
      }
      if dta.sec < 0 || dta.nsec < 0 { return; }
      if dta.sec > lim.sec || (dta.sec == lim.sec && dta.nsec > lim.nsec) { return; }
      if i != 0 {
        total := Sum(total, dta);
        if min.sec > dta.sec || (min.sec == dta.sec && min.nsec > dta.nsec) { min := dta; }
        if max.sec < dta.sec || (max.sec == dta.sec && max.nsec < dta.nsec) { max := dta; }
      } else {
        total, min, max := dta, dta, dta;
      }
    }
  }
}
