/**
 * The four sample arrays of a velocity model (time, velocity, displacement and
 * sampling rate), specified from scratch over the values of the steps that
 * were expanded into them, in the order they were added.
 *
 * Every step contributes the offset ladder 1/Fs, 2/Fs, ..., n/Fs with
 * n = ceil(duration * Fs).  Here a segment's time samples are shifted by the
 * total time of the segments before it (`Elapsed`) and its displacement
 * samples by the total displacement before it (`Travel`), instead of by the
 * last sample already present as the builder does; `LastSample` proves that
 * both give the same numbers.
 */
module Schedule {

  /** The values of a step at the moment it is expanded. */
  datatype Segment = Segment(velocity: real, duration: real, fs: real)

  /** The four parallel sample arrays. */
  datatype Series = Series(time: seq<real>, velocity: seq<real>, displacement: seq<real>, sampling: seq<real>)

  predicate Aligned(s: Series) {
    |s.time| == |s.velocity| == |s.displacement| == |s.sampling|
  }

  /** Every segment has a sampling rate that 1/Fs can be taken of. */
  predicate Sampled(segs: seq<Segment>) {
    forall i :: 0 <= i < |segs| ==> segs[i].fs != 0.0
  }

  /** Every segment has a positive sampling rate. */
  predicate Forward(segs: seq<Segment>) {
    forall i :: 0 <= i < |segs| ==> segs[i].fs > 0.0
  }

  function Last(xs: seq<real>): real
    requires xs != []
  {
    xs[|xs| - 1]
  }

  /** The least integer that is not below x. */
  function Ceiling(x: real): (c: int)
    ensures x <= c as real < x + 1.0
  {
    var f := x.Floor;
    if f as real == x then f else f + 1
  }

  /**
   * The number of points of np.arange(1/Fs, duration + 1/Fs, 1/Fs) in exact
   * arithmetic: the least natural number not below duration * Fs.
   */
  function SampleCount(duration: real, fs: real): (n: nat)
    ensures duration * fs <= n as real
    ensures n > 0 ==> (n - 1) as real < duration * fs
  {
    var x := duration * fs;
    if x <= 0.0 then 0 else Ceiling(x)
  }

  function Count(s: Segment): nat {
    SampleCount(s.duration, s.fs)
  }

  /** The offsets 1/Fs, 2/Fs, ..., n/Fs. */
  function Ladder(n: nat, fs: real): seq<real>
    requires fs != 0.0
  {
    seq(n, k requires 0 <= k < n => (k + 1) as real / fs)
  }

  function Shift(offset: real, xs: seq<real>): seq<real> {
    seq(|xs|, i requires 0 <= i < |xs| => offset + xs[i])
  }

  function Scale(xs: seq<real>, factor: real): seq<real> {
    seq(|xs|, i requires 0 <= i < |xs| => xs[i] * factor)
  }

  function Constant(n: nat, x: real): seq<real> {
    seq(n, _ => x)
  }

  /** The time one segment's ladder spans: n/Fs. */
  function Span(s: Segment): real
    requires s.fs != 0.0
  {
    Count(s) as real / s.fs
  }

  /** The displacement over one segment's ladder: n/Fs * velocity. */
  function Reach(s: Segment): real
    requires s.fs != 0.0
  {
    Span(s) * s.velocity
  }

  /** The time spanned by the ladders of segs: the sum of n/Fs. */
  function Elapsed(segs: seq<Segment>): real
    requires Sampled(segs)
  {
    if segs == [] then 0.0
    else
      var s := segs[|segs| - 1];
      Elapsed(segs[..|segs| - 1]) + Span(s)
  }

  /** The displacement accumulated over the ladders of segs: the sum of (n/Fs) * velocity. */
  function Travel(segs: seq<Segment>): real
    requires Sampled(segs)
  {
    if segs == [] then 0.0
    else
      var s := segs[|segs| - 1];
      Travel(segs[..|segs| - 1]) + Reach(s)
  }

  /** The number of samples of all segments together. */
  function TotalCount(segs: seq<Segment>): nat {
    if segs == [] then 0 else TotalCount(segs[..|segs| - 1]) + Count(segs[|segs| - 1])
  }

  /** The sample arrays that expanding segs one after the other produces. */
  function Expand(segs: seq<Segment>): (r: Series)
    requires Sampled(segs)
    ensures Aligned(r)
    ensures |r.time| == TotalCount(segs)
  {
    if segs == [] then Series([], [], [], [])
    else
      var prior := segs[..|segs| - 1];
      var s := segs[|segs| - 1];
      var e := Expand(prior);
      var ladder := Ladder(Count(s), s.fs);
      Series(e.time + Shift(Elapsed(prior), ladder),
             e.velocity + Constant(Count(s), s.velocity),
             e.displacement + Shift(Travel(prior), Scale(ladder, s.velocity)),
             e.sampling + Constant(Count(s), s.fs))
  }

  /** The sum of the segments' durations. */
  function TotalDuration(segs: seq<Segment>): real {
    if segs == [] then 0.0 else TotalDuration(segs[..|segs| - 1]) + segs[|segs| - 1].duration
  }

  /** The sum of the segments' velocity * duration. */
  function TotalDisplacement(segs: seq<Segment>): real {
    if segs == [] then 0.0
    else
      var s := segs[|segs| - 1];
      TotalDisplacement(segs[..|segs| - 1]) + s.velocity * s.duration
  }

  /** duration * Fs is a whole, non-negative number of sampling periods. */
  predicate WholePeriods(s: Segment) {
    s.fs != 0.0 && 0.0 <= s.duration * s.fs && (s.duration * s.fs).Floor as real == s.duration * s.fs
  }

  /**
   * The last time sample is the time spanned by all ladders, and the last
   * displacement sample is the displacement accumulated over them: shifting a
   * segment by the last sample present gives the same arrays as shifting it by
   * the totals.
   */
  lemma {:induction false} LastSample(segs: seq<Segment>)
    requires Sampled(segs)
    ensures Expand(segs).time != [] ==>
              Last(Expand(segs).time) == Elapsed(segs) &&
              Last(Expand(segs).displacement) == Travel(segs)
  {
    if segs != [] && Expand(segs).time != [] {
      var prior := segs[..|segs| - 1];
      var s := segs[|segs| - 1];
      var n := Count(s);
      var e := Expand(prior);
      if n == 0 {
        EmptySegment(e.time, e.displacement, Elapsed(prior), Travel(prior), s.fs, s.velocity);
        assert Span(s) == 0.0 && Reach(s) == 0.0;
        LastSample(prior);
      } else {
        SegmentEnd(e.time, e.displacement, Elapsed(prior), Travel(prior), s);
      }
    }
  }

  /** Appending an empty ladder changes nothing. */
  lemma EmptySegment(time: seq<real>, displacement: seq<real>, start: real, offset: real, fs: real, v: real)
    requires fs != 0.0
    ensures time + Shift(start, Ladder(0, fs)) == time
    ensures displacement + Shift(offset, Scale(Ladder(0, fs), v)) == displacement
  {
    assert Shift(start, Ladder(0, fs)) == [];
    assert Shift(offset, Scale(Ladder(0, fs), v)) == [];
  }

  /** The last samples after appending a segment's non-empty ladder shifted by start and by offset. */
  lemma SegmentEnd(time: seq<real>, displacement: seq<real>, start: real, offset: real, s: Segment)
    requires s.fs != 0.0 && Count(s) > 0
    ensures Last(time + Shift(start, Ladder(Count(s), s.fs))) == start + Span(s)
    ensures Last(displacement + Shift(offset, Scale(Ladder(Count(s), s.fs), s.velocity))) == offset + Reach(s)
  {
    var n := Count(s);
    assert ((n - 1) + 1) as real == n as real;
  }

  /** A first segment is its bare ladder: nothing is added to its offsets. */
  lemma FirstSegment(s: Segment)
    requires s.fs != 0.0
    ensures Expand([s]).time == Ladder(Count(s), s.fs)
    ensures Expand([s]).displacement == Scale(Ladder(Count(s), s.fs), s.velocity)
  {
    assert [s][..0] == [];
  }

  /**
   * Expanding one more segment after a non-empty expansion continues from its
   * last samples: the new time samples are the last time plus k/Fs and the new
   * displacement samples the last displacement plus (k/Fs) * velocity, for
   * k = 1..n, while the earlier samples stay as they were.
   */
  lemma Continuity(segs: seq<Segment>, s: Segment)
    requires Sampled(segs) && s.fs != 0.0
    requires Expand(segs).time != []
    ensures Sampled(segs + [s])
    ensures var before, after := Expand(segs), Expand(segs + [s]);
            && after.time == before.time + Shift(Last(before.time), Ladder(Count(s), s.fs))
            && after.displacement ==
                 before.displacement + Shift(Last(before.displacement), Scale(Ladder(Count(s), s.fs), s.velocity))
            && after.velocity == before.velocity + Constant(Count(s), s.velocity)
            && after.sampling == before.sampling + Constant(Count(s), s.fs)
  {
    assert (segs + [s])[..|segs|] == segs;
    LastSample(segs);
  }

  /**
   * A hold (zero velocity) after a non-empty expansion keeps displacement at
   * the last value reached before it.
   */
  lemma HoldKeepsDisplacement(segs: seq<Segment>, s: Segment)
    requires Sampled(segs) && s.fs != 0.0 && s.velocity == 0.0
    requires Expand(segs).time != []
    ensures Sampled(segs + [s])
    ensures var before, after := Expand(segs), Expand(segs + [s]);
            forall k :: |before.displacement| <= k < |after.displacement| ==>
              after.displacement[k] == Last(before.displacement)
  {
    Continuity(segs, s);
  }

  lemma PrefixOfPrefix(a: seq<real>, b: seq<real>, c: seq<real>)
    requires a <= b && b <= c
    ensures a <= c
  {
    assert forall i :: 0 <= i < |a| ==> a[i] == b[i] == c[i];
  }

  /** Expanding further segments never changes the samples already produced. */
  lemma {:induction false} ExpandPreservesPrefix(segs: seq<Segment>, more: seq<Segment>)
    requires Sampled(segs + more)
    ensures Sampled(segs)
    ensures var before, after := Expand(segs), Expand(segs + more);
            && before.time <= after.time
            && before.velocity <= after.velocity
            && before.displacement <= after.displacement
            && before.sampling <= after.sampling
  {
    assert forall i :: 0 <= i < |segs| ==> segs[i] == (segs + more)[i];
    if more == [] {
      assert segs + more == segs;
    } else {
      var init := more[..|more| - 1];
      assert (segs + more)[..|segs + more| - 1] == segs + init;
      ExpandPreservesPrefix(segs, init);
      var before, mid, after := Expand(segs), Expand(segs + init), Expand(segs + more);
      PrefixOfPrefix(before.time, mid.time, after.time);
      PrefixOfPrefix(before.velocity, mid.velocity, after.velocity);
      PrefixOfPrefix(before.displacement, mid.displacement, after.displacement);
      PrefixOfPrefix(before.sampling, mid.sampling, after.sampling);
    }
  }

  /** a / fs < b / fs when a < b and fs > 0. */
  lemma DivideKeepsOrder(a: real, b: real, fs: real)
    requires a < b && fs > 0.0
    ensures a / fs < b / fs
  {
    assert b / fs - a / fs == (b - a) / fs;
  }

  predicate Increasing(xs: seq<real>) {
    forall i, j :: 0 <= i < j < |xs| ==> xs[i] < xs[j]
  }

  /** All of xs lies in the interval (lo, hi]. */
  predicate Within(xs: seq<real>, lo: real, hi: real) {
    forall i :: 0 <= i < |xs| ==> lo < xs[i] <= hi
  }

  /** A ladder of positive rate shifted by start rises from above start to start + n/Fs. */
  lemma ShiftedLadderRises(start: real, n: nat, fs: real)
    requires fs > 0.0
    ensures 0.0 <= n as real / fs
    ensures Increasing(Shift(start, Ladder(n, fs)))
    ensures Within(Shift(start, Ladder(n, fs)), start, start + n as real / fs)
  {
    var tail := Shift(start, Ladder(n, fs));
    if n > 0 { DivideKeepsOrder(0.0, n as real, fs); }
    forall k | 0 <= k < n
      ensures start < tail[k] <= start + n as real / fs
    {
      DivideKeepsOrder(0.0, (k + 1) as real, fs);
      if k + 1 < n { DivideKeepsOrder((k + 1) as real, n as real, fs); }
    }
    forall k, l | 0 <= k < l < n
      ensures tail[k] < tail[l]
    {
      DivideKeepsOrder((k + 1) as real, (l + 1) as real, fs);
    }
  }

  /** An increasing run below mid followed by an increasing run above mid is increasing. */
  lemma ConcatIncreasing(e: seq<real>, tail: seq<real>, lo: real, mid: real, hi: real)
    requires Increasing(e) && Within(e, lo, mid)
    requires Increasing(tail) && Within(tail, mid, hi)
    requires lo <= mid <= hi
    ensures Increasing(e + tail) && Within(e + tail, lo, hi)
  {
    var t := e + tail;
    forall i, j | 0 <= i < j < |t|
      ensures t[i] < t[j]
    {
      if j < |e| {
        assert t[i] == e[i] && t[j] == e[j];
      } else if i < |e| {
        assert t[i] == e[i] <= mid;
        assert mid < tail[j - |e|] == t[j];
      } else {
        assert t[i] == tail[i - |e|] && t[j] == tail[j - |e|];
      }
    }
    forall i | 0 <= i < |t|
      ensures lo < t[i] <= hi
    {
      if i < |e| {
        assert t[i] == e[i];
      } else {
        assert t[i] == tail[i - |e|];
      }
    }
  }

  /**
   * With positive sampling rates the time samples strictly increase, across
   * step boundaries too, and none lies at time 0: all lie in (0, Elapsed].
   */
  lemma {:induction false} TimeIncreasing(segs: seq<Segment>)
    requires Forward(segs)
    ensures Sampled(segs)
    ensures 0.0 <= Elapsed(segs)
    ensures Increasing(Expand(segs).time)
    ensures Within(Expand(segs).time, 0.0, Elapsed(segs))
  {
    if segs != [] {
      var prior := segs[..|segs| - 1];
      var s := segs[|segs| - 1];
      assert Forward(prior);
      TimeIncreasing(prior);
      var start := Elapsed(prior);
      ShiftedLadderRises(start, Count(s), s.fs);
      ConcatIncreasing(Expand(prior).time, Shift(start, Ladder(Count(s), s.fs)), 0.0, start, Elapsed(segs));
    }
  }

  /**
   * The last ladder offset reaches the duration and overshoots it by less
   * than one sampling period: (n-1)/Fs < duration <= n/Fs.
   */
  lemma LadderCoversDuration(duration: real, fs: real)
    requires fs > 0.0 && duration > 0.0
    ensures var n := SampleCount(duration, fs);
            n > 0 && (n - 1) as real / fs < duration <= n as real / fs
  {
    var n := SampleCount(duration, fs);
    assert 0.0 < duration * fs;
    assert duration == (duration * fs) / fs;
    if duration * fs < n as real {
      DivideKeepsOrder(duration * fs, n as real, fs);
    }
    DivideKeepsOrder((n - 1) as real, duration * fs, fs);
  }

  /** A segment of whole sampling periods spans exactly its duration. */
  lemma WholeSegment(s: Segment)
    requires WholePeriods(s)
    ensures Count(s) as real / s.fs == s.duration
  {
    var x := s.duration * s.fs;
    assert Count(s) as real == x;
    assert x / s.fs == s.duration;
  }

  /**
   * When every step lasts a whole number of sampling periods, the samples end
   * at the sum of the durations, and at the sum of velocity * duration.
   */
  lemma {:induction false} WholePeriodsElapse(segs: seq<Segment>)
    requires forall i :: 0 <= i < |segs| ==> WholePeriods(segs[i])
    ensures Sampled(segs)
    ensures Elapsed(segs) == TotalDuration(segs)
    ensures Travel(segs) == TotalDisplacement(segs)
  {
    if segs != [] {
      var prior := segs[..|segs| - 1];
      var s := segs[|segs| - 1];
      WholePeriodsElapse(prior);
      WholeSegment(s);
    }
  }
}
