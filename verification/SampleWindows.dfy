/** The samples of the feedback loop: coordinator/utils.go and coordinator/coordinator.go:75-110. */
module SampleWindows {
  import opened Wrappers
  import opened LeastSquares

  /** The slope below which the load-test is done, in users per second. */
  const STOP_THRESHOLD := 0.1

  /** k is the last sample at least d older than the newest one, or 0 where there is none. */
  predicate IsLatestStart(s: seq<Point>, d: int, k: nat) {
    && k < |s|
    && (k == 0 || d <= s[|s| - 1].x - s[k].x)
    && forall i | k < i < |s| :: s[|s| - 1].x - s[i].x < d
  }

  lemma LatestStartUnique(s: seq<Point>, d: int, k: nat, k': nat)
    requires IsLatestStart(s, d, k) && IsLatestStart(s, d, k')
    ensures k == k'
  {
  }

  /** Scans back from the newest sample to the first one that is old enough. */
  method GetLatestSamples(s: seq<Point>, d: int) returns (k: nat)
    ensures if s == [] then k == 0 else IsLatestStart(s, d, k)
  {
    k := 0;
    if s == [] {
      return;
    }
    var last := s[|s| - 1];
    for i := |s| downto 0
      invariant k == 0
      invariant forall j | i <= j < |s| :: last.x - s[j].x < d
    {
      if last.x - s[i].x >= d {
        k := i;
        break;
      }
    }
  }

  function StartFrom(s: seq<Point>, d: int, i: nat): (k: nat)
    requires i < |s|
    requires forall j | i < j < |s| :: s[|s| - 1].x - s[j].x < d
    ensures IsLatestStart(s, d, k)
  {
    if i == 0 || d <= s[|s| - 1].x - s[i].x then i else StartFrom(s, d, i - 1)
  }

  /** The samples of the time range that ends with the newest one. */
  function Latest(s: seq<Point>, d: int): seq<Point> {
    if s == [] then [] else s[StartFrom(s, d, |s| - 1)..]
  }

  lemma LatestIs(s: seq<Point>, d: int, k: nat)
    requires s != [] && IsLatestStart(s, d, k)
    ensures Latest(s, d) == s[k..]
  {
    LatestStartUnique(s, d, k, StartFrom(s, d, |s| - 1));
  }

  /** What the buffer becomes when it holds twice the samples that are needed. */
  function Trimmed(s: seq<Point>, d: int): seq<Point> {
    if 2 * |Latest(s, d)| <= |s| then Latest(s, d) else s
  }

  function WindowSlope(s: seq<Point>): Option<real> {
    SlopeOf(Coords(s, FirstSecond(s)))
  }

  predicate Flat(r: Option<real>) {
    r.Some? && -STOP_THRESHOLD < r.value < STOP_THRESHOLD
  }

  /** The loop's test for being done. */
  predicate Done(s: seq<Point>, d: int) {
    0 < |Latest(s, d)| < |s| && Flat(WindowSlope(Latest(s, d)))
  }

  /** What is left of the history after trimming at every sample. */
  function Buffer(history: seq<Point>, d: int): seq<Point> {
    if history == [] then []
    else Trimmed(Buffer(history[..|history| - 1], d) + [history[|history| - 1]], d)
  }

  // ----- trimming loses nothing that is needed -----

  predicate NonDecreasing(s: seq<Point>) {
    forall i, j | 0 <= i <= j < |s| :: s[i].x <= s[j].x
  }

  /** b is the history from sample j on, and j is no later than the window's start. */
  ghost predicate Covers(b: seq<Point>, history: seq<Point>, j: nat) {
    j <= |history| && b == history[j..]
  }

  lemma SameWindow(b: seq<Point>, history: seq<Point>, d: int, j: nat, k: nat)
    requires Covers(b, history, j) && IsLatestStart(history, d, k) && j <= k
    ensures Latest(b, d) == Latest(history, d) == history[k..]
    ensures |b| == |history| - j
  {
    LatestIs(history, d, k);
    LatestIs(b, d, k - j);
  }

  lemma StartMoves(history: seq<Point>, p: Point, d: int, k: nat, k': nat)
    requires NonDecreasing(history + [p])
    requires IsLatestStart(history, d, k) && IsLatestStart(history + [p], d, k')
    ensures k <= k'
  {
    var next := history + [p];
    assert next[|history| - 1].x <= next[|history|].x;
    assert k < |next| && next[k] == history[k];
  }

  lemma {:induction false} BufferIsSuffix(history: seq<Point>, d: int) returns (j: nat, k: nat)
    requires history != [] && NonDecreasing(history)
    ensures Covers(Buffer(history, d), history, j) && IsLatestStart(history, d, k) && j <= k
    decreases |history|, 0
  {
    hide NonDecreasing, IsLatestStart;
    var init, p := history[..|history| - 1], history[|history| - 1];
    assert init + [p] == history;
    j, k := OneMoreSample(init, p, d);
    SameWindow(Buffer(init, d) + [p], history, d, j, k);
    if 2 * (|history| - k) <= |history| - j {
      j := k;
    }
  }

  /** One more sample is appended to the buffer: it still reaches back to the start of the window. */
  lemma {:induction false} OneMoreSample(history: seq<Point>, p: Point, d: int) returns (j: nat, k: nat)
    requires NonDecreasing(history + [p])
    ensures Covers(Buffer(history, d) + [p], history + [p], j)
    ensures IsLatestStart(history + [p], d, k) && j <= k <= |history|
    decreases |history|, 1
  {
    hide NonDecreasing, IsLatestStart;
    k := StartOf(history + [p], d);
    if history == [] {
      j := 0;
    } else {
      PrefixNonDecreasing(history, p);
      var before;
      j, before := BufferIsSuffix(history, d);
      StartMoves(history, p, d, before, k);
    }
  }

  lemma StartOf(s: seq<Point>, d: int) returns (k: nat)
    requires s != []
    ensures IsLatestStart(s, d, k) && k < |s|
  {
    k := StartFrom(s, d, |s| - 1);
  }

  lemma PrefixNonDecreasing(history: seq<Point>, p: Point)
    requires NonDecreasing(history + [p])
    ensures NonDecreasing(history)
  {
    forall i, j | 0 <= i <= j < |history| ensures history[i].x <= history[j].x {
      assert (history + [p])[i] == history[i] && (history + [p])[j] == history[j];
    }
  }

  /** The trimmed buffer has the same latest window as the history of all samples ever taken. */
  lemma SameLatest(history: seq<Point>, p: Point, d: int)
    requires NonDecreasing(history + [p])
    ensures Latest(Buffer(history, d) + [p], d) == Latest(history + [p], d)
  {
    hide NonDecreasing, IsLatestStart, Covers, Latest;
    var j, k := OneMoreSample(history, p, d);
    SameWindow(Buffer(history, d) + [p], history + [p], d, j, k);
  }

  /** The loop is done exactly when it would be without trimming and the buffer holds more than the window. */
  lemma DoneExactly(history: seq<Point>, p: Point, d: int)
    requires NonDecreasing(history + [p])
    ensures Done(Buffer(history, d) + [p], d)
            <==> Done(history + [p], d) && |Latest(history + [p], d)| < |Buffer(history, d)| + 1
  {
    hide NonDecreasing, Latest, WindowSlope, Flat;
    SameLatest(history, p, d);
    BufferNotLonger(history, d);
  }

  lemma {:induction false} BufferNotLonger(history: seq<Point>, d: int)
    ensures |Buffer(history, d)| <= |history|
  {
    hide Latest;
    if history != [] {
      BufferNotLonger(history[..|history| - 1], d);
      LatestNotLonger(Buffer(history[..|history| - 1], d) + [history[|history| - 1]], d);
    }
  }

  lemma LatestNotLonger(s: seq<Point>, d: int)
    ensures |Latest(s, d)| <= |s|
    ensures s != [] ==> 0 < |Latest(s, d)|
  {
  }

  /** After trimming, the buffer is shorter than twice the window. */
  lemma TrimmedBound(s: seq<Point>, d: int)
    requires s != [] && 0 < d
    ensures |Trimmed(s, d)| < 2 * |Latest(s, d)|
    ensures Latest(Trimmed(s, d), d) == Latest(s, d)
  {
    var k := StartOf(s, d);
    LatestIs(s, d, k);
    LatestIs(s[k..], d, 0);
  }

  // ----- the documented range -----

  /** How much older sample i is than the newest one. */
  function Age(s: seq<Point>, i: nat): int
    requires i < |s|
  {
    s[|s| - 1].x - s[i].x
  }

  /** A sample of the time range of length d that ends with the newest one. */
  predicate InTimeRange(s: seq<Point>, d: int, i: nat)
    requires i < |s|
  {
    Age(s, i) <= d
  }

  /** The samples from k on are exactly those of the time range. */
  ghost predicate IsTimeRange(s: seq<Point>, d: int, k: nat) {
    forall i: nat | i < |s| :: InTimeRange(s, d, i) <==> k <= i
  }

  ghost predicate OnlyOneOfAge(s: seq<Point>, d: int, i: nat)
    requires i < |s|
  {
    Age(s, i) == d && forall j: nat | j < |s| && j != i :: Age(s, j) != d
  }

  /** Every sample is younger than d, or exactly one is of that age. */
  ghost predicate HitsTimeRange(s: seq<Point>, d: int) {
    || (forall i: nat | i < |s| :: Age(s, i) < d)
    || (exists i: nat :: i < |s| && OnlyOneOfAge(s, d, i))
  }

  /** The window is the documented time range if and only if every sample is younger than that, or exactly
      one is just as old. */
  lemma WindowIsTimeRange(s: seq<Point>, d: int, k: nat)
    requires NonDecreasing(s) && IsLatestStart(s, d, k)
    ensures IsTimeRange(s, d, k) <==> HitsTimeRange(s, d)
  {
    if IsTimeRange(s, d, k) {
      assert InTimeRange(s, d, k);
      RangeHits(s, d, k);
    }
    if HitsTimeRange(s, d) {
      HitIsRange(s, d, k);
    }
  }

  lemma RangeHits(s: seq<Point>, d: int, k: nat)
    requires IsLatestStart(s, d, k) && IsTimeRange(s, d, k) && InTimeRange(s, d, k)
    ensures HitsTimeRange(s, d)
  {
    if Age(s, k) == d {
      forall j: nat | j < |s| && j != k ensures Age(s, j) != d {
        assert InTimeRange(s, d, j) <==> k <= j;
      }
      assert OnlyOneOfAge(s, d, k);
    }
  }

  lemma HitIsRange(s: seq<Point>, d: int, k: nat)
    requires NonDecreasing(s) && IsLatestStart(s, d, k) && HitsTimeRange(s, d)
    ensures IsTimeRange(s, d, k)
  {
    if i: nat :| i < |s| && OnlyOneOfAge(s, d, i) {
      assert i <= k;
      assert Age(s, k) <= Age(s, i);
      assert i == k;
      forall j: nat | j < |s| ensures InTimeRange(s, d, j) <==> k <= j {
        if j < k {
          assert Age(s, j) >= Age(s, k);
        }
      }
    } else {
      assert Age(s, k) < d;
    }
  }

  /** Samples at 0, 29 and 35 minutes: none is thirty minutes old, and the window starts with the first of
      them, five minutes too old. */
  lemma OlderThanTimeRange()
    ensures var s := [SampleAt(0, 0), SampleAt(29, 0), SampleAt(35, 0)];
            && NonDecreasing(s) && IsLatestStart(s, SAMPLES_TIME_RANGE, 0)
            && !HitsTimeRange(s, SAMPLES_TIME_RANGE) && !InTimeRange(s, SAMPLES_TIME_RANGE, 0)
  {
    var s := [SampleAt(0, 0), SampleAt(29, 0), SampleAt(35, 0)];
    assert Age(s, 0) == 5 * 60 * NANOS_PER_SECOND + SAMPLES_TIME_RANGE;
    assert !IsTimeRange(s, SAMPLES_TIME_RANGE, 0) by {
      assert !InTimeRange(s, SAMPLES_TIME_RANGE, 0);
    }
    WindowIsTimeRange(s, SAMPLES_TIME_RANGE, 0);
  }

  /** Where the stop test looks at the slope, the window spans the range and the slope is a number. */
  lemma SlopeDefined(s: seq<Point>, d: int)
    requires NANOS_PER_SECOND <= d && 0 < |Latest(s, d)| < |s|
    ensures WindowSlope(Latest(s, d)).Some?
  {
    hide SlopeOf, Coords;
    var w := Latest(s, d);
    var k := StartOf(s, d);
    LatestIs(s, d, k);
    assert w[0] == s[k] && w[|w| - 1] == s[|s| - 1];
    SecondsApart(w[0].x, w[|w| - 1].x);
    DefinedExactly(w, FirstSecond(w));
  }

  lemma SecondsApart(t: int, t': int)
    requires NANOS_PER_SECOND <= t' - t
    ensures Unix(t) < Unix(t')
  {
  }

  /** Every other line is further from the points, in the sum of squares. */
  ghost predicate IsBestLine(c: seq<XY>, a: real, b: real) {
    forall a', b' :: a' != a || b' != b ==> SquaredError(c, a, b) < SquaredError(c, a', b')
  }

  /** The line with the computed slope is the best one. */
  lemma SlopeIsBest(c: seq<XY>, b: real) returns (a: real)
    requires SlopeOf(c) == Some(b)
    ensures IsBestLine(c, a, b)
    ensures forall a', b' :: IsBestLine(c, a', b') ==> b' == b
  {
    hide SlopeOf, MomentsOf, SquaredError, Intercept;
    BestFit(c, b, 0.0, 0.0);
    a := Intercept(MomentsOf(c), b);
    forall a', b' | a' != a || b' != b ensures SquaredError(c, a, b) < SquaredError(c, a', b') {
      BestFit(c, b, a', b');
    }
  }

  /** The loop is done if and only if the buffer holds more than the window, and the line that fits the window
      best is flatter than the threshold. */
  lemma DoneMeans(s: seq<Point>, d: int)
    requires NANOS_PER_SECOND <= d
    ensures Done(s, d) <==> var w := Latest(s, d);
                            && 0 < |w| < |s|
                            && exists a, b :: IsBestLine(Coords(w, FirstSecond(w)), a, b)
                                              && -STOP_THRESHOLD < b < STOP_THRESHOLD
  {
    hide IsBestLine, SlopeOf, MomentsOf, Intercept, Latest;
    var w := Latest(s, d);
    if 0 < |w| < |s| {
      var c := Coords(w, FirstSecond(w));
      SlopeDefined(s, d);
      var b := SlopeOf(c).value;
      var a := SlopeIsBest(c, b);
    }
  }

  // ----- a run that only stops without trimming -----

  /** The time range of the loop: thirty minutes. */
  const SAMPLES_TIME_RANGE := 1800 * NANOS_PER_SECOND

  function SampleAt(minute: nat, users: nat): Point {
    Point(minute * 60 * NANOS_PER_SECOND, users)
  }

  const EARLIER := [SampleAt(0, 0), SampleAt(30, 600), SampleAt(60, 200), SampleAt(90, 600)]
  const FINAL := SampleAt(100, 40)
  const FIRST_WINDOW := [SampleAt(30, 600), SampleAt(60, 200)]
  const SECOND_WINDOW := [SampleAt(60, 200), SampleAt(90, 600)]
  const FINAL_WINDOW := [SampleAt(60, 200), SampleAt(90, 600), SampleAt(100, 40)]

  lemma FirstWindows()
    ensures Latest(EARLIER[..1], SAMPLES_TIME_RANGE) == EARLIER[..1]
    ensures Latest(EARLIER[..2], SAMPLES_TIME_RANGE) == EARLIER[..2]
    ensures Latest(EARLIER[..3], SAMPLES_TIME_RANGE) == FIRST_WINDOW
  {
    hide Latest;
    LatestIs(EARLIER[..1], SAMPLES_TIME_RANGE, 0);
    LatestIs(EARLIER[..2], SAMPLES_TIME_RANGE, 0);
    LatestIs(EARLIER[..3], SAMPLES_TIME_RANGE, 1);
    assert EARLIER[..3][1..] == FIRST_WINDOW;
  }

  lemma LastWindows()
    ensures Latest(EARLIER, SAMPLES_TIME_RANGE) == SECOND_WINDOW == EARLIER[2..]
    ensures Latest(EARLIER + [FINAL], SAMPLES_TIME_RANGE) == FINAL_WINDOW
  {
    hide Latest;
    LatestIs(EARLIER, SAMPLES_TIME_RANGE, 2);
    LatestIs(EARLIER + [FINAL], SAMPLES_TIME_RANGE, 2);
    assert (EARLIER + [FINAL])[2..] == FINAL_WINDOW;
  }

  lemma CoordsOfExample()
    ensures Coords(FIRST_WINDOW, FirstSecond(FIRST_WINDOW)) == [XY(0.0, 600.0), XY(1800.0, 200.0)]
    ensures Coords(SECOND_WINDOW, FirstSecond(SECOND_WINDOW)) == [XY(0.0, 200.0), XY(1800.0, 600.0)]
    ensures Coords(FINAL_WINDOW, FirstSecond(FINAL_WINDOW)) == [XY(0.0, 200.0), XY(1800.0, 600.0), XY(2400.0, 40.0)]
  {
  }

  lemma TwoMoments(p: XY, q: XY)
    ensures MomentsOf([p, q]) == Moments(2.0, p.x + q.x, p.y + q.y, Times(p.x, p.x) + Times(q.x, q.x),
                                         Times(p.x, p.y) + Times(q.x, q.y))
  {
    hide MomentsOf, Times;
    EmptyMoments([p, q]);
    PrefixMoments([p, q], 0);
    PrefixMoments([p, q], 1);
    assert [p, q][..2] == [p, q];
  }

  lemma ThreeMoments(p: XY, q: XY, r: XY)
    ensures MomentsOf([p, q, r]) == Extend(MomentsOf([p, q]), r)
  {
    hide Extend;
    assert [p, q, r][..2] == [p, q];
  }

  /** The products that occur in the example. */
  lemma Products()
    ensures Times(0.0, 0.0) == Times(0.0, 200.0) == Times(0.0, 600.0) == 0.0
    ensures Times(1800.0, 1800.0) == 3240000.0 && Times(2400.0, 2400.0) == 5760000.0
    ensures Times(1800.0, 200.0) == 360000.0 && Times(1800.0, 600.0) == 1080000.0 && Times(2400.0, 40.0) == 96000.0
    ensures Times(1800.0, 800.0) == 1440000.0 && Times(4200.0, 840.0) == 3528000.0
    ensures Times(4200.0, 4200.0) == 17640000.0
    ensures Times(2.0, 360000.0) == 720000.0 && Times(2.0, 1080000.0) == 2160000.0
    ensures Times(2.0, 3240000.0) == 6480000.0
    ensures Times(3.0, 1176000.0) == 3528000.0 && Times(3.0, 9000000.0) == 27000000.0
  {
  }

  lemma SlopeFrom(s: seq<Point>, m: Moments, numerator: real, denominator: real)
    requires MomentsOf(Coords(s, FirstSecond(s))) == m
    requires Numerator(m) == numerator && Denominator(m) == denominator && denominator != 0.0
    ensures WindowSlope(s) == Some(numerator / denominator)
  {
    hide MomentsOf, Coords, FirstSecond, Numerator, Denominator;
  }

  lemma SlopesOfExample()
    ensures WindowSlope(FIRST_WINDOW) == Some(-720000.0 / 3240000.0)
    ensures WindowSlope(SECOND_WINDOW) == Some(720000.0 / 3240000.0)
    ensures WindowSlope(FINAL_WINDOW) == Some(0.0 / 9360000.0)
  {
    hide FIRST_WINDOW, SECOND_WINDOW, FINAL_WINDOW, WindowSlope, MomentsOf, Coords, FirstSecond, Times;
    CoordsOfExample();
    Products();
    TwoMoments(XY(0.0, 600.0), XY(1800.0, 200.0));
    TwoMoments(XY(0.0, 200.0), XY(1800.0, 600.0));
    ThreeMoments(XY(0.0, 200.0), XY(1800.0, 600.0), XY(2400.0, 40.0));
    SlopeFrom(FIRST_WINDOW, Moments(2.0, 1800.0, 800.0, 3240000.0, 360000.0), -720000.0, 3240000.0);
    SlopeFrom(SECOND_WINDOW, Moments(2.0, 1800.0, 800.0, 3240000.0, 1080000.0), 720000.0, 3240000.0);
    SlopeFrom(FINAL_WINDOW, Moments(3.0, 4200.0, 840.0, 9000000.0, 1176000.0), 0.0, 9360000.0);
  }

  lemma FlatOnlyAtTheEnd()
    ensures !Flat(WindowSlope(FIRST_WINDOW)) && !Flat(WindowSlope(SECOND_WINDOW)) && Flat(WindowSlope(FINAL_WINDOW))
  {
    hide FIRST_WINDOW, SECOND_WINDOW, FINAL_WINDOW, WindowSlope;
    SlopesOfExample();
  }

  lemma BufferOfExample()
    ensures Buffer(EARLIER[..1], SAMPLES_TIME_RANGE) == EARLIER[..1]
    ensures Buffer(EARLIER[..2], SAMPLES_TIME_RANGE) == EARLIER[..2]
    ensures Buffer(EARLIER[..3], SAMPLES_TIME_RANGE) == EARLIER[..3]
    ensures Buffer(EARLIER, SAMPLES_TIME_RANGE) == EARLIER[2..]
  {
    hide Latest, EARLIER;
    FirstWindows();
    LastWindows();
    ExampleLength();
    BufferStep(EARLIER, 0);
    BufferStep(EARLIER, 1);
    BufferStep(EARLIER, 2);
    BufferStep(EARLIER, 3);
    assert EARLIER[..4] == EARLIER;
  }

  lemma ExampleLength()
    ensures |EARLIER| == 4
  {
  }

  lemma BufferStep(s: seq<Point>, i: nat)
    requires i < |s|
    requires Buffer(s[..i], SAMPLES_TIME_RANGE) == s[..i]
    ensures Buffer(s[..i + 1], SAMPLES_TIME_RANGE) == Trimmed(s[..i + 1], SAMPLES_TIME_RANGE)
  {
    hide Latest, Trimmed;
    var h := s[..i + 1];
    assert h[..|h| - 1] == s[..i] && h[|h| - 1] == s[i];
    assert s[..i] + [s[i]] == h;
  }

  /** Without trimming the loop first stops at the last of these five samples. With trimming it does not stop. */
  lemma StopsOnlyUntrimmed()
    ensures NonDecreasing(EARLIER + [FINAL])
    ensures forall n | 0 < n <= |EARLIER| :: !Done(EARLIER[..n], SAMPLES_TIME_RANGE)
    ensures Done(EARLIER + [FINAL], SAMPLES_TIME_RANGE)
    ensures !Done(Buffer(EARLIER, SAMPLES_TIME_RANGE) + [FINAL], SAMPLES_TIME_RANGE)
  {
    hide WindowSlope, Flat, Latest;
    FirstWindows();
    LastWindows();
    FlatOnlyAtTheEnd();
    BufferOfExample();
    DoneExactly(EARLIER, FINAL, SAMPLES_TIME_RANGE);
    assert EARLIER[..4] == EARLIER;
  }
}
