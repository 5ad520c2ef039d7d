/**
 The PCM comparator that turns a reference playlist and a callback capture into a verdict:
 the index-aligned comparison and the per-track boundary tallies. What `_wav_info` and
 `_frames` make of each file is an input here (`Source`).
 */
module PcmCompare {
  import opened CoreNotifications
  import PcmFrames
  import RiffWalk

  type Frame = PcmFrames.Frame

  /** One input file: what the header reading returned and the frames its payload decodes
      to. `None` is a raised error. */
  datatype Source = Source(info: Option<RiffWalk.Info>, decoded: Option<seq<Frame>>)

  predicate Readable(s: Source) { s.info.Some? && s.decoded.Some? }

  predicate SameFormat(a: Source, b: Source) {
    a.info.Some? && b.info.Some?
    && a.info.value.channels == b.info.value.channels && a.info.value.rate == b.info.value.rate
  }

  function Declared(s: Source): nat { if s.info.Some? then s.info.value.frames else 0 }

  function Decoded(s: Source): seq<Frame> { if s.decoded.Some? then s.decoded.value else [] }

  function Total(tracks: seq<Source>): nat {
    if tracks == [] then 0 else Total(tracks[..|tracks| - 1]) + Declared(tracks[|tracks| - 1])
  }

  /** The frames the reference generator yields: all tracks, in order. */
  function Reference(tracks: seq<Source>): seq<Frame> {
    if tracks == [] then [] else Reference(tracks[..|tracks| - 1]) + Decoded(tracks[|tracks| - 1])
  }

  // ------------------------------------------------------------- what counts as a fault

  function Abs(x: int): nat { if x < 0 then -x else x }

  function Shorter(wanted: Frame, actual: Frame): nat {
    if |wanted| <= |actual| then |wanted| else |actual|
  }

  /** The samples of one frame that are off by more than the tolerance. */
  ghost function BadSamples(wanted: Frame, actual: Frame, tolerance: nat): set<nat> {
    set s: nat | s < Shorter(wanted, actual) && !Near(wanted[s], actual[s], tolerance)
  }

  ghost predicate Faulty(wanted: seq<Frame>, actual: seq<Frame>, tolerance: nat, k: nat) {
    if k < |wanted| && k < |actual| then BadSamples(wanted[k], actual[k], tolerance) != {}
    else k < |wanted| || k < |actual|
  }

  ghost function Faults(wanted: seq<Frame>, actual: seq<Frame>, tolerance: nat, n: nat): set<nat> {
    set k: nat | k < n && Faulty(wanted, actual, tolerance, k)
  }

  ghost function BadSampleCount(wanted: seq<Frame>, actual: seq<Frame>, tolerance: nat, n: nat): nat
    requires n <= |wanted| && n <= |actual|
  {
    if n == 0 then 0
    else BadSampleCount(wanted, actual, tolerance, n - 1) + |BadSamples(wanted[n - 1], actual[n - 1], tolerance)|
  }

  // -------------------------------------------------------------------- boundaries

  datatype Boundary = Boundary(frame: nat, windowStart: nat, windowEnd: nat, mismatchFrames: nat, first: Option<nat>)

  predicate InWindow(b: Boundary, k: nat) { b.windowStart <= k < b.windowEnd }

  ghost function WindowFaults(b: Boundary, faults: set<nat>): set<nat> {
    set k | k in faults && InWindow(b, k)
  }

  /** The tally is the number of faults in the window, and `first` is the least of them. */
  ghost predicate Tallied(b: Boundary, faults: set<nat>) {
    && b.mismatchFrames == |WindowFaults(b, faults)|
    && (b.first.None? <==> WindowFaults(b, faults) == {})
    && (b.first.Some? ==> b.first.value in WindowFaults(b, faults)
                          && forall k :: k in WindowFaults(b, faults) ==> b.first.value <= k)
  }

  /** Boundary `j` sits where track `j` is declared to end, with a clipped window around it. */
  ghost predicate PlacedAt(b: Boundary, tracks: seq<Source>, window: nat, j: nat)
    requires j < |tracks|
  {
    && b.frame == Total(tracks[..j + 1])
    && b.windowStart == (if b.frame < window then 0 else b.frame - window)
    && b.windowEnd == (if b.frame + window < Total(tracks) then b.frame + window else Total(tracks))
  }

  /** One boundary's share of `mark_boundary_mismatch`. */
  function Marked(b: Boundary, k: nat): Boundary {
    if InWindow(b, k) then b.(mismatchFrames := b.mismatchFrames + 1, first := if b.first.None? then Some(k) else b.first)
    else b
  }

  lemma MarkKeepsTally(b: Boundary, faults: set<nat>, k: nat)
    requires Tallied(b, faults) && forall f :: f in faults ==> f < k
    ensures Tallied(Marked(b, k), faults + {k})
  {
    var b' := Marked(b, k);
    if InWindow(b, k) {
      assert WindowFaults(b', faults + {k}) == WindowFaults(b, faults) + {k};
      assert k !in WindowFaults(b, faults);
    } else {
      assert WindowFaults(b', faults + {k}) == WindowFaults(b, faults);
    }
  }

  /** `mark_boundary_mismatch`: every boundary whose window holds the frame takes note of it. */
  method MarkBoundaryMismatch(boundaries: array<Boundary>, k: nat)
    modifies boundaries
    ensures forall j :: 0 <= j < boundaries.Length ==> boundaries[j] == Marked(old(boundaries[j]), k)
  {
    for j := 0 to boundaries.Length
      invariant forall i :: 0 <= i < j ==> boundaries[i] == Marked(old(boundaries[i]), k)
      invariant forall i :: j <= i < boundaries.Length ==> boundaries[i] == old(boundaries[i])
    {
      var b := boundaries[j];
      if b.windowStart <= k < b.windowEnd {
        b := b.(mismatchFrames := b.mismatchFrames + 1);
        if b.first.None? { b := b.(first := Some(k)); }
        boundaries[j] := b;
      }
    }
  }

  method MakeBoundaries(tracks: seq<Source>, expected: nat, window: nat) returns (boundaries: array<Boundary>)
    requires |tracks| > 0 && expected == Total(tracks)
    ensures fresh(boundaries) && boundaries.Length == |tracks| - 1
    ensures AllTallied(boundaries[..], {})
    ensures forall j :: 0 <= j < boundaries.Length ==> PlacedAt(boundaries[j], tracks, window, j)
  {
    boundaries := new Boundary[|tracks| - 1](_ => Boundary(0, 0, 0, 0, None));
    var cumulative := 0;
    for j := 0 to boundaries.Length
      invariant cumulative == Total(tracks[..j])
      invariant forall i :: 0 <= i < j ==> PlacedAt(boundaries[i], tracks, window, i) && Tallied(boundaries[i], {})
    {
      assert tracks[..j + 1][..j] == tracks[..j];
      cumulative := cumulative + Declared(tracks[j]);
      var start := if cumulative < window then 0 else cumulative - window;
      var end := if cumulative + window < expected then cumulative + window else expected;
      boundaries[j] := Boundary(cumulative, start, end, 0, None);
      assert WindowFaults(boundaries[j], {}) == {};
    }
  }

  // ---------------------------------------------------------------- the comparison

  ghost function Longer(wanted: seq<Frame>, actual: seq<Frame>): nat {
    if |wanted| <= |actual| then |actual| else |wanted|
  }

  ghost function Common(wanted: seq<Frame>, actual: seq<Frame>, n: nat): nat {
    var both := if |wanted| <= |actual| then |wanted| else |actual|;
    if n <= both then n else both
  }

  /** The sample loop of one pair of frames. */
  method CountBadSamples(wanted: Frame, actual: Frame, tolerance: nat) returns (bad: nat)
    ensures bad == |BadSamples(wanted, actual, tolerance)|
  {
    bad := 0;
    ghost var seen: set<nat> := {};
    for s := 0 to Shorter(wanted, actual)
      invariant seen == set t: nat | t < s && !Near(wanted[t], actual[t], tolerance)
      invariant bad == |seen|
    {
      var delta := Abs(wanted[s] - actual[s]);
      if delta > tolerance {
        bad := bad + 1;
        seen := seen + {s};
      }
    }
    assert seen == BadSamples(wanted, actual, tolerance);
  }

  lemma FaultsStep(wanted: seq<Frame>, actual: seq<Frame>, tolerance: nat, n: nat)
    ensures Faults(wanted, actual, tolerance, n + 1)
            == Faults(wanted, actual, tolerance, n) + (if Faulty(wanted, actual, tolerance, n) then {n} else {})
    ensures n !in Faults(wanted, actual, tolerance, n)
  {}

  lemma PairCountStep(wanted: seq<Frame>, actual: seq<Frame>, tolerance: nat, n: nat)
    ensures BadSampleCount(wanted, actual, tolerance, Common(wanted, actual, n + 1))
            == BadSampleCount(wanted, actual, tolerance, Common(wanted, actual, n))
               + (if n < |wanted| && n < |actual| then |BadSamples(wanted[n], actual[n], tolerance)| else 0)
    ensures |Faults(wanted, actual, tolerance, Common(wanted, actual, n + 1))|
            == |Faults(wanted, actual, tolerance, Common(wanted, actual, n))|
               + (if n < |wanted| && n < |actual| && Faulty(wanted, actual, tolerance, n) then 1 else 0)
  {
    FaultsStep(wanted, actual, tolerance, n);
    if n < |wanted| && n < |actual| {
      assert Common(wanted, actual, n + 1) == n + 1 && Common(wanted, actual, n) == n;
    } else {
      assert Common(wanted, actual, n + 1) == Common(wanted, actual, n);
    }
  }

  datatype Counts = Counts(missing: nat, extra: nat, mismatchedFrames: nat, mismatchedSamples: nat)

  /** What the four counters say about the first `n` positions. */
  ghost predicate Counted(c: Counts, wanted: seq<Frame>, actual: seq<Frame>, tolerance: nat, n: nat) {
    && c.missing == (if n <= |actual| then 0 else n - |actual|)
    && c.extra == (if n <= |wanted| then 0 else n - |wanted|)
    && c.mismatchedFrames == |Faults(wanted, actual, tolerance, Common(wanted, actual, n))|
    && c.mismatchedSamples == BadSampleCount(wanted, actual, tolerance, Common(wanted, actual, n))
  }

  /** Two frames in hand: the sample counters move by the bad samples of this pair. */
  lemma CountPair(c: Counts, c': Counts, wanted: seq<Frame>, actual: seq<Frame>, tolerance: nat, n: nat, bad: nat)
    requires n < |wanted| && n < |actual| && Counted(c, wanted, actual, tolerance, n)
    requires bad == |BadSamples(wanted[n], actual[n], tolerance)|
    requires c' == c.(mismatchedSamples := c.mismatchedSamples + bad,
                      mismatchedFrames := if bad > 0 then c.mismatchedFrames + 1 else c.mismatchedFrames)
    ensures Counted(c', wanted, actual, tolerance, n + 1) && (bad > 0 <==> Faulty(wanted, actual, tolerance, n))
  {
    PairCountStep(wanted, actual, tolerance, n);
    assert bad > 0 <==> BadSamples(wanted[n], actual[n], tolerance) != {};
  }

  /** One frame only: it is missing or extra. */
  lemma CountTail(c: Counts, c': Counts, wanted: seq<Frame>, actual: seq<Frame>, tolerance: nat, n: nat)
    requires (n < |wanted|) != (n < |actual|) && Counted(c, wanted, actual, tolerance, n)
    requires c' == if n < |wanted| then c.(missing := c.missing + 1) else c.(extra := c.extra + 1)
    ensures Counted(c', wanted, actual, tolerance, n + 1) && Faulty(wanted, actual, tolerance, n)
  {}

  /** One turn of the index-aligned loop, apart from the boundary marks. */
  method CountPosition(c: Counts, wanted: seq<Frame>, actual: seq<Frame>, tolerance: nat, n: nat)
    returns (c': Counts, faulty: bool)
    requires (n < |wanted| || n < |actual|) && Counted(c, wanted, actual, tolerance, n)
    ensures Counted(c', wanted, actual, tolerance, n + 1)
    ensures faulty <==> Faulty(wanted, actual, tolerance, n)
  {
    if n >= |wanted| {
      c', faulty := c.(extra := c.extra + 1), true;
      CountTail(c, c', wanted, actual, tolerance, n);
    } else if n >= |actual| {
      c', faulty := c.(missing := c.missing + 1), true;
      CountTail(c, c', wanted, actual, tolerance, n);
    } else {
      var bad := CountBadSamples(wanted[n], actual[n], tolerance);
      faulty := bad > 0;
      c' := c.(mismatchedSamples := c.mismatchedSamples + bad,
               mismatchedFrames := if faulty then c.mismatchedFrames + 1 else c.mismatchedFrames);
      CountPair(c, c', wanted, actual, tolerance, n, bad);
    }
  }

  ghost predicate AllTallied(bs: seq<Boundary>, faults: set<nat>) {
    forall j :: 0 <= j < |bs| ==> Tallied(bs[j], faults)
  }

  lemma MarksKeepTallies(before: seq<Boundary>, after: seq<Boundary>, faults: set<nat>, k: nat)
    requires AllTallied(before, faults) && forall f :: f in faults ==> f < k
    requires |after| == |before| && forall j :: 0 <= j < |before| ==> after[j] == Marked(before[j], k)
    ensures AllTallied(after, faults + {k})
  {
    forall j | 0 <= j < |after| ensures Tallied(after[j], faults + {k}) { MarkKeepsTally(before[j], faults, k); }
  }

  predicate SamePlace(a: Boundary, b: Boundary) {
    a.frame == b.frame && a.windowStart == b.windowStart && a.windowEnd == b.windowEnd
  }

  ghost predicate SamePlaces(bs: seq<Boundary>, bs': seq<Boundary>) {
    |bs| == |bs'| && forall j :: 0 <= j < |bs| ==> SamePlace(bs[j], bs'[j])
  }

  /** The counters and the boundary tallies agree on the first `n` positions. */
  ghost predicate Scanned(c: Counts, bs: seq<Boundary>, wanted: seq<Frame>, actual: seq<Frame>, tolerance: nat, n: nat) {
    Counted(c, wanted, actual, tolerance, n) && AllTallied(bs, Faults(wanted, actual, tolerance, n))
  }

  /** One turn of the loop. */
  method ScanPosition(c: Counts, wanted: seq<Frame>, actual: seq<Frame>, tolerance: nat, boundaries: array<Boundary>, n: nat)
    returns (c': Counts)
    requires (n < |wanted| || n < |actual|) && Scanned(c, boundaries[..], wanted, actual, tolerance, n)
    modifies boundaries
    ensures Scanned(c', boundaries[..], wanted, actual, tolerance, n + 1)
    ensures SamePlaces(boundaries[..], old(boundaries[..]))
  {
    var faulty;
    c', faulty := CountPosition(c, wanted, actual, tolerance, n);
    FaultsStep(wanted, actual, tolerance, n);
    if faulty {
      MarkBoundaryMismatch(boundaries, n);
      MarksKeepTallies(old(boundaries[..]), boundaries[..], Faults(wanted, actual, tolerance, n), n);
    }
  }

  /** The whole `zip_longest` loop. */
  method Scan(wanted: seq<Frame>, actual: seq<Frame>, tolerance: nat, boundaries: array<Boundary>) returns (c: Counts)
    requires AllTallied(boundaries[..], {})
    modifies boundaries
    ensures Scanned(c, boundaries[..], wanted, actual, tolerance, Longer(wanted, actual))
    ensures SamePlaces(boundaries[..], old(boundaries[..]))
  {
    c := Counts(0, 0, 0, 0);
    var index := 0;
    assert Faults(wanted, actual, tolerance, 0) == {};
    while index < |wanted| || index < |actual|
      invariant index <= Longer(wanted, actual)
      invariant Scanned(c, boundaries[..], wanted, actual, tolerance, index)
      invariant SamePlaces(boundaries[..], old(boundaries[..]))
      decreases Longer(wanted, actual) - index
    {
      c := ScanPosition(c, wanted, actual, tolerance, boundaries, index);
      index := index + 1;
    }
  }

  // -------------------------------------------------------------------- the verdict

  datatype Report = Report(
    pass: bool,
    expectedFrames: nat,
    capturedFrames: nat,
    truncatedFrames: nat,
    counts: Counts,
    boundaries: seq<Boundary>)

  datatype Outcome = Refused | Compared(report: Report)

  predicate Admissible(tracks: seq<Source>, capture: Source, tolerance: int, window: int) {
    && tracks != [] && 0 <= tolerance <= 32767 && window >= 1
    && Readable(capture)
    && (forall i :: 0 <= i < |tracks| ==> Readable(tracks[i]) && Declared(tracks[i]) != 0 && SameFormat(tracks[i], capture))
    && |Reference(tracks)| == Total(tracks)
  }

  predicate Near(wanted: int, actual: int, tolerance: nat) { wanted - tolerance <= actual <= wanted + tolerance }

  /** Nothing missing, nothing extra, no sample off by more than the tolerance. */
  ghost predicate Faithful(wanted: seq<Frame>, actual: seq<Frame>, tolerance: nat) {
    && |wanted| == |actual|
    && forall k, s :: 0 <= k < |wanted| && 0 <= s < Shorter(wanted[k], actual[k])
                      ==> Near(wanted[k][s], actual[k][s], tolerance)
  }

  lemma {:induction false} NoBadSamples(wanted: seq<Frame>, actual: seq<Frame>, tolerance: nat, n: nat)
    requires n <= |wanted| && n <= |actual|
    ensures BadSampleCount(wanted, actual, tolerance, n) == 0
            <==> forall k :: 0 <= k < n ==> BadSamples(wanted[k], actual[k], tolerance) == {}
  {
    if n > 0 { NoBadSamples(wanted, actual, tolerance, n - 1); }
  }

  lemma CleanIsFaithful(c: Counts, wanted: seq<Frame>, actual: seq<Frame>, tolerance: nat)
    requires Counted(c, wanted, actual, tolerance, Longer(wanted, actual))
    ensures c.missing == 0 && c.extra == 0 && c.mismatchedSamples == 0 <==> Faithful(wanted, actual, tolerance)
  {
    var n := if |wanted| <= |actual| then |wanted| else |actual|;
    NoBadSamples(wanted, actual, tolerance, n);
    forall k | 0 <= k < n
      ensures BadSamples(wanted[k], actual[k], tolerance) == {}
              <==> forall s :: 0 <= s < Shorter(wanted[k], actual[k]) ==> Near(wanted[k][s], actual[k][s], tolerance)
    {
      SamplesClean(wanted[k], actual[k], tolerance);
    }
  }

  lemma SamplesClean(wanted: Frame, actual: Frame, tolerance: nat)
    ensures BadSamples(wanted, actual, tolerance) == {}
            <==> forall s :: 0 <= s < Shorter(wanted, actual) ==> Near(wanted[s], actual[s], tolerance)
  {
    forall s: nat | s < Shorter(wanted, actual)
      ensures s in BadSamples(wanted, actual, tolerance) <==> !Near(wanted[s], actual[s], tolerance)
    {}
  }

  /** `compare`, for inputs that are not the capture itself. */
  method Compare(tracks: seq<Source>, capture: Source, tolerance: int, window: int) returns (r: Outcome)
    ensures r.Compared? <==> Admissible(tracks, capture, tolerance, window)
    ensures r.Compared? ==>
      var wanted, actual, rep := Reference(tracks), Decoded(capture), r.report;
      && (rep.pass <==> Faithful(wanted, actual, tolerance) && Declared(capture) <= |actual|)
      && rep.expectedFrames == |wanted| && rep.capturedFrames == |actual|
      && Counted(rep.counts, wanted, actual, tolerance, Longer(wanted, actual))
      && rep.truncatedFrames == (if |actual| < Declared(capture) then Declared(capture) - |actual| else 0)
      && |rep.boundaries| == |tracks| - 1
      && AllTallied(rep.boundaries, Faults(wanted, actual, tolerance, Longer(wanted, actual)))
      && forall j :: 0 <= j < |rep.boundaries| ==> PlacedAt(rep.boundaries[j], tracks, window, j)
  {
    if tracks == [] { return Refused; }
    if !(0 <= tolerance <= 32767) || window < 1 { return Refused; }
    if !Readable(capture) { return Refused; }
    for i := 0 to |tracks|
      invariant forall k :: 0 <= k < i ==> Readable(tracks[k]) && Declared(tracks[k]) != 0 && SameFormat(tracks[k], capture)
    {
      if !Readable(tracks[i]) || Declared(tracks[i]) == 0 || !SameFormat(tracks[i], capture) { return Refused; }
    }
    var expected := Total(tracks);
    var wanted, actual := Reference(tracks), Decoded(capture);
    var boundaries := MakeBoundaries(tracks, expected, window);
    var c := Scan(wanted, actual, tolerance, boundaries);
    if |wanted| != expected { return Refused; }
    var truncated := if Declared(capture) > |actual| then Declared(capture) - |actual| else 0;
    CleanIsFaithful(c, wanted, actual, tolerance);
    r := Compared(Report(c.missing == 0 && c.extra == 0 && c.mismatchedSamples == 0 && truncated == 0,
                         expected, |actual|, truncated, c, boundaries[..]));
  }

  // -------------------------------------------------- what the verdict means to a reader

  /** With tolerance 0 and frames of one width, faithful means identical. */
  lemma ZeroToleranceIsEquality(wanted: seq<Frame>, actual: seq<Frame>, channels: nat)
    requires PcmFrames.Uniform(wanted, channels) && PcmFrames.Uniform(actual, channels)
    ensures Faithful(wanted, actual, 0) <==> wanted == actual
  {
    if Faithful(wanted, actual, 0) {
      forall k | 0 <= k < |wanted| ensures wanted[k] == actual[k] {
        forall s | 0 <= s < channels ensures wanted[k][s] == actual[k][s] {
          assert Near(wanted[k][s], actual[k][s], 0);
        }
      }
    }
  }

  /** A window never reaches past the reference, so an extra tail is in no boundary tally:
      the tally is that of the comparison stopped at the end of the reference. */
  lemma ExtraTailIsNotTallied(tracks: seq<Source>, b: Boundary, window: nat, j: nat, actual: seq<Frame>, tolerance: nat)
    requires j < |tracks| && PlacedAt(b, tracks, window, j) && |Reference(tracks)| == Total(tracks)
    requires Tallied(b, Faults(Reference(tracks), actual, tolerance, Longer(Reference(tracks), actual)))
    ensures Tallied(b, Faults(Reference(tracks), actual, tolerance, Total(tracks)))
  {
    var wanted := Reference(tracks);
    assert WindowFaults(b, Faults(wanted, actual, tolerance, Longer(wanted, actual)))
        == WindowFaults(b, Faults(wanted, actual, tolerance, Total(tracks)));
  }

  /** The reader never yields more frames than the header declares. */
  ghost predicate NeverMore(tracks: seq<Source>) {
    forall i :: 0 <= i < |tracks| ==> |Decoded(tracks[i])| <= Declared(tracks[i])
  }

  lemma {:induction false} ReferenceAtMostTotal(tracks: seq<Source>)
    requires NeverMore(tracks)
    ensures |Reference(tracks)| <= Total(tracks)
  {
    if tracks != [] { ReferenceAtMostTotal(tracks[..|tracks| - 1]); }
  }

  /** Though only the total is checked, every boundary of a comparison that goes through is
      the true seam: the reference up to it is exactly the tracks before it. */
  lemma {:induction false} BoundariesAreSeams(tracks: seq<Source>, j: nat)
    requires NeverMore(tracks) && |Reference(tracks)| == Total(tracks) && j <= |tracks|
    ensures Total(tracks[..j]) <= |Reference(tracks)|
    ensures Reference(tracks)[..Total(tracks[..j])] == Reference(tracks[..j])
  {
    if j == |tracks| {
      assert tracks[..j] == tracks;
    } else {
      var front := tracks[..|tracks| - 1];
      ReferenceAtMostTotal(front);
      BoundariesAreSeams(front, j);
      assert front[..j] == tracks[..j];
    }
  }
}
