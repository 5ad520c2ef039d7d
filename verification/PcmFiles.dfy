/**
 The comparator on files: the header walk, the decoder and the comparison put together, and
 what its verdict then says about bytes.
 */
module PcmFiles {
  import opened CoreNotifications
  import opened RiffWalk
  import WaveFile
  import PcmFrames
  import PcmCompare

  /** A file with what the `wave` reader reports about it and the audio bytes it reads. */
  datatype Clip = Clip(file: seq<byte>, view: WaveView, payload: seq<byte>)

  // ---------------------------------------------------------------- the audio chunk

  ghost function AudioChunk(cs: seq<Chunk>): Option<Chunk> {
    if cs == [] then None
    else if cs[|cs| - 1].tag == DATA then Some(cs[|cs| - 1])
    else AudioChunk(cs[..|cs| - 1])
  }

  /** The bytes of a chunk's payload that are in the file. */
  ghost function PayloadIn(file: seq<byte>, c: Chunk): seq<byte>
    requires c.offset + 8 <= |file|
  {
    file[c.offset + 8..if PayloadEnd(c) <= |file| then PayloadEnd(c) else |file|]
  }

  /** The reader hands out the bytes of the audio chunk and counts its frames. */
  ghost predicate Honest(clip: Clip) {
    forall cs :: Acceptable(clip.file, cs) ==> Reads(clip, cs)
  }

  ghost predicate Reads(clip: Clip, cs: seq<Chunk>) {
    var c := AudioChunk(cs);
    c.Some? ==>
      && c.value.offset + 8 <= |clip.file| && clip.payload == PayloadIn(clip.file, c.value)
      && (clip.view.channels > 0 ==> ReaderRoundsDown(clip.view, c.value.size))
  }

  lemma {:induction false} AudioChunkAt(cs: seq<Chunk>)
    ensures AudioBytes(cs) == if AudioChunk(cs).Some? then Some(AudioChunk(cs).value.size) else None
    ensures AudioChunk(cs).Some? ==> exists i :: 0 <= i < |cs| && cs[i] == AudioChunk(cs).value
  {
    if cs != [] { AudioChunkAt(cs[..|cs| - 1]); }
  }

  /** A complete file holds its whole audio chunk, a truncated one a proper part of it. */
  lemma PayloadLength(file: seq<byte>, cs: seq<Chunk>)
    requires Acceptable(file, cs)
    ensures AudioChunk(cs).Some? && AudioChunk(cs).value.offset + 8 <= |file|
    ensures AudioBytes(cs) == Some(AudioChunk(cs).value.size)
    ensures var c := AudioChunk(cs).value;
            if Complete(file, cs) then |PayloadIn(file, c)| == c.size else |PayloadIn(file, c)| < c.size
  {
    AudioCounted(cs);
    AudioChunkAt(cs);
    var i :| 0 <= i < |cs| && cs[i] == AudioChunk(cs).value;
    StartsInside(file, cs, i);
    ChunksBehind(file, cs, i);
  }

  // ------------------------------------------------------------------- one file

  ghost predicate Headed(clip: Clip) {
    ViewOk(clip.view) && exists cs :: Acceptable(clip.file, cs) && Aligned(clip, cs)
  }

  ghost predicate Aligned(clip: Clip, cs: seq<Chunk>)
    requires ViewOk(clip.view)
  {
    AudioBytes(cs).Some? && AudioBytes(cs).value % (2 * clip.view.channels) == 0
  }

  /** A supported file that is all there. */
  ghost predicate Sound(clip: Clip) {
    ViewOk(clip.view) && exists cs :: Complete(clip.file, cs) && Aligned(clip, cs)
  }

  /** What the header reading and the decoder make of a file. */
  ghost predicate ReadsAs(clip: Clip, s: PcmCompare.Source) {
    && (s.info.Some? <==> Headed(clip))
    && (s.info.Some? ==>
          && s.info.value == Info(clip.view.channels, clip.view.rate, clip.view.frames)
          && (s.decoded.Some? <==> PcmFrames.Whole(clip.payload, clip.view.channels))
          && (s.decoded.Some? ==> s.decoded.value == PcmFrames.Unpack(clip.payload, clip.view.channels)))
  }

  method ReadClip(clip: Clip) returns (s: PcmCompare.Source)
    ensures ReadsAs(clip, s)
  {
    var info := WavInfo(clip.file, clip.view);
    if info.None? {
      assert !Headed(clip);
      return PcmCompare.Source(None, None);
    }
    assert Headed(clip);
    var decoded := PcmFrames.DecodeFrames(clip.payload, clip.view.channels);
    s := PcmCompare.Source(info, decoded);
  }

  lemma FrameCounts(channels: nat, audio: nat, bytes: nat, declared: nat, decoded: nat)
    requires (channels == 1 && bytes == 2 * decoded && audio == 2 * declared) || (channels == 2 && bytes == 4 * decoded && audio == 4 * declared)
    ensures (decoded == declared <==> bytes == audio) && (decoded < declared <==> bytes < audio)
  {}

  lemma DeclaredBytes(clip: Clip, cs: seq<Chunk>)
    requires Headed(clip) && Honest(clip) && Acceptable(clip.file, cs)
    ensures AudioBytes(cs).Some? && Aligned(clip, cs)
    ensures AudioChunk(cs).Some? && AudioChunk(cs).value.offset + 8 <= |clip.file| && clip.payload == PayloadIn(clip.file, AudioChunk(cs).value)
    ensures if clip.view.channels == 1 then AudioBytes(cs).value == 2 * clip.view.frames else AudioBytes(cs).value == 4 * clip.view.frames
  {
    PayloadLength(clip.file, cs);
    assert Reads(clip, cs);
    var other :| Acceptable(clip.file, other) && Aligned(clip, other);
    ReadingIsUnique(clip.file, cs, other);
  }

  /** A file that reads never yields more frames than declared, and as many exactly when it
      is all there. */
  lemma IntactIffSound(clip: Clip, s: PcmCompare.Source)
    requires Honest(clip) && ReadsAs(clip, s)
    ensures PcmCompare.Readable(s) ==> |PcmCompare.Decoded(s)| <= PcmCompare.Declared(s)
    ensures PcmCompare.Readable(s) && |PcmCompare.Decoded(s)| == PcmCompare.Declared(s) <==> Sound(clip)
  {
    if Headed(clip) {
      var ch := clip.view.channels;
      var cs :| Acceptable(clip.file, cs) && Aligned(clip, cs);
      DeclaredBytes(clip, cs);
      PayloadLength(clip.file, cs);
      PcmFrames.WholeIffDivisible(clip.payload, ch);
      if s.decoded.Some? {
        PcmFrames.UnpackLength(clip.payload, ch);
        FrameCounts(ch, AudioBytes(cs).value, |clip.payload|, clip.view.frames, |PcmCompare.Decoded(s)|);
      }
      OneReading(clip, cs);
    } else {
      SoundIsHeaded(clip);
    }
  }

  lemma SoundIsHeaded(clip: Clip)
    ensures Sound(clip) ==> Headed(clip)
  {
    if Sound(clip) {
      var cs :| Complete(clip.file, cs) && Aligned(clip, cs);
      assert Acceptable(clip.file, cs);
    }
  }

  lemma OneReading(clip: Clip, cs: seq<Chunk>)
    requires ViewOk(clip.view) && Acceptable(clip.file, cs) && Aligned(clip, cs)
    ensures Sound(clip) <==> Complete(clip.file, cs)
  {
    if Sound(clip) {
      var other :| Complete(clip.file, other) && Aligned(clip, other);
      ReadingIsUnique(clip.file, cs, other);
    }
  }

  // ------------------------------------------------------------------ the playlist

  ghost function Payloads(tracks: seq<Clip>): seq<byte> {
    if tracks == [] then [] else Payloads(tracks[..|tracks| - 1]) + tracks[|tracks| - 1].payload
  }

  ghost predicate AllRead(tracks: seq<Clip>, sources: seq<PcmCompare.Source>) {
    |sources| == |tracks| && forall i :: 0 <= i < |tracks| ==> Honest(tracks[i]) && ReadsAs(tracks[i], sources[i])
  }

  /** The reference frames are the frames of the payloads laid end to end. */
  lemma {:induction false} ReferenceIsUnpacked(tracks: seq<Clip>, sources: seq<PcmCompare.Source>, channels: nat)
    requires AllRead(tracks, sources) && PcmFrames.Supported(channels)
    requires forall i :: 0 <= i < |tracks| ==> PcmCompare.Readable(sources[i]) && tracks[i].view.channels == channels
    ensures PcmFrames.Whole(Payloads(tracks), channels)
    ensures PcmCompare.Reference(sources) == PcmFrames.Unpack(Payloads(tracks), channels)
  {
    if tracks != [] {
      var n := |tracks| - 1;
      ReferenceIsUnpacked(tracks[..n], sources[..n], channels);
      var front, last := Payloads(tracks[..n]), tracks[n].payload;
      assert (front + last)[..|front|] == front && (front + last)[|front|..] == last;
      PcmFrames.BatchSplit(front + last, |front|, channels);
    }
  }

  /** If the totals agree and no track has more frames than declared, none has fewer. */
  lemma {:induction false} TotalsForceEach(sources: seq<PcmCompare.Source>, i: nat)
    requires PcmCompare.NeverMore(sources) && |PcmCompare.Reference(sources)| == PcmCompare.Total(sources) && i < |sources|
    ensures |PcmCompare.Decoded(sources[i])| == PcmCompare.Declared(sources[i])
  {
    var n := |sources| - 1;
    PcmCompare.ReferenceAtMostTotal(sources[..n]);
    if i < n { TotalsForceEach(sources[..n], i); }
  }

  lemma {:induction false} EachForcesTotals(sources: seq<PcmCompare.Source>)
    requires forall i :: 0 <= i < |sources| ==> |PcmCompare.Decoded(sources[i])| == PcmCompare.Declared(sources[i])
    ensures |PcmCompare.Reference(sources)| == PcmCompare.Total(sources)
  {
    if sources != [] { EachForcesTotals(sources[..|sources| - 1]); }
  }

  // --------------------------------------------------------------------- the verdict

  ghost predicate SameShape(a: Clip, b: Clip) { a.view.channels == b.view.channels && a.view.rate == b.view.rate }

  /** Every file is supported and all there, in one format, no reference is empty. */
  ghost predicate Comparable(tracks: seq<Clip>, capture: Clip) {
    && tracks != [] && Sound(capture)
    && forall i :: 0 <= i < |tracks| ==> Sound(tracks[i]) && tracks[i].payload != [] && SameShape(tracks[i], capture)
  }

  /** An intact reference declares frames exactly when it has audio bytes. */
  lemma NonemptyTrack(clip: Clip, s: PcmCompare.Source)
    requires Honest(clip) && ReadsAs(clip, s) && Sound(clip)
    ensures PcmCompare.Declared(s) != 0 <==> clip.payload != []
  {
    IntactIffSound(clip, s);
    PcmFrames.UnpackLength(clip.payload, clip.view.channels);
  }

  lemma TrackAdmitted(clip: Clip, s: PcmCompare.Source, capture: Clip, c: PcmCompare.Source)
    requires Honest(clip) && ReadsAs(clip, s) && ReadsAs(capture, c) && PcmCompare.Readable(c)
    ensures PcmCompare.Readable(s) && |PcmCompare.Decoded(s)| == PcmCompare.Declared(s) && PcmCompare.Declared(s) != 0
            && PcmCompare.SameFormat(s, c)
            <==> Sound(clip) && clip.payload != [] && SameShape(clip, capture)
  {
    IntactIffSound(clip, s);
    if Sound(clip) { NonemptyTrack(clip, s); }
  }

  lemma AdmittedIffComparable(tracks: seq<Clip>, sources: seq<PcmCompare.Source>, capture: Clip, c: PcmCompare.Source, window: int)
    requires AllRead(tracks, sources) && Honest(capture) && ReadsAs(capture, c)
    ensures window >= 1 && Comparable(tracks, capture) <==>
            PcmCompare.Admissible(sources, c, 0, window) && PcmCompare.Declared(c) <= |PcmCompare.Decoded(c)|
  {
    IntactIffSound(capture, c);
    if window >= 1 && Comparable(tracks, capture) {
      forall i | 0 <= i < |tracks|
        ensures PcmCompare.Readable(sources[i]) && PcmCompare.Declared(sources[i]) != 0 && PcmCompare.SameFormat(sources[i], c)
        ensures |PcmCompare.Decoded(sources[i])| == PcmCompare.Declared(sources[i])
      {
        TrackAdmitted(tracks[i], sources[i], capture, c);
      }
      EachForcesTotals(sources);
    }
    if PcmCompare.Admissible(sources, c, 0, window) && PcmCompare.Declared(c) <= |PcmCompare.Decoded(c)| {
      forall i | 0 <= i < |tracks| ensures |PcmCompare.Decoded(sources[i])| <= PcmCompare.Declared(sources[i]) {
        IntactIffSound(tracks[i], sources[i]);
      }
      forall i | 0 <= i < |tracks|
        ensures Sound(tracks[i]) && tracks[i].payload != [] && SameShape(tracks[i], capture)
      {
        TotalsForceEach(sources, i);
        TrackAdmitted(tracks[i], sources[i], capture, c);
      }
    }
  }

  /** Equal frames are equal bytes. */
  lemma FaithfulIffSameBytes(tracks: seq<Clip>, sources: seq<PcmCompare.Source>, capture: Clip, c: PcmCompare.Source, window: int)
    requires AllRead(tracks, sources) && ReadsAs(capture, c) && PcmCompare.Admissible(sources, c, 0, window)
    ensures PcmCompare.Faithful(PcmCompare.Reference(sources), PcmCompare.Decoded(c), 0) <==> capture.payload == Payloads(tracks)
  {
    var ch := capture.view.channels;
    ReferenceIsUnpacked(tracks, sources, ch);
    PcmFrames.UnpackUniform(Payloads(tracks), ch);
    PcmFrames.UnpackUniform(capture.payload, ch);
    PcmCompare.ZeroToleranceIsEquality(PcmCompare.Reference(sources), PcmCompare.Decoded(c), ch);
    if PcmCompare.Reference(sources) == PcmCompare.Decoded(c) {
      PcmFrames.UnpackInjective(Payloads(tracks), capture.payload, ch);
    }
  }

  /** `compare` on files at tolerance zero: PASS if and only if every file is supported and
      all there, in one format, no reference is empty, and the audio bytes of the capture are
      those of the references laid end to end. */
  method CompareFiles(tracks: seq<Clip>, capture: Clip, window: int) returns (r: PcmCompare.Outcome)
    requires Honest(capture) && forall i :: 0 <= i < |tracks| ==> Honest(tracks[i])
    ensures r.Compared? && r.report.pass <==>
            window >= 1 && Comparable(tracks, capture) && capture.payload == Payloads(tracks)
  {
    var sources: seq<PcmCompare.Source> := [];
    for i := 0 to |tracks|
      invariant |sources| == i && forall k :: 0 <= k < i ==> ReadsAs(tracks[k], sources[k])
    {
      var s := ReadClip(tracks[i]);
      sources := sources + [s];
    }
    var c := ReadClip(capture);
    r := PcmCompare.Compare(sources, c, 0, window);
    AdmittedIffComparable(tracks, sources, capture, c, window);
    if r.Compared? { FaithfulIffSameBytes(tracks, sources, capture, c, window); }
  }

  // ------------------------------------------------------------------ written files

  /** A written file as an honest reader sees it. */
  function WrittenClip(x: WaveFile.Sound): Clip
    requires WaveFile.Writable(x)
  {
    Clip(WaveFile.Written(x), WaveView(false, 2, x.channels, x.rate, |x.payload| / (2 * x.channels)), x.payload)
  }

  /** Every written file of whole frames is supported, all there, and read as it was written. */
  lemma WrittenIsSound(x: WaveFile.Sound)
    requires WaveFile.Writable(x) && |x.payload| % (2 * x.channels) == 0
    ensures Honest(WrittenClip(x)) && Sound(WrittenClip(x))
  {
    var clip := WrittenClip(x);
    var file, cs := clip.file, [WaveFile.FormatChunk(), WaveFile.DataChunk(x)];
    WaveFile.WrittenVerdict(x, |file|);
    assert file[..|file|] == file;
    assert Acceptable(file, cs) && Aligned(clip, cs);
    assert AudioChunk(cs) == Some(cs[1]);
    assert PayloadIn(file, cs[1]) == x.payload;
    forall ds | Acceptable(file, ds) ensures Reads(clip, ds) { ReadingIsUnique(file, cs, ds); }
  }
}
