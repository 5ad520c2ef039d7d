/**
 The RIFF walk that decides whether a WAV file may be compared at all. The chunk layout
 is that of chapter 2 (Resource Interchange File Format) of the IBM/Microsoft "Multimedia
 Programming Interface and Data Specifications 1.0": a four-byte tag, a little-endian
 32-bit size, the payload, and one pad byte after an odd payload.
 */
module RiffWalk {
  import opened CoreNotifications

  type byte = x: int | 0 <= x < 256

  const RIFF: seq<byte> := [0x52, 0x49, 0x46, 0x46]
  const WAVE: seq<byte> := [0x57, 0x41, 0x56, 0x45]
  const FMT: seq<byte> := [0x66, 0x6D, 0x74, 0x20]
  const DATA: seq<byte> := [0x64, 0x61, 0x74, 0x61]

  function Le16(file: seq<byte>, at: nat): nat
    requires at + 2 <= |file|
  {
    file[at] as int + 0x100 * file[at + 1] as int
  }

  function Le32(file: seq<byte>, at: nat): nat
    requires at + 4 <= |file|
  {
    Le16(file, at) + 0x1_0000 * Le16(file, at + 2)
  }

  predicate HeaderOk(file: seq<byte>) {
    |file| >= 12 && file[..4] == RIFF && file[8..12] == WAVE
  }

  /** The end the RIFF header declares. */
  function RiffEnd(file: seq<byte>): nat
    requires |file| >= 12
  {
    Le32(file, 4) + 8
  }

  // --------------------------------------------------------------- what a layout is

  datatype Chunk = Chunk(tag: seq<byte>, offset: nat, size: nat)

  function PayloadEnd(c: Chunk): nat { c.offset + 8 + c.size }

  function PaddedEnd(c: Chunk): nat { PayloadEnd(c) + c.size % 2 }

  ghost predicate ChunkAt(file: seq<byte>, c: Chunk) {
    && c.offset + 8 <= |file|
    && c.tag == file[c.offset..c.offset + 4] && c.size == Le32(file, c.offset + 4)
  }

  /** Where the chunk after the first `i` starts. */
  function StartOf(cs: seq<Chunk>, i: nat): nat
    requires i <= |cs|
  {
    if i == 0 then 12 else PaddedEnd(cs[i - 1])
  }

  ghost predicate Placed(file: seq<byte>, cs: seq<Chunk>, i: nat)
    requires i < |cs|
  {
    ChunkAt(file, cs[i]) && cs[i].offset == StartOf(cs, i)
  }

  /** Padded chunks laid end to end from byte 12 on. */
  ghost predicate Layout(file: seq<byte>, cs: seq<Chunk>) {
    forall i: nat :: i < |cs| ==> Placed(file, cs, i)
  }

  function EndOf(cs: seq<Chunk>): nat { StartOf(cs, |cs|) }

  function CountTag(cs: seq<Chunk>, tag: seq<byte>): nat {
    if cs == [] then 0
    else CountTag(cs[..|cs| - 1], tag) + (if cs[|cs| - 1].tag == tag then 1 else 0)
  }

  /** The six fields of a PCM `fmt ` payload agree with each other. */
  predicate FormatConsistent(file: seq<byte>, at: nat)
    requires at + 16 <= |file|
  {
    var formatTag, channels, rate := Le16(file, at), Le16(file, at + 2), Le32(file, at + 4);
    var byteRate, blockAlign, bits := Le32(file, at + 8), Le16(file, at + 12), Le16(file, at + 14);
    && (formatTag == 1 || formatTag == 0xFFFE) && (channels == 1 || channels == 2)
    && bits == 16 && rate != 0 && blockAlign == channels * 2 && byteRate == rate * blockAlign
  }

  predicate FormatOk(file: seq<byte>, c: Chunk) {
    c.tag == FMT ==> c.size >= 16 && c.offset + 24 <= |file| && FormatConsistent(file, c.offset + 8)
  }

  /** The audio payload of the last chunk is cut short by the end of the file. */
  predicate CutAudio(file: seq<byte>, c: Chunk) {
    c.tag == DATA && |file| < PayloadEnd(c)
  }

  /** A layout that accounts for the whole file, except possibly a cut audio tail. */
  ghost predicate Covers(file: seq<byte>, cs: seq<Chunk>) {
    && HeaderOk(file) && Layout(file, cs)
    && (EndOf(cs) == |file| || (cs != [] && CutAudio(file, cs[|cs| - 1])))
    && EndOf(cs) <= RiffEnd(file)
    && forall i :: 0 <= i < |cs| ==> FormatOk(file, cs[i])
  }

  ghost predicate OneOfEach(cs: seq<Chunk>) { CountTag(cs, FMT) == 1 && CountTag(cs, DATA) == 1 }

  /** Tiled exactly from byte 12 to the physical end, which is the declared end. */
  ghost predicate Complete(file: seq<byte>, cs: seq<Chunk>) {
    Covers(file, cs) && OneOfEach(cs) && EndOf(cs) == |file| == RiffEnd(file)
  }

  /** Such a tiling whose last chunk is the cut-short audio payload. */
  ghost predicate Truncated(file: seq<byte>, cs: seq<Chunk>) {
    Covers(file, cs) && OneOfEach(cs) && cs != [] && CutAudio(file, cs[|cs| - 1])
  }

  // ------------------------------------------------------------- layouts are unique

  lemma {:induction false} LayoutsAgree(file: seq<byte>, a: seq<Chunk>, b: seq<Chunk>, i: nat)
    requires Layout(file, a) && Layout(file, b) && i < |a| && i < |b|
    ensures a[i] == b[i]
  {
    if i > 0 { LayoutsAgree(file, a, b, i - 1); }
    assert Placed(file, a, i) && Placed(file, b, i);
  }

  lemma {:induction false} StartsGrow(cs: seq<Chunk>, file: seq<byte>, i: nat, j: nat)
    requires Layout(file, cs) && i <= j <= |cs|
    ensures StartOf(cs, i) <= StartOf(cs, j)
  {
    if i < j {
      StartsGrow(cs, file, i, j - 1);
      assert Placed(file, cs, j - 1);
    }
  }

  /** Layouts that have the same chunks so far continue at the same place. */
  lemma LayoutsContinue(file: seq<byte>, a: seq<Chunk>, b: seq<Chunk>, n: nat)
    requires Layout(file, a) && Layout(file, b) && n <= |a| && n <= |b|
    ensures a[..n] == b[..n] && StartOf(a, n) == StartOf(b, n)
  {
    forall i | 0 <= i < n ensures a[i] == b[i] { LayoutsAgree(file, a, b, i); }
  }

  /** A chunk that a layout still has to place starts before the end of the file. */
  lemma StartsInside(file: seq<byte>, cs: seq<Chunk>, n: nat)
    requires Layout(file, cs) && n < |cs|
    ensures cs[n].offset == StartOf(cs, n) && StartOf(cs, n) + 8 <= |file| && ChunkAt(file, cs[n])
  {
    assert Placed(file, cs, n);
  }

  /** Any covering layout goes through the place the walk has reached. */
  lemma WalkIsPrefix(file: seq<byte>, done: seq<Chunk>, cs: seq<Chunk>)
    requires Covers(file, cs) && Layout(file, done) && EndOf(done) <= |file|
    ensures |done| <= |cs| && done == cs[..|done|]
    ensures EndOf(done) < |file| ==> |done| < |cs|
  {
    if |cs| < |done| {
      LayoutsContinue(file, done, cs, |cs|);
      StartsInside(file, done, |cs|);
    } else {
      LayoutsContinue(file, done, cs, |done|);
    }
  }

  lemma WalkIsWhole(file: seq<byte>, done: seq<Chunk>, cs: seq<Chunk>)
    requires Covers(file, cs) && Layout(file, done) && EndOf(done) == |file|
    ensures done == cs
  {
    WalkIsPrefix(file, done, cs);
    LayoutsContinue(file, done, cs, |done|);
    if |done| < |cs| { StartsInside(file, cs, |done|); }
  }

  /** What follows a chunk starts behind it and inside the file. */
  lemma ChunksBehind(file: seq<byte>, cs: seq<Chunk>, n: nat)
    requires Layout(file, cs) && n < |cs|
    ensures PaddedEnd(cs[n]) <= EndOf(cs) && (n + 1 < |cs| ==> PaddedEnd(cs[n]) <= |file|)
  {
    StartsGrow(cs, file, n + 1, |cs|);
    if n + 1 < |cs| {
      StartsInside(file, cs, |cs| - 1);
      StartsGrow(cs, file, n + 1, |cs| - 1);
    }
  }

  /** The chunk at the walk's position, as a covering layout must contain it. */
  lemma NextChunk(file: seq<byte>, done: seq<Chunk>, cs: seq<Chunk>)
    requires |file| >= 12 && Covers(file, cs) && Layout(file, done) && EndOf(done) < |file|
    ensures |done| < |cs| && cs[|done|].offset == EndOf(done) && ChunkAt(file, cs[|done|])
    ensures PaddedEnd(cs[|done|]) <= RiffEnd(file) && FormatOk(file, cs[|done|])
    ensures PaddedEnd(cs[|done|]) <= |file| || (cs == done + [cs[|done|]] && CutAudio(file, cs[|done|]))
  {
    var n := |done|;
    WalkIsPrefix(file, done, cs);
    LayoutsContinue(file, done, cs, n);
    StartsInside(file, cs, n);
    ChunksBehind(file, cs, n);
    if n + 1 == |cs| { assert cs == done + [cs[n]]; }
  }

  /** A walk that cannot read a header where it stands has no covering layout to find. */
  lemma NoHeaderHere(file: seq<byte>, done: seq<Chunk>)
    requires |file| >= 12 && Layout(file, done) && EndOf(done) < |file| < EndOf(done) + 8
    ensures forall cs :: !Covers(file, cs)
  {
    forall cs ensures !Covers(file, cs) {
      if Covers(file, cs) { NextChunk(file, done, cs); }
    }
  }

  /** The chunk under the walk, if it breaks a rule, breaks it in every candidate layout. */
  lemma NoLayoutHere(file: seq<byte>, done: seq<Chunk>, c: Chunk)
    requires |file| >= 12 && Layout(file, done) && c.offset == EndOf(done) < |file| && ChunkAt(file, c)
    requires PaddedEnd(c) > RiffEnd(file) || !FormatOk(file, c) || (PaddedEnd(c) > |file| && !CutAudio(file, c))
    ensures forall cs :: !Covers(file, cs)
  {
    forall cs ensures !Covers(file, cs) {
      if Covers(file, cs) {
        NextChunk(file, done, cs);
        SameChunk(file, c, cs[|done|]);
      }
    }
  }

  lemma SameChunk(file: seq<byte>, a: Chunk, b: Chunk)
    requires ChunkAt(file, a) && ChunkAt(file, b) && a.offset == b.offset
    ensures a == b
  {}

  lemma LayoutSnoc(file: seq<byte>, cs: seq<Chunk>, c: Chunk)
    requires Layout(file, cs) && ChunkAt(file, c) && c.offset == EndOf(cs)
    ensures Layout(file, cs + [c]) && EndOf(cs + [c]) == PaddedEnd(c)
  {
    var all := cs + [c];
    forall i: nat | i < |all| ensures Placed(file, all, i) {
      if i < |cs| { assert Placed(file, cs, i); }
    }
  }

  lemma CountSnoc(cs: seq<Chunk>, c: Chunk, tag: seq<byte>)
    ensures CountTag(cs + [c], tag) == CountTag(cs, tag) + (if c.tag == tag then 1 else 0)
  {
    assert (cs + [c])[..|cs|] == cs;
  }

  // ----------------------------------------------------------------------- the walk

  datatype Walk = Rejected | Walked(declaredAudioBytes: nat, truncated: bool)

  /** The size of the last audio chunk. */
  ghost function AudioBytes(cs: seq<Chunk>): Option<nat> {
    if cs == [] then None
    else if cs[|cs| - 1].tag == DATA then Some(cs[|cs| - 1].size)
    else AudioBytes(cs[..|cs| - 1])
  }

  ghost predicate Acceptable(file: seq<byte>, cs: seq<Chunk>) { Complete(file, cs) || Truncated(file, cs) }

  /** What the walk has established before it looks at the next chunk header. */
  ghost predicate Progress(file: seq<byte>, done: seq<Chunk>, offset: nat, formats: nat, audios: nat, declared: Option<nat>) {
    && HeaderOk(file) && Layout(file, done) && offset == EndOf(done) && offset <= |file| <= RiffEnd(file)
    && (forall i :: 0 <= i < |done| ==> FormatOk(file, done[i]))
    && formats == CountTag(done, FMT) && audios == CountTag(done, DATA) && declared == AudioBytes(done)
  }

  lemma ProgressSnoc(file: seq<byte>, done: seq<Chunk>, offset: nat, formats: nat, audios: nat,
                     declared: Option<nat>, c: Chunk)
    requires Progress(file, done, offset, formats, audios, declared)
    requires ChunkAt(file, c) && c.offset == offset && FormatOk(file, c)
    ensures var all := done + [c];
            && Layout(file, all) && EndOf(all) == PaddedEnd(c)
            && (forall i :: 0 <= i < |all| ==> FormatOk(file, all[i]))
            && CountTag(all, FMT) == formats + (if c.tag == FMT then 1 else 0)
            && CountTag(all, DATA) == audios + (if c.tag == DATA then 1 else 0)
            && AudioBytes(all) == (if c.tag == DATA then Some(c.size) else declared)
  {
    LayoutSnoc(file, done, c);
    CountSnoc(done, c, FMT);
    CountSnoc(done, c, DATA);
    assert (done + [c])[..|done|] == done;
  }

  /** The loop of `_wav_info`. It accepts a file as complete exactly when padded chunks
      with one `fmt ` and one `data` tile it from byte 12 to its declared and physical
      end, and as truncated exactly when such a tiling ends in a cut audio payload. */
  method WalkRiff(file: seq<byte>) returns (r: Walk)
    ensures r.Walked? && !r.truncated <==> exists cs :: Complete(file, cs)
    ensures r.Walked? && r.truncated <==> exists cs :: Truncated(file, cs)
    ensures r.Walked? ==> exists cs :: Acceptable(file, cs) && AudioBytes(cs) == Some(r.declaredAudioBytes)
  {
    if |file| < 12 || file[..4] != RIFF || file[8..12] != WAVE { return Rejected; }
    var riffEnd := RiffEnd(file);
    if |file| > riffEnd {
      forall cs | Acceptable(file, cs) ensures false { AcceptableFits(file, cs); }
      return Rejected;
    }
    var offset, audioChunks, formatChunks := 12, 0, 0;
    var declared: Option<nat> := None;
    ghost var done: seq<Chunk> := [];
    while offset < |file|
      invariant Progress(file, done, offset, formatChunks, audioChunks, declared)
      decreases |file| - offset
    {
      if offset + 8 > |file| {
        NoHeaderHere(file, done);
        return Rejected;
      }
      var size := Le32(file, offset + 4);
      var tag := file[offset..offset + 4];
      var payloadEnd := offset + 8 + size;
      var nextOffset := payloadEnd + size % 2;
      ghost var c := Chunk(tag, offset, size);
      if nextOffset > riffEnd || (tag == FMT && (size < 16 || offset + 24 > |file| || !FormatConsistent(file, offset + 8)))
         || (nextOffset > |file| && (tag != DATA || |file| >= payloadEnd)) {
        NoLayoutHere(file, done, c);
        return Rejected;
      }
      ProgressSnoc(file, done, offset, formatChunks, audioChunks, declared, c);
      if tag == FMT { formatChunks := formatChunks + 1; }
      if tag == DATA {
        audioChunks := audioChunks + 1;
        declared := Some(size);
      }
      done := done + [c];
      if nextOffset > |file| {
        r := CloseTruncated(file, done, formatChunks, audioChunks, declared);
        return;
      }
      offset := nextOffset;
    }
    r := CloseComplete(file, done, formatChunks, audioChunks, declared);
  }

  lemma AcceptableFits(file: seq<byte>, cs: seq<Chunk>)
    requires Acceptable(file, cs)
    ensures |file| <= RiffEnd(file)
  {}

  /** The checks after a walk that reached the end of the file. */
  method CloseComplete(file: seq<byte>, ghost done: seq<Chunk>, formatChunks: nat, audioChunks: nat, declared: Option<nat>)
    returns (r: Walk)
    requires Progress(file, done, |file|, formatChunks, audioChunks, declared)
    ensures r.Walked? && !r.truncated <==> exists cs :: Complete(file, cs)
    ensures r.Walked? && r.truncated <==> exists cs :: Truncated(file, cs)
    ensures r.Walked? ==> Acceptable(file, done) && AudioBytes(done) == Some(r.declaredAudioBytes)
  {
    forall cs | Covers(file, cs) ensures cs == done { WalkIsWhole(file, done, cs); }
    if formatChunks != 1 || audioChunks != 1 || |file| < RiffEnd(file) || declared.None? {
      AudioCounted(done);
      return Rejected;
    }
    assert Complete(file, done);
    r := Walked(declared.value, false);
  }

  /** The checks after a walk that stopped in a cut audio payload. */
  method CloseTruncated(file: seq<byte>, ghost done: seq<Chunk>, formatChunks: nat, audioChunks: nat, declared: Option<nat>)
    returns (r: Walk)
    requires Covers(file, done) && done != [] && CutAudio(file, done[|done| - 1])
    requires formatChunks == CountTag(done, FMT) && audioChunks == CountTag(done, DATA) && declared == AudioBytes(done)
    ensures r.Walked? && !r.truncated <==> exists cs :: Complete(file, cs)
    ensures r.Walked? && r.truncated <==> exists cs :: Truncated(file, cs)
    ensures r.Walked? ==> Acceptable(file, done) && AudioBytes(done) == Some(r.declaredAudioBytes)
  {
    forall cs | Covers(file, cs) ensures cs == done { CutIsUnique(file, done, cs); }
    if formatChunks != 1 || audioChunks != 1 { return Rejected; }
    assert Truncated(file, done);
    r := Walked(declared.value, true);
  }

  lemma {:induction false} AudioCounted(cs: seq<Chunk>)
    ensures CountTag(cs, DATA) > 0 <==> AudioBytes(cs).Some?
  {
    if cs != [] { AudioCounted(cs[..|cs| - 1]); }
  }

  lemma CutIsUnique(file: seq<byte>, a: seq<Chunk>, b: seq<Chunk>)
    requires Covers(file, a) && a != [] && CutAudio(file, a[|a| - 1]) && Covers(file, b)
    ensures a == b
  {
    var front := a[..|a| - 1];
    StartsInside(file, a, |front|);
    assert Layout(file, front) by {
      forall i: nat | i < |front| ensures Placed(file, front, i) { assert Placed(file, a, i); }
    }
    NextChunk(file, front, b);
    LayoutsAgree(file, a, b, |front|);
  }

  /** A file has at most one acceptable reading, so it is never both complete and cut. */
  lemma ReadingIsUnique(file: seq<byte>, a: seq<Chunk>, b: seq<Chunk>)
    requires Acceptable(file, a) && Acceptable(file, b)
    ensures a == b && !(Complete(file, a) && Truncated(file, a))
  {
    if Truncated(file, a) {
      CutIsUnique(file, a, b);
      StartsInside(file, a, |a| - 1);
    } else if Truncated(file, b) {
      CutIsUnique(file, b, a);
    } else {
      WalkIsWhole(file, a, b);
    }
  }

  // ------------------------------------------------------------------ _wav_info

  /** What the `wave` reader reports about the file it opened. */
  datatype WaveView = WaveView(compressed: bool, sampleWidth: nat, channels: nat, rate: int, frames: nat)

  datatype Info = Info(channels: nat, rate: nat, frames: nat)

  predicate ViewOk(view: WaveView) {
    !view.compressed && view.sampleWidth == 2 && (view.channels == 1 || view.channels == 2) && view.rate > 0
  }

  /** The reader takes its frame count from the audio chunk and rounds a half frame down. */
  ghost predicate ReaderRoundsDown(view: WaveView, audioBytes: nat) {
    view.channels > 0 && view.frames == audioBytes / (2 * view.channels)
  }

  /** `_wav_info`: the walk, then the reader's own report. The frame count it returns never
      hides half a frame: it stands for every declared audio byte. */
  method WavInfo(file: seq<byte>, view: WaveView) returns (r: Option<Info>)
    ensures r.Some? <==> ViewOk(view) && exists cs :: Acceptable(file, cs) && AudioBytes(cs).Some?
                                                     && AudioBytes(cs).value % (2 * view.channels) == 0
    ensures r.Some? ==> r.value == Info(view.channels, view.rate, view.frames)
    ensures r.Some? ==> !view.compressed && view.sampleWidth == 2 && view.channels in {1, 2} && view.rate > 0
    ensures forall cs :: r.Some? && Acceptable(file, cs) && AudioBytes(cs).Some?
                         && ReaderRoundsDown(view, AudioBytes(cs).value)
                         ==> r.value.frames * (2 * r.value.channels) == AudioBytes(cs).value
  {
    var walk := WalkRiff(file);
    if walk.Rejected? {
      assert forall cs :: !Acceptable(file, cs);
      return None;
    }
    ghost var layout :| Acceptable(file, layout) && AudioBytes(layout) == Some(walk.declaredAudioBytes);
    forall cs | Acceptable(file, cs) ensures cs == layout { ReadingIsUnique(file, cs, layout); }
    if view.compressed || view.sampleWidth != 2 { return None; }
    if (view.channels != 1 && view.channels != 2) || view.rate <= 0 { return None; }
    var frameBytes := view.channels * view.sampleWidth;
    if walk.declaredAudioBytes % frameBytes != 0 { return None; }
    r := Some(Info(view.channels, view.rate, view.frames));
  }
}
