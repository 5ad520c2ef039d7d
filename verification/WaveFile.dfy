/**
 Canonical PCM WAV files, written byte by byte, and what the RIFF walk makes of them and of
 every way of cutting them short.
 */
module WaveFile {
  import opened CoreNotifications
  import opened RiffWalk

  // ----------------------------------------------------------- little-endian numbers

  function Bytes16(n: nat): (b: seq<byte>)
    requires n < 0x1_0000
    ensures |b| == 2
  {
    [n % 0x100, n / 0x100]
  }

  function Bytes32(n: nat): (b: seq<byte>)
    requires n < 0x1_0000_0000
    ensures |b| == 4
  {
    [n % 0x100, n / 0x100 % 0x100, n / 0x100 / 0x100 % 0x100, n / 0x100 / 0x100 / 0x100]
  }

  /** Two bytes read as `n` exactly when they are the little-endian bytes of `n`. */
  lemma Le16Iff(file: seq<byte>, at: nat, n: nat)
    requires at + 2 <= |file| && n < 0x1_0000
    ensures Le16(file, at) == n <==> file[at..at + 2] == Bytes16(n)
  {
    var b := file[at..at + 2];
    assert b[0] == file[at] && b[1] == file[at + 1];
    if Le16(file, at) == n { assert b == Bytes16(n); }
  }

  lemma LowDigit(n: nat, low: int, rest: int)
    requires 0 <= low < 0x100
    ensures n == low + 0x100 * rest <==> n % 0x100 == low && n / 0x100 == rest
  {}

  /** Four bytes read as `n` exactly when they are the little-endian bytes of `n`. */
  lemma Le32Iff(file: seq<byte>, at: nat, n: nat)
    requires at + 4 <= |file| && n < 0x1_0000_0000
    ensures Le32(file, at) == n <==> file[at..at + 4] == Bytes32(n)
  {
    var b := file[at..at + 4];
    var d0: int, d1: int, d2: int, d3: int := file[at], file[at + 1], file[at + 2], file[at + 3];
    assert b == [d0, d1, d2, d3];
    var upper := d2 + 0x100 * d3;
    var rest := d1 + 0x100 * upper;
    assert Le32(file, at) == d0 + 0x100 * rest;
    LowDigit(n, d0, rest);
    LowDigit(n / 0x100, d1, upper);
    LowDigit(n / 0x100 / 0x100, d2, d3);
    assert [d0, d1, d2, d3] == Bytes32(n) <==>
           Bytes32(n)[0] == d0 && Bytes32(n)[1] == d1 && Bytes32(n)[2] == d2 && Bytes32(n)[3] == d3;
  }

  // ---------------------------------------------------------------- the format chunk

  predicate FormatFits(tag: nat, channels: nat, rate: nat) {
    (tag == 1 || tag == 0xFFFE) && (channels == 1 || channels == 2) && 0 < rate && rate * (2 * channels) < 0x1_0000_0000
  }

  function FormatBytes(tag: nat, channels: nat, rate: nat): (b: seq<byte>)
    requires FormatFits(tag, channels, rate)
    ensures |b| == 16
  {
    Bytes16(tag) + Bytes16(channels) + Bytes32(rate) + Bytes32(rate * (2 * channels)) + Bytes16(2 * channels) + Bytes16(16)
  }

  lemma FormatSlices(file: seq<byte>, at: nat, tag: nat, channels: nat, rate: nat)
    requires at + 16 <= |file| && FormatFits(tag, channels, rate)
    ensures file[at..at + 16] == FormatBytes(tag, channels, rate) <==>
            && file[at..at + 2] == Bytes16(tag) && file[at + 2..at + 4] == Bytes16(channels)
            && file[at + 4..at + 8] == Bytes32(rate) && file[at + 8..at + 12] == Bytes32(rate * (2 * channels))
            && file[at + 12..at + 14] == Bytes16(2 * channels) && file[at + 14..at + 16] == Bytes16(16)
  {
    var b, f := file[at..at + 16], FormatBytes(tag, channels, rate);
    assert b == file[at..at + 2] + file[at + 2..at + 4] + file[at + 4..at + 8] + file[at + 8..at + 12] + file[at + 12..at + 14] + file[at + 14..at + 16];
    if b == f {
      assert f[..2] == Bytes16(tag) && f[2..4] == Bytes16(channels) && f[4..8] == Bytes32(rate);
      assert f[8..12] == Bytes32(rate * (2 * channels)) && f[12..14] == Bytes16(2 * channels) && f[14..16] == Bytes16(16);
      assert b[..2] == file[at..at + 2] && b[2..4] == file[at + 2..at + 4] && b[4..8] == file[at + 4..at + 8];
      assert b[8..12] == file[at + 8..at + 12] && b[12..14] == file[at + 12..at + 14] && b[14..16] == file[at + 14..at + 16];
    }
  }

  lemma FormatReads(file: seq<byte>, at: nat, tag: nat, channels: nat, rate: nat)
    requires at + 16 <= |file| && FormatFits(tag, channels, rate)
    ensures file[at..at + 16] == FormatBytes(tag, channels, rate) <==>
            && Le16(file, at) == tag && Le16(file, at + 2) == channels && Le32(file, at + 4) == rate
            && Le32(file, at + 8) == rate * (2 * channels) && Le16(file, at + 12) == 2 * channels && Le16(file, at + 14) == 16
  {
    FormatSlices(file, at, tag, channels, rate);
    Le16Iff(file, at, tag);
    Le16Iff(file, at + 2, channels);
    Le32Iff(file, at + 4, rate);
    Le32Iff(file, at + 8, rate * (2 * channels));
    Le16Iff(file, at + 12, 2 * channels);
    Le16Iff(file, at + 14, 16);
  }

  /** The walk accepts sixteen format bytes exactly when they are those of plain or extensible
      16-bit PCM with one or two channels and some rate. */
  lemma FormatIff(file: seq<byte>, at: nat)
    requires at + 16 <= |file|
    ensures FormatConsistent(file, at) <==>
            exists tag, channels, rate ::
              FormatFits(tag, channels, rate) && file[at..at + 16] == FormatBytes(tag, channels, rate)
  {
    if FormatConsistent(file, at) {
      FormatReads(file, at, Le16(file, at), Le16(file, at + 2), Le32(file, at + 4));
    }
    if tag, channels, rate :| FormatFits(tag, channels, rate) && file[at..at + 16] == FormatBytes(tag, channels, rate) {
      FormatReads(file, at, tag, channels, rate);
    }
  }

  // -------------------------------------------------------------------- written files

  /** A sound to be written: everything its header declares fits in 32 bits. */
  datatype Sound = Sound(channels: nat, rate: nat, payload: seq<byte>)

  predicate Writable(x: Sound) {
    FormatFits(1, x.channels, x.rate) && 36 + |x.payload| + |x.payload| % 2 < 0x1_0000_0000
  }

  function RiffPart(x: Sound): (b: seq<byte>)
    requires Writable(x)
    ensures |b| == 12
  {
    RIFF + Bytes32(36 + |x.payload| + |x.payload| % 2) + WAVE
  }

  function FormatPart(x: Sound): (b: seq<byte>)
    requires Writable(x)
    ensures |b| == 24
  {
    FMT + Bytes32(16) + FormatBytes(1, x.channels, x.rate)
  }

  function DataPart(x: Sound): (b: seq<byte>)
    requires Writable(x)
    ensures |b| == 8
  {
    DATA + Bytes32(|x.payload|)
  }

  function Header(x: Sound): (b: seq<byte>)
    requires Writable(x)
    ensures |b| == 44
  {
    RiffPart(x) + FormatPart(x) + DataPart(x)
  }

  function Written(x: Sound): (file: seq<byte>)
    requires Writable(x)
    ensures |file| == 44 + |x.payload| + |x.payload| % 2
  {
    Header(x) + x.payload + (if |x.payload| % 2 == 1 then [0] else [])
  }

  function FormatChunk(): Chunk { Chunk(FMT, 12, 16) }

  function DataChunk(x: Sound): Chunk { Chunk(DATA, 36, |x.payload|) }

  lemma HeaderParts(x: Sound)
    requires Writable(x)
    ensures var b := Header(x);
            && b[..4] == RIFF && b[4..8] == Bytes32(36 + |x.payload| + |x.payload| % 2) && b[8..12] == WAVE
            && b[12..16] == FMT && b[16..20] == Bytes32(16) && b[20..36] == FormatBytes(1, x.channels, x.rate)
            && b[36..40] == DATA && b[40..44] == Bytes32(|x.payload|)
  {
    var r, f, d := RiffPart(x), FormatPart(x), DataPart(x);
    ThreeParts(r, f, d);
    assert r[..4] == RIFF && r[4..8] == Bytes32(36 + |x.payload| + |x.payload| % 2) && r[8..12] == WAVE;
    assert f[..4] == FMT && f[4..8] == Bytes32(16) && f[8..24] == FormatBytes(1, x.channels, x.rate);
    assert d[..4] == DATA && d[4..8] == Bytes32(|x.payload|);
  }

  lemma ThreeParts(r: seq<byte>, f: seq<byte>, d: seq<byte>)
    requires |r| == 12 && |f| == 24 && |d| == 8
    ensures var b := r + f + d;
            && b[..4] == r[..4] && b[4..8] == r[4..8] && b[8..12] == r[8..12]
            && b[12..16] == f[..4] && b[16..20] == f[4..8] && b[20..36] == f[8..24]
            && b[36..40] == d[..4] && b[40..44] == d[4..8]
  {}

  lemma PrefixSlice(x: Sound, n: nat, from: nat, to: nat)
    requires Writable(x) && from <= to <= 44 && to <= n <= |Written(x)|
    ensures Written(x)[..n][from..to] == Header(x)[from..to]
  {
    var pad := if |x.payload| % 2 == 1 then [0] else [];
    assert Header(x) + x.payload + pad == Header(x) + (x.payload + pad);
    SliceOfFront(Header(x), x.payload + pad, n, from, to);
  }

  lemma SliceOfFront(front: seq<byte>, rest: seq<byte>, n: nat, from: nat, to: nat)
    requires from <= to <= |front| && to <= n <= |front| + |rest|
    ensures (front + rest)[..n][from..to] == front[from..to]
  {
    var a, b := (front + rest)[..n][from..to], front[from..to];
    assert |a| == |b|;
    forall i | 0 <= i < |a| ensures a[i] == b[i] {
      assert a[i] == (front + rest)[..n][from + i] == (front + rest)[from + i] == front[from + i];
    }
  }

  /** What the first `n` bytes say, as far as they go. */
  lemma PrefixReads(x: Sound, n: nat)
    requires Writable(x) && n <= |Written(x)|
    ensures var file := Written(x)[..n];
            && (n >= 12 ==> HeaderOk(file) && RiffEnd(file) == |Written(x)|)
            && (n >= 20 ==> ChunkAt(file, FormatChunk()))
            && (n >= 36 ==> FormatOk(file, FormatChunk()))
            && (n >= 44 ==> ChunkAt(file, DataChunk(x)))
  {
    var file := Written(x)[..n];
    HeaderParts(x);
    if n >= 12 {
      PrefixSlice(x, n, 0, 4);
      PrefixSlice(x, n, 4, 8);
      PrefixSlice(x, n, 8, 12);
      assert file[0..4] == file[..4];
      Le32Iff(file, 4, 36 + |x.payload| + |x.payload| % 2);
    }
    if n >= 20 {
      PrefixSlice(x, n, 12, 16);
      PrefixSlice(x, n, 16, 20);
      Le32Iff(file, 16, 16);
    }
    if n >= 36 {
      PrefixSlice(x, n, 20, 36);
      FormatIff(file, 20);
    }
    if n >= 44 {
      PrefixSlice(x, n, 36, 40);
      PrefixSlice(x, n, 40, 44);
      Le32Iff(file, 40, |x.payload|);
    }
  }

  lemma Counts(x: Sound)
    ensures var cs := [FormatChunk(), DataChunk(x)];
            OneOfEach(cs) && AudioBytes(cs) == Some(|x.payload|) && CountTag([FormatChunk()], DATA) == 0 && CountTag([], DATA) == 0
  {
    var f, d := FormatChunk(), DataChunk(x);
    assert f.tag[0] != d.tag[0];
    CountSnoc([], f, FMT);
    CountSnoc([], f, DATA);
    CountSnoc([f], d, FMT);
    CountSnoc([f], d, DATA);
    assert [] + [f] == [f] && [f] + [d] == [f, d];
  }

  lemma FormatLayout(file: seq<byte>)
    requires ChunkAt(file, FormatChunk())
    ensures Layout(file, []) && Layout(file, [FormatChunk()]) && EndOf([FormatChunk()]) == 36
  {
    LayoutSnoc(file, [], FormatChunk());
    assert [] + [FormatChunk()] == [FormatChunk()];
  }

  lemma FullLayout(x: Sound, n: nat)
    requires Writable(x) && 44 <= n <= |Written(x)| && (n < 44 + |x.payload| || n == |Written(x)|)
    ensures Covers(Written(x)[..n], [FormatChunk(), DataChunk(x)])
  {
    var file := Written(x)[..n];
    PrefixReads(x, n);
    FormatLayout(file);
    LayoutSnoc(file, [FormatChunk()], DataChunk(x));
    assert [FormatChunk()] + [DataChunk(x)] == [FormatChunk(), DataChunk(x)];
  }

  /** A cut that leaves no part of the audio, or only its pad byte missing. */
  lemma NothingToRead(x: Sound, n: nat)
    requires Writable(x) && n < |Written(x)| && !(44 <= n < 44 + |x.payload|)
    ensures forall cs :: !Acceptable(Written(x)[..n], cs)
  {
    var file := Written(x)[..n];
    PrefixReads(x, n);
    Counts(x);
    if n < 12 {
    } else if n == 12 {
      forall cs | Covers(file, cs) ensures cs == [] { WalkIsWhole(file, [], cs); }
    } else if n < 20 {
      NoHeaderHere(file, []);
    } else if n < 36 {
      NoLayoutHere(file, [], FormatChunk());
    } else if n == 36 {
      FormatLayout(file);
      forall cs | Covers(file, cs) ensures cs == [FormatChunk()] { WalkIsWhole(file, [FormatChunk()], cs); }
    } else if n < 44 {
      FormatLayout(file);
      NoHeaderHere(file, [FormatChunk()]);
    } else {
      FormatLayout(file);
      NoLayoutHere(file, [FormatChunk()], DataChunk(x));
    }
  }

  lemma WholeFile(x: Sound)
    requires Writable(x)
    ensures Complete(Written(x)[..|Written(x)|], [FormatChunk(), DataChunk(x)])
  {
    Counts(x);
    PrefixReads(x, |Written(x)|);
    FullLayout(x, |Written(x)|);
  }

  lemma CutInAudio(x: Sound, n: nat)
    requires Writable(x) && 44 <= n < 44 + |x.payload|
    ensures Truncated(Written(x)[..n], [FormatChunk(), DataChunk(x)])
  {
    Counts(x);
    FullLayout(x, n);
  }

  lemma NoOtherReading(file: seq<byte>, cs: seq<Chunk>)
    requires Acceptable(file, cs)
    ensures (exists ds :: Complete(file, ds)) <==> Complete(file, cs)
    ensures (exists ds :: Truncated(file, ds)) <==> !Complete(file, cs)
  {
    forall ds | Acceptable(file, ds) ensures ds == cs { ReadingIsUnique(file, cs, ds); }
    ReadingIsUnique(file, cs, cs);
    assert forall ds :: Complete(file, ds) || Truncated(file, ds) ==> Acceptable(file, ds);
  }

  /** The walk's verdict on a written file and on every cut of it: complete exactly when
      nothing is missing, truncated exactly when the cut falls inside the audio payload, and
      in both cases the declared audio is the whole payload. */
  lemma WrittenVerdict(x: Sound, n: nat)
    requires Writable(x) && n <= |Written(x)|
    ensures var file, cs := Written(x)[..n], [FormatChunk(), DataChunk(x)];
            && AudioBytes(cs) == Some(|x.payload|)
            && (n == |Written(x)| ==> Complete(file, cs))
            && (44 <= n < 44 + |x.payload| ==> Truncated(file, cs))
            && ((exists ds :: Complete(file, ds)) <==> n == |Written(x)|)
            && ((exists ds :: Truncated(file, ds)) <==> 44 <= n < 44 + |x.payload|)
  {
    var file, cs := Written(x)[..n], [FormatChunk(), DataChunk(x)];
    Counts(x);
    if n == |Written(x)| {
      WholeFile(x);
      NoOtherReading(file, cs);
    } else if 44 <= n < 44 + |x.payload| {
      CutInAudio(x, n);
      ReadingIsUnique(file, cs, cs);
      NoOtherReading(file, cs);
    } else {
      NothingToRead(x, n);
      assert forall ds :: Complete(file, ds) || Truncated(file, ds) ==> Acceptable(file, ds);
    }
  }

  /** Bytes after the end of a written file are never overlooked. */
  lemma TrailingBytesRefused(x: Sound, more: seq<byte>, cs: seq<Chunk>)
    requires Writable(x) && more != []
    ensures !Acceptable(Written(x) + more, cs)
  {
    var file := Written(x) + more;
    PrefixReads(x, |Written(x)|);
    assert Written(x)[..|Written(x)|] == Written(x);
    assert RiffEnd(file) == RiffEnd(Written(x));
  }
}
