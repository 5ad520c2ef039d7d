/**
 Decoding of an interleaved 16-bit PCM payload in bounded batches. The payload is the audio
 bytes that are really in the file.
 */
module PcmFrames {
  import opened CoreNotifications
  import opened RiffWalk

  type Frame = seq<int>

  const READ_FRAMES: nat := 4096

  /** A signed little-endian 16-bit sample. */
  function SampleAt(bytes: seq<byte>, at: nat): int
    requires at + 2 <= |bytes|
  {
    var u := Le16(bytes, at);
    if u < 0x8000 then u else u - 0x1_0000
  }

  predicate Supported(channels: nat) { channels == 1 || channels == 2 }

  /** The bytes of one frame: two a channel. */
  function Width(channels: nat): nat
    requires Supported(channels)
  {
    2 * channels
  }

  /** Frames laid end to end, the last of them not cut. */
  ghost predicate Whole(bytes: seq<byte>, channels: nat)
    requires Supported(channels)
    decreases |bytes|
  {
    bytes == [] || (|bytes| >= Width(channels) && Whole(bytes[Width(channels)..], channels))
  }

  /** The remainder test on a length. */
  predicate Divisible(n: nat, channels: nat)
    requires Supported(channels)
  {
    if channels == 1 then n % 2 == 0 else n % 4 == 0
  }

  lemma {:induction false} WholeIffDivisible(bytes: seq<byte>, channels: nat)
    requires Supported(channels)
    ensures Whole(bytes, channels) <==> Divisible(|bytes|, channels)
    decreases |bytes|
  {
    if |bytes| >= Width(channels) { WholeIffDivisible(bytes[Width(channels)..], channels); }
  }

  /** One frame's bytes as its samples, one a channel. */
  function FrameOf(bytes: seq<byte>, channels: nat): Frame
    requires Supported(channels) && |bytes| == Width(channels)
  {
    if channels == 1 then [SampleAt(bytes, 0)] else [SampleAt(bytes, 0), SampleAt(bytes, 2)]
  }

  /** One unpacking of a whole number of frames. */
  ghost function Unpack(bytes: seq<byte>, channels: nat): (frames: seq<Frame>)
    requires Supported(channels) && Whole(bytes, channels)
    decreases |bytes|
  {
    if bytes == [] then []
    else [FrameOf(bytes[..Width(channels)], channels)] + Unpack(bytes[Width(channels)..], channels)
  }

  lemma Slices(bytes: seq<byte>, w: nat, n: nat)
    requires w <= n <= |bytes|
    ensures bytes[..n][w..] == bytes[w..][..n - w] && bytes[w..][n - w..] == bytes[n..] && bytes[..n][..w] == bytes[..w]
  {}

  lemma {:induction false} WholeSplit(bytes: seq<byte>, n: nat, channels: nat)
    requires Supported(channels) && n <= |bytes| && Whole(bytes[..n], channels)
    ensures Whole(bytes, channels) <==> Whole(bytes[n..], channels)
    decreases n
  {
    if n == 0 {
      assert bytes[0..] == bytes;
    } else {
      Slices(bytes, Width(channels), n);
      WholeSplit(bytes[Width(channels)..], n - Width(channels), channels);
    }
  }

  /** Cutting a payload at a frame edge cuts its frames the same way. */
  lemma {:induction false} UnpackSplit(bytes: seq<byte>, n: nat, channels: nat)
    requires Supported(channels) && n <= |bytes|
    requires Whole(bytes, channels) && Whole(bytes[..n], channels) && Whole(bytes[n..], channels)
    ensures Unpack(bytes, channels) == Unpack(bytes[..n], channels) + Unpack(bytes[n..], channels)
    decreases n
  {
    if n == 0 {
      assert bytes[0..] == bytes;
    } else {
      Slices(bytes, Width(channels), n);
      UnpackSplit(bytes[Width(channels)..], n - Width(channels), channels);
    }
  }

  ghost predicate Uniform(frames: seq<Frame>, channels: nat) {
    forall k :: 0 <= k < |frames| ==> |frames[k]| == channels
  }

  /** Every decoded frame has one sample per channel. */
  lemma {:induction false} UnpackUniform(bytes: seq<byte>, channels: nat)
    requires Supported(channels) && Whole(bytes, channels)
    ensures Uniform(Unpack(bytes, channels), channels)
    decreases |bytes|
  {
    if bytes != [] { UnpackUniform(bytes[Width(channels)..], channels); }
  }

  lemma {:induction false} UnpackLength(bytes: seq<byte>, channels: nat)
    requires Supported(channels) && Whole(bytes, channels)
    ensures if channels == 1 then |bytes| == 2 * |Unpack(bytes, channels)| else |bytes| == 4 * |Unpack(bytes, channels)|
    decreases |bytes|
  {
    if bytes != [] { UnpackLength(bytes[Width(channels)..], channels); }
  }

  // ----------------------------------------------------------------- the inverse

  lemma SameFrameSameBytes(a: seq<byte>, b: seq<byte>, channels: nat)
    requires Supported(channels) && |a| == |b| == Width(channels) && FrameOf(a, channels) == FrameOf(b, channels)
    ensures a == b
  {
    assert FrameOf(a, channels)[0] == FrameOf(b, channels)[0];
    if channels == 2 { assert FrameOf(a, channels)[1] == FrameOf(b, channels)[1]; }
  }

  /** Different payloads decode to different frames. */
  lemma {:induction false} UnpackInjective(a: seq<byte>, b: seq<byte>, channels: nat)
    requires Supported(channels) && Whole(a, channels) && Whole(b, channels)
    requires Unpack(a, channels) == Unpack(b, channels)
    ensures a == b
    decreases |a|
  {
    if a != [] {
      var w := Width(channels);
      assert Unpack(a, channels)[0] == Unpack(b, channels)[0] && Unpack(a, channels)[1..] == Unpack(b, channels)[1..];
      SameFrameSameBytes(a[..w], b[..w], channels);
      UnpackInjective(a[w..], b[w..], channels);
      assert a == a[..w] + a[w..] && b == b[..w] + b[w..];
    }
  }

  predicate InRange(v: int) { -0x8000 <= v < 0x8000 }

  function SampleBytes(v: int): seq<byte>
    requires InRange(v)
  {
    var u := if v < 0 then v + 0x1_0000 else v;
    [u % 0x100, u / 0x100]
  }

  predicate FrameOk(f: Frame, channels: nat) { |f| == channels && forall s :: 0 <= s < |f| ==> InRange(f[s]) }

  function FrameBytes(f: Frame, channels: nat): (bytes: seq<byte>)
    requires Supported(channels) && FrameOk(f, channels)
    ensures |bytes| == Width(channels)
  {
    if channels == 1 then SampleBytes(f[0]) else SampleBytes(f[0]) + SampleBytes(f[1])
  }

  function Pack(frames: seq<Frame>, channels: nat): seq<byte>
    requires Supported(channels) && forall k :: 0 <= k < |frames| ==> FrameOk(frames[k], channels)
  {
    if frames == [] then [] else FrameBytes(frames[0], channels) + Pack(frames[1..], channels)
  }

  lemma SampleRoundTrip(v: int, bytes: seq<byte>, at: nat)
    requires InRange(v) && at + 2 <= |bytes| && bytes[at..at + 2] == SampleBytes(v)
    ensures SampleAt(bytes, at) == v
  {}

  lemma FrameRoundTrip(f: Frame, channels: nat)
    requires Supported(channels) && FrameOk(f, channels)
    ensures FrameOf(FrameBytes(f, channels), channels) == f
  {
    SampleRoundTrip(f[0], FrameBytes(f, channels), 0);
    if channels == 2 {
      assert FrameBytes(f, channels)[2..4] == SampleBytes(f[1]);
      SampleRoundTrip(f[1], FrameBytes(f, channels), 2);
    }
  }

  /** Unpacking gives back every stream of 16-bit frames. */
  lemma {:induction false} UnpackInvertsPack(frames: seq<Frame>, channels: nat)
    requires Supported(channels) && forall k :: 0 <= k < |frames| ==> FrameOk(frames[k], channels)
    ensures Whole(Pack(frames, channels), channels) && Unpack(Pack(frames, channels), channels) == frames
  {
    if frames != [] {
      var head, tail := FrameBytes(frames[0], channels), Pack(frames[1..], channels);
      UnpackInvertsPack(frames[1..], channels);
      FrameRoundTrip(frames[0], channels);
      assert (head + tail)[Width(channels)..] == tail && (head + tail)[..Width(channels)] == head;
    }
  }

  // --------------------------------------------------------------------- batches

  /** The frames of one batch, as `struct.iter_unpack` yields them. */
  method UnpackBatch(bytes: seq<byte>, channels: nat) returns (frames: seq<Frame>)
    requires Supported(channels) && Whole(bytes, channels)
    ensures frames == Unpack(bytes, channels)
  {
    frames := [];
    var rest := bytes;
    while rest != []
      invariant Whole(rest, channels) && frames + Unpack(rest, channels) == Unpack(bytes, channels)
      decreases |rest|
    {
      frames := frames + [FrameOf(rest[..Width(channels)], channels)];
      rest := rest[Width(channels)..];
    }
  }

  /** A batch is a full one, or what is left. */
  function BatchBytes(left: nat, channels: nat): (n: nat)
    requires Supported(channels)
    ensures n <= left && (left > 0 ==> n > 0) && (n < left ==> Divisible(n, channels))
  {
    var full := READ_FRAMES * 2 * channels;
    if full < left then full else left
  }

  lemma BatchSplit(rest: seq<byte>, n: nat, channels: nat)
    requires Supported(channels) && n <= |rest| && Whole(rest[..n], channels)
    ensures Whole(rest, channels) <==> Whole(rest[n..], channels)
    ensures Whole(rest, channels) ==> Unpack(rest, channels) == Unpack(rest[..n], channels) + Unpack(rest[n..], channels)
  {
    WholeSplit(rest, n, channels);
    if Whole(rest, channels) { UnpackSplit(rest, n, channels); }
  }

  /** `_frames`: reading in bounded batches yields exactly the frames of one unpacking of
      the whole payload, and fails exactly when the payload ends inside a frame. */
  method DecodeFrames(payload: seq<byte>, channels: nat) returns (r: Option<seq<Frame>>)
    requires Supported(channels)
    ensures r.Some? <==> Whole(payload, channels)
    ensures r.Some? ==> r.value == Unpack(payload, channels)
  {
    var frames: seq<Frame> := [];
    var rest := payload;
    while rest != []
      invariant Whole(payload, channels) <==> Whole(rest, channels)
      invariant Whole(rest, channels) ==> frames + Unpack(rest, channels) == Unpack(payload, channels)
      decreases |rest|
    {
      var n := BatchBytes(|rest|, channels);
      WholeIffDivisible(rest[..n], channels);
      if !Divisible(|rest[..n]|, channels) {
        assert rest[..n] == rest;
        return None;
      }
      BatchSplit(rest, n, channels);
      var more := UnpackBatch(rest[..n], channels);
      frames := frames + more;
      rest := rest[n..];
    }
    r := Some(frames);
  }
}
