/**
 The continuity checker for collected playback traces: the packet and boundary loops and
 the comparison of every listener with the host. A number that is missing or not an integer
 is `None`, and so is a name that is missing, not a string or blank.
 */
module GaplessTrace {
  import opened CoreNotifications

  datatype RawPacket = RawPacket(sequence: Option<int>, first: Option<int>, frames: Option<int>)

  datatype Packet = Packet(sequence: nat, first: nat, frames: nat)

  datatype RawBoundary = RawBoundary(entryId: Option<string>, sample: Option<int>)

  datatype Boundary = Boundary(entryId: string, sample: nat)

  datatype RawSource = RawSource(id: Option<string>, packets: seq<RawPacket>, boundaries: seq<RawBoundary>)

  // ------------------------------------------------------------------------ packets

  predicate ReadsAs(raw: RawPacket, p: Packet) {
    p.frames > 0 && raw == RawPacket(Some(p.sequence), Some(p.first), Some(p.frames))
  }

  ghost predicate Reads(raw: seq<RawPacket>, ps: seq<Packet>) {
    |raw| == |ps| && forall i :: 0 <= i < |ps| ==> ReadsAs(raw[i], ps[i])
  }

  function EndOf(p: Packet): nat { p.first + p.frames }

  predicate Follows(p: Packet, q: Packet) { q.sequence == p.sequence + 1 && q.first == EndOf(p) }

  ghost predicate FollowsAt(ps: seq<Packet>, i: nat)
    requires i < |ps|
  {
    i > 0 ==> Follows(ps[i - 1], ps[i])
  }

  /** What the loop compares: each packet with the one before it. */
  ghost predicate Chained(ps: seq<Packet>) {
    forall i: nat :: i < |ps| ==> FollowsAt(ps, i)
  }

  lemma {:induction false} ReadsOnce(raw: seq<RawPacket>, a: seq<Packet>, b: seq<Packet>)
    requires Reads(raw, a) && Reads(raw, b)
    ensures a == b
  {}

  lemma ReadsPrefix(raw: seq<RawPacket>, ps: seq<Packet>, n: nat)
    requires Reads(raw, ps) && Chained(ps) && n <= |raw|
    ensures Reads(raw[..n], ps[..n]) && Chained(ps[..n])
  {
    forall i: nat | i < n ensures FollowsAt(ps[..n], i) { assert FollowsAt(ps, i); }
  }

  lemma ChainSnoc(ps: seq<Packet>, p: Packet)
    requires Chained(ps) && (ps != [] ==> Follows(ps[|ps| - 1], p))
    ensures Chained(ps + [p])
  {
    forall i: nat | i < |ps| + 1 ensures FollowsAt(ps + [p], i) {
      if i < |ps| { assert FollowsAt(ps, i); }
    }
  }

  /** A packet the loop refuses is refused in every reading of the trace. */
  lemma NoReading(raw: seq<RawPacket>, done: seq<Packet>)
    requires |done| < |raw| && Reads(raw[..|done|], done)
    requires forall p :: ReadsAs(raw[|done|], p) ==> done != [] && !Follows(done[|done| - 1], p)
    ensures forall ps :: Reads(raw, ps) ==> !Chained(ps)
  {
    var n := |done|;
    forall ps | Reads(raw, ps) ensures !Chained(ps) {
      assert ReadsAs(raw[n], ps[n]);
      if Chained(ps) {
        assert FollowsAt(ps, n);
        ReadsPrefix(raw, ps, n);
        ReadsOnce(raw[..n], done, ps[..n]);
      }
    }
  }

  /** `packets_for`. */
  method PacketsFor(raw: seq<RawPacket>) returns (r: Option<seq<Packet>>)
    ensures r.Some? <==> raw != [] && exists ps :: Reads(raw, ps) && Chained(ps)
    ensures r.Some? ==> Reads(raw, r.value) && Chained(r.value)
  {
    if raw == [] { return None; }
    var packets: seq<Packet> := [];
    for index := 0 to |raw|
      invariant Reads(raw[..index], packets) && Chained(packets)
    {
      var item := raw[index];
      if item.sequence.None? || item.sequence.value < 0 || item.first.None? || item.first.value < 0
         || item.frames.None? || item.frames.value <= 0 {
        NoReading(raw, packets);
        return None;
      }
      var p := Packet(item.sequence.value, item.first.value, item.frames.value);
      if packets != [] {
        var previous := packets[|packets| - 1];
        if p.sequence != previous.sequence + 1 || p.first != previous.first + previous.frames {
          NoReading(raw, packets);
          return None;
        }
      }
      ChainSnoc(packets, p);
      packets := packets + [p];
    }
    assert raw[..|raw|] == raw;
    r := Some(packets);
  }

  // ---------------------------------------------------- what an accepted chain means

  predicate Holds(p: Packet, sample: nat) { p.first <= sample < EndOf(p) }

  ghost predicate Positive(ps: seq<Packet>) { forall i :: 0 <= i < |ps| ==> ps[i].frames > 0 }

  ghost predicate HeldBySome(ps: seq<Packet>, sample: nat) {
    exists i :: 0 <= i < |ps| && Holds(ps[i], sample)
  }

  ghost predicate HeldByOne(ps: seq<Packet>, sample: nat) {
    exists i :: 0 <= i < |ps| && Holds(ps[i], sample) && forall j :: 0 <= j < |ps| && Holds(ps[j], sample) ==> j == i
  }

  /** In order, every sample of the window is in exactly one packet. */
  ghost predicate ExactCover(ps: seq<Packet>)
    requires ps != []
  {
    && (forall i, j :: 0 <= i < j < |ps| ==> ps[i].first < ps[j].first)
    && (forall n: nat :: ps[0].first <= n < EndOf(ps[|ps| - 1]) ==> HeldBySome(ps, n))
    && (forall i, j, n: nat :: 0 <= i < |ps| && 0 <= j < |ps| && Holds(ps[i], n) && Holds(ps[j], n) ==> i == j)
  }

  ghost predicate Numbered(ps: seq<Packet>) {
    forall i :: 0 <= i < |ps| ==> ps[i].sequence == ps[0].sequence + i
  }

  lemma {:induction false} ChainOrder(ps: seq<Packet>, i: nat, j: nat)
    requires Chained(ps) && Positive(ps) && i < j < |ps|
    ensures EndOf(ps[i]) <= ps[j].first && ps[j].sequence == ps[i].sequence + (j - i)
  {
    assert FollowsAt(ps, j);
    if i < j - 1 { ChainOrder(ps, i, j - 1); }
  }

  lemma {:induction false} ChainCovers(ps: seq<Packet>, k: nat, n: nat)
    requires Chained(ps) && k < |ps| && ps[0].first <= n < EndOf(ps[k])
    ensures HeldBySome(ps, n)
  {
    if n >= ps[k].first {
      assert Holds(ps[k], n);
    } else {
      assert FollowsAt(ps, k);
      ChainCovers(ps, k - 1, n);
    }
  }

  lemma ChainIsCover(ps: seq<Packet>)
    requires Chained(ps) && Positive(ps) && ps != []
    ensures ExactCover(ps) && Numbered(ps)
  {
    forall i, j | 0 <= i < j < |ps|
      ensures ps[i].first < ps[j].first && EndOf(ps[i]) <= ps[j].first
    { ChainOrder(ps, i, j); }
    forall n: nat | ps[0].first <= n < EndOf(ps[|ps| - 1]) ensures HeldBySome(ps, n) { ChainCovers(ps, |ps| - 1, n); }
    forall i | 0 <= i < |ps| ensures ps[i].sequence == ps[0].sequence + i { if i > 0 { ChainOrder(ps, 0, i); } }
  }

  /** In an exact cover a packet begins where the one before it ends. */
  lemma CoverIsTight(ps: seq<Packet>, i: nat)
    requires Positive(ps) && 0 < i < |ps| && ExactCover(ps)
    ensures ps[i].first == EndOf(ps[i - 1])
  {
    var end := EndOf(ps[i - 1]);
    if ps[i].first < end {
      assert Holds(ps[i], ps[i].first) && Holds(ps[i - 1], ps[i].first);
    } else if ps[i].first > end {
      assert ps[0].first <= ps[i - 1].first && ps[i].first <= ps[|ps| - 1].first;
      assert HeldBySome(ps, end);
      var j :| 0 <= j < |ps| && Holds(ps[j], end);
      if j < i - 1 { assert Holds(ps[j], ps[i - 1].first) && Holds(ps[i - 1], ps[i - 1].first); }
    }
  }

  /** Comparing neighbours is enough: a trace passes if and only if its sequence numbers
      run on and every sample of its window is in exactly one packet, in order. */
  lemma ChainIffExactCover(ps: seq<Packet>)
    requires Positive(ps) && ps != []
    ensures Chained(ps) <==> ExactCover(ps) && Numbered(ps)
  {
    if Chained(ps) { ChainIsCover(ps); }
    if ExactCover(ps) && Numbered(ps) {
      forall i: nat | i < |ps| ensures FollowsAt(ps, i) {
        if i > 0 { CoverIsTight(ps, i); }
      }
    }
  }

  function FramesIn(ps: seq<Packet>): nat {
    if ps == [] then 0 else FramesIn(ps[..|ps| - 1]) + ps[|ps| - 1].frames
  }

  /** The window of a passing trace is as long as its packets together. */
  lemma {:induction false} WindowIsFrames(ps: seq<Packet>, n: nat)
    requires Chained(ps) && 0 < n <= |ps|
    ensures ps[n - 1].first + ps[n - 1].frames == ps[0].first + FramesIn(ps[..n])
  {
    assert ps[..n][..n - 1] == ps[..n - 1];
    if n > 1 {
      WindowIsFrames(ps, n - 1);
      assert FollowsAt(ps, n - 1);
    }
  }

  // --------------------------------------------------------------------- boundaries

  predicate BoundaryReadsAs(raw: RawBoundary, b: Boundary) {
    b.sample > 0 && raw == RawBoundary(Some(b.entryId), Some(b.sample))
  }

  /** Strictly inside the window, in strictly increasing order. */
  ghost predicate Seams(bs: seq<Boundary>, start: nat, end: nat) {
    && (forall i :: 0 <= i < |bs| ==> start < bs[i].sample < end)
    && (forall i, j :: 0 <= i < j < |bs| ==> bs[i].sample < bs[j].sample)
  }

  ghost predicate BoundariesRead(raw: seq<RawBoundary>, bs: seq<Boundary>) {
    |raw| == |bs| && forall i :: 0 <= i < |bs| ==> BoundaryReadsAs(raw[i], bs[i])
  }

  lemma NoSeams(raw: seq<RawBoundary>, done: seq<Boundary>, start: nat, end: nat)
    requires |done| < |raw| && BoundariesRead(raw[..|done|], done)
    requires forall b :: BoundaryReadsAs(raw[|done|], b) ==>
               !(start < b.sample < end) || (done != [] && b.sample <= done[|done| - 1].sample)
    ensures forall bs :: BoundariesRead(raw, bs) ==> !Seams(bs, start, end)
  {
    var n := |done|;
    forall bs | BoundariesRead(raw, bs) ensures !Seams(bs, start, end) {
      assert BoundaryReadsAs(raw[n], bs[n]);
      if n > 0 { assert BoundaryReadsAs(raw[..n][n - 1], done[n - 1]) && BoundaryReadsAs(raw[n - 1], bs[n - 1]); }
    }
  }

  /** `boundaries_for`. */
  method BoundariesFor(raw: seq<RawBoundary>, packets: seq<Packet>) returns (r: Option<seq<Boundary>>)
    requires packets != []
    ensures var start, end := packets[0].first, EndOf(packets[|packets| - 1]);
            && (r.Some? <==> raw != [] && exists bs :: BoundariesRead(raw, bs) && Seams(bs, start, end))
            && (r.Some? ==> BoundariesRead(raw, r.value) && Seams(r.value, start, end))
  {
    if raw == [] { return None; }
    var start, end := packets[0].first, EndOf(packets[|packets| - 1]);
    var boundaries: seq<Boundary> := [];
    for index := 0 to |raw|
      invariant BoundariesRead(raw[..index], boundaries) && Seams(boundaries, start, end)
    {
      var item := raw[index];
      if item.entryId.None? || item.sample.None? || item.sample.value <= 0 {
        NoSeams(raw, boundaries, start, end);
        return None;
      }
      var b := Boundary(item.entryId.value, item.sample.value);
      if b.sample <= start || b.sample >= end || (boundaries != [] && b.sample <= boundaries[|boundaries| - 1].sample) {
        NoSeams(raw, boundaries, start, end);
        return None;
      }
      boundaries := boundaries + [b];
    }
    assert raw[..|raw|] == raw;
    r := Some(boundaries);
  }

  // ------------------------------------------------------- listeners against the host

  /** A source whose trace reads as these packets and boundaries, all of them in order. */
  ghost predicate Traces(s: RawSource, ps: seq<Packet>, bs: seq<Boundary>) {
    && ps != [] && bs != [] && Reads(s.packets, ps) && Chained(ps)
    && BoundariesRead(s.boundaries, bs) && Seams(bs, ps[0].first, EndOf(ps[|ps| - 1]))
  }

  ghost predicate Continuous(host: RawSource, listeners: seq<RawSource>, ps: seq<Packet>, bs: seq<Boundary>) {
    && Traces(host, ps, bs) && listeners != []
    && (forall i :: 0 <= i < |listeners| ==> listeners[i].id.Some? && Traces(listeners[i], ps, bs))
    && (forall i, j :: 0 <= i < j < |listeners| ==> listeners[i].id != listeners[j].id)
  }

  lemma TracesOnce(s: RawSource, ps: seq<Packet>, bs: seq<Boundary>, ps': seq<Packet>, bs': seq<Boundary>)
    requires Traces(s, ps, bs) && Traces(s, ps', bs')
    ensures ps == ps' && bs == bs'
  {
    ReadsOnce(s.packets, ps, ps');
    forall i | 0 <= i < |bs| ensures bs[i] == bs'[i] {
      assert BoundaryReadsAs(s.boundaries[i], bs[i]) && BoundaryReadsAs(s.boundaries[i], bs'[i]);
    }
  }

  /** One listener's share of the check. */
  method MatchesHost(listener: RawSource, ps: seq<Packet>, bs: seq<Boundary>) returns (ok: bool)
    requires ps != [] && bs != []
    ensures ok <==> Traces(listener, ps, bs)
  {
    var packets := PacketsFor(listener.packets);
    if packets != Some(ps) {
      if Traces(listener, ps, bs) { ReadsOnce(listener.packets, packets.value, ps); }
      return false;
    }
    var boundaries := BoundariesFor(listener.boundaries, ps);
    ok := boundaries == Some(bs);
    if Traces(listener, ps, bs) { TracesOnce(listener, ps, bs, ps, boundaries.value); }
  }

  /** The packet, boundary and identity part of `check_capture`. */
  method CheckCapture(host: RawSource, listeners: seq<RawSource>) returns (r: Option<(seq<Packet>, seq<Boundary>)>)
    ensures r.Some? <==> exists ps, bs :: Continuous(host, listeners, ps, bs)
    ensures r.Some? ==> Continuous(host, listeners, r.value.0, r.value.1)
  {
    var packets := PacketsFor(host.packets);
    if packets.None? { return None; }
    var ps := packets.value;
    var boundaries := BoundariesFor(host.boundaries, ps);
    if boundaries.None? {
      forall ps', bs ensures !Continuous(host, listeners, ps', bs) {
        if Continuous(host, listeners, ps', bs) { ReadsOnce(host.packets, ps, ps'); }
      }
      return None;
    }
    var bs := boundaries.value;
    forall ps', bs' | Continuous(host, listeners, ps', bs') ensures ps' == ps && bs' == bs {
      TracesOnce(host, ps, bs, ps', bs');
    }
    if listeners == [] { return None; }
    assert forall ps', bs' :: Continuous(host, listeners, ps', bs') ==> Continuous(host, listeners, ps, bs);
    var seen: set<string> := {};
    for index := 0 to |listeners|
      invariant forall i :: 0 <= i < index ==> listeners[i].id.Some? && Traces(listeners[i], ps, bs)
      invariant forall i, j :: 0 <= i < j < index ==> listeners[i].id != listeners[j].id
      invariant seen == set i | 0 <= i < index :: listeners[i].id.value
    {
      var listener := listeners[index];
      if listener.id.None? || listener.id.value in seen { return None; }
      seen := seen + {listener.id.value};
      var ok := MatchesHost(listener, ps, bs);
      if !ok { return None; }
    }
    assert Continuous(host, listeners, ps, bs);
    r := Some((ps, bs));
  }

  /** An accepted capture: at every listener each sample the host sent is in exactly one
      packet, with the host's number on it, and each track boundary is in exactly one. */
  lemma ListenersMissNothing(host: RawSource, listeners: seq<RawSource>, ps: seq<Packet>, bs: seq<Boundary>, at: nat, sample: nat)
    requires Continuous(host, listeners, ps, bs) && at < |listeners|
    requires ps[0].first <= sample < EndOf(ps[|ps| - 1])
    ensures exists i :: && 0 <= i < |ps| && Holds(ps[i], sample) && ReadsAs(listeners[at].packets[i], ps[i])
                        && ReadsAs(host.packets[i], ps[i]) && ps[i].sequence == ps[0].sequence + i
                        && forall j :: 0 <= j < |ps| && Holds(ps[j], sample) ==> j == i
    ensures forall b :: b in bs ==> HeldByOne(ps, b.sample)
  {
    assert Traces(listeners[at], ps, bs);
    assert Positive(ps) by {
      forall i | 0 <= i < |ps| ensures ps[i].frames > 0 { assert ReadsAs(host.packets[i], ps[i]); }
    }
    ChainIsCover(ps);
    assert HeldBySome(ps, sample);
    var i :| 0 <= i < |ps| && Holds(ps[i], sample);
    assert ReadsAs(host.packets[i], ps[i]) && ReadsAs(listeners[at].packets[i], ps[i]);
    assert forall j :: 0 <= j < |ps| && Holds(ps[j], sample) ==> j == i;
    forall b | b in bs ensures HeldByOne(ps, b.sample) {
      assert HeldBySome(ps, b.sample);
      var i :| 0 <= i < |ps| && Holds(ps[i], b.sample);
      assert forall j :: 0 <= j < |ps| && Holds(ps[j], b.sample) ==> j == i;
    }
  }
}
