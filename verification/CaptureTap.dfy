/**
 Whole calls on the capture tap: an undisturbed `record_callback` or `drain` is a run of
 the ring's atomic steps, between calls the tap is a bounded FIFO, and the tap object
 performs those calls on its slot array.
 */
module CaptureTap {
  import opened CaptureRing

  const CHANNELS: nat := 2
  const MIN_CAPTURE_FRAMES: nat := 4_800
  const MAX_CAPTURE_FRAMES: nat := 480_000

  // --------------------------------------------------------------- the effect of a call

  /** The memory after the first `k` stores of a batch. */
  function StoredPrefix(m: Memory, samples: seq<Sample>, base: nat, k: nat, z: Size): (r: Memory)
    requires MemoryOk(m, z) && k <= |samples|
    ensures MemoryOk(r, z) && r.written == m.written && r.read == m.read
  {
    if k == 0 then m else Stored(StoredPrefix(m, samples, base, k - 1, z), base, k - 1, samples[k - 1], z)
  }

  /** The samples obtained by the first `k` loads of a batch. */
  function LoadedPrefix(m: Memory, base: nat, k: nat, z: Size): (r: seq<Sample>)
    requires MemoryOk(m, z)
    ensures |r| == k
  {
    if k == 0 then [] else LoadedPrefix(m, base, k - 1, z) + [Loaded(m, base, k - 1, z)]
  }

  function AcceptedFrames(s: Tap, samples: seq<Sample>): nat {
    Min(|samples| / 2, Available(s.size.capacity, s.mem.written, s.mem.read))
  }

  function DrainableFrames(s: Tap, maxFrames: nat): nat
    requires 0 < s.size.modulus
  {
    Min(WrappingSub(s.mem.written, s.mem.read, s.size.modulus), maxFrames)
  }

  function RecordStored(s: Tap, samples: seq<Sample>): Tap
    requires Config(s)
  {
    var n := AcceptedFrames(s, samples);
    s.(callbacks := (s.callbacks + 1) % U64_MODULUS,
       mem := StoredPrefix(s.mem, samples, s.mem.written, 2 * n, s.size),
       producer := Storing(samples, s.mem.written, n, 2 * n),
       history := s.history.(claimed := s.history.claimed + n))
  }

  function Recorded(s: Tap, samples: seq<Sample>): Tap
    requires Config(s)
  {
    var n := AcceptedFrames(s, samples);
    var t := RecordStored(s, samples);
    t.(mem := t.mem.(written := (s.mem.written + n) % s.size.modulus),
       lost := (s.lost + (|samples| / 2 - n)) % U64_MODULUS,
       producer := ProducerIdle,
       history := Published(t.history, samples, n))
  }

  function Drained(s: Tap, maxFrames: nat): Tap
    requires Config(s)
  {
    var n := DrainableFrames(s, maxFrames);
    s.(mem := s.mem.(read := (s.mem.read + n) % s.size.modulus),
       consumer := ConsumerIdle,
       history := s.history.(drained := s.history.drained + LoadedPrefix(s.mem, s.mem.read, 2 * n, s.size)))
  }

  // ------------------------------------------------------- a call is a run of the steps

  function Repeat(a: Action, n: nat): (r: seq<Action>) {
    if n == 0 then [] else Repeat(a, n - 1) + [a]
  }

  function RecordActions(s: Tap, samples: seq<Sample>): seq<Action> {
    [StartRecord(samples), LoadWritten, LoadRead]
    + Repeat(StoreSample, 2 * AcceptedFrames(s, samples)) + [PublishWritten] + [AddLost]
  }

  function DrainActions(s: Tap, maxFrames: nat): seq<Action>
    requires 0 < s.size.modulus
  {
    [StartDrain(maxFrames), LoadPublished] + Repeat(LoadSample, 2 * DrainableFrames(s, maxFrames)) + [PublishRead]
  }

  /** `actions` leads from `s` to `r`. */
  ghost predicate Leads(s: Tap, actions: seq<Action>, r: Tap)
    requires Config(s)
  {
    ValidRun(s, actions) && Run(s, actions) == r
  }

  lemma {:induction false} LeadsSnoc(s: Tap, actions: seq<Action>, r: Tap, a: Action)
    requires Config(s) && Leads(s, actions, r) && Enabled(r, a)
    ensures Leads(s, actions + [a], Step(r, a))
    decreases |actions|
  {
    if actions == [] {
      assert [a][1..] == [];
    } else {
      LeadsSnoc(Step(s, actions[0]), actions[1..], r, a);
      assert (actions + [a])[1..] == actions[1..] + [a];
    }
  }

  lemma {:induction false} LeadsJoin(s: Tap, first: seq<Action>, mid: Tap, second: seq<Action>, r: Tap)
    requires Config(s) && Leads(s, first, mid) && Leads(mid, second, r)
    ensures Leads(s, first + second, r)
    decreases |first|
  {
    if first == [] {
      assert first + second == second;
    } else {
      LeadsJoin(Step(s, first[0]), first[1..], mid, second, r);
      assert (first + second)[1..] == first[1..] + second;
    }
  }

  lemma {:induction false} StoresLead(t: Tap, n: nat)
    requires Config(t) && t.producer.Storing? && t.producer.k == 0
    requires n <= 2 * t.producer.accepted <= |t.producer.samples|
    ensures var p := t.producer;
            Leads(t, Repeat(StoreSample, n),
                  t.(producer := p.(k := n), mem := StoredPrefix(t.mem, p.samples, p.write, n, t.size)))
  {
    if n > 0 {
      var p := t.producer;
      StoresLead(t, n - 1);
      LeadsSnoc(t, Repeat(StoreSample, n - 1),
                t.(producer := p.(k := n - 1), mem := StoredPrefix(t.mem, p.samples, p.write, n - 1, t.size)),
                StoreSample);
    }
  }

  lemma {:induction false} LoadsLead(t: Tap, n: nat)
    requires Config(t) && t.consumer.Loading? && t.consumer.k == 0 && t.consumer.result == []
    requires n <= 2 * t.consumer.frames
    ensures var c := t.consumer;
            Leads(t, Repeat(LoadSample, n), t.(consumer := c.(k := n, result := LoadedPrefix(t.mem, c.read, n, t.size))))
  {
    if n > 0 {
      var c := t.consumer;
      LoadsLead(t, n - 1);
      LeadsSnoc(t, Repeat(LoadSample, n - 1),
                t.(consumer := c.(k := n - 1, result := LoadedPrefix(t.mem, c.read, n - 1, t.size))), LoadSample);
    }
  }

  lemma Lead3(s: Tap, a: Action, b: Action, c: Action)
    requires Config(s) && Enabled(s, a) && Enabled(Step(s, a), b) && Enabled(Step(Step(s, a), b), c)
    ensures Leads(s, [a, b, c], Step(Step(Step(s, a), b), c))
  {
    LeadsSnoc(s, [], s, a);
    assert [] + [a] == [a];
    LeadsSnoc(s, [a], Step(s, a), b);
    assert [a] + [b] == [a, b];
    LeadsSnoc(s, [a, b], Step(Step(s, a), b), c);
    assert [a, b] + [c] == [a, b, c];
  }

  /** After the two cursor loads the callback has claimed its frames. */
  function RecordStarted(s: Tap, samples: seq<Sample>): Tap
    requires Config(s)
  {
    var n := AcceptedFrames(s, samples);
    s.(callbacks := (s.callbacks + 1) % U64_MODULUS,
       producer := Storing(samples, s.mem.written, n, 0),
       history := s.history.(claimed := s.history.claimed + n))
  }

  lemma RecordStartLeads(s: Tap, samples: seq<Sample>)
    requires Config(s) && s.producer.ProducerIdle?
    ensures Leads(s, [StartRecord(samples), LoadWritten, LoadRead], RecordStarted(s, samples))
  {
    Lead3(s, StartRecord(samples), LoadWritten, LoadRead);
  }

  lemma RecordEndLeads(s: Tap, samples: seq<Sample>)
    requires Config(s)
    ensures Leads(RecordStored(s, samples), [PublishWritten] + [AddLost], Recorded(s, samples))
  {
    var t := RecordStored(s, samples);
    LeadsSnoc(t, [], t, PublishWritten);
    LeadsSnoc(t, [PublishWritten], Step(t, PublishWritten), AddLost);
  }

  /** One undisturbed `record_callback` is a run of the step system. */
  lemma RecordIsARun(s: Tap, samples: seq<Sample>)
    requires Config(s) && s.producer.ProducerIdle?
    ensures Leads(s, RecordActions(s, samples), Recorded(s, samples))
  {
    var start, stores := [StartRecord(samples), LoadWritten, LoadRead], Repeat(StoreSample, 2 * AcceptedFrames(s, samples));
    RecordStartLeads(s, samples);
    StoresLead(RecordStarted(s, samples), 2 * AcceptedFrames(s, samples));
    LeadsJoin(s, start, RecordStarted(s, samples), stores, RecordStored(s, samples));
    RecordEndLeads(s, samples);
    LeadsJoin(s, start + stores, RecordStored(s, samples), [PublishWritten] + [AddLost], Recorded(s, samples));
    assert RecordActions(s, samples) == start + stores + ([PublishWritten] + [AddLost]);
  }

  /** One undisturbed `drain` is a run of the step system. */
  lemma DrainIsARun(s: Tap, maxFrames: nat)
    requires Config(s) && s.consumer.ConsumerIdle?
    ensures Leads(s, DrainActions(s, maxFrames), Drained(s, maxFrames))
  {
    var n := DrainableFrames(s, maxFrames);
    var a2 := [StartDrain(maxFrames), LoadPublished];
    var s1 := Step(s, StartDrain(maxFrames));
    var t := Step(s1, LoadPublished);
    LeadsSnoc(s, [], s, StartDrain(maxFrames));
    LeadsSnoc(s, [StartDrain(maxFrames)], s1, LoadPublished);
    LoadsLead(t, 2 * n);
    var u := t.(consumer := t.consumer.(k := 2 * n, result := LoadedPrefix(s.mem, s.mem.read, 2 * n, s.size)));
    LeadsJoin(s, a2, t, Repeat(LoadSample, 2 * n), u);
    LeadsSnoc(s, a2 + Repeat(LoadSample, 2 * n), u, PublishRead);
  }

  // --------------------------------------------------------------- between calls: a FIFO

  ghost function UnreadOf(s: Tap): (u: seq<Sample>)
    requires Inv(s)
    ensures |u| == 2 * (s.mem.written - s.mem.read) <= 2 * s.size.capacity
  {
    UnreadIsSuffix(s);
    Unread(s.size, s.mem)
  }

  /** Both streams as slices of what was accepted. */
  lemma Views(s: Tap)
    requires Inv(s)
    ensures UnreadOf(s) == s.history.accepted[2 * s.mem.read..] && s.history.drained == s.history.accepted[..2 * s.mem.read]
    ensures |UnreadOf(s)| / 2 == s.mem.written - s.mem.read
  {
    UnreadIsSuffix(s);
  }

  lemma BackAppended(s: Tap, r: Tap, more: seq<Sample>)
    requires Inv(s) && Inv(r) && r.mem.read == s.mem.read && r.history.accepted == s.history.accepted + more
    ensures UnreadOf(r) == UnreadOf(s) + more
  {
    Views(s);
    Views(r);
    assert (s.history.accepted + more)[2 * s.mem.read..] == s.history.accepted[2 * s.mem.read..] + more;
  }

  lemma RecordKeepsInv(s: Tap, samples: seq<Sample>)
    requires Inv(s) && s.producer.ProducerIdle?
    requires s.history.claimed + AcceptedFrames(s, samples) < s.size.modulus
    ensures var r, n := Recorded(s, samples), AcceptedFrames(s, samples);
            && Inv(r) && r.mem.read == s.mem.read && r.mem.written == s.mem.written + n
            && r.history.accepted == s.history.accepted + samples[..2 * n]
            && r.history.totalLost == s.history.totalLost + (|samples| / 2 - n)
  {
    RecordIsARun(s, samples);
    RunKeepsInv(s, RecordActions(s, samples));
    SmallMod(s.mem.written + AcceptedFrames(s, samples), s.size.modulus);
  }

  lemma AcceptedIsFree(s: Tap, samples: seq<Sample>)
    requires Inv(s)
    ensures AcceptedFrames(s, samples) == Min(|samples| / 2, s.size.capacity - |UnreadOf(s)| / 2)
  {
    Views(s);
  }

  /** A callback appends the front of its buffer that fits behind the unread samples and
      counts the rest as lost. */
  lemma RecordAppends(s: Tap, samples: seq<Sample>)
    requires Inv(s) && s.producer.ProducerIdle?
    requires s.history.claimed + AcceptedFrames(s, samples) < s.size.modulus
    ensures Inv(Recorded(s, samples))
    ensures var n := Min(|samples| / 2, s.size.capacity - |UnreadOf(s)| / 2);
            && UnreadOf(Recorded(s, samples)) == UnreadOf(s) + samples[..2 * n]
            && Recorded(s, samples).mem.written == s.mem.written + n
            && Recorded(s, samples).history.totalLost == s.history.totalLost + (|samples| / 2 - n)
  {
    RecordKeepsInv(s, samples);
    AcceptedIsFree(s, samples);
    BackAppended(s, Recorded(s, samples), samples[..2 * AcceptedFrames(s, samples)]);
  }

  lemma DrainKeepsInv(s: Tap, maxFrames: nat)
    requires Inv(s) && s.consumer.ConsumerIdle?
    ensures var r := Drained(s, maxFrames);
            && Inv(r) && r.mem.read == s.mem.read + Min(s.mem.written - s.mem.read, maxFrames)
            && r.history.accepted == s.history.accepted && r.size == s.size && r.mem.written == s.mem.written
            && r.history.totalLost == s.history.totalLost
  {
    DrainIsARun(s, maxFrames);
    RunKeepsInv(s, DrainActions(s, maxFrames));
    SmallMod(s.mem.written - s.mem.read, s.size.modulus);
    SmallMod(s.mem.read + DrainableFrames(s, maxFrames), s.size.modulus);
  }

  lemma FrontRemoved(s: Tap, r: Tap)
    requires Inv(s) && Inv(r) && r.history.accepted == s.history.accepted && s.mem.read <= r.mem.read
    ensures var n := r.mem.read - s.mem.read;
            && 2 * n <= |UnreadOf(s)| && UnreadOf(r) == UnreadOf(s)[2 * n..]
            && r.history.drained == s.history.drained + UnreadOf(s)[..2 * n]
  {
    Views(s);
    Views(r);
  }

  /** A drain removes the oldest samples and returns exactly those. */
  lemma DrainRemovesFront(s: Tap, maxFrames: nat)
    requires Inv(s) && s.consumer.ConsumerIdle?
    ensures Inv(Drained(s, maxFrames))
    ensures var n := Min(|UnreadOf(s)| / 2, maxFrames);
            && UnreadOf(Drained(s, maxFrames)) == UnreadOf(s)[2 * n..]
            && Drained(s, maxFrames).history.drained == s.history.drained + UnreadOf(s)[..2 * n]
  {
    DrainKeepsInv(s, maxFrames);
    FrontRemoved(s, Drained(s, maxFrames));
    Views(s);
  }

  // ------------------------------------------------------------------ a run that wraps

  ghost predicate Quiescent(s: Tap, n: nat) {
    && Inv(s) && s.producer.ProducerIdle? && s.consumer.ConsumerIdle?
    && s.history.claimed == s.mem.written == s.mem.read == n && s.history.totalLost == 0
  }

  lemma OneFrameThrough(s: Tap, n: nat)
    requires Quiescent(s, n) && n + 1 < s.size.modulus
    ensures var t := Recorded(s, [0, 0]);
            Config(t) && t.consumer.ConsumerIdle? && Quiescent(Drained(t, 1), n + 1)
  {
    var t := Recorded(s, [0, 0]);
    assert AcceptedFrames(s, [0, 0]) == 1;
    RecordAppends(s, [0, 0]);
    SmallMod(n + 1, s.size.modulus);
    SmallMod(1, s.size.modulus);
    assert DrainableFrames(t, 1) == 1;
    DrainRemovesFront(t, 1);
  }

  /** Recording and draining one frame at a time reaches any counter value. */
  lemma {:induction false} CountersReach(z: Size, n: nat) returns (actions: seq<Action>, s: Tap)
    requires SizeOk(z) && n < z.modulus
    ensures Leads(New(z), actions, s) && Quiescent(s, n) && s.size == z
  {
    if n == 0 {
      actions, s := [], New(z);
      NewInv(z);
    } else {
      var before, s0 := CountersReach(z, n - 1);
      OneFrameThrough(s0, n - 1);
      var t := Recorded(s0, [0, 0]);
      RecordIsARun(s0, [0, 0]);
      LeadsJoin(New(z), before, s0, RecordActions(s0, [0, 0]), t);
      DrainIsARun(t, 1);
      s := Drained(t, 1);
      LeadsJoin(New(z), before + RecordActions(s0, [0, 0]), t, DrainActions(t, 1), s);
      actions := before + RecordActions(s0, [0, 0]) + DrainActions(t, 1);
    }
  }

  lemma TwoRecords(s0: Tap, before: seq<Action>, s: Tap, x: seq<Sample>, y: seq<Sample>)
    requires Config(s0) && Leads(s0, before, s) && s.producer.ProducerIdle?
    ensures var t := Recorded(s, x);
            Leads(s0, before + RecordActions(s, x) + RecordActions(t, y), Recorded(t, y))
  {
    var t := Recorded(s, x);
    RecordIsARun(s, x);
    LeadsJoin(s0, before, s, RecordActions(s, x), t);
    RecordIsARun(t, y);
    LeadsJoin(s0, before + RecordActions(s, x), t, RecordActions(t, y), Recorded(t, y));
  }

  lemma QuiescentIsEmpty(s: Tap, n: nat)
    requires Quiescent(s, n)
    ensures |s.history.accepted| == |s.history.drained| && s.lost == 0
  {}

  /** A full ring recorded up to the last cursor value takes the write cursor to zero. */
  lemma CursorWraps(s: Tap, full: seq<Sample>)
    requires SizeOk(s.size) && Quiescent(s, s.size.modulus - s.size.capacity) && |full| == 2 * s.size.capacity
    ensures var t := Recorded(s, full);
            && t.mem.written == 0 && t.mem.read == s.mem.read && t.lost == s.lost
            && t.history.claimed == s.size.modulus
            && t.history.accepted == s.history.accepted + full && t.history.drained == s.history.drained
  {
    AllFree(s, full);
    ModSelf(s.size.modulus);
    assert full[..2 * s.size.capacity] == full;
  }

  lemma AllFree(s: Tap, full: seq<Sample>)
    requires s.mem.written == s.mem.read && |full| == 2 * s.size.capacity
    ensures AcceptedFrames(s, full) == s.size.capacity
  {}

  lemma ModSelf(n: nat)
    requires 0 < n
    ensures n % n == 0
  {
    DivModUnique(n, n, 1, 0);
  }

  /** The full ring then looks empty, and the next frame goes into its first slot. */
  lemma FullLooksEmpty(t: Tap, frame: seq<Sample>)
    requires Config(t) && t.mem.written == 0 < t.mem.read && |frame| == 2 && t.lost == 0
    ensures var r := Recorded(t, frame);
            && r.mem.slots[0] == frame[0] && r.mem.read == t.mem.read && r.lost == 0
            && r.history.claimed == t.history.claimed + 1
            && r.history.accepted == t.history.accepted + frame && r.history.drained == t.history.drained
  {
    var z := t.size;
    assert AcceptedFrames(t, frame) == 1;
    SmallMod(0, z.modulus);
    SmallMod(0, z.capacity);
    var one := Stored(t.mem, 0, 0, frame[0], z);
    assert StoredPrefix(t.mem, frame, 0, 1, z) == one && StoredPrefix(t.mem, frame, 0, 2, z) == Stored(one, 0, 1, frame[1], z);
    assert SlotOf(0, 0, z) == 0 && SlotOf(0, 1, z) == 1;
    assert frame[..2] == frame;
  }

  /** Some position among the last `capacity` below the word size is kept in the first slot. */
  lemma FirstSlotPosition(z: Size) returns (p: nat)
    requires SizeOk(z)
    ensures z.modulus - z.capacity <= p < z.modulus && SlotOf(z.modulus - z.capacity, 2 * (p - (z.modulus - z.capacity)), z) == 0
  {
    var last := z.modulus - 1;
    p := last - last % z.capacity;
    DivModUnique(p, z.capacity, last / z.capacity, 0);
    SmallMod(p, z.modulus);
    assert 2 * (p - (z.modulus - z.capacity)) / 2 == p - (z.modulus - z.capacity);
  }

  /** In an exact tap every accepted sample that was not drained is still in its slot. */
  lemma ExactAt(r: Tap, i: nat)
    requires Config(r) && Exact(r) && |r.history.drained| + i < |r.history.accepted|
    ensures Loaded(r.mem, r.mem.read, i, r.size) == r.history.accepted[|r.history.drained| + i]
  {
    assert (r.history.drained + Unread(r.size, r.mem))[|r.history.drained| + i] == Unread(r.size, r.mem)[i];
  }

  /** A full ring of ones up to the word size, one of them overwritten by the frame after. */
  lemma OverwrittenIsInexact(r: Tap, before: seq<Sample>, full: seq<Sample>, frame: seq<Sample>)
    requires Config(r) && r.mem.read == r.size.modulus - r.size.capacity && r.mem.slots[0] != 1
    requires |full| == 2 * r.size.capacity && forall i :: 0 <= i < |full| ==> full[i] == 1
    requires r.history.accepted == before + full + frame && |r.history.drained| == |before|
    ensures !Exact(r)
  {
    var p := FirstSlotPosition(r.size);
    var i := 2 * (p - r.mem.read);
    assert r.history.accepted[|before| + i] == full[i];
    if Exact(r) { ExactAt(r, i); }
  }

  lemma {:induction false} LoadedPrefixAt(m: Memory, base: nat, k: nat, i: nat, z: Size)
    requires MemoryOk(m, z) && i < k
    ensures LoadedPrefix(m, base, k, z)[i] == Loaded(m, base, i, z)
  {
    if i < k - 1 { LoadedPrefixAt(m, base, k - 1, i, z); }
  }

  /** A drain of everything completes the accepted stream exactly when the tap is exact. */
  lemma DrainAllIffExact(s: Tap)
    requires Config(s)
    ensures Drained(s, s.size.modulus).history.drained == s.history.accepted <==> Exact(s)
  {
    var n := WrappingSub(s.mem.written, s.mem.read, s.size.modulus);
    forall i | 0 <= i < 2 * n
      ensures LoadedPrefix(s.mem, s.mem.read, 2 * n, s.size)[i] == Unread(s.size, s.mem)[i]
    {
      LoadedPrefixAt(s.mem, s.mem.read, 2 * n, i, s.size);
    }
    assert LoadedPrefix(s.mem, s.mem.read, 2 * n, s.size) == Unread(s.size, s.mem);
  }

  /** One frame past the word size is too many, whatever the size: with the ring full and
      the write cursor just wrapped, one more frame is accepted, no loss is counted, a frame
      nobody drained is overwritten, and draining everything returns a wrong stream. */
  lemma WrapOvercommits(z: Size) returns (actions: seq<Action>, r: Tap)
    requires SizeOk(z)
    ensures Leads(New(z), actions, r) && r.history.claimed == z.modulus + 1 && r.lost == 0
    ensures |r.history.accepted| - |r.history.drained| == 2 * (z.capacity + 1)
    ensures !Exact(r) && Drained(r, z.modulus).history.drained != r.history.accepted
  {
    var start := z.modulus - z.capacity;
    var before, s := CountersReach(z, start);
    var full, frame := seq(2 * z.capacity, _ => 1), [2, 2];
    QuiescentIsEmpty(s, start);
    CursorWraps(s, full);
    FullLooksEmpty(Recorded(s, full), frame);
    TwoRecords(New(z), before, s, full, frame);
    actions := before + RecordActions(s, full) + RecordActions(Recorded(s, full), frame);
    r := Recorded(Recorded(s, full), frame);
    OverwrittenIsInexact(r, s.history.accepted, full, frame);
    DrainAllIffExact(r);
  }

  /** Every run that claims at most `n` frames is exact. */
  ghost predicate ExactUpTo(z: Size, n: nat)
    requires SizeOk(z)
  {
    forall actions ::
      ValidRun(New(z), actions) && Run(New(z), actions).history.claimed <= n ==> Exact(Run(New(z), actions))
  }

  /** The exact condition: capture is exact in all runs of at most `n` claimed frames if
      and only if `n` is at most the number of values of `usize`. */
  lemma ExactIffWithinWord(z: Size, n: nat)
    requires SizeOk(z)
    ensures ExactUpTo(z, n) <==> n <= z.modulus
  {
    if n <= z.modulus {
      forall actions | ValidRun(New(z), actions) && Run(New(z), actions).history.claimed <= n
        ensures Exact(Run(New(z), actions))
      {
        CaptureIsExact(z, actions);
      }
    } else {
      var actions, r := WrapOvercommits(z);
      assert !Exact(Run(New(z), actions));
    }
  }

  // ------------------------------------------------------------------- the tap object

  /** The tap as the object the callback and the control thread call; `State()` is its
      value in the step system with both threads between calls. */
  class CallbackCaptureTap {
    const size: Size
    const slots: array<Sample>
    var written: nat
    var read: nat
    var lost: nat
    var callbacks: nat
    ghost var history: History

    ghost predicate Valid()
      reads this, slots
    {
      MemoryOk(Mem(), size)
    }

    ghost function Mem(): Memory
      reads this, slots
    {
      Memory(slots[..], written, read)
    }

    ghost function State(): Tap
      reads this, slots
    {
      Tap(size, Mem(), lost, callbacks, ProducerIdle, ConsumerIdle, history)
    }

    constructor (z: Size)
      requires SizeOk(z)
      ensures Valid() && fresh(slots) && State() == New(z)
    {
      size := z;
      slots := new Sample[2 * z.capacity](_ => 0);
      written, read, lost, callbacks := 0, 0, 0, 0;
      history := History(0, [], [], [], 0);
      new;
      assert slots[..] == seq(2 * z.capacity, _ => 0);
    }

    /** Rejects a capacity outside the supported range. */
    static method Create(capacity: nat, modulus: nat) returns (tap: CallbackCaptureTap?)
      requires MAX_CAPTURE_FRAMES < modulus
      ensures tap == null <==> !(MIN_CAPTURE_FRAMES <= capacity <= MAX_CAPTURE_FRAMES)
      ensures tap != null ==> fresh(tap) && tap.Valid() && tap.State() == New(Size(capacity, modulus))
    {
      if !(MIN_CAPTURE_FRAMES <= capacity <= MAX_CAPTURE_FRAMES) {
        return null;
      }
      tap := new CallbackCaptureTap(Size(capacity, modulus));
    }

    /** The atomic store of one channel of one frame. */
    method StoreChannel(write: nat, frame: nat, channel: nat, value: Sample)
      requires Valid() && channel < CHANNELS
      modifies slots
      ensures Mem() == Stored(old(Mem()), write, 2 * frame + channel, value, size)
    {
      ghost var k := 2 * frame + channel;
      assert k / 2 == frame && k % 2 == channel;
      SlotInRange(write, k, size);
      slots[(write + frame) % size.modulus % size.capacity * CHANNELS + channel] := value;
    }

    method StoreFrame(samples: seq<Sample>, write: nat, frame: nat, ghost before: Memory)
      requires Valid() && 2 * frame + 2 <= |samples| && MemoryOk(before, size)
      requires Mem() == StoredPrefix(before, samples, write, 2 * frame, size)
      modifies slots
      ensures Mem() == StoredPrefix(before, samples, write, 2 * frame + 2, size)
    {
      for channel := 0 to CHANNELS
        invariant Mem() == StoredPrefix(before, samples, write, 2 * frame + channel, size)
      {
        StoreChannel(write, frame, channel, samples[frame * CHANNELS + channel]);
      }
    }

    method RecordCallback(samples: seq<Sample>)
      requires Valid()
      modifies this, slots
      ensures Valid() && State() == Recorded(old(State()), samples)
    {
      callbacks := (callbacks + 1) % U64_MODULUS;
      var frames := |samples| / CHANNELS;
      var write := written;
      var available := Available(size.capacity, write, read);
      var n := Min(frames, available);
      ghost var before := Mem();
      for frame := 0 to n
        invariant Valid() && Mem() == StoredPrefix(before, samples, write, 2 * frame, size)
        modifies slots
      {
        StoreFrame(samples, write, frame, before);
      }
      written := (write + n) % size.modulus;
      lost := (lost + (frames - n)) % U64_MODULUS;
      history := Published(history.(claimed := history.claimed + n), samples, n);
    }

    /** The atomic load of one channel of one frame. */
    method LoadChannel(from: nat, frame: nat, channel: nat) returns (value: Sample)
      requires Valid() && channel < CHANNELS
      ensures value == Loaded(Mem(), from, 2 * frame + channel, size)
    {
      ghost var k := 2 * frame + channel;
      assert k / 2 == frame && k % 2 == channel;
      SlotInRange(from, k, size);
      value := slots[(from + frame) % size.modulus % size.capacity * CHANNELS + channel];
    }

    method LoadFrame(from: nat, frame: nat, before: seq<Sample>) returns (result: seq<Sample>)
      requires Valid() && before == LoadedPrefix(Mem(), from, 2 * frame, size)
      ensures result == LoadedPrefix(Mem(), from, 2 * frame + 2, size)
    {
      result := before;
      for channel := 0 to CHANNELS
        invariant result == LoadedPrefix(Mem(), from, 2 * frame + channel, size)
      {
        var value := LoadChannel(from, frame, channel);
        result := result + [value];
      }
    }

    method LoadFrames(from: nat, frames: nat) returns (result: seq<Sample>)
      requires Valid()
      ensures result == LoadedPrefix(Mem(), from, 2 * frames, size)
    {
      result := [];
      for frame := 0 to frames
        invariant result == LoadedPrefix(Mem(), from, 2 * frame, size)
      {
        result := LoadFrame(from, frame, result);
      }
    }

    method Drain(maxFrames: nat) returns (result: seq<Sample>)
      requires Valid()
      modifies this
      ensures Valid() && State() == Drained(old(State()), maxFrames)
      ensures history.drained == old(history.drained) + result
    {
      var from := read;
      var frames := Min(WrappingSub(written, from, size.modulus), maxFrames);
      result := LoadFrames(from, frames);
      read := (from + frames) % size.modulus;
      history := history.(drained := history.drained + result);
    }

    /** As long as nothing wrapped, the counters partition every frame ever offered. */
    method Counters() returns (captured: nat, lostFrames: nat, calls: nat)
      requires Valid()
      ensures Inv(State()) && history.totalLost < U64_MODULUS ==>
                captured == |history.accepted| / 2 && lostFrames == history.totalLost
      ensures Inv(State()) && history.totalLost < U64_MODULUS ==> captured + lostFrames == |history.offered| / 2
      ensures calls == callbacks
    {
      captured, lostFrames, calls := written, lost, callbacks;
    }
  }
}
