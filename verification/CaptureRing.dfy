/**
 The lock-free PCM ring of the native audio callback, at the granularity of its atomics.

 One producer (`record_callback`) and one consumer (`drain`) share a ring of sample
 slots and two monotone frame counters. `Step` performs exactly one atomic load, store
 or read-modify-write, so a `Run` is an arbitrary interleaving of the two threads over
 sequentially consistent atomics. `usize` arithmetic wraps at `modulus`, as it does in
 a release build on a 32-bit or a 64-bit target. A frame is two samples.
 */
module CaptureRing {

  const U64_MODULUS: nat := 0x1_0000_0000_0000_0000

  /** The bit pattern of one `f32` sample. */
  type Sample = int

  /** Where the audio callback thread stands inside `record_callback`.
      `k` counts the (frame, channel) stores already made. */
  datatype Producer =
    | ProducerIdle
    | Counted(samples: seq<Sample>)
    | WriteLoaded(samples: seq<Sample>, write: nat)
    | Storing(samples: seq<Sample>, write: nat, accepted: nat, k: nat)
    | Losing(frames: nat)

  /** Where the control thread stands inside `drain`. */
  datatype Consumer =
    | ConsumerIdle
    | ReadLoaded(maxFrames: nat, read: nat)
    | Loading(read: nat, frames: nat, k: nat, result: seq<Sample>)

  /** Fixed at construction. */
  datatype Size = Size(capacity: nat, modulus: nat)

  /** The shared atomics that carry PCM. */
  datatype Memory = Memory(slots: seq<Sample>, written: nat, read: nat)

  /** `claimed` counts every frame a callback decided to accept, published or not;
      `offered` is the whole frames of every callback whose cursor store has happened,
      `accepted` the samples it published, `drained` the samples `drain` returned. */
  datatype History = History(
    claimed: nat, offered: seq<Sample>, accepted: seq<Sample>, drained: seq<Sample>, totalLost: nat)

  datatype Tap = Tap(
    size: Size,
    mem: Memory,
    lost: nat,
    callbacks: nat,
    producer: Producer,
    consumer: Consumer,
    history: History)

  datatype Action =
    | StartRecord(samples: seq<Sample>)
    | LoadWritten
    | LoadRead
    | StoreSample
    | PublishWritten
    | AddLost
    | StartDrain(maxFrames: nat)
    | LoadPublished
    | LoadSample
    | PublishRead

  function Min(a: nat, b: nat): nat { if a < b then a else b }

  function SaturatingSub(a: nat, b: nat): nat { if a < b then 0 else a - b }

  /** `a - b` in wrapping `usize` arithmetic. */
  function WrappingSub(a: nat, b: nat, modulus: nat): nat
    requires 0 < modulus
  {
    (a - b) % modulus
  }

  function Available(capacity: nat, write: nat, read: nat): nat {
    SaturatingSub(capacity, SaturatingSub(write, read))
  }

  /** The slot used for sample `k` of a batch that starts at frame counter `base`. */
  function SlotOf(base: nat, k: nat, z: Size): nat
    requires SizeOk(z)
  {
    (base + k / 2) % z.modulus % z.capacity * 2 + k % 2
  }

  /** The slot of the j-th sample ever published, as long as the counters do not wrap. */
  function StreamSlot(j: nat, capacity: nat): nat
    requires 0 < capacity
  {
    j / 2 % capacity * 2 + j % 2
  }

  predicate SizeOk(z: Size) { 0 < z.capacity < z.modulus }

  predicate MemoryOk(m: Memory, z: Size) { SizeOk(z) && |m.slots| == 2 * z.capacity }

  predicate Config(s: Tap) { MemoryOk(s.mem, s.size) }

  /** `CallbackCaptureTap::new`. */
  function New(z: Size): (r: Tap)
    requires SizeOk(z)
    ensures Config(r)
  {
    Tap(z, Memory(seq(2 * z.capacity, _ => 0), 0, 0), 0, 0, ProducerIdle, ConsumerIdle, History(0, [], [], [], 0))
  }

  predicate Enabled(s: Tap, a: Action) {
    match a
    case StartRecord(_) => s.producer.ProducerIdle?
    case LoadWritten => s.producer.Counted?
    case LoadRead => s.producer.WriteLoaded?
    case StoreSample =>
      && s.producer.Storing?
      && s.producer.k < 2 * s.producer.accepted
      && s.producer.k < |s.producer.samples|
    case PublishWritten =>
      && s.producer.Storing?
      && s.producer.k == 2 * s.producer.accepted <= |s.producer.samples|
    case AddLost => s.producer.Losing?
    case StartDrain(_) => s.consumer.ConsumerIdle?
    case LoadPublished => s.consumer.ReadLoaded?
    case LoadSample => s.consumer.Loading? && s.consumer.k < 2 * s.consumer.frames
    case PublishRead => s.consumer.Loading? && s.consumer.k == 2 * s.consumer.frames
  }

  lemma SlotInRange(base: nat, k: nat, z: Size)
    requires SizeOk(z)
    ensures SlotOf(base, k, z) < 2 * z.capacity
  {}

  function Stored(m: Memory, base: nat, k: nat, value: Sample, z: Size): (r: Memory)
    requires MemoryOk(m, z)
    ensures MemoryOk(r, z)
  {
    SlotInRange(base, k, z);
    m.(slots := m.slots[SlotOf(base, k, z) := value])
  }

  function Loaded(m: Memory, base: nat, k: nat, z: Size): Sample
    requires MemoryOk(m, z)
  {
    SlotInRange(base, k, z);
    m.slots[SlotOf(base, k, z)]
  }

  function Published(h: History, samples: seq<Sample>, accepted: nat): History
    requires 2 * accepted <= |samples|
  {
    var frames := |samples| / 2;
    h.(offered := h.offered + samples[..2 * frames],
       accepted := h.accepted + samples[..2 * accepted],
       totalLost := h.totalLost + (frames - accepted))
  }

  /** One atomic step of one of the two threads. */
  function Step(s: Tap, a: Action): (r: Tap)
    requires Config(s) && Enabled(s, a)
    ensures Config(r) && r.size == s.size && s.history.claimed <= r.history.claimed
  {
    var z, m, p, c, h := s.size, s.mem, s.producer, s.consumer, s.history;
    match a
    case StartRecord(samples) =>
      s.(callbacks := (s.callbacks + 1) % U64_MODULUS, producer := Counted(samples))
    case LoadWritten =>
      s.(producer := WriteLoaded(p.samples, m.written))
    case LoadRead =>
      var accepted := Min(|p.samples| / 2, Available(z.capacity, p.write, m.read));
      s.(producer := Storing(p.samples, p.write, accepted, 0), history := h.(claimed := h.claimed + accepted))
    case StoreSample =>
      s.(mem := Stored(m, p.write, p.k, p.samples[p.k], z), producer := p.(k := p.k + 1))
    case PublishWritten =>
      s.(mem := m.(written := (p.write + p.accepted) % z.modulus),
         producer := Losing(|p.samples| / 2 - p.accepted),
         history := Published(h, p.samples, p.accepted))
    case AddLost =>
      s.(lost := (s.lost + p.frames) % U64_MODULUS, producer := ProducerIdle)
    case StartDrain(maxFrames) =>
      s.(consumer := ReadLoaded(maxFrames, m.read))
    case LoadPublished =>
      s.(consumer := Loading(c.read, Min(WrappingSub(m.written, c.read, z.modulus), c.maxFrames), 0, []))
    case LoadSample =>
      s.(consumer := c.(k := c.k + 1, result := c.result + [Loaded(m, c.read, c.k, z)]))
    case PublishRead =>
      s.(mem := m.(read := (c.read + c.frames) % z.modulus), consumer := ConsumerIdle,
         history := h.(drained := h.drained + c.result))
  }

  predicate ValidRun(s: Tap, actions: seq<Action>)
    requires Config(s)
    decreases |actions|
  {
    actions == [] || (Enabled(s, actions[0]) && ValidRun(Step(s, actions[0]), actions[1..]))
  }

  function Run(s: Tap, actions: seq<Action>): (r: Tap)
    requires Config(s) && ValidRun(s, actions)
    ensures Config(r) && r.size == s.size && s.history.claimed <= r.history.claimed
    decreases |actions|
  {
    if actions == [] then s else Run(Step(s, actions[0]), actions[1..])
  }

  // ---------------------------------------------------------------- invariant

  ghost predicate SlotHolds(slots: seq<Sample>, capacity: nat, at: nat, value: Sample)
    requires 0 < capacity
  {
    StreamSlot(at, capacity) < |slots| && slots[StreamSlot(at, capacity)] == value
  }

  /** The samples `data`, starting at stream position `from`, sit in their slots. */
  ghost predicate Holds(slots: seq<Sample>, capacity: nat, from: nat, data: seq<Sample>)
    requires 0 < capacity
  {
    forall i :: 0 <= i < |data| ==> SlotHolds(slots, capacity, from + i, data[i])
  }

  /** The published, unread stream sits in the slots. */
  ghost predicate RingOk(z: Size, m: Memory, accepted: seq<Sample>, drained: seq<Sample>) {
    && MemoryOk(m, z)
    && |accepted| == 2 * m.written && |drained| == 2 * m.read
    && m.read <= m.written <= m.read + z.capacity
    && drained == accepted[..2 * m.read]
    && Holds(m.slots, z.capacity, 2 * m.read, accepted[2 * m.read..])
  }

  ghost predicate ProducerOk(z: Size, m: Memory, p: Producer, claimed: nat)
    requires SizeOk(z)
  {
    match p
    case WriteLoaded(_, write) => write == m.written && claimed == m.written
    case Storing(samples, write, accepted, k) =>
      && write == m.written
      && claimed == write + accepted
      && 2 * accepted <= |samples|
      && write + accepted <= m.read + z.capacity
      && k <= 2 * accepted
      && Holds(m.slots, z.capacity, 2 * write, samples[..k])
    case _ => claimed == m.written
  }

  ghost predicate ConsumerOk(written: nat, read: nat, c: Consumer, accepted: seq<Sample>) {
    match c
    case ConsumerIdle => true
    case ReadLoaded(_, from) => from == read
    case Loading(from, frames, k, result) =>
      && from == read && read + frames <= written && k <= 2 * frames
      && 2 * read + k <= |accepted|
      && result == accepted[2 * read..2 * read + k]
  }

  function PendingLoss(p: Producer): nat { if p.Losing? then p.frames else 0 }

  /** Every whole frame ever offered was published or counted as lost. */
  ghost predicate AccountingOk(h: History, lost: nat, pending: nat) {
    && |h.offered| == |h.accepted| + 2 * h.totalLost
    && (h.totalLost == 0 ==> h.accepted == h.offered)
    && pending <= h.totalLost
    && lost == (h.totalLost - pending) % U64_MODULUS
  }

  ghost predicate Inv(s: Tap) {
    && s.history.claimed < s.size.modulus
    && RingOk(s.size, s.mem, s.history.accepted, s.history.drained)
    && ProducerOk(s.size, s.mem, s.producer, s.history.claimed)
    && ConsumerOk(s.mem.written, s.mem.read, s.consumer, s.history.accepted)
    && AccountingOk(s.history, s.lost, PendingLoss(s.producer))
  }

  // ------------------------------------------------------- residues of slots

  lemma MulMonotone(n: nat, x: int, y: int)
    requires x <= y
    ensures n * x <= n * y
  {}

  lemma DivModUnique(x: int, n: nat, q: int, r: int)
    requires 0 < n && 0 <= r < n && x == n * q + r
    ensures x / n == q && x % n == r
  {
    var d := q - x / n;
    assert n * d == x % n - r;
    if d >= 1 { MulMonotone(n, 1, d); } else if d <= -1 { MulMonotone(n, d, -1); }
  }

  lemma SmallMod(x: nat, n: nat)
    requires x < n
    ensures x % n == x
  {}

  lemma ResiduesDiffer(a: nat, b: nat, n: nat)
    requires 0 < n && a < b < a + n
    ensures a % n != b % n
  {
    if a % n == b % n {
      DivModUnique(b, n, b / n, a % n);
      assert b - a == n * (b / n - a / n);
      if b / n <= a / n { MulMonotone(n, b / n - a / n, 0); } else { MulMonotone(n, 1, b / n - a / n); }
    }
  }

  /** Two samples less than one ring apart never share a slot. */
  lemma StreamSlotsDiffer(i: nat, j: nat, capacity: nat)
    requires 0 < capacity && i != j && i < j + 2 * capacity && j < i + 2 * capacity
    ensures StreamSlot(i, capacity) != StreamSlot(j, capacity)
  {
    if i % 2 == j % 2 {
      if i < j { ResiduesDiffer(i / 2, j / 2, capacity); } else { ResiduesDiffer(j / 2, i / 2, capacity); }
    }
  }

  /** The code's slot expression is the stream slot as long as the frame counter fits. */
  lemma SlotIsStreamSlot(base: nat, k: nat, z: Size)
    requires SizeOk(z) && base + k / 2 < z.modulus
    ensures SlotOf(base, k, z) == StreamSlot(2 * base + k, z.capacity)
  {
    assert (2 * base + k) / 2 == base + k / 2;
    SmallMod(base + k / 2, z.modulus);
  }

  // ------------------------------------------------------- windows of the ring

  /** A store into a position outside the window leaves the window alone. */
  lemma StoreOutside(slots: seq<Sample>, capacity: nat, from: nat, data: seq<Sample>, at: nat, value: Sample)
    requires 0 < capacity && Holds(slots, capacity, from, data)
    requires from + |data| <= at < from + 2 * capacity
    requires StreamSlot(at, capacity) < |slots|
    ensures Holds(slots[StreamSlot(at, capacity) := value], capacity, from, data)
  {
    forall i | 0 <= i < |data|
      ensures SlotHolds(slots[StreamSlot(at, capacity) := value], capacity, from + i, data[i])
    {
      assert SlotHolds(slots, capacity, from + i, data[i]);
      StreamSlotsDiffer(from + i, at, capacity);
    }
  }

  lemma HoldsAppend(slots: seq<Sample>, capacity: nat, from: nat, data: seq<Sample>, more: seq<Sample>)
    requires 0 < capacity && Holds(slots, capacity, from, data) && Holds(slots, capacity, from + |data|, more)
    ensures Holds(slots, capacity, from, data + more)
  {
    forall i | 0 <= i < |data + more|
      ensures SlotHolds(slots, capacity, from + i, (data + more)[i])
    {
      if i < |data| { assert SlotHolds(slots, capacity, from + i, data[i]); }
      else { assert SlotHolds(slots, capacity, from + |data| + (i - |data|), more[i - |data|]); }
    }
  }

  lemma HoldsDrop(slots: seq<Sample>, capacity: nat, from: nat, data: seq<Sample>, n: nat)
    requires 0 < capacity && n <= |data| && Holds(slots, capacity, from, data)
    ensures Holds(slots, capacity, from + n, data[n..])
  {
    forall i | 0 <= i < |data[n..]|
      ensures SlotHolds(slots, capacity, from + n + i, data[n..][i])
    {
      assert SlotHolds(slots, capacity, from + (n + i), data[n + i]);
    }
  }

  // ----------------------------------------------------------- preservation

  lemma StoreOk(z: Size, m: Memory, p: Producer, claimed: nat, accepted: seq<Sample>, drained: seq<Sample>)
    requires RingOk(z, m, accepted, drained) && ProducerOk(z, m, p, claimed) && claimed < z.modulus
    requires p.Storing? && p.k < 2 * p.accepted
    ensures var m' := Stored(m, p.write, p.k, p.samples[p.k], z);
            RingOk(z, m', accepted, drained) && ProducerOk(z, m', p.(k := p.k + 1), claimed)
  {
    var at, value := 2 * p.write + p.k, p.samples[p.k];
    var m' := Stored(m, p.write, p.k, value, z);
    SlotIsStreamSlot(p.write, p.k, z);
    SlotInRange(p.write, p.k, z);
    StoreOutside(m.slots, z.capacity, 2 * m.read, accepted[2 * m.read..], at, value);
    StoreOutside(m.slots, z.capacity, 2 * p.write, p.samples[..p.k], at, value);
    assert SlotHolds(m'.slots, z.capacity, at, value);
    HoldsAppend(m'.slots, z.capacity, 2 * p.write, p.samples[..p.k], [value]);
    assert p.samples[..p.k + 1] == p.samples[..p.k] + [value];
  }

  lemma PublishWrittenRing(z: Size, m: Memory, p: Producer, claimed: nat, accepted: seq<Sample>, drained: seq<Sample>)
    requires RingOk(z, m, accepted, drained) && ProducerOk(z, m, p, claimed)
    requires p.Storing? && p.k == 2 * p.accepted
    ensures RingOk(z, m.(written := p.write + p.accepted), accepted + p.samples[..p.k], drained)
  {
    var from := 2 * m.read;
    HoldsAppend(m.slots, z.capacity, from, accepted[from..], p.samples[..p.k]);
    assert (accepted + p.samples[..p.k])[from..] == accepted[from..] + p.samples[..p.k];
    assert (accepted + p.samples[..p.k])[..from] == accepted[..from];
  }

  lemma PublishWrittenConsumer(written: nat, read: nat, c: Consumer, accepted: seq<Sample>, more: seq<Sample>, written': nat)
    requires ConsumerOk(written, read, c, accepted) && written <= written'
    ensures ConsumerOk(written', read, c, accepted + more)
  {}

  lemma PublishedAccounting(h: History, lost: nat, samples: seq<Sample>, accepted: nat)
    requires AccountingOk(h, lost, 0) && 2 * accepted <= |samples|
    ensures AccountingOk(Published(h, samples, accepted), lost, |samples| / 2 - accepted)
  {
    var frames := |samples| / 2;
    if h.totalLost + (frames - accepted) == 0 {
      assert samples[..2 * accepted] == samples[..2 * frames];
    }
  }

  lemma LoadSampleOk(z: Size, m: Memory, c: Consumer, accepted: seq<Sample>, drained: seq<Sample>)
    requires RingOk(z, m, accepted, drained) && m.written < z.modulus
    requires ConsumerOk(m.written, m.read, c, accepted) && c.Loading? && c.k < 2 * c.frames
    ensures ConsumerOk(m.written, m.read, c.(k := c.k + 1, result := c.result + [Loaded(m, c.read, c.k, z)]), accepted)
  {
    var from := 2 * m.read;
    SlotIsStreamSlot(c.read, c.k, z);
    assert SlotHolds(m.slots, z.capacity, from + c.k, accepted[from..][c.k]);
    assert accepted[from..from + c.k + 1] == accepted[from..from + c.k] + [accepted[from + c.k]];
  }

  lemma PublishReadRing(z: Size, m: Memory, c: Consumer, accepted: seq<Sample>, drained: seq<Sample>)
    requires RingOk(z, m, accepted, drained)
    requires ConsumerOk(m.written, m.read, c, accepted) && c.Loading? && c.k == 2 * c.frames
    ensures RingOk(z, m.(read := c.read + c.frames), accepted, drained + c.result)
  {
    var from, to := 2 * m.read, 2 * (c.read + c.frames);
    assert drained + c.result == accepted[..from] + accepted[from..to] == accepted[..to];
    HoldsDrop(m.slots, z.capacity, from, accepted[from..], to - from);
    assert accepted[from..][to - from..] == accepted[to..];
  }

  lemma PublishReadProducer(z: Size, m: Memory, p: Producer, claimed: nat, read': nat)
    requires SizeOk(z) && ProducerOk(z, m, p, claimed) && m.read <= read'
    ensures ProducerOk(z, m.(read := read'), p, claimed)
  {}

  lemma LoadReadOk(z: Size, m: Memory, p: Producer, claimed: nat)
    requires SizeOk(z) && ProducerOk(z, m, p, claimed) && p.WriteLoaded? && m.written <= m.read + z.capacity
    requires m.read <= m.written
    ensures var accepted := Min(|p.samples| / 2, Available(z.capacity, p.write, m.read));
            ProducerOk(z, m, Storing(p.samples, p.write, accepted, 0), claimed + accepted)
  {}

  lemma StoreKeepsInv(s: Tap)
    requires Inv(s) && Enabled(s, StoreSample)
    ensures Inv(Step(s, StoreSample))
  {
    StoreOk(s.size, s.mem, s.producer, s.history.claimed, s.history.accepted, s.history.drained);
  }

  lemma PublishWrittenKeepsInv(s: Tap)
    requires Inv(s) && Enabled(s, PublishWritten)
    ensures Inv(Step(s, PublishWritten))
  {
    var z, m, p, h := s.size, s.mem, s.producer, s.history;
    SmallMod(p.write + p.accepted, z.modulus);
    PublishWrittenRing(z, m, p, h.claimed, h.accepted, h.drained);
    PublishWrittenConsumer(m.written, m.read, s.consumer, h.accepted, p.samples[..p.k], p.write + p.accepted);
    PublishedAccounting(h, s.lost, p.samples, p.accepted);
  }

  lemma LoadReadKeepsInv(s: Tap)
    requires Inv(s) && Enabled(s, LoadRead) && Step(s, LoadRead).history.claimed < s.size.modulus
    ensures Inv(Step(s, LoadRead))
  {
    LoadReadOk(s.size, s.mem, s.producer, s.history.claimed);
  }

  lemma LoadPublishedKeepsInv(s: Tap)
    requires Inv(s) && Enabled(s, LoadPublished)
    ensures Inv(Step(s, LoadPublished))
  {
    SmallMod(s.mem.written - s.consumer.read, s.size.modulus);
  }

  lemma LoadSampleKeepsInv(s: Tap)
    requires Inv(s) && Enabled(s, LoadSample)
    ensures Inv(Step(s, LoadSample))
  {
    LoadSampleOk(s.size, s.mem, s.consumer, s.history.accepted, s.history.drained);
  }

  lemma PublishReadKeepsInv(s: Tap)
    requires Inv(s) && Enabled(s, PublishRead)
    ensures Inv(Step(s, PublishRead))
  {
    var z, m, c, h := s.size, s.mem, s.consumer, s.history;
    SmallMod(c.read + c.frames, z.modulus);
    PublishReadRing(z, m, c, h.accepted, h.drained);
    PublishReadProducer(z, m, s.producer, h.claimed, c.read + c.frames);
  }

  lemma AddLostKeepsInv(s: Tap)
    requires Inv(s) && Enabled(s, AddLost)
    ensures Inv(Step(s, AddLost))
  {
    AddMod(s.history.totalLost - s.producer.frames, s.producer.frames, U64_MODULUS);
  }

  lemma AddMod(a: nat, b: nat, n: nat)
    requires 0 < n
    ensures (a % n + b) % n == (a + b) % n
  {
    var x := a % n + b;
    assert a + b == n * (a / n) + n * (x / n) + x % n == n * (a / n + x / n) + x % n;
    DivModUnique(a + b, n, a / n + x / n, x % n);
  }

  /** No step breaks the ring, provided the frames claimed so far still fit in `usize`. */
  lemma StepKeepsInv(s: Tap, a: Action)
    requires Inv(s) && Enabled(s, a) && Step(s, a).history.claimed < s.size.modulus
    ensures Inv(Step(s, a))
  {
    if a.StoreSample? { StoreKeepsInv(s); }
    else if a.PublishWritten? { PublishWrittenKeepsInv(s); }
    else if a.LoadRead? { LoadReadKeepsInv(s); }
    else if a.LoadPublished? { LoadPublishedKeepsInv(s); }
    else if a.LoadSample? { LoadSampleKeepsInv(s); }
    else if a.PublishRead? { PublishReadKeepsInv(s); }
    else if a.AddLost? { AddLostKeepsInv(s); }
  }

  lemma {:induction false} RunKeepsInv(s: Tap, actions: seq<Action>)
    requires Inv(s) && ValidRun(s, actions) && Run(s, actions).history.claimed < s.size.modulus
    ensures Inv(Run(s, actions))
    decreases |actions|
  {
    if actions != [] {
      StepKeepsInv(s, actions[0]);
      RunKeepsInv(Step(s, actions[0]), actions[1..]);
    }
  }

  lemma NewInv(z: Size)
    requires SizeOk(z)
    ensures Inv(New(z))
  {}

  // ------------------------------------------------------------ main results

  /** What a reader of shared memory finds between the two published cursors. */
  ghost function Unread(z: Size, m: Memory): (r: seq<Sample>)
    requires MemoryOk(m, z)
  {
    seq(2 * WrappingSub(m.written, m.read, z.modulus), i requires 0 <= i => Loaded(m, m.read, i, z))
  }

  /** The promise of the tap: a drain that took everything now would complete the accepted
      stream, in order. */
  ghost predicate Exact(s: Tap)
    requires Config(s)
  {
    s.history.drained + Unread(s.size, s.mem) == s.history.accepted
  }

  /** The slots the producer may still store into during its current call. */
  ghost predicate ProducerOwns(z: Size, p: Producer, slot: nat)
    requires SizeOk(z)
  {
    p.Storing? && exists i: nat :: p.k <= i < 2 * p.accepted && slot == SlotOf(p.write, i, z)
  }

  /** The slots the consumer may still load from during its current call. */
  ghost predicate ConsumerOwns(z: Size, c: Consumer, slot: nat)
    requires SizeOk(z)
  {
    c.Loading? && exists i: nat :: c.k <= i < 2 * c.frames && slot == SlotOf(c.read, i, z)
  }

  lemma UnreadIsSuffix(s: Tap)
    requires Inv(s)
    ensures Unread(s.size, s.mem) == s.history.accepted[2 * s.mem.read..]
  {
    SmallMod(s.mem.written - s.mem.read, s.size.modulus);
    var u, rest := Unread(s.size, s.mem), s.history.accepted[2 * s.mem.read..];
    forall i | 0 <= i < |u| ensures u[i] == rest[i] {
      SlotIsStreamSlot(s.mem.read, i, s.size);
      assert SlotHolds(s.mem.slots, s.size.capacity, 2 * s.mem.read + i, rest[i]);
    }
  }

  lemma OwnedSlotsDisjoint(s: Tap, slot: nat)
    requires Inv(s)
    ensures !(ProducerOwns(s.size, s.producer, slot) && ConsumerOwns(s.size, s.consumer, slot))
  {
    var p, c := s.producer, s.consumer;
    if ProducerOwns(s.size, p, slot) && ConsumerOwns(s.size, c, slot) {
      var i: nat :| p.k <= i < 2 * p.accepted && slot == SlotOf(p.write, i, s.size);
      var j: nat :| c.k <= j < 2 * c.frames && slot == SlotOf(c.read, j, s.size);
      SlotIsStreamSlot(p.write, i, s.size);
      SlotIsStreamSlot(c.read, j, s.size);
      StreamSlotsDiffer(2 * p.write + i, 2 * c.read + j, s.size.capacity);
    }
  }

  // ------------------------------------------------- the same run with cursors that wrap

  ghost function FramesIn(samples: seq<Sample>): nat { |samples| / 2 }

  function WrapProducer(p: Producer, n: nat): Producer
    requires 0 < n
  {
    match p
    case WriteLoaded(samples, write) => WriteLoaded(samples, write % n)
    case Storing(samples, write, accepted, k) => Storing(samples, write % n, accepted, k)
    case _ => p
  }

  function WrapConsumer(c: Consumer, n: nat): Consumer
    requires 0 < n
  {
    match c
    case ConsumerIdle => c
    case ReadLoaded(maxFrames, read) => ReadLoaded(maxFrames, read % n)
    case Loading(read, frames, k, result) => Loading(read % n, frames, k, result)
  }

  /** The same moment on a machine whose cursors wrap at `n`. */
  function Wrapped(s: Tap, n: nat): Tap
    requires 0 < n
  {
    s.(size := s.size.(modulus := n),
       mem := s.mem.(written := s.mem.written % n, read := s.mem.read % n),
       producer := WrapProducer(s.producer, n),
       consumer := WrapConsumer(s.consumer, n))
  }

  /** A machine with room to spare, beside one whose cursors wrap at `n`. The slots agree
      while no position reaches `n`, and for good if the capacity divides `n`. */
  ghost predicate Beside(s: Tap, n: nat) {
    Inv(s) && s.size.capacity < n < s.size.modulus && (s.history.claimed <= n || n % s.size.capacity == 0)
  }

  lemma ModOfMod(x: nat, n: nat, c: nat)
    requires 0 < c && 0 < n && n % c == 0
    ensures x % n % c == x % c
  {
    var q, a, y := n / c, x / n, x % n;
    assert n == c * q;
    assert x == c * q * a + y == c * (q * a) + (c * (y / c) + y % c) == c * (q * a + y / c) + y % c;
    DivModUnique(x, c, q * a + y / c, y % c);
  }

  lemma SameSlot(base: nat, k: nat, z: Size, n: nat)
    requires SizeOk(z) && z.capacity < n < z.modulus && base + k / 2 < z.modulus
    requires base + k / 2 < n || n % z.capacity == 0
    ensures SlotOf(base % n, k, z.(modulus := n)) == SlotOf(base, k, z)
  {
    AddMod(base, k / 2, n);
    SmallMod(base + k / 2, z.modulus);
    if base + k / 2 < n { SmallMod(base + k / 2, n); } else { ModOfMod(base + k / 2, n, z.capacity); }
  }

  lemma WrappedDistance(w: nat, r: nat, n: nat)
    requires r <= w < r + n
    ensures WrappingSub(w % n, r % n, n) == w - r
  {
    DivModUnique(w % n - r % n, n, r / n - w / n, w - r);
  }

  lemma WrappedCount(s: Tap, n: nat)
    requires Beside(s, n) && s.consumer.ReadLoaded?
    ensures Step(Wrapped(s, n), LoadPublished) == Wrapped(Step(s, LoadPublished), n)
  {
    WrappedDistance(s.mem.written, s.mem.read, n);
    SmallMod(s.mem.written - s.mem.read, s.size.modulus);
  }

  lemma WrappedStore(s: Tap, n: nat)
    requires Beside(s, n) && Enabled(s, StoreSample)
    ensures Step(Wrapped(s, n), StoreSample) == Wrapped(Step(s, StoreSample), n)
  {
    SameSlot(s.producer.write, s.producer.k, s.size, n);
  }

  lemma WrappedLoad(s: Tap, n: nat)
    requires Beside(s, n) && Enabled(s, LoadSample)
    ensures Step(Wrapped(s, n), LoadSample) == Wrapped(Step(s, LoadSample), n)
  {
    SameSlot(s.consumer.read, s.consumer.k, s.size, n);
  }

  lemma WrappedPublish(s: Tap, a: Action, n: nat)
    requires Beside(s, n) && Enabled(s, a) && (a.PublishWritten? || a.PublishRead?)
    ensures Step(Wrapped(s, n), a) == Wrapped(Step(s, a), n)
  {
    if a.PublishWritten? {
      AddMod(s.producer.write, s.producer.accepted, n);
      SmallMod(s.producer.write + s.producer.accepted, s.size.modulus);
    } else {
      AddMod(s.consumer.read, s.consumer.frames, n);
      SmallMod(s.consumer.read + s.consumer.frames, s.size.modulus);
    }
  }

  /** Every step but the one that computes the free space does the same on both machines. */
  lemma WrappedStep(s: Tap, a: Action, n: nat)
    requires Beside(s, n) && Enabled(Wrapped(s, n), a) && !a.LoadRead?
    ensures Enabled(s, a) && Step(Wrapped(s, n), a) == Wrapped(Step(s, a), n)
  {
    if a.LoadPublished? { WrappedCount(s, n); }
    else if a.StoreSample? { WrappedStore(s, n); }
    else if a.LoadSample? { WrappedLoad(s, n); }
    else if a.PublishWritten? || a.PublishRead? { WrappedPublish(s, a, n); }
  }

  lemma WrappedUnread(s: Tap, n: nat)
    requires Beside(s, n)
    ensures Unread(Wrapped(s, n).size, Wrapped(s, n).mem) == Unread(s.size, s.mem)
  {
    var z, m := s.size, s.mem;
    WrappedDistance(m.written, m.read, n);
    SmallMod(m.written - m.read, z.modulus);
    forall i | 0 <= i < 2 * (m.written - m.read)
      ensures Loaded(Wrapped(s, n).mem, m.read % n, i, z.(modulus := n)) == Loaded(m, m.read, i, z)
    {
      SameSlot(m.read, i, z, n);
    }
  }

  lemma WrappedOwners(s: Tap, n: nat, slot: nat)
    requires Beside(s, n)
    ensures var t := Wrapped(s, n); !(ProducerOwns(t.size, t.producer, slot) && ConsumerOwns(t.size, t.consumer, slot))
  {
    var t := Wrapped(s, n);
    if ProducerOwns(t.size, t.producer, slot) && ConsumerOwns(t.size, t.consumer, slot) {
      var i: nat :| t.producer.k <= i < 2 * t.producer.accepted && slot == SlotOf(t.producer.write, i, t.size);
      var j: nat :| t.consumer.k <= j < 2 * t.consumer.frames && slot == SlotOf(t.consumer.read, j, t.size);
      SameSlot(s.producer.write, i, s.size, n);
      SameSlot(s.consumer.read, j, s.size, n);
      OwnedSlotsDisjoint(s, slot);
    }
  }

  /** Everything the tap promises at one moment. */
  ghost predicate Promises(s: Tap)
    requires Config(s)
  {
    var z, h := s.size, s.history;
    && Exact(s)
    && FramesIn(h.drained) <= FramesIn(h.accepted) <= FramesIn(h.drained) + z.capacity
    && (s.consumer.Loading? ==> s.consumer.result <= Unread(z, s.mem))
    && (forall slot :: !(ProducerOwns(z, s.producer, slot) && ConsumerOwns(z, s.consumer, slot)))
    && |h.offered| == |h.accepted| + 2 * h.totalLost
    && (h.totalLost == 0 ==> h.drained + Unread(z, s.mem) == h.offered)
  }

  lemma WrappedPromises(s: Tap, n: nat)
    requires Beside(s, n)
    ensures Promises(Wrapped(s, n))
  {
    UnreadIsSuffix(s);
    WrappedUnread(s, n);
    var t := Wrapped(s, n);
    forall slot ensures !(ProducerOwns(t.size, t.producer, slot) && ConsumerOwns(t.size, t.consumer, slot)) {
      WrappedOwners(s, n, slot);
    }
  }

  lemma WrappedFree(s: Tap, n: nat)
    requires Beside(s, n) && s.producer.WriteLoaded?
    requires Step(Wrapped(s, n), LoadRead).history.claimed <= n
    ensures Step(Wrapped(s, n), LoadRead) == Wrapped(Step(s, LoadRead), n)
  {
    if s.producer.write < n {
      SmallMod(s.producer.write, n);
      SmallMod(s.mem.read, n);
    } else {
      DivModUnique(n, n, 1, 0);
      assert |s.producer.samples| / 2 == 0;
    }
  }

  /** Up to the word size itself, wrapping changes no step of the tap. */
  lemma {:induction false} WrappedRun(s: Tap, actions: seq<Action>, n: nat)
    requires Beside(s, n) && ValidRun(Wrapped(s, n), actions) && Run(Wrapped(s, n), actions).history.claimed <= n
    ensures ValidRun(s, actions) && Run(Wrapped(s, n), actions) == Wrapped(Run(s, actions), n)
    ensures Beside(Run(s, actions), n)
    decreases |actions|
  {
    if actions != [] {
      var rest := Step(Wrapped(s, n), actions[0]);
      assert rest.history.claimed <= Run(rest, actions[1..]).history.claimed;
      if actions[0].LoadRead? { WrappedFree(s, n); } else { WrappedStep(s, actions[0], n); }
      StepKeepsInv(s, actions[0]);
      WrappedRun(Step(s, actions[0]), actions[1..], n);
    }
  }

  /** Whatever the interleaving, until more frames have been claimed than `usize` has
      values: what was drained followed by what the ring still holds is the accepted
      stream, in order; the batch being drained is the front of what is unread; the two
      threads never own a slot in common; and every offered frame was accepted or counted
      as lost. */
  lemma CaptureIsExact(z: Size, actions: seq<Action>)
    requires SizeOk(z) && ValidRun(New(z), actions) && Run(New(z), actions).history.claimed <= z.modulus
    ensures Promises(Run(New(z), actions))
  {
    var wider := New(z.(modulus := z.modulus + 1));
    NewInv(wider.size);
    assert Wrapped(wider, z.modulus) == New(z);
    WrappedRun(wider, actions, z.modulus);
    WrappedPromises(Run(wider, actions), z.modulus);
  }

  function Callbacks(actions: seq<Action>): nat {
    if actions == [] then 0 else (if actions[0].StartRecord? then 1 else 0) + Callbacks(actions[1..])
  }

  /** The callback counter counts the calls of `record_callback`, modulo its width. */
  lemma {:induction false} RunCountsCallbacks(s: Tap, actions: seq<Action>, before: nat)
    requires Config(s) && ValidRun(s, actions) && s.callbacks == before % U64_MODULUS
    ensures Run(s, actions).callbacks == (before + Callbacks(actions)) % U64_MODULUS
    decreases |actions|
  {
    if actions != [] {
      AddMod(before, 1, U64_MODULUS);
      RunCountsCallbacks(Step(s, actions[0]), actions[1..], before + (if actions[0].StartRecord? then 1 else 0));
    }
  }

  // ------------------------------------------------- when the counters do wrap

  /** Without any bound the stored cursors are the true frame counts modulo `usize`. */
  ghost predicate CursorsTrack(z: Size, m: Memory, accepted: seq<Sample>, drained: seq<Sample>) {
    && SizeOk(z) && |accepted| % 2 == 0 && |drained| % 2 == 0
    && m.written == FramesIn(accepted) % z.modulus && m.read == FramesIn(drained) % z.modulus
  }

  ghost predicate LocalsTrack(m: Memory, p: Producer, c: Consumer) {
    && (p.WriteLoaded? || p.Storing? ==> p.write == m.written)
    && (c.ReadLoaded? || c.Loading? ==> c.read == m.read)
    && (c.Loading? ==> |c.result| == c.k)
  }

  ghost predicate Tracks(s: Tap) {
    && Config(s) && CursorsTrack(s.size, s.mem, s.history.accepted, s.history.drained)
    && LocalsTrack(s.mem, s.producer, s.consumer)
  }

  lemma StepTracks(s: Tap, a: Action)
    requires Tracks(s) && Enabled(s, a)
    ensures Tracks(Step(s, a))
  {
    if a.PublishWritten? {
      AddMod(FramesIn(s.history.accepted), s.producer.accepted, s.size.modulus);
      assert FramesIn(Step(s, a).history.accepted) == FramesIn(s.history.accepted) + s.producer.accepted;
    } else if a.PublishRead? {
      AddMod(FramesIn(s.history.drained), s.consumer.frames, s.size.modulus);
      assert FramesIn(Step(s, a).history.drained) == FramesIn(s.history.drained) + s.consumer.frames;
    }
  }

  lemma {:induction false} RunTracks(s: Tap, actions: seq<Action>)
    requires Tracks(s) && ValidRun(s, actions)
    ensures Tracks(Run(s, actions))
    decreases |actions|
  {
    if actions != [] {
      StepTracks(s, actions[0]);
      RunTracks(Step(s, actions[0]), actions[1..]);
    }
  }

  lemma AvailableIffNotWrapped(capacity: nat, w: nat, r: nat, n: nat)
    requires capacity < n && r <= w <= r + capacity
    ensures Available(capacity, w % n, r % n) == capacity - (w - r) <==> r % n <= w % n
  {
    var qw, qr, mw, mr := w / n, r / n, w % n, r % n;
    assert w - r == n * (qw - qr) + (mw - mr);
    if qw < qr { MulMonotone(n, qw - qr, -1); }
    if qw > qr { MulMonotone(n, 1, qw - qr); }
  }

  /** In every run, with no bound at all: while the ring is within capacity, the free
      space `record_callback` computes is the true free space if and only if the write
      cursor it loaded is not behind the read cursor it loads. */
  lemma FreeSpaceIsRightIffNotWrapped(z: Size, actions: seq<Action>)
    requires SizeOk(z) && ValidRun(New(z), actions)
    requires var s := Run(New(z), actions);
             && s.producer.WriteLoaded?
             && FramesIn(s.history.drained) <= FramesIn(s.history.accepted)
                <= FramesIn(s.history.drained) + z.capacity
    ensures var s := Run(New(z), actions);
            var w, r := FramesIn(s.history.accepted), FramesIn(s.history.drained);
            Available(z.capacity, s.producer.write, s.mem.read) == z.capacity - (w - r)
            <==> s.mem.read <= s.producer.write
  {
    var s := Run(New(z), actions);
    RunTracks(New(z), actions);
    AvailableIffNotWrapped(z.capacity, FramesIn(s.history.accepted), FramesIn(s.history.drained), z.modulus);
  }
}
