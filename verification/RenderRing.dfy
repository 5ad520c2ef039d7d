/**
 The render ring between the pushing thread and the real-time callback, at the granularity
 of its atomics. It makes the accesses of the capture ring, `push_frames` as its producer and
 `read_frames` as its consumer, and differs in one expression: the free space is computed by
 wrapping subtractions. The consumer loads its own cursor, which no one else stores, after
 the other one; the two loads commute. `lost` counts the frames a push did not take, which
 the ring reports by its return value.
 */
module RenderRing {
  import opened CaptureRing
  import opened CaptureTap

  function Free(z: Size, write: nat, read: nat): nat
    requires SizeOk(z)
  {
    WrappingSub(z.capacity, WrappingSub(write, read, z.modulus), z.modulus)
  }

  function RenderStep(s: Tap, a: Action): (r: Tap)
    requires Config(s) && Enabled(s, a)
    ensures Config(r) && r.size == s.size && s.history.claimed <= r.history.claimed
  {
    if a.LoadRead? then
      var p := s.producer;
      var accepted := Min(|p.samples| / 2, Free(s.size, p.write, s.mem.read));
      s.(producer := Storing(p.samples, p.write, accepted, 0),
         history := s.history.(claimed := s.history.claimed + accepted))
    else Step(s, a)
  }

  predicate RenderValid(s: Tap, actions: seq<Action>)
    requires Config(s)
    decreases |actions|
  {
    actions == [] || (Enabled(s, actions[0]) && RenderValid(RenderStep(s, actions[0]), actions[1..]))
  }

  function RenderRun(s: Tap, actions: seq<Action>): (r: Tap)
    requires Config(s) && RenderValid(s, actions)
    ensures Config(r) && r.size == s.size && s.history.claimed <= r.history.claimed
    decreases |actions|
  {
    if actions == [] then s else RenderRun(RenderStep(s, actions[0]), actions[1..])
  }

  // ------------------------------------------------------------------ it never errs

  lemma FreeIsTrue(capacity: nat, w: nat, r: nat, n: nat)
    requires 0 < capacity < n && r <= w <= r + capacity
    ensures Free(Size(capacity, n), w % n, r % n) == capacity - (w - r)
  {
    WrappedDistance(w, r, n);
    SmallMod(capacity - (w - r), n);
  }

  lemma WrappedRenderStep(s: Tap, a: Action, n: nat)
    requires Beside(s, n) && Enabled(Wrapped(s, n), a)
    ensures Enabled(s, a) && RenderStep(Wrapped(s, n), a) == Wrapped(Step(s, a), n)
  {
    if a.LoadRead? { FreeIsTrue(s.size.capacity, s.mem.written, s.mem.read, n); } else { WrappedStep(s, a, n); }
  }

  /** No frame claimed reaches the word size, or the capacity divides it. */
  ghost predicate Fits(z: Size, claimed: nat)
    requires SizeOk(z)
  {
    claimed <= z.modulus || z.modulus % z.capacity == 0
  }

  lemma {:induction false} WrappedRenderRun(s: Tap, actions: seq<Action>, n: nat)
    requires Beside(s, n) && RenderValid(Wrapped(s, n), actions)
    requires var claimed := RenderRun(Wrapped(s, n), actions).history.claimed;
             claimed < s.size.modulus && Fits(Wrapped(s, n).size, claimed)
    ensures ValidRun(s, actions) && RenderRun(Wrapped(s, n), actions) == Wrapped(Run(s, actions), n)
    ensures Beside(Run(s, actions), n)
    decreases |actions|
  {
    if actions != [] {
      var rest := RenderStep(Wrapped(s, n), actions[0]);
      assert rest.history.claimed <= RenderRun(rest, actions[1..]).history.claimed;
      WrappedRenderStep(s, actions[0], n);
      StepKeepsInv(s, actions[0]);
      WrappedRenderRun(Step(s, actions[0]), actions[1..], n);
    }
  }

  /** Under every interleaving of pushes and reads, with the frames claimed within the word
      size or the capacity a divisor of it: what callbacks were supplied followed by what is
      queued is what pushes accepted, in order, and the two threads never touch one slot. */
  lemma RenderIsExact(z: Size, actions: seq<Action>)
    requires SizeOk(z) && RenderValid(New(z), actions) && Fits(z, RenderRun(New(z), actions).history.claimed)
    ensures Promises(RenderRun(New(z), actions))
  {
    var ample := New(Size(z.capacity, z.modulus + RenderRun(New(z), actions).history.claimed + 1));
    NewInv(ample.size);
    SmallMod(0, z.modulus);
    assert Wrapped(ample, z.modulus) == New(z);
    WrappedRenderRun(ample, actions, z.modulus);
    WrappedPromises(Run(ample, actions), z.modulus);
  }

  // --------------------------------------------------------- agreement with the tap

  /** Along these steps of the tap the render ring does the same. */
  ghost predicate Agree(s: Tap, actions: seq<Action>)
    requires Config(s)
    decreases |actions|
  {
    actions == [] ||
    (&& Enabled(s, actions[0]) && RenderStep(s, actions[0]) == Step(s, actions[0])
     && Agree(Step(s, actions[0]), actions[1..]))
  }

  lemma {:induction false} AgreeLeads(s: Tap, actions: seq<Action>, r: Tap)
    requires Config(s) && Agree(s, actions) && Leads(s, actions, r)
    ensures RenderValid(s, actions) && RenderRun(s, actions) == r
    decreases |actions|
  {
    if actions != [] { AgreeLeads(Step(s, actions[0]), actions[1..], r); }
  }

  lemma {:induction false} AgreeJoin(s: Tap, first: seq<Action>, mid: Tap, second: seq<Action>)
    requires Config(s) && Leads(s, first, mid) && Agree(s, first) && Agree(mid, second)
    ensures Agree(s, first + second)
    decreases |first|
  {
    if first == [] {
      assert first + second == second;
    } else {
      AgreeJoin(Step(s, first[0]), first[1..], mid, second);
      assert (first + second)[1..] == first[1..] + second;
    }
  }

  lemma SameFree(s: Tap)
    requires Config(s) && s.mem.read <= s.mem.written <= s.mem.read + s.size.capacity
    ensures Free(s.size, s.mem.written, s.mem.read) == Available(s.size.capacity, s.mem.written, s.mem.read)
  {
    SmallMod(s.mem.written - s.mem.read, s.size.modulus);
    SmallMod(s.size.capacity - (s.mem.written - s.mem.read), s.size.modulus);
  }

  lemma {:induction false} InvAgrees(s: Tap, actions: seq<Action>)
    requires Inv(s) && ValidRun(s, actions) && Run(s, actions).history.claimed < s.size.modulus
    ensures Agree(s, actions)
    decreases |actions|
  {
    if actions != [] {
      if actions[0].LoadRead? { SameFree(s); }
      StepKeepsInv(s, actions[0]);
      InvAgrees(Step(s, actions[0]), actions[1..]);
    }
  }

  lemma {:induction false} NoLoadAgrees(s: Tap, actions: seq<Action>)
    requires Config(s) && ValidRun(s, actions) && forall i :: 0 <= i < |actions| ==> !actions[i].LoadRead?
    ensures Agree(s, actions)
    decreases |actions|
  {
    if actions != [] { NoLoadAgrees(Step(s, actions[0]), actions[1..]); }
  }

  lemma {:induction false} RepeatIs(a: Action, n: nat)
    ensures |Repeat(a, n)| == n && forall i :: 0 <= i < n ==> Repeat(a, n)[i] == a
  {
    if n > 0 { RepeatIs(a, n - 1); }
  }

  lemma {:induction false} LeadsSplit(s: Tap, first: seq<Action>, mid: Tap, second: seq<Action>, r: Tap)
    requires Config(s) && Leads(s, first + second, r) && Leads(s, first, mid)
    ensures Leads(mid, second, r)
    decreases |first|
  {
    if first == [] {
      assert first + second == second;
    } else {
      assert (first + second)[1..] == first[1..] + second;
      LeadsSplit(Step(s, first[0]), first[1..], mid, second, r);
    }
  }

  /** A push that starts with its cursors in order is the tap's `record_callback`. */
  lemma PushAgrees(s: Tap, samples: seq<Sample>)
    requires Config(s) && s.producer.ProducerIdle? && s.mem.read <= s.mem.written <= s.mem.read + s.size.capacity
    ensures Agree(s, RecordActions(s, samples))
  {
    var start := [StartRecord(samples), LoadWritten, LoadRead];
    var rest := Repeat(StoreSample, 2 * AcceptedFrames(s, samples)) + [PublishWritten] + [AddLost];
    RecordIsARun(s, samples);
    RecordStartLeads(s, samples);
    assert RecordActions(s, samples) == start + rest;
    LeadsSplit(s, start, RecordStarted(s, samples), rest, Recorded(s, samples));
    RepeatIs(StoreSample, 2 * AcceptedFrames(s, samples));
    NoLoadAgrees(RecordStarted(s, samples), rest);
    SameFree(s);
    var s1 := Step(s, StartRecord(samples));
    var s2 := Step(s1, LoadWritten);
    assert Agree(Step(s2, LoadRead), []);
    assert [LoadRead][1..] == [] && [LoadWritten, LoadRead][1..] == [LoadRead] && start[1..] == [LoadWritten, LoadRead];
    assert Agree(s2, [LoadRead]);
    assert Agree(s1, [LoadWritten, LoadRead]);
    AgreeJoin(s, start, RecordStarted(s, samples), rest);
  }

  /** An undisturbed push or read, within the word size, is a run of the render ring. */
  lemma CallsAreRuns(s: Tap, samples: seq<Sample>, requested: nat)
    requires Inv(s)
    ensures s.producer.ProducerIdle? ==>
              RenderValid(s, RecordActions(s, samples)) && RenderRun(s, RecordActions(s, samples)) == Recorded(s, samples)
    ensures s.consumer.ConsumerIdle? ==>
              RenderValid(s, DrainActions(s, requested)) && RenderRun(s, DrainActions(s, requested)) == Drained(s, requested)
  {
    if s.producer.ProducerIdle? {
      RecordIsARun(s, samples);
      PushAgrees(s, samples);
      AgreeLeads(s, RecordActions(s, samples), Recorded(s, samples));
    }
    if s.consumer.ConsumerIdle? {
      DrainIsARun(s, requested);
      InvAgrees(s, DrainActions(s, requested));
      AgreeLeads(s, DrainActions(s, requested), Drained(s, requested));
    }
  }

  // ---------------------------------------------------- when the capacity does not divide

  /** Positions of one batch, from a multiple of the capacity to the word size, share a slot. */
  lemma EndsShareSlot(z: Size)
    requires SizeOk(z)
    ensures var over := z.modulus % z.capacity;
            SlotOf(z.modulus - over, 2 * over, z) == SlotOf(z.modulus - over, 0, z) == 0 && SlotOf(z.modulus - over, 2 * over + 1, z) == 1
  {
    var n, c := z.modulus, z.capacity;
    var over := n % c;
    assert (2 * over) / 2 == over && (2 * over + 1) / 2 == over;
    ModSelf(n);
    SmallMod(0, c);
    DivModUnique(n - over, c, n / c, 0);
    if over > 0 { SmallMod(n - over, n); }
  }

  lemma LastStores(m: Memory, samples: seq<Sample>, base: nat, k: nat, z: Size)
    requires MemoryOk(m, z) && k + 2 <= |samples|
    ensures SlotOf(base, k, z) == 0 && SlotOf(base, k + 1, z) == 1 ==>
              StoredPrefix(m, samples, base, k + 2, z).slots[0] == samples[k]
  {
    var one := StoredPrefix(m, samples, base, k + 1, z);
    assert SlotOf(base, k, z) == 0 ==> one.slots[0] == samples[k];
    assert StoredPrefix(m, samples, base, k + 2, z) == Stored(one, base, k + 1, samples[k + 1], z);
  }

  /** The batch that runs over the word size, its first frame overwritten by its last. */
  lemma BatchOverEdge(s: Tap, samples: seq<Sample>)
    requires SizeOk(s.size) && s.size.modulus % s.size.capacity > 0
    requires var over := s.size.modulus % s.size.capacity;
             Quiescent(s, s.size.modulus - over) && |samples| == 2 * over + 2 && samples[0] != samples[2 * over]
    ensures var r := Recorded(s, samples);
            r.history.claimed == s.size.modulus + 1 && r.lost == s.lost && !Exact(r)
  {
    var z := s.size;
    var over, r := z.modulus % z.capacity, Recorded(s, samples);
    assert AcceptedFrames(s, samples) == over + 1;
    EndsShareSlot(z);
    LastStores(s.mem, samples, z.modulus - over, 2 * over, z);
    QuiescentIsEmpty(s, z.modulus - over);
    assert samples[..2 * (over + 1)] == samples;
    assert r.history.accepted[|r.history.drained|] == samples[0];
    if Exact(r) { ExactAt(r, 0); }
  }

  /** If the capacity does not divide the word size, some run of one frame more than the word
      size loses a queued frame although the free space it computed was right. */
  lemma UnevenRingOverwrites(z: Size) returns (actions: seq<Action>)
    requires SizeOk(z) && z.modulus % z.capacity != 0
    ensures RenderValid(New(z), actions)
    ensures var r := RenderRun(New(z), actions); r.history.claimed == z.modulus + 1 && r.lost == 0 && !Exact(r)
  {
    var over := z.modulus % z.capacity;
    var before, s := CountersReach(z, z.modulus - over);
    var samples := seq(2 * over, _ => 1) + [2, 2];
    QuiescentIsEmpty(s, z.modulus - over);
    BatchOverEdge(s, samples);
    NewInv(z);
    InvAgrees(New(z), before);
    PushAgrees(s, samples);
    AgreeJoin(New(z), before, s, RecordActions(s, samples));
    RecordIsARun(s, samples);
    LeadsJoin(New(z), before, s, RecordActions(s, samples), Recorded(s, samples));
    actions := before + RecordActions(s, samples);
    AgreeLeads(New(z), actions, Recorded(s, samples));
  }

  ghost predicate RenderExactUpTo(z: Size, n: nat)
    requires SizeOk(z)
  {
    forall actions ::
      RenderValid(New(z), actions) && RenderRun(New(z), actions).history.claimed <= n ==> Exact(RenderRun(New(z), actions))
  }

  /** The exact condition: the ring conserves its frames in all runs of at most `n` claimed
      frames if and only if `n` is within the word size or the capacity divides it. */
  lemma RenderExactIff(z: Size, n: nat)
    requires SizeOk(z)
    ensures RenderExactUpTo(z, n) <==> n <= z.modulus || z.modulus % z.capacity == 0
  {
    if n <= z.modulus || z.modulus % z.capacity == 0 {
      forall actions | RenderValid(New(z), actions) && RenderRun(New(z), actions).history.claimed <= n
        ensures Exact(RenderRun(New(z), actions))
      {
        RenderIsExact(z, actions);
      }
    } else {
      var actions := UnevenRingOverwrites(z);
      assert !Exact(RenderRun(New(z), actions));
    }
  }
}
