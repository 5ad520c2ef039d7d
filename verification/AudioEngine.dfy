/**
 The real-time engine registry, the render rings behind it, the capture taps attached
 to it and the output handles that feed it.

 A handle is named by the token it received when it opened. The consumer half of a ring
 lives in the registry entry and the producer half in the handle, so both are the same
 ring value here. `Step` is one call; every call but the real-time read holds the
 registry lock, and a read that finds the lock taken is a contended `Read`.
 */
module AudioEngine {
  import opened CoreNotifications
  import CaptureRing
  import CaptureTap

  const MIN_RING_CAPACITY_FRAMES: nat := 4_800
  const MAX_RING_CAPACITY_FRAMES: nat := 480_000
  const RENDER_CHANNELS: nat := 2

  /** The bit pattern of an `f32`; zero is silence. */
  type Sample = CaptureRing.Sample

  datatype Frame = Frame(left: Sample, right: Sample)

  const SILENCE := Frame(0, 0)

  /** Not all exponent bits are set. */
  predicate IsFinite(bits: Sample) { bits / 0x80_0000 % 0x100 != 0xFF }

  /** A bounded FIFO of frames. */
  datatype Ring = Ring(capacity: nat, queue: seq<Frame>)

  /** The tap as seen between calls; `lost` counts frames that did not fit. */
  datatype Tap = Tap(capacity: nat, buffered: seq<Frame>, captured: nat, lost: nat)

  /** `entries` maps a live token to the tap attached to it, `open` holds the tokens
      whose handle still owns its producer half. */
  datatype World = World(
    nextToken: u64,
    entries: map<nat, Option<nat>>,
    open: set<nat>,
    rings: map<nat, Ring>,
    taps: map<nat, Tap>)

  datatype Op =
    | Open(capacity: nat, target: nat)
    | ReleaseHandle(token: u64)
    | Release(token: u64)
    | Attach(token: u64, tap: nat)
    | Detach(token: u64)
    | Read(token: u64, frames: nat, channels: nat, contended: bool)
    | Push(token: u64, samples: seq<Sample>)
    | Drain(tap: nat, maxFrames: nat)

  datatype Status = Ok | Partial | Stopping | InvalidArgument | InvalidState

  datatype AbiError = Config | TokenSpaceExhausted | UnknownToken | AlreadyReleased

  datatype Result =
    | Opened(token: u64)
    | Done
    | Failed(error: AbiError)
    | Pcm(status: Status, supplied: nat, output: seq<Frame>)
    | Pushed(frames: nat)
    | PushRejected
    | Closed
    | Captured(drained: seq<Frame>)

  datatype Outcome = Outcome(world: World, result: Result)

  function Initial(taps: map<nat, Tap>): World {
    World(1, map[], {}, map[], taps)
  }

  // --------------------------------------------------------------------- small pieces

  function Min(a: nat, b: nat): nat { if a < b then a else b }

  function Silence(n: nat): (r: seq<Frame>)
    ensures |r| == n && forall i :: 0 <= i < n ==> r[i] == SILENCE
  {
    seq(n, _ => SILENCE)
  }

  function ToFrames(samples: seq<Sample>): seq<Frame> {
    seq(|samples| / 2, i requires 0 <= i < |samples| / 2 => Frame(samples[2 * i], samples[2 * i + 1]))
  }

  predicate WellFormedPcm(samples: seq<Sample>) {
    |samples| % 2 == 0 && forall i :: 0 <= i < |samples| ==> IsFinite(samples[i])
  }

  function PushCount(r: Ring, frames: seq<Frame>): nat {
    if |r.queue| <= r.capacity then Min(|frames|, r.capacity - |r.queue|) else 0
  }

  function RingPush(r: Ring, frames: seq<Frame>): Ring {
    r.(queue := r.queue + frames[..PushCount(r, frames)])
  }

  /** Oldest frames first, silence for what is missing. */
  function RingOutput(r: Ring, n: nat): seq<Frame> {
    var k := Min(n, |r.queue|);
    r.queue[..k] + Silence(n - k)
  }

  function RingRead(r: Ring, n: nat): Ring {
    r.(queue := r.queue[Min(n, |r.queue|)..])
  }

  function TapCount(t: Tap, frames: seq<Frame>): nat {
    if |t.buffered| <= t.capacity then Min(|frames|, t.capacity - |t.buffered|) else 0
  }

  function TapRecord(t: Tap, frames: seq<Frame>): Tap {
    var n := TapCount(t, frames);
    t.(buffered := t.buffered + frames[..n], captured := t.captured + n, lost := t.lost + (|frames| - n))
  }

  predicate WasIssued(nextToken: u64, token: u64) {
    token != 0 && (nextToken == 0 || token < nextToken)
  }

  predicate ValidConfig(capacity: nat, target: nat) {
    MIN_RING_CAPACITY_FRAMES <= capacity <= MAX_RING_CAPACITY_FRAMES && 0 < target <= capacity
  }

  // ---------------------------------------------------------------------------- calls

  function StepOpen(w: World, capacity: nat, target: nat): Outcome {
    if !ValidConfig(capacity, target) then Outcome(w, Failed(Config))
    else if w.nextToken == 0 then Outcome(w, Failed(TokenSpaceExhausted))
    else
      var t := w.nextToken;
      Outcome(World(if t == U64_MAX then 0 else t + 1, w.entries[t := None], w.open + {t},
                    w.rings[t := Ring(capacity, [])], w.taps),
              Opened(t))
  }

  function StepRelease(w: World, token: u64): Outcome {
    if token in w.entries then Outcome(w.(entries := w.entries - {token}), Done)
    else Outcome(w, Failed(if WasIssued(w.nextToken, token) then AlreadyReleased else UnknownToken))
  }

  function StepAttach(w: World, token: u64, tap: nat): Outcome {
    if token !in w.entries then Outcome(w, Failed(UnknownToken))
    else if w.entries[token].Some? then Outcome(w, Failed(AlreadyReleased))
    else Outcome(w.(entries := w.entries[token := Some(tap)]), Done)
  }

  function StepRead(w: World, token: u64, frames: nat, channels: nat, contended: bool): Outcome {
    if frames == 0 || channels != RENDER_CHANNELS then Outcome(w, Pcm(InvalidArgument, 0, []))
    else if contended then Outcome(w, Pcm(Stopping, 0, Silence(frames)))
    else if token in w.entries && token in w.rings then
      var ring := w.rings[token];
      var output := RingOutput(ring, frames);
      var supplied := Min(frames, |ring.queue|);
      var tap := w.entries[token];
      Outcome(w.(rings := w.rings[token := RingRead(ring, frames)],
                 taps := if tap.Some? && tap.value in w.taps
                         then w.taps[tap.value := TapRecord(w.taps[tap.value], output)] else w.taps),
              Pcm(if supplied < frames then Partial else Ok, supplied, output))
    else
      Outcome(w, Pcm(if WasIssued(w.nextToken, token) then Stopping else InvalidState, 0, Silence(frames)))
  }

  function StepPush(w: World, token: u64, samples: seq<Sample>): Outcome {
    if token !in w.open || token !in w.rings then Outcome(w, Closed)
    else if !WellFormedPcm(samples) then Outcome(w, PushRejected)
    else
      var frames := ToFrames(samples);
      Outcome(w.(rings := w.rings[token := RingPush(w.rings[token], frames)]),
              Pushed(PushCount(w.rings[token], frames)))
  }

  function StepDrain(w: World, tap: nat, maxFrames: nat): Outcome {
    if tap !in w.taps then Outcome(w, Captured([]))
    else
      var t := w.taps[tap];
      var n := Min(|t.buffered|, maxFrames);
      Outcome(w.(taps := w.taps[tap := t.(buffered := t.buffered[n..])]), Captured(t.buffered[..n]))
  }

  function Step(w: World, op: Op): Outcome {
    match op
    case Open(capacity, target) => StepOpen(w, capacity, target)
    case ReleaseHandle(token) =>
      if token !in w.open then Outcome(w, Done)
      else Outcome(StepRelease(w.(open := w.open - {token}), token).world, Done)
    case Release(token) => StepRelease(w, token)
    case Attach(token, tap) => StepAttach(w, token, tap)
    case Detach(token) =>
      Outcome(if token in w.entries then w.(entries := w.entries[token := None]) else w, Done)
    case Read(token, frames, channels, contended) => StepRead(w, token, frames, channels, contended)
    case Push(token, samples) => StepPush(w, token, samples)
    case Drain(tap, maxFrames) => StepDrain(w, tap, maxFrames)
  }

  function Run(w: World, ops: seq<Op>): World
    decreases |ops|
  {
    if ops == [] then w else Run(Step(w, ops[0]).world, ops[1..])
  }

  // --------------------------------------------- refinement of the full token history

  /** The history an unbounded registry would keep: tokens 1 to `issued` exist, those in
      `active` are live, the rest of them are released. */
  datatype Ledger = Ledger(issued: u64, active: set<nat>)

  datatype TokenState = Unissued | Active | Retired

  function StateOf(l: Ledger, token: u64): TokenState {
    if token in l.active then Active else if 1 <= token <= l.issued then Retired else Unissued
  }

  /** What the ledger does on the same call. */
  function LedgerStep(l: Ledger, op: Op): Ledger {
    match op
    case Open(capacity, target) =>
      if ValidConfig(capacity, target) && l.issued < U64_MAX
      then Ledger(l.issued + 1, l.active + {l.issued + 1}) else l
    case Release(token) => l.(active := l.active - {token})
    case ReleaseHandle(token) => l.(active := l.active - {token})
    case _ => l
  }

  /** What the full history says a call must answer. */
  predicate Answers(l: Ledger, op: Op, r: Result) {
    match op
    case Open(capacity, target) =>
      if !ValidConfig(capacity, target) then r == Failed(Config)
      else if l.issued == U64_MAX then r == Failed(TokenSpaceExhausted)
      else r == Opened(l.issued + 1)
    case Release(token) =>
      (match StateOf(l, token)
       case Active => r == Done
       case Retired => r == Failed(AlreadyReleased)
       case Unissued => r == Failed(UnknownToken))
    case Attach(token, _) => StateOf(l, token) != Active ==> r == Failed(UnknownToken)
    case Read(token, frames, channels, contended) =>
      r.Pcm? && (if frames == 0 || channels != RENDER_CHANNELS then r.status == InvalidArgument else
        && (r.status == Stopping <==> contended || StateOf(l, token) == Retired)
        && (r.status == InvalidState <==> !contended && StateOf(l, token) == Unissued)
        && (r.status == Ok || r.status == Partial <==> !contended && StateOf(l, token) == Active)
        && |r.output| == frames && r.supplied <= frames
        && (r.status == Ok ==> r.supplied == frames) && (r.status == Partial ==> r.supplied < frames)
        && (r.status == Stopping || r.status == InvalidState ==> r.supplied == 0)
        && forall i :: r.supplied <= i < frames ==> r.output[i] == SILENCE)
    case _ => true
  }

  /** The registry's one counter and live map stand for the ledger. A handle that is
      open with its token no longer live had it released behind its back. */
  ghost predicate Represents(w: World, l: Ledger) {
    && l.issued <= U64_MAX
    && w.nextToken == (if l.issued == U64_MAX then 0 else l.issued + 1)
    && w.entries.Keys == l.active
    && l.active <= w.open <= w.rings.Keys
    && (forall t :: t in w.rings ==> 1 <= t <= l.issued)
  }

  lemma InitialRepresents(taps: map<nat, Tap>)
    ensures Represents(Initial(taps), Ledger(0, {}))
  {}

  lemma IssuedAgrees(w: World, l: Ledger, token: u64)
    requires Represents(w, l)
    ensures token in w.entries <==> StateOf(l, token) == Active
    ensures token !in w.entries ==> (WasIssued(w.nextToken, token) <==> StateOf(l, token) == Retired)
    ensures token in l.active ==> 1 <= token <= l.issued
  {}

  lemma OpenSimulates(w: World, l: Ledger, capacity: nat, target: nat)
    requires Represents(w, l)
    ensures var o := StepOpen(w, capacity, target); var op := Open(capacity, target);
            Answers(l, op, o.result) && Represents(o.world, LedgerStep(l, op))
  {
    if ValidConfig(capacity, target) && w.nextToken != 0 {
      var r := StepOpen(w, capacity, target).world;
      assert r.entries.Keys == w.entries.Keys + {w.nextToken};
      assert r.rings.Keys == w.rings.Keys + {w.nextToken};
    }
  }

  lemma StepSimulates(w: World, l: Ledger, op: Op)
    requires Represents(w, l)
    ensures Answers(l, op, Step(w, op).result) && Represents(Step(w, op).world, LedgerStep(l, op))
  {
    if op.Open? {
      OpenSimulates(w, l, op.capacity, op.target);
    } else if !op.Drain? {
      IssuedAgrees(w, l, op.token);
      var r := Step(w, op).world;
      if op.Release? || op.ReleaseHandle? {
        assert r.entries.Keys == w.entries.Keys - {op.token};
      } else {
        assert r.entries.Keys == w.entries.Keys && r.rings.Keys == w.rings.Keys;
      }
    }
  }

  function LedgerRun(l: Ledger, ops: seq<Op>): Ledger
    decreases |ops|
  {
    if ops == [] then l else LedgerRun(LedgerStep(l, ops[0]), ops[1..])
  }

  /** A read that finds the lock taken consumes and records nothing. */
  predicate ContendedIsInert(w: World, op: Op) { op.Read? && op.contended ==> Step(w, op).world == w }

  predicate AllAnswer(w: World, l: Ledger, ops: seq<Op>)
    decreases |ops|
  {
    ops == [] ||
    (Answers(l, ops[0], Step(w, ops[0]).result) && ContendedIsInert(w, ops[0]) && AllAnswer(Step(w, ops[0]).world, LedgerStep(l, ops[0]), ops[1..]))
  }

  lemma {:induction false} RunSimulates(w: World, l: Ledger, ops: seq<Op>)
    requires Represents(w, l)
    ensures AllAnswer(w, l, ops) && Represents(Run(w, ops), LedgerRun(l, ops))
    decreases |ops|
  {
    if ops != [] {
      StepSimulates(w, l, ops[0]);
      RunSimulates(Step(w, ops[0]).world, LedgerStep(l, ops[0]), ops[1..]);
    }
  }

  /** The live map and one counter answer every call of every run exactly as the full
      unissued/active/released history would. */
  lemma RegistryRefinesLedger(taps: map<nat, Tap>, ops: seq<Op>)
    ensures AllAnswer(Initial(taps), Ledger(0, {}), ops)
    ensures Represents(Run(Initial(taps), ops), LedgerRun(Ledger(0, {}), ops))
  {
    InitialRepresents(taps);
    RunSimulates(Initial(taps), Ledger(0, {}), ops);
  }

  // ------------------------------------------------------------------ life of a token

  /** The tokens handed out by a run, in order. */
  function Tokens(w: World, ops: seq<Op>): seq<nat>
    decreases |ops|
  {
    if ops == [] then []
    else
      var o := Step(w, ops[0]);
      (if o.result.Opened? then [o.result.token] else []) + Tokens(o.world, ops[1..])
  }

  /** How often the run released this token successfully. */
  function Releases(w: World, ops: seq<Op>, token: u64): nat
    decreases |ops|
  {
    if ops == [] then 0
    else
      var o := Step(w, ops[0]);
      (if token in w.entries && token !in o.world.entries then 1 else 0) + Releases(o.world, ops[1..], token)
  }

  lemma {:induction false} TokensCount(w: World, l: Ledger, ops: seq<Op>)
    requires Represents(w, l)
    ensures LedgerRun(l, ops).issued == l.issued + |Tokens(w, ops)|
    ensures forall i :: 0 <= i < |Tokens(w, ops)| ==> Tokens(w, ops)[i] == l.issued + 1 + i
    decreases |ops|
  {
    if ops != [] {
      StepSimulates(w, l, ops[0]);
      TokensCount(Step(w, ops[0]).world, LedgerStep(l, ops[0]), ops[1..]);
    }
  }

  /** Tokens are 1, 2, 3, ... without reuse up to and including `u64::MAX`, after which
      every valid open fails, forever. */
  lemma TokensNeverReused(taps: map<nat, Tap>, ops: seq<Op>, capacity: nat, target: nat)
    requires ValidConfig(capacity, target)
    ensures var tokens := Tokens(Initial(taps), ops);
            var r := Step(Run(Initial(taps), ops), Open(capacity, target)).result;
            && (forall i :: 0 <= i < |tokens| ==> tokens[i] == i + 1)
            && |tokens| <= U64_MAX
            && r == (if |tokens| == U64_MAX then Failed(TokenSpaceExhausted) else Opened(|tokens| + 1))
  {
    InitialRepresents(taps);
    TokensCount(Initial(taps), Ledger(0, {}), ops);
    RunSimulates(Initial(taps), Ledger(0, {}), ops);
    StepSimulates(Run(Initial(taps), ops), LedgerRun(Ledger(0, {}), ops), Open(capacity, target));
  }

  lemma {:induction false} ReleasesCount(w: World, l: Ledger, ops: seq<Op>, token: u64)
    requires Represents(w, l)
    ensures Releases(w, ops, token)
         == match StateOf(LedgerRun(l, ops), token)
            case Retired => if StateOf(l, token) == Retired then 0 else 1
            case _ => 0
    ensures StateOf(l, token) == Retired ==> StateOf(LedgerRun(l, ops), token) == Retired
    decreases |ops|
  {
    if ops != [] {
      StepSimulates(w, l, ops[0]);
      IssuedAgrees(w, l, token);
      IssuedAgrees(Step(w, ops[0]).world, LedgerStep(l, ops[0]), token);
      ReleasesCount(Step(w, ops[0]).world, LedgerStep(l, ops[0]), ops[1..], token);
    }
  }

  /** Over a whole run a token is released at most once, and exactly once if and only if
      it ends up retired. */
  lemma ReleasedAtMostOnce(taps: map<nat, Tap>, ops: seq<Op>, token: u64)
    ensures var l := LedgerRun(Ledger(0, {}), ops);
            Releases(Initial(taps), ops, token) == if StateOf(l, token) == Retired then 1 else 0
  {
    InitialRepresents(taps);
    ReleasesCount(Initial(taps), Ledger(0, {}), ops, token);
  }

  /** A retired generation is inert: after any further calls it is still retired, reading
      it returns silence and supplies nothing, and no read, attach, detach or release
      that names it changes anything at all. */
  lemma RetiredIsInert(w: World, l: Ledger, ops: seq<Op>, op: Op)
    requires Represents(w, l) && (op.Read? || op.Attach? || op.Detach? || op.Release?)
    requires StateOf(l, op.token) == Retired
    ensures var later := Run(w, ops);
            && Step(later, op).world == later
            && (op.Read? ==> var r := Step(later, op).result;
                  && r.supplied == 0 && r.status != Ok && r.status != Partial
                  && r.output == if op.frames > 0 && op.channels == RENDER_CHANNELS then Silence(op.frames) else [])
            && (op.Release? ==> Step(later, op).result == Failed(AlreadyReleased))
  {
    RunSimulates(w, l, ops);
    ReleasesCount(w, l, ops, op.token);
    IssuedAgrees(Run(w, ops), LedgerRun(l, ops), op.token);
  }

  // ------------------------------------------------------------- callback accounting

  /** The frames a callback returned while this tap was attached to its token. */
  function HeardBy(w: World, op: Op, tap: nat): seq<Frame> {
    var r := Step(w, op).result;
    if op.Read? && op.token in w.entries && w.entries[op.token] == Some(tap) && (r.status == Ok || r.status == Partial)
    then r.output else []
  }

  function Heard(w: World, ops: seq<Op>, tap: nat): seq<Frame>
    decreases |ops|
  {
    if ops == [] then [] else HeardBy(w, ops[0], tap) + Heard(Step(w, ops[0]).world, ops[1..], tap)
  }

  function DrainedBy(w: World, op: Op, tap: nat): seq<Frame> {
    if op == Drain(tap, if op.Drain? then op.maxFrames else 0) then Step(w, op).result.drained else []
  }

  /** Everything drained from this tap during the run. */
  function DrainedFrom(w: World, ops: seq<Op>, tap: nat): seq<Frame>
    decreases |ops|
  {
    if ops == [] then [] else DrainedBy(w, ops[0], tap) + DrainedFrom(Step(w, ops[0]).world, ops[1..], tap)
  }

  predicate TapOk(t: Tap) { |t.buffered| <= t.capacity }

  /** How a tap may change when it hears `heard` and gives up `drained`. */
  ghost predicate Accounted(before: Tap, after: Tap, heard: seq<Frame>, drained: seq<Frame>) {
    && TapOk(after) && after.capacity == before.capacity
    && before.captured + before.lost + |heard| == after.captured + after.lost
    && before.lost <= after.lost
    && |before.buffered| + after.captured == |drained| + |after.buffered| + before.captured
    && (after.lost == before.lost ==> before.buffered + heard == drained + after.buffered)
  }

  lemma AccountedChain(a: Tap, b: Tap, c: Tap, h1: seq<Frame>, d1: seq<Frame>, h2: seq<Frame>, d2: seq<Frame>)
    requires Accounted(a, b, h1, d1) && Accounted(b, c, h2, d2)
    ensures Accounted(a, c, h1 + h2, d1 + d2)
  {
    if c.lost == a.lost {
      assert a.buffered + (h1 + h2) == (a.buffered + h1) + h2 == d1 + (b.buffered + h2);
      assert d1 + (d2 + c.buffered) == (d1 + d2) + c.buffered;
    }
  }

  lemma RecordAccounted(t: Tap, output: seq<Frame>)
    requires TapOk(t)
    ensures Accounted(t, TapRecord(t, output), output, [])
  {}

  lemma UntouchedAccounted(t: Tap)
    requires TapOk(t)
    ensures Accounted(t, t, [], [])
  {}

  lemma DrainAccounted(t: Tap, n: nat)
    requires TapOk(t) && n <= |t.buffered|
    ensures Accounted(t, t.(buffered := t.buffered[n..]), [], t.buffered[..n])
  {
    assert t.buffered == t.buffered[..n] + t.buffered[n..];
  }

  lemma StepAccounted(w: World, op: Op, tap: nat)
    requires tap in w.taps && TapOk(w.taps[tap])
    requires forall t :: t in w.entries ==> t in w.rings
    ensures tap in Step(w, op).world.taps
    ensures Accounted(w.taps[tap], Step(w, op).world.taps[tap], HeardBy(w, op, tap), DrainedBy(w, op, tap))
  {
    var t := w.taps[tap];
    if op.Drain? && op.tap == tap {
      DrainAccounted(t, Min(|t.buffered|, op.maxFrames));
    } else if HeardBy(w, op, tap) != [] {
      RecordAccounted(t, Step(w, op).result.output);
    } else {
      UntouchedAccounted(t);
    }
  }

  /** In every run, for every tap: the frames captured plus the frames lost grow by
      exactly the frames its callbacks returned, silence included; and as long as nothing
      is lost, what was drained followed by what is buffered is those output buffers, in
      order. */
  lemma {:induction false} TapAccounting(w: World, l: Ledger, ops: seq<Op>, tap: nat)
    requires Represents(w, l) && tap in w.taps && TapOk(w.taps[tap])
    ensures tap in Run(w, ops).taps
    ensures Accounted(w.taps[tap], Run(w, ops).taps[tap], Heard(w, ops, tap), DrainedFrom(w, ops, tap))
    decreases |ops|
  {
    if ops == [] {
      assert w.taps[tap].buffered + [] == [] + w.taps[tap].buffered;
    } else {
      var next := Step(w, ops[0]).world;
      StepSimulates(w, l, ops[0]);
      StepAccounted(w, ops[0], tap);
      TapAccounting(next, LedgerStep(l, ops[0]), ops[1..], tap);
      AccountedChain(w.taps[tap], next.taps[tap], Run(w, ops).taps[tap],
                     HeardBy(w, ops[0], tap), DrainedBy(w, ops[0], tap),
                     Heard(next, ops[1..], tap), DrainedFrom(next, ops[1..], tap));
    }
  }

  // -------------------------------------------------------- pushed, supplied and queued

  /** The frames a push reports as written: as many, from the front, as it returns. */
  function AcceptedBy(w: World, op: Op, token: u64): seq<Frame> {
    var r := Step(w, op).result;
    if op.Push? && op.token == token && r.Pushed? && r.frames <= |ToFrames(op.samples)|
    then ToFrames(op.samples)[..r.frames] else []
  }

  /** Frames that pushes on this token reported as written during the run. */
  function AcceptedOn(w: World, ops: seq<Op>, token: u64): seq<Frame>
    decreases |ops|
  {
    if ops == [] then [] else AcceptedBy(w, ops[0], token) + AcceptedOn(Step(w, ops[0]).world, ops[1..], token)
  }

  function SuppliedBy(w: World, op: Op, token: u64): seq<Frame> {
    var r := Step(w, op).result;
    if op.Read? && op.token == token && r.supplied <= |r.output| then r.output[..r.supplied] else []
  }

  /** Frames callbacks took from the ring of this token, without the silence. */
  function SuppliedOn(w: World, ops: seq<Op>, token: u64): seq<Frame>
    decreases |ops|
  {
    if ops == [] then [] else SuppliedBy(w, ops[0], token) + SuppliedOn(Step(w, ops[0]).world, ops[1..], token)
  }

  lemma StepConserves(w: World, l: Ledger, op: Op, token: u64)
    requires Represents(w, l) && token in w.rings
    ensures token in Step(w, op).world.rings
    ensures w.rings[token].queue + AcceptedBy(w, op, token)
         == SuppliedBy(w, op, token) + Step(w, op).world.rings[token].queue
  {
    if op.Read? && op.token == token {
      var q := w.rings[token].queue;
      var k := Min(op.frames, |q|);
      assert q == q[..k] + q[k..];
      assert (q[..k] + Silence(op.frames - k))[..k] == q[..k];
    }
  }

  lemma FlowChain(q0: seq<Frame>, a0: seq<Frame>, s0: seq<Frame>, q1: seq<Frame>,
                  a1: seq<Frame>, s1: seq<Frame>, q2: seq<Frame>)
    requires q0 + a0 == s0 + q1 && q1 + a1 == s1 + q2
    ensures q0 + (a0 + a1) == (s0 + s1) + q2
  {
    assert q0 + (a0 + a1) == (q0 + a0) + a1 == s0 + (q1 + a1) == (s0 + s1) + q2;
  }

  /** For every ring and every run: what was queued plus what pushes added is what
      callbacks were supplied plus what is still queued, in order. */
  lemma {:induction false} RingConserves(w: World, l: Ledger, ops: seq<Op>, token: u64)
    requires Represents(w, l) && token in w.rings
    ensures token in Run(w, ops).rings
    ensures w.rings[token].queue + AcceptedOn(w, ops, token)
         == SuppliedOn(w, ops, token) + Run(w, ops).rings[token].queue
    decreases |ops|
  {
    if ops != [] {
      var next := Step(w, ops[0]).world;
      StepSimulates(w, l, ops[0]);
      StepConserves(w, l, ops[0], token);
      RingConserves(next, LedgerStep(l, ops[0]), ops[1..], token);
      var a0, a1 := AcceptedBy(w, ops[0], token), AcceptedOn(next, ops[1..], token);
      var s0, s1 := SuppliedBy(w, ops[0], token), SuppliedOn(next, ops[1..], token);
      FlowChain(w.rings[token].queue, a0, s0, next.rings[token].queue, a1, s1, Run(w, ops).rings[token].queue);
    }
  }

  /** The producer offers, at each push, some front part of what is left of the source,
      and afterwards drops only what the push reported as written. */
  predicate RetriesSuffix(w: World, ops: seq<Op>, token: u64, source: seq<Frame>)
    decreases |ops|
  {
    ops == [] ||
    (var op := ops[0];
     var taken := AcceptedBy(w, op, token);
     && (op.Push? && op.token == token && WellFormedPcm(op.samples) ==> ToFrames(op.samples) <= source)
     && taken <= source
     && RetriesSuffix(Step(w, op).world, ops[1..], token, source[|taken|..]))
  }

  lemma {:induction false} RetryAcceptsPrefix(w: World, ops: seq<Op>, token: u64, source: seq<Frame>)
    requires RetriesSuffix(w, ops, token, source)
    ensures AcceptedOn(w, ops, token) <= source
    decreases |ops|
  {
    if ops != [] {
      var taken := AcceptedBy(w, ops[0], token);
      RetryAcceptsPrefix(Step(w, ops[0]).world, ops[1..], token, source[|taken|..]);
      assert source == taken + source[|taken|..];
    }
  }

  /** Retrying only the unwritten suffix, with callbacks of any size in between and any
      other calls on any other token: what the callbacks play is a prefix of the source. */
  lemma RetryPlaysPrefix(w: World, l: Ledger, ops: seq<Op>, token: u64, source: seq<Frame>)
    requires Represents(w, l) && token in w.rings && w.rings[token].queue == []
    requires RetriesSuffix(w, ops, token, source)
    ensures SuppliedOn(w, ops, token) <= source && token in Run(w, ops).rings
    ensures SuppliedOn(w, ops, token) + Run(w, ops).rings[token].queue <= source
  {
    RingConserves(w, l, ops, token);
    RetryAcceptsPrefix(w, ops, token, source);
    assert [] + AcceptedOn(w, ops, token) == AcceptedOn(w, ops, token);
  }

  // ----------------------------------------------------------- what the calls report

  ghost predicate WithinCapacity(w: World) {
    forall t :: t in w.rings ==> |w.rings[t].queue| <= w.rings[t].capacity
  }

  lemma {:induction false} RunKeepsCapacity(w: World, ops: seq<Op>)
    requires WithinCapacity(w)
    ensures WithinCapacity(Run(w, ops))
    decreases |ops|
  {
    if ops != [] { RunKeepsCapacity(Step(w, ops[0]).world, ops[1..]); }
  }

  /** A ring keeps its token and its capacity for good. */
  lemma {:induction false} CapacityIsFixed(w: World, l: Ledger, ops: seq<Op>, token: u64)
    requires Represents(w, l) && token in w.rings
    ensures token in Run(w, ops).rings && Run(w, ops).rings[token].capacity == w.rings[token].capacity
    decreases |ops|
  {
    if ops != [] {
      StepSimulates(w, l, ops[0]);
      CapacityIsFixed(Step(w, ops[0]).world, LedgerStep(l, ops[0]), ops[1..], token);
    }
  }

  /** A push on an open handle is refused whole, with nothing changed, exactly when its PCM is
      malformed; otherwise it returns how many frames it queued, and that is all of them or as
      many as filled the ring. */
  lemma PushReports(w: World, l: Ledger, token: u64, samples: seq<Sample>)
    requires Represents(w, l) && WithinCapacity(w) && token in w.open
    ensures var o := Step(w, Push(token, samples));
            if !WellFormedPcm(samples) then o == Outcome(w, PushRejected)
            else
              && o.result.Pushed? && o.result.frames <= |samples| / 2
              && o.world == w.(rings := w.rings[token := o.world.rings[token]])
              && o.world.rings[token].queue == w.rings[token].queue + ToFrames(samples)[..o.result.frames]
              && o.world.rings[token].capacity == w.rings[token].capacity
              && (o.result.frames == |samples| / 2 || |o.world.rings[token].queue| == w.rings[token].capacity)
  {}

  /** A read that finds the engine live takes frames from the front of the queue, returns them
      followed by silence, and leaves frames queued only if it was fully supplied. */
  lemma ReadSupplies(w: World, token: u64, frames: nat)
    requires token in w.entries && token in w.rings && frames > 0
    ensures var o := Step(w, Read(token, frames, RENDER_CHANNELS, false));
            && o.result.supplied <= |o.result.output| && token in o.world.rings
            && w.rings[token].queue == o.result.output[..o.result.supplied] + o.world.rings[token].queue
            && (o.result.supplied == frames || o.world.rings[token].queue == [])
            && o.world == w.(rings := w.rings[token := w.rings[token].(queue := o.world.rings[token].queue)], taps := o.world.taps)
  {
    var q := w.rings[token].queue;
    var k := Min(frames, |q|);
    assert (q[..k] + Silence(frames - k))[..k] == q[..k];
  }

  /** A fresh handle has an empty ring of the capacity asked for, and is open. */
  lemma OpenGivesRing(w: World, capacity: nat, target: nat)
    ensures var o := Step(w, Open(capacity, target));
            if o.result.Opened? then
              && o.world.rings == w.rings[o.result.token := Ring(capacity, [])] && o.result.token in o.world.open
              && o.world.entries == w.entries[o.result.token := None] && o.world.taps == w.taps
            else o.world == w
  {}

  /** Attaching takes effect exactly on a live token without a tap, detaching on a live token;
      neither touches any other entry. */
  lemma AttachLaw(w: World, token: u64, tap: nat)
    ensures var o := Step(w, Attach(token, tap));
            && (o.result == Done <==> token in w.entries && w.entries[token].None?)
            && (o.result == Failed(AlreadyReleased) <==> token in w.entries && w.entries[token].Some?)
            && (o.result == Failed(UnknownToken) <==> token !in w.entries)
            && o.world == if o.result == Done then w.(entries := w.entries[token := Some(tap)]) else w
    ensures var d := Step(w, Detach(token)).world;
            token in w.entries ==>
              && d == w.(entries := d.entries) && d.entries.Keys == w.entries.Keys && d.entries[token].None?
              && forall t :: t in w.entries && t != token ==> d.entries[t] == w.entries[t]
  {}

  predicate Ends(op: Op, token: u64) {
    op == Detach(token) || op == Release(token) || op == ReleaseHandle(token)
  }

  /** An attached tap stays attached until its token is detached or released. */
  lemma {:induction false} AttachedUntilEnded(w: World, l: Ledger, ops: seq<Op>, token: u64, tap: nat)
    requires Represents(w, l) && token in w.entries && w.entries[token] == Some(tap)
    requires forall i :: 0 <= i < |ops| ==> !Ends(ops[i], token)
    ensures token in Run(w, ops).entries && Run(w, ops).entries[token] == Some(tap)
    decreases |ops|
  {
    if ops != [] {
      assert !Ends(ops[0], token);
      StepSimulates(w, l, ops[0]);
      IssuedAgrees(w, l, token);
      forall i | 0 <= i < |ops[1..]| ensures !Ends(ops[1..][i], token) { assert !Ends(ops[i + 1], token); }
      AttachedUntilEnded(Step(w, ops[0]).world, LedgerStep(l, ops[0]), ops[1..], token, tap);
    }
  }

  ghost predicate HandleClosed(w: World, l: Ledger, token: u64) { 1 <= token <= l.issued && token !in w.open }

  /** A released handle is closed for good: every later push through it says so and changes
      nothing. */
  lemma {:induction false} ClosedForGood(w: World, l: Ledger, ops: seq<Op>, token: u64, samples: seq<Sample>)
    requires Represents(w, l) && HandleClosed(w, l, token)
    ensures Step(Run(w, ops), Push(token, samples)) == Outcome(Run(w, ops), Closed)
    decreases |ops|
  {
    if ops != [] {
      StepSimulates(w, l, ops[0]);
      ClosedForGood(Step(w, ops[0]).world, LedgerStep(l, ops[0]), ops[1..], token, samples);
    }
  }

  lemma ReleaseCloses(w: World, l: Ledger, token: u64)
    requires Represents(w, l) && token in w.rings
    ensures var r := Step(w, ReleaseHandle(token)).world;
            HandleClosed(r, LedgerStep(l, ReleaseHandle(token)), token) && token !in r.entries
  {}

  // -------------------------------------------------------------- samples and frames

  /** Frames as the interleaved samples they came from. */
  function Interleaved(frames: seq<Frame>): seq<Sample> {
    if frames == [] then [] else [frames[0].left, frames[0].right] + Interleaved(frames[1..])
  }

  lemma {:induction false} FramesInvertInterleave(samples: seq<Sample>)
    requires |samples| % 2 == 0
    ensures Interleaved(ToFrames(samples)) == samples
    decreases |samples|
  {
    if samples != [] {
      var rest := samples[2..];
      FramesInvertInterleave(rest);
      assert ToFrames(samples)[1..] == ToFrames(rest);
      assert samples == [samples[0], samples[1]] + rest;
    }
  }

  /** A sample is finite exactly when its exponent field is not all ones. */
  lemma FiniteIff(sign: nat, exponent: nat, fraction: nat)
    requires sign < 2 && exponent < 0x100 && fraction < 0x80_0000
    ensures IsFinite(sign * 0x8000_0000 + exponent * 0x80_0000 + fraction) <==> exponent < 0xFF
  {
    var bits := sign * 0x8000_0000 + exponent * 0x80_0000 + fraction;
    assert bits == (sign * 0x100 + exponent) * 0x80_0000 + fraction;
    assert bits / 0x80_0000 == sign * 0x100 + exponent;
  }

  // ----------------------------------------------------- the tap value is the ring's

  /** The tap of this model that a quiet capture ring stands for. */
  ghost function Abstract(s: CaptureRing.Tap): Tap
    requires CaptureRing.Inv(s)
  {
    Tap(s.size.capacity, ToFrames(CaptureTap.UnreadOf(s)), s.mem.written, s.history.totalLost)
  }

  lemma FramesAppend(a: seq<Sample>, b: seq<Sample>)
    requires |a| % 2 == 0
    ensures ToFrames(a + b) == ToFrames(a) + ToFrames(b)
  {}

  lemma FramesPrefix(a: seq<Sample>, n: nat)
    requires 2 * n <= |a|
    ensures ToFrames(a[..2 * n]) == ToFrames(a)[..n] && ToFrames(a[2 * n..]) == ToFrames(a)[n..]
  {}

  lemma RecordShape(t: Tap, unread: seq<Sample>, samples: seq<Sample>, n: nat)
    requires t.buffered == ToFrames(unread) && |unread| % 2 == 0 && |unread| / 2 <= t.capacity
    requires n == Min(|samples| / 2, t.capacity - |unread| / 2)
    ensures TapRecord(t, ToFrames(samples))
         == Tap(t.capacity, ToFrames(unread + samples[..2 * n]), t.captured + n, t.lost + (|samples| / 2 - n))
  {
    FramesAppend(unread, samples[..2 * n]);
    FramesPrefix(samples, n);
  }

  lemma UnreadWithinCapacity(s: CaptureRing.Tap)
    requires CaptureRing.Inv(s)
    ensures |CaptureTap.UnreadOf(s)| % 2 == 0 && |CaptureTap.UnreadOf(s)| / 2 <= s.size.capacity
  {}

  /** What the lock-free ring does on a callback is what `TapRecord` says. */
  lemma CaptureRingIsTap(s: CaptureRing.Tap, samples: seq<Sample>)
    requires CaptureRing.Inv(s) && s.producer.ProducerIdle?
    requires s.history.claimed + CaptureTap.AcceptedFrames(s, samples) < s.size.modulus
    ensures CaptureRing.Inv(CaptureTap.Recorded(s, samples))
    ensures Abstract(CaptureTap.Recorded(s, samples)) == TapRecord(Abstract(s), ToFrames(samples))
  {
    var unread := CaptureTap.UnreadOf(s);
    var n := Min(|samples| / 2, s.size.capacity - |unread| / 2);
    UnreadWithinCapacity(s);
    CaptureTap.RecordAppends(s, samples);
    RecordShape(Abstract(s), unread, samples, n);
  }

  lemma DrainedWhole(s: CaptureRing.Tap)
    requires CaptureRing.Inv(s)
    ensures |s.history.drained| % 2 == 0
  {
    assert |s.history.drained| == 2 * s.mem.read;
  }

  lemma DrainedParts(s: CaptureRing.Tap, r: CaptureRing.Tap)
    requires CaptureRing.Inv(s) && CaptureRing.Inv(r)
    requires r.size == s.size && r.mem.written == s.mem.written && r.history.totalLost == s.history.totalLost
    ensures Abstract(r) == Abstract(s).(buffered := ToFrames(CaptureTap.UnreadOf(r)))
  {}

  /** And what it does on a drain is what `StepDrain` says, frame for frame. */
  lemma CaptureRingDrains(s: CaptureRing.Tap, maxFrames: nat, w: World, tap: nat)
    requires CaptureRing.Inv(s) && s.consumer.ConsumerIdle? && tap in w.taps && w.taps[tap] == Abstract(s)
    ensures CaptureRing.Inv(CaptureTap.Drained(s, maxFrames))
    ensures var o := StepDrain(w, tap, maxFrames);
            && o.world.taps[tap] == Abstract(CaptureTap.Drained(s, maxFrames))
            && ToFrames(CaptureTap.Drained(s, maxFrames).history.drained)
               == ToFrames(s.history.drained) + o.result.drained
  {
    var unread := CaptureTap.UnreadOf(s);
    var n := Min(|unread| / 2, maxFrames);
    CaptureTap.DrainKeepsInv(s, maxFrames);
    DrainedParts(s, CaptureTap.Drained(s, maxFrames));
    DrainedWhole(s);
    CaptureTap.DrainRemovesFront(s, maxFrames);
    FramesPrefix(unread, n);
    FramesAppend(s.history.drained, unread[..2 * n]);
  }

  /** The queue of this model that a quiet lock-free render ring stands for. */
  ghost function AbstractRing(s: CaptureRing.Tap): Ring
    requires CaptureRing.Inv(s)
  {
    Ring(s.size.capacity, ToFrames(CaptureTap.UnreadOf(s)))
  }

  lemma PushShape(capacity: nat, unread: seq<Sample>, samples: seq<Sample>, n: nat)
    requires |unread| % 2 == 0 && |unread| / 2 <= capacity && n == Min(|samples| / 2, capacity - |unread| / 2)
    ensures PushCount(Ring(capacity, ToFrames(unread)), ToFrames(samples)) == n
    ensures RingPush(Ring(capacity, ToFrames(unread)), ToFrames(samples)) == Ring(capacity, ToFrames(unread + samples[..2 * n]))
  {
    FramesAppend(unread, samples[..2 * n]);
    FramesPrefix(samples, n);
  }

  /** A push on the lock-free ring is `RingPush`, and it takes as many frames. */
  lemma RenderPushIsRingPush(s: CaptureRing.Tap, samples: seq<Sample>)
    requires CaptureRing.Inv(s) && s.producer.ProducerIdle?
    requires s.history.claimed + CaptureTap.AcceptedFrames(s, samples) < s.size.modulus
    ensures CaptureRing.Inv(CaptureTap.Recorded(s, samples))
    ensures AbstractRing(CaptureTap.Recorded(s, samples)) == RingPush(AbstractRing(s), ToFrames(samples))
    ensures CaptureTap.AcceptedFrames(s, samples) == PushCount(AbstractRing(s), ToFrames(samples))
  {
    UnreadWithinCapacity(s);
    CaptureTap.RecordAppends(s, samples);
    CaptureTap.AcceptedIsFree(s, samples);
    PushShape(s.size.capacity, CaptureTap.UnreadOf(s), samples, CaptureTap.AcceptedFrames(s, samples));
  }

  lemma ReadShape(ring: Ring, requested: nat)
    ensures var n := Min(|ring.queue|, requested);
            RingRead(ring, requested).queue == ring.queue[n..] && RingOutput(ring, requested) == ring.queue[..n] + Silence(requested - n)
  {}

  lemma ReadPieces(unread: seq<Sample>, drained: seq<Sample>, n: nat)
    requires 2 * n <= |unread| && |drained| % 2 == 0
    ensures ToFrames(unread[2 * n..]) == ToFrames(unread)[n..]
    ensures ToFrames(drained + unread[..2 * n]) == ToFrames(drained) + ToFrames(unread)[..n]
  {
    FramesPrefix(unread, n);
    FramesAppend(drained, unread[..2 * n]);
  }

  lemma ReadFrames(s: CaptureRing.Tap, requested: nat, n: nat)
    requires CaptureRing.Inv(s) && s.consumer.ConsumerIdle? && n == Min(|AbstractRing(s).queue|, requested)
    ensures CaptureRing.Inv(CaptureTap.Drained(s, requested))
    ensures AbstractRing(CaptureTap.Drained(s, requested)) == AbstractRing(s).(queue := AbstractRing(s).queue[n..])
    ensures ToFrames(CaptureTap.Drained(s, requested).history.drained) == ToFrames(s.history.drained) + AbstractRing(s).queue[..n]
  {
    CaptureTap.DrainKeepsInv(s, requested);
    CaptureTap.DrainRemovesFront(s, requested);
    DrainedWhole(s);
    ReadPieces(CaptureTap.UnreadOf(s), s.history.drained, n);
  }

  /** A read on the lock-free ring is `RingRead`, and supplies what `RingOutput` starts with. */
  lemma RenderReadIsRingRead(s: CaptureRing.Tap, requested: nat)
    requires CaptureRing.Inv(s) && s.consumer.ConsumerIdle?
    ensures CaptureRing.Inv(CaptureTap.Drained(s, requested))
    ensures AbstractRing(CaptureTap.Drained(s, requested)) == RingRead(AbstractRing(s), requested)
    ensures exists supplied ::
              && |supplied| <= requested
              && RingOutput(AbstractRing(s), requested) == supplied + Silence(requested - |supplied|)
              && ToFrames(CaptureTap.Drained(s, requested).history.drained) == ToFrames(s.history.drained) + supplied
  {
    var n := Min(|AbstractRing(s).queue|, requested);
    ReadShape(AbstractRing(s), requested);
    ReadFrames(s, requested, n);
    assert |AbstractRing(s).queue[..n]| == n;
  }

  // -------------------------------------------------------------- the registry object

  /** The process-wide registry with the rings, taps and handles reachable from it. */
  class EngineRegistry {
    var nextToken: u64
    var entries: map<nat, Option<nat>>
    var open: set<nat>
    var rings: map<nat, Ring>
    var taps: map<nat, Tap>

    ghost function Value(): World
      reads this
    {
      World(nextToken, entries, open, rings, taps)
    }

    constructor (taps: map<nat, Tap>)
      ensures Value() == Initial(taps)
    {
      nextToken, entries, open, rings := 1, map[], {}, map[];
      this.taps := taps;
    }

    /** `FfiAudioOutputHandle::open` over `register_render_ring`. */
    method OpenOutput(capacity: nat, target: nat) returns (r: Result)
      modifies this
      ensures Value() == Step(old(Value()), Open(capacity, target)).world
      ensures r == Step(old(Value()), Open(capacity, target)).result
      ensures r == Failed(Config) <==> capacity < 4_800 || capacity > 480_000 || target == 0 || target > capacity
    {
      if !ValidConfig(capacity, target) { return Failed(Config); }
      var token := nextToken;
      if token == 0 { return Failed(TokenSpaceExhausted); }
      entries := entries[token := None];
      rings := rings[token := Ring(capacity, [])];
      nextToken := if token == U64_MAX then 0 else token + 1;
      open := open + {token};
      r := Opened(token);
    }

    method ReleaseRenderRing(token: u64) returns (r: Result)
      modifies this
      ensures Value() == Step(old(Value()), Release(token)).world
      ensures r == Step(old(Value()), Release(token)).result
    {
      if token in entries {
        entries := entries - {token};
        return Done;
      }
      r := Failed(if WasIssued(nextToken, token) then AlreadyReleased else UnknownToken);
    }

    /** `release` of the output handle: a second one does nothing. */
    method ReleaseOutput(token: u64)
      modifies this
      ensures Value() == Step(old(Value()), ReleaseHandle(token)).world
    {
      if token in open {
        open := open - {token};
        var _ := ReleaseRenderRing(token);
      }
    }

    method AttachCallbackCapture(token: u64, tap: nat) returns (r: Result)
      modifies this
      ensures Value() == Step(old(Value()), Attach(token, tap)).world
      ensures r == Step(old(Value()), Attach(token, tap)).result
    {
      if token !in entries { return Failed(UnknownToken); }
      if entries[token].Some? { return Failed(AlreadyReleased); }
      entries := entries[token := Some(tap)];
      r := Done;
    }

    method DetachCallbackCapture(token: u64)
      modifies this
      ensures Value() == Step(old(Value()), Detach(token)).world
    {
      if token in entries { entries := entries[token := None]; }
    }

    /** Fills the caller's buffer in place: queued frames first, then silence. */
    method FillOutput(output: array<Frame>, queue: seq<Frame>)
      modifies output
      ensures output[..] == RingOutput(Ring(0, queue), output.Length)
    {
      var supplied := Min(output.Length, |queue|);
      for i := 0 to supplied
        invariant output[..i] == queue[..i]
      {
        output[i] := queue[i];
      }
      for i := supplied to output.Length
        invariant output[..i] == queue[..supplied] + Silence(i - supplied)
      {
        output[i] := SILENCE;
      }
      assert output[..] == output[..output.Length];
    }

    method ReadInterleaved(token: u64, output: array<Frame>, channels: nat, contended: bool)
      returns (status: Status, supplied: nat)
      modifies this, output
      ensures var o := Step(old(Value()), Read(token, output.Length, channels, contended));
              && Value() == o.world && status == o.result.status && supplied == o.result.supplied
              && output[..] == if status == InvalidArgument then old(output[..]) else o.result.output
    {
      supplied := 0;
      if output.Length == 0 || channels != RENDER_CHANNELS { return InvalidArgument, 0; }
      if contended {
        FillOutput(output, []);
        return Stopping, 0;
      }
      if token in entries && token in rings {
        var ring := rings[token];
        FillOutput(output, ring.queue);
        supplied := Min(output.Length, |ring.queue|);
        rings := rings[token := RingRead(ring, output.Length)];
        var tap := entries[token];
        if tap.Some? && tap.value in taps {
          taps := taps[tap.value := TapRecord(taps[tap.value], output[..])];
        }
        status := if supplied < output.Length then Partial else Ok;
      } else {
        FillOutput(output, []);
        status := if WasIssued(nextToken, token) then Stopping else InvalidState;
      }
    }

    /** `push_frames` of the output handle; malformed PCM is refused untouched. */
    method PushFrames(token: u64, samples: seq<Sample>) returns (r: Result)
      modifies this
      ensures Value() == Step(old(Value()), Push(token, samples)).world
      ensures r == Step(old(Value()), Push(token, samples)).result
      ensures r == PushRejected <==>
                && token in old(open) && token in old(rings)
                && (|samples| % 2 == 1 || exists i :: 0 <= i < |samples| && !IsFinite(samples[i]))
      ensures r.Pushed? ==>
                && token in rings && token in old(rings) && r.frames <= |ToFrames(samples)|
                && rings[token].queue == old(rings)[token].queue + ToFrames(samples)[..r.frames]
    {
      if token !in open || token !in rings { return Closed; }
      if |samples| % 2 != 0 { return PushRejected; }
      for i := 0 to |samples|
        invariant forall j :: 0 <= j < i ==> IsFinite(samples[j])
      {
        if !IsFinite(samples[i]) { return PushRejected; }
      }
      var frames := ToFrames(samples);
      r := Pushed(PushCount(rings[token], frames));
      rings := rings[token := RingPush(rings[token], frames)];
    }
  }
}
