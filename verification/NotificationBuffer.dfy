/**
 The desktop notification dispatcher: the core observer, subscription workers,
 subscriber replacement and shutdown share one locked state.

 Every critical section under the state mutex, every send, every thread start and
 join is one `Step`; a `Run` is any interleaving of them. The worker mutex is held
 for the whole of an attach or a shutdown, so one `Controller` describes whichever
 of them is in progress.
 */
module NotificationBuffer {
  import opened CoreNotifications

  const CAPACITY: nat := 64

  datatype WorkerPc =
    | Waiting
    | Sending(n: Notification)
    | SendFailed(n: Notification)
    | Done

  datatype Worker = Worker(stop: bool, pc: WorkerPc, delivered: Option<nat>)

  /** Progress of the thread that holds the worker mutex; `attach` tells a subscriber
      replacement from a shutdown. */
  datatype Controller =
    | Free
    | Stopping(id: nat, attach: bool)
    | Clearing(id: nat, attach: bool)
    | Joining(id: nat, attach: bool)
    | Checking
    | Spawning(id: nat)
    | Spawned(id: nat)

  /** The contents of the state mutex. */
  datatype Shared = Shared(
    latest: Option<CoreSnapshot>,
    failed: Option<Event>,
    pending: seq<Event>,
    active: Option<nat>,
    nextId: nat,
    deliveryFailure: bool,
    closed: bool)

  /** What happened so far: `observed` is every notification the observer accepted,
      `log` every successful send, `settled` every event that left the dispatcher (true
      when it was delivered), `replacements` the attaches that found an old worker plus
      the shutdowns. */
  datatype History = History(
    observed: seq<Notification>,
    log: seq<Delivery>,
    settled: seq<Settled>,
    replacements: nat)

  datatype State = State(
    shared: Shared,
    workers: map<nat, Worker>,
    slot: Option<nat>,
    controller: Controller,
    panicked: bool,
    history: History)

  datatype Delivery = Delivery(id: nat, n: Notification)

  datatype Settled = Settled(event: Event, delivered: bool)

  datatype Action =
    | Observe(n: Notification)
    | Take(id: nat)
    | SendOk(id: nat)
    | SendErr(id: nat)
    | RecordFailure(id: nat)
    | BeginAttach
    | BeginShutdown
    | StoreStop
    | ClearActive
    | Join
    | CheckAndActivate
    | Spawn
    | SpawnError
    | StoreSlot

  function Initial(): State {
    State(Shared(None, None, [], None, 0, false, false), map[], None, Free, false, History([], [], [], 0))
  }

  // ------------------------------------------------------------- the critical sections

  function NewerSnapshot(latest: Option<CoreSnapshot>, delivered: Option<nat>): Option<CoreSnapshot> {
    if latest.Some? && (delivered.None? || latest.value.revision > delivered.value) then latest else None
  }

  /** What `wait_for_next` decides under the state lock. */
  datatype Choice = Exit | Block | SendSnapshot | Redeliver | NextPending

  function Choose(m: Shared, id: nat, w: Worker): Choice {
    if w.stop || m.closed || m.active != Some(id) then Exit
    else if w.delivered.None? && NewerSnapshot(m.latest, w.delivered).Some? then SendSnapshot
    else if m.failed.Some? then Redeliver
    else if m.pending != [] then NextPending
    else if NewerSnapshot(m.latest, w.delivered).Some? then SendSnapshot
    else Block
  }

  /** The program counter the worker leaves `wait_for_next` with. */
  function Chosen(m: Shared, c: Choice): WorkerPc
    requires c == SendSnapshot ==> m.latest.Some?
    requires c == Redeliver ==> m.failed.Some?
    requires c == NextPending ==> m.pending != []
  {
    match c
    case Exit => Done
    case Block => Waiting
    case SendSnapshot => Sending(Snapshot(m.latest.value))
    case Redeliver => Sending(Other(m.failed.value))
    case NextPending => Sending(Other(m.pending[0]))
  }

  function Taken(m: Shared, c: Choice): Shared
    requires c == NextPending ==> m.pending != []
  {
    match c
    case Redeliver => m.(failed := None)
    case NextPending => m.(pending := m.pending[1..])
    case _ => m
  }

  /** `on_notification` rejects when the bridge is closed or the queue is full. */
  predicate Accepts(m: Shared, n: Notification) {
    !m.closed && (n.Snapshot? || |m.pending| < CAPACITY)
  }

  function Observed(m: Shared, n: Notification): Shared {
    if !Accepts(m, n) then m
    else if n.Snapshot? then m.(latest := Newer(m.latest, n))
    else m.(pending := m.pending + [n.event])
  }

  /** `record_delivery_failure`, once the send has failed. */
  function FailureRecorded(m: Shared, id: nat, n: Notification): Shared {
    if m.active != Some(id) then m
    else m.(failed := if n.Other? then Some(n.event) else m.failed, deliveryFailure := true, active := None)
  }

  /** Its assertion that no other failed delivery is parked. */
  predicate FailureAsserts(m: Shared, id: nat, n: Notification) {
    m.active == Some(id) && n.Other? ==> m.failed.None?
  }

  function ActiveCleared(m: Shared, id: nat): Shared {
    if m.active == Some(id) then m.(active := None) else m
  }

  /** `attach_sink` needs an open bridge, a snapshot and an identifier left to hand out. */
  predicate CanActivate(m: Shared) { !m.closed && m.latest.Some? && m.nextId < U64_MAX }

  function Activate(m: Shared): Shared {
    m.(nextId := m.nextId + 1, deliveryFailure := false, active := Some(m.nextId + 1))
  }

  function BridgeClosed(m: Shared): Shared { m.(closed := true, active := None) }

  // --------------------------------------------------------------------------- steps

  predicate Targets(c: Controller) { c.Stopping? || c.Clearing? || c.Joining? }

  predicate Enabled(s: State, a: Action) {
    match a
    case Observe(_) => true
    case Take(id) =>
      id in s.workers && s.workers[id].pc.Waiting? && Choose(s.shared, id, s.workers[id]) != Block
    case SendOk(id) => id in s.workers && s.workers[id].pc.Sending?
    case SendErr(id) => id in s.workers && s.workers[id].pc.Sending?
    case RecordFailure(id) => id in s.workers && s.workers[id].pc.SendFailed?
    case BeginAttach => s.controller.Free?
    case BeginShutdown => s.controller.Free?
    case StoreStop => s.controller.Stopping? && s.controller.id in s.workers
    case ClearActive => s.controller.Clearing?
    case Join => s.controller.Joining? && s.controller.id in s.workers && s.workers[s.controller.id].pc.Done?
    case CheckAndActivate => s.controller.Checking?
    case Spawn => s.controller.Spawning?
    case SpawnError => s.controller.Spawning?
    case StoreSlot => s.controller.Spawned?
  }

  function Moved(s: State, id: nat, pc: WorkerPc): map<nat, Worker>
    requires id in s.workers
  {
    s.workers[id := s.workers[id].(pc := pc)]
  }

  function AfterSend(w: Worker): Worker
    requires w.pc.Sending?
  {
    Worker(w.stop, Waiting, if w.pc.n.Snapshot? then Some(w.pc.n.snapshot.revision) else w.delivered)
  }

  function Settle(h: History, n: Notification, delivered: bool): History {
    if n.Other? then h.(settled := h.settled + [Settled(n.event, delivered)]) else h
  }

  function Step(s: State, a: Action): State
    requires Enabled(s, a)
  {
    var m, h := s.shared, s.history;
    match a
    case Observe(n) =>
      s.(shared := Observed(m, n),
         history := if Accepts(m, n) then h.(observed := h.observed + [n]) else h)
    case Take(id) =>
      var c := Choose(m, id, s.workers[id]);
      s.(shared := Taken(m, c), workers := Moved(s, id, Chosen(m, c)))
    case SendOk(id) =>
      var n := s.workers[id].pc.n;
      s.(workers := s.workers[id := AfterSend(s.workers[id])],
         history := Settle(h, n, true).(log := h.log + [Delivery(id, n)]))
    case SendErr(id) =>
      s.(workers := Moved(s, id, SendFailed(s.workers[id].pc.n)))
    case RecordFailure(id) =>
      var n := s.workers[id].pc.n;
      s.(shared := FailureRecorded(m, id, n),
         workers := Moved(s, id, Done),
         panicked := s.panicked || !FailureAsserts(m, id, n),
         history := if m.active != Some(id) then Settle(h, n, false) else h)
    case BeginAttach =>
      if s.slot.None? then s.(controller := Checking)
      else s.(controller := Stopping(s.slot.value, true), slot := None,
              history := h.(replacements := h.replacements + 1))
    case BeginShutdown =>
      s.(shared := BridgeClosed(m), slot := None,
         controller := if s.slot.None? then Free else Stopping(s.slot.value, false),
         history := h.(replacements := h.replacements + 1))
    case StoreStop =>
      var id := s.controller.id;
      s.(workers := s.workers[id := s.workers[id].(stop := true)],
         controller := Clearing(id, s.controller.attach))
    case ClearActive =>
      s.(shared := ActiveCleared(m, s.controller.id),
         controller := Joining(s.controller.id, s.controller.attach))
    case Join => s.(controller := if s.controller.attach then Checking else Free)
    case CheckAndActivate =>
      if !CanActivate(m) then s.(controller := Free)
      else s.(shared := Activate(m), controller := Spawning(m.nextId + 1))
    case Spawn =>
      s.(workers := s.workers[s.controller.id := Worker(false, Waiting, None)],
         controller := Spawned(s.controller.id))
    case SpawnError => s.(shared := ActiveCleared(m, s.controller.id), controller := Free)
    case StoreSlot => s.(slot := Some(s.controller.id), controller := Free)
  }

  predicate ValidRun(s: State, actions: seq<Action>)
    decreases |actions|
  {
    actions == [] || (Enabled(s, actions[0]) && ValidRun(Step(s, actions[0]), actions[1..]))
  }

  function Run(s: State, actions: seq<Action>): State
    requires ValidRun(s, actions)
    decreases |actions|
  {
    if actions == [] then s else Run(Step(s, actions[0]), actions[1..])
  }

  // ------------------------------------------------------------------ one live worker

  predicate Live(workers: map<nat, Worker>, id: nat) {
    id in workers && !workers[id].pc.Done?
  }

  /** The only thread that may be running. */
  function Current(slot: Option<nat>, controller: Controller): Option<nat> {
    match controller
    case Free => slot
    case Stopping(id, _) => Some(id)
    case Clearing(id, _) => Some(id)
    case Joining(id, _) => Some(id)
    case Checking => None
    case Spawning(_) => None
    case Spawned(id) => Some(id)
  }

  ghost predicate OnlyLive(workers: map<nat, Worker>, current: Option<nat>) {
    forall id: nat :: Live(workers, id) ==> current == Some(id)
  }

  ghost predicate IdsBelow(workers: map<nat, Worker>, bound: nat) {
    forall id: nat :: id in workers ==> id <= bound
  }

  ghost predicate ControlInv(s: State) {
    var current := Current(s.slot, s.controller);
    && OnlyLive(s.workers, current)
    && IdsBelow(s.workers, s.shared.nextId)
    && (current.Some? ==> current.value in s.workers)
    && (current.Some? && Live(s.workers, current.value) && !Targets(s.controller) ==> s.shared.active == current)
    && (s.slot.Some? ==> s.controller.Free?)
    && (s.controller.Spawning? ==>
          && s.controller.id == s.shared.nextId && s.controller.id !in s.workers
          && s.shared.active == Some(s.controller.id))
    && (s.workers != map[] || s.controller.Spawning? ==> s.shared.latest.Some?)
    && !s.panicked
  }

  // --------------------------------------------------------------- no silent death

  /** The worker nobody is stopping belongs to the open bridge, and it has ended exactly
      when a delivery failure is on record. */
  ghost predicate HealthOk(m: Shared, w: Worker) {
    !w.stop && !m.closed && (w.pc.Done? <==> m.deliveryFailure) && (w.pc.Done? ==> m.active.None?)
  }

  ghost predicate HealthInv(s: State) {
    var current := Current(s.slot, s.controller);
    && (s.shared.active.Some? ==> !s.shared.closed && (s.controller.Spawning? || s.shared.active == current))
    && (s.controller.Spawning? ==> !s.shared.deliveryFailure)
    && (s.controller.Joining? ==> s.shared.active.None?)
    && (current.Some? && current.value in s.workers && !Targets(s.controller) ==>
          HealthOk(s.shared, s.workers[current.value]))
  }

  lemma HealthWorkerStep(s: State, a: Action)
    requires ControlInv(s) && HealthInv(s) && Enabled(s, a) && ByWorker(a)
    ensures HealthInv(Step(s, a))
  {
    WorkerIsCurrent(s, a);
  }

  lemma HealthOtherStep(s: State, a: Action)
    requires ControlInv(s) && HealthInv(s) && Enabled(s, a) && !ByWorker(a)
    ensures HealthInv(Step(s, a))
  {}

  // ------------------------------------------------------------------ event conservation

  /** Where the current worker stands; a joined or absent one holds nothing. */
  function CurrentPc(s: State): WorkerPc {
    var current := Current(s.slot, s.controller);
    if current.Some? && current.value in s.workers then s.workers[current.value].pc else Done
  }

  function Held(pc: WorkerPc): seq<Event> {
    if (pc.Sending? || pc.SendFailed?) && pc.n.Other? then [pc.n.event] else []
  }

  function Parked(failed: Option<Event>): seq<Event> {
    if failed.Some? then [failed.value] else []
  }

  /** Events the dispatcher still owes: in flight, parked after a failure, pending. */
  function Queue(pc: WorkerPc, m: Shared): seq<Event> {
    Held(pc) + Parked(m.failed) + m.pending
  }

  function SettledEvents(settled: seq<Settled>): seq<Event> {
    seq(|settled|, i requires 0 <= i < |settled| => settled[i].event)
  }

  function Drops(settled: seq<Settled>): nat {
    if settled == [] then 0
    else Drops(settled[..|settled| - 1]) + (if settled[|settled| - 1].delivered then 0 else 1)
  }

  ghost predicate Conserved(h: History, queue: seq<Event>) {
    EventsOf(h.observed) == SettledEvents(h.settled) + queue
  }

  /** A targeted worker that is still running may lose one send; that is the one drop
      its replacement has paid for. */
  ghost predicate QueueOk(h: History, pc: WorkerPc, m: Shared, targeted: bool) {
    && Conserved(h, Queue(pc, m))
    && (Held(pc) != [] ==> m.failed.None?)
    && |m.pending| <= CAPACITY
    && Drops(h.settled) + (if targeted && !pc.Done? then 1 else 0) <= h.replacements
  }

  ghost predicate QueueInv(s: State) {
    QueueOk(s.history, CurrentPc(s), s.shared, Targets(s.controller))
  }

  lemma InitialQueue()
    ensures QueueInv(Initial())
  {
    var s := Initial();
    assert SettledEvents(s.history.settled) == [] && Queue(CurrentPc(s), s.shared) == [];
  }

  lemma InitialLog()
    ensures SnapshotInv(Initial())
  {
    var s := Initial();
    assert Notifications(s.history.log) == [];
    assert SnapshotFirst(s.history.log) && RevisionsOrdered(s.history.log);
  }

  lemma InitialInv()
    ensures Inv(Initial())
  {
    InitialQueue();
    InitialLog();
  }

  predicate ByWorker(a: Action) { a.Take? || a.SendOk? || a.SendErr? || a.RecordFailure? }

  /** Only the current worker can step, and it is the subscription unless targeted. */
  lemma WorkerIsCurrent(s: State, a: Action)
    requires ControlInv(s) && Enabled(s, a) && ByWorker(a)
    ensures Current(s.slot, s.controller) == Some(a.id) && CurrentPc(s) == s.workers[a.id].pc
    ensures s.shared.active != Some(a.id) ==> Targets(s.controller)
  {
    assert Live(s.workers, a.id);
  }

  lemma OnlyLiveUpdate(workers: map<nat, Worker>, id: nat, w: Worker)
    requires OnlyLive(workers, Some(id))
    ensures OnlyLive(workers[id := w], Some(id))
  {}

  lemma ControlWorkerStep(s: State, a: Action)
    requires ControlInv(s) && Enabled(s, a) && ByWorker(a)
    requires Held(CurrentPc(s)) != [] ==> s.shared.failed.None?
    ensures ControlInv(Step(s, a))
  {
    WorkerIsCurrent(s, a);
    OnlyLiveUpdate(s.workers, a.id, Step(s, a).workers[a.id]);
  }

  lemma ControlOtherStep(s: State, a: Action)
    requires ControlInv(s) && Enabled(s, a) && !ByWorker(a)
    ensures ControlInv(Step(s, a))
  {
    if a.StoreStop? {
      OnlyLiveUpdate(s.workers, s.controller.id, Step(s, a).workers[s.controller.id]);
    } else if a.Spawn? {
      OnlyLiveUpdate(s.workers, s.controller.id, Worker(false, Waiting, None));
    } else if a.Join? {
      assert OnlyLive(s.workers, None);
    }
  }

  lemma SettledSnoc(settled: seq<Settled>, x: Settled)
    ensures SettledEvents(settled + [x]) == SettledEvents(settled) + [x.event]
    ensures Drops(settled + [x]) == Drops(settled) + (if x.delivered then 0 else 1)
  {
    assert (settled + [x])[..|settled|] == settled;
  }

  lemma ConservedObserve(h: History, queue: seq<Event>, n: Notification)
    requires Conserved(h, queue)
    ensures Conserved(h.(observed := h.observed + [n]), if n.Other? then queue + [n.event] else queue)
  {
    EventsOfSnoc(h.observed, n);
  }

  lemma ObserveQueue(h: History, pc: WorkerPc, m: Shared, targeted: bool, n: Notification)
    requires QueueOk(h, pc, m, targeted) && Accepts(m, n)
    ensures QueueOk(h.(observed := h.observed + [n]), pc, Observed(m, n), targeted)
  {
    ConservedObserve(h, Queue(pc, m), n);
    if n.Other? {
      assert Queue(pc, Observed(m, n)) == Queue(pc, m) + [n.event];
    } else {
      assert Queue(pc, Observed(m, n)) == Queue(pc, m);
    }
  }

  lemma TakeQueue(h: History, m: Shared, targeted: bool, id: nat, w: Worker)
    requires QueueOk(h, Waiting, m, targeted) && Choose(m, id, w) != Block
    ensures var c := Choose(m, id, w); QueueOk(h, Chosen(m, c), Taken(m, c), targeted)
  {
    var c := Choose(m, id, w);
    if c == NextPending { assert m.pending == [m.pending[0]] + m.pending[1..]; }
    assert Queue(Chosen(m, c), Taken(m, c)) == Queue(Waiting, m);
  }

  /** Settling the event in flight moves it from the queue to the settled list. */
  lemma SettleMoves(h: History, pc: WorkerPc, rest: seq<Event>, delivered: bool)
    requires (pc.Sending? || pc.SendFailed?) && Conserved(h, Held(pc) + rest)
    ensures Conserved(Settle(h, pc.n, delivered), rest)
    ensures Drops(Settle(h, pc.n, delivered).settled)
         == Drops(h.settled) + (if pc.n.Other? && !delivered then 1 else 0)
  {
    if pc.n.Other? { SettledSnoc(h.settled, Settled(pc.n.event, delivered)); }
  }

  lemma SettleQueue(h: History, pc: WorkerPc, m: Shared, targeted: bool, delivered: bool, pc': WorkerPc)
    requires QueueOk(h, pc, m, targeted) && (pc.Sending? || pc.SendFailed?)
    requires if delivered then pc'.Waiting? else pc'.Done? && targeted
    ensures QueueOk(Settle(h, pc.n, delivered), pc', m, targeted)
  {
    var rest := Parked(m.failed) + m.pending;
    assert Queue(pc, m) == Held(pc) + rest;
    SettleMoves(h, pc, rest, delivered);
    assert Queue(pc', m) == rest;
  }

  lemma ParkQueue(h: History, pc: WorkerPc, m: Shared, targeted: bool, id: nat)
    requires QueueOk(h, pc, m, targeted) && pc.SendFailed? && m.active == Some(id)
    ensures QueueOk(h, Done, FailureRecorded(m, id, pc.n), targeted)
  {
    assert Queue(Done, FailureRecorded(m, id, pc.n)) == Queue(pc, m);
  }

  lemma QueueWorkerStep(s: State, a: Action)
    requires ControlInv(s) && QueueInv(s) && Enabled(s, a) && ByWorker(a)
    ensures QueueInv(Step(s, a))
  {
    WorkerIsCurrent(s, a);
    var h, pc, m, t := s.history, s.workers[a.id].pc, s.shared, Targets(s.controller);
    if a.Take? {
      TakeQueue(h, m, t, a.id, s.workers[a.id]);
    } else if a.SendOk? {
      SettleQueue(h, pc, m, t, true, Waiting);
    } else if a.RecordFailure? && m.active != Some(a.id) {
      SettleQueue(h, pc, m, t, false, Done);
    } else if a.RecordFailure? {
      ParkQueue(h, pc, m, t, a.id);
    }
  }

  lemma FrameQueue(h: History, pc: WorkerPc, m: Shared, targeted: bool,
                   h': History, pc': WorkerPc, m': Shared, targeted': bool)
    requires QueueOk(h, pc, m, targeted)
    requires h'.observed == h.observed && h'.settled == h.settled && h.replacements <= h'.replacements
    requires m'.failed == m.failed && m'.pending == m.pending
    requires Held(pc') == Held(pc)
    requires (targeted' && !pc'.Done?) ==> (targeted && !pc.Done?) || h.replacements < h'.replacements
    ensures QueueOk(h', pc', m', targeted')
  {
    assert Queue(pc', m') == Queue(pc, m);
  }

  lemma QueueOtherStep(s: State, a: Action)
    requires ControlInv(s) && QueueInv(s) && Enabled(s, a) && !ByWorker(a)
    ensures QueueInv(Step(s, a))
  {
    var r := Step(s, a);
    if a.Observe? {
      assert CurrentPc(r) == CurrentPc(s);
      if Accepts(s.shared, a.n) {
        ObserveQueue(s.history, CurrentPc(s), s.shared, Targets(s.controller), a.n);
      }
    } else {
      assert Held(CurrentPc(r)) == Held(CurrentPc(s));
      FrameQueue(s.history, CurrentPc(s), s.shared, Targets(s.controller),
                 r.history, CurrentPc(r), r.shared, Targets(r.controller));
    }
  }

  // ------------------------------------------------------------------ snapshot order

  ghost predicate RevisionsUpTo(log: seq<Delivery>, bound: nat) {
    forall i :: 0 <= i < |log| && log[i].n.Snapshot? ==> log[i].n.snapshot.revision <= bound
  }

  ghost predicate Received(log: seq<Delivery>, id: nat) {
    exists i :: 0 <= i < |log| && log[i].id == id
  }

  ghost predicate ReceivedRevision(log: seq<Delivery>, id: nat, revision: nat) {
    exists i :: 0 <= i < |log| && log[i].id == id && log[i].n.Snapshot? && log[i].n.snapshot.revision == revision
  }

  /** Revisions never go back, and strictly grow within one subscription. */
  ghost predicate RevisionsOrdered(log: seq<Delivery>) {
    forall i, j :: 0 <= i < j < |log| && log[i].n.Snapshot? && log[j].n.Snapshot? ==>
      && log[i].n.snapshot.revision <= log[j].n.snapshot.revision
      && (log[i].id == log[j].id ==> log[i].n.snapshot.revision < log[j].n.snapshot.revision)
  }

  /** The first thing any subscription receives is a snapshot. */
  ghost predicate SnapshotFirst(log: seq<Delivery>) {
    forall i :: 0 <= i < |log| && log[i].n.Other? ==> Received(log[..i], log[i].id)
  }

  /** `x` was once the authoritative snapshot. */
  predicate WasLatest(x: CoreSnapshot, latest: Option<CoreSnapshot>) {
    && latest.Some? && x.revision <= latest.value.revision
    && (x.revision == latest.value.revision ==> x == latest.value)
  }

  ghost predicate LogIsPast(log: seq<Delivery>, latest: Option<CoreSnapshot>) {
    forall i :: 0 <= i < |log| && log[i].n.Snapshot? ==> WasLatest(log[i].n.snapshot, latest)
  }

  ghost predicate LogOwners(log: seq<Delivery>, workers: map<nat, Worker>) {
    forall i :: 0 <= i < |log| ==> log[i].id in workers
  }

  /** What the running worker knows about the stream so far. */
  ghost predicate WorkerView(log: seq<Delivery>, latest: Option<CoreSnapshot>, id: nat, w: Worker) {
    && (w.delivered.None? ==> !Received(log, id))
    && (w.delivered.Some? ==>
          ReceivedRevision(log, id, w.delivered.value) && RevisionsUpTo(log, w.delivered.value))
    && (Held(w.pc) != [] ==> w.delivered.Some?)
    && ((w.pc.Sending? || w.pc.SendFailed?) && w.pc.n.Snapshot? ==>
          && WasLatest(w.pc.n.snapshot, latest)
          && RevisionsUpTo(log, w.pc.n.snapshot.revision)
          && (w.delivered.Some? ==> w.delivered.value < w.pc.n.snapshot.revision))
  }

  function Notifications(log: seq<Delivery>): seq<Notification> {
    seq(|log|, i requires 0 <= i < |log| => log[i].n)
  }

  function DeliveredEvents(settled: seq<Settled>): seq<Event> {
    if settled == [] then []
    else
      var last := settled[|settled| - 1];
      DeliveredEvents(settled[..|settled| - 1]) + (if last.delivered then [last.event] else [])
  }

  ghost predicate LogInv(h: History, m: Shared, workers: map<nat, Worker>) {
    && RevisionsOrdered(h.log) && SnapshotFirst(h.log)
    && LogIsPast(h.log, m.latest)
    && LogOwners(h.log, workers)
    && m.latest == LatestOf(None, h.observed)
    && EventsOf(Notifications(h.log)) == DeliveredEvents(h.settled)
  }

  ghost predicate SnapshotInv(s: State) {
    var current := Current(s.slot, s.controller);
    && LogInv(s.history, s.shared, s.workers)
    && (current.Some? && Live(s.workers, current.value) ==>
          WorkerView(s.history.log, s.shared.latest, current.value, s.workers[current.value]))
  }

  lemma RevisionReceived(log: seq<Delivery>, id: nat, revision: nat)
    requires ReceivedRevision(log, id, revision)
    ensures Received(log, id)
  {}

  lemma ReceivedRevisionSnoc(log: seq<Delivery>, d: Delivery, id: nat, revision: nat)
    requires ReceivedRevision(log, id, revision)
          || (d.id == id && d.n.Snapshot? && d.n.snapshot.revision == revision)
    ensures ReceivedRevision(log + [d], id, revision)
  {
    if ReceivedRevision(log, id, revision) {
      var i :| 0 <= i < |log| && log[i].id == id && log[i].n.Snapshot? && log[i].n.snapshot.revision == revision;
      assert (log + [d])[i] == log[i];
    } else {
      assert (log + [d])[|log|] == d;
    }
  }

  lemma SnapshotFirstSnoc(log: seq<Delivery>, d: Delivery)
    requires SnapshotFirst(log) && (d.n.Other? ==> Received(log, d.id))
    ensures SnapshotFirst(log + [d])
  {
    var log' := log + [d];
    forall i | 0 <= i < |log'| && log'[i].n.Other?
      ensures Received(log'[..i], log'[i].id)
    {
      if i < |log| { assert log'[..i] == log[..i]; } else { assert log'[..i] == log; }
    }
  }

  lemma OrderedSnoc(log: seq<Delivery>, latest: Option<CoreSnapshot>, id: nat, w: Worker)
    requires w.pc.Sending? && WorkerView(log, latest, id, w) && RevisionsOrdered(log)
    ensures RevisionsOrdered(log + [Delivery(id, w.pc.n)])
  {
    if w.delivered.None? {
      assert forall i :: 0 <= i < |log| ==> log[i].id != id;
    }
  }

  /** A completed send keeps the worker's view. */
  lemma ViewAfterSend(log: seq<Delivery>, latest: Option<CoreSnapshot>, id: nat, w: Worker)
    requires w.pc.Sending? && WorkerView(log, latest, id, w)
    ensures WorkerView(log + [Delivery(id, w.pc.n)], latest, id, AfterSend(w))
  {
    var d := Delivery(id, w.pc.n);
    var r := AfterSend(w).delivered.value;
    ReceivedRevisionSnoc(log, d, id, r);
  }

  lemma NotificationsSnoc(log: seq<Delivery>, d: Delivery)
    ensures EventsOf(Notifications(log + [d]))
         == EventsOf(Notifications(log)) + (if d.n.Other? then [d.n.event] else [])
  {
    assert Notifications(log + [d]) == Notifications(log) + [d.n];
    EventsOfSnoc(Notifications(log), d.n);
  }

  lemma DeliveredSnoc(settled: seq<Settled>, x: Settled)
    ensures DeliveredEvents(settled + [x]) == DeliveredEvents(settled) + (if x.delivered then [x.event] else [])
  {
    assert (settled + [x])[..|settled|] == settled;
  }

  lemma LogAfterSend(h: History, m: Shared, workers: map<nat, Worker>, id: nat)
    requires LogInv(h, m, workers) && id in workers && workers[id].pc.Sending?
    requires WorkerView(h.log, m.latest, id, workers[id])
    ensures var n := workers[id].pc.n;
            LogInv(Settle(h, n, true).(log := h.log + [Delivery(id, n)]), m, workers[id := AfterSend(workers[id])])
  {
    var w := workers[id];
    var n := w.pc.n;
    OrderedSnoc(h.log, m.latest, id, w);
    if n.Other? { RevisionReceived(h.log, id, w.delivered.value); }
    SnapshotFirstSnoc(h.log, Delivery(id, n));
    NotificationsSnoc(h.log, Delivery(id, n));
    if n.Other? { DeliveredSnoc(h.settled, Settled(n.event, true)); }
  }

  lemma ViewAfterTake(log: seq<Delivery>, m: Shared, id: nat, w: Worker)
    requires w.pc.Waiting? && WorkerView(log, m.latest, id, w) && LogIsPast(log, m.latest)
    requires m.latest.Some? && Choose(m, id, w) != Block
    ensures WorkerView(log, m.latest, id, w.(pc := Chosen(m, Choose(m, id, w))))
  {}

  lemma ViewAfterObserve(log: seq<Delivery>, latest: Option<CoreSnapshot>, id: nat, w: Worker, n: Notification)
    requires WorkerView(log, latest, id, w)
    ensures WorkerView(log, Newer(latest, n), id, w)
  {}

  lemma SnapshotWorkerStep(s: State, a: Action)
    requires ControlInv(s) && SnapshotInv(s) && Enabled(s, a) && ByWorker(a)
    ensures SnapshotInv(Step(s, a))
  {
    WorkerIsCurrent(s, a);
    var w := s.workers[a.id];
    if a.Take? {
      ViewAfterTake(s.history.log, s.shared, a.id, w);
    } else if a.SendOk? {
      LogAfterSend(s.history, s.shared, s.workers, a.id);
      ViewAfterSend(s.history.log, s.shared.latest, a.id, w);
    } else if a.RecordFailure? && w.pc.n.Other? {
      DeliveredSnoc(s.history.settled, Settled(w.pc.n.event, false));
    }
  }

  lemma LogAfterObserve(h: History, m: Shared, workers: map<nat, Worker>, n: Notification)
    requires LogInv(h, m, workers) && Accepts(m, n)
    ensures LogInv(h.(observed := h.observed + [n]), Observed(m, n), workers)
  {
    LatestOfSnoc(None, h.observed, n);
  }

  lemma SnapshotObserve(s: State, n: Notification)
    requires SnapshotInv(s)
    ensures SnapshotInv(Step(s, Observe(n)))
  {
    if Accepts(s.shared, n) { LogAfterObserve(s.history, s.shared, s.workers, n); }
    var current := Current(s.slot, s.controller);
    if current.Some? && Live(s.workers, current.value) {
      ViewAfterObserve(s.history.log, s.shared.latest, current.value, s.workers[current.value], n);
    }
  }

  /** Steps of the controller that leave the threads alone. */
  lemma SnapshotFrame(s: State, r: State)
    requires SnapshotInv(s)
    requires r.workers == s.workers && r.shared.latest == s.shared.latest
    requires r.history.(replacements := 0) == s.history.(replacements := 0)
    requires var current := Current(r.slot, r.controller);
             current.None? || !Live(r.workers, current.value) || current == Current(s.slot, s.controller)
    ensures SnapshotInv(r)
  {}

  lemma SnapshotControllerStep(s: State, a: Action)
    requires ControlInv(s) && SnapshotInv(s) && Enabled(s, a) && !ByWorker(a) && !a.Observe?
    ensures SnapshotInv(Step(s, a))
  {
    var r := Step(s, a);
    if a.Spawn? {
      assert !Received(s.history.log, s.controller.id);
      assert Current(r.slot, r.controller) == Some(s.controller.id);
    } else if a.StoreStop? {
      assert Current(r.slot, r.controller) == Current(s.slot, s.controller);
    } else {
      SnapshotFrame(s, r);
    }
  }

  // -------------------------------------------------------------------- whole runs

  ghost predicate Inv(s: State) { ControlInv(s) && QueueInv(s) && SnapshotInv(s) && HealthInv(s) }

  lemma StepKeepsInv(s: State, a: Action)
    requires Inv(s) && Enabled(s, a)
    ensures Inv(Step(s, a))
  {
    if ByWorker(a) { HealthWorkerStep(s, a); } else { HealthOtherStep(s, a); }
    if ByWorker(a) {
      ControlWorkerStep(s, a);
      QueueWorkerStep(s, a);
      SnapshotWorkerStep(s, a);
    } else {
      ControlOtherStep(s, a);
      QueueOtherStep(s, a);
      if a.Observe? { SnapshotObserve(s, a.n); } else { SnapshotControllerStep(s, a); }
    }
  }

  lemma {:induction false} RunKeepsInv(s: State, actions: seq<Action>)
    requires Inv(s) && ValidRun(s, actions)
    ensures Inv(Run(s, actions))
    decreases |actions|
  {
    if actions != [] {
      StepKeepsInv(s, actions[0]);
      RunKeepsInv(Step(s, actions[0]), actions[1..]);
    }
  }

  lemma {:induction false} AllDelivered(settled: seq<Settled>)
    requires Drops(settled) == 0
    ensures DeliveredEvents(settled) == SettledEvents(settled)
  {
    if settled != [] {
      var front, last := settled[..|settled| - 1], settled[|settled| - 1];
      AllDelivered(front);
      SettledSnoc(front, last);
      assert settled == front + [last];
    }
  }

  /** No event is lost, duplicated or reordered: what the observer accepted is what left
      the dispatcher, then the send in flight, the parked failure and the queue. Sends
      that reached a subscriber are the delivered part of it in the same order, and at
      most one event is dropped per replacement or shutdown. */
  lemma EventsConserved(actions: seq<Action>)
    requires ValidRun(Initial(), actions)
    ensures var s := Run(Initial(), actions);
            && EventsOf(s.history.observed)
               == SettledEvents(s.history.settled) + (Held(CurrentPc(s)) + Parked(s.shared.failed) + s.shared.pending)
            && EventsOf(Notifications(s.history.log)) == DeliveredEvents(s.history.settled)
            && Drops(s.history.settled) <= s.history.replacements
            && (Drops(s.history.settled) == 0 ==>
                  EventsOf(Notifications(s.history.log)) == SettledEvents(s.history.settled))
  {
    InitialInv();
    RunKeepsInv(Initial(), actions);
    var s := Run(Initial(), actions);
    if Drops(s.history.settled) == 0 { AllDelivered(s.history.settled); }
  }

  lemma SettledByOthers(s: State, a: Action)
    requires Enabled(s, a) && !a.SendOk? && !a.RecordFailure?
    ensures Step(s, a).history.settled == s.history.settled
  {}

  ghost predicate Drop(s: State, a: Action)
    requires Enabled(s, a)
  {
    Drops(Step(s, a).history.settled) > Drops(s.history.settled)
  }

  lemma DropStep(s: State, a: Action)
    requires ControlInv(s) && Enabled(s, a)
    ensures Drop(s, a) ==> && a.RecordFailure? && s.workers[a.id].pc.n.Other? && s.shared.active != Some(a.id)
                           && Targets(s.controller) && s.controller.id == a.id
  {
    if a.SendOk? {
      var n := s.workers[a.id].pc.n;
      if n.Other? { SettledSnoc(s.history.settled, Settled(n.event, true)); }
    } else if a.RecordFailure? {
      WorkerIsCurrent(s, a);
    } else {
      SettledByOthers(s, a);
    }
  }

  /** The only step that drops an event is a failed send whose subscription the thread
      stopping that very worker has already cleared. */
  lemma DropNeedsReplacement(actions: seq<Action>, a: Action)
    requires ValidRun(Initial(), actions) && Enabled(Run(Initial(), actions), a)
    ensures var s := Run(Initial(), actions);
            Drop(s, a) ==> && a.RecordFailure? && s.workers[a.id].pc.n.Other?
                           && s.shared.active != Some(a.id)
                           && Targets(s.controller) && s.controller.id == a.id
  {
    InitialInv();
    RunKeepsInv(Initial(), actions);
    DropStep(Run(Initial(), actions), a);
  }

  /** Two subscription workers never run at once, an event in flight leaves the parked
      slot empty, and the "more than one failed delivery" assertion is never reached. */
  lemma OneWorkerNoPanic(actions: seq<Action>, id1: nat, id2: nat)
    requires ValidRun(Initial(), actions)
    ensures var s := Run(Initial(), actions);
            && (Live(s.workers, id1) && Live(s.workers, id2) ==> id1 == id2)
            && (Held(CurrentPc(s)) != [] ==> s.shared.failed.None?)
            && !s.panicked
  {
    InitialInv();
    RunKeepsInv(Initial(), actions);
  }

  /** Each subscription starts with a snapshot, its revisions strictly grow, and no
      later subscription ever sees an older revision. */
  lemma SubscriptionOrder(actions: seq<Action>)
    requires ValidRun(Initial(), actions)
    ensures var log := Run(Initial(), actions).history.log;
            SnapshotFirst(log) && RevisionsOrdered(log)
  {
    InitialInv();
    RunKeepsInv(Initial(), actions);
  }

  /** In every run, a subscription that has ended without anybody stopping it has left a
      delivery failure on record, one that is running has none, and an active subscription has
      its worker or is about to get it. */
  lemma NoSilentDeath(actions: seq<Action>)
    requires ValidRun(Initial(), actions)
    ensures var s := Run(Initial(), actions);
            var current := Current(s.slot, s.controller);
            && (current.Some? && !Targets(s.controller) ==>
                  current.value in s.workers && (s.workers[current.value].pc.Done? <==> s.shared.deliveryFailure))
            && (s.shared.active.Some? && !s.controller.Spawning? ==>
                  s.shared.active.value in s.workers && s.shared.active == current)
  {
    InitialInv();
    RunKeepsInv(Initial(), actions);
  }

  // --------------------------------------------------------------- what a worker owes

  function Others(events: seq<Event>): seq<Notification> {
    seq(|events|, i requires 0 <= i < |events| => Other(events[i]))
  }

  /** Parked event, then the queue. */
  function EventsOwed(m: Shared): seq<Event> { Parked(m.failed) + m.pending }

  function SnapshotOwed(m: Shared, delivered: Option<nat>): seq<Notification> {
    if m.latest.None? || (delivered.Some? && m.latest.value.revision <= delivered.value) then []
    else [Snapshot(m.latest.value)]
  }

  /** What is still to be sent to a subscriber, in the order it is to be sent: a fresh
      subscriber gets the snapshot first, any other gets it after the events. */
  function Owed(m: Shared, delivered: Option<nat>): seq<Notification> {
    if delivered.None? then SnapshotOwed(m, delivered) + Others(EventsOwed(m))
    else Others(EventsOwed(m)) + SnapshotOwed(m, delivered)
  }

  /** The subscription is over for this worker. */
  predicate Ended(m: Shared, id: nat, w: Worker) { w.stop || m.closed || m.active != Some(id) }

  /** A worker leaves only when its subscription is over, waits exactly when it owes
      nothing, and otherwise sends the first thing it owes; an event sent leaves the queue. */
  lemma TakeIsFirstOwed(m: Shared, id: nat, w: Worker)
    ensures var c := Choose(m, id, w);
            var owed := Owed(m, w.delivered);
            && (c == Exit <==> Ended(m, id, w))
            && (c == Block <==> !Ended(m, id, w) && owed == [])
            && (!Ended(m, id, w) && owed != [] ==>
                  && Chosen(m, c) == Sending(owed[0])
                  && EventsOwed(Taken(m, c)) == if owed[0].Other? then EventsOwed(m)[1..] else EventsOwed(m))
            && Taken(m, c) == m.(failed := Taken(m, c).failed, pending := Taken(m, c).pending)
  {
    var events := EventsOwed(m);
    if m.failed.Some? {
      assert events[1..] == m.pending && events[0] == m.failed.value;
    } else {
      assert events == m.pending;
    }
  }

  // --------------------------------------------------------------- catching up

  /** The subscribed worker is waiting and owes nothing. */
  ghost predicate Quiescent(s: State) {
    var current := Current(s.slot, s.controller);
    && current.Some? && current.value in s.workers
    && s.workers[current.value].pc.Waiting?
    && !Ended(s.shared, current.value, s.workers[current.value])
    && Owed(s.shared, s.workers[current.value].delivered) == []
  }

  /** The worker of the current subscription, running and stopped by nobody. */
  ghost predicate Serves(s: State, id: nat) {
    && Current(s.slot, s.controller) == Some(id) && !Targets(s.controller)
    && id in s.workers && (s.workers[id].pc.Waiting? || s.workers[id].pc.Sending?)
  }

  function DeliveredAfter(w: Worker): Option<nat> {
    if w.pc.Sending? && w.pc.n.Snapshot? then Some(w.pc.n.snapshot.revision) else w.delivered
  }

  /** Takes and sends left to do if nothing new arrives. */
  function Work(m: Shared, w: Worker): nat {
    2 * |Owed(m, DeliveredAfter(w))| + (if w.pc.Sending? then 1 else 0)
  }

  predicate Serving(a: Action, id: nat) { a == Take(id) || a == SendOk(id) }

  lemma TakeWorks(m: Shared, id: nat, w: Worker)
    requires w.pc.Waiting? && !Ended(m, id, w) && Owed(m, w.delivered) != []
    ensures var c := Choose(m, id, w);
            Work(Taken(m, c), w.(pc := Chosen(m, c))) < Work(m, w) && Chosen(m, c).Sending?
  {
    TakeIsFirstOwed(m, id, w);
  }

  /** A serving worker is never stuck: it has caught up or it can take its next step, which
      brings it nearer and drops nothing. */
  lemma ServingStep(s: State, id: nat)
    requires Inv(s) && Serves(s, id) && !Quiescent(s)
    ensures var a := if s.workers[id].pc.Waiting? then Take(id) else SendOk(id);
            && Enabled(s, a) && Serves(Step(s, a), id)
            && Work(Step(s, a).shared, Step(s, a).workers[id]) < Work(s.shared, s.workers[id])
            && Drops(Step(s, a).history.settled) == Drops(s.history.settled)
            && Step(s, a).history.observed == s.history.observed
  {
    var m, w := s.shared, s.workers[id];
    assert Live(s.workers, id);
    if w.pc.Waiting? {
      TakeIsFirstOwed(m, id, w);
      TakeWorks(m, id, w);
    } else if w.pc.n.Other? {
      SettledSnoc(s.history.settled, Settled(w.pc.n.event, true));
    }
  }

  lemma BlockedIsQuiescent(s: State, id: nat)
    requires Inv(s) && Serves(s, id) && !Enabled(s, Take(id)) && !Enabled(s, SendOk(id))
    ensures Quiescent(s)
  {
    assert Live(s.workers, id);
    TakeIsFirstOwed(s.shared, id, s.workers[id]);
  }

  /** With nothing new arriving and every send going through, however the worker's steps are
      taken: there are at most `Work` of them, they drop nothing, and where they end the
      subscriber has caught up. */
  lemma {:induction false} WorkerCatchesUp(s: State, actions: seq<Action>, id: nat)
    requires Inv(s) && Serves(s, id) && ValidRun(s, actions) && forall i :: 0 <= i < |actions| ==> Serving(actions[i], id)
    ensures var r := Run(s, actions);
            && |actions| <= Work(s.shared, s.workers[id])
            && Inv(r) && Serves(r, id) && Drops(r.history.settled) == Drops(s.history.settled)
            && r.history.observed == s.history.observed
            && (!Enabled(r, Take(id)) && !Enabled(r, SendOk(id)) ==> Quiescent(r))
    decreases |actions|
  {
    if actions == [] {
      if !Enabled(s, Take(id)) && !Enabled(s, SendOk(id)) { BlockedIsQuiescent(s, id); }
    } else {
      assert Serving(actions[0], id);
      QuiescentIsBlocked(s, id);
      ServingStep(s, id);
      StepKeepsInv(s, actions[0]);
      forall i | 0 <= i < |actions[1..]| ensures Serving(actions[1..][i], id) { assert Serving(actions[i + 1], id); }
      WorkerCatchesUp(Step(s, actions[0]), actions[1..], id);
    }
  }

  lemma QuiescentIsBlocked(s: State, id: nat)
    requires Serves(s, id)
    ensures Quiescent(s) ==> !Enabled(s, Take(id)) && !Enabled(s, SendOk(id))
  {
    TakeIsFirstOwed(s.shared, id, s.workers[id]);
  }

  /** And such a run to the end exists from everywhere. */
  lemma {:induction false} CatchUpExists(s: State, id: nat) returns (actions: seq<Action>)
    requires Inv(s) && Serves(s, id)
    ensures ValidRun(s, actions) && (forall i :: 0 <= i < |actions| ==> Serving(actions[i], id)) && Quiescent(Run(s, actions))
    decreases Work(s.shared, s.workers[id])
  {
    if Quiescent(s) {
      actions := [];
    } else {
      var a := if s.workers[id].pc.Waiting? then Take(id) else SendOk(id);
      ServingStep(s, id);
      StepKeepsInv(s, a);
      var rest := CatchUpExists(Step(s, a), id);
      actions := [a] + rest;
      RunCons(s, a, rest);
    }
  }

  lemma RunCons(s: State, a: Action, rest: seq<Action>)
    requires Enabled(s, a) && ValidRun(Step(s, a), rest)
    ensures ValidRun(s, [a] + rest) && Run(s, [a] + rest) == Run(Step(s, a), rest)
  {
    assert ([a] + rest)[1..] == rest;
  }

  // -------------------------------------------------------- events before snapshots

  /** Event number `k` is parked or pending. */
  ghost predicate Waits(s: State, k: nat) {
    |s.history.settled| + |Held(CurrentPc(s))| <= k < |EventsOf(s.history.observed)|
  }

  ghost predicate WaitsThroughout(s: State, actions: seq<Action>, k: nat)
    requires ValidRun(s, actions)
    decreases |actions|
  {
    Waits(s, k) && (actions != [] ==> WaitsThroughout(Step(s, actions[0]), actions[1..], k))
  }

  function SnapshotSends(log: seq<Delivery>, id: nat): nat {
    if log == [] then 0
    else
      var last := log[|log| - 1];
      SnapshotSends(log[..|log| - 1], id) + (if last.id == id && last.n.Snapshot? then 1 else 0)
  }

  lemma SnapshotSendsSnoc(log: seq<Delivery>, d: Delivery, id: nat)
    ensures SnapshotSends(log + [d], id)
         == SnapshotSends(log, id) + (if d.id == id && d.n.Snapshot? then 1 else 0)
  {
    assert (log + [d])[..|log|] == log;
  }

  /** Snapshot sends a worker may still complete while an event waits. */
  function WorkerDebt(w: Worker): nat {
    if w.delivered.None? || (w.pc.Sending? && w.pc.n.Snapshot?) then 1 else 0
  }

  function Debt(workers: map<nat, Worker>, id: nat): nat {
    if id in workers then WorkerDebt(workers[id]) else 1
  }

  /** With an event waiting, only a fresh subscription takes a snapshot. */
  lemma TakeAddsNoDebt(m: Shared, id: nat, w: Worker)
    requires (m.failed.Some? || m.pending != []) && w.pc.Waiting? && Choose(m, id, w) != Block
    ensures WorkerDebt(w.(pc := Chosen(m, Choose(m, id, w)))) <= WorkerDebt(w)
  {}

  lemma WaitingMeansQueued(s: State, k: nat)
    requires QueueInv(s) && Waits(s, k)
    ensures s.shared.failed.Some? || s.shared.pending != []
  {
    assert |EventsOf(s.history.observed)| == |s.history.settled| + |Queue(CurrentPc(s), s.shared)|;
  }

  lemma SendPaysDebt(log: seq<Delivery>, workers: map<nat, Worker>, sender: nat, id: nat)
    requires sender in workers && workers[sender].pc.Sending?
    ensures SnapshotSends(log + [Delivery(sender, workers[sender].pc.n)], id) + Debt(workers[sender := AfterSend(workers[sender])], id)
         <= SnapshotSends(log, id) + Debt(workers, id)
  {
    SnapshotSendsSnoc(log, Delivery(sender, workers[sender].pc.n), id);
  }

  lemma WaitingStep(s: State, a: Action, k: nat, id: nat)
    requires ControlInv(s) && QueueInv(s) && Enabled(s, a) && Waits(s, k)
    ensures SnapshotSends(Step(s, a).history.log, id) + Debt(Step(s, a).workers, id)
         <= SnapshotSends(s.history.log, id) + Debt(s.workers, id)
  {
    if a.SendOk? {
      SendPaysDebt(s.history.log, s.workers, a.id, id);
    } else if a.Take? {
      WaitingMeansQueued(s, k);
      TakeAddsNoDebt(s.shared, a.id, s.workers[a.id]);
    }
  }

  /** However many snapshots arrive, while an event waits in the queue no subscription
      completes more than one snapshot send. */
  lemma {:induction false} EventsOvertakeSnapshots(s: State, actions: seq<Action>, k: nat, id: nat)
    requires Inv(s) && ValidRun(s, actions)
    ensures WaitsThroughout(s, actions, k) ==>
              SnapshotSends(Run(s, actions).history.log, id) + Debt(Run(s, actions).workers, id)
              <= SnapshotSends(s.history.log, id) + Debt(s.workers, id)
              <= SnapshotSends(s.history.log, id) + 1
    decreases |actions|
  {
    if actions != [] && WaitsThroughout(s, actions, k) {
      WaitingStep(s, actions[0], k, id);
      StepKeepsInv(s, actions[0]);
      EventsOvertakeSnapshots(Step(s, actions[0]), actions[1..], k, id);
    }
  }

  // ------------------------------------------------- the state behind the mutex

  datatype BridgeError = WorkerStopped | QueueOverflow | InvalidStateTransition | ResourceLimitExceeded

  datatype Activation = Activated(id: nat) | Refused(error: BridgeError)

  /** `NotificationState` as the guarded object its critical sections update in place. */
  class NotificationState {
    var latest: Option<CoreSnapshot>
    var failed: Option<Event>
    var pending: seq<Event>
    var active: Option<nat>
    var nextId: nat
    var deliveryFailure: bool
    var closed: bool

    ghost function Value(): Shared
      reads this
    {
      Shared(latest, failed, pending, active, nextId, deliveryFailure, closed)
    }

    constructor ()
      ensures Value() == Initial().shared
    {
      latest, failed, pending, active := None, None, [], None;
      nextId, deliveryFailure, closed := 0, false, false;
    }

    /** The critical section of `on_notification`. */
    method OnNotification(n: Notification) returns (error: Option<BridgeError>)
      modifies this
      ensures error.None? <==> Accepts(old(Value()), n)
      ensures error == Some(WorkerStopped) <==> old(closed)
      ensures error == Some(QueueOverflow) <==> !old(closed) && n.Other? && |old(pending)| >= CAPACITY
      ensures Value() == Observed(old(Value()), n)
    {
      if closed { return Some(WorkerStopped); }
      match n
      case Snapshot(snapshot) =>
        if latest.None? || snapshot.revision > latest.value.revision {
          latest := Some(snapshot);
        }
        error := None;
      case Other(event) =>
        if |pending| >= CAPACITY { return Some(QueueOverflow); }
        pending := pending + [event];
        error := None;
    }

    /** The tests of the `wait_for_next` loop, in order. */
    method TakeChosen(id: nat, w: Worker) returns (next: Option<WorkerPc>)
      requires w.pc.Waiting?
      modifies this
      ensures next == (var c := Choose(old(Value()), id, w);
                       if c == Block then None else Some(Chosen(old(Value()), c)))
      ensures Value() == Taken(old(Value()), Choose(old(Value()), id, w))
    {
      if w.stop || closed || active != Some(id) { return Some(Done); }
      if w.delivered.None? {
        var snapshot := NewerSnapshot(latest, w.delivered);
        if snapshot.Some? { return Some(Sending(Snapshot(snapshot.value))); }
      }
      if failed.Some? {
        next := Some(Sending(Other(failed.value)));
        failed := None;
        return;
      }
      if pending != [] {
        next := Some(Sending(Other(pending[0])));
        pending := pending[1..];
        return;
      }
      var snapshot := NewerSnapshot(latest, w.delivered);
      next := if snapshot.Some? then Some(Sending(Snapshot(snapshot.value))) else None;
    }

    /** One pass of the `wait_for_next` loop; `None` when the worker must wait. */
    method TakeNext(id: nat, w: Worker) returns (next: Option<WorkerPc>)
      requires w.pc.Waiting?
      modifies this
      ensures next == Some(Done) <==> Ended(old(Value()), id, w)
      ensures next.None? <==> !Ended(old(Value()), id, w) && Owed(old(Value()), w.delivered) == []
      ensures next.Some? && next != Some(Done) ==> next == Some(Sending(Owed(old(Value()), w.delivered)[0]))
      ensures EventsOwed(Value())
              == if next.Some? && Held(next.value) != [] then EventsOwed(old(Value()))[1..] else EventsOwed(old(Value()))
      ensures Value() == old(Value()).(failed := failed, pending := pending)
    {
      TakeIsFirstOwed(Value(), id, w);
      next := TakeChosen(id, w);
    }

    /** `record_delivery_failure`; the precondition is what its assertion demands. */
    method RecordDeliveryFailure(id: nat, n: Notification)
      requires FailureAsserts(Value(), id, n)
      modifies this
      ensures Value() == FailureRecorded(old(Value()), id, n)
    {
      if active != Some(id) { return; }
      if n.Other? {
        assert failed.None?;
        failed := Some(n.event);
      }
      deliveryFailure := true;
      active := None;
    }

    method ClearActiveSubscription(id: nat)
      modifies this
      ensures Value() == ActiveCleared(old(Value()), id)
      ensures active != Some(id) && (old(active) != Some(id) ==> active == old(active))
    {
      if active == Some(id) { active := None; }
    }

    /** The critical section of `attach_sink`. */
    method ActivateNext() returns (r: Activation)
      modifies this
      ensures r.Activated? <==> CanActivate(old(Value()))
      ensures Value() == if r.Activated? then Activate(old(Value())) else old(Value())
      ensures r.Activated? ==> active == Some(r.id) && r.id == old(nextId) + 1 <= U64_MAX
      ensures r == Refused(WorkerStopped) <==> old(closed)
      ensures r == Refused(InvalidStateTransition) <==> !old(closed) && old(latest).None?
      ensures r == Refused(ResourceLimitExceeded) <==> !old(closed) && old(latest).Some? && old(nextId) >= U64_MAX
    {
      if closed { return Refused(WorkerStopped); }
      if latest.None? { return Refused(InvalidStateTransition); }
      if nextId >= U64_MAX { return Refused(ResourceLimitExceeded); }
      nextId := nextId + 1;
      deliveryFailure := false;
      active := Some(nextId);
      r := Activated(nextId);
    }

    /** The critical section of `shutdown`. */
    method Close()
      modifies this
      ensures Value() == BridgeClosed(old(Value()))
    {
      closed := true;
      active := None;
    }
  }
}
