/**
 The playlist consumer protocol: any number of `next_frame` and `cancel` calls share two
 flags and a mutex that guards the packetizer handle. `next_frame` polls while holding
 the mutex; `cancel` raises the flags first and only then waits for the mutex.

 Every flag access, lock acquisition, receive and join is one `Step`. The packetizer is
 an opaque producer: it sends some frames into a channel and then stops.
 */
module HostPlaylist {
  import opened CoreNotifications

  /** `ProtocolFrame`: only audio and track boundaries can be handed to the caller. */
  datatype Frame = Supported(payload: int) | Unsupported(payload: int)

  datatype Received = GotFrame(frame: Frame) | TimedOut | Disconnected

  /** Program counters; from `NextChecking` and `CancelTaking` on the call holds the lock. */
  datatype Pc =
    | NextEntered
    | NextLocking
    | NextChecking
    | Polling
    | Receiving
    | Deciding(received: Received)
    | Delivering(frame: Frame)
    | Closing
    | Joining
    | CancelEntered
    | CancelSignalling
    | CancelLocking
    | CancelTaking

  datatype Return =
    | FrameReturned(frame: Frame)
    | UnsupportedReturned(frame: Frame)
    | NothingReturned
    | EndReturned
    | JoinErrorReturned
    | CancelReturned(ok: bool)

  /** The shared fields of the streamer. */
  datatype Shared = Shared(closed: bool, cancellation: bool, handle: bool, lock: Option<nat>)

  /** `sent` is everything the packetizer put into the channel, `taken` what receives
      removed from it, `log` every call's result in the order the calls released the lock
      (or left without taking it), which is when the result is settled,
      `consumed` how the handle was joined or cancelled, and `cancelled` whether any
      `cancel` has raised the flag. */
  datatype History = History(
    sent: seq<Frame>, taken: seq<Frame>, log: seq<Return>, consumed: seq<Outcome>, cancelled: bool)

  /** What became of the packetizer when a call took its handle. */
  datatype Outcome = Joined(ok: bool) | CancelJoined(ok: bool)

  datatype State = State(shared: Shared, finished: bool, calls: map<nat, Pc>, history: History)

  datatype Action =
    | Send(frame: Frame)
    | Finish
    | CallNext(t: nat)
    | CallCancel(t: nat)
    | Advance(t: nat, received: Received, expired: bool, joined: bool)

  function Initial(): State {
    State(Shared(false, false, true, None), false, map[], History([], [], [], [], false))
  }

  predicate HoldsLock(pc: Pc) {
    !pc.NextEntered? && !pc.NextLocking? && !pc.CancelEntered? && !pc.CancelSignalling? && !pc.CancelLocking?
  }

  /** `recv_timeout` may time out at any moment, returns the oldest frame if there is
      one, and reports a disconnect only when the channel is drained for good. */
  predicate MayReceive(s: State, r: Received) {
    var h := s.history;
    match r
    case GotFrame(f) => |h.taken| < |h.sent| && h.sent[|h.taken|] == f
    case TimedOut => true
    case Disconnected => s.finished && |h.taken| >= |h.sent|
  }

  predicate Enabled(s: State, a: Action) {
    match a
    case Send(_) => !s.finished
    case Finish => !s.finished
    case CallNext(t) => t !in s.calls
    case CallCancel(t) => t !in s.calls
    case Advance(t, received, _, _) =>
      && t in s.calls
      && (s.calls[t].NextLocking? || s.calls[t].CancelLocking? ==> s.shared.lock.None?)
      && (s.calls[t].Receiving? ==> MayReceive(s, received))
  }

  /** What one step of a call does: the shared fields and history it leaves, and where it
      stands afterwards, `None` once it has returned. */
  datatype Move = Move(shared: Shared, history: History, next: Option<Pc>)

  function Go(m: Shared, h: History, pc: Pc): Move { Move(m, h, Some(pc)) }

  function Leave(m: Shared, h: History, r: Return): Move { Move(m, h.(log := h.log + [r]), None) }

  function ToFfi(f: Frame): Return {
    if f.Supported? then FrameReturned(f) else UnsupportedReturned(f)
  }

  function Decide(m: Shared, h: History, received: Received, expired: bool): Move {
    if m.closed then Leave(m, h, NothingReturned)
    else
      match received
      case GotFrame(f) => Go(m, h, Delivering(f))
      case TimedOut => if expired then Leave(m, h, NothingReturned) else Go(m, h, Polling)
      case Disconnected => Go(m, h, Closing)
  }

  /** Takes the handle out of the mutex and joins or cancels the packetizer. */
  function Consume(m: Shared, h: History, o: Outcome, r: Return): Move {
    Leave(m.(handle := false), h.(consumed := h.consumed + [o]), r)
  }

  /** A step of a call that waits for nobody: before the lock, or holding it. */
  function MoveOf(m: Shared, h: History, pc: Pc, received: Received, expired: bool, joined: bool): Move {
    match pc
    case NextEntered => if m.closed then Leave(m, h, NothingReturned) else Go(m, h, NextLocking)
    case NextLocking => Go(m, h, NextChecking)
    case NextChecking => if m.closed || !m.handle then Leave(m, h, NothingReturned) else Go(m, h, Polling)
    case Polling => if m.closed then Leave(m, h, NothingReturned) else Go(m, h, Receiving)
    case Receiving =>
      Go(m, if received.GotFrame? then h.(taken := h.taken + [received.frame]) else h, Deciding(received))
    case Deciding(outcome) => Decide(m, h, outcome, expired)
    case Delivering(f) => Leave(m, h, ToFfi(f))
    case Closing => Go(m.(closed := true), h, Joining)
    case Joining =>
      if !m.handle then Leave(m, h, NothingReturned)
      else Consume(m, h, Joined(joined), if joined then EndReturned else JoinErrorReturned)
    case CancelEntered => Go(m.(closed := true), h.(cancelled := true), CancelSignalling)
    case CancelSignalling => Go(m.(cancellation := true), h, CancelLocking)
    case CancelLocking => Go(m, h, CancelTaking)
    case CancelTaking =>
      if !m.handle then Leave(m, h, CancelReturned(true)) else Consume(m, h, CancelJoined(joined), CancelReturned(joined))
  }

  /** The lock is taken on leaving a locking phase and dropped with the returning call. */
  function LockAfter(lock: Option<nat>, t: nat, pc: Pc, next: Option<Pc>): Option<nat> {
    if pc.NextLocking? || pc.CancelLocking? then Some(t)
    else if next.None? && lock == Some(t) then None
    else lock
  }

  function AdvanceCall(s: State, t: nat, received: Received, expired: bool, joined: bool): State
    requires t in s.calls
  {
    var pc := s.calls[t];
    var v := MoveOf(s.shared, s.history, pc, received, expired, joined);
    State(v.shared.(lock := LockAfter(s.shared.lock, t, pc, v.next)),
          s.finished,
          if v.next.Some? then s.calls[t := v.next.value] else s.calls - {t},
          v.history)
  }

  function Step(s: State, a: Action): State
    requires Enabled(s, a)
  {
    match a
    case Send(f) => s.(history := s.history.(sent := s.history.sent + [f]))
    case Finish => s.(finished := true)
    case CallNext(t) => s.(calls := s.calls[t := NextEntered])
    case CallCancel(t) => s.(calls := s.calls[t := CancelEntered])
    case Advance(t, received, expired, joined) => AdvanceCall(s, t, received, expired, joined)
  }

  predicate ValidRun(s: State, actions: seq<Action>)
    decreases |actions|
  {
    actions == [] || (Enabled(s, actions[0]) && ValidRun(Step(s, actions[0]), actions[1..]))
  }

  function Run(s: State, actions: seq<Action>): State
    requires ValidRun(s, actions)
    decreases |actions|
  {
    if actions == [] then s else Run(Step(s, actions[0]), actions[1..])
  }

  // ---------------------------------------------------------------------- the lock

  ghost predicate LockInv(calls: map<nat, Pc>, lock: Option<nat>) {
    && (forall t: nat :: t in calls && HoldsLock(calls[t]) ==> lock == Some(t))
    && (lock.Some? ==> lock.value in calls && HoldsLock(calls[lock.value]))
  }

  /** A cancel past its first store has raised the flag for good. */
  ghost predicate FlagInv(calls: map<nat, Pc>, closed: bool) {
    forall t: nat :: t in calls && RaisedFlag(calls[t]) ==> closed
  }

  predicate RaisedFlag(pc: Pc) { pc.CancelSignalling? || pc.CancelLocking? || pc.CancelTaking? || pc.Joining? }

  // --------------------------------------------------------------- handle and results

  /** The call that holds the lock, if any; a free lock looks like a call that has not
      decided anything. */
  function Holder(s: State): Pc {
    if s.shared.lock.Some? && s.shared.lock.value in s.calls then s.calls[s.shared.lock.value] else NextChecking
  }

  /** Phases of `next_frame` between finding the handle present and consuming it. */
  predicate UsesHandle(pc: Pc) {
    pc.Polling? || pc.Receiving? || pc.Deciding? || pc.Delivering? || pc.Closing? || pc.Joining?
  }

  predicate IsFrame(r: Return) { r.FrameReturned? || r.UnsupportedReturned? }

  predicate IsEnd(r: Return) { r.EndReturned? || r.JoinErrorReturned? }

  predicate IsTerminal(r: Return) { IsEnd(r) || r.CancelReturned? }

  ghost predicate SomeTerminal(log: seq<Return>) {
    exists i :: 0 <= i < |log| && IsTerminal(log[i])
  }

  /** After the stream ended or any cancel returned, no call returns a frame or an end. */
  ghost predicate QuietAfterTerminal(log: seq<Return>) {
    forall i, j :: 0 <= i < j < |log| && IsTerminal(log[i]) ==> !IsFrame(log[j]) && !IsEnd(log[j])
  }

  function FramesReturned(log: seq<Return>): seq<Frame> {
    if log == [] then []
    else
      var last := log[|log| - 1];
      FramesReturned(log[..|log| - 1]) + (if IsFrame(last) then [last.frame] else [])
  }

  ghost predicate HandleOk(m: Shared, h: History, holder: Pc) {
    && |h.consumed| == (if m.handle then 0 else 1)
    && (!m.handle ==> m.closed)
    && (UsesHandle(holder) ==> m.handle)
    && (holder.Joining? || holder.CancelTaking? ==> m.closed)
    && (SomeTerminal(h.log) ==> !m.handle)
    && QuietAfterTerminal(h.log)
  }

  /** Frames come out in channel order; only a raised flag can make one vanish. */
  ghost predicate FramesOk(m: Shared, h: History, holder: Pc) {
    && h.taken <= h.sent
    && FramesReturned(h.log) <= h.taken
    && (match holder
        case Deciding(GotFrame(f)) => m.closed || FramesReturned(h.log) + [f] == h.taken
        case Delivering(f) => FramesReturned(h.log) + [f] == h.taken
        case _ => m.closed || FramesReturned(h.log) == h.taken)
  }

  ghost predicate Inv(s: State) {
    && LockInv(s.calls, s.shared.lock)
    && FlagInv(s.calls, s.shared.closed)
    && HandleOk(s.shared, s.history, Holder(s))
    && FramesOk(s.shared, s.history, Holder(s))
  }

  lemma InitialInv()
    ensures Inv(Initial())
  {}

  lemma FramesReturnedSnoc(log: seq<Return>, r: Return)
    ensures FramesReturned(log + [r]) == FramesReturned(log) + (if IsFrame(r) then [r.frame] else [])
  {
    assert (log + [r])[..|log|] == log;
  }

  // ----------------------------------------------------- calls, lock and flag

  ghost predicate CallsOk(calls: map<nat, Pc>, lock: Option<nat>, closed: bool) {
    LockInv(calls, lock) && FlagInv(calls, closed)
  }

  lemma CallMoves(calls: map<nat, Pc>, lock: Option<nat>, closed: bool, t: nat, pc: Pc, closed': bool)
    requires CallsOk(calls, lock, closed) && (closed ==> closed')
    requires HoldsLock(pc) <==> t in calls && HoldsLock(calls[t])
    requires RaisedFlag(pc) ==> closed'
    ensures CallsOk(calls[t := pc], lock, closed')
  {}

  lemma CallLocks(calls: map<nat, Pc>, closed: bool, t: nat, pc: Pc)
    requires CallsOk(calls, None, closed) && HoldsLock(pc) && (RaisedFlag(pc) ==> closed)
    ensures CallsOk(calls[t := pc], Some(t), closed)
  {}

  lemma CallReturns(calls: map<nat, Pc>, lock: Option<nat>, closed: bool, t: nat)
    requires CallsOk(calls, lock, closed) && t in calls
    ensures CallsOk(calls - {t}, if lock == Some(t) then None else lock, closed)
  {}

  /** The flag is never lowered, and only a locking phase leads into the locked part. */
  lemma MoveShape(m: Shared, h: History, pc: Pc, received: Received, expired: bool, joined: bool)
    requires RaisedFlag(pc) ==> m.closed
    ensures var v := MoveOf(m, h, pc, received, expired, joined);
            && (m.closed ==> v.shared.closed) && v.shared.lock == m.lock
            && (v.next.None? ==> v.shared.closed == m.closed)
            && (v.next.Some? ==>
                  && (RaisedFlag(v.next.value) ==> v.shared.closed)
                  && (HoldsLock(v.next.value) <==> HoldsLock(pc) || pc.NextLocking? || pc.CancelLocking?))
            && (pc.NextLocking? || pc.CancelLocking? ==> v == Go(m, h, if pc.NextLocking? then NextChecking else CancelTaking))
  {}

  lemma AdvanceCalls(s: State, a: Action)
    requires CallsOk(s.calls, s.shared.lock, s.shared.closed) && Enabled(s, a) && a.Advance?
    ensures CallsOk(Step(s, a).calls, Step(s, a).shared.lock, Step(s, a).shared.closed)
  {
    var c, m, pc := s.calls, s.shared, s.calls[a.t];
    var v := MoveOf(m, s.history, pc, a.received, a.expired, a.joined);
    MoveShape(m, s.history, pc, a.received, a.expired, a.joined);
    if v.next.None? {
      CallReturns(c, m.lock, m.closed, a.t);
    } else if pc.NextLocking? || pc.CancelLocking? {
      CallLocks(c, m.closed, a.t, v.next.value);
    } else {
      CallMoves(c, m.lock, m.closed, a.t, v.next.value, v.shared.closed);
    }
  }

  lemma StepCalls(s: State, a: Action)
    requires CallsOk(s.calls, s.shared.lock, s.shared.closed) && Enabled(s, a)
    ensures CallsOk(Step(s, a).calls, Step(s, a).shared.lock, Step(s, a).shared.closed)
  {
    if a.CallNext? || a.CallCancel? {
      CallMoves(s.calls, s.shared.lock, s.shared.closed, a.t, Step(s, a).calls[a.t], s.shared.closed);
    } else if a.Advance? {
      AdvanceCalls(s, a);
    }
  }

  // ------------------------------------------------------------------- results

  ghost predicate ResultsOk(m: Shared, h: History, holder: Pc) {
    HandleOk(m, h, holder) && FramesOk(m, h, holder)
  }

  lemma TerminalSnoc(log: seq<Return>, r: Return)
    requires QuietAfterTerminal(log) && (SomeTerminal(log) ==> !IsFrame(r) && !IsEnd(r))
    ensures QuietAfterTerminal(log + [r])
    ensures SomeTerminal(log + [r]) ==> SomeTerminal(log) || IsTerminal(r)
  {
    if SomeTerminal(log + [r]) && !IsTerminal(r) {
      var i :| 0 <= i < |log + [r]| && IsTerminal((log + [r])[i]);
      assert IsTerminal(log[i]);
    }
  }

  /** Phases in which the holder carries no frame. */
  predicate CarriesNothing(pc: Pc) { !pc.Delivering? && !(pc.Deciding? && pc.received.GotFrame?) }

  /** A result that is neither a frame nor an end, by the holder or by anyone else. */
  lemma QuietReturn(m: Shared, h: History, holder: Pc, holder': Pc, r: Return)
    requires ResultsOk(m, h, holder) && !IsFrame(r) && !IsTerminal(r)
    requires holder' == holder || (holder'.NextChecking? && (CarriesNothing(holder) || m.closed))
    ensures ResultsOk(m, h.(log := h.log + [r]), holder')
  {
    TerminalSnoc(h.log, r);
    FramesReturnedSnoc(h.log, r);
  }

  lemma FrameReturn(m: Shared, h: History, holder: Pc)
    requires ResultsOk(m, h, holder) && holder.Delivering?
    ensures ResultsOk(m, h.(log := h.log + [ToFfi(holder.frame)]), NextChecking)
  {
    TerminalSnoc(h.log, ToFfi(holder.frame));
    FramesReturnedSnoc(h.log, ToFfi(holder.frame));
  }

  lemma ConsumeReturn(m: Shared, h: History, holder: Pc, o: Outcome, r: Return)
    requires ResultsOk(m, h, holder) && m.handle && IsTerminal(r) && (holder.Joining? || holder.CancelTaking?)
    ensures ResultsOk(m.(handle := false), h.(consumed := h.consumed + [o], log := h.log + [r]), NextChecking)
  {
    TerminalSnoc(h.log, r);
    FramesReturnedSnoc(h.log, r);
  }

  lemma LateCancelReturn(m: Shared, h: History, holder: Pc, r: Return)
    requires ResultsOk(m, h, holder) && !m.handle && r.CancelReturned? && holder.CancelTaking?
    ensures ResultsOk(m, h.(log := h.log + [r]), NextChecking)
  {
    TerminalSnoc(h.log, r);
    FramesReturnedSnoc(h.log, r);
  }

  /** The lock and the cancellation flag do not matter, and closing only loosens. */
  lemma FlagsLoosen(m: Shared, h: History, holder: Pc, m': Shared)
    requires ResultsOk(m, h, holder) && m'.handle == m.handle && (m.closed ==> m'.closed)
    ensures ResultsOk(m', h, holder)
  {}

  lemma ReceiveFrame(m: Shared, h: History, f: Frame)
    requires ResultsOk(m, h, Receiving) && |h.taken| < |h.sent| && h.sent[|h.taken|] == f
    ensures ResultsOk(m, h.(taken := h.taken + [f]), Deciding(GotFrame(f)))
  {}

  /** Moves inside the function that neither receive nor return. */
  lemma HolderGoesOn(m: Shared, h: History, pc: Pc, m': Shared, pc': Pc)
    requires ResultsOk(m, h, pc) && m'.handle == m.handle && (m.closed ==> m'.closed)
    requires UsesHandle(pc') && m.handle && (pc'.Joining? ==> m'.closed)
    requires if CarriesNothing(pc) then CarriesNothing(pc')
             else pc.Deciding? && !m.closed && pc' == Delivering(pc.received.frame)
    ensures ResultsOk(m', h, pc')
  {}

  lemma SendKeeps(m: Shared, h: History, holder: Pc, f: Frame)
    requires ResultsOk(m, h, holder)
    ensures ResultsOk(m, h.(sent := h.sent + [f]), holder)
  {}

  // ------------------------------------------------------------------ one step

  /** Where the lock stands for once the holder has made this move. */
  function HolderAfter(v: Move): Pc { if v.next.Some? then v.next.value else NextChecking }

  /** Every step of the call that holds the lock. */
  lemma HolderResults(m: Shared, h: History, pc: Pc, received: Received, expired: bool, joined: bool)
    requires ResultsOk(m, h, pc) && HoldsLock(pc)
    requires pc.Receiving? && received.GotFrame? ==> |h.taken| < |h.sent| && h.sent[|h.taken|] == received.frame
    ensures var v := MoveOf(m, h, pc, received, expired, joined);
            ResultsOk(v.shared, v.history, HolderAfter(v))
  {
    var v := MoveOf(m, h, pc, received, expired, joined);
    if v.next.Some? {
      if pc.Receiving? && received.GotFrame? { ReceiveFrame(m, h, received.frame); }
      else { HolderGoesOn(m, h, pc, v.shared, v.next.value); }
    } else if pc.Delivering? {
      FrameReturn(m, h, pc);
    } else if pc.Joining? {
      ConsumeReturn(m, h, pc, Joined(joined), if joined then EndReturned else JoinErrorReturned);
    } else if pc.CancelTaking? && m.handle {
      ConsumeReturn(m, h, pc, CancelJoined(joined), CancelReturned(joined));
    } else if pc.CancelTaking? {
      LateCancelReturn(m, h, pc, CancelReturned(true));
    } else {
      QuietReturn(m, h, pc, NextChecking, NothingReturned);
    }
  }

  /** Every step of a call that does not hold the lock, whoever holds it. */
  lemma OutsideResults(m: Shared, h: History, holder: Pc, pc: Pc, received: Received, expired: bool, joined: bool)
    requires ResultsOk(m, h, holder) && !HoldsLock(pc)
    requires pc.NextLocking? || pc.CancelLocking? ==> holder == NextChecking && (pc.CancelLocking? ==> m.closed)
    ensures var v := MoveOf(m, h, pc, received, expired, joined);
            ResultsOk(v.shared, v.history, if pc.NextLocking? || pc.CancelLocking? then HolderAfter(v) else holder)
  {
    var v := MoveOf(m, h, pc, received, expired, joined);
    if v.next.None? {
      QuietReturn(m, h, holder, holder, NothingReturned);
    } else {
      FlagsLoosen(m, h, holder, v.shared);
    }
  }

  /** Who holds the lock after a step. */
  lemma HolderMoves(s: State, a: Action)
    requires LockInv(s.calls, s.shared.lock) && Enabled(s, a) && a.Advance?
    ensures var pc := s.calls[a.t];
            var v := MoveOf(s.shared, s.history, pc, a.received, a.expired, a.joined);
            && (HoldsLock(pc) ==> Holder(s) == pc)
            && (pc.NextLocking? || pc.CancelLocking? ==> Holder(s) == NextChecking)
            && Holder(Step(s, a)) == if HoldsLock(pc) || pc.NextLocking? || pc.CancelLocking? then HolderAfter(v) else Holder(s)
  {
    var pc := s.calls[a.t];
    assert HoldsLock(pc) <==> s.shared.lock == Some(a.t);
  }

  lemma AdvanceResults(s: State, a: Action)
    requires Inv(s) && Enabled(s, a) && a.Advance?
    ensures ResultsOk(Step(s, a).shared, Step(s, a).history, Holder(Step(s, a)))
  {
    var m, h, r, pc := s.shared, s.history, Step(s, a), s.calls[a.t];
    HolderMoves(s, a);
    if HoldsLock(pc) {
      HolderResults(m, h, pc, a.received, a.expired, a.joined);
    } else {
      OutsideResults(m, h, Holder(s), pc, a.received, a.expired, a.joined);
    }
    FlagsLoosen(MoveOf(m, h, pc, a.received, a.expired, a.joined).shared, r.history, Holder(r), r.shared);
  }

  lemma StepKeepsInv(s: State, a: Action)
    requires Inv(s) && Enabled(s, a)
    ensures Inv(Step(s, a))
  {
    StepCalls(s, a);
    if a.Send? {
      SendKeeps(s.shared, s.history, Holder(s), a.frame);
      assert Holder(Step(s, a)) == Holder(s);
    } else if !a.Advance? {
      assert Holder(Step(s, a)) == Holder(s);
    } else {
      AdvanceResults(s, a);
    }
  }

  lemma {:induction false} RunKeepsInv(s: State, actions: seq<Action>)
    requires Inv(s) && ValidRun(s, actions)
    ensures Inv(Run(s, actions))
    decreases |actions|
  {
    if actions != [] {
      StepKeepsInv(s, actions[0]);
      RunKeepsInv(Step(s, actions[0]), actions[1..]);
    }
  }

  // ------------------------------------------------------------------ main result

  function SupportedOf(frames: seq<Frame>): seq<Frame> {
    if frames == [] then []
    else
      var last := frames[|frames| - 1];
      SupportedOf(frames[..|frames| - 1]) + (if last.Supported? then [last] else [])
  }

  lemma {:induction false} SupportedPrefix(a: seq<Frame>, b: seq<Frame>)
    requires a <= b
    ensures SupportedOf(a) <= SupportedOf(b)
  {
    if a != b { SupportedPrefix(a, b[..|b| - 1]); }
  }

  function SupportedReturned(log: seq<Return>): seq<Frame> {
    if log == [] then []
    else
      var last := log[|log| - 1];
      SupportedReturned(log[..|log| - 1]) + (if last.FrameReturned? then [last.frame] else [])
  }

  lemma SupportedAppend(a: seq<Frame>, f: Frame)
    ensures SupportedOf(a + [f]) == SupportedOf(a) + (if f.Supported? then [f] else [])
  {
    assert (a + [f])[..|a|] == a;
  }

  predicate ConvertedFrames(log: seq<Return>) {
    forall i :: 0 <= i < |log| && IsFrame(log[i]) ==> log[i] == ToFfi(log[i].frame)
  }

  lemma MoveLogs(m: Shared, h: History, pc: Pc, received: Received, expired: bool, joined: bool)
    requires ConvertedFrames(h.log)
    ensures ConvertedFrames(MoveOf(m, h, pc, received, expired, joined).history.log)
  {}

  lemma StepConverts(s: State, a: Action)
    requires Enabled(s, a) && ConvertedFrames(s.history.log)
    ensures ConvertedFrames(Step(s, a).history.log)
  {
    if a.Advance? { MoveLogs(s.shared, s.history, s.calls[a.t], a.received, a.expired, a.joined); }
  }

  lemma {:induction false} RunConverts(s: State, actions: seq<Action>)
    requires ValidRun(s, actions) && ConvertedFrames(s.history.log)
    ensures ConvertedFrames(Run(s, actions).history.log)
    decreases |actions|
  {
    if actions != [] {
      StepConverts(s, actions[0]);
      RunConverts(Step(s, actions[0]), actions[1..]);
    }
  }

  lemma {:induction false} SupportedReturnedIs(log: seq<Return>)
    requires ConvertedFrames(log)
    ensures SupportedReturned(log) == SupportedOf(FramesReturned(log))
  {
    if log != [] {
      var front, last := log[..|log| - 1], log[|log| - 1];
      SupportedReturnedIs(front);
      if IsFrame(last) { SupportedAppend(FramesReturned(front), last.frame); }
      else { assert FramesReturned(log) == FramesReturned(front); }
    }
  }

  /** Under every interleaving of any number of `next_frame` and `cancel` calls: the
      packetizer handle is consumed at most once; every frame popped and handed out is
      the next one in channel order, so the audio and boundary frames delivered are a
      prefix of those sent; and once the stream ended or any cancel returned, no call
      returns a frame or a second end. */
  lemma PlaylistProtocol(actions: seq<Action>)
    requires ValidRun(Initial(), actions)
    ensures var h := Run(Initial(), actions).history;
            && |h.consumed| <= 1
            && FramesReturned(h.log) <= h.sent
            && SupportedReturned(h.log) <= SupportedOf(h.sent)
            && QuietAfterTerminal(h.log)
  {
    InitialInv();
    RunKeepsInv(Initial(), actions);
    RunConverts(Initial(), actions);
    var h := Run(Initial(), actions).history;
    SupportedReturnedIs(h.log);
    SupportedPrefix(FramesReturned(h.log), h.sent);
  }

  // -------------------------------------------------------- what the end stands for

  /** The frame the holder has received but not yet returned. */
  function HeldBy(holder: Pc): seq<Frame> {
    if holder.Delivering? then [holder.frame]
    else if holder.Deciding? && holder.received.GotFrame? then [holder.received.frame]
    else []
  }

  /** The holder has seen the channel disconnect. */
  predicate AtEnd(holder: Pc) {
    holder.Closing? || holder.Joining? || (holder.Deciding? && holder.received.Disconnected?)
  }

  /** Without a cancel, every frame taken was returned or is in hand, the flag is up only
      for the end of the stream, and the end is reached only with the channel drained. */
  ghost predicate CompleteOk(m: Shared, h: History, holder: Pc, finished: bool) {
    h.cancelled ||
    (&& FramesReturned(h.log) + HeldBy(holder) == h.taken
     && (m.closed ==> holder.Joining? || !m.handle)
     && (AtEnd(holder) || !m.handle ==> finished && h.taken == h.sent))
  }

  ghost predicate Complete(s: State) { CompleteOk(s.shared, s.history, Holder(s), s.finished) }

  lemma QuietComplete(m: Shared, h: History, holder: Pc, finished: bool, r: Return)
    requires CompleteOk(m, h, holder, finished) && !IsFrame(r)
    ensures CompleteOk(m, h.(log := h.log + [r]), holder, finished)
  {
    FramesReturnedSnoc(h.log, r);
  }

  /** The holder leaves with the frame in its hands. */
  lemma FrameComplete(m: Shared, h: History, pc: Pc, finished: bool)
    requires CompleteOk(m, h, pc, finished) && pc.Delivering?
    ensures CompleteOk(m, h.(log := h.log + [ToFfi(pc.frame)]), NextChecking, finished)
  {
    FramesReturnedSnoc(h.log, ToFfi(pc.frame));
  }

  /** The holder leaves with empty hands, taking the packetizer handle with it or not. */
  lemma EmptyHandsComplete(m: Shared, h: History, pc: Pc, finished: bool, m': Shared, consumed: seq<Outcome>, r: Return)
    requires CompleteOk(m, h, pc, finished) && HeldBy(pc) == [] && !IsFrame(r)
    requires m'.closed == m.closed && if m'.handle then m.handle && !pc.Joining? else AtEnd(pc) || !m.handle
    ensures CompleteOk(m', h.(log := h.log + [r], consumed := consumed), NextChecking, finished)
  {
    FramesReturnedSnoc(h.log, r);
  }

  lemma HolderReturnsComplete(m: Shared, h: History, pc: Pc, finished: bool, received: Received, expired: bool, joined: bool)
    requires CompleteOk(m, h, pc, finished) && ResultsOk(m, h, pc) && HoldsLock(pc)
    requires MoveOf(m, h, pc, received, expired, joined).next.None?
    ensures var v := MoveOf(m, h, pc, received, expired, joined);
            CompleteOk(v.shared, v.history, NextChecking, finished)
  {
    var v := MoveOf(m, h, pc, received, expired, joined);
    if h.cancelled {
      assert v.history.cancelled;
    } else if pc.Delivering? {
      FrameComplete(m, h, pc, finished);
    } else {
      EmptyHandsComplete(m, h, pc, finished, v.shared, v.history.consumed, v.history.log[|h.log|]);
    }
  }

  lemma HolderMovesComplete(m: Shared, h: History, pc: Pc, finished: bool, received: Received, expired: bool, joined: bool)
    requires CompleteOk(m, h, pc, finished) && ResultsOk(m, h, pc) && HoldsLock(pc)
    requires pc.Receiving? && received.Disconnected? ==> finished && h.taken == h.sent
    requires MoveOf(m, h, pc, received, expired, joined).next.Some?
    ensures var v := MoveOf(m, h, pc, received, expired, joined);
            CompleteOk(v.shared, v.history, v.next.value, finished)
  {}

  lemma OutsideComplete(m: Shared, h: History, holder: Pc, finished: bool, pc: Pc, received: Received, expired: bool, joined: bool)
    requires CompleteOk(m, h, holder, finished) && !HoldsLock(pc)
    requires pc.NextLocking? || pc.CancelLocking? ==> holder == NextChecking
    ensures var v := MoveOf(m, h, pc, received, expired, joined);
            CompleteOk(v.shared, v.history, if pc.NextLocking? || pc.CancelLocking? then HolderAfter(v) else holder, finished)
  {
    if MoveOf(m, h, pc, received, expired, joined).next.None? { QuietComplete(m, h, holder, finished, NothingReturned); }
  }

  lemma StepComplete(s: State, a: Action)
    requires Inv(s) && Complete(s) && Enabled(s, a)
    ensures Complete(Step(s, a))
  {
    if !a.Advance? {
      assert Holder(Step(s, a)) == Holder(s);
    } else {
      var m, h, pc := s.shared, s.history, s.calls[a.t];
      HolderMoves(s, a);
      if !HoldsLock(pc) {
        OutsideComplete(m, h, Holder(s), s.finished, pc, a.received, a.expired, a.joined);
      } else if MoveOf(m, h, pc, a.received, a.expired, a.joined).next.None? {
        HolderReturnsComplete(m, h, pc, s.finished, a.received, a.expired, a.joined);
      } else {
        HolderMovesComplete(m, h, pc, s.finished, a.received, a.expired, a.joined);
      }
    }
  }

  lemma {:induction false} RunComplete(s: State, actions: seq<Action>)
    requires Inv(s) && Complete(s) && ValidRun(s, actions)
    ensures Complete(Run(s, actions))
    decreases |actions|
  {
    if actions != [] {
      StepKeepsInv(s, actions[0]);
      StepComplete(s, actions[0]);
      RunComplete(Step(s, actions[0]), actions[1..]);
    }
  }

  /** Unless some cancel raised the flag, nothing received is withheld, and an end (or the
      join error in its place) is returned only when every frame the packetizer ever sent
      has been returned before it. */
  lemma EndMeansComplete(actions: seq<Action>)
    requires ValidRun(Initial(), actions) && !Run(Initial(), actions).history.cancelled
    ensures var s := Run(Initial(), actions);
            && FramesReturned(s.history.log) + HeldBy(Holder(s)) == s.history.taken
            && ((exists i :: 0 <= i < |s.history.log| && IsEnd(s.history.log[i])) ==>
                  s.finished && FramesReturned(s.history.log) == s.history.sent)
  {
    InitialInv();
    RunKeepsInv(Initial(), actions);
    RunComplete(Initial(), actions);
    var s := Run(Initial(), actions);
    if i :| 0 <= i < |s.history.log| && IsEnd(s.history.log[i]) {
      assert IsTerminal(s.history.log[i]);
      assert HeldBy(Holder(s)) == [];
    }
  }

  // ------------------------------------------------------- the result of the one join

  /** A clean end stands for a join that succeeded, the join error for one that failed, and a
      failed cancel for a packetizer that a cancel stopped and that failed. */
  ghost predicate OutcomeOk(h: History) {
    && (EndReturned in h.log <==> h.consumed == [Joined(true)])
    && (JoinErrorReturned in h.log <==> h.consumed == [Joined(false)])
    && (CancelReturned(false) in h.log <==> h.consumed == [CancelJoined(false)])
  }

  predicate TellsOutcome(r: Return) { IsEnd(r) || r == CancelReturned(false) }

  lemma QuietOutcome(h: History, r: Return)
    requires OutcomeOk(h) && !TellsOutcome(r)
    ensures OutcomeOk(h.(log := h.log + [r]))
  {
    assert forall x :: x in h.log + [r] <==> x in h.log || x == r;
  }

  lemma TakenOutcome(h: History, r: Return, o: Outcome)
    requires OutcomeOk(h) && h.consumed == []
    requires match o case Joined(ok) => r == (if ok then EndReturned else JoinErrorReturned)
                     case CancelJoined(ok) => r == CancelReturned(ok)
    ensures OutcomeOk(h.(consumed := h.consumed + [o], log := h.log + [r]))
  {
    assert forall x :: x in h.log + [r] <==> x in h.log || x == r;
    assert h.consumed + [o] == [o];
    assert [o] == [Joined(true)] <==> o == Joined(true);
    assert [o] == [Joined(false)] <==> o == Joined(false);
    assert [o] == [CancelJoined(false)] <==> o == CancelJoined(false);
  }

  lemma MoveOutcome(m: Shared, h: History, pc: Pc, received: Received, expired: bool, joined: bool)
    requires OutcomeOk(h) && |h.consumed| == (if m.handle then 0 else 1)
    ensures OutcomeOk(MoveOf(m, h, pc, received, expired, joined).history)
  {
    var v := MoveOf(m, h, pc, received, expired, joined);
    if pc.Joining? && m.handle {
      TakenOutcome(h, if joined then EndReturned else JoinErrorReturned, Joined(joined));
    } else if pc.CancelTaking? && m.handle {
      TakenOutcome(h, CancelReturned(joined), CancelJoined(joined));
    } else if v.next.None? {
      QuietOutcome(h, v.history.log[|h.log|]);
    }
  }

  lemma {:induction false} RunOutcome(s: State, actions: seq<Action>)
    requires Inv(s) && OutcomeOk(s.history) && ValidRun(s, actions)
    ensures OutcomeOk(Run(s, actions).history)
    decreases |actions|
  {
    if actions != [] {
      var a := actions[0];
      if a.Advance? { MoveOutcome(s.shared, s.history, s.calls[a.t], a.received, a.expired, a.joined); }
      StepKeepsInv(s, a);
      RunOutcome(Step(s, a), actions[1..]);
    }
  }

  /** In every run: the packetizer is taken at most once, and the calls report what became of
      it. */
  lemma OutcomeIsReported(actions: seq<Action>)
    requires ValidRun(Initial(), actions)
    ensures var h := Run(Initial(), actions).history; |h.consumed| <= 1 && OutcomeOk(h)
  {
    InitialInv();
    RunKeepsInv(Initial(), actions);
    RunOutcome(Initial(), actions);
  }

  // ------------------------------------------------------------ coming back with nothing

  /** A returning step logs one result, any other step none. */
  lemma MoveLogsOne(m: Shared, h: History, pc: Pc, received: Received, expired: bool, joined: bool)
    ensures var v := MoveOf(m, h, pc, received, expired, joined);
            if v.next.None? then |v.history.log| == |h.log| + 1 && v.history.log == h.log + [v.history.log[|h.log|]]
            else v.history.log == h.log
  {}

  lemma MoveNothing(m: Shared, h: History, pc: Pc, received: Received, expired: bool, joined: bool)
    requires (!m.handle ==> m.closed) && (pc.Joining? ==> m.handle)
    ensures var v := MoveOf(m, h, pc, received, expired, joined);
            (v.next.None? && |v.history.log| > |h.log| && v.history.log[|h.log|].NothingReturned?) <==>
              if m.closed then pc.NextEntered? || pc.NextChecking? || pc.Polling? || pc.Deciding?
              else pc == Deciding(TimedOut) && expired
  {}

  /** A step of `next_frame` returns nothing exactly when it finds the flag up, or its wait
      expired without a frame. */
  lemma NothingIff(s: State, a: Action)
    requires Inv(s) && Enabled(s, a) && a.Advance?
    ensures var pc := s.calls[a.t];
            Step(s, a).history.log == s.history.log + [NothingReturned] <==>
              if s.shared.closed then pc.NextEntered? || pc.NextChecking? || pc.Polling? || pc.Deciding?
              else pc == Deciding(TimedOut) && a.expired
  {
    var m, h, pc := s.shared, s.history, s.calls[a.t];
    HolderMoves(s, a);
    MoveLogsOne(m, h, pc, a.received, a.expired, a.joined);
    MoveNothing(m, h, pc, a.received, a.expired, a.joined);
    assert (h.log + [NothingReturned])[|h.log|] == NothingReturned;
  }

  // ---------------------------------------------------------------- after the flag is up

  function InDelivery(holder: Pc): seq<Frame> { if holder.Delivering? then [holder.frame] else [] }

  ghost predicate SameFrames(h: History, holder: Pc, h': History, holder': Pc) {
    && FramesReturned(h'.log) + InDelivery(holder') == FramesReturned(h.log) + InDelivery(holder)
    && (!holder.Receiving? ==> !holder'.Receiving? && h'.taken == h.taken)
  }

  /** With the flag up a step returns no frame but the one in delivery, puts none into
      delivery, and starts no receive. */
  lemma MoveAfterFlag(m: Shared, h: History, pc: Pc, received: Received, expired: bool, joined: bool)
    requires m.closed
    ensures var v := MoveOf(m, h, pc, received, expired, joined);
            && v.shared.closed
            && (v.next.Some? ==> !v.next.value.Delivering? && !v.next.value.Receiving?)
            && (!pc.Receiving? ==> v.history.taken == h.taken)
            && (v.next.None? ==> |v.history.log| == |h.log| + 1 && v.history.log == h.log + [v.history.log[|h.log|]]
                                 && if pc.Delivering? then v.history.log[|h.log|] == ToFfi(pc.frame)
                                    else !IsFrame(v.history.log[|h.log|]))
            && (v.next.Some? ==> v.history.log == h.log && !pc.Delivering?)
  {}

  lemma FramesAfterFlag(m: Shared, h: History, pc: Pc, received: Received, expired: bool, joined: bool)
    requires m.closed
    ensures var v := MoveOf(m, h, pc, received, expired, joined);
            FramesReturned(v.history.log) == FramesReturned(h.log) + InDelivery(pc) && InDelivery(HolderAfter(v)) == []
  {
    var v := MoveOf(m, h, pc, received, expired, joined);
    MoveAfterFlag(m, h, pc, received, expired, joined);
    if v.next.None? { FramesReturnedSnoc(h.log, v.history.log[|h.log|]); }
  }

  lemma HolderAfterFlag(m: Shared, h: History, pc: Pc, received: Received, expired: bool, joined: bool)
    requires m.closed
    ensures var v := MoveOf(m, h, pc, received, expired, joined); SameFrames(h, pc, v.history, HolderAfter(v))
  {
    MoveAfterFlag(m, h, pc, received, expired, joined);
    FramesAfterFlag(m, h, pc, received, expired, joined);
  }

  lemma OutsideAfterFlag(m: Shared, h: History, holder: Pc, pc: Pc, received: Received, expired: bool, joined: bool)
    requires m.closed && !HoldsLock(pc) && (pc.NextLocking? || pc.CancelLocking? ==> holder == NextChecking)
    ensures var v := MoveOf(m, h, pc, received, expired, joined);
            SameFrames(h, holder, v.history, if pc.NextLocking? || pc.CancelLocking? then HolderAfter(v) else holder)
  {
    MoveAfterFlag(m, h, pc, received, expired, joined);
    FramesAfterFlag(m, h, pc, received, expired, joined);
  }

  lemma AfterFlagStep(s: State, a: Action)
    requires Inv(s) && s.shared.closed && Enabled(s, a)
    ensures Step(s, a).shared.closed && SameFrames(s.history, Holder(s), Step(s, a).history, Holder(Step(s, a)))
  {
    if a.Advance? {
      var m, h, pc := s.shared, s.history, s.calls[a.t];
      HolderMoves(s, a);
      MoveAfterFlag(m, h, pc, a.received, a.expired, a.joined);
      if HoldsLock(pc) {
        HolderAfterFlag(m, h, pc, a.received, a.expired, a.joined);
      } else {
        OutsideAfterFlag(m, h, Holder(s), pc, a.received, a.expired, a.joined);
      }
    } else {
      assert Holder(Step(s, a)) == Holder(s);
    }
  }

  /** From the moment the flag is up, the only frame still to come is one already in delivery,
      and nothing more is taken from the channel except by a receive already begun. */
  lemma {:induction false} NothingNewAfterFlag(s: State, actions: seq<Action>)
    requires Inv(s) && s.shared.closed && ValidRun(s, actions)
    ensures Run(s, actions).shared.closed && SameFrames(s.history, Holder(s), Run(s, actions).history, Holder(Run(s, actions)))
    decreases |actions|
  {
    if actions != [] {
      AfterFlagStep(s, actions[0]);
      StepKeepsInv(s, actions[0]);
      NothingNewAfterFlag(Step(s, actions[0]), actions[1..]);
    }
  }

  /** A cancel past its second store has told the packetizer to stop. */
  ghost predicate SignalOk(s: State) {
    && (forall t: nat :: t in s.calls && Signalled(s.calls[t]) ==> s.shared.cancellation)
    && (forall i :: 0 <= i < |s.history.log| && s.history.log[i].CancelReturned? ==> s.shared.cancellation)
  }

  predicate Signalled(pc: Pc) { pc.CancelLocking? || pc.CancelTaking? }

  lemma MoveSignals(m: Shared, h: History, pc: Pc, received: Received, expired: bool, joined: bool)
    requires Signalled(pc) ==> m.cancellation
    ensures var v := MoveOf(m, h, pc, received, expired, joined);
            && (m.cancellation ==> v.shared.cancellation)
            && (v.next.Some? && Signalled(v.next.value) ==> v.shared.cancellation)
            && (forall i :: |h.log| <= i < |v.history.log| && v.history.log[i].CancelReturned? ==> v.shared.cancellation)
            && |h.log| <= |v.history.log| && v.history.log[..|h.log|] == h.log
  {}

  lemma SignalStep(s: State, a: Action)
    requires SignalOk(s) && Enabled(s, a)
    ensures SignalOk(Step(s, a))
  {
    if a.Advance? {
      MoveSignals(s.shared, s.history, s.calls[a.t], a.received, a.expired, a.joined);
      var log, log' := s.history.log, Step(s, a).history.log;
      assert forall i :: 0 <= i < |log| ==> log'[i] == log'[..|log|][i] == log[i];
    }
  }

  lemma {:induction false} RunSignals(s: State, actions: seq<Action>)
    requires SignalOk(s) && ValidRun(s, actions)
    ensures SignalOk(Run(s, actions))
    decreases |actions|
  {
    if actions != [] {
      SignalStep(s, actions[0]);
      RunSignals(Step(s, actions[0]), actions[1..]);
    }
  }

  // ------------------------------------------------------------ calls that come too late

  /** A `next_frame` that got past the check it makes on entry. */
  predicate PastEntry(pc: Pc) {
    pc.NextLocking? || pc.NextChecking? || UsesHandle(pc)
  }

  ghost predicate OnlyThosePast(before: map<nat, Pc>, after: map<nat, Pc>) {
    forall t: nat :: t in after && PastEntry(after[t]) ==> t in before && PastEntry(before[t])
  }

  lemma MoveStaysOut(m: Shared, h: History, pc: Pc, received: Received, expired: bool, joined: bool)
    requires m.closed
    ensures var v := MoveOf(m, h, pc, received, expired, joined);
            v.shared.closed && (v.next.Some? && PastEntry(v.next.value) ==> PastEntry(pc))
  {}

  lemma LateStep(s: State, a: Action)
    requires s.shared.closed && Enabled(s, a)
    ensures Step(s, a).shared.closed && OnlyThosePast(s.calls, Step(s, a).calls)
  {
    if a.Advance? { MoveStaysOut(s.shared, s.history, s.calls[a.t], a.received, a.expired, a.joined); }
  }

  /** Whenever the caller gets its value: once the flag is up, as it is for good when any
      cancel has returned, a `next_frame` that begins later never gets past its entry check,
      so it cannot return a frame or an end. */
  lemma {:induction false} LateCallsStayOut(s: State, actions: seq<Action>)
    requires s.shared.closed && ValidRun(s, actions)
    ensures Run(s, actions).shared.closed && OnlyThosePast(s.calls, Run(s, actions).calls)
    decreases |actions|
  {
    if actions != [] {
      LateStep(s, actions[0]);
      LateCallsStayOut(Step(s, actions[0]), actions[1..]);
    }
  }

  lemma CancelReturnedRaisesFlag(actions: seq<Action>)
    requires ValidRun(Initial(), actions)
    ensures var s := Run(Initial(), actions);
            && (SomeTerminal(s.history.log) ==> s.shared.closed && !s.shared.handle)
            && (forall i :: 0 <= i < |s.history.log| && s.history.log[i].CancelReturned? ==> s.shared.cancellation)
  {
    InitialInv();
    RunKeepsInv(Initial(), actions);
    RunSignals(Initial(), actions);
  }
}
