/**
 The dispatcher and the reducer together: coalescing snapshots on the way to the
 frontend cannot be observed in the state the frontend ends with.
 */
module Coalescing {
  import opened CoreNotifications
  import opened Revision
  import Buffer = NotificationBuffer
  import Slice = CoreSlice

  function SnapshotToDto(s: CoreSnapshot): Slice.SnapshotDto {
    Slice.SnapshotDto(Print(s.revision), s.body)
  }

  /** The DTO conversion at the desktop channel. */
  function ToDto(n: Notification): Slice.NotificationDto {
    match n
    case Snapshot(s) => Slice.SnapshotNotification(SnapshotToDto(s))
    case Other(PlatformEffect(e)) => Slice.EffectNotification(e)
    case Other(TransportEffect(e)) => Slice.EffectNotification(e)
    case Other(StorageEffect(e)) => Slice.EffectNotification(e)
    case Other(CoreError(e)) => Slice.ErrorNotification(e)
    case Other(Diagnostic(d)) => Slice.DiagnosticNotification(d)
  }

  /** The frontend state after receiving a whole stream. */
  function Fold(start: Slice.CoreState, stream: seq<Notification>): Slice.CoreState {
    if stream == [] then start
    else Slice.ReduceNotification(Fold(start, stream[..|stream| - 1]), ToDto(stream[|stream| - 1]))
  }

  datatype Logs = Logs(errors: Slice.ErrorLog, diagnostics: Slice.DiagnosticLog)

  function LogsOf(s: Slice.CoreState): Logs { Logs(s.errors, s.diagnostics) }

  // --------------------------------------------------------------- errors and diagnostics

  function LogEvent(l: Logs, e: Event): Logs {
    match e
    case CoreError(error) => l.(errors := Slice.Recorded(l.errors, error))
    case Diagnostic(d) => l.(diagnostics := Slice.Diagnosed(l.diagnostics, d))
    case _ => l
  }

  function LogEvents(l: Logs, events: seq<Event>): Logs {
    if events == [] then l
    else LogEvent(LogEvents(l, events[..|events| - 1]), events[|events| - 1])
  }

  lemma LogEventsSnoc(l: Logs, events: seq<Event>, e: Event)
    ensures LogEvents(l, events + [e]) == LogEvent(LogEvents(l, events), e)
  {}

  lemma OneNotificationLogs(s: Slice.CoreState, n: Notification)
    ensures LogsOf(Slice.ReduceNotification(s, ToDto(n)))
         == if n.Other? then LogEvent(LogsOf(s), n.event) else LogsOf(s)
  {
    if n.Snapshot? { ParseInvertsPrint("", n.snapshot.revision); }
  }

  /** Snapshots leave no trace in the two logs. */
  lemma {:induction false} FoldLogs(start: Slice.CoreState, stream: seq<Notification>)
    ensures LogsOf(Fold(start, stream)) == LogEvents(LogsOf(start), EventsOf(stream))
  {
    if stream != [] {
      var front, last := stream[..|stream| - 1], stream[|stream| - 1];
      FoldLogs(start, front);
      OneNotificationLogs(Fold(start, front), last);
      if last.Other? { LogEventsSnoc(LogsOf(start), EventsOf(front), last.event); }
      else { assert EventsOf(stream) == EventsOf(front); }
    }
  }

  // ------------------------------------------------------------------------- the snapshot

  function OptionalDto(s: Option<CoreSnapshot>): Option<Slice.SnapshotDto> {
    if s.Some? then Some(SnapshotToDto(s.value)) else None
  }

  lemma OneNotificationSnapshot(s: Slice.CoreState, current: Option<CoreSnapshot>, n: Notification)
    requires s.snapshot == OptionalDto(current)
    ensures Slice.ReduceNotification(s, ToDto(n)).snapshot == OptionalDto(Newer(current, n))
  {
    if n.Snapshot? {
      ParseInvertsPrint("", n.snapshot.revision);
      if current.Some? { ParseInvertsPrint("", current.value.revision); }
    }
  }

  lemma {:induction false} FoldSnapshot(start: Slice.CoreState, current: Option<CoreSnapshot>, stream: seq<Notification>)
    requires start.snapshot == OptionalDto(current)
    ensures Fold(start, stream).snapshot == OptionalDto(LatestOf(current, stream))
  {
    if stream != [] {
      var front, last := stream[..|stream| - 1], stream[|stream| - 1];
      FoldSnapshot(start, current, front);
      OneNotificationSnapshot(Fold(start, front), LatestOf(current, front), last);
    }
  }

  /** Starting from another snapshot only adds one more candidate. */
  lemma {:induction false} LatestFrom(current: Option<CoreSnapshot>, stream: seq<Notification>)
    ensures var l := LatestOf(None, stream);
            LatestOf(current, stream) == if l.None? then current else Newer(current, Snapshot(l.value))
  {
    if stream != [] { LatestFrom(current, stream[..|stream| - 1]); }
  }

  // ---------------------------------------------------------------- the pending commands

  function MarkEvent(p: map<string, Slice.Receipt>, e: Event): map<string, Slice.Receipt> {
    match e
    case CoreError(_) => map[]
    case Diagnostic(_) => p
    case _ =>
      if e.effect.operationId in p
      then p[e.effect.operationId := p[e.effect.operationId].(observedEffectKind := Some(e.effect.effectKind))]
      else p
  }

  /** What a stream of events does to a table that no snapshot ever settles. */
  function MarkEvents(p: map<string, Slice.Receipt>, events: seq<Event>): map<string, Slice.Receipt> {
    if events == [] then p
    else MarkEvent(MarkEvents(p, events[..|events| - 1]), events[|events| - 1])
  }

  function SettledBy(p: map<string, Slice.Receipt>, snapshot: Option<CoreSnapshot>): map<string, Slice.Receipt> {
    if snapshot.None? then p
    else map op | op in p && !Slice.Settles(snapshot.value.revision, p[op]) :: p[op]
  }

  lemma SettledTwice(p: map<string, Slice.Receipt>, current: Option<CoreSnapshot>, n: Notification)
    requires n.Snapshot? && Newer(current, n) == Some(n.snapshot)
    ensures Slice.Settled(SettledBy(p, current), Print(n.snapshot.revision)) == SettledBy(p, Some(n.snapshot))
  {
    ParseInvertsPrint("", n.snapshot.revision);
  }

  /** Marking a receipt and settling the table commute. */
  lemma MarkSettled(p: map<string, Slice.Receipt>, current: Option<CoreSnapshot>, e: Event)
    ensures MarkEvent(SettledBy(p, current), e) == SettledBy(MarkEvent(p, e), current)
  {}

  lemma OneSnapshotPending(s: Slice.CoreState, current: Option<CoreSnapshot>, p: map<string, Slice.Receipt>, x: CoreSnapshot)
    requires s.snapshot == OptionalDto(current) && s.pending == SettledBy(p, current)
    ensures var r := Slice.ReduceNotification(s, ToDto(Snapshot(x)));
            r.pending == SettledBy(p, Newer(current, Snapshot(x))) && r.lifecycle == s.lifecycle
  {
    ParseInvertsPrint("", x.revision);
    if current.Some? { ParseInvertsPrint("", current.value.revision); }
    if Newer(current, Snapshot(x)) == Some(x) { SettledTwice(p, current, Snapshot(x)); }
  }

  lemma OneEventPending(s: Slice.CoreState, e: Event)
    ensures var r := Slice.ReduceNotification(s, ToDto(Other(e)));
            r.pending == MarkEvent(s.pending, e) && r.lifecycle == s.lifecycle
  {}

  lemma OneNotificationPending(s: Slice.CoreState, current: Option<CoreSnapshot>, p: map<string, Slice.Receipt>, n: Notification)
    requires s.snapshot == OptionalDto(current) && s.pending == SettledBy(p, current)
    ensures var r := Slice.ReduceNotification(s, ToDto(n));
            && r.pending == SettledBy(if n.Other? then MarkEvent(p, n.event) else p, Newer(current, n))
            && r.lifecycle == s.lifecycle
  {
    if n.Snapshot? {
      OneSnapshotPending(s, current, p, n.snapshot);
    } else {
      OneEventPending(s, n.event);
      MarkSettled(p, current, n.event);
    }
  }

  /** The table depends on the events and the final snapshot only. */
  lemma {:induction false} FoldPending(start: Slice.CoreState, current: Option<CoreSnapshot>, stream: seq<Notification>)
    requires start.snapshot == OptionalDto(current) && start.pending == SettledBy(start.pending, current)
    ensures Fold(start, stream).pending
         == SettledBy(MarkEvents(start.pending, EventsOf(stream)), LatestOf(current, stream))
    ensures Fold(start, stream).lifecycle == start.lifecycle
  {
    if stream != [] {
      var front, last := stream[..|stream| - 1], stream[|stream| - 1];
      FoldPending(start, current, front);
      FoldSnapshot(start, current, front);
      var marked := MarkEvents(start.pending, EventsOf(front));
      OneNotificationPending(Fold(start, front), LatestOf(current, front), marked, last);
      if last.Other? {
        assert EventsOf(stream)[..|EventsOf(front)|] == EventsOf(front);
      } else {
        assert EventsOf(stream) == EventsOf(front);
      }
    }
  }

  /** The latest snapshot of a stream occurs in it and no other has a higher revision. */
  lemma {:induction false} LatestIsMaximal(stream: seq<Notification>)
    ensures var l := LatestOf(None, stream);
            && (l.Some? ==> Snapshot(l.value) in stream)
            && (forall n :: n in stream && n.Snapshot? ==> l.Some? && n.snapshot.revision <= l.value.revision)
  {
    if stream != [] {
      var front, last := stream[..|stream| - 1], stream[|stream| - 1];
      LatestIsMaximal(front);
      assert stream == front + [last];
    }
  }

  // ------------------------------------------------------------------------ the theorem

  lemma NothingOwed(m: Buffer.Shared, delivered: Option<nat>)
    requires Buffer.Owed(m, delivered) == []
    ensures m.failed.None? && m.pending == []
    ensures m.latest.Some? ==> delivered.Some? && m.latest.value.revision <= delivered.value
  {
    assert |Buffer.Others(Buffer.EventsOwed(m))| == 0;
  }

  /** What has been sent by then ends with the authoritative snapshot. */
  lemma QuiescentLatest(s: Buffer.State)
    requires Buffer.Inv(s) && Buffer.Quiescent(s)
    ensures LatestOf(None, Buffer.Notifications(s.history.log)) == s.shared.latest
    ensures s.shared.failed.None? && s.shared.pending == []
    ensures Buffer.Held(Buffer.CurrentPc(s)) == []
  {
    var id := Buffer.Current(s.slot, s.controller).value;
    var log, w := s.history.log, s.workers[id];
    assert Buffer.Live(s.workers, id);
    NothingOwed(s.shared, w.delivered);
    var revision := w.delivered.value;
    var i :| 0 <= i < |log| && log[i].id == id && log[i].n.Snapshot? && log[i].n.snapshot.revision == revision;
    var sent := Buffer.Notifications(log);
    assert sent[i] == log[i].n;
    LatestIsMaximal(sent);
    var l := LatestOf(None, sent);
    var k :| 0 <= k < |sent| && sent[k] == Snapshot(l.value);
    assert log[k].n == Snapshot(l.value);
    assert Buffer.WasLatest(l.value, s.shared.latest);
  }

  /** A frontend state that any sequence of actions can reach has a snapshot with a
      canonical revision, and no pending receipt that snapshot supersedes. */
  lemma StartSnapshot(start: Slice.CoreState) returns (current: Option<CoreSnapshot>)
    requires Slice.SnapshotOk(start) && Slice.PendingOk(start.pending, start.snapshot)
    ensures start.snapshot == OptionalDto(current) && start.pending == SettledBy(start.pending, current)
  {
    current := None;
    if start.snapshot.Some? {
      var dto := start.snapshot.value;
      var revision := ParseTs(dto.revision).value;
      ParseInvertsPrint(dto.revision, revision);
      current := Some(CoreSnapshot(revision, dto.body));
    }
  }

  /** Two streams with the same events and the same final snapshot leave the frontend in
      the same state, up to its counters of stale notifications. */
  lemma SameEventsSameState(start: Slice.CoreState, a: seq<Notification>, b: seq<Notification>)
    requires Slice.SnapshotOk(start) && Slice.PendingOk(start.pending, start.snapshot)
    requires EventsOf(a) == EventsOf(b) && LatestOf(None, a) == LatestOf(None, b)
    ensures Fold(start, a).(stale := start.stale) == Fold(start, b).(stale := start.stale)
  {
    var current := StartSnapshot(start);
    LatestFrom(current, a);
    LatestFrom(current, b);
    FoldLogs(start, a);
    FoldLogs(start, b);
    FoldSnapshot(start, current, a);
    FoldSnapshot(start, current, b);
    FoldPending(start, current, a);
    FoldPending(start, current, b);
  }

  /** In every run of the dispatcher that dropped no event, whenever the subscriber has
      caught up, a frontend fed the coalesced stream is in the same state as one fed every
      notification the observer accepted: snapshot, lifecycle, pending commands, errors and
      diagnostics. Only the counters of stale notifications may differ. */
  lemma CoalescingIsInvisible(actions: seq<Buffer.Action>, start: Slice.CoreState)
    requires Buffer.ValidRun(Buffer.Initial(), actions)
    requires Buffer.Quiescent(Buffer.Run(Buffer.Initial(), actions))
    requires Buffer.Drops(Buffer.Run(Buffer.Initial(), actions).history.settled) == 0
    requires Slice.SnapshotOk(start) && Slice.PendingOk(start.pending, start.snapshot)
    ensures var h := Buffer.Run(Buffer.Initial(), actions).history;
            Fold(start, Buffer.Notifications(h.log)).(stale := start.stale)
              == Fold(start, h.observed).(stale := start.stale)
  {
    var s := Buffer.Run(Buffer.Initial(), actions);
    Buffer.InitialInv();
    Buffer.RunKeepsInv(Buffer.Initial(), actions);
    Buffer.EventsConserved(actions);
    QuiescentLatest(s);
    SameEventsSameState(start, Buffer.Notifications(s.history.log), s.history.observed);
  }
}
