/**
 The frontend core reducer: a revision-gated snapshot, a bounded table of pending
 commands and bounded error and diagnostic lists.

 `Reduce` is the reducer as a function of the state before the action; the class
 `Slice` updates the same fields step by step, as the reducers do on their draft.
 Wall-clock timestamps of errors are not part of the state.
 */
module CoreSlice {
  import opened CoreNotifications
  import opened Revision

  const MAX_PENDING_COMMANDS: nat := 128
  const MAX_ERRORS: nat := 32
  const MAX_DIAGNOSTICS: nat := 64

  datatype SnapshotDto = SnapshotDto(revision: string, body: int)

  datatype NotificationDto =
    | SnapshotNotification(details: SnapshotDto)
    | EffectNotification(effect: Effect)
    | ErrorNotification(error: ErrorDetail)
    | DiagnosticNotification(diagnostic: int)

  datatype Receipt = Receipt(
    operationId: string,
    commandKind: string,
    submittedAtRevision: Option<string>,
    observedEffectKind: Option<string>)

  datatype ObservedError = ObservedError(id: nat, detail: ErrorDetail)

  /** A failure taken from the error list carries the id of its entry. */
  datatype Lifecycle =
    | Closed
    | Opening(profileId: string)
    | Ready(profileId: string)
    | Failed(error: ErrorDetail, observed: Option<nat>)

  datatype Counters = Counters(snapshots: nat, effects: nat, commandReceipts: nat)

  /** The newest errors, the id of the next one, and how many the bound pushed out. */
  datatype ErrorLog = ErrorLog(entries: seq<ObservedError>, nextId: nat, dropped: nat)

  datatype DiagnosticLog = DiagnosticLog(entries: seq<int>, dropped: nat)

  datatype CoreState = CoreState(
    snapshot: Option<SnapshotDto>,
    lifecycle: Lifecycle,
    pending: map<string, Receipt>,
    errors: ErrorLog,
    diagnostics: DiagnosticLog,
    stale: Counters)

  datatype Action =
    | BridgeOpening(profileId: string)
    | BridgeReady(profileId: string, snapshot: SnapshotDto)
    | BridgeFailed(error: ErrorDetail)
    | BridgeClosed
    | NotificationReceived(notification: NotificationDto)
    | CommandPending(operationId: string, commandKind: string, submittedAtRevision: Option<string>)
    | CommandReceiptObserved(operationId: string)
    | CommandInvocationFailed(error: ErrorDetail)
    | CommandFailureObserved(operationId: string, error: ErrorDetail)
    | ErrorDismissed(id: nat)

  function Initial(): CoreState {
    CoreState(None, Closed, map[], ErrorLog([], 1, 0), DiagnosticLog([], 0), Counters(0, 0, 0))
  }

  function FrontendError(code: string, severity: string, retryable: bool, message: string): ErrorDetail {
    ErrorDetail(code, "frontend_bridge", severity, retryable, message)
  }

  const INVALID_SNAPSHOT_REVISION := FrontendError(
    "desktop.frontend.invalid_snapshot_revision", "fatal", false,
    "The desktop bridge delivered a snapshot with an invalid revision.")
  const UNEXPECTED_BRIDGE_READY := FrontendError(
    "desktop.frontend.unexpected_bridge_ready", "error", false,
    "An out-of-sequence bridge-ready result was rejected.")
  const DUPLICATE_PENDING_COMMAND := FrontendError(
    "desktop.frontend.duplicate_pending_command", "error", false,
    "A pending command was registered more than once.")
  const PENDING_COMMAND_OVERFLOW := FrontendError(
    "desktop.frontend.pending_command_overflow", "fatal", false,
    "The bounded pending-command table is full.")
  const MISSING_FAILURE_DETAIL := FrontendError(
    "desktop.frontend.missing_failure_detail", "fatal", false,
    "The frontend entered a failed bridge state without an error detail.")

  predicate ShouldAcceptSnapshot(current: Option<string>, incoming: string) {
    var incomingRevision := ParseTs(incoming);
    if incomingRevision.None? then false
    else if current.None? then true
    else ParseTs(current.value).Some? && incomingRevision.value > ParseTs(current.value).value
  }

  function PushBounded<T>(items: seq<T>, value: T, limit: nat): seq<T>
    requires 0 < limit
  {
    (if |items| >= limit then items[1..] else items) + [value]
  }

  function Recorded(log: ErrorLog, error: ErrorDetail): ErrorLog {
    ErrorLog(PushBounded(log.entries, ObservedError(log.nextId, error), MAX_ERRORS),
             log.nextId + 1,
             if |log.entries| >= MAX_ERRORS then log.dropped + 1 else log.dropped)
  }

  function RecordError(s: CoreState, error: ErrorDetail): CoreState {
    s.(errors := Recorded(s.errors, error))
  }

  function Diagnosed(log: DiagnosticLog, diagnostic: int): DiagnosticLog {
    DiagnosticLog(PushBounded(log.entries, diagnostic, MAX_DIAGNOSTICS),
                  if |log.entries| >= MAX_DIAGNOSTICS then log.dropped + 1 else log.dropped)
  }

  /** The receipt was submitted at a revision the incoming snapshot supersedes. */
  predicate Settles(incoming: u64, receipt: Receipt) {
    && receipt.submittedAtRevision.Some?
    && ParseTs(receipt.submittedAtRevision.value).Some?
    && incoming > ParseTs(receipt.submittedAtRevision.value).value
  }

  function Settled(pending: map<string, Receipt>, revision: string): map<string, Receipt> {
    var incoming := ParseTs(revision);
    if incoming.None? then pending
    else map op | op in pending && !Settles(incoming.value, pending[op]) :: pending[op]
  }

  datatype Acceptance = Accepted | Stale | Invalid

  function Accept(s: CoreState, snapshot: SnapshotDto): Acceptance {
    if ParseTs(snapshot.revision).None? then Invalid
    else if !ShouldAcceptSnapshot(CurrentRevision(s), snapshot.revision) then Stale
    else Accepted
  }

  function CurrentRevision(s: CoreState): Option<string> {
    if s.snapshot.Some? then Some(s.snapshot.value.revision) else None
  }

  function AcceptSnapshot(s: CoreState, snapshot: SnapshotDto, countStale: bool): CoreState {
    match Accept(s, snapshot)
    case Invalid => RecordError(s, INVALID_SNAPSHOT_REVISION)
    case Stale => if countStale then s.(stale := s.stale.(snapshots := s.stale.snapshots + 1)) else s
    case Accepted => s.(snapshot := Some(snapshot), pending := Settled(s.pending, snapshot.revision))
  }

  function FailFromLatestError(s: CoreState): CoreState {
    var entries := s.errors.entries;
    s.(lifecycle := if entries == [] then Failed(MISSING_FAILURE_DETAIL, None)
                    else Failed(entries[|entries| - 1].detail, Some(entries[|entries| - 1].id)))
  }

  function ObserveEffect(s: CoreState, effect: Effect): CoreState {
    if effect.operationId !in s.pending
    then s.(stale := s.stale.(effects := s.stale.effects + 1))
    else s.(pending := s.pending[effect.operationId :=
                                 s.pending[effect.operationId].(observedEffectKind := Some(effect.effectKind))])
  }

  function ReduceNotification(s: CoreState, n: NotificationDto): CoreState {
    match n
    case SnapshotNotification(snapshot) =>
      var r := AcceptSnapshot(s, snapshot, true);
      if Accept(s, snapshot) == Invalid then FailFromLatestError(r) else r
    case EffectNotification(effect) => ObserveEffect(s, effect)
    case ErrorNotification(error) => RecordError(s.(pending := map[]), error)
    case DiagnosticNotification(diagnostic) =>
      s.(diagnostics := Diagnosed(s.diagnostics, diagnostic))
  }

  function ReduceCommandPending(s: CoreState, op: string, kind: string, submitted: Option<string>): CoreState {
    var current := CurrentRevision(s);
    var revision := if submitted.Some? then submitted else current;
    if revision.Some? && current.Some? && ShouldAcceptSnapshot(revision, current.value) then s
    else if op in s.pending then
      RecordError(s.(stale := s.stale.(commandReceipts := s.stale.commandReceipts + 1)), DUPLICATE_PENDING_COMMAND)
    else if |s.pending| >= MAX_PENDING_COMMANDS then RecordError(s, PENDING_COMMAND_OVERFLOW)
    else s.(pending := s.pending[op := Receipt(op, kind, revision, None)])
  }

  function WithoutReceipt(s: CoreState, op: string): CoreState {
    if op !in s.pending then s.(stale := s.stale.(commandReceipts := s.stale.commandReceipts + 1))
    else s.(pending := s.pending - {op})
  }

  function Dismiss(errors: seq<ObservedError>, id: nat): (r: seq<ObservedError>)
    ensures |r| <= |errors|
  {
    if errors == [] then []
    else (if errors[0].id == id then [] else [errors[0]]) + Dismiss(errors[1..], id)
  }

  function Reduce(s: CoreState, a: Action): CoreState {
    match a
    case BridgeOpening(profileId) =>
      s.(snapshot := None, pending := map[], lifecycle := Opening(profileId))
    case BridgeReady(profileId, snapshot) =>
      if s.lifecycle != Opening(profileId) then RecordError(s, UNEXPECTED_BRIDGE_READY)
      else
        var r := AcceptSnapshot(s, snapshot, false);
        if Accept(s, snapshot) == Invalid then FailFromLatestError(r) else r.(lifecycle := Ready(profileId))
    case BridgeFailed(error) =>
      RecordError(s.(snapshot := None, pending := map[], lifecycle := Failed(error, None)), error)
    case BridgeClosed => s.(lifecycle := Closed, snapshot := None, pending := map[])
    case NotificationReceived(n) => ReduceNotification(s, n)
    case CommandPending(op, kind, submitted) => ReduceCommandPending(s, op, kind, submitted)
    case CommandReceiptObserved(op) => WithoutReceipt(s, op)
    case CommandInvocationFailed(error) => RecordError(s.(pending := map[]), error)
    case CommandFailureObserved(op, error) => RecordError(WithoutReceipt(s, op), error)
    case ErrorDismissed(id) => s.(errors := s.errors.(entries := Dismiss(s.errors.entries, id)))
  }

  function Run(s: CoreState, actions: seq<Action>): CoreState
    decreases |actions|
  {
    if actions == [] then s else Run(Reduce(s, actions[0]), actions[1..])
  }

  // ------------------------------------------------------------- the state invariant

  ghost predicate SnapshotOk(s: CoreState) {
    && (s.snapshot.Some? ==> ParseTs(s.snapshot.value.revision).Some?)
    && (s.lifecycle.Ready? ==> s.snapshot.Some?)
  }

  /** No receipt submitted before the current snapshot is still pending. */
  ghost predicate PendingOk(pending: map<string, Receipt>, snapshot: Option<SnapshotDto>) {
    && |pending| <= MAX_PENDING_COMMANDS
    && forall op :: op in pending && snapshot.Some? && ParseTs(snapshot.value.revision).Some? ==>
         !Settles(ParseTs(snapshot.value.revision).value, pending[op])
  }

  /** Ids grow strictly, and every id handed out was kept, dropped or dismissed. */
  ghost predicate ErrorsOk(log: ErrorLog, dismissed: nat) {
    && |log.entries| <= MAX_ERRORS
    && IdsIncrease(log.entries, log.nextId)
    && log.nextId == 1 + |log.entries| + log.dropped + dismissed
  }

  ghost predicate IdsIncrease(entries: seq<ObservedError>, bound: nat) {
    && (forall i, j :: 0 <= i < j < |entries| ==> entries[i].id < entries[j].id)
    && (forall i :: 0 <= i < |entries| ==> entries[i].id < bound)
  }

  ghost predicate Inv(s: CoreState, dismissed: nat) {
    && SnapshotOk(s) && PendingOk(s.pending, s.snapshot)
    && ErrorsOk(s.errors, dismissed)
    && |s.diagnostics.entries| <= MAX_DIAGNOSTICS
  }

  function DismissedBy(s: CoreState, a: Action): nat {
    if a.ErrorDismissed? then |s.errors.entries| - |Dismiss(s.errors.entries, a.id)| else 0
  }

  function Dismissed(s: CoreState, actions: seq<Action>): nat
    decreases |actions|
  {
    if actions == [] then 0
    else DismissedBy(s, actions[0]) + Dismissed(Reduce(s, actions[0]), actions[1..])
  }

  lemma RecordedOk(log: ErrorLog, dismissed: nat)
    requires ErrorsOk(log, dismissed)
    ensures forall error :: ErrorsOk(Recorded(log, error), dismissed)
  {}

  lemma {:induction false} DismissMember(errors: seq<ObservedError>, id: nat, e: ObservedError)
    ensures e in Dismiss(errors, id) <==> e in errors && e.id != id
  {
    if errors != [] {
      DismissMember(errors[1..], id, e);
      assert errors == [errors[0]] + errors[1..];
    }
  }

  lemma {:induction false} DismissInv(errors: seq<ObservedError>, id: nat, bound: nat)
    requires IdsIncrease(errors, bound)
    ensures IdsIncrease(Dismiss(errors, id), bound)
  {
    if errors != [] {
      var head, rest := errors[0], Dismiss(errors[1..], id);
      DismissInv(errors[1..], id, bound);
      forall i | 0 <= i < |rest| ensures head.id < rest[i].id {
        DismissMember(errors[1..], id, rest[i]);
      }
    }
  }

  lemma SubmapSize<K, V>(small: map<K, V>, big: map<K, V>)
    requires small.Keys <= big.Keys
    ensures |small| <= |big|
  {
    SubsetSize(small.Keys, big.Keys);
    assert |small| == |small.Keys| && |big| == |big.Keys|;
  }

  lemma SubsetSize<K>(small: set<K>, big: set<K>)
    requires small <= big
    ensures |small| <= |big|
  {
    assert big == small + (big - small);
  }

  lemma SettledInv(pending: map<string, Receipt>, snapshot: SnapshotDto)
    requires |pending| <= MAX_PENDING_COMMANDS
    ensures PendingOk(Settled(pending, snapshot.revision), Some(snapshot))
  {
    SubmapSize(Settled(pending, snapshot.revision), pending);
  }

  lemma InsertSize(pending: map<string, Receipt>, op: string, r: Receipt)
    ensures |pending[op := r]| <= |pending| + (if op in pending then 0 else 1)
  {}

  lemma AcceptKeepsPending(s: CoreState, snapshot: SnapshotDto, countStale: bool)
    requires SnapshotOk(s) && PendingOk(s.pending, s.snapshot)
    ensures var r := AcceptSnapshot(s, snapshot, countStale);
            SnapshotOk(r) && PendingOk(r.pending, r.snapshot) && (Accept(s, snapshot) != Invalid ==> r.snapshot.Some?)
  {
    SettledInv(s.pending, snapshot);
  }

  ghost predicate TableOk(s: CoreState) { SnapshotOk(s) && PendingOk(s.pending, s.snapshot) }

  lemma EffectKeepsPending(s: CoreState, e: Effect)
    requires TableOk(s)
    ensures TableOk(ObserveEffect(s, e))
  {
    if e.operationId in s.pending {
      InsertSize(s.pending, e.operationId, s.pending[e.operationId].(observedEffectKind := Some(e.effectKind)));
    }
  }

  lemma CommandKeepsPending(s: CoreState, op: string, kind: string, submitted: Option<string>)
    requires TableOk(s)
    ensures TableOk(ReduceCommandPending(s, op, kind, submitted))
  {
    var revision := if submitted.Some? then submitted else CurrentRevision(s);
    InsertSize(s.pending, op, Receipt(op, kind, revision, None));
  }

  lemma RemovalKeepsPending(s: CoreState, op: string)
    requires TableOk(s)
    ensures TableOk(WithoutReceipt(s, op))
  {
    SubmapSize(s.pending - {op}, s.pending);
  }

  lemma ReducePending(s: CoreState, a: Action)
    requires TableOk(s)
    ensures TableOk(Reduce(s, a))
  {
    if a.BridgeReady? {
      AcceptKeepsPending(s, a.snapshot, false);
    } else if a.NotificationReceived? && a.notification.SnapshotNotification? {
      AcceptKeepsPending(s, a.notification.details, true);
    } else if a.NotificationReceived? && a.notification.EffectNotification? {
      EffectKeepsPending(s, a.notification.effect);
    } else if a.CommandPending? {
      CommandKeepsPending(s, a.operationId, a.commandKind, a.submittedAtRevision);
    } else if a.CommandReceiptObserved? || a.CommandFailureObserved? {
      RemovalKeepsPending(s, a.operationId);
    }
  }

  lemma ReduceErrors(s: CoreState, a: Action, dismissed: nat)
    requires ErrorsOk(s.errors, dismissed)
    ensures ErrorsOk(Reduce(s, a).errors, dismissed + DismissedBy(s, a))
  {
    if a.ErrorDismissed? {
      DismissInv(s.errors.entries, a.id, s.errors.nextId);
    } else {
      RecordedOk(s.errors, dismissed);
      assert Reduce(s, a).errors == s.errors || exists e :: Reduce(s, a).errors == Recorded(s.errors, e);
    }
  }

  lemma ReduceDiagnostics(s: CoreState, a: Action)
    requires |s.diagnostics.entries| <= MAX_DIAGNOSTICS
    ensures |Reduce(s, a).diagnostics.entries| <= MAX_DIAGNOSTICS
  {}

  lemma ReduceKeepsInv(s: CoreState, a: Action, dismissed: nat)
    requires Inv(s, dismissed)
    ensures Inv(Reduce(s, a), dismissed + DismissedBy(s, a))
  {
    ReducePending(s, a);
    ReduceErrors(s, a, dismissed);
    ReduceDiagnostics(s, a);
  }

  lemma {:induction false} RunKeepsInv(s: CoreState, actions: seq<Action>, dismissed: nat)
    requires Inv(s, dismissed)
    ensures Inv(Run(s, actions), dismissed + Dismissed(s, actions))
    decreases |actions|
  {
    if actions != [] {
      ReduceKeepsInv(s, actions[0], dismissed);
      RunKeepsInv(Reduce(s, actions[0]), actions[1..], dismissed + DismissedBy(s, actions[0]));
    }
  }

  /** After any sequence of actions: the snapshot's revision is canonical, "ready" comes
      with a snapshot, no superseded receipt is pending, the three tables keep their
      bounds, and error ids grow strictly and account for every error ever recorded. */
  lemma ReducerInvariant(actions: seq<Action>)
    ensures var s := Run(Initial(), actions);
            && (s.snapshot.Some? ==>
                  exists r: u64 :: s.snapshot.value.revision == Print(r))
            && (s.lifecycle.Ready? ==> s.snapshot.Some?)
            && PendingOk(s.pending, s.snapshot)
            && |s.errors.entries| <= MAX_ERRORS && |s.diagnostics.entries| <= MAX_DIAGNOSTICS
            && IdsIncrease(s.errors.entries, s.errors.nextId)
            && s.errors.nextId - 1 == |s.errors.entries| + s.errors.dropped + Dismissed(Initial(), actions)
  {
    var s := Run(Initial(), actions);
    RunKeepsInv(Initial(), actions, 0);
    if s.snapshot.Some? {
      var r := ParseTs(s.snapshot.value.revision).value;
      ParseInvertsPrint(s.snapshot.value.revision, r);
    }
  }

  // --------------------------------------------------------- what the bounds keep

  /** The newest `limit` of a list. */
  function Last<T>(items: seq<T>, limit: nat): seq<T> {
    if |items| <= limit then items else items[|items| - limit..]
  }

  lemma PushKeepsLast<T>(items: seq<T>, value: T, limit: nat)
    requires 0 < limit
    ensures PushBounded(Last(items, limit), value, limit) == Last(items + [value], limit)
  {}

  function DiagnosticOf(a: Action): seq<int> {
    if a.NotificationReceived? && a.notification.DiagnosticNotification? then [a.notification.diagnostic] else []
  }

  function DiagnosticsIn(actions: seq<Action>): seq<int> {
    if actions == [] then [] else DiagnosticOf(actions[0]) + DiagnosticsIn(actions[1..])
  }

  ghost predicate KeepsLast(log: DiagnosticLog, received: seq<int>) {
    log.entries == Last(received, MAX_DIAGNOSTICS) && log.dropped == |received| - |log.entries|
  }

  lemma DiagnosticStep(s: CoreState, a: Action, received: seq<int>)
    requires KeepsLast(s.diagnostics, received)
    ensures KeepsLast(Reduce(s, a).diagnostics, received + DiagnosticOf(a))
  {
    if DiagnosticOf(a) == [] {
      assert received + [] == received;
    } else {
      PushKeepsLast(received, a.notification.diagnostic, MAX_DIAGNOSTICS);
    }
  }

  lemma Regroup<T>(a: seq<T>, b: seq<T>, c: seq<T>)
    ensures a + (b + c) == (a + b) + c
  {}

  lemma {:induction false} RunKeepsDiagnostics(s: CoreState, actions: seq<Action>, received: seq<int>, all: seq<int>)
    requires KeepsLast(s.diagnostics, received) && all == received + DiagnosticsIn(actions)
    ensures KeepsLast(Run(s, actions).diagnostics, all)
    decreases |actions|
  {
    if actions == [] {
      assert all == received;
    } else {
      DiagnosticStep(s, actions[0], received);
      Regroup(received, DiagnosticOf(actions[0]), DiagnosticsIn(actions[1..]));
      RunKeepsDiagnostics(Reduce(s, actions[0]), actions[1..], received + DiagnosticOf(actions[0]), all);
    }
  }

  /** The error an action puts on record. */
  function RecordedBy(s: CoreState, a: Action): Option<ErrorDetail> {
    match a
    case BridgeReady(profileId, snapshot) =>
      if s.lifecycle != Opening(profileId) then Some(UNEXPECTED_BRIDGE_READY)
      else if ParseTs(snapshot.revision).None? then Some(INVALID_SNAPSHOT_REVISION) else None
    case BridgeFailed(error) => Some(error)
    case NotificationReceived(SnapshotNotification(snapshot)) =>
      if ParseTs(snapshot.revision).None? then Some(INVALID_SNAPSHOT_REVISION) else None
    case NotificationReceived(ErrorNotification(error)) => Some(error)
    case CommandPending(op, _, submitted) =>
      if Outdated(s, submitted) then None
      else if op in s.pending then Some(DUPLICATE_PENDING_COMMAND)
      else if |s.pending| >= MAX_PENDING_COMMANDS then Some(PENDING_COMMAND_OVERFLOW) else None
    case CommandInvocationFailed(error) => Some(error)
    case CommandFailureObserved(_, error) => Some(error)
    case _ => None
  }

  /** The command was submitted, by its own account or else now, before the snapshot. */
  predicate Outdated(s: CoreState, submitted: Option<string>) {
    submitted.Some? && s.snapshot.Some? && ShouldAcceptSnapshot(submitted, s.snapshot.value.revision)
  }

  lemma NotNewerThanItself(revision: string)
    ensures !ShouldAcceptSnapshot(Some(revision), revision)
  {}

  lemma ErrorStep(s: CoreState, a: Action)
    requires !a.ErrorDismissed?
    ensures Reduce(s, a).errors == if RecordedBy(s, a).Some? then Recorded(s.errors, RecordedBy(s, a).value) else s.errors
  {
    if s.snapshot.Some? { NotNewerThanItself(s.snapshot.value.revision); }
  }

  /** All errors a run puts on record, in order. */
  function ErrorsIn(s: CoreState, actions: seq<Action>): seq<ErrorDetail>
    decreases |actions|
  {
    if actions == [] then []
    else
      (if RecordedBy(s, actions[0]).Some? then [RecordedBy(s, actions[0]).value] else [])
      + ErrorsIn(Reduce(s, actions[0]), actions[1..])
  }

  function Numbered(errors: seq<ErrorDetail>): seq<ObservedError> {
    seq(|errors|, i requires 0 <= i < |errors| => ObservedError(i + 1, errors[i]))
  }

  ghost predicate Numbers(log: ErrorLog, recorded: seq<ErrorDetail>) {
    log.nextId == |recorded| + 1 && forall e :: e in log.entries ==> e in Numbered(recorded)
  }

  /** Every error listed is the one recorded under its number. */
  lemma {:induction false} RunNumbersErrors(s: CoreState, actions: seq<Action>, recorded: seq<ErrorDetail>)
    requires Numbers(s.errors, recorded)
    ensures Numbers(Run(s, actions).errors, recorded + ErrorsIn(s, actions))
    decreases |actions|
  {
    if actions == [] {
      assert recorded + [] == recorded;
    } else {
      var a, next := actions[0], Reduce(s, actions[0]);
      var more := if RecordedBy(s, a).Some? then [RecordedBy(s, a).value] else [];
      if a.ErrorDismissed? {
        forall e | e in next.errors.entries ensures e in s.errors.entries { DismissMember(s.errors.entries, a.id, e); }
      } else {
        ErrorStep(s, a);
      }
      NumberedMore(recorded, more);
      RunNumbersErrors(next, actions[1..], recorded + more);
      assert recorded + more + ErrorsIn(next, actions[1..]) == recorded + ErrorsIn(s, actions);
    }
  }

  lemma NumberedMore(errors: seq<ErrorDetail>, more: seq<ErrorDetail>)
    ensures forall e :: e in Numbered(errors) ==> e in Numbered(errors + more)
    ensures |more| == 1 ==> Numbered(errors + more) == Numbered(errors) + [ObservedError(|errors| + 1, more[0])]
  {
    var all := Numbered(errors + more);
    forall e | e in Numbered(errors) ensures e in all {
      var i :| 0 <= i < |errors| && Numbered(errors)[i] == e;
      assert all[i] == e;
    }
  }

  predicate NoDismissal(actions: seq<Action>) { forall i :: 0 <= i < |actions| ==> !actions[i].ErrorDismissed? }

  /** Without dismissals the list is the newest of everything recorded, in order. */
  lemma {:induction false} RunKeepsErrors(s: CoreState, actions: seq<Action>, recorded: seq<ErrorDetail>)
    requires NoDismissal(actions) && s.errors.nextId == |recorded| + 1
    requires s.errors.entries == Last(Numbered(recorded), MAX_ERRORS)
    ensures Run(s, actions).errors.entries == Last(Numbered(recorded + ErrorsIn(s, actions)), MAX_ERRORS)
    decreases |actions|
  {
    if actions == [] {
      assert recorded + [] == recorded;
    } else {
      var a, next := actions[0], Reduce(s, actions[0]);
      var more := if RecordedBy(s, a).Some? then [RecordedBy(s, a).value] else [];
      ErrorStep(s, a);
      NumberedMore(recorded, more);
      if more == [] {
        assert recorded + more == recorded;
      } else {
        PushKeepsLast(Numbered(recorded), ObservedError(|recorded| + 1, more[0]), MAX_ERRORS);
      }
      RunKeepsErrors(next, actions[1..], recorded + more);
      assert recorded + more + ErrorsIn(next, actions[1..]) == recorded + ErrorsIn(s, actions);
    }
  }

  ghost function IdsOf(entries: seq<ObservedError>): set<nat> { set e | e in entries :: e.id }

  /** The ids that left the list without being dismissed. */
  ghost function DroppedIds(s: CoreState, actions: seq<Action>): set<nat>
    decreases |actions|
  {
    if actions == [] then {}
    else
      var next := Reduce(s, actions[0]);
      (if actions[0].ErrorDismissed? then {} else IdsOf(s.errors.entries) - IdsOf(next.errors.entries))
      + DroppedIds(next, actions[1..])
  }

  ghost predicate AllAbove(log: ErrorLog, id: nat) {
    id < log.nextId && forall e :: e in log.entries ==> id < e.id
  }

  lemma StepKeepsAbove(s: CoreState, a: Action, id: nat)
    requires AllAbove(s.errors, id)
    ensures AllAbove(Reduce(s, a).errors, id)
  {
    if a.ErrorDismissed? {
      forall e | e in Reduce(s, a).errors.entries ensures id < e.id { DismissMember(s.errors.entries, a.id, e); }
    } else {
      ErrorStep(s, a);
    }
  }

  lemma {:induction false} RunKeepsAbove(s: CoreState, actions: seq<Action>, id: nat)
    requires AllAbove(s.errors, id)
    ensures AllAbove(Run(s, actions).errors, id)
    decreases |actions|
  {
    if actions != [] {
      StepKeepsAbove(s, actions[0], id);
      RunKeepsAbove(Reduce(s, actions[0]), actions[1..], id);
    }
  }

  lemma PushKeepsOthers<T>(items: seq<T>, value: T, limit: nat, j: nat)
    requires 0 < limit && 0 < j < |items|
    ensures items[j] in PushBounded(items, value, limit)
  {
    var pushed := PushBounded(items, value, limit);
    assert items[j] == pushed[if |items| >= limit then j - 1 else j];
  }

  /** What a recording pushes out is the oldest entry. */
  lemma RecordedDropsOldest(log: ErrorLog, error: ErrorDetail, e: ObservedError)
    requires IdsIncrease(log.entries, log.nextId) && e in log.entries && e !in Recorded(log, error).entries
    ensures AllAbove(Recorded(log, error), e.id)
  {
    forall j | 0 < j < |log.entries| ensures log.entries[j] in Recorded(log, error).entries {
      PushKeepsOthers(log.entries, ObservedError(log.nextId, error), MAX_ERRORS, j);
    }
    var i :| 0 <= i < |log.entries| && log.entries[i] == e;
  }

  lemma StepDropsOldest(s: CoreState, a: Action, dismissed: nat, id: nat)
    requires ErrorsOk(s.errors, dismissed) && !a.ErrorDismissed?
    requires id in IdsOf(s.errors.entries) - IdsOf(Reduce(s, a).errors.entries)
    ensures AllAbove(Reduce(s, a).errors, id)
  {
    ErrorStep(s, a);
    var e :| e in s.errors.entries && e.id == id;
    RecordedDropsOldest(s.errors, RecordedBy(s, a).value, e);
  }

  /** Every id still listed exceeds every id the bound has dropped. */
  lemma {:induction false} RunDropsOldest(s: CoreState, actions: seq<Action>, dismissed: nat, id: nat)
    requires ErrorsOk(s.errors, dismissed)
    ensures id in DroppedIds(s, actions) ==> AllAbove(Run(s, actions).errors, id)
    decreases |actions|
  {
    if actions != [] {
      var a, next := actions[0], Reduce(s, actions[0]);
      ReduceErrors(s, a, dismissed);
      RunDropsOldest(next, actions[1..], dismissed + DismissedBy(s, a), id);
      if !a.ErrorDismissed? && id in IdsOf(s.errors.entries) - IdsOf(next.errors.entries) {
        StepDropsOldest(s, a, dismissed, id);
        RunKeepsAbove(next, actions[1..], id);
      }
    }
  }

  /** After any actions the diagnostics are the newest 64 of all received and the bound has
      dropped the others; every error listed is the one recorded under its id and newer than
      every one the bound dropped; and unless some were dismissed, the errors are the newest
      32 of all recorded. */
  lemma NewestAreKept(actions: seq<Action>)
    ensures var s := Run(Initial(), actions);
            var recorded := ErrorsIn(Initial(), actions);
            && s.diagnostics.entries == Last(DiagnosticsIn(actions), MAX_DIAGNOSTICS)
            && s.diagnostics.dropped == |DiagnosticsIn(actions)| - |s.diagnostics.entries|
            && Numbers(s.errors, recorded)
            && (forall id, e :: id in DroppedIds(Initial(), actions) && e in s.errors.entries ==> id < e.id)
            && (NoDismissal(actions) ==> s.errors.entries == Last(Numbered(recorded), MAX_ERRORS))
  {
    RunKeepsDiagnostics(Initial(), actions, [], DiagnosticsIn(actions));
    RunNumbersErrors(Initial(), actions, []);
    assert [] + ErrorsIn(Initial(), actions) == ErrorsIn(Initial(), actions);
    if NoDismissal(actions) { RunKeepsErrors(Initial(), actions, []); }
    forall id | id in DroppedIds(Initial(), actions) ensures AllAbove(Run(Initial(), actions).errors, id) {
      RunDropsOldest(Initial(), actions, 0, id);
    }
  }

  // ----------------------------------------------------- what each action may change

  ghost predicate Canonical(revision: string) { exists r: u64 :: revision == Print(r) }

  ghost predicate Supersedes(newer: string, older: string) {
    exists q: u64, r: u64 :: older == Print(q) && newer == Print(r) && q < r
  }

  lemma ParsesIffCanonical(revision: string)
    ensures ParseTs(revision).Some? <==> Canonical(revision)
  {
    if ParseTs(revision).Some? { ParseInvertsPrint(revision, ParseTs(revision).value); }
    if Canonical(revision) {
      var r: u64 :| revision == Print(r);
      ParseInvertsPrint(revision, r);
    }
  }

  lemma AcceptsIffSupersedes(older: string, newer: string)
    ensures ShouldAcceptSnapshot(Some(older), newer) <==> Supersedes(newer, older)
  {
    if ShouldAcceptSnapshot(Some(older), newer) {
      ParseInvertsPrint(older, ParseTs(older).value);
      ParseInvertsPrint(newer, ParseTs(newer).value);
    }
    if Supersedes(newer, older) {
      var q: u64, r: u64 :| older == Print(q) && newer == Print(r) && q < r;
      ParseInvertsPrint(older, q);
      ParseInvertsPrint(newer, r);
    }
  }

  /** The snapshot would replace what the frontend shows. */
  ghost predicate TakesOver(s: CoreState, x: SnapshotDto) {
    Canonical(x.revision) && (s.snapshot.Some? ==> Supersedes(x.revision, s.snapshot.value.revision))
  }

  lemma AcceptIff(s: CoreState, x: SnapshotDto)
    ensures Accept(s, x) == Accepted <==> TakesOver(s, x)
    ensures Accept(s, x) == Invalid <==> !Canonical(x.revision)
  {
    ParsesIffCanonical(x.revision);
    if s.snapshot.Some? { AcceptsIffSupersedes(s.snapshot.value.revision, x.revision); }
  }

  /** A snapshot notification replaces the snapshot if it is newer; if it is not, it is
      counted as stale and changes nothing else; if its revision is not a printed u64, the
      frontend fails with an error recorded under the next id. */
  lemma SnapshotLaw(s: CoreState, x: SnapshotDto)
    ensures var r := Reduce(s, NotificationReceived(SnapshotNotification(x)));
            if TakesOver(s, x) then
              r == s.(snapshot := Some(x), pending := r.pending)
            else if Canonical(x.revision) then
              r == s.(stale := s.stale.(snapshots := s.stale.snapshots + 1))
            else
              && r == s.(errors := r.errors, lifecycle := r.lifecycle) && r.errors == Recorded(s.errors, INVALID_SNAPSHOT_REVISION)
              && r.lifecycle == Failed(INVALID_SNAPSHOT_REVISION, Some(s.errors.nextId))
  {
    AcceptIff(s, x);
  }

  ghost predicate SettledBy(s: CoreState, x: SnapshotDto, receipt: Receipt) {
    TakesOver(s, x) && receipt.submittedAtRevision.Some? && Supersedes(x.revision, receipt.submittedAtRevision.value)
  }

  lemma SettlesIff(s: CoreState, x: SnapshotDto, op: string)
    requires op in s.pending
    ensures op !in AcceptSnapshot(s, x, true).pending <==> SettledBy(s, x, s.pending[op])
    ensures op in AcceptSnapshot(s, x, true).pending ==> AcceptSnapshot(s, x, true).pending[op] == s.pending[op]
  {
    AcceptIff(s, x);
    ParsesIffCanonical(x.revision);
    var submitted := s.pending[op].submittedAtRevision;
    if submitted.Some? { AcceptsIffSupersedes(submitted.value, x.revision); }
  }

  /** The actions after which a pending receipt is gone. */
  ghost predicate Clears(s: CoreState, a: Action, op: string)
    requires op in s.pending
  {
    match a
    case BridgeOpening(_) => true
    case BridgeReady(profileId, x) => s.lifecycle == Opening(profileId) && SettledBy(s, x, s.pending[op])
    case BridgeFailed(_) => true
    case BridgeClosed => true
    case NotificationReceived(SnapshotNotification(x)) => SettledBy(s, x, s.pending[op])
    case NotificationReceived(ErrorNotification(_)) => true
    case CommandInvocationFailed(_) => true
    case CommandReceiptObserved(other) => other == op
    case CommandFailureObserved(other, _) => other == op
    case _ => false
  }

  /** A receipt leaves the table exactly by these actions, and one that stays is unchanged but
      for the kind of the last effect observed under its id. */
  lemma ReceiptLeavesIff(s: CoreState, a: Action, op: string)
    requires op in s.pending
    ensures op !in Reduce(s, a).pending <==> Clears(s, a, op)
    ensures op in Reduce(s, a).pending ==>
              Reduce(s, a).pending[op] ==
                if a.NotificationReceived? && a.notification.EffectNotification? && a.notification.effect.operationId == op
                then s.pending[op].(observedEffectKind := Some(a.notification.effect.effectKind)) else s.pending[op]
  {
    if a.BridgeReady? {
      SettlesIff(s, a.snapshot, op);
    } else if a.NotificationReceived? && a.notification.SnapshotNotification? {
      SettlesIff(s, a.notification.details, op);
    }
  }

  /** A receipt enters exactly when it is registered, not already outdated, and there is room;
      it then carries the revision it was submitted at, or else the current one. */
  lemma ReceiptEntersIff(s: CoreState, a: Action, op: string)
    requires op !in s.pending
    ensures op in Reduce(s, a).pending <==>
              && a.CommandPending? && a.operationId == op && |s.pending| < MAX_PENDING_COMMANDS
              && !(a.submittedAtRevision.Some? && s.snapshot.Some?
                   && Supersedes(s.snapshot.value.revision, a.submittedAtRevision.value))
    ensures op in Reduce(s, a).pending ==>
              Reduce(s, a).pending[op] == Receipt(op, a.commandKind,
                if a.submittedAtRevision.Some? then a.submittedAtRevision else CurrentRevision(s), None)
  {
    if a.CommandPending? && s.snapshot.Some? {
      NotNewerThanItself(s.snapshot.value.revision);
      if a.submittedAtRevision.Some? { AcceptsIffSupersedes(a.submittedAtRevision.value, s.snapshot.value.revision); }
    }
  }

  /** What counts as a stale notification or receipt. */
  ghost function StaleBy(s: CoreState, a: Action): Counters {
    match a
    case NotificationReceived(SnapshotNotification(x)) =>
      Counters(if Canonical(x.revision) && !TakesOver(s, x) then 1 else 0, 0, 0)
    case NotificationReceived(EffectNotification(e)) => Counters(0, if e.operationId in s.pending then 0 else 1, 0)
    case CommandPending(op, _, submitted) => Counters(0, 0, if !Outdated(s, submitted) && op in s.pending then 1 else 0)
    case CommandReceiptObserved(op) => Counters(0, 0, if op in s.pending then 0 else 1)
    case CommandFailureObserved(op, _) => Counters(0, 0, if op in s.pending then 0 else 1)
    case _ => Counters(0, 0, 0)
  }

  lemma StaleLaw(s: CoreState, a: Action)
    ensures var before, after, more := s.stale, Reduce(s, a).stale, StaleBy(s, a);
            && after.snapshots == before.snapshots + more.snapshots && after.effects == before.effects + more.effects
            && after.commandReceipts == before.commandReceipts + more.commandReceipts
  {
    if a.NotificationReceived? && a.notification.SnapshotNotification? { AcceptIff(s, a.notification.details); }
    if a.BridgeReady? { AcceptIff(s, a.snapshot); }
    if s.snapshot.Some? { NotNewerThanItself(s.snapshot.value.revision); }
  }

  predicate AboutCommand(a: Action) {
    a.CommandPending? || a.CommandReceiptObserved? || a.CommandInvocationFailed? || a.CommandFailureObserved?
  }

  /** The frontend becomes ready only for the profile it is opening and with a canonical
      snapshot; it fails exactly when told so or shown a revision that is not canonical. */
  lemma LifecycleLaw(s: CoreState, a: Action)
    ensures var next := Reduce(s, a).lifecycle;
            match a
            case BridgeOpening(profileId) => next == Opening(profileId)
            case BridgeReady(profileId, x) =>
              if s.lifecycle != Opening(profileId) then next == s.lifecycle
              else if Canonical(x.revision) then next == Ready(profileId)
              else next == Failed(INVALID_SNAPSHOT_REVISION, Some(s.errors.nextId))
            case BridgeFailed(error) => next == Failed(error, None)
            case BridgeClosed => next == Closed
            case NotificationReceived(SnapshotNotification(x)) =>
              if Canonical(x.revision) then next == s.lifecycle
              else next == Failed(INVALID_SNAPSHOT_REVISION, Some(s.errors.nextId))
            case _ => next == s.lifecycle
    ensures a.BridgeReady? && s.lifecycle == Opening(a.profileId) && TakesOver(s, a.snapshot) ==>
              Reduce(s, a).snapshot == Some(a.snapshot)
    ensures a.BridgeOpening? || a.BridgeFailed? || a.BridgeClosed? ==> Reduce(s, a).snapshot.None?
    ensures (a.NotificationReceived? && !a.notification.SnapshotNotification?) || a.ErrorDismissed? || AboutCommand(a) ==>
              Reduce(s, a).snapshot == s.snapshot
  {
    if a.NotificationReceived? && a.notification.SnapshotNotification? { AcceptIff(s, a.notification.details); }
    if a.BridgeReady? { AcceptIff(s, a.snapshot); }
  }

  // -------------------------------------------------- receipts racing with snapshots

  function ReceiptThenSnapshot(s: CoreState, op: string, kind: string, submitted: Option<string>, snapshot: SnapshotDto)
    : CoreState
  {
    ReduceNotification(ReduceCommandPending(s, op, kind, submitted), SnapshotNotification(snapshot))
  }

  function SnapshotThenReceipt(s: CoreState, op: string, kind: string, submitted: Option<string>, snapshot: SnapshotDto)
    : CoreState
  {
    ReduceCommandPending(ReduceNotification(s, SnapshotNotification(snapshot)), op, kind, submitted)
  }

  lemma SettledInsert(pending: map<string, Receipt>, revision: string, op: string, r: Receipt)
    requires ParseTs(revision).Some? && op !in pending
    ensures Settled(pending[op := r], revision)
         == if Settles(ParseTs(revision).value, r) then Settled(pending, revision)
            else Settled(pending, revision)[op := r]
  {}

  /** A receipt that names the revision it was submitted at may arrive before or after
      the newer snapshot that settles it: the snapshot and the pending table agree, also
      when its id is already pending or the table is full. */
  lemma ReceiptSnapshotRace(s: CoreState, op: string, kind: string, submitted: string, snapshot: SnapshotDto)
    requires Accept(s, snapshot) == Accepted
    requires ParseTs(submitted).Some? && ParseTs(snapshot.revision).value > ParseTs(submitted).value
    ensures var a := ReceiptThenSnapshot(s, op, kind, Some(submitted), snapshot);
            var b := SnapshotThenReceipt(s, op, kind, Some(submitted), snapshot);
            && a.snapshot == b.snapshot == Some(snapshot)
            && a.pending == b.pending == Settled(s.pending, snapshot.revision)
            && a.lifecycle == b.lifecycle && a.diagnostics == b.diagnostics
  {
    if op !in s.pending {
      SettledInsert(s.pending, snapshot.revision, op, Receipt(op, kind, Some(submitted), None));
    }
  }

  /** A receipt without its own revision takes the revision current when it is handled,
      so the two orders agree exactly when the settled table has no room for it. */
  lemma OmittedRevisionRace(s: CoreState, op: string, kind: string, snapshot: SnapshotDto)
    requires Accept(s, snapshot) == Accepted
    ensures var settled := Settled(s.pending, snapshot.revision);
            ReceiptThenSnapshot(s, op, kind, None, snapshot).pending
              == SnapshotThenReceipt(s, op, kind, None, snapshot).pending
            <==> op in settled || |settled| >= MAX_PENDING_COMMANDS
  {
    var settled := Settled(s.pending, snapshot.revision);
    SubmapSize(settled, s.pending);
    var early := Receipt(op, kind, CurrentRevision(s), None);
    var late := Receipt(op, kind, Some(snapshot.revision), None);
    if op !in s.pending { SettledInsert(s.pending, snapshot.revision, op, early); }
    if op !in settled && |settled| < MAX_PENDING_COMMANDS {
      assert SnapshotThenReceipt(s, op, kind, None, snapshot).pending == settled[op := late];
      assert early != late;
      assert ReceiptThenSnapshot(s, op, kind, None, snapshot).pending in {settled, settled[op := early]};
      assert settled[op := late][op] == late && settled[op := early][op] == early;
    }
  }

  /** The two orders do differ: with an empty table, the early receipt is settled by the
      snapshot and the late one stays pending. */
  lemma OmittedRevisionDiffers(op: string, kind: string)
    ensures var s := Initial().(snapshot := Some(SnapshotDto(Print(0), 0)));
            var next := SnapshotDto(Print(1), 1);
            && Accept(s, next) == Accepted
            && ReceiptThenSnapshot(s, op, kind, None, next).pending != SnapshotThenReceipt(s, op, kind, None, next).pending
  {
    ParseInvertsPrint("", 0);
    ParseInvertsPrint("", 1);
    var s := Initial().(snapshot := Some(SnapshotDto(Print(0), 0)));
    OmittedRevisionRace(s, op, kind, SnapshotDto(Print(1), 1));
  }

  // ------------------------------------------------------------------- the draft state

  /** The slice as the draft its reducers mutate. */
  class Slice {
    var snapshot: Option<SnapshotDto>
    var lifecycle: Lifecycle
    var pending: map<string, Receipt>
    var errors: seq<ObservedError>
    var nextErrorId: nat
    var droppedErrors: nat
    var diagnostics: seq<int>
    var droppedDiagnostics: nat
    var stale: Counters

    ghost function State(): CoreState
      reads this
    {
      CoreState(snapshot, lifecycle, pending, ErrorLog(errors, nextErrorId, droppedErrors),
                DiagnosticLog(diagnostics, droppedDiagnostics), stale)
    }

    constructor ()
      ensures State() == Initial()
    {
      snapshot, lifecycle, pending := None, Closed, map[];
      errors, nextErrorId, droppedErrors := [], 1, 0;
      diagnostics, droppedDiagnostics := [], 0;
      stale := Counters(0, 0, 0);
    }

    method RecordFrontendError(error: ErrorDetail)
      modifies this
      ensures State() == RecordError(old(State()), error)
    {
      var entry := ObservedError(nextErrorId, error);
      nextErrorId := nextErrorId + 1;
      if |errors| >= MAX_ERRORS {
        errors := errors[1..];
        droppedErrors := droppedErrors + 1;
      }
      errors := errors + [entry];
    }

    /** Walks the receipts one by one and deletes those the snapshot supersedes. */
    method SettleCommandsFromSnapshot(revision: string)
      modifies this
      ensures State() == old(State()).(pending := Settled(old(pending), revision))
    {
      var incoming := ParseTs(revision);
      if incoming.None? { return; }
      var todo := pending.Keys;
      while todo != {}
        invariant todo <= pending.Keys <= old(pending.Keys)
        invariant forall op :: op in pending ==> pending[op] == old(pending)[op]
        invariant forall op :: op in old(pending) && op !in todo ==>
                    (op in pending <==> !Settles(incoming.value, old(pending)[op]))
        invariant State() == old(State()).(pending := pending)
        decreases todo
      {
        var op :| op in todo;
        if Settles(incoming.value, pending[op]) {
          pending := pending - {op};
        }
        todo := todo - {op};
      }
      assert pending == Settled(old(pending), revision);
    }

    method TakeSnapshot(incoming: SnapshotDto, countStale: bool) returns (acceptance: Acceptance)
      modifies this
      ensures acceptance == Accept(old(State()), incoming)
      ensures State() == AcceptSnapshot(old(State()), incoming, countStale)
    {
      if ParseTs(incoming.revision).None? {
        RecordFrontendError(INVALID_SNAPSHOT_REVISION);
        return Invalid;
      }
      var current := if snapshot.Some? then Some(snapshot.value.revision) else None;
      if !ShouldAcceptSnapshot(current, incoming.revision) {
        if countStale { stale := stale.(snapshots := stale.snapshots + 1); }
        return Stale;
      }
      snapshot := Some(incoming);
      SettleCommandsFromSnapshot(incoming.revision);
      acceptance := Accepted;
    }

    method FailFromLatest()
      modifies this
      ensures State() == FailFromLatestError(old(State()))
    {
      if errors == [] {
        lifecycle := Failed(MISSING_FAILURE_DETAIL, None);
      } else {
        var last := errors[|errors| - 1];
        lifecycle := Failed(last.detail, Some(last.id));
      }
    }

    method Notify(n: NotificationDto)
      modifies this
      ensures State() == ReduceNotification(old(State()), n)
    {
      match n
      case SnapshotNotification(details) =>
        var acceptance := TakeSnapshot(details, true);
        if acceptance == Invalid { FailFromLatest(); }
      case EffectNotification(effect) =>
        if effect.operationId !in pending {
          stale := stale.(effects := stale.effects + 1);
        } else {
          pending := pending[effect.operationId :=
                             pending[effect.operationId].(observedEffectKind := Some(effect.effectKind))];
        }
      case ErrorNotification(error) =>
        pending := map[];
        RecordFrontendError(error);
      case DiagnosticNotification(diagnostic) =>
        if |diagnostics| >= MAX_DIAGNOSTICS {
          diagnostics := diagnostics[1..];
          droppedDiagnostics := droppedDiagnostics + 1;
        }
        diagnostics := diagnostics + [diagnostic];
    }

    method AddPending(op: string, kind: string, submitted: Option<string>)
      modifies this
      ensures State() == ReduceCommandPending(old(State()), op, kind, submitted)
    {
      var current := if snapshot.Some? then Some(snapshot.value.revision) else None;
      var revision := if submitted.Some? then submitted else current;
      if revision.Some? && current.Some? && ShouldAcceptSnapshot(revision, current.value) { return; }
      if op in pending {
        stale := stale.(commandReceipts := stale.commandReceipts + 1);
        RecordFrontendError(DUPLICATE_PENDING_COMMAND);
        return;
      }
      if |pending| >= MAX_PENDING_COMMANDS {
        RecordFrontendError(PENDING_COMMAND_OVERFLOW);
        return;
      }
      pending := pending[op := Receipt(op, kind, revision, None)];
    }

    method RemoveReceipt(op: string)
      modifies this
      ensures State() == WithoutReceipt(old(State()), op)
    {
      if op !in pending {
        stale := stale.(commandReceipts := stale.commandReceipts + 1);
      } else {
        pending := pending - {op};
      }
    }

    method BecomeReady(profileId: string, incoming: SnapshotDto)
      modifies this
      ensures State() == Reduce(old(State()), BridgeReady(profileId, incoming))
    {
      if lifecycle != Opening(profileId) {
        RecordFrontendError(UNEXPECTED_BRIDGE_READY);
        return;
      }
      var acceptance := TakeSnapshot(incoming, false);
      if acceptance == Invalid { FailFromLatest(); } else { lifecycle := Ready(profileId); }
    }

    /** Any action of the slice. */
    method Dispatch(a: Action)
      modifies this
      ensures State() == Reduce(old(State()), a)
    {
      match a
      case BridgeOpening(profileId) => snapshot, pending, lifecycle := None, map[], Opening(profileId);
      case BridgeReady(profileId, incoming) => BecomeReady(profileId, incoming);
      case BridgeFailed(error) =>
        snapshot, pending, lifecycle := None, map[], Failed(error, None);
        RecordFrontendError(error);
      case BridgeClosed => lifecycle, snapshot, pending := Closed, None, map[];
      case NotificationReceived(n) => Notify(n);
      case CommandPending(op, kind, submitted) => AddPending(op, kind, submitted);
      case CommandReceiptObserved(op) => RemoveReceipt(op);
      case CommandInvocationFailed(error) =>
        pending := map[];
        RecordFrontendError(error);
      case CommandFailureObserved(op, error) =>
        RemoveReceipt(op);
        RecordFrontendError(error);
      case ErrorDismissed(id) => errors := Dismiss(errors, id);
    }
  }
}
