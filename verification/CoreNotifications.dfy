/** Values that cross from the core actor to the desktop frontend. */
module CoreNotifications {

  datatype Option<+T> = None | Some(value: T)

  const U64_MAX: nat := 0xFFFF_FFFF_FFFF_FFFF

  type u64 = x: nat | x <= 0xFFFF_FFFF_FFFF_FFFF

  datatype CoreSnapshot = CoreSnapshot(revision: u64, body: int)

  datatype Effect = EffectValue(operationId: string, effectKind: string)

  datatype ErrorDetail = ErrorDetail(
    code: string, subsystem: string, severity: string, retryable: bool, message: string)

  /** Every notification that is not a snapshot. */
  datatype Event =
    | PlatformEffect(effect: Effect)
    | TransportEffect(effect: Effect)
    | StorageEffect(effect: Effect)
    | CoreError(error: ErrorDetail)
    | Diagnostic(detail: int)

  datatype Notification =
    | Snapshot(snapshot: CoreSnapshot)
    | Other(event: Event)

  /** The non-snapshot notifications of a stream, in order. */
  function EventsOf(stream: seq<Notification>): (r: seq<Event>) {
    if stream == [] then []
    else
      var last := stream[|stream| - 1];
      EventsOf(stream[..|stream| - 1]) + (if last.Other? then [last.event] else [])
  }

  lemma EventsOfSnoc(stream: seq<Notification>, n: Notification)
    ensures EventsOf(stream + [n]) == EventsOf(stream) + (if n.Other? then [n.event] else [])
  {
    assert (stream + [n])[..|stream|] == stream;
  }

  /** Keeps the current snapshot unless the notification is a strictly newer one. */
  function Newer(current: Option<CoreSnapshot>, n: Notification): Option<CoreSnapshot> {
    if n.Snapshot? && (current.None? || n.snapshot.revision > current.value.revision)
    then Some(n.snapshot) else current
  }

  /** The snapshot an uncoalesced reader of the stream would end with. */
  function LatestOf(start: Option<CoreSnapshot>, stream: seq<Notification>): Option<CoreSnapshot> {
    if stream == [] then start
    else Newer(LatestOf(start, stream[..|stream| - 1]), stream[|stream| - 1])
  }

  lemma LatestOfSnoc(start: Option<CoreSnapshot>, stream: seq<Notification>, n: Notification)
    ensures LatestOf(start, stream + [n]) == Newer(LatestOf(start, stream), n)
  {
    assert (stream + [n])[..|stream|] == stream;
  }
}
