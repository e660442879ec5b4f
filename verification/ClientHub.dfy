/**
 The hub gives every outgoing notification the next event id under one emit lock and
 hands it to the replay buffer, replacing a notification that is too large by a marker.
 */
module ClientHub {
  import opened Wrappers
  import opened Replay

  const NOTIFICATION_MAX_BYTES: nat := 256 * 1024
  const REPLAY_MAX_BYTES: nat := 16 * 1024 * 1024
  const REPLAY_RESPONSE_MAX_BYTES: nat := 4 * 1024 * 1024

  /** A notification before it has an event id. */
  datatype Outgoing<+M, +J> = Outgoing(method_: M, params: J)

  /** The envelope sent to clients; the second form replaces an oversized first one. */
  datatype Payload<+M, +J> =
    | Notification(eventId: nat, method_: M, params: J)
    | Truncated(eventId: nat, originalMethod: M, originalBytes: nat)

  datatype Snapshot<+M, +J> = Snapshot(
    events: seq<Payload<M, J>>, hasMore: bool, returnedBytes: nat,
    earliestEventId: Option<nat>, latestEventId: nat)

  /** The envelope that is really stored for a notification. */
  function StoredPayload<M, J>(size: Payload<M, J> -> nat, id: nat, n: Outgoing<M, J>): Payload<M, J> {
    var full := Notification(id, n.method_, n.params);
    if size(full) > NOTIFICATION_MAX_BYTES then Truncated(id, n.method_, size(full)) else full
  }

  function StoredEntry<M, J>(size: Payload<M, J> -> nat, id: nat, n: Outgoing<M, J>): Entry<Payload<M, J>> {
    var p := StoredPayload(size, id, n);
    Entry(id, p, size(p))
  }

  /** The entry is that of this notification: the notification itself, or a marker with its method and size when it is too large. */
  predicate Carries<M(==), J(==)>(size: Payload<M, J> -> nat, id: nat, n: Outgoing<M, J>, e: Entry<Payload<M, J>>) {
    var full := Notification(id, n.method_, n.params);
    && e.eventId == id && e.bytes == size(e.payload)
    && (e.payload == full <==> size(full) <= NOTIFICATION_MAX_BYTES)
    && (size(full) > NOTIFICATION_MAX_BYTES ==> e.payload == Truncated(id, n.method_, size(full)))
  }

  lemma StoredCarries<M, J>(size: Payload<M, J> -> nat, id: nat, n: Outgoing<M, J>)
    ensures Carries(size, id, n, StoredEntry(size, id, n))
  {
  }

  /** Consecutive ids ending at latest. */
  ghost predicate EndsAt<P>(entries: seq<Entry<P>>, latest: nat) {
    && |entries| <= latest
    && forall i :: 0 <= i < |entries| ==> entries[i].eventId == latest - |entries| + 1 + i
  }

  ghost predicate BelowId<P>(entries: seq<Entry<P>>, next: nat) {
    forall i :: 0 <= i < |entries| ==> entries[i].eventId < next
  }

  /** What storing the notification with the next id keeps. */
  lemma HistoryStep<P>(admitted: seq<Entry<P>>, e: Entry<P>)
    requires Increasing(admitted) && BelowId(admitted, e.eventId)
    ensures Increasing(admitted + [e]) && BelowId(admitted + [e], e.eventId + 1) && BelowId(admitted, e.eventId + 1)
    ensures e.eventId == |admitted| + 1 && EndsAt(admitted, |admitted|) ==> EndsAt(admitted + [e], |admitted| + 1)
  {
  }

  class Hub<M, J> {
    var nextEventId: nat
    const replay: NotificationReplay<Payload<M, J>>
    /** The length in bytes of a serialized envelope. */
    const size: Payload<M, J> -> nat

    ghost predicate Valid()
      reads this, replay
    {
      && nextEventId >= 1
      && replay.Valid()
      && replay.maxBytes == REPLAY_MAX_BYTES
      && Increasing(replay.admitted)
      && BelowId(replay.admitted, nextEventId)
    }

    /** Every id given out so far was admitted, so the retained ids are consecutive up to the latest. */
    ghost predicate Gapless()
      reads this, replay
    {
      nextEventId == |replay.admitted| + 1 && EndsAt(replay.admitted, |replay.admitted|)
    }

    constructor (replayCapacity: nat, size: Payload<M, J> -> nat)
      ensures Valid() && Gapless() && fresh(replay)
      ensures replay.capacity == replayCapacity && this.size == size && nextEventId == 1
    {
      nextEventId := 1;
      this.size := size;
      replay := new NotificationReplay(replayCapacity, REPLAY_MAX_BYTES);
    }

    function LatestEventId(): nat
      reads this
    {
      if nextEventId == 0 then 0 else nextEventId - 1
    }

    /** `broadcast_external_notification`, up to the hand-over to the client channels. */
    method BroadcastExternalNotification(n: Outgoing<M, J>) returns (eventId: nat)
      requires Valid()
      modifies this, replay
      ensures Valid()
      ensures eventId == old(nextEventId) && nextEventId == old(nextEventId) + 1
      ensures replay.admitted == if Admits(replay.capacity, size, eventId, n)
                                 then old(replay.admitted) + [StoredEntry(size, eventId, n)]
                                 else old(replay.admitted)
      ensures replay.admitted == old(replay.admitted)
              || (|replay.admitted| == |old(replay.admitted)| + 1 && replay.admitted[..|old(replay.admitted)|] == old(replay.admitted)
                  && Carries(size, eventId, n, replay.admitted[|old(replay.admitted)|]))
      ensures old(Gapless()) ==> (Gapless() <==> Admits(replay.capacity, size, eventId, n))
    {
      eventId := nextEventId;
      nextEventId := nextEventId + 1;
      var payload := Notification(eventId, n.method_, n.params);
      var payloadBytes := size(payload);
      if payloadBytes > NOTIFICATION_MAX_BYTES {
        payload := Truncated(eventId, n.method_, payloadBytes);
        payloadBytes := size(payload);
      }
      hide LongestFitting, Increasing, EndsAt, BelowId;
      HistoryStep(replay.admitted, Entry(eventId, payload, payloadBytes));
      StoredCarries(size, eventId, n);
      replay.Push(eventId, payload, payloadBytes);
      if !Admits(replay.capacity, size, eventId, n) {
        assert old(Gapless()) ==> nextEventId == |replay.admitted| + 2;
      }
    }

    /** The loop over the notifications of one kind. */
    method BroadcastEach(ns: seq<Outgoing<M, J>>)
      requires Valid()
      modifies this, replay
      ensures Valid() && nextEventId == old(nextEventId) + |ns|
      ensures replay.admitted == old(replay.admitted) + Admitted(replay.capacity, size, old(nextEventId), ns)
      ensures old(Gapless()) && AllAdmitted(replay.capacity, size, old(nextEventId), ns) ==> Gapless()
    {
      hide Admitted, AllAdmitted, Admits, StoredEntry, EndsAt, Increasing, LongestFitting, BelowId, Gapless;
      ghost var first := nextEventId;
      AdmittedNothing(replay.capacity, size, first, ns);
      var i := 0;
      while i < |ns|
        invariant i <= |ns| && Valid() && nextEventId == first + i
        invariant replay.admitted == old(replay.admitted) + Admitted(replay.capacity, size, first, ns[..i])
        invariant old(Gapless()) && AllAdmitted(replay.capacity, size, first, ns[..i]) ==> Gapless()
      {
        var _ := BroadcastExternalNotification(ns[i]);
        AdmittedNext(replay.capacity, size, first, ns, i);
        i := i + 1;
      }
      assert ns[..i] == ns;
    }

    /** The notifications of one canonical event: the stream events first, then the controls. */
    method BroadcastCanonicalEvent(events: seq<Outgoing<M, J>>, controls: seq<Outgoing<M, J>>)
      requires Valid()
      modifies this, replay
      ensures Valid() && nextEventId == old(nextEventId) + |events| + |controls|
      ensures replay.admitted == old(replay.admitted)
                                 + Admitted(replay.capacity, size, old(nextEventId), events + controls)
      ensures old(Gapless()) && AllAdmitted(replay.capacity, size, old(nextEventId), events + controls) ==> Gapless()
    {
      hide Admitted, AllAdmitted, EndsAt, Increasing, LongestFitting;
      AdmittedConcat(replay.capacity, size, nextEventId, events, controls);
      if AllAdmitted(replay.capacity, size, nextEventId, events + controls) {
        AllAdmittedConcat(replay.capacity, size, nextEventId, events, controls);
      }
      BroadcastEach(events);
      BroadcastEach(controls);
    }

    method ReplaySnapshot(afterEventId: Option<nat>, limit: nat) returns (s: Snapshot<M, J>)
      requires Valid()
      ensures var rest := After(replay.entries, if afterEventId.Some? then afterEventId.value else 0);
              && IsPage(rest, |s.events|, limit, REPLAY_RESPONSE_MAX_BYTES)
              && s.events == Payloads(rest[..|s.events|])
              && (s.hasMore <==> |s.events| < |rest|)
              && s.returnedBytes == TotalBytes(rest[..|s.events|])
      ensures s.latestEventId == LatestEventId()
      ensures s.earliestEventId == (if replay.entries == [] then None else Some(replay.entries[0].eventId))
    {
      var events, hasMore, bytes := replay.Since(afterEventId, limit, REPLAY_RESPONSE_MAX_BYTES);
      var earliest := replay.EarliestEventId();
      s := Snapshot(events, hasMore, bytes, earliest, LatestEventId());
    }
  }

  /** The buffer takes the notification that is given this id. */
  predicate Admits<M, J>(capacity: nat, size: Payload<M, J> -> nat, id: nat, n: Outgoing<M, J>) {
    capacity > 0 && StoredEntry(size, id, n).bytes <= REPLAY_MAX_BYTES
  }

  ghost predicate AllAdmitted<M, J>(capacity: nat, size: Payload<M, J> -> nat, first: nat, ns: seq<Outgoing<M, J>>) {
    forall i :: 0 <= i < |ns| ==> Admits(capacity, size, first + i, ns[i])
  }

  /** What the buffer takes of notifications given the ids from first on. */
  function Admitted<M, J>(capacity: nat, size: Payload<M, J> -> nat, first: nat, ns: seq<Outgoing<M, J>>)
    : seq<Entry<Payload<M, J>>>
  {
    if ns == [] then []
    else
      var last := |ns| - 1;
      Admitted(capacity, size, first, ns[..last])
      + if Admits(capacity, size, first + last, ns[last]) then [StoredEntry(size, first + last, ns[last])] else []
  }

  lemma AdmittedNothing<M, J>(capacity: nat, size: Payload<M, J> -> nat, first: nat, ns: seq<Outgoing<M, J>>)
    ensures Admitted(capacity, size, first, ns[..0]) == [] && AllAdmitted(capacity, size, first, ns[..0])
  {
  }

  lemma AdmittedNext<M, J>(capacity: nat, size: Payload<M, J> -> nat, first: nat, ns: seq<Outgoing<M, J>>, i: nat)
    requires i < |ns|
    ensures Admitted(capacity, size, first, ns[..i + 1])
            == Admitted(capacity, size, first, ns[..i])
               + (if Admits(capacity, size, first + i, ns[i]) then [StoredEntry(size, first + i, ns[i])] else [])
    ensures AllAdmitted(capacity, size, first, ns[..i + 1])
            <==> AllAdmitted(capacity, size, first, ns[..i]) && Admits(capacity, size, first + i, ns[i])
  {
    hide Admits, StoredEntry;
    var more := ns[..i + 1];
    assert more[..i] == ns[..i] && more[i] == ns[i];
    assert forall k :: 0 <= k < i ==> more[k] == ns[..i][k];
  }

  lemma {:induction false} AdmittedConcat<M, J>(
    capacity: nat, size: Payload<M, J> -> nat, first: nat, a: seq<Outgoing<M, J>>, b: seq<Outgoing<M, J>>)
    ensures Admitted(capacity, size, first, a + b)
            == Admitted(capacity, size, first, a) + Admitted(capacity, size, first + |a|, b)
  {
    hide Admits, StoredEntry;
    if b == [] {
      assert a + b == a;
    } else {
      var last := |b| - 1;
      assert (a + b)[..|a| + last] == a + b[..last];
      AdmittedConcat(capacity, size, first, a, b[..last]);
    }
  }

  lemma AllAdmittedConcat<M, J>(
    capacity: nat, size: Payload<M, J> -> nat, first: nat, a: seq<Outgoing<M, J>>, b: seq<Outgoing<M, J>>)
    requires AllAdmitted(capacity, size, first, a + b)
    ensures AllAdmitted(capacity, size, first, a) && AllAdmitted(capacity, size, first + |a|, b)
  {
    hide Admits;
    forall i | 0 <= i < |a| ensures Admits(capacity, size, first + i, a[i]) {
      assert (a + b)[i] == a[i];
    }
    forall i | 0 <= i < |b| ensures Admits(capacity, size, first + |a| + i, b[i]) {
      assert (a + b)[|a| + i] == b[i];
    }
  }

  /** The replacement of an oversized notification keeps every id storable, as long as the marker itself is small. */
  lemma ReplacementKeepsStorable<M, J>(
    capacity: nat, size: Payload<M, J> -> nat, first: nat, ns: seq<Outgoing<M, J>>)
    requires capacity > 0
    requires forall i :: 0 <= i < |ns| ==>
               size(Truncated(first + i, ns[i].method_, size(Notification(first + i, ns[i].method_, ns[i].params))))
               <= REPLAY_MAX_BYTES
    ensures AllAdmitted(capacity, size, first, ns)
  {
    forall i | 0 <= i < |ns| ensures Admits(capacity, size, first + i, ns[i]) {
      assert size(StoredPayload(size, first + i, ns[i])) <= REPLAY_MAX_BYTES;
    }
  }

  // ---- gap detection ----

  /** An event after the cursor that the buffer no longer holds. */
  ghost predicate Lost<P>(retained: seq<Entry<P>>, latest: nat, cursor: nat, id: int) {
    cursor < id <= latest && forall i :: 0 <= i < |retained| ==> retained[i].eventId != id
  }

  /** A client has lost events exactly when the id after its cursor is older than the earliest retained one. */
  lemma GapDetection<P>(retained: seq<Entry<P>>, latest: nat, cursor: nat)
    requires EndsAt(retained, latest) && (retained == [] ==> latest == 0)
    ensures (exists id :: Lost(retained, latest, cursor, id))
            <==> (retained != [] && cursor + 1 < retained[0].eventId)
  {
    if retained != [] {
      if cursor + 1 < retained[0].eventId {
        assert Lost(retained, latest, cursor, cursor + 1);
      }
      forall id | cursor + 1 >= retained[0].eventId && cursor < id <= latest
        ensures !Lost(retained, latest, cursor, id)
      {
        assert retained[id - retained[0].eventId].eventId == id;
      }
    }
  }

  /** The client's test against the earliest retained id tells whether it lost events. */
  ghost predicate Detects<P>(retained: seq<Entry<P>>, latest: nat, cursor: nat) {
    (exists id :: Lost(retained, latest, cursor, id))
    <==> (retained != [] && cursor + 1 < retained[0].eventId)
  }

  /** At every hub that stored all it sent, the retained ids are the interval ending at the latest id, so the test is exact. */
  lemma HubGapDetection<M, J>(hub: Hub<M, J>, cursor: nat)
    requires hub.Valid() && hub.Gapless()
    ensures EndsAt(hub.replay.entries, hub.LatestEventId())
    ensures Detects(hub.replay.entries, hub.LatestEventId(), cursor)
  {
    hide LongestFitting, Increasing;
    assert hub.replay.evicted <= |hub.replay.admitted| by {
      LongestFittingBound(hub.replay);
    }
    GapDetection(hub.replay.entries, hub.LatestEventId(), cursor);
  }

  lemma LongestFittingBound<P>(replay: NotificationReplay<P>)
    requires replay.Valid()
    ensures replay.evicted <= |replay.admitted|
  {
  }

  // ---- any sequence of broadcasts ----

  datatype Broadcast<+M, +J> =
    | External(notification: Outgoing<M, J>)
    | Canonical(events: seq<Outgoing<M, J>>, controls: seq<Outgoing<M, J>>)

  function Notifications<M, J>(b: Broadcast<M, J>): seq<Outgoing<M, J>> {
    match b
    case External(n) => [n]
    case Canonical(events, controls) => events + controls
  }

  /** The marker that would replace the notification is small enough to be kept, whatever id it gets. */
  ghost predicate SmallMarker<M, J>(size: Payload<M, J> -> nat, n: Outgoing<M, J>) {
    forall id: nat :: size(Truncated(id, n.method_, size(Notification(id, n.method_, n.params)))) <= REPLAY_MAX_BYTES
  }

  ghost predicate SmallMarkers<M, J>(size: Payload<M, J> -> nat, ns: seq<Outgoing<M, J>>) {
    forall i :: 0 <= i < |ns| ==> SmallMarker(size, ns[i])
  }

  lemma SmallMarkersAdmitted<M, J>(capacity: nat, size: Payload<M, J> -> nat, first: nat, ns: seq<Outgoing<M, J>>)
    requires capacity > 0 && SmallMarkers(size, ns)
    ensures AllAdmitted(capacity, size, first, ns)
  {
    forall i | 0 <= i < |ns|
      ensures size(Truncated(first + i, ns[i].method_, size(Notification(first + i, ns[i].method_, ns[i].params))))
              <= REPLAY_MAX_BYTES
    {
      assert SmallMarker(size, ns[i]);
    }
    ReplacementKeepsStorable(capacity, size, first, ns);
  }

  /** How many notifications a sequence of broadcasts sends. */
  function Sent<M, J>(broadcasts: seq<Broadcast<M, J>>): nat {
    if broadcasts == [] then 0
    else Sent(broadcasts[..|broadcasts| - 1]) + |Notifications(broadcasts[|broadcasts| - 1])|
  }

  /** All notifications of the broadcasts, in the order they are sent. */
  function AllSent<M, J>(broadcasts: seq<Broadcast<M, J>>): seq<Outgoing<M, J>> {
    if broadcasts == [] then []
    else AllSent(broadcasts[..|broadcasts| - 1]) + Notifications(broadcasts[|broadcasts| - 1])
  }

  lemma AllAdmittedJoins<M, J>(
    capacity: nat, size: Payload<M, J> -> nat, first: nat, a: seq<Outgoing<M, J>>, b: seq<Outgoing<M, J>>)
    requires AllAdmitted(capacity, size, first, a) && AllAdmitted(capacity, size, first + |a|, b)
    ensures AllAdmitted(capacity, size, first, a + b)
  {
    hide Admits;
    forall i | 0 <= i < |a + b| ensures Admits(capacity, size, first + i, (a + b)[i]) {
      if i >= |a| {
        assert Admits(capacity, size, first + |a| + (i - |a|), b[i - |a|]);
      }
    }
  }

  /** When all are admitted, each entry carries its notification. */
  lemma {:induction false} AdmittedCarry<M, J>(capacity: nat, size: Payload<M, J> -> nat, first: nat, ns: seq<Outgoing<M, J>>)
    requires AllAdmitted(capacity, size, first, ns)
    ensures |Admitted(capacity, size, first, ns)| == |ns|
    ensures forall k :: 0 <= k < |ns| ==> Carries(size, first + k, ns[k], Admitted(capacity, size, first, ns)[k])
  {
    hide Admits, StoredEntry, Carries;
    if ns != [] {
      var last := |ns| - 1;
      assert ns == ns[..last] + [ns[last]];
      AllAdmittedConcat(capacity, size, first, ns[..last], [ns[last]]);
      AdmittedCarry(capacity, size, first, ns[..last]);
      StoredCarries(size, first + last, ns[last]);
    }
  }

  /** Any sequence of broadcasts of a new hub leaves no gap, so after it every client's test is exact; and the entries are the notifications. */
  method BroadcastAll<M, J>(capacity: nat, size: Payload<M, J> -> nat, broadcasts: seq<Broadcast<M, J>>)
    returns (hub: Hub<M, J>)
    requires capacity > 0
    requires forall i :: 0 <= i < |broadcasts| ==> SmallMarkers(size, Notifications(broadcasts[i]))
    ensures fresh(hub) && hub.Valid() && hub.Gapless()
    ensures hub.LatestEventId() == Sent(broadcasts) == |hub.replay.admitted|
    ensures EndsAt(hub.replay.entries, Sent(broadcasts))
    ensures forall cursor: nat :: Detects(hub.replay.entries, Sent(broadcasts), cursor)
    ensures |AllSent(broadcasts)| == |hub.replay.admitted|
    ensures forall k :: 0 <= k < |hub.replay.admitted| ==>
                          Carries(size, k + 1, AllSent(broadcasts)[k], hub.replay.admitted[k])
  {
    hide Carries, StoredEntry, Notifications, SmallMarkers, AllAdmitted, Admitted, Admits, EndsAt, Increasing, BelowId, LongestFitting, Detects;
    hub := new Hub(capacity, size);
    AdmittedNothing(capacity, size, 1, AllSent(broadcasts[..0]));
    assert AllSent(broadcasts[..0]) == [] == AllSent(broadcasts[..0])[..0];
    var i := 0;
    while i < |broadcasts|
      invariant i <= |broadcasts| && hub.Valid() && hub.Gapless()
      invariant hub.nextEventId == 1 + Sent(broadcasts[..i]) == 1 + |AllSent(broadcasts[..i])|
      invariant AllAdmitted(capacity, size, 1, AllSent(broadcasts[..i]))
      invariant hub.replay.admitted == Admitted(capacity, size, 1, AllSent(broadcasts[..i]))
      invariant hub.size == size && hub.replay.capacity == capacity && fresh(hub) && fresh(hub.replay)
    {
      ghost var sent, ns := AllSent(broadcasts[..i]), Notifications(broadcasts[i]);
      SmallMarkersAdmitted(capacity, size, hub.nextEventId, ns);
      AdmittedConcat(capacity, size, 1, sent, ns);
      AllAdmittedJoins(capacity, size, 1, sent, ns);
      assert broadcasts[..i + 1][..i] == broadcasts[..i];
      NotificationsOf(broadcasts[i]);
      match broadcasts[i] {
        case External(n) =>
          OneAdmitted(capacity, size, hub.nextEventId, n);
          var _ := hub.BroadcastExternalNotification(n);
        case Canonical(events, controls) => hub.BroadcastCanonicalEvent(events, controls);
      }
      i := i + 1;
    }
    assert broadcasts[..i] == broadcasts;
    AdmittedCarry(capacity, size, 1, AllSent(broadcasts));
    HubGapDetection(hub, 0);
    forall cursor: nat ensures Detects(hub.replay.entries, Sent(broadcasts), cursor) {
      HubGapDetection(hub, cursor);
    }
  }

  lemma NotificationsOf<M, J>(b: Broadcast<M, J>)
    ensures b.External? ==> Notifications(b) == [b.notification]
    ensures b.Canonical? ==> Notifications(b) == b.events + b.controls
  {
  }

  lemma OneAdmitted<M, J>(capacity: nat, size: Payload<M, J> -> nat, id: nat, n: Outgoing<M, J>)
    requires AllAdmitted(capacity, size, id, [n])
    ensures Admits(capacity, size, id, n) && Admitted(capacity, size, id, [n]) == [StoredEntry(size, id, n)]
  {
    hide StoredEntry;
    assert [n][0] == n && Admits(capacity, size, id + 0, [n][0]);
    assert [n][..0] == [];
  }
}
