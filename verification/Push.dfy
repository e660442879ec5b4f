/**
 Push notifications: targets go out in batches, every reply is accounted for, and the reply text kept
 for previews is bounded. Whatever the push service answers, each target is counted exactly once.
 */
module Push {
  import opened Wrappers
  import opened Utf8

  const EXPO_PUSH_BATCH_SIZE: nat := 100
  const PUSH_PREVIEW_ACCUMULATE_CAP: nat := 8_000
  const PUSH_PREVIEW_MAX_THREADS: nat := 256

  /** Tokens, receipt ids and thread ids. */
  type Id = nat

  /** One ticket of a reply; anything that is neither accepted nor refused is unreadable. */
  datatype Ticket = Accepted(receipt: Option<Id>) | Refused(unregistered: bool) | Unreadable

  /** What the push service answers to a batch; without tickets it counts as a transport failure. */
  datatype Reply = Nothing | Tickets(tickets: seq<Ticket>)

  // ---- what becomes of one target ----

  /** The ticket for the target at index k, if there is one: batches are answered in order. */
  function TicketFor(reply: nat -> Reply, k: nat): Option<Ticket> {
    match reply(k / EXPO_PUSH_BATCH_SIZE)
    case Nothing => None
    case Tickets(tickets) =>
      if k % EXPO_PUSH_BATCH_SIZE < |tickets| then Some(tickets[k % EXPO_PUSH_BATCH_SIZE]) else None
  }

  predicate IsAccepted(reply: nat -> Reply, k: nat) {
    TicketFor(reply, k).Some? && TicketFor(reply, k).value.Accepted?
  }

  /** How many of the targets with indices from lo to hi were accepted. */
  function AcceptedIn(reply: nat -> Reply, lo: nat, hi: nat): nat
    requires lo <= hi
    decreases hi
  {
    if lo == hi then 0 else AcceptedIn(reply, lo, hi - 1) + if IsAccepted(reply, hi - 1) then 1 else 0
  }

  function StaleIn(reply: nat -> Reply, targets: seq<Id>, lo: nat, hi: nat): seq<Id>
    requires lo <= hi <= |targets|
    decreases hi
  {
    if lo == hi then []
    else StaleIn(reply, targets, lo, hi - 1) + if TicketFor(reply, hi - 1) == Some(Refused(true)) then [targets[hi - 1]] else []
  }

  function ReceiptOf(t: Option<Ticket>): Option<Id> {
    if t.Some? && t.value.Accepted? then t.value.receipt else None
  }

  function ReceiptsIn(reply: nat -> Reply, targets: seq<Id>, lo: nat, hi: nat): seq<(Id, Id)>
    requires lo <= hi <= |targets|
    decreases hi
  {
    if lo == hi then []
    else
      ReceiptsIn(reply, targets, lo, hi - 1)
      + match ReceiptOf(TicketFor(reply, hi - 1)) case Some(id) => [(id, targets[hi - 1])] case None => []
  }

  lemma {:induction false} AcceptedSplit(reply: nat -> Reply, lo: nat, mid: nat, hi: nat)
    requires lo <= mid <= hi
    ensures AcceptedIn(reply, lo, hi) == AcceptedIn(reply, lo, mid) + AcceptedIn(reply, mid, hi)
    ensures AcceptedIn(reply, mid, hi) <= hi - mid
    decreases hi
  {
    hide IsAccepted;
    if mid < hi {
      AcceptedSplit(reply, lo, mid, hi - 1);
    }
  }

  lemma {:induction false} ListsSplit(reply: nat -> Reply, targets: seq<Id>, lo: nat, mid: nat, hi: nat)
    requires lo <= mid <= hi <= |targets|
    ensures StaleIn(reply, targets, lo, hi) == StaleIn(reply, targets, lo, mid) + StaleIn(reply, targets, mid, hi)
    ensures ReceiptsIn(reply, targets, lo, hi) == ReceiptsIn(reply, targets, lo, mid) + ReceiptsIn(reply, targets, mid, hi)
    decreases hi
  {
    hide TicketFor, ReceiptOf;
    if mid < hi {
      ListsSplit(reply, targets, lo, mid, hi - 1);
    }
  }

  /** Targets without a ticket are in no list. */
  lemma {:induction false} NoTickets(reply: nat -> Reply, targets: seq<Id>, lo: nat, hi: nat)
    requires lo <= hi <= |targets| && forall k :: lo <= k < hi ==> TicketFor(reply, k).None?
    ensures AcceptedIn(reply, lo, hi) == 0
    ensures StaleIn(reply, targets, lo, hi) == [] && ReceiptsIn(reply, targets, lo, hi) == []
    decreases hi
  {
    hide TicketFor;
    if lo < hi {
      NoTickets(reply, targets, lo, hi - 1);
    }
  }

  /** The indices of batch b. */
  lemma InBatch(b: nat, i: nat)
    requires i < EXPO_PUSH_BATCH_SIZE
    ensures (b * EXPO_PUSH_BATCH_SIZE + i) / EXPO_PUSH_BATCH_SIZE == b
    ensures (b * EXPO_PUSH_BATCH_SIZE + i) % EXPO_PUSH_BATCH_SIZE == i
  {
  }

  lemma TicketIn(reply: nat -> Reply, b: nat, i: nat)
    requires i < EXPO_PUSH_BATCH_SIZE
    ensures TicketFor(reply, b * EXPO_PUSH_BATCH_SIZE + i)
            == match reply(b)
               case Nothing => None
               case Tickets(tickets) => if i < |tickets| then Some(tickets[i]) else None
  {
    InBatch(b, i);
  }

  // ---- accounting ----

  class PushMetrics {
    var attempted: nat
    var accepted: nat
    var failed: nat

    constructor ()
      ensures attempted == 0 && accepted == 0 && failed == 0
    {
      attempted, accepted, failed := 0, 0, 0;
    }

    method PushAttempted(count: nat)
      modifies `attempted
      ensures attempted == old(attempted) + count
    {
      attempted := attempted + count;
    }

    method PushOutcome(acceptedCount: nat, failedCount: nat)
      modifies `accepted, `failed
      ensures accepted == old(accepted) + acceptedCount && failed == old(failed) + failedCount
    {
      accepted, failed := accepted + acceptedCount, failed + failedCount;
    }

    method PushTransportFailure(count: nat)
      modifies `failed
      ensures failed == old(failed) + count
    {
      failed := failed + count;
    }
  }

  /** What the next ticket of a batch adds. */
  lemma NextTicket(reply: nat -> Reply, targets: seq<Id>, b: nat, index: nat, tickets: seq<Ticket>)
    requires index < EXPO_PUSH_BATCH_SIZE && index < |tickets| && b * EXPO_PUSH_BATCH_SIZE + index < |targets|
    requires reply(b) == Tickets(tickets)
    ensures var lo, k := b * EXPO_PUSH_BATCH_SIZE, b * EXPO_PUSH_BATCH_SIZE + index;
            var t := tickets[index];
            && AcceptedIn(reply, lo, k + 1) == AcceptedIn(reply, lo, k) + (if t.Accepted? then 1 else 0)
            && StaleIn(reply, targets, lo, k + 1)
               == StaleIn(reply, targets, lo, k) + (if t == Refused(true) then [targets[k]] else [])
            && ReceiptsIn(reply, targets, lo, k + 1)
               == ReceiptsIn(reply, targets, lo, k)
                  + (if t.Accepted? && t.receipt.Some? then [(t.receipt.value, targets[k])] else [])
  {
    TicketIn(reply, b, index);
    hide TicketFor;
  }

  /** Nothing is added by the part of a batch that has no tickets. */
  lemma RestOfBatch(reply: nat -> Reply, targets: seq<Id>, b: nat, seen: nat, size: nat)
    requires seen <= size <= EXPO_PUSH_BATCH_SIZE && b * EXPO_PUSH_BATCH_SIZE + size <= |targets|
    requires seen == size || reply(b).Nothing? || |reply(b).tickets| <= seen
    ensures var lo := b * EXPO_PUSH_BATCH_SIZE;
            && AcceptedIn(reply, lo, lo + size) == AcceptedIn(reply, lo, lo + seen)
            && StaleIn(reply, targets, lo, lo + size) == StaleIn(reply, targets, lo, lo + seen)
            && ReceiptsIn(reply, targets, lo, lo + size) == ReceiptsIn(reply, targets, lo, lo + seen)
  {
    var lo := b * EXPO_PUSH_BATCH_SIZE;
    hide AcceptedIn, StaleIn, ReceiptsIn, TicketFor;
    forall k | lo + seen <= k < lo + size ensures TicketFor(reply, k).None? {
      TicketIn(reply, b, k - lo);
    }
    NoTickets(reply, targets, lo + seen, lo + size);
    AcceptedSplit(reply, lo, lo + seen, lo + size);
    ListsSplit(reply, targets, lo, lo + seen, lo + size);
  }

  /** The inner loop of `send`: the tickets of one batch. */
  method CountTickets(reply: nat -> Reply, targets: seq<Id>, b: nat, size: nat, tickets: seq<Ticket>)
    returns (accepted: nat, failed: nat, stale: seq<Id>, receipts: seq<(Id, Id)>)
    requires size <= EXPO_PUSH_BATCH_SIZE && b * EXPO_PUSH_BATCH_SIZE + size <= |targets|
    requires reply(b) == Tickets(tickets)
    ensures var lo := b * EXPO_PUSH_BATCH_SIZE;
            && accepted == AcceptedIn(reply, lo, lo + size) && accepted + failed == size
            && stale == StaleIn(reply, targets, lo, lo + size)
            && receipts == ReceiptsIn(reply, targets, lo, lo + size)
  {
    hide TicketFor, IsAccepted, ReceiptOf;
    var lo := b * EXPO_PUSH_BATCH_SIZE;
    var missing := if |tickets| < size then size - |tickets| else 0;
    accepted, failed, stale, receipts := 0, missing, [], [];
    var index := 0;
    while index < |tickets|
      invariant index <= |tickets|
      invariant accepted == AcceptedIn(reply, lo, lo + Min(index, size))
      invariant accepted + failed == Min(index, size) + missing
      invariant stale == StaleIn(reply, targets, lo, lo + Min(index, size))
      invariant receipts == ReceiptsIn(reply, targets, lo, lo + Min(index, size))
    {
      if index < size {
        NextTicket(reply, targets, b, index, tickets);
        hide AcceptedIn, StaleIn, ReceiptsIn;
        var token := targets[lo + index];
        match tickets[index] {
          case Accepted(receipt) =>
            accepted := accepted + 1;
            if receipt.Some? {
              receipts := receipts + [(receipt.value, token)];
            }
          case Refused(unregistered) =>
            failed := failed + 1;
            if unregistered {
              stale := stale + [token];
            }
          case Unreadable =>
            failed := failed + 1;
        }
      }
      index := index + 1;
    }
    RestOfBatch(reply, targets, b, Min(index, size), size);
  }

  /** One turn of the loop of `send`. */
  method SendBatch(metrics: PushMetrics, reply: nat -> Reply, targets: seq<Id>, b: nat, size: nat)
    returns (stale: seq<Id>, receipts: seq<(Id, Id)>)
    requires size <= EXPO_PUSH_BATCH_SIZE && b * EXPO_PUSH_BATCH_SIZE + size <= |targets|
    modifies metrics
    ensures var lo := b * EXPO_PUSH_BATCH_SIZE;
            && metrics.attempted == old(metrics.attempted) + size
            && metrics.accepted == old(metrics.accepted) + AcceptedIn(reply, lo, lo + size)
            && metrics.failed == old(metrics.failed) + (size - AcceptedIn(reply, lo, lo + size))
            && stale == StaleIn(reply, targets, lo, lo + size)
            && receipts == ReceiptsIn(reply, targets, lo, lo + size)
  {
    hide TicketFor, IsAccepted;
    metrics.PushAttempted(size);
    match reply(b) {
      case Nothing =>
        RestOfBatch(reply, targets, b, 0, size);
        metrics.PushTransportFailure(size);
        stale, receipts := [], [];
      case Tickets(tickets) =>
        var accepted, failed;
        accepted, failed, stale, receipts := CountTickets(reply, targets, b, size, tickets);
        metrics.PushOutcome(accepted, failed);
    }
  }

  /**
   `send`: the counters move by what became of each target, looked at alone; batching, short or long replies and
   missing ones lose and invent nothing.
   */
  method Send(metrics: PushMetrics, reply: nat -> Reply, targets: seq<Id>)
    returns (stale: seq<Id>, receipts: seq<(Id, Id)>)
    modifies metrics
    ensures metrics.attempted == old(metrics.attempted) + |targets|
    ensures metrics.accepted == old(metrics.accepted) + AcceptedIn(reply, 0, |targets|)
    ensures metrics.failed == old(metrics.failed) + (|targets| - AcceptedIn(reply, 0, |targets|))
    ensures stale == StaleIn(reply, targets, 0, |targets|)
    ensures receipts == ReceiptsIn(reply, targets, 0, |targets|)
  {
    stale, receipts := [], [];
    var b, done := 0, 0;
    while done < |targets|
      invariant done <= |targets| && (done < |targets| ==> done == b * EXPO_PUSH_BATCH_SIZE)
      invariant metrics.attempted == old(metrics.attempted) + done
      invariant metrics.accepted == old(metrics.accepted) + AcceptedIn(reply, 0, done)
      invariant metrics.failed == old(metrics.failed) + (done - AcceptedIn(reply, 0, done))
      invariant stale == StaleIn(reply, targets, 0, done) && receipts == ReceiptsIn(reply, targets, 0, done)
      decreases |targets| - done
    {
      hide AcceptedIn, StaleIn, ReceiptsIn;
      var size := Min(EXPO_PUSH_BATCH_SIZE, |targets| - done);
      AcceptedSplit(reply, 0, done, done + size);
      ListsSplit(reply, targets, 0, done, done + size);
      var gone, pending := SendBatch(metrics, reply, targets, b, size);
      stale, receipts := stale + gone, receipts + pending;
      b, done := b + 1, done + size;
    }
  }

  /** Only tokens of targets whose ticket says so are dropped, and only accepted targets have receipts to check. */
  lemma {:induction false} ListsAreAboutTargets(reply: nat -> Reply, targets: seq<Id>, hi: nat)
    requires hi <= |targets|
    ensures forall t :: t in StaleIn(reply, targets, 0, hi)
              <==> exists k :: 0 <= k < hi && targets[k] == t && TicketFor(reply, k) == Some(Refused(true))
    ensures forall r :: r in ReceiptsIn(reply, targets, 0, hi)
              <==> exists k :: 0 <= k < hi && targets[k] == r.1 && TicketFor(reply, k) == Some(Accepted(Some(r.0)))
    decreases hi
  {
    hide TicketFor;
    if hi > 0 {
      ListsAreAboutTargets(reply, targets, hi - 1);
      var last := TicketFor(reply, hi - 1);
      forall t | t in StaleIn(reply, targets, 0, hi)
        ensures exists k :: 0 <= k < hi && targets[k] == t && TicketFor(reply, k) == Some(Refused(true))
      {
        if t !in StaleIn(reply, targets, 0, hi - 1) {
          assert targets[hi - 1] == t && last == Some(Refused(true));
        }
      }
      forall r | r in ReceiptsIn(reply, targets, 0, hi)
        ensures exists k :: 0 <= k < hi && targets[k] == r.1 && TicketFor(reply, k) == Some(Accepted(Some(r.0)))
      {
        if r !in ReceiptsIn(reply, targets, 0, hi - 1) {
          assert targets[hi - 1] == r.1 && last == Some(Accepted(Some(r.0)));
        }
      }
    }
  }

  // ---- reply previews ----

  function Accumulated(held: Text, content: Text): Text {
    if |held| < PUSH_PREVIEW_ACCUMULATE_CAP
    then Concat(held, LongestPrefix(content, PUSH_PREVIEW_ACCUMULATE_CAP - |held|)) else held
  }

  lemma AccumulatedBounded(held: Text, content: Text)
    requires |held| <= PUSH_PREVIEW_ACCUMULATE_CAP
    ensures held <= Accumulated(held, content) && |Accumulated(held, content)| <= PUSH_PREVIEW_ACCUMULATE_CAP
  {
    if |held| < PUSH_PREVIEW_ACCUMULATE_CAP {
      LongestPrefixIsLongest(content, PUSH_PREVIEW_ACCUMULATE_CAP - |held|, []);
    }
  }

  predicate IsPart(part: Text, content: Text) {
    part <= content
  }

  /** The entry goes on from what was held with as much of the content as the bound of 8,000 bytes leaves room for. */
  ghost predicate Extends(held: Text, content: Text, entry: Text) {
    && held <= entry && |entry| <= 8_000 && entry[|held|..] <= content
    && forall part: Text :: IsPart(part, content) && |held| + |part| <= 8_000 ==> |held| + |part| <= |entry|
  }

  lemma AccumulatedExtends(held: Text, content: Text)
    requires |held| <= PUSH_PREVIEW_ACCUMULATE_CAP
    ensures Extends(held, content, Accumulated(held, content))
  {
    AccumulatedBounded(held, content);
    var entry := Accumulated(held, content);
    if |held| < PUSH_PREVIEW_ACCUMULATE_CAP {
      LongestPrefixIsLongest(content, PUSH_PREVIEW_ACCUMULATE_CAP - |held|, []);
      assert entry[|held|..] == LongestPrefix(content, PUSH_PREVIEW_ACCUMULATE_CAP - |held|);
    }
    forall part: Text | IsPart(part, content) && |held| + |part| <= 8_000 ensures |held| + |part| <= |entry| {
      if |held| < PUSH_PREVIEW_ACCUMULATE_CAP {
        LongestPrefixIsLongest(content, PUSH_PREVIEW_ACCUMULATE_CAP - |held|, part);
      }
    }
  }

  /** What is held of a thread after these chunks. */
  function Preview(chunks: seq<Text>): Text {
    if chunks == [] then [] else Accumulated(Preview(chunks[..|chunks| - 1]), chunks[|chunks| - 1])
  }

  function Whole(chunks: seq<Text>): Text {
    if chunks == [] then [] else Concat(Whole(chunks[..|chunks| - 1]), chunks[|chunks| - 1])
  }

  /** The preview text is the whole reply exactly as long as that has at most 8,000 bytes. */
  lemma {:induction false} PreviewIsWhole(chunks: seq<Text>)
    ensures |Preview(chunks)| <= 8_000
    ensures Preview(chunks) == Whole(chunks) <==> |Whole(chunks)| <= 8_000
    decreases |chunks|
  {
    hide LongestPrefix, Utf8.Valid;
    if chunks != [] {
      var held, sent, last := Preview(chunks[..|chunks| - 1]), Whole(chunks[..|chunks| - 1]), chunks[|chunks| - 1];
      PreviewIsWhole(chunks[..|chunks| - 1]);
      AccumulatedBounded(held, last);
      if |held| < 8_000 && |held| + |last| <= 8_000 {
        FitsWhole(last, 8_000 - |held|);
      }
      if |sent| <= 8_000 && |sent| + |last| <= 8_000 && |held| == 8_000 {
        assert last == [] && sent + [] == sent;
      }
    }
  }

  lemma FitsWhole(s: Text, max: nat)
    requires |s| <= max
    ensures LongestPrefix(s, max) == s
  {
  }

  class ReplyPreviews {
    var replies: map<Id, Text>

    /** Few threads, little text each. */
    ghost predicate Valid()
      reads this
    {
      |replies| <= PUSH_PREVIEW_MAX_THREADS
      && forall thread :: thread in replies ==> |replies[thread]| <= PUSH_PREVIEW_ACCUMULATE_CAP
    }

    constructor ()
      ensures Valid() && replies == map[]
    {
      replies := map[];
    }

    /** Some thread's text goes when there are too many. */
    method MakeRoom() returns (dropped: Option<Id>)
      requires Valid()
      modifies this
      ensures Valid() && |replies| < PUSH_PREVIEW_MAX_THREADS
      ensures dropped.Some? <==> |old(replies)| == PUSH_PREVIEW_MAX_THREADS
      ensures replies == old(replies) - if dropped.Some? then {dropped.value} else {}
    {
      dropped := None;
      if |replies| >= PUSH_PREVIEW_MAX_THREADS {
        assert replies.Keys != {};
        var victim :| victim in replies;
        replies := replies - {victim};
        dropped := Some(victim);
      }
    }

    /** `accumulate_canonical_reply`: a new thread may push out some other one, and then only that one. */
    method AccumulateCanonicalReply(thread: Id, content: Text) returns (dropped: Option<Id>)
      requires Valid()
      modifies this
      ensures Valid()
      ensures content == [] ==> replies == old(replies) && dropped.None?
      ensures content != [] ==>
                && thread in replies
                && replies[thread] == Accumulated(if thread in old(replies) then old(replies)[thread] else [], content)
                && Extends(if thread in old(replies) then old(replies)[thread] else [], content, replies[thread])
                && (dropped.Some? <==> thread !in old(replies) && |old(replies)| == PUSH_PREVIEW_MAX_THREADS)
                && forall t :: t in old(replies) && t != thread && dropped != Some(t) ==>
                             t in replies && replies[t] == old(replies)[t]
    {
      var entry: Text := [];
      hide Utf8.Valid, LongestPrefix, Concat;
      dropped := None;
      if content == [] {
        return;
      }
      if thread in replies {
        entry := replies[thread];
      } else {
        dropped := MakeRoom();
      }
      AccumulatedExtends(entry, content);
      hide Extends;
      entry := Append(entry, content);
      replies := replies[thread := entry];
    }
  }

  method Append(held: Text, content: Text) returns (entry: Text)
    requires |held| <= PUSH_PREVIEW_ACCUMULATE_CAP
    ensures entry == Accumulated(held, content) && |entry| <= PUSH_PREVIEW_ACCUMULATE_CAP
  {
    AccumulatedBounded(held, content);
    entry := held;
    if |entry| < PUSH_PREVIEW_ACCUMULATE_CAP {
      var bounded, _ := TruncateUtf8Bytes(content, PUSH_PREVIEW_ACCUMULATE_CAP - |entry|);
      entry := Concat(entry, bounded);
    }
  }
}
