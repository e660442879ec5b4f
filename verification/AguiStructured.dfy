/**
 Structured values of the projector: the bounded content and locations of a tool, and the way a
 payload too large for one event travels in chunks.
 */
module AguiStructured {
  import opened Wrappers
  import opened Utf8
  import opened AguiEvents

  // ---- the size of the pair of arrays ----

  function Items(values: seq<Json>): nat {
    if values == [] then 0 else |values[0]| + 1 + Items(values[1..])
  }

  /** Brackets, the values, and the commas between them. */
  function ArraySize(values: seq<Json>): nat {
    if values == [] then 2 else 1 + Items(values)
  }

  function PairSize(content: seq<Json>, locations: seq<Json>): nat {
    3 + ArraySize(content) + ArraySize(locations)
  }

  // ---- trimming ----

  /** One turn of the loop: a location goes first, then a content item; on the empty pair nothing happens. */
  function Pop(pair: (seq<Json>, seq<Json>)): (seq<Json>, seq<Json>) {
    if pair.1 != [] then (pair.0, pair.1[..|pair.1| - 1])
    else if pair.0 != [] then (pair.0[..|pair.0| - 1], [])
    else pair
  }

  function PopTimes(pair: (seq<Json>, seq<Json>), n: nat): (seq<Json>, seq<Json>)
    decreases n
  {
    if n == 0 then pair else PopTimes(Pop(pair), n - 1)
  }

  predicate Fits(pair: (seq<Json>, seq<Json>), maxBytes: nat) {
    PairSize(pair.0, pair.1) <= maxBytes
  }

  ghost predicate LoopEnds(pair: (seq<Json>, seq<Json>), maxBytes: nat) {
    exists n: nat :: Fits(PopTimes(pair, n), maxBytes)
  }

  lemma {:induction false} PopsToEmpty(pair: (seq<Json>, seq<Json>), n: nat)
    requires n == |pair.0| + |pair.1|
    ensures PopTimes(pair, n) == ([], [])
    decreases n
  {
    if n > 0 {
      PopsToEmpty(Pop(pair), n - 1);
    }
  }

  /** The trimming loop ends, whatever the values are, exactly when the limit covers the empty pair. */
  lemma LoopEndsIff(pair: (seq<Json>, seq<Json>), maxBytes: nat)
    ensures LoopEnds(pair, maxBytes) <==> maxBytes >= 7
  {
    if maxBytes >= 7 {
      PopsToEmpty(pair, |pair.0| + |pair.1|);
      assert Fits(PopTimes(pair, |pair.0| + |pair.1|), maxBytes);
    }
  }

  function Trim(pair: (seq<Json>, seq<Json>), maxBytes: nat): (seq<Json>, seq<Json>)
    requires maxBytes >= 7
    decreases |pair.0| + |pair.1|
  {
    if Fits(pair, maxBytes) then pair else Trim(Pop(pair), maxBytes)
  }

  /** The pair is what is left when only trailing locations, or all locations and trailing content, are gone. */
  predicate Left(part: (seq<Json>, seq<Json>), pair: (seq<Json>, seq<Json>)) {
    part.0 <= pair.0 && part.1 <= pair.1 && (part.1 == [] || part.0 == pair.0)
  }

  /** The longest such remainder that fits. */
  ghost predicate IsTrimmed(part: (seq<Json>, seq<Json>), pair: (seq<Json>, seq<Json>), maxBytes: nat) {
    && Left(part, pair) && Fits(part, maxBytes)
    && forall q :: Left(q, pair) && Fits(q, maxBytes) ==> |q.0| + |q.1| <= |part.0| + |part.1|
  }

  lemma LeftAfterPop(q: (seq<Json>, seq<Json>), pair: (seq<Json>, seq<Json>))
    requires Left(q, pair)
    ensures q == pair || Left(q, Pop(pair))
  {
    assert q.0 == pair.0[..|q.0|] && q.1 == pair.1[..|q.1|];
    assert |q.0| == |pair.0| ==> q.0 == pair.0;
    assert |q.1| == |pair.1| ==> q.1 == pair.1;
    if |q.0| < |pair.0| {
      assert q.0 == pair.0[..|pair.0| - 1][..|q.0|];
    }
    if |q.1| < |pair.1| {
      assert q.1 == pair.1[..|pair.1| - 1][..|q.1|];
    }
    assert q.0 == pair.0 && q.1 == pair.1 ==> q == pair;
  }

  lemma LeftOfPop(q: (seq<Json>, seq<Json>), pair: (seq<Json>, seq<Json>))
    requires Left(q, Pop(pair))
    ensures Left(q, pair)
  {
  }

  /** Trimming keeps the longest remainder that fits, and only that one. */
  lemma {:induction false} TrimIsLongest(pair: (seq<Json>, seq<Json>), maxBytes: nat, part: (seq<Json>, seq<Json>))
    requires maxBytes >= 7
    ensures IsTrimmed(part, pair, maxBytes) <==> part == Trim(pair, maxBytes)
    decreases |pair.0| + |pair.1|
  {
    hide PairSize;
    if Fits(pair, maxBytes) {
      assert Left(pair, pair);
      if IsTrimmed(part, pair, maxBytes) {
        LengthDecides(part, pair, pair);
      }
    } else {
      NotEmptyPair(pair, maxBytes);
      hide Fits;
      TrimIsLongest(Pop(pair), maxBytes, part);
      hide Trim;
      forall q | Left(q, pair) && Fits(q, maxBytes) ensures Left(q, Pop(pair)) {
        LeftAfterPop(q, pair);
      }
      forall q | Left(q, Pop(pair)) ensures Left(q, pair) {
        LeftOfPop(q, pair);
      }
      hide Left, Pop;
      assert IsTrimmed(part, pair, maxBytes) <==> IsTrimmed(part, Pop(pair), maxBytes);
    }
  }

  lemma NotEmptyPair(pair: (seq<Json>, seq<Json>), maxBytes: nat)
    requires maxBytes >= 7 && !Fits(pair, maxBytes)
    ensures pair.0 != [] || pair.1 != []
  {
  }

  lemma LengthDecides(a: (seq<Json>, seq<Json>), b: (seq<Json>, seq<Json>), pair: (seq<Json>, seq<Json>))
    requires Left(a, pair) && Left(b, pair) && |a.0| + |a.1| == |b.0| + |b.1|
    ensures a == b
  {
    assert a.0 == pair.0[..|a.0|] && b.0 == pair.0[..|b.0|];
    assert a.1 == pair.1[..|a.1|] && b.1 == pair.1[..|b.1|];
  }

  // ---- the update of a tool's structured state ----

  function UpdateField(current: seq<Json>, update: FieldUpdate<seq<Json>>): seq<Json> {
    match update
    case Set(value) => value
    case Append(value) => current + value
    case Clear => []
    case Unchanged => current
  }

  predicate Replaces<T>(update: FieldUpdate<T>) {
    update.Set? || update.Clear?
  }

  datatype Structured = Structured(content: seq<Json>, locations: seq<Json>, truncated: bool)

  function ApplyStructured(s: Structured, content: FieldUpdate<seq<Json>>, locations: FieldUpdate<seq<Json>>,
                           maxBytes: nat): Structured
    requires maxBytes >= 7
  {
    var updated := (UpdateField(s.content, content), UpdateField(s.locations, locations));
    var kept := Trim(updated, maxBytes);
    var before := s.truncated && !(Replaces(content) || Replaces(locations));
    Structured(kept.0, kept.1, before || kept != updated)
  }

  /** `apply_structured_updates`. */
  method ApplyStructuredUpdates(s: Structured, content: FieldUpdate<seq<Json>>, locations: FieldUpdate<seq<Json>>,
                                maxBytes: nat) returns (r: Structured, changed: bool)
    requires maxBytes >= 7
    ensures r == ApplyStructured(s, content, locations, maxBytes)
    ensures changed <==> r != s
  {
    var c, l := UpdateField(s.content, content), UpdateField(s.locations, locations);
    ghost var updated := (c, l);
    var truncated := s.truncated;
    if Replaces(content) || Replaces(locations) {
      truncated := false;
    }
    ghost var before := truncated;
    while PairSize(c, l) > maxBytes
      invariant Trim((c, l), maxBytes) == Trim(updated, maxBytes)
      invariant |c| + |l| <= |updated.0| + |updated.1|
      invariant (c, l) != updated ==> |c| + |l| < |updated.0| + |updated.1|
      invariant truncated == (before || (c, l) != updated)
      decreases |c| + |l|
    {
      NotEmptyPair((c, l), maxBytes);
      if l == [] {
        c := c[..|c| - 1];
      } else {
        l := l[..|l| - 1];
      }
      truncated := true;
    }
    r := Structured(c, l, truncated);
    changed := s.content != c || s.locations != l || s.truncated != truncated;
  }

  /** Everything ever sent for the two fields, without the limit. */
  datatype Whole = Whole(content: seq<Json>, locations: seq<Json>)

  function ApplyWhole(w: Whole, content: FieldUpdate<seq<Json>>, locations: FieldUpdate<seq<Json>>): Whole {
    Whole(UpdateField(w.content, content), UpdateField(w.locations, locations))
  }

  /** What is held is a part of what was sent, and the flag says whether something is missing. */
  predicate Truthful(s: Structured, w: Whole) {
    && |s.content| <= |w.content| && |s.locations| <= |w.locations|
    && (s.content == w.content <==> |s.content| == |w.content|)
    && (s.locations == w.locations <==> |s.locations| == |w.locations|)
    && (s.truncated <==> s.content != w.content || s.locations != w.locations)
  }

  /** One field is replaced, nothing is dropped, and the other field goes on without what it already lost. */
  predicate ForgetsLoss(s: Structured, w: Whole, content: FieldUpdate<seq<Json>>, locations: FieldUpdate<seq<Json>>,
                        maxBytes: nat)
  {
    && (Replaces(content) || Replaces(locations))
    && Fits((UpdateField(s.content, content), UpdateField(s.locations, locations)), maxBytes)
    && ((!Replaces(content) && s.content != w.content) || (!Replaces(locations) && s.locations != w.locations))
  }

  lemma TrimShrinks(pair: (seq<Json>, seq<Json>), maxBytes: nat)
    requires maxBytes >= 7
    ensures Trim(pair, maxBytes).0 <= pair.0 && Trim(pair, maxBytes).1 <= pair.1
    ensures Trim(pair, maxBytes) == pair <==> Fits(pair, maxBytes)
  {
    TrimIsLongest(pair, maxBytes, Trim(pair, maxBytes));
  }

  lemma UpdateKeepsPart(held: seq<Json>, whole: seq<Json>, update: FieldUpdate<seq<Json>>)
    requires |held| <= |whole| && (held == whole <==> |held| == |whole|)
    ensures var h, w := UpdateField(held, update), UpdateField(whole, update);
            |h| <= |w| && (h == w <==> |h| == |w|) && (h == w <==> Replaces(update) || held == whole)
  {
  }

  /** The "available" flag of a tool stays truthful except when a replacement of one field hides a loss in the other. */
  lemma AvailabilityTruthfulIff(s: Structured, w: Whole, content: FieldUpdate<seq<Json>>,
                                locations: FieldUpdate<seq<Json>>, maxBytes: nat)
    requires maxBytes >= 7 && Truthful(s, w)
    ensures Truthful(ApplyStructured(s, content, locations, maxBytes), ApplyWhole(w, content, locations))
            <==> !ForgetsLoss(s, w, content, locations, maxBytes)
  {
    var updated := (UpdateField(s.content, content), UpdateField(s.locations, locations));
    UpdateKeepsPart(s.content, w.content, content);
    UpdateKeepsPart(s.locations, w.locations, locations);
    TrimShrinks(updated, maxBytes);
    hide Trim, Fits, UpdateField;
    var kept := Trim(updated, maxBytes);
    assert |kept.0| == |updated.0| ==> kept.0 == updated.0;
    assert |kept.1| == |updated.1| ==> kept.1 == updated.1;
  }

  /** A value that does not fit under the limit. */
  function Oversized(maxBytes: nat): seq<Byte> {
    seq(maxBytes, _ => 0x61)
  }

  lemma OversizedIsText(maxBytes: nat)
    ensures Valid(Oversized(maxBytes))
  {
    var s := Oversized(maxBytes);
    forall i | 0 <= i < |s| && !Continuation(s[i]) ensures ScalarAt(s, i) {
      assert s[i] == 0x61;
      assert ScalarLen(s, i) == 1;
    }
  }

  const NO_VALUES: Structured := Structured([], [], false)

  /** A value too large is dropped and reported, and clearing the locations then takes the report back. */
  lemma SomeLossIsForgotten(maxBytes: nat)
    requires maxBytes >= 7
    ensures Valid(Oversized(maxBytes))
    ensures var value: Json := Oversized(maxBytes);
            var lost := ApplyStructured(NO_VALUES, Set([value]), Unchanged, maxBytes);
            var sent := ApplyWhole(Whole([], []), Set([value]), Unchanged);
            && lost == Structured([], [], true) && Truthful(lost, sent)
            && ApplyStructured(lost, Unchanged, Clear, maxBytes) == NO_VALUES
            && !Truthful(NO_VALUES, ApplyWhole(sent, Unchanged, Clear))
  {
    OversizedIsText(maxBytes);
    hide Valid;
    var value: Json := Oversized(maxBytes);
    DropsOnly(value, maxBytes);
    assert Trim(([], []), maxBytes) == ([], []);
  }

  lemma DropsOnly(value: Json, maxBytes: nat)
    requires maxBytes >= 7 && |value| >= maxBytes
    ensures Trim(([value], []), maxBytes) == ([], [])
  {
    assert [value][1..] == [] && [value][..0] == [];
    assert Items([value]) == |value| + 1;
    assert Pop(([value], [])) == ([], []);
    assert Trim(([value], []), maxBytes) == Trim(([], []), maxBytes);
  }

  // ---- a payload in events ----

  function TopicOf(p: Payload): Topic {
    match p
    case MessageContent(_, _, _) => MessageContentTopic
    case ToolText(_, _, _) => ToolTextTopic
    case _ => ToolContentTopic
  }

  function ChunkEvents(topic: Topic, canonicalId: Id, serialized: Text): (r: seq<Event>)
    ensures |r| == |Chunks(serialized, STRUCTURED_CHUNK_BYTES)|
    ensures forall i :: 0 <= i < |r| ==>
              r[i] == Event.Chunk(topic, canonicalId, Digest(serialized), i, |r|, Chunks(serialized, STRUCTURED_CHUNK_BYTES)[i])
  {
    var chunks := Chunks(serialized, STRUCTURED_CHUNK_BYTES);
    seq(|chunks|, i requires 0 <= i < |chunks| =>
      Event.Chunk(topic, canonicalId, Digest(serialized), i, |chunks|, chunks[i]))
  }

  /** One event when the JSON text is small, numbered chunks of the text otherwise. */
  function PayloadEvents(env: Environment, canonicalId: Id, payload: Payload): seq<Event> {
    var serialized := env.encode(payload);
    if |serialized| <= STRUCTURED_CHUNK_BYTES then [Custom(payload)]
    else ChunkEvents(TopicOf(payload), canonicalId, serialized)
  }

  /** `push_structured_chunks`. */
  method PushStructuredChunks(env: Environment, canonicalId: Id, payload: Payload) returns (events: seq<Event>)
    ensures events == PayloadEvents(env, canonicalId, payload)
  {
    var serialized := env.encode(payload);
    if |serialized| <= STRUCTURED_CHUNK_BYTES {
      return [Custom(payload)];
    }
    var revision := Digest(serialized);
    var chunks := Utf8Chunks(serialized, STRUCTURED_CHUNK_BYTES);
    events := [];
    var index := 0;
    while index < |chunks|
      invariant index <= |chunks|
      invariant events == ChunkEvents(TopicOf(payload), canonicalId, serialized)[..index]
    {
      events := events + [Event.Chunk(TopicOf(payload), canonicalId, revision, index, |chunks|, chunks[index])];
      index := index + 1;
    }
  }

  // ---- and back ----

  /** The chunks a receiver holds, by index. */
  function Collect(events: seq<Event>): map<nat, Text> {
    if events == [] then map[]
    else
      var rest, last := Collect(events[..|events| - 1]), events[|events| - 1];
      if last.Chunk? then rest[last.index := last.data] else rest
  }

  predicate Complete(parts: map<nat, Text>, count: nat) {
    forall i :: 0 <= i < count ==> i in parts
  }

  function InOrder(parts: map<nat, Text>, count: nat): (r: seq<Text>)
    requires Complete(parts, count)
    ensures |r| == count && forall i :: 0 <= i < count ==> r[i] == parts[i]
  {
    seq(count, i requires 0 <= i < count => parts[i])
  }

  lemma {:induction false} CollectsChunks(chunks: seq<Event>, received: seq<Event>)
    requires forall i :: 0 <= i < |chunks| ==> chunks[i].Chunk? && chunks[i].index == i
    requires forall k :: 0 <= k < |received| ==> received[k] in chunks
    ensures forall i :: i in Collect(received) ==> i < |chunks| && Collect(received)[i] == chunks[i].data
    ensures forall k :: 0 <= k < |received| ==> received[k].Chunk? && received[k].index in Collect(received)
  {
    if received != [] {
      CollectsChunks(chunks, received[..|received| - 1]);
    }
  }

  /**
   Whatever the order the chunks arrive in, and however often each does, a receiver that has them all
   puts them together by index and decodes the payload that was sent.
   */
  lemma ReassembledByIndex(env: Environment, canonicalId: Id, payload: Payload, received: seq<Event>)
    requires env.RoundTrips() && |env.encode(payload)| > STRUCTURED_CHUNK_BYTES
    requires forall e :: e in received <==> e in PayloadEvents(env, canonicalId, payload)
    ensures var parts, count := Collect(received), |PayloadEvents(env, canonicalId, payload)|;
            && Complete(parts, count)
            && Join(InOrder(parts, count)) == env.encode(payload)
            && env.decode(Join(InOrder(parts, count))) == Some(payload)
  {
    var chunks := PayloadEvents(env, canonicalId, payload);
    var serialized := env.encode(payload);
    forall k | 0 <= k < |received| ensures received[k] in chunks {
      assert received[k] in received;
    }
    CollectsChunks(chunks, received);
    forall i | 0 <= i < |chunks| ensures i in Collect(received) {
      assert chunks[i] in received;
    }
    assert InOrder(Collect(received), |chunks|) == Chunks(serialized, STRUCTURED_CHUNK_BYTES);
    ChunksRoundTrip(serialized, STRUCTURED_CHUNK_BYTES);
  }

  /** No event of a payload carries more than a chunk of text. */
  lemma PayloadEventsAreSmall(env: Environment, canonicalId: Id, payload: Payload, e: Event)
    requires e in PayloadEvents(env, canonicalId, payload)
    ensures e.Custom? ==> |env.encode(e.payload)| <= STRUCTURED_CHUNK_BYTES
    ensures e.Chunk? ==> 0 < |e.data| <= STRUCTURED_CHUNK_BYTES && e.index < e.count
    ensures e.Custom? || e.Chunk?
  {
    ChunksRoundTrip(env.encode(payload), STRUCTURED_CHUNK_BYTES);
  }
}
