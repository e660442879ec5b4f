/**
 The structured payloads of the stream: message blocks, and the content and locations of tools. A reader of one topic
 and id, which puts chunks together, has exactly what the events of the run call for.
 */
module AguiPayloads {
  import opened Wrappers
  import opened Utf8
  import opened AguiEvents
  import opened AguiStructured
  import opened AguiProjection
  import opened AguiLog
  import opened AguiTools
  import opened AguiToolRuns

  /** The payloads read so far, and the chunks of the next one. */
  datatype Reading = Reading(parts: map<nat, Text>, told: seq<Payload>)

  function About(p: Payload): Id {
    if p.MessageContent? then p.message else p.tool
  }

  function ReadChunk(env: Environment, r: Reading, index: nat, count: nat, data: Text): Reading {
    var parts := r.parts[index := data];
    if !Complete(parts, count) then Reading(parts, r.told)
    else
      match env.decode(Join(InOrder(parts, count)))
      case Some(payload) => Reading(map[], r.told + [payload])
      case None => Reading(map[], r.told)
  }

  function ReadOne(env: Environment, topic: Topic, id: Id, r: Reading, e: Event): Reading {
    match e
    case Custom(payload) => if TopicOf(payload) == topic && About(payload) == id then Reading(r.parts, r.told + [payload]) else r
    case Chunk(of, about, _, index, count, data) =>
      if of == topic && about == id then ReadChunk(env, r, index, count, data) else r
    case _ => r
  }

  function Read(env: Environment, topic: Topic, id: Id, r: Reading, log: seq<Event>): Reading {
    if log == [] then r else ReadOne(env, topic, id, Read(env, topic, id, r, log[..|log| - 1]), log[|log| - 1])
  }

  lemma {:induction false} ReadConcat(env: Environment, topic: Topic, id: Id, r: Reading, a: seq<Event>, b: seq<Event>)
    ensures Read(env, topic, id, r, a + b) == Read(env, topic, id, Read(env, topic, id, r, a), b)
    decreases |b|
  {
    hide ReadOne;
    if b == [] {
      assert a + b == a;
    } else {
      assert (a + b)[..|a + b| - 1] == a + b[..|b| - 1];
      ReadConcat(env, topic, id, r, a, b[..|b| - 1]);
    }
  }

  /** The event is not for this reader. */
  predicate Unheard(e: Event, topic: Topic, id: Id) {
    && (e.Custom? ==> TopicOf(e.payload) != topic || About(e.payload) != id)
    && (e.Chunk? ==> e.topic != topic || e.canonicalId != id)
  }

  predicate AllUnheard(events: seq<Event>, topic: Topic, id: Id) {
    forall i :: 0 <= i < |events| ==> Unheard(events[i], topic, id)
  }

  lemma {:induction false} UnheardIgnored(env: Environment, topic: Topic, id: Id, r: Reading, events: seq<Event>)
    requires AllUnheard(events, topic, id)
    ensures Read(env, topic, id, r, events) == r
    decreases |events|
  {
    if events != [] {
      hide ReadChunk;
      UnheardIgnored(env, topic, id, r, events[..|events| - 1]);
    }
  }

  lemma UnheardConcat(a: seq<Event>, b: seq<Event>, topic: Topic, id: Id)
    requires AllUnheard(a, topic, id) && AllUnheard(b, topic, id)
    ensures AllUnheard(a + b, topic, id)
  {
  }

  lemma PayloadUnheard(env: Environment, payload: Payload, topic: Topic, id: Id)
    requires TopicOf(payload) != topic || About(payload) != id
    ensures AllUnheard(PayloadEvents(env, About(payload), payload), topic, id)
  {
  }

  // ---- a payload is read as it was sent ----

  lemma NextChunkRead(env: Environment, told: seq<Payload>, payload: Payload, chunks: seq<Text>, n: nat)
    requires env.RoundTrips() && n < |chunks| && chunks == Chunks(env.encode(payload), STRUCTURED_CHUNK_BYTES)
    ensures ReadChunk(env, Reading(FirstParts(chunks, n), told), n, |chunks|, chunks[n])
            == if n + 1 < |chunks| then Reading(FirstParts(chunks, n + 1), told) else Reading(map[], told + [payload])
  {
    hide Valid, Join;
    var parts := FirstParts(chunks, n)[n := chunks[n]];
    assert parts == FirstParts(chunks, n + 1);
    hide Chunks;
    if n + 1 < |chunks| {
      assert n + 1 !in parts;
    } else {
      assert InOrder(parts, |chunks|) == chunks;
      ChunksRoundTrip(env.encode(payload), STRUCTURED_CHUNK_BYTES);
    }
  }

  lemma {:induction false} ChunksRead(env: Environment, topic: Topic, id: Id, told: seq<Payload>, payload: Payload,
                                      events: seq<Event>, n: nat)
    requires env.RoundTrips() && |env.encode(payload)| > STRUCTURED_CHUNK_BYTES
    requires events == ChunkEvents(topic, id, env.encode(payload)) && n <= |events|
    ensures Read(env, topic, id, Reading(map[], told), events[..n])
            == if n < |events| then Reading(FirstParts(Chunks(env.encode(payload), STRUCTURED_CHUNK_BYTES), n), told)
               else Reading(map[], told + [payload])
    decreases n
  {
    hide Valid, Chunks, Join, ReadChunk, Read;
    var chunks := Chunks(env.encode(payload), STRUCTURED_CHUNK_BYTES);
    ChunksOfShort(env.encode(payload), STRUCTURED_CHUNK_BYTES);
    if n == 0 {
      ReadNothing(env, topic, id, Reading(map[], told), events);
      assert FirstParts(chunks, 0) == map[];
    } else {
      ChunksRead(env, topic, id, told, payload, events, n - 1);
      ReadNext(env, topic, id, Reading(map[], told), events, n - 1);
      NextChunkRead(env, told, payload, chunks, n - 1);
    }
  }

  lemma ReadNothing(env: Environment, topic: Topic, id: Id, r: Reading, events: seq<Event>)
    ensures Read(env, topic, id, r, events[..0]) == r
  {
  }

  lemma ReadNext(env: Environment, topic: Topic, id: Id, r: Reading, events: seq<Event>, n: nat)
    requires n < |events|
    ensures Read(env, topic, id, r, events[..n + 1]) == ReadOne(env, topic, id, Read(env, topic, id, r, events[..n]), events[n])
  {
    hide ReadOne;
    assert events[..n + 1][..n] == events[..n];
  }

  /** Whole or in chunks, a payload is read as it was sent. */
  lemma PayloadRead(env: Environment, told: seq<Payload>, payload: Payload)
    requires env.RoundTrips()
    ensures Read(env, TopicOf(payload), About(payload), Reading(map[], told), PayloadEvents(env, About(payload), payload))
            == Reading(map[], told + [payload])
  {
    hide Valid, ReadChunk;
    var events := PayloadEvents(env, About(payload), payload);
    if |env.encode(payload)| <= STRUCTURED_CHUNK_BYTES {
      assert events == [Custom(payload)] && events[..0] == [];
    } else {
      hide Read;
      ChunksRead(env, TopicOf(payload), About(payload), told, payload, events, |events|);
      assert events[..|events|] == events;
    }
  }

  // ---- what the events of a run call for ----

  /** The payload a step tells this reader, if any. */
  function TellsNow(env: Environment, p: Projector, c: Canonical, thread: Id, topic: Topic, id: Id): seq<Payload> {
    if Speaking(p, c, thread) && topic.MessageContentTopic? && c.message == id && c.block.Some?
    then [MessageContent(id, c.role, c.block.value.value)]
    else if Using(p, c, thread) && topic.ToolContentTopic? && c.update.tool == id
    then StructureTold(env, ToolOf(p.runs[thread], id), c.update)
    else []
  }

  /** A changed structure is told unless the update names a sub-agent. */
  function StructureTold(env: Environment, t: ToolState, u: ToolUpdate): seq<Payload> {
    if StructureChanged(env, t, u) && Names(env, t, u).None?
    then
      var s := NextStructured(t, u);
      [ToolContent(u.tool, s.content, s.locations, StructureRevision(env, u.tool, s), !s.truncated)]
    else []
  }

  function Told(env: Environment, steps: seq<Step>, thread: Id, topic: Topic, id: Id): seq<Payload> {
    if steps == [] then []
    else
      var before, last := steps[..|steps| - 1], steps[|steps| - 1].event;
      if Starting(last, thread) then []
      else Told(env, before, thread, topic, id) + TellsNow(env, StateAfter(env, before), last, thread, topic, id)
  }

  ghost predicate Reads(env: Environment, p: Projector, thread: Id, log: seq<Event>, topic: Topic, id: Id, told: seq<Payload>) {
    thread in p.runs ==> Read(env, topic, id, Reading(map[], []), log) == Reading(map[], told)
  }

  lemma SilentUnheard(events: seq<Event>, topic: Topic, id: Id)
    requires Silent(events)
    ensures AllUnheard(events, topic, id)
  {
  }

  lemma ReadOn(env: Environment, topic: Topic, id: Id, log: seq<Event>, more: seq<Event>, told: seq<Payload>)
    requires Read(env, topic, id, Reading(map[], []), log) == Reading(map[], told) && AllUnheard(more, topic, id)
    ensures Read(env, topic, id, Reading(map[], []), log + more) == Reading(map[], told)
  {
    hide Read, AllUnheard;
    ReadConcat(env, topic, id, Reading(map[], []), log, more);
    UnheardIgnored(env, topic, id, Reading(map[], told), more);
  }

  // ---- chunks of messages ----

  lemma SpeechUnheard(run: RunState, role: Role, id: Id, content: Text, block: Option<Block>, topic: Topic, reader: Id)
    ensures AllUnheard(MarkerEvents(run, id, content, block), topic, reader)
    ensures AllUnheard(OpenLane(run, role, id).1, topic, reader)
    ensures AllUnheard(ContentEvents(role, id, content), topic, reader)
  {
    hide Cut;
  }

  lemma BlockRead(env: Environment, role: Role, id: Id, block: Option<Block>, topic: Topic, reader: Id, told: seq<Payload>)
    requires env.RoundTrips()
    ensures Read(env, topic, reader, Reading(map[], told), BlockEvents(env, role, id, block))
            == Reading(map[], told + if topic.MessageContentTopic? && id == reader && block.Some?
                                     then [MessageContent(id, role, block.value.value)] else [])
  {
    hide PayloadEvents;
    assert told + [] == told;
    if block.None? {
      assert Read(env, topic, reader, Reading(map[], told), []) == Reading(map[], told);
    } else {
      var payload := MessageContent(id, role, block.value.value);
      hide Read, ReadOne, AllUnheard;
      if topic.MessageContentTopic? && id == reader {
        PayloadRead(env, told, payload);
      } else {
        PayloadUnheard(env, payload, topic, reader);
        UnheardIgnored(env, topic, reader, Reading(map[], told), PayloadEvents(env, id, payload));
      }
    }
  }

  lemma SayRead(env: Environment, run: RunState, role: Role, id: Id, content: Text, block: Option<Block>,
                topic: Topic, reader: Id, told: seq<Payload>)
    requires env.RoundTrips()
    ensures Read(env, topic, reader, Reading(map[], told), Say(env, run, role, id, content, block).1)
            == Reading(map[], told + if topic.MessageContentTopic? && id == reader && block.Some?
                                     then [MessageContent(id, role, block.value.value)] else [])
  {
    hide Read, AllUnheard, OpenLane, BlockEvents, MarkerEvents, ContentEvents, Heard, Budgeted, Valid;
    var first := BlockEvents(env, role, id, block);
    var marker, lane := MarkerEvents(run, id, content, block), OpenLane(Budgeted(run, id, content, block), role, id).1;
    var text := ContentEvents(role, id, Heard(run, id, content));
    BlockRead(env, role, id, block, topic, reader, told);
    SpeechUnheard(run, role, id, content, block, topic, reader);
    SpeechUnheard(Budgeted(run, id, content, block), role, id, Heard(run, id, content), block, topic, reader);
    UnheardConcat(marker, lane, topic, reader);
    UnheardConcat(marker + lane, text, topic, reader);
    assert Say(env, run, role, id, content, block).1 == first + (marker + lane + text);
    ReadConcat(env, topic, reader, Reading(map[], told), first, marker + lane + text);
    UnheardIgnored(env, topic, reader, Read(env, topic, reader, Reading(map[], told), first), marker + lane + text);
  }

  // ---- tool updates ----

  predicate SameStructure(t: ToolState, s: ToolState) {
    StructuredOf(t) == StructuredOf(s) && t.structuredRevision == s.structuredRevision
  }

  lemma CallKeepsStructure(env: Environment, t: ToolState, u: ToolUpdate, found: Option<Subagent>, content: Option<Text>)
    ensures SameStructure(Classified(env, t, u), t) && SameStructure(StartTool(env, t, u).state, t)
    ensures SameStructure(EndTool(t, u).state, t) && SameStructure(UpdateResult(t, content), t)
    ensures SameStructure(ReportSubagent(t, u, found).state, t) && SameStructure(ReportOutcome(t, u, found).state, t)
  {
    hide HasTask, ResultChanged;
  }

  /** The structure after an update, and the revision last told or suppressed. */
  lemma StructureAfter(env: Environment, t: ToolState, u: ToolUpdate)
    ensures var t' := UpdateTool(env, t, u).state;
            && StructuredOf(t') == NextStructured(t, u)
            && t'.structuredRevision == if StructureChanged(env, t, u) then Some(StructureRevision(env, u.tool, NextStructured(t, u)))
                                        else t.structuredRevision
  {
    hide StartTool, EndTool, NewContent, SubagentIn, ReportSubagent, ReportOutcome, TextEvents, StructureEvents;
    hide UpdateResult, Classified, StructureRevision, ApplyStructured;
    var classified := Classified(env, t, u);
    var started := StartTool(env, classified, u);
    var ended := EndTool(started.state, u);
    var content := NewContent(ended.state, u);
    var found := SubagentIn(env, u, content);
    var updated := UpdateResult(ended.state, content);
    var before := UpdateStructure(env, updated, u);
    var reported := ReportSubagent(before, u, found);
    CallKeepsStructure(env, t, u, found, content);
    CallKeepsStructure(env, classified, u, found, content);
    CallKeepsStructure(env, started.state, u, found, content);
    CallKeepsStructure(env, ended.state, u, found, content);
    CallKeepsStructure(env, before, u, found, content);
    CallKeepsStructure(env, reported.state, u, found, content);
  }

  lemma ReportsUnheard(env: Environment, t: ToolState, u: ToolUpdate, found: Option<Subagent>, topic: Topic, id: Id)
    ensures AllUnheard(StartTool(env, t, u).events, topic, id) && AllUnheard(EndTool(t, u).events, topic, id)
    ensures AllUnheard(ReportSubagent(t, u, found).events, topic, id) && AllUnheard(ReportOutcome(t, u, found).events, topic, id)
  {
  }

  lemma TextUnheard(env: Environment, t: ToolState, u: ToolUpdate, found: Option<Subagent>, topic: Topic, id: Id)
    requires !topic.ToolTextTopic?
    ensures AllUnheard(TextEvents(env, t, u, found), topic, id)
  {
    hide NewContent, ResultChanged, PayloadEvents;
    var content := NewContent(t, u);
    if content.Some? {
      PayloadUnheard(env, ToolText(u.tool, Digest(content.value), content.value), topic, id);
    }
    ChangedIsSome(t, content);
  }

  lemma StructureRead(env: Environment, t: ToolState, u: ToolUpdate, topic: Topic, id: Id, told: seq<Payload>)
    requires env.RoundTrips() && !topic.ToolTextTopic?
    ensures Read(env, topic, id, Reading(map[], told), StructureEvents(env, t, u, SubagentIn(env, u, NewContent(t, u))))
            == Reading(map[], told + if topic.ToolContentTopic? && u.tool == id then StructureTold(env, t, u) else [])
  {
    SubagentIsNamed(env, t, u);
    hide NextStructured, StructureChanged, StructureRevision, PayloadEvents, SubagentIn, NewContent, Names;
    assert told + [] == told;
    var s := NextStructured(t, u);
    var payload := ToolContent(u.tool, s.content, s.locations, StructureRevision(env, u.tool, s), !s.truncated);
    assert Read(env, topic, id, Reading(map[], told), []) == Reading(map[], told);
    hide Read, ReadOne, AllUnheard;
    if topic.ToolContentTopic? && u.tool == id {
      PayloadRead(env, told, payload);
    } else {
      PayloadUnheard(env, payload, topic, id);
      UnheardIgnored(env, topic, id, Reading(map[], told), PayloadEvents(env, u.tool, payload));
    }
  }

  lemma SameTold(env: Environment, t: ToolState, s: ToolState, u: ToolUpdate)
    requires SameStructure(t, s) && SameResult(t, s)
    ensures StructureTold(env, s, u) == StructureTold(env, t, u)
  {
    hide ApplyStructured, StructureRevision;
  }

  lemma UpdateRead(env: Environment, t: ToolState, u: ToolUpdate, topic: Topic, id: Id, told: seq<Payload>)
    requires env.RoundTrips() && !topic.ToolTextTopic?
    ensures Read(env, topic, id, Reading(map[], told), UpdateTool(env, t, u).events)
            == Reading(map[], told + if topic.ToolContentTopic? && u.tool == id then StructureTold(env, t, u) else [])
  {
    hide StartTool, EndTool, NewContent, SubagentIn, ReportSubagent, ReportOutcome, TextEvents, StructureEvents;
    hide UpdateStructure, UpdateResult, Classified, AllUnheard, Read, StructureTold, SameStructure, SameResult;
    var classified := Classified(env, t, u);
    var started := StartTool(env, classified, u);
    var ended := EndTool(started.state, u);
    var content := NewContent(ended.state, u);
    var found := SubagentIn(env, u, content);
    var before := UpdateStructure(env, UpdateResult(ended.state, content), u);
    var reported := ReportSubagent(before, u, found);
    var last := ReportOutcome(reported.state, u, found);
    ReportsUnheard(env, classified, u, found, topic, id);
    ReportsUnheard(env, started.state, u, found, topic, id);
    ReportsUnheard(env, before, u, found, topic, id);
    ReportsUnheard(env, reported.state, u, found, topic, id);
    TextUnheard(env, ended.state, u, found, topic, id);
    CallIsSame(env, t, u);
    SameTold(env, t, ended.state, u);
    StructureRead(env, ended.state, u, topic, id, told);
    var opening := started.events + ended.events;
    var calls := opening + reported.events + last.events + TextEvents(env, ended.state, u, found);
    UnheardConcat(started.events, ended.events, topic, id);
    UnheardConcat(opening, reported.events, topic, id);
    UnheardConcat(opening + reported.events, last.events, topic, id);
    UnheardConcat(opening + reported.events + last.events, TextEvents(env, ended.state, u, found), topic, id);
    ReadConcat(env, topic, id, Reading(map[], told), calls, StructureEvents(env, ended.state, u, found));
    UnheardIgnored(env, topic, id, Reading(map[], told), calls);
  }

  lemma CallIsSame(env: Environment, t: ToolState, u: ToolUpdate)
    ensures var s := EndTool(StartTool(env, Classified(env, t, u), u).state, u).state;
            SameStructure(t, s) && SameResult(t, s)
  {
    hide StartTool, EndTool, Classified;
    var classified := Classified(env, t, u);
    var started := StartTool(env, classified, u);
    ClassifiedStage(env, t, u);
    StartStage(env, classified, u);
    EndStage(started.state, u);
    CallKeepsStructure(env, t, u, None, None);
    CallKeepsStructure(env, classified, u, None, None);
    CallKeepsStructure(env, started.state, u, None, None);
  }

  // ---- over runs ----

  lemma SpeakReads(env: Environment, p: Projector, s: Step, thread: Id, log: seq<Event>, topic: Topic, id: Id, told: seq<Payload>)
    requires env.RoundTrips() && Speaking(p, s.event, thread) && Reads(env, p, thread, log, topic, id, told)
    ensures Reads(env, Project(env, p, s.event, s.order).0, thread, LogFrom(thread, log, Project(env, p, s.event, s.order).1),
                  topic, id, told + TellsNow(env, p, s.event, thread, topic, id))
  {
    hide Project, LogFrom, Say, Silent, Read, StructureTold;
    var c, run := s.event, p.runs[thread];
    SpeakStartsNothing(env, run, c);
    var first := SpeakLogged(env, p, c, s.order, thread, log);
    SilentUnheard(first, topic, id);
    ReadOn(env, topic, id, log, first, told);
    SayRead(env, run, c.role, c.message, c.content, c.block, topic, id, told);
    ReadConcat(env, topic, id, Reading(map[], []), log + first, Say(env, run, c.role, c.message, c.content, c.block).1);
  }

  lemma SpeakStartsNothing(env: Environment, run: RunState, c: Canonical)
    requires c.MessageChunk?
    ensures NoStart(Say(env, run, c.role, c.message, c.content, c.block).1)
  {
    hide Say;
    SaidForeign(env, run, c.role, c.message, c.content, c.block, 0);
  }

  lemma UseReads(env: Environment, p: Projector, s: Step, thread: Id, log: seq<Event>, topic: Topic, id: Id, told: seq<Payload>)
    requires env.RoundTrips() && !topic.ToolTextTopic?
    requires Using(p, s.event, thread) && Reads(env, p, thread, log, topic, id, told)
    ensures Reads(env, Project(env, p, s.event, s.order).0, thread, LogFrom(thread, log, Project(env, p, s.event, s.order).1),
                  topic, id, told + TellsNow(env, p, s.event, thread, topic, id))
  {
    hide Project, LogFrom, UpdateTool, Silent, Read, StructureTold, RunAfterTool, ToolOf;
    var u, run := s.event.update, p.runs[thread];
    var events := UpdateTool(env, ToolOf(run, u.tool), u).events;
    UpdateToolOnlyOf(env, ToolOf(run, u.tool), u);
    OnlyOfStartsNothing(events, u.tool);
    var first := UseLogged(env, p, s.event, s.order, thread, log);
    SilentUnheard(first, topic, id);
    ReadOn(env, topic, id, log, first, told);
    UpdateRead(env, ToolOf(run, u.tool), u, topic, id, told);
    ReadConcat(env, topic, id, Reading(map[], []), log + first, events);
  }

  lemma AsideReads(env: Environment, p: Projector, s: Step, thread: Id, log: seq<Event>, topic: Topic, id: Id, told: seq<Payload>)
    requires Aside(p, s.event, thread) && Reads(env, p, thread, log, topic, id, told)
    ensures Reads(env, Project(env, p, s.event, s.order).0, thread, LogFrom(thread, log, Project(env, p, s.event, s.order).1),
                  topic, id, told)
  {
    hide Project, LogFrom, Silent, Read, Aside;
    var more := AsideLogged(env, p, s.event, s.order, thread, log);
    SilentUnheard(more, topic, id);
    if thread in p.runs {
      ReadOn(env, topic, id, log, more, told);
    }
  }

  lemma EndsRead(env: Environment, p: Projector, s: Step, thread: Id, log: seq<Event>, topic: Topic, id: Id, told: seq<Payload>)
    requires Finishing(p, s.event, thread)
    ensures Reads(env, Project(env, p, s.event, s.order).0, thread, LogFrom(thread, log, Project(env, p, s.event, s.order).1),
                  topic, id, told)
  {
    hide Project, LogFrom, Read;
    var _, _ := FinishLogged(env, p, s.event, s.order, thread, log);
  }

  lemma StartsRead(env: Environment, p: Projector, s: Step, thread: Id, log: seq<Event>, topic: Topic, id: Id)
    requires Starting(s.event, thread)
    ensures Reads(env, Project(env, p, s.event, s.order).0, thread, LogFrom(thread, log, Project(env, p, s.event, s.order).1),
                  topic, id, [])
  {
    hide Project, LogFrom;
    StartLogged(env, p, thread, s.event.run, s.event.turn, s.order, log);
  }

  lemma StepReads(env: Environment, p: Projector, s: Step, thread: Id, log: seq<Event>, topic: Topic, id: Id, told: seq<Payload>)
    requires env.RoundTrips() && !topic.ToolTextTopic? && Reads(env, p, thread, log, topic, id, told)
    ensures Reads(env, Project(env, p, s.event, s.order).0, thread, LogFrom(thread, log, Project(env, p, s.event, s.order).1),
                  topic, id, if Starting(s.event, thread) then [] else told + TellsNow(env, p, s.event, thread, topic, id))
  {
    FiveKinds(p, s.event, thread);
    NothingTold(env, p, s.event, thread, topic, id);
    hide Project, LogFrom, Reads, Aside, Finishing, Starting, Speaking, Using, TellsNow;
    assert told + [] == told;
    if Starting(s.event, thread) {
      StartsRead(env, p, s, thread, log, topic, id);
    } else if Using(p, s.event, thread) {
      UseReads(env, p, s, thread, log, topic, id, told);
    } else if Speaking(p, s.event, thread) {
      SpeakReads(env, p, s, thread, log, topic, id, told);
    } else if Finishing(p, s.event, thread) {
      EndsRead(env, p, s, thread, log, topic, id, told);
    } else {
      AsideReads(env, p, s, thread, log, topic, id, told);
    }
  }

  lemma NothingTold(env: Environment, p: Projector, c: Canonical, thread: Id, topic: Topic, id: Id)
    ensures !Speaking(p, c, thread) && !Using(p, c, thread) ==> TellsNow(env, p, c, thread, topic, id) == []
  {
    hide Speaking, Using;
  }

  lemma {:induction false} RunReads(env: Environment, steps: seq<Step>, thread: Id, topic: Topic, id: Id)
    requires env.RoundTrips() && !topic.ToolTextTopic?
    ensures Reads(env, StateAfter(env, steps), thread, RunLog(thread, Stream(env, steps)), topic, id,
                  Told(env, steps, thread, topic, id))
    decreases |steps|
  {
    if steps != [] {
      hide Reads, Project, LogFrom, Starting, TellsNow;
      var before, last := steps[..|steps| - 1], steps[|steps| - 1];
      RunReads(env, before, thread, topic, id);
      var p := StateAfter(env, before);
      LogConcat(thread, [], Stream(env, before), Project(env, p, last.event, last.order).1);
      StepReads(env, p, last, thread, RunLog(thread, Stream(env, before)), topic, id, Told(env, before, thread, topic, id));
    }
  }

  /** A reader of message content has, for every message of an open run, its blocks in order, each with the role it came with. */
  lemma BlocksRead(env: Environment, steps: seq<Step>, thread: Id, id: Id)
    requires env.RoundTrips() && thread in StateAfter(env, steps).runs
    ensures Read(env, MessageContentTopic, id, Reading(map[], []), RunLog(thread, Stream(env, steps)))
            == Reading(map[], Told(env, steps, thread, MessageContentTopic, id))
  {
    hide StateAfter, Stream, RunLog, Read, Told;
    RunReads(env, steps, thread, MessageContentTopic, id);
  }

  // ---- the structure of a tool ----

  /** Everything sent for a tool's content and locations, and whether an update hid that something was lost. */
  datatype StructureStory = StructureStory(whole: Whole, hidden: bool)

  function NextList(sent: seq<Json>, update: FieldUpdate<seq<Json>>): seq<Json> {
    match update
    case Unchanged => sent
    case Clear => []
    case Set(values) => values
    case Append(values) => sent + values
  }

  function StructureStoryOf(env: Environment, steps: seq<Step>, thread: Id, tool: Id): StructureStory {
    if steps == [] then StructureStory(Whole([], []), false)
    else
      var before, last := steps[..|steps| - 1], steps[|steps| - 1].event;
      var story, p := StructureStoryOf(env, before, thread, tool), StateAfter(env, before);
      if Starting(last, thread) then StructureStory(Whole([], []), false)
      else if Using(p, last, thread) && last.update.tool == tool then
        var u := last.update;
        StructureStory(Whole(NextList(story.whole.content, u.structured), NextList(story.whole.locations, u.locations)),
                       story.hidden || ForgetsLoss(StructuredOf(ToolOf(p.runs[thread], tool)), story.whole, u.structured,
                                                   u.locations, MAX_STRUCTURED_TOOL_BYTES))
      else story
  }

  /** What the last payload shows. */
  predicate Shows(told: seq<Payload>, tool: Id, s: Structured) {
    if told == [] then s == NO_VALUES
    else
      var last := told[|told| - 1];
      last.ToolContent? && last.tool == tool && last.structured == s.content && last.locations == s.locations
      && last.available == !s.truncated
  }

  /** The reader has the present structure, whose revision is the last one; and it is what was sent, or says that it is not. */
  ghost predicate Structures(env: Environment, p: Projector, thread: Id, tool: Id, told: seq<Payload>, story: StructureStory,
                             named: bool)
  {
    thread in p.runs ==>
      var t := ToolOf(p.runs[thread], tool);
      && (!named ==> Shows(told, tool, StructuredOf(t)))
      && (!named ==> t.structuredRevision == if told == [] then None else Some(StructureRevision(env, tool, StructuredOf(t))))
      && (!story.hidden ==> Truthful(StructuredOf(t), story.whole))
  }

  lemma RevisionTells(env: Environment, tool: Id, a: Structured, b: Structured)
    requires env.RoundTrips() && StructureRevision(env, tool, a) == StructureRevision(env, tool, b)
    ensures a == b
  {
    var p, q := ToolStructure(tool, a.content, a.locations, !a.truncated), ToolStructure(tool, b.content, b.locations, !b.truncated);
    assert env.decode(env.encode(p)) == Some(p) && env.decode(env.encode(q)) == Some(q);
  }

  /** As long as the revision is that of the present structure, exactly the changes are told. */
  lemma ChangesAreTold(env: Environment, t: ToolState, u: ToolUpdate)
    requires env.RoundTrips()
    requires t.structuredRevision.None? || t.structuredRevision == Some(StructureRevision(env, u.tool, StructuredOf(t)))
    ensures StructureChanged(env, t, u) <==> NextStructured(t, u) != StructuredOf(t)
  {
    var next := NextStructured(t, u);
    if StructureRevision(env, u.tool, StructuredOf(t)) == StructureRevision(env, u.tool, next) {
      RevisionTells(env, u.tool, StructuredOf(t), next);
    }
    hide NextStructured, StructureRevision, StructuredOf;
  }

  lemma ToldShows(env: Environment, t: ToolState, u: ToolUpdate, told: seq<Payload>)
    requires env.RoundTrips() && Shows(told, u.tool, StructuredOf(t)) && Names(env, t, u).None?
    requires t.structuredRevision == if told == [] then None else Some(StructureRevision(env, u.tool, StructuredOf(t)))
    ensures var more := told + StructureTold(env, t, u);
            && Shows(more, u.tool, NextStructured(t, u))
            && UpdateTool(env, t, u).state.structuredRevision
               == if more == [] then None else Some(StructureRevision(env, u.tool, NextStructured(t, u)))
  {
    hide UpdateTool, NextStructured, StructureRevision, StructuredOf, StructureChanged, Names;
    StructureAfter(env, t, u);
    ChangesAreTold(env, t, u);
    assert told + [] == told;
  }

  lemma StoryTruthful(t: ToolState, u: ToolUpdate, whole: Whole)
    requires Truthful(StructuredOf(t), whole)
    requires !ForgetsLoss(StructuredOf(t), whole, u.structured, u.locations, MAX_STRUCTURED_TOOL_BYTES)
    ensures Truthful(NextStructured(t, u), Whole(NextList(whole.content, u.structured), NextList(whole.locations, u.locations)))
  {
    AvailabilityTruthfulIff(StructuredOf(t), whole, u.structured, u.locations, MAX_STRUCTURED_TOOL_BYTES);
    SameField(whole.content, u.structured);
    SameField(whole.locations, u.locations);
    hide ApplyStructured, Truthful, ForgetsLoss, NextList, UpdateField;
  }

  lemma SameField(sent: seq<Json>, update: FieldUpdate<seq<Json>>)
    ensures UpdateField(sent, update) == NextList(sent, update)
  {
  }

  lemma UseStructures(env: Environment, p: Projector, s: Step, thread: Id, tool: Id, told: seq<Payload>, story: StructureStory,
                      named: bool)
    requires env.RoundTrips() && Using(p, s.event, thread) && s.event.update.tool == tool
    requires Structures(env, p, thread, tool, told, story, named)
    ensures var u, t := s.event.update, ToolOf(p.runs[thread], tool);
            Structures(env, Project(env, p, s.event, s.order).0, thread, tool, told + StructureTold(env, t, u),
                       StructureStory(Whole(NextList(story.whole.content, u.structured), NextList(story.whole.locations, u.locations)),
                                      story.hidden || ForgetsLoss(StructuredOf(t), story.whole, u.structured, u.locations,
                                                                  MAX_STRUCTURED_TOOL_BYTES)),
                       named || Names(env, t, u).Some?)
  {
    hide Project, UpdateTool, StructureTold, NextStructured, StructuredOf, StructureRevision, Truthful, ForgetsLoss, NextList;
    hide Shows, Names;
    var u, t := s.event.update, ToolOf(p.runs[thread], tool);
    var _ := UseLogged(env, p, s.event, s.order, thread, []);
    StructureAfter(env, t, u);
    if !story.hidden && !ForgetsLoss(StructuredOf(t), story.whole, u.structured, u.locations, MAX_STRUCTURED_TOOL_BYTES) {
      StoryTruthful(t, u, story.whole);
    }
    if !named && Names(env, t, u).None? {
      ToldShows(env, t, u, told);
    }
  }

  lemma OtherStructures(env: Environment, p: Projector, s: Step, thread: Id, tool: Id, told: seq<Payload>, story: StructureStory,
                        named: bool)
    requires !Starting(s.event, thread) && !(Using(p, s.event, thread) && s.event.update.tool == tool)
    requires Structures(env, p, thread, tool, told, story, named)
    ensures Structures(env, Project(env, p, s.event, s.order).0, thread, tool, told, story, named)
  {
    FiveKinds(p, s.event, thread);
    hide Project, Aside, UpdateTool, Say, Silent;
    if Using(p, s.event, thread) {
      var _ := UseLogged(env, p, s.event, s.order, thread, []);
    } else if Speaking(p, s.event, thread) {
      var c := s.event;
      var _ := SpeakLogged(env, p, c, s.order, thread, []);
      SaidForeign(env, p.runs[thread], c.role, c.message, c.content, c.block, tool);
    } else if Finishing(p, s.event, thread) {
      var _, _ := FinishLogged(env, p, s.event, s.order, thread, []);
    } else {
      var _ := AsideLogged(env, p, s.event, s.order, thread, []);
    }
  }

  lemma StartStructures(env: Environment, p: Projector, s: Step, thread: Id, tool: Id)
    requires Starting(s.event, thread)
    ensures Structures(env, Project(env, p, s.event, s.order).0, thread, tool, [], StructureStory(Whole([], []), false), false)
  {
    hide Project;
    StartLogged(env, p, thread, s.event.run, s.event.turn, s.order, []);
  }

  lemma {:induction false} RunStructures(env: Environment, steps: seq<Step>, thread: Id, tool: Id)
    requires env.RoundTrips()
    ensures Structures(env, StateAfter(env, steps), thread, tool, Told(env, steps, thread, ToolContentTopic, tool),
                       StructureStoryOf(env, steps, thread, tool), StoryOf(env, steps, thread, tool).named)
    decreases |steps|
  {
    if steps != [] {
      hide Structures, Project, Speaking, ForgetsLoss, NextList, StructureTold;
      var before, last := steps[..|steps| - 1], steps[|steps| - 1];
      RunStructures(env, before, thread, tool);
      var p := StateAfter(env, before);
      var told, story := Told(env, before, thread, ToolContentTopic, tool), StructureStoryOf(env, before, thread, tool);
      var named := StoryOf(env, before, thread, tool).named;
      assert told + [] == told;
      if Starting(last.event, thread) {
        StartStructures(env, p, last, thread, tool);
      } else if Using(p, last.event, thread) && last.event.update.tool == tool {
        NotBoth(p, last.event, thread);
        UseStructures(env, p, last, thread, tool, told, story, named);
      } else {
        OtherStructures(env, p, last, thread, tool, told, story, named);
      }
    }
  }

  lemma NotBoth(p: Projector, c: Canonical, thread: Id)
    requires Using(p, c, thread)
    ensures !Speaking(p, c, thread) && !Starting(c, thread)
  {
  }

  /**
   A reader of tool content has, for every tool of an open run that no update named a sub-agent for, the content, the
   locations and the flag that the projector holds; and as long as no update hides a loss, these are what was sent, or
   the flag says that something is missing.
   */
  lemma StructureRefined(env: Environment, steps: seq<Step>, thread: Id, tool: Id)
    requires env.RoundTrips() && thread in StateAfter(env, steps).runs && !StoryOf(env, steps, thread, tool).named
    ensures var r := Read(env, ToolContentTopic, tool, Reading(map[], []), RunLog(thread, Stream(env, steps)));
            var s := StructuredOf(ToolOf(StateAfter(env, steps).runs[thread], tool));
            var story := StructureStoryOf(env, steps, thread, tool);
            && r.parts == map[] && Shows(r.told, tool, s)
            && (!story.hidden ==> Truthful(s, story.whole))
  {
    hide StateAfter, Stream, RunLog, Read, Told, Shows, Truthful, StructureStoryOf, StoryOf, StructureRevision;
    RunReads(env, steps, thread, ToolContentTopic, tool);
    RunStructures(env, steps, thread, tool);
  }
}
