/**
 Tools in the emitted stream: the life of a tool call, and the text a receiver of it has.
 */
module AguiTools {
  import opened Wrappers
  import opened Utf8
  import opened AguiEvents
  import opened AguiStructured
  import opened AguiProjection
  import opened AguiLog

  // ---- what a receiver sees of one tool ----

  datatype Mark = StartMark | ArgsMark | EndMark | ResultMark

  function MarkOf(e: Event, tool: Id): seq<Mark> {
    match e
    case ToolStart(t, _) => if t == tool then [StartMark] else []
    case ToolArgs(t) => if t == tool then [ArgsMark] else []
    case ToolEnd(t) => if t == tool then [EndMark] else []
    case ToolResult(t, _) => if t == tool then [ResultMark] else []
    case _ => []
  }

  function Trace(log: seq<Event>, tool: Id): seq<Mark> {
    if log == [] then [] else Trace(log[..|log| - 1], tool) + MarkOf(log[|log| - 1], tool)
  }

  /** The text held, and the chunks of the next one that have arrived. */
  datatype Held = Held(text: Text, parts: map<nat, Text>)

  const NOTHING: Held := Held([], map[])

  /** A result is appended; a tool-text value, whole or in chunks, replaces what was held. */
  function ReceiveOne(env: Environment, tool: Id, h: Held, e: Event): Held {
    match e
    case ToolResult(t, content) => if t == tool then h.(text := Concat(h.text, content)) else h
    case Custom(payload) => if payload.ToolText? && payload.tool == tool then Held(payload.text, h.parts) else h
    case Chunk(topic, id, _, index, count, data) =>
      if topic.ToolTextTopic? && id == tool then ReceiveChunk(env, h, index, count, data) else h
    case _ => h
  }

  function ReceiveChunk(env: Environment, h: Held, index: nat, count: nat, data: Text): Held {
    var parts := h.parts[index := data];
    if !Complete(parts, count) then Held(h.text, parts)
    else
      match env.decode(Join(InOrder(parts, count)))
      case Some(ToolText(_, _, text)) => Held(text, map[])
      case _ => Held(h.text, map[])
  }

  function Receive(env: Environment, tool: Id, h: Held, log: seq<Event>): Held {
    if log == [] then h else ReceiveOne(env, tool, Receive(env, tool, h, log[..|log| - 1]), log[|log| - 1])
  }

  lemma {:induction false} TraceConcat(a: seq<Event>, b: seq<Event>, tool: Id)
    ensures Trace(a + b, tool) == Trace(a, tool) + Trace(b, tool)
    decreases |b|
  {
    hide MarkOf;
    if b == [] {
      assert a + b == a;
      assert Trace(a, tool) + [] == Trace(a, tool);
    } else {
      assert (a + b)[..|a + b| - 1] == a + b[..|b| - 1];
      TraceConcat(a, b[..|b| - 1], tool);
      ConcatAssoc(Trace(a, tool), Trace(b[..|b| - 1], tool), MarkOf(b[|b| - 1], tool));
    }
  }

  lemma {:induction false} ReceiveConcat(env: Environment, tool: Id, h: Held, a: seq<Event>, b: seq<Event>)
    ensures Receive(env, tool, h, a + b) == Receive(env, tool, Receive(env, tool, h, a), b)
    decreases |b|
  {
    hide ReceiveOne;
    if b == [] {
      assert a + b == a;
    } else {
      assert (a + b)[..|a + b| - 1] == a + b[..|b| - 1];
      ReceiveConcat(env, tool, h, a, b[..|b| - 1]);
    }
  }

  /** The event is not about this tool. */
  predicate Foreign(e: Event, tool: Id) {
    match e
    case ToolStart(t, _) => t != tool
    case ToolArgs(t) => t != tool
    case ToolEnd(t) => t != tool
    case ToolResult(t, _) => t != tool
    case Custom(p) => !(p.ToolText? && p.tool == tool)
    case Chunk(topic, id, _, _, _, _) => !(topic.ToolTextTopic? && id == tool)
    case _ => true
  }

  predicate AllForeign(events: seq<Event>, tool: Id) {
    forall i :: 0 <= i < |events| ==> Foreign(events[i], tool)
  }

  lemma {:induction false} ForeignIgnored(env: Environment, tool: Id, h: Held, events: seq<Event>)
    requires AllForeign(events, tool)
    ensures Trace(events, tool) == [] && Receive(env, tool, h, events) == h
    decreases |events|
  {
    if events != [] {
      hide ReceiveChunk;
      ForeignIgnored(env, tool, h, events[..|events| - 1]);
    }
  }

  // ---- whose events a step emits ----

  /** The event carries this tool's id, or is not about any tool's call or text. */
  predicate OnlyOf(e: Event, tool: Id) {
    match e
    case ToolStart(t, _) => t == tool
    case ToolArgs(t) => t == tool
    case ToolEnd(t) => t == tool
    case ToolResult(t, _) => t == tool
    case Custom(p) => p.ToolText? ==> p.tool == tool
    case Chunk(topic, id, _, _, _, _) => topic.ToolTextTopic? ==> id == tool
    case RunStartedEvent => false
    case RunFinishedEvent => false
    case RunErrorEvent(_) => false
    case SessionEvent(_, _) => false
    case _ => true
  }

  predicate AllOnlyOf(events: seq<Event>, tool: Id) {
    forall i :: 0 <= i < |events| ==> OnlyOf(events[i], tool)
  }

  lemma OnlyOfConcat(a: seq<Event>, b: seq<Event>, tool: Id)
    requires AllOnlyOf(a, tool) && AllOnlyOf(b, tool)
    ensures AllOnlyOf(a + b, tool)
  {
  }

  lemma OnlyOfIsForeign(events: seq<Event>, tool: Id, other: Id)
    requires AllOnlyOf(events, tool) && other != tool
    ensures AllForeign(events, other) && NoStart(events)
  {
  }

  lemma OnlyOfStartsNothing(events: seq<Event>, tool: Id)
    requires AllOnlyOf(events, tool)
    ensures NoStart(events)
  {
  }

  lemma PayloadOnlyOf(env: Environment, canonicalId: Id, payload: Payload, tool: Id)
    requires payload.ToolText? ==> payload.tool == tool && canonicalId == tool
    ensures AllOnlyOf(PayloadEvents(env, canonicalId, payload), tool)
  {
  }

  lemma TextEventsOnlyOf(env: Environment, t: ToolState, u: ToolUpdate, found: Option<Subagent>)
    ensures AllOnlyOf(TextEvents(env, t, u, found), u.tool)
  {
    hide NewContent, ResultChanged, PayloadEvents;
    var content := NewContent(t, u);
    if content.Some? {
      PayloadOnlyOf(env, u.tool, ToolText(u.tool, Digest(content.value), content.value), u.tool);
    }
    ChangedIsSome(t, content);
  }

  lemma ChangedIsSome(t: ToolState, content: Option<Text>)
    ensures ResultChanged(t, content) ==> content.Some?
  {
  }

  lemma PayloadForeign(env: Environment, canonicalId: Id, payload: Payload, tool: Id)
    requires !payload.ToolText?
    ensures AllForeign(PayloadEvents(env, canonicalId, payload), tool)
  {
  }

  lemma StructureEventsOnlyOf(env: Environment, t: ToolState, u: ToolUpdate, found: Option<Subagent>, tool: Id)
    ensures AllOnlyOf(StructureEvents(env, t, u, found), tool)
    ensures AllForeign(StructureEvents(env, t, u, found), tool)
  {
    hide NextStructured, StructureChanged, StructureRevision, PayloadEvents, AllForeign, AllOnlyOf;
    NothingOnlyOf(tool);
    var s := NextStructured(t, u);
    var payload := ToolContent(u.tool, s.content, s.locations, StructureRevision(env, u.tool, s), !s.truncated);
    PayloadForeign(env, u.tool, payload, tool);
    PayloadOnlyOf(env, u.tool, payload, tool);
  }

  lemma NothingOnlyOf(tool: Id)
    ensures AllOnlyOf([], tool) && AllForeign([], tool)
  {
  }

  lemma ReportsOnlyOf(env: Environment, t: ToolState, u: ToolUpdate, found: Option<Subagent>)
    ensures AllOnlyOf(StartTool(env, t, u).events, u.tool) && AllOnlyOf(EndTool(t, u).events, u.tool)
    ensures AllOnlyOf(ReportSubagent(t, u, found).events, u.tool) && AllOnlyOf(ReportOutcome(t, u, found).events, u.tool)
    ensures AllForeign(ReportSubagent(t, u, found).events, u.tool) && AllForeign(ReportOutcome(t, u, found).events, u.tool)
  {
  }

  lemma UpdateToolOnlyOf(env: Environment, t: ToolState, u: ToolUpdate)
    ensures AllOnlyOf(UpdateTool(env, t, u).events, u.tool)
  {
    hide StartTool, EndTool, NewContent, SubagentIn, ReportSubagent, ReportOutcome, TextEvents, StructureEvents;
    hide UpdateStructure, UpdateResult, Classified, AllOnlyOf;
    var started := StartTool(env, Classified(env, t, u), u);
    var ended := EndTool(started.state, u);
    var content := NewContent(ended.state, u);
    var found := SubagentIn(env, u, content);
    var before := UpdateStructure(env, UpdateResult(ended.state, content), u);
    var reported := ReportSubagent(before, u, found);
    var told := ReportOutcome(reported.state, u, found);
    ReportsOnlyOf(env, Classified(env, t, u), u, found);
    ReportsOnlyOf(env, started.state, u, found);
    ReportsOnlyOf(env, before, u, found);
    ReportsOnlyOf(env, reported.state, u, found);
    TextEventsOnlyOf(env, ended.state, u, found);
    StructureEventsOnlyOf(env, ended.state, u, found, u.tool);
    var opening := started.events + ended.events;
    OnlyOfConcat(started.events, ended.events, u.tool);
    OnlyOfConcat(opening, reported.events, u.tool);
    OnlyOfConcat(opening + reported.events, told.events, u.tool);
    OnlyOfConcat(opening + reported.events + told.events, TextEvents(env, ended.state, u, found), u.tool);
    OnlyOfConcat(opening + reported.events + told.events + TextEvents(env, ended.state, u, found),
                 StructureEvents(env, ended.state, u, found), u.tool);
  }

  /** A receiver of the tool sees its start, its end and its text; the rest of the update is not for it. */
  lemma UpdateSeen(env: Environment, t: ToolState, u: ToolUpdate, h: Held)
    ensures var started := StartTool(env, Classified(env, t, u), u);
            var ended := EndTool(started.state, u);
            var found := SubagentIn(env, u, NewContent(ended.state, u));
            var text := TextEvents(env, ended.state, u, found);
            var events := UpdateTool(env, t, u).events;
            && Trace(events, u.tool)
               == Trace(started.events, u.tool) + Trace(ended.events, u.tool) + Trace(text, u.tool)
            && Receive(env, u.tool, h, events)
               == Receive(env, u.tool, Receive(env, u.tool, Receive(env, u.tool, h, started.events), ended.events), text)
  {
    hide StartTool, EndTool, NewContent, SubagentIn, ReportSubagent, ReportOutcome, TextEvents, StructureEvents;
    hide UpdateStructure, UpdateResult, Classified, Trace, Receive, AllForeign, AllOnlyOf;
    var started := StartTool(env, Classified(env, t, u), u);
    var ended := EndTool(started.state, u);
    var content := NewContent(ended.state, u);
    var found := SubagentIn(env, u, content);
    var before := UpdateStructure(env, UpdateResult(ended.state, content), u);
    var reported := ReportSubagent(before, u, found);
    var told := ReportOutcome(reported.state, u, found);
    ReportsOnlyOf(env, before, u, found);
    ReportsOnlyOf(env, reported.state, u, found);
    var text, structure := TextEvents(env, ended.state, u, found), StructureEvents(env, ended.state, u, found);
    StructureEventsOnlyOf(env, ended.state, u, found, u.tool);
    SixPieces(env, u.tool, h, started.events, ended.events, reported.events, told.events, text, structure);
  }

  lemma SixPieces(env: Environment, tool: Id, h: Held, a: seq<Event>, b: seq<Event>, c: seq<Event>, d: seq<Event>,
                  e: seq<Event>, f: seq<Event>)
    requires AllForeign(c, tool) && AllForeign(d, tool) && AllForeign(f, tool)
    ensures Trace(a + b + c + d + e + f, tool) == Trace(a, tool) + Trace(b, tool) + Trace(e, tool)
    ensures Receive(env, tool, h, a + b + c + d + e + f)
            == Receive(env, tool, Receive(env, tool, Receive(env, tool, h, a), b), e)
  {
    hide Trace, Receive, AllForeign;
    TraceConcat(a, b, tool);
    TraceConcat(a + b, c, tool);
    TraceConcat(a + b + c, d, tool);
    TraceConcat(a + b + c + d, e, tool);
    TraceConcat(a + b + c + d + e, f, tool);
    ReceiveConcat(env, tool, h, a, b);
    ReceiveConcat(env, tool, h, a + b, c);
    ReceiveConcat(env, tool, h, a + b + c, d);
    ReceiveConcat(env, tool, h, a + b + c + d, e);
    ReceiveConcat(env, tool, h, a + b + c + d + e, f);
    var h2 := Receive(env, tool, Receive(env, tool, h, a), b);
    ForeignIgnored(env, tool, h2, c);
    ForeignIgnored(env, tool, h2, d);
    ForeignIgnored(env, tool, Receive(env, tool, h2, e), f);
    var s := Trace(a, tool) + Trace(b, tool);
    assert s + [] == s && s + Trace(e, tool) + [] == s + Trace(e, tool);
  }

  // ---- the life of a tool call ----

  /** Started, given its arguments, ended; results come after. */
  predicate WholeCall(trace: seq<Mark>) {
    && |trace| >= 3 && trace[..3] == [StartMark, ArgsMark, EndMark]
    && forall i :: 3 <= i < |trace| ==> trace[i] == ResultMark
  }

  /** The tool was found to be a sub-agent, or its title or what the update sends says so. */
  predicate SaysSubagent(env: Environment, t: ToolState, u: ToolUpdate) {
    || t.subagent || u.subagentTitle
    || (u.content.Set? && env.parseTask(u.content.value).Some?)
    || (u.content.Append? && env.parseTask(u.content.value).Some?)
  }

  /** The sub-agent that the whole text of the tool names after the update. */
  function Names(env: Environment, t: ToolState, u: ToolUpdate): Option<Subagent> {
    if u.content.Unchanged? then None
    else
      match env.parseTask(NextText(t.result, u.content))
      case None => None
      case Some(task) =>
        match env.childThread(u.agent, task.session)
        case None => None
        case Some(child) => Some(Subagent(child, Stated(task.state)))
  }

  lemma SubagentIsNamed(env: Environment, t: ToolState, u: ToolUpdate)
    ensures SubagentIn(env, u, NewContent(t, u)) == Names(env, t, u)
    ensures Classified(env, t, u).subagent <==> SaysSubagent(env, t, u)
  {
    hide NextText;
  }

  /** The update says that the tool is a sub-agent while the call is still open. */
  predicate Diverts(env: Environment, t: ToolState, u: ToolUpdate) {
    !t.ended && (SaysSubagent(env, t, u) || (!u.status.Terminal() && Names(env, t, u).Some?))
  }

  /** What a receiver has seen of a tool in this state. */
  predicate Lives(t: ToolState, trace: seq<Mark>, diverted: bool) {
    if !t.started then t == NEW_TOOL && trace == [] && !diverted
    else if diverted then t.subagent && EndMark !in trace
    else if t.ended then WholeCall(trace)
    else !t.subagent && trace == [StartMark, ArgsMark]
  }

  // What each stage of an update does to the parts of a tool's state that matter to its receivers.

  predicate SameCall(t: ToolState, t': ToolState) {
    t'.started == t.started && t'.ended == t.ended && t'.subagent == t.subagent
  }

  predicate SameResult(t: ToolState, t': ToolState) {
    t'.result == t.result && t'.resultRevision == t.resultRevision
  }

  lemma StartStage(env: Environment, t: ToolState, u: ToolUpdate)
    ensures var t' := StartTool(env, t, u).state;
            SameResult(t, t') && t'.started && t'.ended == t.ended && t'.subagent == t.subagent
  {
    hide HasTask;
  }

  lemma EndStage(t: ToolState, u: ToolUpdate)
    ensures var t' := EndTool(t, u).state;
            && SameResult(t, t') && t'.started == t.started && t'.subagent == t.subagent
            && (t'.ended <==> t.ended || u.status.Terminal())
  {
  }

  lemma ResultStage(t: ToolState, s: ToolState, content: Option<Text>)
    ensures SameCall(t, UpdateResult(t, content))
    ensures SameResult(t, s) ==> SameResult(UpdateResult(t, content), UpdateResult(s, content))
  {
    ChangeIsSame(t, s, content);
    hide ResultChanged;
  }

  lemma ChangeIsSame(t: ToolState, s: ToolState, content: Option<Text>)
    ensures SameResult(t, s) ==> (ResultChanged(t, content) <==> ResultChanged(s, content))
  {
  }

  lemma StructureStage(env: Environment, t: ToolState, u: ToolUpdate)
    ensures SameCall(t, UpdateStructure(env, t, u)) && SameResult(t, UpdateStructure(env, t, u))
  {
    hide NextStructured, StructureChanged, StructureRevision;
  }

  lemma ReportStages(t: ToolState, u: ToolUpdate, found: Option<Subagent>)
    ensures var t' := ReportSubagent(t, u, found).state;
            && SameResult(t, t') && t'.started == t.started && t'.ended == t.ended
            && (t'.subagent <==> t.subagent || found.Some?)
    ensures SameCall(t, ReportOutcome(t, u, found).state) && SameResult(t, ReportOutcome(t, u, found).state)
  {
  }

  lemma ClassifiedStage(env: Environment, t: ToolState, u: ToolUpdate)
    ensures var t' := Classified(env, t, u);
            SameResult(t, t') && t'.started == t.started && t'.ended == t.ended && (t.subagent ==> t'.subagent)
  {
    hide HasTask;
  }

  lemma ContentStage(t: ToolState, s: ToolState, u: ToolUpdate)
    requires SameResult(t, s)
    ensures NewContent(s, u) == NewContent(t, u)
  {
  }

  /** The call flags and the result after an update. */
  lemma UpdateFlags(env: Environment, t: ToolState, u: ToolUpdate)
    ensures var t', found := UpdateTool(env, t, u).state, SubagentIn(env, u, NewContent(t, u));
            && t'.started && (t'.ended <==> t.ended || u.status.Terminal())
            && (t'.subagent <==> Classified(env, t, u).subagent || found.Some?)
            && SameResult(UpdateResult(t, NewContent(t, u)), t')
  {
    hide StartTool, EndTool, NewContent, SubagentIn, ReportSubagent, ReportOutcome, TextEvents, StructureEvents;
    hide UpdateStructure, UpdateResult, Classified;
    var classified := Classified(env, t, u);
    var started := StartTool(env, classified, u);
    var ended := EndTool(started.state, u);
    var content := NewContent(ended.state, u);
    var found := SubagentIn(env, u, content);
    var updated := UpdateResult(ended.state, content);
    var before := UpdateStructure(env, updated, u);
    var reported := ReportSubagent(before, u, found);
    ClassifiedStage(env, t, u);
    StartStage(env, classified, u);
    EndStage(started.state, u);
    ContentStage(t, ended.state, u);
    ResultStage(ended.state, t, content);
    StructureStage(env, updated, u);
    ReportStages(before, u, found);
    ReportStages(reported.state, u, found);
  }

  lemma {:induction false} NoMarks(events: seq<Event>, tool: Id)
    requires forall i :: 0 <= i < |events| ==> MarkOf(events[i], tool) == []
    ensures Trace(events, tool) == []
    decreases |events|
  {
    hide MarkOf;
    if events != [] {
      NoMarks(events[..|events| - 1], tool);
    }
  }

  lemma {:induction false} OnlyResultMarks(events: seq<Event>, tool: Id)
    requires forall i :: 0 <= i < |events| ==> MarkOf(events[i], tool) == [ResultMark]
    ensures |Trace(events, tool)| == |events|
    ensures forall i :: 0 <= i < |events| ==> Trace(events, tool)[i] == ResultMark
    decreases |events|
  {
    hide MarkOf;
    if events != [] {
      OnlyResultMarks(events[..|events| - 1], tool);
    }
  }

  lemma PayloadMarks(env: Environment, canonicalId: Id, payload: Payload, tool: Id)
    ensures Trace(PayloadEvents(env, canonicalId, payload), tool) == []
  {
    NoMarks(PayloadEvents(env, canonicalId, payload), tool);
  }

  predicate Results(trace: seq<Mark>) {
    forall i :: 0 <= i < |trace| ==> trace[i] == ResultMark
  }

  lemma ResultEventsMarks(tool: Id, text: Text)
    ensures Results(Trace(ResultEvents(tool, text), tool))
  {
    OnlyResultMarks(ResultEvents(tool, text), tool);
  }

  /** Of the text, a receiver may see results, and only when the status is terminal. */
  lemma TextMarks(env: Environment, t: ToolState, u: ToolUpdate, found: Option<Subagent>)
    ensures Results(Trace(TextEvents(env, t, u, found), u.tool))
    ensures !u.status.Terminal() ==> Trace(TextEvents(env, t, u, found), u.tool) == []
  {
    hide Trace, Results, NewContent, ResultChanged, PayloadEvents, ResultEvents, After;
    NoTrace(u.tool);
    var content := NewContent(t, u);
    ChangedIsSome(t, content);
    if ResultChanged(t, content) && found.None? {
      PayloadMarks(env, u.tool, ToolText(u.tool, Digest(content.value), content.value), u.tool);
      if t.result <= content.value {
        ResultEventsMarks(u.tool, After(content.value, t.result));
      }
    }
  }

  lemma NoTrace(tool: Id)
    ensures Trace([], tool) == [] && Results([])
  {
  }

  lemma StartMarks(env: Environment, t: ToolState, u: ToolUpdate)
    ensures Trace(StartTool(env, t, u).events, u.tool) == if !t.started && !t.subagent then [StartMark, ArgsMark] else []
  {
    hide HasTask;
    var events := StartTool(env, t, u).events;
    if |events| == 2 {
      assert events[..1] == [events[0]] && events[..1][..0] == [];
      assert Trace(events[..1], u.tool) == [StartMark];
    } else if |events| == 1 {
      assert events[..0] == [];
    }
  }

  lemma EndMarks(t: ToolState, u: ToolUpdate)
    ensures Trace(EndTool(t, u).events, u.tool)
            == if !t.ended && u.status.Terminal() && !t.subagent then [EndMark] else []
  {
    var events := EndTool(t, u).events;
    if events != [] {
      assert events[..0] == [];
    }
  }

  /** An update takes the call one step along its life. */
  lemma LifeGoesOn(env: Environment, t: ToolState, u: ToolUpdate, trace: seq<Mark>, diverted: bool)
    requires Lives(t, trace, diverted)
    ensures Lives(UpdateTool(env, t, u).state, trace + Trace(UpdateTool(env, t, u).events, u.tool),
                  diverted || Diverts(env, t, u))
  {
    hide StartTool, EndTool, NewContent, SubagentIn, TextEvents, UpdateTool, Trace, Classified, UpdateResult, Lives, Results;
    var classified := Classified(env, t, u);
    var started := StartTool(env, classified, u);
    var ended := EndTool(started.state, u);
    var found := SubagentIn(env, u, NewContent(ended.state, u));
    ClassifiedStage(env, t, u);
    StartStage(env, classified, u);
    EndStage(started.state, u);
    ContentStage(t, ended.state, u);
    SubagentIsNamed(env, t, u);
    UpdateSeen(env, t, u, NOTHING);
    UpdateFlags(env, t, u);
    hide Names, SaysSubagent;
    StartMarks(env, classified, u);
    EndMarks(started.state, u);
    TextMarks(env, ended.state, u, found);
    LifeStep(t, UpdateTool(env, t, u).state, classified.subagent, u.status.Terminal(), found.Some?, trace,
             Trace(started.events, u.tool), Trace(ended.events, u.tool),
             Trace(TextEvents(env, ended.state, u, found), u.tool), diverted);
  }

  /** The same, said about the flags alone. */
  lemma LifeStep(t: ToolState, t': ToolState, subagent: bool, terminal: bool, named: bool, trace: seq<Mark>,
                 start: seq<Mark>, end: seq<Mark>, results: seq<Mark>, diverted: bool)
    requires Lives(t, trace, diverted) && (t.subagent ==> subagent)
    requires t'.started && (t'.ended <==> t.ended || terminal) && (t'.subagent <==> subagent || named)
    requires start == if !t.started && !subagent then [StartMark, ArgsMark] else []
    requires end == if !t.ended && terminal && !subagent then [EndMark] else []
    requires Results(results) && (!terminal ==> results == [])
    ensures Lives(t', trace + (start + end + results), diverted || (!t.ended && (subagent || (!terminal && named))))
  {
  }

  // ---- the text of a tool ----

  lemma {:induction false} JoinPrefix(chunks: seq<Text>, n: nat)
    requires n < |chunks|
    ensures Join(chunks[..n + 1]) == Join(chunks[..n]) + chunks[n]
  {
    assert chunks[..n + 1] == chunks[..n] + [chunks[n]];
    JoinAppend(chunks[..n], [chunks[n]]);
    JoinOne(chunks[n]);
  }

  lemma JoinOne(chunk: Text)
    ensures Join([chunk]) == chunk
  {
    assert [chunk][1..] == [];
  }

  /** Results are appended one by one. */
  lemma {:induction false} ResultsReceived(env: Environment, tool: Id, h: Held, events: seq<Event>, chunks: seq<Text>, n: nat)
    requires n <= |events| == |chunks|
    requires forall i :: 0 <= i < |events| ==> events[i] == ToolResult(tool, chunks[i])
    ensures Receive(env, tool, h, events[..n]) == h.(text := Concat(h.text, Join(chunks[..n])))
    decreases n
  {
    hide Valid;
    if n == 0 {
      assert events[..0] == [] && chunks[..0] == [];
      assert h.text + [] == h.text;
    } else {
      ResultsReceived(env, tool, h, events, chunks, n - 1);
      JoinPrefix(chunks, n - 1);
      assert events[..n][..n - 1] == events[..n - 1];
      ConcatAssoc(h.text, Join(chunks[..n - 1]), chunks[n - 1]);
    }
  }

  lemma ResultEventsReceived(env: Environment, tool: Id, h: Held, text: Text)
    ensures Receive(env, tool, h, ResultEvents(tool, text)) == h.(text := Concat(h.text, text))
  {
    hide Valid, Chunks, Receive, Join;
    var chunks, events := Chunks(text, TOOL_RESULT_CHUNK_BYTES), ResultEvents(tool, text);
    ChunksRoundTrip(text, TOOL_RESULT_CHUNK_BYTES);
    ResultsReceived(env, tool, h, events, chunks, |events|);
    assert events[..|events|] == events && chunks[..|chunks|] == chunks;
  }

  /** The parts held after the first n chunks. */
  function FirstParts(chunks: seq<Text>, n: nat): map<nat, Text>
    requires n <= |chunks|
  {
    map i: nat | i < n :: chunks[i]
  }

  /** Until the last chunk, the text held stays; the last one replaces it. */
  lemma {:induction false} ChunksReceived(env: Environment, tool: Id, held: Text, payload: Payload, events: seq<Event>, n: nat)
    requires env.RoundTrips() && payload.ToolText? && payload.tool == tool
    requires |env.encode(payload)| > STRUCTURED_CHUNK_BYTES
    requires events == ChunkEvents(ToolTextTopic, tool, env.encode(payload)) && n <= |events|
    ensures Receive(env, tool, Held(held, map[]), events[..n])
            == if n < |events| then Held(held, FirstParts(Chunks(env.encode(payload), STRUCTURED_CHUNK_BYTES), n))
               else Held(payload.text, map[])
    decreases n
  {
    hide Valid, Chunks, Join;
    var chunks := Chunks(env.encode(payload), STRUCTURED_CHUNK_BYTES);
    ChunksOfShort(env.encode(payload), STRUCTURED_CHUNK_BYTES);
    if n == 0 {
      assert events[..0] == [];
      assert FirstParts(chunks, 0) == map[];
    } else {
      ChunksReceived(env, tool, held, payload, events, n - 1);
      assert events[..n][..n - 1] == events[..n - 1] && events[..n][n - 1] == events[n - 1];
      NextChunkReceived(env, tool, held, payload, chunks, n - 1);
    }
  }

  lemma NextChunkReceived(env: Environment, tool: Id, held: Text, payload: Payload, chunks: seq<Text>, n: nat)
    requires env.RoundTrips() && payload.ToolText? && n < |chunks|
    requires chunks == Chunks(env.encode(payload), STRUCTURED_CHUNK_BYTES)
    ensures ReceiveChunk(env, Held(held, FirstParts(chunks, n)), n, |chunks|, chunks[n])
            == if n + 1 < |chunks| then Held(held, FirstParts(chunks, n + 1)) else Held(payload.text, map[])
  {
    hide Valid, Join;
    var parts := FirstParts(chunks, n)[n := chunks[n]];
    assert parts == FirstParts(chunks, n + 1);
    hide Chunks;
    if n + 1 < |chunks| {
      assert n + 1 !in parts;
    } else {
      assert InOrder(parts, |chunks|) == chunks;
      ChunksRoundTrip(env.encode(payload), STRUCTURED_CHUNK_BYTES);
    }
  }

  /** A tool-text payload replaces the text held. */
  lemma PayloadReceived(env: Environment, tool: Id, held: Text, payload: Payload)
    requires env.RoundTrips() && payload.ToolText? && payload.tool == tool
    ensures Receive(env, tool, Held(held, map[]), PayloadEvents(env, tool, payload)) == Held(payload.text, map[])
  {
    hide Valid, ReceiveChunk;
    var events := PayloadEvents(env, tool, payload);
    if |env.encode(payload)| <= STRUCTURED_CHUNK_BYTES {
      assert events == [Custom(payload)] && events[..0] == [];
    } else {
      hide Receive;
      ChunksReceived(env, tool, held, payload, events, |events|);
      assert events[..|events|] == events;
    }
  }

  /** The revision is that of the result, once there has been one. */
  predicate Revised(t: ToolState) {
    && (t.resultRevision.None? ==> t.result == [])
    && (t.resultRevision.Some? ==> t.resultRevision.value == Digest(t.result))
  }

  /** The result is the fold of the updates, whether or not anything was told. */
  lemma ResultIsFold(t: ToolState, u: ToolUpdate)
    requires Revised(t)
    ensures var t' := UpdateResult(t, NewContent(t, u));
            && Revised(t') && t'.result == NextText(t.result, u.content)
            && (!ResultChanged(t, NewContent(t, u)) ==> t'.result == t.result)
  {
    hide LongestPrefix, Valid;
  }

  /** However the change is told, the receiver ends up with the new result. */
  lemma TextReceived(env: Environment, t: ToolState, u: ToolUpdate)
    requires env.RoundTrips() && Revised(t)
    ensures Receive(env, u.tool, Held(t.result, map[]), TextEvents(env, t, u, None))
            == Held(NextText(t.result, u.content), map[])
  {
    ResultIsFold(t, u);
    var content := NewContent(t, u);
    ChangedIsSome(t, content);
    hide Receive, NextText, PayloadEvents, ResultEvents, Valid;
    if ResultChanged(t, content) {
      PayloadReceived(env, u.tool, t.result, ToolText(u.tool, Digest(content.value), content.value));
      if t.result <= content.value {
        ResultEventsReceived(env, u.tool, Held(t.result, map[]), After(content.value, t.result));
        SplitAfter(content.value, t.result);
      }
    } else {
      ReceiveNothing(env, u.tool, Held(t.result, map[]));
    }
  }

  lemma SplitAfter(text: Text, prefix: Text)
    requires prefix <= text
    ensures Concat(prefix, After(text, prefix)) == text
  {
    hide Valid;
    assert text == text[..|prefix|] + text[|prefix|..];
  }

  lemma ReceiveNothing(env: Environment, tool: Id, h: Held)
    ensures Receive(env, tool, h, []) == h
  {
  }

  lemma StartNotReceived(env: Environment, t: ToolState, u: ToolUpdate, h: Held)
    ensures Receive(env, u.tool, h, StartTool(env, t, u).events) == h
    ensures Receive(env, u.tool, h, EndTool(t, u).events) == h
  {
    hide Receive;
    CallEventsNotReceived(env, u.tool, h, StartTool(env, t, u).events);
    CallEventsNotReceived(env, u.tool, h, EndTool(t, u).events);
  }

  lemma {:induction false} CallEventsNotReceived(env: Environment, tool: Id, h: Held, events: seq<Event>)
    requires forall i :: 0 <= i < |events| ==>
               events[i].ToolStart? || events[i].ToolArgs? || events[i].ToolEnd? || events[i].Activity?
    ensures Receive(env, tool, h, events) == h
    decreases |events|
  {
    if events != [] {
      CallEventsNotReceived(env, tool, h, events[..|events| - 1]);
    }
  }

  /** One update that names no sub-agent, as its receiver has it. */
  lemma UpdateReceived(env: Environment, t: ToolState, u: ToolUpdate)
    requires env.RoundTrips() && Revised(t) && Names(env, t, u).None?
    ensures Receive(env, u.tool, Held(t.result, map[]), UpdateTool(env, t, u).events)
            == Held(UpdateTool(env, t, u).state.result, map[])
  {
    SubagentIsNamed(env, t, u);
    hide Names, StartTool, EndTool, NewContent, SubagentIn, TextEvents, UpdateTool, Receive, Classified, UpdateResult, Revised;
    var classified := Classified(env, t, u);
    var started := StartTool(env, classified, u);
    var ended := EndTool(started.state, u);
    var h := Held(t.result, map[]);
    ClassifiedStage(env, t, u);
    StartStage(env, classified, u);
    EndStage(started.state, u);
    ContentStage(t, ended.state, u);
    RevisedStage(t, ended.state);
    UpdateSeen(env, t, u, h);
    StartNotReceived(env, classified, u, h);
    StartNotReceived(env, started.state, u, h);
    TextReceived(env, ended.state, u);
    UpdateFlags(env, t, u);
    ResultIsFold(t, u);
  }

  lemma RevisedStage(t: ToolState, s: ToolState)
    requires SameResult(t, s)
    ensures Revised(s) <==> Revised(t)
  {
  }
}
