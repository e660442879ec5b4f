/**
 Who said what: every event of the stream is of the thread, run and turn, of the kind and of the name that the canonical
 event behind it calls for, agent and user text and reasoning are kept apart, and a tool's text is all that was sent for it.
 */
module AguiSpeech {
  import opened Wrappers
  import opened Utf8
  import opened AguiEvents
  import opened AguiStructured
  import opened AguiProjection
  import opened AguiLog
  import opened AguiTools
  import opened AguiToolRuns

  const MAX_TOOL_NAME_BYTES: nat := 256

  /** What a canonical event may make the stream say. */
  predicate CalledFor(e: Event, c: Canonical) {
    match e
    case TextStart(id, role) => c.MessageChunk? && !c.role.Thought? && id == c.message && role == c.role
    case TextContent(id, _) => c.MessageChunk? && !c.role.Thought? && id == c.message
    case ReasoningStart(id) => c.MessageChunk? && c.role.Thought? && id == c.message
    case ReasoningContent(id, _) => c.MessageChunk? && c.role.Thought? && id == c.message
    case Truncated(id, maxBytes) => c.MessageChunk? && id == c.message && maxBytes == 32 * 1024
    case ToolStart(tool, name) => c.Tool? && tool == c.update.tool && IsName(name, c.update.name)
    case ToolArgs(tool) => c.Tool? && tool == c.update.tool
    case ToolResult(tool, _) => c.Tool? && tool == c.update.tool && c.update.status.Terminal()
    case ToolEnd(tool) =>
      (c.Tool? && tool == c.update.tool && c.update.status.Terminal()) || c.RunStarted? || c.RunFinished? || c.RunFailed?
    case TextEnd(_) => c.MessageChunk? || c.RunStarted? || c.RunFinished? || c.RunFailed?
    case ReasoningEnd(_) => c.MessageChunk? || c.RunStarted? || c.RunFinished? || c.RunFailed?
    case Custom(payload) => PayloadCalledFor(TopicOf(payload), c)
    case Chunk(topic, _, _, _, _, _) => PayloadCalledFor(topic, c)
    case _ => true
  }

  predicate PayloadCalledFor(topic: Topic, c: Canonical) {
    if topic.MessageContentTopic? then c.MessageChunk? && c.block.Some? else c.Tool?
  }

  /** The whole name when it is short enough, otherwise a beginning of it. */
  predicate IsName(name: Text, full: Text) {
    name <= full && |name| <= MAX_TOOL_NAME_BYTES && (|full| <= MAX_TOOL_NAME_BYTES ==> name == full)
  }

  predicate AllCalledFor(events: seq<Event>, c: Canonical) {
    forall i :: 0 <= i < |events| ==> CalledFor(events[i], c)
  }

  lemma CalledConcat(a: seq<Event>, b: seq<Event>, c: Canonical)
    requires AllCalledFor(a, c) && AllCalledFor(b, c)
    ensures AllCalledFor(a + b, c)
  {
    hide CalledFor;
  }

  // ---- message chunks ----

  lemma BlockCalled(env: Environment, c: Canonical)
    requires c.MessageChunk?
    ensures AllCalledFor(BlockEvents(env, c.role, c.message, c.block), c)
  {
  }

  lemma LaneCalled(run: RunState, c: Canonical)
    requires c.MessageChunk?
    ensures AllCalledFor(OpenLane(run, c.role, c.message).1, c)
  {
  }

  lemma WordsCalled(run: RunState, c: Canonical, text: Text)
    requires c.MessageChunk?
    ensures AllCalledFor(MarkerEvents(run, c.message, c.content, c.block), c)
    ensures AllCalledFor(ContentEvents(c.role, c.message, text), c)
  {
    hide Cut;
  }

  lemma SayCalled(env: Environment, run: RunState, c: Canonical)
    requires c.MessageChunk?
    ensures AllCalledFor(Say(env, run, c.role, c.message, c.content, c.block).1, c)
  {
    hide AllCalledFor, BlockEvents, MarkerEvents, OpenLane, ContentEvents, Heard, Budgeted;
    var budgeted := Budgeted(run, c.message, c.content, c.block);
    var lane, text := OpenLane(budgeted, c.role, c.message).1, Heard(run, c.message, c.content);
    BlockCalled(env, c);
    LaneCalled(budgeted, c);
    WordsCalled(run, c, text);
    var aside := BlockEvents(env, c.role, c.message, c.block) + MarkerEvents(run, c.message, c.content, c.block);
    CalledConcat(BlockEvents(env, c.role, c.message, c.block), MarkerEvents(run, c.message, c.content, c.block), c);
    CalledConcat(aside, lane, c);
    CalledConcat(aside + lane, ContentEvents(c.role, c.message, text), c);
  }

  // ---- tool updates ----

  lemma CallCalled(env: Environment, t: ToolState, c: Canonical)
    requires c.Tool?
    ensures AllCalledFor(StartTool(env, t, c.update).events, c) && AllCalledFor(EndTool(t, c.update).events, c)
  {
    LongestPrefixIsLongest(c.update.name, MAX_TOOL_NAME_BYTES, []);
    hide HasTask, Valid;
  }

  lemma ReportsCalled(t: ToolState, c: Canonical, found: Option<Subagent>)
    requires c.Tool?
    ensures AllCalledFor(ReportSubagent(t, c.update, found).events, c) && AllCalledFor(ReportOutcome(t, c.update, found).events, c)
  {
  }

  lemma PayloadCalled(env: Environment, canonicalId: Id, payload: Payload, c: Canonical)
    requires PayloadCalledFor(TopicOf(payload), c)
    ensures AllCalledFor(PayloadEvents(env, canonicalId, payload), c)
  {
  }

  lemma TextCalled(env: Environment, t: ToolState, c: Canonical, found: Option<Subagent>)
    requires c.Tool?
    ensures AllCalledFor(TextEvents(env, t, c.update, found), c)
  {
    hide NewContent, ResultChanged, PayloadEvents;
    var content := NewContent(t, c.update);
    if content.Some? {
      PayloadCalled(env, c.update.tool, ToolText(c.update.tool, Digest(content.value), content.value), c);
    }
    ChangedIsSome(t, content);
  }

  lemma StructureCalled(env: Environment, t: ToolState, c: Canonical, found: Option<Subagent>)
    requires c.Tool?
    ensures AllCalledFor(StructureEvents(env, t, c.update, found), c)
  {
    hide NextStructured, StructureChanged, StructureRevision, PayloadEvents;
    var u := c.update;
    var s := NextStructured(t, u);
    PayloadCalled(env, u.tool, ToolContent(u.tool, s.content, s.locations, StructureRevision(env, u.tool, s), !s.truncated), c);
  }

  lemma UpdateCalled(env: Environment, t: ToolState, c: Canonical)
    requires c.Tool?
    ensures AllCalledFor(UpdateTool(env, t, c.update).events, c)
  {
    hide StartTool, EndTool, NewContent, SubagentIn, ReportSubagent, ReportOutcome, TextEvents, StructureEvents;
    hide UpdateStructure, UpdateResult, Classified, AllCalledFor;
    var u := c.update;
    var started := StartTool(env, Classified(env, t, u), u);
    var ended := EndTool(started.state, u);
    var content := NewContent(ended.state, u);
    var found := SubagentIn(env, u, content);
    var before := UpdateStructure(env, UpdateResult(ended.state, content), u);
    var reported := ReportSubagent(before, u, found);
    var told := ReportOutcome(reported.state, u, found);
    CallCalled(env, Classified(env, t, u), c);
    CallCalled(env, started.state, c);
    ReportsCalled(before, c, found);
    ReportsCalled(reported.state, c, found);
    TextCalled(env, ended.state, c, found);
    StructureCalled(env, ended.state, c, found);
    var opening := started.events + ended.events;
    CalledConcat(started.events, ended.events, c);
    CalledConcat(opening, reported.events, c);
    CalledConcat(opening + reported.events, told.events, c);
    CalledConcat(opening + reported.events + told.events, TextEvents(env, ended.state, u, found), c);
    CalledConcat(opening + reported.events + told.events + TextEvents(env, ended.state, u, found),
                 StructureEvents(env, ended.state, u, found), c);
  }

  lemma {:induction false} CloseCalled(run: RunState, order: seq<Id>, c: Canonical)
    requires c.RunStarted? || c.RunFinished? || c.RunFailed?
    ensures AllCalledFor(CloseEvents(run, order), c)
  {
    ToolEndsCalled(run.tools, order, c);
    hide ToolEnds;
  }

  lemma {:induction false} ToolEndsCalled(tools: map<Id, ToolState>, order: seq<Id>, c: Canonical)
    requires c.RunStarted? || c.RunFinished? || c.RunFailed?
    ensures AllCalledFor(ToolEnds(tools, order), c)
  {
    if order != [] {
      ToolEndsCalled(tools, order[..|order| - 1], c);
    }
  }

  // ---- whole steps ----

  /** Activities may be about any linked tool; the outline has its own rules; all else belongs to the open run of the thread. */
  predicate Belongs(p: Projector, c: Canonical, e: Envelope) {
    || e.event.Activity?
    || e.event.RunStartedEvent? || e.event.RunFinishedEvent? || e.event.RunErrorEvent? || e.event.SessionEvent?
    || (&& !c.Ignored? && e.thread == c.thread && c.thread in p.runs
        && e.run == InRun(p.runs[c.thread].runId) && e.turn == p.runs[c.thread].turn
        && CalledFor(e.event, c))
  }

  lemma WrapBelongs(p: Projector, c: Canonical, events: seq<Event>)
    requires !c.Ignored? && c.thread in p.runs && AllCalledFor(events, c)
    ensures forall e :: e in Wrap(c.thread, p.runs[c.thread].runId, p.runs[c.thread].turn, events) ==> Belongs(p, c, e)
  {
    hide CalledFor;
  }

  lemma HandleBelongs(env: Environment, p: Projector, c: Canonical, order: seq<Id>, e: Envelope)
    requires e in Handle(env, p, c, order).1
    ensures Belongs(p, c, e)
  {
    match c {
      case RunStarted(thread, run, turn) => StartBelongs(p, c, order, e);
      case RunFinished(_, _, _) => FinishBelongs(p, c, RunFinishedEvent, order, e);
      case RunFailed(_, _, _, _) => FinishBelongs(p, c, RunErrorEvent(false), order, e);
      case MessageChunk(_, _, _, _, _, _, _) => SpeakBelongs(env, p, c, e);
      case Tool(_, _, _, _) => UseBelongs(env, p, c, e);
      case Session(_, _, _, _) =>
    }
  }

  lemma StartBelongs(p: Projector, c: Canonical, order: seq<Id>, e: Envelope)
    requires c.RunStarted? && e in Start(p, c.thread, c.run, c.turn, order).1
    ensures Belongs(p, c, e)
  {
    if c.thread in p.runs {
      CloseCalled(p.runs[c.thread], order, c);
      assert CalledFor(RunErrorEvent(true), c);
      hide CalledFor, CloseEvents;
      WrapBelongs(p, c, CloseEvents(p.runs[c.thread], order) + [RunErrorEvent(true)]);
    }
  }

  lemma FinishBelongs(p: Projector, c: Canonical, terminal: Event, order: seq<Id>, e: Envelope)
    requires (c.RunFinished? || c.RunFailed?) && (terminal.RunFinishedEvent? || terminal.RunErrorEvent?)
    requires e in Finish(p, c.thread, c.run, c.turn, terminal, order).1
    ensures Belongs(p, c, e)
  {
    CloseCalled(p.runs[c.thread], order, c);
    hide CalledFor, CloseEvents, Unlink;
    WrapBelongs(p, c, CloseEvents(p.runs[c.thread], order));
  }

  lemma SpeakBelongs(env: Environment, p: Projector, c: Canonical, e: Envelope)
    requires c.MessageChunk? && e in Speak(env, p, c).1
    ensures Belongs(p, c, e)
  {
    hide Say, CalledFor, Correlated;
    var run := p.runs[c.thread];
    SayCalled(env, run, c);
    WrapBelongs(p, c, Say(env, run, c.role, c.message, c.content, c.block).1);
  }

  lemma UseBelongs(env: Environment, p: Projector, c: Canonical, e: Envelope)
    requires c.Tool? && e in Use(env, p, c).1
    ensures Belongs(p, c, e)
  {
    hide UpdateTool, CalledFor, Correlated, ToolOf, UpdateLinks;
    var t := ToolOf(p.runs[c.thread], c.update.tool);
    UpdateCalled(env, t, c);
    WrapBelongs(p, c, UpdateTool(env, t, c.update).events);
  }

  /**
   Every event a step adds, activities, starts, ends and session events aside, is of the thread of the canonical event
   and of its open run and turn, and is one that the canonical event calls for.
   */
  lemma StepBelongs(env: Environment, steps: seq<Step>, s: Step, e: Envelope)
    requires e in Project(env, StateAfter(env, steps), s.event, s.order).1
    ensures Belongs(StateAfter(env, steps), s.event, e)
  {
    hide Handle, StateAfter, LinksAfterProgress, CalledFor, ProgressOf;
    var p := StateAfter(env, steps);
    var q := p.(links := LinksAfterProgress(env, p.links, s.event));
    if e in Handle(env, q, s.event, s.order).1 {
      HandleBelongs(env, q, s.event, s.order, e);
    }
  }

  // ---- the whole text of a tool ----

  /** All text sent for a tool since its run started, whatever its length. */
  function WholeText(env: Environment, steps: seq<Step>, thread: Id, tool: Id): Text {
    if steps == [] then []
    else
      var before, last := steps[..|steps| - 1], steps[|steps| - 1].event;
      var sent, p := WholeText(env, before, thread, tool), StateAfter(env, before);
      if Starting(last, thread) then []
      else if Using(p, last, thread) && last.update.tool == tool then
        match last.update.content
        case Unchanged => sent
        case Clear => []
        case Set(text) => text
        case Append(text) => Concat(sent, text)
      else sent
  }

  lemma PrefixWithin(s: Text)
    ensures |LongestPrefix(s, MAX_TOOL_TOTAL_BYTES)| <= MAX_TOOL_TOTAL_BYTES
    ensures |s| <= MAX_TOOL_TOTAL_BYTES ==> LongestPrefix(s, MAX_TOOL_TOTAL_BYTES) == s
  {
    LongestPrefixIsLongest(s, MAX_TOOL_TOTAL_BYTES, []);
  }

  /** The text of a tool is all that was sent for it exactly as long as that fits; otherwise it is within the limit. */
  lemma {:induction false} TextIsWhole(env: Environment, steps: seq<Step>, thread: Id, tool: Id)
    ensures var held, sent := StoryOf(env, steps, thread, tool).text, WholeText(env, steps, thread, tool);
            && |held| <= MAX_TOOL_TOTAL_BYTES
            && (held == sent <==> |sent| <= MAX_TOOL_TOTAL_BYTES)
    decreases |steps|
  {
    if steps != [] {
      hide StateAfter, Using, Starting, LongestPrefix, Valid, Diverts, SubagentIn, NewContent;
      var before, last := steps[..|steps| - 1], steps[|steps| - 1].event;
      TextIsWhole(env, before, thread, tool);
      if last.Tool? {
        match last.update.content {
          case Set(text) => PrefixWithin(text);
          case Append(text) =>
            PrefixWithin(Concat(StoryOf(env, before, thread, tool).text, text));
          case _ =>
        }
      }
      UsingIsTool(StateAfter(env, before), last, thread);
    }
  }

  lemma UsingIsTool(p: Projector, c: Canonical, thread: Id)
    ensures Using(p, c, thread) ==> c.Tool?
  {
  }

  // ---- reasoning and other text ----

  /** The text of a message in the lane of reasoning, or in the lanes of user and agent. */
  function LaneText(log: seq<Event>, id: Id, thought: bool): Text {
    if log == [] then []
    else
      var before, e := LaneText(log[..|log| - 1], id, thought), log[|log| - 1];
      match e
      case TextContent(m, delta) => if m == id && !thought then Concat(before, delta) else before
      case ReasoningContent(m, delta) => if m == id && thought then Concat(before, delta) else before
      case _ => before
  }

  /** What was passed on of the thoughts, or of the other chunks, of a message. */
  function PassedOn(env: Environment, steps: seq<Step>, thread: Id, id: Id, thought: bool): Text {
    if steps == [] then []
    else
      var before, last := steps[..|steps| - 1], steps[|steps| - 1].event;
      var passed, p := PassedOn(env, before, thread, id, thought), StateAfter(env, before);
      if Starting(last, thread) then []
      else if Speaking(p, last, thread) && last.message == id && last.role.Thought? == thought
      then Concat(passed, Heard(p.runs[thread], id, last.content))
      else passed
  }

  lemma {:induction false} LaneConcat(a: seq<Event>, b: seq<Event>, id: Id, thought: bool)
    ensures LaneText(a + b, id, thought) == LaneText(a, id, thought) + LaneText(b, id, thought)
    decreases |b|
  {
    hide Valid;
    if b == [] {
      assert a + b == a;
      assert LaneText(a, id, thought) + [] == LaneText(a, id, thought);
    } else {
      assert (a + b)[..|a + b| - 1] == a + b[..|b| - 1];
      LaneConcat(a, b[..|b| - 1], id, thought);
    }
  }

  predicate Wordless(events: seq<Event>) {
    forall i :: 0 <= i < |events| ==> !events[i].TextContent? && !events[i].ReasoningContent?
  }

  lemma {:induction false} WordlessLane(events: seq<Event>, id: Id, thought: bool)
    requires Wordless(events)
    ensures LaneText(events, id, thought) == []
    decreases |events|
  {
    if events != [] {
      WordlessLane(events[..|events| - 1], id, thought);
    }
  }

  lemma WordlessConcat(a: seq<Event>, b: seq<Event>)
    requires Wordless(a) && Wordless(b)
    ensures Wordless(a + b)
  {
  }

  lemma LaneNext(events: seq<Event>, n: nat, reader: Id, thought: bool)
    requires n < |events|
    ensures LaneText(events[..0], reader, thought) == []
    ensures LaneText(events[..n + 1], reader, thought) == LaneText(events[..n], reader, thought) + LaneText([events[n]], reader, thought)
  {
    hide Valid;
    LaneConcat(events[..n], [events[n]], reader, thought);
    assert events[..n] + [events[n]] == events[..n + 1];
  }

  lemma LaneOfContent(role: Role, id: Id, reader: Id, thought: bool, delta: Text)
    ensures LaneText([ContentEvent(role, id, delta)], reader, thought) == if reader == id && role.Thought? == thought then delta else []
  {
    hide Valid;
    var e := ContentEvent(role, id, delta);
    assert [e][..0] == [] && LaneText([e][..0], reader, thought) == [];
    assert [] + delta == delta;
  }

  lemma {:induction false} ContentLane(role: Role, id: Id, reader: Id, thought: bool, events: seq<Event>, chunks: seq<Text>, n: nat)
    requires n <= |events| == |chunks|
    requires forall i :: 0 <= i < |events| ==> events[i] == ContentEvent(role, id, chunks[i])
    ensures LaneText(events[..n], reader, thought) == if reader == id && role.Thought? == thought then Join(chunks[..n]) else []
    decreases n
  {
    hide Valid, LaneText, ContentEvent;
    if n == 0 {
      assert events[..0] == [] && chunks[..0] == [];
      NoLane(reader, thought);
    } else {
      ContentLane(role, id, reader, thought, events, chunks, n - 1);
      LaneNext(events, n - 1, reader, thought);
      LaneOfContent(role, id, reader, thought, chunks[n - 1]);
      JoinPrefix(chunks, n - 1);
      hide Join;
    }
  }

  lemma NoLane(reader: Id, thought: bool)
    ensures LaneText([], reader, thought) == []
  {
  }

  lemma ContentEventsLane(role: Role, id: Id, reader: Id, thought: bool, text: Text)
    ensures LaneText(ContentEvents(role, id, text), reader, thought) == if reader == id && role.Thought? == thought then text else []
  {
    hide Valid, Chunks, LaneText, Join, ContentEvent;
    var chunks, events := Chunks(text, MESSAGE_CHUNK_BYTES), ContentEvents(role, id, text);
    ChunksRoundTrip(text, MESSAGE_CHUNK_BYTES);
    ContentLane(role, id, reader, thought, events, chunks, |events|);
    assert events[..|events|] == events && chunks[..|chunks|] == chunks;
  }

  lemma PayloadWordless(env: Environment, canonicalId: Id, payload: Payload)
    ensures Wordless(PayloadEvents(env, canonicalId, payload))
  {
  }

  lemma LaneWordless(run: RunState, role: Role, id: Id)
    ensures Wordless(OpenLane(run, role, id).1)
  {
  }

  lemma AsideWordless(env: Environment, run: RunState, role: Role, id: Id, content: Text, block: Option<Block>)
    ensures Wordless(BlockEvents(env, role, id, block)) && Wordless(MarkerEvents(run, id, content, block))
    ensures Wordless(OpenLane(run, role, id).1)
  {
    hide Cut, PayloadEvents, OpenLane;
    LaneWordless(run, role, id);
    if block.Some? {
      PayloadWordless(env, id, MessageContent(id, role, block.value.value));
    }
  }

  lemma SayLane(env: Environment, run: RunState, role: Role, id: Id, content: Text, block: Option<Block>, reader: Id, thought: bool)
    ensures LaneText(Say(env, run, role, id, content, block).1, reader, thought)
            == if reader == id && role.Thought? == thought then Heard(run, id, content) else []
  {
    hide Valid, Heard, OpenLane, BlockEvents, MarkerEvents, ContentEvents, Budgeted, LaneText, Wordless;
    var budgeted, text := Budgeted(run, id, content, block), Heard(run, id, content);
    var block', marker := BlockEvents(env, role, id, block), MarkerEvents(run, id, content, block);
    var lane := OpenLane(budgeted, role, id).1;
    AsideWordless(env, run, role, id, content, block);
    AsideWordless(env, budgeted, role, id, content, block);
    WordlessConcat(block', marker);
    WordlessConcat(block' + marker, lane);
    WordlessLane(block' + marker + lane, reader, thought);
    ContentEventsLane(role, id, reader, thought, text);
    LaneConcat(block' + marker + lane, ContentEvents(role, id, text), reader, thought);
  }

  ghost predicate Lanes(p: Projector, thread: Id, log: seq<Event>, id: Id, thought: bool, passed: Text) {
    thread in p.runs ==> LaneText(log, id, thought) == passed
  }

  lemma WordlessOn(log: seq<Event>, more: seq<Event>, id: Id, thought: bool)
    requires Wordless(more)
    ensures LaneText(log + more, id, thought) == LaneText(log, id, thought)
  {
    hide Valid, LaneText, Wordless;
    LaneConcat(log, more, id, thought);
    WordlessLane(more, id, thought);
    assert LaneText(log, id, thought) + [] == LaneText(log, id, thought);
  }

  lemma SilentWordless(events: seq<Event>)
    requires Silent(events)
    ensures Wordless(events)
  {
  }

  lemma SpeakLanes(env: Environment, p: Projector, s: Step, thread: Id, log: seq<Event>, id: Id, thought: bool, passed: Text)
    requires Speaking(p, s.event, thread) && Lanes(p, thread, log, id, thought, passed)
    ensures var c := s.event;
            Lanes(Project(env, p, c, s.order).0, thread, LogFrom(thread, log, Project(env, p, c, s.order).1), id, thought,
                  if c.message == id && c.role.Thought? == thought then Concat(passed, Heard(p.runs[thread], id, c.content)) else passed)
  {
    hide Project, LogFrom, Say, Silent, LaneText, Valid, Heard;
    var c, run := s.event, p.runs[thread];
    SaysNoStart(env, run, c);
    var first := SpeakLogged(env, p, c, s.order, thread, log);
    SilentWordless(first);
    WordlessOn(log, first, id, thought);
    var said := Say(env, run, c.role, c.message, c.content, c.block).1;
    SayLane(env, run, c.role, c.message, c.content, c.block, id, thought);
    LaneConcat(log + first, said, id, thought);
    assert passed + [] == passed;
  }

  lemma SaysNoStart(env: Environment, run: RunState, c: Canonical)
    requires c.MessageChunk?
    ensures NoStart(Say(env, run, c.role, c.message, c.content, c.block).1)
  {
    hide Say;
    SaidForeign(env, run, c.role, c.message, c.content, c.block, 0);
  }

  lemma UpdateWordless(env: Environment, t: ToolState, c: Canonical)
    requires c.Tool?
    ensures Wordless(UpdateTool(env, t, c.update).events)
  {
    hide UpdateTool;
    UpdateCalled(env, t, c);
  }

  lemma OtherLanes(env: Environment, p: Projector, s: Step, thread: Id, log: seq<Event>, id: Id, thought: bool, passed: Text)
    requires !Speaking(p, s.event, thread) && !Starting(s.event, thread) && Lanes(p, thread, log, id, thought, passed)
    ensures Lanes(Project(env, p, s.event, s.order).0, thread, LogFrom(thread, log, Project(env, p, s.event, s.order).1), id, thought, passed)
  {
    FiveKinds(p, s.event, thread);
    UsingIsTool(p, s.event, thread);
    hide Project, LogFrom, UpdateTool, Silent, LaneText, Wordless, Aside, Valid, ToolOf;
    if Using(p, s.event, thread) {
      var u, run := s.event.update, p.runs[thread];
      var events := UpdateTool(env, ToolOf(run, u.tool), u).events;
      UpdateToolOnlyOf(env, ToolOf(run, u.tool), u);
      OnlyOfStartsNothing(events, u.tool);
      var first := UseLogged(env, p, s.event, s.order, thread, log);
      SilentWordless(first);
      UpdateWordless(env, ToolOf(run, u.tool), s.event);
      WordlessOn(log, first, id, thought);
      WordlessOn(log + first, events, id, thought);
    } else if Finishing(p, s.event, thread) {
      var _, _ := FinishLogged(env, p, s.event, s.order, thread, log);
    } else {
      var more := AsideLogged(env, p, s.event, s.order, thread, log);
      SilentWordless(more);
      WordlessOn(log, more, id, thought);
    }
  }

  lemma StartLanes(env: Environment, p: Projector, s: Step, thread: Id, log: seq<Event>, id: Id, thought: bool)
    requires Starting(s.event, thread)
    ensures Lanes(Project(env, p, s.event, s.order).0, thread, LogFrom(thread, log, Project(env, p, s.event, s.order).1), id, thought, [])
  {
    hide Project, LogFrom;
    StartLogged(env, p, thread, s.event.run, s.event.turn, s.order, log);
  }

  lemma {:induction false} RunLanes(env: Environment, steps: seq<Step>, thread: Id, id: Id, thought: bool)
    ensures Lanes(StateAfter(env, steps), thread, RunLog(thread, Stream(env, steps)), id, thought,
                  PassedOn(env, steps, thread, id, thought))
    decreases |steps|
  {
    if steps != [] {
      hide Lanes, Project, LogFrom, Starting, Heard;
      var before, last := steps[..|steps| - 1], steps[|steps| - 1];
      RunLanes(env, before, thread, id, thought);
      var p, log := StateAfter(env, before), RunLog(thread, Stream(env, before));
      var passed := PassedOn(env, before, thread, id, thought);
      LogConcat(thread, [], Stream(env, before), Project(env, p, last.event, last.order).1);
      if Starting(last.event, thread) {
        StartLanes(env, p, last, thread, log, id, thought);
      } else if Speaking(p, last.event, thread) {
        SpeakLanes(env, p, last, thread, log, id, thought, passed);
      } else {
        OtherLanes(env, p, last, thread, log, id, thought, passed);
      }
    }
  }

  /** In an open run the reasoning of a message is what was passed on of its thoughts, and its text is that of its other chunks. */
  lemma LanesAreApart(env: Environment, steps: seq<Step>, thread: Id, id: Id, thought: bool)
    requires thread in StateAfter(env, steps).runs
    ensures LaneText(RunLog(thread, Stream(env, steps)), id, thought) == PassedOn(env, steps, thread, id, thought)
  {
    hide StateAfter, Stream, RunLog, LaneText, PassedOn;
    RunLanes(env, steps, thread, id, thought);
  }
}
