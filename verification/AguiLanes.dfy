/**
 The emitted stream is well bracketed. A monitor that knows nothing of the projector watches one
 thread's events; it is never surprised, except by one kind of input, and always sees exactly the
 run and the message lanes that the projector has open.
 */
module AguiLanes {
  import opened Wrappers
  import opened Utf8
  import opened AguiEvents
  import opened AguiStructured
  import opened AguiProjection

  // ---- the monitor ----

  /** The text messages and the reasoning message that are open, or a content rule was broken. */
  datatype Lanes = Lanes(text: set<Id>, reasoning: Option<Id>) | Misused

  const CLOSED: Lanes := Lanes({}, None)

  function FollowOne(l: Lanes, e: Event): Lanes {
    if l.Misused? then l
    else
      match e
      case TextStart(id, _) => if id in l.text then Misused else l.(text := l.text + {id})
      case TextContent(id, _) => if id in l.text then l else Misused
      case TextEnd(id) => if id in l.text then l.(text := l.text - {id}) else Misused
      case ReasoningStart(id) => if l.reasoning.Some? then Misused else l.(reasoning := Some(id))
      case ReasoningContent(id, _) => if l.reasoning == Some(id) then l else Misused
      case ReasoningEnd(id) => if l.reasoning == Some(id) then l.(reasoning := None) else Misused
      case _ => l
  }

  function Follow(l: Lanes, events: seq<Event>): Lanes {
    if events == [] then l else FollowOne(Follow(l, events[..|events| - 1]), events[|events| - 1])
  }

  datatype View = Idle | Running(run: Id, lanes: Lanes) | Broken

  /** Message and tool events, which must lie inside a run. */
  predicate InsideRun(e: Event) {
    || e.TextStart? || e.TextContent? || e.TextEnd?
    || e.ReasoningStart? || e.ReasoningContent? || e.ReasoningEnd?
    || e.ToolStart? || e.ToolArgs? || e.ToolEnd? || e.ToolResult?
  }

  predicate Terminal(e: Event) {
    e.RunFinishedEvent? || e.RunErrorEvent?
  }

  /**
   A run starts when none is open and ends only with every lane closed; messages and tools
   belong to the open run; other events may come at any time.
   */
  function Observe(thread: Id, v: View, e: Envelope): View {
    if e.thread != thread || v.Broken? then v
    else if e.event.RunStartedEvent? then
      if v.Idle? && e.run.InRun? then Running(e.run.run, CLOSED) else Broken
    else if Terminal(e.event) then
      if v.Running? && e.run == InRun(v.run) && v.lanes == CLOSED then Idle else Broken
    else if InsideRun(e.event) then
      if v.Running? && e.run == InRun(v.run) && !FollowOne(v.lanes, e.event).Misused?
      then Running(v.run, FollowOne(v.lanes, e.event)) else Broken
    else v
  }

  function Watch(thread: Id, v: View, stream: seq<Envelope>): View {
    if stream == [] then v
    else Observe(thread, Watch(thread, v, stream[..|stream| - 1]), stream[|stream| - 1])
  }

  // ---- following in pieces ----

  lemma {:induction false} FollowConcat(l: Lanes, a: seq<Event>, b: seq<Event>)
    ensures Follow(l, a + b) == Follow(Follow(l, a), b)
    decreases |b|
  {
    hide FollowOne;
    if b == [] {
      assert a + b == a;
    } else {
      assert (a + b)[..|a + b| - 1] == a + b[..|b| - 1];
      FollowConcat(l, a, b[..|b| - 1]);
    }
  }

  lemma {:induction false} WatchConcat(thread: Id, v: View, a: seq<Envelope>, b: seq<Envelope>)
    ensures Watch(thread, v, a + b) == Watch(thread, Watch(thread, v, a), b)
    decreases |b|
  {
    hide Observe;
    if b == [] {
      assert a + b == a;
    } else {
      assert (a + b)[..|a + b| - 1] == a + b[..|b| - 1];
      WatchConcat(thread, v, a, b[..|b| - 1]);
    }
  }

  /** Events that leave every lane as it is. */
  lemma {:induction false} FollowSame(l: Lanes, events: seq<Event>)
    requires forall i :: 0 <= i < |events| ==> FollowOne(l, events[i]) == l
    ensures Follow(l, events) == l
    decreases |events|
  {
    hide FollowOne;
    if events != [] {
      FollowSame(l, events[..|events| - 1]);
    }
  }

  lemma {:induction false} WatchSame(thread: Id, v: View, stream: seq<Envelope>)
    requires forall i :: 0 <= i < |stream| ==> Observe(thread, v, stream[i]) == v
    ensures Watch(thread, v, stream) == v
    decreases |stream|
  {
    hide Observe;
    if stream != [] {
      WatchSame(thread, v, stream[..|stream| - 1]);
    }
  }

  lemma BrokenForGood(thread: Id, stream: seq<Envelope>)
    ensures Watch(thread, Broken, stream) == Broken
  {
    WatchSame(thread, Broken, stream);
  }

  lemma OthersDoNotMatter(thread: Id, v: View, stream: seq<Envelope>)
    requires forall i :: 0 <= i < |stream| ==> stream[i].thread != thread
    ensures Watch(thread, v, stream) == v
  {
    WatchSame(thread, v, stream);
  }

  predicate RunEvent(e: Event) {
    e.RunStartedEvent? || Terminal(e)
  }

  function Seen(run: Id, l: Lanes): View {
    if l.Misused? then Broken else Running(run, l)
  }

  /** Inside a run the monitor follows the lanes. */
  lemma {:induction false} WatchInside(thread: Id, run: Id, turn: Option<Id>, l: Lanes, events: seq<Event>)
    requires forall i :: 0 <= i < |events| ==> !RunEvent(events[i])
    ensures Watch(thread, Seen(run, l), Wrap(thread, run, turn, events)) == Seen(run, Follow(l, events))
    decreases |events|
  {
    var wrapped := Wrap(thread, run, turn, events);
    if events != [] {
      var init := events[..|events| - 1];
      assert wrapped[..|wrapped| - 1] == Wrap(thread, run, turn, init);
      WatchInside(thread, run, turn, l, init);
      ObserveInside(thread, run, turn, Follow(l, init), events[|events| - 1]);
    }
  }

  lemma ObserveInside(thread: Id, run: Id, turn: Option<Id>, l: Lanes, e: Event)
    requires !RunEvent(e)
    ensures Observe(thread, Seen(run, l), Envelope(thread, InRun(run), turn, e)) == Seen(run, FollowOne(l, e))
  {
  }

  // ---- the lanes of a run ----

  function Opened(id: Option<Id>): set<Id> {
    if id.Some? then {id.value} else {}
  }

  function LanesOf(run: RunState): Lanes {
    Lanes(Opened(run.openUser) + Opened(run.openMessage), run.openReasoning)
  }

  /** The open user message and the open agent message are two messages. */
  predicate Apart(run: RunState) {
    run.openUser.Some? ==> run.openUser != run.openMessage
  }

  /** A user message is about to be opened under the id of the open agent message. */
  predicate Clash(run: RunState, role: Role, id: Id) {
    role.User? && run.openUser != Some(id) && run.openMessage == Some(id)
  }

  lemma OpenLaneFollowed(run: RunState, role: Role, id: Id)
    requires Apart(run)
    ensures var (run', events) := OpenLane(run, role, id);
            && (Clash(run, role, id) <==> Follow(LanesOf(run), events).Misused?)
            && (!Clash(run, role, id) ==> Apart(run') && Follow(LanesOf(run), events) == LanesOf(run'))
  {
    match role {
      case Agent => AgentLaneFollowed(run, id);
      case Thought => ThoughtLaneFollowed(run, id);
      case User => UserLaneFollowed(run, id);
    }
  }

  lemma Follow1(l: Lanes, a: Event)
    ensures Follow(l, [a]) == FollowOne(l, a)
  {
    assert [a][..0] == [];
  }

  lemma EndTextFollowed(l: Lanes, open: Option<Id>)
    requires l.Lanes? && (open.Some? ==> open.value in l.text)
    ensures Follow(l, EndText(open)) == l.(text := l.text - Opened(open))
  {
    if open.Some? {
      Follow1(l, TextEnd(open.value));
    }
  }

  lemma AgentLaneFollowed(run: RunState, id: Id)
    requires Apart(run)
    ensures var (run', events) := OpenLane(run, Agent, id);
            Apart(run') && Follow(LanesOf(run), events) == LanesOf(run')
  {
    hide Follow, FollowOne;
    var l := LanesOf(run);
    EndTextFollowed(l, run.openUser);
    var quiet := l.(text := Opened(run.openMessage));
    assert l.text - Opened(run.openUser) == quiet.text;
    assert {} + Opened(run.openMessage) == Opened(run.openMessage);
    if run.openMessage != Some(id) {
      EndTextFollowed(quiet, run.openMessage);
      FollowConcat(l, EndText(run.openUser), EndText(run.openMessage));
      FollowConcat(l, EndText(run.openUser) + EndText(run.openMessage), [TextStart(id, Agent)]);
      StartFollowed(quiet.(text := {}), id, Agent);
    }
  }

  lemma StartFollowed(l: Lanes, id: Id, role: Role)
    requires l.Lanes?
    ensures Follow(l, [TextStart(id, role)]) == if id in l.text then Misused else l.(text := l.text + {id})
  {
    Follow1(l, TextStart(id, role));
  }

  lemma UserLaneFollowed(run: RunState, id: Id)
    requires Apart(run)
    ensures var (run', events) := OpenLane(run, User, id);
            && (Clash(run, User, id) <==> Follow(LanesOf(run), events).Misused?)
            && (!Clash(run, User, id) ==> Apart(run') && Follow(LanesOf(run), events) == LanesOf(run'))
  {
    hide Follow, FollowOne;
    var l := LanesOf(run);
    if run.openUser != Some(id) {
      EndTextFollowed(l, run.openUser);
      assert l.text - Opened(run.openUser) == Opened(run.openMessage);
      FollowConcat(l, EndText(run.openUser), [TextStart(id, User)]);
      StartFollowed(l.(text := Opened(run.openMessage)), id, User);
    } else {
      FollowNothing(l);
    }
  }

  lemma FollowNothing(l: Lanes)
    ensures Follow(l, []) == l
  {
  }

  lemma ThoughtLaneFollowed(run: RunState, id: Id)
    requires Apart(run)
    ensures var (run', events) := OpenLane(run, Thought, id);
            Apart(run') && Follow(LanesOf(run), events) == LanesOf(run')
  {
    hide Follow, FollowOne;
    var l := LanesOf(run);
    if run.openReasoning != Some(id) {
      EndReasoningFollowed(l);
      FollowConcat(l, EndReasoning(run.openReasoning), [ReasoningStart(id)]);
      StartReasoningFollowed(l.(reasoning := None), id);
    } else {
      FollowNothing(l);
    }
  }

  lemma EndReasoningFollowed(l: Lanes)
    requires l.Lanes?
    ensures Follow(l, EndReasoning(l.reasoning)) == l.(reasoning := None)
  {
    if l.reasoning.Some? {
      Follow1(l, ReasoningEnd(l.reasoning.value));
    }
  }

  lemma StartReasoningFollowed(l: Lanes, id: Id)
    requires l.Lanes? && l.reasoning.None?
    ensures Follow(l, [ReasoningStart(id)]) == l.(reasoning := Some(id))
  {
    Follow1(l, ReasoningStart(id));
  }

  /** After a lane was opened for a message, its content goes there. */
  lemma ContentFollowed(run: RunState, role: Role, id: Id, text: Text)
    requires !Clash(run, role, id)
    ensures var l := LanesOf(OpenLane(run, role, id).0);
            Follow(l, ContentEvents(role, id, text)) == l
  {
    var l := LanesOf(OpenLane(run, role, id).0);
    var events := ContentEvents(role, id, text);
    forall i | 0 <= i < |events| ensures FollowOne(l, events[i]) == l {
      ContentFits(run, role, id, Chunks(text, MESSAGE_CHUNK_BYTES)[i]);
    }
    FollowSame(l, events);
  }

  lemma ContentFits(run: RunState, role: Role, id: Id, delta: Text)
    ensures var l := LanesOf(OpenLane(run, role, id).0);
            FollowOne(l, ContentEvent(role, id, delta)) == l
  {
  }

  // ---- a message chunk ----

  /** Payload, truncation, activity and tool events say nothing about message lanes. */
  predicate Neutral(e: Event) {
    || e.Custom? || e.Chunk? || e.Truncated? || e.Activity? || e.SessionEvent?
    || e.ToolStart? || e.ToolArgs? || e.ToolEnd? || e.ToolResult?
  }

  predicate AllNeutral(events: seq<Event>) {
    forall i :: 0 <= i < |events| ==> Neutral(events[i])
  }

  lemma NeutralConcat(a: seq<Event>, b: seq<Event>)
    requires AllNeutral(a) && AllNeutral(b)
    ensures AllNeutral(a + b)
  {
  }

  predicate WithinRun(events: seq<Event>) {
    forall i :: 0 <= i < |events| ==> !RunEvent(events[i])
  }

  lemma NeutralFollowed(l: Lanes, events: seq<Event>)
    requires AllNeutral(events)
    ensures Follow(l, events) == l && WithinRun(events)
  {
    FollowSame(l, events);
  }

  lemma PayloadsNeutral(env: Environment, canonicalId: Id, payload: Payload)
    ensures AllNeutral(PayloadEvents(env, canonicalId, payload))
  {
    var events := PayloadEvents(env, canonicalId, payload);
    forall i | 0 <= i < |events| ensures Neutral(events[i]) {
      PayloadEventsAreSmall(env, canonicalId, payload, events[i]);
    }
  }

  lemma OpenLaneWithinRun(run: RunState, role: Role, id: Id)
    ensures WithinRun(OpenLane(run, role, id).1)
  {
  }

  lemma ContentWithinRun(role: Role, id: Id, text: Text)
    ensures WithinRun(ContentEvents(role, id, text))
  {
  }

  lemma MisusedForGood(events: seq<Event>)
    ensures Follow(Misused, events) == Misused
  {
    FollowSame(Misused, events);
  }

  lemma AsideNeutral(env: Environment, run: RunState, role: Role, id: Id, content: Text, block: Option<Block>)
    ensures AllNeutral(BlockEvents(env, role, id, block)) && AllNeutral(MarkerEvents(run, id, content, block))
  {
    if block.Some? {
      PayloadsNeutral(env, id, MessageContent(id, role, block.value.value));
    }
    hide PayloadEvents, Cut;
  }

  lemma WithinConcat(a: seq<Event>, b: seq<Event>)
    requires WithinRun(a) && WithinRun(b)
    ensures WithinRun(a + b)
  {
  }

  /** Neutral events, then the opening of a lane, then its content. */
  lemma PiecesFollowed(l: Lanes, aside: seq<Event>, lane: seq<Event>, content: seq<Event>)
    requires AllNeutral(aside) && WithinRun(lane) && WithinRun(content)
    ensures Follow(l, aside + lane + content) == Follow(Follow(l, lane), content)
    ensures WithinRun(aside + lane + content)
  {
    NeutralFollowed(l, aside);
    hide Follow, AllNeutral;
    FollowConcat(l, aside, lane);
    FollowConcat(l, aside + lane, content);
    hide WithinRun;
    WithinConcat(aside, lane);
    WithinConcat(aside + lane, content);
  }

  lemma SayFollowed(env: Environment, run: RunState, role: Role, id: Id, content: Text, block: Option<Block>)
    requires Apart(run)
    ensures var (run', events) := Say(env, run, role, id, content, block);
            && WithinRun(events)
            && (Clash(run, role, id) ==> Follow(LanesOf(run), events) == Misused)
            && (!Clash(run, role, id) ==> Apart(run') && Follow(LanesOf(run), events) == LanesOf(run'))
  {
    hide Follow, OpenLane, Heard, ContentEvents, BlockEvents, MarkerEvents, AllNeutral, WithinRun, Cut, UsedBytes;
    var budgeted := Budgeted(run, id, content, block);
    assert LanesOf(budgeted) == LanesOf(run) && Apart(budgeted) && Clash(budgeted, role, id) == Clash(run, role, id);
    hide Budgeted, LanesOf, Apart, Clash;
    var lane, spoken := OpenLane(budgeted, role, id).1, ContentEvents(role, id, Heard(run, id, content));
    AsideNeutral(env, run, role, id, content, block);
    NeutralConcat(BlockEvents(env, role, id, block), MarkerEvents(run, id, content, block));
    OpenLaneFollowed(budgeted, role, id);
    OpenLaneWithinRun(budgeted, role, id);
    ContentWithinRun(role, id, Heard(run, id, content));
    PiecesFollowed(LanesOf(run), BlockEvents(env, role, id, block) + MarkerEvents(run, id, content, block), lane, spoken);
    if Clash(run, role, id) {
      MisusedForGood(spoken);
    } else {
      ContentFollowed(budgeted, role, id, Heard(run, id, content));
    }
  }

  // ---- closing ----

  lemma LaneEndsFollowed(run: RunState)
    requires Apart(run)
    ensures Follow(LanesOf(run), LaneEnds(run)) == CLOSED && WithinRun(LaneEnds(run))
  {
    hide Follow, FollowOne;
    var l := LanesOf(run);
    EndTextFollowed(l, run.openUser);
    var quiet := l.(text := Opened(run.openMessage));
    assert l.text - Opened(run.openUser) == quiet.text;
    EndTextFollowed(quiet, run.openMessage);
    FollowConcat(l, EndText(run.openUser), EndText(run.openMessage));
    var silent := quiet.(text := {});
    assert quiet.text - Opened(run.openMessage) == {};
    EndReasoningFollowed(silent);
    FollowConcat(l, EndText(run.openUser) + EndText(run.openMessage), EndReasoning(run.openReasoning));
  }

  lemma {:induction false} ToolEndsNeutral(tools: map<Id, ToolState>, order: seq<Id>)
    ensures AllNeutral(ToolEnds(tools, order))
  {
    if order != [] {
      ToolEndsNeutral(tools, order[..|order| - 1]);
    }
  }

  /** Closing a run ends every open message. */
  lemma CloseFollowed(run: RunState, order: seq<Id>)
    requires Apart(run)
    ensures Follow(LanesOf(run), CloseEvents(run, order)) == CLOSED && WithinRun(CloseEvents(run, order))
  {
    LaneEndsFollowed(run);
    ToolEndsNeutral(run.tools, order);
    NeutralFollowed(CLOSED, ToolEnds(run.tools, order));
    hide Follow, LanesOf, LaneEnds, ToolEnds;
    FollowConcat(LanesOf(run), LaneEnds(run), ToolEnds(run.tools, order));
  }

  // ---- tools ----

  lemma TextEventsNeutral(env: Environment, t: ToolState, u: ToolUpdate, found: Option<Subagent>)
    ensures AllNeutral(TextEvents(env, t, u, found))
  {
    var content := NewContent(t, u);
    if ResultChanged(t, content) {
      PayloadsNeutral(env, u.tool, ToolText(u.tool, Digest(content.value), content.value));
    }
    hide NewContent, ResultChanged, PayloadEvents;
  }

  lemma StructureEventsNeutral(env: Environment, t: ToolState, u: ToolUpdate, found: Option<Subagent>)
    ensures AllNeutral(StructureEvents(env, t, u, found))
  {
    hide NextStructured, PayloadEvents, StructureChanged, StructureRevision;
    var s := NextStructured(t, u);
    PayloadsNeutral(env, u.tool, ToolContent(u.tool, s.content, s.locations, StructureRevision(env, u.tool, s), !s.truncated));
  }

  lemma ReportsNeutral(env: Environment, t: ToolState, u: ToolUpdate, found: Option<Subagent>)
    ensures AllNeutral(StartTool(env, t, u).events) && AllNeutral(EndTool(t, u).events)
    ensures AllNeutral(ReportSubagent(t, u, found).events) && AllNeutral(ReportOutcome(t, u, found).events)
  {
  }

  lemma UpdateToolNeutral(env: Environment, t: ToolState, u: ToolUpdate)
    ensures AllNeutral(UpdateTool(env, t, u).events)
  {
    hide StartTool, EndTool, NewContent, SubagentIn, ReportSubagent, ReportOutcome, TextEvents, StructureEvents;
    hide UpdateStructure, UpdateResult, Classified, AllNeutral;
    var started := StartTool(env, Classified(env, t, u), u);
    var ended := EndTool(started.state, u);
    var content := NewContent(ended.state, u);
    var found := SubagentIn(env, u, content);
    var before := UpdateStructure(env, UpdateResult(ended.state, content), u);
    var reported := ReportSubagent(before, u, found);
    var told := ReportOutcome(reported.state, u, found);
    ReportsNeutral(env, Classified(env, t, u), u, found);
    ReportsNeutral(env, started.state, u, found);
    ReportsNeutral(env, before, u, found);
    ReportsNeutral(env, reported.state, u, found);
    TextEventsNeutral(env, ended.state, u, found);
    StructureEventsNeutral(env, ended.state, u, found);
    NeutralConcat(started.events, ended.events);
    NeutralConcat(started.events + ended.events, reported.events);
    NeutralConcat(started.events + ended.events + reported.events, told.events);
    NeutralConcat(started.events + ended.events + reported.events + told.events, TextEvents(env, ended.state, u, found));
    NeutralConcat(started.events + ended.events + reported.events + told.events + TextEvents(env, ended.state, u, found),
                  StructureEvents(env, ended.state, u, found));
  }

  // ---- one event of the projector, watched ----

  /** What the projector has open for a thread. */
  function Shape(p: Projector, thread: Id): View {
    if thread in p.runs then Running(p.runs[thread].runId, LanesOf(p.runs[thread])) else Idle
  }

  predicate ApartAt(p: Projector, thread: Id) {
    thread in p.runs ==> Apart(p.runs[thread])
  }

  /** The chunk is taken up by the thread's open run and clashes there. */
  predicate ClashingChunk(p: Projector, thread: Id, c: Canonical) {
    && c.MessageChunk? && c.thread == thread && (c.content != [] || c.block.Some?)
    && OpenRun(p, thread, c.runRef, c.turnRef).Some?
    && Clash(p.runs[thread], c.role, c.message)
  }

  lemma SpeakWatched(env: Environment, p: Projector, c: Canonical, thread: Id)
    requires ApartAt(p, thread) && c.MessageChunk? && c.thread == thread && OpenRun(p, thread, c.runRef, c.turnRef).Some?
    ensures var (p', events) := Speak(env, p, c);
            && (Clash(p.runs[thread], c.role, c.message) ==> Watch(thread, Shape(p, thread), events) == Broken)
            && (!Clash(p.runs[thread], c.role, c.message) ==>
                  Watch(thread, Shape(p, thread), events) == Shape(p', thread) && ApartAt(p', thread))
  {
    var run := p.runs[thread];
    SayFollowed(env, run, c.role, c.message, c.content, c.block);
    hide Say, Follow, Watch, Clash;
    WatchInside(thread, run.runId, run.turn, LanesOf(run), Say(env, run, c.role, c.message, c.content, c.block).1);
    SayKeepsRun(env, run, c.role, c.message, c.content, c.block);
  }

  lemma SayKeepsRun(env: Environment, run: RunState, role: Role, id: Id, content: Text, block: Option<Block>)
    ensures var run' := Say(env, run, role, id, content, block).0;
            run'.runId == run.runId && run'.turn == run.turn && run'.tools == run.tools
  {
    hide Cut, Heard, UsedBytes, EndText, EndReasoning, ContentEvents, BlockEvents, MarkerEvents;
  }

  lemma UseWatched(env: Environment, p: Projector, c: Canonical, thread: Id)
    requires ApartAt(p, thread) && c.Tool? && c.thread == thread && OpenRun(p, thread, c.runRef, c.turnRef).Some?
    ensures var (p', events) := Use(env, p, c);
            Watch(thread, Shape(p, thread), events) == Shape(p', thread) && ApartAt(p', thread)
  {
    var run := p.runs[thread];
    UpdateToolNeutral(env, ToolOf(run, c.update.tool), c.update);
    hide UpdateTool, Follow, Watch, UpdateLinks, ToolOf;
    var events := UpdateTool(env, ToolOf(run, c.update.tool), c.update).events;
    NeutralFollowed(LanesOf(run), events);
    WatchInside(thread, run.runId, run.turn, LanesOf(run), events);
  }

  lemma Watch1(thread: Id, v: View, e: Envelope)
    ensures Watch(thread, v, [e]) == Observe(thread, v, e)
  {
    assert [e][..0] == [];
  }

  lemma WatchClosing(thread: Id, run: RunState, order: seq<Id>)
    requires Apart(run)
    ensures Watch(thread, Running(run.runId, LanesOf(run)), Wrap(thread, run.runId, run.turn, CloseEvents(run, order)))
            == Running(run.runId, CLOSED)
  {
    CloseFollowed(run, order);
    hide Watch, CloseEvents, Follow;
    WatchInside(thread, run.runId, run.turn, LanesOf(run), CloseEvents(run, order));
  }

  lemma ClosedWatched(thread: Id, run: RunState, order: seq<Id>, terminal: Event, turn: Option<Id>)
    requires Apart(run) && Terminal(terminal)
    ensures Watch(thread, Running(run.runId, LanesOf(run)),
                  Wrap(thread, run.runId, run.turn, CloseEvents(run, order)) + Wrap(thread, run.runId, turn, [terminal]))
            == Idle
  {
    WatchClosing(thread, run, order);
    hide Watch, CloseEvents, LanesOf, Apart;
    var v, closing := Running(run.runId, LanesOf(run)), Wrap(thread, run.runId, run.turn, CloseEvents(run, order));
    WatchConcat(thread, v, closing, Wrap(thread, run.runId, turn, [terminal]));
    var last := Envelope(thread, InRun(run.runId), turn, terminal);
    assert Wrap(thread, run.runId, turn, [terminal]) == [last];
    Watch1(thread, Running(run.runId, CLOSED), last);
  }

  lemma FinishWatched(p: Projector, thread: Id, run: Id, turn: Id, terminal: Event, order: seq<Id>)
    requires ApartAt(p, thread) && Terminal(terminal)
    ensures var (p', events) := Finish(p, thread, run, turn, terminal, order);
            Watch(thread, Shape(p, thread), events) == Shape(p', thread) && ApartAt(p', thread)
  {
    if thread in p.runs && p.runs[thread].runId == run {
      ClosedWatched(thread, p.runs[thread], order, terminal, Some(turn));
    }
    hide Watch, CloseEvents, LanesOf, Unlink;
    WatchNothing(thread, Shape(p, thread));
  }

  lemma WatchNothing(thread: Id, v: View)
    ensures Watch(thread, v, []) == v
  {
  }

  lemma SupersedeWatched(p: Projector, thread: Id, order: seq<Id>)
    requires ApartAt(p, thread)
    ensures Watch(thread, Shape(p, thread), Supersede(p, thread, order)) == Idle
  {
    if thread in p.runs {
      var run := p.runs[thread];
      ClosedWatched(thread, run, order, RunErrorEvent(true), run.turn);
      hide CloseEvents;
      assert Wrap(thread, run.runId, run.turn, CloseEvents(run, order) + [RunErrorEvent(true)])
          == Wrap(thread, run.runId, run.turn, CloseEvents(run, order)) + Wrap(thread, run.runId, run.turn, [RunErrorEvent(true)]);
    }
  }

  lemma StartWatched(p: Projector, thread: Id, run: Id, turn: Id, order: seq<Id>)
    requires ApartAt(p, thread)
    ensures var (p', events) := Start(p, thread, run, turn, order);
            Watch(thread, Shape(p, thread), events) == Shape(p', thread) && ApartAt(p', thread)
  {
    SupersedeWatched(p, thread, order);
    hide Watch, Supersede;
    var started := Envelope(thread, InRun(run), Some(turn), RunStartedEvent);
    WatchConcat(thread, Shape(p, thread), Supersede(p, thread, order), [started]);
    assert Wrap(thread, run, Some(turn), [RunStartedEvent]) == [started];
    Watch1(thread, Idle, started);
    assert Opened(None) + Opened(None) == {};
    assert LanesOf(NewRun(run, turn)) == CLOSED;
  }

  /** An event of one thread is emitted on that thread, and changes no other thread's run. */
  lemma HandleLocal(env: Environment, p: Projector, c: Canonical, order: seq<Id>, thread: Id)
    requires ThreadOf(c) != Some(thread)
    ensures var (p', events) := Handle(env, p, c, order);
            && (thread in p'.runs <==> thread in p.runs) && (thread in p.runs ==> p'.runs[thread] == p.runs[thread])
            && (forall i :: 0 <= i < |events| ==> events[i].thread != thread)
  {
    hide Say, UpdateTool, CloseEvents, UpdateLinks, ToolOf, Unlink;
  }

  lemma HandleElsewhere(env: Environment, p: Projector, c: Canonical, order: seq<Id>, thread: Id)
    requires ApartAt(p, thread) && ThreadOf(c) != Some(thread)
    ensures var (p', events) := Handle(env, p, c, order);
            Watch(thread, Shape(p, thread), events) == Shape(p', thread)
            && ApartAt(p', thread)
  {
    HandleLocal(env, p, c, order, thread);
    hide Handle, Watch, LanesOf;
    OthersDoNotMatter(thread, Shape(p, thread), Handle(env, p, c, order).1);
  }

  lemma AnnounceWatched(p: Projector, c: Canonical, thread: Id)
    requires c.Session?
    ensures Watch(thread, Shape(p, thread), Announce(p, c)) == Shape(p, thread)
  {
    hide Watch, LanesOf;
    WatchSame(thread, Shape(p, thread), Announce(p, c));
  }

  /** On the event's own thread. */
  lemma HandleHere(env: Environment, p: Projector, c: Canonical, order: seq<Id>, thread: Id)
    requires ApartAt(p, thread) && ThreadOf(c) == Some(thread)
    ensures var (p', events) := Handle(env, p, c, order);
            && (ClashingChunk(p, thread, c) ==> Watch(thread, Shape(p, thread), events) == Broken)
            && (!ClashingChunk(p, thread, c) ==>
                  Watch(thread, Shape(p, thread), events) == Shape(p', thread)
                  && ApartAt(p', thread))
  {
    hide Watch, Shape, Speak, Use, Start, Finish, Announce, Correlated, Clash;
    WatchNothing(thread, Shape(p, thread));
    match c {
      case RunStarted(_, run, turn) => StartWatched(p, thread, run, turn, order);
      case MessageChunk(_, runRef, turnRef, _, _, content, block) =>
        if OpenRun(p, thread, runRef, turnRef).Some? {
          SpeakWatched(env, p, c, thread);
        } else {
          SpeakNothing(env, p, c);
        }
      case Tool(_, runRef, turnRef, _) =>
        if OpenRun(p, thread, runRef, turnRef).Some? {
          UseWatched(env, p, c, thread);
        } else {
          UseNothing(env, p, c);
        }
      case RunFinished(_, run, turn) => FinishWatched(p, thread, run, turn, RunFinishedEvent, order);
      case RunFailed(_, run, turn, _) => FinishWatched(p, thread, run, turn, RunErrorEvent(false), order);
      case Session(_, _, _, _) => AnnounceWatched(p, c, thread);
      case Request(_) =>
    }
  }

  lemma SpeakNothing(env: Environment, p: Projector, c: Canonical)
    requires c.MessageChunk? && OpenRun(p, c.thread, c.runRef, c.turnRef).None?
    ensures Speak(env, p, c) == (p, [])
  {
  }

  lemma UseNothing(env: Environment, p: Projector, c: Canonical)
    requires c.Tool? && OpenRun(p, c.thread, c.runRef, c.turnRef).None?
    ensures Use(env, p, c) == (p, [])
  {
  }

  lemma ProgressWatched(env: Environment, p: Projector, c: Canonical, thread: Id, v: View)
    ensures Watch(thread, v, ProgressEvents(env, p.links, c)) == v
  {
    hide Watch, ProgressOf;
    WatchSame(thread, v, ProgressEvents(env, p.links, c));
  }

  lemma StepWatched(env: Environment, p: Projector, c: Canonical, order: seq<Id>, thread: Id)
    requires ApartAt(p, thread)
    ensures var (p', events) := Project(env, p, c, order);
            && (ClashingChunk(p, thread, c) ==> Watch(thread, Shape(p, thread), events) == Broken)
            && (!ClashingChunk(p, thread, c) ==>
                  Watch(thread, Shape(p, thread), events) == Shape(p', thread)
                  && ApartAt(p', thread))
  {
    var q := p.(links := LinksAfterProgress(env, p.links, c));
    LinksDoNotMatter(p, q, c, thread);
    ProgressWatched(env, p, c, thread, Shape(p, thread));
    hide Watch, Shape, Handle, ProgressEvents, LinksAfterProgress;
    WatchConcat(thread, Shape(p, thread), ProgressEvents(env, p.links, c), Handle(env, q, c, order).1);
    if ThreadOf(c) == Some(thread) {
      HandleHere(env, q, c, order, thread);
    } else {
      HandleElsewhere(env, q, c, order, thread);
    }
  }

  lemma LinksDoNotMatter(p: Projector, q: Projector, c: Canonical, thread: Id)
    requires q.runs == p.runs
    ensures Shape(q, thread) == Shape(p, thread) && (ApartAt(q, thread) <==> ApartAt(p, thread))
    ensures ClashingChunk(q, thread, c) <==> ClashingChunk(p, thread, c)
  {
  }

  // ---- over whole runs ----

  /** Some step of the run is a user chunk under the id of the thread's open agent message. */
  ghost predicate Clashes(env: Environment, steps: seq<Step>, thread: Id) {
    exists n :: 0 <= n < |steps| && ClashAt(env, steps, thread, n)
  }

  predicate ClashAt(env: Environment, steps: seq<Step>, thread: Id, n: nat)
    requires n < |steps|
  {
    ClashingChunk(StateAfter(env, steps[..n]), thread, steps[n].event)
  }

  lemma ClashesGrow(env: Environment, steps: seq<Step>, thread: Id)
    requires steps != []
    ensures Clashes(env, steps, thread)
            <==> Clashes(env, steps[..|steps| - 1], thread) || ClashAt(env, steps, thread, |steps| - 1)
  {
    hide ClashingChunk, StateAfter;
    var before := steps[..|steps| - 1];
    forall n | 0 <= n < |before| ensures ClashAt(env, before, thread, n) <==> ClashAt(env, steps, thread, n) {
      assert before[..n] == steps[..n];
    }
    if Clashes(env, before, thread) {
      var n :| 0 <= n < |before| && ClashAt(env, before, thread, n);
      assert ClashAt(env, steps, thread, n);
    }
  }

  /** While no thread has clashed, open user and agent messages stay apart on every thread. */
  lemma {:induction false} StaysApart(env: Environment, steps: seq<Step>, thread: Id)
    requires !Clashes(env, steps, thread)
    ensures var p := StateAfter(env, steps);
            && Watch(thread, Idle, Stream(env, steps)) == Shape(p, thread)
            && (thread in p.runs ==> Apart(p.runs[thread]))
    decreases |steps|
  {
    if steps == [] {
      WatchNothing(thread, Idle);
    } else {
      hide Project, Clashes, ApartAt, Watch, ClashingChunk, Shape;
      var before, last := steps[..|steps| - 1], steps[|steps| - 1];
      ClashesGrow(env, steps, thread);
      StaysApart(env, before, thread);
      var p := StateAfter(env, before);
      StepWatched(env, p, last.event, last.order, thread);
      WatchConcat(thread, Idle, Stream(env, before), Project(env, p, last.event, last.order).1);
    }
  }

  /**
   The stream of every thread is well bracketed, and the monitor sees exactly the run and the open
   messages that the projector has, unless a user chunk ever came in under the id of the open agent
   message; then, and only then, the stream is broken.
   */
  lemma {:induction false} StreamWellFormed(env: Environment, steps: seq<Step>, thread: Id)
    ensures Watch(thread, Idle, Stream(env, steps))
            == if Clashes(env, steps, thread) then Broken else Shape(StateAfter(env, steps), thread)
    decreases |steps|
  {
    if !Clashes(env, steps, thread) {
      StaysApart(env, steps, thread);
    } else {
      hide Project, Clashes, ApartAt, Watch, ClashingChunk, Shape;
      NoStepsNoClash(env, steps, thread);
      var before, last := steps[..|steps| - 1], steps[|steps| - 1];
      ClashesGrow(env, steps, thread);
      StreamWellFormed(env, before, thread);
      var p := StateAfter(env, before);
      var events := Project(env, p, last.event, last.order).1;
      WatchConcat(thread, Idle, Stream(env, before), events);
      if Clashes(env, before, thread) {
        BrokenForGood(thread, events);
      } else {
        StaysApart(env, before, thread);
        StepWatched(env, p, last.event, last.order, thread);
      }
    }
  }

  lemma NoStepsNoClash(env: Environment, steps: seq<Step>, thread: Id)
    requires Clashes(env, steps, thread)
    ensures steps != []
  {
  }
}
