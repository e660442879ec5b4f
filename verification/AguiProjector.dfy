/**
 The projector in place: a run is an object whose fields the handlers update, and the projector
 owns one per open thread. Every method is proved against the function that specifies it.
 */
module AguiProjector {
  import opened Wrappers
  import opened Utf8
  import opened AguiEvents
  import opened AguiStructured
  import opened AguiProjection

  class LiveRun {
    var runId: Id
    var turn: Option<Id>
    var openUser: Option<Id>
    var openMessage: Option<Id>
    var openReasoning: Option<Id>
    var messageBytes: map<Id, nat>
    var truncated: set<Id>
    var tools: map<Id, ToolState>

    function State(): RunState
      reads this
    {
      RunState(runId, turn, openUser, openMessage, openReasoning, messageBytes, truncated, tools)
    }

    constructor (run: Id, sourceTurn: Id)
      ensures State() == NewRun(run, sourceTurn)
    {
      runId, turn := run, Some(sourceTurn);
      openUser, openMessage, openReasoning := None, None, None;
      messageBytes, truncated, tools := map[], {}, map[];
    }

    /** `bounded_live_content`. */
    method BoundedLiveContent(id: Id, content: Text) returns (bounded: Text, newlyTruncated: bool)
      modifies `messageBytes, `truncated
      ensures bounded == Heard(old(State()), id, content)
      ensures newlyTruncated <==> |bounded| < |content| && id !in old(truncated)
      ensures messageBytes == Budgeted(old(State()), id, content, None).messageBytes
      ensures truncated == if |bounded| < |content| then old(truncated) + {id} else old(truncated)
    {
      var used := if id in messageBytes then messageBytes[id] else 0;
      var remaining := if used < MAX_MESSAGE_TOTAL_BYTES then MAX_MESSAGE_TOTAL_BYTES - used else 0;
      bounded := BoundedText(content, remaining);
      messageBytes := messageBytes[id := used + |bounded|];
      var wasTruncated := |bounded| < |content|;
      newlyTruncated := wasTruncated && id !in truncated;
      if wasTruncated {
        truncated := truncated + {id};
      }
    }

    /** The lane part of a chunk: what has to end and start before its text. */
    method OpenLaneFor(role: Role, id: Id) returns (events: seq<Event>)
      modifies `openUser, `openMessage, `openReasoning
      ensures (State(), events) == OpenLane(old(State()), role, id)
    {
      events := [];
      match role {
        case Agent =>
          events := EndText(openUser);
          openUser := None;
          if openMessage != Some(id) {
            events := events + EndText(openMessage);
            openMessage := Some(id);
            events := events + [TextStart(id, Agent)];
          }
        case Thought =>
          if openReasoning != Some(id) {
            events := EndReasoning(openReasoning);
            openReasoning := Some(id);
            events := events + [ReasoningStart(id)];
          }
        case User =>
          if openUser != Some(id) {
            events := EndText(openUser);
            openUser := Some(id);
            events := events + [TextStart(id, User)];
          }
      }
    }

    /** The message arm of `project_canonical`. */
    method HandleChunk(env: Environment, role: Role, id: Id, content: Text, block: Option<Block>)
      returns (events: seq<Event>)
      modifies this
      ensures (State(), events) == Say(env, old(State()), role, id, content, block)
    {
      ghost var before := State();
      var text, newlyTruncated := BoundedLiveContent(id, content);
      var blockTruncated := block.Some? && block.value.truncated;
      var payload: seq<Event> := [];
      if block.Some? {
        payload := PushStructuredChunks(env, id, MessageContent(id, role, block.value.value));
      }
      var marker: seq<Event> := [];
      if newlyTruncated || (blockTruncated && id !in truncated) {
        truncated := truncated + {id};
        marker := [Truncated(id, MAX_MESSAGE_TOTAL_BYTES)];
      }
      assert State() == Budgeted(before, id, content, block);
      assert marker == MarkerEvents(before, id, content, block);
      hide Budgeted, MarkerEvents, OpenLane, Heard, PayloadEvents;
      var lane := OpenLaneFor(role, id);
      var said := PushMessageChunks(role, id, text);
      events := payload + marker + lane + said;
    }

    method TakeLanes() returns (events: seq<Event>)
      modifies `openUser, `openMessage, `openReasoning
      ensures openUser.None? && openMessage.None? && openReasoning.None?
      ensures events == LaneEnds(old(State()))
    {
      events := EndText(openUser);
      openUser := None;
      events := events + EndText(openMessage);
      openMessage := None;
      events := events + EndReasoning(openReasoning);
      openReasoning := None;
    }

    /** `close_run`, in the order in which the tools are gone through. */
    method Close() returns (events: seq<Event>, order: seq<Id>)
      modifies this
      ensures State() == old(State()).(openUser := None, openMessage := None, openReasoning := None)
      ensures events == CloseEvents(old(State()), order)
      ensures Enumerates(order, old(tools).Keys)
    {
      hide LaneEnds, ToolEnds, Enumerates;
      var lanes := TakeLanes();
      var ends, o := EndTools(tools);
      return lanes + ends, o;
    }

    /** The tool arm of `project_canonical`, but for the links. */
    method HandleTool(env: Environment, u: ToolUpdate) returns (events: seq<Event>, named: Option<Subagent>)
      modifies this
      ensures State() == RunAfterTool(env, old(State()), u)
      ensures events == UpdateTool(env, ToolOf(old(State()), u.tool), u).events
      ensures named == NamedSubagent(env, old(State()), u)
    {
      var before := if u.tool in tools then tools[u.tool] else NEW_TOOL;
      var state: ToolState;
      state, events, named := ApplyToolUpdate(env, before, u);
      tools := tools[u.tool := state];
    }
  }

  lemma EnumeratesMore(order: seq<Id>, keys: set<Id>, tool: Id)
    requires Enumerates(order, keys) && tool !in keys
    ensures Enumerates(order + [tool], keys + {tool})
  {
  }

  /** The loop of `close_run` over a hash map. */
  method EndTools(tools: map<Id, ToolState>) returns (events: seq<Event>, order: seq<Id>)
    ensures events == ToolEnds(tools, order)
    ensures Enumerates(order, tools.Keys)
  {
    events, order := [], [];
    var left := tools.Keys;
    while left != {}
      invariant left <= tools.Keys && events == ToolEnds(tools, order)
      invariant Enumerates(order, tools.Keys - left)
      decreases left
    {
      hide ToolEnds, Enumerates;
      var tool :| tool in left;
      EnumeratesMore(order, tools.Keys - left, tool);
      ToolEndsMore(tools, order, tool);
      assert tools.Keys - (left - {tool}) == tools.Keys - left + {tool};
      left := left - {tool};
      order := order + [tool];
      if !tools[tool].ended && !tools[tool].subagent {
        events := events + [ToolEnd(tool)];
      }
    }
    assert tools.Keys - left == tools.Keys;
  }

  /** `push_message_chunks`. */
  method PushMessageChunks(role: Role, id: Id, text: Text) returns (events: seq<Event>)
    ensures events == ContentEvents(role, id, text)
  {
    events := [];
    var chunks := Utf8Chunks(text, MESSAGE_CHUNK_BYTES);
    var i := 0;
    while i < |chunks|
      invariant i <= |chunks| && events == ContentEvents(role, id, text)[..i]
    {
      events := events + [ContentEvent(role, id, chunks[i])];
      i := i + 1;
    }
  }

  // ---- a tool update, stretch by stretch ----

  /** Announces a tool call, or the sub-agent it stands for. */
  method BeginCall(env: Environment, t: ToolState, u: ToolUpdate) returns (state: ToolState, events: seq<Event>)
    ensures state == StartTool(env, t, u).state && events == StartTool(env, t, u).events
  {
    state, events := t, [];
    if !state.started {
      state := state.(started := true);
      if state.subagent {
        if !HasTask(env, u.content) {
          var status := Outcome(u.status);
          state := state.(activity := Some(Unlinked(status)));
          events := [Activity(u.tool, None, status)];
        }
      } else {
        var name := BoundedText(u.name, 256);
        events := [ToolStart(u.tool, name), ToolArgs(u.tool)];
      }
    }
  }

  /** Ends the call at the first terminal status. */
  method EndCall(t: ToolState, u: ToolUpdate) returns (state: ToolState, events: seq<Event>)
    ensures state == EndTool(t, u).state && events == EndTool(t, u).events
  {
    state, events := t, [];
    if u.status.Terminal() && !state.ended {
      state := state.(ended := true);
      if !state.subagent {
        events := [ToolEnd(u.tool)];
      }
    }
  }

  /** The new text of the tool and whether it is a change. */
  method NextResult(t: ToolState, u: ToolUpdate) returns (content: Option<Text>, changed: bool)
    ensures content == NewContent(t, u)
    ensures changed <==> ResultChanged(t, content)
    ensures changed ==> content.Some?
  {
    match u.content {
      case Set(value) =>
        var text := BoundedText(value, MAX_TOOL_TOTAL_BYTES);
        content := Some(text);
      case Clear =>
        content := Some([]);
      case Append(value) =>
        var text := BoundedText(Concat(t.result, value), MAX_TOOL_TOTAL_BYTES);
        content := Some(text);
      case Unchanged =>
        content := None;
    }
    if content.None? || (content.value == [] && t.resultRevision.None?) {
      changed := false;
    } else {
      changed := Some(Digest(content.value)) != t.resultRevision;
    }
  }

  /** Updates the structured state and its revision. */
  method NextStructure(env: Environment, t: ToolState, u: ToolUpdate) returns (state: ToolState, changed: bool)
    ensures state == UpdateStructure(env, t, u)
    ensures changed <==> StructureChanged(env, t, u)
  {
    var s, changedState := ApplyStructuredUpdates(StructuredOf(t), u.structured, u.locations, MAX_STRUCTURED_TOOL_BYTES);
    var revision := Digest(env.encode(ToolStructure(u.tool, s.content, s.locations, !s.truncated)));
    changed := changedState && t.structuredRevision != Some(revision);
    state := t.(structured := s.content, locations := s.locations, structuredTruncated := s.truncated);
    if changed {
      state := state.(structuredRevision := Some(revision));
    }
  }

  /** Reports the sub-agent the text names, or else the outcome of a sub-agent tool. */
  method ReportSubagents(t: ToolState, u: ToolUpdate, found: Option<Subagent>)
    returns (state: ToolState, events: seq<Event>)
    ensures state == ReportOutcome(ReportSubagent(t, u, found).state, u, found).state
    ensures events == ReportSubagent(t, u, found).events + ReportOutcome(ReportSubagent(t, u, found).state, u, found).events
  {
    state, events := t, [];
    if found.Some? {
      state := state.(subagent := true);
      var revision := Linked(found.value.child, found.value.status);
      if state.activity != Some(revision) {
        state := state.(activity := Some(revision));
        events := events + [Activity(u.tool, Some(found.value.child), found.value.status)];
      }
    }
    if state.subagent && u.status.Terminal() && found.None? {
      var revision := Unlinked(Outcome(u.status));
      if state.activity != Some(revision) {
        state := state.(activity := Some(revision));
        events := events + [Activity(u.tool, None, Outcome(u.status))];
      }
    }
  }

  method PushResults(tool: Id, text: Text) returns (events: seq<Event>)
    ensures events == ResultEvents(tool, text)
  {
    events := [];
    var chunks := Utf8Chunks(text, TOOL_RESULT_CHUNK_BYTES);
    var i := 0;
    while i < |chunks|
      invariant i <= |chunks| && events == ResultEvents(tool, text)[..i]
    {
      events := events + [ToolResult(tool, chunks[i])];
      i := i + 1;
    }
  }

  /** Tells a changed result. */
  method TellText(env: Environment, t: ToolState, u: ToolUpdate, content: Option<Text>, changed: bool,
                  found: Option<Subagent>) returns (events: seq<Event>)
    requires content == NewContent(t, u) && (changed <==> ResultChanged(t, content))
    ensures events == TextEvents(env, t, u, found)
  {
    events := [];
    if changed && found.None? {
      if u.status.Terminal() && t.result <= content.value && content.value != [] {
        events := PushResults(u.tool, After(content.value, t.result));
      } else {
        events := PushStructuredChunks(env, u.tool, ToolText(u.tool, Digest(content.value), content.value));
      }
    }
  }

  /** Tells a changed structured state. */
  method TellStructure(env: Environment, t: ToolState, u: ToolUpdate, changed: bool, found: Option<Subagent>)
    returns (events: seq<Event>)
    requires changed <==> StructureChanged(env, t, u)
    ensures events == StructureEvents(env, t, u, found)
  {
    events := [];
    if changed && found.None? {
      var s := NextStructured(t, u);
      var revision := StructureRevision(env, u.tool, s);
      events := PushStructuredChunks(env, u.tool, ToolContent(u.tool, s.content, s.locations, revision, !s.truncated));
    }
  }

  /** Before its result is updated, a tool's text and structure are those it came with. */
  lemma BegunKeepsContent(env: Environment, t: ToolState, u: ToolUpdate)
    ensures var begun := EndTool(StartTool(env, Classified(env, t, u), u).state, u).state;
            NewContent(begun, u) == NewContent(t, u)
  {
    hide HasTask, NextText;
  }

  lemma ResultLeavesStructure(env: Environment, t: ToolState, u: ToolUpdate, content: Option<Text>)
    ensures StructureChanged(env, UpdateResult(t, content), u) <==> StructureChanged(env, t, u)
  {
    hide ApplyStructured, StructureRevision;
  }

  lemma Regroup(a: seq<Event>, b: seq<Event>, c: seq<Event>, d: seq<Event>, e: seq<Event>, f: seq<Event>)
    ensures a + b + (c + d) + e + f == a + b + c + d + e + f
  {
  }

  method ApplyToolUpdate(env: Environment, t: ToolState, u: ToolUpdate)
    returns (state: ToolState, events: seq<Event>, named: Option<Subagent>)
    ensures state == UpdateTool(env, t, u).state && events == UpdateTool(env, t, u).events
    ensures named == SubagentIn(env, u, NewContent(t, u))
  {
    hide StartTool, EndTool, NewContent, ResultChanged, UpdateStructure, StructureChanged, SubagentIn, ReportSubagent;
    hide ReportOutcome, TextEvents, StructureEvents, NextStructured, HasTask;
    var started: seq<Event>, ended: seq<Event>, reports: seq<Event>;
    state := t.(subagent := t.subagent || u.subagentTitle || HasTask(env, u.content));
    state, started := BeginCall(env, state, u);
    state, ended := EndCall(state, u);
    var begun := state;
    BegunKeepsContent(env, t, u);
    hide Classified;
    var content, changedResult := NextResult(state, u);
    if changedResult {
      state := state.(result := content.value, resultRevision := Some(Digest(content.value)));
    }
    ResultLeavesStructure(env, begun, u, content);
    assert state == UpdateResult(begun, content);
    hide UpdateResult;
    var changedStructure;
    state, changedStructure := NextStructure(env, state, u);
    named := SubagentIn(env, u, content);
    ghost var updated := state;
    state, reports := ReportSubagents(state, u, named);
    var text := TellText(env, begun, u, content, changedResult, named);
    var structure := TellStructure(env, begun, u, changedStructure, named);
    events := started + ended + reports + text + structure;
    ghost var reported := ReportSubagent(updated, u, named);
    Regroup(started, ended, reported.events, ReportOutcome(reported.state, u, named).events, text, structure);
  }

  // ---- the projector ----

  class AgUiProjector {
    var runs: map<Id, LiveRun>
    var links: map<Id, Link>

    function Objects(): set<object>
      reads `runs
    {
      set thread | thread in runs :: runs[thread]
    }

    /** No two threads share a run. */
    predicate Valid()
      reads `runs
    {
      forall a, b :: a in runs && b in runs && a != b ==> runs[a] != runs[b]
    }

    function Runs(): map<Id, RunState>
      reads `runs, Objects()
    {
      map thread | thread in runs :: runs[thread].State()
    }

    function State(): Projector
      reads this, Objects()
    {
      Projector(Runs(), links)
    }

    constructor ()
      ensures Valid() && State() == NEW_PROJECTOR
    {
      runs, links := map[], map[];
      new;
      assert Runs() == map[];
    }

    /** `project_subagent_progress`. */
    method ProjectProgress(env: Environment, c: Canonical) returns (events: seq<Envelope>)
      modifies `links
      ensures events == ProgressEvents(env, old(links), c)
      ensures links == LinksAfterProgress(env, old(links), c)
    {
      events := [];
      var thread := ThreadOf(c);
      if thread.None? || thread.value !in links {
        return;
      }
      var link := links[thread.value];
      var status := ProgressOf(env, c);
      if status.None? {
        return;
      }
      events := Wrap(link.thread, link.run, link.turn, [Activity(link.tool, Some(link.child), status.value)]);
      if env.Ends(status.value) {
        links := links - {thread.value};
      }
    }

    /** `canonical_run_mut`. */
    method FindRun(thread: Id, runRef: Option<Id>, turnRef: Option<Id>) returns (run: LiveRun?)
      ensures run == null <==> OpenRun(State(), thread, runRef, turnRef).None?
      ensures run != null ==> thread in runs && run == runs[thread]
    {
      run := null;
      if thread in runs {
        var found := runs[thread];
        if (runRef.None? || runRef.value == found.runId)
           && !(turnRef.Some? && found.turn.Some? && turnRef != found.turn) {
          run := found;
        }
      }
    }

    /** Closes the run of a thread; the caller drops or replaces it. */
    method CloseRunOf(thread: Id) returns (events: seq<Event>, order: seq<Id>)
      requires Valid() && thread in runs
      modifies Objects()
      ensures Runs() == old(Runs())[thread := Runs()[thread]]
      ensures events == old(CloseEvents(runs[thread].State(), order))
      ensures Runs()[thread].runId == old(runs[thread].runId) && Runs()[thread].turn == old(runs[thread].turn)
      ensures Enumerates(order, old(runs[thread].tools).Keys)
    {
      hide CloseEvents, Enumerates;
      var run := runs[thread];
      events, order := run.Close();
      assert forall t :: t in runs && t != thread ==> runs[t].State() == old(runs[t].State());
    }

    method InsertRun(thread: Id, run: Id, turn: Id)
      requires Valid()
      modifies `runs
      ensures thread in runs && fresh(runs[thread]) && runs == old(runs)[thread := runs[thread]]
      ensures runs[thread].State() == NewRun(run, turn)
    {
      var live := new LiveRun(run, turn);
      runs := runs[thread := live];
    }

    method ReplaceRun(thread: Id, run: Id, turn: Id)
      requires Valid()
      modifies `runs
      ensures Valid() && fresh(Objects() - old(Objects()))
      ensures Runs() == old(Runs())[thread := NewRun(run, turn)]
    {
      InsertRun(thread, run, turn);
    }

    method RemoveRun(thread: Id)
      requires Valid()
      modifies `runs
      ensures Valid() && Objects() <= old(Objects())
      ensures Runs() == old(Runs()) - {thread}
    {
      runs := runs - {thread};
    }

    /** Closes the run that a new one supersedes, if there is one. */
    method ClosePrevious(thread: Id) returns (events: seq<Envelope>, order: seq<Id>)
      requires Valid()
      modifies Objects()
      ensures forall run, turn :: Runs()[thread := NewRun(run, turn)] == old(Runs())[thread := NewRun(run, turn)]
      ensures events == old(Supersede(State(), thread, order))
      ensures thread in runs ==> Enumerates(order, old(runs[thread].tools).Keys)
    {
      hide CloseEvents, Enumerates;
      events, order := [], [];
      if thread in runs {
        var closing;
        closing, order := CloseRunOf(thread);
        events := Wrap(thread, runs[thread].runId, runs[thread].turn, closing + [RunErrorEvent(true)]);
      }
    }

    method StartRun(thread: Id, run: Id, turn: Id) returns (events: seq<Envelope>, order: seq<Id>)
      requires Valid()
      modifies `runs, Objects()
      ensures Valid() && fresh(Objects() - old(Objects()))
      ensures Runs() == old(Runs())[thread := NewRun(run, turn)]
      ensures events == old(Supersede(State(), thread, order)) + Wrap(thread, run, Some(turn), [RunStartedEvent])
      ensures thread in old(runs) ==> Enumerates(order, old(runs[thread].tools).Keys)
    {
      hide Supersede, Enumerates, Runs, NewRun;
      events, order := ClosePrevious(thread);
      ReplaceRun(thread, run, turn);
      events := events + Wrap(thread, run, Some(turn), [RunStartedEvent]);
    }

    method FinishRun(thread: Id, run: Id, turn: Id, terminal: Event) returns (events: seq<Envelope>, order: seq<Id>)
      requires Valid() && thread in runs && runs[thread].runId == run
      modifies `runs, Objects()
      ensures Valid() && Objects() <= old(Objects())
      ensures Runs() == old(Runs()) - {thread}
      ensures events == old(Wrap(thread, run, runs[thread].turn, CloseEvents(runs[thread].State(), order)))
                        + Wrap(thread, run, Some(turn), [terminal])
      ensures Enumerates(order, old(runs[thread].tools).Keys)
    {
      hide CloseEvents, Enumerates, Valid;
      var closing;
      closing, order := CloseRunOf(thread);
      events := Wrap(thread, run, runs[thread].turn, closing) + Wrap(thread, run, Some(turn), [terminal]);
      RemoveRun(thread);
    }

    method HandleMessage(env: Environment, c: Canonical) returns (events: seq<Envelope>)
      requires Valid() && c.MessageChunk?
      modifies Objects()
      ensures State() == Speak(env, old(State()), c).0 && events == Speak(env, old(State()), c).1
    {
      hide Say;
      events := [];
      var run := FindRun(c.thread, c.runRef, c.turnRef);
      if run != null {
        var said := run.HandleChunk(env, c.role, c.message, c.content, c.block);
        assert forall t :: t in runs && t != c.thread ==> runs[t].State() == old(runs[t].State());
        assert Runs() == old(Runs())[c.thread := run.State()];
        SayKeepsIds(env, old(run.State()), c.role, c.message, c.content, c.block);
        events := Wrap(c.thread, run.runId, run.turn, said);
      }
    }

    /** The tool arm for the thread's run. */
    method UseTool(env: Environment, thread: Id, u: ToolUpdate) returns (events: seq<Envelope>, named: Option<Subagent>)
      requires Valid() && thread in runs
      modifies Objects()
      ensures Runs() == old(Runs())[thread := RunAfterTool(env, old(Runs())[thread], u)]
      ensures events == old(Wrap(thread, runs[thread].runId, runs[thread].turn,
                                 UpdateTool(env, ToolOf(Runs()[thread], u.tool), u).events))
      ensures named == NamedSubagent(env, old(Runs())[thread], u)
    {
      hide UpdateTool, RunAfterTool, ToolOf, NamedSubagent;
      var run := runs[thread];
      RunAfterToolKeepsIds(env, run.State(), u);
      var done;
      done, named := run.HandleTool(env, u);
      assert forall t :: t in runs && t != thread ==> runs[t].State() == old(runs[t].State());
      events := Wrap(thread, run.runId, run.turn, done);
    }

    /** The link of a named sub-agent goes when it has ended, and is set otherwise. */
    method Relink(env: Environment, thread: Id, u: ToolUpdate, named: Option<Subagent>)
      requires thread in runs
      modifies `links
      ensures links == match named
                       case None => old(links)
                       case Some(s) =>
                         if env.Ends(s.status) then old(links) - {s.child}
                         else old(links)[s.child := Link(thread, runs[thread].runId, runs[thread].turn, u.tool, s.child)]
    {
      if named.Some? {
        var child, run := named.value.child, runs[thread];
        if env.Ends(named.value.status) {
          links := links - {child};
        } else {
          links := links[child := Link(thread, run.runId, run.turn, u.tool, child)];
        }
      }
    }

    method HandleToolUpdate(env: Environment, c: Canonical) returns (events: seq<Envelope>)
      requires Valid() && c.Tool?
      modifies `links, Objects()
      ensures State() == Use(env, old(State()), c).0 && events == Use(env, old(State()), c).1
    {
      hide UpdateTool, RunAfterTool, ToolOf, NamedSubagent, Correlated;
      events := [];
      var run := FindRun(c.thread, c.runRef, c.turnRef);
      if run != null {
        RunAfterToolKeepsIds(env, run.State(), c.update);
        assert Runs()[c.thread] == run.State();
        var named;
        events, named := UseTool(env, c.thread, c.update);
        assert Runs()[c.thread] == run.State();
        Relink(env, c.thread, c.update, named);
      }
    }

    method PushSession(c: Canonical) returns (events: seq<Envelope>)
      requires c.Session?
      ensures events == Announce(State(), c)
    {
      if c.thread in runs {
        var run := runs[c.thread];
        events := Wrap(c.thread, run.runId, run.turn, [SessionEvent(c.kind, c.value)]);
      } else {
        events := [Envelope(c.thread, OfSession, None, SessionEvent(c.kind, c.value))];
      }
    }

    method HandleStart(thread: Id, run: Id, turn: Id) returns (events: seq<Envelope>, order: seq<Id>)
      requires Valid()
      modifies `runs, Objects()
      ensures Valid() && fresh(Objects() - old(Objects()))
      ensures State() == Start(old(State()), thread, run, turn, order).0
      ensures events == Start(old(State()), thread, run, turn, order).1
      ensures thread in old(State()).runs ==> Enumerates(order, old(State()).runs[thread].tools.Keys)
    {
      hide Supersede, Enumerates;
      events, order := StartRun(thread, run, turn);
    }

    method HandleEnd(thread: Id, run: Id, turn: Id, terminal: Event) returns (events: seq<Envelope>, order: seq<Id>)
      requires Valid()
      modifies this, Objects()
      ensures Valid() && fresh(Objects() - old(Objects()))
      ensures State() == Finish(old(State()), thread, run, turn, terminal, order).0
      ensures events == Finish(old(State()), thread, run, turn, terminal, order).1
      ensures thread in old(State()).runs && old(State()).runs[thread].runId == run
              ==> Enumerates(order, old(State()).runs[thread].tools.Keys)
    {
      hide CloseEvents, Unlink, Enumerates;
      events, order := [], [];
      if thread in runs && runs[thread].runId == run {
        events, order := FinishRun(thread, run, turn, terminal);
        ghost var after := Runs();
        links := Unlink(links, thread, run);
        assert Runs() == after;
      }
    }

    method HandleEvent(env: Environment, c: Canonical) returns (events: seq<Envelope>, order: seq<Id>)
      requires Valid()
      modifies this, Objects()
      ensures Valid() && fresh(Objects() - old(Objects()))
      ensures State() == Handle(env, old(State()), c, order).0
      ensures events == Handle(env, old(State()), c, order).1
      ensures Closes(old(State()), c) ==> Enumerates(order, old(State()).runs[c.thread].tools.Keys)
    {
      hide Start, Finish, Speak, Use, Announce, Runs, Enumerates;
      events, order := [], [];
      match c {
        case RunStarted(thread, run, turn) => events, order := HandleStart(thread, run, turn);
        case MessageChunk(_, _, _, _, _, content, block) =>
          if content != [] || block.Some? {
            events := HandleMessage(env, c);
          }
        case Tool(_, _, _, _) => events := HandleToolUpdate(env, c);
        case RunFinished(thread, run, turn) => events, order := HandleEnd(thread, run, turn, RunFinishedEvent);
        case RunFailed(thread, run, turn, _) => events, order := HandleEnd(thread, run, turn, RunErrorEvent(false));
        case Session(_, _, _, _) => events := PushSession(c);
        case Request(_) =>
        case Ignored =>
      }
    }

    /** `project_canonical`, and the order in which it went through the tools of a run it closed. */
    method ProjectCanonical(env: Environment, c: Canonical) returns (events: seq<Envelope>, order: seq<Id>)
      requires Valid()
      modifies this, Objects()
      ensures Valid() && fresh(Objects() - old(Objects()))
      ensures State() == Project(env, old(State()), c, order).0
      ensures events == Project(env, old(State()), c, order).1
      ensures Closes(old(State()), c) ==> Enumerates(order, old(State()).runs[c.thread].tools.Keys)
    {
      hide Handle, ProgressEvents, LinksAfterProgress, Enumerates, Runs;
      var progress := ProjectProgress(env, c);
      var more;
      more, order := HandleEvent(env, c);
      events := progress + more;
    }
  }

  /** The event closes the run of its thread. */
  predicate Closes(p: Projector, c: Canonical) {
    || (c.RunStarted? && c.thread in p.runs)
    || ((c.RunFinished? || c.RunFailed?) && c.thread in p.runs && p.runs[c.thread].runId == c.run)
  }

  lemma RunAfterToolKeepsIds(env: Environment, run: RunState, u: ToolUpdate)
    ensures RunAfterTool(env, run, u).runId == run.runId && RunAfterTool(env, run, u).turn == run.turn
  {
  }

  lemma SayKeepsIds(env: Environment, run: RunState, role: Role, id: Id, content: Text, block: Option<Block>)
    ensures Say(env, run, role, id, content, block).0.runId == run.runId
    ensures Say(env, run, role, id, content, block).0.turn == run.turn
  {
    hide Cut, Heard, UsedBytes, EndText, EndReasoning, ContentEvents, BlockEvents, MarkerEvents;
  }
}
