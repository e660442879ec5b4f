/**
 Tools over whole runs of the projector: each call is started, given its arguments and ended exactly
 once, also when its run ends or is superseded, and a receiver's text is the fold of the updates.
 */
module AguiToolRuns {
  import opened Wrappers
  import opened Utf8
  import opened AguiEvents
  import opened AguiStructured
  import opened AguiProjection
  import opened AguiLog
  import opened AguiTools

  // ---- what the updates of the current run say about a tool ----

  /** The fold of its updates, and whether one classified it as a sub-agent while open, or named one. */
  datatype Story = Story(text: Text, diverted: bool, named: bool)

  const NO_STORY: Story := Story([], false, false)

  function Continue(env: Environment, story: Story, t: ToolState, u: ToolUpdate): Story {
    Story(NextText(story.text, u.content), story.diverted || Diverts(env, t, u),
          story.named || Names(env, t, u).Some?)
  }

  function StoryOf(env: Environment, steps: seq<Step>, thread: Id, tool: Id): Story {
    if steps == [] then NO_STORY
    else
      var before, last := steps[..|steps| - 1], steps[|steps| - 1].event;
      var story, p := StoryOf(env, before, thread, tool), StateAfter(env, before);
      if Starting(last, thread) then NO_STORY
      else if Using(p, last, thread) && last.update.tool == tool
      then Continue(env, story, ToolOf(p.runs[thread], tool), last.update)
      else story
  }

  // ---- the invariant ----

  /** State, log and story of a tool agree; the receiver's text does when decoding undoes encoding. */
  ghost predicate Agrees(env: Environment, run: RunState, log: seq<Event>, tool: Id, story: Story) {
    var t := ToolOf(run, tool);
    && Lives(t, Trace(log, tool), story.diverted)
    && Revised(t) && t.result == story.text && |t.result| <= MAX_TOOL_TOTAL_BYTES
    && (story.named ==> t.subagent)
    && (env.RoundTrips() && !story.named ==> Receive(env, tool, NOTHING, log) == Held(t.result, map[]))
  }

  lemma SilentForeign(events: seq<Event>, tool: Id)
    requires Silent(events)
    ensures AllForeign(events, tool)
  {
  }

  /** Events about other things change nothing. */
  lemma ForeignAgrees(env: Environment, run: RunState, run': RunState, log: seq<Event>, more: seq<Event>, tool: Id,
                      story: Story)
    requires Agrees(env, run, log, tool, story) && AllForeign(more, tool) && ToolOf(run', tool) == ToolOf(run, tool)
    ensures Agrees(env, run', log + more, tool, story)
  {
    hide Lives, Revised, Trace, Receive, AllForeign, ToolOf;
    TraceConcat(log, more, tool);
    ReceiveConcat(env, tool, NOTHING, log, more);
    ForeignIgnored(env, tool, Receive(env, tool, NOTHING, log), more);
    assert Trace(log, tool) + [] == Trace(log, tool);
  }

  lemma NextTextBounded(held: Text, update: FieldUpdate<Text>)
    requires |held| <= MAX_TOOL_TOTAL_BYTES
    ensures |NextText(held, update)| <= MAX_TOOL_TOTAL_BYTES
  {
    match update {
      case Set(value) => LongestPrefixIsLongest(value, MAX_TOOL_TOTAL_BYTES, []);
      case Append(value) => LongestPrefixIsLongest(Concat(held, value), MAX_TOOL_TOTAL_BYTES, []);
      case _ =>
    }
  }

  /** An update of the tool. */
  lemma UpdateAgrees(env: Environment, run: RunState, log: seq<Event>, u: ToolUpdate, story: Story)
    requires Agrees(env, run, log, u.tool, story)
    ensures Agrees(env, RunAfterTool(env, run, u), log + UpdateTool(env, ToolOf(run, u.tool), u).events, u.tool,
                   Continue(env, story, ToolOf(run, u.tool), u))
  {
    hide UpdateTool, Lives, Diverts, Revised, Trace, Receive, SubagentIn, NewContent, NextText, Classified, UpdateResult, Names;
    var t := ToolOf(run, u.tool);
    var events, t' := UpdateTool(env, t, u).events, UpdateTool(env, t, u).state;
    assert ToolOf(RunAfterTool(env, run, u), u.tool) == t';
    hide ToolOf, RunAfterTool;
    TraceConcat(log, events, u.tool);
    ReceiveConcat(env, u.tool, NOTHING, log, events);
    LifeGoesOn(env, t, u, Trace(log, u.tool), story.diverted);
    UpdateFlags(env, t, u);
    SubagentIsNamed(env, t, u);
    ResultIsFold(t, u);
    RevisedStage(UpdateResult(t, NewContent(t, u)), t');
    NextTextBounded(t.result, u.content);
    ClassifiedStage(env, t, u);
    if env.RoundTrips() && Names(env, t, u).None? {
      UpdateReceived(env, t, u);
    }
  }

  lemma OtherToolAgrees(env: Environment, run: RunState, log: seq<Event>, u: ToolUpdate, tool: Id, story: Story)
    requires Agrees(env, run, log, tool, story) && tool != u.tool
    ensures Agrees(env, RunAfterTool(env, run, u), log + UpdateTool(env, ToolOf(run, u.tool), u).events, tool, story)
  {
    hide UpdateTool, Agrees;
    UpdateToolOnlyOf(env, ToolOf(run, u.tool), u);
    OnlyOfIsForeign(UpdateTool(env, ToolOf(run, u.tool), u).events, u.tool, tool);
    ForeignAgrees(env, run, RunAfterTool(env, run, u), log, UpdateTool(env, ToolOf(run, u.tool), u).events, tool, story);
  }

  predicate Elsewhere(events: seq<Event>, tool: Id) {
    AllForeign(events, tool) && NoStart(events)
  }

  lemma ElsewhereConcat(a: seq<Event>, b: seq<Event>, tool: Id)
    requires Elsewhere(a, tool) && Elsewhere(b, tool)
    ensures Elsewhere(a + b, tool)
  {
  }

  lemma BlockElsewhere(env: Environment, role: Role, id: Id, block: Option<Block>, tool: Id)
    ensures Elsewhere(BlockEvents(env, role, id, block), tool)
  {
    hide PayloadEvents;
    if block.Some? {
      var payload := MessageContent(id, role, block.value.value);
      PayloadForeign(env, id, payload, tool);
      PayloadOnlyOf(env, id, payload, tool);
    }
  }

  lemma WordsElsewhere(run: RunState, role: Role, id: Id, content: Text, block: Option<Block>, tool: Id)
    ensures Elsewhere(MarkerEvents(run, id, content, block), tool)
    ensures Elsewhere(ContentEvents(role, id, content), tool)
  {
    hide Cut;
  }

  lemma SaidForeign(env: Environment, run: RunState, role: Role, id: Id, content: Text, block: Option<Block>, tool: Id)
    ensures Elsewhere(Say(env, run, role, id, content, block).1, tool)
    ensures Say(env, run, role, id, content, block).0.tools == run.tools
  {
    hide Heard, Cut, UsedBytes, OpenLane, BlockEvents, MarkerEvents, ContentEvents, Elsewhere;
    var budgeted := Budgeted(run, id, content, block);
    assert budgeted.tools == run.tools;
    hide Budgeted;
    var lane, text := OpenLane(budgeted, role, id).1, Heard(run, id, content);
    LaneForeign(budgeted, role, id, tool);
    BlockElsewhere(env, role, id, block, tool);
    WordsElsewhere(run, role, id, content, block, tool);
    WordsElsewhere(run, role, id, text, block, tool);
    var aside := BlockEvents(env, role, id, block) + MarkerEvents(run, id, content, block);
    ElsewhereConcat(BlockEvents(env, role, id, block), MarkerEvents(run, id, content, block), tool);
    ElsewhereConcat(aside, lane, tool);
    ElsewhereConcat(aside + lane, ContentEvents(role, id, text), tool);
  }

  lemma LaneForeign(run: RunState, role: Role, id: Id, tool: Id)
    ensures Elsewhere(OpenLane(run, role, id).1, tool)
    ensures OpenLane(run, role, id).0.tools == run.tools
  {
  }

  /** The invariant of a thread after a step. */
  ghost predicate AgreesAt(env: Environment, p: Projector, thread: Id, log: seq<Event>, tool: Id, story: Story) {
    thread in p.runs ==> Agrees(env, p.runs[thread], log, tool, story)
  }

  lemma FreshAgrees(env: Environment, run: Id, turn: Id, tool: Id)
    ensures Agrees(env, NewRun(run, turn), [], tool, NO_STORY)
  {
  }

  // ---- one step ----

  lemma SpeakAgrees(env: Environment, p: Projector, s: Step, thread: Id, log: seq<Event>, tool: Id, story: Story)
    requires Speaking(p, s.event, thread) && AgreesAt(env, p, thread, log, tool, story)
    ensures AgreesAt(env, Project(env, p, s.event, s.order).0, thread,
                     LogFrom(thread, log, Project(env, p, s.event, s.order).1), tool, story)
  {
    hide Project, LogFrom, Say, Agrees, Silent;
    var c, run := s.event, p.runs[thread];
    SaidForeign(env, run, c.role, c.message, c.content, c.block, tool);
    var (run', said) := Say(env, run, c.role, c.message, c.content, c.block);
    var first := SpeakLogged(env, p, c, s.order, thread, log);
    SilentForeign(first, tool);
    ForeignAgrees(env, run, run, log, first, tool, story);
    ForeignAgrees(env, run, run', log + first, said, tool, story);
  }

  lemma UseAgrees(env: Environment, p: Projector, s: Step, thread: Id, log: seq<Event>, tool: Id, story: Story)
    requires Using(p, s.event, thread) && AgreesAt(env, p, thread, log, tool, story)
    ensures AgreesAt(env, Project(env, p, s.event, s.order).0, thread,
                     LogFrom(thread, log, Project(env, p, s.event, s.order).1), tool,
                     if s.event.update.tool == tool
                     then Continue(env, story, ToolOf(p.runs[thread], tool), s.event.update) else story)
  {
    hide Project, LogFrom, UpdateTool, RunAfterTool, Agrees, Silent, Continue, ToolOf;
    var u, run := s.event.update, p.runs[thread];
    var first := UseLogged(env, p, s.event, s.order, thread, log);
    UpdateToolOnlyOf(env, ToolOf(run, u.tool), u);
    OnlyOfStartsNothing(UpdateTool(env, ToolOf(run, u.tool), u).events, u.tool);
    SilentForeign(first, tool);
    ForeignAgrees(env, run, run, log, first, tool, story);
    if u.tool == tool {
      UpdateAgrees(env, run, log + first, u, story);
    } else {
      OtherToolAgrees(env, run, log + first, u, tool, story);
    }
  }

  lemma AsideAgrees(env: Environment, p: Projector, s: Step, thread: Id, log: seq<Event>, tool: Id, story: Story)
    requires Aside(p, s.event, thread) && AgreesAt(env, p, thread, log, tool, story)
    ensures AgreesAt(env, Project(env, p, s.event, s.order).0, thread,
                     LogFrom(thread, log, Project(env, p, s.event, s.order).1), tool, story)
  {
    hide Project, LogFrom, Agrees, Silent, Aside;
    var more := AsideLogged(env, p, s.event, s.order, thread, log);
    if thread in p.runs {
      SilentForeign(more, tool);
      ForeignAgrees(env, p.runs[thread], p.runs[thread], log, more, tool, story);
    }
  }

  lemma StartAgrees(env: Environment, p: Projector, s: Step, thread: Id, log: seq<Event>, tool: Id)
    requires Starting(s.event, thread)
    ensures AgreesAt(env, Project(env, p, s.event, s.order).0, thread,
                     LogFrom(thread, log, Project(env, p, s.event, s.order).1), tool, NO_STORY)
  {
    hide Project, LogFrom, Agrees;
    StartLogged(env, p, thread, s.event.run, s.event.turn, s.order, log);
    FreshAgrees(env, s.event.run, s.event.turn, tool);
  }

  lemma FinishAgrees(env: Environment, p: Projector, s: Step, thread: Id, log: seq<Event>, tool: Id, story: Story)
    requires Finishing(p, s.event, thread)
    ensures AgreesAt(env, Project(env, p, s.event, s.order).0, thread,
                     LogFrom(thread, log, Project(env, p, s.event, s.order).1), tool, story)
  {
    hide Project, LogFrom, Agrees;
    var _, _ := FinishLogged(env, p, s.event, s.order, thread, log);
  }

  lemma StepAgrees(env: Environment, p: Projector, s: Step, thread: Id, log: seq<Event>, tool: Id, story: Story)
    requires AgreesAt(env, p, thread, log, tool, story)
    ensures AgreesAt(env, Project(env, p, s.event, s.order).0, thread,
                     LogFrom(thread, log, Project(env, p, s.event, s.order).1), tool,
                     if Starting(s.event, thread) then NO_STORY
                     else if Using(p, s.event, thread) && s.event.update.tool == tool
                     then Continue(env, story, ToolOf(p.runs[thread], tool), s.event.update) else story)
  {
    FiveKinds(p, s.event, thread);
    KindsApart(p, s.event, thread);
    hide Project, LogFrom, AgreesAt, Aside, Finishing, Starting, Speaking, Using, Continue, ToolOf;
    if Starting(s.event, thread) {
      StartAgrees(env, p, s, thread, log, tool);
    } else if Using(p, s.event, thread) {
      UseAgrees(env, p, s, thread, log, tool, story);
    } else if Speaking(p, s.event, thread) {
      SpeakAgrees(env, p, s, thread, log, tool, story);
    } else if Finishing(p, s.event, thread) {
      FinishAgrees(env, p, s, thread, log, tool, story);
    } else {
      AsideAgrees(env, p, s, thread, log, tool, story);
    }
  }

  lemma KindsApart(p: Projector, c: Canonical, thread: Id)
    ensures Using(p, c, thread) ==> c.Tool? && thread in p.runs
  {
  }

  lemma {:induction false} RunAgrees(env: Environment, steps: seq<Step>, thread: Id, tool: Id)
    ensures AgreesAt(env, StateAfter(env, steps), thread, RunLog(thread, Stream(env, steps)), tool,
                     StoryOf(env, steps, thread, tool))
    decreases |steps|
  {
    if steps != [] {
      hide AgreesAt, Project, LogFrom, Starting, Using, Continue, ToolOf;
      var before, last := steps[..|steps| - 1], steps[|steps| - 1];
      RunAgrees(env, before, thread, tool);
      var p := StateAfter(env, before);
      LogConcat(thread, [], Stream(env, before), Project(env, p, last.event, last.order).1);
      StepAgrees(env, p, last, thread, RunLog(thread, Stream(env, before)), tool, StoryOf(env, before, thread, tool));
    }
  }

  // ---- main results ----

  /**
   Whatever the updates were, a receiver that appends results and replaces on tool text holds exactly their
   fold, bounded to 64 KiB, with no half-received value, as long as none of them named a sub-agent.
   */
  lemma ToolTextRefined(env: Environment, steps: seq<Step>, thread: Id, tool: Id)
    requires env.RoundTrips() && thread in StateAfter(env, steps).runs
    requires !StoryOf(env, steps, thread, tool).named
    ensures Receive(env, tool, NOTHING, RunLog(thread, Stream(env, steps)))
            == Held(StoryOf(env, steps, thread, tool).text, map[])
    ensures |StoryOf(env, steps, thread, tool).text| <= MAX_TOOL_TOTAL_BYTES
  {
    hide StateAfter, Stream, StoryOf, RunLog, Lives, Revised;
    RunAgrees(env, steps, thread, tool);
  }

  /** A tool that was never classified as a sub-agent never named one. */
  lemma NeverClassifiedNeverNamed(env: Environment, steps: seq<Step>, thread: Id, tool: Id)
    requires thread in StateAfter(env, steps).runs
    requires !ToolOf(StateAfter(env, steps).runs[thread], tool).subagent
    ensures !StoryOf(env, steps, thread, tool).named && !StoryOf(env, steps, thread, tool).diverted
  {
    hide StateAfter, Stream, StoryOf, RunLog, Revised;
    RunAgrees(env, steps, thread, tool);
  }

  /** In an open run, a tool that was not classified while its call was open has begun once, and ended at most once. */
  lemma OpenToolLives(env: Environment, steps: seq<Step>, thread: Id, tool: Id)
    requires thread in StateAfter(env, steps).runs
    ensures Lives(ToolOf(StateAfter(env, steps).runs[thread], tool), Trace(RunLog(thread, Stream(env, steps)), tool),
                  StoryOf(env, steps, thread, tool).diverted)
  {
    hide StateAfter, Stream, StoryOf, RunLog, Lives, Revised;
    RunAgrees(env, steps, thread, tool);
  }

  // ---- the end of the run ----

  /** Closing the run ends this call. */
  predicate EndsAtClose(tools: map<Id, ToolState>, tool: Id) {
    tool in tools && !tools[tool].ended && !tools[tool].subagent
  }

  lemma EndTrace(tool: Id, other: Id)
    ensures Trace([ToolEnd(other)], tool) == if other == tool then [EndMark] else []
  {
    assert [ToolEnd(other)][..0] == [];
  }

  lemma {:induction false} EndMarksAtClose(tools: map<Id, ToolState>, order: seq<Id>, tool: Id)
    requires forall i, j :: 0 <= i < j < |order| ==> order[i] != order[j]
    ensures Trace(ToolEnds(tools, order), tool) == if tool in order && EndsAtClose(tools, tool) then [EndMark] else []
    decreases |order|
  {
    if order != [] {
      hide Trace, ToolEnds;
      var before, last := order[..|order| - 1], order[|order| - 1];
      EndMarksAtClose(tools, before, tool);
      assert order == before + [last];
      ToolEndsMore(tools, before, last);
      TraceConcat(ToolEnds(tools, before), [ToolEnd(last)], tool);
      EndTrace(tool, last);
      assert Trace(ToolEnds(tools, before), tool) + [] == Trace(ToolEnds(tools, before), tool);
    } else {
      NoTrace(tool);
    }
  }

  lemma {:induction false} ToolEndsStartNothing(tools: map<Id, ToolState>, order: seq<Id>)
    ensures NoStart(ToolEnds(tools, order))
    decreases |order|
  {
    if order != [] {
      ToolEndsStartNothing(tools, order[..|order| - 1]);
    }
  }

  lemma LaneEndsForeign(run: RunState, tool: Id)
    ensures Elsewhere(LaneEnds(run), tool)
  {
  }

  lemma CloseTrace(run: RunState, order: seq<Id>, tool: Id)
    requires Enumerates(order, run.tools.Keys)
    ensures NoStart(CloseEvents(run, order))
    ensures Trace(CloseEvents(run, order), tool)
            == if EndsAtClose(run.tools, tool) then [EndMark] else []
  {
    hide Trace, ToolEnds, LaneEnds, AllForeign;
    EndMarksAtClose(run.tools, order, tool);
    ToolEndsStartNothing(run.tools, order);
    LaneEndsForeign(run, tool);
    assert tool in run.tools.Keys <==> tool in order;
    TraceConcat(LaneEnds(run), ToolEnds(run.tools, order), tool);
    ForeignNoTrace(LaneEnds(run), tool);
  }

  lemma {:induction false} ForeignNoTrace(events: seq<Event>, tool: Id)
    requires AllForeign(events, tool)
    ensures Trace(events, tool) == []
    decreases |events|
  {
    if events != [] {
      ForeignNoTrace(events[..|events| - 1], tool);
    }
  }

  lemma WholeCallEnds(trace: seq<Mark>)
    ensures WholeCall(trace) ==> EndMark in trace
  {
    if WholeCall(trace) {
      assert trace[..3][2] == EndMark;
    }
  }

  /** Closing completes a call exactly when no update diverted it while it was open. */
  lemma ClosingCompletes(t: ToolState, trace: seq<Mark>, diverted: bool)
    requires t.started && Lives(t, trace, diverted)
    ensures WholeCall(trace + if !t.ended && !t.subagent then [EndMark] else []) <==> !diverted
  {
    WholeCallEnds(trace);
    assert trace + [] == trace;
  }

  lemma CloseAgrees(env: Environment, run: RunState, log: seq<Event>, first: seq<Event>, order: seq<Id>, tool: Id, story: Story)
    requires Agrees(env, run, log, tool, story) && tool in run.tools && Silent(first)
    requires Enumerates(order, run.tools.Keys) && run.tools[tool].started
    ensures WholeCall(Trace(log + first + CloseEvents(run, order), tool)) <==> !story.diverted
  {
    hide Trace, CloseEvents, WholeCall, Lives, Revised, Silent, AllForeign, Receive;
    SilentForeign(first, tool);
    TraceConcat(log, first, tool);
    TraceConcat(log + first, CloseEvents(run, order), tool);
    ForeignNoTrace(first, tool);
    CloseTrace(run, order, tool);
    ClosingCompletes(run.tools[tool], Trace(log, tool), story.diverted);
    assert Trace(log, tool) + [] == Trace(log, tool);
  }

  /** Every tool the projector keeps for a run has been started. */
  lemma {:induction false} KnownToolsStarted(env: Environment, steps: seq<Step>, thread: Id, tool: Id)
    requires thread in StateAfter(env, steps).runs && tool in StateAfter(env, steps).runs[thread].tools
    ensures StateAfter(env, steps).runs[thread].tools[tool].started
    decreases |steps|
  {
    var before, last := steps[..|steps| - 1], steps[|steps| - 1];
    var p := StateAfter(env, before);
    if thread in p.runs && tool in p.runs[thread].tools {
      KnownToolsStarted(env, before, thread, tool);
    }
    hide Project, StateAfter, Aside, Starting, Speaking, Using, Finishing, LogFrom, Say, UpdateTool, Silent;
    FiveKinds(p, last.event, thread);
    StartedAfter(env, p, last, thread, tool);
    assert StateAfter(env, steps) == Project(env, p, last.event, last.order).0 by {
      StateUnfolds(env, steps);
    }
  }

  lemma StateUnfolds(env: Environment, steps: seq<Step>)
    requires steps != []
    ensures var last := steps[|steps| - 1];
            StateAfter(env, steps) == Project(env, StateAfter(env, steps[..|steps| - 1]), last.event, last.order).0
  {
  }

  lemma StartedAfter(env: Environment, p: Projector, s: Step, thread: Id, tool: Id)
    requires thread in p.runs && tool in p.runs[thread].tools ==> p.runs[thread].tools[tool].started
    ensures var p' := Project(env, p, s.event, s.order).0;
            thread in p'.runs && tool in p'.runs[thread].tools ==> p'.runs[thread].tools[tool].started
  {
    FiveKinds(p, s.event, thread);
    KindsApart(p, s.event, thread);
    hide Project, LogFrom, Aside, Starting, Speaking, Using, Finishing, Say, UpdateTool, Silent;
    if Starting(s.event, thread) {
      StartIsStart(s.event, thread);
      StartLogged(env, p, thread, s.event.run, s.event.turn, s.order, []);
    } else if Using(p, s.event, thread) {
      var _ := UseLogged(env, p, s.event, s.order, thread, []);
      UpdateFlags(env, ToolOf(p.runs[thread], s.event.update.tool), s.event.update);
    } else if Speaking(p, s.event, thread) {
      var c := s.event;
      SpeakingIsSpeech(p, c, thread);
      var _ := SpeakLogged(env, p, c, s.order, thread, []);
      SaidForeign(env, p.runs[thread], c.role, c.message, c.content, c.block, tool);
    } else if Finishing(p, s.event, thread) {
      var _, _ := FinishLogged(env, p, s.event, s.order, thread, []);
    } else {
      var _ := AsideLogged(env, p, s.event, s.order, thread, []);
    }
  }

  lemma StartIsStart(c: Canonical, thread: Id)
    requires Starting(c, thread)
    ensures c.RunStarted? && c == RunStarted(thread, c.run, c.turn)
  {
  }

  lemma SpeakingIsSpeech(p: Projector, c: Canonical, thread: Id)
    requires Speaking(p, c, thread)
    ensures c.MessageChunk? && thread in p.runs
  {
  }

  lemma TerminalTrace(terminal: Event, tool: Id)
    requires terminal.RunFinishedEvent? || terminal.RunErrorEvent?
    ensures Trace([terminal], tool) == []
  {
    assert [terminal][..0] == [];
  }

  lemma ClosedLogWhole(env: Environment, run: RunState, log: seq<Event>, first: seq<Event>, order: seq<Id>,
                       terminal: Event, tool: Id, story: Story)
    requires Agrees(env, run, log, tool, story) && tool in run.tools && Silent(first)
    requires Enumerates(order, run.tools.Keys) && run.tools[tool].started
    requires terminal.RunFinishedEvent? || terminal.RunErrorEvent?
    ensures WholeCall(Trace(log + first + CloseEvents(run, order) + [terminal], tool)) <==> !story.diverted
  {
    hide Trace, WholeCall, CloseEvents, Agrees, Enumerates, Silent;
    CloseAgrees(env, run, log, first, order, tool, story);
    var closed := log + first + CloseEvents(run, order);
    TraceConcat(closed, [terminal], tool);
    TerminalTrace(terminal, tool);
    assert Trace(closed, tool) + [] == Trace(closed, tool);
  }

  /**
   When a run finishes or fails, every tool call in it has been started, given its arguments and ended, once each
   and in that order, with results only after the end, exactly when no update of the tool classified it as a
   sub-agent while the call was open.
   */
  lemma FinishedToolsWhole(env: Environment, steps: seq<Step>, last: Step, thread: Id, tool: Id)
    requires Finishing(StateAfter(env, steps), last.event, thread)
    requires Enumerates(last.order, StateAfter(env, steps).runs[thread].tools.Keys)
    requires tool in StateAfter(env, steps).runs[thread].tools
    ensures WholeCall(Trace(RunLog(thread, Stream(env, steps + [last])), tool))
            <==> !StoryOf(env, steps, thread, tool).diverted
  {
    RunAgrees(env, steps, thread, tool);
    KnownToolsStarted(env, steps, thread, tool);
    StreamGrows(env, steps, last);
    hide StateAfter, Stream, StoryOf, Project, LogFrom, Trace, WholeCall, CloseEvents, Agrees, Enumerates, Silent;
    var p, log := StateAfter(env, steps), RunLog(thread, Stream(env, steps));
    var first, terminal := FinishLogged(env, p, last.event, last.order, thread, log);
    LogConcat(thread, [], Stream(env, steps), Project(env, p, last.event, last.order).1);
    CloseTrace(p.runs[thread], last.order, tool);
    ClosedLogWhole(env, p.runs[thread], log, first, last.order, terminal, tool, StoryOf(env, steps, thread, tool));
  }

  lemma StreamGrows(env: Environment, steps: seq<Step>, last: Step)
    ensures Stream(env, steps + [last])
            == Stream(env, steps) + Project(env, StateAfter(env, steps), last.event, last.order).1
  {
    assert (steps + [last])[..|steps|] == steps;
  }

  lemma {:induction false} ToolEndsNotReceived(env: Environment, tools: map<Id, ToolState>, order: seq<Id>, tool: Id, h: Held)
    ensures Receive(env, tool, h, ToolEnds(tools, order)) == h
    decreases |order|
  {
    if order != [] {
      var before, last := order[..|order| - 1], order[|order| - 1];
      ToolEndsNotReceived(env, tools, before, tool, h);
      ToolEndsMore(tools, before, last);
      assert order == before + [last];
      ReceiveConcat(env, tool, h, ToolEnds(tools, before), [ToolEnd(last)]);
      CallEventsNotReceived(env, tool, h, [ToolEnd(last)]);
      hide Receive, ToolEnds;
    }
  }

  /** The end of a run leaves the receiver's text as it is. */
  lemma FinishKeepsToolText(env: Environment, steps: seq<Step>, last: Step, thread: Id, tool: Id)
    requires Finishing(StateAfter(env, steps), last.event, thread)
    ensures Receive(env, tool, NOTHING, RunLog(thread, Stream(env, steps + [last])))
            == Receive(env, tool, NOTHING, RunLog(thread, Stream(env, steps)))
  {
    StreamGrows(env, steps, last);
    hide StateAfter, Stream, Project, LogFrom, Receive, Silent, AllForeign, LaneEnds, ToolEnds;
    var p, log := StateAfter(env, steps), RunLog(thread, Stream(env, steps));
    var run := p.runs[thread];
    ToolEndsStartNothing(run.tools, last.order);
    LaneEndsForeign(run, tool);
    var first, terminal := FinishLogged(env, p, last.event, last.order, thread, log);
    LogConcat(thread, [], Stream(env, steps), Project(env, p, last.event, last.order).1);
    SilentForeign(first, tool);
    ClosingNotReceived(env, tool, Receive(env, tool, NOTHING, log), first, run, last.order, terminal);
    var more := first + CloseEvents(run, last.order) + [terminal];
    assert log + more == log + first + CloseEvents(run, last.order) + [terminal];
    ReceiveConcat(env, tool, NOTHING, log, more);
  }

  lemma ClosingNotReceived(env: Environment, tool: Id, h: Held, first: seq<Event>, run: RunState, order: seq<Id>, terminal: Event)
    requires AllForeign(first, tool) && (terminal.RunFinishedEvent? || terminal.RunErrorEvent?)
    ensures Receive(env, tool, h, first + CloseEvents(run, order) + [terminal]) == h
  {
    LaneEndsForeign(run, tool);
    assert AllForeign([terminal], tool);
    hide Receive, AllForeign, LaneEnds, ToolEnds;
    ReceiveConcat(env, tool, h, first + CloseEvents(run, order), [terminal]);
    ReceiveConcat(env, tool, h, first, CloseEvents(run, order));
    ReceiveConcat(env, tool, h, LaneEnds(run), ToolEnds(run.tools, order));
    ForeignIgnored(env, tool, h, first);
    ForeignIgnored(env, tool, h, LaneEnds(run));
    ToolEndsNotReceived(env, run.tools, order, tool, h);
    ForeignIgnored(env, tool, h, [terminal]);
  }

  lemma SupersededLogged(env: Environment, p: Projector, last: Step, thread: Id, log: seq<Event>) returns (first: seq<Event>)
    requires Starting(last.event, thread) && thread in p.runs && NoStart(CloseEvents(p.runs[thread], last.order))
    ensures var events := Project(env, p, last.event, last.order).1;
            && |events| > 0 && events[|events| - 1].event.RunStartedEvent? && Silent(first)
            && LogFrom(thread, log, events[..|events| - 1])
               == log + first + CloseEvents(p.runs[thread], last.order) + [RunErrorEvent(true)]
  {
    StartEvents(env, p, last, thread);
    hide LogFrom, ProgressEvents, Supersede, CloseEvents, Project, NoStart, Silent;
    var progress, closed := ProgressEvents(env, p.links, last.event), Supersede(p, thread, last.order);
    first := ProgressLogged(env, p, last.event, thread, log);
    ClosedLogged(p, thread, last.order, log + first);
    LogConcat(thread, log, progress, closed);
  }

  /** The events of a start: progress, the end of the old run, and last the new run. */
  lemma StartEvents(env: Environment, p: Projector, last: Step, thread: Id)
    requires Starting(last.event, thread)
    ensures var events := Project(env, p, last.event, last.order).1;
            && |events| > 0 && events[|events| - 1].event.RunStartedEvent?
            && events[..|events| - 1] == ProgressEvents(env, p.links, last.event) + Supersede(p, thread, last.order)
  {
    hide ProgressEvents, LinksAfterProgress, Supersede;
    var c := last.event;
    var q := p.(links := LinksAfterProgress(env, p.links, c));
    var started := Wrap(thread, c.run, Some(c.turn), [RunStartedEvent]);
    SupersedeIgnoresLinks(p, q, thread, last.order);
    assert Project(env, p, c, last.order).1
        == ProgressEvents(env, p.links, c) + (Supersede(p, thread, last.order) + started);
  }

  lemma SupersedeIgnoresLinks(p: Projector, q: Projector, thread: Id, order: seq<Id>)
    requires q.runs == p.runs
    ensures Supersede(q, thread, order) == Supersede(p, thread, order)
  {
  }

  lemma ClosedLogged(p: Projector, thread: Id, order: seq<Id>, log: seq<Event>)
    requires thread in p.runs && NoStart(CloseEvents(p.runs[thread], order))
    ensures LogFrom(thread, log, Supersede(p, thread, order))
            == log + CloseEvents(p.runs[thread], order) + [RunErrorEvent(true)]
  {
    hide LogFrom, CloseEvents;
    var run := p.runs[thread];
    var closing := CloseEvents(run, order);
    LogInside(thread, log, run.runId, run.turn, closing + [RunErrorEvent(true)]);
    assert log + (closing + [RunErrorEvent(true)]) == log + closing + [RunErrorEvent(true)];
  }

  /** What the thread's subscriber has just before a superseding run starts. */
  lemma SupersededStream(env: Environment, steps: seq<Step>, last: Step, thread: Id) returns (first: seq<Event>)
    requires Starting(last.event, thread) && thread in StateAfter(env, steps).runs
    requires NoStart(CloseEvents(StateAfter(env, steps).runs[thread], last.order))
    ensures var stream := Stream(env, steps + [last]);
            && |stream| > 0 && stream[|stream| - 1].event.RunStartedEvent? && Silent(first)
            && RunLog(thread, stream[..|stream| - 1])
               == RunLog(thread, Stream(env, steps)) + first
                  + CloseEvents(StateAfter(env, steps).runs[thread], last.order) + [RunErrorEvent(true)]
  {
    StreamGrows(env, steps, last);
    hide StateAfter, Stream, Project, LogFrom, CloseEvents, Silent, NoStart, Starting;
    var p, stream := StateAfter(env, steps), Stream(env, steps);
    first := SupersededLogged(env, p, last, thread, RunLog(thread, stream));
    var events := Project(env, p, last.event, last.order).1;
    ButLast(stream, events);
    LogConcat(thread, [], stream, events[..|events| - 1]);
  }

  lemma ButLast(a: seq<Envelope>, b: seq<Envelope>)
    requires b != []
    ensures (a + b)[..|a + b| - 1] == a + b[..|b| - 1] && (a + b)[|a + b| - 1] == b[|b| - 1]
  {
  }

  /** The same for a run that another one supersedes: the calls are whole before the new run starts. */
  lemma SupersededToolsWhole(env: Environment, steps: seq<Step>, last: Step, thread: Id, tool: Id)
    requires Starting(last.event, thread) && thread in StateAfter(env, steps).runs
    requires Enumerates(last.order, StateAfter(env, steps).runs[thread].tools.Keys)
    requires tool in StateAfter(env, steps).runs[thread].tools
    ensures var stream := Stream(env, steps + [last]);
            && |stream| > 0 && stream[|stream| - 1].event.RunStartedEvent?
            && (WholeCall(Trace(RunLog(thread, stream[..|stream| - 1]), tool))
                <==> !StoryOf(env, steps, thread, tool).diverted)
  {
    hide StateAfter, Stream, StoryOf, LogFrom, Trace, WholeCall, CloseEvents, Agrees, Enumerates, Silent, Starting, RunLog;
    RunAgrees(env, steps, thread, tool);
    KnownToolsStarted(env, steps, thread, tool);
    var run := StateAfter(env, steps).runs[thread];
    CloseTrace(run, last.order, tool);
    var first := SupersededStream(env, steps, last, thread);
    ClosedLogWhole(env, run, RunLog(thread, Stream(env, steps)), first, last.order, RunErrorEvent(true), tool,
                   StoryOf(env, steps, thread, tool));
  }
}
