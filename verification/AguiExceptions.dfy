/**
 Inputs that reach the exceptions: a user message under an agent message's id, a tool that turns out
 to be a sub-agent while its call is open, and text that still fits after a message was cut.
 */
module AguiExceptions {
  import opened Wrappers
  import opened Utf8
  import opened AguiEvents
  import opened AguiStructured
  import opened AguiProjection
  import opened AguiLog
  import opened AguiLanes
  import opened AguiTools
  import opened AguiToolRuns
  import opened AguiMessages
  import Outline = AguiOutline
  import Links = AguiLinks

  const BEGIN: Step := Step(RunStarted(1, 1, 1), [])
  const LETTER: Text := [0x61]

  function Chunk(role: Role, id: Id, content: Text): Canonical {
    MessageChunk(1, None, None, role, id, content, None)
  }

  lemma StateGrows(env: Environment, steps: seq<Step>, last: Step)
    ensures StateAfter(env, steps + [last]) == Project(env, StateAfter(env, steps), last.event, last.order).0
  {
    assert (steps + [last])[..|steps|] == steps;
  }

  lemma AfterBegin(env: Environment)
    ensures StateAfter(env, [BEGIN]).runs == map[1 := NewRun(1, 1)]
  {
    StateGrows(env, [], BEGIN);
    hide Project;
    assert [] + [BEGIN] == [BEGIN];
    StartLogged(env, NEW_PROJECTOR, 1, 1, 1, [], []);
  }

  lemma AfterChunk(env: Environment, steps: seq<Step>, role: Role, id: Id, content: Text)
    requires 1 in StateAfter(env, steps).runs && content != []
    ensures var p, p' := StateAfter(env, steps), StateAfter(env, steps + [Step(Chunk(role, id, content), [])]);
            p'.runs == p.runs[1 := Say(env, p.runs[1], role, id, content, None).0]
  {
    StateGrows(env, steps, Step(Chunk(role, id, content), []));
    hide Project, Say, StateAfter;
    var _ := SpeakLogged(env, StateAfter(env, steps), Chunk(role, id, content), [], 1, []);
  }

  /**
   The agent speaks, and then the user under the same id: the stream is broken. The projector takes any ids; the
   bridge gives agent messages ids that end in "::agent", so a user id would have to end like that too.
   */
  lemma SameIdBreaksStream(env: Environment)
    ensures var steps := [BEGIN] + [Step(Chunk(Agent, 5, LETTER), [])] + [Step(Chunk(User, 5, LETTER), [])];
            Watch(1, Idle, Stream(env, steps)) == Broken
  {
    var before := [BEGIN] + [Step(Chunk(Agent, 5, LETTER), [])];
    var steps := before + [Step(Chunk(User, 5, LETTER), [])];
    AfterBegin(env);
    AfterChunk(env, [BEGIN], Agent, 5, LETTER);
    AgentOpens(env, NewRun(1, 1), 5, LETTER);
    hide StateAfter, Watch, Say, Stream;
    assert steps[..2] == before;
    assert ClashAt(env, steps, 1, 2);
    StreamWellFormed(env, steps, 1);
  }

  lemma AgentOpens(env: Environment, run: RunState, id: Id, content: Text)
    ensures var run' := Say(env, run, Agent, id, content, None).0;
            run'.openMessage == Some(id) && run'.openUser == None && run'.runId == run.runId && run'.turn == run.turn
  {
    hide Heard, Cut, UsedBytes, ContentEvents;
  }

  // ---- a tool that turns out to be a sub-agent ----

  const PLAIN: ToolUpdate := ToolUpdate(1, 7, false, LETTER, InProgress, Unchanged, Unchanged, Unchanged)
  const TASK: ToolUpdate := PLAIN.(subagentTitle := true, status := Completed)

  function Update(u: ToolUpdate): Step { Step(Tool(1, None, None, u), []) }

  lemma AfterUpdate(env: Environment, steps: seq<Step>, u: ToolUpdate)
    requires 1 in StateAfter(env, steps).runs
    ensures var p, p' := StateAfter(env, steps), StateAfter(env, steps + [Update(u)]);
            p'.runs == p.runs[1 := RunAfterTool(env, p.runs[1], u)]
    ensures StoryOf(env, steps + [Update(u)], 1, u.tool)
            == Continue(env, StoryOf(env, steps, 1, u.tool), ToolOf(StateAfter(env, steps).runs[1], u.tool), u)
  {
    StateGrows(env, steps, Update(u));
    assert (steps + [Update(u)])[..|steps|] == steps;
    hide Project, StateAfter, RunAfterTool, ToolOf, Continue;
    var _ := UseLogged(env, StateAfter(env, steps), Update(u).event, [], 1, []);
  }

  /** After the plain update the call is open, and the second update diverts it. */
  lemma TaskDivertsPlain(env: Environment)
    ensures var run := RunAfterTool(env, NewRun(1, 1), PLAIN);
            && ToolOf(run, 7) == UpdateTool(env, NEW_TOOL, PLAIN).state
            && Diverts(env, ToolOf(run, 7), TASK)
  {
    UpdateFlags(env, NEW_TOOL, PLAIN);
    hide UpdateTool, SubagentIn, NewContent, UpdateResult;
  }

  lemma AfterPlainAndTask(env: Environment)
    ensures var steps := [BEGIN] + [Update(PLAIN)] + [Update(TASK)];
            && StoryOf(env, steps, 1, 7).diverted
            && 1 in StateAfter(env, steps).runs && StateAfter(env, steps).runs[1].runId == 1
            && StateAfter(env, steps).runs[1].tools.Keys == {7}
  {
    AfterBegin(env);
    AfterUpdate(env, [BEGIN], PLAIN);
    AfterUpdate(env, [BEGIN] + [Update(PLAIN)], TASK);
    TaskDivertsPlain(env);
    hide StateAfter, StoryOf, UpdateTool, Diverts, SubagentIn, NewContent, NextText;
  }

  /** A call is announced, and the next update classifies the tool: the finished run has no end for it. */
  lemma ReclassifiedToolNeverEnds(env: Environment)
    ensures var steps := [BEGIN] + [Update(PLAIN)] + [Update(TASK)];
            !WholeCall(Trace(RunLog(1, Stream(env, steps + [Step(RunFinished(1, 1, 1), [7])])), 7))
  {
    AfterPlainAndTask(env);
    hide StateAfter, StoryOf, Trace, WholeCall, Stream, RunLog, Update;
    var steps := [BEGIN] + [Update(PLAIN)] + [Update(TASK)];
    assert Enumerates([7], {7});
    FinishedToolsWhole(env, steps, Step(RunFinished(1, 1, 1), [7]), 1, 7);
  }

  // ---- text after a cut ----

  /** All but two bytes of the budget, and then a scalar of four bytes. */
  function Long(): seq<Byte> {
    seq(MAX_MESSAGE_TOTAL_BYTES - 2, _ => 0x61) + [0xF0, 0x9F, 0x9A, 0x80]
  }

  lemma LongIsText()
    ensures Valid(Long()) && |LongestPrefix(Long(), MAX_MESSAGE_TOTAL_BYTES)| == MAX_MESSAGE_TOTAL_BYTES - 2
  {
    var s, n := Long(), MAX_MESSAGE_TOTAL_BYTES - 2;
    assert s[n] == 0xF0 && s[n + 1] == 0x9F && s[n + 2] == 0x9A && s[n + 3] == 0x80;
    assert ScalarLen(s, n) == 4;
    forall i | 0 <= i < |s| && !Continuation(s[i]) ensures ScalarAt(s, i) {
      assert i <= n;
      if i < n {
        assert s[i] == 0x61;
        assert ScalarLen(s, i) == 1;
      }
    }
    assert !IsBoundary(s, n + 2) && !IsBoundary(s, n + 1) && IsBoundary(s, n);
  }

  /** A scalar does not fit and is cut, and then a letter does: what was passed on is no prefix of what was received. */
  lemma LaterLetterSlipsThrough(env: Environment)
    ensures Valid(Long())
    ensures var steps := [BEGIN] + [Step(Chunk(Agent, 5, Long()), [])] + [Step(Chunk(Agent, 5, LETTER), [])];
            !(Emitted(RunLog(1, Stream(env, steps)), 5) <= SpeechOf(env, steps, 1, 5).received)
  {
    LongIsText();
    hide Valid;
    var long: Text := Long();
    var first, second := Step(Chunk(Agent, 5, long), []), Step(Chunk(Agent, 5, LETTER), []);
    var steps := [BEGIN] + [first] + [second];
    AfterBegin(env);
    AfterChunk(env, [BEGIN], Agent, 5, long);
    AfterChunk(env, [BEGIN] + [first], Agent, 5, LETTER);
    SpeechGrows(env, [BEGIN], long);
    SpeechGrows(env, [BEGIN] + [first], LETTER);
    FirstHeard(env, long);
    hide StateAfter, SpeechOf, Say, Stream, Emitted, Long, LongestPrefix;
    PrefixIffNothingLate(env, steps, 1, 5);
  }

  lemma SpeechGrows(env: Environment, steps: seq<Step>, content: Text)
    requires 1 in StateAfter(env, steps).runs && content != []
    ensures SpeechOf(env, steps + [Step(Chunk(Agent, 5, content), [])], 1, 5)
            == Hear(SpeechOf(env, steps, 1, 5), StateAfter(env, steps).runs[1], 5, content)
  {
    assert (steps + [Step(Chunk(Agent, 5, content), [])])[..|steps|] == steps;
    hide StateAfter, Hear;
  }

  /** After the long chunk two bytes are left, and the letter takes one. */
  lemma FirstHeard(env: Environment, long: Text)
    requires long == Long()
    ensures var run := Say(env, NewRun(1, 1), Agent, 5, long, None).0;
            && |Heard(NewRun(1, 1), 5, long)| == MAX_MESSAGE_TOTAL_BYTES - 2 && |long| == MAX_MESSAGE_TOTAL_BYTES + 2
            && Heard(run, 5, LETTER) == LETTER
  {
    LongIsText();
    var blank := NewRun(1, 1);
    SayEmitted(env, blank, Agent, 5, long, None, 5);
    hide Say, Long, Valid;
  }

  // ---- a superseded run is still told ----

  function Naming(text: Text): Step {
    Update(PLAIN.(content := Set(text)))
  }

  lemma NamingLinks(env: Environment, p: Projector, text: Text, task: Task)
    requires |text| <= MAX_TOOL_TOTAL_BYTES && env.parseTask(text) == Some(task)
    requires env.childThread(1, task.session) == Some(9) && !env.endsTask(task.state)
    requires p.runs == map[1 := NewRun(1, 1)]
    ensures Links.Links(env, p, Naming(text).event, 9, Link(1, 1, Some(1), 7, 9))
  {
    assert LongestPrefix(text, MAX_TOOL_TOTAL_BYTES) == text;
  }

  const NEXT: Step := Step(RunStarted(1, 2, 2), [7])

  /** A tool names a sub-agent, its run is superseded, and the sub-agent's progress still goes to that run. */
  lemma SupersededRunIsTold(env: Environment, text: Text, task: Task)
    requires |text| <= MAX_TOOL_TOTAL_BYTES && env.parseTask(text) == Some(task)
    requires env.childThread(1, task.session) == Some(9) && !env.endsTask(task.state)
    ensures var steps := [BEGIN] + [Naming(text)] + [NEXT];
            var told := Envelope(1, InRun(1), Some(1), Activity(7, Some(9), RunningStatus));
            && 1 in Outline.OpenRuns(steps) && Outline.OpenRuns(steps)[1].run == 2
            && told in Project(env, StateAfter(env, steps), RunStarted(9, 5, 5), []).1
  {
    var link := Link(1, 1, Some(1), 7, 9);
    var steps := [BEGIN] + [Naming(text)] + [NEXT];
    NextIsOpen(text);
    AfterBegin(env);
    NamingLinks(env, StateAfter(env, [BEGIN]), text, task);
    hide Project, StateAfter, Links.Links, Links.Linked, Naming, Outline.OpenRuns;
    StateGrows(env, [BEGIN], Naming(text));
    StateGrows(env, [BEGIN] + [Naming(text)], NEXT);
    Links.StepLinks(env, StateAfter(env, [BEGIN]), Naming(text).event, Naming(text).order, 9, link);
    Links.StartKeepsLinks(env, StateAfter(env, [BEGIN] + [Naming(text)]), 1, 2, 2, [7], 9, link);
    Links.ProgressTold(env, steps, Step(RunStarted(9, 5, 5), []), link);
  }

  lemma NextIsOpen(text: Text)
    ensures var steps := [BEGIN] + [Naming(text)] + [NEXT];
            1 in Outline.OpenRuns(steps) && Outline.OpenRuns(steps)[1].run == 2
  {
    var steps := [BEGIN] + [Naming(text)] + [NEXT];
    assert steps[|steps| - 1] == NEXT;
  }
}
