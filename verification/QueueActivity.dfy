/**
 What a thread is busy with, told from the steps alone: the live turn, run and generation, the tools that are running,
 and the approvals and inputs that are outstanding. The runtime always shows exactly this, so its guards mean what they say.
 */
module QueueActivity {
  import opened Wrappers
  import opened Utf8
  import opened QueueRuntime
  import opened QueueMachine
  import opened QueueRuns

  datatype Activity = Activity(
    turn: Option<Name>, run: Option<Name>, generation: Option<nat>, running: bool, live: bool,
    tools: set<Name>, approvals: set<Name>, inputs: set<Name>)

  const NOTHING: Activity := Activity(None, None, None, false, false, {}, {}, {})

  /** The event is about the run that is going on. */
  predicate AboutRun(a: Activity, turn: Option<Name>, run: Option<Name>, generation: Option<nat>) {
    turn == a.turn && run == a.run && generation == a.generation
  }

  /** Listening to one step; of the machine only the lock, the presence and the last event id matter. */
  function Listen(a: Activity, m: Machine, s: Step): Activity {
    match s
    case SendReply(turnId) =>
      if m.actor.SendStarting? && turnId.Some? then a.(turn := turnId, running := true) else a
    case DrainReply(turnId, _) =>
      if m.actor.DrainStarting? && turnId.Some? then a.(turn := turnId, running := true) else a
    case Hydrate(session) =>
      if !m.actor.Free? || m.present then a
      else
        var live := session.generation.Some? && !session.historyReconstruction;
        Activity(session.sourceTurnId, session.runId, session.generation, live, live,
                 session.toolIds, session.approvalIds, session.userInputIds)
    case EventRunStarted(turn, run, generation) =>
      if m.actor.Free? then Activity(Some(turn), Some(run), Some(generation), true, true, {}, a.approvals, a.inputs) else a
    case EventRunEnded(eventId, turn, generation) =>
      if m.actor.Free? && m.lastEventId < eventId && a.turn == Some(turn) && a.generation == Some(generation)
      then NOTHING else a
    case EventTool(tool, turn, run, generation, status) =>
      if !m.actor.Free? || !AboutRun(a, turn, run, generation) then a
      else if status.Pending? || status.InProgress? then a.(tools := a.tools + {tool})
      else if status.Completed? || status.Failed? then a.(tools := a.tools - {tool})
      else a.(live := false)
    case EventApprovalRequested(id) => if m.actor.Free? then a.(approvals := a.approvals + {id}) else a
    case EventApprovalResolved(id) => if m.actor.Free? && m.present then a.(approvals := a.approvals - {id}) else a
    case EventInputRequested(id) => if m.actor.Free? then a.(inputs := a.inputs + {id}) else a
    case EventInputResolved(id) => if m.actor.Free? && m.present then a.(inputs := a.inputs - {id}) else a
    case _ => a
  }

  function Heard(steps: seq<Step>): Activity {
    if steps == [] then NOTHING
    else
      var before := steps[..|steps| - 1];
      Listen(Heard(before), Run(before), steps[|steps| - 1])
  }

  /** The fields of the runtime that the guards look at. */
  function Shown(r: Runtime): Activity {
    Activity(r.activeTurnId, r.activeRunId, r.activePromptGeneration, r.threadRunning, r.liveGenerationKnown,
             r.activeToolCallIds, r.pendingApprovalIds, r.pendingUserInputIds)
  }

  // ---- every step ----

  lemma SendShows(m: Machine, content: seq<Byte>, turnStart: seq<Byte>)
    ensures Shown(DoSend(m, content, turnStart).rt) == Shown(m.rt)
    ensures Shown(DoSendCommit(m).rt) == Shown(m.rt)
  {
    hide QueuedBytes, IsBlockedOrOccupied, Admissible;
  }

  lemma SendReplyShows(m: Machine, turnId: Option<Name>)
    ensures Shown(DoSendReply(m, turnId).rt) == Listen(Shown(m.rt), m, SendReply(turnId))
  {
    hide Took;
  }

  lemma SteerShows(r: Runtime, id: nat)
    ensures Shown(Steer(r, id).0) == Shown(r) && Shown(Cancel(r, id).0) == Shown(r)
  {
    hide IndexOf, Without;
  }

  lemma CallsShow(m: Machine, id: nat, snapshot: SessionSnapshot)
    ensures Shown(Under(m, Steer(m.rt, id).0).rt) == Shown(m.rt)
    ensures Shown(DoCancel(m, id).rt) == Shown(m.rt)
    ensures Shown(DoHydrate(m, snapshot).rt) == Listen(Shown(m.rt), m, Hydrate(snapshot))
  {
    SteerShows(m.rt, id);
    hide Steer, Cancel, Cancelled;
  }

  lemma PreparesShow(m: Machine, t: nat, error: Option<Name>)
    ensures Shown(DoPrepareBegin(m, t).rt) == Shown(m.rt)
    ensures Shown(DoPrepareEnd(m, t, error).rt) == Shown(m.rt)
    ensures Shown(DoHandOver(m, t).rt) == Shown(m.rt)
  {
  }

  lemma FailuresShow(m: Machine, t: nat, verdict: Verdict, message: Name)
    ensures Shown(DoVerify(m, t, verdict, message).rt) == Shown(m.rt)
    ensures Shown(DoPromptFailed(m, t, message).rt) == Shown(m.rt)
  {
  }

  lemma ReplyShows(m: Machine, t: nat, error: Option<Name>)
    ensures Shown(DoSteerReply(m, t, error).rt) == Shown(m.rt)
  {
    AcknowledgeShows(m.rt, m, t, error);
    hide AcknowledgeSteer, Owns;
  }

  lemma AcknowledgeShows(r: Runtime, m: Machine, t: nat, error: Option<Name>)
    ensures IsSent(m, t) ==> Shown(AcknowledgeSteer(r, m.tasks[t].dispatch, error)) == Shown(r)
  {
  }

  lemma BeginDrainShows(r: Runtime)
    ensures Shown(BeginDrain(r).0) == Shown(r) && (BeginDrain(r).1.Blocked? ==> BeginDrain(r).0 == r)
  {
    hide HasBlockers;
  }

  lemma DrainShows(m: Machine)
    ensures Shown(DoDrainQueue(m).rt) == Shown(m.rt)
  {
    BeginDrainShows(m.rt);
    hide DisposedAll, BeginDrain, Shown;
  }

  lemma NotedShows(m: Machine)
    ensures Shown(DoCompletionNoted(m).rt) == Shown(m.rt)
  {
  }

  lemma DrainReplyShows(m: Machine, turnId: Option<Name>, message: Name)
    ensures Shown(DoDrainReply(m, turnId, message).rt) == Listen(Shown(m.rt), m, DrainReply(turnId, message))
  {
    hide DisposedAll, Took;
  }

  lemma RunEndShows(m: Machine, eventId: nat, turn: Name, generation: nat)
    ensures Shown(DoRunEnded(m, eventId, turn, generation).rt) == Listen(Shown(m.rt), m, EventRunEnded(eventId, turn, generation))
  {
    hide Crossed, ShouldDispatch, ShouldWaitForSteer;
  }

  lemma ToolUpdateShows(r: Runtime, toolId: Name, status: ToolStatus)
    ensures Shown(ToolUpdate(r, toolId, status))
            == if status.Pending? || status.InProgress? then Shown(r).(tools := r.activeToolCallIds + {toolId})
               else if status.Completed? || status.Failed? then Shown(r).(tools := r.activeToolCallIds - {toolId})
               else Shown(r).(live := false)
  {
  }

  lemma ToolShows(r: Runtime, m: Machine, toolId: Name, turn: Option<Name>, run: Option<Name>, generation: Option<nat>,
                  status: ToolStatus)
    requires m.actor.Free?
    ensures Shown(Tool(r, toolId, turn, run, generation, status))
            == Listen(Shown(r), m, EventTool(toolId, turn, run, generation, status))
  {
    ToolUpdateShows(r, toolId, status);
    hide ToolUpdate;
  }

  lemma RunEventsShow(m: Machine, s: Step)
    requires s.EventRunStarted? || s.EventTool?
    ensures Shown(Apply(m, s).rt) == Listen(Shown(m.rt), m, s)
  {
    hide Tool;
    if s.EventTool? && m.actor.Free? {
      ToolShows(m.rt, m, s.toolId, s.toolTurn, s.toolRun, s.toolGeneration, s.status);
    }
  }

  lemma RequestsShow(m: Machine, s: Step)
    requires s.EventApprovalRequested? || s.EventApprovalResolved? || s.EventInputRequested? || s.EventInputResolved?
    ensures Shown(Apply(m, s).rt) == Listen(Shown(m.rt), m, s)
  {
  }

  lemma StepShows(m: Machine, s: Step)
    ensures Shown(Apply(m, s).rt) == Listen(Shown(m.rt), m, s)
  {
    if s.EventRunStarted? || s.EventTool? {
      RunEventsShow(m, s);
    } else if s.EventApprovalRequested? || s.EventApprovalResolved? || s.EventInputRequested? || s.EventInputResolved? {
      RequestsShow(m, s);
    } else {
      OtherStepShows(m, s);
    }
  }

  lemma OtherStepShows(m: Machine, s: Step)
    requires !s.EventRunStarted? && !s.EventTool?
    requires !s.EventApprovalRequested? && !s.EventApprovalResolved? && !s.EventInputRequested? && !s.EventInputResolved?
    ensures Shown(Apply(m, s).rt) == Listen(Shown(m.rt), m, s)
  {
    hide Shown, Steer, Under, DoSend, DoSendCommit, DoSendReply, DoCancel, DoHydrate, DoPrepareBegin, DoPrepareEnd;
    hide DoVerify, DoHandOver, DoPromptFailed, DoSteerReply, DoRunEnded, DoCompletionNoted, DoDrainQueue, DoDrainReply;
    match s {
      case Send(content, turnStart) => SendShows(m, content, turnStart);
      case SendCommit => SendShows(m, [], []);
      case SendReply(turnId) => SendReplyShows(m, turnId);
      case Hydrate(snapshot) => CallsShow(m, 0, snapshot);
      case SteerMessage(id) => SteerMessageShows(m, id);
      case CancelMessage(id) => SteerMessageShows(m, id);
      case PrepareBegin(t) => PreparesShow(m, t, None);
      case PrepareEnd(t, error) => PreparesShow(m, t, error);
      case HandOver(t) => PreparesShow(m, t, None);
      case VerifyEpoch(t, verdict, message) => FailuresShow(m, t, verdict, message);
      case PromptFailed(t, message) => FailuresShow(m, t, Current, message);
      case SteerReply(t, error) => ReplyShows(m, t, error);
      case EventRunEnded(eventId, turn, generation) => RunEndShows(m, eventId, turn, generation);
      case CompletionNoted => NotedShows(m);
      case DrainQueue => DrainShows(m);
      case DrainReply(turnId, message) => DrainReplyShows(m, turnId, message);
      case _ =>
    }
  }

  lemma SteerMessageShows(m: Machine, id: nat)
    ensures Shown(Under(m, Steer(m.rt, id).0).rt) == Shown(m.rt)
    ensures Shown(DoCancel(m, id).rt) == Shown(m.rt)
  {
    CallsShow(m, id, SessionSnapshot(None, None, None, {}, false, {}, {}));
  }

  /** After every run the runtime shows what was heard. */
  lemma {:induction false} RunShows(steps: seq<Step>)
    ensures Shown(Run(steps).rt) == Heard(steps)
    decreases |steps|
  {
    if steps != [] {
      hide Apply, Listen, Shown;
      RunShows(steps[..|steps| - 1]);
      StepShows(Run(steps[..|steps| - 1]), steps[|steps| - 1]);
    }
  }

  // ---- which tools are running ----

  /** The step says that the tool is running. */
  predicate SaysRunning(a: Activity, m: Machine, s: Step, tool: Name) {
    && m.actor.Free?
    && (|| (s.EventTool? && s.toolId == tool && AboutRun(a, s.toolTurn, s.toolRun, s.toolGeneration)
            && (s.status.Pending? || s.status.InProgress?))
        || (s.Hydrate? && !m.present && tool in s.snapshot.toolIds))
  }

  /** The step says that it is not: it is done or failed, or a run starts, ends or is read without it. */
  predicate SaysDone(a: Activity, m: Machine, s: Step, tool: Name) {
    && m.actor.Free?
    && (|| (s.EventTool? && s.toolId == tool && AboutRun(a, s.toolTurn, s.toolRun, s.toolGeneration)
            && (s.status.Completed? || s.status.Failed?))
        || s.EventRunStarted?
        || (s.EventRunEnded? && m.lastEventId < s.eventId && a.turn == Some(s.turn) && a.generation == Some(s.generation))
        || (s.Hydrate? && !m.present && tool !in s.snapshot.toolIds))
  }

  /** The last that was said of the tool is that it is running. */
  ghost predicate ToolRuns(steps: seq<Step>, tool: Name) {
    exists n :: 0 <= n < |steps| && LastSaidRunning(steps, n, tool)
  }

  ghost predicate LastSaidRunning(steps: seq<Step>, n: nat, tool: Name)
    requires n < |steps|
  {
    && SaysRunning(Heard(steps[..n]), Run(steps[..n]), steps[n], tool)
    && forall k :: n < k < |steps| ==> !SaysDone(Heard(steps[..k]), Run(steps[..k]), steps[k], tool)
  }

  lemma StepTools(a: Activity, m: Machine, s: Step, tool: Name)
    ensures tool in Listen(a, m, s).tools
            <==> SaysRunning(a, m, s, tool) || (tool in a.tools && !SaysDone(a, m, s, tool))
  {
  }

  lemma ToolRunsNext(steps: seq<Step>, s: Step, tool: Name)
    ensures ToolRuns(steps + [s], tool)
            <==> SaysRunning(Heard(steps), Run(steps), s, tool)
                 || (ToolRuns(steps, tool) && !SaysDone(Heard(steps), Run(steps), s, tool))
  {
    hide Heard, Run, SaysRunning, SaysDone;
    var all, last := steps + [s], |steps|;
    assert forall n :: 0 <= n < last ==> all[..n] == steps[..n] && all[n] == steps[n];
    assert all[..last] == steps && all[last] == s;
    if ToolRuns(all, tool) {
      var n :| 0 <= n < |all| && LastSaidRunning(all, n, tool);
      if n < last {
        assert !SaysDone(Heard(all[..last]), Run(all[..last]), all[last], tool);
        assert LastSaidRunning(steps, n, tool);
      }
    }
    if SaysRunning(Heard(steps), Run(steps), s, tool) {
      assert LastSaidRunning(all, last, tool);
    } else if ToolRuns(steps, tool) && !SaysDone(Heard(steps), Run(steps), s, tool) {
      var n :| 0 <= n < |steps| && LastSaidRunning(steps, n, tool);
      assert LastSaidRunning(all, n, tool);
    }
  }

  /** The tools of the runtime are exactly those that were last said to be running. */
  lemma {:induction false} ToolsAreRunning(steps: seq<Step>, tool: Name)
    ensures tool in Run(steps).rt.activeToolCallIds <==> ToolRuns(steps, tool)
    decreases |steps|
  {
    hide SaysRunning, SaysDone, Listen, Run, ToolRuns, Heard;
    RunShows(steps);
    if steps == [] {
      NoToolYet(tool);
    } else {
      var before, last := steps[..|steps| - 1], steps[|steps| - 1];
      ToolsAreRunning(before, tool);
      RunShows(before);
      StepTools(Heard(before), Run(before), last, tool);
      HeardNext(before, last);
      ToolRunsNext(before, last, tool);
      assert steps == before + [last];
    }
  }

  lemma NoToolYet(tool: Name)
    ensures !ToolRuns([], tool) && Heard([]) == NOTHING
  {
  }

  lemma HeardNext(steps: seq<Step>, s: Step)
    ensures Heard(steps + [s]) == Listen(Heard(steps), Run(steps), s)
  {
    hide Listen, Run;
    assert (steps + [s])[..|steps|] == steps;
  }

  // ---- so the guards mean what they say ----

  predicate LiveRun(a: Activity) {
    a.running && a.live && a.turn.Some? && a.run.Some? && a.generation.Some?
  }

  /**
   A verified drain sends its steer exactly when one is pending and none in flight, the run heard of is live, and no
   tool is running and no approval or input is outstanding; the steer carries the turn, run and generation heard of.
   */
  lemma SteerGoesOutIff(steps: seq<Step>, t: nat)
    requires Run(steps).actor.Free? && TaskAt(Run(steps), t) == Some(Verified)
    ensures var m, m', a := Run(steps), Apply(Run(steps), HandOver(t)), Heard(steps);
            && (IsSent(m', t)
                <==> m.rt.pendingSteers != [] && m.rt.steerDispatchInFlight.None? && LiveRun(a)
                     && (forall tool :: !ToolRuns(steps, tool)) && a.approvals == {} && a.inputs == {})
            && (IsSent(m', t) ==>
                  && m'.rt.steerDispatchInFlight
                     == Some(Dispatch(m.rt.pendingSteers[0], a.turn.value, a.run.value, a.generation.value, false))
                  && m'.rt.pendingSteers == m.rt.pendingSteers[1..])
  {
    RunSane(steps);
    RunShows(steps);
    NoToolRuns(steps);
    hide Run, Heard, ToolRuns, OnePrepare, Balanced, FreshIds, Lanes;
  }

  lemma NoToolRuns(steps: seq<Step>)
    ensures Heard(steps).tools == {} <==> forall tool :: !ToolRuns(steps, tool)
  {
    RunShows(steps);
    hide Run, Heard, ToolRuns;
    forall tool ensures tool in Heard(steps).tools <==> ToolRuns(steps, tool) {
      ToolsAreRunning(steps, tool);
    }
  }

  /** A drain begins to prepare exactly when a steer is pending, none is prepared or in flight, and no tool is running. */
  lemma PrepareBeginsIff(steps: seq<Step>, t: nat)
    requires Run(steps).actor.Free? && TaskAt(Run(steps), t) == Some(Top)
    ensures var m, m', a := Run(steps), Apply(Run(steps), PrepareBegin(t)), Heard(steps);
            IsPreparing(m', t)
            <==> m.rt.pendingSteers != [] && m.rt.steerDispatchInFlight.None? && (forall u :: !IsPreparing(m, u))
                 && a.running && a.live && (forall tool :: !ToolRuns(steps, tool))
  {
    RunSane(steps);
    RunShows(steps);
    NoToolRuns(steps);
    hide Run, Heard, ToolRuns, Balanced, FreshIds, Lanes;
  }

  /** Nothing is going on that a new turn would disturb. */
  ghost predicate Undisturbing(m: Machine, a: Activity) {
    && !a.running && a.approvals == {} && a.inputs == {}
    && m.rt.pendingSteers == [] && m.rt.steerDispatchInFlight.None? && forall t :: !IsPreparing(m, t)
  }

  /** The queue drain starts a turn exactly when nothing is going on and a message is queued: the first one. */
  lemma TurnStartsIff(steps: seq<Step>)
    requires Run(steps).actor.Free?
    ensures var m, m', a := Run(steps), Apply(Run(steps), DrainQueue), Heard(steps);
            && (m'.actor.DrainStarting? <==> Undisturbing(m, a) && m.rt.items != [])
            && (m'.actor.DrainStarting? ==> m'.actor.entry == m.rt.items[0] && m'.rt.items == m.rt.items[1..])
  {
    RunSane(steps);
    RunShows(steps);
    hide Run, Heard, Balanced, FreshIds, Lanes, DisposedAll;
  }

  /** A send queues its message exactly when something is going on or messages wait already. */
  lemma SendWaitsIff(steps: seq<Step>, content: seq<Byte>, turnStart: seq<Byte>)
    requires Run(steps).actor.Free? && Run(steps).present
    ensures var m, m', a := Run(steps), Apply(Run(steps), Send(content, turnStart)), Heard(steps);
            && m'.actor.SendChecked? && m'.actor.entry == Entry(m.nextId, content, turnStart)
            && (m'.actor.blocked <==> !Undisturbing(m, a) || m.rt.items != [])
  {
    RunSane(steps);
    RunShows(steps);
    hide Run, Heard, Balanced, FreshIds, Lanes;
  }

  /** A steer request moves its message behind the pending steers exactly when the run is live and the message queued. */
  lemma SteerRequestIff(steps: seq<Step>, id: nat)
    requires Run(steps).actor.Free? && Run(steps).present
    ensures var m, r', a := Run(steps), Apply(Run(steps), SteerMessage(id)).rt, Heard(steps);
            if LiveRun(a) && exists i :: 0 <= i < |m.rt.items| && m.rt.items[i].id == id
            then exists i :: 0 <= i < |m.rt.items| && m.rt.items[i].id == id
                             && r'.items == m.rt.items[..i] + m.rt.items[i + 1..]
                             && r'.pendingSteers == m.rt.pendingSteers + [m.rt.items[i]]
            else r' == m.rt
  {
    RunSane(steps);
    RunShows(steps);
    hide Run, Heard, Balanced, FreshIds, Lanes, OnePrepare;
    var m := Run(steps);
    var r := Apply(m, SteerMessage(id)).rt;
    if IndexOf(m.rt.items, id).Some? {
      var i := IndexOf(m.rt.items, id).value;
      assert m.rt.items[i].id == id;
    }
  }

  /** What clients are told about steers: one is in flight, or one waits for a tool that is running. */
  lemma SnapshotTellsSteers(steps: seq<Step>)
    ensures var r, p := Run(steps).rt, SnapshotForThread(Run(steps).rt);
            && (p.steeringInFlight <==> r.steerDispatchInFlight.Some?)
            && (p.waitingForToolCalls <==> r.pendingSteers != [] && exists tool :: ToolRuns(steps, tool))
            && p.lastError == r.lastError
  {
    RunShows(steps);
    NoToolRuns(steps);
    hide Run, Heard, ToolRuns;
  }

  // ---- the error on record ----

  /** The error of a steer is about this message. */
  function SteerError(message: Name, item: ErrorItem): Option<QueueError> {
    Some(QueueError(message, SteerOperation, item))
  }

  /**
   The error a step leaves on record: its own when it fails, none when it succeeds or starts something, and otherwise
   the one before.
   */
  function ErrorAfter(m: Machine, s: Step): Option<QueueError> {
    var before := m.rt.lastError;
    match s
    case SendCommit =>
      if !m.actor.SendChecked? || (m.actor.blocked && !Admissible(m.rt, m.actor.entry)) then before else None
    case SendReply(turnId) => if m.actor.SendStarting? && turnId.Some? then None else before
    case SteerMessage(id) => if m.present && m.actor.Free? && Steer(m.rt, id).1.Done? then None else before
    case CancelMessage(id) => if m.actor.Free? && Cancel(m.rt, id).1.Done? then None else before
    case Hydrate(_) => if m.actor.Free? && !m.present then None else before
    case PrepareEnd(t, error) =>
      if m.actor.Free? && IsPreparing(m, t) && error.Some?
      then SteerError(error.value, if m.rt.pendingSteers == [] then NoItem else Item(m.rt.pendingSteers[0].id)) else before
    case VerifyEpoch(t, verdict, message) =>
      if TaskAt(m, t) == Some(Verifying) && verdict.VerifyError? then SteerError(message, PrepareLabel) else before
    case PromptFailed(t, message) =>
      if IsSent(m, t) then SteerError(message, Item(m.tasks[t].dispatch.entry.id)) else before
    case SteerReply(t, error) =>
      if !m.actor.Free? || !IsSent(m, t) || !Owns(m.rt, m.tasks[t].dispatch) then before
      else if error.None? then None
      else SteerError(error.value, Item(m.tasks[t].dispatch.entry.id))
    case EventRunStarted(_, _, _) => if m.actor.Free? then None else before
    case DrainQueue => if m.actor.Free? && !HasBlockers(m.rt) && m.rt.items != [] then None else before
    case DrainReply(turnId, message) =>
      if !m.actor.DrainStarting? then before
      else if turnId.Some? then None
      else Some(QueueError(message, DispatchOperation, Item(m.actor.entry.id)))
    case _ => before
  }

  lemma CallErrors(m: Machine, s: Step)
    requires s.SendCommit? || s.SendReply? || s.Hydrate?
    ensures Apply(m, s).rt.lastError == ErrorAfter(m, s)
  {
    hide Admissible, Took;
  }

  lemma RequestErrors(m: Machine, s: Step)
    requires s.SteerMessage? || s.CancelMessage?
    ensures Apply(m, s).rt.lastError == ErrorAfter(m, s)
  {
    hide IndexOf, Without, Cancelled;
  }

  lemma PrepareErrors(m: Machine, s: Step)
    requires s.PrepareBegin? || s.PrepareEnd? || s.HandOver? || s.SpawnSteerDrain?
    ensures Apply(m, s).rt.lastError == ErrorAfter(m, s)
  {
    hide MayPrepareSteer, MayHandOverSteer, NextDispatch;
  }

  lemma FailureErrors(m: Machine, s: Step)
    requires s.VerifyEpoch? || s.PromptFailed?
    ensures Apply(m, s).rt.lastError == ErrorAfter(m, s)
  {
  }

  lemma ReplyErrors(m: Machine, t: nat, error: Option<Name>)
    ensures DoSteerReply(m, t, error).rt.lastError == ErrorAfter(m, SteerReply(t, error))
  {
  }

  lemma DrainErrors(m: Machine, s: Step)
    requires s.DrainQueue? || s.DrainReply? || s.CompletionNoted?
    ensures Apply(m, s).rt.lastError == ErrorAfter(m, s)
  {
    hide DisposedAll, HasBlockers, Took;
  }

  lemma EventErrors(m: Machine, s: Step)
    requires s.EventRunStarted? || s.EventTool? || s.EventRunEnded?
    ensures Apply(m, s).rt.lastError == ErrorAfter(m, s)
  {
    hide Crossed, ShouldDispatch, ShouldWaitForSteer, DisposedAll;
  }

  lemma OtherErrors(m: Machine, s: Step)
    requires s.Send? || s.EventApprovalRequested? || s.EventApprovalResolved? || s.EventInputRequested?
             || s.EventInputResolved? || s.OtherThreadAllocates?
    ensures Apply(m, s).rt.lastError == ErrorAfter(m, s)
  {
    hide IsBlockedOrOccupied;
  }

  lemma StepErrors(m: Machine, s: Step)
    ensures Apply(m, s).rt.lastError == ErrorAfter(m, s)
  {
    if s.SteerReply? {
      ReplyErrors(m, s.task, s.steerError);
      SteerReplyIsStep(m, s);
    }
    hide Apply, ErrorAfter;
    if s.SendCommit? || s.SendReply? || s.Hydrate? {
      CallErrors(m, s);
    } else if s.SteerMessage? || s.CancelMessage? {
      RequestErrors(m, s);
    } else if s.PrepareBegin? || s.PrepareEnd? || s.HandOver? || s.SpawnSteerDrain? {
      PrepareErrors(m, s);
    } else if s.VerifyEpoch? || s.PromptFailed? {
      FailureErrors(m, s);
    } else if s.DrainQueue? || s.DrainReply? || s.CompletionNoted? {
      DrainErrors(m, s);
    } else if s.EventRunStarted? || s.EventTool? || s.EventRunEnded? {
      EventErrors(m, s);
    } else if !s.SteerReply? {
      OtherErrors(m, s);
    }
  }

  // ---- the way of a drain to its hand-over ----

  /** Step `n` is the last that this drain took, and it left it here. */
  ghost predicate LeftAt(steps: seq<Step>, n: nat, t: nat, task: Task)
    requires n < |steps|
  {
    forall k :: n < k <= |steps| ==> TaskAt(Run(steps[..k]), t) == Some(task)
  }

  lemma WayOfDrain(m: Machine, s: Step, t: nat)
    ensures TaskAt(Apply(m, s), t) == Some(Verified) && TaskAt(m, t) != Some(Verified) ==>
              s.VerifyEpoch? && s.task == t && s.verdict.Current? && TaskAt(m, t) == Some(Verifying)
    ensures TaskAt(Apply(m, s), t) == Some(Verifying) && TaskAt(m, t) != Some(Verifying) ==>
              s.PrepareEnd? && s.task == t && s.prepareError.None? && TaskAt(m, t) == Some(Preparing)
    ensures TaskAt(Apply(m, s), t) == Some(Preparing) && TaskAt(m, t) != Some(Preparing) ==>
              s.PrepareBegin? && s.task == t && TaskAt(m, t) == Some(Top)
    ensures IsSent(Apply(m, s), t) && !IsSent(m, t) ==> s.HandOver? && s.task == t && TaskAt(m, t) == Some(Verified)
  {
    hide Cancel, Cancelled, Steer, RunStarted, RunEnded, Tool, BeginDrain, FinishDrain, AcknowledgeSteer, FailSteer;
    hide FinishTurnStart, Hydrated, DisposedAll, Admissible, Enqueue, MayPrepareSteer, MayHandOverSteer, NextDispatch;
    hide ShouldDispatch, ShouldWaitForSteer, CompletionAccepted, ApprovalRequested, ApprovalResolved, Took;
  }

  /** A drain that may hand over has had its epoch found current, and taken no other step since. */
  lemma {:induction false} VerifiedWasCurrent(steps: seq<Step>, t: nat) returns (n: nat)
    requires TaskAt(Run(steps), t) == Some(Verified)
    ensures n < |steps| && steps[n].VerifyEpoch? && steps[n].task == t && steps[n].verdict.Current?
    ensures TaskAt(Run(steps[..n]), t) == Some(Verifying) && LeftAt(steps, n, t, Verified)
    decreases |steps|
  {
    hide Apply, TaskAt;
    assert steps[..|steps|] == steps;
    if steps == [] {
      NoTasks(t);
    } else {
      var before := steps[..|steps| - 1];
      WayOfDrain(Run(before), steps[|steps| - 1], t);
      if TaskAt(Run(before), t) == Some(Verified) {
        n := VerifiedWasCurrent(before, t);
        assert forall k :: 0 <= k <= |before| ==> steps[..k] == before[..k];
      } else {
        n := |steps| - 1;
      }
    }
  }

  lemma NoTasks(t: nat)
    ensures TaskAt(Run([]), t) == None
  {
  }

  /** And before that it prepared without an error. */
  lemma {:induction false} VerifyingWasPrepared(steps: seq<Step>, t: nat) returns (n: nat)
    requires TaskAt(Run(steps), t) == Some(Verifying)
    ensures n < |steps| && steps[n].PrepareEnd? && steps[n].task == t && steps[n].prepareError.None?
    ensures TaskAt(Run(steps[..n]), t) == Some(Preparing) && LeftAt(steps, n, t, Verifying)
    decreases |steps|
  {
    hide Apply, TaskAt;
    assert steps[..|steps|] == steps;
    if steps == [] {
      NoTasks(t);
    } else {
      var before := steps[..|steps| - 1];
      WayOfDrain(Run(before), steps[|steps| - 1], t);
      if TaskAt(Run(before), t) == Some(Verifying) {
        n := VerifyingWasPrepared(before, t);
        assert forall k :: 0 <= k <= |before| ==> steps[..k] == before[..k];
      } else {
        n := |steps| - 1;
      }
    }
  }

  // ---- how sends and replies come out ----

  /** A send that need not wait starts its turn; one that must is queued if the queue with it is within its bounds, and refused if not. */
  lemma SendComesOut(m: Machine)
    requires m.actor.SendChecked?
    ensures var m', e, items := Apply(m, SendCommit), m.actor.entry, m.rt.items + [m.actor.entry];
            var fits := |items| <= 100 && Length(items) <= 1024 * 1024;
            && (!m.actor.blocked ==>
                  m'.actor == SendStarting(e) && m'.rt.turnStartInFlight && Queue(m'.rt) == Queue(m.rt) && m'.hist == m.hist)
            && (m.actor.blocked && fits ==>
                  m'.actor.Free? && m'.rt.items == items && Slot(m'.rt) == Slot(m.rt)
                  && m'.rt.pendingSteers == m.rt.pendingSteers && m'.hist == m.hist)
            && (m.actor.blocked && !fits ==>
                  m'.actor.Free? && m'.rt == m.rt && m'.hist == m.hist.(rejected := m.hist.rejected + multiset{e}))
  {
    AdmissionIsBound(m.rt, m.actor.entry);
    assert m.rt.items != m.rt.items + [m.actor.entry];
    hide Admissible, Length;
  }

  /** A turn start that succeeds delivers its message; one that fails gives it back to its sender, or to the head of the queue. */
  lemma TurnComesOut(m: Machine, turnId: Option<Name>, message: Name)
    requires TurnStartOutstanding(m.actor)
    ensures var m', e := Apply(m, if m.actor.SendStarting? then SendReply(turnId) else DrainReply(turnId, message)), m.actor.entry;
            && m'.actor.Free? && !m'.rt.turnStartInFlight
            && (turnId.Some? ==>
                  && m'.hist.delivered == m.hist.delivered + [e] && m'.hist.agentTook == m.hist.agentTook + multiset{e}
                  && m'.hist.rejected == m.hist.rejected && Queue(m'.rt) == Queue(m.rt))
            && (turnId.None? ==>
                  && m'.hist.delivered == m.hist.delivered && m'.hist.agentTook == m.hist.agentTook
                  && m'.hist.rejected == (if m.actor.SendStarting? then m.hist.rejected + multiset{e} else m.hist.rejected)
                  && m'.rt.items == if m.actor.SendStarting? then m.rt.items else [e] + m.rt.items)
  {
    hide DisposedAll;
  }

  /** The agent took what a drain sent exactly if its reply is no error; it is delivered exactly if the slot still held it. */
  lemma SteerComesOut(m: Machine, t: nat, error: Option<Name>)
    requires m.actor.Free? && IsSent(m, t)
    ensures var m', d := Apply(m, SteerReply(t, error)), m.tasks[t].dispatch;
            && m'.hist.agentTook == (if error.None? then m.hist.agentTook + multiset{d.entry} else m.hist.agentTook)
            && (m'.hist.delivered == m.hist.delivered
                <==> error.Some? || m.rt.steerDispatchInFlight.None? || m.rt.steerDispatchInFlight.value.entry.id != d.entry.id)
            && (error.Some? && Owns(m.rt, d) ==>
                  m'.rt.steerDispatchInFlight.None? && m.rt.steerDispatchInFlight.value.entry in m'.rt.pendingSteers + m'.rt.items)
  {
    if Owns(m.rt, m.tasks[t].dispatch) && error.Some? {
      var e, r := m.rt.steerDispatchInFlight.value.entry, Apply(m, SteerReply(t, error)).rt;
      assert r.items == [e] + m.rt.items || r.pendingSteers == [e] + m.rt.pendingSteers;
      assert e in [e] + m.rt.items && e in [e] + m.rt.pendingSteers;
    }
  }
}
