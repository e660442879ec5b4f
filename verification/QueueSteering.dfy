/**
 Who owns a steer in flight. While the drain that handed a steer over is the only one that settles it,
 every message reaches the agent at most once. The one step that breaks this is a verification error
 of another drain while the slot is filled.
 */
module QueueSteering {
  import opened Wrappers
  import opened QueueRuntime
  import opened QueueMachine
  import opened QueueRuns

  /** The slot is filled exactly while one drain waits for the reply to that very message. */
  ghost predicate Owned(m: Machine) {
    && (m.rt.steerDispatchInFlight.Some? <==> exists t :: IsSent(m, t))
    && (forall t, u :: IsSent(m, t) && IsSent(m, u) ==> t == u)
    && (forall t :: IsSent(m, t) ==> m.rt.steerDispatchInFlight.Some?
                                     && m.rt.steerDispatchInFlight.value.entry == m.tasks[t].dispatch.entry)
  }

  /** A verification error that finds the slot filled takes the steer away from its owner. */
  predicate TakesOver(m: Machine, s: Step) {
    s.VerifyEpoch? && s.verdict.VerifyError? && TaskAt(m, s.task) == Some(Verifying) && m.rt.steerDispatchInFlight.Some?
  }

  /** The slot's message and the drains that wait for a reply are as they were. */
  ghost predicate SteersSame(m: Machine, m': Machine) {
    && Slot(m'.rt) == Slot(m.rt)
    && (forall t :: IsSent(m', t) <==> IsSent(m, t))
    && (forall t :: IsSent(m, t) ==> m'.tasks[t] == m.tasks[t])
  }

  lemma SteersSameKeepsOwned(m: Machine, m': Machine)
    requires Owned(m) && SteersSame(m, m')
    ensures Owned(m')
  {
    assert m.rt.steerDispatchInFlight.Some? <==> Slot(m.rt) != [];
    assert m'.rt.steerDispatchInFlight.Some? <==> Slot(m'.rt) != [];
    if m.rt.steerDispatchInFlight.Some? {
      var t :| IsSent(m, t);
      assert IsSent(m', t);
      assert Slot(m.rt)[0] == Slot(m'.rt)[0];
    }
  }

  lemma CallsKeepSteers(m: Machine, s: Step)
    requires Guarded(m)
    requires s.Send? || s.SendCommit? || s.SendReply? || s.CancelMessage? || s.Hydrate? || s.SteerMessage?
    ensures SteersSame(m, Apply(m, s))
  {
    hide QueuedBytes, IndexOf, Without;
  }

  lemma CompletionsKeepSteers(m: Machine, s: Step)
    requires s.DrainQueue? || s.DrainReply? || s.CompletionNoted? || s.EventRunEnded?
    ensures SteersSame(m, Apply(m, s))
  {
    hide DisposedAll;
  }

  lemma UnderKeepsSteers(m: Machine, r: Runtime)
    requires QueueUntouched(m.rt, r)
    ensures SteersSame(m, Under(m, r))
  {
  }

  lemma EventsKeepSteers(m: Machine, s: Step)
    requires OtherEvent(s)
    ensures SteersSame(m, Apply(m, s))
  {
    hide SteersSame, Under, RunStarted, Tool, QueueUntouched;
    NothingKeepsSteers(m, s);
    match s {
      case EventRunStarted(turn, run, generation) =>
        RunStartedUntouched(m.rt, turn, run, generation);
        UnderKeepsSteers(m, RunStarted(m.rt, turn, run, generation));
      case EventTool(toolId, turn, run, generation, status) =>
        ToolUntouched(m.rt, toolId, turn, run, generation, status);
        UnderKeepsSteers(m, Tool(m.rt, toolId, turn, run, generation, status));
      case _ =>
        RequestsUntouched(m, s);
    }
  }

  lemma NothingKeepsSteers(m: Machine, s: Step)
    ensures SteersSame(m, m)
    ensures s.OtherThreadAllocates? ==> SteersSame(m, m.(nextId := m.nextId + s.ids))
  {
  }

  lemma RequestsUntouched(m: Machine, s: Step)
    requires s.EventApprovalRequested? || s.EventApprovalResolved? || s.EventInputRequested? || s.EventInputResolved?
             || s.OtherThreadAllocates?
    ensures SteersSame(m, Apply(m, s))
  {
    hide SteersSame, Under;
    NothingKeepsSteers(m, s);
    match s {
      case EventApprovalRequested(id) => UnderKeepsSteers(m, ApprovalRequested(m.rt, id));
      case EventApprovalResolved(id) => UnderKeepsSteers(m, ApprovalResolved(m.rt, id));
      case EventInputRequested(id) => UnderKeepsSteers(m, UserInputRequested(m.rt, id));
      case EventInputResolved(id) => UnderKeepsSteers(m, UserInputResolved(m.rt, id));
      case OtherThreadAllocates(_) =>
    }
  }

  lemma PreparesKeepSteers(m: Machine, s: Step)
    requires s.SpawnSteerDrain? || s.PrepareBegin? || s.PrepareEnd?
    ensures SteersSame(m, Apply(m, s))
  {
    hide MayPrepareSteer;
    assert Slot(Apply(m, s).rt) == Slot(m.rt);
    hide BeginSteerPrepare, FinishSteerPrepare, Slot;
  }

  lemma VerifyKeepsSteers(m: Machine, t: nat, verdict: Verdict, message: Name)
    requires !TakesOver(m, VerifyEpoch(t, verdict, message))
    ensures SteersSame(m, DoVerify(m, t, verdict, message))
  {
  }

  /** A verification error keeps the ownership of the slot exactly when the slot is empty. */
  lemma VerifyErrorKeepsOwnershipIff(m: Machine, t: nat, message: Name)
    requires Owned(m) && TaskAt(m, t) == Some(Verifying)
    ensures Owned(Apply(m, VerifyEpoch(t, VerifyError, message))) <==> m.rt.steerDispatchInFlight.None?
  {
    var m' := DoVerify(m, t, VerifyError, message);
    if m.rt.steerDispatchInFlight.None? {
      VerifyKeepsSteers(m, t, VerifyError, message);
      SteersSameKeepsOwned(m, m');
    } else {
      var u :| IsSent(m, u);
      assert IsSent(m', u);
    }
  }

  lemma HandOverKeepsOwned(m: Machine, t: nat)
    requires Owned(m)
    ensures Owned(DoHandOver(m, t))
  {
    var m' := DoHandOver(m, t);
    if m.actor.Free? && TaskAt(m, t) == Some(Verified) {
      if MayHandOverSteer(m.rt) {
        assert forall u :: u != t ==> !IsSent(m', u);
        assert IsSent(m', t);
      } else {
        SteersSameKeepsOwned(m, m');
      }
    }
  }

  lemma SettledKeepsOwned(m: Machine, m': Machine, t: nat)
    requires Owned(m) && IsSent(m, t)
    requires m'.rt.steerDispatchInFlight.None?
    requires forall u :: u != t ==> (IsSent(m', u) <==> IsSent(m, u))
    requires !IsSent(m', t)
    ensures Owned(m')
  {
  }

  lemma PromptFailedKeepsOwned(m: Machine, t: nat, message: Name)
    requires Owned(m)
    ensures Owned(DoPromptFailed(m, t, message))
  {
    if IsSent(m, t) {
      SettledKeepsOwned(m, DoPromptFailed(m, t, message), t);
    }
  }

  lemma SteerReplyKeepsOwned(m: Machine, t: nat, error: Option<Name>)
    requires Owned(m)
    ensures Owned(DoSteerReply(m, t, error))
  {
    if m.actor.Free? && IsSent(m, t) {
      SettledKeepsOwned(m, DoSteerReply(m, t, error), t);
    }
  }

  lemma StepKeepsOwned(m: Machine, s: Step)
    requires Guarded(m) && Owned(m) && !TakesOver(m, s)
    ensures Owned(Apply(m, s))
  {
    hide Owned, Guarded, SteersSame, TakesOver, DoVerify, DoHandOver, DoPromptFailed, DoSteerReply;
    match s {
      case HandOver(t) => HandOverKeepsOwned(m, t);
      case PromptFailed(t, message) => PromptFailedKeepsOwned(m, t, message);
      case SteerReply(t, error) => SteerReplyKeepsOwned(m, t, error);
      case VerifyEpoch(t, verdict, message) =>
        VerifyKeepsSteers(m, t, verdict, message);
        SteersSameKeepsOwned(m, DoVerify(m, t, verdict, message));
      case _ =>
        hide Apply;
        if s.SpawnSteerDrain? || s.PrepareBegin? || s.PrepareEnd? {
          PreparesKeepSteers(m, s);
        } else if s.DrainQueue? || s.DrainReply? || s.CompletionNoted? || s.EventRunEnded? {
          CompletionsKeepSteers(m, s);
        } else if OtherEvent(s) {
          EventsKeepSteers(m, s);
        } else {
          CallsKeepSteers(m, s);
        }
        SteersSameKeepsOwned(m, Apply(m, s));
    }
  }

  /** No verification error of the run finds the slot filled. */
  ghost predicate NoTakeOver(steps: seq<Step>) {
    forall n :: 0 <= n < |steps| ==> !TakesOver(Run(steps[..n]), steps[n])
  }

  /** The agent took exactly the messages that the queue counts as delivered. */
  ghost predicate TakenOnce(h: History) {
    h.agentTook == multiset(h.delivered)
  }

  lemma StepTakenOnce(m: Machine, s: Step)
    requires Owned(m) && TakenOnce(m.hist)
    ensures TakenOnce(Apply(m, s).hist)
  {
    if s.SteerReply? {
      ReplyTakenOnce(m, s.task, s.steerError);
    } else {
      OthersTakenOnce(m, s);
    }
  }

  lemma ReplyTakenOnce(m: Machine, t: nat, error: Option<Name>)
    requires Owned(m) && TakenOnce(m.hist)
    ensures TakenOnce(DoSteerReply(m, t, error).hist)
  {
    hide AcknowledgeSteer;
  }

  lemma OthersTakenOnce(m: Machine, s: Step)
    requires TakenOnce(m.hist) && !s.SteerReply?
    ensures TakenOnce(Apply(m, s).hist)
  {
    hide Cancel, Cancelled, Steer, RunStarted, RunEnded, Tool, BeginDrain, FinishDrain, AcknowledgeSteer, FailSteer;
    hide FinishSteerPrepare, HandOverSteer, NextDispatch, FinishTurnStart, Hydrated, DisposedAll, Admissible, Enqueue;
    hide DoSteerReply, ShouldDispatch, ShouldWaitForSteer, MayPrepareSteer, MayHandOverSteer, CompletionAccepted;
  }

  lemma {:induction false} RunOwned(steps: seq<Step>)
    requires NoTakeOver(steps)
    ensures Owned(Run(steps)) && TakenOnce(Run(steps).hist)
    decreases |steps|
  {
    if steps != [] {
      var before := steps[..|steps| - 1];
      assert NoTakeOver(before) by {
        forall n | 0 <= n < |before| ensures !TakesOver(Run(before[..n]), before[n]) {
          assert before[..n] == steps[..n] && before[n] == steps[n];
        }
      }
      hide Apply, Owned, TakenOnce, TakesOver, Guarded, OnePrepare, Balanced, FreshIds, Lanes;
      RunOwned(before);
      RunSane(before);
      assert !TakesOver(Run(before), steps[|before|]);
      StepKeepsOwned(Run(before), steps[|before|]);
      StepTakenOnce(Run(before), steps[|before|]);
    }
  }

  /** Without such an error, the agent takes every message at most once, however the drains interleave. */
  lemma AtMostOnce(steps: seq<Step>, e: Entry)
    requires NoTakeOver(steps)
    ensures Run(steps).hist.agentTook[e] <= 1
  {
    hide Apply, Run, Owned, Guarded, OnePrepare, Lanes;
    RunOwned(steps);
    RunSane(steps);
    var m := Run(steps);
    OfferedAtMostOnce(m.hist.offered, m.nextId, e);
    assert multiset(m.hist.offered)[e] >= multiset(m.hist.delivered)[e];
  }

  lemma OfferedAtMostOnce(offered: seq<Entry>, nextId: nat, e: Entry)
    requires FreshIds(offered, nextId)
    ensures multiset(offered)[e] <= 1
  {
    OfferedOnce(offered, nextId, e);
  }

  // ---- when a steer goes out ----

  lemma SettlingFillsNoSlot(m: Machine, s: Step)
    requires s.VerifyEpoch? || s.PromptFailed? || s.SteerReply?
    requires m.rt.steerDispatchInFlight.None?
    ensures Apply(m, s).rt.steerDispatchInFlight.None?
  {
  }

  lemma SameStepsFillNoSlot(m: Machine, s: Step)
    requires Guarded(m) && !s.HandOver? && !s.VerifyEpoch? && !s.PromptFailed? && !s.SteerReply?
    ensures Slot(Apply(m, s).rt) == Slot(m.rt)
  {
    hide Apply, Guarded, Slot;
    if s.SpawnSteerDrain? || s.PrepareBegin? || s.PrepareEnd? {
      PreparesKeepSteers(m, s);
    } else if s.DrainQueue? || s.DrainReply? || s.CompletionNoted? || s.EventRunEnded? {
      CompletionsKeepSteers(m, s);
    } else if OtherEvent(s) {
      EventsKeepSteers(m, s);
    } else {
      CallsKeepSteers(m, s);
    }
  }

  /**
   Only the hand-over section sends a steer out: the first pending one, tied to the running turn, run and generation,
   and only while no tool call, approval, user input or turn start is outstanding and the generation is live.
   */
  lemma SteerGoesOut(m: Machine, s: Step)
    requires Guarded(m) && m.rt.steerDispatchInFlight.None? && Apply(m, s).rt.steerDispatchInFlight.Some?
    ensures s.HandOver? && m.rt.pendingSteers != [] && Apply(m, s).rt.pendingSteers == m.rt.pendingSteers[1..]
    ensures var d := Apply(m, s).rt.steerDispatchInFlight.value;
            && d.entry == m.rt.pendingSteers[0] && !d.crossedCompletionBoundary
            && m.rt.activeTurnId == Some(d.expectedTurnId) && m.rt.activeRunId == Some(d.expectedRunId)
            && m.rt.activePromptGeneration == Some(d.promptGeneration)
    ensures m.rt.threadRunning && m.rt.liveGenerationKnown && !m.rt.turnStartInFlight
    ensures m.rt.activeToolCallIds == {} && m.rt.pendingApprovalIds == {} && m.rt.pendingUserInputIds == {}
  {
    if s.VerifyEpoch? || s.PromptFailed? || s.SteerReply? {
      SettlingFillsNoSlot(m, s);
    } else if !s.HandOver? {
      SameStepsFillNoSlot(m, s);
    }
    hide Guarded;
  }

  // ---- the error does happen ----

  /** Running on from where a run stopped. */
  function Continue(m: Machine, steps: seq<Step>): Machine
    decreases |steps|
  {
    if steps == [] then m else Continue(Apply(m, steps[0]), steps[1..])
  }

  lemma {:induction false} ContinueIsRunFrom(m: Machine, done: seq<Step>, steps: seq<Step>)
    ensures Continue(RunFrom(m, done), steps) == RunFrom(m, done + steps)
    decreases |steps|
  {
    hide Apply;
    if steps == [] {
      assert done + steps == done;
    } else {
      var more := done + [steps[0]];
      assert more[..|more| - 1] == done;
      ContinueIsRunFrom(m, more, steps[1..]);
      assert more + steps[1..] == done + steps;
    }
  }

  lemma {:induction false} ContinueConcat(m: Machine, a: seq<Step>, b: seq<Step>)
    ensures Continue(m, a + b) == Continue(Continue(m, a), b)
    decreases |a|
  {
    hide Apply;
    if a == [] {
      assert a + b == b;
    } else {
      assert (a + b)[1..] == a[1..] + b;
      ContinueConcat(Apply(m, a[0]), a[1..], b);
    }
  }

  lemma Continue2(m: Machine, a: Step, b: Step)
    ensures Continue(m, [a, b]) == Apply(Apply(m, a), b)
  {
    hide Apply;
    assert [a, b][1..] == [b] && [b][1..] == [];
    assert Continue(Apply(m, a), [b]) == Continue(Apply(Apply(m, a), b), []);
  }

  lemma Continue3(m: Machine, a: Step, b: Step, c: Step)
    ensures Continue(m, [a, b, c]) == Apply(Apply(Apply(m, a), b), c)
  {
    hide Apply;
    assert [a, b, c][1..] == [b, c];
    Continue2(Apply(m, a), b, c);
  }

  const MESSAGE: Entry := Entry(1, [], [])

  /** A running thread in which the one message is pending or in flight. */
  function Running(pending: seq<Entry>, slot: Option<Dispatch>, error: Option<QueueError>): Runtime {
    Runtime([], pending, false, slot, Some(1), Some(1), Some(1), {}, true, true, false, None, {}, {}, [], error)
  }

  predicate Waiting(m: Machine) {
    && m.present && m.actor.Free?
    && m.rt.pendingSteers == [MESSAGE] && m.rt == Running([MESSAGE], None, m.rt.lastError)
  }

  const QUEUE_ONE: seq<Step> := [EventRunStarted(1, 1, 1), Send([], [])]
  const STEER_IT: seq<Step> := [SendCommit, SteerMessage(1)]

  lemma MessageIsQueued()
    ensures var m := Continue(INITIAL, QUEUE_ONE);
            && m.present && m.actor == SendChecked(MESSAGE, true) && m.tasks == map[]
            && m.rt == Running([], None, None) && m.hist.agentTook == multiset{}
            && m.nextId == 2 && m.lastEventId == 0
  {
    Continue2(INITIAL, EventRunStarted(1, 1, 1), Send([], []));
  }

  lemma MessageIsSteered(m: Machine)
    requires m.present && m.actor == SendChecked(MESSAGE, true) && m.rt == Running([], None, None)
    ensures var m' := Continue(m, STEER_IT);
            && Waiting(m') && m'.rt.lastError.None? && m'.tasks == m.tasks && m'.hist.agentTook == m.hist.agentTook
            && m'.nextId == m.nextId && m'.lastEventId == m.lastEventId
  {
    Continue2(m, SendCommit, SteerMessage(1));
    var queued := Apply(m, SendCommit);
    assert queued.rt.items == [MESSAGE];
    assert IndexOf([MESSAGE], 1) == Some(0);
    assert Without([MESSAGE], 0) == [];
  }

  function PrepareDrain(t: nat): seq<Step> { [SpawnSteerDrain(t), PrepareBegin(t), PrepareEnd(t, None)] }

  lemma DrainPrepares(m: Machine, t: nat)
    requires Waiting(m) && m.rt.lastError.None? && t !in m.tasks
    ensures Continue(m, PrepareDrain(t)) == m.(tasks := m.tasks[t := Verifying])
  {
    Continue3(m, SpawnSteerDrain(t), PrepareBegin(t), PrepareEnd(t, None));
    assert m.tasks[t := Top][t := Preparing][t := Verifying] == m.tasks[t := Verifying];
  }

  function HandOverDrain(t: nat): seq<Step> { [VerifyEpoch(t, Current, 0), HandOver(t)] }

  lemma DrainHandsOver(m: Machine, t: nat)
    requires Waiting(m) && TaskAt(m, t) == Some(Verifying)
    ensures var d := Dispatch(MESSAGE, 1, 1, 1, false);
            Continue(m, HandOverDrain(t)) == m.(rt := Running([], Some(d), m.rt.lastError), tasks := m.tasks[t := Sent(d)])
  {
    var verified := m.(tasks := m.tasks[t := Verified]);
    WaitingHandsOver(verified, t);
    var d := Dispatch(MESSAGE, 1, 1, 1, false);
    assert m.tasks[t := Verified][t := Sent(d)] == m.tasks[t := Sent(d)];
    hide DoHandOver, Waiting, Running;
    Continue2(m, VerifyEpoch(t, Current, 0), HandOver(t));
  }

  lemma WaitingHandsOver(m: Machine, t: nat)
    requires Waiting(m) && TaskAt(m, t) == Some(Verified)
    ensures var d := Dispatch(MESSAGE, 1, 1, 1, false);
            DoHandOver(m, t) == m.(rt := Running([], Some(d), m.rt.lastError), tasks := m.tasks[t := Sent(d)])
  {
    assert [MESSAGE][1..] == [];
  }

  function TakeOver(t: nat, owner: nat): seq<Step> { [VerifyEpoch(t, VerifyError, 0), SteerReply(owner, None)] }

  /** The other drain's error puts the message back, and the owner's successful reply then finds nothing to settle. */
  lemma TakenOverReply(m: Machine, t: nat, owner: nat)
    requires m.present && m.actor.Free? && t != owner && TaskAt(m, t) == Some(Verifying)
    requires TaskAt(m, owner) == Some(Sent(Dispatch(MESSAGE, 1, 1, 1, false)))
    requires m.rt == Running([], Some(Dispatch(MESSAGE, 1, 1, 1, false)), m.rt.lastError)
    ensures var m' := Continue(m, TakeOver(t, owner));
            && Waiting(m') && m'.hist.agentTook == m.hist.agentTook + multiset{MESSAGE}
            && m'.tasks == m.tasks - {t} - {owner}
  {
    Continue2(m, VerifyEpoch(t, VerifyError, 0), SteerReply(owner, None));
    assert [MESSAGE] + [] == [MESSAGE];
  }

  lemma OwnedReply(m: Machine, t: nat)
    requires m.actor.Free? && TaskAt(m, t) == Some(Sent(Dispatch(MESSAGE, 1, 1, 1, false)))
    requires m.rt == Running([], Some(Dispatch(MESSAGE, 1, 1, 1, false)), m.rt.lastError)
    ensures Continue(m, [SteerReply(t, None)]).hist.agentTook == m.hist.agentTook + multiset{MESSAGE}
  {
    assert [SteerReply(t, None)][1..] == [];
    assert Continue(m, [SteerReply(t, None)]) == Continue(Apply(m, SteerReply(t, None)), []);
  }

  const TWICE: seq<Step> :=
    QUEUE_ONE + (STEER_IT + (PrepareDrain(1) + (PrepareDrain(2) + (PrepareDrain(3) +
    (HandOverDrain(1) + (TakeOver(2, 1) + (HandOverDrain(3) + [SteerReply(3, None)])))))))

  /** Three drains, one verification error at the wrong moment: the agent takes the same message twice. */
  lemma SomeRunDeliversTwice()
    ensures Run(TWICE).hist.agentTook[MESSAGE] == 2
  {
    hide Apply, Waiting, Running;
    var a := Continue(INITIAL, QUEUE_ONE);
    var b := Continue(a, STEER_IT);
    MessageIsQueued();
    MessageIsSteered(a);
    var c := Continue(b, PrepareDrain(1));
    DrainPrepares(b, 1);
    WaitingKept(b, c);
    var d := Continue(c, PrepareDrain(2));
    DrainPrepares(c, 2);
    WaitingKept(c, d);
    var e := Continue(d, PrepareDrain(3));
    DrainPrepares(d, 3);
    WaitingKept(d, e);
    var f := Continue(e, HandOverDrain(1));
    DrainHandsOver(e, 1);
    RunningError(e);
    var g := Continue(f, TakeOver(2, 1));
    TakenOverReply(f, 2, 1);
    var h := Continue(g, HandOverDrain(3));
    DrainHandsOver(g, 3);
    RunningError(g);
    OwnedReply(h, 3);
    hide PrepareDrain, HandOverDrain, TakeOver, Continue;
    var s8 := [SteerReply(3, None)];
    var s7 := HandOverDrain(3) + s8;
    var s6 := TakeOver(2, 1) + s7;
    var s5 := HandOverDrain(1) + s6;
    var s4 := PrepareDrain(3) + s5;
    var s3 := PrepareDrain(2) + s4;
    var s2 := PrepareDrain(1) + s3;
    ContinueConcat(INITIAL, QUEUE_ONE, STEER_IT + s2);
    ContinueConcat(a, STEER_IT, s2);
    ContinueConcat(b, PrepareDrain(1), s3);
    ContinueConcat(c, PrepareDrain(2), s4);
    ContinueConcat(d, PrepareDrain(3), s5);
    ContinueConcat(e, HandOverDrain(1), s6);
    ContinueConcat(f, TakeOver(2, 1), s7);
    ContinueConcat(g, HandOverDrain(3), s8);
    ContinueIsRunFrom(INITIAL, [], TWICE);
    assert [] + TWICE == TWICE;
  }

  lemma WaitingKept(m: Machine, m': Machine)
    requires Waiting(m) && m' == m.(tasks := m'.tasks)
    ensures Waiting(m')
  {
  }

  lemma RunningError(m: Machine)
    ensures Running([], Some(Dispatch(MESSAGE, 1, 1, 1, false)), m.rt.lastError).lastError == m.rt.lastError
  {
  }
}
