/**
 Runs that meet the exceptions of the general results: a failing steer that changes the order of the queue,
 and a completion that is never disposed of.
 */
module QueueExamples {
  import opened Wrappers
  import opened QueueRuntime
  import opened QueueMachine
  import opened QueueRuns
  import opened QueueSteering
  import Completions = QueueCompletions

  const STEER: Dispatch := Dispatch(MESSAGE, 1, 1, 1, false)

  /** A message is queued behind a running turn, steered, and sent to the agent by a drain. */
  const STEER_SENT: seq<Step> := QUEUE_ONE + (STEER_IT + (PrepareDrain(1) + HandOverDrain(1)))

  /** The first message is with the agent. */
  predicate InFlight(m: Machine) {
    && m.present && m.actor.Free? && m.nextId == 2 && m.lastEventId == 0 && m.tasks == map[1 := Sent(STEER)]
    && m.rt == Running([], Some(STEER), None)
  }

  lemma RunIsContinue(steps: seq<Step>)
    ensures Run(steps) == Continue(INITIAL, steps)
  {
    ContinueIsRunFrom(INITIAL, [], steps);
    assert [] + steps == steps;
  }

  lemma SteerIsSent()
    ensures InFlight(Run(STEER_SENT))
  {
    hide Apply, Waiting, Running;
    var a := Continue(INITIAL, QUEUE_ONE);
    var b := Continue(a, STEER_IT);
    MessageIsQueued();
    MessageIsSteered(a);
    var c := Continue(b, PrepareDrain(1));
    DrainPrepares(b, 1);
    WaitingKept(b, c);
    DrainHandsOver(c, 1);
    hide PrepareDrain, HandOverDrain, Continue, Run;
    ContinueConcat(INITIAL, QUEUE_ONE, STEER_IT + (PrepareDrain(1) + HandOverDrain(1)));
    ContinueConcat(a, STEER_IT, PrepareDrain(1) + HandOverDrain(1));
    ContinueConcat(b, PrepareDrain(1), HandOverDrain(1));
    RunIsContinue(STEER_SENT);
    assert map[1 := Verifying][1 := Sent(STEER)] == map[1 := Sent(STEER)];
  }

  /** A completion that arrives now is accepted, seen, and never disposed of, whatever happens later. */
  lemma SomeCompletionIsForgotten(more: seq<Step>)
    ensures Completions.Forgotten(Apply(Run(STEER_SENT), EventRunEnded(1, 1, 1)), 1)
    ensures Completions.Forgotten(RunFrom(Apply(Run(STEER_SENT), EventRunEnded(1, 1, 1)), more), 1)
  {
    SteerIsSent();
    hide Run, Apply, Completions.Forgotten, Guarded;
    Completions.ForgottenIffSteering(STEER_SENT, 1, 1, 1);
    RunSane(STEER_SENT);
    var _ := StepSound(Run(STEER_SENT), EventRunEnded(1, 1, 1));
    Completions.ForgottenForever(Apply(Run(STEER_SENT), EventRunEnded(1, 1, 1)), more, 1);
  }

  const SECOND: Entry := Entry(2, [], [])

  const NEXT_RUN: seq<Step> := [EventRunEnded(1, 1, 1), EventRunStarted(2, 2, 2)]
  const SECOND_SENT: seq<Step> := [Send([], []), SendCommit, SteerMessage(2)]

  /** The steer in flight crossed a completion, and the next run is going. */
  predicate NextRun(m: Machine) {
    && m.present && m.actor.Free? && m.nextId == 2 && m.tasks == map[1 := Sent(STEER)]
    && m.rt.steerDispatchInFlight == Some(STEER.(crossedCompletionBoundary := true))
    && m.rt.pendingSteers == [] && m.rt.items == [] && LiveGeneration(m.rt)
    && !m.rt.turnStartInFlight && m.rt.actionInFlightItemId.None?
  }

  lemma NextRunStarts(m: Machine)
    requires InFlight(m)
    ensures NextRun(Continue(m, NEXT_RUN))
  {
    Continue2(m, EventRunEnded(1, 1, 1), EventRunStarted(2, 2, 2));
  }

  lemma SecondIsSteered(m: Machine)
    requires NextRun(m)
    ensures var m' := Continue(m, SECOND_SENT);
            && Queue(m'.rt) == [MESSAGE, SECOND] && m'.rt.pendingSteers == [SECOND] && m'.rt.items == []
            && m'.actor.Free? && IsSent(m', 1) && m'.tasks[1] == Sent(STEER)
            && m'.rt.steerDispatchInFlight == m.rt.steerDispatchInFlight
  {
    Continue3(m, Send([], []), SendCommit, SteerMessage(2));
    assert IndexOf([SECOND], 2) == Some(0);
    assert Without([SECOND], 0) == [];
    assert Apply(Apply(m, Send([], [])), SendCommit).rt.items == [SECOND];
  }

  lemma FailureReorders(m: Machine)
    requires m.actor.Free? && IsSent(m, 1) && m.tasks[1] == Sent(STEER)
    requires m.rt.steerDispatchInFlight == Some(STEER.(crossedCompletionBoundary := true))
    requires m.rt.pendingSteers == [SECOND] && m.rt.items == []
    ensures Queue(Apply(m, SteerReply(1, Some(0))).rt) == [SECOND, MESSAGE]
  {
  }

  const REORDERING: seq<Step> := STEER_SENT + (NEXT_RUN + SECOND_SENT)

  /** A steer crosses a completion and fails in the next run, with another steer pending: it loses its place. */
  lemma SomeFailureReorders()
    ensures Queue(Run(REORDERING).rt) == [MESSAGE, SECOND]
    ensures Queue(Run(REORDERING + [SteerReply(1, Some(0))]).rt) == [SECOND, MESSAGE]
  {
    hide Apply, InFlight, NextRun, Queue;
    SteerIsSent();
    var m := Run(STEER_SENT);
    NextRunStarts(m);
    var next := Continue(m, NEXT_RUN);
    SecondIsSteered(next);
    NextRunSlot(next);
    FailureReorders(Continue(next, SECOND_SENT));
    RunIsContinue(STEER_SENT);
    RunIsContinue(REORDERING);
    ContinueConcat(INITIAL, STEER_SENT, NEXT_RUN + SECOND_SENT);
    ContinueConcat(m, NEXT_RUN, SECOND_SENT);
    hide Continue, STEER_SENT, NEXT_RUN, SECOND_SENT;
    var all := REORDERING + [SteerReply(1, Some(0))];
    assert all[..|all| - 1] == REORDERING;
  }

  lemma NextRunSlot(m: Machine)
    requires NextRun(m)
    ensures m.rt.steerDispatchInFlight == Some(STEER.(crossedCompletionBoundary := true))
  {
  }
}
