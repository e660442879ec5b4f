/**
 The condition for delivering at most once is exact. After any run without one, the first verification
 error that finds the slot filled can be continued, by ordinary steps, to a run in which the agent has
 taken the message twice.
 */
module QueueTakeOver {
  import opened Wrappers
  import opened QueueRuntime
  import opened QueueMachine
  import opened QueueRuns
  import opened QueueSteering

  // ---- the message is put back, and its owner's reply still comes ----

  /** Nothing is in flight, and this message is the next steer. */
  predicate NextSteer(m: Machine, e: Entry) {
    && m.rt.steerDispatchInFlight.None? && m.rt.actionInFlightItemId.None?
    && m.rt.pendingSteers != [] && m.rt.pendingSteers[0] == e
  }

  predicate FreeOrQueueing(a: Actor) {
    a.Free? || (a.SendChecked? && a.blocked)
  }

  lemma TakeOverPutsBack(m: Machine, s: Step)
    requires Guarded(m) && TakesOver(m, s)
    ensures var m' := Apply(m, s);
            && NextSteer(m', m.rt.steerDispatchInFlight.value.entry) && FreeOrQueueing(m'.actor)
            && m'.hist == m.hist && (forall o :: IsSent(m, o) ==> IsSent(m', o) && m'.tasks[o] == m.tasks[o])
  {
  }

  lemma CommitFrees(m: Machine, e: Entry)
    requires NextSteer(m, e) && FreeOrQueueing(m.actor)
    ensures var m' := Apply(m, SendCommit);
            NextSteer(m', e) && m'.actor.Free? && m'.tasks == m.tasks && m'.hist.agentTook == m.hist.agentTook
  {
    hide QueuedBytes;
  }

  lemma OwnerReplies(m: Machine, o: nat, e: Entry)
    requires NextSteer(m, e) && m.actor.Free? && IsSent(m, o) && m.tasks[o].dispatch.entry == e
    ensures var m' := Apply(m, SteerReply(o, None));
            NextSteer(m', e) && m'.actor.Free? && m'.hist.agentTook == m.hist.agentTook + multiset{e}
  {
  }

  lemma PrepareSettles(m: Machine, e: Entry) returns (p: nat)
    requires NextSteer(m, e) && m.actor.Free? && OnePrepare(m)
    ensures var m' := Apply(m, PrepareEnd(p, None));
            && NextSteer(m', e) && m'.actor.Free? && !m'.rt.steerPrepareInFlight
            && m'.hist == m.hist && m'.lastEventId == m.lastEventId
  {
    if m.rt.steerPrepareInFlight {
      p :| IsPreparing(m, p);
    } else {
      p := 0;
      assert !IsPreparing(m, p);
    }
  }

  // ---- a run comes and goes, and the message is steered again ----

  /** The message heads the queue of an idle thread. */
  predicate HeadsIdleQueue(m: Machine, e: Entry) {
    && m.present && m.actor.Free? && m.rt.items != [] && m.rt.items[0] == e && m.rt.pendingSteers == []
    && m.rt.steerDispatchInFlight.None? && m.rt.actionInFlightItemId.None? && !m.rt.steerPrepareInFlight
    && m.rt.pendingApprovalIds == {} && m.rt.pendingUserInputIds == {}
  }

  function RunPasses(eventId: nat): seq<Step> {
    [EventRunStarted(1, 1, 1), EventRunEnded(eventId, 1, 1), CompletionNoted]
  }

  lemma RunPromotes(m: Machine, e: Entry)
    requires NextSteer(m, e) && m.actor.Free? && !m.rt.steerPrepareInFlight
    ensures var m' := Continue(m, RunPasses(m.lastEventId + 1));
            HeadsIdleQueue(m', e) && m'.hist.agentTook == m.hist.agentTook
  {
    Continue3(m, EventRunStarted(1, 1, 1), EventRunEnded(m.lastEventId + 1, 1, 1), CompletionNoted);
    var started := Apply(m, EventRunStarted(1, 1, 1));
    StartedIsLive(m);
    EndedHeads(started, e, m.lastEventId + 1);
    hide Apply, HeadsIdleQueue;
  }

  lemma StartedIsLive(m: Machine)
    requires m.actor.Free?
    ensures var m' := Apply(m, EventRunStarted(1, 1, 1));
            && m'.actor.Free? && m'.present && m'.hist == m.hist && m'.lastEventId == m.lastEventId && m'.tasks == m.tasks
            && m'.rt == RunStarted(m.rt, 1, 1, 1)
  {
  }

  lemma EndedHeads(m: Machine, e: Entry, eventId: nat)
    requires NextSteer(m, e) && m.actor.Free? && !m.rt.steerPrepareInFlight && m.lastEventId < eventId
    requires m.rt.activeTurnId == Some(1) && m.rt.activePromptGeneration == Some(1)
    ensures var m' := Apply(Apply(m, EventRunEnded(eventId, 1, 1)), CompletionNoted);
            HeadsIdleQueue(m', e) && m'.hist.agentTook == m.hist.agentTook
  {
  }

  /** The message is the only pending steer of a live run, and nothing is in its way. */
  predicate MayGo(m: Machine, e: Entry) {
    && m.present && m.actor.Free? && m.rt.pendingSteers == [e] && MayPrepareSteer(m.rt) && MayHandOverSteer(m.rt)
    && m.rt.lastError.None?
  }

  lemma SteeredAgain(m: Machine, e: Entry)
    requires HeadsIdleQueue(m, e)
    ensures var m' := Continue(m, [EventRunStarted(1, 1, 1), SteerMessage(e.id)]);
            MayGo(m', e) && m'.hist.agentTook == m.hist.agentTook
  {
    Continue2(m, EventRunStarted(1, 1, 1), SteerMessage(e.id));
    StartedIsLive(m);
    var started := Apply(m, EventRunStarted(1, 1, 1));
    assert IndexOf(started.rt.items, e.id) == Some(0);
    SteerMakesReady(started, e);
    hide Apply, MayGo;
  }

  lemma SteerMakesReady(m: Machine, e: Entry)
    requires m.present && m.actor.Free? && m.rt.items != [] && m.rt.items[0] == e && m.rt.pendingSteers == []
    requires LiveGeneration(m.rt) && !m.rt.turnStartInFlight && m.rt.actionInFlightItemId.None?
    requires m.rt.steerDispatchInFlight.None? && !m.rt.steerPrepareInFlight && m.rt.activeToolCallIds == {}
    requires m.rt.pendingApprovalIds == {} && m.rt.pendingUserInputIds == {}
    requires IndexOf(m.rt.items, e.id) == Some(0)
    ensures var m' := Apply(m, SteerMessage(e.id));
            MayGo(m', e) && m'.hist.agentTook == m.hist.agentTook
  {
    hide IndexOf, Without;
    assert [] + [e] == [e];
  }

  // ---- a fresh drain delivers it ----

  lemma GoesThroughPrepare(m: Machine, e: Entry, k: nat)
    requires MayGo(m, e) && k !in m.tasks
    ensures var m' := Continue(m, PrepareDrain(k));
            MayGo(m', e) && TaskAt(m', k) == Some(Verifying) && m'.hist.agentTook == m.hist.agentTook
  {
    hide MayHandOverSteer;
    Continue3(m, SpawnSteerDrain(k), PrepareBegin(k), PrepareEnd(k, None));
    PreparedUnchanged(m.rt);
  }

  lemma PreparedUnchanged(r: Runtime)
    requires MayPrepareSteer(r)
    ensures FinishSteerPrepare(BeginSteerPrepare(r), None) == r
  {
  }

  lemma GoesOut(m: Machine, e: Entry, k: nat)
    requires MayGo(m, e) && TaskAt(m, k) == Some(Verifying)
    ensures var m' := Continue(m, HandOverDrain(k));
            && m'.actor.Free? && IsSent(m', k) && m'.tasks[k].dispatch.entry == e
            && m'.rt.steerDispatchInFlight == Some(m'.tasks[k].dispatch) && m'.hist.agentTook == m.hist.agentTook
  {
    hide MayPrepareSteer;
    Continue2(m, VerifyEpoch(k, Current, 0), HandOver(k));
  }

  lemma IsTaken(m: Machine, e: Entry, k: nat)
    requires m.actor.Free? && IsSent(m, k) && m.tasks[k].dispatch.entry == e
    ensures Continue(m, [SteerReply(k, None)]).hist.agentTook == m.hist.agentTook + multiset{e}
  {
    assert [SteerReply(k, None)][1..] == [];
    assert Continue(m, [SteerReply(k, None)]) == Continue(Apply(m, SteerReply(k, None)), []);
  }

  function Redeliver(e: Entry, eventId: nat, k: nat): seq<Step> {
    RunPasses(eventId) + ([EventRunStarted(1, 1, 1), SteerMessage(e.id)]
    + (PrepareDrain(k) + (HandOverDrain(k) + [SteerReply(k, None)])))
  }

  lemma Redelivers(m: Machine, e: Entry) returns (k: nat)
    requires NextSteer(m, e) && m.actor.Free? && !m.rt.steerPrepareInFlight
    ensures Continue(m, Redeliver(e, m.lastEventId + 1, k)).hist.agentTook == m.hist.agentTook + multiset{e}
  {
    hide Apply, NextSteer, HeadsIdleQueue, MayGo, Continue, PrepareDrain, HandOverDrain, RunPasses;
    var again := [EventRunStarted(1, 1, 1), SteerMessage(e.id)];
    var a := Continue(m, RunPasses(m.lastEventId + 1));
    RunPromotes(m, e);
    var b := Continue(a, again);
    SteeredAgain(a, e);
    k := Unused(b.tasks.Keys);
    var c := Continue(b, PrepareDrain(k));
    GoesThroughPrepare(b, e, k);
    var d := Continue(c, HandOverDrain(k));
    GoesOut(c, e, k);
    IsTaken(d, e, k);
    var s1 := [SteerReply(k, None)];
    var s2 := HandOverDrain(k) + s1;
    var s3 := PrepareDrain(k) + s2;
    ContinueConcat(c, HandOverDrain(k), s1);
    ContinueConcat(b, PrepareDrain(k), s2);
    ContinueConcat(a, again, s3);
    ContinueConcat(m, RunPasses(m.lastEventId + 1), again + s3);
  }

  // ---- the whole continuation ----

  function Replies(o: nat, p: nat): seq<Step> {
    [SendCommit, SteerReply(o, None), PrepareEnd(p, None)]
  }

  /** After a take-over of an owned steer, some continuation without another one makes the agent take it twice. */
  lemma TakenTwice(m: Machine, s: Step) returns (more: seq<Step>)
    requires Sane(m) && Owned(m) && TakesOver(m, s)
    ensures var e := m.rt.steerDispatchInFlight.value.entry;
            Continue(Apply(m, s), more).hist.agentTook == m.hist.agentTook + multiset{e} + multiset{e}
    ensures forall i :: 0 <= i < |more| ==> !IsVerifyError(more[i])
  {
    var e := m.rt.steerDispatchInFlight.value.entry;
    var o :| IsSent(m, o);
    TakeOverPutsBack(m, s);
    var a := Apply(m, s);
    var b := Apply(a, SendCommit);
    CommitFrees(a, e);
    var c := Apply(b, SteerReply(o, None));
    assert IsSent(b, o) && b.tasks[o] == m.tasks[o];
    OwnerReplies(b, o, e);
    hide Apply, TakesOver, NextSteer, Continue, Sane, FreeOrQueueing, Redeliver, Owned;
    SaneAfter(m, s, SendCommit, SteerReply(o, None));
    var p := PrepareSettles(c, e);
    Continue3(a, SendCommit, SteerReply(o, None), PrepareEnd(p, None));
    var d := Apply(c, PrepareEnd(p, None));
    var k := Redelivers(d, e);
    more := Replies(o, p) + Redeliver(e, d.lastEventId + 1, k);
    ContinueConcat(a, Replies(o, p), Redeliver(e, d.lastEventId + 1, k));
    RedeliverHasNoError(e, d.lastEventId + 1, k);
  }

  lemma SaneAfter(m: Machine, s1: Step, s2: Step, s3: Step)
    requires Sane(m)
    ensures OnePrepare(Apply(Apply(Apply(m, s1), s2), s3))
  {
    hide Apply, Guarded, OnePrepare, Balanced, FreshIds, HasEffect, LateFailure, Lanes;
    var _ := StepSane(m, s1);
    var _ := StepSane(Apply(m, s1), s2);
    var _ := StepSane(Apply(Apply(m, s1), s2), s3);
  }

  predicate IsVerifyError(s: Step) {
    s.VerifyEpoch? && s.verdict.VerifyError?
  }

  lemma RedeliverHasNoError(e: Entry, eventId: nat, k: nat)
    ensures forall i :: 0 <= i < |Redeliver(e, eventId, k)| ==> !IsVerifyError(Redeliver(e, eventId, k)[i])
  {
  }

  // ---- exactness ----

  ghost predicate DeliversTwice(steps: seq<Step>) {
    exists e :: Run(steps).hist.agentTook[e] >= 2
  }

  /** No step of the continuation is a take-over. */
  ghost predicate NoTakeOverAfter(steps: seq<Step>, more: seq<Step>) {
    forall n :: 0 <= n < |more| ==> !TakesOver(Run(steps + more[..n]), more[n])
  }

  lemma NoTakeOverConcat(steps: seq<Step>, s: Step, more: seq<Step>)
    requires NoTakeOver(steps) && !TakesOver(Run(steps), s) && NoTakeOverAfter(steps + [s], more)
    ensures NoTakeOver(steps + [s] + more)
  {
    hide TakesOver, Run;
    var all := steps + [s] + more;
    forall n | 0 <= n < |all| ensures !TakesOver(Run(all[..n]), all[n]) {
      if n < |steps| {
        assert all[..n] == steps[..n];
      } else if n == |steps| {
        assert all[..n] == steps;
      } else {
        var k := n - |steps| - 1;
        assert all[..n] == steps + [s] + more[..k];
      }
    }
  }

  lemma RunContinues(steps: seq<Step>, s: Step, more: seq<Step>)
    ensures Run(steps + [s] + more) == Continue(Apply(Run(steps), s), more)
  {
    hide Apply;
    ContinueIsRunFrom(INITIAL, steps + [s], more);
    assert (steps + [s])[..|steps|] == steps;
  }

  /**
   A step after a run without take-overs can lead to a message being taken twice, with no take-over later,
   if and only if it is one.
   */
  lemma TakeOverIsExact(steps: seq<Step>, s: Step)
    requires NoTakeOver(steps)
    ensures TakesOver(Run(steps), s)
            <==> exists more :: NoTakeOverAfter(steps + [s], more) && DeliversTwice(steps + [s] + more)
  {
    if TakesOver(Run(steps), s) {
      var more := SomeContinuation(steps, s);
    } else {
      hide Run, NoTakeOver, TakesOver, NoTakeOverAfter;
      forall more | NoTakeOverAfter(steps + [s], more) ensures !DeliversTwice(steps + [s] + more) {
        NoTakeOverConcat(steps, s, more);
        forall e ensures Run(steps + [s] + more).hist.agentTook[e] <= 1 {
          AtMostOnce(steps + [s] + more, e);
        }
      }
    }
  }

  lemma SomeContinuation(steps: seq<Step>, s: Step) returns (more: seq<Step>)
    requires NoTakeOver(steps) && TakesOver(Run(steps), s)
    ensures NoTakeOverAfter(steps + [s], more) && DeliversTwice(steps + [s] + more)
  {
    hide Run, Sane, Owned, NoTakeOver, Apply, Continue;
    RunSane(steps);
    RunOwned(steps);
    more := TakenTwice(Run(steps), s);
    RunContinues(steps, s, more);
    var e := Run(steps).rt.steerDispatchInFlight.value.entry;
    assert Run(steps + [s] + more).hist.agentTook[e] >= 2;
  }
}
