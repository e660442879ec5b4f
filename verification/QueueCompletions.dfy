/**
 What becomes of completions. Over every run a completion event is given at most one disposition,
 and it is called continued only when a queued message was handed over after it and accepted.
 */
module QueueCompletions {
  import opened Wrappers
  import opened QueueRuntime
  import opened QueueMachine
  import opened QueueRuns

  ghost predicate Seen(log: seq<Observation>, id: nat, before: nat)
    requires before <= |log|
  {
    exists i :: 0 <= i < before && log[i] == CompletionSeen(id)
  }

  /** A turn handed over at h, after the completion, was accepted at a, and the disposition came after that. */
  predicate Witnessed(log: seq<Observation>, k: nat, h: nat, a: nat)
    requires k < |log|
  {
    h < a < k && log[h].TurnHandedOver? && log[a] == TurnAccepted(log[h].entry)
  }

  ghost predicate Justified(log: seq<Observation>, k: nat)
    requires k < |log| && log[k].Disposed?
  {
    exists h: nat, a: nat :: Witnessed(log, k, h, a) && Seen(log, log[k].eventId, h)
  }

  predicate Distinct(ids: seq<nat>) {
    forall i, j :: 0 <= i < j < |ids| ==> ids[i] != ids[j]
  }

  /** No event id is disposed of twice, none that still waits was, and none that was not seen yet. */
  ghost predicate Once(log: seq<Observation>, ids: seq<nat>, last: nat) {
    && Distinct(ids)
    && (forall i :: 0 <= i < |ids| ==> ids[i] <= last)
    && (forall k :: 0 <= k < |log| && log[k].Disposed? ==> log[k].eventId <= last && log[k].eventId !in ids)
    && (forall j, k :: 0 <= j < k < |log| && log[j].Disposed? && log[k].Disposed? ==> log[j].eventId != log[k].eventId)
  }

  /** Every waiting id was seen, before the turn start now outstanding if there is one. */
  ghost predicate AllSeen(log: seq<Observation>, ids: seq<nat>, before: nat)
    requires before <= |log|
  {
    forall i :: 0 <= i < |ids| ==> Seen(log, ids[i], before)
  }

  ghost predicate HandedAt(log: seq<Observation>, ids: seq<nat>, entry: Entry, h: nat) {
    h < |log| && log[h] == TurnHandedOver(entry) && AllSeen(log, ids, h)
  }

  ghost predicate Reasons(log: seq<Observation>, ids: seq<nat>, starting: Option<Entry>) {
    && AllSeen(log, ids, |log|)
    && (starting.Some? ==> exists h: nat :: HandedAt(log, ids, starting.value, h))
    && (forall k :: 0 <= k < |log| && log[k].Disposed? && log[k].disposition.Continued? ==> Justified(log, k))
  }

  /** The completions that still wait for a disposition. */
  function Waiting(m: Machine): seq<nat> {
    m.rt.pendingCompletionEventIds + if m.actor.Completing? then [m.actor.eventId] else []
  }

  function Draining(a: Actor): Option<Entry> {
    if a.DrainStarting? then Some(a.entry) else None
  }

  ghost predicate Tracked(m: Machine) {
    && Once(m.hist.log, Waiting(m), m.lastEventId)
    && Reasons(m.hist.log, Waiting(m), Draining(m.actor))
  }

  // ---- the log grows ----

  lemma SeenGrows(log: seq<Observation>, more: seq<Observation>, id: nat, before: nat)
    requires before <= |log| && Seen(log, id, before)
    ensures Seen(log + more, id, before) && Seen(log + more, id, |log + more|)
  {
    var i :| 0 <= i < before && log[i] == CompletionSeen(id);
    assert (log + more)[i] == CompletionSeen(id);
  }

  lemma JustifiedGrows(log: seq<Observation>, more: seq<Observation>, k: nat)
    requires k < |log| && log[k].Disposed? && Justified(log, k)
    ensures Justified(log + more, k)
  {
    hide Seen;
    var h: nat, a: nat :| Witnessed(log, k, h, a) && Seen(log, log[k].eventId, h);
    SeenGrows(log, more, log[k].eventId, h);
    assert Witnessed(log + more, k, h, a);
  }

  lemma ReasonsGrow(log: seq<Observation>, ids: seq<nat>, starting: Option<Entry>, more: seq<Observation>)
    requires Reasons(log, ids, starting)
    requires forall k :: 0 <= k < |more| && more[k].Disposed? ==> more[k].disposition.Final?
    ensures Reasons(log + more, ids, None)
  {
    hide Seen, Justified;
    forall i | 0 <= i < |ids| ensures Seen(log + more, ids[i], |log + more|) {
      SeenGrows(log, more, ids[i], |log|);
    }
    forall k | 0 <= k < |log + more| && (log + more)[k].Disposed? && (log + more)[k].disposition.Continued?
      ensures Justified(log + more, k)
    {
      assert k < |log|;
      JustifiedGrows(log, more, k);
    }
  }

  lemma CompletionTracked(log: seq<Observation>, ids: seq<nat>, last: nat, id: nat)
    requires Once(log, ids, last) && Reasons(log, ids, None) && last < id
    ensures Once(log + [CompletionSeen(id)], ids, id) && Reasons(log + [CompletionSeen(id)], ids, None)
    ensures Once(log + [CompletionSeen(id)], ids + [id], id) && Reasons(log + [CompletionSeen(id)], ids + [id], None)
  {
    ReasonsGrow(log, ids, None, [CompletionSeen(id)]);
    hide Justified;
    assert (log + [CompletionSeen(id)])[|log|] == CompletionSeen(id);
  }

  lemma DisposedAtOnceTracked(log: seq<Observation>, ids: seq<nat>, last: nat)
    requires Once(log, ids, last) && Reasons(log, ids, None) && last !in ids
    requires forall k :: 0 <= k < |log| && log[k].Disposed? ==> log[k].eventId < last
    ensures Once(log + [Disposed(last, Final)], ids, last) && Reasons(log + [Disposed(last, Final)], ids, None)
  {
    ReasonsGrow(log, ids, None, [Disposed(last, Final)]);
    hide Justified, Reasons;
  }

  lemma HandedOverTracked(log: seq<Observation>, ids: seq<nat>, last: nat, e: Entry)
    requires Once(log, ids, last) && Reasons(log, ids, None)
    ensures Once(log + [TurnHandedOver(e)], ids, last) && Reasons(log + [TurnHandedOver(e)], ids, Some(e))
  {
    var log' := log + [TurnHandedOver(e)];
    ReasonsGrow(log, ids, None, [TurnHandedOver(e)]);
    hide Justified, Seen;
    forall i | 0 <= i < |ids| ensures Seen(log', ids[i], |log|) {
      SeenGrows(log, [TurnHandedOver(e)], ids[i], |log|);
    }
    assert HandedAt(log', ids, e, |log|);
  }

  lemma SettledOnce(log: seq<Observation>, ids: seq<nat>, last: nat, accepted: seq<Observation>, d: Disposition)
    requires Once(log, ids, last)
    requires forall k :: 0 <= k < |accepted| ==> !accepted[k].Disposed?
    ensures Once(log + accepted + DisposedAll(ids, d), [], last)
  {
    var n := |log + accepted|;
    var log' := log + accepted + DisposedAll(ids, d);
    forall k | 0 <= k < |log'| && log'[k].Disposed?
      ensures log'[k].eventId <= last && (k < n ==> log'[k].eventId !in ids)
    {
      if k >= n {
        assert log'[k] == DisposedAll(ids, d)[k - n];
      } else {
        assert k < |log|;
      }
    }
    forall j, k | 0 <= j < k < |log'| && log'[j].Disposed? && log'[k].Disposed?
      ensures log'[j].eventId != log'[k].eventId
    {
      if k >= n {
        assert log'[k] == DisposedAll(ids, d)[k - n];
        assert log'[k].eventId == ids[k - n];
        if j >= n {
          assert log'[j] == DisposedAll(ids, d)[j - n];
        }
      }
    }
  }

  lemma SettledFinalReasons(log: seq<Observation>, ids: seq<nat>, starting: Option<Entry>)
    requires Reasons(log, ids, starting)
    ensures Reasons(log + DisposedAll(ids, Final), [], None)
  {
    ReasonsGrow(log, ids, starting, DisposedAll(ids, Final));
  }

  /** Continued needs the acceptance: the turn that was accepted had been handed over after each completion. */
  lemma SettledContinuedReasons(log: seq<Observation>, ids: seq<nat>, e: Entry)
    requires Reasons(log, ids, Some(e))
    ensures Reasons(log + [TurnAccepted(e)] + DisposedAll(ids, Continued), [], None)
  {
    var h: nat :| HandedAt(log, ids, e, h);
    var more := [TurnAccepted(e)] + DisposedAll(ids, Continued);
    var log' := log + [TurnAccepted(e)] + DisposedAll(ids, Continued);
    assert log' == log + more;
    hide Justified, Seen;
    forall k | 0 <= k < |log'| && log'[k].Disposed? && log'[k].disposition.Continued?
      ensures Justified(log', k)
    {
      if k < |log| {
        JustifiedGrows(log, more, k);
      } else {
        var id := ids[k - |log| - 1];
        assert log'[k] == Disposed(id, Continued);
        SeenGrows(log, more, id, h);
        JustifiedBy(log', k, h, |log|);
      }
    }
  }

  lemma JustifiedBy(log: seq<Observation>, k: nat, h: nat, a: nat)
    requires k < |log| && log[k].Disposed? && Witnessed(log, k, h, a) && Seen(log, log[k].eventId, h)
    ensures Justified(log, k)
  {
  }

  // ---- steps ----

  predicate CompletionStep(s: Step) {
    s.EventRunEnded? || s.CompletionNoted? || s.DrainQueue? || s.DrainReply?
  }

  /** What the other steps leave alone. */
  predicate CompletionsSame(m: Machine, m': Machine) {
    && m'.rt.pendingCompletionEventIds == m.rt.pendingCompletionEventIds
    && m'.hist.log == m.hist.log && m'.lastEventId == m.lastEventId
    && (m'.actor == m.actor || (Uninvolved(m.actor) && Uninvolved(m'.actor)))
  }

  predicate Uninvolved(a: Actor) {
    !a.Completing? && !a.DrainStarting?
  }

  lemma CallsKeepCompletions(m: Machine, s: Step)
    requires Guarded(m)
    requires s.Send? || s.SendCommit? || s.SendReply? || s.CancelMessage? || s.Hydrate? || s.SteerMessage?
    ensures CompletionsSame(m, Apply(m, s))
  {
    hide QueuedBytes, IndexOf, Without;
  }

  lemma SteersKeepCompletions(m: Machine, s: Step)
    requires SteerDrainStep(s)
    ensures CompletionsSame(m, Apply(m, s))
  {
    if s.VerifyEpoch? || s.PromptFailed? || s.SteerReply? {
      RepliesKeepCompletions(m, s);
    }
  }

  lemma RepliesKeepCompletions(m: Machine, s: Step)
    requires s.VerifyEpoch? || s.PromptFailed? || s.SteerReply?
    ensures CompletionsSame(m, Apply(m, s))
  {
  }

  lemma UnderKeepsCompletions(m: Machine, r: Runtime)
    requires QueueUntouched(m.rt, r)
    ensures CompletionsSame(m, Under(m, r))
  {
  }

  lemma EventsKeepCompletions(m: Machine, s: Step)
    requires OtherEvent(s)
    ensures CompletionsSame(m, Apply(m, s))
  {
    if s.EventRunStarted? {
      RunStartedUntouched(m.rt, s.turn, s.run, s.generation);
      UnderKeepsCompletions(m, RunStarted(m.rt, s.turn, s.run, s.generation));
    } else if s.EventTool? {
      ToolUntouched(m.rt, s.toolId, s.toolTurn, s.toolRun, s.toolGeneration, s.status);
      UnderKeepsCompletions(m, Tool(m.rt, s.toolId, s.toolTurn, s.toolRun, s.toolGeneration, s.status));
    }
    hide RunStarted, Tool, QueueUntouched;
  }

  lemma SameKeepsTracked(m: Machine, m': Machine)
    requires CompletionsSame(m, m') && Tracked(m)
    ensures Tracked(m')
  {
    assert Waiting(m') == Waiting(m) && Draining(m'.actor) == Draining(m.actor);
    hide Once, Reasons;
  }

  /** The three ways of an accepted completion: it waits for the drain, it is final, or a steer in flight hides it. */
  lemma RunEndedWays(m: Machine, eventId: nat, turn: Name, generation: nat)
    requires m.actor.Free? && m.lastEventId < eventId && CompletionAccepted(m.rt, turn, generation)
    ensures var m', seen := DoRunEnded(m, eventId, turn, generation), m.hist.log + [CompletionSeen(eventId)];
            && m'.lastEventId == eventId && Draining(m'.actor) == None
            && ((m'.hist.log == seen && (Waiting(m') == Waiting(m) + [eventId] || Waiting(m') == Waiting(m)))
                || (m'.hist.log == seen + [Disposed(eventId, Final)] && Waiting(m') == Waiting(m)))
  {
  }

  lemma RunEndedTracked(m: Machine, eventId: nat, turn: Name, generation: nat)
    requires Tracked(m)
    ensures Tracked(DoRunEnded(m, eventId, turn, generation))
  {
    var log, ids := m.hist.log, Waiting(m);
    if m.actor.Free? && m.lastEventId < eventId {
      LaterIsFine(log, ids, m.lastEventId, eventId);
      if CompletionAccepted(m.rt, turn, generation) {
        CompletionTracked(log, ids, m.lastEventId, eventId);
        SeenThenFinal(log, ids, m.lastEventId, eventId);
        RunEndedWays(m, eventId, turn, generation);
        hide Once, Reasons, DoRunEnded, Waiting, Draining;
      } else {
        hide Once, Reasons;
        assert Waiting(DoRunEnded(m, eventId, turn, generation)) == Waiting(m);
      }
    }
  }

  lemma SeenThenFinal(log: seq<Observation>, ids: seq<nat>, last: nat, id: nat)
    requires Once(log, ids, last) && Reasons(log, ids, None) && last < id
    ensures Once(log + [CompletionSeen(id)] + [Disposed(id, Final)], ids, id)
    ensures Reasons(log + [CompletionSeen(id)] + [Disposed(id, Final)], ids, None)
  {
    CompletionTracked(log, ids, last, id);
    LaterIsFine(log, ids, last, id);
    var seen := log + [CompletionSeen(id)];
    assert forall k :: 0 <= k < |seen| && seen[k].Disposed? ==> seen[k] == log[k];
    DisposedAtOnceTracked(seen, ids, id);
  }

  lemma LaterIsFine(log: seq<Observation>, ids: seq<nat>, last: nat, later: nat)
    requires Once(log, ids, last) && last < later
    ensures Once(log, ids, later) && later !in ids
  {
  }

  lemma NotedTracked(m: Machine)
    requires Tracked(m)
    ensures Tracked(DoCompletionNoted(m))
  {
    hide Once, Reasons;
    var m' := DoCompletionNoted(m);
    assert Waiting(m') == Waiting(m);
  }

  lemma DrainTracked(m: Machine)
    requires Tracked(m)
    ensures Tracked(DoDrainQueue(m))
  {
    var m' := DoDrainQueue(m);
    if m.actor.Free? {
      var log, ids := m.hist.log, m.rt.pendingCompletionEventIds;
      assert ids == Waiting(m);
      match BeginDrain(m.rt).1 {
        case Blocked =>
        case Idle(done) =>
          SettledOnce(log, ids, m.lastEventId, [], Final);
          assert log + [] == log;
          SettledFinalReasons(log, ids, None);
        case Start(e) =>
          HandedOverTracked(log, ids, m.lastEventId, e);
      }
      hide Once, Reasons;
      assert BeginDrain(m.rt).1.Start? ==> Waiting(m') == ids;
    }
  }

  lemma DrainReplyTracked(m: Machine, turnId: Option<Name>, message: Name)
    requires Tracked(m)
    ensures Tracked(DoDrainReply(m, turnId, message))
  {
    hide Once, Reasons;
    var m' := DoDrainReply(m, turnId, message);
    if m.actor.DrainStarting? {
      var log, ids := m.hist.log, m.rt.pendingCompletionEventIds;
      assert ids == Waiting(m);
      if turnId.Some? {
        SettledOnce(log, ids, m.lastEventId, [TurnAccepted(m.actor.entry)], Continued);
        SettledContinuedReasons(log, ids, m.actor.entry);
      } else {
        SettledOnce(log, ids, m.lastEventId, [], Final);
        assert log + [] == log;
        SettledFinalReasons(log, ids, Draining(m.actor));
      }
      assert Waiting(m') == [];
    }
  }

  lemma StepTracked(m: Machine, s: Step)
    requires Guarded(m) && Tracked(m)
    ensures Tracked(Apply(m, s))
  {
    hide Guarded, Tracked, CompletionsSame, DoRunEnded, DoCompletionNoted, DoDrainQueue, DoDrainReply;
    match s {
      case EventRunEnded(eventId, turn, generation) => RunEndedTracked(m, eventId, turn, generation);
      case CompletionNoted => NotedTracked(m);
      case DrainQueue => DrainTracked(m);
      case DrainReply(turnId, message) => DrainReplyTracked(m, turnId, message);
      case _ =>
        hide Apply;
        if OtherEvent(s) {
          EventsKeepCompletions(m, s);
        } else if SteerDrainStep(s) {
          SteersKeepCompletions(m, s);
        } else {
          CallsKeepCompletions(m, s);
        }
        SameKeepsTracked(m, Apply(m, s));
    }
  }

  lemma {:induction false} RunTracked(steps: seq<Step>)
    ensures Tracked(Run(steps))
    decreases |steps|
  {
    if steps == [] {
      assert Tracked(INITIAL);
    } else {
      hide Tracked, Apply, Guarded, OnePrepare, Balanced, FreshIds, Lanes;
      RunTracked(steps[..|steps| - 1]);
      RunSane(steps[..|steps| - 1]);
      StepTracked(Run(steps[..|steps| - 1]), steps[|steps| - 1]);
    }
  }

  // ---- which disposition, and that there is one ----

  /** A turn was accepted, and nothing but dispositions followed. */
  ghost predicate AfterAcceptance(log: seq<Observation>, k: nat)
    requires k <= |log|
  {
    exists a :: 0 <= a < k && log[a].TurnAccepted? && forall j :: a < j < k ==> log[j].Disposed?
  }

  /** Continued is what directly follows an accepted turn, and then no completion waits any more. */
  ghost predicate Told(log: seq<Observation>, waiting: seq<nat>) {
    && (forall k :: 0 <= k < |log| && log[k].Disposed? ==> (log[k].disposition.Continued? <==> AfterAcceptance(log, k)))
    && (AfterAcceptance(log, |log|) ==> waiting == [])
  }

  lemma AcceptanceGrows(log: seq<Observation>, more: seq<Observation>, k: nat)
    requires k <= |log|
    ensures AfterAcceptance(log + more, k) <==> AfterAcceptance(log, k)
  {
    assert forall j :: 0 <= j < k ==> (log + more)[j] == log[j];
  }

  lemma NextAcceptance(log: seq<Observation>, o: Observation)
    ensures AfterAcceptance(log + [o], |log| + 1)
            <==> o.TurnAccepted? || (o.Disposed? && AfterAcceptance(log, |log|))
  {
    var log' := log + [o];
    AcceptanceGrows(log, [o], |log|);
    assert log'[|log|] == o;
    if AfterAcceptance(log', |log| + 1) && !o.TurnAccepted? {
      var a :| 0 <= a < |log| + 1 && log'[a].TurnAccepted? && forall j :: a < j < |log| + 1 ==> log'[j].Disposed?;
      assert a < |log|;
    }
    if o.Disposed? && AfterAcceptance(log, |log|) {
      var a :| 0 <= a < |log| && log[a].TurnAccepted? && forall j :: a < j < |log| ==> log[j].Disposed?;
      assert log'[a].TurnAccepted?;
    }
    if o.TurnAccepted? {
      assert log'[|log|].TurnAccepted?;
    }
  }

  lemma OneTold(log: seq<Observation>, waiting: seq<nat>, o: Observation, waiting': seq<nat>)
    requires Told(log, waiting)
    requires o.Disposed? ==> (o.disposition.Continued? <==> AfterAcceptance(log, |log|))
    requires o.TurnAccepted? || (o.Disposed? && AfterAcceptance(log, |log|)) ==> waiting' == []
    ensures Told(log + [o], waiting')
  {
    NextAcceptance(log, o);
    hide AfterAcceptance;
    forall k | 0 <= k < |log + [o]| && (log + [o])[k].Disposed?
      ensures (log + [o])[k].disposition.Continued? <==> AfterAcceptance(log + [o], k)
    {
      AcceptanceGrows(log, [o], k);
    }
  }

  lemma {:induction false} AllTold(log: seq<Observation>, ids: seq<nat>, d: Disposition)
    requires Told(log, []) && (ids != [] ==> (d.Continued? <==> AfterAcceptance(log, |log|)))
    ensures Told(log + DisposedAll(ids, d), [])
    decreases |ids|
  {
    hide Told, AfterAcceptance;
    if ids == [] {
      assert log + DisposedAll(ids, d) == log;
    } else {
      var init, last := ids[..|ids| - 1], ids[|ids| - 1];
      AllTold(log, init, d);
      StillAfter(log, init, d);
      OneTold(log + DisposedAll(init, d), [], Disposed(last, d), []);
      assert log + DisposedAll(ids, d) == log + DisposedAll(init, d) + [Disposed(last, d)];
    }
  }

  lemma {:induction false} StillAfter(log: seq<Observation>, ids: seq<nat>, d: Disposition)
    ensures AfterAcceptance(log + DisposedAll(ids, d), |log + DisposedAll(ids, d)|) <==> AfterAcceptance(log, |log|)
    decreases |ids|
  {
    hide AfterAcceptance;
    if ids == [] {
      assert log + DisposedAll(ids, d) == log;
    } else {
      var init, last := ids[..|ids| - 1], ids[|ids| - 1];
      StillAfter(log, init, d);
      NextAcceptance(log + DisposedAll(init, d), Disposed(last, d));
      assert log + DisposedAll(ids, d) == log + DisposedAll(init, d) + [Disposed(last, d)];
    }
  }

  lemma NoneWaits(log: seq<Observation>, waiting: seq<nat>)
    requires Told(log, waiting)
    ensures Told(log, [])
  {
  }

  lemma RunEndedTold(m: Machine, eventId: nat, turn: Name, generation: nat)
    requires Told(m.hist.log, Waiting(m))
    ensures Told(DoRunEnded(m, eventId, turn, generation).hist.log, Waiting(DoRunEnded(m, eventId, turn, generation)))
  {
    hide Told;
    var m' := DoRunEnded(m, eventId, turn, generation);
    if m.actor.Free? && m.lastEventId < eventId && CompletionAccepted(m.rt, turn, generation) {
      RunEndedWays(m, eventId, turn, generation);
      hide DoRunEnded;
      var seen := m.hist.log + [CompletionSeen(eventId)];
      OneTold(m.hist.log, Waiting(m), CompletionSeen(eventId), Waiting(m'));
      NextAcceptance(m.hist.log, CompletionSeen(eventId));
      OneTold(seen, Waiting(m'), Disposed(eventId, Final), Waiting(m'));
    } else {
      assert Waiting(m') == Waiting(m);
    }
  }

  lemma DrainTold(m: Machine)
    requires Told(m.hist.log, Waiting(m))
    ensures Told(DoDrainQueue(m).hist.log, Waiting(DoDrainQueue(m)))
  {
    hide Told;
    var m', log, ids := DoDrainQueue(m), m.hist.log, m.rt.pendingCompletionEventIds;
    if m.actor.Free? {
      assert ids == Waiting(m);
      WaitingMeansNotAfter(log, ids);
      NoneWaits(log, ids);
      AllTold(log, ids, Final);
      match BeginDrain(m.rt).1 {
        case Blocked =>
        case Idle(done) => assert Waiting(m') == [];
        case Start(e) =>
          assert Waiting(m') == ids;
          OneTold(log, ids, TurnHandedOver(e), ids);
      }
    }
  }

  lemma WaitingMeansNotAfter(log: seq<Observation>, ids: seq<nat>)
    requires Told(log, ids)
    ensures ids != [] ==> !AfterAcceptance(log, |log|)
  {
  }

  lemma DrainReplyTold(m: Machine, turnId: Option<Name>, message: Name)
    requires Told(m.hist.log, Waiting(m))
    ensures Told(DoDrainReply(m, turnId, message).hist.log, Waiting(DoDrainReply(m, turnId, message)))
  {
    hide Told;
    var m', log, ids := DoDrainReply(m, turnId, message), m.hist.log, m.rt.pendingCompletionEventIds;
    if m.actor.DrainStarting? {
      assert ids == Waiting(m);
      WaitingMeansNotAfter(log, ids);
      NoneWaits(log, ids);
      AllTold(log, ids, Final);
      var accepted := TurnAccepted(m.actor.entry);
      OneTold(log, ids, accepted, []);
      NextAcceptance(log, accepted);
      AllTold(log + [accepted], ids, Continued);
      assert Waiting(m') == [];
    }
  }

  lemma StepTold(m: Machine, s: Step)
    requires Guarded(m) && Told(m.hist.log, Waiting(m))
    ensures Told(Apply(m, s).hist.log, Waiting(Apply(m, s)))
  {
    hide Guarded, Told, DoRunEnded, DoCompletionNoted, DoDrainQueue, DoDrainReply, Waiting;
    match s {
      case EventRunEnded(eventId, turn, generation) => RunEndedTold(m, eventId, turn, generation);
      case CompletionNoted => NotedWaits(m);
      case DrainQueue => DrainTold(m);
      case DrainReply(turnId, message) => DrainReplyTold(m, turnId, message);
      case _ => OthersKeepWaiting(m, s);
    }
  }

  lemma NotedWaits(m: Machine)
    ensures Waiting(DoCompletionNoted(m)) == Waiting(m) && DoCompletionNoted(m).hist.log == m.hist.log
  {
  }

  lemma OthersKeepWaiting(m: Machine, s: Step)
    requires Guarded(m) && !CompletionStep(s)
    ensures Waiting(Apply(m, s)) == Waiting(m) && Apply(m, s).hist.log == m.hist.log
  {
    hide Apply, Guarded;
    if OtherEvent(s) {
      EventsKeepCompletions(m, s);
    } else if SteerDrainStep(s) {
      SteersKeepCompletions(m, s);
    } else {
      CallsKeepCompletions(m, s);
    }
  }

  lemma {:induction false} RunTold(steps: seq<Step>)
    ensures Told(Run(steps).hist.log, Waiting(Run(steps)))
    decreases |steps|
  {
    if steps == [] {
      assert Told([], []);
    } else {
      hide Told, Apply, Waiting, Guarded, OnePrepare, Balanced, FreshIds, Lanes;
      RunTold(steps[..|steps| - 1]);
      RunSane(steps[..|steps| - 1]);
      StepTold(Run(steps[..|steps| - 1]), steps[|steps| - 1]);
    }
  }

  /** A completion is called continued exactly when a turn of the queue drain was accepted just before. */
  lemma ContinuedIffAccepted(steps: seq<Step>, k: nat)
    requires k < |Run(steps).hist.log| && Run(steps).hist.log[k].Disposed?
    ensures Run(steps).hist.log[k].disposition.Continued? <==> AfterAcceptance(Run(steps).hist.log, k)
  {
    hide Run, AfterAcceptance;
    RunTold(steps);
  }

  /** The completion waits for its disposition or has it. */
  ghost predicate Minded(m: Machine, id: nat) {
    id in Waiting(m) || exists k :: 0 <= k < |m.hist.log| && IsDispositionOf(m.hist.log[k], id)
  }

  predicate IsDispositionOf(o: Observation, id: nat) {
    o.Disposed? && o.eventId == id
  }

  lemma MindedGrows(m: Machine, m': Machine, more: seq<Observation>, id: nat)
    requires Minded(m, id) && m'.hist.log == m.hist.log + more
    requires id in Waiting(m) ==> id in Waiting(m') || exists k :: 0 <= k < |more| && IsDispositionOf(more[k], id)
    ensures Minded(m', id)
  {
    hide Waiting;
    var log := m.hist.log;
    if k :| 0 <= k < |log| && IsDispositionOf(log[k], id) {
      assert IsDispositionOf(m'.hist.log[k], id);
    } else if id !in Waiting(m') {
      var k :| 0 <= k < |more| && IsDispositionOf(more[k], id);
      assert m'.hist.log[|log| + k] == more[k];
    }
  }

  lemma AllDisposedOf(ids: seq<nat>, d: Disposition, id: nat)
    requires id in ids
    ensures exists k :: 0 <= k < |DisposedAll(ids, d)| && IsDispositionOf(DisposedAll(ids, d)[k], id)
  {
    var k :| 0 <= k < |ids| && ids[k] == id;
    assert IsDispositionOf(DisposedAll(ids, d)[k], id);
  }

  lemma RunEndedMinds(m: Machine, eventId: nat, turn: Name, generation: nat, id: nat)
    requires Minded(m, id)
    ensures Minded(DoRunEnded(m, eventId, turn, generation), id)
  {
    hide Minded;
    var m' := DoRunEnded(m, eventId, turn, generation);
    if m.actor.Free? && m.lastEventId < eventId && CompletionAccepted(m.rt, turn, generation) {
      RunEndedWays(m, eventId, turn, generation);
      hide DoRunEnded, Waiting;
      MindedGrows(m, m', m'.hist.log[|m.hist.log|..], id);
    } else {
      assert Waiting(m') == Waiting(m) && m'.hist.log == m.hist.log + [];
      MindedGrows(m, m', [], id);
    }
  }

  lemma DrainMinds(m: Machine, id: nat)
    requires Minded(m, id)
    ensures Minded(DoDrainQueue(m), id)
  {
    hide Minded, DisposedAll;
    var m', log, ids := DoDrainQueue(m), m.hist.log, m.rt.pendingCompletionEventIds;
    assert log + [] == log;
    if m.actor.Free? {
      assert Waiting(m) == ids;
      if id in ids {
        AllDisposedOf(ids, Final, id);
      }
      match BeginDrain(m.rt).1 {
        case Blocked => MindedGrows(m, m', [], id);
        case Idle(_) => MindedGrows(m, m', DisposedAll(ids, Final), id);
        case Start(e) =>
          assert Waiting(m') == ids;
          MindedGrows(m, m', [TurnHandedOver(e)], id);
      }
    }
  }

  lemma DrainReplyMinds(m: Machine, turnId: Option<Name>, message: Name, id: nat)
    requires Minded(m, id)
    ensures Minded(DoDrainReply(m, turnId, message), id)
  {
    hide Minded, DisposedAll;
    var m', log, ids := DoDrainReply(m, turnId, message), m.hist.log, m.rt.pendingCompletionEventIds;
    if m.actor.DrainStarting? {
      assert Waiting(m) == ids;
      if turnId.Some? {
        var more := [TurnAccepted(m.actor.entry)] + DisposedAll(ids, Continued);
        assert m'.hist.log == log + more;
        if id in ids {
          AllDisposedOf(ids, Continued, id);
          var k :| 0 <= k < |DisposedAll(ids, Continued)| && IsDispositionOf(DisposedAll(ids, Continued)[k], id);
          assert more[1 + k] == DisposedAll(ids, Continued)[k];
        }
        MindedGrows(m, m', more, id);
      } else {
        if id in ids {
          AllDisposedOf(ids, Final, id);
        }
        MindedGrows(m, m', DisposedAll(ids, Final), id);
      }
    }
  }

  lemma StepMinds(m: Machine, s: Step, id: nat)
    requires Guarded(m) && Minded(m, id)
    ensures Minded(Apply(m, s), id)
  {
    hide Guarded, DoRunEnded, DoCompletionNoted, DoDrainQueue, DoDrainReply, Waiting;
    match s {
      case EventRunEnded(eventId, turn, generation) => RunEndedMinds(m, eventId, turn, generation, id);
      case CompletionNoted => NotedWaits(m);
      case DrainQueue => DrainMinds(m, id);
      case DrainReply(turnId, message) => DrainReplyMinds(m, turnId, message, id);
      case _ => OthersKeepWaiting(m, s);
    }
  }

  /** A completion that arrives with no steer in flight is never lost: it waits until it has its disposition. */
  lemma {:induction false} CompletionIsMinded(steps: seq<Step>, eventId: nat, turn: Name, generation: nat, more: seq<Step>)
    requires var m := Run(steps);
             && m.actor.Free? && m.lastEventId < eventId && CompletionAccepted(m.rt, turn, generation)
             && m.rt.steerDispatchInFlight.None?
    ensures var m' := RunFrom(Apply(Run(steps), EventRunEnded(eventId, turn, generation)), more);
            Guarded(m') && Minded(m', eventId)
    decreases |more|
  {
    var m, s := Run(steps), EventRunEnded(eventId, turn, generation);
    if more == [] {
      RunSane(steps);
      var _ := StepSound(m, s);
      hide Run, Guarded;
      ArrivalMinded(m, eventId, turn, generation);
    } else {
      hide Run, Apply, Guarded, Minded;
      var before := more[..|more| - 1];
      CompletionIsMinded(steps, eventId, turn, generation, before);
      var mid := RunFrom(Apply(m, s), before);
      StepMinds(mid, more[|more| - 1], eventId);
      var _ := StepSound(mid, more[|more| - 1]);
    }
  }

  /**
   An accepted completion asks for a queue drain exactly if no steer is in flight and a message is queued or pending,
   and it is final at once exactly if there is neither.
   */
  lemma CompletionDecides(m: Machine, eventId: nat, turn: Name, generation: nat)
    requires m.actor.Free? && m.lastEventId < eventId
    requires m.rt.activeTurnId == Some(turn) && m.rt.activePromptGeneration == Some(generation)
    ensures var m' := Apply(m, EventRunEnded(eventId, turn, generation));
            && (m'.actor.Completing? <==> m.rt.steerDispatchInFlight.None? && m.rt.pendingSteers + m.rt.items != [])
            && (m'.actor.Completing? ==> m'.actor.eventId == eventId)
            && (m'.hist.log == m.hist.log + [CompletionSeen(eventId), Disposed(eventId, Final)]
                <==> m.rt.steerDispatchInFlight.None? && m.rt.pendingSteers + m.rt.items == [])
            && m'.hist.log[..|m.hist.log| + 1] == m.hist.log + [CompletionSeen(eventId)]
  {
  }

  lemma ArrivalMinded(m: Machine, eventId: nat, turn: Name, generation: nat)
    requires m.actor.Free? && m.lastEventId < eventId && CompletionAccepted(m.rt, turn, generation)
    requires m.rt.steerDispatchInFlight.None?
    ensures Minded(Apply(m, EventRunEnded(eventId, turn, generation)), eventId)
  {
    var m' := DoRunEnded(m, eventId, turn, generation);
    if ShouldDispatch(m'.rt) {
      assert Waiting(m')[|Waiting(m)|] == eventId;
    } else {
      assert IsDispositionOf(m'.hist.log[|m.hist.log| + 1], eventId);
    }
  }

  // ---- main results ----

  /** Over any run a completion event is given at most one disposition. */
  lemma AtMostOneDisposition(steps: seq<Step>, j: nat, k: nat)
    requires j < |Run(steps).hist.log| && k < |Run(steps).hist.log|
    requires Run(steps).hist.log[j].Disposed? && Run(steps).hist.log[k].Disposed?
    requires Run(steps).hist.log[j].eventId == Run(steps).hist.log[k].eventId
    ensures j == k
  {
    hide Run, Reasons;
    RunTracked(steps);
  }

  /**
   Continued means continued: after the completion a queued message was handed over to the agent,
   and the agent accepted that turn before the completion was called continued.
   */
  lemma ContinuedWasAccepted(steps: seq<Step>, k: nat) returns (i: nat, h: nat, a: nat)
    requires k < |Run(steps).hist.log|
    requires Run(steps).hist.log[k].Disposed? && Run(steps).hist.log[k].disposition.Continued?
    ensures i < h < a < k
    ensures var log := Run(steps).hist.log;
            && log[i] == CompletionSeen(log[k].eventId)
            && log[h].TurnHandedOver?
            && log[a] == TurnAccepted(log[h].entry)
  {
    hide Run, Once;
    RunTracked(steps);
    var log := Run(steps).hist.log;
    assert Justified(log, k);
    h, a :| Witnessed(log, k, h, a) && Seen(log, log[k].eventId, h);
    i :| 0 <= i < h && log[i] == CompletionSeen(log[k].eventId);
  }

  /** A completion that waits for a disposition was seen and has none yet. */
  lemma WaitingIsUndecided(steps: seq<Step>, i: nat, k: nat)
    requires i < |Waiting(Run(steps))| && k < |Run(steps).hist.log|
    ensures CompletionSeen(Waiting(Run(steps))[i]) in Run(steps).hist.log
    ensures Run(steps).hist.log[k].Disposed? ==> Run(steps).hist.log[k].eventId != Waiting(Run(steps))[i]
  {
    hide Run;
    RunTracked(steps);
    assert Seen(Run(steps).hist.log, Waiting(Run(steps))[i], |Run(steps).hist.log|);
  }

  // ---- completions that arrive with a steer in flight ----

  ghost predicate Undisposed(log: seq<Observation>, id: nat) {
    forall k :: 0 <= k < |log| && log[k].Disposed? ==> log[k].eventId != id
  }

  /** Seen, without a disposition, and no longer waiting for one. */
  ghost predicate Forgotten(m: Machine, id: nat) {
    id <= m.lastEventId && id !in Waiting(m) && Undisposed(m.hist.log, id)
  }

  lemma SameKeepsForgotten(m: Machine, m': Machine, id: nat)
    requires CompletionsSame(m, m') && Forgotten(m, id)
    ensures Forgotten(m', id)
  {
    assert Waiting(m') == Waiting(m);
  }

  lemma RunEndedForgotten(m: Machine, eventId: nat, turn: Name, generation: nat, id: nat)
    requires Forgotten(m, id)
    ensures Forgotten(DoRunEnded(m, eventId, turn, generation), id)
  {
    if m.actor.Free? && m.lastEventId < eventId && CompletionAccepted(m.rt, turn, generation) {
      RunEndedWays(m, eventId, turn, generation);
      hide DoRunEnded;
    }
  }

  lemma OthersDisposed(log: seq<Observation>, accepted: seq<Observation>, ids: seq<nat>, d: Disposition, id: nat)
    requires Undisposed(log, id) && id !in ids
    requires forall k :: 0 <= k < |accepted| ==> !accepted[k].Disposed?
    ensures Undisposed(log + accepted + DisposedAll(ids, d), id)
  {
    assert forall k :: 0 <= k < |ids| ==> DisposedAll(ids, d)[k] == Disposed(ids[k], d) && ids[k] in ids;
  }

  lemma DrainReplyForgotten(m: Machine, turnId: Option<Name>, message: Name, id: nat)
    requires Forgotten(m, id)
    ensures Forgotten(DoDrainReply(m, turnId, message), id)
  {
    hide Undisposed, DisposedAll;
    if m.actor.DrainStarting? {
      var log, ids := m.hist.log, m.rt.pendingCompletionEventIds;
      OthersDisposed(log, [], ids, Final, id);
      assert log + [] == log;
      OthersDisposed(log, [TurnAccepted(m.actor.entry)], ids, Continued, id);
      assert Waiting(DoDrainReply(m, turnId, message)) == [];
    }
  }

  lemma DrainForgotten(m: Machine, id: nat)
    requires Forgotten(m, id)
    ensures Forgotten(DoDrainQueue(m), id)
  {
    hide DisposedAll;
    var log, ids := m.hist.log, m.rt.pendingCompletionEventIds;
    OthersDisposed(log, [], ids, Final, id);
    assert log + [] == log;
    assert Undisposed(DoDrainQueue(m).hist.log, id);
  }

  lemma DrainsForgotten(m: Machine, s: Step, id: nat)
    requires Forgotten(m, id) && (s.CompletionNoted? || s.DrainQueue? || s.DrainReply?)
    ensures Forgotten(Apply(m, s), id)
  {
    if s.DrainReply? {
      DrainReplyForgotten(m, s.turnId, s.message, id);
    } else if s.DrainQueue? {
      DrainForgotten(m, id);
    }
    hide DoDrainQueue, DoDrainReply;
  }

  lemma StepForgotten(m: Machine, s: Step, id: nat)
    requires Guarded(m) && Forgotten(m, id)
    ensures Forgotten(Apply(m, s), id)
  {
    hide Guarded, Forgotten, CompletionsSame, Apply;
    if s.EventRunEnded? {
      RunEndedForgotten(m, s.eventId, s.turn, s.generation, id);
      assert Apply(m, s) == DoRunEnded(m, s.eventId, s.turn, s.generation) by { RunEndedIsStep(m, s); }
    } else if CompletionStep(s) {
      DrainsForgotten(m, s, id);
    } else {
      if OtherEvent(s) {
        EventsKeepCompletions(m, s);
      } else if SteerDrainStep(s) {
        SteersKeepCompletions(m, s);
      } else {
        CallsKeepCompletions(m, s);
      }
      SameKeepsForgotten(m, Apply(m, s), id);
    }
  }

  lemma RunEndedIsStep(m: Machine, s: Step)
    requires s.EventRunEnded?
    ensures Apply(m, s) == DoRunEnded(m, s.eventId, s.turn, s.generation)
  {
  }

  /** What was forgotten never gets a disposition. */
  lemma {:induction false} ForgottenForever(m: Machine, more: seq<Step>, id: nat)
    requires Guarded(m) && Forgotten(m, id)
    ensures Guarded(RunFrom(m, more)) && Forgotten(RunFrom(m, more), id)
    decreases |more|
  {
    if more != [] {
      hide Guarded, Forgotten, Apply;
      var before, last := more[..|more| - 1], more[|more| - 1];
      ForgottenForever(m, before, id);
      StepForgotten(RunFrom(m, before), last, id);
      var _ := StepSound(RunFrom(m, before), last);
    }
  }

  /**
   A completion is disposed of at once, waits for the queue drain, or is forgotten;
   and it is forgotten exactly when a steer is in flight.
   */
  lemma ForgottenIffSteering(steps: seq<Step>, eventId: nat, turn: Name, generation: nat)
    requires var m := Run(steps);
             m.actor.Free? && m.lastEventId < eventId && CompletionAccepted(m.rt, turn, generation)
    ensures Forgotten(Apply(Run(steps), EventRunEnded(eventId, turn, generation)), eventId)
            <==> Run(steps).rt.steerDispatchInFlight.Some?
  {
    hide Run, Reasons;
    RunTracked(steps);
    var m := Run(steps);
    var m' := Apply(m, EventRunEnded(eventId, turn, generation));
    assert Waiting(m) == m.rt.pendingCompletionEventIds;
    if ShouldDispatch(m'.rt) {
      assert Waiting(m')[|Waiting(m)|] == eventId;
    } else if m.rt.steerDispatchInFlight.None? {
      assert m'.hist.log[|m.hist.log| + 1] == Disposed(eventId, Final);
    }
  }
}
