/**
 What holds of one thread's queue after any sequence of steps: no message is lost or forked,
 turn starts are exclusive, the order survives completions, and without steering the queue is
 first in, first out.
 */
module QueueRuns {
  import opened Wrappers
  import opened QueueRuntime
  import opened QueueMachine

  // ---- conservation ----

  /** Every offered message is in exactly one place. */
  ghost predicate Balanced(lanes: seq<Entry>, h: History) {
    multiset(lanes) + multiset(h.delivered) + h.cancelled + h.rejected == multiset(h.offered)
  }

  ghost predicate FreshIds(offered: seq<Entry>, nextId: nat) {
    && (forall i, j :: 0 <= i < j < |offered| ==> offered[i].id < offered[j].id)
    && (forall i :: 0 <= i < |offered| ==> offered[i].id < nextId)
  }

  lemma WithoutMultiset<T>(s: seq<T>, i: nat)
    requires i < |s|
    ensures multiset(s) == multiset(Without(s, i)) + multiset{s[i]}
  {
    assert s == s[..i] + [s[i]] + s[i + 1..];
  }

  lemma MoveMultiset<T>(s: seq<T>, from: nat, to: nat)
    requires from < |s| && to < |s|
    ensures multiset(Move(s, from, to)) == multiset(s)
  {
    WithoutMultiset(s, from);
    var rest := Without(s, from);
    assert rest == rest[..to] + rest[to..];
  }

  lemma WithdrawBalances(lanes: seq<Entry>, h: History, i: nat)
    requires Balanced(lanes, h) && i < |lanes|
    ensures Balanced(Without(lanes, i), h.(cancelled := h.cancelled + multiset{lanes[i]}))
    ensures Balanced(Without(lanes, i), h.(rejected := h.rejected + multiset{lanes[i]}))
  {
    WithoutMultiset(lanes, i);
    hide Without;
  }

  lemma DeliverBalances(lanes: seq<Entry>, h: History)
    requires Balanced(lanes, h) && lanes != []
    ensures Balanced(lanes[1..], h.(delivered := h.delivered + [lanes[0]]))
  {
    assert lanes == [lanes[0]] + lanes[1..];
  }

  lemma BalanceDependsOnAccounts(lanes: seq<Entry>, h: History, h': History)
    requires Balanced(lanes, h) && SameAccounts(h, h')
    ensures Balanced(lanes, h')
  {
  }

  lemma EffectBalances(m: Machine, m': Machine, eff: Effect)
    requires Balanced(Lanes(m), m.hist) && HasEffect(m, m', eff)
    ensures Balanced(Lanes(m'), m'.hist)
  {
    hide Balanced, Lanes, Without, Move, SameAccounts;
    var lanes, h := Lanes(m), m.hist;
    match eff {
      case Kept =>
        BalanceDependsOnAccounts(lanes, h, m'.hist);
      case Arrived(e) =>
        ArrivalBalances(lanes, h, e);
        BalanceDependsOnAccounts(lanes + [e], h.(offered := h.offered + [e]), m'.hist);
      case DeliveredHead =>
        DeliverBalances(lanes, h);
        BalanceDependsOnAccounts(lanes[1..], h.(delivered := h.delivered + [lanes[0]]), m'.hist);
      case CancelledAt(i) =>
        WithdrawBalances(lanes, h, i);
        BalanceDependsOnAccounts(Without(lanes, i), h.(cancelled := h.cancelled + multiset{lanes[i]}), m'.hist);
      case RejectedAt(i) =>
        WithdrawBalances(lanes, h, i);
        BalanceDependsOnAccounts(Without(lanes, i), h.(rejected := h.rejected + multiset{lanes[i]}), m'.hist);
      case Moved(i, j) =>
        MoveBalances(lanes, h, i, j);
        BalanceDependsOnAccounts(Move(lanes, i, j), h, m'.hist);
    }
  }

  lemma ArrivalBalances(lanes: seq<Entry>, h: History, e: Entry)
    requires Balanced(lanes, h)
    ensures Balanced(lanes + [e], h.(offered := h.offered + [e]))
  {
  }

  lemma MoveBalances(lanes: seq<Entry>, h: History, i: nat, j: nat)
    requires Balanced(lanes, h) && i < |lanes| && j < |lanes|
    ensures Balanced(Move(lanes, i, j), h)
  {
    MoveMultiset(lanes, i, j);
  }

  lemma EffectFresh(m: Machine, m': Machine, eff: Effect)
    requires HasEffect(m, m', eff) && FreshIds(m.hist.offered, m.nextId) && m.nextId <= m'.nextId
    ensures FreshIds(m'.hist.offered, m'.nextId)
  {
    hide Lanes, Without, Move;
  }

  lemma IdsOnlyGrow(m: Machine, s: Step)
    ensures m.nextId <= Apply(m, s).nextId
  {
  }

  ghost predicate Sane(m: Machine) {
    && Guarded(m) && OnePrepare(m)
    && Balanced(Lanes(m), m.hist) && FreshIds(m.hist.offered, m.nextId)
  }

  lemma StepSane(m: Machine, s: Step) returns (eff: Effect)
    requires Sane(m)
    ensures Sane(Apply(m, s)) && HasEffect(m, Apply(m, s), eff)
    ensures eff.Moved? ==> s.SteerMessage? || LateFailure(m, s)
  {
    IdsOnlyGrow(m, s);
    hide Apply, Guarded, OnePrepare, LateFailure, Lanes, HasEffect, Balanced, FreshIds;
    eff := StepSound(m, s);
    StepOnePrepare(m, s);
    EffectFresh(m, Apply(m, s), eff);
    EffectBalances(m, Apply(m, s), eff);
  }

  lemma InitialSane()
    ensures Sane(INITIAL)
  {
  }

  lemma {:induction false} RunSane(steps: seq<Step>)
    ensures Sane(Run(steps))
    decreases |steps|
  {
    InitialSane();
    hide Sane, Apply;
    if steps != [] {
      RunSane(steps[..|steps| - 1]);
      var _ := StepSane(Run(steps[..|steps| - 1]), steps[|steps| - 1]);
    }
  }

  lemma OfferedOnce(offered: seq<Entry>, nextId: nat, e: Entry)
    requires FreshIds(offered, nextId)
    ensures multiset(offered)[e] <= 1
    decreases |offered|
  {
    if offered != [] {
      var last := |offered| - 1;
      OfferedOnce(offered[..last], nextId, e);
      assert offered == offered[..last] + [offered[last]];
    }
  }

  lemma OfferedById(offered: seq<Entry>, nextId: nat, a: Entry, b: Entry)
    requires FreshIds(offered, nextId) && a in offered && b in offered && a.id == b.id
    ensures a == b
  {
  }

  /** No id is in two lanes, or twice in one. */
  lemma NoMessageForked(steps: seq<Step>, i: nat, j: nat)
    requires i < j < |Lanes(Run(steps))|
    ensures Lanes(Run(steps))[i].id != Lanes(Run(steps))[j].id
  {
    hide Lanes, Run, Guarded, OnePrepare;
    RunSane(steps);
    var m := Run(steps);
    DistinctIds(Lanes(m), m.hist, m.nextId, i, j);
  }

  lemma DistinctIds(lanes: seq<Entry>, h: History, nextId: nat, i: nat, j: nat)
    requires Balanced(lanes, h) && FreshIds(h.offered, nextId) && i < j < |lanes|
    ensures lanes[i].id != lanes[j].id
  {
    var a, b := lanes[i], lanes[j];
    assert a in multiset(lanes) && b in multiset(lanes);
    assert a in multiset(h.offered) && b in multiset(h.offered);
    if a.id == b.id {
      OfferedById(h.offered, nextId, a, b);
      CountedTwice(lanes, i, j);
      OfferedOnce(h.offered, nextId, a);
    }
  }

  lemma CountedTwice(s: seq<Entry>, i: nat, j: nat)
    requires i < j < |s| && s[i] == s[j]
    ensures multiset(s)[s[i]] >= 2
  {
    assert s == s[..j] + s[j..];
    assert s[..j][i] in multiset(s[..j]) && s[j..][0] in multiset(s[j..]);
  }

  /** In how many ways the queue has let go of a message. */
  function Releases(h: History, e: Entry): nat {
    multiset(h.delivered)[e] + h.cancelled[e] + h.rejected[e]
  }

  /**
   No message is lost: a message a sender offered is in a lane, or exactly one of these happened
   once: it was delivered, it was cancelled, or it was refused to its sender.
   */
  lemma NoMessageLost(steps: seq<Step>, e: Entry)
    requires e in Run(steps).hist.offered
    ensures e in Lanes(Run(steps)) <==> Releases(Run(steps).hist, e) == 0
    ensures Releases(Run(steps).hist, e) <= 1
  {
    hide Lanes, Run, Guarded, OnePrepare;
    RunSane(steps);
    var m := Run(steps);
    OfferedOnce(m.hist.offered, m.nextId, e);
    assert e in multiset(m.hist.offered);
    assert multiset(m.hist.offered)[e] == multiset(Lanes(m))[e] + Releases(m.hist, e);
    assert e in Lanes(m) <==> e in multiset(Lanes(m));
  }

  // ---- admission ----

  lemma {:induction false} QueuedBytesAppend(entries: seq<Entry>, e: Entry)
    ensures QueuedBytes(entries + [e]) == QueuedBytes(entries) + e.Bytes()
  {
    if entries != [] {
      assert (entries + [e])[1..] == entries[1..] + [e];
      QueuedBytesAppend(entries[1..], e);
    }
  }

  /** The bytes of all contents and turn starts. */
  function Length(entries: seq<Entry>): nat {
    if entries == [] then 0
    else Length(entries[..|entries| - 1]) + |entries[|entries| - 1].content| + |entries[|entries| - 1].turnStart|
  }

  lemma {:induction false} QueuedBytesIsLength(entries: seq<Entry>)
    ensures QueuedBytes(entries) == Length(entries)
    decreases |entries|
  {
    if entries != [] {
      var init, last := entries[..|entries| - 1], entries[|entries| - 1];
      QueuedBytesIsLength(init);
      QueuedBytesAppend(init, last);
      assert entries == init + [last];
    }
  }

  /**
   A message is queued exactly when the queue with it stays within a hundred items and one mebibyte.
   The promotion of pending steers is under no such limit.
   */
  lemma AdmissionIsBound(r: Runtime, e: Entry)
    ensures Enqueue(r, e).items == r.items + [e]
            <==> |r.items + [e]| <= 100 && Length(r.items + [e]) <= 1024 * 1024
    ensures Enqueue(r, e).items == r.items + [e] || Enqueue(r, e) == r
  {
    QueuedBytesAppend(r.items, e);
    QueuedBytesIsLength(r.items + [e]);
    assert r.items != r.items + [e];
  }

  // ---- what clients are shown ----

  /** The public state of a thread's queue. */
  datatype PublicQueue = PublicQueue(
    items: seq<Entry>, pendingSteers: seq<Entry>, waitingForToolCalls: bool, steeringInFlight: bool,
    lastError: Option<QueueError>)

  /** `snapshot_for_thread`: the steer in flight is shown before the pending ones. */
  function SnapshotForThread(r: Runtime): PublicQueue {
    PublicQueue(r.items, Slot(r) + r.pendingSteers, r.pendingSteers != [] && r.activeToolCallIds != {},
                r.steerDispatchInFlight.Some?, r.lastError)
  }

  /**
   At every moment clients are shown every message the queue is responsible for, once and in order, except the one
   that a send or the drain holds for its turn start.
   */
  lemma SnapshotShowsQueue(steps: seq<Step>)
    ensures var m := Run(steps);
            var p := SnapshotForThread(m.rt);
            var shown := p.pendingSteers + p.items;
            && Lanes(m) == p.pendingSteers + Starting(m.actor) + p.items + Checking(m.actor)
            && forall i, j :: 0 <= i < j < |shown| ==> shown[i].id != shown[j].id
  {
    hide Run, Guarded, OnePrepare, Balanced, FreshIds;
    RunSane(steps);
    var m := Run(steps);
    var p := SnapshotForThread(m.rt);
    forall i, j | 0 <= i < j < |p.pendingSteers + p.items|
      ensures (p.pendingSteers + p.items)[i].id != (p.pendingSteers + p.items)[j].id
    {
      ShownOnce(Lanes(m), m.hist, m.nextId, p.pendingSteers, Starting(m.actor), p.items, Checking(m.actor), i, j);
    }
  }

  lemma ShownOnce(lanes: seq<Entry>, h: History, nextId: nat, steers: seq<Entry>, held: seq<Entry>, items: seq<Entry>,
                  rest: seq<Entry>, i: nat, j: nat)
    requires lanes == steers + held + items + rest && Balanced(lanes, h) && FreshIds(h.offered, nextId)
    requires i < j < |steers + items|
    ensures (steers + items)[i].id != (steers + items)[j].id
  {
    hide Balanced, FreshIds;
    var a := if i < |steers| then i else i + |held|;
    var b := if j < |steers| then j else j + |held|;
    DistinctIds(lanes, h, nextId, a, b);
  }

  // ---- what counts as delivered ----

  /** Whatever a drain waits to hear about was once offered. */
  ghost predicate SentOffered(m: Machine) {
    forall t :: IsSent(m, t) ==> m.tasks[t].dispatch.entry in m.hist.offered
  }

  lemma OnlyHandOverSends(m: Machine, s: Step, t: nat)
    requires !s.HandOver? && IsSent(Apply(m, s), t)
    ensures IsSent(m, t) && m.tasks[t] == Apply(m, s).tasks[t]
  {
    hide Cancel, Cancelled, Steer, RunStarted, RunEnded, Tool, BeginDrain, FinishDrain, AcknowledgeSteer, FailSteer;
    hide FinishSteerPrepare, FinishTurnStart, Hydrated, DisposedAll, Admissible, Enqueue, MayPrepareSteer;
    hide ShouldDispatch, ShouldWaitForSteer, CompletionAccepted, ApprovalRequested, ApprovalResolved;
  }

  lemma QueuedWasOffered(m: Machine, e: Entry)
    requires Balanced(Lanes(m), m.hist) && e in Lanes(m)
    ensures e in m.hist.offered
  {
    hide Lanes;
    assert e in multiset(Lanes(m));
    assert e in multiset(m.hist.offered);
  }

  lemma HandOverSentOffered(m: Machine, t: nat)
    requires Balanced(Lanes(m), m.hist) && SentOffered(m)
    ensures SentOffered(DoHandOver(m, t))
  {
    hide Balanced;
    if m.actor.Free? && TaskAt(m, t) == Some(Verified) && MayHandOverSteer(m.rt) {
      var e := m.rt.pendingSteers[0];
      assert e in m.rt.pendingSteers;
      assert e in Lanes(m);
      QueuedWasOffered(m, e);
    }
  }

  lemma EffectKeepsOffered(m: Machine, m': Machine, eff: Effect, e: Entry)
    requires HasEffect(m, m', eff) && e in m.hist.offered
    ensures e in m'.hist.offered
  {
    hide Lanes, Without, Move;
  }

  lemma OthersSentOffered(m: Machine, s: Step, eff: Effect)
    requires !s.HandOver? && SentOffered(m) && HasEffect(m, Apply(m, s), eff)
    ensures SentOffered(Apply(m, s))
  {
    hide Apply, HasEffect;
    var m' := Apply(m, s);
    forall t | IsSent(m', t) ensures m'.tasks[t].dispatch.entry in m'.hist.offered {
      OnlyHandOverSends(m, s, t);
      EffectKeepsOffered(m, m', eff, m'.tasks[t].dispatch.entry);
    }
  }

  lemma HandOverIsStep(m: Machine, s: Step)
    requires s.HandOver?
    ensures Apply(m, s) == DoHandOver(m, s.task)
  {
  }

  lemma SaneIsBalanced(m: Machine)
    requires Sane(m)
    ensures Balanced(Lanes(m), m.hist)
  {
    hide Balanced, Lanes, Guarded, OnePrepare, FreshIds;
  }

  lemma StepSentOffered(m: Machine, s: Step)
    requires Sane(m) && SentOffered(m)
    ensures SentOffered(Apply(m, s))
  {
    hide Apply, Sane, HasEffect, LateFailure, SentOffered, Balanced, Lanes, DoHandOver;
    if s.HandOver? {
      SaneIsBalanced(m);
      HandOverSentOffered(m, s.task);
      HandOverIsStep(m, s);
    } else {
      var eff := StepSane(m, s);
      OthersSentOffered(m, s, eff);
    }
  }

  lemma {:induction false} RunSentOffered(steps: seq<Step>)
    ensures SentOffered(Run(steps))
    decreases |steps|
  {
    if steps != [] {
      hide Apply, Sane, SentOffered;
      RunSentOffered(steps[..|steps| - 1]);
      RunSane(steps[..|steps| - 1]);
      StepSentOffered(Run(steps[..|steps| - 1]), steps[|steps| - 1]);
    } else {
      assert SentOffered(INITIAL);
    }
  }

  /** The slot is matched by id alone, and yet what it holds is the very message the agent acknowledged. */
  lemma OwnedIsAcknowledged(m: Machine, t: nat)
    requires Sane(m) && SentOffered(m) && IsSent(m, t) && Owns(m.rt, m.tasks[t].dispatch)
    ensures m.rt.steerDispatchInFlight.value.entry == m.tasks[t].dispatch.entry
  {
    var e := m.rt.steerDispatchInFlight.value.entry;
    assert Slot(m.rt)[0] == e;
    assert e in Lanes(m);
    hide Guarded, OnePrepare, Balanced, FreshIds, Lanes;
    QueuedWasOffered(m, e);
    OfferedById(m.hist.offered, m.nextId, e, m.tasks[t].dispatch.entry);
  }

  /** The queue counts as delivered no more than the agent took. */
  ghost predicate AllTaken(h: History) {
    multiset(h.delivered) <= h.agentTook
  }

  lemma ReplyTaken(m: Machine, t: nat, error: Option<Name>)
    requires Sane(m) && SentOffered(m) && AllTaken(m.hist)
    ensures AllTaken(DoSteerReply(m, t, error).hist)
  {
    hide Sane, SentOffered, AcknowledgeSteer;
    if m.actor.Free? && IsSent(m, t) && Owns(m.rt, m.tasks[t].dispatch) {
      OwnedIsAcknowledged(m, t);
    }
  }

  lemma OthersTaken(m: Machine, s: Step)
    requires !s.SteerReply? && AllTaken(m.hist)
    ensures AllTaken(Apply(m, s).hist)
  {
    hide Cancel, Cancelled, Steer, RunStarted, RunEnded, Tool, BeginDrain, FinishDrain, AcknowledgeSteer, FailSteer;
    hide FinishSteerPrepare, HandOverSteer, NextDispatch, FinishTurnStart, Hydrated, DisposedAll, Admissible, Enqueue;
    hide DoSteerReply, ShouldDispatch, ShouldWaitForSteer, MayPrepareSteer, MayHandOverSteer, CompletionAccepted;
  }

  /** The queue lets go of a message as delivered only with a successful reply of the agent for that very message. */
  lemma {:induction false} DeliveredWasTaken(steps: seq<Step>)
    ensures AllTaken(Run(steps).hist)
    decreases |steps|
  {
    if steps != [] {
      hide Apply, Sane, SentOffered, AllTaken, DoSteerReply;
      var before, last := steps[..|steps| - 1], steps[|steps| - 1];
      DeliveredWasTaken(before);
      RunSane(before);
      RunSentOffered(before);
      if last.SteerReply? {
        ReplyTaken(Run(before), last.task, last.steerError);
        SteerReplyIsStep(Run(before), last);
      } else {
        OthersTaken(Run(before), last);
      }
    } else {
      assert AllTaken(INITIAL.hist);
    }
  }

  lemma SteerReplyIsStep(m: Machine, s: Step)
    requires s.SteerReply?
    ensures Apply(m, s) == DoSteerReply(m, s.task, s.steerError)
  {
  }

  // ---- exclusive dispatch ----

  /** No reachable state has both a turn start and a steer in flight, and at most one drain prepares. */
  lemma ExclusiveDispatch(steps: seq<Step>)
    ensures var m := Run(steps);
            && !(m.rt.turnStartInFlight && m.rt.steerDispatchInFlight.Some?)
            && (forall t, u :: IsPreparing(m, t) && IsPreparing(m, u) ==> t == u)
  {
    hide Run, Balanced, FreshIds, Lanes;
    RunSane(steps);
  }

  /**
   While a turn start handed over by the queue drain is outstanding, no turn runs, no steer is in flight,
   pending or being prepared, and no approval or user input is outstanding.
   */
  lemma TurnStartsAreAlone(steps: seq<Step>)
    requires Run(steps).actor.DrainStarting? || Run(steps).actor.SendStarting?
    ensures var m := Run(steps);
            && m.rt.turnStartInFlight && !m.rt.threadRunning
            && m.rt.steerDispatchInFlight.None? && m.rt.pendingSteers == []
            && m.rt.pendingApprovalIds == {} && m.rt.pendingUserInputIds == {}
            && (forall t :: !IsPreparing(m, t))
  {
    hide Run, Balanced, FreshIds, Lanes;
    RunSane(steps);
  }

  /** Inside a section that holds the actor lock, the turn-start flag is never seen set. */
  lemma TurnStartFlagIsTheLock(steps: seq<Step>)
    ensures Run(steps).rt.turnStartInFlight <==> TurnStartOutstanding(Run(steps).actor)
  {
    hide Run, Balanced, FreshIds, Lanes;
    RunSane(steps);
  }

  // ---- order across a completion ----

  /** A completion, accepted or not, leaves in-flight ++ pending ++ queued as it was. */
  lemma CompletionKeepsOrder(r: Runtime, turn: Name, generation: nat)
    ensures Queue(RunEnded(r, turn, generation)) == Queue(r)
    ensures CompletionAccepted(r, turn, generation) ==> RunEnded(r, turn, generation).pendingSteers == []
  {
    RunEndedQueue(r, turn, generation);
  }

  /** The steer in flight crossed a completion, and no run has been started since. */
  predicate BehindCompletion(m: Machine) {
    && m.rt.steerDispatchInFlight.Some? && m.rt.steerDispatchInFlight.value.crossedCompletionBoundary
    && !m.rt.threadRunning
  }

  /** The step empties the slot: the error of a verification, a failed prompt, or the owner's reply. */
  predicate Settles(m: Machine, s: Step) {
    || (s.VerifyEpoch? && s.verdict.VerifyError? && TaskAt(m, s.task) == Some(Verifying))
    || (s.PromptFailed? && IsSent(m, s.task))
    || (s.SteerReply? && m.actor.Free? && IsSent(m, s.task) && Owns(m.rt, m.tasks[s.task].dispatch))
  }

  lemma StaysBehindCompletion(m: Machine, s: Step)
    requires Guarded(m) && BehindCompletion(m) && !s.EventRunStarted? && !Settles(m, s)
    ensures BehindCompletion(Apply(m, s)) && Apply(m, s).rt.steerDispatchInFlight == m.rt.steerDispatchInFlight
  {
    hide IndexOf, QueuedBytes, DisposedAll, Without;
  }

  /** No run starts and nothing settles the slot. */
  ghost predicate Undisturbed(m: Machine, more: seq<Step>) {
    forall i :: 0 <= i < |more| ==> !more[i].EventRunStarted? && !Settles(RunFrom(m, more[..i]), more[i])
  }

  /** Behind a completion, as long as no run starts and nothing settles it, the slot keeps its steer and no other is pending. */
  lemma {:induction false} NothingBehindCrossedSteer(m: Machine, more: seq<Step>)
    requires Guarded(m) && BehindCompletion(m) && Undisturbed(m, more)
    ensures Guarded(RunFrom(m, more)) && BehindCompletion(RunFrom(m, more))
    ensures RunFrom(m, more).rt.steerDispatchInFlight == m.rt.steerDispatchInFlight
    ensures RunFrom(m, more).rt.pendingSteers == []
    decreases |more|
  {
    hide Apply, BehindCompletion, Settles, Guarded;
    if more == [] {
      CrossedPromoted(m);
    } else {
      var before, last := more[..|more| - 1], more[|more| - 1];
      forall i | 0 <= i < |before|
        ensures !before[i].EventRunStarted? && !Settles(RunFrom(m, before[..i]), before[i])
      {
        assert before[..i] == more[..i] && before[i] == more[i];
      }
      NothingBehindCrossedSteer(m, before);
      assert !Settles(RunFrom(m, more[..|before|]), more[|before|]);
      StaysBehindCompletion(RunFrom(m, before), last);
      var _ := StepSound(RunFrom(m, before), last);
      CrossedPromoted(RunFrom(m, more));
    }
  }

  lemma CrossedPromoted(m: Machine)
    requires Guarded(m) && BehindCompletion(m)
    ensures m.rt.pendingSteers == []
  {
  }

  lemma CompletionCrosses(m: Machine, eventId: nat, turn: Name, generation: nat)
    requires m.actor.Free? && m.lastEventId < eventId && CompletionAccepted(m.rt, turn, generation)
    requires m.rt.steerDispatchInFlight.Some?
    ensures var m' := Apply(m, EventRunEnded(eventId, turn, generation));
            BehindCompletion(m') && m'.rt.steerDispatchInFlight == Crossed(m.rt.steerDispatchInFlight)
  {
  }

  /**
   A completion arrives with a steer in flight; whatever happens then, as long as no run starts and nothing settles
   the slot, the failing reply of the owner finds the same steer there and leaves the queue's sequence as it is.
   */
  lemma CrossedFailureAfterCompletion(steps: seq<Step>, eventId: nat, turn: Name, generation: nat, more: seq<Step>,
                                      t: nat, error: Name)
    requires var m := Run(steps);
             && m.actor.Free? && m.lastEventId < eventId && CompletionAccepted(m.rt, turn, generation)
             && m.rt.steerDispatchInFlight.Some?
    requires var crossed := Apply(Run(steps), EventRunEnded(eventId, turn, generation));
             && Undisturbed(crossed, more)
             && RunFrom(crossed, more).actor.Free? && IsSent(RunFrom(crossed, more), t)
             && Owns(RunFrom(crossed, more).rt, RunFrom(crossed, more).tasks[t].dispatch)
    ensures var m := Run(steps);
            var later := RunFrom(Apply(m, EventRunEnded(eventId, turn, generation)), more);
            && later.rt.steerDispatchInFlight == Crossed(m.rt.steerDispatchInFlight)
            && Queue(Apply(later, SteerReply(t, Some(error))).rt) == Queue(later.rt)
  {
    var m := Run(steps);
    RunSane(steps);
    CompletionCrosses(m, eventId, turn, generation);
    var crossed := Apply(m, EventRunEnded(eventId, turn, generation));
    var _ := StepSound(m, EventRunEnded(eventId, turn, generation));
    hide Run, Apply, Guarded, Undisturbed, OnePrepare, Balanced, FreshIds;
    NothingBehindCrossedSteer(crossed, more);
    FailedReplyKeepsQueue(RunFrom(crossed, more), t, error);
  }

  lemma FailedReplyKeepsQueue(m: Machine, t: nat, error: Name)
    requires m.actor.Free? && IsSent(m, t) && Owns(m.rt, m.tasks[t].dispatch) && m.rt.pendingSteers == []
    ensures Queue(Apply(m, SteerReply(t, Some(error))).rt) == Queue(m.rt)
  {
    AcknowledgeQueue(m.rt, m.tasks[t].dispatch, Some(error));
    hide Queue, Move, AcknowledgeSteer;
    if m.rt.steerDispatchInFlight.value.crossedCompletionBoundary {
      HeadInSlot(m.rt);
      MoveNowhere(Queue(m.rt));
    }
  }

  /** The failure of a crossed steer restores the order exactly when no other steer waits behind it. */
  lemma CrossedFailureRestoresOrder(r: Runtime, d: Dispatch, error: Name)
    requires Owns(r, d) && r.steerDispatchInFlight.value.crossedCompletionBoundary
    requires forall i, j :: 0 <= i < j < |Queue(r)| ==> Queue(r)[i].id != Queue(r)[j].id
    ensures Queue(AcknowledgeSteer(r, d, Some(error))) == Queue(r) <==> r.pendingSteers == []
  {
    AcknowledgeQueue(r, d, Some(error));
    var e := r.steerDispatchInFlight.value.entry;
    assert Queue(r)[0] == e;
    if r.pendingSteers != [] {
      assert Queue(r)[1] == r.pendingSteers[0];
      HeadBehind(e, r.pendingSteers, r.items);
      assert Move(Queue(r), 0, |r.pendingSteers|)[0] == r.pendingSteers[0];
    } else {
      MoveNowhere(Queue(r));
    }
  }

  /** A steer that fails before any completion is put back exactly where it was. */
  lemma UncrossedFailureRestoresOrder(r: Runtime, d: Dispatch, error: Name)
    requires Owns(r, d) && !r.steerDispatchInFlight.value.crossedCompletionBoundary
    ensures Queue(AcknowledgeSteer(r, d, Some(error))) == Queue(r)
  {
    AcknowledgeQueue(r, d, Some(error));
  }

  // ---- first in, first out ----

  /** The offered messages that were neither cancelled nor refused, in the order they were offered. */
  function Standing(offered: seq<Entry>, withdrawn: multiset<Entry>): seq<Entry> {
    if offered == [] then []
    else
      var last := offered[|offered| - 1];
      Standing(offered[..|offered| - 1], withdrawn) + if last in withdrawn then [] else [last]
  }

  function Withdrawn(h: History): multiset<Entry> {
    h.cancelled + h.rejected
  }

  function Remove(s: seq<Entry>, e: Entry): seq<Entry> {
    if s == [] then []
    else Remove(s[..|s| - 1], e) + if s[|s| - 1] == e then [] else [s[|s| - 1]]
  }

  lemma {:induction false} StandingRemove(offered: seq<Entry>, withdrawn: multiset<Entry>, e: Entry)
    ensures Standing(offered, withdrawn + multiset{e}) == Remove(Standing(offered, withdrawn), e)
  {
    if offered != [] {
      var init, last := offered[..|offered| - 1], offered[|offered| - 1];
      StandingRemove(init, withdrawn, e);
      var st := Standing(init, withdrawn);
      if last !in withdrawn {
        assert (st + [last])[..|st|] == st;
      } else {
        assert st + [] == st;
      }
    }
  }

  lemma {:induction false} RemoveAbsent(s: seq<Entry>, e: Entry)
    requires e !in s
    ensures Remove(s, e) == s
  {
    if s != [] {
      RemoveAbsent(s[..|s| - 1], e);
    }
  }

  lemma {:induction false} RemoveConcat(a: seq<Entry>, b: seq<Entry>, e: Entry)
    ensures Remove(a + b, e) == Remove(a, e) + Remove(b, e)
  {
    if b == [] {
      assert a + b == a;
    } else {
      assert (a + b)[..|a + b| - 1] == a + b[..|b| - 1];
      RemoveConcat(a, b[..|b| - 1], e);
    }
  }

  /** Removing the element at i of a sequence that holds it once. */
  lemma RemoveAt(done: seq<Entry>, s: seq<Entry>, i: nat)
    requires i < |s| && s[i] !in done
    requires forall j :: 0 <= j < |s| && j != i ==> s[j] != s[i]
    ensures Remove(done + s, s[i]) == done + Without(s, i)
  {
    hide Remove;
    var e, head, tail := s[i], s[..i], s[i + 1..];
    RemoveConcat(done, s, e);
    RemoveAbsent(done, e);
    assert s == head + ([e] + tail);
    RemoveConcat(head, [e] + tail, e);
    RemoveConcat([e], tail, e);
    RemoveAbsent(head, e);
    RemoveAbsent(tail, e);
    RemoveSelf(e);
    assert [] + tail == tail;
  }

  lemma RemoveSelf(e: Entry)
    ensures Remove([e], e) == []
  {
  }

  /** Delivered, then still queued: exactly the standing messages, in the order they were offered. */
  ghost predicate FirstInFirstOut(m: Machine) {
    m.hist.delivered + Lanes(m) == Standing(m.hist.offered, Withdrawn(m.hist))
  }

  lemma ArrivalNotWithdrawn(lanes: seq<Entry>, h: History, nextId: nat, e: Entry)
    requires Balanced(lanes, h) && FreshIds(h.offered, nextId) && e.id >= nextId
    ensures e !in Withdrawn(h)
  {
    assert e in Withdrawn(h) ==> e in multiset(h.offered);
  }

  lemma WithdrawKeepsFifo(lanes: seq<Entry>, h: History, nextId: nat, i: nat)
    requires Balanced(lanes, h) && FreshIds(h.offered, nextId) && i < |lanes|
    requires h.delivered + lanes == Standing(h.offered, Withdrawn(h))
    ensures h.delivered + Without(lanes, i) == Standing(h.offered, Withdrawn(h) + multiset{lanes[i]})
  {
    hide Standing;
    StandingRemove(h.offered, Withdrawn(h), lanes[i]);
    assert lanes[i] in multiset(lanes);
    OfferedOnce(h.offered, nextId, lanes[i]);
    assert multiset(h.offered)[lanes[i]] >= multiset(lanes)[lanes[i]] + multiset(h.delivered)[lanes[i]];
    assert lanes[i] !in multiset(h.delivered);
    forall j | 0 <= j < |lanes| && j != i ensures lanes[j] != lanes[i] {
      if j < i {
        DistinctIds(lanes, h, nextId, j, i);
      } else {
        DistinctIds(lanes, h, nextId, i, j);
      }
    }
    RemoveAt(h.delivered, lanes, i);
  }

  /** The same of lanes and accounts. */
  ghost predicate InOrder(lanes: seq<Entry>, h: History) {
    h.delivered + lanes == Standing(h.offered, Withdrawn(h))
  }

  lemma SameKeepsOrder(lanes: seq<Entry>, h: History, h': History)
    requires InOrder(lanes, h) && SameAccounts(h, h')
    ensures InOrder(lanes, h')
  {
    hide Standing;
  }

  lemma ArrivalKeepsOrder(lanes: seq<Entry>, h: History, nextId: nat, e: Entry)
    requires Balanced(lanes, h) && FreshIds(h.offered, nextId) && e.id >= nextId && InOrder(lanes, h)
    ensures InOrder(lanes + [e], h.(offered := h.offered + [e]))
  {
    ArrivalNotWithdrawn(lanes, h, nextId, e);
    hide Balanced, FreshIds;
    assert (h.offered + [e])[..|h.offered|] == h.offered;
    assert h.delivered + (lanes + [e]) == (h.delivered + lanes) + [e];
  }

  lemma DeliveryKeepsOrder(lanes: seq<Entry>, h: History)
    requires lanes != [] && InOrder(lanes, h)
    ensures InOrder(lanes[1..], h.(delivered := h.delivered + [lanes[0]]))
  {
    hide Standing;
    assert h.delivered + [lanes[0]] + lanes[1..] == h.delivered + lanes;
  }

  lemma WithdrawalKeepsOrder(lanes: seq<Entry>, h: History, nextId: nat, i: nat)
    requires Balanced(lanes, h) && FreshIds(h.offered, nextId) && i < |lanes| && InOrder(lanes, h)
    ensures InOrder(Without(lanes, i), h.(cancelled := h.cancelled + multiset{lanes[i]}))
    ensures InOrder(Without(lanes, i), h.(rejected := h.rejected + multiset{lanes[i]}))
  {
    WithdrawKeepsFifo(lanes, h, nextId, i);
    hide Standing, Without, Balanced, FreshIds;
    assert Withdrawn(h.(cancelled := h.cancelled + multiset{lanes[i]})) == Withdrawn(h) + multiset{lanes[i]};
    assert Withdrawn(h.(rejected := h.rejected + multiset{lanes[i]})) == Withdrawn(h) + multiset{lanes[i]};
  }

  lemma EffectKeepsFifo(m: Machine, m': Machine, eff: Effect)
    requires Balanced(Lanes(m), m.hist) && FreshIds(m.hist.offered, m.nextId)
    requires HasEffect(m, m', eff) && !eff.Moved? && FirstInFirstOut(m)
    ensures FirstInFirstOut(m')
  {
    hide Lanes, Balanced, FreshIds, Standing, Without, SameAccounts, Withdrawn;
    var lanes, h := Lanes(m), m.hist;
    assert InOrder(lanes, h);
    match eff {
      case Kept => SameKeepsOrder(lanes, h, m'.hist);
      case Arrived(e) =>
        ArrivalKeepsOrder(lanes, h, m.nextId, e);
        SameKeepsOrder(lanes + [e], h.(offered := h.offered + [e]), m'.hist);
      case DeliveredHead =>
        DeliveryKeepsOrder(lanes, h);
        SameKeepsOrder(lanes[1..], h.(delivered := h.delivered + [lanes[0]]), m'.hist);
      case CancelledAt(i) =>
        WithdrawalKeepsOrder(lanes, h, m.nextId, i);
        SameKeepsOrder(Without(lanes, i), h.(cancelled := h.cancelled + multiset{lanes[i]}), m'.hist);
      case RejectedAt(i) =>
        WithdrawalKeepsOrder(lanes, h, m.nextId, i);
        SameKeepsOrder(Without(lanes, i), h.(rejected := h.rejected + multiset{lanes[i]}), m'.hist);
    }
  }

  predicate NoSteer(r: Runtime) {
    r.pendingSteers == [] && r.steerDispatchInFlight.None?
  }

  lemma NoSteerCalls(m: Machine, s: Step)
    requires NoSteer(m.rt) && (s.Send? || s.SendCommit? || s.SendReply? || s.CancelMessage? || s.Hydrate?)
    ensures NoSteer(Apply(m, s).rt)
  {
    hide QueuedBytes, IndexOf, Without, Cancelled, Took, IsBlockedOrOccupied, Admissible;
  }

  lemma NoSteerDrains(m: Machine, s: Step)
    requires NoSteer(m.rt) && (s.DrainQueue? || s.DrainReply? || s.CompletionNoted? || s.EventRunEnded?)
    ensures NoSteer(Apply(m, s).rt)
  {
    hide DisposedAll;
  }

  predicate SteerDrainStep(s: Step) {
    s.SpawnSteerDrain? || s.PrepareBegin? || s.PrepareEnd? || s.VerifyEpoch? || s.HandOver? || s.PromptFailed? || s.SteerReply?
  }

  lemma NoSteerSteerDrains(m: Machine, s: Step)
    requires NoSteer(m.rt) && SteerDrainStep(s)
    ensures NoSteer(Apply(m, s).rt)
  {
  }

  lemma NoSteerEvents(m: Machine, s: Step)
    requires NoSteer(m.rt) && OtherEvent(s)
    ensures NoSteer(Apply(m, s).rt)
  {
    if s.EventRunStarted? {
      RunStartedUntouched(m.rt, s.turn, s.run, s.generation);
    } else if s.EventTool? {
      ToolUntouched(m.rt, s.toolId, s.toolTurn, s.toolRun, s.toolGeneration, s.status);
    }
    hide RunStarted, Tool;
  }

  /** Without steering no steer is ever pending or in flight, so no late failure can happen. */
  lemma NoSteerStep(m: Machine, s: Step)
    requires NoSteer(m.rt) && !s.SteerMessage?
    ensures NoSteer(Apply(m, s).rt) && !LateFailure(m, s)
  {
    hide Apply, NoSteer;
    assert !LateFailure(m, s) by {
      NoLateFailure(m, s);
    }
    if s.Send? || s.SendCommit? || s.SendReply? || s.CancelMessage? || s.Hydrate? {
      NoSteerCalls(m, s);
    } else if s.DrainQueue? || s.DrainReply? || s.CompletionNoted? || s.EventRunEnded? {
      NoSteerDrains(m, s);
    } else if SteerDrainStep(s) {
      NoSteerSteerDrains(m, s);
    } else {
      NoSteerEvents(m, s);
    }
  }

  lemma NoLateFailure(m: Machine, s: Step)
    requires NoSteer(m.rt)
    ensures !LateFailure(m, s)
  {
  }

  /** In every run in which nobody steers, messages are delivered in the order they were offered. */
  lemma {:induction false} WithoutSteeringFirstInFirstOut(steps: seq<Step>)
    requires forall i :: 0 <= i < |steps| ==> !steps[i].SteerMessage?
    ensures FirstInFirstOut(Run(steps))
    ensures NoSteer(Run(steps).rt)
    decreases |steps|
  {
    hide Apply, Sane;
    if steps != [] {
      var before, last := steps[..|steps| - 1], steps[|steps| - 1];
      WithoutSteeringFirstInFirstOut(before);
      RunSane(before);
      FifoStep(Run(before), last);
    }
  }

  lemma FifoStep(m: Machine, s: Step)
    requires Sane(m) && FirstInFirstOut(m) && !s.SteerMessage?
    requires NoSteer(m.rt)
    ensures FirstInFirstOut(Apply(m, s)) && NoSteer(Apply(m, s).rt)
  {
    NoSteerStep(m, s);
    hide Apply, FirstInFirstOut, Guarded, OnePrepare, LateFailure, Balanced, FreshIds;
    var eff := StepSane(m, s);
    EffectKeepsFifo(m, Apply(m, s), eff);
  }
}
