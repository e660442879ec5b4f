/**
 One thread's queue under every interleaving. The actor lock of a thread is held across a send
 and across a queue drain, also while their turn start is outstanding; a steer drain holds it only
 inside its critical sections, so prepare, verify and steer replies interleave with everything,
 and a failed verification takes no actor lock at all. One step is one critical section.
 */
module QueueMachine {
  import opened Wrappers
  import opened Utf8
  import opened QueueRuntime

  /** What the holder of the actor lock is in the middle of. */
  datatype Actor =
    | Free
    | SendChecked(entry: Entry, blocked: bool)
    | SendStarting(entry: Entry)
    | DrainStarting(entry: Entry)
    | Completing(eventId: nat)

  /** Where one spawned steer drain stands. */
  datatype Task = Top | Preparing | Verifying | Verified | Sent(dispatch: Dispatch)

  datatype Verdict = Current | Stale | VerifyError

  datatype Disposition = Final | Continued

  /** What happened, in order, for statements about completions. */
  datatype Observation =
    | CompletionSeen(eventId: nat)
    | TurnHandedOver(entry: Entry)
    | TurnAccepted(entry: Entry)
    | Disposed(eventId: nat, disposition: Disposition)

  /** Where every offered message went, and how often the agent took one. */
  datatype History = History(
    offered: seq<Entry>,
    delivered: seq<Entry>,
    cancelled: multiset<Entry>,
    rejected: multiset<Entry>,
    agentTook: multiset<Entry>,
    log: seq<Observation>)

  datatype Machine = Machine(
    rt: Runtime, present: bool, actor: Actor, tasks: map<nat, Task>, nextId: nat, lastEventId: nat, hist: History)

  const INITIAL: Machine :=
    Machine(DEFAULT, false, Free, map[], 1, 0, History([], [], multiset{}, multiset{}, multiset{}, []))

  datatype Step =
    | Send(content: seq<Byte>, turnStart: seq<Byte>)
    | SendCommit
    | SendReply(turnId: Option<Name>)
    | SteerMessage(id: nat)
    | CancelMessage(id: nat)
    | Hydrate(snapshot: SessionSnapshot)
    | SpawnSteerDrain(task: nat)
    | PrepareBegin(task: nat)
    | PrepareEnd(task: nat, prepareError: Option<Name>)
    | VerifyEpoch(task: nat, verdict: Verdict, message: Name)
    | HandOver(task: nat)
    | PromptFailed(task: nat, message: Name)
    | SteerReply(task: nat, steerError: Option<Name>)
    | EventRunStarted(turn: Name, run: Name, generation: nat)
    | EventRunEnded(eventId: nat, turn: Name, generation: nat)
    | CompletionNoted
    | EventTool(toolId: Name, toolTurn: Option<Name>, toolRun: Option<Name>, toolGeneration: Option<nat>, status: ToolStatus)
    | EventApprovalRequested(request: Name)
    | EventApprovalResolved(request: Name)
    | EventInputRequested(request: Name)
    | EventInputResolved(request: Name)
    | DrainQueue
    | DrainReply(turnId: Option<Name>, message: Name)
    | OtherThreadAllocates(ids: nat)

  // ---- steps ----

  function DoSend(m: Machine, content: seq<Byte>, turnStart: seq<Byte>): Machine {
    if !m.actor.Free? || !m.present then m
    else
      var e := Entry(m.nextId, content, turnStart);
      m.(nextId := m.nextId + 1, actor := SendChecked(e, IsBlockedOrOccupied(m.rt)),
         hist := m.hist.(offered := m.hist.offered + [e]))
  }

  function DoSendCommit(m: Machine): Machine {
    if !m.actor.SendChecked? then m
    else
      var e := m.actor.entry;
      if !m.actor.blocked then m.(rt := BeginTurnStart(m.rt), actor := SendStarting(e))
      else if Admissible(m.rt, e) then m.(rt := Enqueue(m.rt, e), actor := Free)
      else m.(actor := Free, hist := m.hist.(rejected := m.hist.rejected + multiset{e}))
  }

  function DoSendReply(m: Machine, turnId: Option<Name>): Machine {
    if !m.actor.SendStarting? then m
    else
      var e := m.actor.entry;
      m.(rt := FinishTurnStart(m.rt, turnId), actor := Free,
         hist := if turnId.Some? then Took(m.hist, e) else m.hist.(rejected := m.hist.rejected + multiset{e}))
  }

  /** The agent took the message of a turn start, and the section that held it for that lets go of it. */
  function Took(h: History, e: Entry): History {
    h.(delivered := h.delivered + [e], agentTook := h.agentTook + multiset{e})
  }

  function DoCancel(m: Machine, id: nat): Machine {
    if !m.actor.Free? then m
    else
      var (rt, outcome) := Cancel(m.rt, id);
      m.(rt := rt, present := true,
         hist := if outcome.Done? then m.hist.(cancelled := m.hist.cancelled + multiset{Cancelled(m.rt, id)}) else m.hist)
  }

  /** The message a successful cancel removes. */
  function Cancelled(r: Runtime, id: nat): Entry
    requires Cancel(r, id).1.Done?
  {
    match IndexOf(r.items, id)
    case Some(i) => r.items[i]
    case None => r.pendingSteers[IndexOf(r.pendingSteers, id).value]
  }

  function DoHydrate(m: Machine, s: SessionSnapshot): Machine {
    if m.actor.Free? && !m.present then m.(rt := Hydrated(s), present := true) else m
  }

  function TaskAt(m: Machine, t: nat): Option<Task> {
    if t in m.tasks then Some(m.tasks[t]) else None
  }

  function DoPrepareBegin(m: Machine, t: nat): Machine {
    if !m.actor.Free? || TaskAt(m, t) != Some(Top) then m
    else if MayPrepareSteer(m.rt) then m.(rt := BeginSteerPrepare(m.rt), tasks := m.tasks[t := Preparing])
    else m.(tasks := m.tasks - {t})
  }

  function DoPrepareEnd(m: Machine, t: nat, error: Option<Name>): Machine {
    if !m.actor.Free? || TaskAt(m, t) != Some(Preparing) then m
    else
      var rt := FinishSteerPrepare(m.rt, error);
      m.(rt := rt, tasks := if rt.lastError.None? then m.tasks[t := Verifying] else m.tasks - {t})
  }

  function DoVerify(m: Machine, t: nat, verdict: Verdict, message: Name): Machine {
    if TaskAt(m, t) != Some(Verifying) then m
    else
      match verdict
      case Current => m.(tasks := m.tasks[t := Verified])
      case Stale => m.(tasks := m.tasks[t := Top])
      case VerifyError => m.(rt := FailSteer(m.rt, PrepareLabel, message), tasks := m.tasks - {t})
  }

  function DoHandOver(m: Machine, t: nat): Machine {
    if !m.actor.Free? || TaskAt(m, t) != Some(Verified) then m
    else if MayHandOverSteer(m.rt) then
      m.(rt := HandOverSteer(m.rt), tasks := m.tasks[t := Sent(NextDispatch(m.rt))])
    else m.(tasks := m.tasks - {t})
  }

  predicate IsSent(m: Machine, t: nat) {
    t in m.tasks && m.tasks[t].Sent?
  }

  function DoPromptFailed(m: Machine, t: nat, message: Name): Machine {
    if !IsSent(m, t) then m
    else m.(rt := FailSteer(m.rt, Item(m.tasks[t].dispatch.entry.id), message), tasks := m.tasks - {t})
  }

  function DoSteerReply(m: Machine, t: nat, error: Option<Name>): Machine {
    if !m.actor.Free? || !IsSent(m, t) then m
    else
      var d := m.tasks[t].dispatch;
      var owned := Owns(m.rt, d);
      m.(rt := AcknowledgeSteer(m.rt, d, error),
         tasks := if owned && error.None? then m.tasks[t := Top] else m.tasks - {t},
         hist := if error.Some? then m.hist
                 else m.hist.(agentTook := m.hist.agentTook + multiset{d.entry},
                              delivered := if owned then m.hist.delivered + [m.rt.steerDispatchInFlight.value.entry]
                                           else m.hist.delivered))
  }

  function DoRunEnded(m: Machine, eventId: nat, turn: Name, generation: nat): Machine {
    if !m.actor.Free? || eventId <= m.lastEventId then m
    else if !CompletionAccepted(m.rt, turn, generation) then m.(present := true, lastEventId := eventId)
    else
      var rt := RunEnded(m.rt, turn, generation);
      var log := m.hist.log + [CompletionSeen(eventId)];
      m.(rt := rt, present := true, lastEventId := eventId,
         actor := if ShouldDispatch(rt) then Completing(eventId) else Free,
         hist := m.hist.(log := if !ShouldDispatch(rt) && !ShouldWaitForSteer(rt)
                                then log + [Disposed(eventId, Final)] else log))
  }

  function DoCompletionNoted(m: Machine): Machine {
    if !m.actor.Completing? then m
    else m.(rt := m.rt.(pendingCompletionEventIds := m.rt.pendingCompletionEventIds + [m.actor.eventId]), actor := Free)
  }

  function DisposedAll(ids: seq<nat>, d: Disposition): (r: seq<Observation>)
    ensures |r| == |ids| && forall i :: 0 <= i < |ids| ==> r[i] == Disposed(ids[i], d)
  {
    seq(|ids|, i requires 0 <= i < |ids| => Disposed(ids[i], d))
  }

  function DoDrainQueue(m: Machine): Machine {
    if !m.actor.Free? then m
    else
      var (rt, step) := BeginDrain(m.rt);
      match step
      case Blocked => m
      case Idle(ids) => m.(rt := rt, hist := m.hist.(log := m.hist.log + DisposedAll(ids, Final)))
      case Start(e) =>
        m.(rt := rt, actor := DrainStarting(e), hist := m.hist.(log := m.hist.log + [TurnHandedOver(e)]))
  }

  function DoDrainReply(m: Machine, turnId: Option<Name>, message: Name): Machine {
    if !m.actor.DrainStarting? then m
    else
      var e := m.actor.entry;
      var ids := m.rt.pendingCompletionEventIds;
      var hist := if turnId.Some?
                  then Took(m.hist, e).(log := m.hist.log + [TurnAccepted(e)] + DisposedAll(ids, Continued))
                  else m.hist.(log := m.hist.log + DisposedAll(ids, Final));
      m.(rt := FinishDrain(m.rt, e, turnId, message), actor := Free, hist := hist)
  }

  /** A change of the runtime by an event or call that holds the actor lock for one section only. */
  function Under(m: Machine, rt: Runtime): Machine {
    if m.actor.Free? then m.(rt := rt, present := true) else m
  }

  function Apply(m: Machine, s: Step): Machine {
    match s
    case Send(content, turnStart) => DoSend(m, content, turnStart)
    case SendCommit => DoSendCommit(m)
    case SendReply(turnId) => DoSendReply(m, turnId)
    case SteerMessage(id) => if m.present then Under(m, Steer(m.rt, id).0) else m
    case CancelMessage(id) => DoCancel(m, id)
    case Hydrate(snapshot) => DoHydrate(m, snapshot)
    case SpawnSteerDrain(t) => if t in m.tasks then m else m.(tasks := m.tasks[t := Top])
    case PrepareBegin(t) => DoPrepareBegin(m, t)
    case PrepareEnd(t, error) => DoPrepareEnd(m, t, error)
    case VerifyEpoch(t, verdict, message) => DoVerify(m, t, verdict, message)
    case HandOver(t) => DoHandOver(m, t)
    case PromptFailed(t, message) => DoPromptFailed(m, t, message)
    case SteerReply(t, error) => DoSteerReply(m, t, error)
    case EventRunStarted(turn, run, generation) => Under(m, RunStarted(m.rt, turn, run, generation))
    case EventRunEnded(eventId, turn, generation) => DoRunEnded(m, eventId, turn, generation)
    case CompletionNoted => DoCompletionNoted(m)
    case EventTool(toolId, turn, run, generation, status) => Under(m, Tool(m.rt, toolId, turn, run, generation, status))
    case EventApprovalRequested(id) => Under(m, ApprovalRequested(m.rt, id))
    case EventApprovalResolved(id) => if m.present then Under(m, ApprovalResolved(m.rt, id)) else m
    case EventInputRequested(id) => Under(m, UserInputRequested(m.rt, id))
    case EventInputResolved(id) => if m.present then Under(m, UserInputResolved(m.rt, id)) else m
    case DrainQueue => DoDrainQueue(m)
    case DrainReply(turnId, message) => DoDrainReply(m, turnId, message)
    case OtherThreadAllocates(ids) => m.(nextId := m.nextId + ids)
  }

  /** Any sequence of steps; a step that is not possible changes nothing. */
  function RunFrom(m: Machine, steps: seq<Step>): Machine
    decreases |steps|
  {
    if steps == [] then m else Apply(RunFrom(m, steps[..|steps| - 1]), steps[|steps| - 1])
  }

  function Run(steps: seq<Step>): Machine {
    RunFrom(INITIAL, steps)
  }

  // ---- the lanes a message can be in ----

  /** The message held by the sender or the drain while its turn start is outstanding. */
  function Starting(a: Actor): seq<Entry> {
    if a.SendStarting? || a.DrainStarting? then [a.entry] else []
  }

  /** The message of a send between its check and its commit. */
  function Checking(a: Actor): seq<Entry> {
    if a.SendChecked? then [a.entry] else []
  }

  /** All messages the queue is responsible for, in the order it means to deliver them. */
  function Lanes(m: Machine): seq<Entry> {
    Slot(m.rt) + m.rt.pendingSteers + Starting(m.actor) + m.rt.items + Checking(m.actor)
  }

  lemma LanesWhenFree(m: Machine)
    requires m.actor.Free? || m.actor.Completing?
    ensures Lanes(m) == Queue(m.rt)
  {
  }

  // ---- the guards across critical sections ----

  /** Nothing that blocks a turn start; the flag of the turn start itself aside. */
  predicate Quiet(r: Runtime) {
    && !r.threadRunning
    && r.steerDispatchInFlight.None?
    && r.pendingSteers == []
    && !r.steerPrepareInFlight
    && r.pendingApprovalIds == {}
    && r.pendingUserInputIds == {}
  }

  predicate TurnStartOutstanding(a: Actor) {
    a.SendStarting? || a.DrainStarting?
  }

  predicate IsPreparing(m: Machine, t: nat) {
    t in m.tasks && m.tasks[t] == Preparing
  }

  ghost predicate Guarded(m: Machine) {
    && (m.rt.turnStartInFlight <==> TurnStartOutstanding(m.actor))
    && (TurnStartOutstanding(m.actor) ==> Quiet(m.rt))
    && (m.actor.SendChecked? && !m.actor.blocked ==> Quiet(m.rt))
    && (m.actor.SendStarting? || (m.actor.SendChecked? && !m.actor.blocked) ==> m.rt.items == [])
    && m.rt.actionInFlightItemId.None?
    && (m.actor.Completing? ==> m.rt.steerDispatchInFlight.None?)
    && CrossedMeansPromoted(m.rt)
    && (!m.present ==> Vacant(m.rt) && m.actor.Free?)
  }

  /** A runtime that nothing was queued in. */
  predicate Vacant(r: Runtime) {
    && r.items == [] && r.pendingSteers == [] && r.steerDispatchInFlight.None?
    && !r.steerPrepareInFlight && r.pendingCompletionEventIds == []
  }

  /** While no run has started since the completion a steer crossed, no pending steer is behind it. */
  predicate CrossedMeansPromoted(r: Runtime) {
    r.steerDispatchInFlight.Some? && r.steerDispatchInFlight.value.crossedCompletionBoundary && !r.threadRunning
    ==> r.pendingSteers == []
  }

  ghost predicate OnePrepare(m: Machine) {
    && (m.rt.steerPrepareInFlight <==> exists t :: IsPreparing(m, t))
    && (forall t, u :: IsPreparing(m, t) && IsPreparing(m, u) ==> t == u)
  }

  // ---- what a step does to the lanes and the accounts ----

  datatype Effect =
    | Kept
    | Arrived(entry: Entry)
    | DeliveredHead
    | CancelledAt(at: nat)
    | RejectedAt(at: nat)
    | Moved(from: nat, to: nat)

  function Move<T>(s: seq<T>, from: nat, to: nat): seq<T>
    requires from < |s| && to < |s|
  {
    Without(s, from)[..to] + [s[from]] + Without(s, from)[to..]
  }

  predicate SameAccounts(h: History, h': History) {
    h'.offered == h.offered && h'.delivered == h.delivered && h'.cancelled == h.cancelled && h'.rejected == h.rejected
  }

  ghost predicate HasEffect(m: Machine, m': Machine, eff: Effect) {
    var lanes, lanes', h, h' := Lanes(m), Lanes(m'), m.hist, m'.hist;
    && h.agentTook <= h'.agentTook
    && match eff
       case Kept => lanes' == lanes && SameAccounts(h, h')
       case Arrived(e) => lanes' == lanes + [e] && SameAccounts(h.(offered := h.offered + [e]), h')
                          && m.nextId <= e.id < m'.nextId
       case DeliveredHead => lanes != [] && lanes' == lanes[1..]
                             && SameAccounts(h.(delivered := h.delivered + [lanes[0]]), h')
       case CancelledAt(i) => i < |lanes| && lanes' == Without(lanes, i)
                              && SameAccounts(h.(cancelled := h.cancelled + multiset{lanes[i]}), h')
       case RejectedAt(i) => i < |lanes| && lanes' == Without(lanes, i)
                             && SameAccounts(h.(rejected := h.rejected + multiset{lanes[i]}), h')
       case Moved(i, j) => i < |lanes| && j < |lanes| && lanes' == Move(lanes, i, j) && SameAccounts(h, h')
  }

  /** A steer that crossed a completion fails while other steers are already waiting behind it. */
  predicate LateFailure(m: Machine, s: Step) {
    && s.SteerReply? && s.steerError.Some? && m.actor.Free? && IsSent(m, s.task)
    && Owns(m.rt, m.tasks[s.task].dispatch)
    && m.rt.steerDispatchInFlight.value.crossedCompletionBoundary
    && m.rt.pendingSteers != []
  }

  // Each critical section is looked at once: it keeps the guards, has one effect on the lanes,
  // and leaves the prepare flag and the preparing drain alone unless it is one of the two around prepare.

  predicate PrepareSame(m: Machine, m': Machine) {
    m'.rt.steerPrepareInFlight == m.rt.steerPrepareInFlight
  }

  ghost predicate PreparingSame(m: Machine, m': Machine) {
    forall t :: IsPreparing(m', t) <==> IsPreparing(m, t)
  }

  ghost predicate Sound(m: Machine, m': Machine, eff: Effect) {
    Guarded(m') && HasEffect(m, m', eff)
  }

  ghost predicate PrepareKept(m: Machine, m': Machine) {
    PrepareSame(m, m') && PreparingSame(m, m')
  }

  lemma SendSound(m: Machine, content: seq<Byte>, turnStart: seq<Byte>) returns (eff: Effect)
    requires Guarded(m)
    ensures Sound(m, DoSend(m, content, turnStart), eff) && !eff.Moved?
    ensures PrepareKept(m, DoSend(m, content, turnStart))
  {
    eff := if m.actor.Free? && m.present then Arrived(Entry(m.nextId, content, turnStart)) else Kept;
  }

  lemma SendCommitSound(m: Machine) returns (eff: Effect)
    requires Guarded(m)
    ensures Sound(m, DoSendCommit(m), eff) && !eff.Moved?
    ensures PrepareKept(m, DoSendCommit(m))
  {
    hide QueuedBytes;
    eff := Kept;
    if m.actor.SendChecked? && m.actor.blocked && !Admissible(m.rt, m.actor.entry) {
      eff := RejectedAt(|Lanes(m)| - 1);
    }
  }

  lemma SendReplySound(m: Machine, turnId: Option<Name>) returns (eff: Effect)
    requires Guarded(m)
    ensures Sound(m, DoSendReply(m, turnId), eff) && !eff.Moved?
    ensures PrepareKept(m, DoSendReply(m, turnId))
  {
    eff := if !m.actor.SendStarting? then Kept else if turnId.Some? then DeliveredHead else RejectedAt(0);
  }

  lemma SteerQueue(r: Runtime, id: nat, i: nat)
    requires Steer(r, id).1.Done? && IndexOf(r.items, id) == Some(i)
    ensures |Slot(r)| + |r.pendingSteers| + i < |Queue(r)|
    ensures var k := |Slot(r)| + |r.pendingSteers|;
            Queue(Steer(r, id).0) == Move(Queue(r), k + i, k)
  {
    hide Move;
    SteerMoves(Slot(r) + r.pendingSteers, r.items, i);
    assert Slot(r) + (r.pendingSteers + [r.items[i]]) == Slot(r) + r.pendingSteers + [r.items[i]];
  }

  lemma SteerOutcome(r: Runtime, id: nat)
    ensures Steer(r, id).1.Done? ==> IndexOf(r.items, id).Some?
    ensures !Steer(r, id).1.Done? ==> Steer(r, id).0 == r
  {
  }

  lemma UnderKept(m: Machine, r: Runtime)
    requires !m.actor.Free? || r == m.rt
    ensures HasEffect(m, Under(m, r), Kept)
  {
    if m.actor.Free? {
      LanesWhenFree(m);
      LanesWhenFree(m.(rt := r, present := true));
    }
    hide Queue;
  }

  lemma UnderMoved(m: Machine, r: Runtime, i: nat, j: nat)
    requires m.actor.Free? && i < |Queue(m.rt)| && j < |Queue(m.rt)| && Queue(r) == Move(Queue(m.rt), i, j)
    ensures HasEffect(m, Under(m, r), Moved(i, j))
  {
    LanesWhenFree(m);
    LanesWhenFree(m.(rt := r, present := true));
    hide Move, Queue;
  }

  lemma SteerGuarded(m: Machine, id: nat)
    requires Guarded(m) && m.present
    ensures Guarded(Under(m, Steer(m.rt, id).0)) && PrepareKept(m, Under(m, Steer(m.rt, id).0))
  {
  }

  lemma SteerEffect(m: Machine, id: nat) returns (eff: Effect)
    ensures HasEffect(m, Under(m, Steer(m.rt, id).0), eff)
  {
    hide Lanes, Move, Queue, Slot, Steer, IndexOf, HasEffect, Under;
    if m.actor.Free? && Steer(m.rt, id).1.Done? {
      SteerOutcome(m.rt, id);
      var i := IndexOf(m.rt.items, id).value;
      var k := |Slot(m.rt)| + |m.rt.pendingSteers|;
      eff := Moved(k + i, k);
      SteerQueue(m.rt, id, i);
      UnderMoved(m, Steer(m.rt, id).0, k + i, k);
    } else {
      eff := Kept;
      SteerOutcome(m.rt, id);
      UnderKept(m, Steer(m.rt, id).0);
    }
  }

  lemma SteerSound(m: Machine, id: nat) returns (eff: Effect)
    requires Guarded(m) && m.present
    ensures Sound(m, Under(m, Steer(m.rt, id).0), eff)
    ensures PrepareKept(m, Under(m, Steer(m.rt, id).0))
  {
    hide Guarded, PrepareKept, Steer, HasEffect, Under;
    SteerGuarded(m, id);
    eff := SteerEffect(m, id);
  }

  /** Taking an item to the end of the part before it is a move in the whole. */
  lemma SteerMoves(before: seq<Entry>, items: seq<Entry>, i: nat)
    requires i < |items|
    ensures before + [items[i]] + Without(items, i) == Move(before + items, |before| + i, |before|)
  {
  }

  /** Where in the queue the cancelled message stood. */
  function CancelIndex(r: Runtime, id: nat): nat
    requires Cancel(r, id).1.Done?
  {
    match IndexOf(r.items, id)
    case Some(i) => |Slot(r)| + |r.pendingSteers| + i
    case None => |Slot(r)| + IndexOf(r.pendingSteers, id).value
  }

  lemma CancelQueue(r: Runtime, id: nat)
    requires Cancel(r, id).1.Done?
    ensures CancelIndex(r, id) < |Queue(r)| && Queue(r)[CancelIndex(r, id)] == Cancelled(r, id)
    ensures Queue(Cancel(r, id).0) == Without(Queue(r), CancelIndex(r, id))
  {
    hide Without;
    match IndexOf(r.items, id) {
      case Some(i) =>
        WithoutAfter(Slot(r) + r.pendingSteers, r.items, [], i);
        assert r.items + [] == r.items && Without(r.items, i) + [] == Without(r.items, i);
        assert Slot(r) + r.pendingSteers + r.items + [] == Queue(r);
      case None =>
        var i := IndexOf(r.pendingSteers, id).value;
        WithoutAfter(Slot(r), r.pendingSteers, r.items, i);
    }
  }

  lemma CancelGuarded(m: Machine, id: nat)
    requires Guarded(m)
    ensures Guarded(DoCancel(m, id)) && PrepareKept(m, DoCancel(m, id))
  {
    hide Cancelled;
  }

  lemma CancelSound(m: Machine, id: nat) returns (eff: Effect)
    requires Guarded(m)
    ensures Sound(m, DoCancel(m, id), eff) && !eff.Moved?
    ensures PrepareKept(m, DoCancel(m, id))
  {
    CancelGuarded(m, id);
    hide Guarded, PrepareKept, Lanes, Without, Cancelled, CancelIndex;
    eff := Kept;
    if m.actor.Free? {
      LanesWhenFree(m);
      LanesWhenFree(DoCancel(m, id));
      if Cancel(m.rt, id).1.Done? {
        eff := CancelledAt(CancelIndex(m.rt, id));
        CancelQueue(m.rt, id);
      }
    }
  }

  lemma HydrateSound(m: Machine, snapshot: SessionSnapshot)
    requires Guarded(m)
    ensures Sound(m, DoHydrate(m, snapshot), Kept)
    ensures PrepareKept(m, DoHydrate(m, snapshot))
  {
  }

  lemma SpawnSound(m: Machine, t: nat)
    requires Guarded(m) && t !in m.tasks
    ensures Sound(m, m.(tasks := m.tasks[t := Top]), Kept)
    ensures PrepareKept(m, m.(tasks := m.tasks[t := Top]))
  {
  }

  lemma PrepareBeginSound(m: Machine, t: nat)
    requires Guarded(m)
    ensures Sound(m, DoPrepareBegin(m, t), Kept)
  {
  }

  lemma PrepareEndSound(m: Machine, t: nat, error: Option<Name>)
    requires Guarded(m)
    ensures Sound(m, DoPrepareEnd(m, t, error), Kept)
  {
  }

  /** Whoever fills the slot, a failure puts its message back where it came from. */
  lemma FailQueue(r: Runtime, item: ErrorItem, message: Name)
    ensures Slot(FailSteer(r, item, message)) + FailSteer(r, item, message).pendingSteers == Slot(r) + r.pendingSteers
  {
  }

  lemma VerifyGuarded(m: Machine, t: nat, verdict: Verdict, message: Name)
    requires Guarded(m)
    ensures Guarded(DoVerify(m, t, verdict, message)) && PrepareKept(m, DoVerify(m, t, verdict, message))
  {
  }

  lemma VerifySound(m: Machine, t: nat, verdict: Verdict, message: Name)
    requires Guarded(m)
    ensures Sound(m, DoVerify(m, t, verdict, message), Kept)
    ensures PrepareKept(m, DoVerify(m, t, verdict, message))
  {
    VerifyGuarded(m, t, verdict, message);
    FailQueue(m.rt, PrepareLabel, message);
    hide Guarded, PrepareKept, Slot;
  }

  lemma HandOverSound(m: Machine, t: nat)
    requires Guarded(m)
    ensures Sound(m, DoHandOver(m, t), Kept)
    ensures PrepareKept(m, DoHandOver(m, t))
  {
  }

  lemma PromptFailedSound(m: Machine, t: nat, message: Name)
    requires Guarded(m)
    ensures Sound(m, DoPromptFailed(m, t, message), Kept)
    ensures PrepareKept(m, DoPromptFailed(m, t, message))
  {
  }

  /** What an acknowledgement of the owned steer does to the queue. */
  lemma AcknowledgeQueue(r: Runtime, d: Dispatch, error: Option<Name>)
    requires Owns(r, d)
    ensures error.None? ==> Queue(AcknowledgeSteer(r, d, error)) == Queue(r)[1..]
    ensures error.Some? ==> Queue(AcknowledgeSteer(r, d, error))
                            == if r.steerDispatchInFlight.value.crossedCompletionBoundary
                               then Move(Queue(r), 0, |r.pendingSteers|) else Queue(r)
  {
    var e := r.steerDispatchInFlight.value.entry;
    HeadBehind(e, r.pendingSteers, r.items);
    assert Slot(r) == [e];
    assert [] + r.pendingSteers + r.items == r.pendingSteers + r.items;
    assert [e] + r.pendingSteers + r.items == [] + ([e] + r.pendingSteers) + r.items;
  }

  lemma HeadBehind(e: Entry, pending: seq<Entry>, items: seq<Entry>)
    ensures ([e] + pending + items)[1..] == pending + items
    ensures Move([e] + pending + items, 0, |pending|) == [] + pending + ([e] + items)
  {
    var all := [e] + pending + items;
    assert Without(all, 0) == pending + items;
  }

  lemma SteerReplyGuarded(m: Machine, t: nat, error: Option<Name>)
    requires Guarded(m)
    ensures Guarded(DoSteerReply(m, t, error)) && PrepareKept(m, DoSteerReply(m, t, error))
  {
  }

  lemma MoveNowhere<T>(s: seq<T>)
    requires s != []
    ensures Move(s, 0, 0) == s
  {
  }

  lemma OwnedReplyEffect(m: Machine, t: nat, error: Option<Name>) returns (eff: Effect)
    requires m.actor.Free? && IsSent(m, t) && Owns(m.rt, m.tasks[t].dispatch)
    ensures HasEffect(m, DoSteerReply(m, t, error), eff)
    ensures eff.Moved? ==> LateFailure(m, SteerReply(t, error))
  {
    LanesWhenFree(m);
    LanesWhenFree(DoSteerReply(m, t, error));
    AcknowledgeQueue(m.rt, m.tasks[t].dispatch, error);
    hide Lanes, Move, AcknowledgeSteer;
    if error.None? {
      eff := DeliveredHead;
      HeadInSlot(m.rt);
    } else if LateFailure(m, SteerReply(t, error)) {
      eff := Moved(0, |m.rt.pendingSteers|);
    } else {
      eff := Kept;
      MoveNowhere(Queue(m.rt));
    }
  }

  lemma HeadInSlot(r: Runtime)
    requires r.steerDispatchInFlight.Some?
    ensures Queue(r) != [] && Queue(r)[0] == r.steerDispatchInFlight.value.entry
  {
  }

  lemma OtherReplyEffect(m: Machine, t: nat, error: Option<Name>)
    requires !m.actor.Free? || !IsSent(m, t) || !Owns(m.rt, m.tasks[t].dispatch)
    ensures HasEffect(m, DoSteerReply(m, t, error), Kept)
  {
  }

  lemma SteerReplySound(m: Machine, t: nat, error: Option<Name>) returns (eff: Effect)
    requires Guarded(m)
    ensures Sound(m, DoSteerReply(m, t, error), eff)
    ensures eff.Moved? ==> LateFailure(m, SteerReply(t, error))
    ensures PrepareKept(m, DoSteerReply(m, t, error))
  {
    SteerReplyGuarded(m, t, error);
    hide Guarded, PrepareKept, HasEffect, DoSteerReply, LateFailure;
    if m.actor.Free? && IsSent(m, t) && Owns(m.rt, m.tasks[t].dispatch) {
      eff := OwnedReplyEffect(m, t, error);
    } else {
      eff := Kept;
      OtherReplyEffect(m, t, error);
    }
  }

  /** A completion keeps in-flight ++ pending ++ queued as one sequence. */
  lemma RunEndedQueue(r: Runtime, turn: Name, generation: nat)
    ensures Queue(RunEnded(r, turn, generation)) == Queue(r)
  {
    var r' := RunEnded(r, turn, generation);
    assert Slot(r') == Slot(r);
    assert Slot(r) + r.pendingSteers + r.items == Slot(r) + [] + (r.pendingSteers + r.items);
  }

  lemma RunEndedGuarded(m: Machine, eventId: nat, turn: Name, generation: nat)
    requires Guarded(m)
    ensures Guarded(DoRunEnded(m, eventId, turn, generation))
    ensures PrepareKept(m, DoRunEnded(m, eventId, turn, generation))
  {
  }

  lemma RunEndedSound(m: Machine, eventId: nat, turn: Name, generation: nat)
    requires Guarded(m)
    ensures Sound(m, DoRunEnded(m, eventId, turn, generation), Kept)
    ensures PrepareKept(m, DoRunEnded(m, eventId, turn, generation))
  {
    RunEndedGuarded(m, eventId, turn, generation);
    hide Guarded, PrepareKept, Lanes, Queue;
    if m.actor.Free? {
      RunEndedQueue(m.rt, turn, generation);
      LanesWhenFree(m);
      LanesWhenFree(DoRunEnded(m, eventId, turn, generation));
    }
  }

  lemma DrainGuarded(m: Machine)
    requires Guarded(m)
    ensures Guarded(DoDrainQueue(m)) && PrepareKept(m, DoDrainQueue(m))
  {
    hide DisposedAll;
  }

  lemma DrainSound(m: Machine)
    requires Guarded(m)
    ensures Sound(m, DoDrainQueue(m), Kept)
    ensures PrepareKept(m, DoDrainQueue(m))
  {
    DrainGuarded(m);
    hide Guarded, PrepareKept, DisposedAll;
  }

  lemma DrainReplySound(m: Machine, turnId: Option<Name>, message: Name) returns (eff: Effect)
    requires Guarded(m)
    ensures Sound(m, DoDrainReply(m, turnId, message), eff) && !eff.Moved?
    ensures PrepareKept(m, DoDrainReply(m, turnId, message))
  {
    hide DisposedAll;
    eff := if m.actor.DrainStarting? && turnId.Some? then DeliveredHead else Kept;
  }

  lemma CompletionNotedSound(m: Machine)
    requires Guarded(m)
    ensures Sound(m, DoCompletionNoted(m), Kept)
    ensures PrepareKept(m, DoCompletionNoted(m))
  {
  }

  /** The parts of the runtime that the other events leave alone. */
  predicate QueueUntouched(r: Runtime, r': Runtime) {
    && r'.items == r.items && r'.pendingSteers == r.pendingSteers
    && r'.steerDispatchInFlight == r.steerDispatchInFlight
    && r'.steerPrepareInFlight == r.steerPrepareInFlight
    && r'.actionInFlightItemId == r.actionInFlightItemId
    && r'.pendingCompletionEventIds == r.pendingCompletionEventIds
    && (r.threadRunning ==> r'.threadRunning)
    && r'.turnStartInFlight == (r.turnStartInFlight && r'.turnStartInFlight)
  }

  lemma EventSound(m: Machine, r': Runtime)
    requires Guarded(m) && QueueUntouched(m.rt, r')
    ensures Sound(m, Under(m, r'), Kept)
    ensures PrepareKept(m, Under(m, r'))
  {
  }

  /** Every step keeps the guards and has one effect; only two kinds of step move a message. */
  lemma StepSound(m: Machine, s: Step) returns (eff: Effect)
    requires Guarded(m)
    ensures Guarded(Apply(m, s)) && HasEffect(m, Apply(m, s), eff)
    ensures eff.Moved? ==> s.SteerMessage? || LateFailure(m, s)
    ensures !s.PrepareBegin? && !s.PrepareEnd? ==> PrepareKept(m, Apply(m, s))
  {
    hide Guarded, HasEffect, PrepareKept, LateFailure, Under, Steer, RunStarted, Tool;
    hide DoSend, DoSendCommit, DoSendReply, DoCancel, DoHydrate, DoPrepareBegin, DoPrepareEnd, DoVerify, DoHandOver;
    hide DoPromptFailed, DoSteerReply, DoRunEnded, DoCompletionNoted, DoDrainQueue, DoDrainReply;
    eff := Kept;
    NothingHappens(m);
    match s {
      case Send(content, turnStart) => eff := SendSound(m, content, turnStart);
      case SendCommit => eff := SendCommitSound(m);
      case SendReply(turnId) => eff := SendReplySound(m, turnId);
      case SteerMessage(id) => if m.present { eff := SteerSound(m, id); }
      case CancelMessage(id) => eff := CancelSound(m, id);
      case Hydrate(snapshot) => HydrateSound(m, snapshot);
      case SpawnSteerDrain(t) => if t !in m.tasks { SpawnSound(m, t); }
      case PrepareBegin(t) => PrepareBeginSound(m, t);
      case PrepareEnd(t, error) => PrepareEndSound(m, t, error);
      case VerifyEpoch(t, verdict, message) => VerifySound(m, t, verdict, message);
      case HandOver(t) => HandOverSound(m, t);
      case PromptFailed(t, message) => PromptFailedSound(m, t, message);
      case SteerReply(t, error) => eff := SteerReplySound(m, t, error);
      case EventRunEnded(eventId, turn, generation) => RunEndedSound(m, eventId, turn, generation);
      case CompletionNoted => CompletionNotedSound(m);
      case DrainQueue => DrainSound(m);
      case DrainReply(turnId, message) => eff := DrainReplySound(m, turnId, message);
      case _ => OtherEventSound(m, s);
    }
  }

  lemma NothingHappens(m: Machine)
    requires Guarded(m)
    ensures Sound(m, m, Kept) && PrepareKept(m, m)
  {
  }

  predicate OtherEvent(s: Step) {
    || s.EventRunStarted? || s.EventTool? || s.OtherThreadAllocates?
    || s.EventApprovalRequested? || s.EventApprovalResolved? || s.EventInputRequested? || s.EventInputResolved?
  }

  lemma OtherEventSound(m: Machine, s: Step)
    requires Guarded(m) && OtherEvent(s)
    ensures Sound(m, Apply(m, s), Kept) && PrepareKept(m, Apply(m, s))
  {
    if s.EventRunStarted? || s.EventTool? || s.OtherThreadAllocates? {
      RunEventSound(m, s);
    } else {
      RequestEventSound(m, s);
    }
  }

  lemma RunStartedUntouched(r: Runtime, turn: Name, run: Name, generation: nat)
    ensures QueueUntouched(r, RunStarted(r, turn, run, generation))
  {
  }

  lemma ToolUpdateUntouched(r: Runtime, toolId: Name, status: ToolStatus)
    ensures QueueUntouched(r, ToolUpdate(r, toolId, status))
  {
    match status {
      case Unknown =>
      case _ =>
    }
  }

  lemma ToolUntouched(r: Runtime, toolId: Name, turn: Option<Name>, run: Option<Name>, generation: Option<nat>,
                      status: ToolStatus)
    ensures QueueUntouched(r, Tool(r, toolId, turn, run, generation, status))
  {
    ToolUpdateUntouched(r, toolId, status);
    hide ToolUpdate, ToolCorrelates;
  }

  lemma RunEventSound(m: Machine, s: Step)
    requires Guarded(m) && (s.EventRunStarted? || s.EventTool? || s.OtherThreadAllocates?)
    ensures Sound(m, Apply(m, s), Kept) && PrepareKept(m, Apply(m, s))
  {
    hide Guarded, HasEffect, PrepareKept, Under, RunStarted, Tool, QueueUntouched;
    match s {
      case EventRunStarted(turn, run, generation) =>
        RunStartedUntouched(m.rt, turn, run, generation);
        EventSound(m, RunStarted(m.rt, turn, run, generation));
      case EventTool(toolId, turn, run, generation, status) =>
        ToolUntouched(m.rt, toolId, turn, run, generation, status);
        EventSound(m, Tool(m.rt, toolId, turn, run, generation, status));
      case OtherThreadAllocates(ids) => IdsSkipped(m, ids);
    }
  }

  lemma RequestEventSound(m: Machine, s: Step)
    requires Guarded(m) && OtherEvent(s) && !s.EventRunStarted? && !s.EventTool? && !s.OtherThreadAllocates?
    ensures Sound(m, Apply(m, s), Kept) && PrepareKept(m, Apply(m, s))
  {
    hide Guarded, HasEffect, PrepareKept, Under;
    NothingHappens(m);
    match s {
      case EventApprovalRequested(id) => EventSound(m, ApprovalRequested(m.rt, id));
      case EventApprovalResolved(id) => EventSound(m, ApprovalResolved(m.rt, id));
      case EventInputRequested(id) => EventSound(m, UserInputRequested(m.rt, id));
      case EventInputResolved(id) => EventSound(m, UserInputResolved(m.rt, id));
    }
  }

  lemma IdsSkipped(m: Machine, ids: nat)
    requires Guarded(m)
    ensures Sound(m, m.(nextId := m.nextId + ids), Kept) && PrepareKept(m, m.(nextId := m.nextId + ids))
  {
  }

  // ---- at most one drain prepares ----

  lemma PrepareBeginKeepsOne(m: Machine, t: nat)
    requires OnePrepare(m)
    ensures OnePrepare(DoPrepareBegin(m, t))
  {
    var m' := DoPrepareBegin(m, t);
    assert forall u :: u != t ==> (IsPreparing(m', u) <==> IsPreparing(m, u));
    if m.actor.Free? && TaskAt(m, t) == Some(Top) && MayPrepareSteer(m.rt) {
      assert IsPreparing(m', t);
    }
  }

  lemma PrepareEndKeepsOne(m: Machine, t: nat, error: Option<Name>)
    requires OnePrepare(m)
    ensures OnePrepare(DoPrepareEnd(m, t, error))
  {
    var m' := DoPrepareEnd(m, t, error);
    assert forall u :: u != t ==> (IsPreparing(m', u) <==> IsPreparing(m, u));
    if m.actor.Free? && IsPreparing(m, t) {
      assert forall u :: !IsPreparing(m', u);
    }
  }

  lemma PrepareKeptKeepsOne(m: Machine, m': Machine)
    requires OnePrepare(m) && PrepareKept(m, m')
    ensures OnePrepare(m')
  {
    if m.rt.steerPrepareInFlight {
      var t :| IsPreparing(m, t);
      assert IsPreparing(m', t);
    }
  }

  lemma StepOnePrepare(m: Machine, s: Step)
    requires Guarded(m) && OnePrepare(m)
    ensures OnePrepare(Apply(m, s))
  {
    hide Guarded, OnePrepare, HasEffect, PrepareKept, LateFailure, DoPrepareBegin, DoPrepareEnd;
    match s {
      case PrepareBegin(t) => PrepareBeginKeepsOne(m, t);
      case PrepareEnd(t, error) => PrepareEndKeepsOne(m, t, error);
      case _ =>
        hide Apply;
        var _ := StepSound(m, s);
        PrepareKeptKeepsOne(m, Apply(m, s));
    }
  }
}
