/**
 The per-thread state of the message queue, and the critical sections that change it.
 Each function is what one section holding the threads lock does to the state; the class
 below performs the same sections in place.
 */
module QueueRuntime {
  import opened Wrappers
  import opened Utf8

  const QUEUE_MAX_ITEMS_PER_THREAD: nat := 100
  const QUEUE_MAX_BYTES_PER_THREAD: nat := 1024 * 1024

  /** Turn, run, tool and request ids and error texts: the queue only compares and copies them. */
  type Name = nat

  /** A queued message; "queue-N" is the number N, and the turn start is its serialized form. */
  datatype Entry = Entry(id: nat, content: seq<Byte>, turnStart: seq<Byte>)
  {
    function Bytes(): nat { |content| + |turnStart| }
  }

  /** A steer handed to the agent and not yet acknowledged. */
  datatype Dispatch = Dispatch(
    entry: Entry, expectedTurnId: Name, expectedRunId: Name, promptGeneration: nat,
    crossedCompletionBoundary: bool)

  datatype ErrorItem = NoItem | Item(id: nat) | PrepareLabel
  datatype Operation = SteerOperation | DispatchOperation
  datatype QueueError = QueueError(message: Name, operation: Operation, item: ErrorItem)

  datatype ToolStatus = Pending | InProgress | Completed | Failed | Unknown

  datatype Runtime = Runtime(
    items: seq<Entry>,
    pendingSteers: seq<Entry>,
    steerPrepareInFlight: bool,
    steerDispatchInFlight: Option<Dispatch>,
    activeTurnId: Option<Name>,
    activeRunId: Option<Name>,
    activePromptGeneration: Option<nat>,
    activeToolCallIds: set<Name>,
    liveGenerationKnown: bool,
    threadRunning: bool,
    turnStartInFlight: bool,
    actionInFlightItemId: Option<nat>,
    pendingApprovalIds: set<Name>,
    pendingUserInputIds: set<Name>,
    pendingCompletionEventIds: seq<nat>,
    lastError: Option<QueueError>)

  const DEFAULT: Runtime :=
    Runtime([], [], false, None, None, None, None, {}, false, false, false, None, {}, {}, [], None)

  function IndexOf(entries: seq<Entry>, id: nat): (r: Option<nat>)
    ensures r.Some? ==> r.value < |entries| && entries[r.value].id == id
                        && forall k :: 0 <= k < r.value ==> entries[k].id != id
    ensures r.None? ==> forall k :: 0 <= k < |entries| ==> entries[k].id != id
  {
    if entries == [] then None
    else if entries[0].id == id then Some(0)
    else
      match IndexOf(entries[1..], id)
      case None =>
        assert forall k :: 1 <= k < |entries| ==> entries[k] == entries[1..][k - 1];
        None
      case Some(i) => Some(i + 1)
  }

  predicate Holds(entries: seq<Entry>, id: nat) {
    exists i :: 0 <= i < |entries| && entries[i].id == id
  }

  function Without<T>(s: seq<T>, i: nat): seq<T>
    requires i < |s|
  {
    s[..i] + s[i + 1..]
  }

  lemma WithoutAfter<T>(before: seq<T>, s: seq<T>, after: seq<T>, i: nat)
    requires i < |s|
    ensures (before + s + after)[|before| + i] == s[i]
    ensures before + Without(s, i) + after == Without(before + s + after, |before| + i)
  {
  }

  function QueuedBytes(entries: seq<Entry>): nat {
    if entries == [] then 0 else entries[0].Bytes() + QueuedBytes(entries[1..])
  }

  // ---- the queue as one sequence ----

  function Slot(r: Runtime): seq<Entry> {
    if r.steerDispatchInFlight.Some? then [r.steerDispatchInFlight.value.entry] else []
  }

  /** The messages of a thread in the order it means to deliver them: in flight, pending, queued. */
  function Queue(r: Runtime): seq<Entry> {
    Slot(r) + r.pendingSteers + r.items
  }

  // ---- blockers ----

  predicate HasBlockers(r: Runtime) {
    || r.threadRunning
    || r.turnStartInFlight
    || r.actionInFlightItemId.Some?
    || r.steerPrepareInFlight
    || r.steerDispatchInFlight.Some?
    || r.pendingSteers != []
    || r.pendingApprovalIds != {}
    || r.pendingUserInputIds != {}
  }

  predicate IsBlockedOrOccupied(r: Runtime) {
    HasBlockers(r) || r.items != []
  }

  // ---- sending ----

  predicate Admissible(r: Runtime, e: Entry) {
    |r.items| < QUEUE_MAX_ITEMS_PER_THREAD && QueuedBytes(r.items) + e.Bytes() <= QUEUE_MAX_BYTES_PER_THREAD
  }

  function Enqueue(r: Runtime, e: Entry): Runtime {
    if Admissible(r, e) then r.(items := r.items + [e], lastError := None) else r
  }

  function BeginTurnStart(r: Runtime): Runtime {
    r.(turnStartInFlight := true, lastError := None)
  }

  /** The reply to a turn start that `send_message` dispatched itself. */
  function FinishTurnStart(r: Runtime, turnId: Option<Name>): Runtime {
    match turnId
    case Some(_) => r.(turnStartInFlight := false, threadRunning := true, activeTurnId := turnId, lastError := None)
    case None => r.(turnStartInFlight := false)
  }

  // ---- steering and cancelling a queued message ----

  datatype ActionOutcome = Done | Busy | NoLiveGeneration | AlreadyDispatched | NotFound

  predicate LiveGeneration(r: Runtime) {
    && r.threadRunning && r.activeTurnId.Some? && r.activeRunId.Some?
    && r.activePromptGeneration.Some? && r.liveGenerationKnown
  }

  function Steer(r: Runtime, id: nat): (Runtime, ActionOutcome) {
    if r.turnStartInFlight || r.actionInFlightItemId.Some? then (r, Busy)
    else if !LiveGeneration(r) then (r, NoLiveGeneration)
    else
      match IndexOf(r.items, id)
      case None => (r, NotFound)
      case Some(i) =>
        (r.(items := Without(r.items, i), pendingSteers := r.pendingSteers + [r.items[i]], lastError := None), Done)
  }

  function Cancel(r: Runtime, id: nat): (Runtime, ActionOutcome) {
    if r.actionInFlightItemId == Some(id) then (r, Busy)
    else
      match IndexOf(r.items, id)
      case Some(i) => (r.(items := Without(r.items, i), lastError := None), Done)
      case None =>
        match IndexOf(r.pendingSteers, id)
        case Some(i) => (r.(pendingSteers := Without(r.pendingSteers, i), lastError := None), Done)
        case None =>
          if r.steerDispatchInFlight.Some? && r.steerDispatchInFlight.value.entry.id == id
          then (r, AlreadyDispatched)
          else (r, NotFound)
  }

  /** What a cancel takes is one message with that id; the others keep their order. */
  lemma CancelTakesOne(r: Runtime, id: nat)
    ensures Cancel(r, id).1.Done? ==>
              exists i :: 0 <= i < |Queue(r)| && Queue(r)[i].id == id && Queue(Cancel(r, id).0) == Without(Queue(r), i)
  {
    hide Without, IndexOf;
    var queued, steered := IndexOf(r.items, id), IndexOf(r.pendingSteers, id);
    if r.actionInFlightItemId == Some(id) {
    } else if queued.Some? {
      assert Slot(Cancel(r, id).0) == Slot(r);
      WithoutAfter(Slot(r) + r.pendingSteers, r.items, [], queued.value);
      assert r.items + [] == r.items && Without(r.items, queued.value) + [] == Without(r.items, queued.value);
      assert Slot(r) + r.pendingSteers + r.items + [] == Queue(r);
    } else if steered.Some? {
      WithoutAfter(Slot(r), r.pendingSteers, r.items, steered.value);
      assert Queue(r)[|Slot(r)| + steered.value] == r.pendingSteers[steered.value];
      assert Slot(Cancel(r, id).0) == Slot(r);
    }
  }

  // ---- the steer drain ----

  predicate MayPrepareSteer(r: Runtime) {
    && r.pendingSteers != []
    && !r.steerPrepareInFlight
    && r.steerDispatchInFlight.None?
    && !r.turnStartInFlight
    && r.actionInFlightItemId.None?
    && r.activeToolCallIds == {}
    && r.liveGenerationKnown
    && r.threadRunning
  }

  function BeginSteerPrepare(r: Runtime): Runtime {
    if MayPrepareSteer(r) then r.(steerPrepareInFlight := true) else r
  }

  function FinishSteerPrepare(r: Runtime, error: Option<Name>): Runtime {
    var r' := r.(steerPrepareInFlight := false);
    match error
    case None => r'
    case Some(message) =>
      var item := if r.pendingSteers == [] then NoItem else Item(r.pendingSteers[0].id);
      r'.(lastError := Some(QueueError(message, SteerOperation, item)))
  }

  predicate MayHandOverSteer(r: Runtime) {
    && r.steerDispatchInFlight.None?
    && !r.turnStartInFlight
    && r.actionInFlightItemId.None?
    && r.activeToolCallIds == {}
    && r.liveGenerationKnown
    && r.threadRunning
    && r.pendingApprovalIds == {}
    && r.pendingUserInputIds == {}
    && r.activeTurnId.Some? && r.activeRunId.Some? && r.activePromptGeneration.Some?
    && r.pendingSteers != []
  }

  function NextDispatch(r: Runtime): Dispatch
    requires MayHandOverSteer(r)
  {
    Dispatch(r.pendingSteers[0], r.activeTurnId.value, r.activeRunId.value, r.activePromptGeneration.value, false)
  }

  function HandOverSteer(r: Runtime): Runtime
    requires MayHandOverSteer(r)
  {
    r.(pendingSteers := r.pendingSteers[1..], steerDispatchInFlight := Some(NextDispatch(r)))
  }

  /** The slot still holds the steer this reply is about. */
  predicate Owns(r: Runtime, dispatch: Dispatch) {
    r.steerDispatchInFlight.Some? && r.steerDispatchInFlight.value.entry.id == dispatch.entry.id
  }

  function AcknowledgeSteer(r: Runtime, dispatch: Dispatch, error: Option<Name>): Runtime {
    if !Owns(r, dispatch) then r
    else
      var owned := r.steerDispatchInFlight.value;
      var free := r.(steerDispatchInFlight := None);
      match error
      case None => free.(lastError := None)
      case Some(message) =>
        var put := if owned.crossedCompletionBoundary
                   then free.(items := [owned.entry] + r.items)
                   else free.(pendingSteers := [owned.entry] + r.pendingSteers);
        put.(lastError := Some(QueueError(message, SteerOperation, Item(owned.entry.id))))
  }

  /** `fail_steer_dispatch`: it takes the slot whoever filled it. */
  function FailSteer(r: Runtime, item: ErrorItem, message: Name): Runtime {
    var put := match r.steerDispatchInFlight
      case None => r
      case Some(owned) => r.(steerDispatchInFlight := None, pendingSteers := [owned.entry] + r.pendingSteers);
    put.(lastError := Some(QueueError(message, SteerOperation, item)))
  }

  // ---- canonical events ----

  function RunStarted(r: Runtime, turnId: Name, runId: Name, generation: nat): Runtime {
    r.(threadRunning := true, turnStartInFlight := false, activeTurnId := Some(turnId), activeRunId := Some(runId),
       activePromptGeneration := Some(generation), activeToolCallIds := {}, liveGenerationKnown := true,
       lastError := None)
  }

  /** The completion is of the turn the queue believes active. */
  predicate CompletionAccepted(r: Runtime, turnId: Name, generation: nat) {
    r.activeTurnId == Some(turnId) && r.activePromptGeneration == Some(generation)
  }

  function RunEnded(r: Runtime, turnId: Name, generation: nat): Runtime {
    if !CompletionAccepted(r, turnId, generation) then r
    else r.(threadRunning := false, activeTurnId := None, activeRunId := None, activePromptGeneration := None,
            activeToolCallIds := {}, liveGenerationKnown := false, pendingApprovalIds := {},
            pendingUserInputIds := {}, items := r.pendingSteers + r.items, pendingSteers := [],
            steerDispatchInFlight := Crossed(r.steerDispatchInFlight))
  }

  function Crossed(slot: Option<Dispatch>): Option<Dispatch> {
    match slot
    case None => None
    case Some(d) => Some(d.(crossedCompletionBoundary := true))
  }

  /** What a completion asks for afterwards: a queue drain, a wait for the steer, or a final disposition. */
  predicate ShouldDispatch(after: Runtime) {
    after.steerDispatchInFlight.None? && after.items != []
  }

  predicate ShouldWaitForSteer(after: Runtime) {
    after.steerDispatchInFlight.Some?
  }

  predicate ToolCorrelates(r: Runtime, turnId: Option<Name>, runId: Option<Name>, generation: Option<nat>) {
    generation == r.activePromptGeneration && runId == r.activeRunId && turnId == r.activeTurnId
  }

  function ToolUpdate(r: Runtime, toolId: Name, status: ToolStatus): Runtime {
    match status
    case Pending => r.(activeToolCallIds := r.activeToolCallIds + {toolId})
    case InProgress => r.(activeToolCallIds := r.activeToolCallIds + {toolId})
    case Completed => r.(activeToolCallIds := r.activeToolCallIds - {toolId})
    case Failed => r.(activeToolCallIds := r.activeToolCallIds - {toolId})
    case Unknown => r.(liveGenerationKnown := false)
  }

  function Tool(r: Runtime, toolId: Name, turnId: Option<Name>, runId: Option<Name>,
                generation: Option<nat>, status: ToolStatus): Runtime {
    if ToolCorrelates(r, turnId, runId, generation) then ToolUpdate(r, toolId, status) else r
  }

  /** What an update of a tool does to the tools at work and to steers. */
  lemma ToolDoes(r: Runtime, toolId: Name, turnId: Option<Name>, runId: Option<Name>, generation: Option<nat>, status: ToolStatus)
    ensures var r' := Tool(r, toolId, turnId, runId, generation, status);
            var about := turnId == r.activeTurnId && runId == r.activeRunId && generation == r.activePromptGeneration;
            && (!about ==> r' == r)
            && (about && (status.Pending? || status.InProgress?) ==>
                  toolId in r'.activeToolCallIds && !MayPrepareSteer(r') && !MayHandOverSteer(r'))
            && (about && (status.Completed? || status.Failed?) ==> toolId !in r'.activeToolCallIds)
            && (about && status.Unknown? ==> !LiveGeneration(r') && r'.activeToolCallIds == r.activeToolCallIds)
            && (forall other :: other != toolId ==> (other in r'.activeToolCallIds <==> other in r.activeToolCallIds))
            && Queue(r') == Queue(r)
  {
    ToolUpdateDoes(r, toolId, status);
    hide ToolUpdate, Queue, MayPrepareSteer, MayHandOverSteer, LiveGeneration;
  }

  lemma ToolUpdateDoes(r: Runtime, toolId: Name, status: ToolStatus)
    ensures var r', ids := ToolUpdate(r, toolId, status), r.activeToolCallIds;
            && (status.Pending? || status.InProgress? ==>
                  r'.activeToolCallIds == ids + {toolId} && !MayPrepareSteer(r') && !MayHandOverSteer(r'))
            && (status.Completed? || status.Failed? ==> r'.activeToolCallIds == ids - {toolId})
            && (status.Unknown? ==> !LiveGeneration(r') && r'.activeToolCallIds == ids)
            && Queue(r') == Queue(r)
  {
    if status.Pending? || status.InProgress? {
      assert toolId in ToolUpdate(r, toolId, status).activeToolCallIds;
    }
  }

  function ApprovalRequested(r: Runtime, id: Name): Runtime {
    r.(pendingApprovalIds := r.pendingApprovalIds + {id})
  }

  function ApprovalResolved(r: Runtime, id: Name): Runtime {
    r.(pendingApprovalIds := r.pendingApprovalIds - {id})
  }

  function UserInputRequested(r: Runtime, id: Name): Runtime {
    r.(pendingUserInputIds := r.pendingUserInputIds + {id})
  }

  function UserInputResolved(r: Runtime, id: Name): Runtime {
    r.(pendingUserInputIds := r.pendingUserInputIds - {id})
  }

  // ---- the queue drain ----

  datatype DrainStep = Blocked | Idle(completions: seq<nat>) | Start(entry: Entry)

  function BeginDrain(r: Runtime): (Runtime, DrainStep) {
    if HasBlockers(r) then (r, Blocked)
    else if r.items == [] then (r.(pendingCompletionEventIds := []), Idle(r.pendingCompletionEventIds))
    else (r.(items := r.items[1..], turnStartInFlight := true, lastError := None), Start(r.items[0]))
  }

  /** The reply to a turn start the drain handed over; the completions are taken in both cases. */
  function FinishDrain(r: Runtime, entry: Entry, turnId: Option<Name>, message: Name): Runtime {
    match turnId
    case Some(_) =>
      r.(turnStartInFlight := false, threadRunning := true, activeTurnId := turnId, lastError := None,
         pendingCompletionEventIds := [])
    case None =>
      r.(turnStartInFlight := false, items := [entry] + r.items,
         lastError := Some(QueueError(message, DispatchOperation, Item(entry.id))), pendingCompletionEventIds := [])
  }

  // ---- hydration ----

  datatype SessionSnapshot = SessionSnapshot(
    sourceTurnId: Option<Name>, runId: Option<Name>, generation: Option<nat>, toolIds: set<Name>,
    historyReconstruction: bool, approvalIds: set<Name>, userInputIds: set<Name>)

  function Hydrated(s: SessionSnapshot): Runtime {
    var live := s.generation.Some? && !s.historyReconstruction;
    DEFAULT.(activeTurnId := s.sourceTurnId, activeRunId := s.runId, activePromptGeneration := s.generation,
             activeToolCallIds := s.toolIds, liveGenerationKnown := live, threadRunning := live,
             pendingApprovalIds := s.approvalIds, pendingUserInputIds := s.userInputIds)
  }

  // ---- the same sections in place ----

  class ThreadQueue {
    var items: seq<Entry>
    var pendingSteers: seq<Entry>
    var steerPrepareInFlight: bool
    var steerDispatchInFlight: Option<Dispatch>
    var activeTurnId: Option<Name>
    var activeRunId: Option<Name>
    var activePromptGeneration: Option<nat>
    var activeToolCallIds: set<Name>
    var liveGenerationKnown: bool
    var threadRunning: bool
    var turnStartInFlight: bool
    var actionInFlightItemId: Option<nat>
    var pendingApprovalIds: set<Name>
    var pendingUserInputIds: set<Name>
    var pendingCompletionEventIds: seq<nat>
    var lastError: Option<QueueError>

    function State(): Runtime
      reads this
    {
      Runtime(items, pendingSteers, steerPrepareInFlight, steerDispatchInFlight, activeTurnId, activeRunId,
              activePromptGeneration, activeToolCallIds, liveGenerationKnown, threadRunning, turnStartInFlight,
              actionInFlightItemId, pendingApprovalIds, pendingUserInputIds, pendingCompletionEventIds, lastError)
    }

    constructor ()
      ensures State() == DEFAULT
    {
      items, pendingSteers, steerPrepareInFlight, steerDispatchInFlight := [], [], false, None;
      activeTurnId, activeRunId, activePromptGeneration, activeToolCallIds := None, None, None, {};
      liveGenerationKnown, threadRunning, turnStartInFlight, actionInFlightItemId := false, false, false, None;
      pendingApprovalIds, pendingUserInputIds, pendingCompletionEventIds, lastError := {}, {}, [], None;
    }

    /** A hydrated thread has no messages; it takes steers for a live session whose turn and run are known. */
    constructor FromSnapshot(s: SessionSnapshot)
      ensures State() == Hydrated(s)
      ensures Queue(State()) == []
      ensures LiveGeneration(State())
              <==> s.generation.Some? && !s.historyReconstruction && s.sourceTurnId.Some? && s.runId.Some?
      ensures HasBlockers(State())
              <==> (s.generation.Some? && !s.historyReconstruction) || s.approvalIds != {} || s.userInputIds != {}
    {
      var live := s.generation.Some? && !s.historyReconstruction;
      items, pendingSteers, steerPrepareInFlight, steerDispatchInFlight := [], [], false, None;
      activeTurnId, activeRunId, activePromptGeneration := s.sourceTurnId, s.runId, s.generation;
      activeToolCallIds := s.toolIds;
      liveGenerationKnown, threadRunning, turnStartInFlight, actionInFlightItemId := live, live, false, None;
      pendingApprovalIds, pendingUserInputIds := s.approvalIds, s.userInputIds;
      pendingCompletionEventIds, lastError := [], None;
    }

    /** The queueing branch of `send_message`. */
    method EnqueueEntry(e: Entry) returns (queued: bool)
      modifies this
      ensures queued <==> Admissible(old(State()), e)
      ensures State() == Enqueue(old(State()), e)
    {
      if |items| >= QUEUE_MAX_ITEMS_PER_THREAD {
        return false;
      }
      var queuedBytes := 0;
      var i := 0;
      while i < |items|
        invariant i <= |items| && queuedBytes + QueuedBytes(items[i..]) == QueuedBytes(items)
      {
        queuedBytes := queuedBytes + items[i].Bytes();
        i := i + 1;
      }
      if queuedBytes + e.Bytes() > QUEUE_MAX_BYTES_PER_THREAD {
        return false;
      }
      items := items + [e];
      lastError := None;
      return true;
    }

    /** Until the reply, no drain starts another turn and no message is steered. */
    method StartTurn()
      modifies this
      ensures State() == BeginTurnStart(old(State()))
      ensures Queue(State()) == old(Queue(State()))
      ensures BeginDrain(State()).1.Blocked? && !MayPrepareSteer(State()) && !MayHandOverSteer(State())
      ensures forall id :: Steer(State(), id).1.Busy?
    {
      turnStartInFlight, lastError := true, None;
    }

    /** A failed start leaves the thread as it was before, but for the recorded error; a successful one runs. */
    method TurnStartReply(turnId: Option<Name>)
      modifies this
      ensures State() == FinishTurnStart(old(State()), turnId)
      ensures Queue(State()) == old(Queue(State()))
      ensures turnId.Some? ==> BeginDrain(State()).1.Blocked?
      ensures turnId.None? ==>
                forall r :: old(State()) == BeginTurnStart(r) && !r.turnStartInFlight ==> State() == r.(lastError := None)
    {
      turnStartInFlight := false;
      if turnId.Some? {
        threadRunning, activeTurnId, lastError := true, turnId, None;
      }
    }

    /** The queued message goes behind the pending steers, or one refusal says why not. */
    method SteerItem(id: nat) returns (outcome: ActionOutcome)
      modifies this
      ensures (State(), outcome) == Steer(old(State()), id)
      ensures outcome.Busy? <==> old(turnStartInFlight || actionInFlightItemId.Some?)
      ensures outcome.NoLiveGeneration? <==> !outcome.Busy? && !LiveGeneration(old(State()))
      ensures outcome.NotFound? <==> !outcome.Busy? && !outcome.NoLiveGeneration? && !Holds(old(items), id)
      ensures outcome.Done? <==> !outcome.Busy? && !outcome.NoLiveGeneration? && Holds(old(items), id)
      ensures outcome.Done? ==> exists i :: 0 <= i < |old(items)| && old(items)[i].id == id
                                            && items == old(items)[..i] + old(items)[i + 1..]
                                            && pendingSteers == old(pendingSteers) + [old(items)[i]]
      ensures !outcome.Done? ==> State() == old(State())
    {
      if turnStartInFlight || actionInFlightItemId.Some? {
        return Busy;
      }
      if !threadRunning || activeTurnId.None? || activeRunId.None? || activePromptGeneration.None?
         || !liveGenerationKnown {
        return NoLiveGeneration;
      }
      var index := IndexOf(items, id);
      if index.None? {
        return NotFound;
      }
      var removed := items[index.value];
      assert items[index.value].id == id;
      items := Without(items, index.value);
      pendingSteers := pendingSteers + [removed];
      lastError := None;
      return Done;
    }

    /** A queued or pending message is gone, with no other; one in flight is only reported, and so is an unknown one. */
    method CancelItem(id: nat) returns (outcome: ActionOutcome)
      modifies this
      ensures (State(), outcome) == Cancel(old(State()), id)
      ensures outcome.Busy? <==> old(actionInFlightItemId) == Some(id)
      ensures outcome.Done? <==> !outcome.Busy? && (Holds(old(items), id) || Holds(old(pendingSteers), id))
      ensures outcome.AlreadyDispatched?
              <==> !outcome.Busy? && !outcome.Done?
                   && old(steerDispatchInFlight).Some? && old(steerDispatchInFlight).value.entry.id == id
      ensures outcome.NotFound? <==> !outcome.Busy? && !outcome.Done? && !outcome.AlreadyDispatched?
      ensures outcome.Done? ==> exists i :: 0 <= i < |old(Queue(State()))| && old(Queue(State()))[i].id == id
                                            && Queue(State()) == Without(old(Queue(State())), i)
      ensures !outcome.Done? ==> State() == old(State())
    {
      if actionInFlightItemId == Some(id) {
        return Busy;
      }
      var queued := IndexOf(items, id);
      var steered := IndexOf(pendingSteers, id);
      CancelTakesOne(State(), id);
      hide Queue;
      if queued.Some? {
        items := Without(items, queued.value);
      } else if steered.Some? {
        pendingSteers := Without(pendingSteers, steered.value);
      } else if steerDispatchInFlight.Some? && steerDispatchInFlight.value.entry.id == id {
        return AlreadyDispatched;
      } else {
        return NotFound;
      }
      lastError := None;
      return Done;
    }

    method PrepareSteer() returns (began: bool)
      modifies this
      ensures began <==> MayPrepareSteer(old(State()))
      ensures State() == BeginSteerPrepare(old(State()))
    {
      if pendingSteers == [] || steerPrepareInFlight || steerDispatchInFlight.Some? || turnStartInFlight
         || actionInFlightItemId.Some? || activeToolCallIds != {} || !liveGenerationKnown || !threadRunning {
        return false;
      }
      steerPrepareInFlight := true;
      return true;
    }

    /**
     The section after `prepare_steer`: the drain goes on only when no error is on record, and the queue drain
     it would start after a failed prepare comes after the return for a recorded error.
     */
    method SteerPrepared(error: Option<Name>) returns (goOn: bool, autoDispatch: bool)
      modifies this
      ensures State() == FinishSteerPrepare(old(State()), error)
      ensures goOn <==> State().lastError.None?
      ensures !autoDispatch
    {
      steerPrepareInFlight := false;
      if error.Some? {
        var item := if pendingSteers == [] then NoItem else Item(pendingSteers[0].id);
        lastError := Some(QueueError(error.value, SteerOperation, item));
      }
      var shouldAutoDispatch := error.Some? && pendingSteers == [] && !threadRunning && items != [];
      if lastError.Some? {
        return false, false;
      }
      return true, shouldAutoDispatch;
    }

    method TakeSteer() returns (dispatch: Option<Dispatch>)
      modifies this
      ensures dispatch.Some? <==> MayHandOverSteer(old(State()))
      ensures dispatch.None? ==> State() == old(State())
      ensures dispatch.Some? ==> dispatch.value == NextDispatch(old(State())) && State() == HandOverSteer(old(State()))
    {
      if steerDispatchInFlight.Some? || turnStartInFlight || actionInFlightItemId.Some? || activeToolCallIds != {}
         || !liveGenerationKnown || !threadRunning || pendingApprovalIds != {} || pendingUserInputIds != {} {
        return None;
      }
      if activeTurnId.None? || activeRunId.None? || activePromptGeneration.None? || pendingSteers == [] {
        return None;
      }
      var d := Dispatch(pendingSteers[0], activeTurnId.value, activeRunId.value, activePromptGeneration.value, false);
      pendingSteers := pendingSteers[1..];
      steerDispatchInFlight := Some(d);
      return Some(d);
    }

    method SteerReply(dispatch: Dispatch, error: Option<Name>)
      modifies this
      ensures State() == AcknowledgeSteer(old(State()), dispatch, error)
    {
      var slot := steerDispatchInFlight;
      steerDispatchInFlight := None;
      if slot.None? {
        return;
      }
      var owned := slot.value;
      if owned.entry.id != dispatch.entry.id {
        steerDispatchInFlight := slot;
        return;
      }
      match error {
        case None =>
          lastError := None;
        case Some(message) =>
          if owned.crossedCompletionBoundary {
            items := [owned.entry] + items;
          } else {
            pendingSteers := [owned.entry] + pendingSteers;
          }
          lastError := Some(QueueError(message, SteerOperation, Item(owned.entry.id)));
      }
    }

    /** Whoever filled the slot, its message goes back to the head of the pending steers: the order is as before. */
    method FailSteerDispatch(item: ErrorItem, message: Name)
      modifies this
      ensures State() == FailSteer(old(State()), item, message)
      ensures Queue(State()) == old(Queue(State())) && State().steerDispatchInFlight.None?
      ensures old(steerDispatchInFlight).Some? ==>
                pendingSteers != [] && pendingSteers[0] == old(steerDispatchInFlight).value.entry
    {
      if steerDispatchInFlight.Some? {
        pendingSteers := [steerDispatchInFlight.value.entry] + pendingSteers;
        steerDispatchInFlight := None;
      }
      lastError := Some(QueueError(message, SteerOperation, item));
    }

    /** The run can be steered, and from now on exactly its own completion counts; no message moves. */
    method OnRunStarted(turnId: Name, runId: Name, generation: nat)
      modifies this
      ensures State() == RunStarted(old(State()), turnId, runId, generation)
      ensures Queue(State()) == old(Queue(State())) && LiveGeneration(State())
      ensures forall t, g :: CompletionAccepted(State(), t, g) <==> t == turnId && g == generation
      ensures MayPrepareSteer(State())
              <==> pendingSteers != [] && !steerPrepareInFlight && steerDispatchInFlight.None?
                   && actionInFlightItemId.None?
    {
      MarkRunning();
      AdoptTurn(turnId, runId, generation);
    }

    method MarkRunning()
      modifies `threadRunning, `turnStartInFlight, `liveGenerationKnown, `lastError
      ensures threadRunning && !turnStartInFlight && liveGenerationKnown && lastError == None
    {
      threadRunning := true;
      turnStartInFlight := false;
      liveGenerationKnown := true;
      lastError := None;
    }

    method AdoptTurn(turnId: Name, runId: Name, generation: nat)
      modifies `activeTurnId, `activeRunId, `activePromptGeneration, `activeToolCallIds
      ensures activeTurnId == Some(turnId) && activeRunId == Some(runId)
      ensures activePromptGeneration == Some(generation) && activeToolCallIds == {}
    {
      activeTurnId := Some(turnId);
      activeRunId := Some(runId);
      activePromptGeneration := Some(generation);
      activeToolCallIds := {};
    }

    method OnRunEnded(turnId: Name, generation: nat) returns (accepted: bool, dispatchNext: bool, waitForSteer: bool)
      modifies this
      ensures accepted <==> CompletionAccepted(old(State()), turnId, generation)
      ensures State() == RunEnded(old(State()), turnId, generation)
      ensures accepted ==> (dispatchNext <==> ShouldDispatch(State())) && (waitForSteer <==> ShouldWaitForSteer(State()))
      ensures accepted ==> (dispatchNext <==> old(steerDispatchInFlight).None? && old(items) + old(pendingSteers) != [])
                           && (waitForSteer <==> old(steerDispatchInFlight).Some?)
    {
      if activeTurnId != Some(turnId) || activePromptGeneration != Some(generation) {
        return false, false, false;
      }
      ForgetActiveTurn();
      PromotePendingSteers();
      if steerDispatchInFlight.Some? {
        steerDispatchInFlight := Some(steerDispatchInFlight.value.(crossedCompletionBoundary := true));
      }
      return true, steerDispatchInFlight.None? && items != [], steerDispatchInFlight.Some?;
    }

    method ForgetActiveTurn()
      modifies `threadRunning, `activeTurnId, `activeRunId, `activePromptGeneration, `activeToolCallIds,
        `liveGenerationKnown, `pendingApprovalIds, `pendingUserInputIds
      ensures !threadRunning && !liveGenerationKnown
      ensures activeTurnId == None && activeRunId == None && activePromptGeneration == None
      ensures activeToolCallIds == {} && pendingApprovalIds == {} && pendingUserInputIds == {}
    {
      threadRunning := false;
      activeTurnId := None;
      activeRunId := None;
      activePromptGeneration := None;
      activeToolCallIds := {};
      liveGenerationKnown := false;
      pendingApprovalIds := {};
      pendingUserInputIds := {};
    }

    /** The loop of a completion: pending steers go back in front of the queue, in order. */
    method PromotePendingSteers()
      modifies `items, `pendingSteers
      ensures items == old(pendingSteers) + old(items) && pendingSteers == []
    {
      while pendingSteers != []
        invariant pendingSteers + items == old(pendingSteers) + old(items)
        decreases |pendingSteers|
      {
        var last := |pendingSteers| - 1;
        var entry := pendingSteers[last];
        pendingSteers := pendingSteers[..last];
        items := [entry] + items;
      }
    }

    /** The next drain that finds the queue empty disposes of it, after the completions that waited before. */
    method NoteCompletion(eventId: nat)
      modifies this
      ensures Queue(State()) == old(Queue(State())) && (HasBlockers(State()) <==> old(HasBlockers(State())))
      ensures BeginDrain(State()).1.Idle? ==>
                old(BeginDrain(State()).1.Idle?)
                && BeginDrain(State()).1.completions == old(BeginDrain(State()).1.completions) + [eventId]
      ensures State() == old(State()).(pendingCompletionEventIds := old(pendingCompletionEventIds) + [eventId])
    {
      pendingCompletionEventIds := pendingCompletionEventIds + [eventId];
    }

    /** A tool of this run that is at work keeps steers back until it is done; no other tool matters, and no message moves. */
    method OnTool(toolId: Name, turnId: Option<Name>, runId: Option<Name>, generation: Option<nat>, status: ToolStatus)
      returns (drainSteers: bool)
      modifies this
      ensures State() == Tool(old(State()), toolId, turnId, runId, generation, status)
      ensures drainSteers <==> ToolCorrelates(old(State()), turnId, runId, generation) && !status.Unknown?
                               && State().activeToolCallIds == {} && State().pendingSteers != []
                               && State().steerDispatchInFlight.None?
      ensures var about := turnId == old(activeTurnId) && runId == old(activeRunId)
                           && generation == old(activePromptGeneration);
              && (!about ==> State() == old(State()))
              && (about && (status.Pending? || status.InProgress?) ==>
                    toolId in activeToolCallIds && !MayPrepareSteer(State()) && !MayHandOverSteer(State()))
              && (about && (status.Completed? || status.Failed?) ==> toolId !in activeToolCallIds)
              && (about && status.Unknown? ==> !LiveGeneration(State()) && activeToolCallIds == old(activeToolCallIds))
      ensures forall other :: other != toolId ==> (other in activeToolCallIds <==> other in old(activeToolCallIds))
      ensures Queue(State()) == old(Queue(State()))
    {
      ToolDoes(State(), toolId, turnId, runId, generation, status);
      hide Queue, MayPrepareSteer, MayHandOverSteer, LiveGeneration;
      if generation != activePromptGeneration || runId != activeRunId || turnId != activeTurnId {
        return false;
      }
      match status {
        case Pending => activeToolCallIds := activeToolCallIds + {toolId};
        case InProgress => activeToolCallIds := activeToolCallIds + {toolId};
        case Completed => activeToolCallIds := activeToolCallIds - {toolId};
        case Failed => activeToolCallIds := activeToolCallIds - {toolId};
        case Unknown =>
          liveGenerationKnown := false;
          return false;
      }
      return activeToolCallIds == {} && pendingSteers != [] && steerDispatchInFlight.None?;
    }

    /** Until it is resolved no drain starts a turn and no steer goes out; resolving it undoes the request. */
    method OnApprovalRequested(id: Name)
      modifies this
      ensures State() == ApprovalRequested(old(State()), id)
      ensures Queue(State()) == old(Queue(State()))
      ensures BeginDrain(State()).1.Blocked? && !MayHandOverSteer(State())
      ensures id !in old(pendingApprovalIds) ==> ApprovalResolved(State(), id) == old(State())
    {
      pendingApprovalIds := pendingApprovalIds + {id};
    }

    method OnApprovalResolved(id: Name) returns (drainSteers: bool)
      modifies this
      ensures State() == ApprovalResolved(old(State()), id)
      ensures drainSteers <==> State().pendingApprovalIds == {} && State().pendingUserInputIds == {}
                               && State().activeToolCallIds == {} && State().pendingSteers != []
    {
      pendingApprovalIds := pendingApprovalIds - {id};
      return pendingApprovalIds == {} && pendingUserInputIds == {} && activeToolCallIds == {} && pendingSteers != [];
    }

    /** Until it is resolved no drain starts a turn and no steer goes out; resolving it undoes the request. */
    method OnUserInputRequested(id: Name)
      modifies this
      ensures State() == UserInputRequested(old(State()), id)
      ensures Queue(State()) == old(Queue(State()))
      ensures BeginDrain(State()).1.Blocked? && !MayHandOverSteer(State())
      ensures id !in old(pendingUserInputIds) ==> UserInputResolved(State(), id) == old(State())
    {
      pendingUserInputIds := pendingUserInputIds + {id};
    }

    method OnUserInputResolved(id: Name) returns (drainSteers: bool)
      modifies this
      ensures State() == UserInputResolved(old(State()), id)
      ensures drainSteers <==> State().pendingApprovalIds == {} && State().pendingUserInputIds == {}
                               && State().activeToolCallIds == {} && State().pendingSteers != []
    {
      pendingUserInputIds := pendingUserInputIds - {id};
      return pendingApprovalIds == {} && pendingUserInputIds == {} && activeToolCallIds == {} && pendingSteers != [];
    }

    /** Blocked changes nothing; an idle thread gives up its completions; otherwise the first message is started. */
    method DrainQueue() returns (step: DrainStep)
      modifies this
      ensures (State(), step) == BeginDrain(old(State()))
      ensures step.Blocked? <==> old(threadRunning || turnStartInFlight || actionInFlightItemId.Some? || steerPrepareInFlight
                                     || steerDispatchInFlight.Some? || pendingSteers != [] || pendingApprovalIds != {}
                                     || pendingUserInputIds != {})
      ensures step.Blocked? ==> State() == old(State())
      ensures step.Idle? ==> old(items) == [] && step.completions == old(pendingCompletionEventIds)
                             && State() == old(State()).(pendingCompletionEventIds := [])
      ensures step.Start? ==> old(Queue(State())) == [step.entry] + Queue(State())
                              && pendingCompletionEventIds == old(pendingCompletionEventIds)
                              && BeginDrain(State()).1.Blocked?
    {
      if threadRunning || turnStartInFlight || actionInFlightItemId.Some? || steerPrepareInFlight
         || steerDispatchInFlight.Some? || pendingSteers != [] || pendingApprovalIds != {}
         || pendingUserInputIds != {} {
        return Blocked;
      }
      if items == [] {
        var completions := pendingCompletionEventIds;
        pendingCompletionEventIds := [];
        return Idle(completions);
      }
      var entry := items[0];
      items := items[1..];
      turnStartInFlight, lastError := true, None;
      return Start(entry);
    }

    method DrainReply(entry: Entry, turnId: Option<Name>, message: Name) returns (completions: seq<nat>)
      modifies this
      ensures State() == FinishDrain(old(State()), entry, turnId, message)
      ensures completions == old(pendingCompletionEventIds) && pendingCompletionEventIds == []
      ensures turnId.Some? ==> Queue(State()) == old(Queue(State())) && BeginDrain(State()).1.Blocked?
      ensures turnId.None? && old(steerDispatchInFlight.None? && pendingSteers == []) ==>
                Queue(State()) == [entry] + old(Queue(State()))
    {
      if turnId.Some? {
        TurnAccepted(turnId);
      } else {
        PutBack(entry, message);
      }
      completions := pendingCompletionEventIds;
      pendingCompletionEventIds := [];
    }

    method TurnAccepted(turnId: Option<Name>)
      modifies `turnStartInFlight, `threadRunning, `activeTurnId, `lastError
      ensures !turnStartInFlight && threadRunning && activeTurnId == turnId && lastError == None
    {
      turnStartInFlight := false;
      threadRunning, activeTurnId, lastError := true, turnId, None;
    }

    /** The message of a failed turn start goes back to the front. */
    method PutBack(entry: Entry, message: Name)
      modifies `turnStartInFlight, `items, `lastError
      ensures !turnStartInFlight && items == [entry] + old(items)
      ensures lastError == Some(QueueError(message, DispatchOperation, Item(entry.id)))
    {
      turnStartInFlight := false;
      items := [entry] + items;
      lastError := Some(QueueError(message, DispatchOperation, Item(items[0].id)));
    }
  }
}
