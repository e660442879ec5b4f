/**
 One canonical event through the projector, as a function: the new state of the runs and the
 events emitted. Each piece is one stretch of `project_canonical`.
 */
module AguiProjection {
  import opened Wrappers
  import opened Utf8
  import opened AguiEvents
  import opened AguiStructured

  /** The event belongs to this run, as far as it says. */
  predicate Correlated(run: RunState, runRef: Option<Id>, turnRef: Option<Id>) {
    && (runRef.Some? ==> runRef.value == run.runId)
    && (turnRef.Some? && run.turn.Some? ==> turnRef == run.turn)
  }

  // ---- closing a run ----

  function EndText(open: Option<Id>): seq<Event> {
    if open.Some? then [TextEnd(open.value)] else []
  }

  function EndReasoning(open: Option<Id>): seq<Event> {
    if open.Some? then [ReasoningEnd(open.value)] else []
  }

  function ToolEnds(tools: map<Id, ToolState>, order: seq<Id>): seq<Event> {
    if order == [] then []
    else
      var rest, tool := ToolEnds(tools, order[..|order| - 1]), order[|order| - 1];
      if tool in tools && !tools[tool].ended && !tools[tool].subagent then rest + [ToolEnd(tool)] else rest
  }

  lemma ToolEndsMore(tools: map<Id, ToolState>, order: seq<Id>, tool: Id)
    ensures ToolEnds(tools, order + [tool])
            == ToolEnds(tools, order)
               + if tool in tools && !tools[tool].ended && !tools[tool].subagent then [ToolEnd(tool)] else []
  {
    assert (order + [tool])[..|order|] == order;
  }

  /** A way to go through a hash map: every key, once. */
  ghost predicate Enumerates(order: seq<Id>, keys: set<Id>) {
    && (forall k :: k in keys <==> k in order)
    && (forall i, j :: 0 <= i < j < |order| ==> order[i] != order[j])
  }

  function LaneEnds(run: RunState): seq<Event> {
    EndText(run.openUser) + EndText(run.openMessage) + EndReasoning(run.openReasoning)
  }

  function CloseEvents(run: RunState, order: seq<Id>): seq<Event> {
    LaneEnds(run) + ToolEnds(run.tools, order)
  }

  // ---- message chunks ----

  function UsedBytes(run: RunState, id: Id): nat {
    if id in run.messageBytes then run.messageBytes[id] else 0
  }

  function Remaining(run: RunState, id: Id): nat {
    if UsedBytes(run, id) < MAX_MESSAGE_TOTAL_BYTES then MAX_MESSAGE_TOTAL_BYTES - UsedBytes(run, id) else 0
  }

  /** What is passed on of a chunk. */
  function Heard(run: RunState, id: Id, content: Text): Text {
    LongestPrefix(content, Remaining(run, id))
  }

  /** The chunk lost bytes, here or before it came here. */
  predicate Cut(run: RunState, id: Id, content: Text, block: Option<Block>) {
    |Heard(run, id, content)| < |content| || (block.Some? && block.value.truncated)
  }

  function Budgeted(run: RunState, id: Id, content: Text, block: Option<Block>): RunState {
    run.(messageBytes := run.messageBytes[id := UsedBytes(run, id) + |Heard(run, id, content)|],
         truncated := if Cut(run, id, content, block) then run.truncated + {id} else run.truncated)
  }

  function BlockEvents(env: Environment, role: Role, id: Id, block: Option<Block>): seq<Event> {
    if block.Some? then PayloadEvents(env, id, MessageContent(id, role, block.value.value)) else []
  }

  function MarkerEvents(run: RunState, id: Id, content: Text, block: Option<Block>): seq<Event> {
    if Cut(run, id, content, block) && id !in run.truncated then [Truncated(id, MAX_MESSAGE_TOTAL_BYTES)] else []
  }

  /** An agent chunk ends the open user message; a user chunk leaves the open agent message alone. */
  function OpenLane(run: RunState, role: Role, id: Id): (RunState, seq<Event>) {
    match role
    case Agent =>
      var quiet := run.(openUser := None);
      if run.openMessage == Some(id) then (quiet, EndText(run.openUser))
      else (quiet.(openMessage := Some(id)), EndText(run.openUser) + EndText(run.openMessage) + [TextStart(id, Agent)])
    case Thought =>
      if run.openReasoning == Some(id) then (run, [])
      else (run.(openReasoning := Some(id)), EndReasoning(run.openReasoning) + [ReasoningStart(id)])
    case User =>
      if run.openUser == Some(id) then (run, [])
      else (run.(openUser := Some(id)), EndText(run.openUser) + [TextStart(id, User)])
  }

  function ContentEvent(role: Role, id: Id, delta: Text): Event {
    if role.Thought? then ReasoningContent(id, delta) else TextContent(id, delta)
  }

  function ContentEvents(role: Role, id: Id, text: Text): (r: seq<Event>)
    ensures |r| == |Chunks(text, MESSAGE_CHUNK_BYTES)|
    ensures forall i :: 0 <= i < |r| ==> r[i] == ContentEvent(role, id, Chunks(text, MESSAGE_CHUNK_BYTES)[i])
  {
    var chunks := Chunks(text, MESSAGE_CHUNK_BYTES);
    seq(|chunks|, i requires 0 <= i < |chunks| => ContentEvent(role, id, chunks[i]))
  }

  function Say(env: Environment, run: RunState, role: Role, id: Id, content: Text, block: Option<Block>)
    : (RunState, seq<Event>)
  {
    var (talking, lane) := OpenLane(Budgeted(run, id, content, block), role, id);
    (talking,
     BlockEvents(env, role, id, block) + MarkerEvents(run, id, content, block)
     + lane + ContentEvents(role, id, Heard(run, id, content)))
  }

  // ---- tool updates ----

  datatype ToolStep = ToolStep(state: ToolState, events: seq<Event>)

  predicate HasTask(env: Environment, update: FieldUpdate<Text>) {
    (update.Set? || update.Append?) && env.parseTask(update.value).Some?
  }

  function Classified(env: Environment, t: ToolState, u: ToolUpdate): ToolState {
    t.(subagent := t.subagent || u.subagentTitle || HasTask(env, u.content))
  }

  function Outcome(status: ToolStatus): Status {
    if status.Failed? then FailedStatus else if status.Completed? then CompletedStatus else RunningStatus
  }

  function StartTool(env: Environment, t: ToolState, u: ToolUpdate): ToolStep {
    if t.started then ToolStep(t, [])
    else if !t.subagent then
      ToolStep(t.(started := true), [ToolStart(u.tool, LongestPrefix(u.name, 256)), ToolArgs(u.tool)])
    else if HasTask(env, u.content) then ToolStep(t.(started := true), [])
    else
      ToolStep(t.(started := true, activity := Some(Unlinked(Outcome(u.status)))),
               [Activity(u.tool, None, Outcome(u.status))])
  }

  function EndTool(t: ToolState, u: ToolUpdate): ToolStep {
    if t.ended || !u.status.Terminal() then ToolStep(t, [])
    else ToolStep(t.(ended := true), if t.subagent then [] else [ToolEnd(u.tool)])
  }

  /** The fold of one update over the text held, within the budget. */
  function NextText(held: Text, update: FieldUpdate<Text>): Text {
    match update
    case Set(value) => LongestPrefix(value, MAX_TOOL_TOTAL_BYTES)
    case Clear => []
    case Append(value) => LongestPrefix(Concat(held, value), MAX_TOOL_TOTAL_BYTES)
    case Unchanged => held
  }

  function NewContent(t: ToolState, u: ToolUpdate): Option<Text> {
    if u.content.Unchanged? then None else Some(NextText(t.result, u.content))
  }

  predicate ResultChanged(t: ToolState, content: Option<Text>) {
    && content.Some?
    && !(content.value == [] && t.resultRevision.None?)
    && Some(Digest(content.value)) != t.resultRevision
  }

  function UpdateResult(t: ToolState, content: Option<Text>): ToolState {
    if ResultChanged(t, content)
    then t.(result := content.value, resultRevision := Some(Digest(content.value)))
    else t
  }

  function StructuredOf(t: ToolState): Structured {
    Structured(t.structured, t.locations, t.structuredTruncated)
  }

  function NextStructured(t: ToolState, u: ToolUpdate): Structured {
    ApplyStructured(StructuredOf(t), u.structured, u.locations, MAX_STRUCTURED_TOOL_BYTES)
  }

  function StructureRevision(env: Environment, tool: Id, s: Structured): Revision {
    Digest(env.encode(ToolStructure(tool, s.content, s.locations, !s.truncated)))
  }

  predicate StructureChanged(env: Environment, t: ToolState, u: ToolUpdate) {
    && NextStructured(t, u) != StructuredOf(t)
    && t.structuredRevision != Some(StructureRevision(env, u.tool, NextStructured(t, u)))
  }

  function UpdateStructure(env: Environment, t: ToolState, u: ToolUpdate): ToolState {
    var s := NextStructured(t, u);
    t.(structured := s.content, locations := s.locations, structuredTruncated := s.truncated,
       structuredRevision := if StructureChanged(env, t, u) then Some(StructureRevision(env, u.tool, s))
                             else t.structuredRevision)
  }

  datatype Subagent = Subagent(child: Id, status: Status)

  /** The sub-agent that the tool's whole text names. */
  function SubagentIn(env: Environment, u: ToolUpdate, content: Option<Text>): Option<Subagent> {
    if content.None? then None
    else
      match env.parseTask(content.value)
      case None => None
      case Some(task) =>
        match env.childThread(u.agent, task.session)
        case None => None
        case Some(child) => Some(Subagent(child, Stated(task.state)))
  }

  function ReportSubagent(t: ToolState, u: ToolUpdate, found: Option<Subagent>): ToolStep {
    if found.None? then ToolStep(t, [])
    else
      var revision := Some(Linked(found.value.child, found.value.status));
      if t.activity == revision then ToolStep(t.(subagent := true), [])
      else ToolStep(t.(subagent := true, activity := revision),
                    [Activity(u.tool, Some(found.value.child), found.value.status)])
  }

  function ReportOutcome(t: ToolState, u: ToolUpdate, found: Option<Subagent>): ToolStep {
    var revision := Some(Unlinked(Outcome(u.status)));
    if !t.subagent || !u.status.Terminal() || found.Some? || t.activity == revision then ToolStep(t, [])
    else ToolStep(t.(activity := revision), [Activity(u.tool, None, Outcome(u.status))])
  }

  function ResultEvents(tool: Id, text: Text): (r: seq<Event>)
    ensures |r| == |Chunks(text, TOOL_RESULT_CHUNK_BYTES)|
    ensures forall i :: 0 <= i < |r| ==> r[i] == ToolResult(tool, Chunks(text, TOOL_RESULT_CHUNK_BYTES)[i])
  {
    var chunks := Chunks(text, TOOL_RESULT_CHUNK_BYTES);
    seq(|chunks|, i requires 0 <= i < |chunks| => ToolResult(tool, chunks[i]))
  }

  function After(text: Text, prefix: Text): Text
    requires prefix <= text
  {
    assert text[..|prefix|] == prefix;
    ValidPrefixIsBoundary(text, |prefix|);
    SplitValid(text, |prefix|);
    text[|prefix|..]
  }

  /** How a changed result is told: by its new part once the tool is done, otherwise as a whole. */
  function TextEvents(env: Environment, t: ToolState, u: ToolUpdate, found: Option<Subagent>): seq<Event> {
    var content := NewContent(t, u);
    if !ResultChanged(t, content) || found.Some? then []
    else if u.status.Terminal() && t.result <= content.value && content.value != []
    then ResultEvents(u.tool, After(content.value, t.result))
    else PayloadEvents(env, u.tool, ToolText(u.tool, Digest(content.value), content.value))
  }

  function StructureEvents(env: Environment, t: ToolState, u: ToolUpdate, found: Option<Subagent>): seq<Event> {
    if !StructureChanged(env, t, u) || found.Some? then []
    else
      var s := NextStructured(t, u);
      PayloadEvents(env, u.tool, ToolContent(u.tool, s.content, s.locations, StructureRevision(env, u.tool, s), !s.truncated))
  }

  /** All of a tool update, but for the links. */
  function UpdateTool(env: Environment, before: ToolState, u: ToolUpdate): ToolStep {
    var started := StartTool(env, Classified(env, before, u), u);
    var ended := EndTool(started.state, u);
    var t := ended.state;
    var content := NewContent(t, u);
    var found := SubagentIn(env, u, content);
    var reported := ReportSubagent(UpdateStructure(env, UpdateResult(t, content), u), u, found);
    var told := ReportOutcome(reported.state, u, found);
    ToolStep(told.state, started.events + ended.events + reported.events + told.events
                         + TextEvents(env, t, u, found) + StructureEvents(env, t, u, found))
  }

  function ToolOf(run: RunState, tool: Id): ToolState {
    if tool in run.tools then run.tools[tool] else NEW_TOOL
  }

  function RunAfterTool(env: Environment, run: RunState, u: ToolUpdate): RunState {
    run.(tools := run.tools[u.tool := UpdateTool(env, ToolOf(run, u.tool), u).state])
  }

  /** The sub-agent an update names; neither starting nor ending the tool changes its text. */
  function NamedSubagent(env: Environment, run: RunState, u: ToolUpdate): Option<Subagent> {
    SubagentIn(env, u, NewContent(ToolOf(run, u.tool), u))
  }

  // ---- links to sub-agent threads ----

  function UpdateLinks(env: Environment, links: map<Id, Link>, thread: Id, run: RunState, u: ToolUpdate): map<Id, Link> {
    match NamedSubagent(env, run, u)
    case None => links
    case Some(s) =>
      if env.Ends(s.status) then links - {s.child}
      else links[s.child := Link(thread, run.runId, run.turn, u.tool, s.child)]
  }

  function ThreadOf(c: Canonical): Option<Id> {
    if c.Ignored? then None else Some(c.thread)
  }

  /** What an event of a sub-agent's own thread says about its progress. */
  function ProgressOf(env: Environment, c: Canonical): Option<Status> {
    match c
    case RunStarted(_, _, _) => Some(RunningStatus)
    case MessageChunk(_, _, _, _, _, content, _) => if env.blank(content) then None else Some(RunningStatus)
    case Tool(_, _, _, _) => Some(RunningStatus)
    case Session(_, _, _, plan) => if plan then Some(RunningStatus) else None
    case Request(_) => Some(RunningStatus)
    case RunFinished(_, _, _) => Some(CompletedStatus)
    case RunFailed(_, _, _, _) => Some(FailedStatus)
    case Ignored => None
  }

  predicate HasProgress(env: Environment, links: map<Id, Link>, c: Canonical) {
    ThreadOf(c).Some? && ThreadOf(c).value in links && ProgressOf(env, c).Some?
  }

  function ProgressEvents(env: Environment, links: map<Id, Link>, c: Canonical): seq<Envelope> {
    if !HasProgress(env, links, c) then []
    else
      var link := links[ThreadOf(c).value];
      Wrap(link.thread, link.run, link.turn, [Activity(link.tool, Some(link.child), ProgressOf(env, c).value)])
  }

  function LinksAfterProgress(env: Environment, links: map<Id, Link>, c: Canonical): map<Id, Link> {
    if HasProgress(env, links, c) && env.Ends(ProgressOf(env, c).value) then links - {ThreadOf(c).value} else links
  }

  function Unlink(links: map<Id, Link>, thread: Id, run: Id): map<Id, Link> {
    map child | child in links && !(links[child].thread == thread && links[child].run == run) :: links[child]
  }

  // ---- the whole of an event ----

  function OpenRun(p: Projector, thread: Id, runRef: Option<Id>, turnRef: Option<Id>): Option<RunState> {
    if thread in p.runs && Correlated(p.runs[thread], runRef, turnRef) then Some(p.runs[thread]) else None
  }

  function Supersede(p: Projector, thread: Id, order: seq<Id>): seq<Envelope> {
    if thread !in p.runs then []
    else
      var run := p.runs[thread];
      Wrap(thread, run.runId, run.turn, CloseEvents(run, order) + [RunErrorEvent(true)])
  }

  function Start(p: Projector, thread: Id, run: Id, turn: Id, order: seq<Id>): (Projector, seq<Envelope>) {
    (p.(runs := p.runs[thread := NewRun(run, turn)]),
     Supersede(p, thread, order) + Wrap(thread, run, Some(turn), [RunStartedEvent]))
  }

  function Finish(p: Projector, thread: Id, run: Id, turn: Id, terminal: Event, order: seq<Id>): (Projector, seq<Envelope>) {
    if thread !in p.runs || p.runs[thread].runId != run then (p, [])
    else
      var state := p.runs[thread];
      (Projector(p.runs - {thread}, Unlink(p.links, thread, run)),
       Wrap(thread, run, state.turn, CloseEvents(state, order)) + Wrap(thread, run, Some(turn), [terminal]))
  }

  function Speak(env: Environment, p: Projector, c: Canonical): (Projector, seq<Envelope>)
    requires c.MessageChunk?
  {
    match OpenRun(p, c.thread, c.runRef, c.turnRef)
    case None => (p, [])
    case Some(run) =>
      var (run', events) := Say(env, run, c.role, c.message, c.content, c.block);
      (p.(runs := p.runs[c.thread := run']), Wrap(c.thread, run.runId, run.turn, events))
  }

  function Use(env: Environment, p: Projector, c: Canonical): (Projector, seq<Envelope>)
    requires c.Tool?
  {
    match OpenRun(p, c.thread, c.runRef, c.turnRef)
    case None => (p, [])
    case Some(run) =>
      (Projector(p.runs[c.thread := RunAfterTool(env, run, c.update)],
                 UpdateLinks(env, p.links, c.thread, run, c.update)),
       Wrap(c.thread, run.runId, run.turn, UpdateTool(env, ToolOf(run, c.update.tool), c.update).events))
  }

  function Announce(p: Projector, c: Canonical): seq<Envelope>
    requires c.Session?
  {
    var event := SessionEvent(c.kind, c.value);
    if c.thread in p.runs
    then Wrap(c.thread, p.runs[c.thread].runId, p.runs[c.thread].turn, [event])
    else [Envelope(c.thread, OfSession, None, event)]
  }

  function Handle(env: Environment, p: Projector, c: Canonical, order: seq<Id>): (Projector, seq<Envelope>) {
    match c
    case RunStarted(thread, run, turn) => Start(p, thread, run, turn, order)
    case MessageChunk(_, _, _, _, _, content, block) => if content != [] || block.Some? then Speak(env, p, c) else (p, [])
    case Tool(_, _, _, _) => Use(env, p, c)
    case RunFinished(thread, run, turn) => Finish(p, thread, run, turn, RunFinishedEvent, order)
    case RunFailed(thread, run, turn, _) => Finish(p, thread, run, turn, RunErrorEvent(false), order)
    case Session(_, _, _, _) => (p, Announce(p, c))
    case Request(_) => (p, [])
    case Ignored => (p, [])
  }

  /** `project_canonical`; the order is the one in which a closed run's tools are gone through. */
  function Project(env: Environment, p: Projector, c: Canonical, order: seq<Id>): (Projector, seq<Envelope>) {
    var (p', events) := Handle(env, p.(links := LinksAfterProgress(env, p.links, c)), c, order);
    (p', ProgressEvents(env, p.links, c) + events)
  }

  // ---- runs of the projector ----

  datatype Step = Step(event: Canonical, order: seq<Id>)

  function StateAfter(env: Environment, steps: seq<Step>): Projector {
    if steps == [] then NEW_PROJECTOR
    else
      var last := steps[|steps| - 1];
      Project(env, StateAfter(env, steps[..|steps| - 1]), last.event, last.order).0
  }

  function Stream(env: Environment, steps: seq<Step>): seq<Envelope> {
    if steps == [] then []
    else
      var before, last := steps[..|steps| - 1], steps[|steps| - 1];
      Stream(env, before) + Project(env, StateAfter(env, before), last.event, last.order).1
  }
}
