/**
 What the AG-UI projector consumes and emits, and the state it keeps for a run. Ids, names and
 JSON values that the projector only compares and copies are opaque; the JSON text of a payload
 and the recognition of sub-agent tasks are functions of the environment.
 */
module AguiEvents {
  import opened Wrappers
  import opened Utf8

  const MESSAGE_CHUNK_BYTES: nat := 32 * 1024
  const TOOL_RESULT_CHUNK_BYTES: nat := 16 * 1024
  const STRUCTURED_CHUNK_BYTES: nat := 16 * 1024
  const MAX_MESSAGE_TOTAL_BYTES: nat := 32 * 1024
  const MAX_TOOL_TOTAL_BYTES: nat := 64 * 1024
  const MAX_STRUCTURED_TOOL_BYTES: nat := 64 * 1024

  /** Thread, run, turn, message, tool and agent ids. */
  type Id = nat

  /** A JSON value by its compact serialization. */
  type Json = Text

  // ---- input ----

  datatype Role = User | Agent | Thought
  datatype ToolStatus = Pending | InProgress | Completed | Failed | Unknown
  {
    predicate Terminal() { Completed? || Failed? }
  }

  datatype FieldUpdate<T> = Unchanged | Clear | Set(value: T) | Append(value: T)

  datatype Block = Block(value: Json, truncated: bool)

  /** `subagentTitle` is what the kind and title say about the tool. */
  datatype ToolUpdate = ToolUpdate(
    agent: Id, tool: Id, subagentTitle: bool, name: Text, status: ToolStatus,
    content: FieldUpdate<Text>, structured: FieldUpdate<seq<Json>>, locations: FieldUpdate<seq<Json>>)

  datatype Canonical =
    | RunStarted(thread: Id, run: Id, turn: Id)
    | MessageChunk(thread: Id, runRef: Option<Id>, turnRef: Option<Id>, role: Role, message: Id, content: Text,
                   block: Option<Block>)
    | Tool(thread: Id, runRef: Option<Id>, turnRef: Option<Id>, update: ToolUpdate)
    | RunFinished(thread: Id, run: Id, turn: Id)
    | RunFailed(thread: Id, run: Id, turn: Id, error: Text)
    | Session(thread: Id, kind: Id, value: Json, plan: bool)
    | Request(thread: Id)
    | Ignored

  // ---- output ----

  /** SHA-256 of a text, taken to tell texts apart. */
  datatype Revision = Digest(of: Text)

  datatype Payload =
    | MessageContent(message: Id, role: Role, block: Json)
    | ToolText(tool: Id, revision: Revision, text: Text)
    | ToolContent(tool: Id, structured: seq<Json>, locations: seq<Json>, state: Revision, available: bool)
    | ToolStructure(tool: Id, structured: seq<Json>, locations: seq<Json>, available: bool)

  datatype Topic = MessageContentTopic | ToolTextTopic | ToolContentTopic

  /** The state word of a sub-agent: the projector's own words, or the word in its text. */
  datatype Status = RunningStatus | CompletedStatus | FailedStatus | Stated(word: Id)

  datatype Event =
    | RunStartedEvent | RunFinishedEvent | RunErrorEvent(superseded: bool)
    | TextStart(message: Id, role: Role) | TextContent(message: Id, delta: Text) | TextEnd(message: Id)
    | ReasoningStart(message: Id) | ReasoningContent(message: Id, delta: Text) | ReasoningEnd(message: Id)
    | ToolStart(tool: Id, name: Text) | ToolArgs(tool: Id) | ToolEnd(tool: Id) | ToolResult(tool: Id, content: Text)
    | Custom(payload: Payload)
    | Chunk(topic: Topic, canonicalId: Id, revision: Revision, index: nat, count: nat, data: Text)
    | Truncated(canonicalId: Id, maxBytes: nat)
    | Activity(tool: Id, child: Option<Id>, status: Status)
    | SessionEvent(kind: Id, value: Json)

  /** Events of a thread without a run carry the id of its session instead. */
  datatype RunRef = InRun(run: Id) | OfSession

  datatype Envelope = Envelope(thread: Id, run: RunRef, turn: Option<Id>, event: Event)

  function Wrap(thread: Id, run: Id, turn: Option<Id>, events: seq<Event>): (r: seq<Envelope>)
    ensures |r| == |events|
    ensures forall i :: 0 <= i < |r| ==> r[i] == Envelope(thread, InRun(run), turn, events[i])
  {
    seq(|events|, i requires 0 <= i < |events| => Envelope(thread, InRun(run), turn, events[i]))
  }

  // ---- state ----

  datatype ActivityRevision = Unlinked(status: Status) | Linked(child: Id, status: Status)

  datatype ToolState = ToolState(
    started: bool, ended: bool, subagent: bool, result: Text, resultRevision: Option<Revision>,
    structuredRevision: Option<Revision>, structured: seq<Json>, locations: seq<Json>, structuredTruncated: bool,
    activity: Option<ActivityRevision>)

  const NEW_TOOL: ToolState := ToolState(false, false, false, [], None, None, [], [], false, None)

  datatype RunState = RunState(
    runId: Id, turn: Option<Id>, openUser: Option<Id>, openMessage: Option<Id>, openReasoning: Option<Id>,
    messageBytes: map<Id, nat>, truncated: set<Id>, tools: map<Id, ToolState>)

  function NewRun(run: Id, turn: Id): RunState {
    RunState(run, Some(turn), None, None, None, map[], {}, map[])
  }

  datatype Link = Link(thread: Id, run: Id, turn: Option<Id>, tool: Id, child: Id)

  /** The open run of every thread, and for every sub-agent thread at work the tool that started it. */
  datatype Projector = Projector(runs: map<Id, RunState>, links: map<Id, Link>)

  const NEW_PROJECTOR: Projector := Projector(map[], map[])

  // ---- environment ----

  datatype Task = Task(session: Id, state: Id)

  datatype Environment = Environment(
    encode: Payload -> Text,
    decode: Text -> Option<Payload>,
    parseTask: Text -> Option<Task>,
    childThread: (Id, Id) -> Option<Id>,
    endsTask: Id -> bool,
    blank: Text -> bool)
  {
    /** Decoding undoes encoding. */
    ghost predicate RoundTrips() {
      forall p :: decode(encode(p)) == Some(p)
    }

    predicate Ends(s: Status) {
      match s
      case RunningStatus => false
      case CompletedStatus => true
      case FailedStatus => true
      case Stated(word) => endsTask(word)
    }
  }
}
