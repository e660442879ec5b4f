/**
 The snapshot a session keeps of its events: a bounded deque of messages, a bounded map of tools, and the timeline
 that orders both. What the messages snapshot relies on is proved of every snapshot a session can reach.
 */
module Sessions {
  import opened Wrappers
  import opened Snapshots

  const MAX_MESSAGES: nat := 128
  const MAX_TOOLS: nat := 128
  const MAX_TIMELINE_ENTRIES: nat := MAX_MESSAGES + MAX_TOOLS

  /** A held message; its text and structured parts matter here as a whole. */
  datatype Stored = Stored(id: Id, body: Body)

  datatype Session = Session(messages: seq<Stored>, tools: map<Id, Tool>, timeline: seq<Entry>)

  const NEW_SESSION: Session := Session([], map[], [])

  function EntryId(e: Entry): Id {
    if e.Said? then e.message else e.canonicalId
  }

  function Without(timeline: seq<Entry>, id: Id): seq<Entry> {
    if timeline == [] then []
    else if EntryId(timeline[0]) == id then Without(timeline[1..], id)
    else [timeline[0]] + Without(timeline[1..], id)
  }

  function Pushed(timeline: seq<Entry>, e: Entry): seq<Entry> {
    (if |timeline| == MAX_TIMELINE_ENTRIES then timeline[1..] else timeline) + [e]
  }

  /** The first message with the id, or the end. */
  function Find(messages: seq<Stored>, id: Id): nat {
    if messages == [] || messages[0].id == id then 0 else 1 + Find(messages[1..], id)
  }

  lemma {:induction false} FindFinds(messages: seq<Stored>, id: Id)
    ensures Find(messages, id) <= |messages|
    ensures forall i :: 0 <= i < Find(messages, id) ==> messages[i].id != id
    ensures Find(messages, id) < |messages| ==> messages[Find(messages, id)].id == id
  {
    if messages != [] {
      FindFinds(messages[1..], id);
    }
  }

  /** The oldest message goes when there is no room for another, with every timeline entry of its id. */
  function MessageRoom(s: Session): Session {
    if |s.messages| == MAX_MESSAGES then
      Session(s.messages[1..], s.tools, Without(s.timeline, s.messages[0].id))
    else s
  }

  function AddMessage(s: Session, id: Id, body: Body): Session {
    Session(s.messages + [Stored(id, body)], s.tools, Pushed(s.timeline, Said(id)))
  }

  function Appended(s: Session, id: Id, body: Body): Session {
    FindFinds(s.messages, id);
    var at := Find(s.messages, id);
    if at < |s.messages| then s.(messages := s.messages[at := Stored(id, body)])
    else AddMessage(MessageRoom(s), id, body)
  }

  /** The first tool of the timeline that is still held. */
  function OldestTool(tools: map<Id, Tool>, timeline: seq<Entry>): Option<Id> {
    if timeline == [] then None
    else if timeline[0].Used? && timeline[0].canonicalId in tools then Some(timeline[0].canonicalId)
    else OldestTool(tools, timeline[1..])
  }

  /** Nothing when there is no room and no held tool is in the timeline: the source panics then. */
  function ToolRoom(s: Session): Option<Session> {
    if |s.tools| < MAX_TOOLS then Some(s)
    else
      match OldestTool(s.tools, s.timeline)
      case None => None
      case Some(oldest) => Some(Session(s.messages, s.tools - {oldest}, Without(s.timeline, oldest)))
  }

  function AddTool(s: Session, t: Tool): Session {
    Session(s.messages, s.tools[t.id := t], Pushed(s.timeline, Used(t.id)))
  }

  function ToolApplied(s: Session, t: Tool): Option<Session> {
    if t.id in s.tools then Some(s.(tools := s.tools[t.id := t]))
    else if ToolRoom(s).None? then None
    else Some(AddTool(ToolRoom(s).value, t))
  }

  class SessionSnapshot {
    var messages: seq<Stored>
    var tools: map<Id, Tool>
    var timeline: seq<Entry>

    function State(): Session
      reads this
    {
      Session(messages, tools, timeline)
    }

    constructor ()
      ensures State() == NEW_SESSION && Kept(State())
    {
      messages, tools, timeline := [], map[], [];
    }

    /** `append_message`: a known message is updated in place, a new one may push out the oldest. */
    method AppendMessage(id: Id, body: Body)
      requires Kept(State())
      modifies this
      ensures State() == Appended(old(State()), id, body) && Kept(State())
    {
      AppendKeeps(State(), id, body);
      FindFinds(messages, id);
      var i := 0;
      while i < |messages| && messages[i].id != id
        invariant i <= |messages| && forall k :: 0 <= k < i ==> messages[k].id != id
      {
        i := i + 1;
      }
      if i < |messages| {
        messages := messages[i := Stored(id, body)];
        return;
      }
      if |messages| == MAX_MESSAGES {
        var removed := messages[0];
        messages := messages[1..];
        RetainTimeline(removed.id);
      }
      PushTimeline(Said(id));
      messages := messages + [Stored(id, body)];
    }

    /** `apply_tool`; not ok where the source panics. */
    method ApplyTool(t: Tool) returns (ok: bool)
      requires Kept(State())
      modifies this
      ensures ok <==> ToolApplied(old(State()), t).Some?
      ensures State() == if ok then ToolApplied(old(State()), t).value else old(State())
      ensures Kept(State())
    {
      ToolKeeps(State(), t);
      if |tools| >= MAX_TOOLS && t.id !in tools {
        var i := 0;
        while i < |timeline| && !(timeline[i].Used? && timeline[i].canonicalId in tools)
          invariant i <= |timeline| && OldestTool(tools, timeline[i..]) == OldestTool(tools, timeline)
        {
          assert timeline[i..][1..] == timeline[i + 1..];
          i := i + 1;
        }
        if i == |timeline| {
          return false;
        }
        var oldest := timeline[i].canonicalId;
        tools := tools - {oldest};
        RetainTimeline(oldest);
      }
      if t.id !in tools {
        PushTimeline(Used(t.id));
      }
      tools := tools[t.id := t];
      ok := true;
    }

    method RetainTimeline(id: Id)
      modifies this`timeline
      ensures timeline == Without(old(timeline), id)
    {
      var i, kept := 0, [];
      while i < |timeline|
        invariant i <= |timeline| && kept + Without(timeline[i..], id) == Without(timeline, id)
      {
        assert timeline[i..][1..] == timeline[i + 1..];
        if EntryId(timeline[i]) != id {
          kept := kept + [timeline[i]];
        }
        i := i + 1;
      }
      timeline := kept;
    }

    /** `push_timeline`. */
    method PushTimeline(e: Entry)
      modifies this`timeline
      ensures timeline == Pushed(old(timeline), e)
    {
      if |timeline| == MAX_TIMELINE_ENTRIES {
        timeline := timeline[1..];
      }
      timeline := timeline + [e];
    }
  }

  // ---- what every snapshot keeps ----

  function Ids(messages: seq<Stored>): set<Id> {
    set m | m in messages :: m.id
  }

  /** The message or tool of the entry is held. */
  predicate Held(s: Session, e: Entry) {
    if e.Said? then e.message in Ids(s.messages) else e.canonicalId in s.tools
  }

  ghost predicate Distinct<T(!new)>(xs: seq<T>) {
    forall i, j :: 0 <= i < j < |xs| ==> xs[i] != xs[j]
  }

  ghost predicate DistinctIds(messages: seq<Stored>) {
    forall i, j :: 0 <= i < j < |messages| ==> messages[i].id != messages[j].id
  }

  /** Bounded collections, keyed by their ids, and each timeline entry once, for something that is held. */
  ghost predicate Kept(s: Session) {
    && |s.messages| <= MAX_MESSAGES && |s.tools| <= MAX_TOOLS
    && DistinctIds(s.messages)
    && (forall id :: id in s.tools ==> s.tools[id].id == id)
    && Distinct(s.timeline)
    && (forall e :: e in s.timeline ==> Held(s, e))
  }

  lemma {:induction false} WithoutIs(timeline: seq<Entry>, id: Id)
    ensures forall e :: e in Without(timeline, id) <==> e in timeline && EntryId(e) != id
    ensures Distinct(timeline) ==> Distinct(Without(timeline, id))
  {
    if timeline != [] {
      WithoutIs(timeline[1..], id);
    }
  }

  lemma {:induction false} DistinctBound<T(!new)>(xs: seq<T>, all: set<T>)
    requires Distinct(xs) && forall x :: x in xs ==> x in all
    ensures |xs| <= |all|
  {
    if xs != [] {
      DistinctBound(xs[1..], all - {xs[0]});
    }
  }

  lemma {:induction false} SaidBound(messages: seq<Stored>)
    ensures |set id | id in Ids(messages) :: Said(id)| <= |messages|
  {
    var all := set id | id in Ids(messages) :: Said(id);
    if messages == [] {
      assert all == {};
    } else {
      SaidBound(messages[1..]);
      assert all == (set id | id in Ids(messages[1..]) :: Said(id)) + {Said(messages[0].id)} by {
        assert messages == [messages[0]] + messages[1..];
      }
    }
  }

  lemma {:induction false} UsedBound(ids: set<Id>)
    ensures |set id | id in ids :: Used(id)| == |ids|
  {
    var all := set id | id in ids :: Used(id);
    if ids == {} {
      assert all == {};
    } else {
      var id :| id in ids;
      UsedBound(ids - {id});
      assert all == (set i | i in ids - {id} :: Used(i)) + {Used(id)};
    }
  }

  lemma UnionBound<T>(a: set<T>, b: set<T>)
    ensures |a + b| <= |a| + |b|
  {
    assert a + b == a + (b - a);
    assert |b - a| <= |b| by {
      assert b == (b - a) + (b * a);
    }
  }

  /** The timeline is no longer than what it orders. */
  lemma TimelineBound(timeline: seq<Entry>, s: Session)
    requires Distinct(timeline) && forall e :: e in timeline ==> Held(s, e)
    ensures |timeline| <= |s.messages| + |s.tools|
  {
    var said, used := set id | id in Ids(s.messages) :: Said(id), set id | id in s.tools.Keys :: Used(id);
    SaidBound(s.messages);
    UsedBound(s.tools.Keys);
    UnionBound(said, used);
    forall e | e in timeline ensures e in said + used {
      assert Held(s, e);
    }
    DistinctBound(timeline, said + used);
  }

  // ---- every step keeps it ----

  lemma {:induction false} OldestToolIs(tools: map<Id, Tool>, timeline: seq<Entry>)
    ensures OldestTool(tools, timeline).Some? ==>
              OldestTool(tools, timeline).value in tools && Used(OldestTool(tools, timeline).value) in timeline
    ensures OldestTool(tools, timeline).None? <==>
              forall e :: e in timeline && e.Used? ==> e.canonicalId !in tools
    ensures OldestTool(tools, timeline).Some? ==>
              exists i :: 0 <= i < |timeline| && timeline[i] == Used(OldestTool(tools, timeline).value)
                          && forall j :: 0 <= j < i && timeline[j].Used? ==> timeline[j].canonicalId !in tools
  {
    if timeline != [] {
      OldestToolIs(tools, timeline[1..]);
      if timeline[0].Used? && timeline[0].canonicalId in tools {
        assert timeline[0] == Used(OldestTool(tools, timeline).value);
      } else if OldestTool(tools, timeline).Some? {
        var rest := timeline[1..];
        var i :| 0 <= i < |rest| && rest[i] == Used(OldestTool(tools, timeline).value)
          && forall j :: 0 <= j < i && rest[j].Used? ==> rest[j].canonicalId !in tools;
        assert timeline[i + 1] == rest[i];
        forall j | 0 <= j < i + 1 && timeline[j].Used? ensures timeline[j].canonicalId !in tools {
          assert j > 0 ==> rest[j - 1] == timeline[j];
        }
      }
    }
  }

  lemma MessageRoomKeeps(s: Session)
    requires Kept(s)
    ensures Kept(MessageRoom(s)) && |MessageRoom(s).messages| < MAX_MESSAGES
    ensures Ids(MessageRoom(s).messages) <= Ids(s.messages)
  {
    if |s.messages| == MAX_MESSAGES {
      var first, room := s.messages[0], MessageRoom(s);
      assert s.messages == [first] + room.messages;
      WithoutIs(s.timeline, first.id);
      forall e | e in room.timeline ensures Held(room, e) {
        assert e in s.timeline && Held(s, e);
      }
    }
  }

  lemma ToolRoomKeeps(s: Session)
    requires Kept(s) && ToolRoom(s).Some?
    ensures Kept(ToolRoom(s).value) && |ToolRoom(s).value.tools| < MAX_TOOLS
    ensures ToolRoom(s).value.tools.Keys <= s.tools.Keys
  {
    if |s.tools| == MAX_TOOLS {
      OldestToolIs(s.tools, s.timeline);
      var oldest, room := OldestTool(s.tools, s.timeline).value, ToolRoom(s).value;
      assert room.tools.Keys == s.tools.Keys - {oldest};
      WithoutIs(s.timeline, oldest);
      forall e | e in room.timeline ensures Held(room, e) {
        assert e in s.timeline && Held(s, e);
      }
    }
  }

  /** With room for the message, the timeline loses nothing. */
  lemma AddMessageKeeps(s: Session, id: Id, body: Body)
    requires Kept(s) && |s.messages| < MAX_MESSAGES && id !in Ids(s.messages)
    ensures Kept(AddMessage(s, id, body)) && AddMessage(s, id, body).timeline == s.timeline + [Said(id)]
  {
    TimelineBound(s.timeline, s);
    var added := AddMessage(s, id, body);
    forall e | e in added.timeline ensures Held(added, e) {
      assert added.messages[|s.messages|] == Stored(id, body);
      assert e in s.timeline ==> Held(s, e);
    }
    assert Said(id) in s.timeline ==> Held(s, Said(id));
  }

  lemma AddToolKeeps(s: Session, t: Tool)
    requires Kept(s) && |s.tools| < MAX_TOOLS && t.id !in s.tools
    ensures Kept(AddTool(s, t)) && AddTool(s, t).timeline == s.timeline + [Used(t.id)]
  {
    TimelineBound(s.timeline, s);
    var added := AddTool(s, t);
    assert added.tools.Keys == s.tools.Keys + {t.id};
    forall e | e in added.timeline ensures Held(added, e) {
      assert e in s.timeline ==> Held(s, e);
    }
    assert Used(t.id) in s.timeline ==> Held(s, Used(t.id));
  }

  lemma UpdatedIds(messages: seq<Stored>, at: nat, body: Body)
    requires at < |messages|
    ensures Ids(messages[at := Stored(messages[at].id, body)]) == Ids(messages)
  {
    var updated := messages[at := Stored(messages[at].id, body)];
    assert forall i :: 0 <= i < |updated| ==> updated[i].id == messages[i].id;
    forall m | m in messages ensures m.id in Ids(updated) {
      var i :| 0 <= i < |messages| && messages[i] == m;
      assert updated[i] in updated;
    }
  }

  lemma AppendKeeps(s: Session, id: Id, body: Body)
    requires Kept(s)
    ensures Kept(Appended(s, id, body))
  {
    FindFinds(s.messages, id);
    var at := Find(s.messages, id);
    if at < |s.messages| {
      UpdatedIds(s.messages, at, body);
    } else {
      MessageRoomKeeps(s);
      AddMessageKeeps(MessageRoom(s), id, body);
    }
  }

  lemma ToolKeeps(s: Session, t: Tool)
    requires Kept(s)
    ensures ToolApplied(s, t).Some? ==> Kept(ToolApplied(s, t).value)
  {
    if t.id in s.tools {
      assert s.tools[t.id := t].Keys == s.tools.Keys;
    } else if ToolRoom(s).Some? {
      ToolRoomKeeps(s);
      AddToolKeeps(ToolRoom(s).value, t);
    }
  }

  // ---- runs ----

  datatype Step = Say(id: Id, body: Body) | Use(tool: Tool)

  function Apply(s: Session, step: Step): Option<Session> {
    match step
    case Say(id, body) => Some(Appended(s, id, body))
    case Use(tool) => ToolApplied(s, tool)
  }

  /** The session after the steps, if no step panics. */
  function Run(steps: seq<Step>): Option<Session> {
    if steps == [] then Some(NEW_SESSION)
    else
      var before := Run(steps[..|steps| - 1]);
      if before.None? then None else Apply(before.value, steps[|steps| - 1])
  }

  lemma StepKeeps(s: Session, step: Step)
    requires Kept(s)
    ensures Apply(s, step).Some? ==> Kept(Apply(s, step).value)
  {
    hide Kept, Appended, ToolApplied;
    match step
    case Say(id, body) => AppendKeeps(s, id, body);
    case Use(tool) => ToolKeeps(s, tool);
  }

  lemma {:induction false} RunKept(steps: seq<Step>)
    ensures Run(steps).Some? ==> Kept(Run(steps).value)
  {
    if steps != [] {
      RunKept(steps[..|steps| - 1]);
      if Run(steps).Some? {
        hide Kept, Apply;
        StepKeeps(Run(steps[..|steps| - 1]).value, steps[|steps| - 1]);
      }
    }
  }

  // ---- what is sent of a session ----

  function Bodies(messages: seq<Stored>): map<Id, Body> {
    if messages == [] then map[]
    else
      var last := messages[|messages| - 1];
      Bodies(messages[..|messages| - 1])[last.id := last.body]
  }

  /** The session as the messages snapshot reads it. */
  function Shown(s: Session): Snapshot {
    Snapshot(Bodies(s.messages), s.tools, s.timeline)
  }

  /** In the timeline of a session no two entries stand for the same tool. */
  lemma RunDistinctTools(steps: seq<Step>)
    requires Run(steps).Some?
    ensures DistinctTools(Shown(Run(steps).value), Run(steps).value.timeline)
  {
    RunKept(steps);
    var s := Run(steps).value;
    hide Run;
    forall i, j | 0 <= i < j < |s.timeline| ensures !SameTool(Shown(s), s.timeline[i], s.timeline[j]) {
      assert s.timeline[i] != s.timeline[j];
    }
  }

  /** So the messages snapshot of every session is trimmed between groups: a tool call goes with its result. */
  lemma SentSnapshotTrimmed(steps: seq<Step>, size: seq<Message> -> nat, limit: nat) returns (cut: nat)
    requires Run(steps).Some?
    ensures var s := Run(steps).value;
            var groups := GroupsOf(Shown(s), s.timeline);
            var sent := Trim(size, limit, Flatten(groups));
            && cut <= |groups| && sent == Flatten(groups[cut..])
            && Flatten(groups) == Flatten(groups[..cut]) + sent
            && Done(size, limit, sent)
            && forall k :: 0 <= k < cut ==> !Done(size, limit, Flatten(groups[k..]))
  {
    RunDistinctTools(steps);
    cut := SnapshotTrimmed(Shown(Run(steps).value), size, limit);
  }

  // ---- what is held is the latest ----

  function LastSaid(steps: seq<Step>, id: Id): Option<Body> {
    if steps == [] then None
    else
      var last := steps[|steps| - 1];
      if last.Say? && last.id == id then Some(last.body) else LastSaid(steps[..|steps| - 1], id)
  }

  function LastUsed(steps: seq<Step>, id: Id): Option<Tool> {
    if steps == [] then None
    else
      var last := steps[|steps| - 1];
      if last.Use? && last.tool.id == id then Some(last.tool) else LastUsed(steps[..|steps| - 1], id)
  }

  /** Each message and tool is as its last event left it. */
  ghost predicate Latest(s: Session, steps: seq<Step>) {
    && (forall i :: 0 <= i < |s.messages| ==> LastSaid(steps, s.messages[i].id) == Some(s.messages[i].body))
    && (forall id :: id in s.tools ==> LastUsed(steps, id) == Some(s.tools[id]))
  }

  lemma LastsNext(steps: seq<Step>, step: Step)
    ensures forall id :: LastSaid(steps + [step], id) == if step.Say? && step.id == id then Some(step.body) else LastSaid(steps, id)
    ensures forall id :: LastUsed(steps + [step], id)
                         == if step.Use? && step.tool.id == id then Some(step.tool) else LastUsed(steps, id)
  {
    assert (steps + [step])[..|steps|] == steps;
  }

  /** The messages after a chunk: the one it is about as it now is, and others as they were. */
  lemma AppendedMessages(s: Session, id: Id, body: Body, i: nat)
    requires Kept(s) && i < |Appended(s, id, body).messages|
    ensures var m := Appended(s, id, body).messages[i];
            m == Stored(id, body) || (m.id != id && m in s.messages)
  {
    FindFinds(s.messages, id);
    hide Without, Pushed, Held;
  }

  lemma SayLatest(s: Session, steps: seq<Step>, id: Id, body: Body)
    requires Kept(s) && Latest(s, steps)
    ensures Latest(Appended(s, id, body), steps + [Say(id, body)])
  {
    LastsNext(steps, Say(id, body));
    hide LastSaid, LastUsed, Kept;
    var s' := Appended(s, id, body);
    forall i | 0 <= i < |s'.messages| ensures LastSaid(steps + [Say(id, body)], s'.messages[i].id) == Some(s'.messages[i].body) {
      AppendedMessages(s, id, body, i);
      if s'.messages[i] != Stored(id, body) {
        var k :| 0 <= k < |s.messages| && s.messages[k] == s'.messages[i];
      }
    }
  }

  lemma UseLatest(s: Session, steps: seq<Step>, t: Tool)
    requires Latest(s, steps) && ToolApplied(s, t).Some?
    ensures Latest(ToolApplied(s, t).value, steps + [Use(t)])
  {
    LastsNext(steps, Use(t));
    hide LastSaid, LastUsed, Without, OldestTool, Pushed;
  }

  /** In every session, each held message and tool is as the last event about it left it. */
  lemma {:induction false} HeldIsLatest(steps: seq<Step>)
    requires Run(steps).Some?
    ensures Latest(Run(steps).value, steps)
    decreases |steps|
  {
    hide Latest, Kept, Appended, ToolApplied;
    if steps == [] {
      NothingHeld();
    } else {
      var before, last := steps[..|steps| - 1], steps[|steps| - 1];
      HeldIsLatest(before);
      RunKept(before);
      assert steps == before + [last];
      match last
      case Say(id, body) => SayLatest(Run(before).value, before, id, body);
      case Use(tool) => UseLatest(Run(before).value, before, tool);
    }
  }

  lemma NothingHeld()
    ensures Latest(NEW_SESSION, [])
  {
  }

  // ---- which messages are held ----

  /** The last 128. */
  function Recent(ids: seq<Id>): seq<Id> {
    if |ids| <= MAX_MESSAGES then ids else ids[|ids| - MAX_MESSAGES..]
  }

  /** The ids of messages in the order in which they came, each that was not among the last 128 before. */
  function NewlySaid(steps: seq<Step>): seq<Id> {
    if steps == [] then []
    else
      var ids, last := NewlySaid(steps[..|steps| - 1]), steps[|steps| - 1];
      if last.Say? && last.id !in Recent(ids) then ids + [last.id] else ids
  }

  function IdsOf(messages: seq<Stored>): (r: seq<Id>)
    ensures |r| == |messages| && forall i :: 0 <= i < |r| ==> r[i] == messages[i].id
  {
    seq(|messages|, i requires 0 <= i < |messages| => messages[i].id)
  }

  lemma RecentShifts(ids: seq<Id>, id: Id)
    ensures Recent(ids + [id]) == if |ids| < MAX_MESSAGES then Recent(ids) + [id] else Recent(ids)[1..] + [id]
  {
    var n := |ids|;
    if n >= MAX_MESSAGES {
      assert (ids + [id])[n + 1 - MAX_MESSAGES..] == ids[n + 1 - MAX_MESSAGES..] + [id];
      assert Recent(ids) == ids[n - MAX_MESSAGES..];
      assert ids[n - MAX_MESSAGES..][1..] == ids[n + 1 - MAX_MESSAGES..];
    }
  }

  /** What a chunk does to the ids of the messages. */
  lemma AppendedIds(s: Session, id: Id, body: Body)
    ensures var ids := IdsOf(s.messages);
            IdsOf(Appended(s, id, body).messages)
            == if id in ids then ids
               else if |ids| == MAX_MESSAGES then ids[1..] + [id]
               else ids + [id]
  {
    hide Without, Pushed;
    FindFinds(s.messages, id);
    var at := Find(s.messages, id);
    if at < |s.messages| {
      assert IdsOf(s.messages)[at] == id;
    }
  }

  lemma SayRecent(s: Session, id: Id, body: Body, ids: seq<Id>)
    requires Kept(s) && IdsOf(s.messages) == Recent(ids)
    ensures IdsOf(Appended(s, id, body).messages) == Recent(if id in Recent(ids) then ids else ids + [id])
  {
    AppendedIds(s, id, body);
    RecentShifts(ids, id);
    RecentSize(ids);
    hide Kept, Appended, Recent, IdsOf;
  }

  lemma RecentSize(ids: seq<Id>)
    ensures |Recent(ids)| == if |ids| < MAX_MESSAGES then |ids| else MAX_MESSAGES
  {
  }

  /** The messages of every session are the last 128 new ones, in the order in which they came. */
  lemma {:induction false} MessagesAreRecent(steps: seq<Step>)
    requires Run(steps).Some?
    ensures IdsOf(Run(steps).value.messages) == Recent(NewlySaid(steps))
    decreases |steps|
  {
    hide Kept, Appended, ToolApplied, Recent;
    if steps == [] {
      NoneRecent();
    } else {
      var before, last := steps[..|steps| - 1], steps[|steps| - 1];
      MessagesAreRecent(before);
      RunKept(before);
      match last
      case Say(id, body) => SayRecent(Run(before).value, id, body, NewlySaid(before));
      case Use(tool) => ToolKeepsMessages(Run(before).value, tool);
    }
  }

  lemma NoneRecent()
    ensures Recent([]) == []
  {
  }

  lemma ToolKeepsMessages(s: Session, t: Tool)
    ensures ToolApplied(s, t).Some? ==> ToolApplied(s, t).value.messages == s.messages
  {
  }

  // ---- the timeline is in the order of arrival ----

  /** Every entry that was ever new, in order; a message or tool that comes back after it was pushed out is new again. */
  function Arrivals(steps: seq<Step>): seq<Entry> {
    if steps == [] then []
    else
      var before, last := steps[..|steps| - 1], steps[|steps| - 1];
      Arrivals(before)
      + match last
        case Say(id, _) => if id in Recent(NewlySaid(before)) then [] else [Said(id)]
        case Use(tool) => if Run(before).Some? && tool.id in Run(before).value.tools then [] else [Used(tool.id)]
  }

  /** Where the entry arrived last. */
  function LastArrival(arrivals: seq<Entry>, e: Entry): (at: int)
    ensures -1 <= at < |arrivals| && (at >= 0 <==> e in arrivals)
  {
    if arrivals == [] then -1
    else if arrivals[|arrivals| - 1] == e then |arrivals| - 1
    else LastArrival(arrivals[..|arrivals| - 1], e)
  }

  ghost predicate InOrderOfArrival(timeline: seq<Entry>, arrivals: seq<Entry>) {
    && (forall i :: 0 <= i < |timeline| ==> timeline[i] in arrivals)
    && (forall i, j :: 0 <= i < j < |timeline| ==> LastArrival(arrivals, timeline[i]) < LastArrival(arrivals, timeline[j]))
  }

  lemma {:induction false} WithoutKeepsOrder(timeline: seq<Entry>, id: Id, arrivals: seq<Entry>)
    requires InOrderOfArrival(timeline, arrivals)
    ensures InOrderOfArrival(Without(timeline, id), arrivals)
  {
    if timeline != [] {
      TailInOrder(timeline, arrivals);
      WithoutKeepsOrder(timeline[1..], id, arrivals);
      WithoutIs(timeline[1..], id);
      FirstStaysFirst(timeline, Without(timeline[1..], id), arrivals);
    }
  }

  lemma TailInOrder(timeline: seq<Entry>, arrivals: seq<Entry>)
    requires timeline != [] && InOrderOfArrival(timeline, arrivals)
    ensures InOrderOfArrival(timeline[1..], arrivals)
  {
    hide LastArrival;
    var rest := timeline[1..];
    assert forall i :: 0 <= i < |rest| ==> rest[i] == timeline[i + 1];
  }

  lemma FirstStaysFirst(timeline: seq<Entry>, kept: seq<Entry>, arrivals: seq<Entry>)
    requires timeline != [] && InOrderOfArrival(timeline, arrivals) && InOrderOfArrival(kept, arrivals)
    requires forall e :: e in kept ==> e in timeline[1..]
    ensures InOrderOfArrival([timeline[0]] + kept, arrivals)
  {
    hide LastArrival;
    forall j | 0 <= j < |kept| ensures LastArrival(arrivals, timeline[0]) < LastArrival(arrivals, kept[j]) {
      assert kept[j] in timeline[1..];
      var k :| 0 <= k < |timeline[1..]| && timeline[1..][k] == kept[j];
      assert timeline[k + 1] == kept[j];
    }
  }

  lemma ArrivesLast(timeline: seq<Entry>, e: Entry, arrivals: seq<Entry>)
    requires InOrderOfArrival(timeline, arrivals) && e !in timeline
    ensures InOrderOfArrival(timeline + [e], arrivals + [e])
  {
    var more := arrivals + [e];
    assert more[..|arrivals|] == arrivals;
    forall i | 0 <= i < |timeline| ensures LastArrival(more, timeline[i]) == LastArrival(arrivals, timeline[i]) {
      assert timeline[i] in timeline;
    }
  }

  lemma SayArrives(s: Session, id: Id, body: Body, arrivals: seq<Entry>)
    requires Kept(s) && InOrderOfArrival(s.timeline, arrivals)
    ensures id in Ids(s.messages) ==> Appended(s, id, body).timeline == s.timeline
    ensures id !in Ids(s.messages) ==> InOrderOfArrival(Appended(s, id, body).timeline, arrivals + [Said(id)])
  {
    FindFinds(s.messages, id);
    FindIffHeld(s.messages, id);
    if id !in Ids(s.messages) {
      MessageRoomKeeps(s);
      var room := MessageRoom(s);
      if |s.messages| == MAX_MESSAGES {
        WithoutKeepsOrder(s.timeline, s.messages[0].id, arrivals);
      }
      AddMessageKeeps(room, id, body);
      NotYetListed(room, Said(id));
      hide InOrderOfArrival, MessageRoom, AddMessage, Kept;
      ArrivesLast(room.timeline, Said(id), arrivals);
    }
  }

  lemma NotYetListed(s: Session, e: Entry)
    requires Kept(s) && !Held(s, e)
    ensures e !in s.timeline
  {
  }

  lemma UseArrives(s: Session, t: Tool, arrivals: seq<Entry>)
    requires Kept(s) && InOrderOfArrival(s.timeline, arrivals) && ToolApplied(s, t).Some?
    ensures t.id in s.tools ==> ToolApplied(s, t).value.timeline == s.timeline
    ensures t.id !in s.tools ==> InOrderOfArrival(ToolApplied(s, t).value.timeline, arrivals + [Used(t.id)])
  {
    if t.id !in s.tools {
      ToolRoomKeeps(s);
      var room := ToolRoom(s).value;
      if |s.tools| >= MAX_TOOLS {
        WithoutKeepsOrder(s.timeline, OldestTool(s.tools, s.timeline).value, arrivals);
      }
      AddToolKeeps(room, t);
      NotYetListed(room, Used(t.id));
      hide InOrderOfArrival, ToolRoom, AddTool, Kept;
      ArrivesLast(room.timeline, Used(t.id), arrivals);
    }
  }

  /** The timeline of every session lists its entries in the order of their last arrival. */
  lemma {:induction false} TimelineInOrder(steps: seq<Step>)
    requires Run(steps).Some?
    ensures InOrderOfArrival(Run(steps).value.timeline, Arrivals(steps))
    decreases |steps|
  {
    hide Kept, Appended, ToolApplied, InOrderOfArrival, Recent, NewlySaid;
    if steps == [] {
      NothingArrived();
    } else {
      var before, last := steps[..|steps| - 1], steps[|steps| - 1];
      TimelineInOrder(before);
      RunKept(before);
      var s, arrivals := Run(before).value, Arrivals(before);
      assert arrivals + [] == arrivals;
      match last
      case Say(id, body) =>
        HeldIffRecent(before, id);
        SayArrives(s, id, body, arrivals);
      case Use(tool) => UseArrives(s, tool, arrivals);
    }
  }

  lemma NothingArrived()
    ensures InOrderOfArrival([], [])
  {
  }

  lemma HeldIffRecent(steps: seq<Step>, id: Id)
    requires Run(steps).Some?
    ensures id in Ids(Run(steps).value.messages) <==> id in Recent(NewlySaid(steps))
  {
    MessagesAreRecent(steps);
    hide Run, NewlySaid, Recent;
    var messages := Run(steps).value.messages;
    if id in IdsOf(messages) {
      var i :| 0 <= i < |messages| && IdsOf(messages)[i] == id;
      assert messages[i] in messages;
    }
    if id in Ids(messages) {
      var m :| m in messages && m.id == id;
      var i :| 0 <= i < |messages| && messages[i] == m;
      assert IdsOf(messages)[i] == id;
    }
  }

  /** When a new tool needs room, the tool pushed out is the one in the timeline that arrived first. */
  lemma OldestToolGoes(steps: seq<Step>, t: Tool, other: Id)
    requires Run(steps).Some? && ToolApplied(Run(steps).value, t).Some?
    requires t.id !in Run(steps).value.tools && |Run(steps).value.tools| == MAX_TOOLS
    requires other in Run(steps).value.tools && Used(other) in Run(steps).value.timeline
    ensures var s, arrivals := Run(steps).value, Arrivals(steps);
            var oldest := OldestTool(s.tools, s.timeline).value;
            && ToolApplied(s, t).value.tools == (s.tools - {oldest})[t.id := t]
            && (other == oldest || LastArrival(arrivals, Used(oldest)) < LastArrival(arrivals, Used(other)))
  {
    hide Run, Arrivals, LastArrival, Without, Pushed, InOrderOfArrival;
    TimelineInOrder(steps);
    var s := Run(steps).value;
    FirstToolArrivedFirst(s.tools, s.timeline, Arrivals(steps), other);
  }

  lemma FirstToolArrivedFirst(tools: map<Id, Tool>, timeline: seq<Entry>, arrivals: seq<Entry>, other: Id)
    requires InOrderOfArrival(timeline, arrivals) && other in tools && Used(other) in timeline
    ensures OldestTool(tools, timeline).Some?
    ensures var oldest := OldestTool(tools, timeline).value;
            other == oldest || LastArrival(arrivals, Used(oldest)) < LastArrival(arrivals, Used(other))
  {
    hide LastArrival, OldestTool;
    OldestToolIs(tools, timeline);
    var oldest := OldestTool(tools, timeline).value;
    var i :| 0 <= i < |timeline| && timeline[i] == Used(oldest)
      && forall j :: 0 <= j < i && timeline[j].Used? ==> timeline[j].canonicalId !in tools;
    var j :| 0 <= j < |timeline| && timeline[j] == Used(other);
    assert i <= j;
  }

  // ---- everything held is in the timeline ----

  ghost predicate Listed(s: Session) {
    && (forall id :: id in Ids(s.messages) ==> Said(id) in s.timeline)
    && (forall id :: id in s.tools ==> Used(id) in s.timeline)
  }

  /** The step pushes out a message or a tool whose id the other collection holds as well. */
  predicate LosesEntry(s: Session, step: Step) {
    match step
    case Say(id, _) =>
      id !in Ids(s.messages) && |s.messages| == MAX_MESSAGES && s.messages[0].id in s.tools
    case Use(tool) =>
      && tool.id !in s.tools && |s.tools| >= MAX_TOOLS
      && OldestTool(s.tools, s.timeline).Some? && OldestTool(s.tools, s.timeline).value in Ids(s.messages)
  }

  lemma MessageRoomListed(s: Session)
    requires Kept(s) && Listed(s)
    ensures Listed(MessageRoom(s)) <==> !(|s.messages| == MAX_MESSAGES && s.messages[0].id in s.tools)
  {
    if |s.messages| == MAX_MESSAGES {
      var first, room := s.messages[0], MessageRoom(s);
      assert s.messages == [first] + room.messages;
      WithoutIs(s.timeline, first.id);
      if first.id in s.tools {
        assert Used(first.id) !in room.timeline;
      } else {
        forall id | id in Ids(room.messages) ensures Said(id) in room.timeline {
          assert id in Ids(s.messages) && EntryId(Said(id)) != first.id;
        }
        forall id | id in room.tools ensures Used(id) in room.timeline {
          assert EntryId(Used(id)) != first.id;
        }
      }
    }
  }

  lemma ToolRoomListed(s: Session)
    requires Kept(s) && Listed(s)
    ensures ToolRoom(s).Some?
    ensures Listed(ToolRoom(s).value) <==>
              !(|s.tools| == MAX_TOOLS && OldestTool(s.tools, s.timeline).value in Ids(s.messages))
  {
    OldestToolIs(s.tools, s.timeline);
    if |s.tools| == MAX_TOOLS {
      assert s.tools.Keys != {};
      var some :| some in s.tools;
      assert Used(some) in s.timeline;
      var oldest, room := OldestTool(s.tools, s.timeline).value, ToolRoom(s).value;
      WithoutIs(s.timeline, oldest);
      if oldest in Ids(s.messages) {
        assert Said(oldest) !in room.timeline;
      } else {
        forall id | id in Ids(room.messages) ensures Said(id) in room.timeline {
          assert EntryId(Said(id)) != oldest;
        }
        forall id | id in room.tools ensures Used(id) in room.timeline {
          assert EntryId(Used(id)) != oldest;
        }
      }
    }
  }

  lemma AddMessageListed(s: Session, id: Id, body: Body)
    requires Kept(s) && |s.messages| < MAX_MESSAGES && id !in Ids(s.messages)
    ensures Listed(AddMessage(s, id, body)) <==> Listed(s)
  {
    AddMessageKeeps(s, id, body);
    var added := AddMessage(s, id, body);
    assert Ids(added.messages) == Ids(s.messages) + {id} by {
      assert forall m :: m in added.messages <==> m in s.messages || m == Stored(id, body);
    }
    assert forall e :: e in added.timeline <==> e in s.timeline || e == Said(id);
  }

  lemma AddToolListed(s: Session, t: Tool)
    requires Kept(s) && |s.tools| < MAX_TOOLS && t.id !in s.tools
    ensures Listed(AddTool(s, t)) <==> Listed(s)
  {
    AddToolKeeps(s, t);
    assert forall e :: e in AddTool(s, t).timeline <==> e in s.timeline || e == Used(t.id);
  }

  lemma FindIffHeld(messages: seq<Stored>, id: Id)
    ensures Find(messages, id) < |messages| <==> id in Ids(messages)
  {
    FindFinds(messages, id);
  }

  /**
   While everything held is in the timeline no step panics, and a step keeps it so exactly unless the message
   or tool it pushes out shares its id with a held tool or message.
   */
  lemma StaysListedIff(s: Session, step: Step)
    requires Kept(s) && Listed(s)
    ensures Apply(s, step).Some?
    ensures Listed(Apply(s, step).value) <==> !LosesEntry(s, step)
  {
    match step
    case Say(id, body) =>
      FindFinds(s.messages, id);
      FindIffHeld(s.messages, id);
      if id in Ids(s.messages) {
        UpdatedIds(s.messages, Find(s.messages, id), body);
      } else {
        MessageRoomKeeps(s);
        MessageRoomListed(s);
        AddMessageListed(MessageRoom(s), id, body);
      }
    case Use(tool) =>
      if tool.id !in s.tools {
        ToolRoomListed(s);
        ToolRoomKeeps(s);
        AddToolListed(ToolRoom(s).value, tool);
      }
  }

  /** A run in which no step pushes out a shared id never panics. */
  lemma {:induction false} RunListed(steps: seq<Step>)
    requires forall n :: 0 <= n < |steps| && Run(steps[..n]).Some? ==> !LosesEntry(Run(steps[..n]).value, steps[n])
    ensures Run(steps).Some? && Listed(Run(steps).value)
  {
    if steps != [] {
      var last := |steps| - 1;
      forall n | 0 <= n < last && Run(steps[..last][..n]).Some?
        ensures !LosesEntry(Run(steps[..last][..n]).value, steps[..last][n])
      {
        assert steps[..last][..n] == steps[..n];
      }
      RunListed(steps[..last]);
      RunKept(steps[..last]);
      StaysListedIff(Run(steps[..last]).value, steps[last]);
    }
  }

  /** A step panics exactly when it needs room for a tool and no held tool is in the timeline. */
  lemma PanicsIff(s: Session, step: Step)
    ensures Apply(s, step).None? <==>
            && step.Use? && step.tool.id !in s.tools && |s.tools| >= MAX_TOOLS
            && forall e :: e in s.timeline && e.Used? ==> e.canonicalId !in s.tools
  {
    OldestToolIs(s.tools, s.timeline);
  }

  lemma {:induction false} BodiesAre(messages: seq<Stored>, i: nat)
    requires DistinctIds(messages) && i < |messages|
    ensures messages[i].id in Bodies(messages) && Bodies(messages)[messages[i].id] == messages[i].body
  {
    if i < |messages| - 1 {
      BodiesAre(messages[..|messages| - 1], i);
    }
  }

  /** What is held and in the timeline is in the messages sent: a message as it was last said, a tool with its result. */
  lemma ListedIsShown(steps: seq<Step>, m: Stored, t: Tool)
    requires Run(steps).Some? && Listed(Run(steps).value)
    ensures var s := Run(steps).value;
            var sent := Flatten(GroupsOf(Shown(s), s.timeline));
            && (m in s.messages ==> Message(m.id, [], None, m.body) in sent && LastSaid(steps, m.id) == Some(m.body))
            && (t.id in s.tools && s.tools[t.id] == t ==>
                  && Message(t.id, if t.subagent then [] else [t.id], None, t.call) in sent
                  && (!t.subagent ==> Message(t.id, [], Some(t.id), t.result) in sent)
                  && LastUsed(steps, t.id) == Some(t))
  {
    RunKept(steps);
    HeldIsLatest(steps);
    hide Run, LastSaid, LastUsed, GroupsOf, Flatten, Bodies;
    var s := Run(steps).value;
    if m in s.messages {
      var i :| 0 <= i < |s.messages| && s.messages[i] == m;
      BodiesAre(s.messages, i);
      assert m.id in Ids(s.messages);
      var k :| 0 <= k < |s.timeline| && s.timeline[k] == Said(m.id);
      SnapshotOfOne(Shown(s), Said(m.id));
      SnapshotHas(Shown(s), s.timeline, k, Message(m.id, [], None, m.body));
    }
    if t.id in s.tools && s.tools[t.id] == t {
      var k :| 0 <= k < |s.timeline| && s.timeline[k] == Used(t.id);
      SnapshotOfOne(Shown(s), Used(t.id));
      SnapshotHas(Shown(s), s.timeline, k, Message(t.id, if t.subagent then [] else [t.id], None, t.call));
      if !t.subagent {
        SnapshotHas(Shown(s), s.timeline, k, Message(t.id, [], Some(t.id), t.result));
      }
    }
  }

  // ---- a run that panics ----

  function PlainTool(id: Id): Tool {
    Tool(id, false, 0, 0)
  }

  function ReusingStep(n: nat): Step {
    if n < MAX_TOOLS then Use(PlainTool(n))
    else if n < 3 * MAX_TOOLS then Say(n - MAX_TOOLS, 0)
    else Use(PlainTool(n))
  }

  /** 128 tools, as many messages with the same ids, as many new messages that push those out, one more tool. */
  const REUSED_IDS: seq<Step> := seq(3 * MAX_TOOLS + 1, n requires 0 <= n => ReusingStep(n))

  function ToolEntries(from: nat, to: nat): seq<Entry>
    requires from <= to
  {
    seq(to - from, i requires 0 <= i => Used(from + i))
  }

  function MessageEntries(from: nat, to: nat): seq<Entry>
    requires from <= to
  {
    seq(to - from, i requires 0 <= i => Said(from + i))
  }

  function Below(n: nat): set<Id> {
    if n == 0 then {} else Below(n - 1) + {n - 1}
  }

  lemma {:induction false} BelowIs(n: nat)
    ensures |Below(n)| == n && forall id: Id :: id in Below(n) <==> id < n
  {
    if n > 0 {
      BelowIs(n - 1);
    }
  }

  /** Tools below `tools` are held, messages from `first` to `next`, and tools from `first` on are in the timeline. */
  ghost predicate Reusing(s: Session, tools: nat, first: nat, next: nat) {
    && first <= tools && first <= next
    && s.messages == seq(next - first, i requires 0 <= i => Stored(first + i, 0))
    && s.tools.Keys == Below(tools)
    && s.timeline == ToolEntries(first, tools) + MessageEntries(first, next)
  }

  lemma UseNext(s: Session, tools: nat)
    requires Reusing(s, tools, 0, 0) && tools < MAX_TOOLS
    ensures ToolApplied(s, PlainTool(tools)).Some?
    ensures Reusing(ToolApplied(s, PlainTool(tools)).value, tools + 1, 0, 0)
  {
    BelowIs(tools);
    assert |s.tools| == |s.tools.Keys|;
    assert ToolEntries(0, tools + 1) == ToolEntries(0, tools) + [Used(tools)];
  }

  lemma SayNext(s: Session, next: nat)
    requires Reusing(s, MAX_TOOLS, 0, next) && next < MAX_MESSAGES
    ensures Reusing(Appended(s, next, 0), MAX_TOOLS, 0, next + 1)
  {
    hide Below, Without;
    FindFinds(s.messages, next);
    assert Find(s.messages, next) == |s.messages|;
    assert |s.timeline| < MAX_TIMELINE_ENTRIES;
    assert MessageEntries(0, next + 1) == MessageEntries(0, next) + [Said(next)];
  }

  lemma {:induction false} WithoutAll(timeline: seq<Entry>, id: Id)
    requires forall i :: 0 <= i < |timeline| ==> EntryId(timeline[i]) != id
    ensures Without(timeline, id) == timeline
  {
    if timeline != [] {
      WithoutAll(timeline[1..], id);
    }
  }

  lemma {:induction false} WithoutConcat(a: seq<Entry>, b: seq<Entry>, id: Id)
    ensures Without(a + b, id) == Without(a, id) + Without(b, id)
  {
    if a == [] {
      assert a + b == b;
    } else {
      assert (a + b)[1..] == a[1..] + b;
      WithoutConcat(a[1..], b, id);
    }
  }

  /** Pushing out the message `first` takes the entry of the tool `first` along. */
  lemma BothEntriesGo(first: nat, tools: nat, next: nat)
    requires first < tools && first < next
    ensures Without(ToolEntries(first, tools) + MessageEntries(first, next), first)
            == ToolEntries(first + 1, tools) + MessageEntries(first + 1, next)
  {
    var used, said := ToolEntries(first, tools), MessageEntries(first, next);
    WithoutConcat(used, said, first);
    assert used[1..] == ToolEntries(first + 1, tools) && said[1..] == MessageEntries(first + 1, next);
    WithoutAll(used[1..], first);
    WithoutAll(said[1..], first);
  }

  lemma SayPushesOut(s: Session, first: nat)
    requires Reusing(s, MAX_TOOLS, first, first + MAX_MESSAGES) && first < MAX_TOOLS
    ensures Reusing(Appended(s, first + MAX_MESSAGES, 0), MAX_TOOLS, first + 1, first + 1 + MAX_MESSAGES)
  {
    hide Below, Without;
    var next := first + MAX_MESSAGES;
    FindFinds(s.messages, next);
    BothEntriesGo(first, MAX_TOOLS, next);
    assert MessageEntries(first + 1, next + 1) == MessageEntries(first + 1, next) + [Said(next)];
  }

  ghost predicate ReusedTo(s: Session, n: nat) {
    var said := if n < MAX_TOOLS then 0 else n - MAX_TOOLS;
    Reusing(s, if n < MAX_TOOLS then n else MAX_TOOLS, if said < MAX_MESSAGES then 0 else said - MAX_MESSAGES, said)
  }

  lemma ReuseGoesOn(s: Session, n: nat)
    requires n < 3 * MAX_TOOLS && ReusedTo(s, n)
    ensures Apply(s, ReusingStep(n)).Some? && ReusedTo(Apply(s, ReusingStep(n)).value, n + 1)
  {
    hide Reusing, Appended, ToolApplied;
    if n < MAX_TOOLS {
      UseNext(s, n);
    } else if n < 2 * MAX_TOOLS {
      SayNext(s, n - MAX_TOOLS);
    } else {
      SayPushesOut(s, n - 2 * MAX_TOOLS);
    }
  }

  lemma NothingReused()
    ensures Run(REUSED_IDS[..0]).Some? && ReusedTo(Run(REUSED_IDS[..0]).value, 0)
  {
  }

  lemma {:induction false} ReusedAfter(n: nat)
    requires n <= 3 * MAX_TOOLS
    ensures Run(REUSED_IDS[..n]).Some? && ReusedTo(Run(REUSED_IDS[..n]).value, n)
  {
    hide ReusedTo, Apply, ReusingStep, Run;
    if n == 0 {
      NothingReused();
    } else {
      ReusedAfter(n - 1);
      RunLast(REUSED_IDS[..n]);
      assert REUSED_IDS[..n][..n - 1] == REUSED_IDS[..n - 1];
      assert REUSED_IDS[n - 1] == ReusingStep(n - 1);
      ReuseGoesOn(Run(REUSED_IDS[..n - 1]).value, n - 1);
    }
  }

  /** Tools whose entries went with messages of the same ids leave no room for another. */
  lemma ReusedIdsPanic()
    ensures Run(REUSED_IDS[..3 * MAX_TOOLS]).Some? && Run(REUSED_IDS).None?
  {
    ReusedAfter(3 * MAX_TOOLS);
    var before, last := Run(REUSED_IDS[..3 * MAX_TOOLS]).value, REUSED_IDS[3 * MAX_TOOLS];
    hide Run;
    BelowIs(MAX_TOOLS);
    assert |before.tools| == |before.tools.Keys|;
    assert before.timeline == MessageEntries(MAX_TOOLS, 2 * MAX_TOOLS);
    assert forall e :: e in before.timeline ==> e.Said?;
    PanicsIff(before, last);
    assert REUSED_IDS[..3 * MAX_TOOLS] == REUSED_IDS[..|REUSED_IDS| - 1];
    RunLast(REUSED_IDS);
  }

  lemma RunLast(steps: seq<Step>)
    requires steps != []
    ensures var before := Run(steps[..|steps| - 1]);
            Run(steps) == if before.None? then None else Apply(before.value, steps[|steps| - 1])
  {
  }
}
