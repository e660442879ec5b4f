/**
 The messages snapshot of a session: built from its timeline, and trimmed from the oldest side until
 it fits one notification. A tool call and its result are two messages that stay or go together.
 */
module Snapshots {
  import opened Wrappers

  /** Message and tool ids. */
  type Id = nat

  /** The text and the remaining fields of a message; their JSON form only matters for the size. */
  type Body = nat

  datatype Message = Message(id: Id, calls: seq<Id>, resultOf: Option<Id>, body: Body)

  datatype Entry = Said(message: Id) | Used(canonicalId: Id)

  datatype Tool = Tool(id: Id, subagent: bool, call: Body, result: Body)

  datatype Snapshot = Snapshot(messages: map<Id, Body>, tools: map<Id, Tool>, timeline: seq<Entry>)

  /** What one timeline entry contributes. */
  datatype Group = Alone(message: Message) | Pair(call: Message, result: Message)

  function Parts(g: Group): seq<Message> {
    match g
    case Alone(m) => [m]
    case Pair(call, result) => [call, result]
  }

  function ToolGroup(t: Tool): Group {
    if t.subagent then Alone(Message(t.id, [], None, t.call))
    else Pair(Message(t.id, [t.id], None, t.call), Message(t.id, [], Some(t.id), t.result))
  }

  /** Entries whose message or tool is gone are skipped. */
  function EntryGroups(s: Snapshot, e: Entry): seq<Group> {
    match e
    case Said(id) => if id in s.messages then [Alone(Message(id, [], None, s.messages[id]))] else []
    case Used(id) => if id in s.tools then [ToolGroup(s.tools[id])] else []
  }

  function GroupsOf(s: Snapshot, timeline: seq<Entry>): seq<Group> {
    if timeline == [] then [] else EntryGroups(s, timeline[0]) + GroupsOf(s, timeline[1..])
  }

  function Flatten(groups: seq<Group>): seq<Message> {
    if groups == [] then [] else Parts(groups[0]) + Flatten(groups[1..])
  }

  // ---- what the trim relies on ----

  /** A message that stands alone neither calls a tool nor answers a call; a pair is a call and its answer. */
  predicate Proper(g: Group) {
    match g
    case Alone(m) => m.calls == [] && m.resultOf.None?
    case Pair(call, result) =>
      |call.calls| == 1 && call.resultOf.None? && result.calls == [] && result.resultOf == Some(call.calls[0])
  }

  predicate AllProper(groups: seq<Group>) {
    forall i :: 0 <= i < |groups| ==> Proper(groups[i])
  }

  predicate Calls(g: Group, tool: Id)
    requires Proper(g)
  {
    g.Pair? && g.call.calls[0] == tool
  }

  predicate DistinctCalls(groups: seq<Group>)
    requires AllProper(groups)
  {
    forall i, j :: 0 <= i < j < |groups| && groups[i].Pair? && groups[j].Pair? ==>
                     groups[i].call.calls[0] != groups[j].call.calls[0]
  }

  lemma {:induction false} SnapshotGroupsProper(s: Snapshot, timeline: seq<Entry>)
    ensures AllProper(GroupsOf(s, timeline))
  {
    if timeline != [] {
      SnapshotGroupsProper(s, timeline[1..]);
    }
  }

  /** No two tool entries of the timeline stand for the same tool. */
  predicate DistinctTools(s: Snapshot, timeline: seq<Entry>) {
    forall i, j :: 0 <= i < j < |timeline| ==> !SameTool(s, timeline[i], timeline[j])
  }

  predicate SameTool(s: Snapshot, a: Entry, b: Entry) {
    && a.Used? && b.Used? && a.canonicalId in s.tools && b.canonicalId in s.tools
    && !s.tools[a.canonicalId].subagent && !s.tools[b.canonicalId].subagent
    && s.tools[a.canonicalId].id == s.tools[b.canonicalId].id
  }

  lemma {:induction false} CallsComeFromEntries(s: Snapshot, timeline: seq<Entry>, k: nat) returns (i: nat)
    requires k < |GroupsOf(s, timeline)| && GroupsOf(s, timeline)[k].Pair?
    ensures i < |timeline| && timeline[i].Used? && timeline[i].canonicalId in s.tools
    ensures !s.tools[timeline[i].canonicalId].subagent
    ensures GroupsOf(s, timeline)[k].call.calls == [s.tools[timeline[i].canonicalId].id]
  {
    var n := |EntryGroups(s, timeline[0])|;
    if k < n {
      i := 0;
    } else {
      i := CallsComeFromEntries(s, timeline[1..], k - n);
      i := i + 1;
    }
  }

  lemma {:induction false} DistinctToolsDistinctCalls(s: Snapshot, timeline: seq<Entry>)
    requires DistinctTools(s, timeline)
    ensures AllProper(GroupsOf(s, timeline)) && DistinctCalls(GroupsOf(s, timeline))
  {
    SnapshotGroupsProper(s, timeline);
    if timeline != [] {
      var rest, first := GroupsOf(s, timeline[1..]), EntryGroups(s, timeline[0]);
      assert DistinctTools(s, timeline[1..]) by {
        forall i, j | 0 <= i < j < |timeline[1..]| ensures !SameTool(s, timeline[1..][i], timeline[1..][j]) {
          assert !SameTool(s, timeline[i + 1], timeline[j + 1]);
        }
      }
      DistinctToolsDistinctCalls(s, timeline[1..]);
      forall k | 0 <= k < |rest| && rest[k].Pair? && first != [] && first[0].Pair?
        ensures rest[k].call.calls[0] != first[0].call.calls[0]
      {
        var i := CallsComeFromEntries(s, timeline[1..], k);
        assert timeline[1..][i] == timeline[i + 1];
        assert !SameTool(s, timeline[0], timeline[i + 1]);
      }
    }
  }

  // ---- removing the oldest message and what belongs to it ----

  /** A later message that goes with the oldest one: an answer to its call, or the call it answers. */
  predicate GoesWith(oldest: Message, m: Message) {
    || (m.resultOf.Some? && m.resultOf.value in oldest.calls)
    || (oldest.resultOf.Some? && oldest.resultOf.value in m.calls)
  }

  function Retain(oldest: Message, messages: seq<Message>): seq<Message> {
    if messages == [] then []
    else if GoesWith(oldest, messages[0]) then Retain(oldest, messages[1..])
    else [messages[0]] + Retain(oldest, messages[1..])
  }

  function RemoveOldest(messages: seq<Message>): (r: seq<Message>)
    requires messages != []
    ensures |r| < |messages|
  {
    RetainShrinks(messages[0], messages[1..]);
    Retain(messages[0], messages[1..])
  }

  lemma {:induction false} RetainShrinks(oldest: Message, messages: seq<Message>)
    ensures |Retain(oldest, messages)| <= |messages|
  {
    if messages != [] {
      RetainShrinks(oldest, messages[1..]);
    }
  }

  lemma {:induction false} RetainConcat(oldest: Message, a: seq<Message>, b: seq<Message>)
    ensures Retain(oldest, a + b) == Retain(oldest, a) + Retain(oldest, b)
  {
    if a == [] {
      assert a + b == b;
    } else {
      assert (a + b)[1..] == a[1..] + b;
      RetainConcat(oldest, a[1..], b);
    }
  }

  /** `remove_oldest_snapshot_message_group`. */
  method RemoveOldestGroup(messages: seq<Message>) returns (r: seq<Message>)
    requires messages != []
    ensures r == RemoveOldest(messages)
  {
    var oldest, later := messages[0], messages[1..];
    r := [];
    var i := 0;
    while i < |later|
      invariant i <= |later| && r + Retain(oldest, later[i..]) == Retain(oldest, later)
    {
      if !GoesWith(oldest, later[i]) {
        assert later[i..][1..] == later[i + 1..];
        r := r + [later[i]];
      }
      i := i + 1;
    }
  }

  /** No later group calls the tool that the group calls. */
  predicate CalledOnce(g: Group, later: seq<Group>)
    requires Proper(g) && AllProper(later)
  {
    g.Pair? ==> forall k :: 0 <= k < |later| ==> !Calls(later[k], g.call.calls[0])
  }

  lemma {:induction false} RetainAll(oldest: Message, groups: seq<Group>)
    requires AllProper(groups) && oldest.resultOf.None?
    requires forall k :: 0 <= k < |groups| && groups[k].Pair? ==> groups[k].call.calls[0] !in oldest.calls
    ensures Retain(oldest, Flatten(groups)) == Flatten(groups)
  {
    if groups != [] {
      RetainAll(oldest, groups[1..]);
      RetainConcat(oldest, Parts(groups[0]), Flatten(groups[1..]));
      var parts := Parts(groups[0]);
      assert !GoesWith(oldest, parts[0]);
      if groups[0].Pair? {
        assert parts[1..] == [parts[1]] && parts[1..][1..] == [];
      } else {
        assert parts[1..] == [];
      }
    }
  }

  /** An answer to the oldest call is dropped wherever it is. */
  lemma {:induction false} RetainLoses(oldest: Message, groups: seq<Group>, k: nat)
    requires AllProper(groups) && k < |groups| && groups[k].Pair? && groups[k].call.calls[0] in oldest.calls
    ensures |Retain(oldest, Flatten(groups))| < |Flatten(groups)|
  {
    RetainConcat(oldest, Parts(groups[0]), Flatten(groups[1..]));
    RetainShrinks(oldest, Parts(groups[0]));
    RetainShrinks(oldest, Flatten(groups[1..]));
    if k > 0 {
      RetainLoses(oldest, groups[1..], k - 1);
    } else {
      var parts := Parts(groups[0]);
      assert GoesWith(oldest, parts[1]);
      assert parts[1..] == [parts[1]] && parts[1..][1..] == [];
    }
  }

  /** The rest of the first group goes with its first message. */
  lemma RemovalInside(g: Group, later: seq<Message>)
    requires Proper(g)
    ensures Retain(Parts(g)[0], Parts(g)[1..] + later) == Retain(Parts(g)[0], later)
  {
    var parts := Parts(g);
    if g.Pair? {
      assert GoesWith(parts[0], parts[1]);
      assert (parts[1..] + later)[0] == parts[1] && (parts[1..] + later)[1..] == later;
    } else {
      assert parts[1..] + later == later;
    }
  }

  lemma RemovalIs(groups: seq<Group>)
    requires groups != [] && AllProper(groups)
    ensures RemoveOldest(Flatten(groups)) == Retain(Parts(groups[0])[0], Flatten(groups[1..]))
  {
    hide Retain, Proper, GoesWith;
    FirstOfFlat(groups);
    RemovalInside(groups[0], Flatten(groups[1..]));
  }

  lemma FirstOfFlat(groups: seq<Group>)
    requires groups != []
    ensures Flatten(groups) != [] && Flatten(groups)[0] == Parts(groups[0])[0]
    ensures Flatten(groups)[1..] == Parts(groups[0])[1..] + Flatten(groups[1..])
  {
  }

  /** One removal takes exactly the first group, if and only if no later group calls the same tool. */
  lemma RemovesGroupIff(groups: seq<Group>)
    requires groups != [] && AllProper(groups)
    ensures RemoveOldest(Flatten(groups)) == Flatten(groups[1..]) <==> CalledOnce(groups[0], groups[1..])
  {
    RemovalIs(groups);
    hide Retain, RemoveOldest, Flatten;
    var g, later := groups[0], groups[1..];
    if CalledOnce(g, later) {
      RetainAll(Parts(g)[0], later);
    } else {
      var k :| 0 <= k < |later| && Calls(later[k], g.call.calls[0]);
      RetainLoses(Parts(g)[0], later, k);
    }
  }

  // ---- trimming ----

  function Trim(size: seq<Message> -> nat, limit: nat, messages: seq<Message>): seq<Message>
    decreases |messages|
  {
    if size(messages) <= limit || |messages| <= 1 then messages else Trim(size, limit, RemoveOldest(messages))
  }

  /** The trim loop of `messages_snapshot_envelope`, whatever the serialized sizes are. */
  method TrimSnapshot(size: seq<Message> -> nat, limit: nat, all: seq<Message>) returns (messages: seq<Message>)
    ensures messages == Trim(size, limit, all)
  {
    messages := all;
    while size(messages) > limit && |messages| > 1
      invariant Trim(size, limit, messages) == Trim(size, limit, all)
      decreases |messages|
    {
      messages := RemoveOldestGroup(messages);
    }
  }

  /** The trim is done with these messages. */
  predicate Done(size: seq<Message> -> nat, limit: nat, messages: seq<Message>) {
    size(messages) <= limit || |messages| <= 1
  }

  lemma {:induction false} FlattenConcat(a: seq<Group>, b: seq<Group>)
    ensures Flatten(a + b) == Flatten(a) + Flatten(b)
  {
    if a == [] {
      assert a + b == b;
    } else {
      assert (a + b)[1..] == a[1..] + b;
      FlattenConcat(a[1..], b);
    }
  }

  lemma {:induction false} TrimGroups(size: seq<Message> -> nat, limit: nat, groups: seq<Group>) returns (cut: nat)
    requires AllProper(groups) && DistinctCalls(groups)
    ensures cut <= |groups| && Trim(size, limit, Flatten(groups)) == Flatten(groups[cut..])
    ensures Done(size, limit, Flatten(groups[cut..]))
    ensures forall k :: 0 <= k < cut ==> !Done(size, limit, Flatten(groups[k..]))
  {
    if Done(size, limit, Flatten(groups)) {
      cut := 0;
      assert groups[0..] == groups;
    } else {
      RemovesGroupIff(groups);
      var c := TrimGroups(size, limit, groups[1..]);
      cut := c + 1;
      assert groups[1..][c..] == groups[cut..];
      forall k | 0 <= k < cut ensures !Done(size, limit, Flatten(groups[k..])) {
        if k == 0 {
          assert groups[0..] == groups;
        } else {
          assert groups[1..][k - 1..] == groups[k..];
        }
      }
    }
  }

  /**
   With distinct tools, the snapshot sent is a suffix of all its messages, cut between two groups: every tool call
   and its result are kept or dropped together. It fits, or has at most one message, and no longer such suffix does.
   */
  lemma SnapshotTrimmed(s: Snapshot, size: seq<Message> -> nat, limit: nat) returns (cut: nat)
    requires DistinctTools(s, s.timeline)
    ensures var groups := GroupsOf(s, s.timeline);
            var sent := Trim(size, limit, Flatten(groups));
            && cut <= |groups| && sent == Flatten(groups[cut..])
            && Flatten(groups) == Flatten(groups[..cut]) + sent
            && Done(size, limit, sent)
            && forall k :: 0 <= k < cut ==> !Done(size, limit, Flatten(groups[k..]))
  {
    var groups := GroupsOf(s, s.timeline);
    DistinctToolsDistinctCalls(s, s.timeline);
    cut := TrimGroups(size, limit, groups);
    assert groups == groups[..cut] + groups[cut..];
    FlattenConcat(groups[..cut], groups[cut..]);
  }

  // ---- what a snapshot contains ----

  lemma {:induction false} GroupsConcat(s: Snapshot, a: seq<Entry>, b: seq<Entry>)
    ensures GroupsOf(s, a + b) == GroupsOf(s, a) + GroupsOf(s, b)
  {
    if a == [] {
      assert a + b == b;
    } else {
      assert (a + b)[1..] == a[1..] + b;
      GroupsConcat(s, a[1..], b);
    }
  }

  /** The messages follow the timeline. */
  lemma SnapshotConcat(s: Snapshot, a: seq<Entry>, b: seq<Entry>)
    ensures Flatten(GroupsOf(s, a + b)) == Flatten(GroupsOf(s, a)) + Flatten(GroupsOf(s, b))
  {
    GroupsConcat(s, a, b);
    FlattenConcat(GroupsOf(s, a), GroupsOf(s, b));
  }

  /**
   A held message stands for itself, a held tool for its call and the result of that call, a sub-agent for one message,
   and what is not held for nothing.
   */
  lemma SnapshotOfOne(s: Snapshot, e: Entry)
    ensures Flatten(GroupsOf(s, [e]))
            == if e.Said? && e.message in s.messages then [Message(e.message, [], None, s.messages[e.message])]
               else if e.Used? && e.canonicalId in s.tools then
                 var t := s.tools[e.canonicalId];
                 if t.subagent then [Message(t.id, [], None, t.call)]
                 else [Message(t.id, [t.id], None, t.call), Message(t.id, [], Some(t.id), t.result)]
               else []
  {
    assert [e][1..] == [];
    var groups := GroupsOf(s, [e]);
    assert groups == EntryGroups(s, e) + GroupsOf(s, []) == EntryGroups(s, e);
    if groups != [] {
      assert groups[1..] == [];
    }
  }

  lemma SnapshotHas(s: Snapshot, timeline: seq<Entry>, i: nat, m: Message)
    requires i < |timeline| && m in Flatten(GroupsOf(s, [timeline[i]]))
    ensures m in Flatten(GroupsOf(s, timeline))
  {
    hide GroupsOf, Flatten;
    SnapshotConcat(s, timeline[..i] + [timeline[i]], timeline[i + 1..]);
    SnapshotConcat(s, timeline[..i], [timeline[i]]);
    assert timeline == timeline[..i] + [timeline[i]] + timeline[i + 1..];
  }
}
