/**
 Messages in the emitted stream: what is passed on of the text received, the budget, and the marker
 that says that something is missing.
 */
module AguiMessages {
  import opened Wrappers
  import opened Utf8
  import opened AguiEvents
  import opened AguiStructured
  import opened AguiProjection
  import opened AguiLog
  import opened AguiTools
  import opened AguiToolRuns

  // ---- what a subscriber has of a message ----

  function DeltaOf(e: Event, id: Id): Text {
    match e
    case TextContent(m, delta) => if m == id then delta else []
    case ReasoningContent(m, delta) => if m == id then delta else []
    case _ => []
  }

  function Emitted(log: seq<Event>, id: Id): Text {
    if log == [] then [] else Concat(Emitted(log[..|log| - 1], id), DeltaOf(log[|log| - 1], id))
  }

  function MarkersOf(e: Event, id: Id): nat {
    if e.Truncated? && e.canonicalId == id then 1 else 0
  }

  function Markers(log: seq<Event>, id: Id): nat {
    if log == [] then 0 else Markers(log[..|log| - 1], id) + MarkersOf(log[|log| - 1], id)
  }

  lemma {:induction false} EmittedConcat(a: seq<Event>, b: seq<Event>, id: Id)
    ensures Emitted(a + b, id) == Emitted(a, id) + Emitted(b, id)
    ensures Markers(a + b, id) == Markers(a, id) + Markers(b, id)
    decreases |b|
  {
    hide DeltaOf, MarkersOf, Valid;
    if b == [] {
      assert a + b == a;
      assert Emitted(a, id) + [] == Emitted(a, id);
    } else {
      assert (a + b)[..|a + b| - 1] == a + b[..|b| - 1];
      EmittedConcat(a, b[..|b| - 1], id);
      ConcatAssoc(Emitted(a, id), Emitted(b[..|b| - 1], id), DeltaOf(b[|b| - 1], id));
    }
  }

  /** The event adds nothing to any message. */
  predicate Mute(e: Event) {
    !e.TextContent? && !e.ReasoningContent? && !e.Truncated?
  }

  predicate AllMute(events: seq<Event>) {
    forall i :: 0 <= i < |events| ==> Mute(events[i])
  }

  lemma {:induction false} MuteAddsNothing(events: seq<Event>, id: Id)
    requires AllMute(events)
    ensures Emitted(events, id) == [] && Markers(events, id) == 0
    decreases |events|
  {
    hide Valid;
    if events != [] {
      MuteAddsNothing(events[..|events| - 1], id);
    }
  }

  lemma MuteConcat(a: seq<Event>, b: seq<Event>)
    requires AllMute(a) && AllMute(b)
    ensures AllMute(a + b)
  {
  }

  lemma PayloadMute(env: Environment, canonicalId: Id, payload: Payload)
    ensures AllMute(PayloadEvents(env, canonicalId, payload))
  {
  }

  lemma DeltaOfContent(role: Role, id: Id, other: Id, delta: Text)
    ensures DeltaOf(ContentEvent(role, id, delta), other) == if other == id then delta else []
    ensures MarkersOf(ContentEvent(role, id, delta), other) == 0
  {
  }

  lemma {:induction false} ContentEmitted(role: Role, id: Id, other: Id, events: seq<Event>, chunks: seq<Text>, n: nat)
    requires n <= |events| == |chunks|
    requires forall i :: 0 <= i < |events| ==> events[i] == ContentEvent(role, id, chunks[i])
    ensures Emitted(events[..n], other) == if other == id then Join(chunks[..n]) else []
    ensures Markers(events[..n], other) == 0
    decreases n
  {
    hide Valid, DeltaOf, MarkersOf, ContentEvent;
    if n == 0 {
      assert events[..0] == [] && chunks[..0] == [];
    } else {
      ContentEmitted(role, id, other, events, chunks, n - 1);
      assert events[..n][..n - 1] == events[..n - 1] && events[..n][n - 1] == events[n - 1];
      hide Join;
      DeltaOfContent(role, id, other, chunks[n - 1]);
      JoinPrefix(chunks, n - 1);
    }
  }

  lemma ContentEventsEmitted(role: Role, id: Id, other: Id, text: Text)
    ensures Emitted(ContentEvents(role, id, text), other) == if other == id then text else []
    ensures Markers(ContentEvents(role, id, text), other) == 0
  {
    hide Valid, Chunks, Emitted, Markers, Join, ContentEvent;
    var chunks, events := Chunks(text, MESSAGE_CHUNK_BYTES), ContentEvents(role, id, text);
    ChunksRoundTrip(text, MESSAGE_CHUNK_BYTES);
    ContentEmitted(role, id, other, events, chunks, |events|);
    assert events[..|events|] == events && chunks[..|chunks|] == chunks;
  }

  lemma MarkerEmitted(run: RunState, id: Id, content: Text, block: Option<Block>, other: Id)
    ensures Emitted(MarkerEvents(run, id, content, block), other) == []
    ensures Markers(MarkerEvents(run, id, content, block), other)
            == if other == id && Cut(run, id, content, block) && id !in run.truncated then 1 else 0
  {
    hide Cut, Valid;
    var events := MarkerEvents(run, id, content, block);
    if events != [] {
      assert events[..0] == [];
    }
  }

  lemma LaneMute(run: RunState, role: Role, id: Id)
    ensures AllMute(OpenLane(run, role, id).1)
    ensures OpenLane(run, role, id).0.messageBytes == run.messageBytes && OpenLane(run, role, id).0.truncated == run.truncated
  {
  }

  lemma BlockMute(env: Environment, role: Role, id: Id, block: Option<Block>)
    ensures AllMute(BlockEvents(env, role, id, block))
  {
    hide PayloadEvents;
    if block.Some? {
      PayloadMute(env, id, MessageContent(id, role, block.value.value));
    }
  }

  /** What a chunk adds to the messages of its run: the part within the budget, and at most one marker. */
  lemma SayEmitted(env: Environment, run: RunState, role: Role, id: Id, content: Text, block: Option<Block>, other: Id)
    ensures var (run', said) := Say(env, run, role, id, content, block);
            && Emitted(said, other) == (if other == id then Heard(run, id, content) else [])
            && Markers(said, other)
               == (if other == id && Cut(run, id, content, block) && id !in run.truncated then 1 else 0)
            && run'.messageBytes == Budgeted(run, id, content, block).messageBytes
            && run'.truncated == Budgeted(run, id, content, block).truncated
  {
    hide Valid, Heard, Cut, OpenLane, BlockEvents, MarkerEvents, ContentEvents, Budgeted, Emitted, Markers, AllMute;
    var budgeted := Budgeted(run, id, content, block);
    var lane, text := OpenLane(budgeted, role, id).1, Heard(run, id, content);
    var block', marker := BlockEvents(env, role, id, block), MarkerEvents(run, id, content, block);
    LaneMute(budgeted, role, id);
    BlockMute(env, role, id, block);
    MuteAddsNothing(lane, other);
    MuteAddsNothing(block', other);
    MarkerEmitted(run, id, content, block, other);
    ContentEventsEmitted(role, id, other, text);
    EmittedConcat(block', marker, other);
    EmittedConcat(block' + marker, lane, other);
    EmittedConcat(block' + marker + lane, ContentEvents(role, id, text), other);
  }

  // ---- what the chunks of the current run say about a message ----

  /** All text received, whether a chunk exceeded what was left of the budget, and whether a later one began small enough. */
  datatype Speech = Speech(received: Text, cut: bool, late: bool)

  const SILENCE: Speech := Speech([], false, false)

  /** The chunk is larger than what is left of the budget. */
  predicate Exceeds(run: RunState, id: Id, content: Text) {
    |content| > Remaining(run, id)
  }

  /** The chunk begins with a scalar that still fits. */
  predicate StartFits(run: RunState, id: Id, content: Text) {
    content != [] && ScalarLen(content, 0) <= Remaining(run, id)
  }

  function Hear(s: Speech, run: RunState, id: Id, content: Text): Speech {
    Speech(Concat(s.received, content), s.cut || Exceeds(run, id, content),
           s.late || (s.cut && StartFits(run, id, content)))
  }

  /** What a caller can see before the call decides whether a chunk is cut, and whether any of it is passed on. */
  lemma HeardIff(run: RunState, id: Id, content: Text)
    ensures |Heard(run, id, content)| < |content| <==> Exceeds(run, id, content)
    ensures Heard(run, id, content) != [] <==> StartFits(run, id, content)
  {
    LongestPrefixStarts(content, Remaining(run, id));
    LongestPrefixIsLongest(content, Remaining(run, id), []);
  }

  function SpeechOf(env: Environment, steps: seq<Step>, thread: Id, id: Id): Speech {
    if steps == [] then SILENCE
    else
      var before, last := steps[..|steps| - 1], steps[|steps| - 1].event;
      var speech, p := SpeechOf(env, before, thread, id), StateAfter(env, before);
      if Starting(last, thread) then SILENCE
      else if Speaking(p, last, thread) && last.message == id
      then Hear(speech, p.runs[thread], id, last.content)
      else speech
  }

  // ---- prefixes and the budget ----

  /** What was passed on is a proper prefix, and the scalar after it is too large for what is left. */
  predicate StoppedShort(emitted: Text, received: Text, remaining: nat) {
    |emitted| < |received| && emitted <= received && ScalarLen(received, |emitted|) > remaining
  }

  /** A cut stops before a scalar that does not fit. */
  lemma CutBeforeScalar(s: Text, max: nat)
    requires |s| > max
    ensures var p := LongestPrefix(s, max);
            p <= s && |p| <= max && ScalarLen(s, |p|) > max - |p|
  {
    var e := FloorBoundary(s, max);
    assert ScalarAt(s, e);
    assert IsBoundary(s, e + ScalarLen(s, e));
  }

  lemma ScalarInside(a: Text, s: Text, b: Text, i: nat)
    requires i < |s| && ScalarLen(s, i) > 0
    ensures ScalarLen(a + s + b, |a| + i) == ScalarLen(s, i)
  {
    var n := ScalarLen(s, i);
    hide Valid;
    assert (a + s + b)[|a| + i..|a| + i + n] == s[i..i + n];
    ScalarLenLocal(s, i, a + s + b, |a| + i, n);
  }

  /** The first cut of a message. */
  lemma FirstCut(received: Text, content: Text, remaining: nat)
    requires |LongestPrefix(content, remaining)| < |content|
    ensures var text := LongestPrefix(content, remaining);
            |text| <= remaining
            && StoppedShort(Concat(received, text), Concat(received, content), remaining - |text|)
  {
    CutBeforeScalar(content, remaining);
    var text := LongestPrefix(content, remaining);
    ScalarInside(received, content, [], |text|);
    hide Valid, LongestPrefix, ScalarLen;
    assert received + content + [] == received + content;
  }

  /** More text arrives, and nothing of it is passed on. */
  lemma StaysShort(emitted: Text, received: Text, content: Text, remaining: nat)
    requires StoppedShort(emitted, received, remaining)
    ensures StoppedShort(emitted, Concat(received, content), remaining)
  {
    ScalarInside([], received, content, |emitted|);
    hide Valid, ScalarLen;
    assert [] + received + content == received + content;
  }

  /** Text found inside other text begins with the same scalar. */
  lemma SameFirstScalar(before: Text, text: Text, all: Text)
    requires text != []
    ensures before + text <= all ==> ScalarLen(all, |before|) <= |text|
  {
    if before + text <= all {
      var at, n := |before|, ScalarLen(text, 0);
      assert ScalarAt(text, 0);
      assert (before + text)[at..at + n] == text[0..n];
      assert (before + text)[at..at + n] == all[at..at + n];
      ScalarLenLocal(text, 0, all, at, n);
    }
  }

  /** Anything passed on after that is out of place, because the scalar it would have to begin with does not fit. */
  lemma LateTextOutOfPlace(emitted: Text, received: Text, content: Text, text: Text, remaining: nat)
    requires StoppedShort(emitted, received, remaining) && text != [] && |text| <= remaining
    ensures !(Concat(emitted, text) <= Concat(received, content))
  {
    StaysShort(emitted, received, content, remaining);
    SameFirstScalar(emitted, text, Concat(received, content));
    hide Valid, ScalarLen;
  }

  lemma OutOfPlaceForGood(emitted: Text, received: Text, text: Text, content: Text)
    requires |emitted| <= |received| && !(emitted <= received)
    ensures !(Concat(emitted, text) <= Concat(received, content))
  {
    hide Valid;
    var longer, all := emitted + text, received + content;
    assert longer <= all ==> longer[..|emitted|] == all[..|emitted|];
    assert longer[..|emitted|] == emitted && all[..|emitted|] == received[..|emitted|];
  }

  // ---- the invariant ----

  /** Where a message stands: nothing lost, stopped short, or text after the stop. */
  predicate Stands(emitted: Text, remaining: nat, s: Speech) {
    && |emitted| <= |s.received|
    && (!s.cut ==> emitted == s.received && !s.late)
    && (s.cut && !s.late ==> StoppedShort(emitted, s.received, remaining))
    && (s.late ==> !(emitted <= s.received))
    && (s.cut ==> remaining <= 3)
  }

  lemma HeardFits(run: RunState, id: Id, content: Text)
    ensures |Heard(run, id, content)| <= Remaining(run, id) && Heard(run, id, content) <= content
  {
    LongestPrefixIsLongest(content, Remaining(run, id), []);
  }

  lemma StandsOn(emitted: Text, s: Speech, run: RunState, id: Id, content: Text)
    requires Stands(emitted, Remaining(run, id), s)
    ensures var text := Heard(run, id, content);
            Stands(Concat(emitted, text), Remaining(run, id) - |text|, Hear(s, run, id, content))
  {
    var text, remaining := Heard(run, id, content), Remaining(run, id);
    HeardFits(run, id, content);
    HeardIff(run, id, content);
    hide Valid, LongestPrefix, ScalarLen, StoppedShort, Exceeds, StartFits;
    if s.late {
      OutOfPlaceForGood(emitted, s.received, text, content);
    } else if s.cut {
      if text == [] {
        StaysShort(emitted, s.received, content, remaining);
        assert emitted + [] == emitted;
      } else {
        LateTextOutOfPlace(emitted, s.received, content, text, remaining);
      }
    } else if |text| < |content| {
      FirstCut(s.received, content, remaining);
      ShortLeavesThree(Concat(emitted, text), Concat(s.received, content), remaining - |text|);
    } else {
      assert text == content;
    }
  }

  lemma ShortLeavesThree(emitted: Text, received: Text, remaining: nat)
    requires StoppedShort(emitted, received, remaining)
    ensures remaining <= 3
  {
  }

  /** State, log and speech of a message agree. */
  ghost predicate Tallies(run: RunState, log: seq<Event>, id: Id, s: Speech) {
    && |Emitted(log, id)| == UsedBytes(run, id) <= MAX_MESSAGE_TOTAL_BYTES
    && Markers(log, id) == (if id in run.truncated then 1 else 0)
    && (s.cut ==> id in run.truncated)
    && Stands(Emitted(log, id), Remaining(run, id), s)
  }

  lemma MuteTallies(run: RunState, run': RunState, log: seq<Event>, more: seq<Event>, id: Id, s: Speech)
    requires Tallies(run, log, id, s) && AllMute(more)
    requires run'.messageBytes == run.messageBytes && run'.truncated == run.truncated
    ensures Tallies(run', log + more, id, s)
  {
    hide Emitted, Markers, Stands, AllMute, Valid;
    EmittedConcat(log, more, id);
    MuteAddsNothing(more, id);
    assert Emitted(log, id) + [] == Emitted(log, id);
  }

  lemma SayTallies(env: Environment, run: RunState, log: seq<Event>, role: Role, id: Id, content: Text,
                   block: Option<Block>, other: Id, s: Speech)
    requires Tallies(run, log, other, s)
    ensures var (run', said) := Say(env, run, role, id, content, block);
            Tallies(run', log + said, other, if other == id then Hear(s, run, id, content) else s)
  {
    hide Say, Emitted, Markers, Stands, Valid, Heard, Hear;
    var (run', said) := Say(env, run, role, id, content, block);
    EmittedConcat(log, said, other);
    SayEmitted(env, run, role, id, content, block, other);
    HeardFits(run, id, content);
    if other == id {
      StandsOn(Emitted(log, id), s, run, id, content);
      HearCuts(s, run, id, content);
    } else {
      assert Emitted(log, other) + [] == Emitted(log, other);
    }
  }

  lemma HearCuts(s: Speech, run: RunState, id: Id, content: Text)
    ensures Hear(s, run, id, content).cut <==> s.cut || |Heard(run, id, content)| < |content|
  {
    HeardIff(run, id, content);
  }

  // ---- over runs ----

  ghost predicate TalliesAt(p: Projector, thread: Id, log: seq<Event>, id: Id, s: Speech) {
    thread in p.runs ==> Tallies(p.runs[thread], log, id, s)
  }

  lemma SilentMute(events: seq<Event>)
    requires Silent(events)
    ensures AllMute(events)
  {
  }

  lemma SayStartsNothing(env: Environment, run: RunState, role: Role, id: Id, content: Text, block: Option<Block>)
    ensures NoStart(Say(env, run, role, id, content, block).1)
  {
    hide Say;
    SaidForeign(env, run, role, id, content, block, 0);
  }

  lemma SpeakTallies(env: Environment, p: Projector, s: Step, thread: Id, log: seq<Event>, id: Id, speech: Speech)
    requires Speaking(p, s.event, thread) && TalliesAt(p, thread, log, id, speech)
    ensures TalliesAt(Project(env, p, s.event, s.order).0, thread,
                      LogFrom(thread, log, Project(env, p, s.event, s.order).1), id,
                      if s.event.message == id then Hear(speech, p.runs[thread], id, s.event.content) else speech)
  {
    hide Project, LogFrom, Say, Tallies, Silent, Hear;
    var c, run := s.event, p.runs[thread];
    SayStartsNothing(env, run, c.role, c.message, c.content, c.block);
    var first := SpeakLogged(env, p, c, s.order, thread, log);
    SilentMute(first);
    MuteTallies(run, run, log, first, id, speech);
    SayTallies(env, run, log + first, c.role, c.message, c.content, c.block, id, speech);
  }

  lemma UpdateToolMute(env: Environment, t: ToolState, u: ToolUpdate)
    ensures AllMute(UpdateTool(env, t, u).events)
  {
    hide StartTool, EndTool, NewContent, SubagentIn, ReportSubagent, ReportOutcome, TextEvents, StructureEvents;
    hide UpdateStructure, UpdateResult, Classified, AllMute;
    var started := StartTool(env, Classified(env, t, u), u);
    var ended := EndTool(started.state, u);
    var content := NewContent(ended.state, u);
    var found := SubagentIn(env, u, content);
    var before := UpdateStructure(env, UpdateResult(ended.state, content), u);
    var reported := ReportSubagent(before, u, found);
    var told := ReportOutcome(reported.state, u, found);
    ReportsMute(env, Classified(env, t, u), u, found);
    ReportsMute(env, started.state, u, found);
    ReportsMute(env, before, u, found);
    ReportsMute(env, reported.state, u, found);
    PayloadsMute(env, ended.state, u, found);
    var opening := started.events + ended.events;
    MuteConcat(started.events, ended.events);
    MuteConcat(opening, reported.events);
    MuteConcat(opening + reported.events, told.events);
    MuteConcat(opening + reported.events + told.events, TextEvents(env, ended.state, u, found));
    MuteConcat(opening + reported.events + told.events + TextEvents(env, ended.state, u, found),
               StructureEvents(env, ended.state, u, found));
  }

  lemma ReportsMute(env: Environment, t: ToolState, u: ToolUpdate, found: Option<Subagent>)
    ensures AllMute(StartTool(env, t, u).events) && AllMute(EndTool(t, u).events)
    ensures AllMute(ReportSubagent(t, u, found).events) && AllMute(ReportOutcome(t, u, found).events)
  {
  }

  lemma PayloadsMute(env: Environment, t: ToolState, u: ToolUpdate, found: Option<Subagent>)
    ensures AllMute(TextEvents(env, t, u, found)) && AllMute(StructureEvents(env, t, u, found))
  {
    hide NewContent, ResultChanged, PayloadEvents, NextStructured, StructureChanged, StructureRevision, After;
    var content := NewContent(t, u);
    ChangedIsSome(t, content);
    if content.Some? {
      PayloadMute(env, u.tool, ToolText(u.tool, Digest(content.value), content.value));
    }
    var s := NextStructured(t, u);
    PayloadMute(env, u.tool, ToolContent(u.tool, s.content, s.locations, StructureRevision(env, u.tool, s), !s.truncated));
  }

  lemma UseTallies(env: Environment, p: Projector, s: Step, thread: Id, log: seq<Event>, id: Id, speech: Speech)
    requires Using(p, s.event, thread) && TalliesAt(p, thread, log, id, speech)
    ensures TalliesAt(Project(env, p, s.event, s.order).0, thread,
                      LogFrom(thread, log, Project(env, p, s.event, s.order).1), id, speech)
  {
    hide Project, LogFrom, UpdateTool, Tallies, Silent, ToolOf, AllMute;
    var u, run := s.event.update, p.runs[thread];
    var events := UpdateTool(env, ToolOf(run, u.tool), u).events;
    var first := UseLogged(env, p, s.event, s.order, thread, log);
    UpdateToolOnlyOf(env, ToolOf(run, u.tool), u);
    OnlyOfStartsNothing(events, u.tool);
    SilentMute(first);
    UpdateToolMute(env, ToolOf(run, u.tool), u);
    MuteTallies(run, run, log, first, id, speech);
    MuteTallies(run, RunAfterTool(env, run, u), log + first, events, id, speech);
  }

  lemma AsideTallies(env: Environment, p: Projector, s: Step, thread: Id, log: seq<Event>, id: Id, speech: Speech)
    requires Aside(p, s.event, thread) && TalliesAt(p, thread, log, id, speech)
    ensures TalliesAt(Project(env, p, s.event, s.order).0, thread,
                      LogFrom(thread, log, Project(env, p, s.event, s.order).1), id, speech)
  {
    hide Project, LogFrom, Tallies, Silent, Aside;
    var more := AsideLogged(env, p, s.event, s.order, thread, log);
    if thread in p.runs {
      SilentMute(more);
      MuteTallies(p.runs[thread], p.runs[thread], log, more, id, speech);
    }
  }

  lemma StartTallies(env: Environment, p: Projector, s: Step, thread: Id, log: seq<Event>, id: Id)
    requires Starting(s.event, thread)
    ensures TalliesAt(Project(env, p, s.event, s.order).0, thread,
                      LogFrom(thread, log, Project(env, p, s.event, s.order).1), id, SILENCE)
  {
    hide Project, LogFrom, Tallies;
    StartLogged(env, p, thread, s.event.run, s.event.turn, s.order, log);
    FreshTallies(s.event.run, s.event.turn, id);
  }

  lemma FreshTallies(run: Id, turn: Id, id: Id)
    ensures Tallies(NewRun(run, turn), [], id, SILENCE)
  {
  }

  lemma StepTallies(env: Environment, p: Projector, s: Step, thread: Id, log: seq<Event>, id: Id, speech: Speech)
    requires TalliesAt(p, thread, log, id, speech)
    ensures TalliesAt(Project(env, p, s.event, s.order).0, thread,
                      LogFrom(thread, log, Project(env, p, s.event, s.order).1), id,
                      if Starting(s.event, thread) then SILENCE
                      else if Speaking(p, s.event, thread) && s.event.message == id
                      then Hear(speech, p.runs[thread], id, s.event.content) else speech)
  {
    FiveKinds(p, s.event, thread);
    KindsApart(p, s.event, thread);
    hide Project, LogFrom, TalliesAt, Aside, Finishing, Starting, Speaking, Using, Hear;
    SpeakingAlone(p, s.event, thread);
    if Starting(s.event, thread) {
      StartTallies(env, p, s, thread, log, id);
    } else if Using(p, s.event, thread) {
      UseTallies(env, p, s, thread, log, id, speech);
    } else if Speaking(p, s.event, thread) {
      SpeakTallies(env, p, s, thread, log, id, speech);
    } else if Finishing(p, s.event, thread) {
      FinishTallies(env, p, s, thread, log, id, speech);
    } else {
      AsideTallies(env, p, s, thread, log, id, speech);
    }
  }

  lemma SpeakingAlone(p: Projector, c: Canonical, thread: Id)
    ensures Speaking(p, c, thread) ==> c.MessageChunk? && thread in p.runs
  {
  }

  lemma FinishTallies(env: Environment, p: Projector, s: Step, thread: Id, log: seq<Event>, id: Id, speech: Speech)
    requires Finishing(p, s.event, thread)
    ensures TalliesAt(Project(env, p, s.event, s.order).0, thread,
                      LogFrom(thread, log, Project(env, p, s.event, s.order).1), id, speech)
  {
    hide Project, LogFrom, Tallies;
    var _, _ := FinishLogged(env, p, s.event, s.order, thread, log);
  }

  lemma {:induction false} RunTallies(env: Environment, steps: seq<Step>, thread: Id, id: Id)
    ensures TalliesAt(StateAfter(env, steps), thread, RunLog(thread, Stream(env, steps)), id,
                      SpeechOf(env, steps, thread, id))
    decreases |steps|
  {
    if steps != [] {
      hide TalliesAt, Project, LogFrom, Starting, Speaking, Hear;
      var before, last := steps[..|steps| - 1], steps[|steps| - 1];
      RunTallies(env, before, thread, id);
      var p := StateAfter(env, before);
      LogConcat(thread, [], Stream(env, before), Project(env, p, last.event, last.order).1);
      StepTallies(env, p, last, thread, RunLog(thread, Stream(env, before)), id, SpeechOf(env, before, thread, id));
    }
  }

  // ---- main results ----

  /**
   In every open run, what is passed on of a message is at most 32 KiB and is the text received until the message
   is marked as truncated; each marked message has exactly one marker, and no other has one.
   */
  lemma MessageBudget(env: Environment, steps: seq<Step>, thread: Id, id: Id)
    requires thread in StateAfter(env, steps).runs
    ensures var log, marked := RunLog(thread, Stream(env, steps)), StateAfter(env, steps).runs[thread].truncated;
            && |Emitted(log, id)| <= MAX_MESSAGE_TOTAL_BYTES
            && Markers(log, id) == (if id in marked then 1 else 0)
            && (Markers(log, id) == 0 ==> Emitted(log, id) == SpeechOf(env, steps, thread, id).received)
  {
    hide StateAfter, Stream, SpeechOf, LogFrom, Emitted, Markers, StoppedShort;
    RunTallies(env, steps, thread, id);
  }

  /**
   What is passed on is a prefix of what was received exactly as long as, after a chunk that exceeds what is left of
   the budget, no chunk begins with a scalar that still fits; and then at most three bytes of the budget are left.
   */
  lemma PrefixIffNothingLate(env: Environment, steps: seq<Step>, thread: Id, id: Id)
    requires thread in StateAfter(env, steps).runs
    ensures var log, speech := RunLog(thread, Stream(env, steps)), SpeechOf(env, steps, thread, id);
            && (Emitted(log, id) <= speech.received <==> !speech.late)
            && (speech.cut ==> |Emitted(log, id)| + 3 >= MAX_MESSAGE_TOTAL_BYTES)
  {
    hide StateAfter, Stream, SpeechOf, LogFrom, Emitted, Markers, ScalarLen;
    RunTallies(env, steps, thread, id);
  }

  /** Whether a chunk of the message was larger than what was left of the budget, or its block was cut before it came. */
  function CutSince(env: Environment, steps: seq<Step>, thread: Id, id: Id): bool {
    if steps == [] then false
    else
      var before, last := steps[..|steps| - 1], steps[|steps| - 1].event;
      var cut, p := CutSince(env, before, thread, id), StateAfter(env, before);
      if Starting(last, thread) then false
      else if Speaking(p, last, thread) && last.message == id
      then cut || Exceeds(p.runs[thread], id, last.content) || (last.block.Some? && last.block.value.truncated)
      else cut
  }

  ghost predicate MarkedAt(p: Projector, thread: Id, id: Id, cut: bool) {
    thread in p.runs ==> (id in p.runs[thread].truncated <==> cut)
  }

  lemma SpeakMarks(env: Environment, p: Projector, s: Step, thread: Id, id: Id, cut: bool)
    requires Speaking(p, s.event, thread) && MarkedAt(p, thread, id, cut)
    ensures var c := s.event;
            MarkedAt(Project(env, p, c, s.order).0, thread, id,
                     cut || (c.message == id && (Exceeds(p.runs[thread], id, c.content) || (c.block.Some? && c.block.value.truncated))))
  {
    hide Project, LogFrom, Say, Silent, Exceeds, Heard;
    var c, run := s.event, p.runs[thread];
    var _ := SpeakLogged(env, p, c, s.order, thread, []);
    SayEmitted(env, run, c.role, c.message, c.content, c.block, id);
    HeardIff(run, c.message, c.content);
  }

  lemma OthersMark(env: Environment, p: Projector, s: Step, thread: Id, id: Id, cut: bool)
    requires !Speaking(p, s.event, thread) && !Starting(s.event, thread) && MarkedAt(p, thread, id, cut)
    ensures MarkedAt(Project(env, p, s.event, s.order).0, thread, id, cut)
  {
    FiveKinds(p, s.event, thread);
    hide Project, LogFrom, UpdateTool, Silent, Aside;
    if Using(p, s.event, thread) {
      var _ := UseLogged(env, p, s.event, s.order, thread, []);
    } else if Finishing(p, s.event, thread) {
      var _, _ := FinishLogged(env, p, s.event, s.order, thread, []);
    } else {
      var _ := AsideLogged(env, p, s.event, s.order, thread, []);
    }
  }

  lemma StartsUnmarked(env: Environment, p: Projector, s: Step, thread: Id, id: Id)
    requires Starting(s.event, thread)
    ensures MarkedAt(Project(env, p, s.event, s.order).0, thread, id, false)
  {
    hide Project;
    StartLogged(env, p, thread, s.event.run, s.event.turn, s.order, []);
  }

  lemma {:induction false} RunMarks(env: Environment, steps: seq<Step>, thread: Id, id: Id)
    ensures MarkedAt(StateAfter(env, steps), thread, id, CutSince(env, steps, thread, id))
    decreases |steps|
  {
    hide MarkedAt, Project, Starting, Exceeds;
    if steps == [] {
      NothingMarked(thread, id);
    } else {
      var before, last := steps[..|steps| - 1], steps[|steps| - 1];
      RunMarks(env, before, thread, id);
      var p, cut := StateAfter(env, before), CutSince(env, before, thread, id);
      if Starting(last.event, thread) {
        StartsUnmarked(env, p, last, thread, id);
      } else if Speaking(p, last.event, thread) {
        SpeakMarks(env, p, last, thread, id, cut);
      } else {
        OthersMark(env, p, last, thread, id, cut);
      }
    }
  }

  lemma NothingMarked(thread: Id, id: Id)
    ensures MarkedAt(NEW_PROJECTOR, thread, id, false)
  {
  }

  /** A message of an open run has its one marker exactly if something of it was lost, here or before it came. */
  lemma MarkedIffCut(env: Environment, steps: seq<Step>, thread: Id, id: Id)
    requires thread in StateAfter(env, steps).runs
    ensures Markers(RunLog(thread, Stream(env, steps)), id) == if CutSince(env, steps, thread, id) then 1 else 0
  {
    MessageBudget(env, steps, thread, id);
    RunMarks(env, steps, thread, id);
    hide StateAfter, Stream, RunLog, Markers, CutSince;
  }

  lemma {:induction false} ToolEndsMute(tools: map<Id, ToolState>, order: seq<Id>)
    ensures AllMute(ToolEnds(tools, order)) && NoStart(ToolEnds(tools, order))
    decreases |order|
  {
    if order != [] {
      ToolEndsMute(tools, order[..|order| - 1]);
    }
  }

  lemma CloseMute(run: RunState, order: seq<Id>)
    ensures AllMute(CloseEvents(run, order)) && NoStart(CloseEvents(run, order))
  {
    ToolEndsMute(run.tools, order);
    hide ToolEnds;
  }

  /** The end of a run adds nothing to its messages, so what holds of the open run holds of the finished one. */
  lemma FinishKeepsMessages(env: Environment, steps: seq<Step>, last: Step, thread: Id, id: Id)
    requires Finishing(StateAfter(env, steps), last.event, thread)
    ensures var before, after := RunLog(thread, Stream(env, steps)), RunLog(thread, Stream(env, steps + [last]));
            Emitted(after, id) == Emitted(before, id) && Markers(after, id) == Markers(before, id)
  {
    StreamGrows(env, steps, last);
    hide StateAfter, Stream, Project, LogFrom, CloseEvents, Emitted, Markers, AllMute, Silent, Valid;
    var p, log := StateAfter(env, steps), RunLog(thread, Stream(env, steps));
    CloseMute(p.runs[thread], last.order);
    var first, terminal := FinishLogged(env, p, last.event, last.order, thread, log);
    LogConcat(thread, [], Stream(env, steps), Project(env, p, last.event, last.order).1);
    SilentMute(first);
    AddsNothing(log, first, CloseEvents(p.runs[thread], last.order), terminal, id);
  }

  lemma AddsNothing(log: seq<Event>, first: seq<Event>, closing: seq<Event>, terminal: Event, id: Id)
    requires AllMute(first) && AllMute(closing) && Mute(terminal)
    ensures Emitted(log + first + closing + [terminal], id) == Emitted(log, id)
    ensures Markers(log + first + closing + [terminal], id) == Markers(log, id)
  {
    MuteConcat(first, closing);
    assert AllMute([terminal]);
    MuteConcat(first + closing, [terminal]);
    hide Emitted, Markers, AllMute, Valid;
    MuteAppended(log, first + closing + [terminal], id);
    Regrouped(log, first, closing, [terminal]);
  }

  lemma MuteAppended(log: seq<Event>, more: seq<Event>, id: Id)
    requires AllMute(more)
    ensures Emitted(log + more, id) == Emitted(log, id) && Markers(log + more, id) == Markers(log, id)
  {
    hide Emitted, Markers, AllMute, Valid;
    EmittedConcat(log, more, id);
    MuteAddsNothing(more, id);
    assert Emitted(log, id) + [] == Emitted(log, id);
  }

  lemma Regrouped(a: seq<Event>, b: seq<Event>, c: seq<Event>, d: seq<Event>)
    ensures a + (b + c + d) == a + b + c + d
  {
  }
}
