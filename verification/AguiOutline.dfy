/**
 The outline of the stream: where runs start and end, how they end, and what is said of sessions. It is told from the
 canonical events alone, for all threads at once.
 */
module AguiOutline {
  import opened Wrappers
  import opened Utf8
  import opened AguiEvents
  import opened AguiStructured
  import opened AguiProjection
  import opened AguiTools

  datatype Open = Open(run: Id, turn: Id)

  /** The open run of each thread after one more event. */
  function NextOpen(open: map<Id, Open>, c: Canonical): map<Id, Open> {
    match c
    case RunStarted(thread, run, turn) => open[thread := Open(run, turn)]
    case RunFinished(thread, run, _) => if thread in open && open[thread].run == run then open - {thread} else open
    case RunFailed(thread, run, _, _) => if thread in open && open[thread].run == run then open - {thread} else open
    case _ => open
  }

  function OpenRuns(steps: seq<Step>): map<Id, Open> {
    if steps == [] then map[] else NextOpen(OpenRuns(steps[..|steps| - 1]), steps[|steps| - 1].event)
  }

  /**
   What an event adds: a start ends the open run of its thread with an error and starts another, a finished run ends as
   finished and a failed one with an error, and what is said of a session goes to the open run or else to the session.
   */
  function Added(open: map<Id, Open>, c: Canonical): seq<Envelope> {
    match c
    case RunStarted(thread, run, turn) =>
      (if thread in open then [Envelope(thread, InRun(open[thread].run), Some(open[thread].turn), RunErrorEvent(true))] else [])
      + [Envelope(thread, InRun(run), Some(turn), RunStartedEvent)]
    case RunFinished(thread, run, turn) =>
      if thread in open && open[thread].run == run then [Envelope(thread, InRun(run), Some(turn), RunFinishedEvent)] else []
    case RunFailed(thread, run, turn, _) =>
      if thread in open && open[thread].run == run then [Envelope(thread, InRun(run), Some(turn), RunErrorEvent(false))] else []
    case Session(thread, kind, value, _) =>
      if thread in open then [Envelope(thread, InRun(open[thread].run), Some(open[thread].turn), SessionEvent(kind, value))]
      else [Envelope(thread, OfSession, None, SessionEvent(kind, value))]
    case _ => []
  }

  function Expected(steps: seq<Step>): seq<Envelope> {
    if steps == [] then []
    else
      var before := steps[..|steps| - 1];
      Expected(before) + Added(OpenRuns(before), steps[|steps| - 1].event)
  }

  predicate Outlined(e: Event) {
    e.RunStartedEvent? || e.RunFinishedEvent? || e.RunErrorEvent? || e.SessionEvent?
  }

  function Outline(stream: seq<Envelope>): seq<Envelope> {
    if stream == [] then []
    else
      var last := |stream| - 1;
      Outline(stream[..last]) + if Outlined(stream[last].event) then [stream[last]] else []
  }

  lemma {:induction false} OutlineConcat(a: seq<Envelope>, b: seq<Envelope>)
    ensures Outline(a + b) == Outline(a) + Outline(b)
    decreases |b|
  {
    if b == [] {
      assert a + b == a;
    } else {
      assert (a + b)[..|a + b| - 1] == a + b[..|b| - 1];
      OutlineConcat(a, b[..|b| - 1]);
    }
  }

  lemma OutlineOne(e: Envelope)
    ensures Outline([e]) == if Outlined(e.event) then [e] else []
  {
    assert [e][..0] == [];
  }

  predicate Plain(events: seq<Event>) {
    forall i :: 0 <= i < |events| ==> !Outlined(events[i])
  }

  lemma PlainConcat(a: seq<Event>, b: seq<Event>)
    requires Plain(a) && Plain(b)
    ensures Plain(a + b)
  {
  }

  lemma {:induction false} PlainOutline(thread: Id, run: Id, turn: Option<Id>, events: seq<Event>)
    requires Plain(events)
    ensures Outline(Wrap(thread, run, turn, events)) == []
    decreases |events|
  {
    if events != [] {
      var wrapped, init := Wrap(thread, run, turn, events), events[..|events| - 1];
      assert wrapped[..|wrapped| - 1] == Wrap(thread, run, turn, init);
      PlainOutline(thread, run, turn, init);
    }
  }

  // ---- each kind of event ----

  lemma SayPieces(env: Environment, run: RunState, role: Role, id: Id, content: Text, block: Option<Block>)
    ensures Plain(BlockEvents(env, role, id, block)) && Plain(MarkerEvents(run, id, content, block))
    ensures Plain(OpenLane(run, role, id).1) && Plain(ContentEvents(role, id, content))
  {
    hide Cut;
  }

  lemma SayPlain(env: Environment, run: RunState, role: Role, id: Id, content: Text, block: Option<Block>)
    ensures Plain(Say(env, run, role, id, content, block).1)
  {
    hide Plain, BlockEvents, MarkerEvents, OpenLane, ContentEvents, Heard, Budgeted, Outlined;
    var lane := OpenLane(Budgeted(run, id, content, block), role, id).1;
    SayPieces(env, run, role, id, content, block);
    SayPieces(env, Budgeted(run, id, content, block), role, id, Heard(run, id, content), block);
    var aside := BlockEvents(env, role, id, block) + MarkerEvents(run, id, content, block);
    PlainConcat(BlockEvents(env, role, id, block), MarkerEvents(run, id, content, block));
    PlainConcat(aside, lane);
    PlainConcat(aside + lane, ContentEvents(role, id, Heard(run, id, content)));
  }

  lemma UpdatePlain(env: Environment, t: ToolState, u: ToolUpdate)
    ensures Plain(UpdateTool(env, t, u).events)
  {
    hide UpdateTool;
    UpdateToolOnlyOf(env, t, u);
  }

  lemma {:induction false} ToolEndsPlain(tools: map<Id, ToolState>, order: seq<Id>)
    ensures Plain(ToolEnds(tools, order))
  {
    if order != [] {
      ToolEndsPlain(tools, order[..|order| - 1]);
    }
  }

  lemma ClosePlain(run: RunState, order: seq<Id>)
    ensures Plain(CloseEvents(run, order))
  {
    ToolEndsPlain(run.tools, order);
    hide ToolEnds;
  }

  /** The projector has the open runs open. */
  ghost predicate Matches(p: Projector, open: map<Id, Open>) {
    && p.runs.Keys == open.Keys
    && forall thread :: thread in open ==> p.runs[thread].runId == open[thread].run
                                           && p.runs[thread].turn == Some(open[thread].turn)
  }

  lemma ProgressOutline(env: Environment, p: Projector, c: Canonical)
    ensures Outline(ProgressEvents(env, p.links, c)) == []
  {
    hide ProgressOf;
    var events := ProgressEvents(env, p.links, c);
    if events != [] {
      OutlineOne(events[0]);
      assert events == [events[0]];
    }
  }

  lemma StartOutline(p: Projector, open: map<Id, Open>, thread: Id, run: Id, turn: Id, order: seq<Id>)
    requires Matches(p, open)
    ensures var (p', events) := Start(p, thread, run, turn, order);
            && Outline(events) == Added(open, RunStarted(thread, run, turn))
            && Matches(p', NextOpen(open, RunStarted(thread, run, turn)))
  {
    hide Outline, CloseEvents;
    var started := Envelope(thread, InRun(run), Some(turn), RunStartedEvent);
    assert Wrap(thread, run, Some(turn), [RunStartedEvent]) == [started];
    OutlineOne(started);
    OutlineConcat(Supersede(p, thread, order), [started]);
    if thread in p.runs {
      var previous := p.runs[thread];
      ClosePlain(previous, order);
      PlainOutline(thread, previous.runId, previous.turn, CloseEvents(previous, order));
      var error := Envelope(thread, InRun(previous.runId), previous.turn, RunErrorEvent(true));
      assert Supersede(p, thread, order) == Wrap(thread, previous.runId, previous.turn, CloseEvents(previous, order)) + [error];
      OutlineConcat(Wrap(thread, previous.runId, previous.turn, CloseEvents(previous, order)), [error]);
      OutlineOne(error);
    } else {
      OutlineConcat([], []);
      NothingOutlined();
    }
  }

  lemma NothingOutlined()
    ensures Outline([]) == []
  {
  }

  lemma FinishOutline(p: Projector, open: map<Id, Open>, c: Canonical, terminal: Event, order: seq<Id>)
    requires Matches(p, open) && (c.RunFinished? || c.RunFailed?) && Outlined(terminal)
    ensures var (p', events) := Finish(p, c.thread, c.run, c.turn, terminal, order);
            && (c.thread in open && open[c.thread].run == c.run ==>
                  Outline(events) == [Envelope(c.thread, InRun(c.run), Some(c.turn), terminal)])
            && (!(c.thread in open && open[c.thread].run == c.run) ==> Outline(events) == [])
            && Matches(p', NextOpen(open, c))
  {
    hide Outline, CloseEvents, Unlink;
    NothingOutlined();
    if c.thread in p.runs && p.runs[c.thread].runId == c.run {
      var run := p.runs[c.thread];
      ClosePlain(run, order);
      var closed, last := Wrap(c.thread, c.run, run.turn, CloseEvents(run, order)), Envelope(c.thread, InRun(c.run), Some(c.turn), terminal);
      PlainOutline(c.thread, c.run, run.turn, CloseEvents(run, order));
      assert Wrap(c.thread, c.run, Some(c.turn), [terminal]) == [last];
      OutlineConcat(closed, [last]);
      OutlineOne(last);
    }
  }

  lemma SpeakOutline(env: Environment, p: Projector, open: map<Id, Open>, c: Canonical)
    requires Matches(p, open) && c.MessageChunk?
    ensures Outline(Speak(env, p, c).1) == [] && Matches(Speak(env, p, c).0, open)
  {
    hide Outline, Say, Correlated;
    NothingOutlined();
    var found := OpenRun(p, c.thread, c.runRef, c.turnRef);
    if found.Some? {
      var run := found.value;
      SayPlain(env, run, c.role, c.message, c.content, c.block);
      SayKeepsRun(env, run, c.role, c.message, c.content, c.block);
      PlainOutline(c.thread, run.runId, run.turn, Say(env, run, c.role, c.message, c.content, c.block).1);
    }
  }

  lemma SayKeepsRun(env: Environment, run: RunState, role: Role, id: Id, content: Text, block: Option<Block>)
    ensures Say(env, run, role, id, content, block).0.runId == run.runId
    ensures Say(env, run, role, id, content, block).0.turn == run.turn
  {
    hide Heard, Cut, UsedBytes, ContentEvents, BlockEvents, MarkerEvents;
  }

  lemma UseOutline(env: Environment, p: Projector, open: map<Id, Open>, c: Canonical)
    requires Matches(p, open) && c.Tool?
    ensures Outline(Use(env, p, c).1) == [] && Matches(Use(env, p, c).0, open)
  {
    hide Outline, UpdateTool, Correlated, UpdateLinks, ToolOf;
    NothingOutlined();
    var found := OpenRun(p, c.thread, c.runRef, c.turnRef);
    if found.Some? {
      var run := found.value;
      UpdatePlain(env, ToolOf(run, c.update.tool), c.update);
      PlainOutline(c.thread, run.runId, run.turn, UpdateTool(env, ToolOf(run, c.update.tool), c.update).events);
    }
  }

  lemma AnnounceOutline(p: Projector, open: map<Id, Open>, c: Canonical)
    requires Matches(p, open) && c.Session?
    ensures Outline(Announce(p, c)) == Added(open, c)
  {
    hide Outline;
    var e := Announce(p, c)[0];
    assert Announce(p, c) == [e];
    OutlineOne(e);
  }

  lemma HandleOutline(env: Environment, p: Projector, open: map<Id, Open>, c: Canonical, order: seq<Id>)
    requires Matches(p, open)
    ensures Outline(Handle(env, p, c, order).1) == Added(open, c)
    ensures Matches(Handle(env, p, c, order).0, NextOpen(open, c))
  {
    hide Outline, Speak, Use, Start, Finish, Announce, Matches;
    NothingOutlined();
    match c {
      case RunStarted(thread, run, turn) => StartOutline(p, open, thread, run, turn, order);
      case MessageChunk(_, _, _, _, _, _, _) => SpeakOutline(env, p, open, c);
      case Tool(_, _, _, _) => UseOutline(env, p, open, c);
      case RunFinished(_, _, _) => FinishOutline(p, open, c, RunFinishedEvent, order);
      case RunFailed(_, _, _, _) => FinishOutline(p, open, c, RunErrorEvent(false), order);
      case Session(_, _, _, _) => AnnounceOutline(p, open, c);
      case _ =>
    }
  }

  lemma StepOutline(env: Environment, p: Projector, open: map<Id, Open>, c: Canonical, order: seq<Id>)
    requires Matches(p, open)
    ensures Outline(Project(env, p, c, order).1) == Added(open, c)
    ensures Matches(Project(env, p, c, order).0, NextOpen(open, c))
  {
    hide Outline, Handle, ProgressEvents, LinksAfterProgress;
    var q := p.(links := LinksAfterProgress(env, p.links, c));
    ProgressOutline(env, p, c);
    HandleOutline(env, q, open, c, order);
    OutlineConcat(ProgressEvents(env, p.links, c), Handle(env, q, c, order).1);
  }

  /**
   For every sequence of events, starts, terminal events and session events of the stream are, in order and with their
   runs and turns, exactly those that the events call for; and the open runs are the projector's.
   */
  lemma {:induction false} StreamOutlined(env: Environment, steps: seq<Step>)
    ensures Outline(Stream(env, steps)) == Expected(steps)
    ensures Matches(StateAfter(env, steps), OpenRuns(steps))
    decreases |steps|
  {
    hide Project, Outline, Matches, Added, NextOpen;
    if steps == [] {
      NothingOutlined();
      NothingOpen();
    } else {
      var before, last := steps[..|steps| - 1], steps[|steps| - 1];
      StreamOutlined(env, before);
      var p := StateAfter(env, before);
      StepOutline(env, p, OpenRuns(before), last.event, last.order);
      OutlineConcat(Stream(env, before), Project(env, p, last.event, last.order).1);
    }
  }

  lemma NothingOpen()
    ensures Matches(NEW_PROJECTOR, map[])
  {
  }
}
