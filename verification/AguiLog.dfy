/**
 What one thread's subscriber has in hand: the events of the thread since its last run started.
 */
module AguiLog {
  import opened Wrappers
  import opened Utf8
  import opened AguiEvents
  import opened AguiStructured
  import opened AguiProjection

  function LogFrom(thread: Id, log: seq<Event>, stream: seq<Envelope>): seq<Event> {
    if stream == [] then log
    else
      var rest, e := LogFrom(thread, log, stream[..|stream| - 1]), stream[|stream| - 1];
      if e.thread != thread then rest
      else if e.event.RunStartedEvent? then []
      else rest + [e.event]
  }

  function RunLog(thread: Id, stream: seq<Envelope>): seq<Event> {
    LogFrom(thread, [], stream)
  }

  lemma {:induction false} LogConcat(thread: Id, log: seq<Event>, a: seq<Envelope>, b: seq<Envelope>)
    ensures LogFrom(thread, log, a + b) == LogFrom(thread, LogFrom(thread, log, a), b)
    decreases |b|
  {
    if b == [] {
      assert a + b == a;
    } else {
      assert (a + b)[..|a + b| - 1] == a + b[..|b| - 1];
      LogConcat(thread, log, a, b[..|b| - 1]);
    }
  }

  predicate NoStart(events: seq<Event>) {
    forall i :: 0 <= i < |events| ==> !events[i].RunStartedEvent?
  }

  lemma {:induction false} LogInside(thread: Id, log: seq<Event>, run: Id, turn: Option<Id>, events: seq<Event>)
    requires NoStart(events)
    ensures LogFrom(thread, log, Wrap(thread, run, turn, events)) == log + events
    decreases |events|
  {
    var wrapped := Wrap(thread, run, turn, events);
    if events == [] {
      assert log + events == log;
    } else {
      var init := events[..|events| - 1];
      assert wrapped[..|wrapped| - 1] == Wrap(thread, run, turn, init);
      LogInside(thread, log, run, turn, init);
      assert log + events == (log + init) + [events[|events| - 1]];
    }
  }

  lemma {:induction false} LogElsewhere(thread: Id, log: seq<Event>, stream: seq<Envelope>)
    requires forall i :: 0 <= i < |stream| ==> stream[i].thread != thread
    ensures LogFrom(thread, log, stream) == log
    decreases |stream|
  {
    if stream != [] {
      LogElsewhere(thread, log, stream[..|stream| - 1]);
    }
  }

  lemma LogStarted(thread: Id, log: seq<Event>, run: Id, turn: Option<Id>)
    ensures LogFrom(thread, log, Wrap(thread, run, turn, [RunStartedEvent])) == []
  {
    assert Wrap(thread, run, turn, [RunStartedEvent])[..0] == [];
  }

  predicate Silent(events: seq<Event>) {
    forall i :: 0 <= i < |events| ==> events[i].Activity? || events[i].SessionEvent?
  }

  /** The progress of a sub-agent adds at most an activity. */
  lemma ProgressLogged(env: Environment, p: Projector, c: Canonical, thread: Id, log: seq<Event>)
    returns (first: seq<Event>)
    ensures LogFrom(thread, log, ProgressEvents(env, p.links, c)) == log + first && Silent(first)
  {
    hide ProgressOf;
    var events := ProgressEvents(env, p.links, c);
    first := [];
    assert log + [] == log;
    if events != [] {
      assert events[..0] == [];
      assert LogFrom(thread, log, events[..0]) == log;
      if events[0].thread == thread {
        first := [events[0].event];
      }
    }
  }

  // ---- a step, as the log of one thread sees it ----

  /** Nothing the thread's open run takes part in. */
  predicate Aside(p: Projector, c: Canonical, thread: Id) {
    || ThreadOf(c) != Some(thread)
    || c.Session? || c.Request?
    || (c.MessageChunk? && (OpenRun(p, thread, c.runRef, c.turnRef).None? || (c.content == [] && c.block.None?)))
    || (c.Tool? && OpenRun(p, thread, c.runRef, c.turnRef).None?)
    || ((c.RunFinished? || c.RunFailed?) && (thread !in p.runs || p.runs[thread].runId != c.run))
  }

  lemma AsideHandled(env: Environment, p: Projector, c: Canonical, order: seq<Id>, thread: Id)
    requires Aside(p, c, thread)
    ensures var (p', events) := Handle(env, p, c, order);
            && (thread in p'.runs <==> thread in p.runs) && (thread in p.runs ==> p'.runs[thread] == p.runs[thread])
            && (forall i :: 0 <= i < |events| ==>
                  events[i].thread != thread || (events[i].event.SessionEvent? && |events| == 1))
  {
    hide Say, UpdateTool, CloseEvents, UpdateLinks, ToolOf, Unlink, RunAfterTool, Correlated;
  }

  lemma AsideWithLinks(p: Projector, q: Projector, c: Canonical, thread: Id)
    requires Aside(p, c, thread) && q.runs == p.runs
    ensures Aside(q, c, thread)
  {
  }

  lemma SilentConcat(log: seq<Event>, a: seq<Event>, b: seq<Event>)
    requires Silent(a) && Silent(b)
    ensures Silent(a + b) && log + a + b == log + (a + b)
  {
  }

  /** A step aside leaves the run, and adds nothing but activities and session events to its log. */
  lemma AsideLogged(env: Environment, p: Projector, c: Canonical, order: seq<Id>, thread: Id, log: seq<Event>)
    returns (more: seq<Event>)
    requires Aside(p, c, thread)
    ensures var (p', events) := Project(env, p, c, order);
            && (thread in p'.runs <==> thread in p.runs) && (thread in p.runs ==> p'.runs[thread] == p.runs[thread])
            && LogFrom(thread, log, events) == log + more && Silent(more)
  {
    hide Handle, Aside, ProgressEvents, LinksAfterProgress, LogFrom, Silent;
    var q := p.(links := LinksAfterProgress(env, p.links, c));
    AsideWithLinks(p, q, c, thread);
    AsideHandled(env, q, c, order, thread);
    var first := ProgressLogged(env, p, c, thread, log);
    var rest := SessionLogged(thread, log + first, Handle(env, q, c, order).1);
    LogConcat(thread, log, ProgressEvents(env, p.links, c), Handle(env, q, c, order).1);
    SilentConcat(log, first, rest);
    more := first + rest;
  }

  lemma SessionLogged(thread: Id, log: seq<Event>, events: seq<Envelope>) returns (more: seq<Event>)
    requires forall i :: 0 <= i < |events| ==>
               events[i].thread != thread || (events[i].event.SessionEvent? && |events| == 1)
    ensures LogFrom(thread, log, events) == log + more && Silent(more)
  {
    if |events| == 1 {
      assert events[..0] == [];
      assert LogFrom(thread, log, events[..0]) == log;
      more := if events[0].thread == thread then [events[0].event] else [];
      assert log + [] == log;
    } else {
      LogElsewhere(thread, log, events);
      more := [];
      assert log + [] == log;
    }
  }

  /** After a step that starts a run, the log is empty. */
  lemma StartLogged(env: Environment, p: Projector, thread: Id, run: Id, turn: Id, order: seq<Id>, log: seq<Event>)
    ensures var (p', events) := Project(env, p, RunStarted(thread, run, turn), order);
            && p'.runs == p.runs[thread := NewRun(run, turn)]
            && LogFrom(thread, log, events) == []
  {
    hide LogFrom, ProgressEvents, LinksAfterProgress, Supersede;
    var c := RunStarted(thread, run, turn);
    var q := p.(links := LinksAfterProgress(env, p.links, c));
    var first, closing := ProgressEvents(env, p.links, c), Supersede(q, thread, order);
    var started := Wrap(thread, run, Some(turn), [RunStartedEvent]);
    assert Project(env, p, c, order).1 == first + (closing + started);
    LogConcat(thread, log, first, closing + started);
    LogConcat(thread, LogFrom(thread, log, first), closing, started);
    LogStarted(thread, LogFrom(thread, LogFrom(thread, log, first), closing), run, Some(turn));
  }

  /** A chunk the open run takes up adds an activity at most, and then what it makes the run say. */
  lemma SpeakLogged(env: Environment, p: Projector, c: Canonical, order: seq<Id>, thread: Id, log: seq<Event>)
    returns (first: seq<Event>)
    requires Speaking(p, c, thread)
    ensures var (p', events) := Project(env, p, c, order);
            var (run', said) := Say(env, p.runs[thread], c.role, c.message, c.content, c.block);
            && p'.runs == p.runs[thread := run']
            && Silent(first) && (NoStart(said) ==> LogFrom(thread, log, events) == log + first + said)
  {
    hide LogFrom, ProgressEvents, LinksAfterProgress, Say, Correlated;
    var run := p.runs[thread];
    var said := Say(env, run, c.role, c.message, c.content, c.block).1;
    var progress := ProgressEvents(env, p.links, c);
    first := ProgressLogged(env, p, c, thread, log);
    LogConcat(thread, log, progress, Wrap(thread, run.runId, run.turn, said));
    if NoStart(said) {
      LogInside(thread, log + first, run.runId, run.turn, said);
    }
  }

  /** A tool update the open run takes up. */
  lemma UseLogged(env: Environment, p: Projector, c: Canonical, order: seq<Id>, thread: Id, log: seq<Event>)
    returns (first: seq<Event>)
    requires Using(p, c, thread)
    ensures var (p', events) := Project(env, p, c, order);
            var done := UpdateTool(env, ToolOf(p.runs[thread], c.update.tool), c.update).events;
            && p'.runs == p.runs[thread := RunAfterTool(env, p.runs[thread], c.update)]
            && Silent(first) && (NoStart(done) ==> LogFrom(thread, log, events) == log + first + done)
  {
    hide LogFrom, ProgressEvents, LinksAfterProgress, UpdateTool, RunAfterTool, UpdateLinks, ToolOf, Correlated;
    var run := p.runs[thread];
    var done := UpdateTool(env, ToolOf(run, c.update.tool), c.update).events;
    var progress := ProgressEvents(env, p.links, c);
    first := ProgressLogged(env, p, c, thread, log);
    LogConcat(thread, log, progress, Wrap(thread, run.runId, run.turn, done));
    if NoStart(done) {
      LogInside(thread, log + first, run.runId, run.turn, done);
    }
  }

  /** The run of the thread ends, and its terminal event is this one. */
  predicate Finishing(p: Projector, c: Canonical, thread: Id) {
    (c.RunFinished? || c.RunFailed?) && c.thread == thread && thread in p.runs && p.runs[thread].runId == c.run
  }

  predicate Starting(c: Canonical, thread: Id) {
    c.RunStarted? && c.thread == thread
  }

  predicate Speaking(p: Projector, c: Canonical, thread: Id) {
    && c.MessageChunk? && c.thread == thread && (c.content != [] || c.block.Some?)
    && OpenRun(p, thread, c.runRef, c.turnRef).Some?
  }

  predicate Using(p: Projector, c: Canonical, thread: Id) {
    c.Tool? && c.thread == thread && OpenRun(p, thread, c.runRef, c.turnRef).Some?
  }

  /** Every event is one of these five for a thread. */
  lemma FiveKinds(p: Projector, c: Canonical, thread: Id)
    ensures Aside(p, c, thread) || Finishing(p, c, thread) || Starting(c, thread) || Speaking(p, c, thread)
            || Using(p, c, thread)
  {
  }

  lemma FinishLogged(env: Environment, p: Projector, c: Canonical, order: seq<Id>, thread: Id, log: seq<Event>)
    returns (first: seq<Event>, terminal: Event)
    requires Finishing(p, c, thread)
    ensures var (p', events) := Project(env, p, c, order);
            var closing := CloseEvents(p.runs[thread], order);
            && p'.runs == p.runs - {thread}
            && Silent(first) && (terminal.RunFinishedEvent? || terminal.RunErrorEvent?)
            && (NoStart(closing) ==> LogFrom(thread, log, events) == log + first + closing + [terminal])
  {
    hide LogFrom, ProgressEvents, LinksAfterProgress, CloseEvents, Unlink;
    var run := p.runs[thread];
    var closing := CloseEvents(run, order);
    var progress := ProgressEvents(env, p.links, c);
    terminal := if c.RunFinished? then RunFinishedEvent else RunErrorEvent(false);
    first := ProgressLogged(env, p, c, thread, log);
    var closed, last := Wrap(thread, c.run, run.turn, closing), Wrap(thread, c.run, Some(c.turn), [terminal]);
    LogConcat(thread, log, progress, closed + last);
    LogConcat(thread, log + first, closed, last);
    if NoStart(closing) {
      LogInside(thread, log + first, c.run, run.turn, closing);
      LogInside(thread, log + first + closing, c.run, Some(c.turn), [terminal]);
    }
  }
}
