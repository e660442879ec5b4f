/**
 Sub-agents: which tool each sub-agent thread is linked to, what its progress is told to be, and what the updates of
 the tool itself tell.
 */
module AguiLinks {
  import opened Wrappers
  import opened Utf8
  import opened AguiEvents
  import opened AguiStructured
  import opened AguiProjection
  import opened AguiLog
  import opened AguiTools
  import opened AguiToolRuns
  import opened AguiOutline

  // ---- what a step says about a sub-agent thread ----

  /** The update of a tool in the open run names this sub-agent thread. */
  predicate NamesChild(env: Environment, p: Projector, c: Canonical, child: Id) {
    && c.Tool? && c.thread in p.runs
    && (c.runRef.Some? ==> c.runRef.value == p.runs[c.thread].runId)
    && (c.turnRef.Some? && p.runs[c.thread].turn.Some? ==> c.turnRef == p.runs[c.thread].turn)
    && Names(env, ToolOf(p.runs[c.thread], c.update.tool), c.update).Some?
    && Names(env, ToolOf(p.runs[c.thread], c.update.tool), c.update).value.child == child
  }

  predicate Ended(env: Environment, s: Status) {
    s.CompletedStatus? || s.FailedStatus? || (s.Stated? && env.endsTask(s.word))
  }

  /** The step links the thread to the tool, in its run. */
  predicate Links(env: Environment, p: Projector, c: Canonical, child: Id, link: Link) {
    && NamesChild(env, p, c, child)
    && !Ended(env, Names(env, ToolOf(p.runs[c.thread], c.update.tool), c.update).value.status)
    && link == Link(c.thread, p.runs[c.thread].runId, p.runs[c.thread].turn, c.update.tool, child)
  }

  /** The step ends the link: the thread's run ends, a tool names the thread again, or the run of the link ends. */
  predicate Unlinks(env: Environment, p: Projector, c: Canonical, child: Id, link: Link) {
    || ((c.RunFinished? || c.RunFailed?) && c.thread == child)
    || NamesChild(env, p, c, child)
    || ((c.RunFinished? || c.RunFailed?) && c.thread == link.thread && c.run == link.run
        && c.thread in p.runs && p.runs[c.thread].runId == c.run)
  }

  predicate Linked(p: Projector, child: Id, link: Link) {
    child in p.links && p.links[child] == link
  }

  lemma ProgressUnlinks(env: Environment, p: Projector, c: Canonical, child: Id, link: Link)
    ensures var q := p.(links := LinksAfterProgress(env, p.links, c));
            Linked(q, child, link) <==> Linked(p, child, link) && !((c.RunFinished? || c.RunFailed?) && c.thread == child)
  {
  }

  lemma NamedIsNames(env: Environment, run: RunState, u: ToolUpdate)
    ensures NamedSubagent(env, run, u) == Names(env, ToolOf(run, u.tool), u)
  {
    hide NextText;
  }

  lemma UseLinks(env: Environment, p: Projector, c: Canonical, child: Id, link: Link)
    requires c.Tool?
    ensures Linked(Use(env, p, c).0, child, link)
            <==> Links(env, p, c, child, link) || (Linked(p, child, link) && !NamesChild(env, p, c, child))
  {
    hide ToolOf, NamedSubagent, Names, UpdateTool, RunAfterTool;
    if c.thread in p.runs {
      NamedIsNames(env, p.runs[c.thread], c.update);
    }
  }

  lemma FinishLinks(p: Projector, c: Canonical, terminal: Event, order: seq<Id>, child: Id, link: Link)
    requires c.RunFinished? || c.RunFailed?
    ensures Linked(Finish(p, c.thread, c.run, c.turn, terminal, order).0, child, link)
            <==> Linked(p, child, link)
                 && !(c.thread == link.thread && c.run == link.run && c.thread in p.runs && p.runs[c.thread].runId == c.run)
  {
    hide CloseEvents;
  }

  lemma OthersKeepLinks(env: Environment, p: Projector, c: Canonical, order: seq<Id>)
    requires !c.Tool? && !c.RunFinished? && !c.RunFailed?
    ensures Handle(env, p, c, order).0.links == p.links
  {
    hide Say, Supersede, Correlated;
  }

  /** What a step leaves linked. */
  lemma StepLinks(env: Environment, p: Projector, c: Canonical, order: seq<Id>, child: Id, link: Link)
    ensures Linked(Project(env, p, c, order).0, child, link)
            <==> Links(env, p, c, child, link) || (Linked(p, child, link) && !Unlinks(env, p, c, child, link))
  {
    hide LinksAfterProgress, Use, Finish, Links, NamesChild, Linked;
    var q := p.(links := LinksAfterProgress(env, p.links, c));
    ProgressUnlinks(env, p, c, child, link);
    SameNames(env, p, q, c, child, link);
    match c {
      case Tool(_, _, _, _) => UseLinks(env, q, c, child, link);
      case RunFinished(_, _, _) => FinishLinks(q, c, RunFinishedEvent, order, child, link);
      case RunFailed(_, _, _, _) => FinishLinks(q, c, RunErrorEvent(false), order, child, link);
      case _ =>
        hide Handle;
        OthersKeepLinks(env, q, c, order);
        SameLinks(q, Handle(env, q, c, order).0, child, link);
    }
  }

  lemma SameNames(env: Environment, p: Projector, q: Projector, c: Canonical, child: Id, link: Link)
    requires q.runs == p.runs
    ensures NamesChild(env, q, c, child) <==> NamesChild(env, p, c, child)
    ensures Links(env, q, c, child, link) <==> Links(env, p, c, child, link)
    ensures !c.Tool? ==> !NamesChild(env, p, c, child) && !Links(env, p, c, child, link)
  {
  }

  lemma SameLinks(p: Projector, q: Projector, child: Id, link: Link)
    requires p.links == q.links
    ensures Linked(p, child, link) <==> Linked(q, child, link)
  {
  }

  // ---- over runs ----

  /** Step `n` linked the thread, and no later step ended that link. */
  ghost predicate LinkedSince(env: Environment, steps: seq<Step>, n: nat, child: Id, link: Link)
    requires n < |steps|
  {
    && Links(env, StateAfter(env, steps[..n]), steps[n].event, child, link)
    && forall k :: n < k < |steps| ==> !Unlinks(env, StateAfter(env, steps[..k]), steps[k].event, child, link)
  }

  ghost predicate StillLinked(env: Environment, steps: seq<Step>, child: Id, link: Link) {
    exists n :: 0 <= n < |steps| && LinkedSince(env, steps, n, child, link)
  }

  lemma StillLinkedNext(env: Environment, steps: seq<Step>, s: Step, child: Id, link: Link)
    ensures StillLinked(env, steps + [s], child, link)
            <==> Links(env, StateAfter(env, steps), s.event, child, link)
                 || (StillLinked(env, steps, child, link) && !Unlinks(env, StateAfter(env, steps), s.event, child, link))
  {
    hide StateAfter, Links, Unlinks;
    var all, last := steps + [s], |steps|;
    assert forall n :: 0 <= n < last ==> all[..n] == steps[..n] && all[n] == steps[n];
    assert all[..last] == steps && all[last] == s;
    if StillLinked(env, all, child, link) {
      var n :| 0 <= n < |all| && LinkedSince(env, all, n, child, link);
      if n < last {
        assert !Unlinks(env, StateAfter(env, all[..last]), all[last].event, child, link);
        assert LinkedSince(env, steps, n, child, link);
      }
    }
    if Links(env, StateAfter(env, steps), s.event, child, link) {
      assert LinkedSince(env, all, last, child, link);
    } else if StillLinked(env, steps, child, link) && !Unlinks(env, StateAfter(env, steps), s.event, child, link) {
      var n :| 0 <= n < |steps| && LinkedSince(env, steps, n, child, link);
      assert LinkedSince(env, all, n, child, link);
    }
  }

  /**
   A sub-agent thread is linked to a tool exactly since that tool last named it as working, until its own run or the
   run of the tool finishes or fails, or a tool names it again.
   */
  lemma {:induction false} LinkedIff(env: Environment, steps: seq<Step>, child: Id, link: Link)
    ensures Linked(StateAfter(env, steps), child, link) <==> StillLinked(env, steps, child, link)
    decreases |steps|
  {
    hide Project, Links, Unlinks, LinkedSince;
    if steps != [] {
      var before, last := steps[..|steps| - 1], steps[|steps| - 1];
      LinkedIff(env, before, child, link);
      StepLinks(env, StateAfter(env, before), last.event, last.order, child, link);
      StillLinkedNext(env, before, last, child, link);
      assert steps == before + [last];
    }
  }

  // ---- the progress of a linked thread ----

  /** How an event of a thread tells that it is at work, or done. */
  function ProgressNow(env: Environment, c: Canonical): Option<Status> {
    if c.RunFinished? then Some(CompletedStatus)
    else if c.RunFailed? then Some(FailedStatus)
    else if c.Ignored? || (c.MessageChunk? && env.blank(c.content)) || (c.Session? && !c.plan) then None
    else Some(RunningStatus)
  }

  /** The first thing a step tells is the progress of a linked thread, to the run and tool of the link. */
  lemma ProgressTold(env: Environment, steps: seq<Step>, s: Step, link: Link)
    requires !s.event.Ignored? && Linked(StateAfter(env, steps), s.event.thread, link) && ProgressNow(env, s.event).Some?
    ensures var events := Project(env, StateAfter(env, steps), s.event, s.order).1;
            && events != []
            && events[0] == Envelope(link.thread, InRun(link.run), link.turn,
                                     Activity(link.tool, Some(link.child), ProgressNow(env, s.event).value))
  {
    hide Handle, LinksAfterProgress, StateAfter;
  }

  // ---- what the updates of a tool tell ----

  function Activities(events: seq<Event>): seq<Event> {
    if events == [] then []
    else Activities(events[..|events| - 1]) + if events[|events| - 1].Activity? then [events[|events| - 1]] else []
  }

  lemma {:induction false} ActivitiesConcat(a: seq<Event>, b: seq<Event>)
    ensures Activities(a + b) == Activities(a) + Activities(b)
    decreases |b|
  {
    if b == [] {
      assert a + b == a;
    } else {
      assert (a + b)[..|a + b| - 1] == a + b[..|b| - 1];
      ActivitiesConcat(a, b[..|b| - 1]);
    }
  }

  lemma {:induction false} NoActivities(events: seq<Event>)
    requires forall i :: 0 <= i < |events| ==> !events[i].Activity?
    ensures Activities(events) == []
    decreases |events|
  {
    if events != [] {
      NoActivities(events[..|events| - 1]);
    }
  }

  /** What a status says of the tool's own end. */
  function OwnEnd(status: ToolStatus): Status {
    match status
    case Completed => CompletedStatus
    case Failed => FailedStatus
    case _ => RunningStatus
  }

  function Tells(tool: Id, a: ActivityRevision): Event {
    match a
    case Unlinked(status) => Activity(tool, None, status)
    case Linked(child, status) => Activity(tool, Some(child), status)
  }

  /** The activity after an update: that of the sub-agent it names; at the end of a sub-agent's tool its outcome; or as before. */
  function ActivityAfter(env: Environment, t: ToolState, u: ToolUpdate): Option<ActivityRevision> {
    var task := (u.content.Set? || u.content.Append?) && env.parseTask(u.content.value).Some?;
    var named := Names(env, t, u);
    if named.Some? then Some(ActivityRevision.Linked(named.value.child, named.value.status))
    else if SaysSubagent(env, t, u) && u.status.Terminal() then Some(Unlinked(OwnEnd(u.status)))
    else if SaysSubagent(env, t, u) && !t.started && !task then Some(Unlinked(RunningStatus))
    else t.activity
  }

  lemma TextHasNoActivities(env: Environment, t: ToolState, u: ToolUpdate, found: Option<Subagent>)
    ensures Activities(TextEvents(env, t, u, found)) == [] && Activities(StructureEvents(env, t, u, found)) == []
  {
    hide NewContent, ResultChanged, StructureChanged, NextStructured, StructureRevision, Activities;
    NoActivities(TextEvents(env, t, u, found));
    NoActivities(StructureEvents(env, t, u, found));
  }

  /** The pieces of an update that may tell an activity, and what they make of the remembered one. */
  lemma CallActivities(env: Environment, t: ToolState, u: ToolUpdate)
    ensures var s := StartTool(env, t, u);
            && SameText(t, s.state)
            && s.state.subagent == t.subagent
            && (!t.started && t.subagent && !HasTask(env, u.content) ==>
                  s.state.activity == Some(Unlinked(OwnEnd(u.status))) && Activities(s.events) == [Activity(u.tool, None, OwnEnd(u.status))])
            && (t.started || !t.subagent || HasTask(env, u.content) ==> s.state.activity == t.activity && Activities(s.events) == [])
  {
    hide HasTask;
    var s := StartTool(env, t, u);
    hide Activities;
    if !t.started && t.subagent && !HasTask(env, u.content) {
      OneActivity(Activity(u.tool, None, OwnEnd(u.status)));
    } else {
      NoActivities(s.events);
    }
  }

  predicate SameText(t: ToolState, s: ToolState) {
    t.result == s.result && t.resultRevision == s.resultRevision
  }

  lemma EndActivities(t: ToolState, u: ToolUpdate)
    ensures var s := EndTool(t, u);
            SameText(t, s.state) && s.state.subagent == t.subagent && s.state.activity == t.activity && Activities(s.events) == []
  {
    var s := EndTool(t, u);
    NoActivities(s.events);
  }

  lemma OneActivity(e: Event)
    requires e.Activity?
    ensures Activities([e]) == [e] && Activities([]) == []
  {
    assert [e][..0] == [];
  }

  lemma ReportActivities(t: ToolState, u: ToolUpdate, found: Option<Subagent>)
    ensures var s := ReportSubagent(t, u, found);
            && (found.None? ==> s.state == t && Activities(s.events) == [])
            && (found.Some? ==>
                  var linked := ActivityRevision.Linked(found.value.child, found.value.status);
                  && s.state.subagent && s.state.activity == Some(linked)
                  && Activities(s.events) == if t.activity == Some(linked) then [] else [Tells(u.tool, linked)])
  {
    if found.Some? {
      OneActivity(Activity(u.tool, Some(found.value.child), found.value.status));
    }
  }

  lemma OutcomeActivities(t: ToolState, u: ToolUpdate, found: Option<Subagent>)
    ensures var s := ReportOutcome(t, u, found);
            && (found.Some? || !t.subagent || !u.status.Terminal() ==> s.state == t && Activities(s.events) == [])
            && (found.None? && t.subagent && u.status.Terminal() ==>
                  && s.state.activity == Some(Unlinked(OwnEnd(u.status)))
                  && Activities(s.events) == if t.activity == Some(Unlinked(OwnEnd(u.status))) then []
                                             else [Tells(u.tool, Unlinked(OwnEnd(u.status)))])
  {
    OneActivity(Activity(u.tool, None, OwnEnd(u.status)));
  }

  /** Nothing else of an update touches the remembered activity. */
  lemma UpdatesKeepActivity(env: Environment, t: ToolState, u: ToolUpdate, content: Option<Text>)
    ensures var s := UpdateStructure(env, UpdateResult(t, content), u);
            s.activity == t.activity && s.subagent == t.subagent
  {
    hide NextStructured, StructureChanged, StructureRevision, ResultChanged;
  }

  lemma NamesAfter(env: Environment, t: ToolState, s: ToolState, u: ToolUpdate)
    requires SameText(t, s)
    ensures SubagentIn(env, u, NewContent(s, u)) == Names(env, t, u)
  {
    SubagentIsNamed(env, s, u);
    hide NextText, SubagentIn, NewContent;
  }

  /**
   An update leaves the activity that its text and status call for, and tells it: the last activity it tells is that
   one, and it tells none exactly if it changes none. (A tool that was not started has no activity yet.)
   */
  lemma UpdateActivities(env: Environment, t: ToolState, u: ToolUpdate)
    requires !t.started ==> t.activity.None?
    ensures var t', told := UpdateTool(env, t, u).state, Activities(UpdateTool(env, t, u).events);
            && t'.activity == ActivityAfter(env, t, u)
            && (told == [] <==> t'.activity == t.activity)
            && (told != [] ==> t'.activity.Some? && told[|told| - 1] == Tells(u.tool, t'.activity.value))
  {
    hide StartTool, EndTool, NewContent, SubagentIn, ReportSubagent, ReportOutcome, TextEvents, StructureEvents;
    hide UpdateStructure, UpdateResult, Activities, Names, SameText, SaysSubagent;
    var classified := Classified(env, t, u);
    ClassifiedText(env, t, u);
    SubagentIsNamed(env, t, u);
    var started := StartTool(env, classified, u);
    CallActivities(env, classified, u);
    var ended := EndTool(started.state, u);
    EndActivities(started.state, u);
    var content := NewContent(ended.state, u);
    SameTextTwice(t, classified, started.state);
    SameTextTwice(t, started.state, ended.state);
    NamesAfter(env, t, ended.state, u);
    var found := SubagentIn(env, u, content);
    var before := UpdateStructure(env, UpdateResult(ended.state, content), u);
    UpdatesKeepActivity(env, ended.state, u, content);
    var reported := ReportSubagent(before, u, found);
    ReportActivities(before, u, found);
    var last := ReportOutcome(reported.state, u, found);
    OutcomeActivities(reported.state, u, found);
    TextHasNoActivities(env, ended.state, u, found);
    ActivitiesOfAll(started.events, ended.events, reported.events, last.events, TextEvents(env, ended.state, u, found),
                    StructureEvents(env, ended.state, u, found));
  }

  lemma ClassifiedText(env: Environment, t: ToolState, u: ToolUpdate)
    ensures SameText(t, Classified(env, t, u))
  {
    hide HasTask;
  }

  lemma SameTextTwice(a: ToolState, b: ToolState, c: ToolState)
    requires SameText(a, b) && SameText(b, c)
    ensures SameText(a, c)
  {
  }

  lemma ActivitiesOfAll(a: seq<Event>, b: seq<Event>, c: seq<Event>, d: seq<Event>, e: seq<Event>, f: seq<Event>)
    requires Activities(b) == [] && Activities(e) == [] && Activities(f) == []
    ensures Activities(a + b + c + d + e + f) == Activities(a) + Activities(c) + Activities(d)
  {
    hide Activities;
    ActivitiesConcat(a + b + c + d + e, f);
    ActivitiesConcat(a + b + c + d, e);
    ActivitiesConcat(a + b + c, d);
    ActivitiesConcat(a + b, c);
    ActivitiesConcat(a, b);
    assert Activities(a) + [] == Activities(a);
    var all := Activities(a) + Activities(c) + Activities(d);
    assert all + [] == all;
  }

  /** The event tells text or structure of a tool. */
  predicate TellsContent(e: Event) {
    e.ToolResult? || e.Custom? || e.Chunk?
  }

  predicate Contentless(events: seq<Event>) {
    forall i :: 0 <= i < |events| ==> !TellsContent(events[i])
  }

  lemma ReportsContentless(env: Environment, t: ToolState, u: ToolUpdate, found: Option<Subagent>)
    ensures Contentless(StartTool(env, t, u).events) && Contentless(EndTool(t, u).events)
    ensures Contentless(ReportSubagent(t, u, found).events) && Contentless(ReportOutcome(t, u, found).events)
    ensures found.Some? ==> TextEvents(env, t, u, found) == [] && StructureEvents(env, t, u, found) == []
  {
    hide HasTask, NewContent, ResultChanged, StructureChanged, NextStructured, StructureRevision, PayloadEvents;
  }

  lemma ContentlessConcat(a: seq<Event>, b: seq<Event>)
    requires Contentless(a) && Contentless(b)
    ensures Contentless(a + b)
  {
  }

  /** An update that names a sub-agent tells its activity in place of the text and structure that name it. */
  lemma NamedIsNotShown(env: Environment, t: ToolState, u: ToolUpdate)
    requires Names(env, t, u).Some?
    ensures Contentless(UpdateTool(env, t, u).events)
  {
    hide StartTool, EndTool, NewContent, SubagentIn, ReportSubagent, ReportOutcome, TextEvents, StructureEvents;
    hide UpdateStructure, UpdateResult, Names, SameText, Contentless, Classified;
    var classified := Classified(env, t, u);
    ClassifiedText(env, t, u);
    var started := StartTool(env, classified, u);
    CallActivities(env, classified, u);
    var ended := EndTool(started.state, u);
    EndActivities(started.state, u);
    var content := NewContent(ended.state, u);
    SameTextTwice(t, classified, started.state);
    SameTextTwice(t, started.state, ended.state);
    NamesAfter(env, t, ended.state, u);
    var found := SubagentIn(env, u, content);
    var before := UpdateStructure(env, UpdateResult(ended.state, content), u);
    var reported := ReportSubagent(before, u, found);
    var last := ReportOutcome(reported.state, u, found);
    ReportsContentless(env, classified, u, found);
    ReportsContentless(env, started.state, u, found);
    ReportsContentless(env, before, u, found);
    ReportsContentless(env, reported.state, u, found);
    ReportsContentless(env, ended.state, u, found);
    var opening := started.events + ended.events;
    ContentlessConcat(started.events, ended.events);
    ContentlessConcat(opening, reported.events);
    ContentlessConcat(opening + reported.events, last.events);
    var all := opening + reported.events + last.events;
    assert all + [] + [] == all;
  }

  /** So it is with every update a run takes up. */
  lemma StepActivities(env: Environment, steps: seq<Step>, s: Step, thread: Id)
    requires Using(StateAfter(env, steps), s.event, thread)
    ensures var t := ToolOf(StateAfter(env, steps).runs[thread], s.event.update.tool);
            var t' := ToolOf(Project(env, StateAfter(env, steps), s.event, s.order).0.runs[thread], s.event.update.tool);
            var told := Activities(UpdateTool(env, t, s.event.update).events);
            && t'.activity == ActivityAfter(env, t, s.event.update)
            && (told == [] <==> t'.activity == t.activity)
            && (told != [] ==> t'.activity.Some? && told[|told| - 1] == Tells(s.event.update.tool, t'.activity.value))
  {
    hide Project, StateAfter, UpdateTool, ActivityAfter, Activities;
    var p, u := StateAfter(env, steps), s.event.update;
    if u.tool in p.runs[thread].tools {
      KnownToolsStarted(env, steps, thread, u.tool);
    }
    UpdateActivities(env, ToolOf(p.runs[thread], u.tool), u);
    var _ := UseLogged(env, p, s.event, s.order, thread, []);
  }

  // ---- a superseded run is still told ----

  /** A run that starts, also over the run of a link, leaves the links of other threads as they are. */
  lemma StartKeepsLinks(env: Environment, p: Projector, thread: Id, run: Id, turn: Id, order: seq<Id>, child: Id, link: Link)
    ensures Linked(Project(env, p, RunStarted(thread, run, turn), order).0, child, link) <==> Linked(p, child, link)
  {
    StepLinks(env, p, RunStarted(thread, run, turn), order, child, link);
  }
}
