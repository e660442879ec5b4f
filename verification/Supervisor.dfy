/**
 The desktop supervisor: one managed bridge process per workspace, known by an ownership record.
 Between any two of its operations processes may exit and process ids may be used again.
 */
module Supervisor {
  import opened Wrappers

  type Pid = nat

  /** Executables, directories and configuration digests. */
  type Name = nat

  /** A live process; no two processes have the same id and the same start. */
  datatype Process = Process(start: nat, executable: Name, directory: Name)

  datatype Record = Record(pid: Pid, start: nat, executable: Name, workspace: Name, config: Name)

  /** A process that the supervisor has ever spawned. */
  datatype Spawned = Spawned(pid: Pid, start: nat)

  /** The processes of the machine, the record file, the clock, and the bridges spawned so far. */
  datatype World = World(processes: map<Pid, Process>, record: Option<Record>, clock: nat, spawned: set<Spawned>)

  predicate Alive(w: World, s: Spawned) {
    s.pid in w.processes && w.processes[s.pid].start == s.start
  }

  /** `process_matches_ownership`. */
  predicate Matches(w: World, r: Record) {
    r.pid in w.processes && w.processes[r.pid] == Process(r.start, r.executable, r.workspace)
  }

  /** `ownership_matches_expected`. */
  predicate Expected(r: Record, executable: Name, workspace: Name, config: Name) {
    r.executable == executable && r.workspace == workspace && r.config == config
  }

  /** What `owns_running_process` answers when it can read the record and resolve the workspace. */
  predicate Owns(w: World, workspace: Name) {
    w.record.Some? && w.record.value.workspace == workspace && Matches(w, w.record.value)
  }

  /** Times lie in the past. */
  predicate Timely(w: World) {
    && (forall pid :: pid in w.processes ==> w.processes[pid].start < w.clock)
    && (forall s :: s in w.spawned ==> s.start < w.clock)
    && (w.record.Some? ==> w.record.value.start < w.clock)
  }

  /** What may happen meanwhile: processes exit, others start, under free ids, old ones included. */
  predicate Interfered(w: World, w': World) {
    && w'.record == w.record && w'.spawned == w.spawned && w.clock <= w'.clock
    && (forall pid :: pid in w'.processes ==>
          w'.processes[pid].start < w'.clock
          && ((pid in w.processes && w.processes[pid] == w'.processes[pid]) || w.clock <= w'.processes[pid].start))
  }

  /** What is dead stays dead, whatever its process id is used for. */
  lemma DeadStaysDead(w: World, w': World)
    requires Timely(w) && Interfered(w, w')
    ensures Timely(w')
    ensures forall s :: s in w.spawned && Alive(w', s) ==> Alive(w, s)
    ensures w.record.Some? && Matches(w', w.record.value) ==> Matches(w, w.record.value)
  {
  }

  /** A bridge in this workspace is recorded as what it is. */
  predicate RecordedAs(r: Record, s: Spawned, workspace: Name) {
    r.pid == s.pid && r.start == s.start && r.workspace == workspace
  }

  /** The rule between calls: every live bridge is the recorded one. */
  predicate Managed(w: World, workspace: Name) {
    && Timely(w)
    && forall s :: s in w.spawned && Alive(w, s) ==>
         w.record.Some? && RecordedAs(w.record.value, s, workspace) && Matches(w, w.record.value)
  }

  /** Hence there is at most one. */
  lemma AtMostOneBridge(w: World, workspace: Name, a: Spawned, b: Spawned)
    requires Managed(w, workspace) && a in w.spawned && b in w.spawned && Alive(w, a) && Alive(w, b)
    ensures a == b && Owns(w, workspace)
  {
  }

  predicate NoBridge(w: World) {
    forall s :: s in w.spawned ==> !Alive(w, s)
  }

  /** While a call has spawned a bridge that is not recorded yet, there is no other. */
  predicate OnlyBridge(w: World, only: Spawned) {
    Timely(w) && only in w.spawned && forall s :: s in w.spawned && Alive(w, s) ==> s == only
  }

  lemma ManagedThroughInterference(w: World, w': World, workspace: Name)
    requires Managed(w, workspace) && Interfered(w, w')
    ensures Managed(w', workspace)
    ensures NoBridge(w) ==> NoBridge(w')
    ensures !Owns(w, workspace) ==> !Owns(w', workspace)
  {
    DeadStaysDead(w, w');
    forall s | s in w'.spawned && Alive(w', s) ensures Matches(w', w'.record.value) {
      assert Alive(w, s);
    }
  }

  lemma OnlyThroughInterference(w: World, w': World, only: Spawned)
    requires OnlyBridge(w, only) && Interfered(w, w')
    ensures OnlyBridge(w', only)
  {
    DeadStaysDead(w, w');
  }

  /** Not owning a process, between calls, means that no bridge is alive. */
  lemma NotOwnedNoBridge(w: World, workspace: Name)
    requires Managed(w, workspace) && !Owns(w, workspace)
    ensures NoBridge(w)
  {
  }

  lemma NothingHappens(w: World)
    requires Timely(w)
    ensures Interfered(w, w)
  {
  }

  lemma InterferedTwice(a: World, b: World, c: World)
    requires Interfered(a, b) && Interfered(b, c)
    ensures Interfered(a, c)
  {
  }

  // ---- what a stop may leave ----

  /** The process of the record may go, and only then the record may. */
  ghost predicate WaitEnds(w: World, ownership: Record, w': World) {
    || Interfered(w, w')
    || exists gone :: Interfered(w, gone) && !Matches(gone, ownership) && w' == gone.(record := None)
  }

  /** Waiting for a process, whether to come up or to go, keeps the rule. */
  lemma WaitKeepsManaged(w: World, ownership: Record, w': World, workspace: Name)
    requires Managed(w, workspace) && w.record == Some(ownership) && WaitEnds(w, ownership, w')
    ensures Managed(w', workspace)
    ensures w'.record == None ==> NoBridge(w')
  {
    if Interfered(w, w') {
      ManagedThroughInterference(w, w', workspace);
    } else {
      var gone :| Interfered(w, gone) && !Matches(gone, ownership) && w' == gone.(record := None);
      ManagedThroughInterference(w, gone, workspace);
      forall s | s in w'.spawned ensures !Alive(w', s) {
        assert Alive(gone, s) ==> Matches(gone, ownership);
      }
    }
  }

  // ---- what a start may leave ----

  function AfterSpawn(w: World, pid: Pid, executable: Name, workspace: Name): World {
    World(w.processes[pid := Process(w.clock, executable, workspace)], w.record, w.clock + 1,
          w.spawned + {Spawned(pid, w.clock)})
  }

  function Killed(w: World, child: Spawned): World {
    if Alive(w, child) then w.(processes := w.processes - {child.pid}) else w
  }

  datatype Cleaned = GoOn | Refused

  /** What `clean_stale_ownership` decides, when it can read the record and remove a stale one. */
  function CleanDecision(w: World, executable: Name, workspace: Name, config: Name): Cleaned {
    match w.record
    case None => GoOn
    case Some(r) => if !Matches(w, r) || Expected(r, executable, workspace, config) then GoOn else Refused
  }

  /** The record file after the second check let the start go on. */
  function CleanedWorld(w: World): World {
    if w.record.Some? && !Matches(w, w.record.value) then w.(record := None) else w
  }

  /**
   A start gets as far as spawning in `ready`: its first check did not see an owned process, because there was none
   or because it could not read the record or resolve the workspace, and its second check let it go on.
   */
  ghost predicate ReachesSpawn(
    w: World, readable: bool, executable: Name, workspace: Name, config: Name, ready: World)
  {
    && (readable ==> !Owns(w, workspace))
    && exists checked ::
         && Interfered(w, checked)
         && CleanDecision(checked, executable, workspace, config).GoOn?
         && Interfered(CleanedWorld(checked), ready)
  }

  /** It stops before that, with at most a stale record removed. */
  ghost predicate StopsBefore(w: World, w': World) {
    exists checked :: Interfered(w, checked) && (w' == checked || Interfered(CleanedWorld(checked), w'))
  }

  /** The spawned child is identified and published, or killed again. */
  ghost predicate Published(seen: World, child: Spawned, ownership: Record, w': World) {
    || w' == Killed(seen, child)
    || w' == Killed(seen, child).(record := Some(ownership))
    || w' == Killed(seen, child).(record := None)
    || WaitEnds(seen.(record := Some(ownership)), ownership, w')
  }

  function OwnershipOf(child: Spawned, executable: Name, workspace: Name, config: Name): Record {
    Record(child.pid, child.start, executable, workspace, config)
  }

  ghost predicate SpawnEnds(ready: World, executable: Name, workspace: Name, config: Name, w': World) {
    exists pid, seen ::
      && pid !in ready.processes && Interfered(AfterSpawn(ready, pid, executable, workspace), seen)
      && Published(seen, Spawned(pid, ready.clock),
                   OwnershipOf(Spawned(pid, ready.clock), executable, workspace, config), w')
  }

  ghost predicate StartEnds(w: World, readable: bool, executable: Name, workspace: Name, config: Name, w': World) {
    || StopsBefore(w, w')
    || exists ready ::
         && ReachesSpawn(w, readable, executable, workspace, config, ready)
         && SpawnEnds(ready, executable, workspace, config, w')
  }

  lemma SpawnIsOnly(w: World, pid: Pid, executable: Name, workspace: Name)
    requires Timely(w) && NoBridge(w) && pid !in w.processes
    ensures OnlyBridge(AfterSpawn(w, pid, executable, workspace), Spawned(pid, w.clock))
  {
    var w' := AfterSpawn(w, pid, executable, workspace);
    forall s | s in w.spawned ensures !Alive(w', s) {
      assert !Alive(w, s);
    }
  }

  lemma CleanedKeeps(w: World, workspace: Name)
    requires Managed(w, workspace)
    ensures Managed(CleanedWorld(w), workspace) && (NoBridge(w) ==> NoBridge(CleanedWorld(w)))
  {
    forall s | s in w.spawned && Alive(CleanedWorld(w), s) ensures Matches(w, w.record.value) {
      assert Alive(w, s);
    }
    if NoBridge(w) {
      forall s | s in w.spawned ensures !Alive(CleanedWorld(w), s) {
        assert !Alive(w, s);
      }
    }
  }

  lemma StopsBeforeKeeps(w: World, w': World, workspace: Name)
    requires Managed(w, workspace) && StopsBefore(w, w')
    ensures Managed(w', workspace)
  {
    var checked :| Interfered(w, checked) && (w' == checked || Interfered(CleanedWorld(checked), w'));
    ManagedThroughInterference(w, checked, workspace);
    if w' != checked {
      CleanedKeeps(checked, workspace);
      ManagedThroughInterference(CleanedWorld(checked), w', workspace);
    }
  }

  /** The states in which a start spawns only when no bridge is alive. */
  predicate StartsAlone(w: World, readable: bool, executable: Name, workspace: Name, config: Name) {
    || readable || NoBridge(w) || w.record.None?
    || w.record.value.executable != executable || w.record.value.workspace != workspace || w.record.value.config != config
  }

  lemma BridgeWasThere(w: World, w': World, workspace: Name)
    requires Managed(w, workspace) && Interfered(w, w')
    ensures !NoBridge(w') ==> !NoBridge(w) && Owns(w, workspace) && Matches(w', w.record.value)
  {
    if !NoBridge(w') {
      ManagedThroughInterference(w, w', workspace);
      DeadStaysDead(w, w');
      var s :| s in w'.spawned && Alive(w', s);
      assert Alive(w, s);
    }
  }

  lemma ReachesSpawnAlone(w: World, readable: bool, executable: Name, workspace: Name, config: Name, ready: World)
    requires Managed(w, workspace) && ReachesSpawn(w, readable, executable, workspace, config, ready)
    requires StartsAlone(w, readable, executable, workspace, config)
    ensures Timely(ready) && NoBridge(ready)
    ensures readable ==> ready.record == None
  {
    var checked :|
      && Interfered(w, checked) && CleanDecision(checked, executable, workspace, config).GoOn?
      && Interfered(CleanedWorld(checked), ready);
    ManagedThroughInterference(w, checked, workspace);
    CleanedKeeps(checked, workspace);
    ManagedThroughInterference(CleanedWorld(checked), ready, workspace);
    BridgeWasThere(w, checked, workspace);
  }

  lemma KilledIsNone(w: World, child: Spawned, record: Option<Record>)
    requires OnlyBridge(w, child) && (record.Some? ==> record.value.start < w.clock)
    ensures Timely(Killed(w, child).(record := record)) && NoBridge(Killed(w, child).(record := record))
  {
    var w' := Killed(w, child).(record := record);
    forall s | s in w'.spawned ensures !Alive(w', s) {
      assert Alive(w, s) ==> s == child;
    }
  }

  lemma PublishedKeeps(seen: World, child: Spawned, ownership: Record, w': World, workspace: Name)
    requires OnlyBridge(seen, child) && RecordedAs(ownership, child, workspace) && child.start < seen.clock
    requires Alive(seen, child) ==> Matches(seen, ownership)
    requires Published(seen, child, ownership, w')
    ensures Managed(w', workspace)
  {
    KilledIsNone(seen, child, seen.record);
    KilledIsNone(seen, child, None);
    KilledIsNone(seen, child, Some(ownership));
    var published := seen.(record := Some(ownership));
    if WaitEnds(published, ownership, w') {
      forall s | s in published.spawned && Alive(published, s)
        ensures RecordedAs(ownership, s, workspace) && Matches(published, ownership)
      {
        assert Alive(seen, s) && s == child;
      }
      WaitKeepsManaged(published, ownership, w', workspace);
    }
  }

  lemma SpawnKeeps(ready: World, executable: Name, workspace: Name, config: Name, w': World)
    requires Timely(ready) && NoBridge(ready) && SpawnEnds(ready, executable, workspace, config, w')
    ensures Managed(w', workspace)
  {
    hide Published, Managed;
    var pid, seen :|
      && pid !in ready.processes && Interfered(AfterSpawn(ready, pid, executable, workspace), seen)
      && Published(seen, Spawned(pid, ready.clock),
                   OwnershipOf(Spawned(pid, ready.clock), executable, workspace, config), w');
    SpawnIsOnly(ready, pid, executable, workspace);
    var after, child := AfterSpawn(ready, pid, executable, workspace), Spawned(pid, ready.clock);
    var ownership := OwnershipOf(child, executable, workspace, config);
    OnlyThroughInterference(after, seen, child);
    assert Alive(seen, child) ==> Matches(seen, ownership);
    PublishedKeeps(seen, child, ownership, w', workspace);
  }

  lemma StartKeeps(w: World, readable: bool, executable: Name, workspace: Name, config: Name, w': World)
    requires Managed(w, workspace) && StartEnds(w, readable, executable, workspace, config, w')
    requires StartsAlone(w, readable, executable, workspace, config)
    ensures Managed(w', workspace)
  {
    hide Managed, StopsBefore, ReachesSpawn, SpawnEnds, StartsAlone;
    if StopsBefore(w, w') {
      StopsBeforeKeeps(w, w', workspace);
    } else {
      var ready :|
        && ReachesSpawn(w, readable, executable, workspace, config, ready)
        && SpawnEnds(ready, executable, workspace, config, w');
      ReachesSpawnAlone(w, readable, executable, workspace, config, ready);
      SpawnKeeps(ready, executable, workspace, config, w');
    }
  }

  lemma StoppedHere(
    w: World, here: World, readable: bool, executable: Name, workspace: Name, config: Name)
    requires Interfered(w, here)
    ensures StartEnds(w, readable, executable, workspace, config, here)
  {
    assert StopsBefore(w, here);
  }

  lemma StoppedLater(
    w: World, checked: World, cleaned: World, later: World,
    readable: bool, executable: Name, workspace: Name, config: Name)
    requires Interfered(w, checked) && (cleaned == checked || cleaned == CleanedWorld(checked))
    requires Interfered(cleaned, later)
    ensures StartEnds(w, readable, executable, workspace, config, later)
  {
    if cleaned == checked {
      InterferedTwice(w, checked, later);
    }
    assert StopsBefore(w, later);
  }

  lemma SpawnedThere(
    w: World, ready: World, readable: bool, executable: Name, workspace: Name, config: Name, w': World)
    requires ReachesSpawn(w, readable, executable, workspace, config, ready)
    requires SpawnEnds(ready, executable, workspace, config, w')
    ensures StartEnds(w, readable, executable, workspace, config, w')
  {
  }

  lemma Removed(w: World, gone: World, ownership: Record, w': World)
    requires Interfered(w, gone) && !Matches(gone, ownership)
    requires w' == gone || w' == gone.(record := None)
    ensures WaitEnds(w, ownership, w')
  {
  }

  lemma WaitsOn(w: World, later: World, ownership: Record, w': World)
    requires Interfered(w, later) && WaitEnds(later, ownership, w')
    ensures WaitEnds(w, ownership, w')
  {
    if Interfered(later, w') {
      InterferedTwice(w, later, w');
    } else {
      var gone :| Interfered(later, gone) && !Matches(gone, ownership) && w' == gone.(record := None);
      InterferedTwice(w, later, gone);
    }
  }

  /** A start whose first check missed the live bridge, whose second let it go on, and whose child came up. */
  lemma MissedStart(w: World, executable: Name, workspace: Name, config: Name, s: Spawned, pid: Pid)
    requires Managed(w, workspace) && s in w.spawned && Alive(w, s) && pid !in w.processes
    requires Expected(w.record.value, executable, workspace, config)
    ensures var child := Spawned(pid, w.clock);
            var w' := AfterSpawn(w, pid, executable, workspace).(
              record := Some(OwnershipOf(child, executable, workspace, config)));
            && StartEnds(w, false, executable, workspace, config, w')
            && s in w'.spawned && child in w'.spawned && s != child && Alive(w', s) && Alive(w', child)
            && !Managed(w', workspace)
  {
    var child := Spawned(pid, w.clock);
    var ownership := OwnershipOf(child, executable, workspace, config);
    var after := AfterSpawn(w, pid, executable, workspace);
    var w' := after.(record := Some(ownership));
    NothingHappens(w);
    NothingHappens(after);
    NothingHappens(w');
    assert CleanedWorld(w) == w;
    assert ReachesSpawn(w, false, executable, workspace, config, w);
    assert SpawnEnds(w, executable, workspace, config, w') by {
      assert Published(after, child, ownership, w');
    }
  }

  /**
   Every end of a start keeps the rule if and only if its first check could read what it needs, or no bridge is alive,
   or the record is not the one this start expects.
   */
  lemma StartKeepsManagedIff(w: World, readable: bool, executable: Name, workspace: Name, config: Name)
    requires Managed(w, workspace)
    ensures (forall w' :: StartEnds(w, readable, executable, workspace, config, w') ==> Managed(w', workspace))
            <==> StartsAlone(w, readable, executable, workspace, config)
  {
    hide StartEnds;
    if StartsAlone(w, readable, executable, workspace, config) {
      forall w' | StartEnds(w, readable, executable, workspace, config, w') ensures Managed(w', workspace) {
        StartKeeps(w, readable, executable, workspace, config, w');
      }
    } else {
      var s :| s in w.spawned && Alive(w, s);
      var pid := Unused(w.processes.Keys);
      MissedStart(w, executable, workspace, config, s, pid);
    }
  }

  const EMPTY_MACHINE: World := World(map[], None, 0, {})
  const ONE_BRIDGE: World := World(map[1 := Process(0, 7, 5)], Some(Record(1, 0, 7, 5, 3)), 1, {Spawned(1, 0)})
  const TWO_BRIDGES: World :=
    World(map[1 := Process(0, 7, 5), 2 := Process(1, 7, 5)], Some(Record(2, 1, 7, 5, 3)), 2,
          {Spawned(1, 0), Spawned(2, 1)})

  lemma FirstStart()
    ensures StartEnds(EMPTY_MACHINE, true, 7, 5, 3, ONE_BRIDGE) && Managed(ONE_BRIDGE, 5)
  {
    var child, ownership := Spawned(1, 0), Record(1, 0, 7, 5, 3);
    var after := AfterSpawn(EMPTY_MACHINE, 1, 7, 5);
    NothingHappens(EMPTY_MACHINE);
    NothingHappens(after);
    NothingHappens(ONE_BRIDGE);
    assert ReachesSpawn(EMPTY_MACHINE, true, 7, 5, 3, EMPTY_MACHINE);
    assert SpawnEnds(EMPTY_MACHINE, 7, 5, 3, ONE_BRIDGE) by {
      hide Interfered;
      assert ONE_BRIDGE == after.(record := Some(ownership));
      assert child == Spawned(1, EMPTY_MACHINE.clock) && ownership == OwnershipOf(child, 7, 5, 3);
      assert Published(after, child, ownership, ONE_BRIDGE);
    }
  }

  /** Two starts of the same bridge, the first check of the second one unreadable, leave two bridges alive. */
  lemma SomeStartLeavesTwoBridges()
    ensures StartEnds(EMPTY_MACHINE, true, 7, 5, 3, ONE_BRIDGE)
    ensures StartEnds(ONE_BRIDGE, false, 7, 5, 3, TWO_BRIDGES)
    ensures forall s :: s in TWO_BRIDGES.spawned ==> Alive(TWO_BRIDGES, s)
    ensures |TWO_BRIDGES.spawned| == 2
  {
    hide StartEnds, Managed;
    FirstStart();
    MissedStart(ONE_BRIDGE, 7, 5, 3, Spawned(1, 0), 2);
    assert TWO_BRIDGES == AfterSpawn(ONE_BRIDGE, 2, 7, 5).(record := Some(Record(2, 1, 7, 5, 3)));
  }

  // ---- in place ----

  class Desktop {
    const workspace: Name
    var processes: map<Pid, Process>
    var record: Option<Record>
    var clock: nat
    var spawned: set<Spawned>

    function State(): World
      reads this
    {
      World(processes, record, clock, spawned)
    }

    constructor (workspace: Name)
      ensures this.workspace == workspace && Managed(State(), workspace)
    {
      this.workspace := workspace;
      processes, record, clock, spawned := map[], None, 0, {};
    }

    // The operating system. Its contracts say what a call may find afterwards, not what it does.

    /** Time passes between two operations. */
    method Meanwhile()
      requires Timely(State())
      modifies this
      ensures Timely(State()) && Interfered(old(State()), State())
    {
    }

    /** Only a record whose process is gone is ever removed. */
    method RemoveRecord()
      requires record.Some? && !Matches(State(), record.value)
      modifies `record
      ensures record == None
    {
      record := None;
    }

    method Spawn(executable: Name) returns (child: Spawned)
      requires Timely(State())
      modifies `processes, `clock, `spawned
      ensures Timely(State()) && child.pid !in old(processes) && child.start == old(clock)
      ensures State() == AfterSpawn(old(State()), child.pid, executable, workspace)
    {
      ghost var unused := Unused(processes.Keys);
      assert unused !in processes;
      var pid: Pid :| pid !in processes;
      child := Spawned(pid, clock);
      processes := processes[pid := Process(clock, executable, workspace)];
      spawned := spawned + {child};
      clock := clock + 1;
    }

    /** `child.kill()` and `child.wait()`. */
    method KillChild(child: Spawned)
      requires Timely(State())
      modifies `processes
      ensures Timely(State()) && State() == Killed(old(State()), child)
    {
      if child.pid in processes && processes[child.pid].start == child.start {
        processes := processes - {child.pid};
      }
    }

    // The supervisor.

    /** `remove_ownership_if_matches`; reading the record or the removal may fail. */
    method RemoveOwnershipIfMatches(expected: Record) returns (ok: bool)
      requires Timely(State()) && !Matches(State(), expected)
      modifies `record
      ensures Timely(State())
      ensures record == old(record) || (record == None && old(record) == Some(expected))
      ensures ok ==> record != Some(expected)
    {
      ok := true;
      var fails: bool := *;
      if fails {
        return false;
      }
      if record == Some(expected) {
        RemoveRecord();
        var removedButFails: bool := *;
        ok := !removedButFails;
      }
    }

    /** `owns_running_process`: an error on the way reads as not owning. */
    method OwnsRunningProcess() returns (owns: bool, readable: bool)
      ensures owns <==> readable && Owns(State(), workspace)
      ensures owns ==> record.Some? && record.value.workspace == workspace && record.value.pid in processes
                       && processes[record.value.pid].start == record.value.start
    {
      readable := *;
      owns := readable && record.Some? && record.value.workspace == workspace && Matches(State(), record.value);
    }

    /** `clean_stale_ownership`; a record that cannot be read, compared or removed refuses the start. */
    method CleanStaleOwnership(executable: Name, config: Name) returns (ok: bool)
      requires Timely(State())
      modifies `record
      ensures Timely(State())
      ensures State() == old(State()) || State() == CleanedWorld(old(State()))
      ensures ok ==> State() == CleanedWorld(old(State()))
                     && CleanDecision(old(State()), executable, workspace, config).GoOn?
    {
      var fails: bool := *;
      if fails {
        return false;
      }
      if record.None? {
        return true;
      }
      var ownership := record.value;
      if !Matches(State(), ownership) {
        ok := RemoveOwnershipIfMatches(ownership);
        return;
      }
      ok := ownership.executable == executable && ownership.workspace == workspace && ownership.config == config;
    }

    /** Starts a bridge; the lease of the transition is held. */
    method StartLocked(executable: Name, config: Name) returns (started: bool, readable: bool)
      requires Timely(State())
      modifies this
      ensures Timely(State()) && StartEnds(old(State()), readable, executable, workspace, config, State())
      ensures started ==> record.Some? && Expected(record.value, executable, workspace, config)
      ensures Managed(old(State()), workspace) && StartsAlone(old(State()), readable, executable, workspace, config)
              ==> Managed(State(), workspace)
    {
      ghost var before := State();
      started, readable := StartChecked(executable, config);
      if Managed(before, workspace) && StartsAlone(before, readable, executable, workspace, config) {
        StartKeeps(before, readable, executable, workspace, config, State());
      }
    }

    method StartChecked(executable: Name, config: Name) returns (started: bool, readable: bool)
      requires Timely(State())
      modifies this
      ensures Timely(State()) && StartEnds(old(State()), readable, executable, workspace, config, State())
      ensures started ==> record.Some? && Expected(record.value, executable, workspace, config)
    {
      hide StartEnds, SpawnEnds, Owns, Expected, Matches, CleanDecision, Timely;
      ghost var w := State();
      started := false;
      var owns;
      owns, readable := OwnsRunningProcess();
      if owns {
        NothingHappens(w);
        StoppedHere(w, w, readable, executable, workspace, config);
        return;
      }
      Meanwhile();
      var listening: bool := *;
      if listening {
        StoppedHere(w, State(), readable, executable, workspace, config);
        return;
      }
      ghost var checked := State();
      var clean := CleanStaleOwnership(executable, config);
      ghost var cleaned := State();
      Meanwhile();
      ghost var ready := State();
      var logFails: bool := *;
      if !clean || logFails {
        StoppedLater(w, checked, cleaned, ready, readable, executable, workspace, config);
        return;
      }
      assert ReachesSpawn(w, readable, executable, workspace, config, ready);
      started := SpawnAndPublish(executable, config);
      SpawnedThere(w, ready, readable, executable, workspace, config, State());
    }

    /** Spawns the bridge, establishes its identity and publishes it; every failure on the way kills it again. */
    method SpawnAndPublish(executable: Name, config: Name) returns (started: bool)
      requires Timely(State())
      modifies this
      ensures Timely(State()) && SpawnEnds(old(State()), executable, workspace, config, State())
      ensures started ==> record.Some? && Expected(record.value, executable, workspace, config)
    {
      ghost var ready := State();
      started := false;
      var child := Spawn(executable);
      ghost var after := State();
      Meanwhile();
      ghost var seen := State();
      var ownership := Record(child.pid, child.start, executable, workspace, config);
      started := Publish(child, ownership);
      assert Published(seen, child, OwnershipOf(child, executable, workspace, config), State());
    }

    method Publish(child: Spawned, ownership: Record) returns (started: bool)
      requires Timely(State()) && child.pid == ownership.pid && child.start == ownership.start < clock
      modifies this
      ensures Timely(State()) && Published(old(State()), child, ownership, State())
      ensures started ==> record == Some(ownership)
    {
      started := false;
      var identified: bool := *;
      if !identified {
        KillChild(child);
        return;
      }
      // The write may fail with or without having replaced the file.
      var written: bool := *;
      var fails: bool := *;
      if written || !fails {
        record := Some(ownership);
      }
      if fails {
        KillChild(child);
        var _ := RemoveOwnershipIfMatches(ownership);
        return;
      }
      started := AwaitHealth(ownership);
    }

    /** Polls until the bridge answers, exits, or the time is up. */
    method AwaitHealth(ownership: Record) returns (healthy: bool)
      requires Timely(State()) && record == Some(ownership)
      modifies this
      ensures Timely(State()) && WaitEnds(old(State()), ownership, State())
      ensures healthy ==> Interfered(old(State()), State())
    {
      ghost var before := State();
      var polls: nat := *;
      while polls > 0
        invariant Timely(State()) && Interfered(before, State())
        decreases polls
      {
        var answers: bool := *;
        if answers {
          return true;
        }
        if !Matches(State(), ownership) {
          ghost var gone := State();
          var _ := RemoveOwnershipIfMatches(ownership);
          Removed(before, gone, ownership, State());
          return false;
        }
        Sleep(before);
        polls := polls - 1;
      }
      ghost var late := State();
      var _ := StopOwnedProcess(ownership);
      WaitsOn(before, late, ownership, State());
      healthy := false;
    }

    /** Time passes since `before`. */
    method Sleep(ghost before: World)
      requires Timely(State()) && Interfered(before, State())
      modifies this
      ensures Timely(State()) && Interfered(before, State())
    {
      ghost var now := State();
      Meanwhile();
      InterferedTwice(before, now, State());
    }

    /** Signals the process and waits for it to go; the record goes only after the process has. */
    method StopOwnedProcess(ownership: Record) returns (stopped: bool)
      requires Timely(State()) && record == Some(ownership)
      modifies this
      ensures Timely(State()) && WaitEnds(old(State()), ownership, State())
      ensures stopped ==> record == None
    {
      ghost var before := State();
      if !Matches(State(), ownership) {
        return false;
      }
      var refused: bool := *;
      if refused {
        return false;
      }
      var exited;
      exited, stopped := AwaitExit(ownership);
      if !exited {
        var refusedAgain: bool := *;
        if Matches(State(), ownership) && refusedAgain {
          return false;
        }
        ghost var signalled := State();
        exited, stopped := AwaitExit(ownership);
        WaitsOn(before, signalled, ownership, State());
      }
    }

    /** A signal has been sent: what it does is a process exit like any other. */
    method AwaitExit(ownership: Record) returns (exited: bool, removed: bool)
      requires Timely(State()) && record == Some(ownership)
      modifies this
      ensures Timely(State()) && WaitEnds(old(State()), ownership, State())
      ensures !exited ==> Interfered(old(State()), State()) && !removed
      ensures removed ==> record == None
    {
      ghost var before := State();
      var polls: nat := *;
      while polls > 0
        invariant Timely(State()) && Interfered(before, State())
        decreases polls
      {
        if !Matches(State(), ownership) {
          exited := true;
          ghost var gone := State();
          removed := RemoveOwnershipIfMatches(ownership);
          Removed(before, gone, ownership, State());
          return;
        }
        Sleep(before);
        polls := polls - 1;
      }
      exited, removed := false, false;
    }

    /** Stops the recorded bridge, or clears a record whose process is gone. */
    method StopLocked() returns (ok: bool)
      requires Timely(State())
      modifies this
      ensures Timely(State())
      ensures if old(record).Some? then WaitEnds(old(State()), old(record).value, State()) else State() == old(State())
      ensures ok ==> record == None
      ensures old(record).Some? && old(record).value.workspace != workspace ==> !ok && State() == old(State())
      ensures Managed(old(State()), workspace) ==> Managed(State(), workspace) && (ok ==> NoBridge(State()))
    {
      ghost var before := State();
      var unreadable: bool := *;
      if unreadable {
        return false;
      }
      if record.None? {
        var foreign: bool := *;
        return !foreign;
      }
      var ownership := record.value;
      ok := StopRecorded(ownership);
      if Managed(before, workspace) {
        WaitKeepsManaged(before, ownership, State(), workspace);
      }
    }

    method StopRecorded(ownership: Record) returns (ok: bool)
      requires Timely(State()) && record == Some(ownership)
      modifies this
      ensures Timely(State()) && WaitEnds(old(State()), ownership, State())
      ensures ok ==> record == None
      ensures ownership.workspace != workspace ==> !ok && State() == old(State())
    {
      ghost var before := State();
      if ownership.workspace != workspace {
        return false;
      }
      Meanwhile();
      ghost var looked := State();
      if !Matches(State(), ownership) {
        ok := RemoveOwnershipIfMatches(ownership);
        Removed(before, looked, ownership, State());
        var foreign: bool := *;
        ok := ok && !foreign;
        return;
      }
      ok := StopOwnedProcess(ownership);
      WaitsOn(before, looked, ownership, State());
    }

    /** A restart stops what is recorded first, so its start needs no first check. */
    method Restart(executable: Name, config: Name) returns (started: bool)
      requires Timely(State())
      modifies this
      ensures Timely(State())
      ensures Managed(old(State()), workspace) ==> Managed(State(), workspace)
    {
      ghost var managed := Managed(State(), workspace);
      var unreadable: bool := *;
      if unreadable {
        return false;
      }
      if record.Some? {
        var stopped := StopLocked();
        if !stopped {
          return false;
        }
      }
      ghost var idle := State();
      Meanwhile();
      if managed {
        ManagedThroughInterference(idle, State(), workspace);
      }
      var readable;
      started, readable := StartLocked(executable, config);
    }

    /**
     Any sequence of calls, each holding the transition lease, with the world going on in between:
     the rule holds as long as the first check of every start could read what it needs.
     */
    method Serve(calls: seq<Call>) returns (readable: bool)
      requires Managed(State(), workspace)
      modifies this
      ensures readable ==> Managed(State(), workspace)
    {
      readable := true;
      var i := 0;
      while i < |calls|
        invariant Timely(State()) && (readable ==> Managed(State(), workspace))
      {
        ghost var idle := State();
        Meanwhile();
        if readable {
          ManagedThroughInterference(idle, State(), workspace);
        }
        match calls[i] {
          case Start(executable, config) =>
            var started, checked := StartLocked(executable, config);
            readable := readable && checked;
          case Stop => var _ := StopLocked();
          case RestartCall(executable, config) => var _ := Restart(executable, config);
        }
        i := i + 1;
      }
    }
  }

  datatype Call = Start(executable: Name, config: Name) | Stop | RestartCall(executable: Name, config: Name)
}
