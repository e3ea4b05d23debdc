/**
 * From compiling a task to its last run: the compiled units are stored, workers run them, and
 * the parent is summarised (war_room_orchestration.py, compile_and_persist and workflow_summary).
 */
module Workflows {
  import opened Wrappers
  import opened Graphs
  import opened ExecutionCompiler
  import opened ExecutionUnits
  import opened ExecutionReadiness
  import opened Scheduler

  /** What a caller asks to be compiled; `factory` hands out the execution ids. */
  datatype Intent = Intent(
    project: string,
    task: string,
    agents: seq<string>,
    correlation: string,
    workflow: Option<map<string, Entry>>,
    factory: nat -> string)

  datatype PersistError =
    | AlreadyCompiled
    | UnknownAgent(agent: string)
    | Refused(compile: CompileError)
    | NotStored(store: StoreError)

  ghost predicate Accepted(c: Intent) {
    Compilable(c.project, c.task, c.agents, c.correlation, c.workflow, c.factory)
  }

  ghost predicate UnitsOf(units: seq<ExecutionUnit>, c: Intent) {
    CompiledFrom(units, c.agents, c.correlation, c.workflow, c.factory)
  }

  /** None of the ids that the intent will use is taken. */
  ghost predicate FreshIds(table: Table, c: Intent) {
    forall i :: 0 <= i < Count(c.agents) ==> c.factory(i) !in table
  }

  function NewRow(u: ExecutionUnit, c: Intent, now: int): NewUnit {
    NewUnit(u.executionId, UnitRow(c.project, c.task, u.correlationId, u.agentId, u.role, u.dependsOn, None, None, now))
  }

  /** The rows that persisting `units` inserts. */
  function NewRows(units: seq<ExecutionUnit>, c: Intent, now: int): (news: seq<NewUnit>)
    ensures |news| == |units| && forall k :: 0 <= k < |units| ==> news[k] == NewRow(units[k], c, now)
  {
    seq(|units|, k requires 0 <= k < |units| => NewRow(units[k], c, now))
  }

  function Stored(table: Table, units: seq<ExecutionUnit>, c: Intent, now: int): Table {
    Inserted(table, NewRows(units, c, now))
  }

  /** The table takes the compiled units of a task that has none yet. */
  ghost predicate Storable(table: Table, units: seq<ExecutionUnit>, c: Intent) {
    Accepted(c) && UnitsOf(units, c) && FreshIds(table, c) && !WorkflowPresent(table, c.project, c.task)
  }

  lemma StorableIsFreshBatch(table: Table, units: seq<ExecutionUnit>, c: Intent, now: int)
    requires Accepted(c) && UnitsOf(units, c)
    ensures FreshBatch(table, NewRows(units, c, now)) <==> FreshIds(table, c)
  {
    var news := NewRows(units, c, now);
    CountDistinct(c.agents, AgentsOf(units));
    forall i | 0 <= i < |units|
      ensures news[i].id == c.factory(i)
    {
      assert UnitFor(units, i, c.correlation, c.workflow, c.factory);
    }
  }

  /** The table has gained one unclaimed row for each unit, with the unit's own columns, and nothing else. */
  ghost predicate StoredAs(table: Table, after: Table, units: seq<ExecutionUnit>, c: Intent, now: int) {
    && (forall id :: id in table ==> id in after && after[id] == table[id])
    && (forall k :: 0 <= k < |units| ==>
          var u := units[k];
          u.executionId in after && after[u.executionId] ==
            UnitRow(c.project, c.task, c.correlation, u.agentId, u.role, u.dependsOn, None, None, now))
    && forall id :: id in after && id !in table ==> exists k :: 0 <= k < |units| && units[k].executionId == id
  }

  lemma AddedIsStored(table: Table, after: Table, units: seq<ExecutionUnit>, c: Intent, now: int)
    requires UnitsOf(units, c) && RowsAdded(table, after, NewRows(units, c, now))
    ensures StoredAs(table, after, units, c, now)
  {
    var news := NewRows(units, c, now);
    forall k | 0 <= k < |units|
      ensures news[k].id == units[k].executionId && units[k].correlationId == c.correlation
    {
      assert UnitFor(units, k, c.correlation, c.workflow, c.factory);
    }
    forall id | id in after && id !in table ensures exists k :: 0 <= k < |units| && units[k].executionId == id {
      var k :| 0 <= k < |news| && news[k].id == id;
      assert units[k].executionId == id;
    }
  }

  ghost predicate AllKnown(agents: seq<string>, known: set<string>) {
    forall a :: a in agents ==> a in known
  }

  /** Why an intent is not stored; the checks go in this order. */
  ghost predicate PersistFault(e: PersistError, table: Table, projects: set<string>, tasks: set<string>,
                               known: set<string>, c: Intent)
  {
    match e
    case AlreadyCompiled => WorkflowPresent(table, c.project, c.task)
    case UnknownAgent(a) =>
      && !WorkflowPresent(table, c.project, c.task)
      && exists k :: 0 <= k < |c.agents| && c.agents[k] == a && a !in known && AllKnown(c.agents[..k], known)
    case Refused(why) =>
      && !WorkflowPresent(table, c.project, c.task) && AllKnown(c.agents, known)
      && Justified(why, c.project, c.task, c.agents, c.correlation, c.workflow, c.factory)
    case NotStored(_) =>
      && !WorkflowPresent(table, c.project, c.task) && AllKnown(c.agents, known) && Accepted(c)
      && !(FreshIds(table, c) && c.project in projects && c.task in tasks)
  }

  /** Compiles one intent and stores all of its units, or none. */
  method CompileAndPersist(store: ExecutionUnitStore, known: set<string>, c: Intent, now: int)
    returns (r: Result<seq<ExecutionUnit>, PersistError>)
    modifies store`units
    ensures r.Success? <==>
            && AllKnown(c.agents, known)
            && Accepted(c) && FreshIds(old(store.units), c) && !WorkflowPresent(old(store.units), c.project, c.task)
            && c.project in store.projects && c.task in store.tasks
    ensures r.Success? ==> UnitsOf(r.value, c) && StoredAs(old(store.units), store.units, r.value, c, now)
    ensures r.Success? ==>
              Storable(old(store.units), r.value, c) && store.units == Stored(old(store.units), r.value, c, now)
    ensures r.Failure? ==>
              && store.units == old(store.units)
              && PersistFault(r.error, store.units, store.projects, store.tasks.Keys, known, c)
  {
    if exists id :: id in store.units && store.units[id].project == c.project && store.units[id].task == c.task {
      return Failure(AlreadyCompiled);
    }
    for k := 0 to |c.agents|
      invariant AllKnown(c.agents[..k], known)
    {
      if c.agents[k] !in known {
        return Failure(UnknownAgent(c.agents[k]));
      }
    }
    assert c.agents[..|c.agents|] == c.agents;
    var compiled := CompileTaskIntent(c.project, c.task, c.agents, c.correlation, c.workflow, c.factory);
    if compiled.Failure? {
      return Failure(Refused(compiled.error));
    }
    r := Persist(store, compiled.value, c, now);
  }

  method Persist(store: ExecutionUnitStore, units: seq<ExecutionUnit>, c: Intent, now: int)
    returns (r: Result<seq<ExecutionUnit>, PersistError>)
    requires Accepted(c) && UnitsOf(units, c) && !WorkflowPresent(store.units, c.project, c.task)
    modifies store`units
    ensures r.Success? <==> FreshIds(old(store.units), c) && c.project in store.projects && c.task in store.tasks
    ensures r.Success? ==> r.value == units && StoredAs(old(store.units), store.units, units, c, now)
    ensures r.Success? ==> store.units == Stored(old(store.units), units, c, now)
    ensures r.Failure? ==> r.error.NotStored? && store.units == old(store.units)
  {
    var news := NewRows(units, c, now);
    ghost var before := store.units;
    StorableIsFreshBatch(before, units, c, now);
    assert c.agents[0] in AgentsOf(units);
    assert forall k :: 0 <= k < |news| ==> news[k].row.project == c.project && news[k].row.task == c.task;
    assert 0 < |news|;
    var created := store.CreateUnits(news, true);
    if created.Failure? {
      return Failure(NotStored(created.error));
    }
    AddedIsInserted(before, store.units, news);
    AddedIsStored(before, store.units, units, c, now);
    return Success(units);
  }

  /** The dependency graph of one task's units. */
  ghost function TaskGraph(table: Table, project: string, task: string): Graph {
    map id | id in table && table[id].project == project && table[id].task == task :: table[id].dependsOn
  }

  /** No dependency crosses from one task to another, and there is no cycle. */
  ghost predicate Sound(table: Table) {
    Acyclic(TableGraph(table)) && forall p, t :: Closed(TaskGraph(table, p, t))
  }

  lemma TaskIsPart(table: Table, project: string, task: string)
    ensures PartOf(TaskGraph(table, project, task), TableGraph(table))
  {
  }

  lemma SoundIsClosed(table: Table)
    requires Sound(table)
    ensures Closed(TableGraph(table))
  {
    forall n, d | n in TableGraph(table) && d in TableGraph(table)[n]
      ensures d in TableGraph(table)
    {
      var part := TaskGraph(table, table[n].project, table[n].task);
      assert Closed(part) && n in part && d in part[n];
      assert d in part;
    }
  }

  /** The table has grown by one row for each unit. */
  ghost predicate GrownBy(table: Table, after: Table, units: seq<ExecutionUnit>, c: Intent) {
    && (forall id :: id in table ==> id in after && after[id] == table[id])
    && (forall id :: id in after && id !in table ==>
          after[id].project == c.project && after[id].task == c.task && after[id].coreRunId.None?)
    && (forall id :: id in after && id !in table ==> exists k :: 0 <= k < |units| && units[k].executionId == id)
    && forall k :: 0 <= k < |units| ==>
         var id := units[k].executionId; id !in table && id in after && after[id].dependsOn == units[k].dependsOn
  }

  lemma StoredGrows(table: Table, units: seq<ExecutionUnit>, c: Intent, now: int)
    requires Storable(table, units, c)
    ensures GrownBy(table, Stored(table, units, c, now), units, c)
  {
    var news := NewRows(units, c, now);
    StorableIsFreshBatch(table, units, c, now);
    InsertedRows(table, news);
    var after := Inserted(table, news);
    forall id | id in after && id !in table
      ensures after[id].project == c.project && after[id].task == c.task && after[id].coreRunId.None?
      ensures exists k :: 0 <= k < |units| && units[k].executionId == id
    {
      var k :| 0 <= k < |news| && news[k].id == id;
      assert news[k] == NewRow(units[k], c, now);
    }
    forall k | 0 <= k < |units|
      ensures units[k].executionId !in table && units[k].executionId in after
      ensures after[units[k].executionId].dependsOn == units[k].dependsOn
    {
      assert news[k] == NewRow(units[k], c, now);
    }
  }

  /** Inserting the units adds them as the graph of their task and leaves all other tasks alone. */
  lemma GrownGraphs(table: Table, after: Table, units: seq<ExecutionUnit>, c: Intent)
    requires GrownBy(table, after, units, c) && !WorkflowPresent(table, c.project, c.task)
    ensures IsUnitGraph(TaskGraph(after, c.project, c.task), units)
    ensures PartOf(TableGraph(table), TableGraph(after))
    ensures TableGraph(after).Keys == TableGraph(table).Keys + TaskGraph(after, c.project, c.task).Keys
  {
  }

  lemma SameTaskGraph(table: Table, after: Table, p: string, t: string)
    requires forall id :: id in table ==> id in after && after[id] == table[id]
    requires forall id :: id in after && id !in table ==> (after[id].project, after[id].task) != (p, t)
    ensures TaskGraph(after, p, t) == TaskGraph(table, p, t)
  {
  }

  /** Storing a compiled workflow keeps the unit table acyclic and every task closed. */
  lemma StoringKeepsSound(table: Table, units: seq<ExecutionUnit>, c: Intent, now: int)
    requires Sound(table) && Storable(table, units, c)
    ensures Sound(Stored(table, units, c, now))
  {
    var after := Stored(table, units, c, now);
    var added := TaskGraph(after, c.project, c.task);
    StoredGrows(table, units, c, now);
    GrownGraphs(table, after, units, c);
    TaskIsPart(after, c.project, c.task);
    CompiledGraphIsAcyclic(units, added, c.project, c.task, c.agents, c.correlation, c.workflow, c.factory);
    SoundIsClosed(table);
    UnionIsAcyclic(TableGraph(table), added, TableGraph(after));
    forall p, t
      ensures Closed(TaskGraph(after, p, t))
    {
      if (p, t) != (c.project, c.task) { SameTaskGraph(table, after, p, t); }
    }
  }

  /** Compilations are persisted while workers and runs are active. */
  datatype SystemEvent =
    | Persist(intent: Intent, units: seq<ExecutionUnit>, now: int)
    | Work(event: Event)

  ghost function SystemStep(s: State, e: SystemEvent): State {
    match e
    case Persist(c, units, now) =>
      if Storable(s.units, units, c) then s.(units := Stored(s.units, units, c, now)) else s
    case Work(event) => Step(s, event)
  }

  /** The engine may know runs of others, but no unit is stored yet. */
  ghost function SystemRun(registry: Registry, events: seq<SystemEvent>): State {
    if |events| == 0 then State(map[], registry, {}, [], [])
    else SystemStep(SystemRun(registry, events[..|events| - 1]), events[|events| - 1])
  }

  lemma StoringKeepsInv(s: State, units: seq<ExecutionUnit>, c: Intent, now: int)
    requires Inv(s) && Storable(s.units, units, c)
    ensures Inv(s.(units := Stored(s.units, units, c, now)))
  {
    var after := s.(units := Stored(s.units, units, c, now));
    StoredGrows(s.units, units, c, now);
    LargerTableKeepsInv(s, after);
  }

  /** Units without a run, put beside the old ones, disturb nothing. */
  lemma LargerTableKeepsInv(s: State, after: State)
    requires Inv(s) && after == s.(units := after.units)
    requires forall id :: id in s.units ==> id in after.units && after.units[id] == s.units[id]
    requires forall id :: id in after.units && id !in s.units ==> after.units[id].coreRunId.None?
    ensures Inv(after)
  {
    forall id | DepsSucceeded(s, id)
      ensures DepsSucceeded(after, id)
    {
      forall d | d in s.units[id].dependsOn ensures Succeeded(after, d) { assert Succeeded(s, d); }
    }
    var g, h := TableGraph(s.units), TableGraph(after.units);
    forall i, d | 0 <= i < |s.started| && d in h[s.started[i]]
      ensures d in s.started[..i]
    {
      assert d in g[s.started[i]];
    }
  }

  /** What holds in every state that compilations, workers and runs lead to from empty tables. */
  lemma {:induction false} SystemKeepsInv(registry: Registry, events: seq<SystemEvent>)
    ensures Inv(SystemRun(registry, events)) && Sound(SystemRun(registry, events).units)
  {
    if |events| == 0 {
      assert FinishOrder(map[], []);
    } else {
      var before, e := events[..|events| - 1], events[|events| - 1];
      SystemKeepsInv(registry, before);
      var s := SystemRun(registry, before);
      match e
      case Persist(c, units, now) =>
        if Storable(s.units, units, c) {
          StoringKeepsInv(s, units, c, now);
          StoringKeepsSound(s.units, units, c, now);
        }
      case Work(event) =>
        StepKeepsInv(s, event);
        WorkKeepsSound(s, event);
    }
  }

  /** Workers change neither a unit's task nor its dependencies. */
  lemma WorkKeepsSound(s: State, e: Event)
    requires Inv(s) && Sound(s.units)
    ensures Sound(Step(s, e).units)
  {
    StepIsStable(s, e);
    forall p, t
      ensures Closed(TaskGraph(Step(s, e).units, p, t))
    {
      SameTasks(s, e);
      assert TaskGraph(Step(s, e).units, p, t) == TaskGraph(s.units, p, t);
    }
  }

  lemma SameTasks(s: State, e: Event)
    ensures Step(s, e).units.Keys == s.units.Keys
    ensures forall id :: id in s.units ==>
              var row := Step(s, e).units[id];
              row.project == s.units[id].project && row.task == s.units[id].task
                && row.dependsOn == s.units[id].dependsOn
  {
  }

  /** Whatever is compiled meanwhile: what a started unit depends on, near or far, is in PASS. */
  lemma SystemStartsRestOnPasses(registry: Registry, events: seq<SystemEvent>, id: string, dep: string)
    requires var s := SystemRun(registry, events);
             id in s.units && s.units[id].coreRunId.Some? && Reaches(TableGraph(s.units), id, dep)
    ensures Succeeded(SystemRun(registry, events), dep)
  {
    SystemKeepsInv(registry, events);
    var s := SystemRun(registry, events);
    var p :| IsWalkBetween(TableGraph(s.units), p, id, dep);
    RunNeedsAncestors(s, p, |p| - 1);
  }

  lemma SystemClaimsOnce(registry: Registry, events: seq<SystemEvent>, j: nat, k: nat)
    requires j < k < |SystemRun(registry, events).wins|
    ensures SystemRun(registry, events).wins[j].1 != SystemRun(registry, events).wins[k].1
  {
    SystemKeepsInv(registry, events);
  }

  /** The units of one task alone. */
  ghost function OnlyTask(s: State, project: string, task: string): State {
    s.(units := map id | id in s.units && s.units[id].project == project && s.units[id].task == task :: s.units[id])
  }

  lemma TaskGraphIsSound(table: Table, project: string, task: string)
    requires Sound(table)
    ensures Closed(TaskGraph(table, project, task)) && Acyclic(TaskGraph(table, project, task))
  {
    var g := TaskGraph(table, project, task);
    TaskIsPart(table, project, task);
    forall n | n in g
      ensures !Reaches(g, n, n)
    {
      if Reaches(g, n, n) { PartWalks(g, TableGraph(table), n, n); }
    }
  }

  /** Nothing that a unit's readiness looks at lies outside its task. */
  lemma TaskStandsAlone(s: State, project: string, task: string, id: string)
    requires Closed(TaskGraph(s.units, project, task)) && InTask(s, project, task, id)
    ensures var o := OnlyTask(s, project, task);
            && id in o.units
            && DependencyOutcome(o.units, o.registry, id) == DependencyOutcome(s.units, s.registry, id)
            && ReadinessOf(o.units, o.registry, id) == ReadinessOf(s.units, s.registry, id)
  {
    var o, g := OnlyTask(s, project, task), TaskGraph(s.units, project, task);
    assert id in g && g[id] == o.units[id].dependsOn == s.units[id].dependsOn;
    forall d | d in g[id]
      ensures DependencyOutcome(o.units, o.registry, d) == DependencyOutcome(s.units, s.registry, d)
    {
      assert d in g && d in o.units;
    }
  }

  lemma PartWalks(part: Graph, g: Graph, a: string, b: string)
    requires PartOf(part, g) && Reaches(part, a, b)
    ensures Reaches(g, a, b)
  {
    var p :| IsWalkBetween(part, p, a, b);
    assert IsWalkBetween(g, p, a, b);
  }

  ghost predicate InTask(s: State, project: string, task: string, id: string) {
    id in s.units && s.units[id].project == project && s.units[id].task == task
  }

  /** No unit of the task is READY or active. */
  ghost predicate TaskQuiet(s: State, project: string, task: string) {
    forall id :: InTask(s, project, task, id) ==> Quiet(s, id)
  }

  ghost predicate NothingLostIn(s: State, project: string, task: string) {
    forall id :: InTask(s, project, task, id) ==> !Lost(s, id)
  }

  /** The unit depends on a lost unit of the same task. */
  ghost predicate BehindLoss(s: State, project: string, task: string, id: string) {
    exists lost :: InTask(s, project, task, lost) && Lost(s, lost)
      && Reaches(TaskGraph(s.units, project, task), id, lost)
  }

  /**
   * The joint guarantee of compiler, store and scheduler. Compile and store any intents, let
   * any workers act meanwhile, and look at one task when none of its units is READY or active,
   * whatever the other tasks do: each of its units that never ran depends on a lost one of the
   * same task, and when none of them was lost they have all passed.
   */
  lemma CompiledWorkflowsNeverStick(registry: Registry, events: seq<SystemEvent>, project: string, task: string,
                                    s: State)
    requires s == SystemRun(registry, events) && TaskQuiet(s, project, task)
    ensures forall id :: InTask(s, project, task, id) && NoRun(s.units[id].coreRunId) ==>
              BehindLoss(s, project, task, id)
    ensures NothingLostIn(s, project, task) ==> forall id :: InTask(s, project, task, id) ==> Succeeded(s, id)
  {
    SystemKeepsInv(registry, events);
    TaskGraphIsSound(s.units, project, task);
    var o, g := OnlyTask(s, project, task), TaskGraph(s.units, project, task);
    assert TableGraph(o.units) == g;
    TaskLooksTheSame(s, o, project, task);
    StuckOnlyByLoss(o);
    LossLiesInTask(s, o, project, task);
  }

  lemma TaskLooksTheSame(s: State, o: State, project: string, task: string)
    requires o == OnlyTask(s, project, task) && Closed(TaskGraph(s.units, project, task))
    ensures forall id :: InTask(s, project, task, id) <==> id in o.units
    ensures forall id :: id in o.units ==> (Lost(o, id) <==> Lost(s, id)) && (Succeeded(o, id) <==> Succeeded(s, id))
    ensures forall id :: id in o.units ==> o.units[id] == s.units[id]
    ensures TaskQuiet(s, project, task) ==> Quiescent(o)
  {
    forall id | id in o.units
      ensures (Lost(o, id) <==> Lost(s, id)) && (Succeeded(o, id) <==> Succeeded(s, id))
      ensures Quiet(s, id) ==> Quiet(o, id)
    {
      TaskStandsAlone(s, project, task, id);
    }
  }

  lemma LossLiesInTask(s: State, o: State, project: string, task: string)
    requires o.units.Keys == TaskGraph(s.units, project, task).Keys
    requires forall id :: id in o.units ==> (Lost(o, id) <==> Lost(s, id))
    ensures forall id, lost :: Lost(o, lost) && Reaches(TaskGraph(s.units, project, task), id, lost) ==>
              BehindLoss(s, project, task, id)
  {
    var g := TaskGraph(s.units, project, task);
    forall id, lost | Lost(o, lost) && Reaches(g, id, lost)
      ensures BehindLoss(s, project, task, id)
    {
      var p :| IsWalkBetween(g, p, id, lost);
      assert lost in g && lost in o.units;
      assert InTask(s, project, task, lost) && Lost(s, lost);
    }
  }

  datatype ParentStatus = ParentRunning | ParentCompleted | ParentFailed | ParentBlocked

  /** The child is active, or has no run and may still get one. */
  ghost predicate Runnable(s: State, id: string)
    requires id in s.units
  {
    || ReadsActive(s.registry, s.units[id].coreRunId)
    || (NoRun(s.units[id].coreRunId) && !SomeBars(s.units, s.registry, s.units[id].dependsOn))
  }

  /** The child has a run of which the engine cannot tell. */
  ghost predicate Unresolved(s: State, id: string)
    requires id in s.units
  {
    ReadsNothing(s.registry, s.units[id].coreRunId) || Reads(s.registry, s.units[id].coreRunId, Other("NOT_FOUND"))
  }

  /** Observers do not decide the parent's outcome. */
  ghost predicate Required(s: State, id: string)
    requires id in s.units
  {
    s.units[id].role != "observer"
  }

  ghost predicate PassedChild(s: State, id: string)
    requires id in s.units
  {
    Reads(s.registry, s.units[id].coreRunId, Pass)
  }

  ghost predicate FailedChild(s: State, id: string)
    requires id in s.units
  {
    || Reads(s.registry, s.units[id].coreRunId, Fail) || Reads(s.registry, s.units[id].coreRunId, TimedOut)
    || Reads(s.registry, s.units[id].coreRunId, Cancelled)
  }

  ghost predicate SomeMoves(s: State, ids: seq<string>)
    requires forall id :: id in ids ==> id in s.units
  {
    exists id :: id in ids && (Runnable(s, id) || Unresolved(s, id))
  }

  ghost predicate AllRequiredPassed(s: State, ids: seq<string>)
    requires forall id :: id in ids ==> id in s.units
  {
    && (exists id :: id in ids && Required(s, id))
    && forall id :: id in ids && Required(s, id) ==> PassedChild(s, id)
  }

  ghost predicate AnyRequiredFailed(s: State, ids: seq<string>)
    requires forall id :: id in ids ==> id in s.units
  {
    exists id :: id in ids && Required(s, id) && FailedChild(s, id)
  }

  /** The status column of one child: its run's status, or none. */
  function ChildStatus(s: State, id: string): Option<RunStatus>
    requires id in s.units
  {
    if HasRun(s.units[id].coreRunId) then Some(QueryRunStatus(s.registry, s.units[id].coreRunId.value)) else None
  }

  /** What the loop makes of one child. */
  method Summarised(s: State, id: string) returns (runnable: bool, unresolved: bool, passed: bool, failed: bool)
    requires id in s.units
    ensures runnable == Runnable(s, id) && unresolved == Unresolved(s, id)
    ensures passed == PassedChild(s, id) && failed == FailedChild(s, id)
  {
    var status, readiness := ChildStatus(s, id), ReadinessOf(s.units, s.registry, id);
    ReadinessMeans(s.units, s.registry, id);
    runnable := status == Some(Queued) || status == Some(Running) || readiness == READY || readiness == WAITING;
    unresolved := status == Some(Unknown) || status == Some(Other("NOT_FOUND"));
    passed := status == Some(Pass);
    failed := status == Some(Fail) || status == Some(TimedOut) || status == Some(Cancelled);
  }

  /** The parent status derived from all children. */
  method WorkflowSummary(s: State, ids: seq<string>) returns (status: ParentStatus)
    requires ids != [] && forall id :: id in ids ==> id in s.units
    ensures status == ParentRunning <==> SomeMoves(s, ids)
    ensures status == ParentCompleted <==> !SomeMoves(s, ids) && AllRequiredPassed(s, ids)
    ensures status == ParentFailed <==> !SomeMoves(s, ids) && !AllRequiredPassed(s, ids) && AnyRequiredFailed(s, ids)
  {
    var moves, required, allPassed, anyFailed := false, false, true, false;
    for k := 0 to |ids|
      invariant moves <==> SomeMoves(s, ids[..k])
      invariant required <==> exists id :: id in ids[..k] && Required(s, id)
      invariant allPassed <==> forall id :: id in ids[..k] && Required(s, id) ==> PassedChild(s, id)
      invariant anyFailed <==> AnyRequiredFailed(s, ids[..k])
    {
      var id := ids[k];
      assert ids[..k + 1] == ids[..k] + [id];
      assert ids[..k + 1][k] == id && id in ids[..k + 1];
      var runnable, unresolved, passed, failed := Summarised(s, id);
      moves := moves || runnable || unresolved;
      if s.units[id].role != "observer" {
        required := true;
        assert Required(s, id);
        allPassed := allPassed && passed;
        anyFailed := anyFailed || failed;
      }
    }
    assert ids[..|ids|] == ids;
    return if moves then ParentRunning
           else if required && allPassed then ParentCompleted
           else if anyFailed then ParentFailed
           else ParentBlocked;
  }

  /** The unit never ran and none of its own dependencies is lost or missing. */
  ghost predicate WaitsInVain(s: State, id: string) {
    id in s.units && NoRun(s.units[id].coreRunId)
    && forall d :: d in s.units[id].dependsOn ==> !Bars(s.units, s.registry, d)
  }

  /** In a quiescent state exactly the units that wait in vain still read READY or WAITING. */
  lemma RunnableIsWaitingInVain(s: State, id: string)
    requires id in s.units && Quiet(s, id)
    ensures Runnable(s, id) <==> WaitsInVain(s, id)
  {
  }

  /**
   * The unit never ran, none of its own dependencies is lost, and a lost unit of its task lies
   * at least two steps away.
   */
  ghost predicate FarBehindLoss(s: State, project: string, task: string, id: string) {
    && InTask(s, project, task, id) && NoRun(s.units[id].coreRunId)
    && (forall d :: d in s.units[id].dependsOn ==> !Lost(s, d))
    && exists lost, walk :: InTask(s, project, task, lost) && Lost(s, lost) && |walk| >= 3
                            && IsWalkBetween(TaskGraph(s.units, project, task), walk, id, lost)
  }

  /** Waiting in vain, in a closed task where every unit that never ran depends on a lost one. */
  lemma WaitsInVainIff(s: State, project: string, task: string, id: string)
    requires Closed(TaskGraph(s.units, project, task)) && InTask(s, project, task, id)
    requires NoRun(s.units[id].coreRunId) ==> BehindLoss(s, project, task, id)
    ensures WaitsInVain(s, id) <==> FarBehindLoss(s, project, task, id)
  {
    var g := TaskGraph(s.units, project, task);
    assert id in g && g[id] == s.units[id].dependsOn;
    forall d | d in s.units[id].dependsOn
      ensures Bad(DependencyOutcome(s.units, s.registry, d)) <==> Lost(s, d)
    {
      assert d in g && d in s.units;
    }
    if WaitsInVain(s, id) {
      var lost :| InTask(s, project, task, lost) && Lost(s, lost) && Reaches(g, id, lost);
      var walk :| IsWalkBetween(g, walk, id, lost);
      LongWalk(g, walk, id, lost);
    }
  }

  /** A walk to what is no direct dependency takes at least two steps. */
  lemma LongWalk(g: Graph, walk: seq<string>, a: string, b: string)
    requires IsWalkBetween(g, walk, a, b) && b !in g[a]
    ensures |walk| >= 3
  {
  }

  /**
   * When nothing of a task can happen any more its parent should be terminal. The summary keeps
   * it RUNNING exactly when a status cannot be told, or some unit that never ran is cut off by a
   * loss that is not among its own dependencies: such a unit still reads WAITING.
   */
  lemma ParentStaysRunningIff(registry: Registry, events: seq<SystemEvent>, project: string, task: string, s: State,
                              ids: seq<string>)
    requires s == SystemRun(registry, events) && TaskQuiet(s, project, task)
    requires forall id :: id in ids <==> InTask(s, project, task, id)
    ensures (exists id :: id in ids && (Runnable(s, id) || Unresolved(s, id))) <==>
            (exists id :: id in ids && (FarBehindLoss(s, project, task, id) || Unresolved(s, id)))
  {
    SystemKeepsInv(registry, events);
    TaskGraphIsSound(s.units, project, task);
    CompiledWorkflowsNeverStick(registry, events, project, task, s);
    forall id | id in ids
      ensures Runnable(s, id) <==> FarBehindLoss(s, project, task, id)
    {
      RunnableIsWaitingInVain(s, id);
      WaitsInVainIff(s, project, task, id);
    }
  }

  ghost predicate NoReports(events: seq<Event>) {
    forall e :: e in events ==> !e.Report?
  }

  /** The units read alike: readiness, runs and run statuses are the same. */
  ghost predicate ReadsAlike(s: State, t: State) {
    && s.units.Keys == t.units.Keys && s.registry == t.registry
    && forall id :: id in s.units ==>
         s.units[id].dependsOn == t.units[id].dependsOn && s.units[id].coreRunId == t.units[id].coreRunId
  }

  lemma AlikeReads(s: State, t: State, id: string)
    requires ReadsAlike(s, t) && id in s.units
    ensures Runnable(t, id) == Runnable(s, id) && Unresolved(t, id) == Unresolved(s, id) && Quiet(t, id) == Quiet(s, id)
  {
    assert forall d :: DependencyOutcome(t.units, t.registry, d) == DependencyOutcome(s.units, s.registry, d);
  }

  /** Workers cannot move a quiescent table: until a run reports, every parent reads as it does. */
  lemma {:induction false} QuiescentForGood(s: State, events: seq<Event>)
    requires Inv(s) && Quiescent(s) && NoReports(events)
    ensures ReadsAlike(s, Run(s, events)) && Quiescent(Run(s, events))
    ensures forall id :: id in s.units ==>
              Runnable(Run(s, events), id) == Runnable(s, id) && Unresolved(Run(s, events), id) == Unresolved(s, id)
  {
    if events != [] {
      var before, last := events[..|events| - 1], events[|events| - 1];
      assert forall e :: e in before ==> e in events;
      QuiescentForGood(s, before);
      RunKeepsInv(s, before);
      assert last in events;
      QuiescentIsFinal(Run(s, before), last);
      SameTasks(Run(s, before), last);
    }
    forall id | id in s.units
      ensures Runnable(Run(s, events), id) == Runnable(s, id) && Unresolved(Run(s, events), id) == Unresolved(s, id)
      ensures Quiet(Run(s, events), id)
    {
      AlikeReads(s, Run(s, events), id);
    }
  }

  /** A unit `id` that may start at once, `next` behind it and `last` behind `next`. */
  ghost predicate Chain(s: State, id: string, next: string, last: string) {
    && s.units.Keys == {id, next, last} && id != next && next != last && id != last
    && s.units[id].dependsOn == [] && s.units[next].dependsOn == [id] && s.units[last].dependsOn == [next]
  }

  /** The first unit of the chain has a run that has not passed; nobody has found the others READY. */
  ghost predicate Held(s: State, id: string, next: string, last: string, run: string) {
    && Chain(s, id, next, last) && HasRun(Some(run)) && s.units[id].coreRunId == Some(run)
    && run in s.registry && s.registry[run] != Pass
    && s.units[next].coreRunId.None? && s.units[last].coreRunId.None?
    && (forall w :: (w, next) !in s.seenReady && (w, last) !in s.seenReady)
    && forall w :: (w, next) !in s.wins && (w, last) !in s.wins
  }

  ghost predicate NeverPasses(events: seq<Event>, run: string) {
    Report(run, Pass) !in events
  }

  lemma HeldIsRunnable(s: State, id: string, next: string, last: string, run: string)
    requires Held(s, id, next, last, run)
    ensures Runnable(s, last)
    ensures ReadinessOf(s.units, s.registry, next) != READY && ReadinessOf(s.units, s.registry, last) != READY
  {
    assert id in s.units[next].dependsOn && DependencyOutcome(s.units, s.registry, id) != SUCCESS;
    assert next in s.units[last].dependsOn && DependencyOutcome(s.units, s.registry, next) == NOT_STARTED;
  }

  lemma StepKeepsHeld(s: State, e: Event, id: string, next: string, last: string, run: string)
    requires Held(s, id, next, last, run) && e != Report(run, Pass)
    ensures Held(Step(s, e), id, next, last, run)
  {
    HeldIsRunnable(s, id, next, last, run);
    var t := Step(s, e);
    if e.ClaimUnit? && t != s {
      forall w ensures (w, next) !in t.wins && (w, last) !in t.wins {}
    }
    assert t.units.Keys == s.units.Keys;
  }

  lemma {:induction false} HeldForGood(s: State, events: seq<Event>, id: string, next: string, last: string,
                                       run: string)
    requires Held(s, id, next, last, run) && NeverPasses(events, run)
    ensures Held(Run(s, events), id, next, last, run) && Runnable(Run(s, events), last)
  {
    if events != [] {
      var before, e := events[..|events| - 1], events[|events| - 1];
      assert e in events && forall x :: x in before ==> x in events;
      HeldForGood(s, before, id, next, last, run);
      StepKeepsHeld(Run(s, before), e, id, next, last, run);
    }
    HeldIsRunnable(Run(s, events), id, next, last, run);
  }

  /**
   * Such a parent exists for every chain of three: when its first unit fails, only the last keeps it
   * RUNNING, and goes on to do so through everything but a report that the failed run has passed.
   */
  lemma FailedChainStaysRunning(s: State, id: string, next: string, last: string, run: string)
    returns (events: seq<Event>)
    requires Initial(s) && Chain(s, id, next, last) && run != "" && run !in s.registry
    ensures var t := Run(s, events);
            && t.units.Keys == s.units.Keys && Quiescent(t)
            && !Runnable(t, id) && !Runnable(t, next) && Runnable(t, last)
    ensures forall more :: NeverPasses(more, run) ==>
              var t := Run(Run(s, events), more); last in t.units && Runnable(t, last)
  {
    events := [Evaluate(0, id), ClaimUnit(0, id, 0)] + [Start(0, id, run, Running), Report(run, Fail)];
    ChainFails(s, id, next, last, run, events);
    forall more | NeverPasses(more, run)
      ensures var t := Run(Run(s, events), more); last in t.units && Runnable(t, last)
    {
      HeldForGood(Run(s, events), more, id, next, last, run);
    }
  }

  lemma ChainFails(s: State, id: string, next: string, last: string, run: string, events: seq<Event>)
    requires Initial(s) && Chain(s, id, next, last) && run != "" && run !in s.registry
    requires events == [Evaluate(0, id), ClaimUnit(0, id, 0)] + [Start(0, id, run, Running), Report(run, Fail)]
    ensures var t := Run(s, events);
            && Held(t, id, next, last, run) && t.units.Keys == s.units.Keys && Quiescent(t)
            && !Runnable(t, id) && !Runnable(t, next) && Runnable(t, last)
  {
    var look, claim := Evaluate(0, id), ClaimUnit(0, id, 0);
    var start, report := Start(0, id, run, Running), Report(run, Fail);
    RunOfTwo(s, [], look, claim);
    assert [] + [look, claim] == [look, claim];
    RunOfTwo(s, [look, claim], start, report);
    FourSteps(s, id, run, Fail);
    FirstOfChainFails(s, id, next, last, run, Run(s, events));
  }

  lemma FirstOfChainFails(s: State, id: string, next: string, last: string, run: string, t: State)
    requires Initial(s) && Chain(s, id, next, last) && HasRun(Some(run))
    requires t.units == s.units[id := s.units[id].(claimedAt := Some(0), coreRunId := Some(run))]
    requires t.registry == s.registry[run := Fail] && t.seenReady == {(0, id)} && t.wins == [(0, id)]
    ensures Held(t, id, next, last, run) && t.units.Keys == s.units.Keys && Quiescent(t)
    ensures !Runnable(t, id) && !Runnable(t, next) && Runnable(t, last)
  {
    assert id in t.units[next].dependsOn && DependencyOutcome(t.units, t.registry, id) == FAILURE;
    assert next in t.units[last].dependsOn && DependencyOutcome(t.units, t.registry, next) == NOT_STARTED;
    assert Quiet(t, id) && Quiet(t, next) && Quiet(t, last);
  }
}
