/**
 * Workers that evaluate, claim and start execution units in any interleaving, and runs that
 * report their status (war_room_execution_units.py, war_room_execution_readiness.py and the
 * dispatch loop of war_room_orchestration.py). Each event is one atomic step.
 */
module Scheduler {
  import opened Wrappers
  import opened Graphs
  import opened ExecutionUnits
  import opened ExecutionReadiness

  type Worker = nat

  datatype State = State(
    units: Table,
    registry: Registry,
    seenReady: set<(Worker, string)>,  // what each worker's evaluations have found READY
    wins: seq<(Worker, string)>,       // successful claims, oldest first
    started: seq<string>)              // units that got a run, oldest first

  datatype Event =
    | Evaluate(worker: Worker, id: string)
    | ClaimUnit(worker: Worker, id: string, now: int)
    | Start(worker: Worker, id: string, run: string, status: RunStatus)
    | Report(run: string, status: RunStatus)

  function ReadinessOf(units: Table, registry: Registry, id: string): Readiness
    requires id in units
  {
    var row := units[id];
    if HasRun(row.coreRunId) then BLOCKED
    else if exists d :: d in row.dependsOn && Bad(DependencyOutcome(units, registry, d)) then BLOCKED
    else if forall d :: d in row.dependsOn ==> DependencyOutcome(units, registry, d) == SUCCESS then READY
    else WAITING
  }

  function ViewOf(id: string, row: UnitRow): UnitView {
    UnitView(id, row.agent, row.coreRunId, row.dependsOn, "all_success")
  }

  /** The readiness that the steps act on, in terms of the runs of the unit and its dependencies. */
  lemma ReadinessMeans(units: Table, registry: Registry, id: string)
    requires id in units
    ensures var row := units[id];
            && (ReadinessOf(units, registry, id) == READY <==>
                NoRun(row.coreRunId) && AllPassedIn(units, registry, row.dependsOn))
            && (ReadinessOf(units, registry, id) == BLOCKED <==>
                !NoRun(row.coreRunId) || SomeBars(units, registry, row.dependsOn))
  {
    forall d | d in units[id].dependsOn
      ensures Bad(DependencyOutcome(units, registry, d)) <==> Bars(units, registry, d)
      ensures DependencyOutcome(units, registry, d) == SUCCESS <==> Passed(units, registry, d)
    {
      DetailOutcome(units, registry, d);
    }
  }

  /** The evaluator's answer for a stored unit is the readiness the scheduler acts on. */
  lemma EvaluatorAgrees(units: Table, registry: Registry, id: string, e: Evaluation)
    requires id in units && Explains(units, registry, ViewOf(id, units[id]), e)
    ensures e.readiness == ReadinessOf(units, registry, id)
  {
    ReadinessMeans(units, registry, id);
  }

  function Step(s: State, e: Event): State {
    match e
    case Evaluate(w, id) =>
      if id in s.units && ReadinessOf(s.units, s.registry, id) == READY
      then s.(seenReady := s.seenReady + {(w, id)}) else s
    case ClaimUnit(w, id, now) =>
      if (w, id) in s.seenReady && Claimable(s.units, id)
      then s.(units := Claim(s.units, id, now), wins := s.wins + [(w, id)]) else s
    case Start(w, id, run, status) =>
      if (w, id) in s.wins && id in s.units && s.units[id].coreRunId.None? && run != "" && run !in s.registry
      then s.(units := WithRun(s.units, id, run), registry := s.registry[run := status], started := s.started + [id])
      else s
    case Report(run, status) =>
      if run in s.registry && s.registry[run] != Pass
      then s.(registry := s.registry[run := status]) else s
  }

  /** Each event's whole effect, read from the tables alone. */
  ghost predicate Effect(s: State, e: Event, t: State) {
    match e
    case Evaluate(w, id) =>
      && t == s.(seenReady := t.seenReady)
      && forall x :: x in t.seenReady <==>
           x in s.seenReady || (x == (w, id) && id in s.units && NoRun(s.units[id].coreRunId)
                                && AllPassedIn(s.units, s.registry, s.units[id].dependsOn))
    case ClaimUnit(w, id, now) =>
      if (w, id) in s.seenReady && id in s.units && s.units[id].coreRunId == None && s.units[id].claimedAt == None
      then
        t == s.(units := s.units[id := s.units[id].(claimedAt := Some(now))], wins := s.wins + [(w, id)])
      else t == s
    case Start(w, id, run, status) =>
      if (w, id) in s.wins && id in s.units && s.units[id].coreRunId == None && run != "" && run !in s.registry
      then
        t == s.(units := s.units[id := s.units[id].(coreRunId := Some(run))],
                registry := s.registry[run := status], started := s.started + [id])
      else t == s
    case Report(run, status) =>
      t == s.(registry := t.registry) && t.registry.Keys == s.registry.Keys
      && forall r :: r in s.registry ==>
           t.registry[r] == if r == run && s.registry[r] != Pass then status else s.registry[r]
  }

  lemma StepMeans(s: State, e: Event)
    ensures Effect(s, e, Step(s, e))
  {
    if e.Evaluate? && e.id in s.units { ReadinessMeans(s.units, s.registry, e.id); }
  }

  function Run(s: State, events: seq<Event>): State {
    if events == [] then s else Step(Run(s, events[..|events| - 1]), events[|events| - 1])
  }

  /** A freshly persisted workflow: no unit is claimed, none has a run. */
  ghost predicate Initial(s: State) {
    && (forall id :: id in s.units ==> s.units[id].coreRunId.None? && s.units[id].claimedAt.None?)
    && s.seenReady == {} && s.wins == [] && s.started == []
  }

  ghost predicate Succeeded(s: State, id: string) {
    id in s.units && Reads(s.registry, s.units[id].coreRunId, Pass)
  }

  ghost predicate DepsSucceeded(s: State, id: string) {
    id in s.units && forall d :: d in s.units[id].dependsOn ==> Succeeded(s, d)
  }

  ghost predicate Inv(s: State) {
    && (forall w, id :: (w, id) in s.seenReady ==> DepsSucceeded(s, id))
    && (forall k :: 0 <= k < |s.wins| ==> DepsSucceeded(s, s.wins[k].1) && s.units[s.wins[k].1].claimedAt.Some?)
    && (forall j, k :: 0 <= j < k < |s.wins| ==> s.wins[j].1 != s.wins[k].1)
    && (forall id :: id in s.units && s.units[id].coreRunId.Some? ==>
          HasRun(s.units[id].coreRunId) && DepsSucceeded(s, id) && id in s.started)
    && (forall id :: id in s.started ==> id in s.units && s.units[id].coreRunId.Some?)
    && FinishOrder(TableGraph(s.units), s.started)
  }

  lemma StepKeepsGraph(s: State, e: Event)
    ensures TableGraph(Step(s, e).units) == TableGraph(s.units)
  {
    var t := Step(s, e);
    forall id | id in s.units ensures id in t.units && t.units[id].dependsOn == s.units[id].dependsOn {}
    assert t.units.Keys == s.units.Keys;
  }

  lemma StepKeepsSuccess(s: State, e: Event, id: string)
    requires Inv(s) && Succeeded(s, id)
    ensures Succeeded(Step(s, e), id)
  {
  }

  /** No event changes the dependency graph, takes a run away, or undoes a success. */
  lemma StepIsStable(s: State, e: Event)
    requires Inv(s)
    ensures TableGraph(Step(s, e).units) == TableGraph(s.units)
    ensures forall id :: Succeeded(s, id) ==> Succeeded(Step(s, e), id)
    ensures forall id :: DepsSucceeded(s, id) ==> DepsSucceeded(Step(s, e), id)
    ensures forall id :: id in s.units && s.units[id].coreRunId.Some? ==>
              Step(s, e).units[id].coreRunId == s.units[id].coreRunId
  {
    var t := Step(s, e);
    StepKeepsGraph(s, e);
    forall id | Succeeded(s, id) ensures Succeeded(t, id) { StepKeepsSuccess(s, e, id); }
    forall id | DepsSucceeded(s, id) ensures DepsSucceeded(t, id) {
      assert id in TableGraph(t.units) && t.units[id].dependsOn == s.units[id].dependsOn;
    }
  }

  lemma InitialInv(s: State)
    requires Initial(s)
    ensures Inv(s)
  {
  }

  lemma StepKeepsInv(s: State, e: Event)
    requires Inv(s)
    ensures Inv(Step(s, e))
  {
    var t := Step(s, e);
    StepIsStable(s, e);
    if e.Evaluate? && t != s {
      assert !Bad(SUCCESS);
      assert DepsSucceeded(t, e.id);
    }
    if e.Start? && t != s {
      assert DepsSucceeded(s, e.id);
      forall d | d in s.units[e.id].dependsOn ensures d in s.started { assert Succeeded(s, d); }
      ExtendFinishOrder(TableGraph(s.units), s.started, e.id);
    }
  }

  lemma {:induction false} RunKeepsInv(s: State, events: seq<Event>)
    requires Inv(s)
    ensures Inv(Run(s, events)) && TableGraph(Run(s, events).units) == TableGraph(s.units)
  {
    if events != [] {
      var before := events[..|events| - 1];
      RunKeepsInv(s, before);
      StepKeepsInv(Run(s, before), events[|events| - 1]);
      StepIsStable(Run(s, before), events[|events| - 1]);
    }
  }

  lemma {:induction false} RunNeedsAncestors(s: State, p: seq<string>, i: nat)
    requires Inv(s) && IsWalk(TableGraph(s.units), p) && 0 < i < |p| && s.units[p[0]].coreRunId.Some?
    ensures Succeeded(s, p[i])
  {
    if i > 1 {
      RunNeedsAncestors(s, p, i - 1);
    }
    assert p[i] in s.units[p[i - 1]].dependsOn;
    assert DepsSucceeded(s, p[i - 1]);
  }

  /** Whatever happened, a unit with a run has every direct and indirect dependency in PASS. */
  lemma StartedUnitsHavePassedDependencies(s: State, events: seq<Event>, id: string, dep: string)
    requires Initial(s)
    requires var t := Run(s, events);
             id in t.units && t.units[id].coreRunId.Some? && Reaches(TableGraph(t.units), id, dep)
    ensures var t := Run(s, events);
            dep in t.units && t.units[dep].coreRunId.Some? && t.units[dep].coreRunId.value in t.registry
              && t.registry[t.units[dep].coreRunId.value] == Pass
  {
    InitialInv(s);
    RunKeepsInv(s, events);
    var t := Run(s, events);
    var p :| IsWalkBetween(TableGraph(t.units), p, id, dep);
    RunNeedsAncestors(t, p, |p| - 1);
  }

  /** No unit is ever claimed twice. */
  lemma ClaimedAtMostOnce(s: State, events: seq<Event>, j: nat, k: nat)
    requires Initial(s)
    requires j < k < |Run(s, events).wins|
    ensures Run(s, events).wins[j].1 != Run(s, events).wins[k].1
  {
    InitialInv(s);
    RunKeepsInv(s, events);
  }

  /** A unit on a dependency cycle never gets a run, whatever is tried. */
  lemma CyclicUnitsNeverStart(s: State, events: seq<Event>, id: string)
    requires Initial(s) && Reaches(TableGraph(s.units), id, id)
    ensures id in Run(s, events).units ==> Run(s, events).units[id].coreRunId.None?
  {
    InitialInv(s);
    RunKeepsInv(s, events);
    var t := Run(s, events);
    if id in t.units && t.units[id].coreRunId.Some? {
      FinishedIsAcyclic(TableGraph(t.units), t.started, id);
    }
  }

  /** The unit's run is not active, and without a run it has a dependency that has not passed. */
  ghost predicate Quiet(s: State, id: string)
    requires id in s.units
  {
    && !ReadsActive(s.registry, s.units[id].coreRunId)
    && (NoRun(s.units[id].coreRunId) ==> exists d :: d in s.units[id].dependsOn && !Succeeded(s, d))
  }

  /** Nothing can be started and nothing is running. */
  ghost predicate Quiescent(s: State) {
    forall id :: id in s.units ==> Quiet(s, id)
  }

  /** The unit's run failed, or its status cannot be told. */
  ghost predicate Lost(s: State, id: string) {
    && id in s.units && !NoRun(s.units[id].coreRunId)
    && !Reads(s.registry, s.units[id].coreRunId, Pass) && !ReadsActive(s.registry, s.units[id].coreRunId)
  }

  /** In a quiescent state a unit without a run waits for one that is lost or has no run either. */
  lemma UnfinishedDependency(s: State, id: string) returns (d: string)
    requires Closed(TableGraph(s.units)) && Quiescent(s) && id in s.units && NoRun(s.units[id].coreRunId)
    ensures d in s.units && d in s.units[id].dependsOn
    ensures Lost(s, d) || NoRun(s.units[d].coreRunId)
  {
    assert Quiet(s, id);
    d :| d in s.units[id].dependsOn && !Succeeded(s, d);
    var g := TableGraph(s.units);
    assert id in g && d in g[id];
    assert d in g && d in s.units;
    assert Quiet(s, d);
  }

  /**
   * A unit that never ran traces back to a lost one: `path` lists the never-run units met so
   * far, each depending on the next, and cannot grow for ever in an acyclic graph.
   */
  lemma {:induction false} TraceToLoss(s: State, path: seq<string>) returns (lost: string)
    requires Closed(TableGraph(s.units)) && Acyclic(TableGraph(s.units)) && Quiescent(s)
    requires IsWalk(TableGraph(s.units), path) && NoRun(s.units[path[|path| - 1]].coreRunId)
    ensures Lost(s, lost) && Reaches(TableGraph(s.units), path[|path| - 1], lost)
    decreases s.units.Keys - (set n | n in path)
  {
    var g, id := TableGraph(s.units), path[|path| - 1];
    var d := UnfinishedDependency(s, id);
    DirectReaches(g, id, d);
    if Lost(s, d) {
      lost := d;
    } else {
      ExtendWalk(g, path, d);
      assert d in s.units.Keys - (set n | n in path);
      lost := TraceToLoss(s, path + [d]);
      StepThenReaches(g, id, d, lost);
    }
  }

  /** In an acyclic graph a walk can be extended by a dependency, which is new to it. */
  lemma ExtendWalk(g: Graph, path: seq<string>, d: string)
    requires Acyclic(g) && IsWalk(g, path) && d in g && d in g[path[|path| - 1]]
    ensures IsWalk(g, path + [d]) && d !in path
  {
    if d in path {
      WalkClosesCycle(g, path, d);
    }
  }

  lemma WalkClosesCycle(g: Graph, path: seq<string>, d: string)
    requires IsWalk(g, path) && d in path && d in g[path[|path| - 1]]
    ensures d in g && Reaches(g, d, d)
  {
    var k :| 0 <= k < |path| && path[k] == d;
    assert IsWalkBetween(g, path[k..] + [d], d, d);
  }

  ghost predicate NothingLost(s: State) {
    forall id :: id in s.units ==> !Lost(s, id)
  }

  ghost predicate AllPassed(s: State) {
    forall id :: id in s.units ==> Succeeded(s, id)
  }

  /**
   * In a closed acyclic workflow the scheduler never gets stuck without a loss: once nothing
   * is READY and nothing is active, each unit without a run depends on a lost one, and when
   * nothing is lost every unit has passed.
   */
  lemma StuckOnlyByLoss(s: State)
    requires Closed(TableGraph(s.units)) && Acyclic(TableGraph(s.units)) && Quiescent(s)
    ensures forall id :: id in s.units && NoRun(s.units[id].coreRunId) ==>
              exists lost :: Lost(s, lost) && Reaches(TableGraph(s.units), id, lost)
    ensures NothingLost(s) ==> AllPassed(s)
  {
    forall id | id in s.units && NoRun(s.units[id].coreRunId)
      ensures exists lost :: Lost(s, lost) && Reaches(TableGraph(s.units), id, lost)
    {
      var lost := TraceToLoss(s, [id]);
    }
    forall id | id in s.units && NothingLost(s)
      ensures Succeeded(s, id)
    {
      assert Quiet(s, id) && !Lost(s, id);
    }
  }

  /** Workers that start from this graph can end up stuck although nothing was lost. */
  ghost predicate CanStick(g: Graph) {
    exists s: State, events: seq<Event> ::
      Initial(s) && TableGraph(s.units) == g && StuckWithoutLoss(Run(s, events))
  }

  ghost predicate StuckWithoutLoss(s: State) {
    Quiescent(s) && NothingLost(s) && !AllPassed(s)
  }

  function RunName(id: string): string { "r" + id }

  lemma RunNamesDiffer(a: string, b: string)
    requires RunName(a) == RunName(b)
    ensures a == b
  {
    assert a == RunName(a)[1..] && b == RunName(b)[1..];
  }

  /** The unit is untouched, or it was claimed and its run, named after it, passed. */
  ghost predicate TidyUnit(s: State, id: string)
    requires id in s.units
  {
    var row := s.units[id];
    if row.coreRunId.None? then row.claimedAt.None?
    else row.coreRunId == Some(RunName(id)) && RunName(id) in s.registry
  }

  ghost predicate NamedRun(s: State, run: string) {
    exists id :: id in s.units && s.units[id].coreRunId.Some? && run == RunName(id)
  }

  ghost predicate Tidy(s: State) {
    && (forall id :: id in s.units ==> TidyUnit(s, id))
    && (forall run :: run in s.registry ==> s.registry[run] == Pass && NamedRun(s, run))
  }

  ghost function Waiting(s: State): set<string> {
    set id | id in s.units && s.units[id].coreRunId.None?
  }

  function Dispatch(id: string): seq<Event> {
    [Evaluate(0, id), ClaimUnit(0, id, 0), Start(0, id, RunName(id), Running), Report(RunName(id), Pass)]
  }

  lemma RunAndOne(s: State, events: seq<Event>, e: Event)
    ensures Run(s, events + [e]) == Step(Run(s, events), e)
  {
    assert (events + [e])[..|events|] == events;
  }

  lemma RunOfTwo(s: State, events: seq<Event>, a: Event, b: Event)
    ensures Run(s, events + [a, b]) == Step(Step(Run(s, events), a), b)
  {
    RunAndOne(s, events, a);
    RunAndOne(s, events + [a], b);
    assert events + [a, b] == events + [a] + [b];
  }

  /** One READY unit is evaluated, claimed, started and passes. */
  lemma DispatchPasses(s: State, events: seq<Event>, id: string)
    requires Tidy(Run(s, events)) && id in Run(s, events).units
    requires ReadinessOf(Run(s, events).units, Run(s, events).registry, id) == READY
    requires Run(s, events).units[id].coreRunId.None?
    ensures Tidy(Run(s, events + Dispatch(id)))
    ensures Waiting(Run(s, events + Dispatch(id))) == Waiting(Run(s, events)) - {id}
  {
    var t, run := Run(s, events), RunName(id);
    var look, claim, start, report := Evaluate(0, id), ClaimUnit(0, id, 0), Start(0, id, run, Running),
      Report(run, Pass);
    RunOfTwo(s, events, look, claim);
    RunOfTwo(s, events + [look, claim], start, report);
    assert events + Dispatch(id) == events + [look, claim] + [start, report];
    if run in t.registry {
      assert NamedRun(t, run);
      var other :| other in t.units && t.units[other].coreRunId.Some? && run == RunName(other);
      RunNamesDiffer(other, id);
    }
    assert TidyUnit(t, id);
    FourSteps(t, id, run, Pass);
    TidyAfter(t, Run(s, events + Dispatch(id)), id, run);
  }

  lemma FourSteps(t: State, id: string, run: string, end: RunStatus)
    requires id in t.units && ReadinessOf(t.units, t.registry, id) == READY && Claimable(t.units, id)
    requires run != "" && run !in t.registry
    ensures var u :=
            Step(Step(Step(Step(t, Evaluate(0, id)), ClaimUnit(0, id, 0)), Start(0, id, run, Running)),
                 Report(run, end));
            && u.units == t.units[id := t.units[id].(claimedAt := Some(0), coreRunId := Some(run))]
            && u.registry == t.registry[run := end]
            && u.seenReady == t.seenReady + {(0, id)} && u.wins == t.wins + [(0, id)]
  {
    var u1 := Step(t, Evaluate(0, id));
    var u2 := Step(u1, ClaimUnit(0, id, 0));
    assert (0, id) in u2.wins by { assert u2.wins[|u2.wins| - 1] == (0, id); }
    var u3 := Step(u2, Start(0, id, run, Running));
    assert u3.registry == t.registry[run := Running];
  }

  lemma TidyAfter(t: State, u: State, id: string, run: string)
    requires Tidy(t) && id in t.units && t.units[id].coreRunId.None? && run == RunName(id)
    requires u.units == t.units[id := t.units[id].(claimedAt := Some(0), coreRunId := Some(run))]
    requires u.registry == t.registry[run := Pass]
    ensures Tidy(u) && Waiting(u) == Waiting(t) - {id}
  {
    forall other | other in u.units
      ensures TidyUnit(u, other)
    {
      if other != id { assert TidyUnit(t, other); }
    }
    forall name | name in u.registry
      ensures NamedRun(u, name)
    {
      if name == run {
        assert id in u.units;
      } else {
        assert NamedRun(t, name);
        var other :| other in t.units && t.units[other].coreRunId.Some? && name == RunName(other);
        assert other in u.units;
      }
    }
  }

  /** Starting and passing whatever is READY ends in a quiescent state without a loss. */
  lemma {:induction false} PassWhatIsReady(s: State, events: seq<Event>) returns (all: seq<Event>)
    requires Tidy(Run(s, events))
    ensures Tidy(Run(s, all)) && Quiescent(Run(s, all)) && NothingLost(Run(s, all))
    decreases Waiting(Run(s, events))
  {
    var t := Run(s, events);
    if id :| id in t.units && ReadinessOf(t.units, t.registry, id) == READY {
      assert t.units[id].coreRunId.None?;
      DispatchPasses(s, events, id);
      assert id in Waiting(t);
      all := PassWhatIsReady(s, events + Dispatch(id));
    } else {
      all := events;
      forall id | id in t.units ensures Quiet(t, id) && !Lost(t, id) { NotReadyIsQuiet(t, id); }
    }
  }

  /** What is not READY when all runs have passed is quiet. */
  lemma NotReadyIsQuiet(t: State, id: string)
    requires Tidy(t) && id in t.units && ReadinessOf(t.units, t.registry, id) != READY
    ensures Quiet(t, id) && !Lost(t, id)
  {
    ReadinessMeans(t.units, t.registry, id);
    assert TidyUnit(t, id);
    if NoRun(t.units[id].coreRunId) {
      var d :| d in t.units[id].dependsOn && !Passed(t.units, t.registry, d);
      assert !Succeeded(t, d);
    }
  }

  /** A workflow with a cycle gets stuck once everything else has run. */
  lemma CycleSticks(g: Graph, n: string)
    requires n in g && Reaches(g, n, n)
    ensures CanStick(g)
  {
    var row := UnitRow("p", "t", "c", "a", "implementation", [], None, None, 0);
    var s := State(map id | id in g :: row.(dependsOn := g[id]), map[], {}, [], []);
    assert TableGraph(s.units) == g;
    assert Run(s, []) == s;
    var events := PassWhatIsReady(s, []);
    CyclicUnitsNeverStart(s, events, n);
    InitialInv(s);
    RunKeepsInv(s, events);
    var t := Run(s, events);
    assert n in TableGraph(t.units);
    assert n in t.units && !Succeeded(t, n);
    assert StuckWithoutLoss(Run(s, events));
  }

  /** Rejecting cycles is exactly what keeps a closed workflow from getting stuck without a loss. */
  lemma StickableIffCyclic(g: Graph)
    requires Closed(g)
    ensures CanStick(g) <==> !Acyclic(g)
  {
    if !Acyclic(g) {
      var n :| n in g && Reaches(g, n, n);
      CycleSticks(g, n);
    }
    if CanStick(g) && Acyclic(g) {
      var s: State, events: seq<Event> :|
        Initial(s) && TableGraph(s.units) == g && StuckWithoutLoss(Run(s, events));
      InitialInv(s);
      RunKeepsInv(s, events);
      StuckOnlyByLoss(Run(s, events));
      assert false;
    }
  }

  /** In a quiescent state only status reports can still change a unit or a run. */
  lemma QuiescentIsFinal(s: State, e: Event)
    requires Inv(s) && Quiescent(s) && !e.Report?
    ensures forall id :: id in s.units ==> Step(s, e).units[id].coreRunId == s.units[id].coreRunId
    ensures Step(s, e).registry == s.registry
  {
  }

  ghost predicate Won(s: State, id: string) {
    exists w :: (w, id) in s.wins
  }

  lemma {:induction false} ClaimedIsWon(s: State, events: seq<Event>, id: string)
    requires Initial(s) && id in s.units
    ensures id in Run(s, events).units
    ensures Run(s, events).units[id].claimedAt.Some? <==> Won(Run(s, events), id)
  {
    if events != [] {
      var before, e := events[..|events| - 1], events[|events| - 1];
      ClaimedIsWon(s, before, id);
      var t := Run(s, before);
      if e.ClaimUnit? {
        assert forall w :: (w, id) in t.wins ==> (w, id) in Step(t, e).wins;
        assert (e.worker, e.id) in t.wins + [(e.worker, e.id)];
      }
    }
  }

  /**
   * READY does not look at claims: in every run a READY unit can be claimed exactly when
   * nobody has ever won the claim of it.
   */
  lemma ReadyIsClaimableIffNeverWon(s: State, events: seq<Event>, id: string)
    requires Initial(s) && id in s.units
    requires var t := Run(s, events); id in t.units && ReadinessOf(t.units, t.registry, id) == READY
    ensures Claimable(Run(s, events).units, id) <==> !Won(Run(s, events), id)
  {
    InitialInv(s);
    RunKeepsInv(s, events);
    ClaimedIsWon(s, events, id);
  }

  lemma ClaimLeavesReadiness(s: State, id: string, now: int, other: string)
    requires id in s.units && other in s.units
    ensures ReadinessOf(Claim(s.units, id, now), s.registry, other) == ReadinessOf(s.units, s.registry, other)
  {
    var after := Claim(s.units, id, now);
    assert forall d :: DependencyOutcome(after, s.registry, d) == DependencyOutcome(s.units, s.registry, d);
  }

  /** Every unit that is READY at first can be brought to read READY although nobody can claim it. */
  lemma ReadyAndUnclaimable(s: State, w: Worker, id: string, now: int) returns (events: seq<Event>)
    requires Initial(s) && id in s.units && ReadinessOf(s.units, s.registry, id) == READY
    ensures var t := Run(s, events);
            id in t.units && ReadinessOf(t.units, t.registry, id) == READY && !Claimable(t.units, id)
  {
    var look, claim := Evaluate(w, id), ClaimUnit(w, id, now);
    events := [look, claim];
    RunOfTwo(s, [], look, claim);
    assert [] + events == events;
    ClaimLeavesReadiness(s, id, now, id);
  }

  ghost predicate NeverStarts(events: seq<Event>, id: string) {
    forall e :: e in events && e.Start? ==> e.id != id
  }

  lemma StepKeepsClaims(s: State, e: Event, id: string)
    requires id in s.units && s.units[id].claimedAt.Some?
    ensures id in Step(s, e).units && Step(s, e).units[id].claimedAt == s.units[id].claimedAt
    ensures !(e.Start? && e.id == id) ==> Step(s, e).units[id].coreRunId == s.units[id].coreRunId
  {
  }

  /**
   * No event gives a claim back. When the start that should follow a claim never comes, the
   * unit reads READY for good and nobody can claim it.
   */
  lemma {:induction false} FailedDispatchStaysReady(s: State, events: seq<Event>, id: string)
    requires Inv(s) && id in s.units && s.units[id].claimedAt.Some?
    ensures id in Run(s, events).units && Run(s, events).units[id].claimedAt == s.units[id].claimedAt
    ensures !Claimable(Run(s, events).units, id)
    ensures ReadinessOf(s.units, s.registry, id) == READY && NeverStarts(events, id) ==>
              ReadinessOf(Run(s, events).units, Run(s, events).registry, id) == READY
  {
    if events != [] {
      var before, last := events[..|events| - 1], events[|events| - 1];
      FailedDispatchStaysReady(s, before, id);
      RunKeepsInv(s, before);
      StepKeepsClaims(Run(s, before), last, id);
      StepIsStable(Run(s, before), last);
      assert forall e :: e in before ==> e in events;
      assert last in events;
      if ReadinessOf(s.units, s.registry, id) == READY && NeverStarts(events, id) {
        ReadyStays(Run(s, before), last, id);
      }
    }
  }

  lemma ReadyStays(s: State, e: Event, id: string)
    requires Inv(s) && id in s.units && ReadinessOf(s.units, s.registry, id) == READY
    requires !(e.Start? && e.id == id)
    ensures id in Step(s, e).units && ReadinessOf(Step(s, e).units, Step(s, e).registry, id) == READY
  {
    StepIsStable(s, e);
    SameDependencies(s, e, id);
    ReadinessMeans(s.units, s.registry, id);
    var t := Step(s, e);
    forall d | d in s.units[id].dependsOn ensures Passed(t.units, t.registry, d) { assert Succeeded(s, d); }
    ReadinessMeans(t.units, t.registry, id);
  }

  lemma SameDependencies(s: State, e: Event, id: string)
    requires id in s.units
    ensures var t := Step(s, e);
            id in t.units && t.units[id].dependsOn == s.units[id].dependsOn
              && (!(e.Start? && e.id == id) ==> t.units[id].coreRunId == s.units[id].coreRunId)
  {
  }
}
