/**
 * Readiness of execution units, derived from the unit table and the run registry
 * (war_room_execution_readiness.py).
 */
module ExecutionReadiness {
  import opened Wrappers
  import opened ExecutionUnits

  datatype RunStatus = Queued | Running | Pass | Fail | Blocked | TimedOut | Cancelled | Unknown | Other(text: string)

  /** The statuses the engine answers with; a run it does not know raises an error. */
  type Registry = map<string, RunStatus>

  datatype Outcome = SUCCESS | FAILURE | ACTIVE | NOT_STARTED | UNKNOWN | NOT_FOUND

  datatype Readiness = READY | WAITING | BLOCKED

  datatype Reason =
    | NoDependencies
    | AllSucceeded
    | AlreadyTerminal
    | AlreadyActive
    | OutcomeUnknown
    | DependencyFailed(id: string)
    | DependencyUnavailable(id: string)
    | DependencyPending(id: string)

  datatype Evaluation = Evaluation(readiness: Readiness, reason: Reason, outcome: Outcome, dependencies: seq<Outcome>)

  datatype EvaluationError = MissingExecutionId | MissingAgentId | UnsupportedMode(mode: string) | InvalidDependencies

  /** The mapping a caller hands to the evaluator. */
  datatype UnitView = UnitView(
    executionId: string, agentId: string, coreRunId: Option<string>, dependsOn: seq<string>, mode: string)

  function QueryRunStatus(registry: Registry, run: string): RunStatus {
    if run in registry then registry[run] else Unknown
  }

  /** A run id counts only when it is present and non-empty. */
  predicate HasRun(coreRunId: Option<string>) {
    coreRunId.Some? && coreRunId.value != ""
  }

  function ExecutionOutcome(registry: Registry, coreRunId: Option<string>): (Outcome, bool) {
    if !HasRun(coreRunId) then (NOT_STARTED, false)
    else
      match QueryRunStatus(registry, coreRunId.value)
      case Pass => (SUCCESS, true)
      case Fail | Blocked | TimedOut | Cancelled => (FAILURE, true)
      case Queued | Running => (ACTIVE, true)
      case Unknown => (UNKNOWN, true)
      case Other(_) => (NOT_STARTED, true)
  }

  function DependencyOutcome(table: Table, registry: Registry, dep: string): Outcome {
    if dep !in table then NOT_FOUND
    else if !HasRun(table[dep].coreRunId) then NOT_STARTED
    else
      match QueryRunStatus(registry, table[dep].coreRunId.value)
      case Pass => SUCCESS
      case Fail | Blocked | TimedOut | Cancelled => FAILURE
      case Queued | Running => ACTIVE
      case _ => UNKNOWN
  }

  predicate Bad(o: Outcome) { o == FAILURE || o == NOT_FOUND || o == UNKNOWN }

  predicate Pending(o: Outcome) { o == NOT_STARTED || o == ACTIVE }

  // ----- outcomes, in terms of the unit table and the engine's answers -------------------------------

  ghost predicate NoRun(coreRunId: Option<string>) { coreRunId == None || coreRunId == Some("") }

  /** The unit has a run and the engine gives it this status. */
  ghost predicate Reads(registry: Registry, coreRunId: Option<string>, status: RunStatus) {
    !NoRun(coreRunId) && coreRunId.value in registry && registry[coreRunId.value] == status
  }

  ghost predicate ReadsFailed(registry: Registry, coreRunId: Option<string>) {
    || Reads(registry, coreRunId, Fail) || Reads(registry, coreRunId, Blocked)
    || Reads(registry, coreRunId, TimedOut) || Reads(registry, coreRunId, Cancelled)
  }

  ghost predicate ReadsActive(registry: Registry, coreRunId: Option<string>) {
    Reads(registry, coreRunId, Queued) || Reads(registry, coreRunId, Running)
  }

  /** The unit has a run, but what became of it cannot be told. */
  ghost predicate ReadsNothing(registry: Registry, coreRunId: Option<string>) {
    !NoRun(coreRunId) && (coreRunId.value in registry ==> registry[coreRunId.value] == Unknown)
  }

  ghost predicate ReadsOther(registry: Registry, coreRunId: Option<string>) {
    !NoRun(coreRunId) && coreRunId.value in registry && registry[coreRunId.value].Other?
  }

  /** What the outcome of a unit itself says; a status outside the engine's own counts as not started. */
  ghost predicate OwnMeans(registry: Registry, coreRunId: Option<string>, o: Outcome) {
    match o
    case SUCCESS => Reads(registry, coreRunId, Pass)
    case FAILURE => ReadsFailed(registry, coreRunId)
    case ACTIVE => ReadsActive(registry, coreRunId)
    case UNKNOWN => ReadsNothing(registry, coreRunId)
    case NOT_STARTED => NoRun(coreRunId) || ReadsOther(registry, coreRunId)
    case NOT_FOUND => false
  }

  /** What the outcome of a dependency says; here a status outside the engine's own cannot be told. */
  ghost predicate DetailMeans(table: Table, registry: Registry, dep: string, o: Outcome) {
    if dep !in table then o == NOT_FOUND
    else
      match o
      case SUCCESS => Reads(registry, table[dep].coreRunId, Pass)
      case FAILURE => ReadsFailed(registry, table[dep].coreRunId)
      case ACTIVE => ReadsActive(registry, table[dep].coreRunId)
      case UNKNOWN => ReadsNothing(registry, table[dep].coreRunId) || ReadsOther(registry, table[dep].coreRunId)
      case NOT_STARTED => NoRun(table[dep].coreRunId)
      case NOT_FOUND => false
  }

  lemma OwnOutcome(registry: Registry, coreRunId: Option<string>)
    ensures OwnMeans(registry, coreRunId, ExecutionOutcome(registry, coreRunId).0)
    ensures ExecutionOutcome(registry, coreRunId).1 <==> !NoRun(coreRunId)
  {
  }

  lemma DetailOutcome(table: Table, registry: Registry, dep: string)
    ensures DetailMeans(table, registry, dep, DependencyOutcome(table, registry, dep))
  {
  }

  /** The dependency is stored and its run has passed. */
  ghost predicate Passed(table: Table, registry: Registry, dep: string) {
    dep in table && Reads(registry, table[dep].coreRunId, Pass)
  }

  /** The dependency can never succeed: it is not stored, or its run neither passed nor is active. */
  ghost predicate Bars(table: Table, registry: Registry, dep: string) {
    dep in table ==>
      !NoRun(table[dep].coreRunId) && !Reads(registry, table[dep].coreRunId, Pass)
      && !ReadsActive(registry, table[dep].coreRunId)
  }

  /** `dep` stands in the list, barring, and no earlier dependency bars. */
  ghost predicate FirstBar(table: Table, registry: Registry, deps: seq<string>, dep: string) {
    exists k :: 0 <= k < |deps| && deps[k] == dep && Bars(table, registry, dep)
                && forall j :: 0 <= j < k ==> !Bars(table, registry, deps[j])
  }

  /** `dep` stands in the list, not passed, and all earlier dependencies have passed. */
  ghost predicate FirstPending(table: Table, registry: Registry, deps: seq<string>, dep: string) {
    exists k :: 0 <= k < |deps| && deps[k] == dep && !Passed(table, registry, dep)
                && forall j :: 0 <= j < k ==> Passed(table, registry, deps[j])
  }

  ghost predicate AllPassedIn(table: Table, registry: Registry, deps: seq<string>) {
    forall d :: d in deps ==> Passed(table, registry, d)
  }

  ghost predicate SomeBars(table: Table, registry: Registry, deps: seq<string>) {
    exists d :: d in deps && Bars(table, registry, d)
  }

  /** The evaluator's promise, in terms of the runs of the unit and of its dependencies. */
  ghost predicate Explains(table: Table, registry: Registry, u: UnitView, e: Evaluation) {
    && OwnMeans(registry, u.coreRunId, e.outcome) && |e.dependencies| == |u.dependsOn|
    && (forall k :: 0 <= k < |u.dependsOn| ==> DetailMeans(table, registry, u.dependsOn[k], e.dependencies[k]))
    && (e.readiness == READY <==> NoRun(u.coreRunId) && AllPassedIn(table, registry, u.dependsOn))
    && (e.readiness == BLOCKED <==> !NoRun(u.coreRunId) || SomeBars(table, registry, u.dependsOn))
    && match e.reason
       case NoDependencies => e.readiness == READY && u.dependsOn == []
       case AllSucceeded => e.readiness == READY && u.dependsOn != []
       case AlreadyTerminal => Reads(registry, u.coreRunId, Pass) || ReadsFailed(registry, u.coreRunId)
       case AlreadyActive => ReadsActive(registry, u.coreRunId)
       case OutcomeUnknown => ReadsNothing(registry, u.coreRunId) || ReadsOther(registry, u.coreRunId)
       case DependencyFailed(d) =>
         && NoRun(u.coreRunId) && FirstBar(table, registry, u.dependsOn, d)
         && d in table && ReadsFailed(registry, table[d].coreRunId)
       case DependencyUnavailable(d) =>
         && NoRun(u.coreRunId) && FirstBar(table, registry, u.dependsOn, d)
         && (d in table ==> !ReadsFailed(registry, table[d].coreRunId))
       case DependencyPending(d) => e.readiness == WAITING && FirstPending(table, registry, u.dependsOn, d)
  }

  /** Which error an invalid mapping gets; the checks go in this order. */
  ghost predicate Rejects(u: UnitView, e: EvaluationError) {
    match e
    case MissingExecutionId => u.executionId == ""
    case MissingAgentId => u.executionId != "" && u.agentId == ""
    case UnsupportedMode(m) => u.executionId != "" && u.agentId != "" && m == u.mode && u.mode != "all_success"
    case InvalidDependencies =>
      u.executionId != "" && u.agentId != "" && u.mode == "all_success" && "" in u.dependsOn
  }

  /** Evaluates one unit. */
  method Evaluate(table: Table, registry: Registry, u: UnitView) returns (r: Result<Evaluation, EvaluationError>)
    ensures r.Failure? ==> Rejects(u, r.error)
    ensures r.Success? <==> u.executionId != "" && u.agentId != "" && u.mode == "all_success" && "" !in u.dependsOn
    ensures r.Success? ==> Explains(table, registry, u, r.value)
  {
    if u.executionId == "" { return Failure(MissingExecutionId); }
    if u.agentId == "" { return Failure(MissingAgentId); }
    if u.mode != "all_success" { return Failure(UnsupportedMode(u.mode)); }
    if "" in u.dependsOn { return Failure(InvalidDependencies); }
    OwnOutcome(registry, u.coreRunId);
    var (outcome, hasRun) := ExecutionOutcome(registry, u.coreRunId);
    var details := DependencyDetails(table, registry, u.dependsOn);
    if hasRun {
      r := Success(Evaluation(BLOCKED,
                              if outcome == SUCCESS || outcome == FAILURE then AlreadyTerminal
                              else if outcome == ACTIVE then AlreadyActive
                              else OutcomeUnknown,
                              outcome, details));
    } else {
      var result := EvaluateDependencies(table, registry, u, Evaluation(READY, NoDependencies, outcome, details));
      r := Success(result);
    }
  }

  /** One detail per dependency, in order. */
  ghost predicate Detailed(table: Table, registry: Registry, deps: seq<string>, details: seq<Outcome>) {
    |details| == |deps| && forall k :: 0 <= k < |deps| ==> DetailMeans(table, registry, deps[k], details[k])
  }

  method DependencyDetails(table: Table, registry: Registry, deps: seq<string>) returns (details: seq<Outcome>)
    ensures Detailed(table, registry, deps, details)
  {
    details := [];
    for k := 0 to |deps|
      invariant |details| == k
      invariant forall j :: 0 <= j < k ==> DetailMeans(table, registry, deps[j], details[j])
    {
      DetailOutcome(table, registry, deps[k]);
      details := details + [DependencyOutcome(table, registry, deps[k])];
    }
  }

  lemma BadBars(table: Table, registry: Registry, deps: seq<string>, details: seq<Outcome>, k: nat)
    requires Detailed(table, registry, deps, details) && k < |deps|
    ensures Bad(details[k]) <==> Bars(table, registry, deps[k])
    ensures !Bad(details[k]) && !Pending(details[k]) <==> Passed(table, registry, deps[k])
  {
    assert DetailMeans(table, registry, deps[k], details[k]);
  }

  /** The part of the evaluation that looks at the dependencies of a unit without a run. */
  method EvaluateDependencies(table: Table, registry: Registry, u: UnitView, initial: Evaluation)
    returns (result: Evaluation)
    requires NoRun(u.coreRunId)
    requires initial.readiness == READY && initial.reason == NoDependencies && initial.outcome == NOT_STARTED
    requires Detailed(table, registry, u.dependsOn, initial.dependencies)
    ensures Explains(table, registry, u, result)
  {
    result := initial;
    var details := initial.dependencies;
    forall k | 0 <= k < |details|
      ensures Bad(details[k]) <==> Bars(table, registry, u.dependsOn[k])
      ensures !Bad(details[k]) && !Pending(details[k]) <==> Passed(table, registry, u.dependsOn[k])
    {
      BadBars(table, registry, u.dependsOn, details, k);
    }
    var bad := FirstWhere(details, Bad);
    if bad < |details| {
      var d := u.dependsOn[bad];
      assert FirstBar(table, registry, u.dependsOn, d);
      return result.(readiness := BLOCKED,
                     reason := if details[bad] == FAILURE then DependencyFailed(d) else DependencyUnavailable(d));
    }
    assert !SomeBars(table, registry, u.dependsOn);
    var pending := FirstWhere(details, Pending);
    if pending < |details| {
      var d := u.dependsOn[pending];
      assert FirstPending(table, registry, u.dependsOn, d);
      return result.(readiness := WAITING, reason := DependencyPending(d));
    }
    assert AllPassedIn(table, registry, u.dependsOn);
    if details != [] {
      result := result.(reason := AllSucceeded);
    }
  }

  /** The index of the first detail with `p`, or the length when there is none. */
  method FirstWhere(details: seq<Outcome>, p: Outcome -> bool) returns (k: nat)
    ensures k <= |details|
    ensures k < |details| ==> p(details[k])
    ensures forall j :: 0 <= j < k ==> !p(details[j])
  {
    for i := 0 to |details|
      invariant forall j :: 0 <= j < i ==> !p(details[j])
    {
      if p(details[i]) {
        return i;
      }
    }
    return |details|;
  }
}
