/**
 * Compiling one multi-agent task into execution units
 * (war_room_execution_compiler.py).
 */
module ExecutionCompiler {
  import opened Wrappers
  import opened Graphs

  /** One workflow entry, as the caller writes it. */
  datatype Entry = Entry(role: string, dependsOn: seq<string>)

  datatype CompileError =
    | InvalidProject
    | InvalidTask
    | InvalidCorrelation
    | NoAgents
    | InvalidAgent
    | EmptyExecutionId
    | DuplicateExecutionId(id: string)
    | MissingAgent(agent: string)
    | InvalidRole(agent: string)
    | InvalidDependency(agent: string)
    | SelfDependency(agent: string)
    | UnknownDependency(agent: string, dependency: string)
    | Cycle(agent: string)

  datatype ExecutionUnit = ExecutionUnit(
    executionId: string,
    agentId: string,
    correlationId: string,
    compileIndex: nat,
    role: string,
    dependsOn: seq<string>)

  // ----- what the compiler promises, in terms of the request -------------------------------------

  /** `x` stands in `s` before `y` first does. */
  ghost predicate Precedes(s: seq<string>, x: string, y: string) {
    exists k :: 0 <= k < |s| && s[k] == x && y !in s[..k]
  }

  /** `r` lists the elements of `s` once each, in the order in which they first appear there. */
  ghost predicate FirstOccurrences(s: seq<string>, r: seq<string>) {
    && (forall x :: x in r <==> x in s)
    && NoDuplicates(r)
    && forall i, j :: 0 <= i < j < |r| ==> Precedes(s, r[i], r[j])
  }

  /** How many different elements `s` has. */
  ghost function Count(s: seq<string>): nat { |set x | x in s| }

  /** The dependencies an agent lists; without a workflow nobody depends on anybody. */
  ghost function Listed(workflow: Option<map<string, Entry>>, agent: string): seq<string> {
    if workflow.Some? && agent in workflow.value then workflow.value[agent].dependsOn else []
  }

  /** The dependency graph as the caller writes it. */
  ghost function ListedGraph(agents: seq<string>, workflow: Option<map<string, Entry>>): Graph {
    map a | a in agents :: Listed(workflow, a)
  }

  ghost predicate DependencyUsable(agents: seq<string>, agent: string, dep: string) {
    dep != "" && dep != agent && dep in agents
  }

  /** The agent has a role and depends only on other agents of the request. */
  ghost predicate EntryUsable(agents: seq<string>, workflow: Option<map<string, Entry>>, agent: string) {
    workflow.Some? ==>
      && agent in workflow.value && workflow.value[agent].role != ""
      && forall dep :: dep in workflow.value[agent].dependsOn ==> DependencyUsable(agents, agent, dep)
  }

  /** The first `n` ids the factory hands out can all be used. */
  ghost predicate UsableIds(n: nat, factory: nat -> string) {
    && (forall i :: 0 <= i < n ==> factory(i) != "")
    && forall i, j :: 0 <= i < j < n ==> factory(i) != factory(j)
  }

  ghost predicate Named(project: string, task: string, agents: seq<string>, correlation: string) {
    project != "" && task != "" && correlation != "" && agents != [] && "" !in agents
  }

  ghost predicate EntriesUsable(agents: seq<string>, workflow: Option<map<string, Entry>>) {
    forall a :: a in agents ==> EntryUsable(agents, workflow, a)
  }

  /** The inputs the compiler accepts. */
  ghost predicate Compilable(project: string, task: string, agents: seq<string>, correlation: string,
                             workflow: Option<map<string, Entry>>, factory: nat -> string)
  {
    && Named(project, task, agents, correlation) && UsableIds(Count(agents), factory)
    && EntriesUsable(agents, workflow) && Acyclic(ListedGraph(agents, workflow))
  }

  /** What an agent's entry comes to: role and dependencies as listed, or the default without a workflow. */
  ghost predicate Resolves(workflow: Option<map<string, Entry>>, agent: string, e: Entry) {
    if workflow.None? then e == Entry("implementation", [])
    else
      && agent in workflow.value && e.role == workflow.value[agent].role
      && FirstOccurrences(workflow.value[agent].dependsOn, e.dependsOn)
  }

  ghost predicate Pairs(units: seq<ExecutionUnit>, agent: string, id: string) {
    exists j :: 0 <= j < |units| && units[j].agentId == agent && units[j].executionId == id
  }

  /** `ids` are the execution ids of `agents`, in the same order. */
  ghost predicate IdsOf(units: seq<ExecutionUnit>, agents: seq<string>, ids: seq<string>) {
    |ids| == |agents| && forall k :: 0 <= k < |ids| ==> Pairs(units, agents[k], ids[k])
  }

  ghost predicate UnitFor(units: seq<ExecutionUnit>, i: nat, correlation: string,
                          workflow: Option<map<string, Entry>>, factory: nat -> string)
    requires i < |units|
  {
    var u := units[i];
    && u.executionId == factory(i) && u.correlationId == correlation && u.compileIndex == i
    && exists e :: Resolves(workflow, u.agentId, e) && u.role == e.role && IdsOf(units, e.dependsOn, u.dependsOn)
  }

  ghost function AgentsOf(units: seq<ExecutionUnit>): seq<string> {
    seq(|units|, i requires 0 <= i < |units| => units[i].agentId)
  }

  /** One unit for each agent in order of first appearance, with its role and the ids of what the agent depends on. */
  ghost predicate CompiledFrom(units: seq<ExecutionUnit>, agents: seq<string>, correlation: string,
                               workflow: Option<map<string, Entry>>, factory: nat -> string)
  {
    && FirstOccurrences(agents, AgentsOf(units))
    && forall i :: 0 <= i < |units| ==> UnitFor(units, i, correlation, workflow, factory)
  }

  /** What is wrong with one dependency of `agent`. */
  ghost predicate DependencyFault(e: CompileError, agents: seq<string>, agent: string, dep: string) {
    match e
    case InvalidDependency(x) => x == agent && dep == ""
    case SelfDependency(x) => x == agent && dep != "" && dep == agent
    case UnknownDependency(x, d) => x == agent && d == dep && dep != "" && dep != agent && dep !in agents
    case _ => false
  }

  /** The error is about the first faulty dependency of the list. */
  ghost predicate FirstFault(e: CompileError, agents: seq<string>, agent: string, deps: seq<string>) {
    exists k :: 0 <= k < |deps| && DependencyFault(e, agents, agent, deps[k])
                && forall j :: 0 <= j < k ==> DependencyUsable(agents, agent, deps[j])
  }

  /** What is wrong with one agent's entry. */
  ghost predicate EntryFault(e: CompileError, agents: seq<string>, workflow: Option<map<string, Entry>>, a: string) {
    workflow.Some? &&
    match e
    case MissingAgent(x) => x == a && a !in workflow.value
    case InvalidRole(x) => x == a && a in workflow.value && workflow.value[a].role == ""
    case _ =>
      && a in workflow.value && workflow.value[a].role != ""
      && FirstFault(e, agents, a, workflow.value[a].dependsOn)
  }

  /** The error is about the first agent whose entry is at fault. */
  ghost predicate FirstEntryFault(e: CompileError, agents: seq<string>, workflow: Option<map<string, Entry>>) {
    exists a :: a in agents && EntryFault(e, agents, workflow, a)
                && forall b :: b in agents && b != a && Precedes(agents, b, a) ==> EntryUsable(agents, workflow, b)
  }

  /** The error is about the first id of `n` that cannot be used. */
  ghost predicate IdFault(e: CompileError, n: nat, factory: nat -> string) {
    exists i :: 0 <= i < n && UsableIds(i, factory) && !UsableIds(i + 1, factory)
                && e == if factory(i) == "" then EmptyExecutionId else DuplicateExecutionId(factory(i))
  }

  /** What each error tells the caller about its input; the checks go in this order. */
  ghost predicate Justified(e: CompileError, project: string, task: string, agents: seq<string>, correlation: string,
                            workflow: Option<map<string, Entry>>, factory: nat -> string)
  {
    match e
    case InvalidProject => project == ""
    case InvalidTask => project != "" && task == ""
    case NoAgents => project != "" && task != "" && agents == []
    case InvalidAgent => project != "" && task != "" && "" in agents
    case InvalidCorrelation => project != "" && task != "" && agents != [] && "" !in agents && correlation == ""
    case EmptyExecutionId => Named(project, task, agents, correlation) && IdFault(e, Count(agents), factory)
    case DuplicateExecutionId(_) => Named(project, task, agents, correlation) && IdFault(e, Count(agents), factory)
    case Cycle(a) =>
      && Named(project, task, agents, correlation) && UsableIds(Count(agents), factory)
      && EntriesUsable(agents, workflow) && a in agents && Reaches(ListedGraph(agents, workflow), a, a)
    case _ =>
      && Named(project, task, agents, correlation) && UsableIds(Count(agents), factory)
      && FirstEntryFault(e, agents, workflow)
  }

  // ----- lists without repetitions ---------------------------------------------------------------

  /** `s` with only the first occurrence of each element. */
  function Distinct(s: seq<string>): (r: seq<string>)
    ensures FirstOccurrences(s, r)
  {
    if s == [] then []
    else
      var rest, last := s[..|s| - 1], s[|s| - 1];
      assert s == rest + [last];
      FirstOccurrencesGrow(rest, Distinct(rest), last);
      if last in rest then Distinct(rest) else Distinct(rest) + [last]
  }

  lemma FirstOccurrencesGrow(s: seq<string>, r: seq<string>, last: string)
    requires FirstOccurrences(s, r)
    ensures FirstOccurrences(s + [last], if last in s then r else r + [last])
  {
    var after, grown := s + [last], if last in s then r else r + [last];
    forall i, j | 0 <= i < j < |grown|
      ensures Precedes(after, grown[i], grown[j])
    {
      if j < |r| {
        var k :| 0 <= k < |s| && s[k] == r[i] && r[j] !in s[..k];
        assert after[..k] == s[..k] && after[k] == r[i];
      } else {
        assert r[i] in s;
        var k :| 0 <= k < |s| && s[k] == r[i];
        assert after[..k] == s[..k] && after[k] == r[i];
      }
    }
  }

  /** The first occurrences among the first `i` elements; looked into only on demand. */
  ghost predicate FirstSoFar(s: seq<string>, i: nat, r: seq<string>) {
    forall t: seq<string> :: i <= |s| && t == s[..i] ==> FirstOccurrences(t, r)
  }

  lemma NoneSoFar(s: seq<string>)
    ensures FirstSoFar(s, 0, [])
  {
  }

  lemma NextOccurrence(s: seq<string>, i: nat, r: seq<string>)
    requires i < |s| && FirstSoFar(s, i, r)
    ensures FirstSoFar(s, i + 1, if s[i] in r then r else r + [s[i]])
  {
    assert s[..i + 1] == s[..i] + [s[i]];
    FirstOccurrencesGrow(s[..i], r, s[i]);
  }

  lemma AllSeen(s: seq<string>, r: seq<string>)
    requires FirstSoFar(s, |s|, r)
    ensures FirstOccurrences(s, r)
  {
    assert s[..|s|] == s;
  }

  lemma NotBothFirst(s: seq<string>, x: string, y: string)
    requires x != y && Precedes(s, x, y)
    ensures !Precedes(s, y, x)
  {
    var k :| 0 <= k < |s| && s[k] == x && y !in s[..k];
    forall i | 0 <= i < |s| && s[i] == y ensures x in s[..i] {
      assert k < i;
      assert s[..i][k] == x;
    }
  }

  /** Two such lists are the same one: they agree up to any position. */
  lemma {:induction false} FirstOccurrencesAgree(s: seq<string>, a: seq<string>, b: seq<string>, n: nat)
    requires FirstOccurrences(s, a) && FirstOccurrences(s, b) && n <= |a|
    ensures n <= |b| && forall k :: 0 <= k < n ==> a[k] == b[k]
  {
    if n > 0 {
      var m := n - 1;
      FirstOccurrencesAgree(s, a, b, m);
      assert a[m] in s && a[m] in b;
      var j :| 0 <= j < |b| && b[j] == a[m];
      if m < j {
        var i := PlaceIn(a, b[m]);
        assert Precedes(s, a[m], a[i]) && Precedes(s, b[m], b[j]);
        NotBothFirst(s, a[m], b[m]);
      }
    }
  }

  lemma PlaceIn(a: seq<string>, x: string) returns (i: nat)
    requires x in a
    ensures i < |a| && a[i] == x
  {
    i :| 0 <= i < |a| && a[i] == x;
  }

  /** The order of first appearance leaves no choice. */
  lemma FirstOccurrencesFix(s: seq<string>, a: seq<string>, b: seq<string>)
    requires FirstOccurrences(s, a) && FirstOccurrences(s, b)
    ensures a == b
  {
    FirstOccurrencesAgree(s, a, b, |a|);
    FirstOccurrencesAgree(s, b, a, |b|);
  }

  lemma {:induction false} LengthIsCount(r: seq<string>)
    requires NoDuplicates(r)
    ensures |r| == Count(r)
  {
    if r != [] {
      var n := |r| - 1;
      LengthIsCount(r[..n]);
      assert (set x | x in r) == (set x | x in r[..n]) + {r[n]};
    }
  }

  lemma CountDistinct(s: seq<string>, r: seq<string>)
    requires FirstOccurrences(s, r)
    ensures |r| == Count(s)
  {
    LengthIsCount(r);
    assert (set x | x in r) == (set x | x in s);
  }

  /** The graph with each dependency once, on which the cycle search runs. */
  ghost function AgentGraph(agents: seq<string>, workflow: Option<map<string, Entry>>): Graph {
    map a | a in agents :: Distinct(Listed(workflow, a))
  }

  /** Repeated dependencies make no difference to what an agent reaches. */
  lemma SameReach(agents: seq<string>, order: seq<string>, workflow: Option<map<string, Entry>>, a: string, b: string)
    requires FirstOccurrences(agents, order)
    ensures Reaches(AgentGraph(order, workflow), a, b) <==> Reaches(ListedGraph(agents, workflow), a, b)
  {
    var g, h, same := AgentGraph(order, workflow), ListedGraph(agents, workflow), map x | x in agents :: x;
    if Reaches(g, a, b) { EmbeddingKeepsReach(g, h, same, a, b); }
    if Reaches(h, a, b) { EmbeddingKeepsReach(h, g, same, a, b); }
  }

  lemma SameAcyclic(agents: seq<string>, order: seq<string>, workflow: Option<map<string, Entry>>)
    requires FirstOccurrences(agents, order)
    ensures Acyclic(AgentGraph(order, workflow)) <==> Acyclic(ListedGraph(agents, workflow))
  {
    forall a ensures Reaches(AgentGraph(order, workflow), a, a) <==> Reaches(ListedGraph(agents, workflow), a, a) {
      SameReach(agents, order, workflow, a, a);
    }
  }

  // ----- the cycle search ------------------------------------------------------------------------

  /**
   * The nested recursive search with its two sets. `finished` and `path` are the evidence:
   * the order in which nodes were left, and the chain of calls that is still open.
   */
  class CycleSearch {
    const graph: Graph
    var visited: set<string>
    var visiting: set<string>
    ghost var finished: seq<string>
    ghost var path: seq<string>

    constructor (g: Graph)
      requires Closed(g)
      ensures graph == g && Valid() && path == [] && visited == {}
    {
      graph, visited, visiting := g, {}, {};
      finished, path := [], [];
    }

    ghost predicate Valid()
      reads this
    {
      && Closed(graph)
      && FinishOrder(graph, finished)
      && (forall n :: n in visited <==> n in finished)
      && NoDuplicates(path)
      && (forall n :: n in visiting <==> n in path)
      && (path != [] ==> IsWalk(graph, path))
      && visited !! visiting
      && visiting <= graph.Keys
    }

    /** Visits `node`; the result is the node at which a cycle was found. */
    method Visit(node: string) returns (cycle: Option<string>)
      requires Valid() && node in graph
      requires path != [] ==> node in graph[path[|path| - 1]]
      modifies this`visited, this`visiting, this`finished, this`path
      ensures cycle.Some? ==> cycle.value in graph && Reaches(graph, cycle.value, cycle.value)
      ensures cycle.None? ==> Valid() && path == old(path) && visiting == old(visiting)
      ensures cycle.None? ==> node in visited && old(visited) <= visited
      decreases graph.Keys - visiting
    {
      if node in visiting {
        OpenCallsCloseACycle(graph, path, node);
        return Some(node);
      }
      if node in visited {
        return None;
      }
      visiting := visiting + {node};
      path := path + [node];
      var deps := graph[node];
      for i := 0 to |deps|
        invariant Valid()
        invariant path == old(path) + [node] && visiting == old(visiting) + {node}
        invariant old(visited) <= visited
        invariant forall d :: d in deps[..i] ==> d in visited
      {
        assert path[|path| - 1] == node && deps[i] in graph[node];
        var inner := Visit(deps[i]);
        if inner.Some? {
          return inner;
        }
      }
      assert deps[..|deps|] == deps;
      ExtendFinishOrder(graph, finished, node);
      visiting := visiting - {node};
      path := path[..|path| - 1];
      assert path == old(path);
      visited := visited + {node};
      finished := finished + [node];
      return None;
    }

    /** Visits every node of `nodes`, as the compiler does for its agents. */
    method VisitAll(nodes: seq<string>) returns (cycle: Option<string>)
      requires Valid() && path == []
      requires forall n :: n in nodes <==> n in graph
      modifies this`visited, this`visiting, this`finished, this`path
      ensures cycle.None? <==> Acyclic(graph)
      ensures cycle.Some? ==> cycle.value in graph && Reaches(graph, cycle.value, cycle.value)
    {
      for i := 0 to |nodes|
        invariant Valid() && path == []
        invariant forall n :: n in nodes[..i] ==> n in visited
      {
        cycle := Visit(nodes[i]);
        if cycle.Some? {
          return;
        }
      }
      forall n | n in graph
        ensures !Reaches(graph, n, n)
      {
        assert n in nodes[..|nodes|];
        FinishedIsAcyclic(graph, finished, n);
      }
      return None;
    }
  }

  lemma OpenCallsCloseACycle(g: Graph, path: seq<string>, node: string)
    requires IsWalk(g, path) && node in path && node in g && node in g[path[|path| - 1]]
    ensures Reaches(g, node, node)
  {
    var k :| 0 <= k < |path| && path[k] == node;
    var p := path[k..] + [node];
    assert IsWalkBetween(g, p, node, node);
  }

  // ----- the steps of the compiler ---------------------------------------------------------------

  /** Deduplicates the agents, keeping their order. */
  method OrderAgents(agents: seq<string>) returns (r: Result<seq<string>, CompileError>)
    ensures r.Success? <==> "" !in agents
    ensures r.Success? ==> FirstOccurrences(agents, r.value)
    ensures r.Failure? ==> r.error == InvalidAgent
  {
    var ordered: seq<string> := [];
    NoneSoFar(agents);
    for i := 0 to |agents|
      invariant "" !in agents[..i]
      invariant FirstSoFar(agents, i, ordered)
    {
      NextOccurrence(agents, i, ordered);
      if agents[i] == "" {
        return Failure(InvalidAgent);
      }
      if agents[i] !in ordered {
        ordered := ordered + [agents[i]];
      }
    }
    AllSeen(agents, ordered);
    return Success(ordered);
  }

  /** Has the `i`-th id been handed out before? */
  method AlreadyUsed(i: nat, factory: nat -> string) returns (used: bool)
    ensures used <==> exists k :: 0 <= k < i && factory(k) == factory(i)
  {
    for k := 0 to i
      invariant forall j :: 0 <= j < k ==> factory(j) != factory(i)
    {
      if factory(k) == factory(i) {
        return true;
      }
    }
    return false;
  }

  /** Gives each distinct agent a fresh execution id. */
  method AssignIds(order: seq<string>, factory: nat -> string)
    returns (r: Result<map<string, string>, CompileError>)
    requires NoDuplicates(order)
    ensures r.Success? <==> UsableIds(|order|, factory)
    ensures r.Success? ==> forall i :: 0 <= i < |order| ==> order[i] in r.value && r.value[order[i]] == factory(i)
    ensures r.Failure? ==> IdFault(r.error, |order|, factory)
  {
    var ids: map<string, string> := map[];
    for i := 0 to |order|
      invariant UsableIds(i, factory)
      invariant forall k :: 0 <= k < i ==> order[k] in ids && ids[order[k]] == factory(k)
    {
      if factory(i) == "" {
        assert !UsableIds(i + 1, factory);
        return Failure(EmptyExecutionId);
      }
      var used := AlreadyUsed(i, factory);
      if used {
        assert !UsableIds(i + 1, factory);
        return Failure(DuplicateExecutionId(factory(i)));
      }
      ids := ids[order[i] := factory(i)];
    }
    return Success(ids);
  }

  method CheckDependency(agents: seq<string>, agent: string, dep: string) returns (e: Option<CompileError>)
    ensures e.None? <==> DependencyUsable(agents, agent, dep)
    ensures e.Some? ==> DependencyFault(e.value, agents, agent, dep)
  {
    if dep == "" {
      return Some(InvalidDependency(agent));
    }
    if dep == agent {
      return Some(SelfDependency(agent));
    }
    if dep !in agents {
      return Some(UnknownDependency(agent, dep));
    }
    return None;
  }

  /** Checks and normalises the dependency list of one agent. */
  method NormalizeDependencies(agents: seq<string>, agent: string, deps: seq<string>)
    returns (r: Result<seq<string>, CompileError>)
    ensures r.Success? <==> forall dep :: dep in deps ==> DependencyUsable(agents, agent, dep)
    ensures r.Success? ==> FirstOccurrences(deps, r.value)
    ensures r.Failure? ==> FirstFault(r.error, agents, agent, deps)
  {
    var normalized: seq<string> := [];
    NoneSoFar(deps);
    for i := 0 to |deps|
      invariant forall j :: 0 <= j < i ==> DependencyUsable(agents, agent, deps[j])
      invariant FirstSoFar(deps, i, normalized)
    {
      NextOccurrence(deps, i, normalized);
      var fault := CheckDependency(agents, agent, deps[i]);
      if fault.Some? {
        return Failure(fault.value);
      }
      if deps[i] !in normalized {
        normalized := normalized + [deps[i]];
      }
    }
    AllSeen(deps, normalized);
    return Success(normalized);
  }

  /** Checks one agent's entry. */
  method ResolveEntry(order: seq<string>, workflow: Option<map<string, Entry>>, agent: string)
    returns (r: Result<Entry, CompileError>)
    ensures r.Success? <==> EntryUsable(order, workflow, agent)
    ensures r.Success? ==> Resolves(workflow, agent, r.value)
    ensures r.Failure? ==> EntryFault(r.error, order, workflow, agent)
  {
    if workflow.None? {
      return Success(Entry("implementation", []));
    }
    if agent !in workflow.value {
      return Failure(MissingAgent(agent));
    }
    var entry := workflow.value[agent];
    if entry.role == "" {
      return Failure(InvalidRole(agent));
    }
    var deps := NormalizeDependencies(order, agent, entry.dependsOn);
    if deps.Failure? {
      return Failure(deps.error);
    }
    return Success(Entry(entry.role, deps.value));
  }

  /** Every agent's entry with its normalised dependencies. */
  ghost predicate Resolved(order: seq<string>, workflow: Option<map<string, Entry>>, entries: map<string, Entry>) {
    && (forall a :: a in entries <==> a in order)
    && forall a :: a in order ==> Resolves(workflow, a, entries[a])
  }

  /** Checks every agent's entry and collects the normalised ones. */
  method ResolveWorkflow(order: seq<string>, workflow: Option<map<string, Entry>>)
    returns (r: Result<map<string, Entry>, CompileError>)
    ensures r.Success? <==> EntriesUsable(order, workflow)
    ensures r.Success? ==> Resolved(order, workflow, r.value)
    ensures r.Failure? ==> exists i :: 0 <= i < |order| && EntryFault(r.error, order, workflow, order[i])
                                       && forall j :: 0 <= j < i ==> EntryUsable(order, workflow, order[j])
  {
    var entries: map<string, Entry> := map[];
    for i := 0 to |order|
      invariant forall j :: 0 <= j < i ==> EntryUsable(order, workflow, order[j])
      invariant Resolved(order[..i], workflow, entries)
    {
      var entry := ResolveEntry(order, workflow, order[i]);
      if entry.Failure? {
        assert !EntryUsable(order, workflow, order[i]);
        return Failure(entry.error);
      }
      entries := entries[order[i] := entry.value];
      assert order[..i + 1] == order[..i] + [order[i]];
    }
    assert order[..|order|] == order;
    return Success(entries);
  }

  function GraphOf(entries: map<string, Entry>): Graph { map a | a in entries :: entries[a].dependsOn }

  lemma GraphOfEntries(order: seq<string>, workflow: Option<map<string, Entry>>, entries: map<string, Entry>)
    requires Resolved(order, workflow, entries)
    ensures GraphOf(entries) == AgentGraph(order, workflow)
  {
    forall a | a in order ensures entries[a].dependsOn == Distinct(Listed(workflow, a)) {
      assert Resolves(workflow, a, entries[a]);
      FirstOccurrencesFix(Listed(workflow, a), entries[a].dependsOn, Distinct(Listed(workflow, a)));
    }
  }

  lemma AgentGraphIsClosed(order: seq<string>, workflow: Option<map<string, Entry>>)
    requires EntriesUsable(order, workflow)
    ensures Closed(AgentGraph(order, workflow))
  {
    forall a, d | a in order && d in Listed(workflow, a)
      ensures d in order
    {
      assert EntryUsable(order, workflow, a) && DependencyUsable(order, a, d);
    }
  }

  /** Replaces every agent of a dependency list by its execution id. */
  method Translate(ids: map<string, string>, deps: seq<string>) returns (r: seq<string>)
    requires forall d :: d in deps ==> d in ids
    ensures |r| == |deps| && forall i :: 0 <= i < |r| ==> r[i] == ids[deps[i]]
  {
    r := [];
    for i := 0 to |deps|
      invariant |r| == i && forall k :: 0 <= k < i ==> r[k] == ids[deps[k]]
    {
      r := r + [ids[deps[i]]];
    }
  }

  /** The unit of the `i`-th agent, with its entry's role and translated dependencies. */
  ghost predicate Built(u: ExecutionUnit, i: nat, order: seq<string>, correlation: string, entries: map<string, Entry>,
                        ids: map<string, string>)
    requires i < |order|
  {
    && order[i] in ids && order[i] in entries
    && u == ExecutionUnit(ids[order[i]], order[i], correlation, i, entries[order[i]].role, u.dependsOn)
    && |u.dependsOn| == |entries[order[i]].dependsOn|
    && forall k :: 0 <= k < |u.dependsOn| ==>
         entries[order[i]].dependsOn[k] in ids && u.dependsOn[k] == ids[entries[order[i]].dependsOn[k]]
  }

  /** Attaches execution ids and translated dependencies to the agents. */
  method BuildUnits(order: seq<string>, correlation: string, entries: map<string, Entry>, ids: map<string, string>)
    returns (units: seq<ExecutionUnit>)
    requires Closed(GraphOf(entries)) && forall a :: a in order <==> a in entries
    requires forall a :: a in order ==> a in ids
    ensures AllBuilt(units, order, correlation, entries, ids)
  {
    units := [];
    for i := 0 to |order|
      invariant |units| == i
      invariant forall k :: 0 <= k < i ==> Built(units[k], k, order, correlation, entries, ids)
    {
      var entry := entries[order[i]];
      assert GraphOf(entries)[order[i]] == entry.dependsOn;
      forall d | d in entry.dependsOn ensures d in ids { assert d in GraphOf(entries); }
      var dependsOn := Translate(ids, entry.dependsOn);
      units := units + [ExecutionUnit(ids[order[i]], order[i], correlation, i, entry.role, dependsOn)];
    }
  }

  /** All units are built from these entries and ids. */
  ghost predicate AllBuilt(units: seq<ExecutionUnit>, order: seq<string>, correlation: string,
                           entries: map<string, Entry>, ids: map<string, string>)
  {
    |units| == |order| && forall i :: 0 <= i < |order| ==> Built(units[i], i, order, correlation, entries, ids)
  }

  lemma BuiltPairs(units: seq<ExecutionUnit>, order: seq<string>, correlation: string, entries: map<string, Entry>,
                   ids: map<string, string>, agent: string)
    requires AllBuilt(units, order, correlation, entries, ids) && agent in order
    ensures agent in ids && Pairs(units, agent, ids[agent])
  {
    var j := PlaceIn(order, agent);
    assert Built(units[j], j, order, correlation, entries, ids);
  }

  lemma BuiltDepends(units: seq<ExecutionUnit>, order: seq<string>, correlation: string, entries: map<string, Entry>,
                     ids: map<string, string>, i: nat)
    requires AllBuilt(units, order, correlation, entries, ids) && i < |order|
    requires order[i] in entries && forall d :: d in entries[order[i]].dependsOn ==> d in order
    ensures IdsOf(units, entries[order[i]].dependsOn, units[i].dependsOn)
  {
    assert Built(units[i], i, order, correlation, entries, ids);
    var deps := entries[order[i]].dependsOn;
    forall k | 0 <= k < |deps| ensures Pairs(units, deps[k], units[i].dependsOn[k]) {
      BuiltPairs(units, order, correlation, entries, ids, deps[k]);
    }
  }

  lemma BuiltIsCompiled(units: seq<ExecutionUnit>, agents: seq<string>, order: seq<string>, correlation: string,
                        workflow: Option<map<string, Entry>>, entries: map<string, Entry>, ids: map<string, string>,
                        factory: nat -> string)
    requires FirstOccurrences(agents, order) && Resolved(order, workflow, entries) && Closed(GraphOf(entries))
    requires forall i :: 0 <= i < |order| ==> order[i] in ids && ids[order[i]] == factory(i)
    requires AllBuilt(units, order, correlation, entries, ids)
    ensures CompiledFrom(units, agents, correlation, workflow, factory)
  {
    forall i | 0 <= i < |order|
      ensures units[i].agentId == order[i] && UnitFor(units, i, correlation, workflow, factory)
    {
      EntryStaysInside(order, entries, order[i]);
      BuiltUnit(units, order, correlation, workflow, entries, ids, factory, i);
    }
    assert AgentsOf(units) == order;
  }

  lemma EntryStaysInside(order: seq<string>, entries: map<string, Entry>, agent: string)
    requires Closed(GraphOf(entries)) && (forall a :: a in entries <==> a in order) && agent in order
    ensures forall d :: d in entries[agent].dependsOn ==> d in order
  {
    var g := GraphOf(entries);
    assert agent in g;
    forall d | d in g[agent] ensures d in order { assert d in g; }
  }

  lemma BuiltUnit(units: seq<ExecutionUnit>, order: seq<string>, correlation: string,
                  workflow: Option<map<string, Entry>>, entries: map<string, Entry>, ids: map<string, string>,
                  factory: nat -> string, i: nat)
    requires AllBuilt(units, order, correlation, entries, ids) && i < |order|
    requires order[i] in entries && Resolves(workflow, order[i], entries[order[i]])
    requires forall d :: d in entries[order[i]].dependsOn ==> d in order
    requires order[i] in ids && ids[order[i]] == factory(i)
    ensures units[i].agentId == order[i] && UnitFor(units, i, correlation, workflow, factory)
  {
    BuiltDepends(units, order, correlation, entries, ids, i);
    assert Built(units[i], i, order, correlation, entries, ids);
  }

  /** The agents that come first in the order are those that appear first in the request. */
  lemma FirstFaultOfRequest(agents: seq<string>, order: seq<string>, workflow: Option<map<string, Entry>>,
                            e: CompileError)
    requires FirstOccurrences(agents, order)
    requires exists i :: 0 <= i < |order| && EntryFault(e, order, workflow, order[i])
                         && forall j :: 0 <= j < i ==> EntryUsable(order, workflow, order[j])
    ensures FirstEntryFault(e, agents, workflow)
  {
    var i :| 0 <= i < |order| && EntryFault(e, order, workflow, order[i])
             && forall j :: 0 <= j < i ==> EntryUsable(order, workflow, order[j]);
    forall b | b in agents && b != order[i] && Precedes(agents, b, order[i])
      ensures EntryUsable(agents, workflow, b)
    {
      var j := PlaceIn(order, b);
      if i < j { NotBothFirst(agents, b, order[i]); }
      assert EntryUsable(order, workflow, order[j]);
    }
    assert EntryFault(e, agents, workflow, order[i]);
  }

  lemma SameEntries(agents: seq<string>, order: seq<string>, workflow: Option<map<string, Entry>>)
    requires FirstOccurrences(agents, order)
    ensures EntriesUsable(order, workflow) <==> EntriesUsable(agents, workflow)
  {
    forall a ensures EntryUsable(order, workflow, a) <==> EntryUsable(agents, workflow, a) {
      forall d ensures DependencyUsable(order, a, d) <==> DependencyUsable(agents, a, d) {}
    }
  }

  /** Compiles one task intent into its execution units. */
  method CompileTaskIntent(project: string, task: string, agents: seq<string>, correlation: string,
                           workflow: Option<map<string, Entry>>, factory: nat -> string)
    returns (r: Result<seq<ExecutionUnit>, CompileError>)
    ensures r.Success? <==> Compilable(project, task, agents, correlation, workflow, factory)
    ensures r.Success? ==> CompiledFrom(r.value, agents, correlation, workflow, factory)
    ensures r.Failure? ==> Justified(r.error, project, task, agents, correlation, workflow, factory)
  {
    if project == "" { return Failure(InvalidProject); }
    if task == "" { return Failure(InvalidTask); }
    if agents == [] { return Failure(NoAgents); }
    var ordered := OrderAgents(agents);
    if ordered.Failure? { return Failure(ordered.error); }
    var order := ordered.value;
    if correlation == "" { return Failure(InvalidCorrelation); }
    CountDistinct(agents, order);
    var ids := AssignIds(order, factory);
    if ids.Failure? { return Failure(ids.error); }
    r := CompileOrdered(project, task, agents, order, correlation, workflow, ids.value, factory);
  }

  /** The second half: the workflow of the ordered agents, which have their ids. */
  method CompileOrdered(ghost project: string, ghost task: string, ghost agents: seq<string>, order: seq<string>,
                        correlation: string, workflow: Option<map<string, Entry>>, ids: map<string, string>,
                        ghost factory: nat -> string)
    returns (r: Result<seq<ExecutionUnit>, CompileError>)
    requires Named(project, task, agents, correlation) && UsableIds(Count(agents), factory)
    requires FirstOccurrences(agents, order)
    requires forall i :: 0 <= i < |order| ==> order[i] in ids && ids[order[i]] == factory(i)
    ensures r.Success? <==> Compilable(project, task, agents, correlation, workflow, factory)
    ensures r.Success? ==> CompiledFrom(r.value, agents, correlation, workflow, factory)
    ensures r.Failure? ==> Justified(r.error, project, task, agents, correlation, workflow, factory)
  {
    SameEntries(agents, order, workflow);
    SameAcyclic(agents, order, workflow);
    var resolved := ResolveWorkflow(order, workflow);
    if resolved.Failure? {
      FirstFaultOfRequest(agents, order, workflow, resolved.error);
      return Failure(resolved.error);
    }
    var entries := resolved.value;
    GraphOfEntries(order, workflow, entries);
    AgentGraphIsClosed(order, workflow);
    var search := new CycleSearch(GraphOf(entries));
    var cycle := search.VisitAll(order);
    if cycle.Some? {
      SameReach(agents, order, workflow, cycle.value, cycle.value);
      return Failure(Cycle(cycle.value));
    }
    var units := BuildUnits(order, correlation, entries, ids);
    BuiltIsCompiled(units, agents, order, correlation, workflow, entries, ids, factory);
    return Success(units);
  }

  // ----- translating agents into execution ids -----------------------------------------------------

  ghost predicate DistinctIds(units: seq<ExecutionUnit>) {
    forall j, k :: 0 <= j < k < |units| ==> units[j].executionId != units[k].executionId
  }

  /** `h` is the execution-id-level dependency graph of `units`. */
  ghost predicate IsUnitGraph(h: Graph, units: seq<ExecutionUnit>) {
    && (forall id :: id in h ==> exists k :: 0 <= k < |units| && units[k].executionId == id)
    && forall k :: 0 <= k < |units| ==> units[k].executionId in h && h[units[k].executionId] == units[k].dependsOn
  }

  /** The units are the agents of `g` under new names, one dependency for each dependency. */
  ghost predicate Renamed(units: seq<ExecutionUnit>, g: Graph) {
    && DistinctIds(units)
    && (forall j, k :: 0 <= j < k < |units| ==> units[j].agentId != units[k].agentId)
    && (forall a :: a in g <==> exists j :: 0 <= j < |units| && units[j].agentId == a)
    && (forall i :: 0 <= i < |units| ==> |units[i].dependsOn| == |g[units[i].agentId]|)
    && forall i, k :: 0 <= i < |units| && 0 <= k < |units[i].dependsOn| ==>
         Pairs(units, g[units[i].agentId][k], units[i].dependsOn[k])
  }

  ghost function IdOf(units: seq<ExecutionUnit>, g: Graph, a: string): (id: string)
    requires Renamed(units, g) && a in g
    ensures Pairs(units, a, id)
  {
    var k :| 0 <= k < |units| && units[k].agentId == a;
    units[k].executionId
  }

  ghost function AgentOf(units: seq<ExecutionUnit>, h: Graph, id: string): (a: string)
    requires IsUnitGraph(h, units) && id in h
    ensures Pairs(units, a, id)
  {
    var k :| 0 <= k < |units| && units[k].executionId == id;
    units[k].agentId
  }

  lemma CompiledUnitsAreRenamed(units: seq<ExecutionUnit>, agents: seq<string>, correlation: string,
                                workflow: Option<map<string, Entry>>, factory: nat -> string)
    requires CompiledFrom(units, agents, correlation, workflow, factory) && UsableIds(Count(agents), factory)
    ensures Renamed(units, AgentGraph(agents, workflow))
  {
    var g, order := AgentGraph(agents, workflow), AgentsOf(units);
    CountDistinct(agents, order);
    forall i | 0 <= i < |units|
      ensures units[i].agentId == order[i] && units[i].executionId == factory(i) && order[i] in g
      ensures |units[i].dependsOn| == |g[order[i]]|
      ensures forall k :: 0 <= k < |units[i].dependsOn| ==> Pairs(units, g[order[i]][k], units[i].dependsOn[k])
    {
      assert order[i] in order && UnitFor(units, i, correlation, workflow, factory);
      var e :| Resolves(workflow, units[i].agentId, e) && units[i].role == e.role
               && IdsOf(units, e.dependsOn, units[i].dependsOn);
      FirstOccurrencesFix(Listed(workflow, order[i]), e.dependsOn, g[order[i]]);
    }
    forall a | a in g ensures exists j :: 0 <= j < |units| && units[j].agentId == a {
      var j := PlaceIn(order, a);
    }
  }

  lemma AgentsEmbedInIds(units: seq<ExecutionUnit>, g: Graph, h: Graph, m: map<string, string>)
    requires Renamed(units, g) && IsUnitGraph(h, units)
    requires m.Keys == g.Keys && forall a :: a in g ==> m[a] == IdOf(units, g, a)
    ensures Embeds(g, h, m)
  {
    forall n, d | n in g && d in g[n] && d in g
      ensures m[d] in h[m[n]]
    {
      assert Pairs(units, n, m[n]) && Pairs(units, d, m[d]);
      var i :| 0 <= i < |units| && units[i].agentId == n && units[i].executionId == m[n];
      var k :| 0 <= k < |g[n]| && g[n][k] == d;
      assert Pairs(units, d, units[i].dependsOn[k]);
    }
    forall n | n in g
      ensures m[n] in h
    {
      assert Pairs(units, n, m[n]);
    }
  }

  lemma IdsEmbedInAgents(units: seq<ExecutionUnit>, g: Graph, h: Graph, m: map<string, string>)
    requires Renamed(units, g) && IsUnitGraph(h, units)
    requires m.Keys == h.Keys && forall id :: id in h ==> m[id] == AgentOf(units, h, id)
    ensures Embeds(h, g, m)
  {
    forall n, d | n in h && d in h[n] && d in h
      ensures m[d] in g[m[n]]
    {
      assert Pairs(units, m[n], n) && Pairs(units, m[d], d);
      var i :| 0 <= i < |units| && units[i].agentId == m[n] && units[i].executionId == n;
      var k :| 0 <= k < |h[n]| && h[n][k] == d;
      assert Pairs(units, g[m[n]][k], d);
    }
  }

  lemma UnitGraphIsClosed(units: seq<ExecutionUnit>, g: Graph, h: Graph)
    requires Renamed(units, g) && IsUnitGraph(h, units)
    ensures Closed(h)
  {
    forall n, d | n in h && d in h[n]
      ensures d in h
    {
      var i :| 0 <= i < |units| && units[i].executionId == n;
      var k :| 0 <= k < |h[n]| && h[n][k] == d;
      assert Pairs(units, g[units[i].agentId][k], d);
    }
  }

  lemma IdOfUnit(units: seq<ExecutionUnit>, g: Graph, i: nat)
    requires Renamed(units, g) && i < |units|
    ensures units[i].agentId in g && IdOf(units, g, units[i].agentId) == units[i].executionId
  {
    assert Pairs(units, units[i].agentId, IdOf(units, g, units[i].agentId));
  }

  lemma AgentOfUnit(units: seq<ExecutionUnit>, h: Graph, i: nat)
    requires DistinctIds(units) && IsUnitGraph(h, units) && i < |units|
    ensures units[i].executionId in h && AgentOf(units, h, units[i].executionId) == units[i].agentId
  {
    assert Pairs(units, AgentOf(units, h, units[i].executionId), units[i].executionId);
  }

  lemma AgentReachIsUnitReach(units: seq<ExecutionUnit>, g: Graph, h: Graph, i: nat, j: nat)
    requires Renamed(units, g) && IsUnitGraph(h, units) && i < |units| && j < |units|
    requires Reaches(g, units[i].agentId, units[j].agentId)
    ensures Reaches(h, units[i].executionId, units[j].executionId)
  {
    var m := map a | a in g :: IdOf(units, g, a);
    AgentsEmbedInIds(units, g, h, m);
    EmbeddingKeepsReach(g, h, m, units[i].agentId, units[j].agentId);
    IdOfUnit(units, g, i);
    IdOfUnit(units, g, j);
  }

  lemma UnitReachIsAgentReach(units: seq<ExecutionUnit>, g: Graph, h: Graph, i: nat, j: nat)
    requires Renamed(units, g) && IsUnitGraph(h, units) && i < |units| && j < |units|
    requires Reaches(h, units[i].executionId, units[j].executionId)
    ensures Reaches(g, units[i].agentId, units[j].agentId)
  {
    var m := map id | id in h :: AgentOf(units, h, id);
    IdsEmbedInAgents(units, g, h, m);
    EmbeddingKeepsReach(h, g, m, units[i].executionId, units[j].executionId);
    AgentOfUnit(units, h, i);
    AgentOfUnit(units, h, j);
  }

  /**
   * Rewriting agents into execution ids keeps the dependency relation: one agent depends on
   * another, directly or not, exactly when its unit depends on the other's unit.
   */
  lemma TranslationPreservesReach(units: seq<ExecutionUnit>, g: Graph, h: Graph, i: nat, j: nat)
    requires Renamed(units, g) && IsUnitGraph(h, units)
    requires i < |units| && j < |units|
    ensures Reaches(g, units[i].agentId, units[j].agentId) <==>
            Reaches(h, units[i].executionId, units[j].executionId)
  {
    if Reaches(g, units[i].agentId, units[j].agentId) {
      AgentReachIsUnitReach(units, g, h, i, j);
    }
    if Reaches(h, units[i].executionId, units[j].executionId) {
      UnitReachIsAgentReach(units, g, h, i, j);
    }
  }

  /** What the compiler accepts has a closed, acyclic graph of execution ids. */
  lemma CompiledGraphIsAcyclic(units: seq<ExecutionUnit>, h: Graph, project: string, task: string,
                               agents: seq<string>, correlation: string, workflow: Option<map<string, Entry>>,
                               factory: nat -> string)
    requires Compilable(project, task, agents, correlation, workflow, factory)
    requires CompiledFrom(units, agents, correlation, workflow, factory)
    requires IsUnitGraph(h, units)
    ensures Closed(h) && Acyclic(h)
  {
    var g := AgentGraph(agents, workflow);
    CompiledUnitsAreRenamed(units, agents, correlation, workflow, factory);
    UnitGraphIsClosed(units, g, h);
    AcceptedGraphIsAcyclic(agents, workflow);
    RenamedIsAcyclic(units, g, h);
  }

  lemma AcceptedGraphIsAcyclic(agents: seq<string>, workflow: Option<map<string, Entry>>)
    requires Acyclic(ListedGraph(agents, workflow))
    ensures Acyclic(AgentGraph(agents, workflow))
  {
    var order := Distinct(agents);
    SameAcyclic(agents, order, workflow);
    assert AgentGraph(agents, workflow) == AgentGraph(order, workflow);
  }

  lemma RenamedIsAcyclic(units: seq<ExecutionUnit>, g: Graph, h: Graph)
    requires Renamed(units, g) && IsUnitGraph(h, units) && Acyclic(g)
    ensures Acyclic(h)
  {
    forall id | id in h
      ensures !Reaches(h, id, id)
    {
      var i :| 0 <= i < |units| && units[i].executionId == id;
      TranslationPreservesReach(units, g, h, i, i);
      assert units[i].agentId in g;
    }
  }
}
