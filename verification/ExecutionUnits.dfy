/**
 * The table of execution units and the parent projection (war_room_execution_units.py).
 * Every method of the store holds the store's lock and one transaction, so it is one step.
 */
module ExecutionUnits {
  import opened Wrappers
  import opened Graphs

  /** A row of war_execution_units. */
  datatype UnitRow = UnitRow(
    project: string,
    task: string,
    correlation: string,
    agent: string,
    role: string,
    dependsOn: seq<string>,
    coreRunId: Option<string>,
    claimedAt: Option<int>,
    createdAt: int)

  type Table = map<string, UnitRow>

  /** The workflow columns of a war_tasks row. */
  datatype Projection = Projection(status: Option<string>, finalizedAt: Option<int>, finalizeCount: nat)

  datatype StoreError =
    | DuplicateCompile(project: string, task: string)
    | UnitExists
    | ParentMissing
    | UnknownUnit(id: string)
    | NotTerminal(status: string)

  datatype NewUnit = NewUnit(id: string, row: UnitRow)

  /** The dependency graph the stored rows describe. */
  function TableGraph(table: Table): Graph {
    map id | id in table :: table[id].dependsOn
  }

  /** `table` with `news` inserted one after the other. */
  function Inserted(table: Table, news: seq<NewUnit>): Table
    decreases |news|
  {
    if news == [] then table else Inserted(table[news[0].id := news[0].row], news[1..])
  }

  /** Can the batch be inserted row by row without meeting a taken id? */
  ghost predicate Insertable(table: Table, news: seq<NewUnit>)
    decreases |news|
  {
    news == [] || (news[0].id !in table && Insertable(table[news[0].id := news[0].row], news[1..]))
  }

  /** No id is taken, neither by the table nor by an earlier unit of the batch. */
  ghost predicate FreshBatch(table: Table, news: seq<NewUnit>) {
    && (forall k :: 0 <= k < |news| ==> news[k].id !in table)
    && forall j, k :: 0 <= j < k < |news| ==> news[j].id != news[k].id
  }

  /** Row-by-row insertion goes through exactly for batches of fresh, distinct ids. */
  lemma {:induction false} InsertableIsFresh(table: Table, news: seq<NewUnit>)
    ensures Insertable(table, news) <==> FreshBatch(table, news)
    decreases |news|
  {
    if news != [] {
      var next, rest := table[news[0].id := news[0].row], news[1..];
      InsertableIsFresh(next, rest);
      if FreshBatch(table, news) {
        forall k | 0 <= k < |rest| ensures rest[k].id !in next {
          assert rest[k] == news[k + 1];
        }
      }
      if news[0].id !in table && FreshBatch(next, rest) {
        forall k | 0 <= k < |news| ensures news[k].id !in table && (k > 0 ==> news[k].id != news[0].id) {
          if k > 0 { assert rest[k - 1].id !in next; }
        }
        forall j, k | 0 <= j < k < |news| ensures news[j].id != news[k].id {
          if j > 0 { assert rest[j - 1].id != rest[k - 1].id; }
        }
      }
    }
  }

  ghost predicate InBatch(news: seq<NewUnit>, id: string) {
    exists k :: 0 <= k < |news| && news[k].id == id
  }

  /** The batch stands in the table unchanged, the old rows stay, and nothing else has appeared. */
  ghost predicate RowsAdded(table: Table, after: Table, news: seq<NewUnit>) {
    && (forall k :: 0 <= k < |news| ==> news[k].id in after && after[news[k].id] == news[k].row)
    && (forall id :: id in table ==> id in after && after[id] == table[id])
    && forall id :: id in after && id !in table ==> InBatch(news, id)
  }

  /** Inserting a fresh batch adds exactly its rows. */
  lemma {:induction false} InsertedRows(table: Table, news: seq<NewUnit>)
    requires FreshBatch(table, news)
    ensures RowsAdded(table, Inserted(table, news), news)
    decreases |news|
  {
    if news != [] {
      var next, rest := table[news[0].id := news[0].row], news[1..];
      InsertableIsFresh(table, news);
      InsertableIsFresh(next, rest);
      InsertedRows(next, rest);
      forall k | 0 <= k < |news|
        ensures news[k].id in Inserted(table, news) && Inserted(table, news)[news[k].id] == news[k].row
      {
        if k > 0 { assert rest[k - 1] == news[k]; } else { assert news[0].id in next; }
      }
      forall id | id in Inserted(table, news) && id !in table
        ensures InBatch(news, id)
      {
        if id in next {
          assert news[0].id == id;
        } else {
          var k :| 0 <= k < |rest| && rest[k].id == id;
          assert news[k + 1].id == id;
        }
      }
    }
  }

  lemma NextInBatch(news: seq<NewUnit>, k: nat)
    requires k < |news|
    ensures forall id :: InBatch(news[..k + 1], id) <==> InBatch(news[..k], id) || id == news[k].id
  {
    assert news[..k + 1] == news[..k] + [news[k]];
    assert forall j :: 0 <= j < k ==> news[..k + 1][j] == news[..k][j];
    assert news[..k + 1][k] == news[k];
  }

  /** The id of row `k` is taken, by the table or by an earlier row of the batch. */
  ghost predicate Taken(table: Table, news: seq<NewUnit>, k: nat)
    requires k < |news|
  {
    news[k].id in table || InBatch(news[..k], news[k].id)
  }

  ghost predicate NoneTaken(table: Table, news: seq<NewUnit>, n: nat)
    requires n <= |news|
  {
    forall k: nat :: k < n ==> !Taken(table, news, k)
  }

  lemma FreshIfNoneTaken(table: Table, news: seq<NewUnit>)
    ensures FreshBatch(table, news) <==> NoneTaken(table, news, |news|)
  {
    if FreshBatch(table, news) {
      forall k: nat | k < |news| ensures !Taken(table, news, k) {
        forall j | 0 <= j < k ensures news[..k][j].id != news[k].id {}
      }
    }
    if NoneTaken(table, news, |news|) {
      forall k | 0 <= k < |news| ensures news[k].id !in table { assert !Taken(table, news, k); }
      forall j, k | 0 <= j < k < |news| ensures news[j].id != news[k].id {
        assert !Taken(table, news, k) && news[..k][j] == news[j];
      }
    }
  }

  /** The first `k` rows have been added; looked into only on demand. */
  ghost predicate AddedSoFar(table: Table, after: Table, news: seq<NewUnit>, k: nat) {
    forall some: seq<NewUnit> :: k <= |news| && some == news[..k] ==> RowsAdded(table, after, some)
  }

  lemma NothingAdded(table: Table, news: seq<NewUnit>)
    ensures AddedSoFar(table, table, news, 0)
  {
  }

  lemma AllAdded(table: Table, after: Table, news: seq<NewUnit>)
    requires AddedSoFar(table, after, news, |news|)
    ensures RowsAdded(table, after, news)
  {
    assert news[..|news|] == news;
  }

  lemma TakenIsThere(table: Table, after: Table, news: seq<NewUnit>, k: nat)
    requires k < |news| && AddedSoFar(table, after, news, k)
    ensures news[k].id in after <==> Taken(table, news, k)
  {
    assert RowsAdded(table, after, news[..k]);
    if InBatch(news[..k], news[k].id) {
      var j :| 0 <= j < k && news[..k][j].id == news[k].id;
    }
  }

  lemma OneRowMore(table: Table, after: Table, news: seq<NewUnit>, k: nat)
    requires k < |news| && AddedSoFar(table, after, news, k) && news[k].id !in after
    ensures AddedSoFar(table, after[news[k].id := news[k].row], news, k + 1)
  {
    assert RowsAdded(table, after, news[..k]);
    NextInBatch(news, k);
    forall j | 0 <= j <= k
      ensures news[j].id in after[news[k].id := news[k].row]
      ensures after[news[k].id := news[k].row][news[j].id] == news[j].row
    {
      if j < k { assert news[..k][j] == news[j]; }
    }
    assert forall j :: 0 <= j <= k ==> news[..k + 1][j] == news[j];
    assert RowsAdded(table, after[news[k].id := news[k].row], news[..k + 1]);
  }

  /** Adding the rows of a fresh batch is inserting them one after the other. */
  lemma AddedIsInserted(table: Table, after: Table, news: seq<NewUnit>)
    requires FreshBatch(table, news) && RowsAdded(table, after, news)
    ensures after == Inserted(table, news)
  {
    InsertedRows(table, news);
    var goal := Inserted(table, news);
    forall id ensures id in after <==> id in goal {}
    forall id | id in after ensures after[id] == goal[id] {
      if id !in table {
        var k :| 0 <= k < |news| && news[k].id == id;
      }
    }
  }

  ghost predicate WorkflowPresent(table: Table, project: string, task: string) {
    exists id :: id in table && table[id].project == project && table[id].task == task
  }

  /** Can this unit be claimed: it exists, has no run, and nobody has claimed it. */
  predicate Claimable(table: Table, id: string) {
    id in table && table[id].coreRunId.None? && table[id].claimedAt.None?
  }

  function Claim(table: Table, id: string, now: int): Table {
    if Claimable(table, id) then table[id := table[id].(claimedAt := Some(now))] else table
  }

  function WithRun(table: Table, id: string, run: string): Table
    requires id in table
  {
    table[id := table[id].(coreRunId := Some(run))]
  }

  class ExecutionUnitStore {
    const projects: set<string>
    var units: Table
    var tasks: map<string, Projection>

    constructor (projects: set<string>, tasks: map<string, Projection>)
      ensures this.projects == projects && this.tasks == tasks && units == map[]
    {
      this.projects, this.tasks, units := projects, tasks, map[];
    }

    /** Does every unit of the batch have its project and task rows? */
    ghost predicate ParentsPresent(news: seq<NewUnit>)
      reads this`tasks
    {
      forall k :: 0 <= k < |news| ==> HasParents(news[k].row)
    }

    /** Does a unit of the batch belong to a workflow that is already stored? */
    method FindExistingWorkflow(news: seq<NewUnit>) returns (hit: Option<NewUnit>)
      ensures hit.Some? <==>
              exists k :: 0 <= k < |news| && WorkflowPresent(units, news[k].row.project, news[k].row.task)
      ensures hit.Some? ==> hit.value in news && WorkflowPresent(units, hit.value.row.project, hit.value.row.task)
    {
      for k := 0 to |news|
        invariant forall j :: 0 <= j < k ==> !WorkflowPresent(units, news[j].row.project, news[j].row.task)
      {
        var row := news[k].row;
        if exists id :: id in units && units[id].project == row.project && units[id].task == row.task {
          return Some(news[k]);
        }
      }
      return None;
    }

    ghost predicate HasParents(row: UnitRow)
      reads this`tasks
    {
      row.project in projects && row.task in tasks
    }

    /** The error is about the first row that cannot be inserted; a taken id shows first. */
    ghost predicate FirstBadRow(table: Table, news: seq<NewUnit>, e: StoreError)
      reads this`tasks
    {
      exists k: nat :: k < |news| && NoneTaken(table, news, k) && (forall j :: 0 <= j < k ==> HasParents(news[j].row))
                       && (if Taken(table, news, k) then e == UnitExists
                           else e == ParentMissing && !HasParents(news[k].row))
    }

    /** Inserts row by row inside one transaction; a failure rolls everything back. */
    method InsertAll(news: seq<NewUnit>) returns (r: Result<(), StoreError>)
      modifies this`units
      ensures r.Success? <==> old(FreshBatch(units, news)) && ParentsPresent(news)
      ensures r.Success? ==> RowsAdded(old(units), units, news)
      ensures r.Failure? ==> units == old(units) && FirstBadRow(units, news, r.error)
    {
      var before := units;
      FreshIfNoneTaken(before, news);
      NothingAdded(before, news);
      for k := 0 to |news|
        invariant AddedSoFar(before, units, news, k) && NoneTaken(before, news, k)
        invariant forall j :: 0 <= j < k ==> HasParents(news[j].row)
      {
        TakenIsThere(before, units, news, k);
        if news[k].id in units {
          units := before;
          return Failure(UnitExists);
        }
        if news[k].row.project !in projects || news[k].row.task !in tasks {
          units := before;
          return Failure(ParentMissing);
        }
        OneRowMore(before, units, news, k);
        units := units[news[k].id := news[k].row];
      }
      AllAdded(before, units, news);
      return Success(());
    }

    /** Why the batch was refused. */
    ghost predicate Unstorable(table: Table, news: seq<NewUnit>, rejectExistingWorkflow: bool, e: StoreError)
      reads this`tasks
    {
      match e
      case DuplicateCompile(p, t) => rejectExistingWorkflow && WorkflowPresent(table, p, t)
      case _ => FirstBadRow(table, news, e)
    }

    /** Creates all units of the batch, or none of them. */
    method CreateUnits(news: seq<NewUnit>, rejectExistingWorkflow: bool) returns (r: Result<(), StoreError>)
      modifies this`units
      ensures r.Success? <==>
              && old(FreshBatch(units, news)) && ParentsPresent(news)
              && (rejectExistingWorkflow ==>
                    !exists k :: 0 <= k < |news| && old(WorkflowPresent(units, news[k].row.project, news[k].row.task)))
      ensures r.Success? ==> RowsAdded(old(units), units, news)
      ensures r.Failure? ==> units == old(units) && Unstorable(units, news, rejectExistingWorkflow, r.error)
    {
      if news == [] {
        return Success(());
      }
      if rejectExistingWorkflow {
        var hit := FindExistingWorkflow(news);
        if hit.Some? {
          return Failure(DuplicateCompile(hit.value.row.project, hit.value.row.task));
        }
      }
      r := InsertAll(news);
    }

    /** Claims an undispatched unit; `None` is a lost race. */
    method ClaimForDispatch(id: string, now: int) returns (claimed: Option<UnitRow>)
      modifies this`units
      ensures claimed.Some? <==>
              id in old(units) && old(units)[id].coreRunId == None && old(units)[id].claimedAt == None
      ensures claimed.Some? ==> claimed.value == old(units)[id].(claimedAt := Some(now))
      ensures units == if claimed.Some? then old(units)[id := claimed.value] else old(units)
    {
      if id in units && units[id].coreRunId.None? && units[id].claimedAt.None? {
        units := units[id := units[id].(claimedAt := Some(now))];
        return Some(units[id]);
      }
      return None;
    }

    method UpdateCoreRunId(id: string, run: string) returns (r: Result<(), StoreError>)
      modifies this`units
      ensures r == if id in old(units) then Success(()) else Failure(UnknownUnit(id))
      ensures units.Keys == old(units).Keys
      ensures forall u :: u in units ==>
                units[u] == if u == id then old(units)[u].(coreRunId := Some(run)) else old(units)[u]
    {
      if id !in units {
        return Failure(UnknownUnit(id));
      }
      units := units[id := units[id].(coreRunId := Some(run))];
      return Success(());
    }

    /** Finalizes the parent once; the result says whether this call won. */
    method FinalizeWorkflowProjection(task: string, status: string, now: int) returns (r: Result<bool, StoreError>)
      modifies this`tasks
      ensures r.Failure? <==> status != "COMPLETED" && status != "FAILED" && status != "BLOCKED"
      ensures r.Failure? ==> r.error == NotTerminal(status)
      ensures r.Success? ==> (r.value <==> task in old(tasks) && old(tasks)[task].finalizedAt == None)
      ensures r == Success(true) ==>
                tasks == old(tasks)[task := Projection(Some(status), Some(now), old(tasks)[task].finalizeCount + 1)]
      ensures r != Success(true) ==> tasks == old(tasks)
    {
      if status !in {"COMPLETED", "FAILED", "BLOCKED"} {
        return Failure(NotTerminal(status));
      }
      if task in tasks && tasks[task].finalizedAt.None? {
        tasks := tasks[task := Projection(Some(status), Some(now), tasks[task].finalizeCount + 1)];
        return Success(true);
      }
      return Success(false);
    }
  }
}
