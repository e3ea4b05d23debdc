/**
 * A concrete run in which a completed task goes back to rework: the worker answers, the reviewer's delivery is sent
 * out, the reviewer gives PASS at the endpoint and the representative completes the task. Then the reviewer's delivery,
 * which is still under way, answers with another verdict than the worker's.
 */
module LifecycleReopening {
  import opened Wrappers
  import opened Lifecycle
  import opened LifecycleLaws
  import opened LifecycleTheorems

  function Plain(): Crypto { Crypto(s => s, s => "", p => "") }

  function By(actor: string): Header { Header(actor, "key", "", true, true) }

  function Input(): TaskInput { TaskInput("t", "a", Some("r"), ["a"], "scope", "document", 1, 1, 100, false) }

  function TaskRow(status: TaskStatus, cycle: int): Task {
    Task("p", Some("m"), Some("a"), Some("r"), ["a"], "scope", "document", Some(1), Some(1), Some(100), false, status,
         1, cycle)
  }

  function DeliveryRow(agent: string, status: DeliveryStatus, answered: bool): Delivery {
    Delivery("m", agent, 1, status, answered, None, Some(100), None)
  }

  function Asked(): map<string, Delivery> { map["d1" := DeliveryRow("a", Queued, false)] }

  /** The worker has answered; the reviewer's delivery has the given status. */
  function Answered(reviewer: DeliveryStatus): map<string, Delivery> {
    map["d1" := DeliveryRow("a", Responded, true), "d2" := DeliveryRow("r", reviewer, false)]
  }

  function Bound(): Evidence { Evidence("t", 1, "scope", "document", 1) }

  function Pass(): Verdict { Verdict(Payload("t", PASS, "profile", "r", 1, "scope", "document", 1), "", 0) }

  /** The rows of the run's one project, one instruction and one task. */
  ghost predicate Rows(s: Db, task: Task, deliveries: map<string, Delivery>) {
    && s.control == map["p" := Control(Going, None)] && s.messages == map["m" := "p"]
    && s.tasks == map["t" := task] && s.deliveries == deliveries
  }

  ghost predicate Judged(s: Db, evidence: map<string, Evidence>, verdicts: map<string, Verdict>) {
    s.evidence == evidence && s.verdicts == verdicts
  }

  /** The scopes used so far; no request of the run repeats an earlier one. */
  ghost predicate Spent(idem: IdemTable, scopes: set<Scope>) {
    forall k :: k in idem ==> k.scope in scopes
  }

  /** The actions, each with the store it leaves. */
  function Creating(): Action { Request(By("rep"), MakeProject("p")) }

  function AfterCreate(s: Store): Store { Serve(s, Plain(), By("rep"), CreateProject(s.db, By("rep"), "p")).store }

  function Preparing(): Action { Request(By("rep"), Prepare("p", Input(), "m")) }

  function AfterPrepare(s: Store): Store {
    Serve(s, Plain(), By("rep"), PrepareTask(s.db, 0, By("rep"), "p", Input(), "m")).store
  }

  function Executing(): Action { Request(By("rep"), Execute("t", "approval", 100, ["d1"])) }

  function AfterExecute(s: Store): Store {
    Serve(s, Plain(), By("rep"), ApproveAndExecute(s.db, Plain(), 0, By("rep"), "t", "approval", 100, ["d1"])).store
  }

  function Handing(): Action { Working("d1", "t", HandToQa(QueueNew("d2"))) }

  function AfterHand(s: Store): Store { s.(db := WorkerStep(s.db, Plain(), 0, "d1", "t", HandToQa(QueueNew("d2")))) }

  function Sending(): Action { Working("d2", "t", Progress(Sent)) }

  function AfterSend(s: Store): Store { s.(db := WorkerStep(s.db, Plain(), 0, "d2", "t", Progress(Sent))) }

  function Attaching(): Action { Request(By("rep"), Attach("t", "e")) }

  function AfterAttach(s: Store): Store {
    Serve(s, Plain(), By("rep"), AddEvidence(s.db, Plain(), By("rep"), "t", "e")).store
  }

  function Ruling(): Action { Request(By("r"), Rule("t", PASS, "v", "r", "profile", false, "", true)) }

  function AfterRule(s: Store): Store {
    Serve(s, Plain(), By("r"),
          QaVerdict(s.db, Plain(), 0, By("r"), "t", PASS, "v", "r", "profile", false, "", true)).store
  }

  function Completing(): Action { Request(By("rep"), Complete("t", true, "profile", true)) }

  function AfterComplete(s: Store): Store {
    Serve(s, Plain(), By("rep"), RepresentativeCompletion(s.db, Plain(), By("rep"), "t", true, "profile", true)).store
  }

  function Conflicting(): Action { Working("d2", "t", Conflict) }

  function AfterConflict(s: Store): Store { s.(db := WorkerStep(s.db, Plain(), 0, "d2", "t", Conflict)) }

  const FIRST := {Scope("projects", ""), Scope("prepare", "p"), Scope("approve-execute", "t")}

  const LATER := FIRST + {Scope("evidence", "t"), Scope("qa-verdict", "t")}

  /** The states that the actions go through. */
  ghost predicate IsCreated(s: Store) {
    s.db == NoRows().db.(control := map["p" := Control(Going, None)]) && Spent(s.idem, {Scope("projects", "")})
  }

  ghost predicate IsPrepared(s: Store) {
    && Rows(s.db, TaskRow(AwaitingApproval, 0), map[]) && s.db.approvals == map[] && Judged(s.db, map[], map[])
    && Spent(s.idem, {Scope("projects", ""), Scope("prepare", "p")})
  }

  ghost predicate IsExecuted(s: Store) {
    Rows(s.db, TaskRow(Running, 0), Asked()) && Judged(s.db, map[], map[]) && Spent(s.idem, FIRST)
  }

  ghost predicate IsHandedOver(s: Store, reviewer: DeliveryStatus) {
    Rows(s.db, TaskRow(Qa, 1), Answered(reviewer)) && Judged(s.db, map[], map[]) && Spent(s.idem, FIRST)
  }

  ghost predicate IsAttached(s: Store) {
    && Rows(s.db, TaskRow(Qa, 1), Answered(Sent)) && Judged(s.db, map["e" := Bound()], map[])
    && Spent(s.idem, FIRST + {Scope("evidence", "t")})
  }

  ghost predicate IsRuled(s: Store) {
    && Rows(s.db, TaskRow(Qa, 1), Answered(Sent)) && Judged(s.db, map["e" := Bound()], map["v" := Pass()])
    && Spent(s.idem, LATER)
  }

  ghost predicate IsCompleted(s: Store) { Rows(s.db, TaskRow(Completed, 1), Answered(Sent)) }

  ghost predicate IsReopened(s: Store) { "t" in s.db.tasks && s.db.tasks["t"].status == ReworkRequired }

  lemma Created(s: Store)
    requires s == NoRows()
    ensures IsCreated(AfterCreate(s))
  {
  }

  lemma Prepared(s: Store)
    requires IsCreated(s)
    ensures IsPrepared(AfterPrepare(s))
  {
  }

  lemma Executed(s: Store)
    requires IsPrepared(s)
    ensures IsExecuted(AfterExecute(s))
  {
    assert ReclaimStale(s.db.deliveries, ["a"], 0) == map[];
    assert ["a"][1..] == [] && ["d1"][1..] == [];
    assert QueueAll(map[], "m", 1, Some(100), ["a"], ["d1"]) == Some(Asked());
  }

  lemma QueueingOne(deliveries: map<string, Delivery>, t: Task)
    requires t == TaskRow(Running, 0) && deliveries == map["d1" := DeliveryRow("a", Responded, true)]
    ensures QueueReviewer(deliveries, t, QueueNew("d2")) == Some(Answered(Queued))
  {
    assert Answered(Queued) == deliveries["d2" := DeliveryRow("r", Queued, false)];
  }

  lemma HandedOver(s: Store)
    requires IsExecuted(s)
    ensures IsHandedOver(AfterHand(s), Queued)
  {
    var rows := s.db.deliveries["d1" := s.db.deliveries["d1"].(status := Responded, answered := true)];
    assert rows == map["d1" := DeliveryRow("a", Responded, true)];
    QueueingOne(rows, s.db.tasks["t"]);
    assert ClosesRound(s.db, "d1", s.db.tasks["t"]);
  }

  lemma SentOut(s: Store)
    requires IsHandedOver(s, Queued)
    ensures IsHandedOver(AfterSend(s), Sent)
  {
    assert s.db.deliveries["d2" := s.db.deliveries["d2"].(status := Sent)] == Answered(Sent);
  }

  lemma Attached(s: Store)
    requires IsHandedOver(s, Sent)
    ensures IsAttached(AfterAttach(s))
  {
  }

  lemma Ruled(s: Store)
    requires IsAttached(s)
    ensures IsRuled(AfterRule(s))
  {
  }

  lemma Passed(s: Db)
    requires Rows(s, TaskRow(Qa, 1), Answered(Sent)) && Judged(s, map["e" := Bound()], map["v" := Pass()])
    ensures CurrentEvidence(s, Plain(), "t") && SignedPass(s, Plain(), "t", "profile")
  {
    assert s.evidence["e"] == Evidence("t", 1, Plain().sha("scope"), "document", 1);
    assert IsValidPass(Plain(), "t", TaskRow(Qa, 1), "profile", s.verdicts["v"]);
  }

  lemma CompletionPlan(s: Db, p: Plan)
    requires p == RepresentativeCompletion(s, Plain(), By("rep"), "t", true, "profile", true)
    requires Rows(s, TaskRow(Qa, 1), Answered(Sent)) && Judged(s, map["e" := Bound()], map["v" := Pass()])
    ensures p.open && p.scope == Scope("representative-completion", "t")
    ensures p.effect.Some? && Rows(p.effect.value.0, TaskRow(Completed, 1), Answered(Sent))
  {
    Passed(s);
  }

  lemma Finished(s: Store)
    requires IsRuled(s)
    ensures IsCompleted(AfterComplete(s))
  {
    CompletionPlan(s.db, RepresentativeCompletion(s.db, Plain(), By("rep"), "t", true, "profile", true));
  }

  lemma Reopened(s: Store)
    requires IsCompleted(s)
    ensures IsReopened(AfterConflict(s))
  {
    assert ClosesRound(s.db, "d2", TaskRow(Completed, 1));
  }

  // ----- the run ---------------------------------------------------------------------------------

  ghost predicate Leads(s: Store, a: Action, n: Store) {
    Follows(Moment(s, 0), Plain(), Event(0, a), Moment(n, 0))
  }

  /** A run of `n` actions that gets to the store `s`. */
  ghost predicate RunsTo(past: seq<Moment>, events: seq<Event>, n: nat, s: Store) {
    IsRun(Plain(), past, events) && |events| == n && past[n] == Moment(s, 0)
  }

  ghost predicate Reached(n: nat, s: Store) {
    exists past: seq<Moment>, events: seq<Event> :: RunsTo(past, events, n, s)
  }

  lemma GoOn(past: seq<Moment>, events: seq<Event>, n: nat, s: Store, a: Action, next: Store)
    returns (later: seq<Moment>, longer: seq<Event>)
    requires RunsTo(past, events, n, s) && Leads(s, a, next)
    ensures RunsTo(later, longer, n + 1, next) && later[n] == past[n]
  {
    later, longer := past + [Moment(next, 0)], events + [Event(0, a)];
    forall i | 0 <= i < |longer| ensures Follows(later[i], Plain(), longer[i], later[i + 1]) {
      if i < n { assert Follows(past[i], Plain(), events[i], past[i + 1]); }
    }
  }

  lemma ReachedOn(n: nat, s: Store, a: Action, next: Store)
    requires Reached(n, s) && Leads(s, a, next)
    ensures Reached(n + 1, next)
  {
    var past, events :| RunsTo(past, events, n, s);
    var later, longer := GoOn(past, events, n, s, a, next);
  }

  lemma AtStart(start: Store)
    requires start == NoRows()
    ensures Reached(0, start)
  {
    var past, events: seq<Event> := [Moment(start, 0)], [];
    assert RunsTo(past, events, 0, start);
  }

  lemma CreatingLeads(s: Store)
    ensures Leads(s, Creating(), AfterCreate(s))
  {
  }

  lemma CreatingStep(s: Store) returns (n: Store, a: Action)
    requires s == NoRows()
    ensures Leads(s, a, n) && IsCreated(n)
  {
    CreatingLeads(s);
    Created(s);
    n, a := AfterCreate(s), Creating();
  }

  lemma PreparingLeads(s: Store)
    ensures Leads(s, Preparing(), AfterPrepare(s))
  {
  }

  lemma PreparingStep(s: Store) returns (n: Store, a: Action)
    requires IsCreated(s)
    ensures Leads(s, a, n) && IsPrepared(n)
  {
    PreparingLeads(s);
    Prepared(s);
    n, a := AfterPrepare(s), Preparing();
  }

  lemma ExecutingLeads(s: Store)
    ensures Leads(s, Executing(), AfterExecute(s))
  {
  }

  lemma ExecutingStep(s: Store) returns (n: Store, a: Action)
    requires IsPrepared(s)
    ensures Leads(s, a, n) && IsExecuted(n)
  {
    ExecutingLeads(s);
    Executed(s);
    n, a := AfterExecute(s), Executing();
  }

  lemma HandingLeads(s: Store)
    ensures Leads(s, Handing(), AfterHand(s))
  {
  }

  lemma HandingStep(s: Store) returns (n: Store, a: Action)
    requires IsExecuted(s)
    ensures Leads(s, a, n) && IsHandedOver(n, Queued)
  {
    HandingLeads(s);
    HandedOver(s);
    n, a := AfterHand(s), Handing();
  }

  lemma SendingLeads(s: Store)
    ensures Leads(s, Sending(), AfterSend(s))
  {
  }

  lemma SendingStep(s: Store) returns (n: Store, a: Action)
    requires IsHandedOver(s, Queued)
    ensures Leads(s, a, n) && IsHandedOver(n, Sent)
  {
    SendingLeads(s);
    SentOut(s);
    n, a := AfterSend(s), Sending();
  }

  lemma AttachingLeads(s: Store)
    ensures Leads(s, Attaching(), AfterAttach(s))
  {
  }

  lemma AttachingStep(s: Store) returns (n: Store, a: Action)
    requires IsHandedOver(s, Sent)
    ensures Leads(s, a, n) && IsAttached(n)
  {
    AttachingLeads(s);
    Attached(s);
    n, a := AfterAttach(s), Attaching();
  }

  lemma RulingLeads(s: Store)
    ensures Leads(s, Ruling(), AfterRule(s))
  {
  }

  lemma RulingStep(s: Store) returns (n: Store, a: Action)
    requires IsAttached(s)
    ensures Leads(s, a, n) && IsRuled(n)
  {
    RulingLeads(s);
    Ruled(s);
    n, a := AfterRule(s), Ruling();
  }

  lemma CompletingLeads(s: Store)
    ensures Leads(s, Completing(), AfterComplete(s))
  {
  }

  lemma CompletingStep(s: Store) returns (n: Store, a: Action)
    requires IsRuled(s)
    ensures Leads(s, a, n) && IsCompleted(n)
  {
    CompletingLeads(s);
    Finished(s);
    n, a := AfterComplete(s), Completing();
  }

  lemma ConflictingLeads(s: Store)
    ensures Leads(s, Conflicting(), AfterConflict(s))
  {
  }

  lemma ConflictingStep(s: Store) returns (n: Store, a: Action)
    requires IsCompleted(s)
    ensures Leads(s, a, n) && IsReopened(n)
  {
    ConflictingLeads(s);
    Reopened(s);
    n, a := AfterConflict(s), Conflicting();
  }

  /** Four actions bring the task to QA, the reviewer's delivery queued. */
  lemma ToQa(start: Store) returns (s4: Store)
    requires start == NoRows()
    ensures Reached(4, s4) && IsHandedOver(s4, Queued)
  {
    AtStart(start);
    var s1, a1 := CreatingStep(start);
    ReachedOn(0, start, a1, s1);
    var s2, a2 := PreparingStep(s1);
    ReachedOn(1, s1, a2, s2);
    var s3, a3 := ExecutingStep(s2);
    ReachedOn(2, s2, a3, s3);
    var a4;
    s4, a4 := HandingStep(s3);
    ReachedOn(3, s3, a4, s4);
  }

  /** The next four complete it while that delivery is under way. */
  lemma ToCompleted(s4: Store) returns (s8: Store)
    requires Reached(4, s4) && IsHandedOver(s4, Queued)
    ensures Reached(8, s8) && IsCompleted(s8)
  {
    var s5, a5 := SendingStep(s4);
    ReachedOn(4, s4, a5, s5);
    var s6, a6 := AttachingStep(s5);
    ReachedOn(5, s5, a6, s6);
    var s7, a7 := RulingStep(s6);
    ReachedOn(6, s6, a7, s7);
    var a8;
    s8, a8 := CompletingStep(s7);
    ReachedOn(7, s7, a8, s8);
  }

  ghost predicate StatusIs(m: Moment, status: TaskStatus) {
    "t" in m.store.db.tasks && m.store.db.tasks["t"].status == status
  }

  /** Completed is not final: a run from empty tables completes a task and then takes it back to rework. */
  lemma CompletedTaskReopens() returns (past: seq<Moment>, events: seq<Event>)
    ensures IsRun(Plain(), past, events) && |events| == 9
    ensures StatusIs(past[8], Completed) && StatusIs(past[9], ReworkRequired)
  {
    var s4 := ToQa(NoRows());
    var s8 := ToCompleted(s4);
    past, events :| RunsTo(past, events, 8, s8);
    var s9, a9 := ConflictingStep(s8);
    past, events := GoOn(past, events, 8, s8, a9, s9);
  }
}
