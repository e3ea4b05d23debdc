/**
 * What every step of the War Room obeys. Each endpoint and each worker step is shown to be
 * lawful; the properties of whole runs then follow from the laws alone.
 */
module LifecycleLaws {
  import opened Wrappers
  import opened Lifecycle

  /** Tasks refer to existing projects and to instructions of their own project, one task each. */
  ghost predicate TaskRefs(s: Db) {
    && (forall t :: t in s.tasks ==> s.tasks[t].project in s.control)
    && (forall t :: t in s.tasks && s.tasks[t].message.Some? ==>
          s.tasks[t].message.value in s.messages && s.messages[s.tasks[t].message.value] == s.tasks[t].project)
    && (forall t, u :: t in s.tasks && u in s.tasks && s.tasks[t].message.Some? ==>
          s.tasks[t].message == s.tasks[u].message ==> t == u)
    && (forall m :: m in s.messages ==> s.messages[m] in s.control)
  }

  ghost predicate RowRefs(s: Db) {
    && (forall d :: d in s.deliveries ==> s.deliveries[d].message in s.messages)
    && (forall a :: a in s.approvals ==> s.approvals[a].task in s.tasks)
    && (forall v :: v in s.verdicts ==> s.verdicts[v].payload.task in s.tasks)
  }

  /** The references between the tables hold. */
  ghost predicate Consistent(s: Db) {
    TaskRefs(s) && RowRefs(s)
  }

  /** An approval that can still carry an execution. */
  ghost predicate Live(a: Approval, now: int) {
    a.approved && a.revoked.None? && Unexpired(a, now)
  }

  /** A task keeps its identity, and its QA cycle grows exactly when it enters QA. */
  ghost predicate TaskLaw(x: Task, y: Task) {
    && y.project == x.project && y.scope == x.scope && y.document == x.document
    && y.assignee == x.assignee && y.agents == x.agents
    && (x.reviewer.Some? ==> y.reviewer == x.reviewer)
    && (x.message.Some? ==> y.message == x.message)
    && y.revision >= x.revision
    && y.qaCycle == if y.status == Qa && x.status != Qa then x.qaCycle + 1 else x.qaCycle
  }

  ghost predicate TasksLaw(s: Db, n: Db) {
    && (forall t :: t in s.tasks ==> t in n.tasks && TaskLaw(s.tasks[t], n.tasks[t]))
    && forall t :: t in n.tasks && t !in s.tasks ==> Waits(n.tasks[t].status) && n.tasks[t].qaCycle == 0
  }

  /** Approval rows only ever get their revocation time, once. */
  ghost predicate ApprovalLaw(x: Approval, y: Approval) {
    y == x || (x.revoked.None? && y.revoked.Some? && y == x.(revoked := y.revoked))
  }

  /** A new approval is for a task that was awaiting one, and an approving one moves the task on. */
  ghost predicate NewApprovalLaw(s: Db, n: Db, a: Approval, now: int) {
    && a.task in s.tasks && s.tasks[a.task].status == AwaitingApproval && a.createdAt == now
    && (a.approved ==> a.task in n.tasks && n.tasks[a.task].status in {Approved, Running})
  }

  ghost predicate ApprovalsLaw(s: Db, n: Db, now: int) {
    && (forall a :: a in s.approvals ==> a in n.approvals && ApprovalLaw(s.approvals[a], n.approvals[a]))
    && (forall a :: a in n.approvals && a !in s.approvals ==> NewApprovalLaw(s, n, n.approvals[a], now))
    && forall a, b :: a in n.approvals && b in n.approvals && a !in s.approvals && b !in s.approvals ==> a == b
  }

  predicate Waits(status: TaskStatus) { status == Draft || status == AwaitingApproval }

  predicate FallsBack(before: TaskStatus, after: TaskStatus) { !Waits(before) && Waits(after) }

  /** A task that falls back to waiting loses every approval that is still live. */
  ghost predicate WaitingLaw(s: Db, n: Db, now: int) {
    forall t, a :: t in s.tasks && t in n.tasks && a in s.approvals && a in n.approvals && n.approvals[a].task == t ==>
      (FallsBack(s.tasks[t].status, n.tasks[t].status) ==> !Live(n.approvals[a], now))
  }

  /** A task starts running on a live approval of exactly its present scope, document and targets. */
  ghost predicate StartLaw(s: Db, n: Db, c: Crypto, now: int) {
    forall t :: t in s.tasks && t in n.tasks && s.tasks[t].status != Running && n.tasks[t].status == Running ==>
      && s.tasks[t].status in {AwaitingApproval, Approved}
      && exists a :: a in n.approvals && n.approvals[a].task == t && Live(n.approvals[a], now)
                     && Matches(n.approvals[a], n.tasks[t], c)
  }

  /** A new verdict is signed, belongs to the task's present QA cycle, and anything but PASS ends that visit. */
  ghost predicate NewVerdictLaw(s: Db, n: Db, c: Crypto, v: Verdict) {
    var t := v.payload.task;
    && t in s.tasks && t in n.tasks && s.tasks[t].status == Qa
    && v.payload.qaCycle == s.tasks[t].qaCycle && v.signature == c.sign(v.payload)
    && n.tasks[t].status == if v.payload.kind == PASS then Qa else ReworkRequired
  }

  ghost predicate VerdictsLaw(s: Db, n: Db, c: Crypto) {
    && (forall v :: v in s.verdicts ==> v in n.verdicts && n.verdicts[v] == s.verdicts[v])
    && forall v :: v in n.verdicts && v !in s.verdicts ==> NewVerdictLaw(s, n, c, n.verdicts[v])
  }

  ghost predicate HasValidPass(s: Db, c: Crypto, t: string)
    requires t in s.tasks
  {
    exists v, profile :: v in s.verdicts && IsValidPass(c, t, s.tasks[t], profile, s.verdicts[v])
  }

  /** Completion needs the signed PASS of the present cycle; `exempt` is the task of a worker conflict. */
  ghost predicate CompletionLaw(s: Db, n: Db, c: Crypto, exempt: Option<string>) {
    forall t :: t in s.tasks && t in n.tasks ==>
      && (n.tasks[t].status == Completed && s.tasks[t].status != Completed ==>
            s.tasks[t].status == Qa && HasValidPass(s, c, t) && n.tasks[t] == s.tasks[t].(status := Completed))
      && (s.tasks[t].status == Completed ==> n.tasks[t].status == Completed || exempt == Some(t))
  }

  ghost predicate BusyTask(s: Db, p: string, t: string) {
    t in s.tasks && s.tasks[t].project == p && IsBusy(s.tasks[t].status)
  }

  ghost predicate ActiveDelivery(s: Db, p: string, d: string) {
    d in s.deliveries && ProjectOfDelivery(s, d, p) && IsActive(s.deliveries[d].status)
  }

  /** While a project is not going, and when it stops going, no task gets busy and no delivery becomes active. */
  ghost predicate BarrierLaw(s: Db, n: Db) {
    && (forall p :: p in s.control ==> p in n.control)
    && (forall p :: p in n.control && p !in s.control ==> n.control[p].state == Going)
    && (forall p, t :: p in s.control && p in n.control && n.control[p].state != Going && BusyTask(n, p, t) ==>
          s.control[p].state != Going && BusyTask(s, p, t))
    && forall p, d :: p in s.control && p in n.control && n.control[p].state != Going && ActiveDelivery(n, p, d) ==>
         s.control[p].state != Going && ActiveDelivery(s, p, d)
  }

  ghost predicate Lawful(s: Db, n: Db, c: Crypto, now: int, exempt: Option<string>) {
    && Consistent(n)
    && TasksLaw(s, n)
    && ApprovalsLaw(s, n, now)
    && WaitingLaw(s, n, now)
    && StartLaw(s, n, c, now)
    && VerdictsLaw(s, n, c)
    && CompletionLaw(s, n, c, exempt)
    && BarrierLaw(s, n)
  }

  /** Leaving everything alone is lawful. */
  lemma NoChangeLawful(s: Db, c: Crypto, now: int)
    requires Consistent(s)
    ensures Lawful(s, s, c, now, None)
  {
  }

  /** No delivery of a project that is not going becomes active. */
  ghost predicate DeliveriesLaw(s: Db, n: Db) {
    forall d :: d in n.deliveries ==>
      && n.deliveries[d].message in s.messages
      && (IsActive(n.deliveries[d].status) ==>
            || (d in s.deliveries && IsActive(s.deliveries[d].status)
                && n.deliveries[d].message == s.deliveries[d].message)
            || NotStopped(s, s.messages[n.deliveries[d].message]))
  }

  /** What has to be checked of the one task a step changes. */
  ghost predicate TaskMove(s: Db, n: Db, c: Crypto, now: int, task: string, exempt: Option<string>)
    requires task in s.tasks && task in n.tasks
  {
    var x, y := s.tasks[task], n.tasks[task];
    && TaskLaw(x, y) && y.message == x.message
    && (IsBusy(y.status) ==> IsBusy(x.status) || NotStopped(s, x.project))
    && (FallsBack(x.status, y.status) ==> forall a :: a in n.approvals && n.approvals[a].task == task ==>
        !Live(n.approvals[a], now))
    && (x.status != Running && y.status == Running ==>
          && x.status in {AwaitingApproval, Approved}
          && exists a :: a in n.approvals && n.approvals[a].task == task && Live(n.approvals[a], now)
                         && Matches(n.approvals[a], y, c))
    && (y.status == Completed && x.status != Completed ==>
        x.status == Qa && HasValidPass(s, c, task) && y == x.(status := Completed))
    && (x.status == Completed ==> y.status == Completed || exempt == Some(task))
  }

  /** The step changes one task, and approvals, verdicts and deliveries each within their law. */
  ghost predicate Local(s: Db, n: Db, c: Crypto, now: int, task: string, exempt: Option<string>)
    requires task in s.tasks && task in n.tasks
  {
    && n.tasks == s.tasks[task := n.tasks[task]] && n.messages == s.messages && n.control == s.control
    && TaskMove(s, n, c, now, task, exempt)
    && ApprovalsLaw(s, n, now)
    && VerdictsLaw(s, n, c)
    && DeliveriesLaw(s, n)
  }

  lemma LocalTaskRefs(s: Db, n: Db, c: Crypto, now: int, task: string, exempt: Option<string>)
    requires TaskRefs(s) && task in s.tasks && task in n.tasks && Local(s, n, c, now, task, exempt)
    ensures TaskRefs(n)
  {
    forall t | t in n.tasks
      ensures n.tasks[t].message == s.tasks[t].message && n.tasks[t].project == s.tasks[t].project
    {
    }
  }

  lemma LocalRowRefs(s: Db, n: Db, c: Crypto, now: int, task: string, exempt: Option<string>)
    requires RowRefs(s) && task in s.tasks && task in n.tasks && Local(s, n, c, now, task, exempt)
    ensures RowRefs(n)
  {
    forall a | a in n.approvals
      ensures n.approvals[a].task in n.tasks
    {
      if a !in s.approvals { assert NewApprovalLaw(s, n, n.approvals[a], now); }
    }
    forall v | v in n.verdicts
      ensures n.verdicts[v].payload.task in n.tasks
    {
      if v !in s.verdicts { assert NewVerdictLaw(s, n, c, n.verdicts[v]); }
    }
  }

  lemma LocalTasks(s: Db, n: Db, c: Crypto, now: int, task: string, exempt: Option<string>)
    requires Consistent(s) && task in s.tasks && task in n.tasks && Local(s, n, c, now, task, exempt)
    ensures TasksLaw(s, n) && WaitingLaw(s, n, now) && StartLaw(s, n, c, now)
  {
  }

  lemma LocalCompletion(s: Db, n: Db, c: Crypto, now: int, task: string, exempt: Option<string>)
    requires Consistent(s) && task in s.tasks && task in n.tasks && Local(s, n, c, now, task, exempt)
    ensures CompletionLaw(s, n, c, exempt)
  {
  }

  lemma LocalBarrier(s: Db, n: Db, c: Crypto, now: int, task: string, exempt: Option<string>)
    requires Consistent(s) && task in s.tasks && task in n.tasks && Local(s, n, c, now, task, exempt)
    ensures BarrierLaw(s, n)
  {
  }

  lemma LocalLawful(s: Db, n: Db, c: Crypto, now: int, task: string, exempt: Option<string>)
    requires Consistent(s) && task in s.tasks && task in n.tasks && Local(s, n, c, now, task, exempt)
    ensures Lawful(s, n, c, now, exempt)
  {
    LocalTaskRefs(s, n, c, now, task, exempt);
    LocalRowRefs(s, n, c, now, task, exempt);
    LocalTasks(s, n, c, now, task, exempt);
    LocalCompletion(s, n, c, now, task, exempt);
    LocalBarrier(s, n, c, now, task, exempt);
    assert ApprovalsLaw(s, n, now) && VerdictsLaw(s, n, c);
  }

  lemma SameDeliveries(s: Db, n: Db)
    requires Consistent(s) && n.deliveries == s.deliveries
    ensures DeliveriesLaw(s, n)
  {
  }

  lemma SameApprovals(s: Db, n: Db, now: int)
    requires n.approvals == s.approvals
    ensures ApprovalsLaw(s, n, now)
  {
  }

  lemma SameVerdicts(s: Db, n: Db, c: Crypto)
    requires n.verdicts == s.verdicts
    ensures VerdictsLaw(s, n, c)
  {
  }

  lemma OneMoreApproval(s: Db, n: Db, id: string, now: int)
    requires id !in s.approvals && id in n.approvals && n.approvals == s.approvals[id := n.approvals[id]]
    requires NewApprovalLaw(s, n, n.approvals[id], now)
    ensures ApprovalsLaw(s, n, now)
  {
  }

  lemma OneMoreVerdict(s: Db, n: Db, c: Crypto, id: string)
    requires id !in s.verdicts && id in n.verdicts && n.verdicts == s.verdicts[id := n.verdicts[id]]
    requires NewVerdictLaw(s, n, c, n.verdicts[id])
    ensures VerdictsLaw(s, n, c)
  {
  }

  /** No task that was there moves, and new ones wait. */
  ghost predicate Calm(s: Db, n: Db) {
    && (forall t :: t in s.tasks ==>
          t in n.tasks && TaskLaw(s.tasks[t], n.tasks[t]) && n.tasks[t].status == s.tasks[t].status)
    && forall t :: t in n.tasks && t !in s.tasks ==> Waits(n.tasks[t].status) && n.tasks[t].qaCycle == 0
  }

  lemma CalmLaws(s: Db, n: Db, c: Crypto, now: int)
    requires Calm(s, n)
    ensures TasksLaw(s, n) && WaitingLaw(s, n, now) && StartLaw(s, n, c, now) && CompletionLaw(s, n, c, None)
  {
  }

  ghost predicate LawfulPlan(s: Db, p: Plan, c: Crypto, now: int) {
    p.effect.Some? ==> Lawful(s, p.effect.value.0, c, now, None)
  }

  // ----- approvals ---------------------------------------------------------------------------

  lemma ApproveTaskLawful(s: Db, c: Crypto, now: int, h: Header, task: string, approve: bool, id: string,
                          expires: Option<int>)
    requires Consistent(s)
    ensures LawfulPlan(s, ApproveTask(s, c, now, h, task, approve, id, expires), c, now)
  {
    var p := ApproveTask(s, c, now, h, task, approve, id, expires);
    if p.effect.Some? {
      DecidedLawful(s, p.effect.value.0, c, now, task, id);
    }
  }

  /** One decision is recorded and moves a task that awaited it. */
  lemma DecidedLawful(s: Db, n: Db, c: Crypto, now: int, task: string, id: string)
    requires Consistent(s) && task in s.tasks && s.tasks[task].status == AwaitingApproval
    requires id !in s.approvals && id in n.approvals && n.approvals[id].task == task && n.approvals[id].createdAt == now
    requires task in n.tasks
             && n.tasks[task] == s.tasks[task].(status := if n.approvals[id].approved then Approved else Draft)
    requires n == s.(approvals := s.approvals[id := n.approvals[id]], tasks := s.tasks[task := n.tasks[task]])
    ensures Lawful(s, n, c, now, None)
  {
    OneMoreApproval(s, n, id, now);
    SameVerdicts(s, n, c);
    SameDeliveries(s, n);
    assert TaskMove(s, n, c, now, task, None);
    LocalLawful(s, n, c, now, task, None);
  }

  lemma {:induction false} QueueAllRows(deliveries: map<string, Delivery>, message: string, revision: int,
                                        deadline: Option<int>,
                                        agents: seq<string>, ids: seq<string>)
    requires QueueAll(deliveries, message, revision, deadline, agents, ids).Some?
    ensures var after := QueueAll(deliveries, message, revision, deadline, agents, ids).value;
            && (forall d :: d in deliveries ==> d in after && after[d] == deliveries[d])
            && forall d :: d in after && d !in deliveries ==> after[d].message == message && after[d].status == Queued
    decreases |agents|
  {
    if agents != [] {
      var next := deliveries[ids[0] := Delivery(message, agents[0], revision, Queued, false, None, deadline, None)];
      QueueAllRows(next, message, revision, deadline, agents[1..], ids[1..]);
    }
  }

  /** Queueing for a going project on top of rows that only became less active is lawful. */
  lemma QueueLawful(s: Db, base: map<string, Delivery>, message: string, revision: int, deadline: Option<int>,
                    agents: seq<string>, ids: seq<string>, n: Db)
    requires Consistent(s) && message in s.messages && NotStopped(s, s.messages[message])
    requires DeliveriesLaw(s, s.(deliveries := base))
    requires QueueAll(base, message, revision, deadline, agents, ids) == Some(n.deliveries)
    ensures DeliveriesLaw(s, n)
  {
    QueueAllRows(base, message, revision, deadline, agents, ids);
    var b := s.(deliveries := base);
    forall d | d in n.deliveries
      ensures n.deliveries[d].message in s.messages
      ensures IsActive(n.deliveries[d].status) ==>
            || (d in s.deliveries && IsActive(s.deliveries[d].status)
                && n.deliveries[d].message == s.deliveries[d].message)
            || NotStopped(s, s.messages[n.deliveries[d].message])
    {
      if d in base { assert b.deliveries[d] == n.deliveries[d]; }
    }
  }

  lemma ReclaimLawful(s: Db, agents: seq<string>, now: int)
    requires Consistent(s)
    ensures DeliveriesLaw(s, s.(deliveries := ReclaimStale(s.deliveries, agents, now)))
  {
  }

  lemma ApproveAndExecuteLawful(s: Db, c: Crypto, now: int, h: Header, task: string, id: string, expires: int,
                                ids: seq<string>)
    requires Consistent(s)
    ensures LawfulPlan(s, ApproveAndExecute(s, c, now, h, task, id, expires, ids), c, now)
  {
    var p := ApproveAndExecute(s, c, now, h, task, id, expires, ids);
    if p.effect.Some? {
      var n, t := p.effect.value.0, s.tasks[task];
      if t.status == Running && t.message.Some? {
        NoChangeLawful(s, c, now);
      } else {
        OneMoreApproval(s, n, id, now);
        SameVerdicts(s, n, c);
        ReclaimLawful(s, t.agents, now);
        QueueLawful(s, ReclaimStale(s.deliveries, t.agents, now), t.message.value, t.revision, t.deadline, t.agents,
                    ids, n);
        assert Live(n.approvals[id], now) && Matches(n.approvals[id], n.tasks[task], c);
        assert TaskMove(s, n, c, now, task, None);
        LocalLawful(s, n, c, now, task, None);
      }
    }
  }

  lemma RevokeApprovalLawful(s: Db, c: Crypto, now: int, h: Header, task: string, id: string)
    requires Consistent(s)
    ensures LawfulPlan(s, RevokeApproval(s, now, h, task, id), c, now)
  {
    var p := RevokeApproval(s, now, h, task, id);
    if p.effect.Some? {
      var n := p.effect.value.0;
      SameVerdicts(s, n, c);
      SameDeliveries(s, n);
      assert TaskMove(s, n, c, now, task, None);
      LocalLawful(s, n, c, now, task, None);
    }
  }

  lemma AssignReviewerLawful(s: Db, c: Crypto, now: int, h: Header, task: string, reviewer: string,
                             expectedRevision: int, activeRun: bool)
    requires Consistent(s)
    ensures LawfulPlan(s, AssignReviewer(s, now, h, task, reviewer, expectedRevision, activeRun), c, now)
  {
    var p := AssignReviewer(s, now, h, task, reviewer, expectedRevision, activeRun);
    if p.effect.Some? {
      ReviewerLawful(s, p.effect.value.0, c, now, task);
    }
  }

  lemma RevokeUnexpiredLawful(s: Db, n: Db, task: string, now: int)
    requires n.approvals == RevokeUnexpired(s.approvals, task, now)
    ensures ApprovalsLaw(s, n, now)
    ensures forall a :: a in n.approvals && n.approvals[a].task == task ==> !Live(n.approvals[a], now)
  {
  }

  /** A task without a reviewer gets one and waits for a new approval. */
  lemma ReviewerLawful(s: Db, n: Db, c: Crypto, now: int, task: string)
    requires Consistent(s) && task in s.tasks && task in n.tasks && s.tasks[task].status != Completed
    requires n == s.(tasks := s.tasks[task := n.tasks[task]], approvals := RevokeUnexpired(s.approvals, task, now))
    requires TaskLaw(s.tasks[task], n.tasks[task]) && n.tasks[task].message == s.tasks[task].message
    requires n.tasks[task].status == AwaitingApproval
    ensures Lawful(s, n, c, now, None)
  {
    RevokeUnexpiredLawful(s, n, task, now);
    SameVerdicts(s, n, c);
    SameDeliveries(s, n);
    assert TaskMove(s, n, c, now, task, None);
    LocalLawful(s, n, c, now, task, None);
  }

  // ----- transitions -------------------------------------------------------------------------

  lemma RevokeTaskLawful(s: Db, n: Db, task: string, now: int)
    requires n.approvals == RevokeTask(s.approvals, task, now)
    ensures ApprovalsLaw(s, n, now)
    ensures forall a :: a in n.approvals && n.approvals[a].task == task ==> !Live(n.approvals[a], now)
  {
  }

  /** A step that only moves the one task. */
  lemma MoveLawful(s: Db, n: Db, c: Crypto, now: int, task: string)
    requires Consistent(s) && task in s.tasks && task in n.tasks
    requires n == s.(tasks := s.tasks[task := n.tasks[task]]) && TaskMove(s, n, c, now, task, None)
    ensures Lawful(s, n, c, now, None)
  {
    SameApprovals(s, n, now);
    SameVerdicts(s, n, c);
    SameDeliveries(s, n);
    LocalLawful(s, n, c, now, task, None);
  }

  lemma StartLawful(s: Db, c: Crypto, now: int, task: string, chosen: string)
    requires Consistent(s) && task in s.tasks && s.tasks[task].status == Approved
             && NotStopped(s, s.tasks[task].project)
    requires StartEffect(s, c, now, task, chosen).Some?
    ensures Lawful(s, StartEffect(s, c, now, task, chosen).value.0, c, now, None)
  {
    var n := StartEffect(s, c, now, task, chosen).value.0;
    assert Live(n.approvals[chosen], now) && Matches(n.approvals[chosen], n.tasks[task], c);
    MoveLawful(s, n, c, now, task);
  }

  lemma EnterQaLawful(s: Db, c: Crypto, now: int, task: string, runsPassed: bool)
    requires Consistent(s) && task in s.tasks && s.tasks[task].status == Running && NotStopped(s, s.tasks[task].project)
    requires EnterQaEffect(s, task, runsPassed).Some?
    ensures Lawful(s, EnterQaEffect(s, task, runsPassed).value.0, c, now, None)
  {
    MoveLawful(s, EnterQaEffect(s, task, runsPassed).value.0, c, now, task);
  }

  /** A step that moves the task and revokes all of its open approvals. */
  lemma RevokingMoveLawful(s: Db, n: Db, c: Crypto, now: int, task: string)
    requires Consistent(s) && task in s.tasks && task in n.tasks
    requires n == s.(tasks := s.tasks[task := n.tasks[task]], approvals := RevokeTask(s.approvals, task, now))
    requires TaskLaw(s.tasks[task], n.tasks[task]) && n.tasks[task].message == s.tasks[task].message
    requires n.tasks[task].status in {AwaitingApproval, Stopped, StopUnconfirmed} && s.tasks[task].status != Completed
    ensures Lawful(s, n, c, now, None)
  {
    RevokeTaskLawful(s, n, task, now);
    SameVerdicts(s, n, c);
    SameDeliveries(s, n);
    assert TaskMove(s, n, c, now, task, None);
    LocalLawful(s, n, c, now, task, None);
  }

  lemma ReopenLawful(s: Db, c: Crypto, now: int, task: string, newDeadline: Option<int>)
    requires Consistent(s) && task in s.tasks && AllowedTransition(s.tasks[task].status, AwaitingApproval)
    requires ReopenEffect(s, now, task, newDeadline).Some?
    ensures Lawful(s, ReopenEffect(s, now, task, newDeadline).value.0, c, now, None)
  {
    var n := ReopenEffect(s, now, task, newDeadline).value.0;
    if s.tasks[task].status == Draft {
      MoveLawful(s, n, c, now, task);
    } else {
      RevokingMoveLawful(s, n, c, now, task);
    }
  }

  lemma PlainMoveLawful(s: Db, n: Db, c: Crypto, now: int, task: string, target: TaskStatus)
    requires Consistent(s) && task in s.tasks && AllowedTransition(s.tasks[task].status, target)
    requires target in {ReworkRequired, Stopped, StopUnconfirmed}
    requires n
             == s.(tasks := if target == ReworkRequired then Revise(s.tasks, task, target)
                   else SetStatus(s.tasks, task, target))
    ensures Lawful(s, n, c, now, None)
  {
    MoveLawful(s, n, c, now, task);
  }

  lemma TransitionLawful(s: Db, c: Crypto, now: int, h: Header, task: string, target: TaskStatus,
                         chosen: string, newDeadline: Option<int>, runsPassed: bool)
    requires Consistent(s)
    ensures LawfulPlan(s, TransitionTask(s, c, now, h, task, target, chosen, newDeadline, runsPassed), c, now)
  {
    var p := TransitionTask(s, c, now, h, task, target, chosen, newDeadline, runsPassed);
    if p.effect.Some? {
      if target == Running {
        StartLawful(s, c, now, task, chosen);
      } else if target == Qa {
        EnterQaLawful(s, c, now, task, runsPassed);
      } else if target == AwaitingApproval {
        ReopenLawful(s, c, now, task, newDeadline);
      } else {
        PlainMoveLawful(s, p.effect.value.0, c, now, task, target);
      }
    }
  }

  // ----- QA ----------------------------------------------------------------------------------

  /** A step that touches nothing the laws speak of, apart from deliveries. */
  lemma AsideLawful(s: Db, n: Db, c: Crypto, now: int)
    requires Consistent(s) && DeliveriesLaw(s, n)
    requires n == s.(deliveries := n.deliveries, evidence := n.evidence)
    ensures Lawful(s, n, c, now, None)
  {
    AsideBarrier(s, n);
    assert TaskRefs(n) && RowRefs(n);
    CalmLaws(s, n, c, now);
    SameApprovals(s, n, now);
    SameVerdicts(s, n, c);
  }

  lemma AsideBarrier(s: Db, n: Db)
    requires Consistent(s) && DeliveriesLaw(s, n)
    requires n == s.(deliveries := n.deliveries, evidence := n.evidence)
    ensures BarrierLaw(s, n)
  {
    assert forall p, t :: BusyTask(n, p, t) <==> BusyTask(s, p, t);
  }

  lemma AddEvidenceLawful(s: Db, c: Crypto, now: int, h: Header, task: string, id: string)
    requires Consistent(s)
    ensures LawfulPlan(s, AddEvidence(s, c, h, task, id), c, now)
  {
    var p := AddEvidence(s, c, h, task, id);
    if p.effect.Some? {
      SameDeliveries(s, p.effect.value.0);
      AsideLawful(s, p.effect.value.0, c, now);
    }
  }

  lemma QaVerdictLawful(s: Db, c: Crypto, now: int, h: Header, task: string, kind: VerdictKind, id: string,
                        principal: string,
                        profile: string, fromAgent: bool, signature: string, evidenceOk: bool)
    requires Consistent(s)
    ensures LawfulPlan(s,
                       QaVerdict(s, c, now, h, task, kind, id, principal, profile, fromAgent, signature, evidenceOk),
                       c, now)
  {
    var p := QaVerdict(s, c, now, h, task, kind, id, principal, profile, fromAgent, signature, evidenceOk);
    if p.effect.Some? {
      SameDeliveries(s, p.effect.value.0);
      assert p.effect.value.0.tasks == s.tasks[task := p.effect.value.0.tasks[task]];
      RecordVerdictLawful(s, p.effect.value.0, c, now, task, id);
    }
  }

  /** Recording a signed verdict on a task in QA. */
  lemma RecordVerdictLawful(s: Db, n: Db, c: Crypto, now: int, task: string, id: string)
    requires Consistent(s) && task in s.tasks && s.tasks[task].status == Qa && id !in s.verdicts && id in n.verdicts
    requires n.verdicts == s.verdicts[id := n.verdicts[id]]
    requires task in n.tasks && n.tasks == s.tasks[task := n.tasks[task]]
    requires var v := n.verdicts[id];
             && v.payload.task == task && v.payload.qaCycle == s.tasks[task].qaCycle && v.signature == c.sign(v.payload)
             && n.tasks[task] == if v.payload.kind == PASS then s.tasks[task]
                                 else s.tasks[task].(status := ReworkRequired, revision := s.tasks[task].revision + 1)
    requires n == s.(tasks := n.tasks, verdicts := n.verdicts, deliveries := n.deliveries) && DeliveriesLaw(s, n)
    ensures Lawful(s, n, c, now, None)
  {
    SameApprovals(s, n, now);
    assert NewVerdictLaw(s, n, c, n.verdicts[id]);
    OneMoreVerdict(s, n, c, id);
    assert TaskMove(s, n, c, now, task, None);
    LocalLawful(s, n, c, now, task, None);
  }

  lemma RepresentativeCompletionLawful(s: Db, c: Crypto, now: int, h: Header, task: string, approve: bool,
                                       profile: string, checksOk: bool)
    requires Consistent(s)
    ensures LawfulPlan(s, RepresentativeCompletion(s, c, h, task, approve, profile, checksOk), c, now)
  {
    var p := RepresentativeCompletion(s, c, h, task, approve, profile, checksOk);
    if p.effect.Some? {
      var n := p.effect.value.0;
      if approve { assert HasValidPass(s, c, task); }
      MoveLawful(s, n, c, now, task);
    }
  }

  lemma BypassLawful(s: Db, t: Task)
    requires Consistent(s)
    ensures DeliveriesLaw(s, s.(deliveries := BypassWorkers(s.deliveries, t)))
  {
  }

  lemma QueueReviewerLawful(s: Db, base: map<string, Delivery>, t: Task, q: QaQueue, n: Db)
    requires Consistent(s) && t.message.Some? && t.message.value in s.messages
             && NotStopped(s, s.messages[t.message.value])
    requires DeliveriesLaw(s, s.(deliveries := base))
    requires QueueReviewer(base, t, q) == Some(n.deliveries)
    ensures DeliveriesLaw(s, n)
  {
    var b := s.(deliveries := base);
    forall d | d in n.deliveries && d in base ensures n.deliveries[d] == b.deliveries[d] {}
  }

  /** A step that moves the task into QA or rework and changes deliveries and evidence besides. */
  lemma DeliveringMoveLawful(s: Db, n: Db, c: Crypto, now: int, task: string, exempt: Option<string>)
    requires Consistent(s) && task in s.tasks && task in n.tasks && DeliveriesLaw(s, n)
    requires n == s.(tasks := s.tasks[task := n.tasks[task]], deliveries := n.deliveries, evidence := n.evidence)
    requires TaskLaw(s.tasks[task], n.tasks[task]) && n.tasks[task].message == s.tasks[task].message
    requires n.tasks[task].status in {Qa, ReworkRequired} && NotStopped(s, s.tasks[task].project)
    requires s.tasks[task].status != Completed || exempt == Some(task)
    ensures Lawful(s, n, c, now, exempt)
  {
    SameApprovals(s, n, now);
    SameVerdicts(s, n, c);
    assert TaskMove(s, n, c, now, task, exempt);
    LocalLawful(s, n, c, now, task, exempt);
  }

  lemma RevalidateEffectLawful(s: Db, c: Crypto, now: int, task: string, copies: set<string>, q: QaQueue)
    requires Consistent(s) && task in s.tasks && NotStopped(s, s.tasks[task].project) && IsBusy(s.tasks[task].status)
    requires RevalidateEffect(s, c, task, copies, q).Some?
    ensures Lawful(s, RevalidateEffect(s, c, task, copies, q).value.0, c, now, None)
  {
    var n, t := RevalidateEffect(s, c, task, copies, q).value.0, s.tasks[task];
    BypassLawful(s, t);
    QueueReviewerLawful(s, BypassWorkers(s.deliveries, t), t, q, n);
    DeliveringMoveLawful(s, n, c, now, task, None);
  }

  lemma RevalidateLawful(s: Db, c: Crypto, now: int, h: Header, task: string, candidate: bool, chosen: string,
                         passed: bool, copies: set<string>, q: QaQueue)
    requires Consistent(s)
    ensures LawfulPlan(s, RevalidateResult(s, c, now, h, task, candidate, chosen, passed, copies, q), c, now)
  {
    var p := RevalidateResult(s, c, now, h, task, candidate, chosen, passed, copies, q);
    if p.effect.Some? {
      if !passed {
        NoChangeLawful(s, c, now);
      } else {
        RevalidateEffectLawful(s, c, now, task, copies, q);
      }
    }
  }

  // ----- deliveries --------------------------------------------------------------------------

  lemma DeliverMessageLawful(s: Db, c: Crypto, now: int, h: Header, message: string, task: string, agents: seq<string>,
                             ids: seq<string>, chosen: string, callsLeft: int, turnsLeft: int)
    requires Consistent(s)
    ensures LawfulPlan(s, DeliverMessage(s, c, now, h, message, task, agents, ids, chosen, callsLeft, turnsLeft), c,
                       now)
  {
    var p := DeliverMessage(s, c, now, h, message, task, agents, ids, chosen, callsLeft, turnsLeft);
    if p.effect.Some? {
      var n, t := p.effect.value.0, s.tasks[task];
      SameDeliveries(s, s);
      QueueLawful(s, s.deliveries, message, t.revision, t.deadline, agents, ids, n);
      AsideLawful(s, n, c, now);
    }
  }

  lemma RetryDeliveryLawful(s: Db, c: Crypto, now: int, h: Header, id: string, task: string, agent: string)
    requires Consistent(s)
    ensures LawfulPlan(s, RetryDelivery(s, h, id, task, agent), c, now)
  {
    var p := RetryDelivery(s, h, id, task, agent);
    if p.effect.Some? {
      assert DeliveriesLaw(s, p.effect.value.0);
      AsideLawful(s, p.effect.value.0, c, now);
    }
  }

  // ----- creating ----------------------------------------------------------------------------

  /** `n` has one more task than `s`, in draft or awaiting approval, and possibly new instructions. */
  ghost predicate Adds(s: Db, n: Db, id: string) {
    && id !in s.tasks && id in n.tasks && n.tasks == s.tasks[id := n.tasks[id]]
    && n == s.(tasks := n.tasks, messages := n.messages)
    && Waits(n.tasks[id].status) && n.tasks[id].qaCycle == 0 && n.tasks[id].project in s.control
    && GrowsMessages(s, n)
    && (n.tasks[id].message.Some? ==>
          && n.tasks[id].message.value in n.messages && n.messages[n.tasks[id].message.value] == n.tasks[id].project
          && forall t :: t in s.tasks ==> s.tasks[t].message != n.tasks[id].message)
  }

  ghost predicate GrowsMessages(s: Db, n: Db) {
    && (forall m :: m in s.messages ==> m in n.messages && n.messages[m] == s.messages[m])
    && forall m :: m in n.messages && m !in s.messages ==> n.messages[m] in s.control
  }

  lemma AddsRefs(s: Db, n: Db, id: string)
    requires Consistent(s) && Adds(s, n, id)
    ensures TaskRefs(n) && RowRefs(n)
  {
    forall t, u | t in n.tasks && u in n.tasks && n.tasks[t].message.Some? && n.tasks[t].message == n.tasks[u].message
      ensures t == u
    {
      if t != id && u != id { assert n.tasks[t] == s.tasks[t] && n.tasks[u] == s.tasks[u]; }
    }
    assert forall t :: t in s.tasks ==> n.tasks[t] == s.tasks[t];
  }

  /** New instructions and waiting tasks do not touch the stop barrier. */
  lemma GrowthBarrier(s: Db, n: Db)
    requires Consistent(s) && GrowsMessages(s, n)
    requires n == s.(tasks := n.tasks, messages := n.messages)
    requires forall t :: t in n.tasks && IsBusy(n.tasks[t].status) ==>
               t in s.tasks && n.tasks[t].status == s.tasks[t].status && n.tasks[t].project == s.tasks[t].project
    ensures BarrierLaw(s, n)
  {
    forall p, t | BusyTask(n, p, t) ensures BusyTask(s, p, t) {}
    forall p, d | ActiveDelivery(n, p, d) ensures ActiveDelivery(s, p, d) {}
  }

  /** A new task, alone or together with its instruction, in a going project. */
  lemma NewTaskLawful(s: Db, n: Db, c: Crypto, now: int, id: string)
    requires Consistent(s) && Adds(s, n, id)
    ensures Lawful(s, n, c, now, None)
  {
    AddsRefs(s, n, id);
    GrowthBarrier(s, n);
    SameApprovals(s, n, now);
    SameVerdicts(s, n, c);
    CalmLaws(s, n, c, now);
  }

  lemma CreateTaskLawful(s: Db, c: Crypto, now: int, h: Header, project: string, q: TaskInput, message: Option<string>)
    requires Consistent(s)
    ensures LawfulPlan(s, CreateTask(s, now, h, project, q, message), c, now)
  {
    var p := CreateTask(s, now, h, project, q, message);
    if p.effect.Some? {
      NewTaskLawful(s, p.effect.value.0, c, now, q.id);
    }
  }

  lemma PrepareTaskLawful(s: Db, c: Crypto, now: int, h: Header, project: string, q: TaskInput, message: string)
    requires Consistent(s)
    ensures LawfulPlan(s, PrepareTask(s, now, h, project, q, message), c, now)
  {
    var p := PrepareTask(s, now, h, project, q, message);
    if p.effect.Some? {
      NewTaskLawful(s, p.effect.value.0, c, now, q.id);
    }
  }

  lemma CreateInstructionLawful(s: Db, c: Crypto, now: int, h: Header, project: string, task: string, message: string)
    requires Consistent(s)
    ensures LawfulPlan(s, CreateInstruction(s, h, project, task, message), c, now)
  {
    var p := CreateInstruction(s, h, project, task, message);
    if p.effect.Some? {
      var n := p.effect.value.0;
      LinkLawful(s, n, c, now, task, message);
    }
  }

  /** `n` links the task to a new instruction. */
  ghost predicate Links(s: Db, n: Db, task: string, message: string) {
    && task in s.tasks && s.tasks[task].message.None? && message !in s.messages
    && n == s.(messages := s.messages[message := s.tasks[task].project],
               tasks := s.tasks[task := s.tasks[task].(message := Some(message))])
  }

  lemma LinkLawful(s: Db, n: Db, c: Crypto, now: int, task: string, message: string)
    requires Consistent(s) && Links(s, n, task, message)
    ensures Lawful(s, n, c, now, None)
  {
    LinkIsCalm(s, n, task, message);
    GrowthBarrier(s, n);
    LinkRefs(s, n, task, message);
    SameApprovals(s, n, now);
    SameVerdicts(s, n, c);
    CalmLaws(s, n, c, now);
  }

  lemma LinkIsCalm(s: Db, n: Db, task: string, message: string)
    requires Consistent(s) && Links(s, n, task, message)
    ensures Calm(s, n) && GrowsMessages(s, n)
  {
  }

  lemma LinkRefs(s: Db, n: Db, task: string, message: string)
    requires Consistent(s) && Links(s, n, task, message)
    ensures TaskRefs(n) && RowRefs(n)
  {
    forall t, u | t in n.tasks && u in n.tasks && n.tasks[t].message.Some? && n.tasks[t].message == n.tasks[u].message
      ensures t == u
    {
      if t != task && u != task { assert n.tasks[t] == s.tasks[t] && n.tasks[u] == s.tasks[u]; }
    }
  }

  // ----- projects ----------------------------------------------------------------------------

  /** A step that changes only the control row of one project, without starting a stop. */
  lemma ControlLawful(s: Db, n: Db, c: Crypto, now: int, project: string)
    requires Consistent(s) && project in n.control && n == s.(control := s.control[project := n.control[project]])
    requires n.control[project].state != Going ==> project in s.control && s.control[project].state != Going
    ensures Lawful(s, n, c, now, None)
  {
    assert TaskRefs(n) && RowRefs(n);
    CalmLaws(s, n, c, now);
    SameApprovals(s, n, now);
    SameVerdicts(s, n, c);
    assert forall p, t :: BusyTask(n, p, t) <==> BusyTask(s, p, t);
    assert forall p, d :: ActiveDelivery(n, p, d) <==> ActiveDelivery(s, p, d);
    assert BarrierLaw(s, n);
  }

  lemma CreateProjectLawful(s: Db, c: Crypto, now: int, h: Header, project: string)
    requires Consistent(s)
    ensures LawfulPlan(s, CreateProject(s, h, project), c, now)
  {
    var p := CreateProject(s, h, project);
    if p.effect.Some? { ControlLawful(s, p.effect.value.0, c, now, project); }
  }

  lemma StopAckLawful(s: Db, c: Crypto, now: int, h: Header, project: string, id: string)
    requires Consistent(s)
    ensures LawfulPlan(s, StopAck(s, h, project, id), c, now)
  {
    var p := StopAck(s, h, project, id);
    if p.effect.Some? { ControlLawful(s, p.effect.value.0, c, now, project); }
  }

  lemma ResumeProjectLawful(s: Db, c: Crypto, now: int, h: Header, project: string)
    requires Consistent(s)
    ensures LawfulPlan(s, ResumeProject(s, now, h, project), c, now)
  {
    var p := ResumeProject(s, now, h, project);
    if p.effect.Some? { ControlLawful(s, p.effect.value.0, c, now, project); }
  }

  /** Stopping deliveries only ever ends activity. */
  lemma StopDeliveriesLaw(s: Db, n: Db, covers: set<string>, reason: string, receipts: map<string, Receipt>, now: int)
    requires Consistent(s) && n.deliveries == StopDeliveries(s.deliveries, covers, reason, receipts, now)
    ensures DeliveriesLaw(s, n)
    ensures forall d :: d in n.deliveries && n.deliveries[d].message in covers ==> !IsActive(n.deliveries[d].status)
    ensures forall d :: d in n.deliveries ==> d in s.deliveries && n.deliveries[d].message == s.deliveries[d].message
  {
  }

  lemma StopTaskLawful(s: Db, c: Crypto, now: int, h: Header, task: string, receipts: map<string, Receipt>)
    requires Consistent(s)
    ensures LawfulPlan(s, StopTask(s, now, h, task, receipts), c, now)
  {
    var p := StopTask(s, now, h, task, receipts);
    if p.effect.Some? {
      var n, t := p.effect.value.0, s.tasks[task];
      StopDeliveriesLaw(s, n, TaskMessages(t), "task_stop_before_dispatch", receipts, now);
      assert n.tasks == s.tasks
             || exists to :: to in {Stopped, StopUnconfirmed} && n.tasks == Revise(s.tasks, task, to);
      StoppedMoveLawful(s, n, c, now, task);
    }
  }

  /** A step that stops the task, revokes its approvals and ends deliveries. */
  lemma StoppedMoveLawful(s: Db, n: Db, c: Crypto, now: int, task: string)
    requires Consistent(s) && task in s.tasks && s.tasks[task].status != Completed && DeliveriesLaw(s, n)
    requires n == s.(tasks := n.tasks, approvals := RevokeTask(s.approvals, task, now), deliveries := n.deliveries)
    requires n.tasks == s.tasks || exists to :: to in {Stopped, StopUnconfirmed} && n.tasks == Revise(s.tasks, task, to)
    ensures Lawful(s, n, c, now, None)
  {
    RevokeTaskLawful(s, n, task, now);
    SameVerdicts(s, n, c);
    assert n.tasks == s.tasks[task := n.tasks[task]];
    assert TaskMove(s, n, c, now, task, None);
    LocalLawful(s, n, c, now, task, None);
  }

  lemma StopTasksLaw(s: Db, n: Db, project: string, status: TaskStatus)
    requires status in {Stopped, StopUnconfirmed} && n.tasks == StopTasks(s.tasks, project, status)
    ensures TasksLaw(s, n)
    ensures n.tasks.Keys == s.tasks.Keys
    ensures forall t :: t in n.tasks ==>
              n.tasks[t].message == s.tasks[t].message && n.tasks[t].project == s.tasks[t].project
    ensures forall t :: t in n.tasks ==> n.tasks[t].status == s.tasks[t].status || n.tasks[t].status == status
    ensures forall t :: t in n.tasks && n.tasks[t].project == project ==> !IsBusy(n.tasks[t].status)
    ensures forall t :: t in n.tasks && s.tasks[t].status == Completed ==> n.tasks[t] == s.tasks[t]
  {
  }

  lemma RevokeProjectLaw(s: Db, n: Db, project: string, now: int)
    requires n.approvals == RevokeProject(s, project, now)
    ensures ApprovalsLaw(s, n, now)
    ensures forall a :: a in n.approvals ==> a in s.approvals && n.approvals[a].task == s.approvals[a].task
  {
  }

  lemma StopProjectLawful(s: Db, c: Crypto, now: int, h: Header, project: string, receipts: map<string, Receipt>)
    requires Consistent(s)
    ensures LawfulPlan(s, StopProject(s, now, h, project, receipts), c, now)
  {
    var p := StopProject(s, now, h, project, receipts);
    if p.effect.Some? {
      var n, covers := p.effect.value.0, ProjectMessages(s, project);
      StopDeliveriesLaw(s, n, covers, "project_stop_barrier", receipts, now);
      StopTasksLaw(s, n, project, if SomeUnconfirmed(s.deliveries, covers, receipts) then StopUnconfirmed else Stopped);
      RevokeProjectLaw(s, n, project, now);
      SameVerdicts(s, n, c);
      StopBarrier(s, n, project);
      assert OnlyStops(s, n);
      StopRefs(s, n, c, now);
    }
  }

  /** No row is dropped or moved to another task, project or message. */
  ghost predicate KeepsRows(s: Db, n: Db) {
    && n.messages == s.messages && n.verdicts == s.verdicts && s.control.Keys <= n.control.Keys
       && n.tasks.Keys == s.tasks.Keys
    && (forall t :: t in n.tasks ==>
        n.tasks[t].message == s.tasks[t].message && n.tasks[t].project == s.tasks[t].project)
    && (forall a :: a in n.approvals ==> a in s.approvals && n.approvals[a].task == s.approvals[a].task)
    && forall d :: d in n.deliveries ==> d in s.deliveries && n.deliveries[d].message == s.deliveries[d].message
  }

  lemma KeepsRowsRefs(s: Db, n: Db)
    requires Consistent(s) && KeepsRows(s, n)
    ensures TaskRefs(n) && RowRefs(n)
  {
  }

  /** Steps that only send tasks to a stopped status. */
  ghost predicate OnlyStops(s: Db, n: Db) {
    && KeepsRows(s, n)
    && (forall t :: t in n.tasks ==>
          n.tasks[t].status == s.tasks[t].status || n.tasks[t].status in {Stopped, StopUnconfirmed})
    && forall t :: t in n.tasks && s.tasks[t].status == Completed ==> n.tasks[t] == s.tasks[t]
  }

  lemma StopWaits(s: Db, n: Db, now: int)
    requires OnlyStops(s, n)
    ensures WaitingLaw(s, n, now)
  {
  }

  lemma StopRefs(s: Db, n: Db, c: Crypto, now: int)
    requires Consistent(s) && OnlyStops(s, n)
    ensures TaskRefs(n) && RowRefs(n)
    ensures WaitingLaw(s, n, now) && StartLaw(s, n, c, now) && CompletionLaw(s, n, c, None)
  {
    KeepsRowsRefs(s, n);
    StopWaits(s, n, now);
  }

  lemma StopBarrier(s: Db, n: Db, project: string)
    requires Consistent(s) && project in s.control && project in n.control
    requires n.control == s.control[project := n.control[project]] && n.messages == s.messages
    requires forall t :: t in n.tasks ==> t in s.tasks && n.tasks[t].project == s.tasks[t].project
    requires forall t :: t in n.tasks && IsBusy(n.tasks[t].status) ==>
               n.tasks[t].status == s.tasks[t].status && n.tasks[t].project != project
    requires forall d :: d in n.deliveries ==> d in s.deliveries && n.deliveries[d].message == s.deliveries[d].message
    requires DeliveriesLaw(s, n)
    requires forall d :: d in n.deliveries && n.deliveries[d].message in ProjectMessages(s, project) ==>
               !IsActive(n.deliveries[d].status)
    ensures BarrierLaw(s, n)
  {
    forall p, t | BusyTask(n, p, t) ensures BusyTask(s, p, t) && p != project {}
    forall p, d | ActiveDelivery(n, p, d) ensures p != project && (ActiveDelivery(s, p, d) || NotStopped(s, p)) {}
  }

  // ----- the worker --------------------------------------------------------------------------

  /** The task a worker step may reopen although it is completed. */
  function ExemptOf(task: string, w: Work): Option<string> {
    if w.Conflict? then Some(task) else None
  }

  lemma OneDeliveryLaw(s: Db, n: Db, id: string)
    requires Consistent(s) && id in s.deliveries && IsActive(s.deliveries[id].status) && id in n.deliveries
    requires n.deliveries == s.deliveries[id := n.deliveries[id]]
             && n.deliveries[id].message == s.deliveries[id].message
    ensures DeliveriesLaw(s, n)
  {
  }

  /** The project of an active delivery is going. */
  ghost predicate BarrierHolds(s: Db) {
    && (forall p, t :: p in s.control && BusyTask(s, p, t) ==> s.control[p].state == Going)
    && forall p, d :: p in s.control && ActiveDelivery(s, p, d) ==> s.control[p].state == Going
  }

  lemma ActiveMeansGoing(s: Db, id: string, task: string)
    requires Consistent(s) && BarrierHolds(s) && id in s.deliveries && IsActive(s.deliveries[id].status)
    requires task in s.tasks && s.tasks[task].message == Some(s.deliveries[id].message)
    ensures NotStopped(s, s.tasks[task].project) && s.messages[s.deliveries[id].message] == s.tasks[task].project
  {
    assert ActiveDelivery(s, s.tasks[task].project, id);
  }

  /** A worker step answers one delivery under way and moves its task on. */
  lemma HandToQaLawful(s: Db, n: Db, c: Crypto, now: int, id: string, task: string, q: QaQueue)
    requires WorksOn(s, id, task) && s.tasks[task].status in {Running, Qa}
    requires var t := s.tasks[task];
             var base := s.deliveries[id := s.deliveries[id].(status := Responded, answered := true)];
             n == s.(tasks := s.tasks[task := EnteringQa(t)],
                     deliveries := if QueueReviewer(base, t, q).Some? then QueueReviewer(base, t, q).value else base)
    ensures Lawful(s, n, c, now, None)
  {
    ActiveMeansGoing(s, id, task);
    var t, base := s.tasks[task], s.deliveries[id := s.deliveries[id].(status := Responded, answered := true)];
    OneDeliveryLaw(s, s.(deliveries := base), id);
    if QueueReviewer(base, t, q).Some? {
      QueueReviewerLawful(s, base, t, q, n);
    } else {
      OneDeliveryLaw(s, n, id);
    }
    DeliveringMoveLawful(s, n, c, now, task, None);
  }

  /** Deliveries that keep their message and at most become inactive. */
  ghost predicate OnlyEnds(s: Db, n: Db) {
    forall d :: d in n.deliveries ==>
      && d in s.deliveries && n.deliveries[d].message == s.deliveries[d].message
      && (IsActive(n.deliveries[d].status) ==> IsActive(s.deliveries[d].status))
  }

  lemma OnlyEndsLaw(s: Db, n: Db)
    requires Consistent(s) && OnlyEnds(s, n)
    ensures DeliveriesLaw(s, n)
  {
  }

  lemma ReworkByWorkerLawful(s: Db, n: Db, c: Crypto, now: int, id: string, task: string, exempt: Option<string>)
    requires WorksOn(s, id, task) && OnlyEnds(s, n)
    requires n == s.(tasks := Revise(s.tasks, task, ReworkRequired), deliveries := n.deliveries)
    requires s.tasks[task].status != Completed || exempt == Some(task)
    ensures Lawful(s, n, c, now, exempt)
  {
    ActiveMeansGoing(s, id, task);
    OnlyEndsLaw(s, n);
    DeliveringMoveLawful(s, n, c, now, task, exempt);
  }

  lemma JudgeLawful(s: Db, n: Db, c: Crypto, now: int, id: string, task: string, vid: string)
    requires WorksOn(s, id, task)
    requires s.tasks[task].status == Qa && vid !in s.verdicts && vid in n.verdicts
    requires var t := s.tasks[task];
             var v := n.verdicts[vid];
             && v.payload.task == task && v.payload.qaCycle == t.qaCycle && v.signature == c.sign(v.payload)
             && n == s.(deliveries := s.deliveries[id := s.deliveries[id].(status := Responded, answered := true)],
                        verdicts := s.verdicts[vid := v],
                        tasks := if v.payload.kind == PASS then s.tasks else Revise(s.tasks, task, ReworkRequired))
    ensures Lawful(s, n, c, now, None)
  {
    OneDeliveryLaw(s, n, id);
    assert n.tasks == s.tasks[task := n.tasks[task]];
    RecordVerdictLawful(s, n, c, now, task, vid);
  }

  lemma OnlyDeliveriesLawful(s: Db, n: Db, c: Crypto, now: int, exempt: Option<string>)
    requires Consistent(s) && n == s.(deliveries := n.deliveries) && OnlyEnds(s, n)
    ensures Lawful(s, n, c, now, exempt)
  {
    OnlyEndsLaw(s, n);
    AsideLawful(s, n, c, now);
  }

  /** The worker has an active delivery of the task's present revision. */
  ghost predicate WorksOn(s: Db, id: string, task: string) {
    && Consistent(s) && BarrierHolds(s) && id in s.deliveries && IsActive(s.deliveries[id].status)
    && task in s.tasks && s.tasks[task].message == Some(s.deliveries[id].message)
    && s.tasks[task].revision == s.deliveries[id].revision
  }

  lemma HandToQaWork(s: Db, c: Crypto, now: int, id: string, task: string, q: QaQueue)
    requires WorksOn(s, id, task)
    ensures Lawful(s, WorkOnTask(s, c, now, id, task, HandToQa(q)), c, now, None)
  {
    var n := WorkOnTask(s, c, now, id, task, HandToQa(q));
    if s.tasks[task].status in {Running, Qa} && ClosesRound(s, id, s.tasks[task]) {
      HandToQaLawful(s, n, c, now, id, task, q);
    } else {
      OnlyDeliveriesLawful(s, n, c, now, None);
    }
  }

  lemma JudgeWork(s: Db, c: Crypto, now: int, id: string, task: string, kind: VerdictKind, vid: string, profile: string)
    requires WorksOn(s, id, task)
    ensures Lawful(s, WorkOnTask(s, c, now, id, task, Judge(kind, vid, profile)), c, now, None)
  {
    var n, t := WorkOnTask(s, c, now, id, task, Judge(kind, vid, profile)), s.tasks[task];
    if !ReviewsNow(t, s.deliveries[id].agent) || s.deliveries[id].agent in t.agents || vid in s.verdicts {
      OnlyDeliveriesLawful(s, n, c, now, None);
    } else {
      JudgeLawful(s, n, c, now, id, task, vid);
    }
  }

  lemma CancellingOnlyEnds(s: Db, n: Db, id: string)
    requires id in s.deliveries
    requires n.deliveries == CancelQueued(s.deliveries[id := s.deliveries[id].(status := Failed)], id,
                                          s.deliveries[id].message, s.deliveries[id].revision)
    ensures OnlyEnds(s, n)
  {
  }

  lemma RejectWork(s: Db, c: Crypto, now: int, id: string, task: string)
    requires WorksOn(s, id, task)
    ensures Lawful(s, WorkOnTask(s, c, now, id, task, Reject), c, now, None)
  {
    var n := WorkOnTask(s, c, now, id, task, Reject);
    if s.tasks[task].status in {Completed, Stopped, StopUnconfirmed} {
      OnlyDeliveriesLawful(s, n, c, now, None);
    } else if s.tasks[task].status == ReworkRequired {
      CancellingOnlyEnds(s, n, id);
      OnlyDeliveriesLawful(s, n, c, now, None);
    } else {
      CancellingOnlyEnds(s, n, id);
      ReworkByWorkerLawful(s, n, c, now, id, task, None);
    }
  }

  function Answering(s: Db, id: string): Db
    requires id in s.deliveries
  {
    s.(deliveries := s.deliveries[id := s.deliveries[id].(status := Responded, answered := true)])
  }

  lemma AnsweringOnlyEnds(s: Db, n: Db, id: string)
    requires id in s.deliveries && n.deliveries == Answering(s, id).deliveries
    ensures OnlyEnds(s, n)
  {
  }

  lemma ConflictWork(s: Db, c: Crypto, now: int, id: string, task: string)
    requires WorksOn(s, id, task)
    ensures Lawful(s, WorkOnTask(s, c, now, id, task, Conflict), c, now, Some(task))
  {
    var n := WorkOnTask(s, c, now, id, task, Conflict);
    AnsweringOnlyEnds(s, n, id);
    if ClosesRound(s, id, s.tasks[task]) {
      ReworkByWorkerLawful(s, n, c, now, id, task, Some(task));
    } else {
      OnlyDeliveriesLawful(s, n, c, now, Some(task));
    }
  }

  lemma WorkOnTaskLawful(s: Db, c: Crypto, now: int, id: string, task: string, w: Work)
    requires WorksOn(s, id, task) && !w.Progress?
    ensures Lawful(s, WorkOnTask(s, c, now, id, task, w), c, now, ExemptOf(task, w))
  {
    match w
    case HandToQa(q) => HandToQaWork(s, c, now, id, task, q);
    case Judge(kind, vid, profile) => JudgeWork(s, c, now, id, task, kind, vid, profile);
    case Reject => RejectWork(s, c, now, id, task);
    case Conflict => ConflictWork(s, c, now, id, task);
  }

  lemma ProgressLawful(s: Db, n: Db, c: Crypto, now: int, id: string)
    requires Consistent(s) && id in s.deliveries && IsActive(s.deliveries[id].status) && id in n.deliveries
    requires n == s.(deliveries := s.deliveries[id := n.deliveries[id]])
             && n.deliveries[id].message == s.deliveries[id].message
    ensures Lawful(s, n, c, now, None)
  {
    OnlyDeliveriesLawful(s, n, c, now, None);
  }

  lemma WorkerLawful(s: Db, c: Crypto, now: int, id: string, task: string, w: Work)
    requires Consistent(s) && BarrierHolds(s)
    ensures Lawful(s, WorkerStep(s, c, now, id, task, w), c, now, ExemptOf(task, w))
  {
    NoChangeLawful(s, c, now);
    if id in s.deliveries && IsActive(s.deliveries[id].status) {
      if w.Progress? {
        ProgressLawful(s, WorkerStep(s, c, now, id, task, w), c, now, id);
      } else if task in s.tasks && s.tasks[task].message == Some(s.deliveries[id].message)
                && s.tasks[task].revision == s.deliveries[id].revision {
        WorkOnTaskLawful(s, c, now, id, task, w);
      }
    }
  }
}
