/**
 * What a caller may rely on once a request has been accepted. The plans in `Lifecycle` say which rows an endpoint
 * writes; here these rows are read together with what every reachable state satisfies.
 */
module EndpointMeanings {
  import opened Wrappers
  import opened Lifecycle
  import opened LifecycleLaws
  import opened LifecycleTheorems
  import opened EndpointContracts

  // ----- approvals of one task -------------------------------------------------------------------

  ghost predicate LiveFor(s: Db, task: string, a: string, now: int) {
    a in s.approvals && s.approvals[a].task == task && Live(s.approvals[a], now)
  }

  ghost predicate NoneLive(s: Db, task: string, now: int) {
    forall a :: !LiveFor(s, task, a, now)
  }

  /** The approval covers the task as it is, and no other one is live. */
  ghost predicate OnlyLive(s: Db, c: Crypto, task: string, a: string, now: int) {
    && task in s.tasks && LiveFor(s, task, a, now) && Matches(s.approvals[a], s.tasks[task], c)
    && forall b :: LiveFor(s, task, b, now) ==> b == a
  }

  /** The approvals of a reachable state, some time later. */
  ghost predicate ApprovalsFit(s: Db, now: int) {
    NoLiveWhileWaiting(s, now) && AtMostOneLive(s, now)
  }

  lemma TimePasses(m: Moment, now: int)
    requires Inv(m) && m.clock <= now
    ensures ApprovalsFit(m.store.db, now) && Consistent(m.store.db) && BarrierHolds(m.store.db)
            && VerdictsFit(m.store.db)
  {
    var s := m.store.db;
    forall a | a in s.approvals && Live(s.approvals[a], now) ensures Live(s.approvals[a], m.clock) {}
  }

  lemma WaitingHasNone(s: Db, task: string, now: int)
    requires ApprovalsFit(s, now) && task in s.tasks && Waits(s.tasks[task].status)
    ensures NoneLive(s, task, now)
  {
  }

  lemma OneMoreIsOnly(s: Db, n: Db, c: Crypto, task: string, id: string, now: int)
    requires NoneLive(s, task, now) && task in n.tasks && id in n.approvals
    requires n.approvals == s.approvals[id := n.approvals[id]] && n.approvals[id].task == task
    ensures Live(n.approvals[id], now) && Matches(n.approvals[id], n.tasks[task], c) ==> OnlyLive(n, c, task, id, now)
    ensures !n.approvals[id].approved ==> NoneLive(n, task, now)
  {
    forall b | LiveFor(n, task, b, now) ensures b == id {
      if b != id { assert LiveFor(s, task, b, now); }
    }
  }

  // ----- projects, tasks and instructions --------------------------------------------------------------

  ghost predicate Unused(s: Db, project: string) {
    && (forall t :: t in s.tasks ==> s.tasks[t].project != project)
    && (forall m :: m in s.messages ==> s.messages[m] != project)
  }

  /** The project is going and has nothing yet. */
  ghost predicate IsBare(s: Db, project: string) { NotStopped(s, project) && Unused(s, project) }

  lemma CreatedProject(s: Db, h: Header, project: string, p: Plan)
    requires Consistent(s) && p == CreateProject(s, h, project) && p.effect.Some?
    ensures NotStopped(p.effect.value.0, project) && Unused(p.effect.value.0, project)
  {
  }

  /** Nothing was decided about the task yet. */
  ghost predicate Undecided(s: Db, task: string) {
    && (forall a :: a in s.approvals ==> s.approvals[a].task != task)
    && (forall v :: v in s.verdicts ==> s.verdicts[v].payload.task != task)
  }

  lemma CreatedTask(s: Db, now: int, h: Header, project: string, q: TaskInput, message: Option<string>, p: Plan)
    requires Consistent(s) && p == CreateTask(s, now, h, project, q, message) && p.effect.Some?
    ensures var n := p.effect.value.0;
            && q.id in n.tasks && n.tasks[q.id].status == Draft && n.tasks[q.id].project == project
            && Undecided(n, q.id) && (message.Some? ==> BelongsTo(n, message.value, q.id))
  {
  }

  /** The instruction is this task's and no other's. */
  ghost predicate BelongsTo(s: Db, message: string, task: string) {
    forall t :: t in s.tasks ==> (s.tasks[t].message == Some(message) <==> t == task)
  }

  ghost predicate Undelivered(s: Db, message: string) {
    forall d :: d in s.deliveries ==> s.deliveries[d].message != message
  }

  lemma PreparedTask(s: Db, now: int, h: Header, project: string, q: TaskInput, message: string, p: Plan)
    requires Consistent(s) && p == PrepareTask(s, now, h, project, q, message) && p.effect.Some?
    ensures var n := p.effect.value.0;
            && q.id in n.tasks && n.tasks[q.id].status == AwaitingApproval
            && Undecided(n, q.id) && BelongsTo(n, message, q.id) && Undelivered(n, message)
  {
  }

  lemma CreatedInstruction(s: Db, h: Header, project: string, task: string, message: string, p: Plan)
    requires Consistent(s) && p == CreateInstruction(s, h, project, task, message) && p.effect.Some?
    ensures BelongsTo(p.effect.value.0, message, task) && Undelivered(p.effect.value.0, message)
  {
  }

  // ----- approvals -------------------------------------------------------------------------------

  lemma DecidedTask(s: Db, c: Crypto, now: int, h: Header, task: string, approve: bool, id: string,
                    expires: Option<int>, p: Plan)
    requires ApprovalsFit(s, now)
    requires p == ApproveTask(s, c, now, h, task, approve, id, expires) && p.effect.Some?
    ensures approve ==> OnlyLive(p.effect.value.0, c, task, id, now)
    ensures !approve ==> NoneLive(p.effect.value.0, task, now)
  {
    WaitingHasNone(s, task, now);
    OneMoreIsOnly(s, p.effect.value.0, c, task, id, now);
  }

  /** A delivery of the message is queued for the agent. */
  ghost predicate QueuedFor(deliveries: map<string, Delivery>, message: string, revision: int, agent: string, d: string)
  {
    && d in deliveries && deliveries[d].message == message && deliveries[d].revision == revision
    && deliveries[d].agent == agent && deliveries[d].status == Queued
  }

  /** Every agent's delivery is queued under the id that goes with it. */
  lemma {:induction false} QueuedInOrder(deliveries: map<string, Delivery>, message: string, revision: int,
                                         deadline: Option<int>, agents: seq<string>, ids: seq<string>, i: nat)
    requires QueueAll(deliveries, message, revision, deadline, agents, ids).Some? && i < |agents|
    ensures |ids| == |agents|
    ensures QueuedFor(QueueAll(deliveries, message, revision, deadline, agents, ids).value, message, revision,
                      agents[i], ids[i])
    decreases |agents|
  {
    var next := deliveries[ids[0] := Delivery(message, agents[0], revision, Queued, false, None, deadline, None)];
    if i == 0 {
      QueueAllRows(next, message, revision, deadline, agents[1..], ids[1..]);
    } else {
      QueuedInOrder(next, message, revision, deadline, agents[1..], ids[1..], i - 1);
    }
  }

  /** The task runs on this approval alone, with a queued delivery for each of its agents. */
  ghost predicate RunsOn(n: Db, c: Crypto, task: string, id: string, ids: seq<string>, now: int) {
    && OnlyLive(n, c, task, id, now) && n.tasks[task].status == Running
    && n.tasks[task].message.Some? && |ids| == |n.tasks[task].agents|
    && forall i :: 0 <= i < |ids| ==>
         QueuedFor(n.deliveries, n.tasks[task].message.value, n.tasks[task].revision, n.tasks[task].agents[i], ids[i])
  }

  lemma Executed(s: Db, c: Crypto, now: int, h: Header, task: string, id: string, expires: int, ids: seq<string>,
                 p: Plan)
    requires ApprovalsFit(s, now) && task in s.tasks && s.tasks[task].status != Running
    requires p == ApproveAndExecute(s, c, now, h, task, id, expires, ids) && p.effect.Some?
    ensures RunsOn(p.effect.value.0, c, task, id, ids, now)
  {
    var n, t := p.effect.value.0, s.tasks[task];
    WaitingHasNone(s, task, now);
    OneMoreIsOnly(s, n, c, task, id, now);
    forall i | 0 <= i < |t.agents|
      ensures |ids| == |t.agents| && QueuedFor(n.deliveries, t.message.value, t.revision, t.agents[i], ids[i])
    {
      QueuedInOrder(ReclaimStale(s.deliveries, t.agents, now), t.message.value, t.revision, t.deadline, t.agents, ids,
                    i);
    }
  }

  lemma Revoked(s: Db, now: int, h: Header, task: string, id: string, p: Plan)
    requires ApprovalsFit(s, now) && p == RevokeApproval(s, now, h, task, id) && p.effect.Some?
    ensures !LiveFor(p.effect.value.0, task, id, now)
    ensures LiveFor(s, task, id, now) ==> NoneLive(p.effect.value.0, task, now)
  {
    var n := p.effect.value.0;
    if LiveFor(s, task, id, now) {
      forall a ensures !LiveFor(n, task, a, now) {
        assert LiveFor(n, task, a, now) ==> a != id && LiveFor(s, task, a, now);
      }
    }
  }

  lemma Assigned(s: Db, now: int, h: Header, task: string, reviewer: string, expected: int, activeRun: bool, p: Plan)
    requires p == AssignReviewer(s, now, h, task, reviewer, expected, activeRun) && p.effect.Some?
    ensures var n := p.effect.value.0;
            && task in n.tasks && n.tasks[task].status == AwaitingApproval && n.tasks[task].reviewer == Some(reviewer)
            && Independent(n.tasks[task]) && NoneLive(n, task, now)
  {
    RevokeUnexpiredLawful(s, p.effect.value.0, task, now);
  }

  // ----- transitions -----------------------------------------------------------------------------

  /** Every verdict on the task was given in an earlier visit to QA. */
  ghost predicate Unjudged(s: Db, task: string)
    requires task in s.tasks
  {
    forall v :: v in s.verdicts && s.verdicts[v].payload.task == task ==>
      s.verdicts[v].payload.qaCycle < s.tasks[task].qaCycle
  }

  ghost predicate Moves(n: Db, c: Crypto, now: int, task: string, target: TaskStatus, chosen: string) {
    && task in n.tasks && n.tasks[task].status == target
    && (target == Running ==>
          OnlyLive(n, c, task, chosen, now) && n.tasks[task].deadline.Some? && n.tasks[task].deadline.value > now)
    && (target == Qa ==> Unjudged(n, task))
    && (target == AwaitingApproval ==> NoneLive(n, task, now))
  }

  lemma Started(s: Db, c: Crypto, now: int, task: string, chosen: string)
    requires ApprovalsFit(s, now) && task in s.tasks && StartEffect(s, c, now, task, chosen).Some?
    ensures Moves(StartEffect(s, c, now, task, chosen).value.0, c, now, task, Running, chosen)
  {
    var n := StartEffect(s, c, now, task, chosen).value.0;
    assert LiveFor(s, task, chosen, now);
    forall b | LiveFor(n, task, b, now) ensures b == chosen { assert LiveFor(s, task, b, now); }
  }

  lemma EnteredQa(s: Db, c: Crypto, now: int, task: string, chosen: string, runsPassed: bool)
    requires VerdictsFit(s) && task in s.tasks && EnterQaEffect(s, task, runsPassed).Some?
    ensures Moves(EnterQaEffect(s, task, runsPassed).value.0, c, now, task, Qa, chosen)
  {
    forall v | v in s.verdicts && s.verdicts[v].payload.task == task
      ensures s.verdicts[v].payload.qaCycle <= s.tasks[task].qaCycle
    {
      assert VerdictFits(s.tasks[task], s.verdicts[v]);
    }
  }

  lemma ReopenedForApproval(s: Db, c: Crypto, now: int, task: string, chosen: string, newDeadline: Option<int>)
    requires ApprovalsFit(s, now) && task in s.tasks && ReopenEffect(s, now, task, newDeadline).Some?
    ensures Moves(ReopenEffect(s, now, task, newDeadline).value.0, c, now, task, AwaitingApproval, chosen)
  {
    var n := ReopenEffect(s, now, task, newDeadline).value.0;
    if s.tasks[task].status == Draft {
      WaitingHasNone(s, task, now);
      forall a ensures !LiveFor(n, task, a, now) { assert !LiveFor(s, task, a, now); }
    } else {
      RevokeTaskLawful(s, n, task, now);
    }
  }

  lemma Transitioned(s: Db, c: Crypto, now: int, h: Header, task: string, target: TaskStatus, chosen: string,
                     newDeadline: Option<int>, runsPassed: bool, p: Plan)
    requires ApprovalsFit(s, now) && VerdictsFit(s)
    requires p == TransitionTask(s, c, now, h, task, target, chosen, newDeadline, runsPassed) && p.effect.Some?
    ensures Moves(p.effect.value.0, c, now, task, target, chosen)
  {
    if target == Running {
      Started(s, c, now, task, chosen);
    } else if target == Qa {
      EnteredQa(s, c, now, task, chosen, runsPassed);
    } else if target == AwaitingApproval {
      ReopenedForApproval(s, c, now, task, chosen, newDeadline);
    }
  }

  // ----- QA --------------------------------------------------------------------------------------

  lemma Evidenced(s: Db, c: Crypto, h: Header, task: string, id: string, p: Plan)
    requires p == AddEvidence(s, c, h, task, id) && p.effect.Some?
    ensures task in p.effect.value.0.tasks && CurrentEvidence(p.effect.value.0, c, task)
  {
    var n := p.effect.value.0;
    assert n.evidence[id] == Evidence(task, n.tasks[task].revision, c.sha(n.tasks[task].scope), n.tasks[task].document,
                                      n.tasks[task].qaCycle);
  }

  lemma Ruled(s: Db, c: Crypto, now: int, h: Header, task: string, kind: VerdictKind, id: string, principal: string,
              profile: string, fromAgent: bool, signature: string, evidenceOk: bool, p: Plan)
    requires p == QaVerdict(s, c, now, h, task, kind, id, principal, profile, fromAgent, signature, evidenceOk)
    requires p.effect.Some?
    ensures var n := p.effect.value.0;
            && task in n.tasks
            && (kind == PASS ==> n.tasks[task].status == Qa && SignedPass(n, c, task, profile))
            && (kind != PASS ==>
                n.tasks[task].status == ReworkRequired && n.tasks[task].revision > s.tasks[task].revision)
  {
    var n := p.effect.value.0;
    if kind == PASS { assert IsValidPass(c, task, n.tasks[task], profile, n.verdicts[id]); }
  }

  /** The task was passed in its present visit to QA, and nothing else was said in it. */
  ghost predicate PassedNow(s: Db, c: Crypto, task: string)
    requires task in s.tasks
  {
    && s.tasks[task].status == Qa && HasValidPass(s, c, task)
    && forall v :: v in s.verdicts && s.verdicts[v].payload.task == task
                   && s.verdicts[v].payload.qaCycle == s.tasks[task].qaCycle ==>
         s.verdicts[v].payload.kind == PASS
  }

  lemma Concluded(s: Db, c: Crypto, h: Header, task: string, approve: bool, profile: string, checksOk: bool, p: Plan)
    requires VerdictsFit(s) && p == RepresentativeCompletion(s, c, h, task, approve, profile, checksOk)
             && p.effect.Some?
    ensures var n := p.effect.value.0;
            && task in n.tasks && n.tasks[task].status == (if approve then Completed else ReworkRequired)
            && (approve ==> PassedNow(s, c, task))
  {
    forall v | v in s.verdicts && s.verdicts[v].payload.task == task
      ensures VerdictFits(s.tasks[task], s.verdicts[v])
    {
    }
  }

  /** The reviewer is to look at the saved result, and no worker is still asked for another one. */
  ghost predicate Reviewable(n: Db, task: string) {
    && task in n.tasks && n.tasks[task].status == Qa && n.tasks[task].message.Some? && n.tasks[task].reviewer.Some?
    && var t := n.tasks[task];
       && KeyUsed(n.deliveries, t.message.value, t.reviewer.value, t.revision)
       && forall d :: d in n.deliveries && n.deliveries[d].message == t.message.value
                      && n.deliveries[d].revision == t.revision && n.deliveries[d].status == Queued ==>
            n.deliveries[d].agent == t.reviewer.value
  }

  lemma QueuedReviewer(base: map<string, Delivery>, t: Task, q: QaQueue, after: map<string, Delivery>)
    requires QueueReviewer(base, t, q) == Some(after)
    ensures t.message.Some? && t.reviewer.Some? && KeyUsed(after, t.message.value, t.reviewer.value, t.revision)
    ensures forall d :: d in after && d in base ==> after[d] == base[d]
    ensures forall d :: d in after && d !in base ==> after[d].agent == t.reviewer.value
  {
    if q.QueueNew? { assert q.id in after && after[q.id].message == t.message.value; }
  }

  lemma ReusedResult(s: Db, c: Crypto, task: string, copies: set<string>, q: QaQueue)
    requires task in s.tasks && RevalidateEffect(s, c, task, copies, q).Some?
    ensures Reviewable(RevalidateEffect(s, c, task, copies, q).value.0, task)
  {
    var n, t := RevalidateEffect(s, c, task, copies, q).value.0, s.tasks[task];
    QueuedReviewer(BypassWorkers(s.deliveries, t), t, q, n.deliveries);
  }

  lemma Revalidated(s: Db, c: Crypto, now: int, h: Header, task: string, candidate: bool, chosen: string, passed: bool,
                    copies: set<string>, q: QaQueue, p: Plan)
    requires p == RevalidateResult(s, c, now, h, task, candidate, chosen, passed, copies, q) && p.effect.Some?
    ensures passed ==> Reviewable(p.effect.value.0, task)
    ensures !passed ==> p.effect.value.0 == s
  {
    if passed { ReusedResult(s, c, task, copies, q); }
  }

  // ----- deliveries ------------------------------------------------------------------------------

  lemma Delivered(s: Db, c: Crypto, now: int, h: Header, message: string, task: string, agents: seq<string>,
                  ids: seq<string>, chosen: string, callsLeft: int, turnsLeft: int, p: Plan)
    requires p == DeliverMessage(s, c, now, h, message, task, agents, ids, chosen, callsLeft, turnsLeft)
             && p.effect.Some?
    ensures task in s.tasks && |ids| == |agents|
    ensures forall i :: 0 <= i < |agents| ==>
              QueuedFor(p.effect.value.0.deliveries, message, s.tasks[task].revision, agents[i], ids[i])
  {
    var t := s.tasks[task];
    forall i | 0 <= i < |agents|
      ensures |ids| == |agents| && QueuedFor(p.effect.value.0.deliveries, message, t.revision, agents[i], ids[i])
    {
      QueuedInOrder(s.deliveries, message, t.revision, t.deadline, agents, ids, i);
    }
  }

  /** The only delivery of its message and revision to its agent, waiting in a going project. */
  ghost predicate QueuedAlone(n: Db, id: string, agent: string) {
    && id in n.deliveries && n.deliveries[id].status == Queued && n.deliveries[id].agent == agent
    && n.deliveries[id].message in n.messages && NotStopped(n, n.messages[n.deliveries[id].message])
    && !KeyUsed(n.deliveries - {id}, n.deliveries[id].message, agent, n.deliveries[id].revision)
  }

  lemma Retried(s: Db, h: Header, id: string, task: string, agent: string, p: Plan)
    requires p == RetryDelivery(s, h, id, task, agent) && p.effect.Some?
    ensures QueuedAlone(p.effect.value.0, id, agent)
  {
    var n := p.effect.value.0;
    assert n.deliveries - {id} == s.deliveries - {id};
  }

  // ----- stopping and resuming -----------------------------------------------------------------------

  /** Nothing of the project is at work or under way. */
  ghost predicate AtRest(s: Db, project: string) {
    (forall t :: !BusyTask(s, project, t)) && (forall d :: !ActiveDelivery(s, project, d))
  }

  ghost predicate NoneLiveIn(s: Db, project: string, now: int) {
    forall t :: t in s.tasks && s.tasks[t].project == project ==> NoneLive(s, t, now)
  }

  lemma StoppedProject(s: Db, now: int, h: Header, project: string, receipts: map<string, Receipt>, p: Plan)
    requires Consistent(s) && p == StopProject(s, now, h, project, receipts) && p.effect.Some?
    ensures var n := p.effect.value.0;
            project in n.control && n.control[project].state != Going && AtRest(n, project)
              && NoneLiveIn(n, project, now)
  {
    var n, covers := p.effect.value.0, ProjectMessages(s, project);
    var failed := SomeUnconfirmed(s.deliveries, covers, receipts);
    StopDeliveriesLaw(s, n, covers, "project_stop_barrier", receipts, now);
    StopTasksLaw(s, n, project, if failed then StopUnconfirmed else Stopped);
    forall d | d in n.deliveries && ProjectOfDelivery(n, d, project) ensures n.deliveries[d].message in covers {}
    StoppedApprovals(s, n, project, now);
  }

  lemma StoppedApprovals(s: Db, n: Db, project: string, now: int)
    requires n.approvals == RevokeProject(s, project, now) && n.tasks.Keys == s.tasks.Keys
    requires forall t :: t in n.tasks ==> n.tasks[t].project == s.tasks[t].project
    ensures NoneLiveIn(n, project, now)
  {
  }

  /** No delivery of the task is under way, and it carries no live approval. */
  ghost predicate Quiesced(n: Db, task: string, now: int) {
    && task in n.tasks && n.tasks[task].status in {Stopped, StopUnconfirmed} && NoneLive(n, task, now)
    && forall d :: d in n.deliveries && n.tasks[task].message == Some(n.deliveries[d].message) ==>
         !IsActive(n.deliveries[d].status)
  }

  /** Every delivery of the task that was under way before has confirmed its stop. */
  ghost predicate AllConfirmed(s: Db, n: Db, task: string)
    requires task in s.tasks
  {
    forall d :: d in s.deliveries && s.tasks[task].message == Some(s.deliveries[d].message)
                && IsActive(s.deliveries[d].status) ==>
      d in n.deliveries && n.deliveries[d].status == Halted
  }

  lemma StoppedTask(s: Db, now: int, h: Header, task: string, receipts: map<string, Receipt>, p: Plan)
    requires Consistent(s) && p == StopTask(s, now, h, task, receipts) && p.effect.Some?
    ensures Quiesced(p.effect.value.0, task, now)
    ensures p.effect.value.0.tasks[task].status == Stopped <==> AllConfirmed(s, p.effect.value.0, task)
  {
    var n, covers := p.effect.value.0, TaskMessages(s.tasks[task]);
    StopDeliveriesLaw(s, n, covers, "task_stop_before_dispatch", receipts, now);
    RevokeTaskLawful(s, n, task, now);
    ConfirmedIff(s, n, task, receipts, now);
  }

  lemma ConfirmedIff(s: Db, n: Db, task: string, receipts: map<string, Receipt>, now: int)
    requires task in s.tasks
    requires n.deliveries
             == StopDeliveries(s.deliveries, TaskMessages(s.tasks[task]), "task_stop_before_dispatch", receipts, now)
    ensures AllConfirmed(s, n, task) <==> !SomeUnconfirmed(s.deliveries, TaskMessages(s.tasks[task]), receipts)
  {
    var covers := TaskMessages(s.tasks[task]);
    forall d | d in s.deliveries
      ensures s.deliveries[d].message in covers <==> s.tasks[task].message == Some(s.deliveries[d].message)
    {
    }
  }

  /** The delivery was touched by the project's present stop. */
  ghost predicate InCycle(s: Db, project: string, cycle: int, d: string) {
    d in s.deliveries && ProjectOfDelivery(s, d, project) && s.deliveries[d].stopCycle == Some(cycle)
  }

  /** The project counts as stopped exactly when every delivery that the stop touched has been halted. */
  ghost predicate CycleDerived(n: Db, project: string) {
    && project in n.control && n.control[project].requestedAt.Some? && n.control[project].state != Going
    && (n.control[project].state == ProjectStopped <==>
        forall d :: InCycle(n, project, n.control[project].requestedAt.value, d) ==> n.deliveries[d].status == Halted)
  }

  lemma Acknowledged(s: Db, h: Header, project: string, id: string, p: Plan)
    requires p == StopAck(s, h, project, id) && p.effect.Some?
    ensures CycleDerived(p.effect.value.0, project)
  {
    var cycle := s.control[project].requestedAt.value;
    assert InCycle(s, project, cycle, id);
    CycleStateIff(s, project, cycle, id);
    forall d ensures InCycle(p.effect.value.0, project, cycle, d) <==> InCycle(s, project, cycle, d) {}
  }

  lemma CycleStateIff(s: Db, project: string, cycle: int, id: string)
    requires InCycle(s, project, cycle, id)
    ensures StopCycleState(s, project, cycle) != Going
    ensures StopCycleState(s, project, cycle) == ProjectStopped <==>
            forall d :: InCycle(s, project, cycle, d) ==> s.deliveries[d].status == Halted
  {
    var touched := set d | d in s.deliveries && ProjectOfDelivery(s, d, project)
      && s.deliveries[d].stopCycle == Some(cycle);
    assert id in touched;
    forall d ensures d in touched <==> InCycle(s, project, cycle, d) {}
  }

  lemma Resumed(s: Db, now: int, h: Header, project: string, p: Plan)
    requires BarrierHolds(s) && p == ResumeProject(s, now, h, project) && p.effect.Some?
    ensures NotStopped(p.effect.value.0, project) && AtRest(p.effect.value.0, project)
  {
    var n := p.effect.value.0;
    forall t ensures !BusyTask(n, project, t) { assert !BusyTask(s, project, t); }
    forall d ensures !ActiveDelivery(n, project, d) { assert !ActiveDelivery(s, project, d); }
  }

  // ----- every endpoint keeps the invariant and the laws -----------------------------------------------

  /** A reachable store; stated over every moment equal to it, so that the invariant is looked into only on demand. */
  ghost predicate Safe(s: Store, clock: int) {
    forall m: Moment :: m == Moment(s, clock) ==> Inv(m)
  }

  /** A lawful step, hidden in the same way. */
  ghost predicate Kept(s: Db, n: Db, c: Crypto, now: int) {
    forall exempt: Option<string> :: exempt == None ==> Lawful(s, n, c, now, exempt)
  }

  /** Whatever is answered to the request, the store stays safe by a lawful step. */
  ghost predicate Keeps(s: Store, c: Crypto, now: int, h: Header, p: Plan) {
    forall n: Store :: n == Serve(s, c, h, p).store ==> Safe(n, now) && Kept(s.db, n.db, c, now)
  }

  /** The outcome that the plan leads to; looked into only on demand. */
  ghost predicate IsOutcome(s: Store, c: Crypto, h: Header, p: Plan, o: Outcome) {
    forall x: Header :: x == h ==> o == Serve(s, c, x, p)
  }

  /** What a caller gets of an outcome: the answer that is due, the key it leaves, and a safe store by a lawful step. */
  lemma ServeGives(s: Store, c: Crypto, now: int, h: Header, p: Plan, scope: Scope, open: bool, granted: bool,
                   n: Store, reply: Reply)
    requires IsOutcome(s, c, h, p, Outcome(n, reply))
    requires Keeps(s, c, now, h, p) && Plans(p, scope, open, granted)
    ensures Due(s.idem, c, h, scope, open, granted, reply) && Keyed(s.idem, n.idem, c, h, scope, reply)
    ensures Safe(n, now) && Kept(s.db, n.db, c, now) && (!reply.Accepted? ==> n == s)
    ensures reply.Accepted? ==> p.effect.Some? && n.db == p.effect.value.0 && reply.response == p.effect.value.1
  {
    assert Outcome(n, reply) == Serve(s, c, h, p);
    ServedAsDue(s, c, h, p, scope, open, granted);
  }

  lemma ServingKeeps(s: Store, c: Crypto, clock: int, now: int, h: Header, p: Plan)
    requires Safe(s, clock) && clock <= now && LawfulPlan(s.db, p, c, now)
    ensures Keeps(s, c, now, h, p)
  {
    var n := Serve(s, c, h, p).store;
    assert Inv(Moment(s, clock));
    ServeLawful(s, c, now, h, p);
    LawfulKeepsInv(Moment(s, clock), c, Moment(n, now), None);
  }

  lemma SafeFits(s: Store, clock: int, now: int)
    requires Safe(s, clock) && clock <= now
    ensures ApprovalsFit(s.db, now) && Consistent(s.db) && BarrierHolds(s.db) && VerdictsFit(s.db)
  {
    assert Inv(Moment(s, clock));
    TimePasses(Moment(s, clock), now);
  }

  lemma CreateProjectAnswered(s: Store, c: Crypto, clock: int, now: int, h: Header, project: string, p: Plan,
                              after: Store, reply: Reply)
    requires Safe(s, clock) && clock <= now && p == CreateProject(s.db, h, project)
    requires IsOutcome(s, c, h, p, Outcome(after, reply))
    ensures Safe(after, now) && Kept(s.db, after.db, c, now) && (!reply.Accepted? ==> after == s)
    ensures reply.Accepted? ==> IsBare(after.db, project)
    ensures Due(s.idem, c, h, Scope("projects", ""), h.permitted,
                MayCreateProject(s.db, h, project), reply)
    ensures Keyed(s.idem, after.idem, c, h, Scope("projects", ""), reply)
    ensures reply.Accepted? ==>
              && CreatesProject(s.db, after.db, project)
              && reply.response == Stored(project)
  {
    SafeFits(s, clock, now);
    CreateProjectLawful(s.db, c, now, h, project);
    ServingKeeps(s, c, clock, now, h, p);
    CreateProjectMeans(s.db, h, project, p);
    ServeGives(s, c, now, h, p, Scope("projects", ""), h.permitted, MayCreateProject(s.db, h, project), after, reply);
    if p.effect.Some? { CreatedProject(s.db, h, project, p); }
  }

  lemma CreateTaskAnswered(s: Store, c: Crypto, clock: int, now: int, h: Header, project: string, q: TaskInput,
                        message: Option<string>, p: Plan, after: Store, reply: Reply)
    requires Safe(s, clock) && clock <= now && p == CreateTask(s.db, now, h, project, q, message)
    requires IsOutcome(s, c, h, p, Outcome(after, reply))
    ensures Safe(after, now) && Kept(s.db, after.db, c, now) && (!reply.Accepted? ==> after == s)
    ensures reply.Accepted? ==>
              var n := after.db;
              && q.id in n.tasks && n.tasks[q.id].status == Draft && Undecided(n, q.id)
              && (message.Some? ==> BelongsTo(n, message.value, q.id))
    ensures Due(s.idem, c, h, Scope("tasks", project), h.permitted && IsGoing(s.db, project),
                MayCreateTask(s.db, now, h, project, q, message), reply)
    ensures Keyed(s.idem, after.idem, c, h, Scope("tasks", project), reply)
    ensures reply.Accepted? ==>
              && CreatesTask(s.db, after.db, project, q, message, Draft) && after.db == s.db.(tasks := after.db.tasks)
              && reply.response == TaskIs(q.id, Draft)
  {
    SafeFits(s, clock, now);
    CreateTaskLawful(s.db, c, now, h, project, q, message);
    ServingKeeps(s, c, clock, now, h, p);
    CreateTaskMeans(s.db, now, h, project, q, message, p);
    ServeGives(s, c, now, h, p, Scope("tasks", project), h.permitted
               && IsGoing(s.db, project), MayCreateTask(s.db, now, h, project, q, message), after, reply);
    if p.effect.Some? { CreatedTask(s.db, now, h, project, q, message, p); }
  }

  lemma PrepareTaskAnswered(s: Store, c: Crypto, clock: int, now: int, h: Header, project: string, q: TaskInput,
                         message: string, p: Plan, after: Store, reply: Reply)
    requires Safe(s, clock) && clock <= now && p == PrepareTask(s.db, now, h, project, q, message)
    requires IsOutcome(s, c, h, p, Outcome(after, reply))
    ensures Safe(after, now) && Kept(s.db, after.db, c, now) && (!reply.Accepted? ==> after == s)
    ensures reply.Accepted? ==>
              var n := after.db;
              && q.id in n.tasks && n.tasks[q.id].status == AwaitingApproval && Undecided(n, q.id)
              && BelongsTo(n, message, q.id) && Undelivered(n, message)
    ensures Due(s.idem, c, h, Scope("prepare", project), h.permitted && IsGoing(s.db, project),
                MayPrepareTask(s.db, now, h, project, q, message), reply)
    ensures Keyed(s.idem, after.idem, c, h, Scope("prepare", project), reply)
    ensures reply.Accepted? ==>
              && CreatesTask(s.db, after.db, project, q, Some(message), AwaitingApproval)
                 && after.db == s.db.(tasks := after.db.tasks, messages := s.db.messages[message := project])
              && reply.response == TaskIs(q.id, AwaitingApproval)
  {
    SafeFits(s, clock, now);
    PrepareTaskLawful(s.db, c, now, h, project, q, message);
    ServingKeeps(s, c, clock, now, h, p);
    PrepareTaskMeans(s.db, now, h, project, q, message, p);
    ServeGives(s, c, now, h, p, Scope("prepare", project), h.permitted
               && IsGoing(s.db, project), MayPrepareTask(s.db, now, h, project, q, message), after, reply);
    if p.effect.Some? { PreparedTask(s.db, now, h, project, q, message, p); }
  }

  lemma CreateInstructionAnswered(s: Store, c: Crypto, clock: int, now: int, h: Header, project: string, task: string,
                               message: string, p: Plan, after: Store, reply: Reply)
    requires Safe(s, clock) && clock <= now && p == CreateInstruction(s.db, h, project, task, message)
    requires IsOutcome(s, c, h, p, Outcome(after, reply))
    ensures Safe(after, now) && Kept(s.db, after.db, c, now) && (!reply.Accepted? ==> after == s)
    ensures reply.Accepted? ==>
              var n := after.db;
              && BelongsTo(n, message, task) && Undelivered(n, message)
    ensures Due(s.idem, c, h, Scope("instructions", project), h.permitted && IsGoing(s.db, project),
                MayInstruct(s.db, h, project, task, message), reply)
    ensures Keyed(s.idem, after.idem, c, h, Scope("instructions", project), reply)
    ensures reply.Accepted? ==>
              && task in s.db.tasks
              && Instructs(s.db, after.db, project, task, message)
              && reply.response == Stored(message)
  {
    SafeFits(s, clock, now);
    CreateInstructionLawful(s.db, c, now, h, project, task, message);
    ServingKeeps(s, c, clock, now, h, p);
    CreateInstructionMeans(s.db, h, project, task, message, p);
    ServeGives(s, c, now, h, p, Scope("instructions", project), h.permitted
               && IsGoing(s.db, project), MayInstruct(s.db, h, project, task, message), after, reply);
    if p.effect.Some? { CreatedInstruction(s.db, h, project, task, message, p); }
  }

  lemma ApproveTaskAnswered(s: Store, c: Crypto, clock: int, now: int, h: Header, task: string, approve: bool,
                            id: string,
                         expires: Option<int>, p: Plan, after: Store, reply: Reply)
    requires Safe(s, clock) && clock <= now && p == ApproveTask(s.db, c, now, h, task, approve, id, expires)
    requires IsOutcome(s, c, h, p, Outcome(after, reply))
    ensures Safe(after, now) && Kept(s.db, after.db, c, now) && (!reply.Accepted? ==> after == s)
    ensures reply.Accepted? ==>
              var n := after.db;
              && (approve ==> OnlyLive(n, c, task, id, now))
              && (!approve ==> NoneLive(n, task, now))
    ensures Due(s.idem, c, h, Scope("approvals", task), h.permitted && task in s.db.tasks,
                MayDecide(s.db, now, h, task, approve, id, expires), reply)
    ensures Keyed(s.idem, after.idem, c, h, Scope("approvals", task), reply)
    ensures reply.Accepted? ==>
              && task in s.db.tasks
              && Decides(s.db, after.db, c, now, h, task, approve, id, expires)
              && reply.response == TaskIs(task, if approve then Approved else Draft)
  {
    SafeFits(s, clock, now);
    ApproveTaskLawful(s.db, c, now, h, task, approve, id, expires);
    ServingKeeps(s, c, clock, now, h, p);
    ApproveTaskMeans(s.db, c, now, h, task, approve, id, expires, p);
    ServeGives(s, c, now, h, p, Scope("approvals", task), h.permitted
               && task in s.db.tasks, MayDecide(s.db, now, h, task, approve, id, expires), after, reply);
    if p.effect.Some? { DecidedTask(s.db, c, now, h, task, approve, id, expires, p); }
  }

  lemma ApproveAndExecuteAnswered(s: Store, c: Crypto, clock: int, now: int, h: Header, task: string, id: string,
                               expires: int, deliveryIds: seq<string>, p: Plan, after: Store, reply: Reply)
    requires Safe(s, clock) && clock <= now && p == ApproveAndExecute(s.db, c, now, h, task, id, expires, deliveryIds)
    requires IsOutcome(s, c, h, p, Outcome(after, reply))
    ensures Safe(after, now) && Kept(s.db, after.db, c, now) && (!reply.Accepted? ==> after == s)
    ensures reply.Accepted? ==>
              var n := after.db;
              && (task in s.db.tasks && s.db.tasks[task].status != Running ==> RunsOn(n, c, task, id, deliveryIds, now))
    ensures Due(s.idem, c, h, Scope("approve-execute", task), h.permitted && task in s.db.tasks
                && IsGoing(s.db, s.db.tasks[task].project),
                MayExecute(s.db, now, h, task, id, expires, deliveryIds), reply)
    ensures Keyed(s.idem, after.idem, c, h, Scope("approve-execute", task), reply)
    ensures reply.Accepted? ==>
              && task in s.db.tasks && s.db.tasks[task].message.Some?
              && Executes(s.db, after.db, c, now, h, task, id, expires, deliveryIds)
              && reply.response == TaskIs(task, Running)
  {
    SafeFits(s, clock, now);
    ApproveAndExecuteLawful(s.db, c, now, h, task, id, expires, deliveryIds);
    ServingKeeps(s, c, clock, now, h, p);
    ApproveAndExecuteMeans(s.db, c, now, h, task, id, expires, deliveryIds, p);
    ServeGives(s, c, now, h, p, Scope("approve-execute", task), h.permitted && task in s.db.tasks
               && IsGoing(s.db, s.db.tasks[task].project), MayExecute(s.db, now, h, task, id, expires, deliveryIds),
               after, reply);
    if p.effect.Some? && s.db.tasks[task].status != Running {
      Executed(s.db, c, now, h, task, id, expires, deliveryIds, p);
    }
  }

  lemma RevokeApprovalAnswered(s: Store, c: Crypto, clock: int, now: int, h: Header, task: string, id: string, p: Plan,
                               after: Store, reply: Reply)
    requires Safe(s, clock) && clock <= now && p == RevokeApproval(s.db, now, h, task, id)
    requires IsOutcome(s, c, h, p, Outcome(after, reply))
    ensures Safe(after, now) && Kept(s.db, after.db, c, now) && (!reply.Accepted? ==> after == s)
    ensures reply.Accepted? ==>
              var n := after.db;
              && !LiveFor(n, task, id, now)
              && (LiveFor(s.db, task, id, now) ==> NoneLive(n, task, now))
    ensures Due(s.idem, c, h, Scope("revoke", id), h.permitted && HasApproval(s.db, task, id),
                h.permitted && HasApproval(s.db, task, id) && s.db.approvals[id].revoked == None, reply)
    ensures Keyed(s.idem, after.idem, c, h, Scope("revoke", id), reply)
    ensures reply.Accepted? ==>
              && id in s.db.approvals
              && Revokes(s.db, after.db, now, id)
              && reply.response == Stored(id)
  {
    SafeFits(s, clock, now);
    RevokeApprovalLawful(s.db, c, now, h, task, id);
    ServingKeeps(s, c, clock, now, h, p);
    RevokeApprovalMeans(s.db, now, h, task, id, p);
    ServeGives(s, c, now, h, p, Scope("revoke", id), h.permitted && HasApproval(s.db, task, id), h.permitted
               && HasApproval(s.db, task, id) && s.db.approvals[id].revoked == None, after, reply);
    if p.effect.Some? { Revoked(s.db, now, h, task, id, p); }
  }

  lemma AssignReviewerAnswered(s: Store, c: Crypto, clock: int, now: int, h: Header, task: string, reviewer: string,
                            expectedRevision: int, activeRun: bool, p: Plan, after: Store, reply: Reply)
    requires Safe(s, clock) && clock <= now
             && p == AssignReviewer(s.db, now, h, task, reviewer, expectedRevision, activeRun)
    requires IsOutcome(s, c, h, p, Outcome(after, reply))
    ensures Safe(after, now) && Kept(s.db, after.db, c, now) && (!reply.Accepted? ==> after == s)
    ensures reply.Accepted? ==>
              var n := after.db;
              && task in n.tasks && n.tasks[task].reviewer == Some(reviewer) && Independent(n.tasks[task])
              && task in n.tasks && n.tasks[task].status == AwaitingApproval && NoneLive(n, task, now)
    ensures Due(s.idem, c, h, Scope("reviewer", task), h.permitted && task in s.db.tasks,
                MayAssign(s.db, h, task, reviewer, expectedRevision, activeRun), reply)
    ensures Keyed(s.idem, after.idem, c, h, Scope("reviewer", task), reply)
    ensures reply.Accepted? ==>
              && task in s.db.tasks
              && Assigns(s.db, after.db, now, task, reviewer)
              && reply.response == TaskIs(task, AwaitingApproval)
  {
    SafeFits(s, clock, now);
    AssignReviewerLawful(s.db, c, now, h, task, reviewer, expectedRevision, activeRun);
    ServingKeeps(s, c, clock, now, h, p);
    AssignReviewerMeans(s.db, now, h, task, reviewer, expectedRevision, activeRun, p);
    ServeGives(s, c, now, h, p, Scope("reviewer", task), h.permitted
               && task in s.db.tasks, MayAssign(s.db, h, task, reviewer, expectedRevision, activeRun), after, reply);
    if p.effect.Some? { Assigned(s.db, now, h, task, reviewer, expectedRevision, activeRun, p); }
  }

  lemma TransitionTaskAnswered(s: Store, c: Crypto, clock: int, now: int, h: Header, task: string, target: TaskStatus,
                            chosen: string, newDeadline: Option<int>, runsPassed: bool, p: Plan, after: Store,
                            reply: Reply)
    requires Safe(s, clock) && clock <= now
             && p == TransitionTask(s.db, c, now, h, task, target, chosen, newDeadline, runsPassed)
    requires IsOutcome(s, c, h, p, Outcome(after, reply))
    ensures Safe(after, now) && Kept(s.db, after.db, c, now) && (!reply.Accepted? ==> after == s)
    ensures reply.Accepted? ==>
              var n := after.db;
              && Moves(n, c, now, task, target, chosen)
    ensures Due(s.idem, c, h, Scope("transition", task), h.permitted && task in s.db.tasks && target != Draft
                && target != Approved && target != Completed,
                MayTransition(s.db, c, now, h, task, target, chosen, newDeadline, runsPassed), reply)
    ensures Keyed(s.idem, after.idem, c, h, Scope("transition", task), reply)
    ensures reply.Accepted? ==>
              && task in s.db.tasks
              && Transitions(s.db, after.db, now, task, target, chosen, newDeadline)
              && reply.response == TaskIs(task, target)
  {
    SafeFits(s, clock, now);
    TransitionLawful(s.db, c, now, h, task, target, chosen, newDeadline, runsPassed);
    ServingKeeps(s, c, clock, now, h, p);
    TransitionTaskMeans(s.db, c, now, h, task, target, chosen, newDeadline, runsPassed, p);
    ServeGives(s, c, now, h, p, Scope("transition", task), h.permitted && task in s.db.tasks && target != Draft
               && target != Approved
                  && target != Completed,
                  MayTransition(s.db, c, now, h, task, target, chosen, newDeadline, runsPassed), after, reply);
    if p.effect.Some? { Transitioned(s.db, c, now, h, task, target, chosen, newDeadline, runsPassed, p); }
  }

  lemma AddEvidenceAnswered(s: Store, c: Crypto, clock: int, now: int, h: Header, task: string, id: string, p: Plan,
                            after: Store, reply: Reply)
    requires Safe(s, clock) && clock <= now && p == AddEvidence(s.db, c, h, task, id)
    requires IsOutcome(s, c, h, p, Outcome(after, reply))
    ensures Safe(after, now) && Kept(s.db, after.db, c, now) && (!reply.Accepted? ==> after == s)
    ensures reply.Accepted? ==>
              var n := after.db;
              && task in n.tasks && CurrentEvidence(n, c, task)
    ensures Due(s.idem, c, h, Scope("evidence", task), h.permitted && InGoingQa(s.db, task),
                h.permitted && h.current && InGoingQa(s.db, task) && id !in s.db.evidence, reply)
    ensures Keyed(s.idem, after.idem, c, h, Scope("evidence", task), reply)
    ensures reply.Accepted? ==>
              && task in s.db.tasks
              && Evidences(s.db, after.db, c, task, id)
              && reply.response == Stored(id)
  {
    SafeFits(s, clock, now);
    AddEvidenceLawful(s.db, c, now, h, task, id);
    ServingKeeps(s, c, clock, now, h, p);
    AddEvidenceMeans(s.db, c, h, task, id, p);
    ServeGives(s, c, now, h, p, Scope("evidence", task), h.permitted && InGoingQa(s.db, task), h.permitted
               && h.current && InGoingQa(s.db, task) && id !in s.db.evidence, after, reply);
    if p.effect.Some? { Evidenced(s.db, c, h, task, id, p); }
  }

  lemma QaVerdictAnswered(s: Store, c: Crypto, clock: int, now: int, h: Header, task: string, kind: VerdictKind,
                       id: string, principal: string, profile: string, fromAgent: bool, signature: string,
                       evidenceOk: bool, p: Plan, after: Store, reply: Reply)
    requires Safe(s, clock) && clock <= now
             && p == QaVerdict(s.db, c, now, h, task, kind, id, principal, profile, fromAgent, signature, evidenceOk)
    requires IsOutcome(s, c, h, p, Outcome(after, reply))
    ensures Safe(after, now) && Kept(s.db, after.db, c, now) && (!reply.Accepted? ==> after == s)
    ensures reply.Accepted? ==>
              var n := after.db;
              && task in n.tasks && n.tasks[task].status == (if kind == PASS then Qa else ReworkRequired)
              && (kind == PASS ==> SignedPass(n, c, task, profile))
    ensures Due(s.idem, c, h, Scope("qa-verdict", task), h.permitted && task in s.db.tasks,
                MayRule(s.db, c, h, task, kind, id, principal, profile, fromAgent, signature, evidenceOk), reply)
    ensures Keyed(s.idem, after.idem, c, h, Scope("qa-verdict", task), reply)
    ensures reply.Accepted? ==>
              && task in s.db.tasks
              && Rules(s.db, after.db, c, now, task, kind, id, principal, profile)
              && reply.response == TaskIs(task, if kind == PASS then Qa else ReworkRequired)
  {
    SafeFits(s, clock, now);
    QaVerdictLawful(s.db, c, now, h, task, kind, id, principal, profile, fromAgent, signature, evidenceOk);
    ServingKeeps(s, c, clock, now, h, p);
    QaVerdictMeans(s.db, c, now, h, task, kind, id, principal, profile, fromAgent, signature, evidenceOk, p);
    ServeGives(s, c, now, h, p, Scope("qa-verdict", task), h.permitted
               && task in s.db.tasks,
               MayRule(s.db, c, h, task, kind, id, principal, profile, fromAgent, signature, evidenceOk), after, reply);
    if p.effect.Some? {
      Ruled(s.db, c, now, h, task, kind, id, principal, profile, fromAgent, signature, evidenceOk, p);
    }
  }

  lemma RepresentativeCompletionAnswered(s: Store, c: Crypto, clock: int, now: int, h: Header, task: string,
                                      approve: bool, profile: string, checksOk: bool, p: Plan, after: Store,
                                      reply: Reply)
    requires Safe(s, clock) && clock <= now
             && p == RepresentativeCompletion(s.db, c, h, task, approve, profile, checksOk)
    requires IsOutcome(s, c, h, p, Outcome(after, reply))
    ensures Safe(after, now) && Kept(s.db, after.db, c, now) && (!reply.Accepted? ==> after == s)
    ensures reply.Accepted? ==>
              var n := after.db;
              && task in n.tasks && n.tasks[task].status == (if approve then Completed else ReworkRequired)
              && (approve ==> task in s.db.tasks && PassedNow(s.db, c, task))
    ensures Due(s.idem, c, h, Scope("representative-completion", task), h.permitted && task in s.db.tasks
                && IsGoing(s.db, s.db.tasks[task].project),
                MayConclude(s.db, c, h, task, approve, profile, checksOk), reply)
    ensures Keyed(s.idem, after.idem, c, h, Scope("representative-completion", task), reply)
    ensures reply.Accepted? ==>
              && task in s.db.tasks
              && Concludes(s.db, after.db, task, approve)
              && reply.response == TaskIs(task, if approve then Completed else ReworkRequired)
  {
    SafeFits(s, clock, now);
    RepresentativeCompletionLawful(s.db, c, now, h, task, approve, profile, checksOk);
    ServingKeeps(s, c, clock, now, h, p);
    RepresentativeCompletionMeans(s.db, c, h, task, approve, profile, checksOk, p);
    ServeGives(s, c, now, h, p, Scope("representative-completion", task), h.permitted && task in s.db.tasks
               && IsGoing(s.db, s.db.tasks[task].project), MayConclude(s.db, c, h, task, approve, profile, checksOk),
               after, reply);
    if p.effect.Some? { Concluded(s.db, c, h, task, approve, profile, checksOk, p); }
  }

  lemma RevalidateResultAnswered(s: Store, c: Crypto, clock: int, now: int, h: Header, task: string, candidate: bool,
                              chosen: string, passed: bool, copies: set<string>, q: QaQueue, p: Plan, after: Store,
                              reply: Reply)
    requires Safe(s, clock) && clock <= now
             && p == RevalidateResult(s.db, c, now, h, task, candidate, chosen, passed, copies, q)
    requires IsOutcome(s, c, h, p, Outcome(after, reply))
    ensures Safe(after, now) && Kept(s.db, after.db, c, now) && (!reply.Accepted? ==> after == s)
    ensures reply.Accepted? ==>
              var n := after.db;
              && (passed ==> Reviewable(n, task))
              && (!passed ==> n == s.db)
    ensures Due(s.idem, c, h, Scope("revalidate-result", task), h.permitted && task in s.db.tasks,
                MayRevalidate(s.db, c, now, h, task, candidate, chosen, passed, copies, q), reply)
    ensures Keyed(s.idem, after.idem, c, h, Scope("revalidate-result", task), reply)
    ensures reply.Accepted? ==>
              && task in s.db.tasks
              && (passed ==>
                  s.db.tasks[task].message.Some? && s.db.tasks[task].reviewer.Some?
                    && Reuses(s.db, after.db, c, task, copies, q)) && (!passed ==> after.db == s.db)
              && reply.response == TaskIs(task, if passed then Qa else s.db.tasks[task].status)
  {
    SafeFits(s, clock, now);
    RevalidateLawful(s.db, c, now, h, task, candidate, chosen, passed, copies, q);
    ServingKeeps(s, c, clock, now, h, p);
    RevalidateResultMeans(s.db, c, now, h, task, candidate, chosen, passed, copies, q, p);
    ServeGives(s, c, now, h, p, Scope("revalidate-result", task), h.permitted
               && task in s.db.tasks, MayRevalidate(s.db, c, now, h, task, candidate, chosen, passed, copies, q),
               after, reply);
    if p.effect.Some? { Revalidated(s.db, c, now, h, task, candidate, chosen, passed, copies, q, p); }
  }

  lemma DeliverMessageAnswered(s: Store, c: Crypto, clock: int, now: int, h: Header, message: string, task: string,
                            agents: seq<string>, ids: seq<string>, chosen: string, callsLeft: int, turnsLeft: int,
                            p: Plan, after: Store, reply: Reply)
    requires Safe(s, clock) && clock <= now
             && p == DeliverMessage(s.db, c, now, h, message, task, agents, ids, chosen, callsLeft, turnsLeft)
    requires IsOutcome(s, c, h, p, Outcome(after, reply))
    ensures Safe(after, now) && Kept(s.db, after.db, c, now) && (!reply.Accepted? ==> after == s)
    ensures reply.Accepted? ==>
              var n := after.db;
              && task in n.tasks && |ids| == |agents|
              && forall i :: 0 <= i < |agents| ==>
                   QueuedFor(n.deliveries, message, n.tasks[task].revision, agents[i], ids[i])
    ensures Due(s.idem, c, h, Scope("deliveries", message), h.permitted && h.current
                && CanDeliver(s.db, c, now, message, task, agents, chosen, callsLeft, turnsLeft),
                h.permitted && h.current
                  && CanDeliver(s.db, c, now, message, task, agents, chosen, callsLeft, turnsLeft)
                     && CanQueue(s.db.deliveries, message, s.db.tasks[task].revision, agents, ids), reply)
    ensures Keyed(s.idem, after.idem, c, h, Scope("deliveries", message), reply)
    ensures reply.Accepted? ==>
              && task in s.db.tasks
              && Delivers(s.db, after.db, message, task, agents, ids)
              && reply.response == QueuedAll(ids)
  {
    SafeFits(s, clock, now);
    DeliverMessageLawful(s.db, c, now, h, message, task, agents, ids, chosen, callsLeft, turnsLeft);
    ServingKeeps(s, c, clock, now, h, p);
    DeliverMessageMeans(s.db, c, now, h, message, task, agents, ids, chosen, callsLeft, turnsLeft, p);
    ServeGives(s, c, now, h, p, Scope("deliveries", message), h.permitted && h.current
               && CanDeliver(s.db, c, now, message, task, agents, chosen, callsLeft, turnsLeft), h.permitted
                  && h.current && CanDeliver(s.db, c, now, message, task, agents, chosen, callsLeft, turnsLeft)
                     && CanQueue(s.db.deliveries, message, s.db.tasks[task].revision, agents, ids), after, reply);
    if p.effect.Some? { Delivered(s.db, c, now, h, message, task, agents, ids, chosen, callsLeft, turnsLeft, p); }
  }

  lemma RetryDeliveryAnswered(s: Store, c: Crypto, clock: int, now: int, h: Header, id: string, task: string,
                           agent: string, p: Plan, after: Store, reply: Reply)
    requires Safe(s, clock) && clock <= now && p == RetryDelivery(s.db, h, id, task, agent)
    requires IsOutcome(s, c, h, p, Outcome(after, reply))
    ensures Safe(after, now) && Kept(s.db, after.db, c, now) && (!reply.Accepted? ==> after == s)
    ensures reply.Accepted? ==>
              var n := after.db;
              && QueuedAlone(n, id, agent)
    ensures Due(s.idem, c, h, Scope("retry", id), h.permitted && CanRetry(s.db, id, task, agent),
                h.permitted && CanRetry(s.db, id, task, agent) && OnlyOne(s.db, id, agent), reply)
    ensures Keyed(s.idem, after.idem, c, h, Scope("retry", id), reply)
    ensures reply.Accepted? ==>
              && id in s.db.deliveries
              && Retries(s.db, after.db, id, agent)
              && reply.response == Stored(id)
  {
    SafeFits(s, clock, now);
    RetryDeliveryLawful(s.db, c, now, h, id, task, agent);
    ServingKeeps(s, c, clock, now, h, p);
    RetryDeliveryMeans(s.db, h, id, task, agent, p);
    ServeGives(s, c, now, h, p, Scope("retry", id), h.permitted && CanRetry(s.db, id, task, agent), h.permitted
               && CanRetry(s.db, id, task, agent) && OnlyOne(s.db, id, agent), after, reply);
    if p.effect.Some? { Retried(s.db, h, id, task, agent, p); }
  }

  lemma StopProjectAnswered(s: Store, c: Crypto, clock: int, now: int, h: Header, project: string,
                         receipts: map<string, Receipt>, p: Plan, after: Store, reply: Reply)
    requires Safe(s, clock) && clock <= now && p == StopProject(s.db, now, h, project, receipts)
    requires IsOutcome(s, c, h, p, Outcome(after, reply))
    ensures Safe(after, now) && Kept(s.db, after.db, c, now) && (!reply.Accepted? ==> after == s)
    ensures reply.Accepted? ==>
              var n := after.db;
              && project in n.control && n.control[project].state != Going
              && AtRest(n, project) && NoneLiveIn(n, project, now)
    ensures Due(s.idem, c, h, Scope("stop", project), h.permitted && project in s.db.control,
                h.permitted && h.current && project in s.db.control, reply)
    ensures Keyed(s.idem, after.idem, c, h, Scope("stop", project), reply)
    ensures reply.Accepted? ==>
              && (exists covers :: StopsProject(s.db, after.db, now, project, receipts, covers))
              && project in after.db.control && reply.response == ProjectIs(project, after.db.control[project].state)
  {
    SafeFits(s, clock, now);
    StopProjectLawful(s.db, c, now, h, project, receipts);
    ServingKeeps(s, c, clock, now, h, p);
    StopProjectMeans(s.db, now, h, project, receipts, p);
    ServeGives(s, c, now, h, p, Scope("stop", project), h.permitted && project in s.db.control, h.permitted
               && h.current && project in s.db.control, after, reply);
    if p.effect.Some? { StoppedProject(s.db, now, h, project, receipts, p); }
  }

  lemma StopTaskAnswered(s: Store, c: Crypto, clock: int, now: int, h: Header, task: string,
                      receipts: map<string, Receipt>, p: Plan, after: Store, reply: Reply)
    requires Safe(s, clock) && clock <= now && p == StopTask(s.db, now, h, task, receipts)
    requires IsOutcome(s, c, h, p, Outcome(after, reply))
    ensures Safe(after, now) && Kept(s.db, after.db, c, now) && (!reply.Accepted? ==> after == s)
    ensures reply.Accepted? ==>
              var n := after.db;
              && Quiesced(n, task, now)
              && task in s.db.tasks && task in n.tasks
              && (n.tasks[task].status == Stopped <==> AllConfirmed(s.db, n, task))
    ensures Due(s.idem, c, h, Scope("task-stop", task), h.permitted && task in s.db.tasks,
                h.permitted && h.current && task in s.db.tasks && s.db.tasks[task].status != Completed, reply)
    ensures Keyed(s.idem, after.idem, c, h, Scope("task-stop", task), reply)
    ensures reply.Accepted? ==>
              && task in s.db.tasks
              && (exists covers :: StopsTask(s.db, after.db, now, task, receipts, covers))
              && task in after.db.tasks && reply.response == TaskIs(task, after.db.tasks[task].status)
  {
    SafeFits(s, clock, now);
    StopTaskLawful(s.db, c, now, h, task, receipts);
    ServingKeeps(s, c, clock, now, h, p);
    StopTaskMeans(s.db, now, h, task, receipts, p);
    ServeGives(s, c, now, h, p, Scope("task-stop", task), h.permitted && task in s.db.tasks, h.permitted && h.current
               && task in s.db.tasks && s.db.tasks[task].status != Completed, after, reply);
    if p.effect.Some? { StoppedTask(s.db, now, h, task, receipts, p); }
  }

  lemma StopAckAnswered(s: Store, c: Crypto, clock: int, now: int, h: Header, project: string, id: string, p: Plan,
                        after: Store, reply: Reply)
    requires Safe(s, clock) && clock <= now && p == StopAck(s.db, h, project, id)
    requires IsOutcome(s, c, h, p, Outcome(after, reply))
    ensures Safe(after, now) && Kept(s.db, after.db, c, now) && (!reply.Accepted? ==> after == s)
    ensures reply.Accepted? ==>
              var n := after.db;
              && CycleDerived(n, project)
    ensures Due(s.idem, c, h, Scope("stop-ack", project), h.permitted && project in s.db.control,
                MayAcknowledge(s.db, h, project, id), reply)
    ensures Keyed(s.idem, after.idem, c, h, Scope("stop-ack", project), reply)
    ensures reply.Accepted? ==>
              && project in s.db.control
              && Acknowledges(s.db, after.db, project)
              && project in after.db.control && reply.response == ProjectIs(project, after.db.control[project].state)
  {
    SafeFits(s, clock, now);
    StopAckLawful(s.db, c, now, h, project, id);
    ServingKeeps(s, c, clock, now, h, p);
    StopAckMeans(s.db, h, project, id, p);
    ServeGives(s, c, now, h, p, Scope("stop-ack", project), h.permitted
               && project in s.db.control, MayAcknowledge(s.db, h, project, id), after, reply);
    if p.effect.Some? { Acknowledged(s.db, h, project, id, p); }
  }

  lemma ResumeProjectAnswered(s: Store, c: Crypto, clock: int, now: int, h: Header, project: string, p: Plan,
                              after: Store, reply: Reply)
    requires Safe(s, clock) && clock <= now && p == ResumeProject(s.db, now, h, project)
    requires IsOutcome(s, c, h, p, Outcome(after, reply))
    ensures Safe(after, now) && Kept(s.db, after.db, c, now) && (!reply.Accepted? ==> after == s)
    ensures reply.Accepted? ==>
              var n := after.db;
              && NotStopped(n, project) && AtRest(n, project)
    ensures Due(s.idem, c, h, Scope("resume", project), h.permitted && project in s.db.control,
                MayResume(s.db, now, h, project), reply)
    ensures Keyed(s.idem, after.idem, c, h, Scope("resume", project), reply)
    ensures reply.Accepted? ==>
              && after.db == s.db.(control := s.db.control[project := Control(Going, None)])
              && reply.response == ProjectIs(project, Going)
  {
    SafeFits(s, clock, now);
    ResumeProjectLawful(s.db, c, now, h, project);
    ServingKeeps(s, c, clock, now, h, p);
    ResumeProjectMeans(s.db, now, h, project, p);
    ServeGives(s, c, now, h, p, Scope("resume", project), h.permitted
               && project in s.db.control, MayResume(s.db, now, h, project), after, reply);
    if p.effect.Some? { Resumed(s.db, now, h, project, p); }
  }
}
