/**
 * Whole runs of the War Room: any endpoints and worker steps, by anyone, in any order, with
 * any time passing between them.
 */
module LifecycleTheorems {
  import opened Wrappers
  import opened Lifecycle
  import opened LifecycleLaws

  /** The request bodies, with the outside facts an endpoint looks up (chosen rows, fresh ids, receipts). */
  datatype Call =
    | MakeProject(project: string)
    | MakeTask(project: string, input: TaskInput, link: Option<string>)
    | Prepare(project: string, input: TaskInput, message: string)
    | Instruct(project: string, task: string, message: string)
    | Decide(task: string, approve: bool, id: string, expiry: Option<int>)
    | Execute(task: string, id: string, expires: int, ids: seq<string>)
    | Revoke(task: string, id: string)
    | GiveReviewer(task: string, reviewer: string, expectedRevision: int, activeRun: bool)
    | Move(task: string, target: TaskStatus, chosen: string, newDeadline: Option<int>, runsPassed: bool)
    | Attach(task: string, id: string)
    | Rule(task: string, kind: VerdictKind, id: string, principal: string, profile: string, fromAgent: bool,
           signature: string, evidenceOk: bool)
    | Complete(task: string, approve: bool, profile: string, checksOk: bool)
    | Revalidate(task: string, candidate: bool, chosen: string, passed: bool, copies: set<string>, queue: QaQueue)
    | Deliver(message: string, task: string, agents: seq<string>, ids: seq<string>, chosen: string, callsLeft: int,
              turnsLeft: int)
    | Retry(id: string, task: string, agent: string)
    | HaltProject(project: string, receipts: map<string, Receipt>)
    | HaltTask(task: string, receipts: map<string, Receipt>)
    | Acknowledge(project: string, id: string)
    | Resume(project: string)

  predicate IsSetupCall(call: Call) { call.MakeProject? || call.MakeTask? || call.Prepare? || call.Instruct? }

  function SetupPlan(s: Db, now: int, h: Header, call: Call): Plan
    requires IsSetupCall(call)
  {
    match call
    case MakeProject(project) => CreateProject(s, h, project)
    case MakeTask(project, input, link) => CreateTask(s, now, h, project, input, link)
    case Prepare(project, input, message) => PrepareTask(s, now, h, project, input, message)
    case Instruct(project, task, message) => CreateInstruction(s, h, project, task, message)
  }

  predicate IsApprovalCall(call: Call)
  {
    call.Decide? || call.Execute? || call.Revoke? || call.GiveReviewer? || call.Move?
  }

  function ApprovalPlan(s: Db, c: Crypto, now: int, h: Header, call: Call): Plan
    requires IsApprovalCall(call)
  {
    match call
    case Decide(task, approve, id, expiry) => ApproveTask(s, c, now, h, task, approve, id, expiry)
    case Execute(task, id, expires, ids) => ApproveAndExecute(s, c, now, h, task, id, expires, ids)
    case Revoke(task, id) => RevokeApproval(s, now, h, task, id)
    case GiveReviewer(task, reviewer, expected, activeRun) =>
      AssignReviewer(s, now, h, task, reviewer, expected, activeRun)
    case Move(task, target, chosen, newDeadline, runsPassed) =>
      TransitionTask(s, c, now, h, task, target, chosen, newDeadline, runsPassed)
  }

  predicate IsQaCall(call: Call) { call.Attach? || call.Rule? || call.Complete? || call.Revalidate? }

  function QaPlan(s: Db, c: Crypto, now: int, h: Header, call: Call): Plan
    requires IsQaCall(call)
  {
    match call
    case Attach(task, id) => AddEvidence(s, c, h, task, id)
    case Rule(task, kind, id, principal, profile, fromAgent, signature, evidenceOk) =>
      QaVerdict(s, c, now, h, task, kind, id, principal, profile, fromAgent, signature, evidenceOk)
    case Complete(task, approve, profile, checksOk) =>
      RepresentativeCompletion(s, c, h, task, approve, profile, checksOk)
    case Revalidate(task, candidate, chosen, passed, copies, queue) =>
      RevalidateResult(s, c, now, h, task, candidate, chosen, passed, copies, queue)
  }

  predicate IsDeliveryCall(call: Call) { call.Deliver? || call.Retry? }

  function DeliveryPlan(s: Db, c: Crypto, now: int, h: Header, call: Call): Plan
    requires IsDeliveryCall(call)
  {
    match call
    case Deliver(message, task, agents, ids, chosen, callsLeft, turnsLeft) =>
      DeliverMessage(s, c, now, h, message, task, agents, ids, chosen, callsLeft, turnsLeft)
    case Retry(id, task, agent) => RetryDelivery(s, h, id, task, agent)
  }

  predicate IsStopCall(call: Call) { call.HaltProject? || call.HaltTask? || call.Acknowledge? || call.Resume? }

  function StopPlan(s: Db, now: int, h: Header, call: Call): Plan
    requires IsStopCall(call)
  {
    match call
    case HaltProject(project, receipts) => StopProject(s, now, h, project, receipts)
    case HaltTask(task, receipts) => StopTask(s, now, h, task, receipts)
    case Acknowledge(project, id) => StopAck(s, h, project, id)
    case Resume(project) => ResumeProject(s, now, h, project)
  }

  function PlanOf(s: Db, c: Crypto, now: int, h: Header, call: Call): Plan {
    if IsSetupCall(call) then SetupPlan(s, now, h, call)
    else if IsApprovalCall(call) then ApprovalPlan(s, c, now, h, call)
    else if IsQaCall(call) then QaPlan(s, c, now, h, call)
    else if IsDeliveryCall(call) then DeliveryPlan(s, c, now, h, call)
    else StopPlan(s, now, h, call)
  }

  datatype Action =
    | Request(header: Header, call: Call)
    | Working(id: string, task: string, work: Work)

  /** `tick` is the time that passes before the action. */
  datatype Event = Event(tick: nat, action: Action)

  datatype Moment = Moment(store: Store, clock: int)

  function Perform(s: Store, c: Crypto, now: int, a: Action): Store {
    match a
    case Request(h, call) => Serve(s, c, h, PlanOf(s.db, c, now, h, call)).store
    case Working(id, task, work) => s.(db := WorkerStep(s.db, c, now, id, task, work))
  }

  ghost predicate Follows(m: Moment, c: Crypto, e: Event, n: Moment) {
    && n.clock == m.clock + e.tick
    && forall now :: now == n.clock ==> n.store == Perform(m.store, c, now, e.action)
  }

  function NoRows(): Store { Store(Db(map[], map[], map[], map[], map[], map[], map[]), map[]) }

  /** A history from empty tables: `past[i]` holds before `events[i]`. */
  ghost predicate IsRun(c: Crypto, past: seq<Moment>, events: seq<Event>) {
    && |past| == |events| + 1
    && past[0].store == NoRows()
    && forall i :: 0 <= i < |events| ==> Follows(past[i], c, events[i], past[i + 1])
  }

  // ----- every action is lawful ----------------------------------------------------------------

  lemma SetupCallLawful(s: Db, c: Crypto, now: int, h: Header, call: Call, p: Plan)
    requires Consistent(s) && IsSetupCall(call) && p == SetupPlan(s, now, h, call)
    ensures LawfulPlan(s, p, c, now)
  {
    match call
    case MakeProject(project) => CreateProjectLawful(s, c, now, h, project);
    case MakeTask(project, input, link) => CreateTaskLawful(s, c, now, h, project, input, link);
    case Prepare(project, input, message) => PrepareTaskLawful(s, c, now, h, project, input, message);
    case Instruct(project, task, message) => CreateInstructionLawful(s, c, now, h, project, task, message);
  }

  lemma ApprovalCallLawful(s: Db, c: Crypto, now: int, h: Header, call: Call, p: Plan)
    requires Consistent(s) && IsApprovalCall(call) && p == ApprovalPlan(s, c, now, h, call)
    ensures LawfulPlan(s, p, c, now)
  {
    match call
    case Decide(task, approve, id, expiry) => ApproveTaskLawful(s, c, now, h, task, approve, id, expiry);
    case Execute(task, id, expires, ids) => ApproveAndExecuteLawful(s, c, now, h, task, id, expires, ids);
    case Revoke(task, id) => RevokeApprovalLawful(s, c, now, h, task, id);
    case GiveReviewer(task, reviewer, expected, activeRun) =>
      AssignReviewerLawful(s, c, now, h, task, reviewer, expected, activeRun);
    case Move(task, target, chosen, newDeadline, runsPassed) =>
      TransitionLawful(s, c, now, h, task, target, chosen, newDeadline, runsPassed);
  }

  lemma QaCallLawful(s: Db, c: Crypto, now: int, h: Header, call: Call, p: Plan)
    requires Consistent(s) && IsQaCall(call) && p == QaPlan(s, c, now, h, call)
    ensures LawfulPlan(s, p, c, now)
  {
    match call
    case Attach(task, id) => AddEvidenceLawful(s, c, now, h, task, id);
    case Rule(task, kind, id, principal, profile, fromAgent, signature, evidenceOk) =>
      QaVerdictLawful(s, c, now, h, task, kind, id, principal, profile, fromAgent, signature, evidenceOk);
    case Complete(task, approve, profile, checksOk) =>
      RepresentativeCompletionLawful(s, c, now, h, task, approve, profile, checksOk);
    case Revalidate(task, candidate, chosen, passed, copies, queue) =>
      RevalidateLawful(s, c, now, h, task, candidate, chosen, passed, copies, queue);
  }

  lemma DeliveryCallLawful(s: Db, c: Crypto, now: int, h: Header, call: Call, p: Plan)
    requires Consistent(s) && IsDeliveryCall(call) && p == DeliveryPlan(s, c, now, h, call)
    ensures LawfulPlan(s, p, c, now)
  {
    match call
    case Deliver(message, task, agents, ids, chosen, callsLeft, turnsLeft) =>
      DeliverMessageLawful(s, c, now, h, message, task, agents, ids, chosen, callsLeft, turnsLeft);
    case Retry(id, task, agent) => RetryDeliveryLawful(s, c, now, h, id, task, agent);
  }

  lemma StopCallLawful(s: Db, c: Crypto, now: int, h: Header, call: Call, p: Plan)
    requires Consistent(s) && IsStopCall(call) && p == StopPlan(s, now, h, call)
    ensures LawfulPlan(s, p, c, now)
  {
    match call
    case HaltProject(project, receipts) => StopProjectLawful(s, c, now, h, project, receipts);
    case HaltTask(task, receipts) => StopTaskLawful(s, c, now, h, task, receipts);
    case Acknowledge(project, id) => StopAckLawful(s, c, now, h, project, id);
    case Resume(project) => ResumeProjectLawful(s, c, now, h, project);
  }

  lemma CallLawful(s: Db, c: Crypto, now: int, h: Header, call: Call, p: Plan)
    requires Consistent(s) && p == PlanOf(s, c, now, h, call)
    ensures LawfulPlan(s, p, c, now)
  {
    if IsSetupCall(call) {
      SetupCallLawful(s, c, now, h, call, p);
    } else if IsApprovalCall(call) {
      ApprovalCallLawful(s, c, now, h, call, p);
    } else if IsQaCall(call) {
      QaCallLawful(s, c, now, h, call, p);
    } else if IsDeliveryCall(call) {
      DeliveryCallLawful(s, c, now, h, call, p);
    } else {
      StopCallLawful(s, c, now, h, call, p);
    }
  }

  lemma ServeLawful(s: Store, c: Crypto, now: int, h: Header, p: Plan)
    requires Consistent(s.db) && LawfulPlan(s.db, p, c, now)
    ensures Lawful(s.db, Serve(s, c, h, p).store.db, c, now, None)
  {
    NoChangeLawful(s.db, c, now);
  }

  /** The completed task that the action may reopen. */
  function Exempt(a: Action): Option<string> {
    if a.Working? then ExemptOf(a.task, a.work) else None
  }

  lemma ActionLawful(s: Store, c: Crypto, now: int, a: Action, n: Store)
    requires Consistent(s.db) && BarrierHolds(s.db) && n == Perform(s, c, now, a)
    ensures Lawful(s.db, n.db, c, now, Exempt(a))
  {
    match a
    case Request(h, call) =>
      var p := PlanOf(s.db, c, now, h, call);
      CallLawful(s.db, c, now, h, call, p);
      ServeLawful(s, c, now, h, p);
    case Working(id, task, work) =>
      WorkerLawful(s.db, c, now, id, task, work);
  }

  // ----- the invariant of every run --------------------------------------------------------------

  /** A task that waits for approval holds no live one. */
  ghost predicate NoLiveWhileWaiting(s: Db, now: int) {
    forall a :: a in s.approvals && Live(s.approvals[a], now) && s.approvals[a].task in s.tasks ==>
      !Waits(s.tasks[s.approvals[a].task].status)
  }

  ghost predicate AtMostOneLive(s: Db, now: int) {
    forall a, b :: a in s.approvals && b in s.approvals && Live(s.approvals[a], now) && Live(s.approvals[b], now) ==>
      s.approvals[a].task == s.approvals[b].task ==> a == b
  }

  /** No verdict is ahead of its task, and a visit to QA that still lasts holds only PASS verdicts. */
  ghost predicate VerdictFits(t: Task, v: Verdict) {
    && v.payload.qaCycle <= t.qaCycle
    && (t.status == Qa && v.payload.qaCycle == t.qaCycle ==> v.payload.kind == PASS)
  }

  ghost predicate VerdictsFit(s: Db) {
    forall v :: v in s.verdicts && s.verdicts[v].payload.task in s.tasks ==>
      VerdictFits(s.tasks[s.verdicts[v].payload.task], s.verdicts[v])
  }

  ghost predicate Inv(m: Moment) {
    && Consistent(m.store.db)
    && BarrierHolds(m.store.db)
    && NoLiveWhileWaiting(m.store.db, m.clock)
    && AtMostOneLive(m.store.db, m.clock)
    && VerdictsFit(m.store.db)
  }

  lemma BarrierKept(s: Db, n: Db)
    requires Consistent(s) && BarrierHolds(s) && BarrierLaw(s, n) && Consistent(n)
    requires TasksLaw(s, n)
    ensures BarrierHolds(n)
  {
    forall p, t | p in n.control && BusyTask(n, p, t) ensures n.control[p].state == Going {
      if p !in s.control { assert n.control[p].state == Going; }
    }
    forall p, d | p in n.control && ActiveDelivery(n, p, d) ensures n.control[p].state == Going {
      if p !in s.control { assert n.control[p].state == Going; }
    }
  }

  /** Time and revocation only ever end an approval. */
  lemma LiveWasLive(s: Db, n: Db, earlier: int, now: int, a: string)
    requires ApprovalsLaw(s, n, now) && earlier <= now && a in s.approvals
    ensures a in n.approvals && n.approvals[a].task == s.approvals[a].task
    ensures Live(n.approvals[a], now) ==> Live(s.approvals[a], earlier)
  {
    assert ApprovalLaw(s.approvals[a], n.approvals[a]);
  }

  lemma WaitingKept(s: Db, n: Db, earlier: int, now: int)
    requires Consistent(s) && NoLiveWhileWaiting(s, earlier) && earlier <= now
    requires TasksLaw(s, n) && ApprovalsLaw(s, n, now) && WaitingLaw(s, n, now)
    ensures NoLiveWhileWaiting(n, now)
  {
    forall a | a in n.approvals && Live(n.approvals[a], now) && n.approvals[a].task in n.tasks
      ensures !Waits(n.tasks[n.approvals[a].task].status)
    {
      if a in s.approvals {
        LiveWasLive(s, n, earlier, now, a);
        assert !FallsBack(s.tasks[n.approvals[a].task].status, n.tasks[n.approvals[a].task].status);
      } else {
        assert NewApprovalLaw(s, n, n.approvals[a], now);
      }
    }
  }

  lemma OneLiveKept(s: Db, n: Db, earlier: int, now: int)
    requires Consistent(s) && NoLiveWhileWaiting(s, earlier) && AtMostOneLive(s, earlier) && earlier <= now
    requires ApprovalsLaw(s, n, now)
    ensures AtMostOneLive(n, now)
  {
    forall a, b | a in n.approvals && b in n.approvals && Live(n.approvals[a], now) && Live(n.approvals[b], now)
                  && n.approvals[a].task == n.approvals[b].task
      ensures a == b
    {
      if a in s.approvals { LiveWasLive(s, n, earlier, now, a); } else {
        assert NewApprovalLaw(s, n, n.approvals[a], now);
      }
      if b in s.approvals { LiveWasLive(s, n, earlier, now, b); } else {
        assert NewApprovalLaw(s, n, n.approvals[b], now);
      }
    }
  }

  lemma VerdictsKept(s: Db, n: Db, c: Crypto)
    requires Consistent(s) && VerdictsFit(s)
    requires TasksLaw(s, n) && VerdictsLaw(s, n, c)
    ensures VerdictsFit(n)
  {
    forall v | v in n.verdicts && n.verdicts[v].payload.task in n.tasks
      ensures VerdictFits(n.tasks[n.verdicts[v].payload.task], n.verdicts[v])
    {
      var t := n.verdicts[v].payload.task;
      if v in s.verdicts {
        assert TaskLaw(s.tasks[t], n.tasks[t]) && VerdictFits(s.tasks[t], s.verdicts[v]);
      } else {
        assert NewVerdictLaw(s, n, c, n.verdicts[v]);
        assert TaskLaw(s.tasks[t], n.tasks[t]);
      }
    }
  }

  lemma LawfulKeepsInv(m: Moment, c: Crypto, n: Moment, exempt: Option<string>)
    requires Inv(m) && m.clock <= n.clock && Lawful(m.store.db, n.store.db, c, n.clock, exempt)
    ensures Inv(n)
  {
    BarrierKept(m.store.db, n.store.db);
    WaitingKept(m.store.db, n.store.db, m.clock, n.clock);
    OneLiveKept(m.store.db, n.store.db, m.clock, n.clock);
    VerdictsKept(m.store.db, n.store.db, c);
  }

  lemma ActionKeepsInv(m: Moment, c: Crypto, e: Event, n: Moment)
    requires Inv(m) && Follows(m, c, e, n)
    ensures Inv(n)
    ensures Lawful(m.store.db, n.store.db, c, n.clock, Exempt(e.action))
  {
    ActionLawful(m.store, c, n.clock, e.action, n.store);
    LawfulKeepsInv(m, c, n, Exempt(e.action));
  }

  /** Every reachable state satisfies the invariant. */
  lemma {:induction false} RunKeepsInv(c: Crypto, past: seq<Moment>, events: seq<Event>, i: nat)
    requires IsRun(c, past, events) && i < |past|
    ensures Inv(past[i])
  {
    if i > 0 {
      RunKeepsInv(c, past, events, i - 1);
      ActionKeepsInv(past[i - 1], c, events[i - 1], past[i]);
    }
  }

  lemma StepIsLawful(c: Crypto, past: seq<Moment>, events: seq<Event>, i: nat)
    requires IsRun(c, past, events) && i < |events|
    ensures past[i].clock <= past[i + 1].clock
    ensures Lawful(past[i].store.db, past[i + 1].store.db, c, past[i + 1].clock, Exempt(events[i].action))
  {
    RunKeepsInv(c, past, events, i);
    ActionKeepsInv(past[i], c, events[i], past[i + 1]);
  }

  lemma StepOnTasks(c: Crypto, past: seq<Moment>, events: seq<Event>, i: nat)
    requires IsRun(c, past, events) && i < |events|
    ensures TasksLaw(past[i].store.db, past[i + 1].store.db)
  {
    StepIsLawful(c, past, events, i);
  }

  lemma StepOnApprovals(c: Crypto, past: seq<Moment>, events: seq<Event>, i: nat)
    requires IsRun(c, past, events) && i < |events|
    ensures past[i].clock <= past[i + 1].clock
            && ApprovalsLaw(past[i].store.db, past[i + 1].store.db, past[i + 1].clock)
  {
    StepIsLawful(c, past, events, i);
  }

  lemma StepOnVerdicts(c: Crypto, past: seq<Moment>, events: seq<Event>, i: nat)
    requires IsRun(c, past, events) && i < |events|
    ensures VerdictsLaw(past[i].store.db, past[i + 1].store.db, c)
  {
    StepIsLawful(c, past, events, i);
  }

  lemma StepOnCompletion(c: Crypto, past: seq<Moment>, events: seq<Event>, i: nat)
    requires IsRun(c, past, events) && i < |events|
    ensures CompletionLaw(past[i].store.db, past[i + 1].store.db, c, Exempt(events[i].action))
  {
    StepIsLawful(c, past, events, i);
  }

  /** While a project is stopped none of its tasks is at work and none of its deliveries is under way. */
  lemma StopBarrierHolds(c: Crypto, past: seq<Moment>, events: seq<Event>, i: nat, project: string)
    requires IsRun(c, past, events) && i < |past|
    requires project in past[i].store.db.control && past[i].store.db.control[project].state != Going
    ensures forall t :: t in past[i].store.db.tasks && past[i].store.db.tasks[t].project == project ==>
              past[i].store.db.tasks[t].status !in {Running, Qa, ReworkRequired}
    ensures forall d :: d in past[i].store.db.deliveries && ProjectOfDelivery(past[i].store.db, d, project) ==>
              past[i].store.db.deliveries[d].status !in {Queued, Sent, Received}
  {
    RunKeepsInv(c, past, events, i);
    var s := past[i].store.db;
    forall t | t in s.tasks && s.tasks[t].project == project
      ensures s.tasks[t].status !in {Running, Qa, ReworkRequired}
    {
      assert !BusyTask(s, project, t);
    }
    forall d | d in s.deliveries && ProjectOfDelivery(s, d, project)
      ensures s.deliveries[d].status !in {Queued, Sent, Received}
    {
      assert !ActiveDelivery(s, project, d);
    }
  }

  /** A task never has two live approvals, and none while it is a draft or awaits approval. */
  lemma OneLiveApproval(c: Crypto, past: seq<Moment>, events: seq<Event>, i: nat, a: string, b: string)
    requires IsRun(c, past, events) && i < |past|
    requires var m := past[i];
             && a in m.store.db.approvals && b in m.store.db.approvals
             && Live(m.store.db.approvals[a], m.clock) && Live(m.store.db.approvals[b], m.clock)
             && m.store.db.approvals[a].task == m.store.db.approvals[b].task
    ensures a == b
    ensures past[i].store.db.approvals[a].task in past[i].store.db.tasks
    ensures past[i].store.db.tasks[past[i].store.db.approvals[a].task].status !in {Draft, AwaitingApproval}
  {
    RunKeepsInv(c, past, events, i);
  }

  // ----- approvals over a run --------------------------------------------------------------------

  /** Rows are never dropped, and a live approval was live all the time since it was granted. */
  lemma {:induction false} LiveAllAlong(c: Crypto, past: seq<Moment>, events: seq<Event>, j: nat, i: nat, a: string)
    requires IsRun(c, past, events) && j <= i < |past|
    requires a in past[j].store.db.approvals
    ensures a in past[i].store.db.approvals && past[i].store.db.approvals[a].task == past[j].store.db.approvals[a].task
    ensures Live(past[i].store.db.approvals[a], past[i].clock) ==> Live(past[j].store.db.approvals[a], past[j].clock)
    decreases i
  {
    if j < i {
      LiveAllAlong(c, past, events, j, i - 1, a);
      StepOnApprovals(c, past, events, i - 1);
      LiveWasLive(past[i - 1].store.db, past[i].store.db, past[i - 1].clock, past[i].clock, a);
    }
  }

  ghost predicate Starts(past: seq<Moment>, i: nat, t: string)
    requires i + 1 < |past|
  {
    && t in past[i].store.db.tasks && past[i].store.db.tasks[t].status != Running
    && t in past[i + 1].store.db.tasks && past[i + 1].store.db.tasks[t].status == Running
  }

  /** `a` carries the start of `t` at step `i`: live, for what the task now is, granted since it last waited. */
  ghost predicate Carries(c: Crypto, past: seq<Moment>, i: nat, t: string, a: string)
    requires i + 1 < |past| && t in past[i + 1].store.db.tasks
  {
    var n := past[i + 1];
    && a in n.store.db.approvals && n.store.db.approvals[a].task == t
    && Live(n.store.db.approvals[a], n.clock) && Matches(n.store.db.approvals[a], n.store.db.tasks[t], c)
    && forall j :: 0 <= j <= i && t in past[j].store.db.tasks && Waits(past[j].store.db.tasks[t].status) ==>
         a !in past[j].store.db.approvals
  }

  /** Every entry to running rests on an approval granted after the task last waited for one. */
  lemma StartsRestOnFreshApproval(c: Crypto, past: seq<Moment>, events: seq<Event>, i: nat, t: string)
    returns (a: string)
    requires IsRun(c, past, events) && i < |events| && Starts(past, i, t)
    ensures Carries(c, past, i, t, a)
  {
    StepIsLawful(c, past, events, i);
    var n := past[i + 1].store.db;
    a :| a in n.approvals && n.approvals[a].task == t && Live(n.approvals[a], past[i + 1].clock)
      && Matches(n.approvals[a], n.tasks[t], c);
    forall j | 0 <= j <= i && t in past[j].store.db.tasks && Waits(past[j].store.db.tasks[t].status)
      ensures a !in past[j].store.db.approvals
    {
      if a in past[j].store.db.approvals {
        LiveAllAlong(c, past, events, j, i + 1, a);
        RunKeepsInv(c, past, events, j);
      }
    }
  }

  // ----- QA visits -------------------------------------------------------------------------------

  ghost predicate InQa(m: Moment, t: string) { t in m.store.db.tasks && m.store.db.tasks[t].status == Qa }

  function CycleOf(m: Moment, t: string): int
    requires t in m.store.db.tasks
  {
    m.store.db.tasks[t].qaCycle
  }

  lemma {:induction false} CyclesGrow(c: Crypto, past: seq<Moment>, events: seq<Event>, j: nat, i: nat, t: string)
    requires IsRun(c, past, events) && j <= i < |past| && t in past[j].store.db.tasks
    ensures t in past[i].store.db.tasks && CycleOf(past[j], t) <= CycleOf(past[i], t)
    ensures (forall k :: j <= k <= i ==> InQa(past[k], t)) ==> CycleOf(past[j], t) == CycleOf(past[i], t)
    decreases i
  {
    if j < i {
      CyclesGrow(c, past, events, j, i - 1, t);
      StepOnTasks(c, past, events, i - 1);
      assert TaskLaw(past[i - 1].store.db.tasks[t], past[i].store.db.tasks[t]);
    }
  }

  /** A later visit to QA has a larger cycle number than every earlier one. */
  lemma {:induction false} NewVisitNewCycle(c: Crypto, past: seq<Moment>, events: seq<Event>, j: nat, k: nat, i: nat,
                                            t: string)
    requires IsRun(c, past, events) && j <= k <= i < |past|
    requires InQa(past[j], t) && !InQa(past[k], t) && InQa(past[i], t)
    ensures CycleOf(past[j], t) < CycleOf(past[i], t)
    decreases i - k
  {
    CyclesGrow(c, past, events, j, k, t);
    StepOnTasks(c, past, events, k);
    assert TaskLaw(past[k].store.db.tasks[t], past[k + 1].store.db.tasks[t]);
    if InQa(past[k + 1], t) {
      CyclesGrow(c, past, events, k + 1, i, t);
    } else {
      NewVisitNewCycle(c, past, events, j, k + 1, i, t);
    }
  }

  /** The step at which a verdict row was written. */
  lemma {:induction false} VerdictWritten(c: Crypto, past: seq<Moment>, events: seq<Event>, i: nat, v: string)
    returns (k: nat)
    requires IsRun(c, past, events) && i < |past| && v in past[i].store.db.verdicts
    ensures k < i && v !in past[k].store.db.verdicts && v in past[k + 1].store.db.verdicts
    ensures past[k + 1].store.db.verdicts[v] == past[i].store.db.verdicts[v]
  {
    if v in past[i - 1].store.db.verdicts {
      k := VerdictWritten(c, past, events, i - 1, v);
      StepOnVerdicts(c, past, events, i - 1);
    } else {
      k := i - 1;
    }
  }

  /** From `k` to `i` the task stays in QA without a break. */
  ghost predicate SameVisit(past: seq<Moment>, k: nat, i: nat, t: string)
    requires k <= i < |past|
  {
    forall j :: k <= j <= i ==> InQa(past[j], t)
  }

  ghost predicate Completes(past: seq<Moment>, i: nat, t: string)
    requires i + 1 < |past|
  {
    && t in past[i].store.db.tasks && past[i].store.db.tasks[t].status != Completed
    && t in past[i + 1].store.db.tasks && past[i + 1].store.db.tasks[t].status == Completed
  }

  /** A verdict for the present cycle of a task in QA was given in the visit that still lasts. */
  lemma PresentCycleMeansThisVisit(c: Crypto, past: seq<Moment>, events: seq<Event>, k: nat, i: nat, t: string,
                                   v: string)
    requires IsRun(c, past, events) && k < i < |past| && InQa(past[i], t)
    requires v !in past[k].store.db.verdicts && v in past[k + 1].store.db.verdicts
    requires past[k + 1].store.db.verdicts[v].payload.task == t
             && past[k + 1].store.db.verdicts[v].payload.qaCycle == CycleOf(past[i], t)
    ensures SameVisit(past, k, i, t)
  {
    StepOnVerdicts(c, past, events, k);
    assert NewVerdictLaw(past[k].store.db, past[k + 1].store.db, c, past[k + 1].store.db.verdicts[v]);
    forall j | k <= j <= i ensures InQa(past[j], t) {
      if !InQa(past[j], t) { NewVisitNewCycle(c, past, events, k, j, i, t); }
    }
  }

  /** Nothing but PASS is ever recorded for a task inside one unbroken visit. */
  lemma OnlyPassesInOneVisit(c: Crypto, past: seq<Moment>, events: seq<Event>, k: nat, i: nat, t: string, v: string)
    requires IsRun(c, past, events) && k <= i < |past| && SameVisit(past, k, i, t)
    requires v in past[i].store.db.verdicts && v !in past[k].store.db.verdicts
             && past[i].store.db.verdicts[v].payload.task == t
    ensures past[i].store.db.verdicts[v].payload.kind == PASS
  {
    var w := VerdictWritten(c, past, events, i, v);
    StepOnVerdicts(c, past, events, w);
    assert NewVerdictLaw(past[w].store.db, past[w + 1].store.db, c, past[w + 1].store.db.verdicts[v]);
    if w < k { VerdictStays(c, past, events, w + 1, k, v); }
    assert InQa(past[w + 1], t);
  }

  lemma {:induction false} VerdictStays(c: Crypto, past: seq<Moment>, events: seq<Event>, j: nat, i: nat, v: string)
    requires IsRun(c, past, events) && j <= i < |past| && v in past[j].store.db.verdicts
    ensures v in past[i].store.db.verdicts && past[i].store.db.verdicts[v] == past[j].store.db.verdicts[v]
    decreases i
  {
    if j < i {
      VerdictStays(c, past, events, j, i - 1, v);
      StepOnVerdicts(c, past, events, i - 1);
    }
  }

  /**
   * A task becomes completed only out of QA, on a signed PASS for exactly what it then is, written
   * during the visit that has lasted ever since.
   */
  lemma CompletionRestsOnThisVisit(c: Crypto, past: seq<Moment>, events: seq<Event>, i: nat, t: string)
    returns (k: nat, v: string, profile: string)
    requires IsRun(c, past, events) && i < |events| && Completes(past, i, t)
    ensures k < i && SameVisit(past, k, i, t)
    ensures v !in past[k].store.db.verdicts && v in past[k + 1].store.db.verdicts && v in past[i].store.db.verdicts
    ensures IsValidPass(c, t, past[i].store.db.tasks[t], profile, past[i].store.db.verdicts[v])
  {
    StepOnCompletion(c, past, events, i);
    var s := past[i].store.db;
    assert HasValidPass(s, c, t);
    v, profile :| v in s.verdicts && IsValidPass(c, t, s.tasks[t], profile, s.verdicts[v]);
    k := VerdictWritten(c, past, events, i, v);
    PresentCycleMeansThisVisit(c, past, events, k, i, t, v);
  }

  /** Completed stays completed through everything but a worker's conflict on that very task. */
  lemma {:induction false} CompletedIsFinal(c: Crypto, past: seq<Moment>, events: seq<Event>, j: nat, i: nat, t: string)
    requires IsRun(c, past, events) && j <= i < |past|
    requires t in past[j].store.db.tasks && past[j].store.db.tasks[t].status == Completed
    requires forall k :: j <= k < i ==> Exempt(events[k].action) != Some(t)
    ensures t in past[i].store.db.tasks && past[i].store.db.tasks[t].status == Completed
    decreases i
  {
    if j < i {
      CompletedIsFinal(c, past, events, j, i - 1, t);
      StepOnTasks(c, past, events, i - 1);
      StepOnCompletion(c, past, events, i - 1);
    }
  }

  /** The worker's conflict on this delivery reopens the task. */
  ghost predicate ConflictReopens(s: Db, id: string, task: string)
    requires task in s.tasks
  {
    var t := s.tasks[task];
    && id in s.deliveries && IsActive(s.deliveries[id].status)
    && t.message == Some(s.deliveries[id].message) && t.revision == s.deliveries[id].revision
    && ClosesRound(s, id, t)
  }

  lemma ConflictOnCompleted(s: Db, c: Crypto, now: int, id: string, task: string)
    requires task in s.tasks && s.tasks[task].status == Completed
    ensures var n := WorkerStep(s, c, now, id, task, Conflict);
            task in n.tasks && (n.tasks[task].status != Completed <==> ConflictReopens(s, id, task))
  {
  }

  /**
   * Exactly when an action takes a task out of completed: it is a worker's conflict, on a delivery of the task's
   * present revision that is under way and is the last one its workers had to answer.
   */
  lemma ReopensIff(m: Moment, c: Crypto, e: Event, n: Moment, t: string)
    requires Inv(m) && Follows(m, c, e, n) && t in m.store.db.tasks && m.store.db.tasks[t].status == Completed
    ensures t in n.store.db.tasks
    ensures n.store.db.tasks[t].status != Completed <==>
            e.action.Working? && e.action.task == t && e.action.work == Conflict
              && ConflictReopens(m.store.db, e.action.id, t)
  {
    ActionKeepsInv(m, c, e, n);
    if Exempt(e.action) == Some(t) {
      assert n.store == Perform(m.store, c, n.clock, e.action);
      ConflictOnCompleted(m.store.db, c, n.clock, e.action.id, t);
    } else {
      assert CompletionLaw(m.store.db, n.store.db, c, Exempt(e.action));
      assert TasksLaw(m.store.db, n.store.db);
    }
  }

  // ----- idempotency -----------------------------------------------------------------------------

  lemma IdemRowKept(m: Moment, c: Crypto, e: Event, n: Moment, k: IdemKey)
    requires Follows(m, c, e, n) && k in m.store.idem
    ensures k in n.store.idem && n.store.idem[k] == m.store.idem[k]
  {
    assert n.store == Perform(m.store, c, n.clock, e.action);
    if e.action.Request? {
      ServeKeepsRow(m.store, c, e.action.header, PlanOf(m.store.db, c, n.clock, e.action.header, e.action.call), k);
    }
  }

  lemma ServeKeepsRow(s: Store, c: Crypto, h: Header, p: Plan, k: IdemKey)
    requires k in s.idem
    ensures k in Serve(s, c, h, p).store.idem && Serve(s, c, h, p).store.idem[k] == s.idem[k]
  {
  }

  lemma {:induction false} IdemRowsStay(c: Crypto, past: seq<Moment>, events: seq<Event>, j: nat, i: nat, k: IdemKey)
    requires IsRun(c, past, events) && j <= i < |past| && k in past[j].store.idem
    ensures k in past[i].store.idem && past[i].store.idem[k] == past[j].store.idem[k]
    decreases i
  {
    if j < i {
      IdemRowsStay(c, past, events, j, i - 1, k);
      IdemRowKept(past[i - 1], c, events[i - 1], past[i], k);
    }
  }

  /** The scope of a call depends on the call alone. */
  function ScopeOf(call: Call): Scope {
    match call
    case MakeProject(_) => Scope("projects", "")
    case MakeTask(project, _, _) => Scope("tasks", project)
    case Prepare(project, _, _) => Scope("prepare", project)
    case Instruct(project, _, _) => Scope("instructions", project)
    case Decide(task, _, _, _) => Scope("approvals", task)
    case Execute(task, _, _, _) => Scope("approve-execute", task)
    case Revoke(_, id) => Scope("revoke", id)
    case GiveReviewer(task, _, _, _) => Scope("reviewer", task)
    case Move(task, _, _, _, _) => Scope("transition", task)
    case Attach(task, _) => Scope("evidence", task)
    case Rule(task, _, _, _, _, _, _, _) => Scope("qa-verdict", task)
    case Complete(task, _, _, _) => Scope("representative-completion", task)
    case Revalidate(task, _, _, _, _, _) => Scope("revalidate-result", task)
    case Deliver(message, _, _, _, _, _, _) => Scope("deliveries", message)
    case Retry(id, _, _) => Scope("retry", id)
    case HaltProject(project, _) => Scope("stop", project)
    case HaltTask(task, _) => Scope("task-stop", task)
    case Acknowledge(project, _) => Scope("stop-ack", project)
    case Resume(project) => Scope("resume", project)
  }

  lemma ScopeIsFixed(s: Db, c: Crypto, now: int, h: Header, call: Call)
    ensures PlanOf(s, c, now, h, call).open ==> PlanOf(s, c, now, h, call).scope == ScopeOf(call)
  {
  }

  /** Step `i` is the request `h` for `call`, worked out as `p`. */
  ghost predicate Requests(c: Crypto, past: seq<Moment>, events: seq<Event>, i: nat, h: Header, call: Call, p: Plan) {
    && i < |events| && |past| == |events| + 1 && events[i].action == Request(h, call)
    && IsPlan(past[i].store.db, c, past[i + 1].clock, h, call, p)
  }

  /** Stated over all tables equal to `s`, so that a plan is looked into only where its tables are named. */
  ghost predicate IsPlan(s: Db, c: Crypto, now: int, h: Header, call: Call, p: Plan) {
    forall t: Db :: t == s ==> p == PlanOf(t, c, now, h, call)
  }

  lemma RequestStep(c: Crypto, past: seq<Moment>, events: seq<Event>, i: nat, h: Header, call: Call, p: Plan)
    requires IsRun(c, past, events) && Requests(c, past, events, i, h, call, p)
    ensures ServedAt(c, past, i, h, p, ScopeOf(call))
  {
    assert Follows(past[i], c, events[i], past[i + 1]);
    assert p == PlanOf(past[i].store.db, c, past[i + 1].clock, h, call);
    assert past[i + 1].store == Perform(past[i].store, c, past[i + 1].clock, events[i].action);
    ScopeIsFixed(past[i].store.db, c, past[i + 1].clock, h, call);
  }

  /** An accepted request leaves the row of its key, whose digest and response are its own. */
  lemma AcceptedLeavesRow(s: Store, c: Crypto, h: Header, p: Plan, scope: Scope, n: Store)
    requires (p.open ==> p.scope == scope) && Serve(s, c, h, p).reply.Accepted? && n == Serve(s, c, h, p).store
    ensures h.key != "" && |h.key| <= 128 && IdemKeyOf(h, scope) in n.idem
    ensures n.idem[IdemKeyOf(h, scope)] == IdemRow(c.sha(h.body), Serve(s, c, h, p).reply.response)
  {
  }

  /** With the row of an accepted request in place, the same key only replays it or is refused. */
  lemma KeyIsSpent(s: Store, c: Crypto, g: Header, p: Plan, scope: Scope, digest: string, response: Response)
    requires p.open ==> p.scope == scope
    requires g.key != "" && |g.key| <= 128
    requires IdemKeyOf(g, scope) in s.idem && s.idem[IdemKeyOf(g, scope)] == IdemRow(digest, response)
    ensures Serve(s, c, g, p).store == s
    ensures Serve(s, c, g, p).reply == if p.open && c.sha(g.body) == digest then Replayed(response) else Refused
  {
  }

  /** The plan is served between two states of the run, in the given scope if it is open. */
  ghost predicate ServedAt(c: Crypto, past: seq<Moment>, i: nat, h: Header, p: Plan, scope: Scope) {
    && i + 1 < |past| && past[i + 1].store == Serve(past[i].store, c, h, p).store && (p.open ==> p.scope == scope)
  }

  lemma SpentAfter(c: Crypto, past: seq<Moment>, events: seq<Event>, j: nat, h: Header, p: Plan,
                   i: nat, g: Header, q: Plan, scope: Scope)
    requires IsRun(c, past, events) && j < i && ServedAt(c, past, j, h, p, scope) && ServedAt(c, past, i, g, q, scope)
    requires Serve(past[j].store, c, h, p).reply.Accepted? && g.actor == h.actor && g.key == h.key
    ensures past[i + 1].store == past[i].store
    ensures Serve(past[i].store, c, g, q).reply ==
            if q.open && c.sha(g.body) == c.sha(h.body) then Replayed(Serve(past[j].store, c, h, p).reply.response)
            else Refused
  {
    AcceptedLeavesRow(past[j].store, c, h, p, scope, past[j + 1].store);
    IdemRowsStay(c, past, events, j + 1, i, IdemKeyOf(h, scope));
    KeyIsSpent(past[i].store, c, g, q, scope, c.sha(h.body), Serve(past[j].store, c, h, p).reply.response);
  }

  /**
   * After a request was accepted, whatever happens in between: the same actor using the same key for the
   * same endpoint and target never changes a table again. It gets the recorded response exactly when the
   * body has the same digest and the checks before the lookup pass, and is refused otherwise.
   */
  lemma RequestsTakeEffectOnce(c: Crypto, past: seq<Moment>, events: seq<Event>, j: nat, h: Header, first: Call,
                               p: Plan,
                               i: nat, g: Header, again: Call, q: Plan)
    requires IsRun(c, past, events) && j < i
    requires Requests(c, past, events, j, h, first, p) && Serve(past[j].store, c, h, p).reply.Accepted?
    requires Requests(c, past, events, i, g, again, q) && ScopeOf(again) == ScopeOf(first)
    requires g.actor == h.actor && g.key == h.key
    ensures past[i + 1].store == past[i].store
    ensures Serve(past[i].store, c, g, q).reply ==
            if q.open && c.sha(g.body) == c.sha(h.body) then Replayed(Serve(past[j].store, c, h, p).reply.response)
              else Refused
  {
    RequestStep(c, past, events, j, h, first, p);
    RequestStep(c, past, events, i, g, again, q);
    SpentAfter(c, past, events, j, h, p, i, g, q, ScopeOf(first));
  }
}
