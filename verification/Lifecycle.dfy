/**
 * War Room tables and what each endpoint does to them (war_room_actions.py). An endpoint is
 * one transaction: it either commits its whole effect or leaves every table as it was.
 */
module Lifecycle {
  import opened Wrappers

  datatype TaskStatus =
    | Draft | AwaitingApproval | Approved | Running | Qa | Completed | Stopped | StopUnconfirmed | ReworkRequired

  datatype Task = Task(
    project: string,
    message: Option<string>,
    assignee: Option<string>,
    reviewer: Option<string>,
    agents: seq<string>,
    scope: string,
    document: string,
    callLimit: Option<int>,
    turnLimit: Option<int>,
    deadline: Option<int>,
    fastGateway: bool,
    status: TaskStatus,
    revision: int,
    qaCycle: int)

  datatype Approval = Approval(
    task: string,
    approver: string,
    approved: bool,
    scopeHash: string,
    document: string,
    assignee: Option<string>,
    targetHash: string,
    expires: Option<int>,
    revoked: Option<int>,
    createdAt: int)

  datatype DeliveryStatus = Queued | Sent | Received | Responded | Failed | TimedOut | Halted

  datatype Delivery = Delivery(
    message: string,
    agent: string,
    revision: int,
    status: DeliveryStatus,
    answered: bool,
    error: Option<string>,
    deadline: Option<int>,
    stopCycle: Option<int>)

  datatype VerdictKind = PASS | FAIL | REWORK

  /** The canonical JSON text that is signed, as the record it prints. */
  datatype Payload = Payload(
    task: string, kind: VerdictKind, profile: string, principal: string,
    revision: int, scopeHash: string, document: string, qaCycle: int)

  datatype Verdict = Verdict(payload: Payload, signature: string, createdAt: int)

  datatype Evidence = Evidence(task: string, revision: int, scopeHash: string, document: string, qaCycle: int)

  datatype StopState = Going | StopRequested | ProjectStopped | ProjectStopUnconfirmed | StopFailed

  datatype Control = Control(state: StopState, requestedAt: Option<int>)

  datatype Scope = Scope(endpoint: string, target: string)

  datatype IdemKey = IdemKey(actor: string, scope: Scope, key: string)

  datatype IdemRow = IdemRow(digest: string, response: Response)

  datatype Response =
    | TaskIs(task: string, status: TaskStatus)
    | ProjectIs(project: string, state: StopState)
    | Stored(id: string)
    | QueuedAll(ids: seq<string>)

  /** The tables the endpoints work on. */
  datatype Db = Db(
    tasks: map<string, Task>,
    approvals: map<string, Approval>,
    messages: map<string, string>,  // instruction message -> project
    deliveries: map<string, Delivery>,
    verdicts: map<string, Verdict>,
    evidence: map<string, Evidence>,
    control: map<string, Control>)

  type IdemTable = map<IdemKey, IdemRow>

  datatype Store = Store(db: Db, idem: IdemTable)

  /** SHA-256 and the QA signature, about which nothing is assumed. */
  datatype Crypto = Crypto(sha: string -> string, targets: seq<string> -> string, sign: Payload -> string)

  /**
   * A request. `permitted` stands for the authentication, role and contract checks made before
   * the idempotency lookup, `current` for the fresh-context, catalog and payload checks after it.
   */
  datatype Header = Header(actor: string, key: string, body: string, permitted: bool, current: bool)

  datatype Reply = Refused | Replayed(response: Response) | Accepted(response: Response)

  datatype Outcome = Outcome(store: Store, reply: Reply)

  const WEEK := 604800

  // ----- idempotency ---------------------------------------------------------------------

  datatype Lookup = BadKey | Mismatch | Fresh | Hit(response: Response)

  function IdemKeyOf(h: Header, scope: Scope): IdemKey { IdemKey(h.actor, scope, h.key) }

  function LookUp(idem: IdemTable, c: Crypto, h: Header, scope: Scope): Lookup {
    if h.key == "" || |h.key| > 128 then BadKey
    else if IdemKeyOf(h, scope) !in idem then Fresh
    else if idem[IdemKeyOf(h, scope)].digest != c.sha(h.body) then Mismatch
    else Hit(idem[IdemKeyOf(h, scope)].response)
  }

  /**
   * What an endpoint does with one request: `open` says that the checks made before the
   * idempotency lookup pass, `effect` is the commit, or `None` when a later check fails.
   */
  datatype Plan = Plan(open: bool, scope: Scope, effect: Option<(Db, Response)>)

  function Commit(idem: IdemTable, c: Crypto, h: Header, scope: Scope, response: Response): IdemTable {
    idem[IdemKeyOf(h, scope) := IdemRow(c.sha(h.body), response)]
  }

  /** The frame every endpoint shares: refuse, replay, or commit the effect with its idempotency row. */
  function Serve(s: Store, c: Crypto, h: Header, p: Plan): Outcome {
    if !p.open then Outcome(s, Refused)
    else
      match LookUp(s.idem, c, h, p.scope)
      case Hit(response) => Outcome(s, Replayed(response))
      case Fresh =>
        if p.effect.Some? then
          Outcome(Store(p.effect.value.0, Commit(s.idem, c, h, p.scope, p.effect.value.1)), Accepted(p.effect.value.1))
        else Outcome(s, Refused)
      case _ => Outcome(s, Refused)
  }

  /** A request turned away before the idempotency lookup. */
  function Closed(): Plan { Plan(false, Scope("", ""), None) }

  // ----- queries -------------------------------------------------------------------------

  predicate IsActive(d: DeliveryStatus) { d == Queued || d == Sent || d == Received }

  predicate IsBusy(t: TaskStatus) { t == Running || t == Qa || t == ReworkRequired }

  predicate NotStopped(s: Db, project: string) {
    project in s.control && s.control[project].state == Going
  }

  predicate Independent(t: Task) { t.reviewer.Some? ==> t.reviewer.value !in t.agents }

  predicate InWindow(at: int, now: int) { now < at <= now + WEEK }

  predicate OpenApproval(s: Db, task: string, id: string) {
    id in s.approvals && s.approvals[id].task == task && s.approvals[id].approved && s.approvals[id].revoked.None?
  }

  /** `chosen` is a row that ORDER BY created_at DESC LIMIT 1 can return for the open approvals. */
  predicate IsLatestApproval(s: Db, task: string, chosen: string) {
    && OpenApproval(s, task, chosen)
    && forall id :: id in s.approvals && OpenApproval(s, task, id) ==>
         s.approvals[id].createdAt <= s.approvals[chosen].createdAt
  }

  predicate Matches(a: Approval, t: Task, c: Crypto) {
    && a.scopeHash == c.sha(t.scope)
    && a.document == t.document
    && a.assignee == t.assignee
    && a.targetHash == c.targets(t.agents)
  }

  predicate Unexpired(a: Approval, now: int) { a.expires.Some? && a.expires.value > now }

  predicate HasActiveDelivery(s: Db, message: string) {
    exists d :: d in s.deliveries && s.deliveries[d].message == message && IsActive(s.deliveries[d].status)
  }

  predicate ProjectOfDelivery(s: Db, d: string, project: string)
    requires d in s.deliveries
  {
    s.deliveries[d].message in s.messages && s.messages[s.deliveries[d].message] == project
  }

  /** The key (message_id, agent_id, task_revision) is already used. */
  predicate KeyUsed(deliveries: map<string, Delivery>, message: string, agent: string, revision: int) {
    exists d :: d in deliveries && deliveries[d].message == message
                && deliveries[d].agent == agent && deliveries[d].revision == revision
  }

  predicate CurrentEvidence(s: Db, c: Crypto, task: string)
    requires task in s.tasks
  {
    var t := s.tasks[task];
    exists e :: e in s.evidence && s.evidence[e] == Evidence(task, t.revision, c.sha(t.scope), t.document, t.qaCycle)
  }

  function ExpectedPayload(c: Crypto, task: string, t: Task, kind: VerdictKind, profile: string,
                           principal: string): Payload
  {
    Payload(task, kind, profile, principal, t.revision, c.sha(t.scope), t.document, t.qaCycle)
  }

  /** A verdict row that the completion check accepts as the signed QA PASS of the task as it is. */
  predicate IsValidPass(c: Crypto, task: string, t: Task, profile: string, v: Verdict) {
    && t.reviewer.Some?
    && v.payload == ExpectedPayload(c, task, t, PASS, profile, t.reviewer.value)
    && v.signature == c.sign(v.payload)
  }

  predicate SignedPass(s: Db, c: Crypto, task: string, profile: string)
    requires task in s.tasks
  {
    exists v :: v in s.verdicts && IsValidPass(c, task, s.tasks[task], profile, s.verdicts[v])
  }

  // ----- row updates ---------------------------------------------------------------------

  function SetStatus(tasks: map<string, Task>, task: string, status: TaskStatus): map<string, Task>
    requires task in tasks
  {
    tasks[task := tasks[task].(status := status)]
  }

  /** Status change together with `revision=revision+1`. */
  function Revise(tasks: map<string, Task>, task: string, status: TaskStatus): map<string, Task>
    requires task in tasks
  {
    tasks[task := tasks[task].(status := status, revision := tasks[task].revision + 1)]
  }

  function RevokeIf(a: Approval, hit: bool, now: int): Approval {
    if hit && a.revoked.None? then a.(revoked := Some(now)) else a
  }

  /** Revokes every open approval of the task. */
  function RevokeTask(approvals: map<string, Approval>, task: string, now: int): map<string, Approval> {
    map a | a in approvals :: RevokeIf(approvals[a], approvals[a].task == task && approvals[a].approved, now)
  }

  /** Revokes every open approval of the task that has not expired. */
  function RevokeUnexpired(approvals: map<string, Approval>, task: string, now: int): map<string, Approval> {
    map a | a in approvals ::
      RevokeIf(approvals[a], approvals[a].task == task && approvals[a].approved && Unexpired(approvals[a], now), now)
  }

  function TimeOutIfStale(d: Delivery, agents: seq<string>, now: int): Delivery {
    if d.agent in agents && IsActive(d.status) && d.deadline.Some? && d.deadline.value <= now
    then d.(status := TimedOut, error := Some("stale_active_call_reclaimed")) else d
  }

  function ReclaimStale(deliveries: map<string, Delivery>, agents: seq<string>, now: int): map<string, Delivery> {
    map d | d in deliveries :: TimeOutIfStale(deliveries[d], agents, now)
  }

  /** Queues one delivery per agent; `None` when an id or a delivery key is already taken. */
  function QueueAll(deliveries: map<string, Delivery>, message: string, revision: int, deadline: Option<int>,
                    agents: seq<string>, ids: seq<string>): Option<map<string, Delivery>>
    decreases |agents|
  {
    if |agents| != |ids| then None
    else if agents == [] then Some(deliveries)
    else if ids[0] in deliveries || KeyUsed(deliveries, message, agents[0], revision) then None
    else
      QueueAll(deliveries[ids[0] := Delivery(message, agents[0], revision, Queued, false, None, deadline, None)],
               message, revision, deadline, agents[1..], ids[1..])
  }

  /** An adapter's answer to a stop request. */
  datatype Receipt = Receipt(status: DeliveryStatus, error: Option<string>)

  /** A missing or unclear receipt counts as a failed stop. */
  function ReceiptOf(receipts: map<string, Receipt>, d: string): (r: Receipt)
    ensures r.status in {Halted, Failed, TimedOut}
  {
    if d !in receipts then Receipt(Failed, Some("STOP_UNCONFIRMED"))
    else if receipts[d].status in {Halted, Failed, TimedOut} then receipts[d]
    else receipts[d].(status := Failed)
  }

  /** What a stop does to one of the deliveries it covers. */
  function StopOne(d: Delivery, reason: string, r: Receipt, now: int): Delivery {
    if d.status == Queued then d.(status := Halted, error := Some(reason), stopCycle := Some(now))
    else if d.status == Sent || d.status == Received
      then d.(status := r.status, error := r.error, stopCycle := Some(now))
    else d
  }

  /** Stops every delivery of the messages in `covers`. */
  function StopDeliveries(deliveries: map<string, Delivery>, covers: set<string>, reason: string,
                          receipts: map<string, Receipt>, now: int): map<string, Delivery> {
    map d | d in deliveries ::
      if deliveries[d].message in covers then StopOne(deliveries[d], reason, ReceiptOf(receipts, d), now)
        else deliveries[d]
  }

  /** Some running delivery of `covers` could not be confirmed stopped. */
  predicate SomeUnconfirmed(deliveries: map<string, Delivery>, covers: set<string>, receipts: map<string, Receipt>) {
    exists d :: d in deliveries && deliveries[d].message in covers
                && deliveries[d].status in {Sent, Received} && ReceiptOf(receipts, d).status != Halted
  }

  function ProjectMessages(s: Db, project: string): set<string> {
    set m | m in s.messages && s.messages[m] == project
  }

  /** The state of the project's stop cycle, from the deliveries it touched. */
  function StopCycleState(s: Db, project: string, cycle: int): StopState {
    var touched := set d | d in s.deliveries && ProjectOfDelivery(s, d, project)
      && s.deliveries[d].stopCycle == Some(cycle);
    if touched == {} || exists d :: d in touched && IsActive(s.deliveries[d].status) then ProjectStopUnconfirmed
    else if exists d :: d in touched && s.deliveries[d].status in {Failed, TimedOut} then StopFailed
    else if forall d :: d in touched ==> s.deliveries[d].status == Halted then ProjectStopped
    else ProjectStopUnconfirmed
  }

  // ----- creating projects, tasks and instructions -----------------------------------------

  function CreateProject(s: Db, h: Header, project: string): Plan {
    if !h.permitted then Closed()
    else Plan(true, Scope("projects", ""),
      if h.current && project !in s.control
      then Some((s.(control := s.control[project := Control(Going, None)]), Stored(project))) else None)
  }

  /** The fields of a task row that the request decides. */
  datatype TaskInput = TaskInput(
    id: string, assignee: string, reviewer: Option<string>, agents: seq<string>, scope: string,
    document: string, callLimit: int, turnLimit: int, deadline: int, fastGateway: bool)

  predicate TaskInputValid(q: TaskInput, now: int) {
    && q.scope != "" && |q.scope| <= 4096 && 0 < q.callLimit <= 100 && 0 < q.turnLimit <= 1000
    && InWindow(q.deadline, now) && q.document != "" && q.assignee in q.agents && NoDuplicates(q.agents)
  }

  function NewTask(project: string, q: TaskInput, message: Option<string>, status: TaskStatus): Task {
    Task(project, message, Some(q.assignee), q.reviewer, q.agents, q.scope, q.document,
         Some(q.callLimit), Some(q.turnLimit), Some(q.deadline), q.fastGateway, status, 1, 0)
  }

  predicate Linked(s: Db, message: string) {
    exists t :: t in s.tasks && s.tasks[t].message == Some(message)
  }

  function CreateTask(s: Db, now: int, h: Header, project: string, q: TaskInput, message: Option<string>): Plan {
    if !h.permitted || !NotStopped(s, project) then Closed()
    else
      var t := NewTask(project, q, message, Draft);
      Plan(true, Scope("tasks", project),
        if h.current && TaskInputValid(q, now) && Independent(t) && q.id !in s.tasks
           && (message.Some? ==>
               message.value in s.messages && s.messages[message.value] == project && !Linked(s, message.value))
        then Some((s.(tasks := s.tasks[q.id := t]), TaskIs(q.id, Draft))) else None)
  }

  function PrepareTask(s: Db, now: int, h: Header, project: string, q: TaskInput, message: string): Plan {
    if !h.permitted || !NotStopped(s, project) then Closed()
    else
      var t := NewTask(project, q, Some(message), AwaitingApproval);
      Plan(true, Scope("prepare", project),
        if h.current && TaskInputValid(q, now) && t.reviewer.Some? && Independent(t) && q.id !in s.tasks
          && message !in s.messages
        then Some((s.(messages := s.messages[message := project], tasks := s.tasks[q.id := t]),
                   TaskIs(q.id, AwaitingApproval)))
        else None)
  }

  function CreateInstruction(s: Db, h: Header, project: string, task: string, message: string): Plan {
    if !h.permitted || !NotStopped(s, project) then Closed()
    else Plan(true, Scope("instructions", project),
      if task in s.tasks && s.tasks[task].project == project && s.tasks[task].message.None? && message !in s.messages
      then Some((s.(messages := s.messages[message := project],
                    tasks := s.tasks[task := s.tasks[task].(message := Some(message))]), Stored(message)))
      else None)
  }

  // ----- approvals -------------------------------------------------------------------------

  function NewApproval(c: Crypto, task: string, t: Task, actor: string, approved: bool, expires: Option<int>,
                       now: int): Approval
  {
    Approval(task, actor, approved, c.sha(t.scope), t.document, t.assignee, c.targets(t.agents), expires, None, now)
  }

  predicate PolicyComplete(t: Task) {
    t.assignee.Some? && t.callLimit.Some? && t.turnLimit.Some? && t.deadline.Some? && t.document != ""
  }

  function ApproveTask(s: Db, c: Crypto, now: int, h: Header, task: string, approve: bool, id: string,
                       expires: Option<int>): Plan
  {
    if !h.permitted || task !in s.tasks then Closed()
    else
      var t := s.tasks[task];
      var next := if approve then Approved else Draft;
      Plan(true, Scope("approvals", task),
        if t.status == AwaitingApproval && PolicyComplete(t) && Independent(t) && id !in s.approvals
           && (approve ==> expires.Some?) && (expires.Some? ==> InWindow(expires.value, now))
        then Some((s.(approvals := s.approvals[id := NewApproval(c, task, t, h.actor, approve, expires, now)],
                      tasks := SetStatus(s.tasks, task, next)), TaskIs(task, next)))
        else None)
  }

  function ApproveAndExecute(s: Db, c: Crypto, now: int, h: Header, task: string, id: string, expires: int,
                             deliveryIds: seq<string>): Plan
  {
    if !h.permitted || task !in s.tasks || !NotStopped(s, s.tasks[task].project) then Closed()
    else Plan(true, Scope("approve-execute", task), ExecuteEffect(s, c, now, h, task, id, expires, deliveryIds))
  }

  function ExecuteEffect(s: Db, c: Crypto, now: int, h: Header, task: string, id: string, expires: int,
                         deliveryIds: seq<string>)
    : Option<(Db, Response)>
    requires task in s.tasks
  {
    var t := s.tasks[task];
    if !h.current || t.reviewer.None? || !Independent(t) then None
    else if t.status == Running && t.message.Some? then Some((s, TaskIs(task, Running)))
    else if t.status != AwaitingApproval || t.message.None? || !InWindow(expires, now)
            || t.deadline.None? || t.deadline.value <= now || t.agents == []
            || t.callLimit.None? || |t.agents| > t.callLimit.value || id in s.approvals then None
    else
      match QueueAll(ReclaimStale(s.deliveries, t.agents, now), t.message.value, t.revision, t.deadline, t.agents,
                     deliveryIds)
      case None => None
      case Some(deliveries) =>
        Some((s.(deliveries := deliveries,
                 approvals := s.approvals[id := NewApproval(c, task, t, h.actor, true, Some(expires), now)],
                 tasks := SetStatus(s.tasks, task, Running)), TaskIs(task, Running)))
  }

  function RevokeApproval(s: Db, now: int, h: Header, task: string, id: string): Plan {
    if !h.permitted || task !in s.tasks || id !in s.approvals || s.approvals[id].task != task then Closed()
    else Plan(true, Scope("revoke", id),
      if s.approvals[id].revoked.None?
      then Some((s.(approvals := s.approvals[id := s.approvals[id].(revoked := Some(now))]), Stored(id))) else None)
  }

  function AssignReviewer(s: Db, now: int, h: Header, task: string, reviewer: string, expectedRevision: int,
                          activeRun: bool): Plan
  {
    if !h.permitted || task !in s.tasks then Closed()
    else
      var t := s.tasks[task];
      Plan(true, Scope("reviewer", task),
        if h.current && t.status != Completed && t.reviewer.None? && t.revision == expectedRevision
           && reviewer !in t.agents && !activeRun
           && (t.message.Some? ==> !HasActiveDelivery(s, t.message.value))
        then Some((s.(approvals := RevokeUnexpired(s.approvals, task, now),
                      tasks := s.tasks[task :=
                          t.(reviewer := Some(reviewer), status := AwaitingApproval, revision := t.revision + 1)]),
                   TaskIs(task, AwaitingApproval)))
        else None)
  }

  // ----- transitions -----------------------------------------------------------------------

  predicate AllowedTransition(from: TaskStatus, to: TaskStatus) {
    match from
    case Draft => to == AwaitingApproval
    case AwaitingApproval => to == Approved || to == Draft
    case Approved => to == Running || to == Stopped
    case Running => to == Qa || to == Stopped || to == StopUnconfirmed
    case Stopped => to == AwaitingApproval
    case StopUnconfirmed => to == AwaitingApproval
    case Qa => to == Completed || to == ReworkRequired
    case ReworkRequired => to == AwaitingApproval
    case Completed => false
  }

  /** The targets the transition endpoint accepts at all. */
  predicate RequestableTarget(to: TaskStatus) {
    to != Draft && to != Approved && to != Completed
  }

  /** The deadline in force when an approved task starts; a stale one of a reworked task follows the approval. */
  function EffectiveDeadline(t: Task, a: Approval, current: bool, now: int): int {
    var deadline := if t.deadline.Some? then t.deadline.value else 0;
    if deadline <= now && t.revision > 1 && current && a.expires.Some? then a.expires.value else deadline
  }

  function StartEffect(s: Db, c: Crypto, now: int, task: string, chosen: string): Option<(Db, Response)>
    requires task in s.tasks
  {
    var t := s.tasks[task];
    if !Independent(t) || t.agents == [] || !IsLatestApproval(s, task, chosen) then None
    else
      var a := s.approvals[chosen];
      var current := Unexpired(a, now) && Matches(a, t, c);
      var deadline := EffectiveDeadline(t, a, current, now);
      if !current || deadline <= now || t.assignee.None? || t.callLimit.None? || t.turnLimit.None? || t.document == ""
        then None
      else Some((s.(tasks := s.tasks[task := t.(status := Running,
                                               deadline := if t.deadline.Some? && t.deadline.value == deadline
                                                 then t.deadline else Some(deadline))]),
                 TaskIs(task, Running)))
  }

  predicate OfRevision(s: Db, t: Task, d: string)
    requires t.message.Some?
  {
    d in s.deliveries && s.deliveries[d].message == t.message.value && s.deliveries[d].revision == t.revision
  }

  /** All deliveries of the task's current revision have answered without an error. */
  predicate FullyAnswered(s: Db, t: Task)
    requires t.message.Some?
  {
    && (exists d :: d in s.deliveries && OfRevision(s, t, d))
    && forall d :: d in s.deliveries && OfRevision(s, t, d) ==>
         s.deliveries[d].status == Responded && s.deliveries[d].answered && s.deliveries[d].error.None?
  }

  function EnterQaEffect(s: Db, task: string, runsPassed: bool): Option<(Db, Response)>
    requires task in s.tasks
  {
    var t := s.tasks[task];
    if t.message.Some? && (!FullyAnswered(s, t) || (t.fastGateway && !runsPassed)) then None
    else Some((s.(tasks := s.tasks[task := t.(status := Qa, qaCycle := t.qaCycle + 1)]), TaskIs(task, Qa)))
  }

  function ReopenEffect(s: Db, now: int, task: string, newDeadline: Option<int>): Option<(Db, Response)>
    requires task in s.tasks
  {
    var t := s.tasks[task];
    if t.status == Draft then
      Some((s.(tasks := SetStatus(s.tasks, task, AwaitingApproval)), TaskIs(task, AwaitingApproval)))
    else
      var deadline := if newDeadline.Some? then newDeadline.value else now + 1800;
      if !InWindow(deadline, now) then None
      else
        var revision := if t.status == ReworkRequired then t.revision else t.revision + 1;
        Some((s.(approvals := RevokeTask(s.approvals, task, now),
                 tasks := s.tasks[task :=
                     t.(status := AwaitingApproval, deadline := Some(deadline), revision := revision)]),
              TaskIs(task, AwaitingApproval)))
  }

  function TransitionEffect(s: Db, c: Crypto, now: int, task: string, target: TaskStatus,
                            chosen: string, newDeadline: Option<int>, runsPassed: bool): Option<(Db, Response)>
    requires task in s.tasks
  {
    if target == Running then StartEffect(s, c, now, task, chosen)
    else if target == Qa then EnterQaEffect(s, task, runsPassed)
    else if target == AwaitingApproval then ReopenEffect(s, now, task, newDeadline)
    else if target == ReworkRequired then
      Some((s.(tasks := Revise(s.tasks, task, ReworkRequired)), TaskIs(task, ReworkRequired)))
    else Some((s.(tasks := SetStatus(s.tasks, task, target)), TaskIs(task, target)))
  }

  predicate StartsWork(target: TaskStatus) { target == Running || target == Qa }

  /** The transition after the checks that every target shares. */
  function CheckedTransition(s: Db, c: Crypto, now: int, current: bool, task: string, target: TaskStatus,
                             chosen: string, newDeadline: Option<int>, runsPassed: bool): Option<(Db, Response)>
    requires task in s.tasks
  {
    if !current || !AllowedTransition(s.tasks[task].status, target)
       || (StartsWork(target) && !NotStopped(s, s.tasks[task].project)) then None
    else TransitionEffect(s, c, now, task, target, chosen, newDeadline, runsPassed)
  }

  function TransitionTask(s: Db, c: Crypto, now: int, h: Header, task: string, target: TaskStatus,
                          chosen: string, newDeadline: Option<int>, runsPassed: bool): Plan {
    if !h.permitted || !RequestableTarget(target) || task !in s.tasks then Closed()
    else Plan(true, Scope("transition", task),
      CheckedTransition(s, c, now, h.current, task, target, chosen, newDeadline, runsPassed))
  }

  // ----- QA --------------------------------------------------------------------------------

  function AddEvidence(s: Db, c: Crypto, h: Header, task: string, id: string): Plan {
    if !h.permitted || task !in s.tasks || !NotStopped(s, s.tasks[task].project) || s.tasks[task].status != Qa
      then Closed()
    else
      var t := s.tasks[task];
      Plan(true, Scope("evidence", task),
        if h.current && id !in s.evidence
        then Some((s.(evidence := s.evidence[id := Evidence(task, t.revision, c.sha(t.scope), t.document, t.qaCycle)]),
                   Stored(id)))
        else None)
  }

  /** Records a signed verdict; FAIL and REWORK send the task back. */
  function VerdictEffect(s: Db, c: Crypto, now: int, task: string, payload: Payload, id: string): (Db, Response)
    requires task in s.tasks
  {
    (s.(verdicts := s.verdicts[id := Verdict(payload, c.sign(payload), now)],
        tasks := if payload.kind == PASS then s.tasks else Revise(s.tasks, task, ReworkRequired)),
     TaskIs(task, if payload.kind == PASS then Qa else ReworkRequired))
  }

  function QaVerdict(s: Db, c: Crypto, now: int, h: Header, task: string, kind: VerdictKind, id: string,
                     principal: string, profile: string, fromAgent: bool, signature: string, evidenceOk: bool): Plan {
    if !h.permitted || task !in s.tasks then Closed()
    else
      var t := s.tasks[task];
      var payload := ExpectedPayload(c, task, t, kind, profile, principal);
      Plan(true, Scope("qa-verdict", task),
        if h.current && NotStopped(s, t.project) && t.status == Qa
           && h.actor == principal && t.assignee != Some(h.actor) && h.actor !in t.agents && t.reviewer == Some(h.actor)
           && (fromAgent || signature == c.sign(payload)) && (kind == PASS ==> evidenceOk) && id !in s.verdicts
        then Some(VerdictEffect(s, c, now, task, payload, id)) else None)
  }

  /** `profile` comes from the task's grounding packet, `checksOk` is the rest of the completion checks. */
  function RepresentativeCompletion(s: Db, c: Crypto, h: Header, task: string, approve: bool, profile: string,
                                    checksOk: bool): Plan
  {
    if !h.permitted || task !in s.tasks || !NotStopped(s, s.tasks[task].project) then Closed()
    else Plan(true, Scope("representative-completion", task),
      if !h.current || s.tasks[task].status != Qa then None
      else if !approve then
        Some((s.(tasks := Revise(s.tasks, task, ReworkRequired)), TaskIs(task, ReworkRequired)))
      else if CurrentEvidence(s, c, task) && SignedPass(s, c, task, profile) && checksOk then
        Some((s.(tasks := SetStatus(s.tasks, task, Completed)), TaskIs(task, Completed)))
      else None)
  }

  datatype QaQueue = Unavailable | AlreadyQueued | QueueNew(id: string)

  /** Opening the reviewer's delivery for the task's revision. */
  function QueueReviewer(deliveries: map<string, Delivery>, t: Task, q: QaQueue): Option<map<string, Delivery>> {
    if t.message.None? || t.reviewer.None? || t.reviewer.value in t.agents then None
    else
      match q
      case Unavailable => None
      case AlreadyQueued =>
        if KeyUsed(deliveries, t.message.value, t.reviewer.value, t.revision) then Some(deliveries) else None
      case QueueNew(id) =>
        if id in deliveries || KeyUsed(deliveries, t.message.value, t.reviewer.value, t.revision) then None
        else
          Some(deliveries[id :=
              Delivery(t.message.value, t.reviewer.value, t.revision, Queued, false, None, t.deadline, None)])
  }

  /** Queued worker deliveries of the revision are cancelled when the saved result is reused. */
  function BypassWorkers(deliveries: map<string, Delivery>, t: Task): map<string, Delivery> {
    map d | d in deliveries ::
      if t.message == Some(deliveries[d].message) && deliveries[d].revision == t.revision && t.reviewer.Some?
         && deliveries[d].agent != t.reviewer.value && deliveries[d].status == Queued
      then deliveries[d].(status := Failed, error := Some("result_revalidation_worker_bypassed")) else deliveries[d]
  }

  /** `candidate` says that a bound failed run of this task can be revalidated, `passed` that it now passes. */
  function RevalidateResult(s: Db, c: Crypto, now: int, h: Header, task: string, candidate: bool, chosen: string,
                            passed: bool, copies: set<string>, q: QaQueue): Plan {
    if !h.permitted || task !in s.tasks then Closed()
    else Plan(true, Scope("revalidate-result", task),
      if !h.current || !NotStopped(s, s.tasks[task].project) || !candidate || !IsBusy(s.tasks[task].status)
         || !IsLatestApproval(s, task, chosen) || !RevalidationApproval(s.approvals[chosen], s.tasks[task], c, now)
            then None
      else if !passed then Some((s, TaskIs(task, s.tasks[task].status)))
      else RevalidateEffect(s, c, task, copies, q))
  }

  predicate RevalidationApproval(a: Approval, t: Task, c: Crypto, now: int) {
    && a.scopeHash == c.sha(t.scope) && a.document == t.document && a.assignee == t.assignee
    && (a.targetHash == "" || a.targetHash == c.targets(t.agents))
    && (a.expires.Some? ==> a.expires.value > now)
  }

  /** The original evidence, bound anew under fresh ids. */
  function Copies(ids: set<string>, row: Evidence): map<string, Evidence> { map e | e in ids :: row }

  function RevalidateEffect(s: Db, c: Crypto, task: string, copies: set<string>, q: QaQueue): Option<(Db, Response)>
    requires task in s.tasks
  {
    var t := s.tasks[task];
    if !(copies !! s.evidence.Keys) then None
    else
      match QueueReviewer(BypassWorkers(s.deliveries, t), t, q)
      case None => None
      case Some(deliveries) => Some((Reused(s, c, task, copies, deliveries), TaskIs(task, Qa)))
  }

  /** The task in QA with its saved result and the deliveries for the review. */
  function Reused(s: Db, c: Crypto, task: string, copies: set<string>, deliveries: map<string, Delivery>): Db
    requires task in s.tasks
  {
    var t := s.tasks[task];
    var cycle := if t.status == Qa then t.qaCycle else t.qaCycle + 1;
    s.(tasks := s.tasks[task := t.(status := Qa, qaCycle := cycle)],
       deliveries := deliveries,
       evidence := s.evidence + Copies(copies, Evidence(task, t.revision, c.sha(t.scope), t.document, cycle)))
  }

  // ----- deliveries ------------------------------------------------------------------------

  function DeliverMessage(s: Db, c: Crypto, now: int, h: Header, message: string, task: string, agents: seq<string>,
                          ids: seq<string>, chosen: string, callsLeft: int, turnsLeft: int): Plan {
    if !h.permitted || !h.current || message !in s.messages || !NotStopped(s, s.messages[message])
       || task !in s.tasks || s.tasks[task].message != Some(message) || agents == []
       || !Deliverable(s, c, now, task, agents, chosen, callsLeft, turnsLeft) then Closed()
    else
      var t := s.tasks[task];
      Plan(true, Scope("deliveries", message),
        match QueueAll(s.deliveries, message, t.revision, t.deadline, agents, ids)
        case None => None
        case Some(deliveries) => Some((s.(deliveries := deliveries), QueuedAll(ids))))
  }

  predicate Deliverable(s: Db, c: Crypto, now: int, task: string, agents: seq<string>, chosen: string, callsLeft: int,
                        turnsLeft: int)
    requires task in s.tasks
  {
    var t := s.tasks[task];
    && (forall a :: a in agents ==> a in t.agents)
    && t.status == Running && t.deadline.Some? && t.deadline.value > now && t.document != ""
    && IsLatestApproval(s, task, chosen) && Unexpired(s.approvals[chosen], now) && Matches(s.approvals[chosen], t, c)
    && |agents| <= callsLeft && 0 < turnsLeft
    && !exists d :: d in s.deliveries && ProjectOfDelivery(s, d, t.project) && s.deliveries[d].agent in agents
                    && IsActive(s.deliveries[d].status)
  }

  function RetryDelivery(s: Db, h: Header, id: string, task: string, agent: string): Plan {
    if !h.permitted || id !in s.deliveries || s.deliveries[id].message !in s.messages
       || !NotStopped(s, s.messages[s.deliveries[id].message]) || s.deliveries[id].status !in {Failed, TimedOut}
       || task !in s.tasks || s.tasks[task].message != Some(s.deliveries[id].message) || agent !in s.tasks[task].agents
    then Closed()
    else
      var d := s.deliveries[id];
      Plan(true, Scope("retry", id),
        if KeyUsed(s.deliveries - {id}, d.message, agent, d.revision) then None
        else Some((s.(deliveries := s.deliveries[id := d.(agent := agent, status := Queued, error := None)]),
                   Stored(id))))
  }

  // ----- stopping and resuming ---------------------------------------------------------------

  function StopTasks(tasks: map<string, Task>, project: string, status: TaskStatus): map<string, Task> {
    map t | t in tasks ::
      if tasks[t].project == project && (tasks[t].status == Approved || IsBusy(tasks[t].status))
      then tasks[t].(status := status, revision := tasks[t].revision + 1) else tasks[t]
  }

  function RevokeProject(s: Db, project: string, now: int): map<string, Approval> {
    map a | a in s.approvals ::
      RevokeIf(s.approvals[a], s.approvals[a].task in s.tasks && s.tasks[s.approvals[a].task].project == project, now)
  }

  function StopProjectEffect(s: Db, now: int, project: string, receipts: map<string, Receipt>): (Db, Response) {
    var covers := ProjectMessages(s, project);
    var failed := SomeUnconfirmed(s.deliveries, covers, receipts);
    var state := if failed then StopFailed else ProjectStopped;
    (s.(control := s.control[project := Control(state, Some(now))],
        deliveries := StopDeliveries(s.deliveries, covers, "project_stop_barrier", receipts, now),
        approvals := RevokeProject(s, project, now),
        tasks := StopTasks(s.tasks, project, if failed then StopUnconfirmed else Stopped)),
     ProjectIs(project, state))
  }

  function StopProject(s: Db, now: int, h: Header, project: string, receipts: map<string, Receipt>): Plan {
    if !h.permitted || project !in s.control then Closed()
    else Plan(true, Scope("stop", project), if !h.current then None
              else Some(StopProjectEffect(s, now, project, receipts)))
  }

  function TaskMessages(t: Task): set<string> { if t.message.Some? then {t.message.value} else {} }

  function StopTaskEffect(s: Db, now: int, task: string, receipts: map<string, Receipt>): (Db, Response)
    requires task in s.tasks
  {
    var covers := TaskMessages(s.tasks[task]);
    var status := if SomeUnconfirmed(s.deliveries, covers, receipts) then StopUnconfirmed else Stopped;
    (s.(deliveries := StopDeliveries(s.deliveries, covers, "task_stop_before_dispatch", receipts, now),
        approvals := RevokeTask(s.approvals, task, now),
        tasks := if s.tasks[task].status == status then s.tasks else Revise(s.tasks, task, status)),
     TaskIs(task, status))
  }

  function StopTask(s: Db, now: int, h: Header, task: string, receipts: map<string, Receipt>): Plan {
    if !h.permitted || task !in s.tasks then Closed()
    else Plan(true, Scope("task-stop", task),
      if !h.current || s.tasks[task].status == Completed then None else Some(StopTaskEffect(s, now, task, receipts)))
  }

  function StopAck(s: Db, h: Header, project: string, id: string): Plan {
    if !h.permitted || project !in s.control then Closed()
    else
      var control := s.control[project];
      Plan(true, Scope("stop-ack", project),
        if control.requestedAt.None? || control.state == Going || id !in s.deliveries
          || !ProjectOfDelivery(s, id, project)
           || s.deliveries[id].status != Halted || s.deliveries[id].stopCycle != control.requestedAt then None
        else
          var state := StopCycleState(s, project, control.requestedAt.value);
          Some((s.(control := s.control[project := control.(state := state)]), ProjectIs(project, state))))
  }

  /** The task had a delivery in this stop cycle and no approval granted since. */
  predicate NeedsFreshApproval(s: Db, project: string, task: string, cycle: int, now: int) {
    && task in s.tasks && s.tasks[task].project == project && s.tasks[task].message.Some?
    && (exists d :: d in s.deliveries && s.deliveries[d].message == s.tasks[task].message.value
                    && ProjectOfDelivery(s, d, project) && s.deliveries[d].stopCycle == Some(cycle))
    && !exists a :: a in s.approvals && OpenApproval(s, task, a) && s.approvals[a].createdAt > cycle
                    && Unexpired(s.approvals[a], now)
  }

  function ResumeProject(s: Db, now: int, h: Header, project: string): Plan {
    if !h.permitted || project !in s.control then Closed()
    else
      var control := s.control[project];
      var cycle := if control.requestedAt.Some? then control.requestedAt.value else 0;
      Plan(true, Scope("resume", project),
        if !h.current || control.state != ProjectStopped
           || exists t :: t in s.tasks && NeedsFreshApproval(s, project, t, cycle, now) then None
        else Some((s.(control := s.control[project := Control(Going, None)]), ProjectIs(project, Going))))
  }

  // ----- the delivery worker -----------------------------------------------------------------

  /** What a worker can do with one active delivery of a task (war_room_worker.py). */
  datatype Work =
    | Progress(status: DeliveryStatus)
    | HandToQa(q: QaQueue)
    | Judge(kind: VerdictKind, id: string, profile: string)
    | Reject
    | Conflict

  /** No worker delivery of the revision is left unanswered. */
  predicate WorkersDone(deliveries: map<string, Delivery>, message: string, t: Task) {
    forall d :: d in deliveries && deliveries[d].message == message && deliveries[d].revision == t.revision ==>
      deliveries[d].agent in t.agents ==> deliveries[d].status == Responded
  }

  /** A rejected answer cancels what is still queued for the same revision. */
  function CancelQueued(deliveries: map<string, Delivery>, id: string, message: string,
                        revision: int): map<string, Delivery>
  {
    map d | d in deliveries ::
      if d != id && deliveries[d].message == message && deliveries[d].revision == revision
        && deliveries[d].status == Queued
      then deliveries[d].(status := Failed, error := Some("cancelled_after_terminal_validation")) else deliveries[d]
  }

  predicate ReviewsNow(t: Task, agent: string) { t.status == Qa && t.reviewer == Some(agent) }

  /** A running task begins a visit to QA; one that is in QA already stays in its visit. */
  function EnteringQa(t: Task): Task { if t.status == Running then t.(status := Qa, qaCycle := t.qaCycle + 1) else t }

  /** A present worker answer after which every worker of the revision has answered. */
  predicate ClosesRound(s: Db, id: string, t: Task)
    requires id in s.deliveries
  {
    && !ReviewsNow(t, s.deliveries[id].agent)
    && WorkersDone(s.deliveries[id := s.deliveries[id].(status := Responded, answered := true)],
                   s.deliveries[id].message, t)
  }

  /**
   * One step of a worker. It acts on a delivery that is under way; the task follows only when the
   * delivery belongs to its present revision.
   */
  function WorkerStep(s: Db, c: Crypto, now: int, id: string, task: string, w: Work): Db {
    if id !in s.deliveries || !IsActive(s.deliveries[id].status) then s
    else if w.Progress? then s.(deliveries := s.deliveries[id := s.deliveries[id].(status := w.status)])
    else if task !in s.tasks || s.tasks[task].message != Some(s.deliveries[id].message)
            || s.tasks[task].revision != s.deliveries[id].revision then s
    else WorkOnTask(s, c, now, id, task, w)
  }

  function WorkOnTask(s: Db, c: Crypto, now: int, id: string, task: string, w: Work): Db
    requires id in s.deliveries && task in s.tasks && !w.Progress?
  {
    var t := s.tasks[task];
    var d := s.deliveries[id];
    var answered := s.(deliveries := s.deliveries[id := d.(status := Responded, answered := true)]);
    match w
    case HandToQa(q) =>
      if t.status !in {Running, Qa} || !ClosesRound(s, id, t) then answered
      else
        var deliveries := QueueReviewer(answered.deliveries, t, q);
        answered.(tasks := s.tasks[task := EnteringQa(t)],
                  deliveries := if deliveries.Some? then deliveries.value else answered.deliveries)
    case Judge(kind, vid, profile) =>
      if !ReviewsNow(t, d.agent) || d.agent in t.agents || vid in s.verdicts then answered
      else
        var payload := ExpectedPayload(c, task, t, kind, profile, d.agent);
        answered.(verdicts := s.verdicts[vid := Verdict(payload, c.sign(payload), now)],
                  tasks := if kind == PASS then s.tasks else Revise(s.tasks, task, ReworkRequired))
    case Reject =>
      var failed := s.(deliveries := s.deliveries[id := d.(status := Failed)]);
      if t.status in {Completed, Stopped, StopUnconfirmed} then failed
      else
        failed.(tasks := if t.status == ReworkRequired then s.tasks else Revise(s.tasks, task, ReworkRequired),
                deliveries := CancelQueued(failed.deliveries, id, d.message, d.revision))
    case Conflict =>
      if !ClosesRound(s, id, t) then answered
      else answered.(tasks := Revise(s.tasks, task, ReworkRequired))
  }
}
