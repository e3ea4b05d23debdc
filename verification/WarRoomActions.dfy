/**
 * The endpoints as they run. The methods of the first part read and update the tables row by row and are proved to do
 * exactly what their plans in `Lifecycle` say, including leaving every table alone when a request is refused. The
 * methods of the second part are the endpoints as their callers see them: they keep the invariant and the laws of
 * whole runs and give what `EndpointMeanings` promises.
 */
module WarRoomActions {
  import opened Wrappers
  import opened Lifecycle
  import opened LifecycleLaws
  import opened LifecycleTheorems
  import opened EndpointMeanings
  import opened EndpointContracts

  /** Reclaiming agent by agent is reclaiming for all of them. */
  lemma ReclaimOneMore(deliveries: map<string, Delivery>, agents: seq<string>, i: nat, now: int)
    requires i < |agents|
    ensures ReclaimStale(ReclaimStale(deliveries, agents[..i], now), [agents[i]], now)
            == ReclaimStale(deliveries, agents[..i + 1], now)
  {
    assert agents[..i + 1] == agents[..i] + [agents[i]];
  }

  lemma ReclaimNone(deliveries: map<string, Delivery>, now: int)
    ensures ReclaimStale(deliveries, [], now) == deliveries
  {
  }

  /** The first statement of a stop: what has not been sent yet is halted. */
  function HaltQueued(deliveries: map<string, Delivery>, covers: set<string>, reason: string,
                      now: int): map<string, Delivery>
  {
    map d | d in deliveries ::
      if deliveries[d].message in covers && deliveries[d].status == Queued
      then deliveries[d].(status := Halted, error := Some(reason), stopCycle := Some(now)) else deliveries[d]
  }

  function StopSent(d: Delivery, r: Receipt, now: int): Delivery {
    d.(status := r.status, error := r.error, stopCycle := Some(now))
  }

  predicate IsSentOf(deliveries: map<string, Delivery>, covers: set<string>, d: string) {
    d in deliveries && deliveries[d].message in covers && deliveries[d].status in {Sent, Received}
  }

  /** After halting the queue only the deliveries under way still differ from the stopped table. */
  lemma HaltingFirst(deliveries: map<string, Delivery>, covers: set<string>, reason: string,
                     receipts: map<string, Receipt>, now: int, d: string)
    requires d in deliveries
    ensures var goal := StopDeliveries(deliveries, covers, reason, receipts, now);
            && HaltQueued(deliveries, covers, reason, now)[d]
               == (if IsSentOf(deliveries, covers, d) then deliveries[d] else goal[d])
            && (IsSentOf(deliveries, covers, d) ==> goal[d] == StopSent(deliveries[d], ReceiptOf(receipts, d), now))
  {
  }

  class WarRoom {
    var tasks: map<string, Task>
    var approvals: map<string, Approval>
    var messages: map<string, string>
    var deliveries: map<string, Delivery>
    var verdicts: map<string, Verdict>
    var evidence: map<string, Evidence>
    var control: map<string, Control>
    var idem: IdemTable
    const crypto: Crypto

    function Tables(): Db
      reads this
    {
      Db(tasks, approvals, messages, deliveries, verdicts, evidence, control)
    }

    function State(): Store
      reads this
    {
      Store(Tables(), idem)
    }

    /** The time of the last request. */
    ghost var clock: int

    ghost predicate Valid()
      reads this
    {
      Safe(State(), clock)
    }

    constructor (c: Crypto)
      ensures crypto == c && State() == NoRows() && Valid()
    {
      tasks, approvals, messages, deliveries := map[], map[], map[], map[];
      verdicts, evidence, control, idem := map[], map[], map[], map[];
      crypto := c;
    }

    /** What the plan makes of the request in the state before the call. */
    twostate predicate Served(new h: Header, new p: Plan, new reply: Reply)
      reads this
    {
      IsOutcome(old(State()), crypto, h, p, Outcome(State(), reply))
    }

    /** The request was answered as planned, by a lawful step, and nothing happened unless it was accepted. */
    twostate predicate Answered(now: int, new h: Header, new p: Plan, new reply: Reply)
      reads this
    {
      && IsOutcome(old(State()), crypto, h, p, Outcome(State(), reply))
      && (!reply.Accepted? ==> State() == old(State()))
      && clock == now && Kept(old(Tables()), Tables(), crypto, now)
    }

    /** The answer that these terms call for, and the key it leaves behind. */
    twostate predicate Answers(new h: Header, new scope: Scope, new open: bool, new granted: bool, new reply: Reply)
      reads this
    {
      Due(old(idem), crypto, h, scope, open, granted, reply) && Keyed(old(idem), idem, crypto, h, scope, reply)
    }

    static function AnswerOf(seen: Lookup): Reply {
      if seen.Hit? then Replayed(seen.response) else Refused
    }

    method SaveIdem(h: Header, scope: Scope, response: Response) returns (reply: Reply)
      modifies this`idem
      ensures idem == Commit(old(idem), crypto, h, scope, response) && reply == Accepted(response)
    {
      idem := idem[IdemKeyOf(h, scope) := IdemRow(crypto.sha(h.body), response)];
      reply := Accepted(response);
    }

    // ----- creating projects, tasks and instructions ---------------------------------------

    method CreateProjectRows(h: Header, project: string)
      returns (reply: Reply)
      modifies this
      ensures Served(h, Lifecycle.CreateProject(old(Tables()), h, project), reply)
    {
      if !h.permitted { return Refused; }
      var scope := Scope("projects", "");
      var seen := LookUp(idem, crypto, h, scope);
      if !seen.Fresh? { return AnswerOf(seen); }
      if !h.current || project in control { return Refused; }
      control := control[project := Control(Going, None)];
      reply := SaveIdem(h, scope, Stored(project));
    }

    method CreateTaskRows(now: int, h: Header, project: string, q: TaskInput, message: Option<string>)
      returns (reply: Reply)
      modifies this
      ensures Served(h, Lifecycle.CreateTask(old(Tables()), now, h, project, q, message), reply)
    {
      if !h.permitted || !NotStopped(Tables(), project) { return Refused; }
      var scope := Scope("tasks", project);
      var seen := LookUp(idem, crypto, h, scope);
      if !seen.Fresh? { return AnswerOf(seen); }
      if !h.current || !TaskInputValid(q, now) { return Refused; }
      if message.Some? {
        if message.value !in messages || messages[message.value] != project || Linked(Tables(), message.value) {
          return Refused;
        }
      }
      var t := NewTask(project, q, message, Draft);
      if !Independent(t) || q.id in tasks { return Refused; }
      tasks := tasks[q.id := t];
      reply := SaveIdem(h, scope, TaskIs(q.id, Draft));
    }

    method PrepareTaskRows(now: int, h: Header, project: string, q: TaskInput, message: string)
      returns (reply: Reply)
      modifies this
      ensures Served(h, Lifecycle.PrepareTask(old(Tables()), now, h, project, q, message), reply)
    {
      if !h.permitted || !NotStopped(Tables(), project) { return Refused; }
      var scope := Scope("prepare", project);
      var seen := LookUp(idem, crypto, h, scope);
      if !seen.Fresh? { return AnswerOf(seen); }
      if !h.current || !TaskInputValid(q, now) || q.reviewer.None? || q.reviewer.value in q.agents { return Refused; }
      if message in messages || q.id in tasks { return Refused; }
      messages := messages[message := project];
      tasks := tasks[q.id := NewTask(project, q, Some(message), AwaitingApproval)];
      reply := SaveIdem(h, scope, TaskIs(q.id, AwaitingApproval));
    }

    method CreateInstructionRows(h: Header, project: string, task: string, message: string)
      returns (reply: Reply)
      modifies this
      ensures Served(h, Lifecycle.CreateInstruction(old(Tables()), h, project, task, message), reply)
    {
      if !h.permitted || !NotStopped(Tables(), project) { return Refused; }
      var scope := Scope("instructions", project);
      var seen := LookUp(idem, crypto, h, scope);
      if !seen.Fresh? { return AnswerOf(seen); }
      if task !in tasks || tasks[task].project != project || tasks[task].message.Some? || message in messages {
        return Refused;
      }
      messages := messages[message := project];
      tasks := tasks[task := tasks[task].(message := Some(message))];
      reply := SaveIdem(h, scope, Stored(message));
    }

    // ----- approvals -----------------------------------------------------------------------

    method ApproveTaskRows(now: int, h: Header, task: string, approve: bool, id: string, expires: Option<int>)
      returns (reply: Reply)
      modifies this
      ensures Served(h, Lifecycle.ApproveTask(old(Tables()), crypto, now, h, task, approve, id, expires), reply)
    {
      if !h.permitted || task !in tasks { return Refused; }
      var t := tasks[task];
      var scope := Scope("approvals", task);
      var seen := LookUp(idem, crypto, h, scope);
      if !seen.Fresh? { return AnswerOf(seen); }
      if t.status != AwaitingApproval || !PolicyComplete(t) || !Independent(t) { return Refused; }
      if approve && expires.None? { return Refused; }
      if expires.Some? && !InWindow(expires.value, now) { return Refused; }
      if id in approvals { return Refused; }
      approvals := approvals[id := NewApproval(crypto, task, t, h.actor, approve, expires, now)];
      var next := if approve then Approved else Draft;
      tasks := tasks[task := t.(status := next)];
      reply := SaveIdem(h, scope, TaskIs(task, next));
    }

    /** Inserts one queued delivery per agent; when a key is taken nothing stays inserted. */
    method QueueDeliveries(message: string, revision: int, deadline: Option<int>, agents: seq<string>, ids: seq<string>)
      returns (ok: bool)
      modifies this`deliveries
      ensures var queued := QueueAll(old(deliveries), message, revision, deadline, agents, ids);
              ok == queued.Some? && deliveries == if ok then queued.value else old(deliveries)
    {
      ghost var whole := QueueAll(deliveries, message, revision, deadline, agents, ids);
      if |agents| != |ids| { return false; }
      var rows := deliveries;
      assert agents[0..] == agents && ids[0..] == ids;
      for i := 0 to |agents|
        invariant deliveries == old(deliveries)
        invariant whole == QueueAll(rows, message, revision, deadline, agents[i..], ids[i..])
      {
        if ids[i] in rows || KeyUsed(rows, message, agents[i], revision) { return false; }
        rows := rows[ids[i] := Delivery(message, agents[i], revision, Queued, false, None, deadline, None)];
        assert agents[i..][1..] == agents[i + 1..] && ids[i..][1..] == ids[i + 1..];
      }
      deliveries := rows;
      ok := true;
    }

    /** Times out the agents' calls that are past their deadline. */
    method ReclaimStaleCalls(agents: seq<string>, now: int)
      modifies this`deliveries
      ensures deliveries == ReclaimStale(old(deliveries), agents, now)
    {
      ReclaimNone(deliveries, now);
      assert agents[..0] == [] && agents[..|agents|] == agents;
      for i := 0 to |agents|
        invariant deliveries == ReclaimStale(old(deliveries), agents[..i], now)
      {
        ReclaimOneMore(old(deliveries), agents, i, now);
        deliveries := ReclaimStale(deliveries, [agents[i]], now);
      }
    }

    method ApproveAndExecuteRows(now: int, h: Header, task: string, id: string, expires: int, deliveryIds: seq<string>)
      returns (reply: Reply)
      modifies this
      ensures Served(h, Lifecycle.ApproveAndExecute(old(Tables()), crypto, now, h, task, id, expires, deliveryIds),
                     reply)
    {
      if !h.permitted || task !in tasks || !NotStopped(Tables(), tasks[task].project) { return Refused; }
      var scope := Scope("approve-execute", task);
      var seen := LookUp(idem, crypto, h, scope);
      if !seen.Fresh? { return AnswerOf(seen); }
      var ok := StartExecution(now, h, task, id, expires, deliveryIds);
      if !ok { return Refused; }
      reply := SaveIdem(h, scope, TaskIs(task, Running));
    }

    /** Approves and starts the task with a delivery for each agent, or takes everything back. */
    method StartExecution(now: int, h: Header, task: string, id: string, expires: int, ids: seq<string>)
      returns (ok: bool)
      requires task in tasks
      modifies this`deliveries, this`approvals, this`tasks
      ensures Moved(ok, ExecuteEffect(old(Tables()), crypto, now, h, task, id, expires, ids), TaskIs(task, Running))
    {
      var t := tasks[task];
      if !h.current || t.reviewer.None? || !Independent(t) { return false; }
      if t.status == Running && t.message.Some? { return true; }
      if t.status != AwaitingApproval || t.message.None? || !InWindow(expires, now) { return false; }
      if t.deadline.None? || t.deadline.value <= now || t.agents == [] { return false; }
      if t.callLimit.None? || |t.agents| > t.callLimit.value || id in approvals { return false; }
      var before := deliveries;
      ReclaimStaleCalls(t.agents, now);
      ok := QueueDeliveries(t.message.value, t.revision, t.deadline, t.agents, ids);
      if !ok {
        deliveries := before;
        return;
      }
      approvals := approvals[id := NewApproval(crypto, task, t, h.actor, true, Some(expires), now)];
      tasks := tasks[task := t.(status := Running)];
    }

    method RevokeApprovalRows(now: int, h: Header, task: string, id: string)
      returns (reply: Reply)
      modifies this
      ensures Served(h, Lifecycle.RevokeApproval(old(Tables()), now, h, task, id), reply)
    {
      if !h.permitted || task !in tasks || id !in approvals || approvals[id].task != task { return Refused; }
      var scope := Scope("revoke", id);
      var seen := LookUp(idem, crypto, h, scope);
      if !seen.Fresh? { return AnswerOf(seen); }
      if approvals[id].revoked.Some? { return Refused; }
      approvals := approvals[id := approvals[id].(revoked := Some(now))];
      reply := SaveIdem(h, scope, Stored(id));
    }

    method AssignReviewerRows(now: int, h: Header, task: string, reviewer: string, expectedRevision: int,
                              activeRun: bool)
      returns (reply: Reply)
      modifies this
      ensures Served(h, Lifecycle.AssignReviewer(old(Tables()), now, h, task, reviewer, expectedRevision, activeRun),
                     reply)
    {
      if !h.permitted || task !in tasks { return Refused; }
      var t, scope := tasks[task], Scope("reviewer", task);
      var seen := LookUp(idem, crypto, h, scope);
      if !seen.Fresh? { return AnswerOf(seen); }
      if t.status == Completed || t.reviewer.Some? || t.revision != expectedRevision { return Refused; }
      if !h.current || reviewer in t.agents { return Refused; }
      if activeRun || (t.message.Some? && HasActiveDelivery(Tables(), t.message.value)) { return Refused; }
      approvals := RevokeUnexpired(approvals, task, now);
      tasks := tasks[task := t.(reviewer := Some(reviewer), status := AwaitingApproval, revision := t.revision + 1)];
      reply := SaveIdem(h, scope, TaskIs(task, AwaitingApproval));
    }

    // ----- transitions ---------------------------------------------------------------------

    method TransitionTaskRows(now: int, h: Header, task: string, target: TaskStatus, chosen: string,
                              newDeadline: Option<int>,
                          runsPassed: bool)
      returns (reply: Reply)
      modifies this
      ensures Served(h,
                     Lifecycle.TransitionTask(old(Tables()), crypto, now, h, task, target, chosen, newDeadline,
                                              runsPassed), reply)
    {
      if !h.permitted || !RequestableTarget(target) || task !in tasks { return Refused; }
      ghost var before := State();
      ghost var p := Lifecycle.TransitionTask(Tables(), crypto, now, h, task, target, chosen, newDeadline, runsPassed);
      var scope := Scope("transition", task);
      var seen := LookUp(idem, crypto, h, scope);
      if !seen.Fresh? { return AnswerOf(seen); }
      var ok := Move(now, h.current, task, target, chosen, newDeadline, runsPassed);
      reply := Conclude(h, scope, ok, TaskIs(task, target), before, p);
    }

    /** The end of a request that was neither refused nor replayed: the row of its key, if it went through. */
    method Conclude(h: Header, scope: Scope, ok: bool, response: Response, ghost before: Store, ghost p: Plan)
      returns (reply: Reply)
      requires p.open && p.scope == scope && LookUp(before.idem, crypto, h, scope).Fresh?
      requires p.effect == (if ok then Some((Tables(), response)) else None)
      requires idem == before.idem && (!ok ==> Tables() == before.db)
      modifies this`idem
      ensures Outcome(State(), reply) == Serve(before, crypto, h, p)
    {
      if !ok { return Refused; }
      reply := SaveIdem(h, scope, response);
    }

    /** The rows after a part of a transition, and whether it was allowed. */
    twostate predicate Moved(ok: bool, new effect: Option<(Db, Response)>, new response: Response)
      reads this
    {
      && effect == (if ok then Some((Tables(), response)) else None)
      && (!ok ==> Tables() == old(Tables())) && idem == old(idem)
    }

    method Move(now: int, current: bool, task: string, target: TaskStatus, chosen: string, newDeadline: Option<int>,
                runsPassed: bool) returns (ok: bool)
      requires task in tasks
      modifies this`tasks, this`approvals
      ensures Moved(ok,
                    CheckedTransition(old(Tables()), crypto, now, current, task, target, chosen, newDeadline,
                                      runsPassed),
                    TaskIs(task, target))
    {
      if StartsWork(target) && !NotStopped(Tables(), tasks[task].project) { return false; }
      if !current || !AllowedTransition(tasks[task].status, target) { return false; }
      if target == Running {
        ok := Start(now, task, chosen);
      } else if target == Qa {
        ok := EnterQa(task, runsPassed);
      } else if target == AwaitingApproval {
        ok := Reopen(now, task, newDeadline);
      } else if target == ReworkRequired {
        tasks := tasks[task := tasks[task].(status := ReworkRequired, revision := tasks[task].revision + 1)];
        ok := true;
      } else {
        tasks := tasks[task := tasks[task].(status := target)];
        ok := true;
      }
    }

    method Start(now: int, task: string, chosen: string) returns (ok: bool)
      requires task in tasks
      modifies this`tasks
      ensures Moved(ok, StartEffect(old(Tables()), crypto, now, task, chosen), TaskIs(task, Running))
    {
      var t := tasks[task];
      if !Independent(t) || t.agents == [] || !IsLatestApproval(Tables(), task, chosen) { return false; }
      var current := Unexpired(approvals[chosen], now) && Matches(approvals[chosen], t, crypto);
      var deadline := if t.deadline.Some? then t.deadline.value else 0;
      if deadline <= now && t.revision > 1 && current && approvals[chosen].expires.Some? {
        deadline := approvals[chosen].expires.value;
      }
      if !current || deadline <= now || t.assignee.None? || t.callLimit.None? || t.turnLimit.None? || t.document == "" {
        return false;
      }
      if t.deadline != Some(deadline) {
        tasks := tasks[task := tasks[task].(deadline := Some(deadline))];
      }
      tasks := tasks[task := tasks[task].(status := Running)];
      ok := true;
      assert tasks == old(tasks)[task := tasks[task]];
    }

    method EnterQa(task: string, runsPassed: bool) returns (ok: bool)
      requires task in tasks
      modifies this`tasks
      ensures Moved(ok, EnterQaEffect(old(Tables()), task, runsPassed), TaskIs(task, Qa))
    {
      var t := tasks[task];
      if t.message.Some? {
        if !FullyAnswered(Tables(), t) || (t.fastGateway && !runsPassed) { return false; }
      }
      tasks := tasks[task := t.(status := Qa, qaCycle := t.qaCycle + 1)];
      ok := true;
    }

    method Reopen(now: int, task: string, newDeadline: Option<int>) returns (ok: bool)
      requires task in tasks
      modifies this`tasks, this`approvals
      ensures Moved(ok, ReopenEffect(old(Tables()), now, task, newDeadline), TaskIs(task, AwaitingApproval))
    {
      var t := tasks[task];
      if t.status == Draft {
        tasks := tasks[task := t.(status := AwaitingApproval)];
        return true;
      }
      var deadline := if newDeadline.Some? then newDeadline.value else now + 1800;
      if !InWindow(deadline, now) { return false; }
      approvals := RevokeTask(approvals, task, now);
      if t.status == ReworkRequired {
        tasks := tasks[task := t.(status := AwaitingApproval, deadline := Some(deadline))];
      } else {
        tasks := tasks[task := t.(status := AwaitingApproval, deadline := Some(deadline), revision := t.revision + 1)];
      }
      ok := true;
    }

    // ----- QA ------------------------------------------------------------------------------

    method AddEvidenceRows(h: Header, task: string, id: string)
      returns (reply: Reply)
      modifies this
      ensures Served(h, Lifecycle.AddEvidence(old(Tables()), crypto, h, task, id), reply)
    {
      if !h.permitted || task !in tasks || !NotStopped(Tables(), tasks[task].project) || tasks[task].status != Qa {
        return Refused;
      }
      var t, scope := tasks[task], Scope("evidence", task);
      var seen := LookUp(idem, crypto, h, scope);
      if !seen.Fresh? { return AnswerOf(seen); }
      if !h.current || id in evidence { return Refused; }
      evidence := evidence[id := Evidence(task, t.revision, crypto.sha(t.scope), t.document, t.qaCycle)];
      reply := SaveIdem(h, scope, Stored(id));
    }

    method QaVerdictRows(now: int, h: Header, task: string, kind: VerdictKind, id: string, principal: string,
                         profile: string,
                     fromAgent: bool, signature: string, evidenceOk: bool)
      returns (reply: Reply)
      modifies this
      ensures Served(h,
                     Lifecycle.QaVerdict(old(Tables()), crypto, now, h, task, kind, id, principal, profile, fromAgent,
                                            signature, evidenceOk), reply)
    {
      if !h.permitted || task !in tasks { return Refused; }
      var t, scope := tasks[task], Scope("qa-verdict", task);
      var seen := LookUp(idem, crypto, h, scope);
      if !seen.Fresh? { return AnswerOf(seen); }
      if !NotStopped(Tables(), t.project) || t.status != Qa { return Refused; }
      if !h.current || h.actor != principal || t.assignee == Some(h.actor) || h.actor in t.agents
        || t.reviewer != Some(h.actor) {
        return Refused;
      }
      var payload := ExpectedPayload(crypto, task, t, kind, profile, principal);
      var signed := signature;
      if fromAgent {
        signed := crypto.sign(payload);
      } else if signature != crypto.sign(payload) {
        return Refused;
      }
      if (kind == PASS && !evidenceOk) || id in verdicts { return Refused; }
      var status := RecordVerdict(now, task, payload, signed, id);
      reply := SaveIdem(h, scope, TaskIs(task, status));
    }

    method RecordVerdict(now: int, task: string, payload: Payload, signature: string, id: string)
      returns (status: TaskStatus)
      requires task in tasks && tasks[task].status == Qa && signature == crypto.sign(payload)
      modifies this`verdicts, this`tasks
      ensures (Tables(), TaskIs(task, status)) == VerdictEffect(old(Tables()), crypto, now, task, payload, id)
    {
      verdicts := verdicts[id := Verdict(payload, signature, now)];
      status := tasks[task].status;
      if payload.kind == FAIL || payload.kind == REWORK {
        status := ReworkRequired;
        tasks := tasks[task := tasks[task].(status := ReworkRequired, revision := tasks[task].revision + 1)];
      }
    }

    method RepresentativeCompletionRows(h: Header, task: string, approve: bool, profile: string, checksOk: bool)
      returns (reply: Reply)
      modifies this
      ensures Served(h, Lifecycle.RepresentativeCompletion(old(Tables()), crypto, h, task, approve, profile, checksOk),
                     reply)
    {
      if !h.permitted || task !in tasks || !NotStopped(Tables(), tasks[task].project) { return Refused; }
      var t, scope := tasks[task], Scope("representative-completion", task);
      var seen := LookUp(idem, crypto, h, scope);
      if !seen.Fresh? { return AnswerOf(seen); }
      if !h.current || t.status != Qa { return Refused; }
      if approve
        && !(CurrentEvidence(Tables(), crypto, task) && SignedPass(Tables(), crypto, task, profile) && checksOk) {
        return Refused;
      }
      var status := if approve then Completed else ReworkRequired;
      if approve {
        tasks := tasks[task := t.(status := status)];
      } else {
        tasks := tasks[task := t.(status := status, revision := t.revision + 1)];
      }
      reply := SaveIdem(h, scope, TaskIs(task, status));
    }

    method RevalidateResultRows(now: int, h: Header, task: string, candidate: bool, chosen: string, passed: bool,
                                copies: set<string>,
                            q: QaQueue)
      returns (reply: Reply)
      modifies this
      ensures Served(h,
                     Lifecycle.RevalidateResult(old(Tables()), crypto, now, h, task, candidate, chosen, passed, copies,
                                                q), reply)
    {
      if !h.permitted || task !in tasks { return Refused; }
      var scope := Scope("revalidate-result", task);
      var seen := LookUp(idem, crypto, h, scope);
      if !seen.Fresh? { return AnswerOf(seen); }
      if !h.current || !NotStopped(Tables(), tasks[task].project) || !candidate || !IsBusy(tasks[task].status) {
        return Refused;
      }
      if !IsLatestApproval(Tables(), task, chosen)
        || !RevalidationApproval(approvals[chosen], tasks[task], crypto, now) {
        return Refused;
      }
      var status := tasks[task].status;
      if passed {
        var ok := ReuseResult(task, copies, q);
        if !ok { return Refused; }
        status := Qa;
      }
      reply := SaveIdem(h, scope, TaskIs(task, status));
    }

    /** Sends the task to QA with its saved result, the original evidence and a reviewer delivery, or not at all. */
    method ReuseResult(task: string, copies: set<string>, q: QaQueue) returns (ok: bool)
      requires task in tasks
      modifies this`tasks, this`deliveries, this`evidence
      ensures Moved(ok, RevalidateEffect(old(Tables()), crypto, task, copies, q), TaskIs(task, Qa))
    {
      var t := tasks[task];
      var cycle := if t.status == Qa then t.qaCycle else t.qaCycle + 1;
      if !(copies !! evidence.Keys) { return false; }
      var queued := QueueReviewer(BypassWorkers(deliveries, t), t, q);
      if queued.None? { return false; }
      tasks := tasks[task := t.(status := Qa, qaCycle := cycle)];
      deliveries := queued.value;
      CopyEvidence(copies, Evidence(task, t.revision, crypto.sha(t.scope), t.document, cycle));
      ok := true;
    }

    method CopyEvidence(ids: set<string>, row: Evidence)
      modifies this`evidence
      ensures evidence == old(evidence) + Copies(ids, row)
    {
      var todo := ids;
      while todo != {}
        invariant todo <= ids
        invariant evidence == old(evidence) + Copies(ids - todo, row)
        decreases |todo|
      {
        var id :| id in todo;
        evidence := evidence[id := row];
        todo := todo - {id};
      }
      assert ids - todo == ids;
    }

    // ----- deliveries ----------------------------------------------------------------------

    method DeliverMessageRows(now: int, h: Header, message: string, task: string, agents: seq<string>,
                              ids: seq<string>, chosen: string,
                          callsLeft: int, turnsLeft: int)
      returns (reply: Reply)
      modifies this
      ensures Served(h,
                     Lifecycle.DeliverMessage(old(Tables()), crypto, now, h, message, task, agents, ids, chosen,
                                              callsLeft, turnsLeft), reply)
    {
      if !h.permitted || !h.current || message !in messages || !NotStopped(Tables(), messages[message]) {
        return Refused;
      }
      if task !in tasks || tasks[task].message != Some(message) || agents == [] { return Refused; }
      if !Deliverable(Tables(), crypto, now, task, agents, chosen, callsLeft, turnsLeft) { return Refused; }
      var t, scope := tasks[task], Scope("deliveries", message);
      var seen := LookUp(idem, crypto, h, scope);
      if !seen.Fresh? { return AnswerOf(seen); }
      var ok := QueueDeliveries(message, t.revision, t.deadline, agents, ids);
      if !ok { return Refused; }
      reply := SaveIdem(h, scope, QueuedAll(ids));
    }

    method RetryDeliveryRows(h: Header, id: string, task: string, agent: string)
      returns (reply: Reply)
      modifies this
      ensures Served(h, Lifecycle.RetryDelivery(old(Tables()), h, id, task, agent), reply)
    {
      if !h.permitted || id !in deliveries || deliveries[id].message !in messages { return Refused; }
      var d := deliveries[id];
      if !NotStopped(Tables(), messages[d.message]) || d.status !in {Failed, TimedOut} { return Refused; }
      if task !in tasks || tasks[task].message != Some(d.message) || agent !in tasks[task].agents { return Refused; }
      var scope := Scope("retry", id);
      var seen := LookUp(idem, crypto, h, scope);
      if !seen.Fresh? { return AnswerOf(seen); }
      if KeyUsed(deliveries - {id}, d.message, agent, d.revision) { return Refused; }
      deliveries := deliveries[id := d.(agent := agent, status := Queued, error := None)];
      reply := SaveIdem(h, scope, Stored(id));
    }

    // ----- stopping and resuming -------------------------------------------------------------

    /** Halts what is queued at once, then asks the adapters one by one to stop what is under way. */
    method StopCovered(covers: set<string>, reason: string, receipts: map<string, Receipt>, now: int)
      returns (failed: bool)
      modifies this`deliveries
      ensures deliveries == StopDeliveries(old(deliveries), covers, reason, receipts, now)
      ensures failed == SomeUnconfirmed(old(deliveries), covers, receipts)
    {
      var before := deliveries;
      ghost var goal := StopDeliveries(before, covers, reason, receipts, now);
      deliveries := HaltQueued(deliveries, covers, reason, now);
      var active := set d | d in before && IsSentOf(before, covers, d);
      forall d | d in before
        ensures deliveries[d] == if d in active then before[d] else goal[d]
      {
        HaltingFirst(before, covers, reason, receipts, now, d);
      }
      failed := StopActive(before, goal, active, covers, reason, receipts, now);
    }

    method StopActive(ghost before: map<string, Delivery>, ghost goal: map<string, Delivery>, active: set<string>,
                      ghost covers: set<string>, ghost reason: string, receipts: map<string, Receipt>,
                        now: int) returns (failed: bool)
      requires goal == StopDeliveries(before, covers, reason, receipts, now)
      requires forall d :: d in active <==> IsSentOf(before, covers, d)
      requires deliveries.Keys == before.Keys
      requires forall d :: d in before ==> deliveries[d] == if d in active then before[d] else goal[d]
      modifies this`deliveries
      ensures deliveries == goal && failed == SomeUnconfirmed(before, covers, receipts)
    {
      var todo := active;
      failed := false;
      while todo != {}
        invariant todo <= active && deliveries.Keys == before.Keys
        invariant forall d :: d in before ==> deliveries[d] == if d in todo then before[d] else goal[d]
        invariant failed ==> SomeUnconfirmed(before, covers, receipts)
        invariant !failed ==> forall d :: d in active && d !in todo ==> ReceiptOf(receipts, d).status == Halted
        decreases |todo|
      {
        var d :| d in todo;
        HaltingFirst(before, covers, reason, receipts, now, d);
        deliveries := deliveries[d := StopSent(deliveries[d], ReceiptOf(receipts, d), now)];
        failed := failed || ReceiptOf(receipts, d).status != Halted;
        todo := todo - {d};
      }
      assert deliveries == goal;
    }

    method StopProjectRows(now: int, h: Header, project: string, receipts: map<string, Receipt>)
      returns (reply: Reply)
      modifies this
      ensures Served(h, Lifecycle.StopProject(old(Tables()), now, h, project, receipts), reply)
    {
      if !h.permitted || project !in control { return Refused; }
      var scope := Scope("stop", project);
      var seen := LookUp(idem, crypto, h, scope);
      if !seen.Fresh? { return AnswerOf(seen); }
      if !h.current { return Refused; }
      var state := StopEverything(now, project, receipts);
      reply := SaveIdem(h, scope, ProjectIs(project, state));
    }

    method StopEverything(now: int, project: string, receipts: map<string, Receipt>) returns (state: StopState)
      requires project in control
      modifies this`control, this`deliveries, this`approvals, this`tasks
      ensures (Tables(), ProjectIs(project, state)) == StopProjectEffect(old(Tables()), now, project, receipts)
    {
      control := control[project := Control(StopRequested, Some(now))];
      var failed := StopCovered(ProjectMessages(Tables(), project), "project_stop_barrier", receipts, now);
      state := if failed then StopFailed else ProjectStopped;
      control := control[project := control[project].(state := state)];
      approvals := RevokeProject(Tables(), project, now);
      tasks := StopTasks(tasks, project, if state == ProjectStopped then Stopped else StopUnconfirmed);
      assert control == old(control)[project := Control(state, Some(now))];
    }

    method StopTaskRows(now: int, h: Header, task: string, receipts: map<string, Receipt>)
      returns (reply: Reply)
      modifies this
      ensures Served(h, Lifecycle.StopTask(old(Tables()), now, h, task, receipts), reply)
    {
      if !h.permitted || task !in tasks { return Refused; }
      var scope := Scope("task-stop", task);
      var seen := LookUp(idem, crypto, h, scope);
      if !seen.Fresh? { return AnswerOf(seen); }
      if !h.current || tasks[task].status == Completed { return Refused; }
      var status := StopOneTask(now, task, receipts);
      reply := SaveIdem(h, scope, TaskIs(task, status));
    }

    method StopOneTask(now: int, task: string, receipts: map<string, Receipt>) returns (status: TaskStatus)
      requires task in tasks
      modifies this`deliveries, this`approvals, this`tasks
      ensures (Tables(), TaskIs(task, status)) == StopTaskEffect(old(Tables()), now, task, receipts)
    {
      var failed := StopCovered(TaskMessages(tasks[task]), "task_stop_before_dispatch", receipts, now);
      status := if failed then StopUnconfirmed else Stopped;
      approvals := RevokeTask(approvals, task, now);
      if tasks[task].status != status {
        tasks := tasks[task := tasks[task].(status := status, revision := tasks[task].revision + 1)];
      }
    }

    method StopAckRows(h: Header, project: string, id: string)
      returns (reply: Reply)
      modifies this
      ensures Served(h, Lifecycle.StopAck(old(Tables()), h, project, id), reply)
    {
      if !h.permitted || project !in control { return Refused; }
      var scope := Scope("stop-ack", project);
      var seen := LookUp(idem, crypto, h, scope);
      if !seen.Fresh? { return AnswerOf(seen); }
      var cycle := control[project].requestedAt;
      if cycle.None? || control[project].state == Going { return Refused; }
      if id !in deliveries || !ProjectOfDelivery(Tables(), id, project) { return Refused; }
      if deliveries[id].status != Halted || deliveries[id].stopCycle != cycle { return Refused; }
      var state := StopCycleState(Tables(), project, cycle.value);
      control := control[project := control[project].(state := state)];
      reply := SaveIdem(h, scope, ProjectIs(project, state));
    }

    method ResumeProjectRows(now: int, h: Header, project: string)
      returns (reply: Reply)
      modifies this
      ensures Served(h, Lifecycle.ResumeProject(old(Tables()), now, h, project), reply)
    {
      if !h.permitted || project !in control { return Refused; }
      var scope := Scope("resume", project);
      var seen := LookUp(idem, crypto, h, scope);
      if !seen.Fresh? { return AnswerOf(seen); }
      if !h.current || control[project].state != ProjectStopped { return Refused; }
      var cycle := if control[project].requestedAt.Some? then control[project].requestedAt.value else 0;
      if exists t :: t in tasks && NeedsFreshApproval(Tables(), project, t, cycle, now) { return Refused; }
      control := control[project := Control(Going, None)];
      reply := SaveIdem(h, scope, ProjectIs(project, Going));
    }

    // ----- the endpoints as callers see them -------------------------------------------------

    method CreateProject(now: int, h: Header, project: string)
      returns (reply: Reply)
      requires Valid() && clock <= now
      modifies this
      ensures Valid()
      ensures Answered(now, h, Lifecycle.CreateProject(old(Tables()), h, project), reply)
      ensures reply.Accepted? ==> IsBare(Tables(), project)
      ensures Answers(h, Scope("projects", ""),
                      h.permitted,
                      MayCreateProject(old(Tables()), h, project), reply)
      ensures reply.Accepted? ==>
                && CreatesProject(old(Tables()), Tables(), project)
                && reply.response == Stored(project)
    {
      ghost var p := Lifecycle.CreateProject(Tables(), h, project);
      reply := CreateProjectRows(h, project);
      CreateProjectAnswered(old(State()), crypto, old(clock), now, h, project, p, State(), reply);
      clock := now;
    }

    method CreateTask(now: int, h: Header, project: string, q: TaskInput, message: Option<string>)
      returns (reply: Reply)
      requires Valid() && clock <= now
      modifies this
      ensures Valid()
      ensures Answered(now, h, Lifecycle.CreateTask(old(Tables()), now, h, project, q, message), reply)
      ensures reply.Accepted? ==> q.id in tasks && tasks[q.id].status == Draft && Undecided(Tables(), q.id)
      ensures reply.Accepted? && message.Some? ==> BelongsTo(Tables(), message.value, q.id)
      ensures Answers(h, Scope("tasks", project),
                      h.permitted && IsGoing(old(Tables()), project),
                      MayCreateTask(old(Tables()), now, h, project, q, message), reply)
      ensures reply.Accepted? ==>
                && CreatesTask(old(Tables()), Tables(), project, q, message, Draft)
                   && Tables() == old(Tables()).(tasks := Tables().tasks)
                && reply.response == TaskIs(q.id, Draft)
    {
      ghost var p := Lifecycle.CreateTask(Tables(), now, h, project, q, message);
      reply := CreateTaskRows(now, h, project, q, message);
      CreateTaskAnswered(old(State()), crypto, old(clock), now, h, project, q, message, p, State(), reply);
      clock := now;
    }

    method PrepareTask(now: int, h: Header, project: string, q: TaskInput, message: string)
      returns (reply: Reply)
      requires Valid() && clock <= now
      modifies this
      ensures Valid()
      ensures Answered(now, h, Lifecycle.PrepareTask(old(Tables()), now, h, project, q, message), reply)
      ensures reply.Accepted? ==> q.id in tasks && tasks[q.id].status == AwaitingApproval && Undecided(Tables(), q.id)
      ensures reply.Accepted? ==> BelongsTo(Tables(), message, q.id) && Undelivered(Tables(), message)
      ensures Answers(h, Scope("prepare", project),
                      h.permitted && IsGoing(old(Tables()), project),
                      MayPrepareTask(old(Tables()), now, h, project, q, message), reply)
      ensures reply.Accepted? ==>
                && CreatesTask(old(Tables()), Tables(), project, q, Some(message), AwaitingApproval)
                   && Tables()
                      == old(Tables()).(tasks := Tables().tasks, messages := old(Tables()).messages[message := project])
                && reply.response == TaskIs(q.id, AwaitingApproval)
    {
      ghost var p := Lifecycle.PrepareTask(Tables(), now, h, project, q, message);
      reply := PrepareTaskRows(now, h, project, q, message);
      PrepareTaskAnswered(old(State()), crypto, old(clock), now, h, project, q, message, p, State(), reply);
      clock := now;
    }

    method CreateInstruction(now: int, h: Header, project: string, task: string, message: string)
      returns (reply: Reply)
      requires Valid() && clock <= now
      modifies this
      ensures Valid()
      ensures Answered(now, h, Lifecycle.CreateInstruction(old(Tables()), h, project, task, message), reply)
      ensures reply.Accepted? ==> BelongsTo(Tables(), message, task) && Undelivered(Tables(), message)
      ensures Answers(h, Scope("instructions", project),
                      h.permitted && IsGoing(old(Tables()), project),
                      MayInstruct(old(Tables()), h, project, task, message), reply)
      ensures reply.Accepted? ==>
                && task in old(Tables()).tasks
                && Instructs(old(Tables()), Tables(), project, task, message)
                && reply.response == Stored(message)
    {
      ghost var p := Lifecycle.CreateInstruction(Tables(), h, project, task, message);
      reply := CreateInstructionRows(h, project, task, message);
      CreateInstructionAnswered(old(State()), crypto, old(clock), now, h, project, task, message, p, State(), reply);
      clock := now;
    }

    method ApproveTask(now: int, h: Header, task: string, approve: bool, id: string, expires: Option<int>)
      returns (reply: Reply)
      requires Valid() && clock <= now
      modifies this
      ensures Valid()
      ensures Answered(now, h, Lifecycle.ApproveTask(old(Tables()), crypto, now, h, task, approve, id, expires), reply)
      ensures reply.Accepted? && approve ==> OnlyLive(Tables(), crypto, task, id, now)
      ensures reply.Accepted? && !approve ==> NoneLive(Tables(), task, now)
      ensures Answers(h, Scope("approvals", task),
                      h.permitted && task in old(Tables()).tasks,
                      MayDecide(old(Tables()), now, h, task, approve, id, expires), reply)
      ensures reply.Accepted? ==>
                && task in old(Tables()).tasks
                && Decides(old(Tables()), Tables(), crypto, now, h, task, approve, id, expires)
                && reply.response == TaskIs(task, if approve then Approved else Draft)
    {
      ghost var p := Lifecycle.ApproveTask(Tables(), crypto, now, h, task, approve, id, expires);
      reply := ApproveTaskRows(now, h, task, approve, id, expires);
      ApproveTaskAnswered(old(State()), crypto, old(clock), now, h, task, approve, id, expires, p, State(), reply);
      clock := now;
    }

    method ApproveAndExecute(now: int, h: Header, task: string, id: string, expires: int, deliveryIds: seq<string>)
      returns (reply: Reply)
      requires Valid() && clock <= now
      modifies this
      ensures Valid()
      ensures Answered(now, h,
                       Lifecycle.ApproveAndExecute(old(Tables()), crypto, now, h, task, id, expires, deliveryIds),
                       reply)
      ensures reply.Accepted? && old(task in tasks && tasks[task].status != Running) ==>
                RunsOn(Tables(), crypto, task, id, deliveryIds, now)
      ensures Answers(h, Scope("approve-execute", task),
                      h.permitted && task in old(Tables()).tasks
                        && IsGoing(old(Tables()), old(Tables()).tasks[task].project),
                      MayExecute(old(Tables()), now, h, task, id, expires, deliveryIds), reply)
      ensures reply.Accepted? ==>
                && task in old(Tables()).tasks && old(Tables()).tasks[task].message.Some?
                && Executes(old(Tables()), Tables(), crypto, now, h, task, id, expires, deliveryIds)
                && reply.response == TaskIs(task, Running)
    {
      ghost var p := Lifecycle.ApproveAndExecute(Tables(), crypto, now, h, task, id, expires, deliveryIds);
      reply := ApproveAndExecuteRows(now, h, task, id, expires, deliveryIds);
      ApproveAndExecuteAnswered(old(State()), crypto, old(clock), now, h, task, id, expires, deliveryIds, p, State(),
                                reply);
      clock := now;
    }

    method RevokeApproval(now: int, h: Header, task: string, id: string)
      returns (reply: Reply)
      requires Valid() && clock <= now
      modifies this
      ensures Valid()
      ensures Answered(now, h, Lifecycle.RevokeApproval(old(Tables()), now, h, task, id), reply)
      ensures reply.Accepted? ==> !LiveFor(Tables(), task, id, now)
      ensures reply.Accepted? && LiveFor(old(Tables()), task, id, now) ==> NoneLive(Tables(), task, now)
      ensures Answers(h, Scope("revoke", id),
                      h.permitted && HasApproval(old(Tables()), task, id),
                      h.permitted && HasApproval(old(Tables()), task, id)
                        && old(Tables()).approvals[id].revoked == None, reply)
      ensures reply.Accepted? ==>
                && id in old(Tables()).approvals
                && Revokes(old(Tables()), Tables(), now, id)
                && reply.response == Stored(id)
    {
      ghost var p := Lifecycle.RevokeApproval(Tables(), now, h, task, id);
      reply := RevokeApprovalRows(now, h, task, id);
      RevokeApprovalAnswered(old(State()), crypto, old(clock), now, h, task, id, p, State(), reply);
      clock := now;
    }

    method AssignReviewer(now: int, h: Header, task: string, reviewer: string, expectedRevision: int, activeRun: bool)
      returns (reply: Reply)
      requires Valid() && clock <= now
      modifies this
      ensures Valid()
      ensures Answered(now, h,
                       Lifecycle.AssignReviewer(old(Tables()), now, h, task, reviewer, expectedRevision, activeRun),
                       reply)
      ensures reply.Accepted? ==> task in tasks && tasks[task].reviewer == Some(reviewer) && Independent(tasks[task])
      ensures reply.Accepted? ==>
                task in tasks && tasks[task].status == AwaitingApproval && NoneLive(Tables(), task, now)
      ensures Answers(h, Scope("reviewer", task),
                      h.permitted && task in old(Tables()).tasks,
                      MayAssign(old(Tables()), h, task, reviewer, expectedRevision, activeRun), reply)
      ensures reply.Accepted? ==>
                && task in old(Tables()).tasks
                && Assigns(old(Tables()), Tables(), now, task, reviewer)
                && reply.response == TaskIs(task, AwaitingApproval)
    {
      ghost var p := Lifecycle.AssignReviewer(Tables(), now, h, task, reviewer, expectedRevision, activeRun);
      reply := AssignReviewerRows(now, h, task, reviewer, expectedRevision, activeRun);
      AssignReviewerAnswered(old(State()), crypto, old(clock), now, h, task, reviewer, expectedRevision, activeRun, p,
                             State(), reply);
      clock := now;
    }

    method TransitionTask(now: int, h: Header, task: string, target: TaskStatus, chosen: string,
                          newDeadline: Option<int>, runsPassed: bool)
      returns (reply: Reply)
      requires Valid() && clock <= now
      modifies this
      ensures Valid()
      ensures Answered(now, h,
                       Lifecycle.TransitionTask(old(Tables()), crypto, now, h, task, target, chosen, newDeadline,
                                                runsPassed), reply)
      ensures reply.Accepted? ==> Moves(Tables(), crypto, now, task, target, chosen)
      ensures Answers(h, Scope("transition", task),
                      h.permitted && task in old(Tables()).tasks && target != Draft && target != Approved
                        && target != Completed,
                      MayTransition(old(Tables()), crypto, now, h, task, target, chosen, newDeadline, runsPassed),
                      reply)
      ensures reply.Accepted? ==>
                && task in old(Tables()).tasks
                && Transitions(old(Tables()), Tables(), now, task, target, chosen, newDeadline)
                && reply.response == TaskIs(task, target)
    {
      ghost var p := Lifecycle.TransitionTask(Tables(), crypto, now, h, task, target, chosen, newDeadline, runsPassed);
      reply := TransitionTaskRows(now, h, task, target, chosen, newDeadline, runsPassed);
      TransitionTaskAnswered(old(State()), crypto, old(clock), now, h, task, target, chosen, newDeadline, runsPassed,
                             p, State(), reply);
      clock := now;
    }

    method AddEvidence(now: int, h: Header, task: string, id: string)
      returns (reply: Reply)
      requires Valid() && clock <= now
      modifies this
      ensures Valid()
      ensures Answered(now, h, Lifecycle.AddEvidence(old(Tables()), crypto, h, task, id), reply)
      ensures reply.Accepted? ==> task in tasks && CurrentEvidence(Tables(), crypto, task)
      ensures Answers(h, Scope("evidence", task),
                      h.permitted && InGoingQa(old(Tables()), task),
                      h.permitted && h.current && InGoingQa(old(Tables()), task)
                        && id !in old(Tables()).evidence, reply)
      ensures reply.Accepted? ==>
                && task in old(Tables()).tasks
                && Evidences(old(Tables()), Tables(), crypto, task, id)
                && reply.response == Stored(id)
    {
      ghost var p := Lifecycle.AddEvidence(Tables(), crypto, h, task, id);
      reply := AddEvidenceRows(h, task, id);
      AddEvidenceAnswered(old(State()), crypto, old(clock), now, h, task, id, p, State(), reply);
      clock := now;
    }

    method QaVerdict(now: int, h: Header, task: string, kind: VerdictKind, id: string, principal: string,
                     profile: string, fromAgent: bool, signature: string, evidenceOk: bool)
      returns (reply: Reply)
      requires Valid() && clock <= now
      modifies this
      ensures Valid()
      ensures Answered(now, h,
                       Lifecycle.QaVerdict(old(Tables()), crypto, now, h, task, kind, id, principal, profile,
                                           fromAgent, signature, evidenceOk), reply)
      ensures reply.Accepted? ==>
                && task in tasks && tasks[task].status == (if kind == PASS then Qa else ReworkRequired)
                && (kind == PASS ==> SignedPass(Tables(), crypto, task, profile))
      ensures Answers(h, Scope("qa-verdict", task),
                      h.permitted && task in old(Tables()).tasks,
                      MayRule(old(Tables()), crypto, h, task, kind, id, principal, profile, fromAgent, signature,
                              evidenceOk), reply)
      ensures reply.Accepted? ==>
                && task in old(Tables()).tasks
                && Rules(old(Tables()), Tables(), crypto, now, task, kind, id, principal, profile)
                && reply.response == TaskIs(task, if kind == PASS then Qa else ReworkRequired)
    {
      ghost var p :=
        Lifecycle.QaVerdict(Tables(), crypto, now, h, task, kind, id, principal, profile, fromAgent, signature,
                            evidenceOk);
      reply := QaVerdictRows(now, h, task, kind, id, principal, profile, fromAgent, signature, evidenceOk);
      QaVerdictAnswered(old(State()), crypto, old(clock), now, h, task, kind, id, principal, profile, fromAgent,
                        signature, evidenceOk, p, State(), reply);
      clock := now;
    }

    method RepresentativeCompletion(now: int, h: Header, task: string, approve: bool, profile: string, checksOk: bool)
      returns (reply: Reply)
      requires Valid() && clock <= now
      modifies this
      ensures Valid()
      ensures Answered(now, h,
                       Lifecycle.RepresentativeCompletion(old(Tables()), crypto, h, task, approve, profile, checksOk),
                       reply)
      ensures reply.Accepted? ==>
                && task in tasks && tasks[task].status == (if approve then Completed else ReworkRequired)
                && (approve ==> task in old(tasks) && PassedNow(old(Tables()), crypto, task))
      ensures Answers(h, Scope("representative-completion", task),
                      h.permitted && task in old(Tables()).tasks
                        && IsGoing(old(Tables()), old(Tables()).tasks[task].project),
                      MayConclude(old(Tables()), crypto, h, task, approve, profile, checksOk), reply)
      ensures reply.Accepted? ==>
                && task in old(Tables()).tasks
                && Concludes(old(Tables()), Tables(), task, approve)
                && reply.response == TaskIs(task, if approve then Completed else ReworkRequired)
    {
      ghost var p := Lifecycle.RepresentativeCompletion(Tables(), crypto, h, task, approve, profile, checksOk);
      reply := RepresentativeCompletionRows(h, task, approve, profile, checksOk);
      RepresentativeCompletionAnswered(old(State()), crypto, old(clock), now, h, task, approve, profile, checksOk, p,
                                       State(), reply);
      clock := now;
    }

    method RevalidateResult(now: int, h: Header, task: string, candidate: bool, chosen: string, passed: bool,
                            copies: set<string>, q: QaQueue)
      returns (reply: Reply)
      requires Valid() && clock <= now
      modifies this
      ensures Valid()
      ensures Answered(now, h,
                       Lifecycle.RevalidateResult(old(Tables()), crypto, now, h, task, candidate, chosen, passed,
                                                  copies, q), reply)
      ensures reply.Accepted? && passed ==> Reviewable(Tables(), task)
      ensures reply.Accepted? && !passed ==> Tables() == old(Tables())
      ensures Answers(h, Scope("revalidate-result", task),
                      h.permitted && task in old(Tables()).tasks,
                      MayRevalidate(old(Tables()), crypto, now, h, task, candidate, chosen, passed, copies, q), reply)
      ensures reply.Accepted? ==>
                && task in old(Tables()).tasks
                && (passed ==>
                    old(Tables()).tasks[task].message.Some? && old(Tables()).tasks[task].reviewer.Some?
                      && Reuses(old(Tables()), Tables(), crypto, task, copies, q))
                         && (!passed ==> Tables() == old(Tables()))
                && reply.response == TaskIs(task, if passed then Qa else old(Tables()).tasks[task].status)
    {
      ghost var p := Lifecycle.RevalidateResult(Tables(), crypto, now, h, task, candidate, chosen, passed, copies, q);
      reply := RevalidateResultRows(now, h, task, candidate, chosen, passed, copies, q);
      RevalidateResultAnswered(old(State()), crypto, old(clock), now, h, task, candidate, chosen, passed, copies, q, p,
                               State(), reply);
      clock := now;
    }

    method DeliverMessage(now: int, h: Header, message: string, task: string, agents: seq<string>, ids: seq<string>,
                          chosen: string, callsLeft: int, turnsLeft: int)
      returns (reply: Reply)
      requires Valid() && clock <= now
      modifies this
      ensures Valid()
      ensures Answered(now, h,
                       Lifecycle.DeliverMessage(old(Tables()), crypto, now, h, message, task, agents, ids, chosen,
                                                callsLeft, turnsLeft), reply)
      ensures reply.Accepted? ==>
                && task in tasks && |ids| == |agents|
                && forall i :: 0 <= i < |agents| ==>
                     QueuedFor(deliveries, message, tasks[task].revision, agents[i], ids[i])
      ensures Answers(h, Scope("deliveries", message),
                      h.permitted && h.current
                        && CanDeliver(old(Tables()), crypto, now, message, task, agents, chosen, callsLeft, turnsLeft),
                      h.permitted && h.current
                        && CanDeliver(old(Tables()), crypto, now, message, task, agents, chosen, callsLeft, turnsLeft)
                           && CanQueue(old(Tables()).deliveries, message, old(Tables()).tasks[task].revision, agents,
                                       ids), reply)
      ensures reply.Accepted? ==>
                && task in old(Tables()).tasks
                && Delivers(old(Tables()), Tables(), message, task, agents, ids)
                && reply.response == QueuedAll(ids)
    {
      ghost var p :=
        Lifecycle.DeliverMessage(Tables(), crypto, now, h, message, task, agents, ids, chosen, callsLeft, turnsLeft);
      reply := DeliverMessageRows(now, h, message, task, agents, ids, chosen, callsLeft, turnsLeft);
      DeliverMessageAnswered(old(State()), crypto, old(clock), now, h, message, task, agents, ids, chosen, callsLeft,
                             turnsLeft, p, State(), reply);
      clock := now;
    }

    method RetryDelivery(now: int, h: Header, id: string, task: string, agent: string)
      returns (reply: Reply)
      requires Valid() && clock <= now
      modifies this
      ensures Valid()
      ensures Answered(now, h, Lifecycle.RetryDelivery(old(Tables()), h, id, task, agent), reply)
      ensures reply.Accepted? ==> QueuedAlone(Tables(), id, agent)
      ensures Answers(h, Scope("retry", id),
                      h.permitted && CanRetry(old(Tables()), id, task, agent),
                      h.permitted && CanRetry(old(Tables()), id, task, agent)
                        && OnlyOne(old(Tables()), id, agent), reply)
      ensures reply.Accepted? ==>
                && id in old(Tables()).deliveries
                && Retries(old(Tables()), Tables(), id, agent)
                && reply.response == Stored(id)
    {
      ghost var p := Lifecycle.RetryDelivery(Tables(), h, id, task, agent);
      reply := RetryDeliveryRows(h, id, task, agent);
      RetryDeliveryAnswered(old(State()), crypto, old(clock), now, h, id, task, agent, p, State(), reply);
      clock := now;
    }

    method StopProject(now: int, h: Header, project: string, receipts: map<string, Receipt>)
      returns (reply: Reply)
      requires Valid() && clock <= now
      modifies this
      ensures Valid()
      ensures Answered(now, h, Lifecycle.StopProject(old(Tables()), now, h, project, receipts), reply)
      ensures reply.Accepted? ==> project in control && control[project].state != Going
      ensures reply.Accepted? ==> AtRest(Tables(), project) && NoneLiveIn(Tables(), project, now)
      ensures Answers(h, Scope("stop", project),
                      h.permitted && project in old(Tables()).control,
                      h.permitted && h.current && project in old(Tables()).control, reply)
      ensures reply.Accepted? ==>
                && (exists covers :: StopsProject(old(Tables()), Tables(), now, project, receipts, covers))
                && project in control && reply.response == ProjectIs(project, control[project].state)
    {
      ghost var p := Lifecycle.StopProject(Tables(), now, h, project, receipts);
      reply := StopProjectRows(now, h, project, receipts);
      StopProjectAnswered(old(State()), crypto, old(clock), now, h, project, receipts, p, State(), reply);
      clock := now;
    }

    method StopTask(now: int, h: Header, task: string, receipts: map<string, Receipt>)
      returns (reply: Reply)
      requires Valid() && clock <= now
      modifies this
      ensures Valid()
      ensures Answered(now, h, Lifecycle.StopTask(old(Tables()), now, h, task, receipts), reply)
      ensures reply.Accepted? ==> Quiesced(Tables(), task, now)
      ensures reply.Accepted? ==>
                && task in old(tasks) && task in tasks
                && (tasks[task].status == Stopped <==> AllConfirmed(old(Tables()), Tables(), task))
      ensures Answers(h, Scope("task-stop", task),
                      h.permitted && task in old(Tables()).tasks,
                      h.permitted && h.current && task in old(Tables()).tasks
                        && old(Tables()).tasks[task].status != Completed, reply)
      ensures reply.Accepted? ==>
                && task in old(Tables()).tasks
                && (exists covers :: StopsTask(old(Tables()), Tables(), now, task, receipts, covers))
                && task in tasks && reply.response == TaskIs(task, tasks[task].status)
    {
      ghost var p := Lifecycle.StopTask(Tables(), now, h, task, receipts);
      reply := StopTaskRows(now, h, task, receipts);
      StopTaskAnswered(old(State()), crypto, old(clock), now, h, task, receipts, p, State(), reply);
      clock := now;
    }

    method StopAck(now: int, h: Header, project: string, id: string)
      returns (reply: Reply)
      requires Valid() && clock <= now
      modifies this
      ensures Valid()
      ensures Answered(now, h, Lifecycle.StopAck(old(Tables()), h, project, id), reply)
      ensures reply.Accepted? ==> CycleDerived(Tables(), project)
      ensures Answers(h, Scope("stop-ack", project),
                      h.permitted && project in old(Tables()).control,
                      MayAcknowledge(old(Tables()), h, project, id), reply)
      ensures reply.Accepted? ==>
                && project in old(Tables()).control
                && Acknowledges(old(Tables()), Tables(), project)
                && project in control && reply.response == ProjectIs(project, control[project].state)
    {
      ghost var p := Lifecycle.StopAck(Tables(), h, project, id);
      reply := StopAckRows(h, project, id);
      StopAckAnswered(old(State()), crypto, old(clock), now, h, project, id, p, State(), reply);
      clock := now;
    }

    method ResumeProject(now: int, h: Header, project: string)
      returns (reply: Reply)
      requires Valid() && clock <= now
      modifies this
      ensures Valid()
      ensures Answered(now, h, Lifecycle.ResumeProject(old(Tables()), now, h, project), reply)
      ensures reply.Accepted? ==> NotStopped(Tables(), project) && AtRest(Tables(), project)
      ensures Answers(h, Scope("resume", project),
                      h.permitted && project in old(Tables()).control,
                      MayResume(old(Tables()), now, h, project), reply)
      ensures reply.Accepted? ==>
                && Tables() == old(Tables()).(control := old(Tables()).control[project := Control(Going, None)])
                && reply.response == ProjectIs(project, Going)
    {
      ghost var p := Lifecycle.ResumeProject(Tables(), now, h, project);
      reply := ResumeProjectRows(now, h, project);
      ResumeProjectAnswered(old(State()), crypto, old(clock), now, h, project, p, State(), reply);
      clock := now;
    }
  }
}
