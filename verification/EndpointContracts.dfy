/**
 * What each endpoint asks of the tables and the request, and what it then writes, row by row. Nothing here refers to
 * the plans: a request is accepted if and only if it is granted in these terms, and the tables afterwards are those
 * described here.
 */
module EndpointContracts {
  import opened Wrappers
  import opened Lifecycle

  // ----- the answer to a request -----------------------------------------------------------------------

  /** The answer an endpoint owes: `open` says what every answer but a refusal needs, `granted` what a commit needs. */
  ghost predicate Due(idem: IdemTable, c: Crypto, h: Header, scope: Scope, open: bool, granted: bool, reply: Reply) {
    var key := IdemKey(h.actor, scope, h.key);
    if !open || |h.key| == 0 || |h.key| > 128 then reply == Refused
    else if key in idem then
      if idem[key].digest == c.sha(h.body) then reply == Replayed(idem[key].response) else reply == Refused
    else if granted then reply.Accepted? else reply == Refused
  }

  /** An accepted request leaves its key with its digest and response; nothing else touches the keys. */
  ghost predicate Keyed(idem: IdemTable, after: IdemTable, c: Crypto, h: Header, scope: Scope, reply: Reply) {
    if reply.Accepted? then after == idem[IdemKey(h.actor, scope, h.key) := IdemRow(c.sha(h.body), reply.response)]
    else after == idem
  }

  /** A plan grants, commits and answers by these terms. */
  ghost predicate Plans(p: Plan, scope: Scope, open: bool, granted: bool) {
    && (p.open <==> open) && (open ==> p.scope == scope) && (open ==> (p.effect.Some? <==> granted))
    && (granted ==> open)
  }

  lemma ServedAsDue(s: Store, c: Crypto, h: Header, p: Plan, scope: Scope, open: bool, granted: bool)
    requires Plans(p, scope, open, granted)
    ensures var o := Serve(s, c, h, p);
            && Due(s.idem, c, h, scope, open, granted, o.reply) && Keyed(s.idem, o.store.idem, c, h, scope, o.reply)
            && (o.reply.Accepted? ==>
                  granted && p.effect.Some? && o.store.db == p.effect.value.0 && o.reply.response == p.effect.value.1)
            && (!o.reply.Accepted? ==> o.store == s)
  {
  }

  // ----- rows ----------------------------------------------------------------------------------------

  ghost predicate IsGoing(s: Db, project: string) { project in s.control && s.control[project].state == Going }

  /** The reviewer, if there is one, is none of the agents. */
  ghost predicate ReviewerApart(t: Task) { forall a :: a in t.agents ==> t.reviewer != Some(a) }

  ghost predicate WithinWeek(at: int, now: int) { now < at && at - now <= 604800 }

  ghost predicate UnderWay(d: Delivery) { d.status == Queued || d.status == Sent || d.status == Received }

  ghost predicate AtWork(t: Task) { t.status == Running || t.status == Qa || t.status == ReworkRequired }

  /** An approving row of the task that nobody has revoked. */
  ghost predicate IsOpen(s: Db, task: string, a: string) {
    a in s.approvals && s.approvals[a].task == task && s.approvals[a].approved && s.approvals[a].revoked == None
  }

  /** The newest of the task's open approvals, or one of them. */
  ghost predicate IsNewest(s: Db, task: string, a: string) {
    IsOpen(s, task, a) && forall b :: IsOpen(s, task, b) ==> s.approvals[b].createdAt <= s.approvals[a].createdAt
  }

  ghost predicate Expired(a: Approval, now: int) { forall at :: a.expires == Some(at) ==> at <= now }

  /** The approval was given for this scope, document, assignee and these agents. */
  ghost predicate GivenFor(a: Approval, t: Task, c: Crypto) {
    (a.scopeHash, a.document, a.assignee, a.targetHash) == (c.sha(t.scope), t.document, t.assignee, c.targets(t.agents))
  }

  /** The newest open approval has not expired and was given for the task as it is. */
  ghost predicate Approves(s: Db, c: Crypto, now: int, task: string, a: string)
    requires task in s.tasks
  {
    IsNewest(s, task, a) && !Expired(s.approvals[a], now) && GivenFor(s.approvals[a], s.tasks[task], c)
  }

  /** There is a delivery of the message to the agent for this revision. */
  ghost predicate IsAsked(deliveries: map<string, Delivery>, message: string, agent: string, revision: int) {
    exists d :: d in deliveries && deliveries[d].message == message && deliveries[d].agent == agent
                && deliveries[d].revision == revision
  }

  // ----- queueing --------------------------------------------------------------------------------------

  /** The ids are new and distinct, one for each agent, and none of these, who are distinct, has been asked already. */
  ghost predicate CanQueue(before: map<string, Delivery>, message: string, revision: int, agents: seq<string>,
                           ids: seq<string>)
  {
    && |ids| == |agents| && NoDuplicates(ids) && NoDuplicates(agents)
    && (forall i :: 0 <= i < |ids| ==> ids[i] !in before)
    && forall i :: 0 <= i < |agents| ==> !IsAsked(before, message, agents[i], revision)
  }

  /** One queued row per agent has been added, nothing else. */
  ghost predicate Queues(before: map<string, Delivery>, after: map<string, Delivery>, message: string, revision: int,
                         deadline: Option<int>, agents: seq<string>, ids: seq<string>)
  {
    && |ids| == |agents|
    && (forall d :: d in after <==> d in before || d in ids)
    && (forall d :: d in before ==> d in after && after[d] == before[d])
    && forall i :: 0 <= i < |ids| ==> QueuedRow(after, ids[i], message, revision, deadline, agents[i])
  }

  /** A new delivery, waiting to be sent. */
  ghost predicate QueuedRow(deliveries: map<string, Delivery>, id: string, message: string, revision: int,
                            deadline: Option<int>, agent: string)
  {
    && id in deliveries
    && deliveries[id] == Delivery(message, agent, revision, Queued, false, None, deadline, None)
  }

  lemma FirstOfMany(before: map<string, Delivery>, message: string, revision: int, deadline: Option<int>,
                    agents: seq<string>, ids: seq<string>)
    requires |ids| == |agents| && agents != []
    requires ids[0] !in before && !IsAsked(before, message, agents[0], revision)
    ensures var next := before[ids[0] := Delivery(message, agents[0], revision, Queued, false, None, deadline, None)];
            CanQueue(before, message, revision, agents, ids) <==>
            CanQueue(next, message, revision, agents[1..], ids[1..])
  {
    var row := Delivery(message, agents[0], revision, Queued, false, None, deadline, None);
    var next := before[ids[0] := row];
    forall agent
      ensures IsAsked(next, message, agent, revision) <==>
              IsAsked(before, message, agent, revision) || agent == agents[0]
    {
      AskedInNext(before, message, revision, ids[0], row, agent);
    }
    if CanQueue(next, message, revision, agents[1..], ids[1..]) {
      forall i | 0 <= i < |ids|
        ensures ids[i] !in before && !IsAsked(before, message, agents[i], revision)
        ensures i > 0 ==> ids[i] != ids[0] && agents[i] != agents[0]
      {
        if i > 0 { assert ids[1..][i - 1] == ids[i] && agents[1..][i - 1] == agents[i]; }
      }
      NoDuplicatesInFront(ids);
      NoDuplicatesInFront(agents);
    }
  }

  lemma NoDuplicatesInFront(s: seq<string>)
    requires s != [] && NoDuplicates(s[1..]) && forall i :: 0 < i < |s| ==> s[i] != s[0]
    ensures NoDuplicates(s)
  {
    forall i, j | 0 <= i < j < |s| ensures s[i] != s[j] {
      if i > 0 { assert s[1..][i - 1] == s[i] && s[1..][j - 1] == s[j]; }
    }
  }

  lemma AskedInNext(before: map<string, Delivery>, message: string, revision: int, id: string, row: Delivery,
                    agent: string)
    requires id !in before && row.message == message && row.revision == revision
    ensures IsAsked(before[id := row], message, agent, revision) <==>
            IsAsked(before, message, agent, revision) || agent == row.agent
  {
    var next := before[id := row];
    if IsAsked(before, message, agent, revision) {
      var d :| d in before && before[d].message == message && before[d].agent == agent
               && before[d].revision == revision;
      assert d in next && next[d] == before[d];
    }
    if agent == row.agent { assert id in next && next[id] == row; }
  }

  /** Row by row insertion goes through exactly when all rows can be queued, and then adds just these. */
  lemma {:induction false} QueueAllMeans(before: map<string, Delivery>, message: string, revision: int,
                                         deadline: Option<int>, agents: seq<string>, ids: seq<string>)
    ensures var q := QueueAll(before, message, revision, deadline, agents, ids);
            && (q.Some? <==> CanQueue(before, message, revision, agents, ids))
            && (q.Some? ==> Queues(before, q.value, message, revision, deadline, agents, ids))
    decreases |agents|
  {
    if |ids| == |agents| && agents != [] {
      if ids[0] !in before && !IsAsked(before, message, agents[0], revision) {
        var next := before[ids[0] := Delivery(message, agents[0], revision, Queued, false, None, deadline, None)];
        QueueAllMeans(next, message, revision, deadline, agents[1..], ids[1..]);
        FirstOfMany(before, message, revision, deadline, agents, ids);
        var q := QueueAll(next, message, revision, deadline, agents[1..], ids[1..]);
        if q.Some? { FirstThenRest(before, next, q.value, message, revision, deadline, agents, ids); }
      }
    }
  }

  lemma FirstThenRest(before: map<string, Delivery>, next: map<string, Delivery>, after: map<string, Delivery>,
                      message: string, revision: int, deadline: Option<int>, agents: seq<string>, ids: seq<string>)
    requires |ids| == |agents| && agents != [] && ids[0] !in before
    requires next == before[ids[0] := Delivery(message, agents[0], revision, Queued, false, None, deadline, None)]
    requires Queues(next, after, message, revision, deadline, agents[1..], ids[1..])
    ensures Queues(before, after, message, revision, deadline, agents, ids)
  {
    forall d ensures d in after <==> d in before || d in ids {
      assert d in ids <==> d == ids[0] || d in ids[1..];
    }
    forall i | 0 <= i < |ids|
      ensures QueuedRow(after, ids[i], message, revision, deadline, agents[i])
    {
      if i == 0 { assert ids[0] in next; } else { assert ids[1..][i - 1] == ids[i] && agents[1..][i - 1] == agents[i]; }
    }
  }

  // ----- creating projects, tasks and instructions -------------------------------------------------------

  ghost predicate MayCreateProject(s: Db, h: Header, project: string) {
    h.permitted && h.current && project !in s.control
  }

  ghost predicate CreatesProject(s: Db, n: Db, project: string) {
    n == s.(control := s.control[project := Control(Going, None)])
  }

  lemma CreateProjectMeans(s: Db, h: Header, project: string, p: Plan)
    requires p == CreateProject(s, h, project)
    ensures Plans(p, Scope("projects", ""), h.permitted, MayCreateProject(s, h, project))
    ensures p.effect.Some? ==> CreatesProject(s, p.effect.value.0, project) && p.effect.value.1 == Stored(project)
  {
  }

  /** The limits on what a request may ask for a task. */
  ghost predicate InputUsable(q: TaskInput, now: int) {
    && 1 <= |q.scope| <= 4096 && 1 <= q.callLimit <= 100 && 1 <= q.turnLimit <= 1000 && q.document != ""
    && WithinWeek(q.deadline, now) && q.assignee in q.agents && NoDuplicates(q.agents)
  }

  ghost predicate MayCreateTask(s: Db, now: int, h: Header, project: string, q: TaskInput, message: Option<string>) {
    && h.permitted && h.current && IsGoing(s, project) && InputUsable(q, now) && q.id !in s.tasks
    && (q.reviewer.Some? ==> q.reviewer.value !in q.agents)
    && (message.Some? ==>
          && message.value in s.messages && s.messages[message.value] == project
          && forall t :: t in s.tasks ==> s.tasks[t].message != message)
  }

  /** One new task with the fields of the request, in revision 1 and cycle 0. */
  ghost predicate CreatesTask(s: Db, n: Db, project: string, q: TaskInput, message: Option<string>,
                              status: TaskStatus)
  {
    n.tasks == s.tasks[q.id := Task(project, message, Some(q.assignee), q.reviewer, q.agents, q.scope, q.document,
                                    Some(q.callLimit), Some(q.turnLimit), Some(q.deadline), q.fastGateway, status, 1,
                                    0)]
  }

  lemma CreateTaskMeans(s: Db, now: int, h: Header, project: string, q: TaskInput, message: Option<string>, p: Plan)
    requires p == CreateTask(s, now, h, project, q, message)
    ensures Plans(p, Scope("tasks", project), h.permitted && IsGoing(s, project),
                  MayCreateTask(s, now, h, project, q, message))
    ensures p.effect.Some? ==>
              && CreatesTask(s, p.effect.value.0, project, q, message, Draft)
              && p.effect.value.0 == s.(tasks := p.effect.value.0.tasks) && p.effect.value.1 == TaskIs(q.id, Draft)
  {
  }

  ghost predicate MayPrepareTask(s: Db, now: int, h: Header, project: string, q: TaskInput, message: string) {
    && h.permitted && h.current && IsGoing(s, project) && InputUsable(q, now) && q.id !in s.tasks
    && q.reviewer.Some? && q.reviewer.value !in q.agents && message !in s.messages
  }

  lemma PrepareTaskMeans(s: Db, now: int, h: Header, project: string, q: TaskInput, message: string, p: Plan)
    requires p == PrepareTask(s, now, h, project, q, message)
    ensures Plans(p, Scope("prepare", project), h.permitted && IsGoing(s, project),
                  MayPrepareTask(s, now, h, project, q, message))
    ensures p.effect.Some? ==>
              var n := p.effect.value.0;
              && CreatesTask(s, n, project, q, Some(message), AwaitingApproval)
              && n == s.(tasks := n.tasks, messages := s.messages[message := project])
              && p.effect.value.1 == TaskIs(q.id, AwaitingApproval)
  {
  }

  ghost predicate MayInstruct(s: Db, h: Header, project: string, task: string, message: string) {
    && h.permitted && IsGoing(s, project) && message !in s.messages
    && task in s.tasks && s.tasks[task].project == project && s.tasks[task].message == None
  }

  ghost predicate Instructs(s: Db, n: Db, project: string, task: string, message: string)
    requires task in s.tasks
  {
    n == s.(messages := s.messages[message := project],
            tasks := s.tasks[task := s.tasks[task].(message := Some(message))])
  }

  lemma CreateInstructionMeans(s: Db, h: Header, project: string, task: string, message: string, p: Plan)
    requires p == CreateInstruction(s, h, project, task, message)
    ensures Plans(p, Scope("instructions", project), h.permitted && IsGoing(s, project),
                  MayInstruct(s, h, project, task, message))
    ensures p.effect.Some? ==>
              && task in s.tasks && Instructs(s, p.effect.value.0, project, task, message)
              && p.effect.value.1 == Stored(message)
  {
  }

  // ----- approvals ---------------------------------------------------------------------------------------

  /** The row of a decision taken now on the task as it is. */
  ghost predicate IsDecision(a: Approval, c: Crypto, task: string, t: Task, actor: string, approved: bool,
                             expires: Option<int>, now: int)
  {
    && a.task == task && a.approver == actor && a.approved == approved && GivenFor(a, t, c)
    && a.expires == expires && a.revoked == None && a.createdAt == now
  }

  ghost predicate MayDecide(s: Db, now: int, h: Header, task: string, approve: bool, id: string, expires: Option<int>)
  {
    && h.permitted && task in s.tasks && id !in s.approvals
    && var t := s.tasks[task];
       && t.status == AwaitingApproval && ReviewerApart(t) && t.document != ""
       && t.assignee != None && t.callLimit != None && t.turnLimit != None && t.deadline != None
       && (expires == None ==> !approve) && forall at :: expires == Some(at) ==> WithinWeek(at, now)
  }

  ghost predicate Decides(s: Db, n: Db, c: Crypto, now: int, h: Header, task: string, approve: bool, id: string,
                          expires: Option<int>)
    requires task in s.tasks
  {
    && id in n.approvals && IsDecision(n.approvals[id], c, task, s.tasks[task], h.actor, approve, expires, now)
    && n == s.(approvals := s.approvals[id := n.approvals[id]],
               tasks := s.tasks[task := s.tasks[task].(status := if approve then Approved else Draft)])
  }

  lemma ApproveTaskMeans(s: Db, c: Crypto, now: int, h: Header, task: string, approve: bool, id: string,
                         expires: Option<int>, p: Plan)
    requires p == ApproveTask(s, c, now, h, task, approve, id, expires)
    ensures Plans(p, Scope("approvals", task), h.permitted && task in s.tasks,
                  MayDecide(s, now, h, task, approve, id, expires))
    ensures p.effect.Some? ==>
              && task in s.tasks && Decides(s, p.effect.value.0, c, now, h, task, approve, id, expires)
              && p.effect.value.1 == TaskIs(task, if approve then Approved else Draft)
  {
  }

  /** The task already runs on an instruction, so that there is nothing left to do. */
  ghost predicate RunsAlready(t: Task) { t.status == Running && t.message != None }

  ghost predicate CanExecute(s: Db, now: int, t: Task, id: string, expires: int, ids: seq<string>) {
    && t.status == AwaitingApproval && t.message.Some? && WithinWeek(expires, now) && id !in s.approvals
    && t.deadline.Some? && now < t.deadline.value
    && t.callLimit.Some? && 1 <= |t.agents| <= t.callLimit.value
    && CanQueue(s.deliveries, t.message.value, t.revision, t.agents, ids)
  }

  ghost predicate MayExecute(s: Db, now: int, h: Header, task: string, id: string, expires: int, ids: seq<string>) {
    && h.permitted && h.current && task in s.tasks && IsGoing(s, s.tasks[task].project)
    && s.tasks[task].reviewer != None && ReviewerApart(s.tasks[task])
    && (RunsAlready(s.tasks[task]) || CanExecute(s, now, s.tasks[task], id, expires, ids))
  }

  /** A call of one of the agents that is past its deadline. */
  ghost predicate IsStale(d: Delivery, agents: seq<string>, now: int) {
    d.agent in agents && UnderWay(d) && d.deadline.Some? && d.deadline.value <= now
  }

  /** The stale calls of the agents have timed out, the other deliveries are as before. */
  ghost predicate Reclaims(before: map<string, Delivery>, after: map<string, Delivery>, agents: seq<string>, now: int)
  {
    && after.Keys == before.Keys
    && forall d :: d in before ==>
         after[d] == if IsStale(before[d], agents, now)
                     then before[d].(status := TimedOut, error := Some("stale_active_call_reclaimed")) else before[d]
  }

  /** Approved and running at once, with a queued delivery per agent. */
  ghost predicate Executes(s: Db, n: Db, c: Crypto, now: int, h: Header, task: string, id: string, expires: int,
                           ids: seq<string>)
    requires task in s.tasks && s.tasks[task].message.Some?
  {
    var t := s.tasks[task];
    if t.status == Running then n == s
    else
      && id in n.approvals && IsDecision(n.approvals[id], c, task, t, h.actor, true, Some(expires), now)
      && n == s.(approvals := s.approvals[id := n.approvals[id]], deliveries := n.deliveries,
                 tasks := s.tasks[task := t.(status := Running)])
      && exists freed :: Reclaims(s.deliveries, freed, t.agents, now)
                         && Queues(freed, n.deliveries, t.message.value, t.revision, t.deadline, t.agents, ids)
  }

  lemma ReclaimMeans(before: map<string, Delivery>, agents: seq<string>, now: int)
    ensures Reclaims(before, ReclaimStale(before, agents, now), agents, now)
  {
  }

  /** Timing a call out frees neither its id nor its key. */
  lemma ReclaimingFreesNothing(before: map<string, Delivery>, freed: map<string, Delivery>, agents: seq<string>,
                               now: int, message: string, revision: int, asked: seq<string>, ids: seq<string>)
    requires Reclaims(before, freed, agents, now)
    ensures CanQueue(freed, message, revision, asked, ids) <==> CanQueue(before, message, revision, asked, ids)
  {
    forall agent ensures IsAsked(freed, message, agent, revision) <==> IsAsked(before, message, agent, revision) {
      SameRowsAsked(before, freed, message, agent, revision);
    }
  }

  lemma SameRowsAsked(before: map<string, Delivery>, after: map<string, Delivery>, message: string, agent: string,
                      revision: int)
    requires after.Keys == before.Keys
    requires forall d :: d in before ==>
               (after[d].message, after[d].agent, after[d].revision) ==
               (before[d].message, before[d].agent, before[d].revision)
    ensures IsAsked(after, message, agent, revision) <==> IsAsked(before, message, agent, revision)
  {
    if IsAsked(before, message, agent, revision) {
      var d :| d in before && before[d].message == message && before[d].agent == agent
               && before[d].revision == revision;
      assert d in after && after[d].message == message;
    }
  }

  lemma ExecutionMeans(s: Db, c: Crypto, now: int, h: Header, task: string, id: string, expires: int,
                       ids: seq<string>, effect: Option<(Db, Response)>)
    requires task in s.tasks && effect == ExecuteEffect(s, c, now, h, task, id, expires, ids)
    ensures effect.Some? <==>
            && h.current && s.tasks[task].reviewer != None && ReviewerApart(s.tasks[task])
            && (RunsAlready(s.tasks[task]) || CanExecute(s, now, s.tasks[task], id, expires, ids))
    ensures effect.Some? ==>
              && s.tasks[task].message.Some? && Executes(s, effect.value.0, c, now, h, task, id, expires, ids)
              && effect.value.1 == TaskIs(task, Running)
  {
    var t := s.tasks[task];
    if t.message.Some? {
      var freed := ReclaimStale(s.deliveries, t.agents, now);
      ReclaimMeans(s.deliveries, t.agents, now);
      ReclaimingFreesNothing(s.deliveries, freed, t.agents, now, t.message.value, t.revision, t.agents, ids);
      QueueAllMeans(freed, t.message.value, t.revision, t.deadline, t.agents, ids);
    }
  }

  lemma ApproveAndExecuteMeans(s: Db, c: Crypto, now: int, h: Header, task: string, id: string, expires: int,
                               ids: seq<string>, p: Plan)
    requires p == ApproveAndExecute(s, c, now, h, task, id, expires, ids)
    ensures Plans(p, Scope("approve-execute", task),
                  h.permitted && task in s.tasks && IsGoing(s, s.tasks[task].project),
                  MayExecute(s, now, h, task, id, expires, ids))
    ensures p.effect.Some? ==>
              && task in s.tasks && s.tasks[task].message.Some?
              && Executes(s, p.effect.value.0, c, now, h, task, id, expires, ids)
              && p.effect.value.1 == TaskIs(task, Running)
  {
    if task in s.tasks {
      ExecutionMeans(s, c, now, h, task, id, expires, ids, ExecuteEffect(s, c, now, h, task, id, expires, ids));
    }
  }

  ghost predicate HasApproval(s: Db, task: string, id: string) {
    task in s.tasks && id in s.approvals && s.approvals[id].task == task
  }

  ghost predicate Revokes(s: Db, n: Db, now: int, id: string)
    requires id in s.approvals
  {
    n == s.(approvals := s.approvals[id := s.approvals[id].(revoked := Some(now))])
  }

  lemma RevokeApprovalMeans(s: Db, now: int, h: Header, task: string, id: string, p: Plan)
    requires p == RevokeApproval(s, now, h, task, id)
    ensures Plans(p, Scope("revoke", id), h.permitted && HasApproval(s, task, id),
                  h.permitted && HasApproval(s, task, id) && s.approvals[id].revoked == None)
    ensures p.effect.Some? ==>
              id in s.approvals && Revokes(s, p.effect.value.0, now, id) && p.effect.value.1 == Stored(id)
  {
  }

  /** The task's open approvals have been revoked now, all of them or those that have not expired. */
  ghost predicate Withdraws(s: Db, n: Db, task: string, now: int, expiredToo: bool) {
    && n.approvals.Keys == s.approvals.Keys
    && forall a :: a in s.approvals ==>
         n.approvals[a] == if IsOpen(s, task, a) && (expiredToo || !Expired(s.approvals[a], now))
                           then s.approvals[a].(revoked := Some(now)) else s.approvals[a]
  }

  ghost predicate MayAssign(s: Db, h: Header, task: string, reviewer: string, expectedRevision: int, activeRun: bool) {
    && h.permitted && h.current && task in s.tasks && !activeRun
    && var t := s.tasks[task];
       && t.status != Completed && t.reviewer == None && t.revision == expectedRevision && reviewer !in t.agents
       && forall d :: d in s.deliveries && UnderWay(s.deliveries[d]) ==> t.message != Some(s.deliveries[d].message)
  }

  ghost predicate Assigns(s: Db, n: Db, now: int, task: string, reviewer: string)
    requires task in s.tasks
  {
    var t := s.tasks[task];
    && Withdraws(s, n, task, now, false)
    && n == s.(approvals := n.approvals,
               tasks := s.tasks[task := t.(reviewer := Some(reviewer), status := AwaitingApproval,
                                           revision := t.revision + 1)])
  }

  lemma AssignReviewerMeans(s: Db, now: int, h: Header, task: string, reviewer: string, expectedRevision: int,
                            activeRun: bool, p: Plan)
    requires p == AssignReviewer(s, now, h, task, reviewer, expectedRevision, activeRun)
    ensures Plans(p, Scope("reviewer", task), h.permitted && task in s.tasks,
                  MayAssign(s, h, task, reviewer, expectedRevision, activeRun))
    ensures p.effect.Some? ==>
              && task in s.tasks && Assigns(s, p.effect.value.0, now, task, reviewer)
              && p.effect.value.1 == TaskIs(task, AwaitingApproval)
  {
  }

  // ----- transitions -------------------------------------------------------------------------------------

  /** From which statuses a task may come to a status. */
  ghost predicate MayMove(from: TaskStatus, to: TaskStatus) {
    match to
    case Draft => from == AwaitingApproval
    case AwaitingApproval => from == Draft || from == Stopped || from == StopUnconfirmed || from == ReworkRequired
    case Approved => from == AwaitingApproval
    case Running => from == Approved
    case Qa => from == Running
    case Completed => from == Qa
    case Stopped => from == Approved || from == Running
    case StopUnconfirmed => from == Running
    case ReworkRequired => from == Qa
  }

  /** The deadline of a task that has none counts as long past. */
  ghost function DeadlineOf(t: Task): int { if t.deadline.Some? then t.deadline.value else 0 }

  /** A task starts on its newest open approval, in time, or, once revised, within the time of the approval. */
  ghost predicate CanStart(s: Db, c: Crypto, now: int, task: string, chosen: string)
    requires task in s.tasks
  {
    var t := s.tasks[task];
    && ReviewerApart(t) && t.agents != [] && t.assignee != None && t.callLimit != None && t.turnLimit != None
    && t.document != "" && Approves(s, c, now, task, chosen)
    && (DeadlineOf(t) > now || t.revision > 1)
  }

  /** Every delivery of the task's revision has been answered without an error, and there is one. */
  ghost predicate AllAnswered(s: Db, t: Task) {
    && (exists d :: d in s.deliveries && t.message == Some(s.deliveries[d].message)
                    && s.deliveries[d].revision == t.revision)
    && forall d :: d in s.deliveries && t.message == Some(s.deliveries[d].message)
                   && s.deliveries[d].revision == t.revision ==>
         s.deliveries[d].status == Responded && s.deliveries[d].answered && s.deliveries[d].error == None
  }

  ghost predicate CanEnterQa(s: Db, t: Task, runsPassed: bool) {
    t.message != None ==> AllAnswered(s, t) && (t.fastGateway ==> runsPassed)
  }

  /** The deadline of a task that waits for approval again: half an hour, unless the request says otherwise. */
  ghost function NextDeadline(now: int, newDeadline: Option<int>): int {
    if newDeadline.Some? then newDeadline.value else now + 30 * 60
  }

  /** What the status that is asked for demands of the task. */
  ghost predicate TargetAllows(s: Db, c: Crypto, now: int, task: string, target: TaskStatus, chosen: string,
                               newDeadline: Option<int>, runsPassed: bool)
    requires task in s.tasks
  {
    match target
    case Running => CanStart(s, c, now, task, chosen)
    case Qa => CanEnterQa(s, s.tasks[task], runsPassed)
    case AwaitingApproval => s.tasks[task].status == Draft || WithinWeek(NextDeadline(now, newDeadline), now)
    case ReworkRequired => true
    case Stopped => true
    case StopUnconfirmed => true
    case _ => false
  }

  ghost predicate MayTransition(s: Db, c: Crypto, now: int, h: Header, task: string, target: TaskStatus,
                                chosen: string, newDeadline: Option<int>, runsPassed: bool)
  {
    && h.permitted && h.current && task in s.tasks && MayMove(s.tasks[task].status, target)
    && (target == Running || target == Qa ==> IsGoing(s, s.tasks[task].project))
    && TargetAllows(s, c, now, task, target, chosen, newDeadline, runsPassed)
  }

  /** The task's row after the transition; `expires` is when the approval it starts on expires. */
  ghost predicate MovedTask(t: Task, m: Task, target: TaskStatus, now: int, expires: Option<int>,
                            newDeadline: Option<int>)
  {
    match target
    case Running =>
      m == t.(status := Running, deadline := if DeadlineOf(t) > now then Some(DeadlineOf(t)) else expires)
    case Qa => m == t.(status := Qa, qaCycle := t.qaCycle + 1)
    case AwaitingApproval =>
      if t.status == Draft then m == t.(status := AwaitingApproval)
      else
        m == t.(status := AwaitingApproval, deadline := Some(NextDeadline(now, newDeadline)),
                revision := if t.status == ReworkRequired then t.revision else t.revision + 1)
    case ReworkRequired => m == t.(status := ReworkRequired, revision := t.revision + 1)
    case _ => m == t.(status := target)
  }

  ghost function ExpiryOf(s: Db, a: string): Option<int> { if a in s.approvals then s.approvals[a].expires else None }

  /** What a transition writes: the task's row, and coming back from work the task's approvals. */
  ghost predicate Transitions(s: Db, n: Db, now: int, task: string, target: TaskStatus, chosen: string,
                              newDeadline: Option<int>)
    requires task in s.tasks
  {
    && task in n.tasks && n == s.(tasks := s.tasks[task := n.tasks[task]], approvals := n.approvals)
    && (if target == AwaitingApproval && s.tasks[task].status != Draft then Withdraws(s, n, task, now, true)
        else n.approvals == s.approvals)
    && MovedTask(s.tasks[task], n.tasks[task], target, now, ExpiryOf(s, chosen), newDeadline)
  }

  lemma ApprovesIff(s: Db, c: Crypto, now: int, task: string, a: string)
    requires task in s.tasks
    ensures Approves(s, c, now, task, a) <==>
            IsLatestApproval(s, task, a) && Unexpired(s.approvals[a], now) && Matches(s.approvals[a], s.tasks[task], c)
  {
    forall b ensures IsOpen(s, task, b) <==> OpenApproval(s, task, b) {}
  }

  lemma StartMeans(s: Db, c: Crypto, now: int, task: string, chosen: string, newDeadline: Option<int>,
                   effect: Option<(Db, Response)>)
    requires task in s.tasks && effect == StartEffect(s, c, now, task, chosen)
    ensures effect.Some? <==> CanStart(s, c, now, task, chosen)
    ensures effect.Some? ==>
              && Transitions(s, effect.value.0, now, task, Running, chosen, newDeadline)
              && effect.value.1 == TaskIs(task, Running)
  {
    ApprovesIff(s, c, now, task, chosen);
  }

  lemma EnterQaMeans(s: Db, now: int, task: string, chosen: string, newDeadline: Option<int>, runsPassed: bool,
                     effect: Option<(Db, Response)>)
    requires task in s.tasks && effect == EnterQaEffect(s, task, runsPassed)
    ensures effect.Some? <==> CanEnterQa(s, s.tasks[task], runsPassed)
    ensures effect.Some? ==>
              && Transitions(s, effect.value.0, now, task, Qa, chosen, newDeadline)
              && effect.value.1 == TaskIs(task, Qa)
  {
    var t := s.tasks[task];
    if t.message.Some? {
      forall d | d in s.deliveries
        ensures OfRevision(s, t, d) <==>
                t.message == Some(s.deliveries[d].message) && s.deliveries[d].revision == t.revision
      {
      }
    }
  }

  lemma ReopenMeans(s: Db, now: int, task: string, chosen: string, newDeadline: Option<int>,
                    effect: Option<(Db, Response)>)
    requires task in s.tasks && effect == ReopenEffect(s, now, task, newDeadline)
    ensures effect.Some? <==> s.tasks[task].status == Draft || WithinWeek(NextDeadline(now, newDeadline), now)
    ensures effect.Some? ==>
              && Transitions(s, effect.value.0, now, task, AwaitingApproval, chosen, newDeadline)
              && effect.value.1 == TaskIs(task, AwaitingApproval)
  {
  }

  lemma TargetMeans(s: Db, c: Crypto, now: int, task: string, target: TaskStatus, chosen: string,
                    newDeadline: Option<int>, runsPassed: bool, effect: Option<(Db, Response)>)
    requires task in s.tasks && RequestableTarget(target)
    requires effect == TransitionEffect(s, c, now, task, target, chosen, newDeadline, runsPassed)
    ensures effect.Some? <==> TargetAllows(s, c, now, task, target, chosen, newDeadline, runsPassed)
    ensures effect.Some? ==>
              && Transitions(s, effect.value.0, now, task, target, chosen, newDeadline)
              && effect.value.1 == TaskIs(task, target)
  {
    match target
    case Running => StartMeans(s, c, now, task, chosen, newDeadline, effect);
    case Qa => EnterQaMeans(s, now, task, chosen, newDeadline, runsPassed, effect);
    case AwaitingApproval => ReopenMeans(s, now, task, chosen, newDeadline, effect);
    case _ => PlainMoveMeans(s, c, now, task, target, chosen, newDeadline, runsPassed);
  }

  lemma MayMoveIff(from: TaskStatus, to: TaskStatus)
    ensures AllowedTransition(from, to) <==> MayMove(from, to)
  {
  }

  lemma MoveMeans(s: Db, c: Crypto, now: int, h: Header, task: string, target: TaskStatus, chosen: string,
                  newDeadline: Option<int>, runsPassed: bool, effect: Option<(Db, Response)>)
    requires h.permitted && task in s.tasks && RequestableTarget(target)
    requires effect == CheckedTransition(s, c, now, h.current, task, target, chosen, newDeadline, runsPassed)
    ensures effect.Some? <==> MayTransition(s, c, now, h, task, target, chosen, newDeadline, runsPassed)
    ensures effect.Some? ==>
              && Transitions(s, effect.value.0, now, task, target, chosen, newDeadline)
              && effect.value.1 == TaskIs(task, target)
  {
    MayMoveIff(s.tasks[task].status, target);
    TargetMeans(s, c, now, task, target, chosen, newDeadline, runsPassed,
                TransitionEffect(s, c, now, task, target, chosen, newDeadline, runsPassed));
  }

  /** Sending a task to rework or ending its work changes only its own row. */
  lemma PlainMoveMeans(s: Db, c: Crypto, now: int, task: string, target: TaskStatus, chosen: string,
                       newDeadline: Option<int>, runsPassed: bool)
    requires task in s.tasks && target in {ReworkRequired, Stopped, StopUnconfirmed}
    ensures var effect := TransitionEffect(s, c, now, task, target, chosen, newDeadline, runsPassed);
            && effect.Some? && Transitions(s, effect.value.0, now, task, target, chosen, newDeadline)
            && effect.value.1 == TaskIs(task, target)
  {
  }

  lemma TransitionTaskMeans(s: Db, c: Crypto, now: int, h: Header, task: string, target: TaskStatus, chosen: string,
                            newDeadline: Option<int>, runsPassed: bool, p: Plan)
    requires p == TransitionTask(s, c, now, h, task, target, chosen, newDeadline, runsPassed)
    ensures Plans(p, Scope("transition", task),
                  h.permitted && task in s.tasks && target != Draft && target != Approved && target != Completed,
                  MayTransition(s, c, now, h, task, target, chosen, newDeadline, runsPassed))
    ensures p.effect.Some? ==>
              && task in s.tasks && Transitions(s, p.effect.value.0, now, task, target, chosen, newDeadline)
              && p.effect.value.1 == TaskIs(task, target)
  {
    if p.open {
      MoveMeans(s, c, now, h, task, target, chosen, newDeadline, runsPassed, p.effect);
    }
  }

  // ----- QA ----------------------------------------------------------------------------------------------

  /** The evidence is about the task as it is, in its present cycle. */
  ghost predicate IsEvidence(e: Evidence, c: Crypto, task: string, t: Task, cycle: int) {
    (e.task, e.revision, e.scopeHash, e.document, e.qaCycle) == (task, t.revision, c.sha(t.scope), t.document, cycle)
  }

  ghost predicate Evidences(s: Db, n: Db, c: Crypto, task: string, id: string)
    requires task in s.tasks
  {
    && id in n.evidence && IsEvidence(n.evidence[id], c, task, s.tasks[task], s.tasks[task].qaCycle)
    && n == s.(evidence := s.evidence[id := n.evidence[id]])
  }

  ghost predicate InGoingQa(s: Db, task: string) {
    task in s.tasks && s.tasks[task].status == Qa && IsGoing(s, s.tasks[task].project)
  }

  lemma AddEvidenceMeans(s: Db, c: Crypto, h: Header, task: string, id: string, p: Plan)
    requires p == AddEvidence(s, c, h, task, id)
    ensures Plans(p, Scope("evidence", task), h.permitted && InGoingQa(s, task),
                  h.permitted && h.current && InGoingQa(s, task) && id !in s.evidence)
    ensures p.effect.Some? ==>
              task in s.tasks && Evidences(s, p.effect.value.0, c, task, id) && p.effect.value.1 == Stored(id)
  {
  }

  /** The payload names this task, verdict and principal, and the task's revision, scope, document and cycle. */
  ghost predicate IsPayload(p: Payload, c: Crypto, task: string, t: Task, kind: VerdictKind, profile: string,
                            principal: string)
  {
    && p.task == task && p.kind == kind && p.profile == profile && p.principal == principal
    && p.revision == t.revision && p.scopeHash == c.sha(t.scope) && p.document == t.document && p.qaCycle == t.qaCycle
  }

  /** The signature is that of the payload. */
  ghost predicate Signs(signature: string, c: Crypto, task: string, t: Task, kind: VerdictKind, profile: string,
                        principal: string)
  {
    forall p: Payload :: IsPayload(p, c, task, t, kind, profile, principal) ==> signature == c.sign(p)
  }

  /**
   * Only the task's reviewer, who is neither its assignee nor one of its agents, rules on a task in QA; a request that
   * does not come from the agent itself brings the right signature, and a PASS the evidence it needs.
   */
  ghost predicate MayRule(s: Db, c: Crypto, h: Header, task: string, kind: VerdictKind, id: string, principal: string,
                          profile: string, fromAgent: bool, signature: string, evidenceOk: bool)
  {
    && h.permitted && h.current && InGoingQa(s, task) && id !in s.verdicts
    && var t := s.tasks[task];
       && h.actor == principal && t.reviewer == Some(principal) && t.assignee != Some(principal)
       && principal !in t.agents
       && (!fromAgent ==> Signs(signature, c, task, t, kind, profile, principal)) && (kind == PASS ==> evidenceOk)
  }

  /** One signed verdict has been added, and unless it is PASS the task goes to rework. */
  ghost predicate Rules(s: Db, n: Db, c: Crypto, now: int, task: string, kind: VerdictKind, id: string,
                        principal: string, profile: string)
    requires task in s.tasks
  {
    var t := s.tasks[task];
    && id in n.verdicts && IsPayload(n.verdicts[id].payload, c, task, t, kind, profile, principal)
    && n.verdicts[id].signature == c.sign(n.verdicts[id].payload) && n.verdicts[id].createdAt == now
    && n == s.(verdicts := s.verdicts[id := n.verdicts[id]], tasks := n.tasks)
    && n.tasks == if kind == PASS then s.tasks
                  else s.tasks[task := t.(status := ReworkRequired, revision := t.revision + 1)]
  }

  lemma QaVerdictMeans(s: Db, c: Crypto, now: int, h: Header, task: string, kind: VerdictKind, id: string,
                       principal: string, profile: string, fromAgent: bool, signature: string, evidenceOk: bool,
                       p: Plan)
    requires p == QaVerdict(s, c, now, h, task, kind, id, principal, profile, fromAgent, signature, evidenceOk)
    ensures Plans(p, Scope("qa-verdict", task), h.permitted && task in s.tasks,
                  MayRule(s, c, h, task, kind, id, principal, profile, fromAgent, signature, evidenceOk))
    ensures p.effect.Some? ==>
              && task in s.tasks && Rules(s, p.effect.value.0, c, now, task, kind, id, principal, profile)
              && p.effect.value.1 == TaskIs(task, if kind == PASS then Qa else ReworkRequired)
  {
    if task in s.tasks {
      var payload := ExpectedPayload(c, task, s.tasks[task], kind, profile, principal);
      assert IsPayload(payload, c, task, s.tasks[task], kind, profile, principal);
      assert Signs(signature, c, task, s.tasks[task], kind, profile, principal) <==> signature == c.sign(payload);
    }
  }

  /** A stored verdict says PASS on the task as it is, in its reviewer's name and under the right signature. */
  ghost predicate PassedBy(s: Db, c: Crypto, task: string, profile: string, v: string)
    requires task in s.tasks
  {
    && v in s.verdicts && s.tasks[task].reviewer.Some?
    && IsPayload(s.verdicts[v].payload, c, task, s.tasks[task], PASS, profile, s.tasks[task].reviewer.value)
    && s.verdicts[v].signature == c.sign(s.verdicts[v].payload)
  }

  ghost predicate MayConclude(s: Db, c: Crypto, h: Header, task: string, approve: bool, profile: string,
                              checksOk: bool)
  {
    && h.permitted && h.current && InGoingQa(s, task)
    && (approve ==>
          && checksOk && (exists v :: PassedBy(s, c, task, profile, v))
          && exists e :: e in s.evidence
                         && IsEvidence(s.evidence[e], c, task, s.tasks[task], s.tasks[task].qaCycle))
  }

  ghost predicate Concludes(s: Db, n: Db, task: string, approve: bool)
    requires task in s.tasks
  {
    var t := s.tasks[task];
    n == s.(tasks := s.tasks[task := if approve then t.(status := Completed)
                               else t.(status := ReworkRequired, revision := t.revision + 1)])
  }

  lemma RepresentativeCompletionMeans(s: Db, c: Crypto, h: Header, task: string, approve: bool, profile: string,
                                      checksOk: bool, p: Plan)
    requires p == RepresentativeCompletion(s, c, h, task, approve, profile, checksOk)
    ensures Plans(p, Scope("representative-completion", task),
                  h.permitted && task in s.tasks && IsGoing(s, s.tasks[task].project),
                  MayConclude(s, c, h, task, approve, profile, checksOk))
    ensures p.effect.Some? ==>
              && task in s.tasks && Concludes(s, p.effect.value.0, task, approve)
              && p.effect.value.1 == TaskIs(task, if approve then Completed else ReworkRequired)
  {
    if task in s.tasks { CompletionGrounds(s, c, task, profile); }
  }

  lemma CompletionGrounds(s: Db, c: Crypto, task: string, profile: string)
    requires task in s.tasks
    ensures SignedPass(s, c, task, profile) <==> exists v :: PassedBy(s, c, task, profile, v)
    ensures CurrentEvidence(s, c, task) <==>
            exists e :: e in s.evidence && IsEvidence(s.evidence[e], c, task, s.tasks[task], s.tasks[task].qaCycle)
  {
    var t := s.tasks[task];
    forall v ensures PassedBy(s, c, task, profile, v) <==>
                     v in s.verdicts && IsValidPass(c, task, t, profile, s.verdicts[v])
    {
    }
    forall e | e in s.evidence
      ensures IsEvidence(s.evidence[e], c, task, t, t.qaCycle) <==>
              s.evidence[e] == Evidence(task, t.revision, c.sha(t.scope), t.document, t.qaCycle)
    {
    }
  }

  /** The approval still covers the task; one from before targets were recorded covers any. */
  ghost predicate StillCovers(a: Approval, t: Task, c: Crypto, now: int) {
    && (a.scopeHash, a.document, a.assignee) == (c.sha(t.scope), t.document, t.assignee)
    && a.targetHash in {"", c.targets(t.agents)} && forall at :: a.expires == Some(at) ==> now < at
  }

  /** The reviewer is no agent, and either is asked under a new id or has been asked already. */
  ghost predicate CanAskReviewer(s: Db, t: Task, q: QaQueue) {
    && t.message.Some? && t.reviewer.Some? && ReviewerApart(t) && q != Unavailable
    && (IsAsked(s.deliveries, t.message.value, t.reviewer.value, t.revision) <==> q == AlreadyQueued)
    && (q.QueueNew? ==> q.id !in s.deliveries)
  }

  ghost predicate MayRevalidate(s: Db, c: Crypto, now: int, h: Header, task: string, candidate: bool, chosen: string,
                                passed: bool, copies: set<string>, q: QaQueue)
  {
    && h.permitted && h.current && task in s.tasks && IsGoing(s, s.tasks[task].project)
    && AtWork(s.tasks[task]) && candidate
    && IsNewest(s, task, chosen) && StillCovers(s.approvals[chosen], s.tasks[task], c, now)
    && (passed ==> CanAskReviewer(s, s.tasks[task], q) && forall e :: e in copies ==> e !in s.evidence)
  }

  /** Another agent's delivery of the task's revision that has not been sent yet. */
  ghost predicate IsBypassed(t: Task, d: Delivery) {
    && t.message == Some(d.message) && d.revision == t.revision && t.reviewer != Some(d.agent) && d.status == Queued
  }

  /** The workers that were still to be asked no longer are, and the reviewer is. */
  ghost predicate AsksReviewer(before: map<string, Delivery>, after: map<string, Delivery>, t: Task, q: QaQueue)
    requires t.message.Some? && t.reviewer.Some?
  {
    && (forall d :: d in before ==>
          d in after && after[d] ==
            if IsBypassed(t, before[d])
            then before[d].(status := Failed, error := Some("result_revalidation_worker_bypassed")) else before[d])
    && (forall d :: d in after ==> d in before || q == QueueNew(d))
    && (q.QueueNew? ==> QueuedRow(after, q.id, t.message.value, t.revision, t.deadline, t.reviewer.value))
  }

  /** The task in QA, in a new cycle unless it was there, with the original evidence bound to that cycle. */
  ghost predicate Reuses(s: Db, n: Db, c: Crypto, task: string, copies: set<string>, q: QaQueue)
    requires task in s.tasks && s.tasks[task].message.Some? && s.tasks[task].reviewer.Some?
  {
    var t := s.tasks[task];
    var cycle := if t.status == Qa then t.qaCycle else t.qaCycle + 1;
    && AsksReviewer(s.deliveries, n.deliveries, t, q)
    && n == s.(tasks := s.tasks[task := t.(status := Qa, qaCycle := cycle)], deliveries := n.deliveries,
               evidence := n.evidence)
    && n.evidence.Keys == s.evidence.Keys + copies
    && forall e :: e in n.evidence ==>
         if e in copies then IsEvidence(n.evidence[e], c, task, t, cycle)
         else e in s.evidence && n.evidence[e] == s.evidence[e]
  }

  lemma BypassingFreesNothing(s: Db, t: Task, message: string, agent: string, revision: int)
    ensures IsAsked(BypassWorkers(s.deliveries, t), message, agent, revision) <==>
            IsAsked(s.deliveries, message, agent, revision)
  {
    SameRowsAsked(s.deliveries, BypassWorkers(s.deliveries, t), message, agent, revision);
  }

  lemma AskingMeans(s: Db, t: Task, q: QaQueue, after: Option<map<string, Delivery>>)
    requires after == QueueReviewer(BypassWorkers(s.deliveries, t), t, q)
    ensures after.Some? <==> CanAskReviewer(s, t, q)
    ensures after.Some? ==> t.message.Some? && t.reviewer.Some? && AsksReviewer(s.deliveries, after.value, t, q)
  {
    if t.message.Some? && t.reviewer.Some? {
      BypassingFreesNothing(s, t, t.message.value, t.reviewer.value, t.revision);
    }
  }

  lemma ReuseMeans(s: Db, c: Crypto, task: string, copies: set<string>, q: QaQueue, effect: Option<(Db, Response)>)
    requires task in s.tasks && effect == RevalidateEffect(s, c, task, copies, q)
    ensures effect.Some? <==> CanAskReviewer(s, s.tasks[task], q) && forall e :: e in copies ==> e !in s.evidence
    ensures effect.Some? ==>
              && s.tasks[task].message.Some? && s.tasks[task].reviewer.Some?
              && Reuses(s, effect.value.0, c, task, copies, q) && effect.value.1 == TaskIs(task, Qa)
  {
    var t := s.tasks[task];
    var asked := QueueReviewer(BypassWorkers(s.deliveries, t), t, q);
    AskingMeans(s, t, q, asked);
    assert copies !! s.evidence.Keys <==> forall e :: e in copies ==> e !in s.evidence;
    if effect.Some? { ReusedRows(s, c, task, copies, q, asked.value, effect.value.0); }
  }

  lemma ReusedRows(s: Db, c: Crypto, task: string, copies: set<string>, q: QaQueue, asked: map<string, Delivery>,
                   n: Db)
    requires task in s.tasks && s.tasks[task].message.Some? && s.tasks[task].reviewer.Some?
    requires AsksReviewer(s.deliveries, asked, s.tasks[task], q)
    requires n == Reused(s, c, task, copies, asked)
    ensures Reuses(s, n, c, task, copies, q)
  {
  }

  lemma RevalidateResultMeans(s: Db, c: Crypto, now: int, h: Header, task: string, candidate: bool, chosen: string,
                              passed: bool, copies: set<string>, q: QaQueue, p: Plan)
    requires p == RevalidateResult(s, c, now, h, task, candidate, chosen, passed, copies, q)
    ensures Plans(p, Scope("revalidate-result", task), h.permitted && task in s.tasks,
                  MayRevalidate(s, c, now, h, task, candidate, chosen, passed, copies, q))
    ensures p.effect.Some? && passed ==>
              && task in s.tasks && s.tasks[task].message.Some? && s.tasks[task].reviewer.Some?
              && Reuses(s, p.effect.value.0, c, task, copies, q) && p.effect.value.1 == TaskIs(task, Qa)
    ensures p.effect.Some? && !passed ==>
              && task in s.tasks && p.effect.value.0 == s && p.effect.value.1 == TaskIs(task, s.tasks[task].status)
  {
    if task in s.tasks {
      ReuseMeans(s, c, task, copies, q, RevalidateEffect(s, c, task, copies, q));
      forall b ensures IsOpen(s, task, b) <==> OpenApproval(s, task, b) {}
    }
  }

  // ----- deliveries ----------------------------------------------------------------------------------------

  /** The delivery belongs to the project. */
  ghost predicate IsOf(s: Db, d: string, project: string) {
    d in s.deliveries && s.deliveries[d].message in s.messages && s.messages[s.deliveries[d].message] == project
  }

  /** The task of this instruction runs, in time and approved, and its agents are free and within its limits. */
  ghost predicate CanDeliver(s: Db, c: Crypto, now: int, message: string, task: string, agents: seq<string>,
                             chosen: string, callsLeft: int, turnsLeft: int)
  {
    && message in s.messages && IsGoing(s, s.messages[message]) && task in s.tasks
    && var t := s.tasks[task];
       && t.message == Some(message) && t.status == Running && t.document != ""
       && t.deadline.Some? && now < t.deadline.value && Approves(s, c, now, task, chosen)
       && (forall a :: a in agents ==> a in t.agents) && 1 <= |agents| <= callsLeft && 1 <= turnsLeft
       && forall d :: IsOf(s, d, t.project) && UnderWay(s.deliveries[d]) ==> s.deliveries[d].agent !in agents
  }

  ghost predicate Delivers(s: Db, n: Db, message: string, task: string, agents: seq<string>, ids: seq<string>)
    requires task in s.tasks
  {
    && Queues(s.deliveries, n.deliveries, message, s.tasks[task].revision, s.tasks[task].deadline, agents, ids)
    && n == s.(deliveries := n.deliveries)
  }

  lemma DeliverableIff(s: Db, c: Crypto, now: int, message: string, task: string, agents: seq<string>, chosen: string,
                       callsLeft: int, turnsLeft: int)
    requires message in s.messages && IsGoing(s, s.messages[message]) && task in s.tasks
    requires s.tasks[task].message == Some(message) && agents != []
    ensures Deliverable(s, c, now, task, agents, chosen, callsLeft, turnsLeft) <==>
            CanDeliver(s, c, now, message, task, agents, chosen, callsLeft, turnsLeft)
  {
    ApprovesIff(s, c, now, task, chosen);
    forall d | d in s.deliveries
      ensures IsOf(s, d, s.tasks[task].project) <==> ProjectOfDelivery(s, d, s.tasks[task].project)
    {
    }
  }

  lemma DeliverMessageMeans(s: Db, c: Crypto, now: int, h: Header, message: string, task: string,
                            agents: seq<string>, ids: seq<string>, chosen: string, callsLeft: int, turnsLeft: int,
                            p: Plan)
    requires p == DeliverMessage(s, c, now, h, message, task, agents, ids, chosen, callsLeft, turnsLeft)
    ensures var open := h.permitted && h.current
                        && CanDeliver(s, c, now, message, task, agents, chosen, callsLeft, turnsLeft);
            Plans(p, Scope("deliveries", message), open,
                  open && CanQueue(s.deliveries, message, s.tasks[task].revision, agents, ids))
    ensures p.effect.Some? ==>
              && task in s.tasks && Delivers(s, p.effect.value.0, message, task, agents, ids)
              && p.effect.value.1 == QueuedAll(ids)
  {
    if message in s.messages && IsGoing(s, s.messages[message]) && task in s.tasks
       && s.tasks[task].message == Some(message) && agents != []
    {
      DeliverableIff(s, c, now, message, task, agents, chosen, callsLeft, turnsLeft);
    }
    if p.open {
      QueueAllMeans(s.deliveries, message, s.tasks[task].revision, s.tasks[task].deadline, agents, ids);
    }
  }

  /** A failed delivery of a going project, whose task has this agent. */
  ghost predicate CanRetry(s: Db, id: string, task: string, agent: string) {
    && id in s.deliveries && (s.deliveries[id].status == Failed || s.deliveries[id].status == TimedOut)
    && s.deliveries[id].message in s.messages && IsGoing(s, s.messages[s.deliveries[id].message])
    && task in s.tasks && s.tasks[task].message == Some(s.deliveries[id].message) && agent in s.tasks[task].agents
  }

  ghost predicate OnlyOne(s: Db, id: string, agent: string)
    requires id in s.deliveries
  {
    var d := s.deliveries[id];
    forall other :: other in s.deliveries && other != id ==>
      (s.deliveries[other].message, s.deliveries[other].agent, s.deliveries[other].revision) !=
      (d.message, agent, d.revision)
  }

  ghost predicate Retries(s: Db, n: Db, id: string, agent: string)
    requires id in s.deliveries
  {
    n == s.(deliveries := s.deliveries[id := s.deliveries[id].(agent := agent, status := Queued, error := None)])
  }

  lemma RetryDeliveryMeans(s: Db, h: Header, id: string, task: string, agent: string, p: Plan)
    requires p == RetryDelivery(s, h, id, task, agent)
    ensures Plans(p, Scope("retry", id), h.permitted && CanRetry(s, id, task, agent),
                  h.permitted && CanRetry(s, id, task, agent) && OnlyOne(s, id, agent))
    ensures p.effect.Some? ==>
              id in s.deliveries && Retries(s, p.effect.value.0, id, agent) && p.effect.value.1 == Stored(id)
  {
    if id in s.deliveries { OnlyOneIff(s, id, agent); }
  }

  lemma OnlyOneIff(s: Db, id: string, agent: string)
    requires id in s.deliveries
    ensures OnlyOne(s, id, agent) <==>
            !KeyUsed(s.deliveries - {id}, s.deliveries[id].message, agent, s.deliveries[id].revision)
  {
    forall d ensures d in s.deliveries && d != id <==> d in s.deliveries - {id} {}
  }

  // ----- stopping and resuming -------------------------------------------------------------------------------

  /** What a stop makes of one delivery; a missing or unclear receipt of a call under way counts as a failure. */
  ghost predicate StoppedAs(d: Delivery, m: Delivery, receipts: map<string, Receipt>, id: string, reason: string,
                            now: int)
  {
    if d.status == Queued then m == d.(status := Halted, error := Some(reason), stopCycle := Some(now))
    else if d.status == Sent || d.status == Received then
      && m == d.(status := m.status, error := m.error, stopCycle := Some(now))
      && if id !in receipts then m.status == Failed && m.error == Some("STOP_UNCONFIRMED")
         else
           && m.error == receipts[id].error
           && m.status == if receipts[id].status in {Halted, TimedOut} then receipts[id].status else Failed
    else m == d
  }

  /** Every delivery that was under way has halted. */
  ghost predicate AllHalted(before: map<string, Delivery>, after: map<string, Delivery>, covers: set<string>) {
    forall d :: d in before && d in after && before[d].message in covers && UnderWay(before[d]) ==>
      after[d].status == Halted
  }

  /** The deliveries of these messages have been stopped, the others are as before. */
  ghost predicate StopsDeliveries(before: map<string, Delivery>, after: map<string, Delivery>, covers: set<string>,
                                  receipts: map<string, Receipt>, reason: string, now: int)
  {
    && after.Keys == before.Keys
    && forall d :: d in before ==>
         if before[d].message in covers then StoppedAs(before[d], after[d], receipts, d, reason, now)
         else after[d] == before[d]
  }

  lemma StoppingMeans(before: map<string, Delivery>, covers: set<string>, receipts: map<string, Receipt>,
                      reason: string, now: int)
    ensures var after := StopDeliveries(before, covers, reason, receipts, now);
            && StopsDeliveries(before, after, covers, receipts, reason, now)
            && (SomeUnconfirmed(before, covers, receipts) <==> !AllHalted(before, after, covers))
  {
    var after := StopDeliveries(before, covers, reason, receipts, now);
    forall d | d in before && before[d].message in covers
      ensures StoppedAs(before[d], after[d], receipts, d, reason, now)
      ensures UnderWay(before[d]) && after[d].status != Halted <==>
              before[d].status in {Sent, Received} && ReceiptOf(receipts, d).status != Halted
    {
    }
  }

  /** The instructions of the project. */
  ghost predicate AreMessagesOf(s: Db, project: string, covers: set<string>) {
    forall m :: m in covers <==> m in s.messages && s.messages[m] == project
  }

  /**
   * The whole project has been stopped: its deliveries, its approvals, its tasks at work or about to start; it counts
   * as stopped exactly if everything that was under way has halted.
   */
  ghost predicate StopsProject(s: Db, n: Db, now: int, project: string, receipts: map<string, Receipt>,
                               covers: set<string>)
  {
    var halted := AllHalted(s.deliveries, n.deliveries, covers);
    && AreMessagesOf(s, project, covers)
    && StopsDeliveries(s.deliveries, n.deliveries, covers, receipts, "project_stop_barrier", now)
    && n.control == s.control[project := Control(if halted then ProjectStopped else StopFailed, Some(now))]
    && n.tasks.Keys == s.tasks.Keys && n.approvals.Keys == s.approvals.Keys
    && (forall t :: t in s.tasks ==>
          n.tasks[t] ==
            if s.tasks[t].project == project && (s.tasks[t].status == Approved || AtWork(s.tasks[t]))
            then s.tasks[t].(status := if halted then Stopped else StopUnconfirmed, revision := s.tasks[t].revision + 1)
            else s.tasks[t])
    && (forall a :: a in s.approvals ==>
          var row := s.approvals[a];
          n.approvals[a] ==
            if row.task in s.tasks && s.tasks[row.task].project == project && row.revoked == None
            then row.(revoked := Some(now)) else row)
    && n == s.(control := n.control, deliveries := n.deliveries, tasks := n.tasks, approvals := n.approvals)
  }

  lemma StopProjectMeans(s: Db, now: int, h: Header, project: string, receipts: map<string, Receipt>, p: Plan)
    requires p == StopProject(s, now, h, project, receipts)
    ensures Plans(p, Scope("stop", project), h.permitted && project in s.control,
                  h.permitted && h.current && project in s.control)
    ensures p.effect.Some? ==>
              var n := p.effect.value.0;
              && (exists covers :: StopsProject(s, n, now, project, receipts, covers))
              && project in n.control && p.effect.value.1 == ProjectIs(project, n.control[project].state)
  {
    var covers := ProjectMessages(s, project);
    StoppingMeans(s.deliveries, covers, receipts, "project_stop_barrier", now);
    if p.effect.Some? { StopProjectRows(s, now, project, receipts, p.effect.value.0, covers); }
  }

  lemma StopProjectRows(s: Db, now: int, project: string, receipts: map<string, Receipt>, n: Db, covers: set<string>)
    requires n == StopProjectEffect(s, now, project, receipts).0 && covers == ProjectMessages(s, project)
    ensures StopsProject(s, n, now, project, receipts, covers)
  {
    StoppingMeans(s.deliveries, covers, receipts, "project_stop_barrier", now);
  }

  /** The same for one task; a task that already has the status it comes to keeps its revision. */
  ghost predicate StopsTask(s: Db, n: Db, now: int, task: string, receipts: map<string, Receipt>, covers: set<string>)
    requires task in s.tasks
  {
    var t, halted := s.tasks[task], AllHalted(s.deliveries, n.deliveries, covers);
    var status := if halted then Stopped else StopUnconfirmed;
    && (forall m :: m in covers <==> t.message == Some(m))
    && StopsDeliveries(s.deliveries, n.deliveries, covers, receipts, "task_stop_before_dispatch", now)
    && Withdraws(s, n, task, now, true)
    && n == s.(deliveries := n.deliveries, approvals := n.approvals,
               tasks := s.tasks[task := if t.status == status then t
                                  else t.(status := status, revision := t.revision + 1)])
  }

  lemma StopTaskMeans(s: Db, now: int, h: Header, task: string, receipts: map<string, Receipt>, p: Plan)
    requires p == StopTask(s, now, h, task, receipts)
    ensures Plans(p, Scope("task-stop", task), h.permitted && task in s.tasks,
                  h.permitted && h.current && task in s.tasks && s.tasks[task].status != Completed)
    ensures p.effect.Some? ==>
              var n := p.effect.value.0;
              && task in s.tasks && (exists covers :: StopsTask(s, n, now, task, receipts, covers))
              && task in n.tasks && p.effect.value.1 == TaskIs(task, n.tasks[task].status)
  {
    if p.effect.Some? {
      var covers := TaskMessages(s.tasks[task]);
      StoppingMeans(s.deliveries, covers, receipts, "task_stop_before_dispatch", now);
      StopTaskRows(s, now, task, receipts, p.effect.value.0, covers);
    }
  }

  lemma StopTaskRows(s: Db, now: int, task: string, receipts: map<string, Receipt>, n: Db, covers: set<string>)
    requires task in s.tasks && n == StopTaskEffect(s, now, task, receipts).0 && covers == TaskMessages(s.tasks[task])
    ensures StopsTask(s, n, now, task, receipts, covers)
  {
    StoppingMeans(s.deliveries, covers, receipts, "task_stop_before_dispatch", now);
    assert s.tasks == s.tasks[task := s.tasks[task]];
  }

  /** The delivery was touched by this stop of the project. */
  ghost predicate Touched(s: Db, project: string, cycle: Option<int>, d: string) {
    IsOf(s, d, project) && cycle != None && s.deliveries[d].stopCycle == cycle
  }

  /** Something the stop touched has this status. */
  ghost predicate SomeTouched(s: Db, project: string, cycle: Option<int>, status: DeliveryStatus) {
    exists d :: Touched(s, project, cycle, d) && s.deliveries[d].status == status
  }

  ghost predicate SomeStillUnderWay(s: Db, project: string, cycle: Option<int>) {
    exists d :: Touched(s, project, cycle, d) && UnderWay(s.deliveries[d])
  }

  ghost predicate AllTouchedHalted(s: Db, project: string, cycle: Option<int>) {
    forall d :: Touched(s, project, cycle, d) ==> s.deliveries[d].status == Halted
  }

  /** The stop state that what became of the touched deliveries amounts to. */
  ghost predicate AmountsTo(s: Db, project: string, cycle: Option<int>, state: StopState) {
    match state
    case ProjectStopped => AllTouchedHalted(s, project, cycle)
    case StopFailed =>
      && !SomeStillUnderWay(s, project, cycle)
      && (SomeTouched(s, project, cycle, Failed) || SomeTouched(s, project, cycle, TimedOut))
    case ProjectStopUnconfirmed =>
      || SomeStillUnderWay(s, project, cycle)
      || (!AllTouchedHalted(s, project, cycle)
          && !SomeTouched(s, project, cycle, Failed) && !SomeTouched(s, project, cycle, TimedOut))
    case _ => false
  }

  ghost predicate MayAcknowledge(s: Db, h: Header, project: string, id: string) {
    && h.permitted && project in s.control && s.control[project].state != Going
    && Touched(s, project, s.control[project].requestedAt, id) && s.deliveries[id].status == Halted
  }

  ghost predicate Acknowledges(s: Db, n: Db, project: string)
    requires project in s.control
  {
    && project in n.control && AmountsTo(s, project, s.control[project].requestedAt, n.control[project].state)
    && n == s.(control := s.control[project := s.control[project].(state := n.control[project].state)])
  }

  lemma StateAmounts(s: Db, project: string, cycle: int, id: string)
    requires Touched(s, project, Some(cycle), id)
    ensures AmountsTo(s, project, Some(cycle), StopCycleState(s, project, cycle))
  {
    var touched := set d | d in s.deliveries && ProjectOfDelivery(s, d, project)
      && s.deliveries[d].stopCycle == Some(cycle);
    forall d ensures d in touched <==> Touched(s, project, Some(cycle), d) {}
    assert id in touched;
  }

  lemma StopAckMeans(s: Db, h: Header, project: string, id: string, p: Plan)
    requires p == StopAck(s, h, project, id)
    ensures Plans(p, Scope("stop-ack", project), h.permitted && project in s.control,
                  MayAcknowledge(s, h, project, id))
    ensures p.effect.Some? ==>
              && project in s.control && Acknowledges(s, p.effect.value.0, project)
              && p.effect.value.1 == ProjectIs(project, p.effect.value.0.control[project].state)
  {
    if p.effect.Some? { StateAmounts(s, project, s.control[project].requestedAt.value, id); }
  }

  /** Some delivery of the task was touched by the stop that began at `cycle`. */
  ghost predicate WasStopped(s: Db, project: string, task: string, cycle: int)
    requires task in s.tasks
  {
    exists d :: Touched(s, project, Some(cycle), d) && s.tasks[task].message == Some(s.deliveries[d].message)
  }

  ghost predicate HasFreshApproval(s: Db, task: string, cycle: int, now: int) {
    exists a :: IsOpen(s, task, a) && s.approvals[a].createdAt > cycle && !Expired(s.approvals[a], now)
  }

  /** A stopped project goes on when every task of it that the stop caught has been approved since. */
  ghost predicate MayResume(s: Db, now: int, h: Header, project: string) {
    && h.permitted && h.current && project in s.control && s.control[project].state == ProjectStopped
    && var cycle := if s.control[project].requestedAt.Some? then s.control[project].requestedAt.value else 0;
       forall t :: t in s.tasks && s.tasks[t].project == project && WasStopped(s, project, t, cycle) ==>
         HasFreshApproval(s, t, cycle, now)
  }

  lemma FreshApprovalIff(s: Db, project: string, task: string, cycle: int, now: int)
    requires task in s.tasks
    ensures NeedsFreshApproval(s, project, task, cycle, now) <==>
            && s.tasks[task].project == project && WasStopped(s, project, task, cycle)
            && !HasFreshApproval(s, task, cycle, now)
  {
    forall d | d in s.deliveries
      ensures Touched(s, project, Some(cycle), d) <==>
              ProjectOfDelivery(s, d, project) && s.deliveries[d].stopCycle == Some(cycle)
    {
    }
    forall a | a in s.approvals
      ensures IsOpen(s, task, a) && !Expired(s.approvals[a], now) <==>
              OpenApproval(s, task, a) && Unexpired(s.approvals[a], now)
    {
    }
  }

  lemma ResumeProjectMeans(s: Db, now: int, h: Header, project: string, p: Plan)
    requires p == ResumeProject(s, now, h, project)
    ensures Plans(p, Scope("resume", project), h.permitted && project in s.control, MayResume(s, now, h, project))
    ensures p.effect.Some? ==>
              && p.effect.value.0 == s.(control := s.control[project := Control(Going, None)])
              && p.effect.value.1 == ProjectIs(project, Going)
  {
    if project in s.control {
      var cycle := if s.control[project].requestedAt.Some? then s.control[project].requestedAt.value else 0;
      forall t | t in s.tasks
        ensures NeedsFreshApproval(s, project, t, cycle, now) <==>
                && s.tasks[t].project == project && WasStopped(s, project, t, cycle)
                && !HasFreshApproval(s, t, cycle, now)
      {
        FreshApprovalIff(s, project, t, cycle, now);
      }
    }
  }
}
