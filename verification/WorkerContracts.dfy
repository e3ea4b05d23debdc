/** What one step of a delivery worker does to the tables (war_room_worker.py), row by row and without its plan. */
module WorkerContracts {
  import opened Wrappers
  import opened Lifecycle
  import opened EndpointContracts

  /** The delivery is the reviewer's, and the task is in QA. */
  ghost predicate IsReview(t: Task, d: Delivery) { t.status == Qa && t.reviewer == Some(d.agent) }

  /** With this worker's answer every agent's delivery of the revision has been answered. */
  ghost predicate RoundClosed(s: Db, id: string, t: Task)
    requires id in s.deliveries
  {
    && !IsReview(t, s.deliveries[id])
    && forall d :: d in s.deliveries && d != id && s.deliveries[d].message == s.deliveries[id].message
                   && s.deliveries[d].revision == t.revision && s.deliveries[d].agent in t.agents ==>
         s.deliveries[d].status == Responded
  }

  /** The delivery has been answered, the others are as before. */
  ghost function Answered(s: Db, id: string): map<string, Delivery>
    requires id in s.deliveries
  {
    s.deliveries[id := s.deliveries[id].(status := Responded, answered := true)]
  }

  ghost predicate ReviewerFree(s: Db, t: Task, q: QaQueue) {
    && q.QueueNew? && q.id !in s.deliveries && ReviewerApart(t) && t.message.Some? && t.reviewer.Some?
    && !IsAsked(s.deliveries, t.message.value, t.reviewer.value, t.revision)
  }

  /** The task is handed to QA, for the first time with a new cycle, and the reviewer is asked if that is possible. */
  ghost predicate HandsOver(s: Db, n: Db, id: string, task: string, q: QaQueue)
    requires id in s.deliveries && task in s.tasks && s.tasks[task].message.Some?
  {
    var t := s.tasks[task];
    if (t.status == Running || t.status == Qa) && RoundClosed(s, id, t) then
      && n.tasks == s.tasks[task := if t.status == Qa then t else t.(status := Qa, qaCycle := t.qaCycle + 1)]
      && n == s.(tasks := n.tasks, deliveries := n.deliveries)
      && if ReviewerFree(s, t, q) then
           && QueuedRow(n.deliveries, q.id, t.message.value, t.revision, t.deadline, t.reviewer.value)
           && n.deliveries == Answered(s, id)[q.id := n.deliveries[q.id]]
         else n.deliveries == Answered(s, id)
    else n == s.(deliveries := Answered(s, id))
  }

  /** A verdict of the task's reviewer is recorded and signed; anybody else's answer is only an answer. */
  ghost predicate Judges(s: Db, n: Db, c: Crypto, now: int, id: string, task: string, kind: VerdictKind, vid: string,
                         profile: string)
    requires id in s.deliveries && task in s.tasks
  {
    var t, d := s.tasks[task], s.deliveries[id];
    if IsReview(t, d) && d.agent !in t.agents && vid !in s.verdicts then
      && Rules(s.(deliveries := n.deliveries), n, c, now, task, kind, vid, d.agent, profile)
      && n.deliveries == Answered(s, id)
    else n == s.(deliveries := Answered(s, id))
  }

  /** A rejected answer fails; a task that has not ended goes to rework, and what is still queued is cancelled. */
  ghost predicate Rejects(s: Db, n: Db, id: string, task: string)
    requires id in s.deliveries && task in s.tasks
  {
    var t := s.tasks[task];
    var ended := t.status == Completed || t.status == Stopped || t.status == StopUnconfirmed;
    && n == s.(tasks := n.tasks, deliveries := n.deliveries) && n.deliveries.Keys == s.deliveries.Keys
    && n.tasks == (if ended || t.status == ReworkRequired then s.tasks
                   else s.tasks[task := t.(status := ReworkRequired, revision := t.revision + 1)])
    && forall d :: d in s.deliveries ==>
         n.deliveries[d] ==
           if d == id then s.deliveries[d].(status := Failed)
           else if !ended && s.deliveries[d].message == s.deliveries[id].message
                   && s.deliveries[d].revision == t.revision && s.deliveries[d].status == Queued
           then s.deliveries[d].(status := Failed, error := Some("cancelled_after_terminal_validation"))
           else s.deliveries[d]
  }

  /** Differing answers send the task to rework, whatever its status, once they are all there. */
  ghost predicate Disagrees(s: Db, n: Db, id: string, task: string)
    requires id in s.deliveries && task in s.tasks
  {
    var t := s.tasks[task];
    n == s.(deliveries := Answered(s, id),
            tasks := if RoundClosed(s, id, t)
              then s.tasks[task := t.(status := ReworkRequired, revision := t.revision + 1)] else s.tasks)
  }

  /** The task of the delivery, at the revision it was made for. */
  ghost predicate IsFor(s: Db, id: string, task: string)
    requires id in s.deliveries
  {
    && task in s.tasks && s.tasks[task].message == Some(s.deliveries[id].message)
    && s.tasks[task].revision == s.deliveries[id].revision
  }

  /** What one step of a worker does; it touches nothing unless the delivery is under way. */
  ghost predicate Works(s: Db, n: Db, c: Crypto, now: int, id: string, task: string, w: Work) {
    if id !in s.deliveries || !UnderWay(s.deliveries[id]) then n == s
    else if w.Progress? then n == s.(deliveries := s.deliveries[id := s.deliveries[id].(status := w.status)])
    else if !IsFor(s, id, task) then n == s
    else
      match w
      case HandToQa(q) => HandsOver(s, n, id, task, q)
      case Judge(kind, vid, profile) => Judges(s, n, c, now, id, task, kind, vid, profile)
      case Reject => Rejects(s, n, id, task)
      case Conflict => Disagrees(s, n, id, task)
  }

  lemma RoundClosedIff(s: Db, id: string, t: Task)
    requires id in s.deliveries
    ensures ClosesRound(s, id, t) <==> RoundClosed(s, id, t)
  {
    var after := s.deliveries[id := s.deliveries[id].(status := Responded, answered := true)];
    forall d | d in s.deliveries && d != id ensures after[d] == s.deliveries[d] {}
  }

  /** The tables once an answer closes the round of a task that may be handed over. */
  ghost predicate HandedOver(s: Db, n: Db, id: string, task: string, asked: Option<map<string, Delivery>>)
    requires id in s.deliveries && task in s.tasks
  {
    n == s.(tasks := s.tasks[task := EnteringQa(s.tasks[task])],
            deliveries := if asked.Some? then asked.value else Answered(s, id))
  }

  lemma HandingOverMeans(s: Db, c: Crypto, now: int, id: string, task: string, w: Work, n: Db)
    requires id in s.deliveries && IsFor(s, id, task) && w.HandToQa? && n == WorkOnTask(s, c, now, id, task, w)
    ensures HandsOver(s, n, id, task, w.q)
  {
    var t := s.tasks[task];
    RoundClosedIff(s, id, t);
    var asked := QueueReviewer(Answered(s, id), t, w.q);
    HandingOverTables(s, c, now, id, task, w, n, asked);
    if (t.status == Running || t.status == Qa) && RoundClosed(s, id, t) {
      HandedOverMeans(s, n, id, task, w.q, asked);
    }
  }

  lemma HandingOverTables(s: Db, c: Crypto, now: int, id: string, task: string, w: Work, n: Db,
                          asked: Option<map<string, Delivery>>)
    requires id in s.deliveries && IsFor(s, id, task) && w.HandToQa? && n == WorkOnTask(s, c, now, id, task, w)
    requires asked == QueueReviewer(Answered(s, id), s.tasks[task], w.q)
    ensures var t := s.tasks[task];
            if (t.status == Running || t.status == Qa) && ClosesRound(s, id, t) then HandedOver(s, n, id, task, asked)
            else n == s.(deliveries := Answered(s, id))
  {
  }

  lemma HandedOverMeans(s: Db, n: Db, id: string, task: string, q: QaQueue, asked: Option<map<string, Delivery>>)
    requires id in s.deliveries && IsFor(s, id, task) && HandedOver(s, n, id, task, asked)
    requires asked == QueueReviewer(Answered(s, id), s.tasks[task], q)
    requires s.tasks[task].status == Running || s.tasks[task].status == Qa
    requires RoundClosed(s, id, s.tasks[task])
    ensures HandsOver(s, n, id, task, q)
  {
    var t := s.tasks[task];
    if t.reviewer.Some? {
      SameRowsAsked(s.deliveries, Answered(s, id), t.message.value, t.reviewer.value, t.revision);
    }
    AskingMore(Answered(s, id), t, q);
  }

  lemma AskingMore(before: map<string, Delivery>, t: Task, q: QaQueue)
    requires t.message.Some?
    ensures var after := QueueReviewer(before, t, q);
            if q.QueueNew? && q.id !in before && ReviewerApart(t) && t.reviewer.Some?
               && !IsAsked(before, t.message.value, t.reviewer.value, t.revision)
            then
              && after.Some? && after.value.Keys == before.Keys + {q.id}
              && QueuedRow(after.value, q.id, t.message.value, t.revision, t.deadline, t.reviewer.value)
              && after.value == before[q.id := after.value[q.id]]
            else after.None? || after.value == before
  {
  }

  lemma JudgingMeans(s: Db, c: Crypto, now: int, id: string, task: string, w: Work, n: Db)
    requires id in s.deliveries && IsFor(s, id, task) && w.Judge? && n == WorkOnTask(s, c, now, id, task, w)
    ensures Judges(s, n, c, now, id, task, w.kind, w.id, w.profile)
  {
  }

  lemma RejectingMeans(s: Db, c: Crypto, now: int, id: string, task: string, w: Work, n: Db)
    requires id in s.deliveries && IsFor(s, id, task) && w.Reject? && n == WorkOnTask(s, c, now, id, task, w)
    ensures Rejects(s, n, id, task)
  {
    var d := s.deliveries[id];
    var failed := s.deliveries[id := d.(status := Failed)];
    var left := CancelQueued(failed, id, d.message, d.revision);
    RejectingTables(s, c, now, id, task, w, n, failed, left);
    CancellingMeans(failed, id, d.message, d.revision, left);
  }

  lemma RejectingTables(s: Db, c: Crypto, now: int, id: string, task: string, w: Work, n: Db,
                        failed: map<string, Delivery>, left: map<string, Delivery>)
    requires id in s.deliveries && IsFor(s, id, task) && w.Reject? && n == WorkOnTask(s, c, now, id, task, w)
    requires failed == s.deliveries[id := s.deliveries[id].(status := Failed)]
    requires left == CancelQueued(failed, id, s.deliveries[id].message, s.deliveries[id].revision)
    ensures var t := s.tasks[task];
            var ended := t.status == Completed || t.status == Stopped || t.status == StopUnconfirmed;
            n == s.(deliveries := if ended then failed else left,
                    tasks := if ended || t.status == ReworkRequired then s.tasks
                      else s.tasks[task := t.(status := ReworkRequired, revision := t.revision + 1)])
  {
  }

  lemma CancellingMeans(failed: map<string, Delivery>, id: string, message: string, revision: int,
                        after: map<string, Delivery>)
    requires after == CancelQueued(failed, id, message, revision)
    ensures after.Keys == failed.Keys
    ensures forall d :: d in failed ==>
              after[d] ==
                if d != id && failed[d].message == message && failed[d].revision == revision
                   && failed[d].status == Queued
                then failed[d].(status := Failed, error := Some("cancelled_after_terminal_validation")) else failed[d]
  {
  }

  lemma DisagreeingMeans(s: Db, c: Crypto, now: int, id: string, task: string, w: Work, n: Db)
    requires id in s.deliveries && IsFor(s, id, task) && w.Conflict? && n == WorkOnTask(s, c, now, id, task, w)
    ensures Disagrees(s, n, id, task)
  {
    RoundClosedIff(s, id, s.tasks[task]);
  }

  /** A worker's step is the one described. */
  lemma WorkerMeans(s: Db, c: Crypto, now: int, id: string, task: string, w: Work)
    ensures Works(s, WorkerStep(s, c, now, id, task, w), c, now, id, task, w)
  {
    if id in s.deliveries && UnderWay(s.deliveries[id]) && !w.Progress? && IsFor(s, id, task) {
      var n := WorkOnTask(s, c, now, id, task, w);
      match w
      case HandToQa(_) => HandingOverMeans(s, c, now, id, task, w, n);
      case Judge(_, _, _) => JudgingMeans(s, c, now, id, task, w, n);
      case Reject => RejectingMeans(s, c, now, id, task, w, n);
      case Conflict => DisagreeingMeans(s, c, now, id, task, w, n);
    }
  }
}
