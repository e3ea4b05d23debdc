/**
 * What one evaluation of a session decides and leaves behind, said of the log, the confirmations and the observation
 * alone.
 */
module LiveDecisions {
  import opened Wrappers
  import opened LiveRecovery
  import opened LiveRecoveryRuns

  // ----- the log as a reader sees it -------------------------------------------------------------------

  /** Line `k` is the session's last dispatch and still within the last 2000 lines. */
  ghost predicate InReach(log: seq<Line>, session: string, k: int) {
    && 0 <= k < |log| && |log| - k <= 2000 && IsDispatch(log[k], session)
    && forall j :: k < j < |log| ==> !IsDispatch(log[j], session)
  }

  ghost predicate EndedAfter(log: seq<Line>, session: string, k: int)
    requires 0 <= k < |log| && IsDispatch(log[k], session)
  {
    exists j :: k < j < |log| && log[j] == Readable(NudgeEnd(session, log[k].row.id))
  }

  /** Line `k` is a nudge within reach whose end has not been recorded. */
  ghost predicate Pending(log: seq<Line>, session: string, k: int) {
    InReach(log, session, k) && !EndedAfter(log, session, k)
  }

  /** None of the last 2000 lines is a readable phase or outcome of a recovery of the session. */
  ghost predicate Unattempted(log: seq<Line>, session: string) {
    forall k :: 0 <= k < |log| && |log| - 2000 <= k && log[k].Readable? ==>
      !(log[k].row.PhaseRow? && log[k].row.source == session) && log[k].row != OutcomeRow(session)
  }

  // ----- the observation -----------------------------------------------------------------------------

  /** Nothing the worker does has been counted since, and its last progress is not younger by more than 5 seconds. */
  ghost predicate Stalled(before: Metrics, after: Metrics) {
    && after.turns <= before.turns && after.calls <= before.calls && after.results <= before.results
    && after.meaningful <= before.meaningful && after.tokens <= before.tokens
    && (before.progressAge.Some? && after.progressAge.Some? ==>
          before.progressAge.value <= after.progressAge.value + 5.0)
  }

  /** A control session, an ended or an idle one, or one younger than five minutes is not judged. */
  ghost predicate Skipped(q: Candidate) {
    q.role == HandoffSession || q.terminal || !q.active || (q.age.Some? && q.age.value < 300.0)
  }

  ghost predicate TookEffect(s: Control, q: Candidate, k: int) {
    Pending(s.log, q.session, k) && !Stalled(s.log[k].row.baseline, q.metrics)
  }

  /** The nudge shows no effect, but its thread is alive or it was sent less than four minutes ago. */
  ghost predicate Waits(s: Control, q: Candidate, k: int) {
    && Pending(s.log, q.session, k) && Stalled(s.log[k].row.baseline, q.metrics)
    && (q.session in s.nudging || q.now - s.log[k].row.at < 240.0)
  }

  /** The judge is asked: nothing exempts the session, and no nudge has taken effect or is waited for. */
  ghost predicate Judged(s: Control, q: Candidate) {
    !Skipped(q) && forall k :: !TookEffect(s, q, k) && !Waits(s, q, k)
  }

  /** The log as the guards read it: a nudge that was given up has been closed. */
  ghost function LogToJudge(s: Control, q: Candidate): seq<Line> {
    if k :| Pending(s.log, q.session, k) then s.log + Pieces(NudgeEnd(q.session, s.log[k].row.id), q.endCut)
    else s.log
  }

  /** The judge is sure of SALVAGE, by itself and against every other choice it rates. */
  ghost predicate Sure(q: Candidate) {
    && q.confidence.Some? && q.confidence.value >= 0.70
    && (q.salvage.Some? ==> forall x :: x in q.competitors ==> q.salvage.value - x >= 0.20)
  }

  /** Nothing stands against a recovery but the confirmation. */
  ghost predicate Clear(log: seq<Line>, q: Candidate) {
    && Sure(q) && q.role != RecoverySession && !q.main && q.runtimeSafe && q.scopeAllows
    && Unattempted(log, q.session) && q.periodic
  }

  /** The session's record once this decision is counted; only a whole gap after the last counted one adds to it. */
  ghost function Counted(s: Control, q: Candidate): Confirmation {
    if q.session in s.confirmations && s.confirmations[q.session].digest == q.digest then
      var c := s.confirmations[q.session];
      if q.now < c.lastAt + 45.0 then c else Confirmation(c.count + 1, q.now, q.digest)
    else Confirmation(1, q.now, q.digest)
  }

  /**
   * A nudge is due: the session is a task at rest for a minute, no recovery was attempted, and the nudge before it that
   * is still within reach was for another state, and some activity followed it.
   */
  ghost predicate NudgeDue(log: seq<Line>, q: Candidate) {
    && q.role == TaskSession && q.runtimeSafe && q.scopeAllows && q.periodic && q.metrics.inflightCalls == 0
    && q.metrics.progressAge.Some? && q.metrics.progressAge.value >= 60.0
    && Unattempted(log, q.session)
    && forall k :: InReach(log, q.session, k) ==>
         log[k].row.digest != q.digest && !Stalled(log[k].row.baseline, q.metrics)
  }

  /** When the evaluation comes to this action. */
  ghost predicate Decides(s: Control, q: Candidate, action: Action) {
    var log, count := LogToJudge(s, q), Counted(s, q).count;
    match action
    case NudgeRecovered => !Skipped(q) && exists k :: TookEffect(s, q, k)
    case NudgeInflightObserve =>
      || (!Skipped(q) && exists k :: Waits(s, q, k))
      || (Judged(s, q) && q.choice == Nudge && NudgeDue(log, q) && q.session in s.nudging)
    case ObserveOnly => Skipped(q) || (Judged(s, q) && (q.choice == Continue || q.choice == Watch))
    case NudgeBlocked => Judged(s, q) && q.choice == Nudge && !NudgeDue(log, q)
    case NudgeDispatched => Judged(s, q) && q.choice == Nudge && NudgeDue(log, q) && q.session !in s.nudging
    case EscalateMain =>
      && Judged(s, q)
      && (q.choice == Dead || (q.choice == Salvage && Sure(q) && q.role != RecoverySession && q.main))
    case _ =>
      && Judged(s, q) && q.choice == Salvage
      && match action
         case SalvageDeferred => !Sure(q) || (Clear(log, q) && count < 2)
         case GenerationLimit => Sure(q) && q.role == RecoverySession
         case BlockedNoEvidence => Sure(q) && q.role != RecoverySession && !q.main && !q.runtimeSafe
         case BlockedByScope =>
           Sure(q) && q.role != RecoverySession && !q.main && q.runtimeSafe && !q.scopeAllows
         case AttemptExistsAction =>
           && Sure(q) && q.role != RecoverySession && !q.main && q.runtimeSafe && q.scopeAllows
           && !Unattempted(log, q.session)
         case EventEvidenceOnly =>
           && Sure(q) && q.role != RecoverySession && !q.main && q.runtimeSafe && q.scopeAllows
           && Unattempted(log, q.session) && !q.periodic
         case ReadyObserveOnly => Clear(log, q) && count >= 2 && !q.enabled
         case RecoveryInflight => Clear(log, q) && count >= 2 && q.enabled && q.session in s.recovering
         case RecoveryStarted => Clear(log, q) && count >= 2 && q.enabled && q.session !in s.recovering
         case _ => false
  }

  /** The decision counts towards a recovery that it does not start yet, so it is kept. */
  ghost predicate Keeps(s: Control, q: Candidate, action: Action) {
    action == ReadyObserveOnly || (action == SalvageDeferred && Clear(LogToJudge(s, q), q))
  }

  /** What becomes of the session's record; those of other sessions stay. */
  ghost predicate Records(s: Control, q: Candidate, action: Action, n: Control) {
    if !Skipped(q) && !Judged(s, q) then n.confirmations == s.confirmations
    else if Keeps(s, q, action) then n.confirmations == s.confirmations[q.session := Counted(s, q)]
    else n.confirmations == s.confirmations - {q.session}
  }

  /** The rows that are written: the end of a nudge, a dispatch, and the evaluation's own one. */
  ghost predicate Writes(s: Control, q: Candidate, action: Action, n: Control) {
    var record := Pieces(Other, q.recordCut);
    if Skipped(q) then n.log == if q.terminal && q.role != HandoffSession then s.log else s.log + record
    else if action == NudgeRecovered then
      exists k :: TookEffect(s, q, k) && n.log == s.log + Pieces(NudgeEnd(q.session, s.log[k].row.id), q.endCut)
    else if !Judged(s, q) then n.log == s.log
    else if action == NudgeDispatched then
      n.log == LogToJudge(s, q)
               + Pieces(Dispatch(q.session, q.dispatchId, q.digest, q.metrics, q.now), q.dispatchCut) + record
    else n.log == LogToJudge(s, q) + record
  }

  /** What the evaluation leaves behind. */
  ghost predicate LeavesBehind(s: Control, q: Candidate, action: Action, n: Control) {
    && n.recovering == (if action == RecoveryStarted then s.recovering + {q.session} else s.recovering)
    && n.nudging == (if action == NudgeDispatched then s.nudging + {q.session} else s.nudging)
    && Records(s, q, action, n) && Writes(s, q, action, n)
  }

  // ----- the evaluation does just that -------------------------------------------------------------------

  lemma StalledIff(before: Metrics, after: Metrics)
    ensures Progressed(before, after) <==> !Stalled(before, after)
  {
  }

  lemma SureIff(q: Candidate)
    ensures Confident(q) <==> Sure(q)
  {
    if q.competitors != [] { assert Highest(q.competitors) in q.competitors; }
  }

  lemma UnattemptedIff(log: seq<Line>, session: string)
    ensures AttemptIn(LookBack(log), session) <==> !Unattempted(log, session)
  {
    AttemptInLookBack(log, session);
    forall k | 0 <= k < |log|
      ensures IsAttempt(log[k], session) <==>
              log[k].Readable? && ((log[k].row.PhaseRow? && log[k].row.source == session)
                                   || log[k].row == OutcomeRow(session))
    {
    }
  }

  /** What the look-back finds is the log's last dispatch. */
  lemma LatestInLog(log: seq<Line>, session: string) returns (k: nat)
    requires LatestNudge(LookBack(log), session).dispatch.Some?
    ensures InReach(log, session, k)
  {
    var lines := LookBack(log);
    var base := |log| - |lines|;
    k := LatestWhere(lines, session);
    k := base + k;
    assert log[k] == lines[k - base];
    forall j | k < j < |log| ensures !IsDispatch(log[j], session) { assert log[j] == lines[j - base]; }
  }

  lemma ReachedIsLatest(log: seq<Line>, session: string, k: int)
    requires InReach(log, session, k)
    ensures LatestNudge(LookBack(log), session).dispatch == Some(log[k].row)
    ensures LatestNudge(LookBack(log), session).resolved <==> EndedAfter(log, session, k)
  {
    LastInLookBack(log, session, k);
    assert forall j :: k < j < |log| ==>
        (Ends(log[j], session, log[k].row.id) <==> log[j] == Readable(NudgeEnd(session, log[k].row.id)));
  }

  /** The pending nudge, if there is one, is what the look-back reports. */
  lemma PendingIsLatest(log: seq<Line>, session: string) returns (k: int)
    ensures var latest := LatestNudge(LookBack(log), session);
            if latest.dispatch.None? || latest.resolved then forall j :: !Pending(log, session, j)
            else Pending(log, session, k) && latest.dispatch == Some(log[k].row)
                 && forall j :: Pending(log, session, j) ==> j == k
  {
    var latest := LatestNudge(LookBack(log), session);
    forall j | InReach(log, session, j)
      ensures latest.dispatch == Some(log[j].row) && (latest.resolved <==> EndedAfter(log, session, j))
    {
      ReachedIsLatest(log, session, j);
    }
    k := -1;
    if latest.dispatch.Some? { k := LatestInLog(log, session); }
  }

  /** The pending observation in terms of the whole log, and the log it leaves. */
  lemma ObservationMeans(s: Control, q: Candidate)
    requires !Skipped(q)
    ensures var (n, seen) := Observed(s, q);
            && (seen.None? <==> Judged(s, q)) && (seen.None? ==> n == s.(log := LogToJudge(s, q)))
            && (seen.Some? ==> Decides(s, q, seen.value) && LeavesBehind(s, q, seen.value, n))
  {
    var k := PendingIsLatest(s.log, q.session);
    var latest := LatestNudge(LookBack(s.log), q.session);
    if latest.dispatch.Some? && !latest.resolved {
      StalledIff(s.log[k].row.baseline, q.metrics);
      assert TookEffect(s, q, k) || Waits(s, q, k) || forall j :: !TookEffect(s, q, j) && !Waits(s, q, j);
    }
  }

  lemma NudgeDueIff(s: Control, q: Candidate)
    requires !Skipped(q)
    ensures NudgeAllowed(s, q) <==> NudgeDue(s.log, q)
  {
    UnattemptedIff(s.log, q.session);
    forall k | InReach(s.log, q.session, k)
      ensures LatestNudge(LookBack(s.log), q.session).dispatch == Some(s.log[k].row)
      ensures Progressed(s.log[k].row.baseline, q.metrics) <==> !Stalled(s.log[k].row.baseline, q.metrics)
    {
      ReachedIsLatest(s.log, q.session, k);
      StalledIff(s.log[k].row.baseline, q.metrics);
    }
    if LatestNudge(LookBack(s.log), q.session).dispatch.Some? { var k := LatestInLog(s.log, q.session); }
  }

  /** The judge's state before it is asked, and after. */
  ghost predicate Asked(s: Control, q: Candidate, seen: Control) {
    Judged(s, q) && seen == s.(log := LogToJudge(s, q))
  }

  /** The rows are all written but the evaluation's own one. */
  ghost predicate LeavesButRecord(s: Control, q: Candidate, action: Action, n: Control) {
    LeavesBehind(s, q, action, n.(log := n.log + Pieces(Other, q.recordCut)))
  }

  lemma NudgingMeans(s: Control, q: Candidate, seen: Control)
    requires Asked(s, q, seen) && q.choice == Nudge
    ensures var (n, action) := JudgeNudge(Reset(seen, q.session), q);
            Decides(s, q, action) && LeavesButRecord(s, q, action, n)
  {
    NudgeDueIff(Reset(seen, q.session), q);
  }

  lemma CountedIs(s: Control, q: Candidate)
    ensures Confirmed(ConfirmationOf(s, q.session), q.digest, q.now) == Counted(s, q)
  {
  }

  lemma ClearIff(seen: Control, q: Candidate)
    ensures Blocked(seen, q).None? <==> Clear(seen.log, q)
  {
    SureIff(q);
    UnattemptedIff(seen.log, q.session);
  }

  lemma BlockedMeans(s: Control, q: Candidate, seen: Control)
    requires Asked(s, q, seen) && q.choice == Salvage && Blocked(seen, q).Some?
    ensures Decides(s, q, Blocked(seen, q).value)
    ensures LeavesButRecord(s, q, Blocked(seen, q).value, Reset(seen, q.session))
  {
    SureIff(q);
    ClearIff(seen, q);
    UnattemptedIff(seen.log, q.session);
  }

  lemma SalvagingMeans(s: Control, q: Candidate, seen: Control)
    requires Asked(s, q, seen) && q.choice == Salvage
    ensures var (n, action) := JudgeSalvage(seen, q);
            Decides(s, q, action) && LeavesButRecord(s, q, action, n)
  {
    ClearIff(seen, q);
    CountedIs(s, q);
    if Blocked(seen, q).Some? { BlockedMeans(s, q, seen); }
  }

  lemma JudgingMeans(s: Control, q: Candidate, seen: Control)
    requires Asked(s, q, seen)
    ensures var (n, action) := Judge(seen, q);
            Decides(s, q, action) && LeavesButRecord(s, q, action, n)
  {
    match q.choice
    case Salvage => SalvagingMeans(s, q, seen);
    case Nudge => NudgingMeans(s, q, seen);
    case _ =>
  }

  /** Every evaluation decides by these conditions and leaves just this behind. */
  lemma EvaluationMeans(s: Control, q: Candidate)
    ensures Decides(s, q, Evaluate(s, q).1) && LeavesBehind(s, q, Evaluate(s, q).1, Evaluate(s, q).0)
  {
    if !Skipped(q) {
      ObservationMeans(s, q);
      if Judged(s, q) { JudgingMeans(s, q, Observed(s, q).0); }
    }
  }

  /** The conditions exclude each other, so they are exact: it comes to an action if and only if they hold of it. */
  lemma OneDecision(s: Control, q: Candidate, a: Action, b: Action)
    requires Decides(s, q, a) && Decides(s, q, b)
    ensures a == b
  {
    forall j, k | InReach(s.log, q.session, j) && InReach(s.log, q.session, k) ensures j == k {}
    assert forall j, k :: !(TookEffect(s, q, j) && Waits(s, q, k));
  }
}
