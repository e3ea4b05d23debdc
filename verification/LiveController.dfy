/**
 * The recovery controller as it runs: the scans over the log are loops, the confirmations and in-flight sets fields.
 */
module LiveController {
  import opened Wrappers
  import opened LiveRecovery
  import opened LiveRecoveryRuns
  import opened LiveDecisions

  /** The count is backed by that many confirmations, a gap apart, since `first`. */
  predicate Spans(c: Confirmation, first: real) {
    1 <= c.count && c.lastAt - first >= CONFIRMATION_GAP * ((c.count - 1) as real)
  }

  /** A whole gap lies between the first confirmation and the last counted one, or the present one. */
  predicate AGapSince(c: Confirmation, first: real, now: real) {
    c.lastAt - first >= CONFIRMATION_GAP || now - first >= CONFIRMATION_GAP
  }

  /** What a recovery that starts rests on besides the decision itself. */
  lemma EvaluateMeans(s: Control, q: Candidate, first: map<string, real>)
    requires forall session :: session in s.confirmations ==>
               session in first && Spans(s.confirmations[session], first[session])
    ensures Decides(s, q, Evaluate(s, q).1) && LeavesBehind(s, q, Evaluate(s, q).1, Evaluate(s, q).0)
    ensures Evaluate(s, q).1 == RecoveryStarted ==>
              && q.session in first && q.session in s.confirmations && s.confirmations[q.session].digest == q.digest
              && AGapSince(s.confirmations[q.session], first[q.session], q.now)
  {
    EvaluationMeans(s, q);
    if Evaluate(s, q).1 == RecoveryStarted { StartMeans(s, q, first); }
  }

  lemma StartMeans(s: Control, q: Candidate, first: map<string, real>)
    requires Counted(s, q).count >= 2
    requires forall session :: session in s.confirmations ==>
               session in first && Spans(s.confirmations[session], first[session])
    ensures q.session in first && q.session in s.confirmations && s.confirmations[q.session].digest == q.digest
    ensures AGapSince(s.confirmations[q.session], first[q.session], q.now)
  {
    var c := s.confirmations[q.session];
    SpanGrows(c, c.digest, q.now, first[q.session]);
    assert CONFIRMATION_GAP * 1.0 == CONFIRMATION_GAP;
  }

  class Controller {
    var log: seq<Line>
    var recovering: set<string>
    var nudging: set<string>
    var confirmations: map<string, Confirmation>

    function State(): Control
      reads this
    {
      Control(log, recovering, nudging, confirmations)
    }

    /** When the first confirmation was given that a session's present count includes. */
    ghost var first: map<string, real>

    /** A count of n confirmations spans n - 1 gaps. */
    ghost predicate Valid()
      reads this
    {
      forall session :: session in confirmations ==>
        session in first && Spans(confirmations[session], first[session])
    }

    constructor ()
      ensures State() == Control([], {}, {}, map[]) && Valid()
    {
      log, recovering, nudging, confirmations := [], {}, {}, map[];
    }

    method Append(row: Row, cut: nat)
      modifies this`log
      ensures State() == Written(old(State()), row, cut)
    {
      log := log + Pieces(row, cut);
    }

    method ResetConfirmation(session: string)
      requires Valid()
      modifies this`confirmations
      ensures Valid() && State() == Reset(old(State()), session)
    {
      confirmations := confirmations - {session};
    }

    /** Only the same digest counts on, and only a whole gap after the last counted confirmation. */
    method ConfirmSalvage(session: string, digest: string, now: real) returns (count: int)
      requires Valid()
      modifies this`confirmations, this`first
      ensures Valid()
      ensures var confirmation := Confirmed(ConfirmationOf(old(State()), session), digest, now);
              && State() == old(State()).(confirmations := old(confirmations)[session := confirmation])
              && count == confirmation.count
      ensures session in first && count == confirmations[session].count && confirmations[session].digest == digest
      ensures if session in old(confirmations) && old(confirmations)[session].digest == digest then
                var before := old(confirmations)[session];
                if now - before.lastAt >= 45.0 then count == before.count + 1 && confirmations[session].lastAt == now
                else confirmations[session] == before
              else count == 1 && confirmations[session].lastAt == now
      ensures confirmations[session].lastAt - first[session] >= CONFIRMATION_GAP * ((count - 1) as real)
      ensures count > 1 ==> session in old(first) && first[session] == old(first)[session]
      ensures forall other :: other != session && other in old(first) ==>
                other in first && first[other] == old(first)[other]
    {
      var lastAt := now;
      count := 1;
      ghost var since := now;
      if session in confirmations {
        var previous := confirmations[session];
        if previous.digest == digest {
          SpanGrows(previous, digest, now, first[session]);
          count, lastAt, since := previous.count, previous.lastAt, first[session];
          if now - lastAt >= CONFIRMATION_GAP { count, lastAt := count + 1, now; }
        }
      }
      confirmations := confirmations[session := Confirmation(count, lastAt, digest)];
      first := first[session := since];
    }

    method RecoveryAttemptExists(session: string) returns (found: bool)
      ensures found == AttemptIn(LookBack(log), session) == !Unattempted(log, session)
    {
      UnattemptedIff(log, session);
      var lines := LookBack(log);
      var i := |lines|;
      while i > 0
        invariant 0 <= i <= |lines|
        invariant forall k :: i <= k < |lines| ==> !IsAttempt(lines[k], session)
      {
        i := i - 1;
        if IsAttempt(lines[i], session) { return true; }
      }
      found := false;
    }

    method LatestNudgeState(session: string) returns (latest: Latest)
      ensures latest == LatestNudge(LookBack(log), session)
      ensures latest.dispatch.Some? ==> exists k :: InReach(log, session, k) && latest.dispatch == Some(log[k].row)
      ensures forall k :: InReach(log, session, k) ==>
                latest.dispatch == Some(log[k].row) && (latest.resolved <==> EndedAfter(log, session, k))
    {
      forall k | InReach(log, session, k)
        ensures LatestNudge(LookBack(log), session).dispatch == Some(log[k].row)
        ensures LatestNudge(LookBack(log), session).resolved <==> EndedAfter(log, session, k)
      {
        ReachedIsLatest(log, session, k);
      }
      if LatestNudge(LookBack(log), session).dispatch.Some? { ghost var k := LatestInLog(log, session); }
      var lines := LookBack(log);
      latest := Latest(None, false);
      for i := 0 to |lines|
        invariant latest == LatestNudge(lines[..i], session)
      {
        assert lines[..i + 1][..i] == lines[..i];
        latest := Advance(latest, lines[i], session);
      }
      assert lines[..|lines|] == lines;
    }

    /** Judging goes on only if no nudge within reach is still waiting for its effect, or it has waited too long. */
    method PendingNudgeObservation(q: Candidate) returns (seen: Option<Action>)
      modifies this`log
      ensures (State(), seen) == Observed(old(State()), q)
      ensures !Skipped(q) ==> (seen.None? <==> Judged(old(State()), q))
      ensures !Skipped(q) && seen.None? ==> log == LogToJudge(old(State()), q)
      ensures !Skipped(q) && seen.Some? ==> Decides(old(State()), q, seen.value)
    {
      if !Skipped(q) { ObservationMeans(State(), q); }
      var latest := LatestNudgeState(q.session);
      if latest.dispatch.None? || !latest.dispatch.value.Dispatch? || latest.resolved { return None; }
      var d := latest.dispatch.value;
      if Progressed(d.baseline, q.metrics) {
        Append(NudgeEnd(q.session, d.id), q.endCut);
        return Some(NudgeRecovered);
      }
      if q.session in nudging || Elapsed(d.at, q.now) < NUDGE_RESTART_HOLD { return Some(NudgeInflightObserve); }
      Append(NudgeEnd(q.session, d.id), q.endCut);
      seen := None;
    }

    method NudgeGuard(q: Candidate) returns (allowed: bool)
      ensures allowed == NudgeAllowed(State(), q)
      ensures !Skipped(q) ==> (allowed <==> NudgeDue(log, q))
    {
      if !Skipped(q) { NudgeDueIff(State(), q); }
      if q.role != TaskSession || !q.active || !q.runtimeSafe || q.metrics.inflightCalls != 0 { return false; }
      if q.metrics.progressAge.None? || q.metrics.progressAge.value < NUDGE_MIN_NO_PROGRESS || !q.scopeAllows {
        return false;
      }
      var attempted := RecoveryAttemptExists(q.session);
      if attempted || !q.periodic { return false; }
      var latest := LatestNudgeState(q.session);
      if latest.dispatch.Some? && latest.dispatch.value.Dispatch? {
        var prior := latest.dispatch.value;
        if prior.digest == q.digest || !Progressed(prior.baseline, q.metrics) { return false; }
      }
      allowed := true;
    }

    /**
     * One evaluation: the action is the one whose conditions hold, and the log, the records and the in-flight sets are
     * left as that action leaves them.
     */
    method EvaluateCandidate(q: Candidate) returns (action: Action)
      requires Valid()
      modifies this
      ensures Valid() && (State(), action) == Evaluate(old(State()), q)
      ensures Decides(old(State()), q, action) && LeavesBehind(old(State()), q, action, State())
      ensures action == RecoveryStarted ==>
                && q.session in old(first) && q.session in old(confirmations)
                && old(confirmations)[q.session].digest == q.digest
                && AGapSince(old(confirmations)[q.session], old(first)[q.session], q.now)
    {
      EvaluateMeans(State(), q, first);
      action := Evaluation(q);
    }

    /** The evaluation step by step. */
    method Evaluation(q: Candidate) returns (action: Action)
      requires Valid()
      modifies this
      ensures Valid() && (State(), action) == Evaluate(old(State()), q)
    {
      if q.role == HandoffSession {
        ResetConfirmation(q.session);
        Append(Other, q.recordCut);
        return ObserveOnly;
      }
      if q.terminal {
        ResetConfirmation(q.session);
        return ObserveOnly;
      }
      if (q.age.Some? && q.age.value < GRACE) || !q.active {
        ResetConfirmation(q.session);
        Append(Other, q.recordCut);
        return ObserveOnly;
      }
      var seen := PendingNudgeObservation(q);
      if seen.Some? { return seen.value; }
      if q.choice != Salvage { ResetConfirmation(q.session); }
      action := ObserveOnly;
      if q.choice == Dead {
        action := EscalateMain;
      } else if q.choice == Nudge {
        action := TryNudge(q);
      } else if q.choice == Salvage {
        action := TrySalvage(q);
      }
      Append(Other, q.recordCut);
    }

    method TryNudge(q: Candidate) returns (action: Action)
      modifies this`log, this`nudging
      ensures (State(), action) == JudgeNudge(old(State()), q)
    {
      var allowed := NudgeGuard(q);
      if !allowed { return NudgeBlocked; }
      if q.session in nudging { return NudgeInflightObserve; }
      Append(DispatchOf(q), q.dispatchCut);
      nudging := nudging + {q.session};
      action := NudgeDispatched;
    }

    method TrySalvage(q: Candidate) returns (action: Action)
      requires Valid()
      modifies this`recovering, this`confirmations, this`first
      ensures Valid() && (State(), action) == JudgeSalvage(old(State()), q)
    {
      var attempted := RecoveryAttemptExists(q.session);
      if !Confident(q) {
        action := SalvageDeferred;
      } else if q.role == RecoverySession {
        action := GenerationLimit;
      } else if q.main {
        action := EscalateMain;
      } else if !q.runtimeSafe {
        action := BlockedNoEvidence;
      } else if !q.scopeAllows {
        action := BlockedByScope;
      } else if attempted {
        action := AttemptExistsAction;
      } else if !q.periodic {
        action := EventEvidenceOnly;
      } else {
        var count := ConfirmSalvage(q.session, q.digest, q.now);
        if count < CONFIRMATIONS { return SalvageDeferred; }
        if !q.enabled { return ReadyObserveOnly; }
        assert confirmations - {q.session} == old(confirmations) - {q.session};
        ResetConfirmation(q.session);
        if q.session in recovering { return RecoveryInflight; }
        recovering := recovering + {q.session};
        return RecoveryStarted;
      }
      ResetConfirmation(q.session);
    }
  }
}
