/**
 * The live recovery controller (jev_recovery_live.py): one evaluation judges a session, may nudge it, may start its
 * recovery, and leaves rows in an append-only log that later evaluations read back.
 */
module LiveRecovery {
  import opened Wrappers

  const LOOK_BACK := 2000
  const GRACE: real := 300.0
  const NUDGE_MIN_NO_PROGRESS: real := 60.0
  const NUDGE_RESTART_HOLD: real := 240.0
  const CONFIRMATIONS := 2
  const CONFIRMATION_GAP: real := 45.0
  const MIN_CONFIDENCE: real := 0.70
  const MIN_MARGIN: real := 0.20

  datatype Metrics = Metrics(
    turns: int, calls: int, results: int, meaningful: int, tokens: int, progressAge: Option<real>, inflightCalls: int)

  datatype Phase = Handoff | Terminate | Restart | Ack | Complete

  /** Rows by what the look-back asks of them. */
  datatype Row =
    | PhaseRow(source: string, phase: Phase)
    | OutcomeRow(source: string)
    | Dispatch(session: string, id: string, digest: string, baseline: Metrics, at: real)
    | NudgeEnd(session: string, id: string)
    | Other

  /** A row is one line, unless its text holds a character at which reading splits lines: then no piece parses. */
  datatype Line = Readable(row: Row) | Broken

  datatype Confirmation = Confirmation(count: int, lastAt: real, digest: string)

  datatype Control = Control(
    log: seq<Line>,
    recovering: set<string>,
    nudging: set<string>,
    confirmations: map<string, Confirmation>)

  datatype Role = TaskSession | HandoffSession | RecoverySession

  datatype Choice = Continue | Watch | Nudge | Salvage | Dead

  /**
   * What one evaluation observes and is told by the judge; the cuts say at how many places each row it writes splits.
   */
  datatype Candidate = Candidate(
    session: string, role: Role, main: bool, terminal: bool, age: Option<real>, active: bool, runtimeSafe: bool,
    scopeAllows: bool, periodic: bool, enabled: bool, metrics: Metrics, digest: string, now: real, dispatchId: string,
    choice: Choice, confidence: Option<real>, salvage: Option<real>, competitors: seq<real>,
    endCut: nat, dispatchCut: nat, recordCut: nat)

  datatype Action =
    | ObserveOnly | NudgeRecovered | NudgeInflightObserve | EscalateMain | NudgeBlocked | NudgeDispatched
    | SalvageDeferred | GenerationLimit | BlockedNoEvidence | BlockedByScope | AttemptExistsAction | EventEvidenceOnly
    | ReadyObserveOnly | RecoveryInflight | RecoveryStarted

  // ----- the log ---------------------------------------------------------------------------

  function Pieces(row: Row, cut: nat): seq<Line> {
    if cut == 0 then [Readable(row)] else seq(cut + 1, _ => Broken)
  }

  function Written(s: Control, row: Row, cut: nat): Control { s.(log := s.log + Pieces(row, cut)) }

  function LookBack(log: seq<Line>): seq<Line> {
    if |log| <= LOOK_BACK then log else log[|log| - LOOK_BACK..]
  }

  predicate IsAttempt(l: Line, session: string) {
    l.Readable? && (l.row.PhaseRow? || l.row.OutcomeRow?) && l.row.source == session
  }

  predicate AttemptIn(lines: seq<Line>, session: string) {
    exists k :: 0 <= k < |lines| && IsAttempt(lines[k], session)
  }

  /** The last dispatch to the session, and whether its end was recorded after it. */
  datatype Latest = Latest(dispatch: Option<Row>, resolved: bool)

  function Advance(before: Latest, l: Line, session: string): Latest {
    if l.Broken? then before
    else if l.row.Dispatch? && l.row.session == session then Latest(Some(l.row), false)
    else if l.row.NudgeEnd? && l.row.session == session && before.dispatch.Some? && before.dispatch.value.Dispatch?
            && l.row.id == before.dispatch.value.id
    then before.(resolved := true)
    else before
  }

  function LatestNudge(lines: seq<Line>, session: string): Latest {
    if lines == [] then Latest(None, false)
    else Advance(LatestNudge(lines[..|lines| - 1], session), lines[|lines| - 1], session)
  }

  predicate IsDispatch(l: Line, session: string) { l.Readable? && l.row.Dispatch? && l.row.session == session }

  predicate Ends(l: Line, session: string, id: string) { l == Readable(NudgeEnd(session, id)) }

  /** Line `k` is the session's last readable dispatch. */
  predicate LastDispatch(lines: seq<Line>, session: string, k: nat) {
    k < |lines| && IsDispatch(lines[k], session) && forall j :: k < j < |lines| ==> !IsDispatch(lines[j], session)
  }

  lemma {:induction false} LatestIsLast(lines: seq<Line>, session: string, k: nat)
    requires LastDispatch(lines, session, k)
    ensures LatestNudge(lines, session).dispatch == Some(lines[k].row)
    ensures LatestNudge(lines, session).resolved <==>
              exists j :: k < j < |lines| && Ends(lines[j], session, lines[k].row.id)
  {
    var n := |lines| - 1;
    if k < n {
      assert lines[..n][k] == lines[k];
      LatestIsLast(lines[..n], session, k);
      var before := LatestNudge(lines[..n], session);
      if before.resolved {
        var j :| k < j < n && Ends(lines[..n][j], session, lines[k].row.id);
        assert Ends(lines[j], session, lines[k].row.id);
      } else if Ends(lines[n], session, lines[k].row.id) {
        assert LatestNudge(lines, session).resolved;
      } else {
        forall j | k < j < |lines| ensures !Ends(lines[j], session, lines[k].row.id) {
          if j < n { assert lines[..n][j] == lines[j]; }
        }
      }
    }
  }

  /** The latest dispatch is some line's, and it is the last one. */
  lemma {:induction false} LatestWhere(lines: seq<Line>, session: string) returns (k: nat)
    requires LatestNudge(lines, session).dispatch.Some?
    ensures LastDispatch(lines, session, k)
  {
    var n := |lines| - 1;
    if IsDispatch(lines[n], session) {
      k := n;
    } else {
      k := LatestWhere(lines[..n], session);
      assert lines[..n][k] == lines[k];
      forall j | k < j < |lines| ensures !IsDispatch(lines[j], session) {
        if j < n { assert lines[..n][j] == lines[j]; }
      }
    }
  }

  // ----- judging ---------------------------------------------------------------------------

  predicate Ages(before: Option<real>, after: Option<real>) {
    before.Some? && after.Some? && after.value + 5.0 < before.value
  }

  /** At least one activity metric advanced from `baseline` to `current`. */
  predicate Progressed(baseline: Metrics, current: Metrics) {
    || current.turns > baseline.turns || current.calls > baseline.calls || current.results > baseline.results
    || current.meaningful > baseline.meaningful || current.tokens > baseline.tokens
    || Ages(baseline.progressAge, current.progressAge)
  }

  function Highest(xs: seq<real>): (m: real)
    requires xs != []
    ensures m in xs && forall i :: 0 <= i < |xs| ==> xs[i] <= m
  {
    if |xs| == 1 then xs[0]
    else
      var m := Highest(xs[1..]);
      if xs[0] > m then xs[0] else m
  }

  function Margin(q: Candidate): Option<real> {
    if q.salvage.Some? && q.competitors != [] then Some(q.salvage.value - Highest(q.competitors)) else None
  }

  predicate Confident(q: Candidate) {
    && q.confidence.Some? && q.confidence.value >= MIN_CONFIDENCE
    && (Margin(q).Some? ==> Margin(q).value >= MIN_MARGIN)
  }

  function Reset(s: Control, session: string): Control {
    s.(confirmations := s.confirmations - {session})
  }

  function Confirmed(previous: Option<Confirmation>, digest: string, now: real): Confirmation {
    if previous.None? || previous.value.digest != digest then Confirmation(1, now, digest)
    else if now - previous.value.lastAt >= CONFIRMATION_GAP then Confirmation(previous.value.count + 1, now, digest)
    else previous.value
  }

  function ConfirmationOf(s: Control, session: string): Option<Confirmation> {
    if session in s.confirmations then Some(s.confirmations[session]) else None
  }

  // ----- nudging ---------------------------------------------------------------------------

  predicate NudgeAllowed(s: Control, q: Candidate) {
    && q.role == TaskSession && q.active && q.runtimeSafe && q.metrics.inflightCalls == 0
    && q.metrics.progressAge.Some? && q.metrics.progressAge.value >= NUDGE_MIN_NO_PROGRESS
    && q.scopeAllows && !AttemptIn(LookBack(s.log), q.session) && q.periodic
    && var prior := LatestNudge(LookBack(s.log), q.session).dispatch;
       prior.Some? && prior.value.Dispatch? ==>
           prior.value.digest != q.digest && Progressed(prior.value.baseline, q.metrics)
  }

  function DispatchOf(q: Candidate): Row { Dispatch(q.session, q.dispatchId, q.digest, q.metrics, q.now) }

  /** A nudge still waiting for its effect: the observation to return, or `None` to go on judging. */
  function Observed(s: Control, q: Candidate): (Control, Option<Action>) {
    var latest := LatestNudge(LookBack(s.log), q.session);
    if latest.dispatch.None? || !latest.dispatch.value.Dispatch? || latest.resolved then (s, None)
    else
      var d := latest.dispatch.value;
      if Progressed(d.baseline, q.metrics) then (Written(s, NudgeEnd(q.session, d.id), q.endCut), Some(NudgeRecovered))
      else if q.session in s.nudging || Elapsed(d.at, q.now) < NUDGE_RESTART_HOLD then (s, Some(NudgeInflightObserve))
      else (Written(s, NudgeEnd(q.session, d.id), q.endCut), None)
  }

  function Elapsed(at: real, now: real): real { if now - at > 0.0 then now - at else 0.0 }

  function JudgeNudge(s: Control, q: Candidate): (Control, Action) {
    if !NudgeAllowed(s, q) then (s, NudgeBlocked)
    else if q.session in s.nudging then (s, NudgeInflightObserve)
    else (Written(s, DispatchOf(q), q.dispatchCut).(nudging := s.nudging + {q.session}), NudgeDispatched)
  }

  // ----- salvaging -------------------------------------------------------------------------

  /** Why a SALVAGE decision does not count towards a recovery. */
  function Blocked(s: Control, q: Candidate): Option<Action> {
    if !Confident(q) then Some(SalvageDeferred)
    else if q.role == RecoverySession then Some(GenerationLimit)
    else if q.main then Some(EscalateMain)
    else if !q.runtimeSafe then Some(BlockedNoEvidence)
    else if !q.scopeAllows then Some(BlockedByScope)
    else if AttemptIn(LookBack(s.log), q.session) then Some(AttemptExistsAction)
    else if !q.periodic then Some(EventEvidenceOnly)
    else None
  }

  function JudgeSalvage(s: Control, q: Candidate): (Control, Action) {
    var blocked := Blocked(s, q);
    if blocked.Some? then (Reset(s, q.session), blocked.value)
    else
      var confirmation := Confirmed(ConfirmationOf(s, q.session), q.digest, q.now);
      if confirmation.count < CONFIRMATIONS then
        (s.(confirmations := s.confirmations[q.session := confirmation]), SalvageDeferred)
      else if !q.enabled then (s.(confirmations := s.confirmations[q.session := confirmation]), ReadyObserveOnly)
      else if q.session in s.recovering then (Reset(s, q.session), RecoveryInflight)
      else (Reset(s, q.session).(recovering := s.recovering + {q.session}), RecoveryStarted)
  }

  function Judge(s: Control, q: Candidate): (Control, Action) {
    match q.choice
    case Salvage => JudgeSalvage(s, q)
    case Nudge => JudgeNudge(Reset(s, q.session), q)
    case Dead => (Reset(s, q.session), EscalateMain)
    case Continue => (Reset(s, q.session), ObserveOnly)
    case Watch => (Reset(s, q.session), ObserveOnly)
  }

  predicate Young(q: Candidate) { q.age.Some? && q.age.value < GRACE }

  /** One evaluation of a session. */
  function Evaluate(s: Control, q: Candidate): (Control, Action) {
    if q.role != HandoffSession && q.terminal then (Reset(s, q.session), ObserveOnly)
    else if q.role == HandoffSession || Young(q) || !q.active then
      (Written(Reset(s, q.session), Other, q.recordCut), ObserveOnly)
    else
      var seen := Observed(s, q);
      if seen.1.Some? then (seen.0, seen.1.value)
      else
        var judged := Judge(seen.0, q);
        (Written(judged.0, Other, q.recordCut), judged.1)
  }

  /** The look-back over the last lines, in terms of positions in the whole log. */
  lemma AttemptInLookBack(log: seq<Line>, session: string)
    ensures AttemptIn(LookBack(log), session) <==>
            exists k :: 0 <= k < |log| && |log| - LOOK_BACK <= k && IsAttempt(log[k], session)
  {
    var lines := LookBack(log);
    var base := |log| - |lines|;
    if AttemptIn(lines, session) {
      var k :| 0 <= k < |lines| && IsAttempt(lines[k], session);
      assert IsAttempt(log[base + k], session);
    }
    if k :| 0 <= k < |log| && |log| - LOOK_BACK <= k && IsAttempt(log[k], session) {
      assert IsAttempt(lines[k - base], session);
    }
  }

  /** The row is a trace of an attempt to recover the session. */
  predicate Traces(row: Row, session: string) {
    (row.PhaseRow? || row.OutcomeRow?) && row.source == session
  }

  /** The only trace of an attempt is seen exactly when it was not split and fewer than 2000 lines follow it. */
  lemma TraceIsSeenIff(before: seq<Line>, row: Row, cut: nat, rest: seq<Line>, session: string)
    requires Traces(row, session) && !AttemptIn(before, session) && !AttemptIn(rest, session)
    ensures AttemptIn(LookBack(before + Pieces(row, cut) + rest), session) <==> cut == 0 && |rest| < LOOK_BACK
  {
    var pieces := Pieces(row, cut);
    var log := before + pieces + rest;
    AttemptInLookBack(log, session);
    forall k | 0 <= k < |log| && IsAttempt(log[k], session) ensures cut == 0 && k == |before| {}
    if cut == 0 { assert IsAttempt(log[|before|], session); }
  }
}
