/**
 * Runs of the live recovery controller within one process life: evaluations as single steps, interleaved with the
 * recovery and nudge threads they start, which write rows and leave their in-flight set on their own.
 */
module LiveRecoveryRuns {
  import opened Wrappers
  import opened LiveRecovery

  /** `concluded`: the thread has written its outcome, which it does before it leaves. */
  datatype Thread =
    | Recovering(session: string, concluded: bool)
    | Nudging(session: string, id: string, concluded: bool)

  datatype World = World(control: Control, threads: map<nat, Thread>)

  datatype Event =
    | Evaluated(q: Candidate, thread: nat)
    | WritesPhase(thread: nat, phase: Phase, cut: nat)
    | Concludes(thread: nat, cut: nat)
    | Leaves(thread: nat)
    | WritesOther(cut: nat)

  predicate Enabled(w: World, e: Event) {
    match e
    case Evaluated(_, thread) => thread !in w.threads
    case WritesPhase(thread, _, _) =>
      thread in w.threads && w.threads[thread].Recovering? && !w.threads[thread].concluded
    case Concludes(thread, _) => thread in w.threads && !w.threads[thread].concluded
    case Leaves(thread) => thread in w.threads && w.threads[thread].concluded
    case WritesOther(_) => true
  }

  function Started(threads: map<nat, Thread>, thread: nat, q: Candidate, action: Action): map<nat, Thread> {
    if action == RecoveryStarted then threads[thread := Recovering(q.session, false)]
    else if action == NudgeDispatched then threads[thread := Nudging(q.session, q.dispatchId, false)]
    else threads
  }

  function EndOf(t: Thread): Row { if t.Recovering? then OutcomeRow(t.session) else NudgeEnd(t.session, t.id) }

  function Without(control: Control, t: Thread): Control {
    if t.Recovering? then control.(recovering := control.recovering - {t.session})
    else control.(nudging := control.nudging - {t.session})
  }

  function Step(w: World, e: Event): World
    requires Enabled(w, e)
  {
    match e
    case Evaluated(q, thread) =>
      var done := Evaluate(w.control, q);
      World(done.0, Started(w.threads, thread, q, done.1))
    case WritesPhase(thread, phase, cut) =>
      w.(control := Written(w.control, PhaseRow(w.threads[thread].session, phase), cut))
    case Concludes(thread, cut) =>
      World(Written(w.control, EndOf(w.threads[thread]), cut),
            w.threads[thread := w.threads[thread].(concluded := true)])
    case Leaves(thread) => World(Without(w.control, w.threads[thread]), w.threads - {thread})
    case WritesOther(cut) => w.(control := Written(w.control, Other, cut))
  }

  /**
   * `n` comes after `w`; stated over every event equal to `e`, so that a step is worked out only where one is named.
   */
  ghost predicate Follows(w: World, e: Event, n: World) {
    Enabled(w, e) && forall f: Event :: f == e ==> n == Step(w, f)
  }

  /** The log may hold anything when the process starts. */
  ghost predicate IsRun(past: seq<World>, events: seq<Event>) {
    && |past| == |events| + 1
    && past[0].control.recovering == {} && past[0].control.nudging == {} && past[0].control.confirmations == map[]
    && past[0].threads == map[]
    && forall i :: 0 <= i < |events| ==> Follows(past[i], events[i], past[i + 1])
  }

  /**
   * What a thread's own step does: it writes a phase or its outcome under its session's name, a nudge its end under
   * its own id, and only when it leaves is its session no longer in flight.
   */
  ghost predicate ThreadEffect(w: World, e: Event, n: World)
    requires Enabled(w, e) && !e.Evaluated? && !e.WritesOther?
  {
    var t, c := w.threads[e.thread], w.control;
    match e
    case WritesPhase(_, phase, cut) => n == w.(control := c.(log := c.log + Pieces(PhaseRow(t.session, phase), cut)))
    case Concludes(_, cut) =>
      && n.control == c.(log := c.log + Pieces(if t.Recovering? then OutcomeRow(t.session)
                                               else NudgeEnd(t.session, t.id), cut))
      && n.threads == w.threads[e.thread := if t.Recovering? then Recovering(t.session, true)
                                 else Nudging(t.session, t.id, true)]
    case Leaves(_) =>
      && n.threads == w.threads - {e.thread}
      && n.control == if t.Recovering? then c.(recovering := c.recovering - {t.session})
                      else c.(nudging := c.nudging - {t.session})
    case _ => false
  }

  lemma ThreadSteps(w: World, e: Event)
    requires Enabled(w, e) && !e.Evaluated? && !e.WritesOther?
    ensures ThreadEffect(w, e, Step(w, e))
  {
  }

  // ----- single flight -------------------------------------------------------------------------

  ghost predicate Recovers(w: World, session: string) {
    exists t :: t in w.threads && w.threads[t].Recovering? && w.threads[t].session == session
  }

  ghost predicate Nudges(w: World, session: string) {
    exists t :: t in w.threads && w.threads[t].Nudging? && w.threads[t].session == session
  }

  /** Recovery threads and the in-flight set match one to one. */
  ghost predicate OneRecoveryEach(w: World) {
    (forall x :: x in w.control.recovering ==> Recovers(w, x)) && RecoveriesApart(w)
  }

  ghost predicate RecoveriesApart(w: World) {
    && (forall t :: t in w.threads && w.threads[t].Recovering? ==> w.threads[t].session in w.control.recovering)
    && forall t, u :: t in w.threads && u in w.threads && w.threads[t].Recovering? && w.threads[u].Recovering? ==>
         w.threads[t].session == w.threads[u].session ==> t == u
  }

  ghost predicate OneNudgeEach(w: World) {
    (forall x :: x in w.control.nudging ==> Nudges(w, x)) && NudgesApart(w)
  }

  ghost predicate NudgesApart(w: World) {
    && (forall t :: t in w.threads && w.threads[t].Nudging? ==> w.threads[t].session in w.control.nudging)
    && forall t, u :: t in w.threads && u in w.threads && w.threads[t].Nudging? && w.threads[u].Nudging? ==>
         w.threads[t].session == w.threads[u].session ==> t == u
  }

  /** What an evaluation leaves of the state it found. */
  ghost predicate Extends(s: Control, n: Control, q: Candidate, action: Action) {
    && s.log <= n.log
    && n.recovering == (if action == RecoveryStarted then s.recovering + {q.session} else s.recovering)
    && n.nudging == (if action == NudgeDispatched then s.nudging + {q.session} else s.nudging)
    && (action == RecoveryStarted ==> q.session !in s.recovering)
    && (action == NudgeDispatched ==> q.session !in s.nudging)
  }

  lemma ObservedExtends(s: Control, q: Candidate)
    ensures var (n, action) := Observed(s, q);
            && s.log <= n.log && n == s.(log := n.log)
            && (action.Some? ==> action.value in {NudgeRecovered, NudgeInflightObserve})
  {
  }

  lemma SalvageExtends(s: Control, q: Candidate)
    ensures Extends(s, JudgeSalvage(s, q).0, q, JudgeSalvage(s, q).1)
    ensures JudgeSalvage(s, q).0.log == s.log
  {
  }

  lemma NudgeExtends(s: Control, q: Candidate)
    ensures Extends(s, JudgeNudge(s, q).0, q, JudgeNudge(s, q).1)
  {
  }

  lemma JudgeExtends(s: Control, q: Candidate)
    ensures Extends(s, Judge(s, q).0, q, Judge(s, q).1)
  {
    SalvageExtends(s, q);
    NudgeExtends(Reset(s, q.session), q);
  }

  lemma EvaluateExtends(s: Control, q: Candidate, done: (Control, Action))
    requires done == Evaluate(s, q)
    ensures Extends(s, done.0, q, done.1)
  {
    ObservedExtends(s, q);
    JudgeExtends(Observed(s, q).0, q);
  }

  lemma RecoveryStays(w: World, e: Event, n: World, x: string)
    requires Enabled(w, e) && n == Step(w, e) && OneRecoveryEach(w) && x in n.control.recovering
    ensures Recovers(n, x)
  {
    if e.Evaluated? { EvaluateExtends(w.control, e.q, Evaluate(w.control, e.q)); }
    if x in w.control.recovering {
      var t :| t in w.threads && w.threads[t].Recovering? && w.threads[t].session == x;
      assert t in n.threads && n.threads[t].Recovering? && n.threads[t].session == x;
    } else {
      assert e.thread in n.threads && n.threads[e.thread].Recovering?;
    }
  }

  lemma NudgeStays(w: World, e: Event, n: World, x: string)
    requires Enabled(w, e) && n == Step(w, e) && OneNudgeEach(w) && x in n.control.nudging
    ensures Nudges(n, x)
  {
    if e.Evaluated? { EvaluateExtends(w.control, e.q, Evaluate(w.control, e.q)); }
    if x in w.control.nudging {
      var t :| t in w.threads && w.threads[t].Nudging? && w.threads[t].session == x;
      assert t in n.threads && n.threads[t].Nudging? && n.threads[t].session == x;
    } else {
      assert e.thread in n.threads && n.threads[e.thread].Nudging?;
    }
  }

  lemma RecoveriesStayApart(w: World, e: Event, n: World)
    requires Enabled(w, e) && n == Step(w, e) && RecoveriesApart(w)
    ensures RecoveriesApart(n)
  {
    if e.Evaluated? { EvaluateExtends(w.control, e.q, Evaluate(w.control, e.q)); }
  }

  lemma NudgesStayApart(w: World, e: Event, n: World)
    requires Enabled(w, e) && n == Step(w, e) && NudgesApart(w)
    ensures NudgesApart(n)
  {
    if e.Evaluated? { EvaluateExtends(w.control, e.q, Evaluate(w.control, e.q)); }
  }

  lemma StepKeepsSingleFlight(w: World, e: Event, n: World)
    requires Follows(w, e, n) && OneRecoveryEach(w) && OneNudgeEach(w)
    ensures OneRecoveryEach(n) && OneNudgeEach(n)
  {
    RecoveriesStayApart(w, e, n);
    NudgesStayApart(w, e, n);
    forall x | x in n.control.recovering ensures Recovers(n, x) { RecoveryStays(w, e, n, x); }
    forall x | x in n.control.nudging ensures Nudges(n, x) { NudgeStays(w, e, n, x); }
  }

  /** A session never has two recovery threads, nor two nudge threads, at once, and is in flight exactly with one. */
  lemma {:induction false} OneThreadPerSession(past: seq<World>, events: seq<Event>, i: nat)
    requires IsRun(past, events) && i < |past|
    ensures OneRecoveryEach(past[i]) && OneNudgeEach(past[i])
  {
    if i > 0 {
      OneThreadPerSession(past, events, i - 1);
      assert Follows(past[i - 1], events[i - 1], past[i]);
      StepKeepsSingleFlight(past[i - 1], events[i - 1], past[i]);
    }
  }

  // ----- the log only grows ----------------------------------------------------------------------

  lemma StepAppends(w: World, e: Event)
    requires Enabled(w, e)
    ensures w.control.log <= Step(w, e).control.log
  {
    if e.Evaluated? { EvaluateExtends(w.control, e.q, Evaluate(w.control, e.q)); }
  }

  lemma {:induction false} LogGrows(past: seq<World>, events: seq<Event>, j: nat, i: nat)
    requires IsRun(past, events) && j <= i < |past|
    ensures past[j].control.log <= past[i].control.log
    decreases i
  {
    if j < i {
      LogGrows(past, events, j, i - 1);
      assert Follows(past[i - 1], events[i - 1], past[i]);
      StepAppends(past[i - 1], events[i - 1]);
    }
  }

  // ----- recoveries are far apart ------------------------------------------------------------------

  /** The event is an evaluation of the session that starts a recovery. */
  ghost predicate Starts(w: World, e: Event, session: string) {
    e.Evaluated? && e.q.session == session
      && forall q: Candidate :: q == e.q ==> Evaluate(w.control, q).1 == RecoveryStarted
  }

  ghost predicate StartsRecovery(past: seq<World>, events: seq<Event>, i: nat, session: string)
    requires i < |events| && |past| == |events| + 1
  {
    Starts(past[i], events[i], session)
  }

  /** A line left by a recovery's outcome; a `clean` outcome row was written without being split. */
  predicate IsOutcome(l: Line, session: string, clean: bool) {
    l == Readable(OutcomeRow(session)) || (!clean && l == Broken)
  }

  /** The log as it stands when an evaluation looks for earlier attempts. */
  function Consulted(w: World, q: Candidate): seq<Line> { Observed(w.control, q).0.log }

  lemma StartMeansUnattempted(s: Control, q: Candidate)
    requires Evaluate(s, q).1 == RecoveryStarted
    ensures !AttemptIn(LookBack(Observed(s, q).0.log), q.session)
    ensures q.session !in s.recovering
  {
    ObservedExtends(s, q);
    if Observed(s, q).1.None? && q.choice == Nudge { NudgeExtends(Reset(Observed(s, q).0, q.session), q); }
  }

  ghost predicate ConcludedSince(log: seq<Line>, from: nat, session: string, clean: bool) {
    exists k :: from <= k < |log| && IsOutcome(log[k], session, clean)
  }

  lemma ConcludedStays(log: seq<Line>, longer: seq<Line>, from: nat, session: string, clean: bool)
    requires ConcludedSince(log, from, session, clean) && log <= longer
    ensures ConcludedSince(longer, from, session, clean)
  {
    var k :| from <= k < |log| && IsOutcome(log[k], session, clean);
    assert IsOutcome(longer[k], session, clean);
  }

  /** The thread is still at work, or its outcome is in the log. */
  ghost predicate AtWorkOrConcluded(w: World, thread: nat, from: nat, session: string, clean: bool) {
    || (thread in w.threads && w.threads[thread] == Recovering(session, false))
    || ConcludedSince(w.control.log, from, session, clean)
  }

  lemma StepConcludes(w: World, e: Event, thread: nat, from: nat, session: string, clean: bool)
    requires Enabled(w, e) && AtWorkOrConcluded(w, thread, from, session, clean) && from <= |w.control.log|
    requires clean && e.Concludes? && e.thread == thread ==> e.cut == 0
    ensures AtWorkOrConcluded(Step(w, e), thread, from, session, clean)
  {
    StepAppends(w, e);
    var n := Step(w, e);
    if ConcludedSince(w.control.log, from, session, clean) {
      ConcludedStays(w.control.log, n.control.log, from, session, clean);
    } else if e.Concludes? && e.thread == thread {
      assert IsOutcome(n.control.log[|w.control.log|], session, clean);
    }
  }

  lemma StartBegins(w: World, e: Event, session: string)
    requires Enabled(w, e) && Starts(w, e, session)
    ensures e.thread in Step(w, e).threads && Step(w, e).threads[e.thread] == Recovering(session, false)
  {
    assert Evaluate(w.control, e.q).1 == RecoveryStarted;
  }

  /** The thread started at `i` does not split its outcome row before `j`. */
  ghost predicate WritesCleanOutcome(events: seq<Event>, i: nat, j: nat)
    requires i < |events| && events[i].Evaluated?
  {
    forall m :: i <= m < j && m < |events| && events[m].Concludes? && events[m].thread == events[i].thread ==>
        events[m].cut == 0
  }

  lemma {:induction false} RecoveryConcludes(past: seq<World>, events: seq<Event>, i: nat, j: nat, session: string,
                                             clean: bool)
    requires IsRun(past, events) && i < j < |past| && StartsRecovery(past, events, i, session)
    requires clean ==> WritesCleanOutcome(events, i, j)
    ensures AtWorkOrConcluded(past[j], events[i].thread, |past[i].control.log|, session, clean)
    decreases j
  {
    if j > i + 1 {
      RecoveryConcludes(past, events, i, j - 1, session, clean);
      LogGrows(past, events, i, j - 1);
      StillConcludes(past, events, j - 1, events[i].thread, |past[i].control.log|, session, clean);
    } else {
      StartConcludes(past, events, i, session, clean);
    }
  }

  lemma StartConcludes(past: seq<World>, events: seq<Event>, i: nat, session: string, clean: bool)
    requires IsRun(past, events) && i < |events| && StartsRecovery(past, events, i, session)
    ensures AtWorkOrConcluded(past[i + 1], events[i].thread, |past[i].control.log|, session, clean)
  {
    assert Follows(past[i], events[i], past[i + 1]);
    StartBegins(past[i], events[i], session);
  }

  lemma StillConcludes(past: seq<World>, events: seq<Event>, j: nat, thread: nat, from: nat, session: string,
                       clean: bool)
    requires IsRun(past, events) && j < |events| && from <= |past[j].control.log|
    requires clean && events[j].Concludes? && events[j].thread == thread ==> events[j].cut == 0
    requires AtWorkOrConcluded(past[j], thread, from, session, clean)
    ensures AtWorkOrConcluded(past[j + 1], thread, from, session, clean)
  {
    assert Follows(past[j], events[j], past[j + 1]);
    FollowConcludes(past[j], events[j], past[j + 1], thread, from, session, clean);
  }

  lemma FollowConcludes(w: World, e: Event, n: World, thread: nat, from: nat, session: string, clean: bool)
    requires Follows(w, e, n) && AtWorkOrConcluded(w, thread, from, session, clean) && from <= |w.control.log|
    requires clean && e.Concludes? && e.thread == thread ==> e.cut == 0
    ensures AtWorkOrConcluded(n, thread, from, session, clean)
  {
    StepConcludes(w, e, thread, from, session, clean);
  }

  /**
   * Between two recoveries of one session the first has concluded, and when the second starts every phase or outcome
   * row of the session that still parses, so the first outcome too unless its text was split, has at least 2000 lines
   * after it.
   */
  lemma RecoveriesFarApart(past: seq<World>, events: seq<Event>, i: nat, j: nat, session: string, clean: bool)
    requires IsRun(past, events) && i < j < |events|
    requires StartsRecovery(past, events, i, session) && StartsRecovery(past, events, j, session)
    requires clean ==> WritesCleanOutcome(events, i, j)
    ensures ConcludedSince(past[j].control.log, |past[i].control.log|, session, clean)
    ensures past[j].control.log <= Consulted(past[j], events[j].q)
    ensures var log := Consulted(past[j], events[j].q);
            forall k :: 0 <= k < |log| && IsAttempt(log[k], session) ==> |log| - 1 - k >= LOOK_BACK
  {
    RecoveryConcludes(past, events, i, j, session, clean);
    OneThreadPerSession(past, events, j);
    assert Starts(past[j], events[j], session);
    StartMeansUnattempted(past[j].control, events[j].q);
    ObservedExtends(past[j].control, events[j].q);
    AttemptInLookBack(Consulted(past[j], events[j].q), session);
  }

  // ----- nudges ------------------------------------------------------------------------------------

  /** Line `j` is the session's next dispatch after line `k`, which the evaluation that sent it could still see. */
  ghost predicate NextDispatch(log: seq<Line>, session: string, k: nat, j: nat) {
    && k < j < |log| && IsDispatch(log[k], session) && IsDispatch(log[j], session)
    && (forall m :: k < m < j ==> !IsDispatch(log[m], session))
    && j - k <= LOOK_BACK
  }

  /** The second nudge is for another state, after progress, and the first has been resolved. */
  ghost predicate WellSpaced(log: seq<Line>, session: string, k: nat, j: nat)
    requires k < j < |log| && IsDispatch(log[k], session) && IsDispatch(log[j], session)
  {
    && log[j].row.digest != log[k].row.digest
    && Progressed(log[k].row.baseline, log[j].row.baseline)
    && exists m :: k < m < j && Ends(log[m], session, log[k].row.id)
  }

  ghost predicate NudgesSpaced(log: seq<Line>, base: nat) {
    forall session, k, j :: base <= j && NextDispatch(log, session, k, j) ==> WellSpaced(log, session, k, j)
  }

  /** What holds of two lines of a log does not depend on what comes later. */
  lemma SpacedInLonger(log: seq<Line>, longer: seq<Line>, base: nat, session: string, k: nat, j: nat)
    requires NudgesSpaced(log, base) && log <= longer && base <= j < |log| && NextDispatch(longer, session, k, j)
    ensures WellSpaced(longer, session, k, j)
  {
    forall m | k < m < j ensures !IsDispatch(log[m], session) { assert longer[m] == log[m]; }
    assert NextDispatch(log, session, k, j);
    var m :| k < m < j && Ends(log[m], session, log[k].row.id);
    assert Ends(longer[m], session, longer[k].row.id);
  }

  /** Lines without a dispatch keep the property. */
  lemma SpacedWithout(log: seq<Line>, more: seq<Line>, base: nat)
    requires NudgesSpaced(log, base) && forall m :: 0 <= m < |more| ==> more[m].Broken? || !more[m].row.Dispatch?
    ensures NudgesSpaced(log + more, base)
  {
    var after := log + more;
    forall session, k: nat, j: nat | base <= j && NextDispatch(after, session, k, j)
      ensures WellSpaced(after, session, k, j)
    {
      SpacedInLonger(log, after, base, session, k, j);
    }
  }

  /** In the look-back the last dispatch of the log is the last one, as long as it is reached. */
  lemma LastInLookBack(log: seq<Line>, session: string, k: nat)
    requires LastDispatch(log, session, k) && |log| - k <= LOOK_BACK
    ensures LatestNudge(LookBack(log), session).dispatch == Some(log[k].row)
    ensures LatestNudge(LookBack(log), session).resolved <==>
              exists j :: k < j < |log| && Ends(log[j], session, log[k].row.id)
  {
    var lines := LookBack(log);
    var base := |log| - |lines|;
    LastInTail(log, lines, base, session, k);
    LatestIsLast(lines, session, k - base);
  }

  lemma LastInTail(log: seq<Line>, lines: seq<Line>, base: nat, session: string, k: nat)
    requires LastDispatch(log, session, k) && base <= k && lines == log[base..]
    ensures LastDispatch(lines, session, k - base)
    ensures (exists j :: k - base < j < |lines| && Ends(lines[j], session, log[k].row.id)) <==>
            exists j :: k < j < |log| && Ends(log[j], session, log[k].row.id)
  {
    if j :| k < j < |log| && Ends(log[j], session, log[k].row.id) {
      assert Ends(lines[j - base], session, log[k].row.id);
    }
    if j :| k - base < j < |lines| && Ends(lines[j], session, log[k].row.id) {
      assert Ends(log[base + j], session, log[k].row.id);
    }
  }

  /** The pending observation leaves no dispatch that is unresolved and shows progress. */
  lemma ObservedOrResolved(s: Control, q: Candidate, k: nat)
    requires Observed(s, q).1.None?
    requires var log := Observed(s, q).0.log;
             LastDispatch(log, q.session, k) && |log| - k <= LOOK_BACK && Progressed(log[k].row.baseline, q.metrics)
    ensures exists j :: k < j < |s.log| && Ends(s.log[j], q.session, s.log[k].row.id)
    ensures Observed(s, q).0 == s
  {
    var log := Observed(s, q).0.log;
    assert LastDispatch(s.log, q.session, k) by {
      forall j | k < j < |s.log| ensures !IsDispatch(s.log[j], q.session) { assert log[j] == s.log[j]; }
      assert s.log <= log;
      assert forall m :: |s.log| <= m < |log| ==> !IsDispatch(log[m], q.session);
    }
    assert |s.log| <= |log|;
    LastInLookBack(s.log, q.session, k);
  }

  lemma DispatchSpaced(s: Control, q: Candidate, base: nat)
    requires NudgesSpaced(Observed(s, q).0.log, base) && Observed(s, q).1.None?
    requires NudgeAllowed(Reset(Observed(s, q).0, q.session), q)
    ensures NudgesSpaced(Observed(s, q).0.log + [Readable(DispatchOf(q))], base)
  {
    var log := Observed(s, q).0.log;
    var after := log + [Readable(DispatchOf(q))];
    forall session, k: nat, j: nat | base <= j && NextDispatch(after, session, k, j)
      ensures WellSpaced(after, session, k, j)
    {
      if j < |log| {
        SpacedInLonger(log, after, base, session, k, j);
      } else {
        assert session == q.session;
        assert LastDispatch(log, session, k) by {
          forall m | k < m < |log| ensures !IsDispatch(log[m], session) { assert after[m] == log[m]; }
        }
        LastInLookBack(log, session, k);
        ObservedOrResolved(s, q, k);
        var m :| k < m < |s.log| && Ends(s.log[m], session, s.log[k].row.id);
        assert Ends(after[m], session, after[k].row.id);
      }
    }
  }

  lemma PiecesOther(row: Row, cut: nat)
    requires !row.Dispatch? || cut > 0
    ensures forall m :: 0 <= m < |Pieces(row, cut)| ==>
              Pieces(row, cut)[m].Broken? || !Pieces(row, cut)[m].row.Dispatch?
  {
  }

  lemma WrittenSpaced(s: Control, row: Row, cut: nat, base: nat)
    requires NudgesSpaced(s.log, base) && (!row.Dispatch? || cut > 0)
    ensures NudgesSpaced(Written(s, row, cut).log, base)
  {
    PiecesOther(row, cut);
    SpacedWithout(s.log, Pieces(row, cut), base);
  }

  lemma ObservedSpaced(s: Control, q: Candidate, base: nat)
    requires NudgesSpaced(s.log, base)
    ensures NudgesSpaced(Observed(s, q).0.log, base)
  {
    var latest := LatestNudge(LookBack(s.log), q.session);
    if latest.dispatch.Some? && latest.dispatch.value.Dispatch? {
      WrittenSpaced(s, NudgeEnd(q.session, latest.dispatch.value.id), q.endCut, base);
    }
  }

  lemma JudgeSpaced(s: Control, q: Candidate, base: nat)
    requires NudgesSpaced(s.log, base) && Observed(s, q).1.None?
    ensures NudgesSpaced(Judge(Observed(s, q).0, q).0.log, base)
  {
    var seen := Observed(s, q).0;
    ObservedSpaced(s, q, base);
    if q.choice == Salvage {
      SalvageExtends(seen, q);
    } else if q.choice == Nudge && NudgeAllowed(Reset(seen, q.session), q) && q.session !in seen.nudging {
      if q.dispatchCut == 0 {
        DispatchSpaced(s, q, base);
      } else {
        WrittenSpaced(Reset(seen, q.session), DispatchOf(q), q.dispatchCut, base);
      }
    }
  }

  lemma EvaluateSpaced(s: Control, q: Candidate, n: Control, base: nat)
    requires NudgesSpaced(s.log, base) && n == Evaluate(s, q).0
    ensures NudgesSpaced(n.log, base)
  {
    WrittenSpaced(Reset(s, q.session), Other, q.recordCut, base);
    ObservedSpaced(s, q, base);
    if Observed(s, q).1.None? {
      JudgeSpaced(s, q, base);
      WrittenSpaced(Judge(Observed(s, q).0, q).0, Other, q.recordCut, base);
    }
  }

  lemma StepSpaced(w: World, e: Event, n: World, base: nat)
    requires Enabled(w, e) && NudgesSpaced(w.control.log, base) && n == Step(w, e)
    ensures NudgesSpaced(n.control.log, base)
  {
    match e
    case Evaluated(q, _) => EvaluateSpaced(w.control, q, n.control, base);
    case WritesPhase(thread, phase, cut) =>
      WrittenSpaced(w.control, PhaseRow(w.threads[thread].session, phase), cut, base);
    case Concludes(thread, cut) => WrittenSpaced(w.control, EndOf(w.threads[thread]), cut, base);
    case Leaves(_) =>
    case WritesOther(cut) => WrittenSpaced(w.control, Other, cut, base);
  }

  /**
   * Of any two nudges in a row to one session, the second sent in this process life with the first still in its
   * look-back: they are for different states, the first was resolved in between, and some metric had advanced.
   */
  lemma {:induction false} NudgesWellSpaced(past: seq<World>, events: seq<Event>, i: nat)
    requires IsRun(past, events) && i < |past|
    ensures NudgesSpaced(past[i].control.log, |past[0].control.log|)
  {
    if i > 0 {
      NudgesWellSpaced(past, events, i - 1);
      assert Follows(past[i - 1], events[i - 1], past[i]);
      StepSpaced(past[i - 1], events[i - 1], past[i], |past[0].control.log|);
    }
  }

  // ----- confirmations -------------------------------------------------------------------------------

  /** The evaluation gets as far as asking the judge. */
  predicate Asks(s: Control, q: Candidate) {
    q.role != HandoffSession && !q.terminal && !Young(q) && q.active && Observed(s, q).1.None?
  }

  /** A confident SALVAGE on `digest` that no other check blocks. */
  predicate Confirms(s: Control, q: Candidate, digest: string) {
    Asks(s, q) && q.choice == Salvage && q.digest == digest && Blocked(Observed(s, q).0, q).None?
  }

  /** What a step decides about a session. */
  datatype Verdict = Silent | Confirming(digest: string, now: real) | Deciding

  function VerdictOf(w: World, e: Event, session: string): Verdict {
    if !e.Evaluated? || e.q.session != session || !Asks(w.control, e.q) then Silent
    else if Confirms(w.control, e.q, e.q.digest) then Confirming(e.q.digest, e.q.now)
    else Deciding
  }

  ghost predicate VerdictsAre(past: seq<World>, events: seq<Event>, session: string, vs: seq<Verdict>) {
    |past| == |events| + 1 && |vs| == |events| && forall m :: 0 <= m < |vs| ==>
        vs[m] == VerdictOf(past[m], events[m], session)
  }

  predicate SilentOr(v: Verdict, digest: string) { v.Silent? || (v.Confirming? && v.digest == digest) }

  /** The record `c` stems from the confirmations `i` to `k`, with nothing else decided before `j`. */
  ghost predicate Recorded(vs: seq<Verdict>, i: nat, k: nat, j: nat, c: Confirmation) {
    && i <= k < j <= |vs| && 1 <= c.count
    && vs[i].Confirming? && vs[k] == Confirming(c.digest, c.lastAt)
    && c.lastAt - vs[i].now >= CONFIRMATION_GAP * ((c.count - 1) as real)
    && (c.count == 1 ==> i == k)
    && forall m :: i <= m < j ==> SilentOr(vs[m], c.digest)
  }

  lemma JudgeConfirmations(s: Control, q: Candidate, n: Control)
    requires n == Judge(s, q).0
    ensures forall session :: session != q.session ==> ConfirmationOf(n, session) == ConfirmationOf(s, session)
    ensures ConfirmationOf(n, q.session).Some? ==>
              && q.choice == Salvage && Blocked(s, q).None?
              && ConfirmationOf(n, q.session).value == Confirmed(ConfirmationOf(s, q.session), q.digest, q.now)
  {
  }

  lemma EvaluateConfirmations(s: Control, q: Candidate, n: Control)
    requires n == Evaluate(s, q).0
    ensures forall session :: session != q.session ==> ConfirmationOf(n, session) == ConfirmationOf(s, session)
    ensures ConfirmationOf(n, q.session).Some? ==>
              if Asks(s, q)
              then Confirms(s, q, q.digest)
                && ConfirmationOf(n, q.session).value == Confirmed(ConfirmationOf(s, q.session), q.digest, q.now)
              else ConfirmationOf(n, q.session) == ConfirmationOf(s, q.session)
  {
    ObservedExtends(s, q);
    JudgeConfirmations(Observed(s, q).0, q, Judge(Observed(s, q).0, q).0);
  }

  /** A recorded span grows by a whole gap with every counted confirmation. */
  lemma SpanGrows(c: Confirmation, digest: string, now: real, first: real)
    requires 1 <= c.count && c.digest == digest && c.lastAt - first >= CONFIRMATION_GAP * ((c.count - 1) as real)
    ensures var n := Confirmed(Some(c), digest, now);
            && 1 <= n.count && n.digest == digest && n.lastAt - first >= CONFIRMATION_GAP * ((n.count - 1) as real)
            && (n == c || n.lastAt == now)
  {
    assert CONFIRMATION_GAP * (c.count as real) == CONFIRMATION_GAP * ((c.count - 1) as real) + CONFIRMATION_GAP;
  }

  /** One more confirmation extends the record, or starts a new one. */
  lemma ConfirmingRecords(vs: seq<Verdict>, i: nat, k: nat, j: nat, c: Confirmation) returns (i': nat, k': nat)
    requires j < |vs| && Recorded(vs, i, k, j, c) && vs[j].Confirming?
    ensures Recorded(vs, i', k', j + 1, Confirmed(Some(c), vs[j].digest, vs[j].now))
  {
    var n := Confirmed(Some(c), vs[j].digest, vs[j].now);
    if c.digest != vs[j].digest {
      i', k' := j, j;
    } else {
      SpanGrows(c, c.digest, vs[j].now, vs[i].now);
      i', k' := i, if n == c then k else j;
    }
  }

  lemma StepConfirmations(w: World, e: Event, n: World, session: string)
    requires Enabled(w, e) && n == Step(w, e)
    requires ConfirmationOf(n.control, session).Some?
    ensures var v := VerdictOf(w, e, session);
            && !v.Deciding?
            && ConfirmationOf(n.control, session) ==
               if v.Confirming? then Some(Confirmed(ConfirmationOf(w.control, session), v.digest, v.now))
               else ConfirmationOf(w.control, session)
  {
    if e.Evaluated? { EvaluateConfirmations(w.control, e.q, n.control); }
  }

  /** A record before and after a step with verdict `v`. */
  ghost predicate Follow(before: Option<Confirmation>, v: Verdict, after: Option<Confirmation>) {
    after.Some? ==>
      && !v.Deciding?
      && after == if v.Confirming? then Some(Confirmed(before, v.digest, v.now)) else before
  }

  lemma {:induction false} RecordsSpan(vs: seq<Verdict>, cs: seq<Option<Confirmation>>, j: nat) returns (i: nat, k: nat)
    requires |cs| == |vs| + 1 && cs[0].None? && forall m :: 0 <= m < |vs| ==> Follow(cs[m], vs[m], cs[m + 1])
    requires j < |cs| && cs[j].Some?
    ensures Recorded(vs, i, k, j, cs[j].value)
  {
    assert Follow(cs[j - 1], vs[j - 1], cs[j]);
    if cs[j - 1].Some? {
      i, k := RecordsSpan(vs, cs, j - 1);
      if vs[j - 1].Confirming? { i, k := ConfirmingRecords(vs, i, k, j - 1, cs[j - 1].value); }
    } else {
      i, k := j - 1, j - 1;
    }
  }

  /** A recorded count of n confirmations on one digest spans at least 45 * (n - 1) seconds. */
  lemma ConfirmationsSpan(past: seq<World>, events: seq<Event>, vs: seq<Verdict>, j: nat, session: string)
    returns (i: nat, k: nat)
    requires IsRun(past, events) && VerdictsAre(past, events, session, vs)
    requires j < |past| && ConfirmationOf(past[j].control, session).Some?
    ensures Recorded(vs, i, k, j, ConfirmationOf(past[j].control, session).value)
  {
    var cs := seq(|past|, m requires 0 <= m < |past| => ConfirmationOf(past[m].control, session));
    forall m | 0 <= m < |vs| ensures Follow(cs[m], vs[m], cs[m + 1]) {
      assert Follows(past[m], events[m], past[m + 1]);
      if cs[m + 1].Some? { StepConfirmations(past[m], events[m], past[m + 1], session); }
    }
    i, k := RecordsSpan(vs, cs, j);
  }

  lemma StartConfirms(s: Control, q: Candidate)
    requires Evaluate(s, q).1 == RecoveryStarted
    ensures Confirms(s, q, q.digest)
    ensures ConfirmationOf(s, q.session).Some?
    ensures Confirmed(ConfirmationOf(s, q.session), q.digest, q.now).count >= CONFIRMATIONS
  {
    ObservedExtends(s, q);
    if Observed(s, q).1.None? && q.choice == Nudge { NudgeExtends(Reset(Observed(s, q).0, q.session), q); }
  }

  /**
   * A recovery starts only on two confident SALVAGE decisions about the same stable digest, at least 45 seconds apart,
   * with nothing else decided about the session from the first of them on.
   */
  lemma StartsAfterSpacedConfirmations(past: seq<World>, events: seq<Event>, vs: seq<Verdict>, j: nat, session: string)
    returns (i: nat, k: nat)
    requires IsRun(past, events) && VerdictsAre(past, events, session, vs)
    requires j < |events| && StartsRecovery(past, events, j, session)
    ensures i < k <= j && vs[i].Confirming? && vs[k].Confirming? && vs[k].now - vs[i].now >= CONFIRMATION_GAP
    ensures forall m :: i <= m <= j ==> SilentOr(vs[m], events[j].q.digest)
  {
    assert Starts(past[j], events[j], session);
    StartConfirms(past[j].control, events[j].q);
    i, k := ConfirmationsSpan(past, events, vs, j, session);
    i, k := ConfirmingRecords(vs, i, k, j, ConfirmationOf(past[j].control, session).value);
    assert CONFIRMATION_GAP * 1.0 == CONFIRMATION_GAP;
  }

  // ----- a split outcome row ---------------------------------------------------------------------------

  function Quiet(): Metrics { Metrics(0, 0, 0, 0, 0, None, 0) }

  function SalvageAt(now: real): Candidate {
    Candidate("s", TaskSession, false, false, None, true, true, true, true, true, Quiet(), "d", now, "", Salvage,
              Some(0.9), None, [],
              0, 0, 0)
  }

  /** A log in which nothing concerns the session. */
  ghost predicate Idle(log: seq<Line>) {
    forall k :: 0 <= k < |log| ==> log[k] == Broken || log[k] == Readable(Other)
  }

  lemma {:induction false} IdleShowsNothing(log: seq<Line>)
    requires Idle(log)
    ensures !AttemptIn(log, "s") && LatestNudge(log, "s") == Latest(None, false)
  {
    if log != [] { IdleShowsNothing(log[..|log| - 1]); }
  }

  /** The state between the steps of the run below. */
  ghost predicate Between(w: World, c: Option<Confirmation>, recovering: set<string>, threads: map<nat, Thread>) {
    && Idle(w.control.log) && |w.control.log| <= 10
    && w.control.recovering == recovering && w.control.nudging == {}
    && w.control.confirmations == (if c.Some? then map["s" := c.value] else map[])
    && w.threads == threads
  }

  lemma DecideSalvage(w: World, now: real) returns (e: Event, n: World)
    requires w.control.confirmations == map[] || exists c :: w.control.confirmations == map["s" := c]
    requires Between(w, ConfirmationOf(w.control, "s"), {}, map[])
    ensures e == Evaluated(SalvageAt(now), 0) && Follows(w, e, n) && |n.control.log| == |w.control.log| + 1
    ensures var c := Confirmed(ConfirmationOf(w.control, "s"), "d", now);
            |w.control.log| < 10 ==>
              if c.count < 2 then Between(n, Some(c), {}, map[])
              else Between(n, None, {"s"}, map[0 := Recovering("s", false)]) && Starts(w, e, "s")
  {
    e := Evaluated(SalvageAt(now), 0);
    n := Step(w, e);
    IdleShowsNothing(w.control.log);
    assert LookBack(w.control.log) == w.control.log;
    assert {} + {"s"} == {"s"};
  }

  lemma DecideTwice(w: World, first: real, second: real) returns (e: Event, m: World, f: Event, n: World)
    requires Between(w, None, {}, map[]) && |w.control.log| <= 8 && second - first >= CONFIRMATION_GAP
    ensures Follows(w, e, m) && Follows(m, f, n) && Starts(m, f, "s")
    ensures Between(n, None, {"s"}, map[0 := Recovering("s", false)])
    ensures |m.control.log| == |w.control.log| + 1 && |n.control.log| == |w.control.log| + 2
  {
    e, m := DecideSalvage(w, first);
    f, n := DecideSalvage(m, second);
  }

  /** The thread's outcome row is split in two, then the thread leaves. */
  lemma ConcludeSplit(w: World) returns (m: World, n: World)
    requires Between(w, None, {"s"}, map[0 := Recovering("s", false)]) && |w.control.log| <= 8
    ensures Follows(w, Concludes(0, 1), m) && Follows(m, Leaves(0), n)
    ensures Between(n, None, {}, map[]) && |n.control.log| == |w.control.log| + 2
  {
    m := Step(w, Concludes(0, 1));
    n := Step(m, Leaves(0));
  }

  /**
   * When the text of the only row a recovery leaves is split, the recovery leaves no trace: here the session's second
   * recovery starts with seven lines in the log.
   */
  lemma SplitOutcomeIsForgotten() returns (past: seq<World>, events: seq<Event>)
    ensures IsRun(past, events) && |events| == 6
    ensures StartsRecovery(past, events, 1, "s") && StartsRecovery(past, events, 5, "s")
    ensures |past[5].control.log| < LOOK_BACK
  {
    var w0 := World(Control([], {}, {}, map[]), map[]);
    var e0, w1, e1, w2 := DecideTwice(w0, 0.0, 45.0);
    var w3, w4 := ConcludeSplit(w2);
    var e4, w5, e5, w6 := DecideTwice(w4, 90.0, 135.0);
    past := [w0, w1, w2, w3, w4, w5, w6];
    events := [e0, e1, Concludes(0, 1), Leaves(0), e4, e5];
    SixSteps(past, events);
  }

  lemma SixSteps(past: seq<World>, events: seq<Event>)
    requires |past| == 7 && |events| == 6 && past[0] == World(Control([], {}, {}, map[]), map[])
    requires Follows(past[0], events[0], past[1]) && Follows(past[1], events[1], past[2])
    requires Follows(past[2], events[2], past[3]) && Follows(past[3], events[3], past[4])
    requires Follows(past[4], events[4], past[5]) && Follows(past[5], events[5], past[6])
    ensures IsRun(past, events)
  {
    forall i | 0 <= i < |events| ensures Follows(past[i], events[i], past[i + 1]) {
      if i == 0 {} else if i == 1 {} else if i == 2 {} else if i == 3 {} else if i == 4 {} else {}
    }
  }
}
