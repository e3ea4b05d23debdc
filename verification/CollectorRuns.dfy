/** Any number of threads calling the collector, interleaved between every two accesses to the shared cache. */
module CollectorRuns {
  import opened Wrappers
  import opened Collector

  /** Where a thread stands in the call. `entry` marks an answer taken from the sample read on entry. */
  datatype Phase =
    | AtLock(now: real, cached: Option<Sample>)
    | Observing(now: real, cached: Option<Sample>)
    | Refreshing(now: real, cached: Option<Sample>)
    | Writing(now: real, cached: Option<Sample>, outcome: Outcome, pc: nat)
    | Signalling(answer: Answer)
    | Returned(now: real, answer: Answer, entry: bool)

  datatype World = World(shared: Shared, threads: map<nat, Phase>)

  datatype Event =
    | Enters(thread: nat, now: real)
    | Locks(thread: nat)
    | Responds(thread: nat, timedOut: bool)
    | Answers(thread: nat, outcome: Outcome)
    | Writes(thread: nat)
    | Signals(thread: nat)

  predicate Enabled(w: World, e: Event) {
    match e
    case Enters(t, _) => t !in w.threads
    case Locks(t) => t in w.threads && w.threads[t].AtLock?
    case Responds(t, timedOut) =>
      t in w.threads && w.threads[t].Observing? && (w.threads[t].cached.Some? || timedOut || w.shared.done)
    case Answers(t, _) => t in w.threads && w.threads[t].Refreshing?
    case Writes(t) => t in w.threads && w.threads[t].Writing?
    case Signals(t) => t in w.threads && w.threads[t].Signalling?
  }

  function EnterPhase(s: Shared, now: real): Phase {
    if s.result.Some? && Age(now, s.result.value) < MIN_INTERVAL
      then Returned(now, Telemetry(s.result.value, None), true)
    else AtLock(now, s.result)
  }

  function LockPhase(p: Phase, d: Decision): Phase
    requires p.AtLock?
  {
    match d
    case Inflight => Observing(p.now, p.cached)
    case BackOff(answer) => Returned(p.now, answer, true)
    case Claim => Refreshing(p.now, p.cached)
  }

  function RespondPhase(s: Shared, p: Phase): Phase
    requires p.Observing?
  {
    if p.cached.Some? then Returned(p.now, InflightAnswer(p.now, p.cached.value), true)
    else Returned(p.now, SettledAnswer(s), false)
  }

  function Step(w: World, e: Event): World
    requires Enabled(w, e)
  {
    match e
    case Enters(t, now) => w.(threads := w.threads[t := EnterPhase(w.shared, now)])
    case Locks(t) =>
      var (s, d) := Decide(w.shared, w.threads[t].now, w.threads[t].cached);
      World(s, w.threads[t := LockPhase(w.threads[t], d)])
    case Responds(t, _) => w.(threads := w.threads[t := RespondPhase(w.shared, w.threads[t])])
    case Answers(t, outcome) =>
      w.(threads := w.threads[t := Writing(w.threads[t].now, w.threads[t].cached, outcome, 0)])
    case Writes(t) =>
      var p := w.threads[t];
      (match WriteAt(w.shared, p.now, p.cached, p.outcome, p.pc)
       case Some(s) => World(s, w.threads[t := p.(pc := p.pc + 1)])
       case None => World(w.shared.(updating := false), w.threads[t := Signalling(OutcomeAnswer(p.cached, p.outcome))]))
    case Signals(t) =>
      World(w.shared.(done := true), w.threads[t := Returned(0.0, w.threads[t].answer, false)])
  }

  /**
   * `n` comes after `w`; stated over every event equal to `e`, so that a step is worked out only where one is named.
   */
  ghost predicate Follows(w: World, e: Event, n: World) {
    Enabled(w, e) && forall f: Event :: f == e ==> n == Step(w, f)
  }

  function Fresh(): World { World(Shared(None, None, None, 0.0, false, true), map[]) }

  ghost predicate IsRun(past: seq<World>, events: seq<Event>) {
    && |past| == |events| + 1 && past[0] == Fresh()
    && forall i :: 0 <= i < |events| ==> Follows(past[i], events[i], past[i + 1])
  }

  // ----- one step, in terms of the cache -------------------------------------------------------------

  /** The cache after write `pc` of an outcome, or nothing is left to write. */
  ghost predicate WritesAs(s: Shared, n: Shared, now: real, cached: Option<Sample>, o: Outcome, pc: nat) {
    match o
    case Fetched(sample) =>
      n == if pc == 0 then s.(result := Some(sample)) else if pc == 1 then s.(lastFailure := 0.0)
           else if pc == 2 then s.(errorPayload := None) else s.(lastError := None)
    case Broken(error) =>
      exists text :: IsReason(text, Some(error)) &&
        n == if pc == 0 then s.(lastError := Some(text)) else if pc == 1 then s.(lastFailure := now)
             else s.(errorPayload := Some(text))
    case Raised => false
  }

  /** How many writes an outcome takes; an error is recorded as the answer only where there is no sample to show. */
  ghost function WritesOf(cached: Option<Sample>, o: Outcome): nat {
    if o.Fetched? then 4 else if o.Raised? then 0 else if cached.Some? then 2 else 3
  }

  /** Where a step leads the thread that takes it, and what it does to the cache. */
  ghost predicate Moves(s: Shared, n: Shared, p: Phase, q: Phase, e: Event) {
    match e
    case Enters(_, now) =>
      && n == s
      && q == if IsYoung(s.result, now) then Returned(now, Telemetry(s.result.value, None), true)
         else AtLock(now, s.result)
    case Locks(_) =>
      p.AtLock? &&
      if s.updating then n == s && q == Observing(p.now, p.cached)
      else if FailedLately(s, p.now) then
        n == s && q.Returned? && q.entry && q.now == p.now && BackOffSays(s, p.cached, q.answer)
      else n == s.(updating := true, done := false) && q == Refreshing(p.now, p.cached)
    case Responds(_, timedOut) =>
      && p.Observing? && (p.cached.Some? || timedOut || s.done)
      && n == s && q.Returned? && q.entry == p.cached.Some? && q.now == p.now
      && WaiterSays(s, p.now, p.cached, q.answer)
    case Answers(_, o) => p.Refreshing? && n == s && q == Writing(p.now, p.cached, o, 0)
    case Writes(_) =>
      p.Writing? &&
      if p.pc < WritesOf(p.cached, p.outcome) then
        WritesAs(s, n, p.now, p.cached, p.outcome, p.pc) && q == p.(pc := p.pc + 1)
      else n == s.(updating := false) && q.Signalling? && OwnerSays(p.cached, p.outcome, q.answer)
    case Signals(_) => p.Signalling? && n == s.(done := true) && q.Returned? && q.answer == p.answer && !q.entry
  }

  /** Each step takes its thread on in this way and leaves the others where they are. */
  lemma StepMeans(w: World, e: Event, p: Phase)
    requires Enabled(w, e) && (e.thread in w.threads ==> p == w.threads[e.thread])
    requires p.Writing? ==> p.pc <= WritesOf(p.cached, p.outcome)
    ensures var n := Step(w, e);
            && e.thread in n.threads && Moves(w.shared, n.shared, p, n.threads[e.thread], e)
            && n.threads == w.threads[e.thread := n.threads[e.thread]]
  {
    if e.Locks? { AnswersSay(w.shared, p.now, p.cached, Raised); }
    if e.Responds? { AnswersSay(w.shared, p.now, p.cached, Raised); }
    if e.Writes? {
      AnswersSay(w.shared, p.now, p.cached, p.outcome);
      WriteMeans(w.shared, p.now, p.cached, p.outcome, p.pc);
    }
  }

  lemma WriteMeans(s: Shared, now: real, cached: Option<Sample>, o: Outcome, pc: nat)
    requires pc <= WritesOf(cached, o)
    ensures var n := WriteAt(s, now, cached, o, pc);
            if pc < WritesOf(cached, o) then n.Some? && WritesAs(s, n.value, now, cached, o, pc) else n.None?
  {
    if o.Broken? { assert IsReason(ErrorOf(Some(o.error)), Some(o.error)); }
  }

  // ----- single flight -----------------------------------------------------------------------------

  /** Between claiming the refresh and releasing it. */
  predicate Owns(p: Phase) { p.Refreshing? || p.Writing? }

  /** Between claiming the refresh and setting the event. */
  predicate OwesSignal(p: Phase) { Owns(p) || p.Signalling? }

  ghost predicate SingleFlight(w: World) {
    && (forall t :: t in w.threads && Owns(w.threads[t]) ==> w.shared.updating)
    && (forall t, u :: t in w.threads && u in w.threads && Owns(w.threads[t]) && Owns(w.threads[u]) ==> t == u)
    && (w.shared.updating ==> exists t :: t in w.threads && Owns(w.threads[t]))
  }

  /** While the event is clear somebody is going to set it. */
  ghost predicate SomeoneSignals(w: World) {
    !w.shared.done ==> exists t :: t in w.threads && OwesSignal(w.threads[t])
  }

  predicate IsUnflagged(p: Phase) { p.Returned? && p.entry && p.answer.Telemetry? && p.answer.stale.None? }

  /** An answer from the sample read on entry is flagged once it is older than the stale boundary. */
  ghost predicate HonestAge(w: World) {
    forall t :: t in w.threads && IsUnflagged(w.threads[t]) ==>
        Age(w.threads[t].now, w.threads[t].answer.sample) <= STALE_AFTER
  }

  /** A writer has not gone past the writes of its outcome. */
  ghost predicate WriterBound(w: World) {
    forall t :: t in w.threads && w.threads[t].Writing? ==>
      w.threads[t].pc <= WritesOf(w.threads[t].cached, w.threads[t].outcome) <= 4
  }

  ghost predicate Inv(w: World) { SingleFlight(w) && SomeoneSignals(w) && HonestAge(w) && WriterBound(w) }

  lemma WriteKeepsFlags(s: Shared, now: real, cached: Option<Sample>, o: Outcome, pc: nat)
    requires WriteAt(s, now, cached, o, pc).Some?
    ensures WriteAt(s, now, cached, o, pc).value.updating == s.updating
            && WriteAt(s, now, cached, o, pc).value.done == s.done
  {
  }

  lemma StepKeepsSingleFlight(w: World, e: Event, n: World)
    requires Enabled(w, e) && n == Step(w, e) && SingleFlight(w)
    ensures SingleFlight(n)
  {
    var t := e.thread;
    if e.Writes? {
      var p := w.threads[t];
      if WriteAt(w.shared, p.now, p.cached, p.outcome, p.pc).Some? {
        WriteKeepsFlags(w.shared, p.now, p.cached, p.outcome, p.pc);
      }
    }
    if n.shared.updating {
      if w.shared.updating {
        var u :| u in w.threads && Owns(w.threads[u]);
        assert u in n.threads && Owns(n.threads[u]);
      } else {
        assert t in n.threads && Owns(n.threads[t]);
      }
    }
  }

  lemma StepKeepsSignals(w: World, e: Event, n: World)
    requires Enabled(w, e) && n == Step(w, e) && SomeoneSignals(w)
    ensures SomeoneSignals(n)
  {
    if e.Writes? {
      var p := w.threads[e.thread];
      if WriteAt(w.shared, p.now, p.cached, p.outcome, p.pc).Some? {
        WriteKeepsFlags(w.shared, p.now, p.cached, p.outcome, p.pc);
      }
    }
    if !n.shared.done {
      if !w.shared.done {
        var u :| u in w.threads && OwesSignal(w.threads[u]);
        assert u in n.threads && OwesSignal(n.threads[u]);
      } else {
        assert OwesSignal(n.threads[e.thread]);
      }
    }
  }

  lemma StepKeepsAge(w: World, e: Event, n: World)
    requires Enabled(w, e) && n == Step(w, e) && HonestAge(w)
    ensures HonestAge(n)
  {
  }

  lemma StepKeepsBound(w: World, e: Event, n: World)
    requires Enabled(w, e) && n == Step(w, e) && WriterBound(w)
    ensures WriterBound(n)
  {
  }

  /** The invariant holds in every run. */
  lemma {:induction false} RunKeepsInv(past: seq<World>, events: seq<Event>, i: nat)
    requires IsRun(past, events) && i < |past|
    ensures Inv(past[i])
  {
    if i > 0 {
      RunKeepsInv(past, events, i - 1);
      assert Follows(past[i - 1], events[i - 1], past[i]);
      StepKeepsSingleFlight(past[i - 1], events[i - 1], past[i]);
      StepKeepsSignals(past[i - 1], events[i - 1], past[i]);
      StepKeepsAge(past[i - 1], events[i - 1], past[i]);
      StepKeepsBound(past[i - 1], events[i - 1], past[i]);
    }
  }

  /** At most one thread is ever inside the remote refresh. */
  lemma OneRefreshAtATime(past: seq<World>, events: seq<Event>, i: nat, t: nat, u: nat)
    requires IsRun(past, events) && i < |past| && t in past[i].threads && u in past[i].threads
    requires past[i].threads[t].Refreshing? && past[i].threads[u].Refreshing?
    ensures t == u
  {
    RunKeepsInv(past, events, i);
  }

  /** A sample served from the cache read on entry without a flag is at most 60 seconds old. */
  lemma UnflaggedIsRecent(past: seq<World>, events: seq<Event>, i: nat, t: nat)
    requires IsRun(past, events) && i < |past| && t in past[i].threads && IsUnflagged(past[i].threads[t])
    ensures Age(past[i].threads[t].now, past[i].threads[t].answer.sample) <= 60.0
  {
    RunKeepsInv(past, events, i);
  }

  /** How far a thread is from setting the event. */
  function Distance(p: Phase): nat {
    match p
    case Refreshing(_, _) => 7
    case Writing(_, _, _, pc) => if pc <= 4 then 6 - pc else 2
    case Signalling(_) => 1
    case _ => 0
  }

  /**
   * No waiter is left behind: while the event is clear there is a thread whose own next step is enabled whatever the
   * others do, brings it closer to setting the event, and sets it once the distance is used up.
   */
  lemma OwnerGetsThere(past: seq<World>, events: seq<Event>, i: nat) returns (t: nat, e: Event)
    requires IsRun(past, events) && i < |past| && !past[i].shared.done
    ensures t in past[i].threads && 0 < Distance(past[i].threads[t]) <= 7
    ensures e.thread == t && Enabled(past[i], e)
    ensures Distance(Step(past[i], e).threads[t]) < Distance(past[i].threads[t])
    ensures Distance(Step(past[i], e).threads[t]) == 0 ==> Step(past[i], e).shared.done
  {
    RunKeepsInv(past, events, i);
    t :| t in past[i].threads && OwesSignal(past[i].threads[t]);
    match past[i].threads[t]
    case Refreshing(_, _) => e := Answers(t, Raised);
    case Writing(_, _, _, _) => e := Writes(t);
    case Signalling(_) => e := Signals(t);
    case _ => assert false;
  }

  /** Nobody else's step takes that from it. */
  lemma OthersDoNotDelay(w: World, t: nat, e: Event)
    requires Enabled(w, e) && t in w.threads && e.thread != t
    ensures t in Step(w, e).threads && Step(w, e).threads[t] == w.threads[t]
  {
  }

  /** A refresh is claimed only outside the back-off after the last recorded failure. */
  lemma ClaimsRespectBackOff(w: World, e: Event)
    requires Enabled(w, e) && e.Locks? && Step(w, e).threads[e.thread].Refreshing?
    ensures !w.shared.updating
            && (w.shared.lastFailure == 0.0 || w.threads[e.thread].now - w.shared.lastFailure >= MIN_INTERVAL)
  {
  }

  // ----- when the event is set during a refresh -----------------------------------------------------------

  /** Event `i` is the claim of thread `t`, which then owns the refresh up to world `j`. */
  ghost predicate OwnsFrom(past: seq<World>, events: seq<Event>, i: nat, j: nat, t: nat) {
    && i < j <= |events| < |past| && events[i] == Locks(t)
    && forall k :: i < k <= j ==> t in past[k].threads && Owns(past[k].threads[t])
  }

  ghost predicate SignalBetween(events: seq<Event>, i: nat, j: nat)
    requires j <= |events|
  {
    exists k :: i < k < j && events[k].Signals?
  }

  ghost predicate SomeSignaller(w: World) {
    exists u :: u in w.threads && w.threads[u].Signalling?
  }

  /** While the flag is up, only a signal touches the event. */
  lemma StepUnderFlag(w: World, e: Event, n: World)
    requires Follows(w, e, n) && w.shared.updating
    ensures n.shared.done == (w.shared.done || e.Signals?)
  {
    assert n == Step(w, e);
    if e.Writes? {
      var p := w.threads[e.thread];
      if WriteAt(w.shared, p.now, p.cached, p.outcome, p.pc).Some? {
        WriteKeepsFlags(w.shared, p.now, p.cached, p.outcome, p.pc);
      }
    }
  }

  lemma ClaimClears(w: World, t: nat, n: World)
    requires Follows(w, Locks(t), n) && t in n.threads && Owns(n.threads[t])
    ensures !n.shared.done
  {
    assert n == Step(w, Locks(t));
  }

  /** During a refresh the event is set exactly if some thread has signalled since the claim. */
  lemma {:induction false} EventSetIffSignalled(past: seq<World>, events: seq<Event>, i: nat, j: nat, t: nat)
    requires IsRun(past, events) && OwnsFrom(past, events, i, j, t)
    ensures past[j].shared.done <==> SignalBetween(events, i, j)
  {
    assert Follows(past[j - 1], events[j - 1], past[j]);
    if j == i + 1 {
      ClaimClears(past[i], t, past[j]);
    } else {
      EventSetIffSignalled(past, events, i, j - 1, t);
      RunKeepsInv(past, events, j - 1);
      StepUnderFlag(past[j - 1], events[j - 1], past[j]);
    }
  }

  /** No thread comes to owe only the signal while another owns the refresh. */
  lemma SignallersOnlyLeave(w: World, e: Event, n: World, t: nat)
    requires Follows(w, e, n) && SingleFlight(w) && !SomeSignaller(w)
    requires t in w.threads && Owns(w.threads[t]) && t in n.threads && Owns(n.threads[t])
    ensures !SomeSignaller(n) && !e.Signals?
  {
    assert n == Step(w, e);
    assert forall u :: u in w.threads ==> !w.threads[u].Signalling?;
    assert e.Writes? ==> Owns(w.threads[e.thread]) && e.thread == t;
  }

  /** A refresh that starts while nobody owes a signal keeps the event clear to its end. */
  lemma {:induction false} EventStaysClear(past: seq<World>, events: seq<Event>, i: nat, j: nat, t: nat)
    requires IsRun(past, events) && OwnsFrom(past, events, i, j, t) && !SomeSignaller(past[i + 1])
    ensures !past[j].shared.done && !SomeSignaller(past[j])
  {
    assert Follows(past[j - 1], events[j - 1], past[j]);
    if j == i + 1 {
      ClaimClears(past[i], t, past[j]);
    } else {
      EventStaysClear(past, events, i, j - 1, t);
      RunKeepsInv(past, events, j - 1);
      SignallersOnlyLeave(past[j - 1], events[j - 1], past[j], t);
      StepUnderFlag(past[j - 1], events[j - 1], past[j]);
    }
  }

  /**
   * Can the run, whose last event is the claim of `t`, go on so that the event is set while `t` still owns the
   * refresh?
   */
  ghost predicate CanBeSetEarly(past: seq<World>, events: seq<Event>, t: nat)
    requires |events| > 0
  {
    exists more: seq<World>, later: seq<Event> ::
      && IsRun(past + more, events + later)
      && OwnsFrom(past + more, events + later, |events| - 1, |events| + |later|, t)
      && (past + more)[|events| + |later|].shared.done
  }

  /**
   * A waiter can be woken before the refresh has settled anything exactly if some thread still owes a signal at the
   * claim.
   */
  lemma SetEarlyIff(past: seq<World>, events: seq<Event>, t: nat)
    requires IsRun(past, events) && |events| > 0 && OwnsFrom(past, events, |events| - 1, |events|, t)
    ensures CanBeSetEarly(past, events, t) <==> SomeSignaller(past[|events|])
  {
    var last := past[|events|];
    if SomeSignaller(last) {
      var u :| u in last.threads && last.threads[u].Signalling?;
      var e := Signals(u);
      var n := Step(last, e);
      assert Follows(last, e, n);
      RunGoesOn(past, events, e, n);
      assert OwnsFrom(past + [n], events + [e], |events| - 1, |events| + |[e]|, t);
      assert (past + [n])[|events| + |[e]|] == n;
    }
    if CanBeSetEarly(past, events, t) {
      var more: seq<World>, later: seq<Event> :|
        && IsRun(past + more, events + later)
        && OwnsFrom(past + more, events + later, |events| - 1, |events| + |later|, t)
        && (past + more)[|events| + |later|].shared.done;
      assert (past + more)[|events|] == last;
      if !SomeSignaller(last) {
        EventStaysClear(past + more, events + later, |events| - 1, |events| + |later|, t);
      }
    }
  }

  lemma RunGoesOn(past: seq<World>, events: seq<Event>, e: Event, n: World)
    requires IsRun(past, events) && Follows(past[|events|], e, n)
    ensures IsRun(past + [n], events + [e])
  {
    forall i | 0 <= i < |events + [e]|
      ensures Follows((past + [n])[i], (events + [e])[i], (past + [n])[i + 1])
    {
      if i < |events| { assert Follows(past[i], events[i], past[i + 1]); }
    }
  }

  /** That does happen: a thread has released the flag but not yet set the event when the next one claims. */
  lemma EventSetDuringRefresh() returns (past: seq<World>, events: seq<Event>)
    ensures IsRun(past, events)
    ensures var last := past[|past| - 1];
            last.shared.done && exists t :: t in last.threads && last.threads[t].Refreshing?
  {
    var idle := Shared(None, None, None, 0.0, false, true);
    var busy := Shared(None, None, None, 0.0, true, false);
    var freed := Shared(None, None, None, 0.0, false, false);
    var again := Shared(None, None, None, 0.0, true, true);
    var gone := Returned(0.0, Trouble("exception"), false);
    var w0 := Fresh();
    var w1 := World(idle, map[0 := AtLock(0.0, None)]);
    var w2 := World(busy, map[0 := Refreshing(0.0, None)]);
    var w3 := World(busy, map[0 := Writing(0.0, None, Raised, 0)]);
    var w4 := World(freed, map[0 := Signalling(Trouble("exception"))]);
    var w5 := World(freed, map[0 := Signalling(Trouble("exception")), 1 := AtLock(1.0, None)]);
    var w6 := World(busy, map[0 := Signalling(Trouble("exception")), 1 := Refreshing(1.0, None)]);
    var w7 := World(again, map[0 := gone, 1 := Refreshing(1.0, None)]);
    past := [w0, w1, w2, w3, w4, w5, w6, w7];
    events := [Enters(0, 0.0), Locks(0), Answers(0, Raised), Writes(0), Enters(1, 1.0), Locks(1), Signals(0)];
    assert Follows(w0, Enters(0, 0.0), w1);
    assert Follows(w1, Locks(0), w2);
    assert Follows(w2, Answers(0, Raised), w3);
    assert Follows(w3, Writes(0), w4);
    assert Follows(w4, Enters(1, 1.0), w5);
    assert Follows(w5, Locks(1), w6);
    assert Follows(w6, Signals(0), w7);
    assert w7.threads[1].Refreshing?;
  }
}
