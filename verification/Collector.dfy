/**
 * The AI server collector (app.py): telemetry is refreshed by one thread at a time, guarded by a flag under a lock
 * and an event that the others wait for. Threads interleave between their reads and writes of the shared cache.
 */
module Collector {
  import opened Wrappers

  const MIN_INTERVAL: real := 10.0
  const STALE_AFTER: real := 60.0

  datatype Sample = Sample(collected: int)

  /** `stale` is the reason attached to a sample that is shown although it may be out of date. */
  datatype Answer = Telemetry(sample: Sample, stale: Option<string>) | Trouble(error: string)

  /** A failure time of zero counts as none. */
  datatype Shared = Shared(
    result: Option<Sample>,
    errorPayload: Option<string>,
    lastError: Option<string>,
    lastFailure: real,
    updating: bool,
    done: bool)

  function Age(now: real, s: Sample): real { now - (s.collected as real) }

  predicate BacksOff(s: Shared, now: real) { s.lastFailure != 0.0 && now - s.lastFailure < MIN_INTERVAL }

  function ErrorOf(e: Option<string>): string { if e.Some? && e.value != "" then e.value else "collect_failed" }

  /** What the lock block decides. */
  datatype Decision = Inflight | BackOff(answer: Answer) | Claim

  function BackOffAnswer(s: Shared, cached: Option<Sample>): Answer {
    if cached.Some? then Telemetry(cached.value, Some(ErrorOf(s.lastError)))
    else if s.errorPayload.Some? then Trouble(s.errorPayload.value)
    else Trouble("collect_failed")
  }

  function Decide(s: Shared, now: real, cached: Option<Sample>): (Shared, Decision) {
    if s.updating then (s, Inflight)
    else if BacksOff(s, now) then (s, BackOff(BackOffAnswer(s, cached)))
    else (s.(updating := true, done := false), Claim)
  }

  /** What a caller that finds a refresh under way answers with the sample it read on entry. */
  function InflightAnswer(now: real, cached: Sample): Answer {
    Telemetry(cached, if Age(now, cached) > STALE_AFTER then Some("cache_age") else None)
  }

  function SettledAnswer(s: Shared): Answer {
    if s.result.Some? then Telemetry(s.result.value, None)
    else if s.errorPayload.Some? then Trouble(s.errorPayload.value)
    else Trouble("collect_in_progress")
  }

  /** The remote call: a parsed sample, an error, or an exception that leaves the cache alone. */
  datatype Outcome = Fetched(sample: Sample) | Broken(error: string) | Raised

  /** The cache writes of an outcome, one at a time; `None` when all are done. */
  function WriteAt(s: Shared, now: real, cached: Option<Sample>, o: Outcome, pc: nat): Option<Shared> {
    match o
    case Fetched(sample) =>
      if pc == 0 then Some(s.(result := Some(sample)))
      else if pc == 1 then Some(s.(lastFailure := 0.0))
      else if pc == 2 then Some(s.(errorPayload := None))
      else if pc == 3 then Some(s.(lastError := None))
      else None
    case Broken(error) =>
      if pc == 0 then Some(s.(lastError := Some(ErrorOf(Some(error)))))
      else if pc == 1 then Some(s.(lastFailure := now))
      else if pc == 2 && cached.None? then Some(s.(errorPayload := Some(ErrorOf(Some(error)))))
      else None
    case Raised => None
  }

  function OutcomeAnswer(cached: Option<Sample>, o: Outcome): Answer {
    match o
    case Fetched(sample) => Telemetry(sample, None)
    case Broken(error) => if cached.Some? then Telemetry(cached.value, Some(error)) else Trouble(ErrorOf(Some(error)))
    case Raised => Trouble("exception")
  }

  // ----- what a caller is told, in terms of the cache ---------------------------------------------------

  /** The last recorded failure lies less than ten seconds back. */
  ghost predicate FailedLately(s: Shared, now: real) { s.lastFailure != 0.0 && now - s.lastFailure < 10.0 }

  /** A sample younger than ten seconds answers the call at once. */
  ghost predicate IsYoung(sample: Option<Sample>, now: real) {
    sample.Some? && now - (sample.value.collected as real) < 10.0
  }

  /** A lone caller gets as far as the remote side. */
  ghost predicate Asks(s: Shared, now: real) { !IsYoung(s.result, now) && !FailedLately(s, now) }

  /** A missing or empty text stands for a failure of no particular kind. */
  ghost predicate IsReason(text: string, e: Option<string>) {
    if e == None || e == Some("") then text == "collect_failed" else e == Some(text)
  }

  /** In the back-off the sample read on entry is shown flagged, or else the recorded error. */
  ghost predicate BackOffSays(s: Shared, cached: Option<Sample>, a: Answer) {
    if cached.Some? then
      a.Telemetry? && a.sample == cached.value && a.stale.Some? && IsReason(a.stale.value, s.lastError)
    else a == if s.errorPayload.Some? then Trouble(s.errorPayload.value) else Trouble("collect_failed")
  }

  /**
   * While another thread refreshes, a sample read on entry is shown, flagged once it is older than a minute; a caller
   * without one gets what has been settled when it stops waiting.
   */
  ghost predicate WaiterSays(s: Shared, now: real, cached: Option<Sample>, a: Answer) {
    if cached.Some? then
      && a.Telemetry? && a.sample == cached.value
      && (a.stale == None <==> now - (cached.value.collected as real) <= 60.0)
      && (a.stale != None ==> a.stale == Some("cache_age"))
    else if s.result.Some? then a == Telemetry(s.result.value, None)
    else if s.errorPayload.Some? then a == Trouble(s.errorPayload.value)
    else a == Trouble("collect_in_progress")
  }

  /** What the owner of the refresh answers. */
  ghost predicate OwnerSays(cached: Option<Sample>, o: Outcome, a: Answer) {
    match o
    case Fetched(sample) => a == Telemetry(sample, None)
    case Broken(error) =>
      if cached.Some? then a == Telemetry(cached.value, Some(error)) else a.Trouble? && IsReason(a.error, Some(error))
    case Raised => a == Trouble("exception")
  }

  lemma AnswersSay(s: Shared, now: real, cached: Option<Sample>, o: Outcome)
    ensures BackOffSays(s, cached, BackOffAnswer(s, cached))
    ensures cached.Some? ==> WaiterSays(s, now, cached, InflightAnswer(now, cached.value))
    ensures cached.None? ==> WaiterSays(s, now, cached, SettledAnswer(s))
    ensures OwnerSays(cached, o, OutcomeAnswer(cached, o))
  {
  }

  // ----- the shared cache -----------------------------------------------------------------------

  class Cache {
    var result: Option<Sample>
    var errorPayload: Option<string>
    var lastError: Option<string>
    var lastFailure: real
    var updating: bool
    var done: bool

    function State(): Shared
      reads this
    {
      Shared(result, errorPayload, lastError, lastFailure, updating, done)
    }

    constructor ()
      ensures State() == Shared(None, None, None, 0.0, false, true)
    {
      result, errorPayload, lastError, lastFailure, updating, done := None, None, None, 0.0, false, true;
    }

    /** The block under the lock. */
    method EnterLock(now: real, cached: Option<Sample>) returns (decision: Decision)
      modifies this`updating, this`done
      ensures (State(), decision) == Decide(old(State()), now, cached)
      ensures decision.Inflight? <==> old(updating)
      ensures decision.BackOff? <==> !old(updating) && FailedLately(old(State()), now)
      ensures decision.BackOff? ==> BackOffSays(old(State()), cached, decision.answer)
      ensures State() == if decision.Claim? then old(State()).(updating := true, done := false) else old(State())
    {
      if updating { return Inflight; }
      if lastFailure != 0.0 && now - lastFailure < MIN_INTERVAL {
        if cached.Some? { return BackOff(Telemetry(cached.value, Some(ErrorOf(lastError)))); }
        if errorPayload.Some? { return BackOff(Trouble(errorPayload.value)); }
        return BackOff(Trouble("collect_failed"));
      }
      updating := true;
      done := false;
      decision := Claim;
    }

    /** The answer of a caller that found a refresh under way and has stopped waiting. */
    method Observe(now: real, cached: Option<Sample>) returns (answer: Answer)
      ensures WaiterSays(State(), now, cached, answer)
    {
      if cached.Some? {
        return Telemetry(cached.value, if Age(now, cached.value) > STALE_AFTER then Some("cache_age") else None);
      }
      if result.Some? { return Telemetry(result.value, None); }
      if errorPayload.Some? { return Trouble(errorPayload.value); }
      answer := Trouble("collect_in_progress");
    }

    method Write(now: real, cached: Option<Sample>, o: Outcome, pc: nat) returns (more: bool)
      modifies this`result, this`errorPayload, this`lastError, this`lastFailure
      ensures more == WriteAt(old(State()), now, cached, o, pc).Some?
      ensures State() == if more then WriteAt(old(State()), now, cached, o, pc).value else old(State())
    {
      more := true;
      match o
      case Fetched(sample) =>
        if pc == 0 { result := Some(sample); }
        else if pc == 1 { lastFailure := 0.0; }
        else if pc == 2 { errorPayload := None; }
        else if pc == 3 { lastError := None; }
        else { more := false; }
      case Broken(error) =>
        if pc == 0 { lastError := Some(ErrorOf(Some(error))); }
        else if pc == 1 { lastFailure := now; }
        else if pc == 2 && cached.None? { errorPayload := Some(ErrorOf(Some(error))); }
        else { more := false; }
      case Raised => more := false;
    }

    method Release()
      modifies this`updating
      ensures State() == old(State()).(updating := false)
    {
      updating := false;
    }

    method Signal()
      modifies this`done
      ensures State() == old(State()).(done := true)
    {
      done := true;
    }

    /** A whole call when no other thread interferes; `o` is what the remote side would answer. */
    method Collect(now: real, o: Outcome) returns (answer: Answer)
      requires !updating && done
      modifies this
      ensures !updating && done
      ensures IsYoung(old(result), now) ==> answer == Telemetry(old(result).value, None)
      ensures !IsYoung(old(result), now) && FailedLately(old(State()), now) ==>
                BackOffSays(old(State()), old(result), answer)
      ensures !Asks(old(State()), now) ==> State() == old(State())
      ensures Asks(old(State()), now) ==>
                && OwnerSays(old(result), o, answer)
                && match o
                   case Fetched(sample) => State() == Shared(Some(sample), None, None, 0.0, false, true)
                   case Broken(error) =>
                     && result == old(result) && lastFailure == now
                     && lastError.Some? && IsReason(lastError.value, Some(error))
                     && errorPayload == if result.Some? then old(errorPayload) else lastError
                   case Raised => State() == old(State())
    {
      var cached := result;
      if cached.Some? && Age(now, cached.value) < MIN_INTERVAL { return Telemetry(cached.value, None); }
      var decision := EnterLock(now, cached);
      if decision.BackOff? { return decision.answer; }
      var pc := 0;
      var more := true;
      while more
        invariant updating && !done && pc <= 4
        invariant o.Fetched? ==>
                    && (pc >= 1 ==> result == Some(o.sample)) && (pc >= 2 ==> lastFailure == 0.0)
                    && (pc >= 3 ==> errorPayload == None) && (pc >= 4 ==> lastError == None) && (!more ==> pc == 4)
        invariant o.Broken? ==>
                    && result == old(result) && (pc >= 1 ==> lastError == Some(ErrorOf(Some(o.error))))
                    && (pc >= 2 ==> lastFailure == now) && (pc <= 2 ==> errorPayload == old(errorPayload))
                    && (pc >= 3 ==> pc == 3 && cached.None? && errorPayload == lastError)
                    && (!more ==> pc == if cached.Some? then 2 else 3)
        invariant o.Raised? ==> pc == 0 && State() == old(State()).(updating := true, done := false)
        decreases 5 - pc, more
      {
        more := Write(now, cached, o, pc);
        if more { pc := pc + 1; }
      }
      Release();
      Signal();
      answer := OutcomeAnswer(cached, o);
    }
  }
}
