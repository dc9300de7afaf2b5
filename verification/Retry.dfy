/** Bounded retry: the decision, the duplicate-safety gate, the loop, and the pipeline's one-step form. */
module Retry {
  import opened Failures
  import opened Backoff

  datatype Policy = Policy(
    enabled: bool, maxAttempts: int,
    initial: Duration, cap: Duration, multiplier: real,
    jitter: bool, jitterFraction: real,
    minRemaining: Duration, kinds: seq<Kind>)

  function ShapeOf(p: Policy): Shape {
    Shape(p.initial, p.cap, p.multiplier, p.jitter, p.jitterFraction)
  }

  /** Defaults fill in whatever an enabled policy leaves unset. */
  function Normalize(p: Policy): (r: Policy)
    ensures r.enabled == p.enabled
    ensures r.enabled ==> r.maxAttempts >= 1 && r.initial > 0 && r.cap > 0 && r.multiplier > 0.0
    ensures r.enabled ==> r.jitterFraction > 0.0 && r.minRemaining > 0
    ensures p.maxAttempts >= 1 ==> r.maxAttempts == p.maxAttempts
    ensures !p.enabled ==> r == p
  {
    if !p.enabled then p
    else
      var initial := if p.initial <= 0 then 10 * MILLISECOND else p.initial;
      p.(maxAttempts := if p.maxAttempts <= 0 then 3 else p.maxAttempts,
         initial := initial,
         cap := if p.cap <= 0 then 250 * MILLISECOND else p.cap,
         multiplier := if p.multiplier <= 0.0 then 2.0 else p.multiplier,
         jitterFraction := if p.jitterFraction <= 0.0 then 0.2 else p.jitterFraction,
         jitter := p.jitter || p.jitterFraction <= 0.0,
         minRemaining := if p.minRemaining <= 0 then initial else p.minRemaining)
  }

  // ---- The decision ----------------------------------------------------------------------------

  datatype Budget = Unlimited | Until(deadline: int)

  datatype Reason =
    | Disabled
    | RetryableFailure
    | PermanentFailure
    | MaxAttempts
    | ContextCancelled
    | DeadlinePassed
    | BudgetTooSmall

  datatype Decision = Decision(retry: bool, reason: Reason, delay: int)

  predicate Worthwhile(p: Policy, f: Failure) {
    if f.kind == NoFailure then false
    else if p.kinds != [] then f.kind in p.kinds
    else f.kind == Retryable || (f.kind.Custom? && f.retryable)
  }

  /** What the world holds at the moment of a decision: the time, the jitter offset drawn, and what the
      platform makes of a number that does not fit a duration. */
  datatype Moment = Moment(now: int, offset: real, spill: Duration)

  function Decide(p: Policy, cancelled: bool, attempt: int, f: Failure, budget: Budget, at: Moment): Decision {
    if !p.enabled then Decision(false, Disabled, 0)
    else if cancelled then Decision(false, ContextCancelled, 0)
    else if attempt >= p.maxAttempts then Decision(false, MaxAttempts, 0)
    else if !Worthwhile(p, f) then Decision(false, PermanentFailure, 0)
    else if budget.Until? && at.now >= budget.deadline then Decision(false, DeadlinePassed, 0)
    else
      var delay := Delay(ShapeOf(p), attempt, at.offset, at.spill);
      if budget.Until? && budget.deadline - at.now < delay + p.minRemaining
      then Decision(false, BudgetTooSmall, delay)
      else Decision(true, RetryableFailure, delay)
  }

  // ---- Duplicate safety ------------------------------------------------------------------------

  datatype Safety = Unspecified | Safe | Unsafe | RequiresCheck | Unrecognised(name: string)

  datatype SafetyReason =
    | NoSafetyReason
    | IsSafe
    | IsUnsafe
    | MissingKey
    | HookAllowed
    | HookRejected
    | HookFailed
    | NoHook
    | ExplicitOverride
    | OtherReason(text: string)

  /** What the application's hook does when asked. */
  datatype Hook = Absent | Panics | Says(allow: bool, reason: SafetyReason)

  datatype Job = Job(hasKey: bool, safety: Safety, allowUnsafe: bool, requireKey: bool)

  datatype Ruling = Ruling(allow: bool, reason: SafetyReason)

  function HookRuling(allow: bool, reason: SafetyReason): Ruling {
    if allow && (reason == IsUnsafe || reason == NoSafetyReason) then Ruling(true, HookAllowed)
    else if !allow && (reason == IsSafe || reason == NoSafetyReason) then Ruling(false, HookRejected)
    else Ruling(allow, reason)
  }

  function Rule(p: Policy, job: Job, hook: Hook): Ruling {
    if !p.enabled then Ruling(true, IsSafe)
    else if job.safety == Unsafe && job.allowUnsafe then Ruling(true, ExplicitOverride)
    else if job.requireKey && !job.hasKey then Ruling(false, MissingKey)
    else
      match job.safety
      case Safe => Ruling(true, IsSafe)
      case Unsafe => Ruling(false, IsUnsafe)
      case RequiresCheck =>
        (match hook
         case Absent => Ruling(false, NoHook)
         case Panics => Ruling(false, HookFailed)
         case Says(allow, reason) => HookRuling(allow, reason))
      case Unspecified => Ruling(false, IsUnsafe)
      case Unrecognised(_) => Ruling(false, IsUnsafe)
  }

  /** Declared safe, or explicitly waived, or vouched for by the hook; and keyed where a key is required. */
  predicate MayRepeat(job: Job, hook: Hook) {
    || (job.safety == Unsafe && job.allowUnsafe)
    || (&& (job.requireKey ==> job.hasKey)
        && (job.safety == Safe || (job.safety == RequiresCheck && hook.Says? && hook.allow)))
  }

  lemma RulingIsExact(p: Policy, job: Job, hook: Hook)
    requires p.enabled
    ensures Rule(p, job, hook).allow <==> MayRepeat(job, hook)
  {
  }

  // ---- The loop --------------------------------------------------------------------------------

  datatype Answer<T> = Value(v: T) | Error(err: Err, classifier: Classifier)

  /** Everything the outside world does around one attempt. */
  datatype Turn<T> = Turn(
    cancelledBefore: bool, answer: Answer<T>, cancelledAfter: bool,
    at: Moment, hook: Hook, suppress: bool, cancelledAsleep: bool)

  datatype Record = Record(attempt: int, delay: int, failure: Failure, safety: SafetyReason, suppressed: bool)

  datatype End<T> =
    | Succeeded(v: T)
    | NotAFailure
    | CancelledEarly
    | Stopped(reason: Reason)
    | RepeatRefused(why: SafetyReason)
    | Suppressed
    | CancelledWaiting
    | FellThrough

  datatype Result<T> = Result(end: End<T>, runs: nat, records: seq<Record>)

  /** The failure the loop sees in the handler's error. */
  function FailureOf<T>(t: Turn<T>): Failure
    requires t.answer.Error?
  {
    ByPolicy(t.answer.err, t.answer.classifier)
  }

  /** The retry decision after a failed attempt. */
  function DecisionAt<T>(p: Policy, budget: Budget, t: Turn<T>, attempt: int): Decision
    requires t.answer.Error?
  {
    Decide(p, t.cancelledAfter, attempt, FailureOf(t), budget, t.at)
  }

  /** Attempt `attempt` ran, failed, and was granted another try. */
  predicate Continues<T>(p: Policy, job: Job, budget: Budget, t: Turn<T>, attempt: int) {
    && !t.cancelledBefore && t.answer.Error? && FailureOf(t).kind != NoFailure
    && DecisionAt(p, budget, t, attempt).retry && Rule(p, job, t.hook).allow
    && !t.suppress && !t.cancelledAsleep
  }

  /** How the turn at which the loop ends is reported. */
  ghost predicate EndsWith<T>(p: Policy, job: Job, budget: Budget, t: Turn<T>, attempt: int, end: End<T>) {
    if t.cancelledBefore then end.CancelledEarly?
    else match t.answer
      case Value(v) => end == Succeeded(v)
      case Error(_, _) =>
        if FailureOf(t).kind == NoFailure then end.NotAFailure?
        else
          var d := DecisionAt(p, budget, t, attempt);
          if !d.retry then end == Stopped(d.reason)
          else
            var ruling := Rule(p, job, t.hook);
            if !ruling.allow then end == RepeatRefused(ruling.reason)
            else if t.suppress then end.Suppressed?
            else t.cancelledAsleep && end.CancelledWaiting?
  }

  /** The record of a granted retry. */
  function RecordOf<T>(p: Policy, job: Job, budget: Budget, t: Turn<T>, attempt: int): Record
    requires t.answer.Error?
  {
    Record(attempt, DecisionAt(p, budget, t, attempt).delay, FailureOf(t), Rule(p, job, t.hook).reason,
           Rule(p, job, t.hook).allow && t.suppress)
  }

  /** The attempt at which the loop ended: a cancellation seen early ends one that did not run. */
  function LastAttempt<T>(r: Result<T>): nat {
    if r.end.CancelledEarly? then r.runs + 1 else r.runs
  }

  /**
   * What the loop promises, where `world(k)` is what happens around attempt `k`: every attempt
   * but the last ran, failed and was granted another; the last ended the loop for the reason
   * reported; and the attempts that asked for a retry are recorded in order, numbered from one.
   */
  ghost predicate LoopResult<T>(raw: Policy, job: Job, budget: Budget, world: nat -> Turn<T>, r: Result<T>) {
    var p := Normalize(raw);
    && (r.end.FellThrough? ==> !raw.enabled && raw.maxAttempts < 1 && r.runs == 0)
    && (!r.end.FellThrough? ==>
          && 1 <= LastAttempt(r) <= p.maxAttempts
          && EndsWith(p, job, budget, world(LastAttempt(r)), LastAttempt(r), r.end)
          && forall k :: 1 <= k < LastAttempt(r) ==> Continues(p, job, budget, world(k), k))
    && LastAttempt(r) <= |r.records| + 1 && |r.records| <= r.runs
    && (forall k :: 1 <= k <= |r.records| ==>
          world(k).answer.Error? && r.records[k - 1] == RecordOf(p, job, budget, world(k), k))
  }

  /** All attempts before `attempt` ran and were granted another. */
  ghost predicate Granted<T>(p: Policy, job: Job, budget: Budget, world: nat -> Turn<T>, attempt: nat) {
    forall k :: 1 <= k < attempt ==> Continues(p, job, budget, world(k), k)
  }

  ghost predicate Recorded<T>(p: Policy, job: Job, budget: Budget, world: nat -> Turn<T>, records: seq<Record>) {
    forall k :: 1 <= k <= |records| ==>
      world(k).answer.Error? && records[k - 1] == RecordOf(p, job, budget, world(k), k)
  }

  lemma Concludes<T>(raw: Policy, job: Job, budget: Budget, world: nat -> Turn<T>, r: Result<T>)
    requires !r.end.FellThrough? && 1 <= LastAttempt(r) <= Normalize(raw).maxAttempts
    requires Granted(Normalize(raw), job, budget, world, LastAttempt(r))
    requires EndsWith(Normalize(raw), job, budget, world(LastAttempt(r)), LastAttempt(r), r.end)
    requires Recorded(Normalize(raw), job, budget, world, r.records)
    requires LastAttempt(r) <= |r.records| + 1 && |r.records| <= r.runs
    ensures LoopResult(raw, job, budget, world, r)
  {
  }

  /** Runs a handler under retry. */
  method RunWithRetry<T>(raw: Policy, job: Job, budget: Budget, world: nat -> Turn<T>) returns (r: Result<T>)
    ensures LoopResult(raw, job, budget, world, r)
  {
    var p := Normalize(raw);
    var records: seq<Record> := [];
    var attempt := 1;
    while attempt <= p.maxAttempts
      invariant 1 <= attempt && |records| == attempt - 1
      invariant attempt > 1 ==> p.enabled && attempt <= p.maxAttempts
      invariant Granted(p, job, budget, world, attempt) && Recorded(p, job, budget, world, records)
    {
      var t := world(attempt);
      var end, ran, asked := Attempt(p, job, budget, t, attempt);
      if asked.Asked? {
        records := records + [asked.record];
      }
      if end.Ended? {
        r := Result(end.end, if ran then attempt else attempt - 1, records);
        Concludes(raw, job, budget, world, r);
        return;
      }
      attempt := attempt + 1;
    }
    return Result(FellThrough, 0, records);
  }

  datatype Maybe<T> = Nothing | Ended(end: End<T>)

  datatype MaybeRecord = Unasked | Asked(record: Record)

  /** One pass of the loop's body: how it ends the loop, if it does, and what it records. */
  method Attempt<T>(p: Policy, job: Job, budget: Budget, t: Turn<T>, attempt: nat)
      returns (end: Maybe<T>, ran: bool, asked: MaybeRecord)
    ensures end.Nothing? <==> Continues(p, job, budget, t, attempt)
    ensures end.Ended? ==> EndsWith(p, job, budget, t, attempt, end.end) && !end.end.FellThrough?
    ensures ran <==> !(end.Ended? && end.end.CancelledEarly?)
    ensures end.Nothing? ==> asked.Asked?
    ensures asked.Asked? ==> ran && t.answer.Error? && asked.record == RecordOf(p, job, budget, t, attempt)
  {
    ran, asked := true, Unasked;
    if t.cancelledBefore {
      return Ended(CancelledEarly), false, Unasked;
    }
    if t.answer.Value? {
      return Ended(Succeeded(t.answer.v)), true, Unasked;
    }
    var f := ByPolicy(t.answer.err, t.answer.classifier);
    if f.kind == NoFailure {
      return Ended(NotAFailure), true, Unasked;
    }
    var d := Decide(p, t.cancelledAfter, attempt, f, budget, t.at);
    if !d.retry {
      return Ended(Stopped(d.reason)), true, Unasked;
    }
    var ruling := Rule(p, job, t.hook);
    var record := Record(attempt, d.delay, f, ruling.reason, false);
    if !ruling.allow {
      return Ended(RepeatRefused(ruling.reason)), true, Asked(record);
    }
    record := record.(suppressed := t.suppress);
    if t.suppress {
      return Ended(Suppressed), true, Asked(record);
    }
    if t.cancelledAsleep {
      return Ended(CancelledWaiting), true, Asked(record);
    }
    return Nothing, true, Asked(record);
  }

  /**
   * With retry enabled the handler runs at most `maxAttempts` times, the loop always ends through
   * one of its own returns, and using up the attempts is reported as such.
   */
  lemma RunsAreBounded<T>(raw: Policy, job: Job, budget: Budget, world: nat -> Turn<T>, r: Result<T>)
    requires raw.enabled && LoopResult(raw, job, budget, world, r)
    ensures r.runs <= Normalize(raw).maxAttempts && !r.end.FellThrough?
    ensures raw.maxAttempts >= 1 ==> r.runs <= raw.maxAttempts
    ensures r.runs == Normalize(raw).maxAttempts && !r.end.Succeeded? && !r.end.NotAFailure? ==>
      r.end == Stopped(MaxAttempts) || r.end == Stopped(ContextCancelled)
  {
    var last := LastAttempt(r);
    assert EndsWith(Normalize(raw), job, budget, world(last), last, r.end);
  }

  /**
   * A job that may not be repeated runs at most once: one of unspecified, unknown or unsafe kind
   * without the explicit waiver, one lacking a required key, or one no hook vouches for.
   */
  lemma UnsafeRunsOnce<T>(raw: Policy, job: Job, budget: Budget, world: nat -> Turn<T>, r: Result<T>)
    requires raw.enabled && LoopResult(raw, job, budget, world, r)
    requires r.runs >= 1 ==> !MayRepeat(job, world(1).hook)
    ensures r.runs <= 1
  {
    if r.runs >= 2 {
      assert Continues(Normalize(raw), job, budget, world(1), 1);
      RulingIsExact(Normalize(raw), job, world(1).hook);
    }
  }

  /**
   * Every attempt that was followed by another failed in a way worth retrying, before its context was
   * gone, and under a deadline its wait and the reserve fitted what was left at the time given.
   */
  lemma RetriesQualify<T>(raw: Policy, job: Job, budget: Budget, world: nat -> Turn<T>, r: Result<T>, k: nat)
    requires raw.enabled && LoopResult(raw, job, budget, world, r) && 1 <= k < LastAttempt(r)
    ensures k <= |r.records| && k < Normalize(raw).maxAttempts
    ensures world(k).answer.Error? && !world(k).cancelledAfter && MayRepeat(job, world(k).hook)
    ensures raw.kinds == [] ==>
      FailureOf(world(k)).kind == Retryable || (FailureOf(world(k)).kind.Custom? && FailureOf(world(k)).retryable)
    ensures raw.kinds != [] ==> FailureOf(world(k)).kind in raw.kinds
    ensures budget.Until? ==>
      world(k).at.now + r.records[k - 1].delay + Normalize(raw).minRemaining <= budget.deadline
  {
    assert Continues(Normalize(raw), job, budget, world(k), k);
    GrantQualifies(Normalize(raw), job, budget, world(k), k);
    assert r.records[k - 1] == RecordOf(Normalize(raw), job, budget, world(k), k);
  }

  lemma GrantQualifies<T>(p: Policy, job: Job, budget: Budget, t: Turn<T>, attempt: int)
    requires p.enabled && Continues(p, job, budget, t, attempt)
    ensures attempt < p.maxAttempts && !t.cancelledAfter && MayRepeat(job, t.hook) && Worthwhile(p, FailureOf(t))
    ensures budget.Until? ==>
      t.at.now + DecisionAt(p, budget, t, attempt).delay + p.minRemaining <= budget.deadline
  {
    RulingIsExact(p, job, t.hook);
  }

  // ---- The pipeline's one-step form ------------------------------------------------------------

  datatype Evaluation = Evaluation(schedule: bool, delay: int, reason: Reason)

  /** Decides whether a failed pipeline attempt is enqueued again. */
  function EvaluatePipeline<T>(raw: Policy, job: Job, budget: Budget, t: Turn<T>, attempt: int): Evaluation
    requires t.answer.Error?
  {
    var p := Normalize(raw);
    var f := AtCompletion(t.answer.err, t.answer.classifier);
    if !p.enabled then Evaluation(false, 0, Disabled)
    else if attempt >= p.maxAttempts then Evaluation(false, 0, MaxAttempts)
    else
      var d := Decide(p, t.cancelledAfter, attempt, f, budget, t.at);
      if !d.retry || !Rule(p, job, t.hook).allow || t.suppress then Evaluation(false, 0, d.reason)
      else Evaluation(true, d.delay, d.reason)
  }

  /** What the loop chooses after a failed attempt, up to its sleep. */
  predicate LoopRetries<T>(p: Policy, job: Job, budget: Budget, t: Turn<T>, attempt: int)
    requires t.answer.Error?
  {
    DecisionAt(p, budget, t, attempt).retry && Rule(p, job, t.hook).allow && !t.suppress
  }

  /**
   * On every error that both classify alike, the two forms make the same choice with the same delay;
   * reasons agree too, except that past the last attempt the loop reports a cancellation first.
   */
  lemma PipelineAgrees<T>(raw: Policy, job: Job, budget: Budget, t: Turn<T>, attempt: int)
    requires t.answer.Error?
    requires AtCompletion(t.answer.err, t.answer.classifier) == FailureOf(t)
    ensures var p := Normalize(raw);
      var e := EvaluatePipeline(raw, job, budget, t, attempt);
      var d := DecisionAt(p, budget, t, attempt);
      && (e.schedule <==> LoopRetries(p, job, budget, t, attempt))
      && (e.schedule ==> e.delay == d.delay)
      && (e.reason == d.reason <==> !(p.enabled && attempt >= p.maxAttempts && t.cancelledAfter))
  {
  }

  /** All that a retry takes besides a failure worth it. */
  predicate RetryFree<T>(p: Policy, job: Job, budget: Budget, t: Turn<T>, attempt: int) {
    && p.enabled && !t.cancelledAfter && attempt < p.maxAttempts && MayRepeat(job, t.hook) && !t.suppress
    && (budget.Until? ==>
          && t.at.now < budget.deadline
          && Delay(ShapeOf(p), attempt, t.at.offset, t.at.spill) + p.minRemaining <= budget.deadline - t.at.now)
  }

  /**
   * Over all errors: unless a context error is masked, the pipeline form retries exactly what the loop
   * retries; a masked one it retries exactly if the policy lists what the context error is classified
   * as, which the default kinds never do.  The delay is the loop's.
   */
  lemma PipelineRetriesExactly<T>(raw: Policy, job: Job, budget: Budget, t: Turn<T>, attempt: int)
    requires t.answer.Error?
    ensures var p := Normalize(raw);
      var e := EvaluatePipeline(raw, job, budget, t, attempt);
      && (!Masked(t.answer.err) ==> (e.schedule <==> LoopRetries(p, job, budget, t, attempt)))
      && (Masked(t.answer.err) ==>
            (e.schedule <==>
               RetryFree(p, job, budget, t, attempt) && OfContextError(t.answer.err).kind in raw.kinds))
      && (e.schedule ==> e.delay == Delay(ShapeOf(p), attempt, t.at.offset, t.at.spill))
      && (LoopRetries(p, job, budget, t, attempt) ==>
            DecisionAt(p, budget, t, attempt).delay == Delay(ShapeOf(p), attempt, t.at.offset, t.at.spill))
  {
    ClassifiersAgree(t.answer.err, t.answer.classifier);
    if raw.enabled {
      RulingIsExact(Normalize(raw), job, t.hook);
    }
  }

  // ---- When a retry is granted ------------------------------------------------------------------

  /** A kind the policy lists, or without a list the retryable kind, or one of the application's own that
      is marked retryable. */
  predicate Deserves(kinds: seq<Kind>, f: Failure) {
    && f.kind != NoFailure
    && (f.kind in kinds || (kinds == [] && (f.kind == Retryable || (f.kind.Custom? && f.retryable))))
  }

  /**
   * A retry is granted, in the loop and in the pipeline form, if and only if the failure deserves one and
   * nothing else stands against it.
   */
  lemma RetryIsGranted<T>(raw: Policy, job: Job, budget: Budget, t: Turn<T>, attempt: int)
    requires t.answer.Error?
    ensures var p, free := Normalize(raw), RetryFree(Normalize(raw), job, budget, t, attempt);
      && (p.enabled ==>
            (LoopRetries(p, job, budget, t, attempt) <==> free && Deserves(raw.kinds, FailureOf(t))))
      && (EvaluatePipeline(raw, job, budget, t, attempt).schedule <==>
            free && Deserves(raw.kinds, AtCompletion(t.answer.err, t.answer.classifier)))
  {
    if raw.enabled {
      RulingIsExact(Normalize(raw), job, t.hook);
    }
  }

  /** Over the whole loop: an attempt that was made is followed by another if and only if its context was
      good, it failed in a way that deserves it, nothing stands against it, and its sleep was not cut short. */
  lemma LoopGoesOn<T>(raw: Policy, job: Job, budget: Budget, world: nat -> Turn<T>, r: Result<T>, k: nat)
    requires raw.enabled && LoopResult(raw, job, budget, world, r) && 1 <= k <= LastAttempt(r)
    ensures k < LastAttempt(r) <==>
      && !world(k).cancelledBefore && world(k).answer.Error? && !world(k).cancelledAsleep
      && RetryFree(Normalize(raw), job, budget, world(k), k) && Deserves(raw.kinds, FailureOf(world(k)))
  {
    var p := Normalize(raw);
    if world(k).answer.Error? {
      RetryIsGranted(raw, job, budget, world(k), k);
    }
    if k < LastAttempt(r) {
      assert Continues(p, job, budget, world(k), k);
    } else {
      assert EndsWith(p, job, budget, world(k), k, r.end);
    }
  }

  /** Why a failed attempt was the last: the first of these that holds, in this order. */
  lemma StopReasons<T>(raw: Policy, budget: Budget, t: Turn<T>, attempt: int)
    requires t.answer.Error?
    ensures var p := Normalize(raw);
      var d := DecisionAt(p, budget, t, attempt);
      var left := if budget.Until? then budget.deadline - t.at.now else 0;
      var good := raw.enabled && !t.cancelledAfter && attempt < p.maxAttempts && Deserves(raw.kinds, FailureOf(t));
      && (d.reason == Disabled <==> !raw.enabled)
      && (d.reason == ContextCancelled <==> raw.enabled && t.cancelledAfter)
      && (d.reason == MaxAttempts <==> raw.enabled && !t.cancelledAfter && attempt >= p.maxAttempts)
      && (d.reason == PermanentFailure <==>
            raw.enabled && !t.cancelledAfter && attempt < p.maxAttempts && !Deserves(raw.kinds, FailureOf(t)))
      && (d.reason == DeadlinePassed <==> good && budget.Until? && left <= 0)
      && (d.reason == BudgetTooSmall <==> good && budget.Until? && 0 < left < d.delay + p.minRemaining)
      && (d.retry <==> d.reason == RetryableFailure)
  {
  }

  /** How the loop ended, from what happened around its last attempt. */
  lemma LoopEnds<T>(raw: Policy, job: Job, budget: Budget, world: nat -> Turn<T>, r: Result<T>)
    requires raw.enabled && LoopResult(raw, job, budget, world, r)
    ensures var k := LastAttempt(r);
      var t := world(k);
      var failed := !t.cancelledBefore && t.answer.Error? && FailureOf(t).kind != NoFailure;
      var asked := failed && DecisionAt(Normalize(raw), budget, t, k).retry;
      && (r.end.CancelledEarly? <==> t.cancelledBefore)
      && (r.end.Succeeded? <==> !t.cancelledBefore && t.answer.Value?)
      && (r.end.Succeeded? ==> r.end.v == t.answer.v)
      && (r.end.NotAFailure? <==> !t.cancelledBefore && t.answer.Error? && FailureOf(t).kind == NoFailure)
      && (r.end.Stopped? <==> failed && !asked)
      && (r.end.Stopped? ==> r.end.reason == DecisionAt(Normalize(raw), budget, t, k).reason)
      && (r.end.RepeatRefused? <==> asked && !MayRepeat(job, t.hook))
      && (r.end.RepeatRefused? ==> r.end.why == Rule(Normalize(raw), job, t.hook).reason)
      && (r.end.Suppressed? <==> asked && MayRepeat(job, t.hook) && t.suppress)
      && (r.end.CancelledWaiting? <==> asked && MayRepeat(job, t.hook) && !t.suppress)
      && r.runs == (if r.end.CancelledEarly? then k - 1 else k)
  {
    var k := LastAttempt(r);
    assert EndsWith(Normalize(raw), job, budget, world(k), k, r.end);
    RulingIsExact(Normalize(raw), job, world(k).hook);
  }

  /** What is recorded of an attempt that asked for a retry. */
  lemma RecordsTell<T>(raw: Policy, job: Job, budget: Budget, world: nat -> Turn<T>, r: Result<T>, k: nat)
    requires raw.enabled && LoopResult(raw, job, budget, world, r) && 1 <= k <= |r.records|
    ensures var rec, t := r.records[k - 1], world(k);
      && t.answer.Error? && rec.attempt == k && rec.failure == FailureOf(t)
      && rec.delay == DecisionAt(Normalize(raw), budget, t, k).delay
      && rec.safety == Rule(Normalize(raw), job, t.hook).reason
      && (rec.suppressed <==> MayRepeat(job, t.hook) && t.suppress)
  {
    assert r.records[k - 1] == RecordOf(Normalize(raw), job, budget, world(k), k);
    RulingIsExact(Normalize(raw), job, world(k).hook);
  }

  /** What is said about a repeat: the first of these that applies, in this order; a hook's own reason is
      kept unless it contradicts its answer or is missing. */
  lemma RulingReasons(p: Policy, job: Job, hook: Hook)
    requires p.enabled
    ensures var r := Rule(p, job, hook).reason;
      var waived := job.safety == Unsafe && job.allowUnsafe;
      var keyed := !waived && (job.requireKey ==> job.hasKey);
      && (waived ==> r == ExplicitOverride)
      && (!waived && !keyed ==> r == MissingKey)
      && (keyed && job.safety == Safe ==> r == IsSafe)
      && (keyed && job.safety != Safe && job.safety != RequiresCheck ==> r == IsUnsafe)
      && (keyed && job.safety == RequiresCheck && hook == Absent ==> r == NoHook)
      && (keyed && job.safety == RequiresCheck && hook == Panics ==> r == HookFailed)
      && (keyed && job.safety == RequiresCheck && hook.Says? ==>
            var contradicts := if hook.allow then IsUnsafe else IsSafe;
            r == if hook.reason == contradicts || hook.reason == NoSafetyReason
                 then (if hook.allow then HookAllowed else HookRejected) else hook.reason)
  {
  }

  /** What a policy means by what it leaves unset: three attempts, ten milliseconds doubling up to 250,
      a fifth of jitter, and its own first wait as the reserve. */
  lemma NormalizeFills(p: Policy)
    requires p.enabled
    ensures var r := Normalize(p);
      && r.maxAttempts == (if p.maxAttempts <= 0 then 3 else p.maxAttempts)
      && r.initial == (if p.initial <= 0 then 10000000 else p.initial)
      && r.cap == (if p.cap <= 0 then 250000000 else p.cap)
      && r.multiplier == (if p.multiplier <= 0.0 then 2.0 else p.multiplier)
      && r.jitterFraction == (if p.jitterFraction <= 0.0 then 0.2 else p.jitterFraction)
      && r.jitter == (p.jitter || p.jitterFraction <= 0.0)
      && r.minRemaining == (if p.minRemaining <= 0 then r.initial else p.minRemaining)
      && r.kinds == p.kinds
  {
  }

  /** The difference is real: a failure marked retryable that wraps a deadline error. */
  lemma WrappedDeadlineDiffers(c: Classifier)
    ensures var err := Typed(Failure(Retryable, true), DeadlineExceeded);
      ByPolicy(err, c) == Failure(Retryable, true) && AtCompletion(err, c) == Failure(Timeout, false) && Masked(err)
  {
  }
}
