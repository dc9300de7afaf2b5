/** What the end of a request's context does, what answers are counted as, and where a retry starts. */
module Cancellation {
  import opened Basics
  import opened Continuations
  import opened SingleDriver
  import opened Meaning
  import opened StageOrder
  import opened Answers
  import opened Progress
  import R = Registry

  // ---- No stage runs once the context has ended ----------------------------------------------------

  lemma EndStays(ps: seq<Plan>, st: State, step: Step, r: nat)
    requires Shape(ps, st) && Enabled(ps, st, step) && r < |ps| && st.cancelled[r]
    ensures Go(ps, st, step).cancelled[r] && Go(ps, st, step).trace[r] == st.trace[r]
  {
    EndedFlag(ps, st, step, r);
    TraceElsewhere(ps, st, step, r);
  }

  lemma EndedFlag(ps: seq<Plan>, st: State, step: Step, r: nat)
    requires Shape(ps, st) && Enabled(ps, st, step) && r < |ps| && st.cancelled[r]
    ensures Go(ps, st, step).cancelled[r]
  {
    CleanFlags(ps, st, step);
  }

  /** What the request's context decides: stages, registrations and retries need a good one, a yielded stage
      and a waiting resolver are cut short exactly by its end. */
  lemma ContextDecides(ps: seq<Plan>, st: State, t: nat)
    requires Shape(ps, st) && t < |st.tasks| && TaskShape(ps, |st.cells|, st.tasks[t])
    ensures var task := st.tasks[t];
      match task
      case AtStage(at) => Enabled(ps, st, RunStage(t)) <==> at.i < ps[at.r].stages && !st.cancelled[at.r]
      case Yielded(at, _) =>
        && (Enabled(ps, st, Allocate(t)) <==> !st.cancelled[at.r])
        && (Enabled(ps, st, YieldFault(t)) <==> st.cancelled[at.r])
      case Waiting(at, c, _) =>
        && (Enabled(ps, st, TakeAnswer(t)) <==> st.cells[c].buffer.Some?)
        && (Enabled(ps, st, TakeCancel(t)) <==> st.cancelled[at.r])
      case Failing(r, a, _) => Enabled(ps, st, Retry(t)) <==> a < ps[r].maxAttempts && !st.cancelled[r]
      case _ => true
  {
  }

  /** No stage of the request runs, no continuation of it is set up and no retry of it scheduled. */
  predicate StartsNothing(ps: seq<Plan>, st: State, steps: seq<Step>, r: nat)
    requires Shape(ps, st) && Legal(ps, st, steps)
    decreases |steps|
  {
    steps != [] ==>
      && (steps[0].RunStage? || steps[0].Allocate? || steps[0].Retry? ==> Owner(st.tasks[steps[0].t]) != r)
      && StartsNothing(ps, Go(ps, st, steps[0]), steps[1..], r)
  }

  /** Wherever a request stands when its context ends: in every run from there no stage of it starts, no
      continuation of it is set up, and no retry of it scheduled. */
  lemma {:induction false} NoStageOnceEnded(ps: seq<Plan>, st: State, steps: seq<Step>, r: nat)
    requires Shape(ps, st) && Legal(ps, st, steps) && r < |ps| && st.cancelled[r]
    ensures Run(ps, st, steps).cancelled[r] && Run(ps, st, steps).trace[r] == st.trace[r]
    ensures StartsNothing(ps, st, steps, r)
    decreases |steps|
  {
    if steps != [] {
      EndStays(ps, st, steps[0], r);
      NoStageOnceEnded(ps, Go(ps, st, steps[0]), steps[1..], r);
    }
  }

  // ---- The end of the context overrides an answer ----------------------------------------------------

  /** Nothing left to do for request `r` runs a stage or uses an answer. */
  predicate WindsUp(task: Task, r: nat) {
    || task.Returned? || Owner(task) != r
    || task.Waiting? || task.QueuedRun? || task.Sleeping?
    || (task.Chosen? && task.o.ContextGone?)
    || (task.Failing? && task.why == Interrupted)
  }

  predicate Interrupting(st: State, r: nat)
    requires r < |st.cancelled| && r < |st.results|
  {
    && st.cancelled[r]
    && (forall t :: 0 <= t < |st.tasks| ==> WindsUp(st.tasks[t], r))
    && (forall k :: 0 <= k < |st.results[r]| ==> st.results[r][k].result == Interrupted)
  }

  lemma MoverWinds(ps: seq<Plan>, st: State, step: Step, r: nat)
    requires Shape(ps, st) && Enabled(ps, st, step) && IsTaskStep(step) && r < |ps| && Interrupting(st, r)
    ensures var st' := Go(ps, st, step);
            && |st.tasks| <= |st'.tasks| && WindsUp(st'.tasks[step.t], r)
            && (|st'.tasks| > |st.tasks| ==> WindsUp(st'.tasks[|st.tasks|], r))
  {
    TaskFrame(ps, st, step);
    assert WindsUp(st.tasks[step.t], r);
    if step.Register? {
      RegisterEffect(ps, st, step);
    }
  }

  lemma ResultsWind(ps: seq<Plan>, st: State, step: Step, r: nat)
    requires Shape(ps, st) && Enabled(ps, st, step) && r < |ps| && Interrupting(st, r)
    ensures var rs := Go(ps, st, step).results[r];
            forall k :: 0 <= k < |rs| ==> rs[k].result == Interrupted
  {
    if IsTaskStep(step) {
      assert WindsUp(st.tasks[step.t], r);
      if !step.Finish? && !step.Settle? && !step.GiveUp? && !step.Start? && !step.Wake? {
        ResultSame(ps, st, step);
      }
    }
  }

  lemma EndingStep(ps: seq<Plan>, st: State, step: Step, r: nat)
    requires Shape(ps, st) && Enabled(ps, st, step) && r < |ps| && Interrupting(st, r)
    ensures Interrupting(Go(ps, st, step), r)
  {
    var st' := Go(ps, st, step);
    EndedFlag(ps, st, step, r);
    ResultsWind(ps, st, step, r);
    forall u | 0 <= u < |st'.tasks| ensures WindsUp(st'.tasks[u], r) {
      if u < |st.tasks| && (IsTaskStep(step) ==> u != step.t) {
        Bystander(ps, st, step, u);
      } else if IsTaskStep(step) {
        TaskFrame(ps, st, step);
        MoverWinds(ps, st, step, r);
      } else {
        EnvFrame(ps, st, step);
      }
    }
  }

  /** The request's settlements in this run count as cancellations, and as nothing else. */
  predicate OnlyCancels(ps: seq<Plan>, st: State, steps: seq<Step>, r: nat)
    requires Shape(ps, st) && Legal(ps, st, steps)
    decreases |steps|
  {
    steps != [] ==>
      var st' := Go(ps, st, steps[0]);
      && (steps[0].Settle? && Owner(st.tasks[steps[0].t]) == r ==>
            st'.reg.completed == st.reg.completed && st'.reg.failed == st.reg.failed
            && st'.reg.cancelled + st'.reg.late == st.reg.cancelled + st.reg.late + 1)
      && OnlyCancels(ps, st', steps[1..], r)
  }

  lemma EndingSettles(ps: seq<Plan>, st: State, step: Step, r: nat)
    requires Shape(ps, st) && Enabled(ps, st, step) && r < |ps| && Interrupting(st, r)
    requires step.Settle? && Owner(st.tasks[step.t]) == r
    ensures var reg, reg' := st.reg, Go(ps, st, step).reg;
            && reg'.completed == reg.completed && reg'.failed == reg.failed
            && reg'.cancelled + reg'.late == reg.cancelled + reg.late + 1
  {
    assert WindsUp(st.tasks[step.t], r);
    SettleEffect(ps, st, step);
    R.ResolveExactly(st.reg, st.tasks[step.t].id, R.Cancel);
  }

  lemma {:induction false} EndingRun(ps: seq<Plan>, st: State, steps: seq<Step>, r: nat)
    requires Shape(ps, st) && Legal(ps, st, steps) && r < |ps| && Interrupting(st, r)
    ensures Interrupting(Run(ps, st, steps), r) && OnlyCancels(ps, st, steps, r)
    decreases |steps|
  {
    if steps != [] {
      EndingStep(ps, st, steps[0], r);
      if steps[0].Settle? && Owner(st.tasks[steps[0].t]) == r {
        EndingSettles(ps, st, steps[0], r);
      }
      EndingRun(ps, Go(ps, st, steps[0]), steps[1..], r);
    }
  }

  lemma EndingBegins(ps: seq<Plan>, st: State, t: nat, r: nat)
    requires Shape(ps, st) && Governed(ps, st, r) && t < |st.tasks| && st.cancelled[r]
    requires st.tasks[t].Waiting? && st.tasks[t].at.r == r
    ensures Interrupting(st, r) && st.results[r] == []
  {
    TotalUpdate(Driver(r), st.tasks, t, Returned);
    forall u | 0 <= u < |st.tasks| ensures WindsUp(st.tasks[u], r) {
      if u != t && !st.tasks[u].Returned? && Owner(st.tasks[u]) == r {
        TotalUpdate(Driver(r), st.tasks[t := Returned], u, Returned);
      }
    }
  }

  /**
   * The end of the context overrides an answer, even one that is waiting already: if a request's context
   * has ended while its resolver waits, then in every run from there no further stage of it runs, its
   * future is completed at most once and then as interrupted, and its continuation is never counted as
   * completed or failed.
   */
  lemma EndedWhileWaiting(ps: seq<Plan>, st: State, steps: seq<Step>, more: seq<Step>, t: nat, r: nat)
    requires Init(ps, st) && Legal(ps, st, steps) && r < |ps| && t < |Run(ps, st, steps).tasks|
    requires var e := Run(ps, st, steps); e.tasks[t].Waiting? && e.tasks[t].at.r == r && e.cancelled[r]
    requires Legal(ps, Run(ps, st, steps), more)
    ensures var e, f := Run(ps, st, steps), Run(ps, Run(ps, st, steps), more);
            && f.trace[r] == e.trace[r] && OnlyCancels(ps, e, more, r)
            && (f.results[r] == [] || (|f.results[r]| == 1 && f.results[r][0].result == Interrupted))
  {
    var e := Run(ps, st, steps);
    InitialLaws(ps, st, r);
    EntryInit(ps, st);
    GovernedRun(ps, st, steps, r);
    EndingBegins(ps, e, t, r);
    EndingRun(ps, e, more, r);
    NoStageOnceEnded(ps, e, more, r);
    GovernedRun(ps, e, more, r);
  }

  // ---- What answers are counted as -------------------------------------------------------------------

  /** In every run a settlement finds its entry and raises exactly one counter: completed, failed or
      cancelled, as the answer says, and cancelled where the context had ended. */
  lemma AnswersAreCounted(ps: seq<Plan>, st: State, steps: seq<Step>, step: Step)
    requires Init(ps, st) && Legal(ps, st, steps) && Enabled(ps, Run(ps, st, steps), step) && step.Settle? && |ps| > 0
    ensures var e := Run(ps, st, steps);
            var reg, reg', o := e.reg, Go(ps, e, step).reg, e.tasks[step.t].o;
            && reg'.completed == reg.completed + One(o.Told? && o.answer.Completed?)
            && reg'.failed == reg.failed + One(o.Told? && o.answer.Refused?)
            && reg'.cancelled == reg.cancelled + One(o.ContextGone? || o.answer.Withdrawn?)
            && reg'.late == reg.late && |reg'.pending| == |reg.pending| - 1
  {
    var e := Run(ps, st, steps);
    InitialLaws(ps, st, 0);
    EntryInit(ps, st);
    GovernedRun(ps, st, steps, 0);
    var task := e.tasks[step.t];
    ResolverFindsEntry(e, step.t);
    SettleEffect(ps, e, step);
    R.ResolveExactly(e.reg, task.id, KindOf(task.o));
    R.RemoveBounded(e.reg, task.id);
  }

  /** What an answer does to its request: a value goes on to the next stage, an error fails the stage, a
      cancellation ends the attempt; and the same for what a stage returns by itself. */
  lemma AnswersDecide(ps: seq<Plan>, st: State, step: Step)
    requires Shape(ps, st) && Enabled(ps, st, step)
    ensures step.Settle? && step.ok && st.tasks[step.t].id in st.reg.pending && st.tasks[step.t].o.Told? ==>
      var st', n, at := Go(ps, st, step), |st.tasks|, st.tasks[step.t].at;
      match st.tasks[step.t].o.answer
      case Completed(v) => |st'.tasks| == n + 1 && st'.tasks[n] == QueuedResume(Place(at.r, at.a, at.i + 1, v))
      case Refused(e) => st'.tasks[step.t] == Failing(at.r, at.a, StageFailed(at.i, e))
      case Withdrawn(e) => st'.tasks[step.t] == Failing(at.r, at.a, Cancelled(at.i, e))
    ensures step.RunStage? ==>
      var st', at := Go(ps, st, step), st.tasks[step.t].at;
      match ps[at.r].run(at.a, at.i, at.v)
      case Next(v) => st'.tasks[step.t] == AtStage(Place(at.r, at.a, at.i + 1, v))
      case Err(e) => st'.tasks[step.t] == Failing(at.r, at.a, StageFailed(at.i, e))
      case Yield => st'.tasks[step.t] == Yielded(at, |st.cells|) && |st'.cells| == |st.cells| + 1
  {
  }

  /** The reference for whole pipelines, on the answers of one stage: each leads where the machine takes it. */
  lemma ReferenceDecides(p: Plan, a: nat, i: nat, v: int)
    requires i < p.stages && p.run(a, i, v).Yield?
    ensures match p.answer(a, i, v)
      case Completed(w) => Sync(p, a, i, v) == Sync(p, a, i + 1, w)
      case Refused(e) => Sync(p, a, i, v) == StageFailed(i, e)
      case Withdrawn(e) => Sync(p, a, i, v) == Cancelled(i, e)
  {
  }

  // ---- Where a retry starts ----------------------------------------------------------------------------

  /** A failed attempt that may be retried under a good context can be followed by the next attempt, which
      starts the whole pipeline over. */
  lemma RetryStartsOver(ps: seq<Plan>, st: State, t: nat)
    requires Shape(ps, st) && t < |st.tasks| && st.tasks[t].Failing? && TaskShape(ps, |st.cells|, st.tasks[t])
    requires st.tasks[t].a < ps[st.tasks[t].r].maxAttempts && !st.cancelled[st.tasks[t].r]
    ensures var n, r := |st.tasks|, st.tasks[t].r;
            && Enabled(ps, st, Retry(t))
            && var s1 := Go(ps, st, Retry(t));
               && Enabled(ps, s1, Wake(t, true))
               && var s2 := Go(ps, s1, Wake(t, true));
                  && Enabled(ps, s2, Start(n))
                  && var s3 := Go(ps, s2, Start(n));
                     && n < |s3.tasks| && s3.tasks[n] == AtStage(Place(r, st.tasks[t].a + 1, 0, ps[r].init))
                     && s3.results == st.results
  {
  }

  /** A resumption that is refused, a retry that cannot be queued and a job whose context has ended before it
      starts complete the request at once, as interrupted. */
  lemma RefusalsEnd(ps: seq<Plan>, st: State, step: Step)
    requires Shape(ps, st) && Enabled(ps, st, step)
    requires || (step.Settle? && !step.ok && st.tasks[step.t].o.Told? && st.tasks[step.t].o.answer.Completed?
                 && st.tasks[step.t].id in st.reg.pending)
             || (step.Wake? && !step.ok)
             || (step.Start? && st.cancelled[st.tasks[step.t].r])
    ensures var r, a := Owner(st.tasks[step.t]), if step.Settle? then st.tasks[step.t].at.a else st.tasks[step.t].a;
            && Go(ps, st, step).tasks == st.tasks[step.t := Returned]
            && Go(ps, st, step).results == st.results[r := st.results[r] + [Ending(a, Interrupted)]]
  {
  }
}
