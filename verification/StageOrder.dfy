/** The stages of each attempt run once each, in order, and a completed attempt ran exactly
    the stages its result says. */
module StageOrder {
  import opened Continuations
  import opened SingleDriver
  import opened Meaning

  /** The stages recorded for attempt `a`, in the order they ran. */
  function StagesOf(tr: seq<(nat, nat)>, a: nat): seq<nat> {
    if tr == [] then []
    else
      var last := tr[|tr| - 1];
      StagesOf(tr[..|tr| - 1], a) + (if last.0 == a then [last.1] else [])
  }

  predicate NoLaterThan(tr: seq<(nat, nat)>, a: nat) {
    forall k :: 0 <= k < |tr| ==> tr[k].0 <= a
  }

  /** The stages an ending implies were run. */
  predicate RanFor(p: Plan, tr: seq<(nat, nat)>, a: nat, result: Result) {
    match result
    case Done(_) => StagesOf(tr, a) == Upto(p.stages)
    case FinishFailed(_) => StagesOf(tr, a) == Upto(p.stages)
    case StageFailed(i, _) => StagesOf(tr, a) == Upto(i + 1)
    case Cancelled(i, _) => StagesOf(tr, a) == Upto(i + 1)
    case Interrupted => true
  }

  predicate TraceOk(p: Plan, tr: seq<(nat, nat)>, task: Task) {
    match task
    case Returned => true
    case QueuedRun(_, a) => a > 0 && NoLaterThan(tr, a - 1)
    case Sleeping(_, a) => NoLaterThan(tr, a)
    case Failing(_, a, why) => NoLaterThan(tr, a) && RanFor(p, tr, a, why)
    case QueuedResume(at) => NoLaterThan(tr, at.a) && StagesOf(tr, at.a) == Upto(at.i)
    case AtStage(at) => NoLaterThan(tr, at.a) && StagesOf(tr, at.a) == Upto(at.i)
    case Yielded(at, _) => NoLaterThan(tr, at.a) && StagesOf(tr, at.a) == Upto(at.i + 1)
    case Named(at, _, _) => NoLaterThan(tr, at.a) && StagesOf(tr, at.a) == Upto(at.i + 1)
    case Waiting(at, _, _) => NoLaterThan(tr, at.a) && StagesOf(tr, at.a) == Upto(at.i + 1)
    case Chosen(at, _, _, _) => NoLaterThan(tr, at.a) && StagesOf(tr, at.a) == Upto(at.i + 1)
  }

  predicate TraceInv(ps: seq<Plan>, st: State)
    requires Shape(ps, st)
  {
    && (forall t :: 0 <= t < |st.tasks| && !st.tasks[t].Returned? ==>
          TraceOk(ps[Owner(st.tasks[t])], st.trace[Owner(st.tasks[t])], st.tasks[t]))
    && (forall r, k :: 0 <= r < |ps| && 0 <= k < |st.results[r]| ==>
          RanFor(ps[r], st.trace[r], st.results[r][k].a, st.results[r][k].result))
    && (forall r :: 0 <= r < |ps| && !st.submitted[r] ==> st.trace[r] == [])
  }

  predicate Laws(ps: seq<Plan>, st: State)
    requires Shape(ps, st)
  {
    forall r :: 0 <= r < |ps| ==> DriverLaw(ps, st, r)
  }

  lemma StagesAppend(tr: seq<(nat, nat)>, a: nat, i: nat)
    ensures StagesOf(tr + [(a, i)], a) == StagesOf(tr, a) + [i]
  {
    assert (tr + [(a, i)])[..|tr|] == tr;
  }

  lemma {:induction false} NoneYet(tr: seq<(nat, nat)>, a: nat)
    requires a > 0 && NoLaterThan(tr, a - 1)
    ensures StagesOf(tr, a) == Upto(0)
  {
    if tr != [] {
      NoneYet(tr[..|tr| - 1], a);
    }
  }

  /** While a task works for a request nobody else does, and its future is open. */
  lemma Sole(ps: seq<Plan>, st: State, t: nat, u: nat)
    requires Shape(ps, st) && Laws(ps, st) && t < |st.tasks| && u < |st.tasks| && !st.tasks[t].Returned?
    requires TaskShape(ps, |st.cells|, st.tasks[t])
    ensures u != t ==> st.tasks[u].Returned? || Owner(st.tasks[u]) != Owner(st.tasks[t])
    ensures st.results[Owner(st.tasks[t])] == []
  {
    var r := Owner(st.tasks[t]);
    assert DriverLaw(ps, st, r);
    TotalUpdate(Driver(r), st.tasks, t, Returned);
    if u != t && !st.tasks[u].Returned? && Owner(st.tasks[u]) == r {
      TotalUpdate(Driver(r), st.tasks[t := Returned], u, Returned);
    }
  }

  // ---- The moving task ------------------------------------------------------------------------------

  predicate NewTaskOk(ps: seq<Plan>, st: State, task: Task)
    requires Shape(ps, st)
  {
    task.Returned? || (Owner(task) < |ps| && TraceOk(ps[Owner(task)], st.trace[Owner(task)], task))
  }

  predicate MoverTraced(ps: seq<Plan>, st: State, st': State, t: nat)
    requires Shape(ps, st') && t < |st.tasks| <= |st'.tasks|
  {
    && NewTaskOk(ps, st', st'.tasks[t])
    && (|st'.tasks| > |st.tasks| ==> NewTaskOk(ps, st', st'.tasks[|st.tasks|]))
  }

  lemma UptoNext(i: nat)
    ensures Upto(i) + [i] == Upto(i + 1)
  {
  }

  lemma TraceStage(ps: seq<Plan>, st: State, step: Step)
    requires Shape(ps, st) && Enabled(ps, st, step) && TraceInv(ps, st) && step.RunStage?
    ensures MoverTraced(ps, st, Go(ps, st, step), step.t)
  {
    var at := st.tasks[step.t].at;
    assert TraceOk(ps[at.r], st.trace[at.r], st.tasks[step.t]);
    StagesAppend(st.trace[at.r], at.a, at.i);
    UptoNext(at.i);
  }

  lemma TraceStart(ps: seq<Plan>, st: State, step: Step)
    requires Shape(ps, st) && Enabled(ps, st, step) && TraceInv(ps, st) && step.Start?
    ensures MoverTraced(ps, st, Go(ps, st, step), step.t)
  {
    var task := st.tasks[step.t];
    assert TraceOk(ps[task.r], st.trace[task.r], task);
    NoneYet(st.trace[task.r], task.a);
  }

  lemma TraceSettle(ps: seq<Plan>, st: State, step: Step)
    requires Shape(ps, st) && Enabled(ps, st, step) && TraceInv(ps, st) && step.Settle?
    ensures MoverTraced(ps, st, Go(ps, st, step), step.t)
  {
    assert TraceOk(ps[Owner(st.tasks[step.t])], st.trace[Owner(st.tasks[step.t])], st.tasks[step.t]);
    assert Go(ps, st, step).trace == st.trace;
  }

  predicate IsYieldStep(step: Step) {
    step.YieldFault? || step.Allocate? || step.Register? || step.TakeAnswer? || step.TakeCancel?
  }

  /** Between a stage that yields and its settlement a task stays with the stage. */
  lemma StaysWithStage(ps: seq<Plan>, st: State, step: Step)
    requires Shape(ps, st) && Enabled(ps, st, step) && IsYieldStep(step)
    ensures var st', at := Go(ps, st, step), st.tasks[step.t].at;
            && |st.tasks| <= |st'.tasks|
            && StillAt(at, st'.tasks[step.t])
            && (|st'.tasks| > |st.tasks| ==> StillAt(at, st'.tasks[|st.tasks|]))
  {
    if step.Register? {
      RegisterEffect(ps, st, step);
    }
  }

  predicate StillAt(at: Place, task: Task) {
    || task.Returned? || task == Failing(at.r, at.a, Interrupted)
    || (HasCell(task) && task.at == at)
  }

  lemma TraceYield(ps: seq<Plan>, st: State, step: Step)
    requires Shape(ps, st) && Enabled(ps, st, step) && TraceInv(ps, st) && IsYieldStep(step)
    ensures |st.tasks| <= |Go(ps, st, step).tasks| && MoverTraced(ps, st, Go(ps, st, step), step.t)
  {
    StaysWithStage(ps, st, step);
    TraceSame(ps, st, step);
    assert TraceOk(ps[Owner(st.tasks[step.t])], st.trace[Owner(st.tasks[step.t])], st.tasks[step.t]);
  }

  lemma TraceOther(ps: seq<Plan>, st: State, step: Step)
    requires Shape(ps, st) && Enabled(ps, st, step) && TraceInv(ps, st) && IsTaskStep(step)
    requires !step.RunStage? && !step.Start? && !step.Settle? && !IsYieldStep(step)
    ensures |st.tasks| <= |Go(ps, st, step).tasks| && MoverTraced(ps, st, Go(ps, st, step), step.t)
  {
    TaskFrame(ps, st, step);
    TraceSame(ps, st, step);
    assert !st.tasks[step.t].Returned?;
    assert TraceOk(ps[Owner(st.tasks[step.t])], st.trace[Owner(st.tasks[step.t])], st.tasks[step.t]);
  }

  lemma TraceSame(ps: seq<Plan>, st: State, step: Step)
    requires Shape(ps, st) && Enabled(ps, st, step) && !step.RunStage?
    ensures Go(ps, st, step).trace == st.trace
  {
  }

  lemma TraceMover(ps: seq<Plan>, st: State, step: Step)
    requires Shape(ps, st) && Enabled(ps, st, step) && TraceInv(ps, st) && IsTaskStep(step)
    ensures |st.tasks| <= |Go(ps, st, step).tasks| && MoverTraced(ps, st, Go(ps, st, step), step.t)
  {
    TaskFrame(ps, st, step);
    if step.RunStage? {
      TraceStage(ps, st, step);
    } else if step.Start? {
      TraceStart(ps, st, step);
    } else if step.Settle? {
      TraceSettle(ps, st, step);
    } else if IsYieldStep(step) {
      TraceYield(ps, st, step);
    } else {
      TraceOther(ps, st, step);
    }
  }

  lemma TraceElsewhere(ps: seq<Plan>, st: State, step: Step, r: nat)
    requires Shape(ps, st) && Enabled(ps, st, step) && r < |ps|
    requires step.RunStage? ==> Owner(st.tasks[step.t]) != r
    ensures Go(ps, st, step).trace[r] == st.trace[r]
  {
    if !step.RunStage? {
      TraceSame(ps, st, step);
    }
  }

  lemma TraceBystander(ps: seq<Plan>, st: State, step: Step, u: nat)
    requires Shape(ps, st) && Enabled(ps, st, step) && TraceInv(ps, st) && Laws(ps, st)
    requires u < |st.tasks| && (IsTaskStep(step) ==> u != step.t) && !st.tasks[u].Returned?
    ensures TraceOk(ps[Owner(st.tasks[u])], Go(ps, st, step).trace[Owner(st.tasks[u])], st.tasks[u])
  {
    if step.RunStage? {
      Sole(ps, st, step.t, u);
    }
    TraceElsewhere(ps, st, step, Owner(st.tasks[u]));
  }

  lemma TraceTasks(ps: seq<Plan>, st: State, step: Step, u: nat)
    requires Shape(ps, st) && Enabled(ps, st, step) && TraceInv(ps, st) && Laws(ps, st)
    requires u < |Go(ps, st, step).tasks|
    ensures NewTaskOk(ps, Go(ps, st, step), Go(ps, st, step).tasks[u])
  {
    if u < |st.tasks| && (IsTaskStep(step) ==> u != step.t) {
      Bystander(ps, st, step, u);
      if !st.tasks[u].Returned? {
        TraceBystander(ps, st, step, u);
      }
    } else if IsTaskStep(step) {
      TaskFrame(ps, st, step);
      TraceMover(ps, st, step);
    } else {
      EnvFrame(ps, st, step);
      TraceSame(ps, st, step);
    }
  }

  // ---- Results -----------------------------------------------------------------------------------------

  lemma TraceFinish(ps: seq<Plan>, st: State, step: Step)
    requires Shape(ps, st) && Enabled(ps, st, step) && TraceInv(ps, st) && TasksOk(ps, st)
    requires step.Finish? || step.GiveUp?
    ensures var st', r := Go(ps, st, step), Owner(st.tasks[step.t]);
            && |st'.results[r]| == |st.results[r]| + 1
            && st'.results == st.results[r := st.results[r] + [st'.results[r][|st.results[r]|]]]
            && RanFor(ps[r], st.trace[r], st'.results[r][|st.results[r]|].a, st'.results[r][|st.results[r]|].result)
  {
    var task := st.tasks[step.t];
    assert TaskOk(ps, st.cells, task);
    assert TraceOk(ps[Owner(task)], st.trace[Owner(task)], task);
  }

  lemma TraceInterrupt(ps: seq<Plan>, st: State, step: Step, r: nat, k: nat)
    requires Shape(ps, st) && Enabled(ps, st, step) && r < |ps| && k < |Go(ps, st, step).results[r]|
    requires step.Settle? || step.Start? || step.Wake? || step.Submit?
    ensures var st' := Go(ps, st, step);
            st'.results[r][k].result == Interrupted || (k < |st.results[r]| && st'.results[r][k] == st.results[r][k])
  {
  }

  lemma TraceResults(ps: seq<Plan>, st: State, step: Step, r: nat, k: nat)
    requires Shape(ps, st) && Enabled(ps, st, step) && TraceInv(ps, st) && Laws(ps, st) && TasksOk(ps, st)
    requires r < |ps| && k < |Go(ps, st, step).results[r]|
    ensures var st' := Go(ps, st, step);
            RanFor(ps[r], st'.trace[r], st'.results[r][k].a, st'.results[r][k].result)
  {
    if step.RunStage? {
      ResultSame(ps, st, step);
      Sole(ps, st, step.t, step.t);
    } else {
      TraceSame(ps, st, step);
      if step.Finish? || step.GiveUp? {
        TraceFinish(ps, st, step);
      } else if step.Settle? || step.Start? || step.Wake? || step.Submit? {
        TraceInterrupt(ps, st, step, r, k);
      } else {
        ResultSame(ps, st, step);
      }
    }
  }

  lemma TraceFresh(ps: seq<Plan>, st: State, step: Step, r: nat)
    requires Shape(ps, st) && Enabled(ps, st, step) && TraceInv(ps, st) && Laws(ps, st) && r < |ps|
    requires !Go(ps, st, step).submitted[r]
    ensures Go(ps, st, step).trace[r] == []
  {
    SubmittedStays(ps, st, step, r);
    if step.RunStage? {
      var q := Owner(st.tasks[step.t]);
      assert DriverLaw(ps, st, q);
      TotalUpdate(Driver(q), st.tasks, step.t, Returned);
    } else {
      TraceSame(ps, st, step);
    }
  }

  lemma TraceStep(ps: seq<Plan>, st: State, step: Step)
    requires Shape(ps, st) && Enabled(ps, st, step) && TraceInv(ps, st) && Laws(ps, st) && TasksOk(ps, st)
    ensures TraceInv(ps, Go(ps, st, step))
  {
    var st' := Go(ps, st, step);
    forall u | 0 <= u < |st'.tasks| && !st'.tasks[u].Returned?
      ensures TraceOk(ps[Owner(st'.tasks[u])], st'.trace[Owner(st'.tasks[u])], st'.tasks[u])
    {
      TraceTasks(ps, st, step, u);
    }
    forall r, k | 0 <= r < |ps| && 0 <= k < |st'.results[r]|
      ensures RanFor(ps[r], st'.trace[r], st'.results[r][k].a, st'.results[r][k].result)
    {
      TraceResults(ps, st, step, r, k);
    }
    forall r | 0 <= r < |ps| && !st'.submitted[r] ensures st'.trace[r] == [] {
      TraceFresh(ps, st, step, r);
    }
  }

  lemma {:induction false} TraceRun(ps: seq<Plan>, st: State, steps: seq<Step>)
    requires Shape(ps, st) && Legal(ps, st, steps) && PlansOk(ps)
    requires TraceInv(ps, st) && Laws(ps, st) && EntryInv(st) && MeaningInv(ps, st)
    ensures TraceInv(ps, Run(ps, st, steps))
    decreases |steps|
  {
    if steps != [] {
      TraceStep(ps, st, steps[0]);
      EntryStep(ps, st, steps[0]);
      TasksKept(ps, st, steps[0]);
      CellsKept(ps, st, steps[0]);
      ResultsKept(ps, st, steps[0]);
      forall r | 0 <= r < |ps| ensures DriverLaw(ps, Go(ps, st, steps[0]), r) {
        assert DriverLaw(ps, st, r);
        DriverStep(ps, st, steps[0], r);
      }
      TraceRun(ps, Go(ps, st, steps[0]), steps[1..]);
    }
  }

  /** Over every run: the attempt that completed a request with an output (or a completion
      error) ran stages 0 to n-1 once each in order; one that failed at stage `i`, or was cancelled
      by its completer, ran exactly 0 to `i`. */
  lemma StagesRunInOrder(ps: seq<Plan>, st: State, steps: seq<Step>, r: nat)
    requires Init(ps, st) && Legal(ps, st, steps) && r < |ps|
    ensures var e := Run(ps, st, steps);
            e.results[r] != [] ==>
              var end := e.results[r][0];
              && (end.result.Done? || end.result.FinishFailed? ==> StagesOf(e.trace[r], end.a) == Upto(ps[r].stages))
              && (end.result.StageFailed? || end.result.Cancelled? ==>
                    StagesOf(e.trace[r], end.a) == Upto(end.result.stage + 1))
  {
    EntryInit(ps, st);
    TraceRun(ps, st, steps);
    var e := Run(ps, st, steps);
    assert e.results[r] != [] ==> RanFor(ps[r], e.trace[r], e.results[r][0].a, e.results[r][0].result);
  }
}
