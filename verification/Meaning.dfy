/** Meaning preservation: whatever the interleaving, a continuation pipeline computes what
    the synchronous runner computes, and runs its stages once each, in order. */
module Meaning {
  import opened Continuations
  import opened SingleDriver

  function Whole(ps: seq<Plan>, r: nat, a: nat): Result
    requires r < |ps|
  {
    Sync(ps[r], a, 0, ps[r].init)
  }

  predicate AttemptOk(ps: seq<Plan>, r: nat, a: nat) {
    r < |ps| && 1 <= a <= ps[r].maxAttempts
  }

  /** What is left to do at a place computes the result of the whole attempt. */
  predicate PlaceOk(ps: seq<Plan>, at: Place) {
    && AttemptOk(ps, at.r, at.a)
    && at.i <= ps[at.r].stages
    && Sync(ps[at.r], at.a, at.i, at.v) == Whole(ps, at.r, at.a)
  }

  predicate YieldOk(ps: seq<Plan>, cells: seq<Cell>, at: Place, c: nat) {
    && PlaceOk(ps, at) && at.i < ps[at.r].stages && ps[at.r].run(at.a, at.i, at.v) == Yield
    && c < |cells| && cells[c].at == at
  }

  predicate ResultOk(ps: seq<Plan>, r: nat, a: nat, result: Result) {
    result == Interrupted || (AttemptOk(ps, r, a) && result == Whole(ps, r, a))
  }

  predicate TaskOk(ps: seq<Plan>, cells: seq<Cell>, task: Task) {
    match task
    case Returned => true
    case QueuedRun(r, a) => AttemptOk(ps, r, a)
    case Sleeping(r, a) => AttemptOk(ps, r, a) && a < ps[r].maxAttempts
    case QueuedResume(at) => PlaceOk(ps, at)
    case AtStage(at) => PlaceOk(ps, at)
    case Yielded(at, c) => YieldOk(ps, cells, at, c)
    case Named(at, c, _) => YieldOk(ps, cells, at, c)
    case Waiting(at, c, _) => YieldOk(ps, cells, at, c)
    case Chosen(at, c, _, o) => YieldOk(ps, cells, at, c) && (o.Told? ==> o.answer == ps[at.r].answer(at.a, at.i, at.v))
    case Failing(r, a, why) => AttemptOk(ps, r, a) && ResultOk(ps, r, a, why)
  }

  predicate CellOk(ps: seq<Plan>, cell: Cell) {
    && cell.at.r < |ps|
    && (cell.buffer.Some? ==> cell.buffer.value == ps[cell.at.r].answer(cell.at.a, cell.at.i, cell.at.v))
  }

  predicate TasksOk(ps: seq<Plan>, st: State) {
    forall t :: 0 <= t < |st.tasks| ==> TaskOk(ps, st.cells, st.tasks[t])
  }

  predicate CellsOk(ps: seq<Plan>, st: State) {
    forall c :: 0 <= c < |st.cells| ==> CellOk(ps, st.cells[c])
  }

  predicate ResultsOk(ps: seq<Plan>, st: State) {
    forall r, k :: 0 <= r < |st.results| && 0 <= k < |st.results[r]| ==>
      ResultOk(ps, r, st.results[r][k].a, st.results[r][k].result)
  }

  predicate MeaningInv(ps: seq<Plan>, st: State) {
    TasksOk(ps, st) && CellsOk(ps, st) && ResultsOk(ps, st)
  }

  // ---- Cells --------------------------------------------------------------------------------------

  /** Cells stay, in their place and with the answer their plan gives. */
  predicate CellsStay(ps: seq<Plan>, st: State, st': State) {
    && CellsOk(ps, st') && |st.cells| <= |st'.cells|
    && forall c :: 0 <= c < |st.cells| ==> st'.cells[c].at == st.cells[c].at
  }

  lemma CellsByStage(ps: seq<Plan>, st: State, step: Step)
    requires Shape(ps, st) && Enabled(ps, st, step) && CellsOk(ps, st) && step.RunStage?
    ensures CellsStay(ps, st, Go(ps, st, step))
  {
  }

  lemma CellsByTask(ps: seq<Plan>, st: State, step: Step)
    requires Shape(ps, st) && Enabled(ps, st, step) && CellsOk(ps, st) && IsTaskStep(step) && !step.RunStage?
    ensures CellsStay(ps, st, Go(ps, st, step))
  {
  }

  lemma CellsByEnv(ps: seq<Plan>, st: State, step: Step)
    requires Shape(ps, st) && Enabled(ps, st, step) && CellsOk(ps, st) && !IsTaskStep(step)
    ensures CellsStay(ps, st, Go(ps, st, step))
  {
  }

  lemma CellsKept(ps: seq<Plan>, st: State, step: Step)
    requires Shape(ps, st) && Enabled(ps, st, step) && CellsOk(ps, st)
    ensures CellsStay(ps, st, Go(ps, st, step))
  {
    if step.RunStage? {
      CellsByStage(ps, st, step);
    } else if IsTaskStep(step) {
      CellsByTask(ps, st, step);
    } else {
      CellsByEnv(ps, st, step);
    }
  }

  lemma TaskStable(ps: seq<Plan>, cells: seq<Cell>, cells': seq<Cell>, task: Task)
    requires TaskOk(ps, cells, task) && |cells| <= |cells'|
    requires forall c :: 0 <= c < |cells| ==> cells'[c].at == cells[c].at
    ensures TaskOk(ps, cells', task)
  {
  }

  // ---- The moving task --------------------------------------------------------------------------------

  predicate MoverOk(ps: seq<Plan>, st: State, st': State, t: nat)
    requires t < |st.tasks| <= |st'.tasks|
  {
    && TaskOk(ps, st'.cells, st'.tasks[t])
    && (|st'.tasks| > |st.tasks| ==> TaskOk(ps, st'.cells, st'.tasks[|st.tasks|]))
  }

  lemma MoveStage(ps: seq<Plan>, st: State, step: Step)
    requires Shape(ps, st) && Enabled(ps, st, step) && TasksOk(ps, st) && step.RunStage?
    ensures MoverOk(ps, st, Go(ps, st, step), step.t)
  {
    assert TaskOk(ps, st.cells, st.tasks[step.t]);
  }

  lemma MoveRegister(ps: seq<Plan>, st: State, step: Step)
    requires Shape(ps, st) && Enabled(ps, st, step) && TasksOk(ps, st)
    requires step.Allocate? || step.Register? || step.YieldFault?
    ensures MoverOk(ps, st, Go(ps, st, step), step.t)
  {
    assert TaskOk(ps, st.cells, st.tasks[step.t]);
  }

  lemma MoveTake(ps: seq<Plan>, st: State, step: Step)
    requires Shape(ps, st) && Enabled(ps, st, step) && TasksOk(ps, st) && CellsOk(ps, st)
    requires step.TakeAnswer? || step.TakeCancel?
    ensures MoverOk(ps, st, Go(ps, st, step), step.t)
  {
    assert TaskOk(ps, st.cells, st.tasks[step.t]);
    assert CellOk(ps, st.cells[st.tasks[step.t].c]);
  }

  lemma MoveSettle(ps: seq<Plan>, st: State, step: Step)
    requires Shape(ps, st) && Enabled(ps, st, step) && TasksOk(ps, st) && step.Settle?
    ensures MoverOk(ps, st, Go(ps, st, step), step.t)
  {
    assert TaskOk(ps, st.cells, st.tasks[step.t]);
  }

  lemma MoveOther(ps: seq<Plan>, st: State, step: Step)
    requires Shape(ps, st) && Enabled(ps, st, step) && TasksOk(ps, st) && IsTaskStep(step)
    requires !step.RunStage? && !step.Allocate? && !step.Register? && !step.YieldFault?
    requires !step.TakeAnswer? && !step.TakeCancel? && !step.Settle?
    ensures |st.tasks| <= |Go(ps, st, step).tasks| && MoverOk(ps, st, Go(ps, st, step), step.t)
  {
    TaskFrame(ps, st, step);
    assert TaskOk(ps, st.cells, st.tasks[step.t]);
  }

  lemma MoverKept(ps: seq<Plan>, st: State, step: Step)
    requires Shape(ps, st) && Enabled(ps, st, step) && TasksOk(ps, st) && CellsOk(ps, st) && IsTaskStep(step)
    ensures |st.tasks| <= |Go(ps, st, step).tasks| && MoverOk(ps, st, Go(ps, st, step), step.t)
  {
    if step.RunStage? {
      MoveStage(ps, st, step);
    } else if step.Allocate? || step.Register? || step.YieldFault? {
      MoveRegister(ps, st, step);
    } else if step.TakeAnswer? || step.TakeCancel? {
      MoveTake(ps, st, step);
    } else if step.Settle? {
      MoveSettle(ps, st, step);
    } else {
      MoveOther(ps, st, step);
    }
  }

  lemma TasksKept(ps: seq<Plan>, st: State, step: Step)
    requires Shape(ps, st) && Enabled(ps, st, step) && TasksOk(ps, st) && CellsOk(ps, st) && PlansOk(ps)
    ensures TasksOk(ps, Go(ps, st, step))
  {
    var st' := Go(ps, st, step);
    CellsKept(ps, st, step);
    forall u | 0 <= u < |st'.tasks| ensures TaskOk(ps, st'.cells, st'.tasks[u]) {
      if u < |st.tasks| && (IsTaskStep(step) ==> u != step.t) {
        Bystander(ps, st, step, u);
        TaskStable(ps, st.cells, st'.cells, st.tasks[u]);
      } else if IsTaskStep(step) {
        TaskFrame(ps, st, step);
        MoverKept(ps, st, step);
      } else {
        EnvFrame(ps, st, step);
      }
    }
  }

  predicate PlansOk(ps: seq<Plan>) {
    forall r :: 0 <= r < |ps| ==> ps[r].maxAttempts >= 1
  }

  // ---- Results ------------------------------------------------------------------------------------------

  /** A step completes at most one future, and only with the result of a whole attempt. */
  predicate ResultsGrow(ps: seq<Plan>, st: State, st': State, r: nat, a: nat)
    requires r < |st.results|
  {
    || st'.results == st.results
    || (|st'.results| == |st.results|
        && |st'.results[r]| == |st.results[r]| + 1
        && st'.results == st.results[r := st.results[r] + [st'.results[r][|st.results[r]|]]]
        && st'.results[r][|st.results[r]|].a == a
        && ResultOk(ps, r, a, st'.results[r][|st.results[r]|].result))
  }

  lemma ResultFinish(ps: seq<Plan>, st: State, step: Step)
    requires Shape(ps, st) && Enabled(ps, st, step) && TasksOk(ps, st) && step.Finish?
    ensures ResultsGrow(ps, st, Go(ps, st, step), st.tasks[step.t].at.r, st.tasks[step.t].at.a)
  {
    assert TaskOk(ps, st.cells, st.tasks[step.t]);
    var at := st.tasks[step.t].at;
    assert Sync(ps[at.r], at.a, at.i, at.v) == Whole(ps, at.r, at.a);
  }

  lemma ResultSettle(ps: seq<Plan>, st: State, step: Step)
    requires Shape(ps, st) && Enabled(ps, st, step) && step.Settle?
    ensures ResultsGrow(ps, st, Go(ps, st, step), st.tasks[step.t].at.r, st.tasks[step.t].at.a)
  {
  }

  lemma ResultEnd(ps: seq<Plan>, st: State, step: Step)
    requires Shape(ps, st) && Enabled(ps, st, step) && TasksOk(ps, st) && (step.GiveUp? || step.Start? || step.Wake?)
    ensures ResultsGrow(ps, st, Go(ps, st, step), st.tasks[step.t].r, st.tasks[step.t].a)
  {
    assert TaskOk(ps, st.cells, st.tasks[step.t]);
  }

  lemma ResultSame(ps: seq<Plan>, st: State, step: Step)
    requires Shape(ps, st) && Enabled(ps, st, step)
    requires !step.Finish? && !step.Settle? && !step.GiveUp? && !step.Start? && !step.Wake? && !step.Submit?
    ensures Go(ps, st, step).results == st.results
  {
  }

  lemma ResultsGrown(ps: seq<Plan>, st: State, st': State, r: nat, a: nat)
    requires r < |st.results| && ResultsOk(ps, st) && ResultsGrow(ps, st, st', r, a)
    ensures ResultsOk(ps, st')
  {
  }

  lemma ResultsKept(ps: seq<Plan>, st: State, step: Step)
    requires Shape(ps, st) && Enabled(ps, st, step) && TasksOk(ps, st) && ResultsOk(ps, st)
    ensures ResultsOk(ps, Go(ps, st, step))
  {
    var st' := Go(ps, st, step);
    if step.Submit? {
      assert ResultsGrow(ps, st, st', step.r, 0);
      ResultsGrown(ps, st, st', step.r, 0);
    } else if step.Finish? {
      ResultFinish(ps, st, step);
      ResultsGrown(ps, st, st', st.tasks[step.t].at.r, st.tasks[step.t].at.a);
    } else if step.Settle? {
      ResultSettle(ps, st, step);
      ResultsGrown(ps, st, st', st.tasks[step.t].at.r, st.tasks[step.t].at.a);
    } else if step.GiveUp? || step.Start? || step.Wake? {
      ResultEnd(ps, st, step);
      ResultsGrown(ps, st, st', st.tasks[step.t].r, st.tasks[step.t].a);
    } else {
      ResultSame(ps, st, step);
    }
  }

  lemma {:induction false} MeaningRun(ps: seq<Plan>, st: State, steps: seq<Step>)
    requires Shape(ps, st) && Legal(ps, st, steps) && MeaningInv(ps, st) && PlansOk(ps)
    ensures MeaningInv(ps, Run(ps, st, steps))
    decreases |steps|
  {
    if steps != [] {
      TasksKept(ps, st, steps[0]);
      CellsKept(ps, st, steps[0]);
      ResultsKept(ps, st, steps[0]);
      MeaningRun(ps, Go(ps, st, steps[0]), steps[1..]);
    }
  }

  /** Meaning preservation, over every interleaving: if a request's future was completed at
      all, then once, and unless the environment cut the request short the value is what the
      synchronous runner yields on that attempt (same output, or same first failure). */
  lemma ResultIsSynchronous(ps: seq<Plan>, st: State, steps: seq<Step>, r: nat)
    requires Init(ps, st) && Legal(ps, st, steps) && r < |ps|
    ensures var rs := Run(ps, st, steps).results[r];
            && |rs| <= 1
            && (rs != [] ==>
                  || rs[0].result == Interrupted
                  || (1 <= rs[0].a <= ps[r].maxAttempts && rs[0].result == Sync(ps[r], rs[0].a, 0, ps[r].init)))
  {
    MeaningRun(ps, st, steps);
    OneDriverUntilDone(ps, st, steps, r);
    var e := Run(ps, st, steps);
    assert e.results[r] != [] ==> ResultOk(ps, r, e.results[r][0].a, e.results[r][0].result);
  }
}
