/** Pipelines with yielding stages, as labelled steps.

    A request is driven by tasks: a job in the scheduler queue, a worker running the
    stage loop, or a resolver goroutine.  Each step retires one task and may start one
    more.  Stage results, completer answers, lost contexts, exhausted deadlines, refused
    enqueues and retry decisions are parameters; a continuation is fresh per yield. */
module Continuations {
  import R = Registry

  datatype Option<T> = None | Some(value: T)

  datatype StageOut = Next(v: int) | Err(e: int) | Yield

  /** What an external completer says: Complete, Fail or Cancel. */
  datatype Answer = Completed(v: int) | Refused(e: int) | Withdrawn(e: int)

  datatype FinishOut = FinishOk(out: int) | FinishErr(e: int)

  /** How a future is completed; `Interrupted` stands for every way the environment cuts a
      request short (lost context, exhausted deadline, full registry, refused enqueue).  `stage` is
      the stage that failed, or the one whose completer cancelled. */
  datatype Result =
    | Done(out: int)
    | StageFailed(stage: nat, e: int)
    | FinishFailed(e: int)
    | Cancelled(stage: nat, e: int)
    | Interrupted

  /** A pipeline: arbitrary stage, answer and completion functions of attempt, stage and state. */
  datatype Plan = Plan(
    stages: nat, maxAttempts: nat, shard: nat, init: int,
    run: (nat, nat, int) -> StageOut, answer: (nat, nat, int) -> Answer, finish: (nat, int) -> FinishOut)

  // ---- The reference: the synchronous runner -----------------------------------------------------

  /** The sequential pipeline in which a yielding stage returns its answer directly. */
  function Sync(p: Plan, a: nat, i: nat, v: int): Result
    decreases p.stages - i
  {
    if i >= p.stages then
      match p.finish(a, v)
      case FinishOk(out) => Done(out)
      case FinishErr(e) => FinishFailed(e)
    else
      match p.run(a, i, v)
      case Next(v') => Sync(p, a, i + 1, v')
      case Err(e) => StageFailed(i, e)
      case Yield =>
        match p.answer(a, i, v)
        case Completed(v') => Sync(p, a, i + 1, v')
        case Refused(e) => StageFailed(i, e)
        case Withdrawn(e) => Cancelled(i, e)
  }

  function Upto(n: nat): seq<nat> {
    seq(n, i => i)
  }

  /** The same pipeline when the environment may stop it: `stop(i)` is the deadline or context check
      before stage `i`, or before completion when `i` is the number of stages. */
  function SyncUnless(p: Plan, a: nat, i: nat, v: int, stop: nat -> bool): Result
    decreases p.stages - i
  {
    if stop(i) then Interrupted
    else if i >= p.stages then Sync(p, a, i, v)
    else
      match p.run(a, i, v)
      case Next(v') => SyncUnless(p, a, i + 1, v', stop)
      case Err(e) => StageFailed(i, e)
      case Yield => Interrupted
  }

  /** Being stopped is the only way the checks change anything. */
  lemma {:induction false} StoppedOrSame(p: Plan, a: nat, i: nat, v: int, stop: nat -> bool)
    requires forall k, w :: 0 <= k < p.stages ==> p.run(a, k, w) != Yield
    ensures SyncUnless(p, a, i, v, stop) == Interrupted || SyncUnless(p, a, i, v, stop) == Sync(p, a, i, v)
    decreases p.stages - i
  {
    if !stop(i) && i < p.stages && p.run(a, i, v).Next? {
      StoppedOrSame(p, a, i + 1, p.run(a, i, v).v, stop);
    }
  }

  /** The synchronous stage loop itself, for a pipeline whose stages never yield: it gives the
      reference result, or is stopped by a check after having run exactly the stages before it. */
  method RunPipelineStages(p: Plan, a: nat, stop: nat -> bool) returns (result: Result, ran: seq<nat>)
    requires forall i, v :: 0 <= i < p.stages ==> p.run(a, i, v) != Yield
    ensures result == SyncUnless(p, a, 0, p.init, stop)
    ensures result == Interrupted || result == Sync(p, a, 0, p.init)
    ensures ran == Upto(|ran|) && |ran| <= p.stages
    ensures result.Interrupted? ==> stop(|ran|)
    ensures forall i :: 0 <= i < |ran| ==> !stop(i)
    ensures result.Done? || result.FinishFailed? ==> |ran| == p.stages
    ensures result.StageFailed? ==> |ran| == result.stage + 1
  {
    StoppedOrSame(p, a, 0, p.init, stop);
    var state := p.init;
    ran := [];
    var i := 0;
    while i < p.stages
      invariant i <= p.stages && ran == Upto(i) && forall k :: 0 <= k < i ==> !stop(k)
      invariant SyncUnless(p, a, i, state, stop) == SyncUnless(p, a, 0, p.init, stop)
    {
      if stop(i) {
        return Interrupted, ran;
      }
      ran := ran + [i];
      match p.run(a, i, state) {
        case Next(v) => state := v;
        case Err(e) => return StageFailed(i, e), ran;
        case Yield => assert false;
      }
      i := i + 1;
    }
    if stop(i) {
      return Interrupted, ran;
    }
    match p.finish(a, state) {
      case FinishOk(out) => result := Done(out);
      case FinishErr(e) => result := FinishFailed(e);
    }
  }

  // ---- State ---------------------------------------------------------------------------------------

  /** Where a request is: request, attempt, stage and pipeline state. */
  datatype Place = Place(r: nat, a: nat, i: nat, v: int)

  datatype Outcome = Told(answer: Answer) | ContextGone

  datatype Task =
    | Returned
    | QueuedRun(r: nat, a: nat)
    | QueuedResume(at: Place)
    | AtStage(at: Place)
    | Yielded(at: Place, c: nat)
    | Named(at: Place, c: nat, id: nat)
    | Waiting(at: Place, c: nat, id: nat)
    | Chosen(at: Place, c: nat, id: nat, o: Outcome)
    | Failing(r: nat, a: nat, why: Result)
    | Sleeping(r: nat, a: nat)

  /**
   * One continuation: its one-place outcome buffer, its `done` signal and its completer.  Until the
   * runner has `adopted` it for the request, it goes by the context its stage created it with.  It is
   * `doomed` if a call took that context to go by and found it ended, and `wasted` once such a call has
   * spent the completer's one shot although the request's context is good.
   */
  datatype Cell = Cell(
    at: Place, used: bool, buffer: Option<Answer>, wins: nat, done: bool,
    adopted: bool, doomed: bool, wasted: bool)

  datatype Ending = Ending(a: nat, result: Result)

  /** `results[r]` lists the calls that complete request `r`'s future; `trace[r]` the
      stages run so far as (attempt, stage). */
  datatype State = State(
    reg: R.Reg, tasks: seq<Task>, cells: seq<Cell>,
    cancelled: seq<bool>, submitted: seq<bool>, discarded: seq<nat>,
    results: seq<seq<Ending>>, trace: seq<seq<(nat, nat)>>)

  datatype Step =
    | Submit(r: nat, ok: bool)
    | CancelContext(r: nat)
    | Publish(c: nat)
    | Glimpse(c: nat)
    | Burn(c: nat)
    | Start(t: nat)
    | Resume(t: nat)
    | Discard(t: nat)
    | StageFault(t: nat)
    | RunStage(t: nat)
    | Finish(t: nat)
    | YieldFault(t: nat)
    | Allocate(t: nat)
    | Register(t: nat)
    | TakeAnswer(t: nat)
    | TakeCancel(t: nat)
    | Settle(t: nat, ok: bool)
    | GiveUp(t: nat)
    | Retry(t: nat)
    | Wake(t: nat, ok: bool)

  predicate IsTaskStep(step: Step) {
    !step.Submit? && !step.CancelContext? && !step.Publish? && !step.Glimpse? && !step.Burn?
  }

  /** The request a task works for; a returned task works for none. */
  function Owner(task: Task): nat {
    match task
    case Returned => 0
    case QueuedRun(r, _) => r
    case Failing(r, _, _) => r
    case Sleeping(r, _) => r
    case QueuedResume(at) => at.r
    case AtStage(at) => at.r
    case Yielded(at, _) => at.r
    case Named(at, _, _) => at.r
    case Waiting(at, _, _) => at.r
    case Chosen(at, _, _, _) => at.r
  }

  predicate HasCell(task: Task) {
    task.Yielded? || task.Named? || task.Waiting? || task.Chosen?
  }

  predicate TaskShape(ps: seq<Plan>, cells: nat, task: Task) {
    && (!task.Returned? ==> Owner(task) < |ps|)
    && (HasCell(task) ==> task.c < cells)
  }

  predicate Shape(ps: seq<Plan>, st: State) {
    && |st.cancelled| == |st.submitted| == |st.discarded| == |st.results| == |st.trace| == |ps|
    && (forall t :: 0 <= t < |st.tasks| ==> TaskShape(ps, |st.cells|, st.tasks[t]))
    && (forall c :: 0 <= c < |st.cells| ==> st.cells[c].at.r < |ps|)
  }

  /** What a task may do next.  A check of the request's context and what follows a good one are one step:
      the context may end in between, but then it may as well end right after. */
  predicate TaskEnabled(ps: seq<Plan>, st: State, task: Task, step: Step)
    requires |st.cancelled| == |ps| && TaskShape(ps, |st.cells|, task) && IsTaskStep(step)
  {
    match step
    case Start(_) => task.QueuedRun?
    case Resume(_) => task.QueuedResume?
    case Discard(_) => task.QueuedRun? || task.QueuedResume?
    case StageFault(_) => task.AtStage?
    case RunStage(_) => task.AtStage? && task.at.i < ps[task.at.r].stages && !st.cancelled[task.at.r]
    case Finish(_) => task.AtStage? && task.at.i >= ps[task.at.r].stages
    case YieldFault(_) => task.Yielded? && st.cancelled[task.at.r]
    case Allocate(_) => task.Yielded? && !st.cancelled[task.at.r]
    case Register(_) => task.Named?
    case TakeAnswer(_) => task.Waiting? && st.cells[task.c].buffer.Some?
    case TakeCancel(_) => task.Waiting? && st.cancelled[task.at.r]
    case Settle(_, _) => task.Chosen?
    case GiveUp(_) => task.Failing?
    case Retry(_) => task.Failing? && task.a < ps[task.r].maxAttempts && !st.cancelled[task.r]
    case Wake(_, _) => task.Sleeping?
  }

  predicate Enabled(ps: seq<Plan>, st: State, step: Step)
    requires Shape(ps, st)
  {
    match step
    case Submit(r, _) => r < |ps| && !st.submitted[r]
    case CancelContext(r) => r < |ps|
    case Publish(c) => c < |st.cells|
    case Glimpse(c) => c < |st.cells| && !st.cells[c].adopted
    case Burn(c) => c < |st.cells| && (st.cancelled[st.cells[c].at.r] || st.cells[c].doomed)
    case _ =>
      && step.t < |st.tasks|
      && TaskShape(ps, |st.cells|, st.tasks[step.t])
      && TaskEnabled(ps, st, st.tasks[step.t], step)
  }

  // ---- Steps ---------------------------------------------------------------------------------------

  /** Task `t` turns into `task`. */
  function Become(st: State, t: nat, task: Task): State
    requires t < |st.tasks|
  {
    st.(tasks := st.tasks[t := task])
  }

  /** Task `t` returns, leaving a new task behind. */
  function HandOver(st: State, t: nat, task: Task): State
    requires t < |st.tasks|
  {
    st.(tasks := st.tasks[t := Returned] + [task])
  }

  /** Task `t` completes the future of request `r` and returns. */
  function CompleteFuture(st: State, t: nat, r: nat, a: nat, result: Result): State
    requires t < |st.tasks| && r < |st.results|
  {
    st.(tasks := st.tasks[t := Returned], results := st.results[r := st.results[r] + [Ending(a, result)]])
  }

  function WithCell(st: State, c: nat, cell: Cell): State
    requires c < |st.cells|
  {
    st.(cells := st.cells[c := cell])
  }

  function ApplyRunStage(ps: seq<Plan>, st: State, t: nat, at: Place): State
    requires t < |st.tasks| && at.r < |ps| && |st.trace| == |ps|
  {
    var st' := st.(trace := st.trace[at.r := st.trace[at.r] + [(at.a, at.i)]]);
    match ps[at.r].run(at.a, at.i, at.v)
    case Next(v) => Become(st', t, AtStage(at.(i := at.i + 1, v := v)))
    case Err(e) => Become(st', t, Failing(at.r, at.a, StageFailed(at.i, e)))
    case Yield =>
      Become(st', t, Yielded(at, |st.cells|)).(
        cells := st.cells + [Cell(at, false, None, 0, false, false, false, false)])
  }

  function ApplyFinish(ps: seq<Plan>, st: State, t: nat, at: Place): State
    requires t < |st.tasks| && at.r < |ps| && |st.results| == |ps|
  {
    CompleteFuture(st, t, at.r, at.a,
                   match ps[at.r].finish(at.a, at.v)
                   case FinishOk(out) => Done(out)
                   case FinishErr(e) => FinishFailed(e))
  }

  /** A worker adopts the continuation for the request, whose context is good, and takes the next id
      for it; others may register before it does. */
  function ApplyAllocate(st: State, t: nat, at: Place, c: nat): State
    requires t < |st.tasks| && c < |st.cells|
  {
    Become(WithCell(st, c, st.cells[c].(adopted := true)), t, Named(at, c, st.reg.nextId + 1)).(
      reg := R.Alloc1(st.reg))
  }

  function ApplyRegister(ps: seq<Plan>, st: State, t: nat, at: Place, c: nat, id: nat): State
    requires t < |st.tasks| && at.r < |ps| && c < |st.cells|
  {
    if R.HasRoom(st.reg, ps[at.r].shard)
    then HandOver(st, t, Waiting(at, c, id)).(reg := R.Register(st.reg, id, ps[at.r].shard))
    else Become(WithCell(st, c, st.cells[c].(done := true)), t, Failing(at.r, at.a, Interrupted))
  }

  /** The completer's one shot: a full buffer loses, an empty one wins. */
  function ApplyPublish(ps: seq<Plan>, st: State, c: nat): State
    requires c < |st.cells| && st.cells[c].at.r < |ps|
  {
    var cell := st.cells[c];
    var p := ps[cell.at.r];
    if cell.used then st
    else if cell.buffer.Some? then WithCell(st, c, cell.(used := true))
    else
      var answer := p.answer(cell.at.a, cell.at.i, cell.at.v);
      WithCell(st, c, cell.(used := true, buffer := Some(answer), wins := cell.wins + 1))
  }

  /**
   * The shot spent without an answer, by a call that found the context ended.  Taking the context and
   * spending the shot are two moments: a call may take the stage's context before adoption, when
   * `Glimpse` says that it will find it ended, and spend the shot after it.
   */
  function ApplyBurn(st: State, c: nat): State
    requires c < |st.cells| && st.cells[c].at.r < |st.cancelled|
  {
    var cell := st.cells[c];
    if cell.used then st
    else WithCell(st, c, cell.(used := true, wasted := !st.cancelled[cell.at.r]))
  }

  function KindOf(o: Outcome): R.Kind {
    match o
    case ContextGone => R.Cancel
    case Told(Completed(_)) => R.Complete
    case Told(Refused(_)) => R.Fail
    case Told(Withdrawn(_)) => R.Cancel
  }

  /** The resolver after its choice: settle with the registry, then resume, fail or cancel. */
  function ApplySettle(st: State, t: nat, at: Place, c: nat, id: nat, o: Outcome, ok: bool): State
    requires t < |st.tasks| && at.r < |st.results| && c < |st.cells|
  {
    if id !in st.reg.pending
    then Become(st, t, Returned).(reg := R.Resolve(st.reg, id, KindOf(o)))
    else
      var st' := WithCell(st, c, st.cells[c].(done := true)).(reg := R.Resolve(st.reg, id, KindOf(o)));
      match o
      case ContextGone => Become(st', t, Failing(at.r, at.a, Interrupted))
      case Told(Completed(v)) =>
        if ok then HandOver(st', t, QueuedResume(at.(i := at.i + 1, v := v)))
        else CompleteFuture(st', t, at.r, at.a, Interrupted)
      case Told(Refused(e)) => Become(st', t, Failing(at.r, at.a, StageFailed(at.i, e)))
      case Told(Withdrawn(e)) => Become(st', t, Failing(at.r, at.a, Cancelled(at.i, e)))
  }

  function Apply(ps: seq<Plan>, st: State, step: Step): State
    requires Shape(ps, st) && Enabled(ps, st, step)
  {
    match step
    case Submit(r, ok) =>
      var st' := st.(submitted := st.submitted[r := true]);
      if ok then st'.(tasks := st.tasks + [QueuedRun(r, 1)])
      else st'.(results := st.results[r := st.results[r] + [Ending(0, Interrupted)]])
    case CancelContext(r) => st.(cancelled := st.cancelled[r := true])
    case Publish(c) => ApplyPublish(ps, st, c)
    case Glimpse(c) => WithCell(st, c, st.cells[c].(doomed := true))
    case Burn(c) => ApplyBurn(st, c)
    case Start(t) =>
      var task := st.tasks[t];
      if st.cancelled[task.r] then CompleteFuture(st, t, task.r, task.a, Interrupted)
      else Become(st, t, AtStage(Place(task.r, task.a, 0, ps[task.r].init)))
    case Resume(t) => Become(st, t, AtStage(st.tasks[t].at))
    case Discard(t) =>
      var r := Owner(st.tasks[t]);
      Become(st, t, Returned).(discarded := st.discarded[r := st.discarded[r] + 1])
    case StageFault(t) => Become(st, t, Failing(st.tasks[t].at.r, st.tasks[t].at.a, Interrupted))
    case RunStage(t) => ApplyRunStage(ps, st, t, st.tasks[t].at)
    case Finish(t) => ApplyFinish(ps, st, t, st.tasks[t].at)
    case YieldFault(t) =>
      var c := st.tasks[t].c;
      Become(WithCell(st, c, st.cells[c].(done := true, adopted := true)), t,
             Failing(st.tasks[t].at.r, st.tasks[t].at.a, Interrupted))
    case Allocate(t) => ApplyAllocate(st, t, st.tasks[t].at, st.tasks[t].c)
    case Register(t) => ApplyRegister(ps, st, t, st.tasks[t].at, st.tasks[t].c, st.tasks[t].id)
    case TakeAnswer(t) =>
      var task := st.tasks[t];
      var o := if st.cancelled[task.at.r] then ContextGone else Told(st.cells[task.c].buffer.value);
      Become(WithCell(st, task.c, st.cells[task.c].(buffer := None)), t, Chosen(task.at, task.c, task.id, o))
    case TakeCancel(t) =>
      var task := st.tasks[t];
      Become(WithCell(st, task.c, st.cells[task.c].(buffer := None, done := true)), t,
             Chosen(task.at, task.c, task.id, ContextGone))
    case Settle(t, ok) =>
      var task := st.tasks[t];
      ApplySettle(st, t, task.at, task.c, task.id, task.o, ok)
    case GiveUp(t) => CompleteFuture(st, t, st.tasks[t].r, st.tasks[t].a, st.tasks[t].why)
    case Retry(t) => Become(st, t, Sleeping(st.tasks[t].r, st.tasks[t].a))
    case Wake(t, ok) =>
      var task := st.tasks[t];
      if ok then HandOver(st, t, QueuedRun(task.r, task.a + 1))
      else CompleteFuture(st, t, task.r, task.a, Interrupted)
  }

  lemma ShapeEnv(ps: seq<Plan>, st: State, step: Step)
    requires Shape(ps, st) && Enabled(ps, st, step) && !IsTaskStep(step)
    ensures Shape(ps, Apply(ps, st, step))
  {
  }

  lemma ShapeStage(ps: seq<Plan>, st: State, step: Step)
    requires Shape(ps, st) && Enabled(ps, st, step) && step.RunStage?
    ensures Shape(ps, Apply(ps, st, step))
  {
    assert TaskShape(ps, |st.cells|, st.tasks[step.t]);
  }

  lemma ShapeSettle(ps: seq<Plan>, st: State, step: Step)
    requires Shape(ps, st) && Enabled(ps, st, step) && step.Settle?
    ensures Shape(ps, Apply(ps, st, step))
  {
    assert TaskShape(ps, |st.cells|, st.tasks[step.t]);
  }

  lemma ShapeRegister(ps: seq<Plan>, st: State, step: Step)
    requires Shape(ps, st) && Enabled(ps, st, step) && (step.Allocate? || step.Register? || step.Finish?)
    ensures Shape(ps, Apply(ps, st, step))
  {
    assert TaskShape(ps, |st.cells|, st.tasks[step.t]);
  }

  lemma ShapeTake(ps: seq<Plan>, st: State, step: Step)
    requires Shape(ps, st) && Enabled(ps, st, step) && (step.YieldFault? || step.TakeAnswer? || step.TakeCancel?)
    ensures Shape(ps, Apply(ps, st, step))
  {
    assert TaskShape(ps, |st.cells|, st.tasks[step.t]);
  }

  lemma ShapeTask(ps: seq<Plan>, st: State, step: Step)
    requires Shape(ps, st) && Enabled(ps, st, step) && IsTaskStep(step)
    requires !step.RunStage? && !step.Allocate? && !step.Register? && !step.Settle? && !step.Finish?
    requires !step.YieldFault? && !step.TakeAnswer? && !step.TakeCancel?
    ensures Shape(ps, Apply(ps, st, step))
  {
    assert TaskShape(ps, |st.cells|, st.tasks[step.t]);
  }

  lemma ShapeKept(ps: seq<Plan>, st: State, step: Step)
    requires Shape(ps, st) && Enabled(ps, st, step)
    ensures Shape(ps, Apply(ps, st, step))
  {
    if !IsTaskStep(step) {
      ShapeEnv(ps, st, step);
    } else if step.RunStage? {
      ShapeStage(ps, st, step);
    } else if step.Settle? {
      ShapeSettle(ps, st, step);
    } else if step.Allocate? || step.Register? || step.Finish? {
      ShapeRegister(ps, st, step);
    } else if step.YieldFault? || step.TakeAnswer? || step.TakeCancel? {
      ShapeTake(ps, st, step);
    } else {
      ShapeTask(ps, st, step);
    }
  }

  function Go(ps: seq<Plan>, st: State, step: Step): (st': State)
    requires Shape(ps, st) && Enabled(ps, st, step)
    ensures Shape(ps, st')
  {
    ShapeKept(ps, st, step);
    Apply(ps, st, step)
  }

  predicate Legal(ps: seq<Plan>, st: State, steps: seq<Step>)
    requires Shape(ps, st)
    decreases |steps|
  {
    steps == [] || (Enabled(ps, st, steps[0]) && Legal(ps, Go(ps, st, steps[0]), steps[1..]))
  }

  function Run(ps: seq<Plan>, st: State, steps: seq<Step>): (st': State)
    requires Shape(ps, st) && Legal(ps, st, steps)
    ensures Shape(ps, st')
    decreases |steps|
  {
    if steps == [] then st else Run(ps, Go(ps, st, steps[0]), steps[1..])
  }

  /** Nothing submitted yet, an empty registry, sane plans. */
  predicate Init(ps: seq<Plan>, st: State) {
    && Shape(ps, st) && st.tasks == [] && st.cells == []
    && st.reg == R.Empty(st.reg.maxPending, st.reg.maxPerShard)
    && (forall r :: 0 <= r < |ps| ==>
          && ps[r].maxAttempts >= 1 && !st.cancelled[r] && !st.submitted[r] && st.discarded[r] == 0
          && st.results[r] == [] && st.trace[r] == [])
  }
}
