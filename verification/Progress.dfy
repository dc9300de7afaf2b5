/** Termination and fault-freedom of continuation pipelines. */
module Progress {
  import opened Basics
  import opened Continuations
  import opened SingleDriver
  import opened Meaning
  import opened Answers
  import R = Registry

  // ---- Without faults, the result is the synchronous one, on the first attempt -----------------------

  /** The environment does not interfere in this step. */
  predicate Faultless(ps: seq<Plan>, st: State, step: Step)
    requires Shape(ps, st) && Enabled(ps, st, step)
  {
    match step
    case Submit(_, ok) => ok
    case CancelContext(_) => false
    case Discard(_) => false
    case StageFault(_) => false
    case YieldFault(_) => false
    case Register(t) => R.HasRoom(st.reg, ps[st.tasks[t].at.r].shard)
    case Settle(_, ok) => ok
    case Retry(_) => false
    case Wake(_, ok) => ok
    case _ => true
  }

  predicate FaultlessRun(ps: seq<Plan>, st: State, steps: seq<Step>)
    requires Shape(ps, st) && Legal(ps, st, steps)
    decreases |steps|
  {
    steps == [] || (Faultless(ps, st, steps[0]) && FaultlessRun(ps, Go(ps, st, steps[0]), steps[1..]))
  }

  predicate FirstTry(task: Task) {
    match task
    case Returned => true
    case QueuedRun(_, a) => a == 1
    case Sleeping(_, _) => false
    case Failing(_, a, why) => a == 1 && why != Interrupted
    case Chosen(at, _, _, o) => at.a == 1 && o.Told?
    case QueuedResume(at) => at.a == 1
    case AtStage(at) => at.a == 1
    case Yielded(at, _) => at.a == 1
    case Named(at, _, _) => at.a == 1
    case Waiting(at, _, _) => at.a == 1
  }

  predicate CleanInv(st: State) {
    && (forall t :: 0 <= t < |st.tasks| ==> FirstTry(st.tasks[t]))
    && (forall r :: 0 <= r < |st.cancelled| ==> !st.cancelled[r])
    && (forall r :: 0 <= r < |st.discarded| ==> st.discarded[r] == 0)
    && (forall r, k :: 0 <= r < |st.results| && 0 <= k < |st.results[r]| ==>
          st.results[r][k].a == 1 && st.results[r][k].result != Interrupted)
  }

  lemma CleanTask(ps: seq<Plan>, st: State, step: Step)
    requires Shape(ps, st) && Enabled(ps, st, step) && CleanInv(st) && EntryInv(st) && IsTaskStep(step)
    requires Faultless(ps, st, step)
    ensures var st' := Go(ps, st, step);
            && |st.tasks| <= |st'.tasks| && FirstTry(st'.tasks[step.t])
            && (|st'.tasks| > |st.tasks| ==> FirstTry(st'.tasks[|st.tasks|]))
  {
    TaskFrame(ps, st, step);
    assert FirstTry(st.tasks[step.t]);
    if step.Register? {
      RegisterEffect(ps, st, step);
    }
  }

  lemma CleanResults(ps: seq<Plan>, st: State, step: Step)
    requires Shape(ps, st) && Enabled(ps, st, step) && CleanInv(st) && EntryInv(st) && Faultless(ps, st, step)
    ensures var st' := Go(ps, st, step);
            forall r, k :: 0 <= r < |st'.results| && 0 <= k < |st'.results[r]| ==>
              st'.results[r][k].a == 1 && st'.results[r][k].result != Interrupted
  {
    if IsTaskStep(step) {
      assert FirstTry(st.tasks[step.t]);
      if step.Settle? {
        ResolverFindsEntry(st, step.t);
      } else if !step.Finish? && !step.GiveUp? && !step.Start? && !step.Wake? {
        ResultSame(ps, st, step);
      }
    }
  }

  lemma CleanFlags(ps: seq<Plan>, st: State, step: Step)
    requires Shape(ps, st) && Enabled(ps, st, step)
    ensures !step.CancelContext? ==> Go(ps, st, step).cancelled == st.cancelled
    ensures !step.Discard? ==> Go(ps, st, step).discarded == st.discarded
  {
  }

  lemma CleanStep(ps: seq<Plan>, st: State, step: Step)
    requires Shape(ps, st) && Enabled(ps, st, step) && CleanInv(st) && EntryInv(st) && Faultless(ps, st, step)
    ensures CleanInv(Go(ps, st, step))
  {
    var st' := Go(ps, st, step);
    CleanResults(ps, st, step);
    CleanFlags(ps, st, step);
    forall u | 0 <= u < |st'.tasks| ensures FirstTry(st'.tasks[u]) {
      if u < |st.tasks| && (IsTaskStep(step) ==> u != step.t) {
        Bystander(ps, st, step, u);
      } else if IsTaskStep(step) {
        TaskFrame(ps, st, step);
        CleanTask(ps, st, step);
      } else {
        EnvFrame(ps, st, step);
      }
    }
  }

  lemma {:induction false} CleanRun(ps: seq<Plan>, st: State, steps: seq<Step>)
    requires Shape(ps, st) && Legal(ps, st, steps) && FaultlessRun(ps, st, steps) && CleanInv(st) && EntryInv(st)
    ensures CleanInv(Run(ps, st, steps))
    decreases |steps|
  {
    if steps != [] {
      CleanStep(ps, st, steps[0]);
      EntryStep(ps, st, steps[0]);
      CleanRun(ps, Go(ps, st, steps[0]), steps[1..]);
    }
  }

  /** With no deadline, cancellation, refusal or retry in the run, a completed request holds
      exactly the synchronous result of its first attempt; `FaultFreeCompletion` says when it is complete. */
  lemma FaultFreeMeaning(ps: seq<Plan>, st: State, steps: seq<Step>, r: nat)
    requires Init(ps, st) && Legal(ps, st, steps) && FaultlessRun(ps, st, steps) && r < |ps|
    ensures var rs := Run(ps, st, steps).results[r];
            rs == [] || rs == [Ending(1, Sync(ps[r], 1, 0, ps[r].init))]
  {
    EntryInit(ps, st);
    CleanRun(ps, st, steps);
    ResultIsSynchronous(ps, st, steps, r);
    var rs := Run(ps, st, steps).results[r];
    if rs != [] {
      assert rs[0].a == 1 && rs[0].result != Interrupted;
      assert rs == [rs[0]];
    }
  }

  // ---- Termination --------------------------------------------------------------------------------------

  function Minus(a: nat, b: nat): nat {
    if a > b then a - b else 0
  }

  function AttemptOf(task: Task): nat {
    match task
    case Returned => 0
    case QueuedRun(_, a) => a
    case Sleeping(_, a) => a
    case Failing(_, a, _) => a
    case QueuedResume(at) => at.a
    case AtStage(at) => at.a
    case Yielded(at, _) => at.a
    case Named(at, _, _) => at.a
    case Waiting(at, _, _) => at.a
    case Chosen(at, _, _, _) => at.a
  }

  /** Stages left, refined by how far the current stage has got. */
  function StagesLeft(p: Plan, task: Task): nat {
    match task
    case Returned => 0
    case QueuedRun(_, _) => 6 * p.stages + 5
    case QueuedResume(at) => 6 * Minus(p.stages, at.i) + 5
    case AtStage(at) => 6 * Minus(p.stages, at.i) + 4
    case Yielded(at, _) => 6 * Minus(p.stages, at.i) + 3
    case Named(at, _, _) => 6 * Minus(p.stages, at.i) + 2
    case Waiting(at, _, _) => 6 * Minus(p.stages, at.i) + 1
    case Chosen(at, _, _, _) => 6 * Minus(p.stages, at.i)
    case Failing(_, _, _) => 2
    case Sleeping(_, _) => 1
  }

  /** The lexicographic order of (attempts left, stages left). */
  predicate Below(p: Plan, x: Task, y: Task) {
    || Minus(p.maxAttempts, AttemptOf(x)) < Minus(p.maxAttempts, AttemptOf(y))
    || (AttemptOf(x) == AttemptOf(y) && StagesLeft(p, x) < StagesLeft(p, y))
  }

  /** What carries the request on after a step, if anything. */
  function Successor(st: State, st': State, t: nat): Task
    requires t < |st.tasks| <= |st'.tasks|
  {
    if |st'.tasks| > |st.tasks| then st'.tasks[|st.tasks|] else st'.tasks[t]
  }

  predicate Descends(ps: seq<Plan>, st: State, st': State, t: nat)
    requires t < |st.tasks| && MovesOne(st, st', t) && Owner(st.tasks[t]) < |ps|
  {
    var task, next := st.tasks[t], Successor(st, st', t);
    && (|st'.tasks| > |st.tasks| ==> st'.tasks[t].Returned?)
    && (next.Returned? || (Owner(next) == Owner(task) && Below(ps[Owner(task)], next, task)))
  }

  lemma StageDescends(ps: seq<Plan>, st: State, step: Step)
    requires Shape(ps, st) && Enabled(ps, st, step) && step.RunStage? && MovesOne(st, Go(ps, st, step), step.t)
    ensures Descends(ps, st, Go(ps, st, step), step.t)
  {
  }

  lemma RegisterDescends(ps: seq<Plan>, st: State, step: Step)
    requires Shape(ps, st) && Enabled(ps, st, step) && (step.Allocate? || step.Register?)
    requires MovesOne(st, Go(ps, st, step), step.t) && TaskOk(ps, st.cells, st.tasks[step.t])
    ensures Descends(ps, st, Go(ps, st, step), step.t)
  {
  }

  lemma SettleDescends(ps: seq<Plan>, st: State, step: Step)
    requires Shape(ps, st) && Enabled(ps, st, step) && step.Settle? && MovesOne(st, Go(ps, st, step), step.t)
    requires TaskOk(ps, st.cells, st.tasks[step.t])
    ensures Descends(ps, st, Go(ps, st, step), step.t)
  {
  }

  lemma RetryDescends(ps: seq<Plan>, st: State, step: Step)
    requires step.GiveUp? || step.Retry? || step.Wake? || step.Discard?
    requires Shape(ps, st) && Enabled(ps, st, step) && MovesOne(st, Go(ps, st, step), step.t)
    requires TaskOk(ps, st.cells, st.tasks[step.t])
    ensures Descends(ps, st, Go(ps, st, step), step.t)
  {
  }

  lemma OtherDescends(ps: seq<Plan>, st: State, step: Step)
    requires Shape(ps, st) && Enabled(ps, st, step) && IsTaskStep(step) && MovesOne(st, Go(ps, st, step), step.t)
    requires !step.RunStage? && !step.Allocate? && !step.Register? && !step.Settle?
    requires !step.GiveUp? && !step.Retry? && !step.Wake? && !step.Discard?
    requires TaskOk(ps, st.cells, st.tasks[step.t])
    ensures Descends(ps, st, Go(ps, st, step), step.t)
  {
  }

  /** Every step of a driver ends the request's work or moves it down lexicographically. */
  lemma DriverDescends(ps: seq<Plan>, st: State, step: Step)
    requires Shape(ps, st) && Enabled(ps, st, step) && IsTaskStep(step) && TasksOk(ps, st)
    ensures MovesOne(st, Go(ps, st, step), step.t)
    ensures Descends(ps, st, Go(ps, st, step), step.t)
  {
    TaskFrame(ps, st, step);
    assert TaskOk(ps, st.cells, st.tasks[step.t]);
    if step.RunStage? {
      StageDescends(ps, st, step);
    } else if step.Allocate? || step.Register? {
      RegisterDescends(ps, st, step);
    } else if step.Settle? {
      SettleDescends(ps, st, step);
    } else if step.GiveUp? || step.Retry? || step.Wake? || step.Discard? {
      RetryDescends(ps, st, step);
    } else {
      OtherDescends(ps, st, step);
    }
  }

  lemma StagesLeftRange(ps: seq<Plan>, cells: seq<Cell>, task: Task)
    requires !task.Returned? && Owner(task) < |ps|
    ensures StagesLeft(ps[Owner(task)], task) <= 6 * ps[Owner(task)].stages + 5
    ensures TaskOk(ps, cells, task) ==> StagesLeft(ps[Owner(task)], task) > 0
  {
  }

  function Rank(p: Plan, task: Task): nat {
    Times(Minus(p.maxAttempts, AttemptOf(task)), 6 * p.stages + 6) + StagesLeft(p, task)
  }

  function Work(ps: seq<Plan>, r: nat, ts: seq<Task>): nat
    requires r < |ps|
  {
    if ts == [] then 0 else Work(ps, r, ts[..|ts| - 1]) + Share(ps, r, ts[|ts| - 1])
  }

  function Share(ps: seq<Plan>, r: nat, task: Task): nat
    requires r < |ps|
  {
    if !task.Returned? && Owner(task) == r then Rank(ps[r], task) else 0
  }

  lemma {:induction false} WorkUpdate(ps: seq<Plan>, r: nat, ts: seq<Task>, t: nat, task: Task)
    requires t < |ts| && r < |ps|
    ensures Work(ps, r, ts[t := task]) == Work(ps, r, ts) - Share(ps, r, ts[t]) + Share(ps, r, task)
  {
    var n := |ts| - 1;
    if t == n {
      assert ts[t := task][..n] == ts[..n];
    } else {
      WorkUpdate(ps, r, ts[..n], t, task);
      assert ts[t := task][..n] == ts[..n][t := task];
    }
  }

  lemma WorkAppend(ps: seq<Plan>, r: nat, ts: seq<Task>, task: Task)
    requires r < |ps|
    ensures Work(ps, r, ts + [task]) == Work(ps, r, ts) + Share(ps, r, task)
  {
    assert (ts + [task])[..|ts|] == ts;
  }

  lemma {:induction false} TimesMonotone(a: nat, b: nat, q: nat)
    requires a < b
    ensures Times(a, q) + q <= Times(b, q)
  {
    if a < b - 1 {
      TimesMonotone(a, b - 1, q);
    }
  }

  lemma BelowLowersRank(p: Plan, x: Task, y: Task)
    requires Below(p, x, y) && StagesLeft(p, x) <= 6 * p.stages + 5
    ensures Rank(p, x) < Rank(p, y)
  {
    if Minus(p.maxAttempts, AttemptOf(x)) < Minus(p.maxAttempts, AttemptOf(y)) {
      TimesMonotone(Minus(p.maxAttempts, AttemptOf(x)), Minus(p.maxAttempts, AttemptOf(y)), 6 * p.stages + 6);
    }
  }

  predicate MovesRequest(ps: seq<Plan>, st: State, step: Step, r: nat)
    requires Shape(ps, st) && Enabled(ps, st, step)
  {
    IsTaskStep(step) && Owner(st.tasks[step.t]) == r
  }

  lemma WorkMoved(ps: seq<Plan>, st: State, st': State, t: nat, r: nat)
    requires r < |ps| && t < |st.tasks| && MovesOne(st, st', t)
    ensures Work(ps, r, st'.tasks) == Work(ps, r, st.tasks) - Share(ps, r, st.tasks[t]) + Share(ps, r, st'.tasks[t])
                                      + (if |st'.tasks| > |st.tasks| then Share(ps, r, st'.tasks[|st.tasks|]) else 0)
  {
    var n := |st.tasks|;
    WorkUpdate(ps, r, st.tasks, t, st'.tasks[t]);
    if |st'.tasks| > n {
      WorkAppend(ps, r, st'.tasks[..n], st'.tasks[n]);
      assert st'.tasks == st'.tasks[..n] + [st'.tasks[n]];
    } else {
      assert st'.tasks == st'.tasks[..n];
    }
  }

  lemma WorkTask(ps: seq<Plan>, st: State, step: Step, r: nat)
    requires Shape(ps, st) && Enabled(ps, st, step) && IsTaskStep(step) && TasksOk(ps, st) && r < |ps|
    ensures Work(ps, r, Go(ps, st, step).tasks) + One(MovesRequest(ps, st, step, r)) <= Work(ps, r, st.tasks)
  {
    var st', task := Go(ps, st, step), st.tasks[step.t];
    DriverDescends(ps, st, step);
    WorkMoved(ps, st, st', step.t, r);
    NotReturned(ps, st, step);
    assert TaskOk(ps, st.cells, task);
    StagesLeftRange(ps, st.cells, task);
    var next := Successor(st, st', step.t);
    if !next.Returned? {
      StagesLeftRange(ps, st'.cells, next);
      BelowLowersRank(ps[Owner(task)], next, task);
    }
  }

  lemma NotReturned(ps: seq<Plan>, st: State, step: Step)
    requires Shape(ps, st) && Enabled(ps, st, step) && IsTaskStep(step)
    ensures !st.tasks[step.t].Returned?
  {
  }

  /** A submitted request may use up the work of its first job; nothing else adds work. */
  function Granted(ps: seq<Plan>, st: State, step: Step, r: nat): nat
    requires Shape(ps, st) && Enabled(ps, st, step) && r < |ps|
  {
    if step.Submit? && step.ok && step.r == r then Rank(ps[r], QueuedRun(r, 1)) else 0
  }

  lemma WorkEnv(ps: seq<Plan>, st: State, step: Step, r: nat)
    requires Shape(ps, st) && Enabled(ps, st, step) && !IsTaskStep(step) && r < |ps|
    ensures Work(ps, r, Go(ps, st, step).tasks) == Work(ps, r, st.tasks) + Granted(ps, st, step, r)
  {
    if step.Submit? && step.ok {
      WorkAppend(ps, r, st.tasks, QueuedRun(step.r, 1));
    } else {
      assert Go(ps, st, step).tasks == st.tasks;
    }
  }

  function DriverSteps(ps: seq<Plan>, st: State, steps: seq<Step>, r: nat): nat
    requires Shape(ps, st) && Legal(ps, st, steps)
    decreases |steps|
  {
    if steps == [] then 0
    else One(MovesRequest(ps, st, steps[0], r)) + DriverSteps(ps, Go(ps, st, steps[0]), steps[1..], r)
  }

  lemma {:induction false} WorkRun(ps: seq<Plan>, st: State, steps: seq<Step>, r: nat)
    requires Shape(ps, st) && Legal(ps, st, steps) && MeaningInv(ps, st) && PlansOk(ps) && r < |ps|
    ensures DriverSteps(ps, st, steps, r)
         <= Work(ps, r, st.tasks) + (if st.submitted[r] then 0 else Rank(ps[r], QueuedRun(r, 1)))
    decreases |steps|
  {
    if steps != [] {
      var st' := Go(ps, st, steps[0]);
      if IsTaskStep(steps[0]) {
        WorkTask(ps, st, steps[0], r);
      } else {
        WorkEnv(ps, st, steps[0], r);
      }
      SubmittedStays(ps, st, steps[0], r);
      TasksKept(ps, st, steps[0]);
      CellsKept(ps, st, steps[0]);
      ResultsKept(ps, st, steps[0]);
      WorkRun(ps, st', steps[1..], r);
    }
  }

  /** Every request takes a bounded number of steps, whatever the interleaving, the answers
      and the retries: fewer than MaxAttempts times six per stage and six more. */
  lemma RequestsTerminate(ps: seq<Plan>, st: State, steps: seq<Step>, r: nat)
    requires Init(ps, st) && Legal(ps, st, steps) && r < |ps|
    ensures DriverSteps(ps, st, steps, r) < ps[r].maxAttempts * (6 * ps[r].stages + 6)
  {
    InitialLaws(ps, st, r);
    WorkRun(ps, st, steps, r);
    FullRank(ps[r], r);
    TimesIsProduct(ps[r].maxAttempts, 6 * ps[r].stages + 6);
  }

  lemma InitialLaws(ps: seq<Plan>, st: State, r: nat)
    requires Init(ps, st) && r < |ps|
    ensures MeaningInv(ps, st) && PlansOk(ps) && Work(ps, r, st.tasks) == 0 && !st.submitted[r]
  {
  }

  lemma FullRank(p: Plan, r: nat)
    requires p.maxAttempts >= 1
    ensures Rank(p, QueuedRun(r, 1)) < Times(p.maxAttempts, 6 * p.stages + 6)
  {
  }

  // ---- Nothing gets stuck ---------------------------------------------------------------------------------

  function NextStep(ps: seq<Plan>, st: State, t: nat): Step
    requires Shape(ps, st) && t < |st.tasks| && TaskShape(ps, |st.cells|, st.tasks[t])
  {
    var task := st.tasks[t];
    match task
    case Returned => Start(t)
    case QueuedRun(_, _) => Start(t)
    case QueuedResume(_) => Resume(t)
    case AtStage(at) =>
      if at.i >= ps[at.r].stages then Finish(t) else if st.cancelled[at.r] then StageFault(t) else RunStage(t)
    case Yielded(at, _) => if st.cancelled[at.r] then YieldFault(t) else Allocate(t)
    case Named(_, _, _) => Register(t)
    case Waiting(at, _, _) => if st.cancelled[at.r] then TakeCancel(t) else TakeAnswer(t)
    case Chosen(_, _, _, _) => Settle(t, true)
    case Failing(_, _, _) => GiveUp(t)
    case Sleeping(_, _) => Wake(t, true)
  }

  /** A driver can always move, except a resolver whose completer has not answered yet and
      whose context is still good. */
  lemma DriverCanMove(ps: seq<Plan>, st: State, t: nat)
    requires Shape(ps, st) && t < |st.tasks| && TaskShape(ps, |st.cells|, st.tasks[t]) && !st.tasks[t].Returned?
    ensures Enabled(ps, st, NextStep(ps, st, t)) <==>
            !(st.tasks[t].Waiting? && st.cells[st.tasks[t].c].buffer.None? && !st.cancelled[st.tasks[t].at.r])
  {
  }

  // ---- Where requests come to rest --------------------------------------------------------------------------

  lemma {:induction false} SomeDriver(ts: seq<Task>, r: nat) returns (t: nat)
    requires Total(Driver(r), ts) > 0
    ensures t < |ts| && !ts[t].Returned? && Owner(ts[t]) == r
  {
    var n := |ts| - 1;
    if Weigh(Driver(r), ts[n]) > 0 {
      t := n;
    } else {
      t := SomeDriver(ts[..n], r);
    }
  }

  predicate Drives(st: State, t: nat, r: nat) {
    t < |st.tasks| && !st.tasks[t].Returned? && Owner(st.tasks[t]) == r
  }

  /** No driver of the request can take its next step. */
  ghost predicate AtRest(ps: seq<Plan>, st: State, r: nat)
    requires Shape(ps, st)
  {
    forall t: nat :: Drives(st, t, r) && TaskShape(ps, |st.cells|, st.tasks[t]) ==>
      !Enabled(ps, st, NextStep(ps, st, t))
  }

  /** The driver waits for a completer that nobody has called yet. */
  predicate AwaitsCall(ps: seq<Plan>, st: State, t: nat, r: nat)
    requires Shape(ps, st)
  {
    && r < |ps| && Drives(st, t, r) && st.tasks[t].Waiting? && st.tasks[t].c < |st.cells|
    && var cell := st.cells[st.tasks[t].c];
       cell.at == st.tasks[t].at && cell.buffer.None? && !cell.used && !st.cancelled[r]
  }

  /** What can hold a request up for good: a completer nobody called, or one whose shot was wasted. */
  ghost predicate HeldUp(ps: seq<Plan>, st: State, r: nat)
    requires Shape(ps, st)
  {
    (exists t :: AwaitsCall(ps, st, t, r)) || (exists t :: Stranded(ps, st, t, r))
  }

  /** Everything a run keeps. */
  ghost predicate Governed(ps: seq<Plan>, st: State, r: nat)
    requires Shape(ps, st)
  {
    && r < |ps| && PlansOk(ps) && MeaningInv(ps, st) && EntryInv(st) && DriverLaw(ps, st, r)
    && HolderInv(st) && AnswerInv(ps, st) && WinInv(st)
  }

  lemma GovernedStep(ps: seq<Plan>, st: State, step: Step, r: nat)
    requires Shape(ps, st) && Enabled(ps, st, step) && Governed(ps, st, r)
    ensures Governed(ps, Go(ps, st, step), r)
  {
    TasksKept(ps, st, step);
    CellsKept(ps, st, step);
    ResultsKept(ps, st, step);
    EntryStep(ps, st, step);
    DriverStep(ps, st, step, r);
    HolderStep(ps, st, step);
    AnswerStep(ps, st, step);
    WinStep(ps, st, step);
  }

  lemma {:induction false} GovernedRun(ps: seq<Plan>, st: State, steps: seq<Step>, r: nat)
    requires Shape(ps, st) && Legal(ps, st, steps) && Governed(ps, st, r)
    ensures Governed(ps, Run(ps, st, steps), r)
    decreases |steps|
  {
    if steps != [] {
      GovernedStep(ps, st, steps[0], r);
      GovernedRun(ps, Go(ps, st, steps[0]), steps[1..], r);
    }
  }

  /** A driver without an enabled next step waits for a call, or for one that was wasted. */
  lemma StuckDriver(ps: seq<Plan>, st: State, t: nat, r: nat)
    requires Shape(ps, st) && Governed(ps, st, r) && Drives(st, t, r)
    requires TaskShape(ps, |st.cells|, st.tasks[t]) && !Enabled(ps, st, NextStep(ps, st, t))
    ensures AwaitsCall(ps, st, t, r) || Stranded(ps, st, t, r)
  {
    DriverCanMove(ps, st, t);
    assert TaskOk(ps, st.cells, st.tasks[t]);
    assert NoneMissed(ps, st, st.tasks[t]);
  }

  /**
   * Where runs end: an accepted request none of whose drivers can move has been completed, exactly
   * once and with no driver left, or its sole driver waits for a completer that was never called or
   * whose shot was wasted.  The last cannot be while the contexts of its continuations last.
   */
  lemma RestMeansDone(ps: seq<Plan>, st: State, steps: seq<Step>, r: nat)
    requires Init(ps, st) && Legal(ps, st, steps) && r < |ps|
    requires var e := Run(ps, st, steps); e.submitted[r] && e.discarded[r] == 0 && AtRest(ps, e, r)
    ensures var e := Run(ps, st, steps);
            || (|e.results[r]| == 1 && Total(Driver(r), e.tasks) == 0)
            || (e.results[r] == [] && Total(Driver(r), e.tasks) == 1 && HeldUp(ps, e, r))
    ensures ContextsLast(ps, st, steps, r) ==> forall t :: !Stranded(ps, Run(ps, st, steps), t, r)
  {
    var e := Run(ps, st, steps);
    InitialLaws(ps, st, r);
    EntryInit(ps, st);
    GovernedRun(ps, st, steps, r);
    if ContextsLast(ps, st, steps, r) {
      NoneStranded(ps, st, steps, r);
    }
    if e.results[r] == [] {
      var t := SomeDriver(e.tasks, r);
      assert TaskShape(ps, |e.cells|, e.tasks[t]);
      StuckDriver(ps, e, t, r);
    }
  }

  lemma NoneStranded(ps: seq<Plan>, st: State, steps: seq<Step>, r: nat)
    requires Shape(ps, st) && Legal(ps, st, steps) && Governed(ps, st, r) && NoneDoomed(st, r)
    requires ContextsLast(ps, st, steps, r)
    ensures forall t :: !Stranded(ps, Run(ps, st, steps), t, r)
  {
    NoneDoomedRun(ps, st, steps, r);
    GovernedRun(ps, st, steps, r);
    var e := Run(ps, st, steps);
    forall t: nat ensures !Stranded(ps, e, t, r) {
      if t < |e.tasks| && e.tasks[t].Waiting? && e.tasks[t].c < |e.cells| {
        assert CellLaw(e.cells[e.tasks[t].c]);
      }
    }
  }

  // ---- In a faultless run only a won call takes a task off its continuation ----------------------------

  ghost predicate HeldOpen(st: State, c: nat) {
    exists t: nat :: t < |st.tasks| && Awaits(st.tasks[t]) && st.tasks[t].c == c
  }

  ghost predicate OpenInv(st: State) {
    forall c :: 0 <= c < |st.cells| && st.cells[c].wins == 0 ==> HeldOpen(st, c)
  }

  lemma HolderStays(ps: seq<Plan>, st: State, step: Step, t: nat)
    requires Shape(ps, st) && Enabled(ps, st, step) && Faultless(ps, st, step) && CleanInv(st) && WinInv(st)
    requires t < |st.tasks| && Awaits(st.tasks[t]) && IsTaskStep(step) && step.t == t
    requires st.tasks[t].c < |st.cells| && st.cells[st.tasks[t].c].wins == 0
    ensures HeldOpen(Go(ps, st, step), st.tasks[t].c)
  {
    var st', c := Go(ps, st, step), st.tasks[t].c;
    assert CellLaw(st.cells[c]);
    assert FirstTry(st.tasks[t]);
    if step.Register? {
      RegisterEffect(ps, st, step);
      assert Awaits(st'.tasks[|st.tasks|]) && st'.tasks[|st.tasks|].c == c;
    } else {
      assert step.Allocate?;
      AllocateEffect(ps, st, step);
      assert Awaits(st'.tasks[t]) && st'.tasks[t].c == c;
    }
  }

  lemma StageOpens(ps: seq<Plan>, st: State, step: Step)
    requires Shape(ps, st) && Enabled(ps, st, step) && |Go(ps, st, step).cells| > |st.cells|
    ensures |Go(ps, st, step).cells| == |st.cells| + 1 && HeldOpen(Go(ps, st, step), |st.cells|)
  {
    assert step.RunStage?;
    assert Awaits(Go(ps, st, step).tasks[step.t]);
  }

  lemma OpenStep(ps: seq<Plan>, st: State, step: Step)
    requires Shape(ps, st) && Enabled(ps, st, step) && Faultless(ps, st, step) && CleanInv(st) && WinInv(st)
    requires OpenInv(st)
    ensures OpenInv(Go(ps, st, step))
  {
    var st' := Go(ps, st, step);
    WinsGrow(ps, st, step);
    forall c | 0 <= c < |st'.cells| && st'.cells[c].wins == 0 ensures HeldOpen(st', c) {
      if c < |st.cells| {
        assert HeldOpen(st, c);
        var t: nat :| t < |st.tasks| && Awaits(st.tasks[t]) && st.tasks[t].c == c;
        if IsTaskStep(step) && step.t == t {
          HolderStays(ps, st, step, t);
        } else {
          Bystander(ps, st, step, t);
          assert Awaits(st'.tasks[t]);
        }
      } else {
        StageOpens(ps, st, step);
      }
    }
  }

  lemma {:induction false} OpenRun(ps: seq<Plan>, st: State, steps: seq<Step>)
    requires Shape(ps, st) && Legal(ps, st, steps) && FaultlessRun(ps, st, steps)
    requires CleanInv(st) && EntryInv(st) && WinInv(st) && OpenInv(st)
    ensures OpenInv(Run(ps, st, steps))
    decreases |steps|
  {
    if steps != [] {
      OpenStep(ps, st, steps[0]);
      CleanStep(ps, st, steps[0]);
      EntryStep(ps, st, steps[0]);
      WinStep(ps, st, steps[0]);
      OpenRun(ps, Go(ps, st, steps[0]), steps[1..]);
    }
  }

  predicate NoneWasted(st: State, r: nat) {
    forall c :: 0 <= c < |st.cells| && st.cells[c].at.r == r ==> !st.cells[c].wasted
  }

  /** A wasted shot keeps its driver. */
  lemma WastedIsDriven(ps: seq<Plan>, st: State, r: nat)
    requires Shape(ps, st) && Governed(ps, st, r) && OpenInv(st) && !NoneWasted(st, r)
    ensures Total(Driver(r), st.tasks) > 0
  {
    var c :| 0 <= c < |st.cells| && st.cells[c].at.r == r && st.cells[c].wasted;
    assert CellLaw(st.cells[c]) && HeldOpen(st, c);
    var t: nat :| t < |st.tasks| && Awaits(st.tasks[t]) && st.tasks[t].c == c;
    HolderDrives(ps, st, t, r);
  }

  lemma HolderDrives(ps: seq<Plan>, st: State, t: nat, r: nat)
    requires TasksOk(ps, st) && t < |st.tasks| && Awaits(st.tasks[t])
    requires st.tasks[t].c < |st.cells| && st.cells[st.tasks[t].c].at.r == r
    ensures Total(Driver(r), st.tasks) > 0
  {
    assert TaskOk(ps, st.cells, st.tasks[t]);
    TotalUpdate(Driver(r), st.tasks, t, Returned);
  }

  /**
   * Meaning preservation in full: with no deadline, cancellation, refusal or retry, once every
   * completer of an accepted request was called and none of its drivers can move, its future holds
   * exactly the result of the synchronous runner in which each yielding stage returns its answer, if
   * and only if no completer's shot was wasted.  None is while the contexts of its continuations last.
   */
  lemma FaultFreeCompletion(ps: seq<Plan>, st: State, steps: seq<Step>, r: nat)
    requires Init(ps, st) && Legal(ps, st, steps) && FaultlessRun(ps, st, steps) && r < |ps|
    requires var e := Run(ps, st, steps);
             && e.submitted[r] && AtRest(ps, e, r)
             && forall c :: 0 <= c < |e.cells| && e.cells[c].at.r == r ==> e.cells[c].used
    ensures var e := Run(ps, st, steps);
            && (e.results[r] == [Ending(1, Sync(ps[r], 1, 0, ps[r].init))] <==> NoneWasted(e, r))
            && (ContextsLast(ps, st, steps, r) ==> NoneWasted(e, r))
  {
    var e := Run(ps, st, steps);
    InitialLaws(ps, st, r);
    EntryInit(ps, st);
    CleanRun(ps, st, steps);
    OpenRun(ps, st, steps);
    GovernedRun(ps, st, steps, r);
    FaultFreeMeaning(ps, st, steps, r);
    RestMeansDone(ps, st, steps, r);
    assert forall t :: !AwaitsCall(ps, e, t, r);
    if !NoneWasted(e, r) {
      WastedIsDriven(ps, e, r);
    } else {
      assert forall t :: !Stranded(ps, e, t, r);
    }
    if ContextsLast(ps, st, steps, r) {
      NoneDoomedRun(ps, st, steps, r);
      assert forall c :: 0 <= c < |e.cells| ==> CellLaw(e.cells[c]);
    }
  }

  // ---- No dead ends -----------------------------------------------------------------------------------------

  ghost predicate CanStep(ps: seq<Plan>, st: State, r: nat)
    requires Shape(ps, st)
  {
    exists t: nat :: Drives(st, t, r) && TaskShape(ps, |st.cells|, st.tasks[t]) && Enabled(ps, st, NextStep(ps, st, t))
  }

  lemma OwnStep(ps: seq<Plan>, st: State, t: nat)
    requires Shape(ps, st) && t < |st.tasks| && TaskShape(ps, |st.cells|, st.tasks[t])
    ensures var step := NextStep(ps, st, t); IsTaskStep(step) && step.t == t && !step.Discard?
  {
  }

  /** The step that brings a request on: its driver's own, or the call its driver waits for, or the end
      of its context where that call was wasted. */
  lemma Onward(ps: seq<Plan>, st: State, r: nat) returns (step: Step)
    requires Shape(ps, st) && Governed(ps, st, r) && st.submitted[r] && st.discarded[r] == 0 && st.results[r] == []
    ensures Enabled(ps, st, step) && !step.Discard? && !step.Submit? && !step.Glimpse?
    ensures NoneDoomed(st, r) ==> !step.CancelContext?
    ensures || Work(ps, r, Go(ps, st, step).tasks) < Work(ps, r, st.tasks)
            || (&& Work(ps, r, Go(ps, st, step).tasks) == Work(ps, r, st.tasks)
                && !CanStep(ps, st, r) && CanStep(ps, Go(ps, st, step), r))
  {
    var t := SomeDriver(st.tasks, r);
    assert TaskShape(ps, |st.cells|, st.tasks[t]);
    if CanStep(ps, st, r) {
      var u: nat :| Drives(st, u, r) && TaskShape(ps, |st.cells|, st.tasks[u])
                    && Enabled(ps, st, NextStep(ps, st, u));
      step := NextStep(ps, st, u);
      OwnStep(ps, st, u);
      WorkTask(ps, st, step, r);
    } else {
      StuckDriver(ps, st, t, r);
      if AwaitsCall(ps, st, t, r) {
        step := Publish(st.tasks[t].c);
        PublishWakes(ps, st, t, r);
      } else {
        assert CellLaw(st.cells[st.tasks[t].c]);
        step := CancelContext(r);
        CancelWakes(ps, st, t, r);
      }
      WorkEnv(ps, st, step, r);
    }
  }

  lemma CancelWakes(ps: seq<Plan>, st: State, t: nat, r: nat)
    requires Shape(ps, st) && Stranded(ps, st, t, r) && TaskShape(ps, |st.cells|, st.tasks[t])
    ensures CanStep(ps, Go(ps, st, CancelContext(r)), r)
  {
    var st' := Go(ps, st, CancelContext(r));
    assert Drives(st', t, r) && TaskShape(ps, |st'.cells|, st'.tasks[t]);
    DriverCanMove(ps, st', t);
  }

  lemma PublishWakes(ps: seq<Plan>, st: State, t: nat, r: nat)
    requires Shape(ps, st) && AwaitsCall(ps, st, t, r) && TaskShape(ps, |st.cells|, st.tasks[t])
    ensures CanStep(ps, Go(ps, st, Publish(st.tasks[t].c)), r)
  {
    var st' := Go(ps, st, Publish(st.tasks[t].c));
    assert Drives(st', t, r) && TaskShape(ps, |st'.cells|, st'.tasks[t]);
    DriverCanMove(ps, st', t);
  }

  lemma {:induction false} CanComplete(ps: seq<Plan>, st: State, r: nat) returns (more: seq<Step>)
    requires Shape(ps, st) && Governed(ps, st, r) && st.submitted[r] && st.discarded[r] == 0
    ensures Legal(ps, st, more) && Run(ps, st, more).results[r] != []
    ensures NoneDoomed(st, r) ==> forall s :: s in more ==> !s.CancelContext?
    decreases Work(ps, r, st.tasks), One(!CanStep(ps, st, r))
  {
    if st.results[r] != [] {
      return [];
    }
    var step := Onward(ps, st, r);
    var st' := Go(ps, st, step);
    GovernedStep(ps, st, step, r);
    SubmittedStays(ps, st, step, r);
    CleanFlags(ps, st, step);
    DoomFrame(ps, st, step);
    var rest := CanComplete(ps, st', r);
    more := [step] + rest;
    assert more[1..] == rest;
  }

  /** From any point of any run every accepted request can still be completed, and then is exactly once;
      without the end of any context while those of its continuations last. */
  lemma NoDeadEnds(ps: seq<Plan>, st: State, steps: seq<Step>, r: nat)
    requires Init(ps, st) && Legal(ps, st, steps) && r < |ps|
    requires Run(ps, st, steps).submitted[r] && Run(ps, st, steps).discarded[r] == 0
    ensures var e := Run(ps, st, steps);
            exists more: seq<Step> :: Legal(ps, e, more) && |Run(ps, e, more).results[r]| == 1
              && (ContextsLast(ps, st, steps, r) ==> forall s :: s in more ==> !s.CancelContext?)
  {
    InitialLaws(ps, st, r);
    EntryInit(ps, st);
    GovernedRun(ps, st, steps, r);
    var e := Run(ps, st, steps);
    if ContextsLast(ps, st, steps, r) {
      NoneDoomedRun(ps, st, steps, r);
    }
    var more := CanComplete(ps, e, r);
    GovernedRun(ps, e, more, r);
    assert DriverLaw(ps, Run(ps, e, more), r);
  }
}
