/** One live driver per request: until its future completes, exactly one task works for an
    accepted request; afterwards none does, so the future is completed exactly once. */
module SingleDriver {
  import opened Basics
  import opened Continuations
  import R = Registry

  /** Tasks that work for a request, own a registry entry, hold an id yet to be registered, or hold a
      continuation. */
  datatype Gauge = Driver(r: nat) | Entry(id: nat) | Claim(id: nat) | Holder(c: nat)

  function Weigh(g: Gauge, task: Task): nat {
    match g
    case Driver(r) => One(!task.Returned? && Owner(task) == r)
    case Entry(id) => One((task.Waiting? || task.Chosen?) && task.id == id)
    case Claim(id) => One(task.Named? && task.id == id)
    case Holder(c) => One(HasCell(task) && task.c == c)
  }

  function Total(g: Gauge, ts: seq<Task>): nat {
    if ts == [] then 0 else Total(g, ts[..|ts| - 1]) + Weigh(g, ts[|ts| - 1])
  }

  lemma {:induction false} TotalUpdate(g: Gauge, ts: seq<Task>, t: nat, task: Task)
    requires t < |ts|
    ensures Total(g, ts[t := task]) == Total(g, ts) - Weigh(g, ts[t]) + Weigh(g, task)
    ensures Weigh(g, ts[t]) <= Total(g, ts)
  {
    var n := |ts| - 1;
    if t == n {
      assert ts[t := task][..n] == ts[..n];
    } else {
      TotalUpdate(g, ts[..n], t, task);
      assert ts[t := task][..n] == ts[..n][t := task];
    }
  }

  lemma TotalAppend(g: Gauge, ts: seq<Task>, task: Task)
    ensures Total(g, ts + [task]) == Total(g, ts) + Weigh(g, task)
  {
    assert (ts + [task])[..|ts|] == ts;
  }

  /** What a step leaves: the mover changed, and at most one new task behind. */
  predicate MovesOne(st: State, st': State, t: nat)
    requires t < |st.tasks|
  {
    && |st.tasks| <= |st'.tasks| <= |st.tasks| + 1
    && st'.tasks[..|st.tasks|] == st.tasks[t := st'.tasks[t]]
  }

  lemma TaskFrame(ps: seq<Plan>, st: State, step: Step)
    requires Shape(ps, st) && Enabled(ps, st, step) && IsTaskStep(step)
    ensures MovesOne(st, Go(ps, st, step), step.t)
  {
  }

  /** Outside a task's own steps, a request is submitted or the tasks stay as they are. */
  lemma EnvFrame(ps: seq<Plan>, st: State, step: Step)
    requires Shape(ps, st) && Enabled(ps, st, step) && !IsTaskStep(step)
    ensures var st' := Go(ps, st, step);
            && st'.reg == st.reg
            && (|| st'.tasks == st.tasks
                || (step.Submit? && !st.submitted[step.r] && st'.tasks == st.tasks + [QueuedRun(step.r, 1)]))
  {
  }

  lemma Bystander(ps: seq<Plan>, st: State, step: Step, u: nat)
    requires Shape(ps, st) && Enabled(ps, st, step) && u < |st.tasks| && (IsTaskStep(step) ==> u != step.t)
    ensures u < |Go(ps, st, step).tasks| && Go(ps, st, step).tasks[u] == st.tasks[u]
  {
    if IsTaskStep(step) {
      TaskFrame(ps, st, step);
      assert Go(ps, st, step).tasks[u] == Go(ps, st, step).tasks[..|st.tasks|][u];
    } else {
      EnvFrame(ps, st, step);
    }
  }

  lemma SubmittedStays(ps: seq<Plan>, st: State, step: Step, r: nat)
    requires Shape(ps, st) && Enabled(ps, st, step) && r < |ps|
    ensures st.submitted[r] ==> Go(ps, st, step).submitted[r]
    ensures step.Submit? && step.r == r ==> Go(ps, st, step).submitted[r] && !st.submitted[r]
  {
  }

  lemma StepTotal(g: Gauge, st: State, st': State, t: nat)
    requires t < |st.tasks| && MovesOne(st, st', t)
    ensures Total(g, st'.tasks) == Total(g, st.tasks) - Weigh(g, st.tasks[t]) + Weigh(g, st'.tasks[t])
                                   + (if |st'.tasks| > |st.tasks| then Weigh(g, st'.tasks[|st.tasks|]) else 0)
    ensures Weigh(g, st.tasks[t]) <= Total(g, st.tasks)
  {
    var n := |st.tasks|;
    TotalUpdate(g, st.tasks, t, st'.tasks[t]);
    if |st'.tasks| > n {
      TotalAppend(g, st'.tasks[..n], st'.tasks[n]);
      assert st'.tasks == st'.tasks[..n] + [st'.tasks[n]];
    } else {
      assert st'.tasks == st'.tasks[..n];
    }
  }

  // ---- Registry entries are held by exactly one resolver -------------------------------------------

  /** A pending entry has one resolver, and an id is claimed or pending at most once and only if it
      was allocated. */
  predicate EntryLaw(st: State, id: nat) {
    && Total(Entry(id), st.tasks) == One(id in st.reg.pending)
    && Total(Claim(id), st.tasks) + One(id in st.reg.pending) <= 1
    && (id > st.reg.nextId ==> Total(Claim(id), st.tasks) == 0)
  }

  ghost predicate EntryInv(st: State) {
    R.RegLaw(st.reg) && forall id :: EntryLaw(st, id)
  }

  lemma AllocateEffect(ps: seq<Plan>, st: State, step: Step)
    requires Shape(ps, st) && Enabled(ps, st, step) && step.Allocate?
    ensures var st', task := Go(ps, st, step), st.tasks[step.t];
            && st'.reg == R.Alloc1(st.reg) && |st'.tasks| == |st.tasks|
            && st'.tasks[step.t] == Named(task.at, task.c, st.reg.nextId + 1)
  {
  }

  /** A task with no entry takes the next id. */
  lemma ClaimedAt(st: State, st': State, t: nat, id: nat)
    requires t < |st.tasks| && MovesOne(st, st', t) && |st'.tasks| == |st.tasks| && st.tasks[t].Yielded?
    requires st'.reg == R.Alloc1(st.reg) && R.RegLaw(st.reg) && EntryLaw(st, id)
    requires st'.tasks[t].Named? && st'.tasks[t].id == st.reg.nextId + 1
    ensures EntryLaw(st', id)
  {
    StepTotal(Entry(id), st, st', t);
    StepTotal(Claim(id), st, st', t);
  }

  lemma EntryAllocateAt(ps: seq<Plan>, st: State, step: Step, id: nat)
    requires Shape(ps, st) && Enabled(ps, st, step) && step.Allocate? && R.RegLaw(st.reg) && EntryLaw(st, id)
    ensures EntryLaw(Go(ps, st, step), id)
  {
    TaskFrame(ps, st, step);
    AllocateEffect(ps, st, step);
    ClaimedAt(st, Go(ps, st, step), step.t, id);
  }

  lemma EntryAllocate(ps: seq<Plan>, st: State, step: Step)
    requires Shape(ps, st) && Enabled(ps, st, step) && step.Allocate? && EntryInv(st)
    ensures EntryInv(Go(ps, st, step))
  {
    AllocateEffect(ps, st, step);
    R.AllocKeeps(st.reg);
    forall id ensures EntryLaw(Go(ps, st, step), id) {
      assert EntryLaw(st, id);
      EntryAllocateAt(ps, st, step, id);
    }
  }

  lemma RegisterEffect(ps: seq<Plan>, st: State, step: Step)
    requires Shape(ps, st) && Enabled(ps, st, step) && step.Register?
    ensures var st', task := Go(ps, st, step), st.tasks[step.t];
            && st'.reg == R.Register(st.reg, task.id, ps[task.at.r].shard)
            && (if R.HasRoom(st.reg, ps[task.at.r].shard)
                then st'.tasks[step.t] == Returned && |st'.tasks| == |st.tasks| + 1
                     && st'.tasks[|st.tasks|] == Waiting(task.at, task.c, task.id)
                else st'.tasks[step.t].Failing? && |st'.tasks| == |st.tasks|)
  {
    var task := st.tasks[step.t];
    assert Go(ps, st, step) == ApplyRegister(ps, st, step.t, task.at, task.c, task.id);
  }

  /** A task turns its id into an entry and leaves a resolver behind, or finds no room. */
  lemma RegisteredAt(st: State, st': State, t: nat, shard: nat, id: nat)
    requires t < |st.tasks| && MovesOne(st, st', t) && st.tasks[t].Named? && EntryLaw(st, id)
    requires st'.reg == R.Register(st.reg, st.tasks[t].id, shard)
    requires if R.HasRoom(st.reg, shard)
      then st'.tasks[t] == Returned && |st'.tasks| == |st.tasks| + 1
           && st'.tasks[|st.tasks|] == Waiting(st.tasks[t].at, st.tasks[t].c, st.tasks[t].id)
      else st'.tasks[t].Failing? && |st'.tasks| == |st.tasks|
    ensures EntryLaw(st', id)
  {
    StepTotal(Entry(id), st, st', t);
    StepTotal(Claim(id), st, st', t);
  }

  lemma EntryRegisterAt(ps: seq<Plan>, st: State, step: Step, id: nat)
    requires Shape(ps, st) && Enabled(ps, st, step) && step.Register? && EntryLaw(st, id)
    ensures EntryLaw(Go(ps, st, step), id)
  {
    TaskFrame(ps, st, step);
    RegisterEffect(ps, st, step);
    RegisteredAt(st, Go(ps, st, step), step.t, ps[st.tasks[step.t].at.r].shard, id);
  }

  lemma EntryRegister(ps: seq<Plan>, st: State, step: Step)
    requires Shape(ps, st) && Enabled(ps, st, step) && step.Register? && EntryInv(st)
    ensures EntryInv(Go(ps, st, step))
  {
    var task := st.tasks[step.t];
    forall id ensures EntryLaw(Go(ps, st, step), id) {
      assert EntryLaw(st, id);
      EntryRegisterAt(ps, st, step, id);
    }
    RegisterEffect(ps, st, step);
    assert EntryLaw(st, task.id);
    TotalUpdate(Claim(task.id), st.tasks, step.t, Returned);
    R.RegisterKeeps(st.reg, task.id, ps[task.at.r].shard);
  }

  lemma SettleEffect(ps: seq<Plan>, st: State, step: Step)
    requires Shape(ps, st) && Enabled(ps, st, step) && step.Settle?
    ensures var st', task := Go(ps, st, step), st.tasks[step.t];
            && st'.reg == R.Resolve(st.reg, task.id, KindOf(task.o))
            && st'.reg.pending == st.reg.pending - {task.id} && st'.reg.nextId == st.reg.nextId
            && (st'.tasks[step.t].Returned? || st'.tasks[step.t].Failing?)
            && (|st'.tasks| > |st.tasks| ==> st'.tasks[|st.tasks|].QueuedResume?)
  {
    var task := st.tasks[step.t];
    if task.id !in st.reg.pending {
      assert st.reg.pending - {task.id} == st.reg.pending;
    }
  }

  /** A resolver takes its entry out. */
  lemma SettledAt(st: State, st': State, t: nat, id: nat)
    requires t < |st.tasks| && MovesOne(st, st', t) && st.tasks[t].Chosen? && EntryLaw(st, id)
    requires st'.reg.pending == st.reg.pending - {st.tasks[t].id} && st'.reg.nextId == st.reg.nextId
    requires st'.tasks[t].Returned? || st'.tasks[t].Failing?
    requires |st'.tasks| > |st.tasks| ==> st'.tasks[|st.tasks|].QueuedResume?
    ensures EntryLaw(st', id)
  {
    StepTotal(Entry(id), st, st', t);
    StepTotal(Claim(id), st, st', t);
  }

  lemma EntrySettleAt(ps: seq<Plan>, st: State, step: Step, id: nat)
    requires Shape(ps, st) && Enabled(ps, st, step) && step.Settle? && EntryLaw(st, id)
    ensures EntryLaw(Go(ps, st, step), id)
  {
    TaskFrame(ps, st, step);
    SettleEffect(ps, st, step);
    SettledAt(st, Go(ps, st, step), step.t, id);
  }

  lemma EntrySettle(ps: seq<Plan>, st: State, step: Step)
    requires Shape(ps, st) && Enabled(ps, st, step) && step.Settle? && EntryInv(st)
    ensures EntryInv(Go(ps, st, step))
  {
    forall id ensures EntryLaw(Go(ps, st, step), id) {
      assert EntryLaw(st, id);
      EntrySettleAt(ps, st, step, id);
    }
    SettleEffect(ps, st, step);
    R.ResolveKeeps(st.reg, st.tasks[step.t].id, KindOf(st.tasks[step.t].o));
  }

  lemma EntryFrame(ps: seq<Plan>, st: State, step: Step, g: Gauge)
    requires Shape(ps, st) && Enabled(ps, st, step) && IsTaskStep(step) && (g.Entry? || g.Claim?)
    requires !step.Allocate? && !step.Register? && !step.Settle?
    ensures var st' := Go(ps, st, step);
            && st'.reg == st.reg
            && Weigh(g, st'.tasks[step.t]) == Weigh(g, st.tasks[step.t])
            && (|st'.tasks| > |st.tasks| ==> Weigh(g, st'.tasks[|st.tasks|]) == 0)
  {
  }

  lemma EntryOther(ps: seq<Plan>, st: State, step: Step)
    requires Shape(ps, st) && Enabled(ps, st, step) && IsTaskStep(step) && EntryInv(st)
    requires !step.Allocate? && !step.Register? && !step.Settle?
    ensures EntryInv(Go(ps, st, step))
  {
    var st' := Go(ps, st, step);
    TaskFrame(ps, st, step);
    EntryFrame(ps, st, step, Entry(0));
    forall id ensures EntryLaw(st', id) {
      assert EntryLaw(st, id);
      StepTotal(Entry(id), st, st', step.t);
      StepTotal(Claim(id), st, st', step.t);
      EntryFrame(ps, st, step, Entry(id));
      EntryFrame(ps, st, step, Claim(id));
    }
  }

  lemma EntryEnv(ps: seq<Plan>, st: State, step: Step)
    requires Shape(ps, st) && Enabled(ps, st, step) && !IsTaskStep(step) && EntryInv(st)
    ensures EntryInv(Go(ps, st, step))
  {
    var st' := Go(ps, st, step);
    EnvFrame(ps, st, step);
    forall id ensures EntryLaw(st', id) {
      assert EntryLaw(st, id);
      if st'.tasks != st.tasks {
        TotalAppend(Entry(id), st.tasks, QueuedRun(step.r, 1));
        TotalAppend(Claim(id), st.tasks, QueuedRun(step.r, 1));
      }
    }
  }

  lemma EntryStep(ps: seq<Plan>, st: State, step: Step)
    requires Shape(ps, st) && Enabled(ps, st, step) && EntryInv(st)
    ensures EntryInv(Go(ps, st, step))
  {
    if !IsTaskStep(step) {
      EntryEnv(ps, st, step);
    } else if step.Allocate? {
      EntryAllocate(ps, st, step);
    } else if step.Register? {
      EntryRegister(ps, st, step);
    } else if step.Settle? {
      EntrySettle(ps, st, step);
    } else {
      EntryOther(ps, st, step);
    }
  }

  /** A resolver always finds its entry: the "already resolved" branch is dead. */
  lemma ResolverFindsEntry(st: State, t: nat)
    requires EntryInv(st) && t < |st.tasks| && st.tasks[t].Chosen?
    ensures st.tasks[t].id in st.reg.pending
  {
    assert EntryLaw(st, st.tasks[t].id);
    TotalUpdate(Entry(st.tasks[t].id), st.tasks, t, Returned);
  }

  // ---- Drivers ---------------------------------------------------------------------------------------

  predicate DriverLaw(ps: seq<Plan>, st: State, r: nat)
    requires Shape(ps, st) && r < |ps|
  {
    Total(Driver(r), st.tasks) + |st.results[r]| + st.discarded[r] == One(st.submitted[r])
  }

  lemma DriverEnv(ps: seq<Plan>, st: State, step: Step, r: nat)
    requires Shape(ps, st) && Enabled(ps, st, step) && r < |ps| && DriverLaw(ps, st, r) && !IsTaskStep(step)
    ensures DriverLaw(ps, Go(ps, st, step), r)
  {
    if step.Submit? {
      SubmitEffect(ps, st, step, r);
      TotalAppend(Driver(r), st.tasks, QueuedRun(step.r, 1));
    }
  }

  lemma SubmitEffect(ps: seq<Plan>, st: State, step: Step, r: nat)
    requires Shape(ps, st) && Enabled(ps, st, step) && r < |ps| && step.Submit?
    ensures var st' := Go(ps, st, step);
            && st'.discarded == st.discarded && st'.submitted[r] == (st.submitted[r] || step.r == r)
            && st'.tasks == (if step.ok then st.tasks + [QueuedRun(step.r, 1)] else st.tasks)
            && |st'.results[r]| == |st.results[r]| + One(!step.ok && step.r == r)
  {
  }

  /** A step's own contribution: one driver is handed over, completed or discarded. */
  predicate Handed(ps: seq<Plan>, st: State, st': State, t: nat, r: nat)
    requires Shape(ps, st) && Shape(ps, st') && t < |st.tasks| && MovesOne(st, st', t) && r < |ps|
  {
    && st'.submitted[r] == st.submitted[r]
    && Weigh(Driver(r), st.tasks[t]) + |st.results[r]| + st.discarded[r]
       == Weigh(Driver(r), st'.tasks[t]) + |st'.results[r]| + st'.discarded[r]
          + (if |st'.tasks| > |st.tasks| then Weigh(Driver(r), st'.tasks[|st.tasks|]) else 0)
  }

  lemma HandedKeepsLaw(ps: seq<Plan>, st: State, st': State, t: nat, r: nat)
    requires Shape(ps, st) && Shape(ps, st') && t < |st.tasks| && MovesOne(st, st', t) && r < |ps|
    requires DriverLaw(ps, st, r) && Handed(ps, st, st', t, r)
    ensures DriverLaw(ps, st', r)
  {
    StepTotal(Driver(r), st, st', t);
  }

  lemma HandSettle(ps: seq<Plan>, st: State, step: Step, r: nat)
    requires Shape(ps, st) && Enabled(ps, st, step) && r < |ps| && step.Settle?
    requires st.tasks[step.t].id in st.reg.pending && MovesOne(st, Go(ps, st, step), step.t)
    ensures Handed(ps, st, Go(ps, st, step), step.t, r)
  {
  }

  lemma HandStage(ps: seq<Plan>, st: State, step: Step, r: nat)
    requires step.RunStage? || step.StageFault? || step.YieldFault?
    requires Shape(ps, st) && Enabled(ps, st, step) && r < |ps| && MovesOne(st, Go(ps, st, step), step.t)
    ensures Handed(ps, st, Go(ps, st, step), step.t, r)
  {
  }

  lemma HandRegister(ps: seq<Plan>, st: State, step: Step, r: nat)
    requires step.Allocate? || step.Register? || step.Finish?
    requires Shape(ps, st) && Enabled(ps, st, step) && r < |ps| && MovesOne(st, Go(ps, st, step), step.t)
    ensures Handed(ps, st, Go(ps, st, step), step.t, r)
  {
  }

  lemma HandEnd(ps: seq<Plan>, st: State, step: Step, r: nat)
    requires step.Discard? || step.GiveUp? || step.Retry? || step.Wake?
    requires Shape(ps, st) && Enabled(ps, st, step) && r < |ps| && MovesOne(st, Go(ps, st, step), step.t)
    ensures Handed(ps, st, Go(ps, st, step), step.t, r)
  {
  }

  lemma HandTurn(ps: seq<Plan>, st: State, step: Step, r: nat)
    requires step.Start? || step.Resume? || step.TakeAnswer? || step.TakeCancel?
    requires Shape(ps, st) && Enabled(ps, st, step) && r < |ps| && MovesOne(st, Go(ps, st, step), step.t)
    ensures Handed(ps, st, Go(ps, st, step), step.t, r)
  {
  }

  lemma DriverStep(ps: seq<Plan>, st: State, step: Step, r: nat)
    requires Shape(ps, st) && Enabled(ps, st, step) && r < |ps| && DriverLaw(ps, st, r) && EntryInv(st)
    ensures DriverLaw(ps, Go(ps, st, step), r)
  {
    if !IsTaskStep(step) {
      DriverEnv(ps, st, step, r);
    } else {
      TaskFrame(ps, st, step);
      if step.Settle? {
        ResolverFindsEntry(st, step.t);
        HandSettle(ps, st, step, r);
      } else if step.RunStage? || step.StageFault? || step.YieldFault? {
        HandStage(ps, st, step, r);
      } else if step.Allocate? || step.Register? || step.Finish? {
        HandRegister(ps, st, step, r);
      } else if step.Start? || step.Resume? || step.TakeAnswer? || step.TakeCancel? {
        HandTurn(ps, st, step, r);
      } else {
        HandEnd(ps, st, step, r);
      }
      HandedKeepsLaw(ps, st, Go(ps, st, step), step.t, r);
    }
  }

  lemma EntryInit(ps: seq<Plan>, st: State)
    requires Init(ps, st)
    ensures EntryInv(st)
  {
  }

  lemma {:induction false} DriverRun(ps: seq<Plan>, st: State, steps: seq<Step>, r: nat)
    requires Shape(ps, st) && Legal(ps, st, steps) && r < |ps| && DriverLaw(ps, st, r) && EntryInv(st)
    ensures DriverLaw(ps, Run(ps, st, steps), r) && EntryInv(Run(ps, st, steps))
    decreases |steps|
  {
    if steps != [] {
      DriverStep(ps, st, steps[0], r);
      EntryStep(ps, st, steps[0]);
      DriverRun(ps, Go(ps, st, steps[0]), steps[1..], r);
    }
  }

  /** Single live driver, over every interleaving of every set of requests: a submitted
      request whose jobs were not discarded at shutdown has exactly one task working for it
      or exactly one completion of its future, never both and never two of either. */
  lemma OneDriverUntilDone(ps: seq<Plan>, st: State, steps: seq<Step>, r: nat)
    requires Init(ps, st) && Legal(ps, st, steps) && r < |ps|
    ensures var e := Run(ps, st, steps);
            && |e.results[r]| <= 1
            && Total(Driver(r), e.tasks) <= 1
            && (!e.submitted[r] ==> Total(Driver(r), e.tasks) == 0 && e.results[r] == [])
            && (e.submitted[r] && e.discarded[r] == 0 ==> (Total(Driver(r), e.tasks) == 1 <==> e.results[r] == []))
  {
    EntryInit(ps, st);
    DriverRun(ps, st, steps, r);
  }

  /** Every step of a resolver finds its registry entry, over every run. */
  lemma NoLateResolution(ps: seq<Plan>, st: State, steps: seq<Step>, t: nat)
    requires Init(ps, st) && Legal(ps, st, steps) && |ps| > 0
    requires t < |Run(ps, st, steps).tasks| && Run(ps, st, steps).tasks[t].Chosen?
    ensures Run(ps, st, steps).tasks[t].id in Run(ps, st, steps).reg.pending
  {
    EntryInit(ps, st);
    DriverRun(ps, st, steps, 0);
    ResolverFindsEntry(Run(ps, st, steps), t);
  }
}
