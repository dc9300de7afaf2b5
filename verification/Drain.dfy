/** Shutdown: the drain scan takes one shard lock at a time between two reads of the
    in-flight counter, and is sound all the same once the stopping gate is shut. */
module Drain {
  import opened Basics
  import opened Jobs
  import opened Protocol
  import opened Accounting

  /** No enqueue past the gate is still under way once the scheduler is stopping. */
  predicate GateLaw(st: State) {
    IsStopping(st) ==> Total(Reader, st.threads) == 0
  }

  predicate LockLaw(st: State, s: nat)
    requires Shape(st) && s < st.cfg.shards
  {
    Total(Lock(s), st.threads) == One(st.shards[s].locked)
  }

  /** Shard `s` is empty and nobody inside its critical section took a job from it. */
  predicate Clear(st: State, s: nat)
    requires Shape(st) && s < st.cfg.shards
  {
    && !HasWork(st.shards[s].lanes)
    && forall t :: 0 <= t < |st.threads| && st.threads[t].Popped? && st.threads[t].shard == s ==>
         st.threads[t].batch == []
  }

  predicate IsStopPc(pc: Pc) {
    pc.StopLoop? || pc.Scan? || pc.StopCancel?
  }

  predicate ScanLaw(st: State, t: nat)
    requires Shape(st) && t < |st.threads|
  {
    && (IsStopPc(st.threads[t]) ==> IsStopping(st))
    && (st.threads[t].Scan? ==> forall s :: 0 <= s < st.threads[t].next ==> Clear(st, s))
  }

  /** Every queue is empty and no popped job is unfinished. */
  predicate AllDone(st: State)
    requires Shape(st)
  {
    && (forall s :: 0 <= s < st.cfg.shards ==> !HasWork(st.shards[s].lanes))
    && (forall t :: 0 <= t < |st.threads| ==> Weigh(Unended(Every), st.threads[t]) == 0)
  }

  predicate DrainInv(st: State)
    requires Shape(st)
  {
    && GateLaw(st)
    && (forall s :: 0 <= s < st.cfg.shards ==> LockLaw(st, s))
    && (forall t :: 0 <= t < |st.threads| ==> ScanLaw(st, t))
    && (st.drained ==> IsStopping(st) && AllDone(st))
  }

  lemma DrainInit(st: State)
    requires Init(st)
    ensures DrainInv(st)
  {
    forall s | 0 <= s < st.cfg.shards ensures LockLaw(st, s) {
      TotalZero(Lock(s), st.threads);
    }
  }

  // ---- The gate -----------------------------------------------------------------------------

  predicate IsReader(pc: Pc) {
    pc.Admitting? || pc.Accepted?
  }

  lemma FrameReader(st: State, step: Step)
    requires Shape(st) && Enabled(st, step) && !step.op.Begin? && !step.op.Push?
    ensures !IsReader(Next(st, step).threads[step.t])
  {
    ThreadAfter(st, step);
  }

  lemma EntersThroughGate(st: State, step: Step)
    requires Shape(st) && Enabled(st, step) && IsReader(Next(st, step).threads[step.t])
    ensures IsReader(st.threads[step.t]) || (step.op.Begin? && !IsStopping(Next(st, step)))
  {
    if !step.op.Begin? && !step.op.Push? {
      FrameReader(st, step);
    }
  }

  lemma LifeKept(st: State, step: Step)
    requires Shape(st) && Enabled(st, step) && !IsStopOp(step.op)
    ensures Next(st, step).life == st.life
  {
    if IsTokenOp(step.op) {
      TokenEffect(st, step);
    }
  }

  lemma FrameLife(st: State, step: Step)
    requires Shape(st) && Enabled(st, step) && !step.op.StopBegin?
    ensures IsStopping(Next(st, step)) == IsStopping(st)
  {
    if !IsStopOp(step.op) {
      LifeKept(st, step);
    }
  }

  lemma GateStep(st: State, step: Step)
    requires Shape(st) && Enabled(st, step) && GateLaw(st)
    ensures GateLaw(Next(st, step))
  {
    StepTotal(Reader, st, step);
    if step.op.StopBegin? {
      TotalZero(Reader, st.threads);
    } else {
      FrameLife(st, step);
      if IsReader(Next(st, step).threads[step.t]) {
        EntersThroughGate(st, step);
      }
    }
  }

  /** Past the gate nothing is pushed. */
  lemma NoPushAfterGate(st: State, step: Step)
    requires Shape(st) && Enabled(st, step) && GateLaw(st) && IsStopping(st)
    ensures !step.op.Push?
  {
    TotalUpdate(Reader, st.threads, step.t, Idle);
  }

  lemma StoppingStays(st: State, step: Step)
    requires Shape(st) && Enabled(st, step) && IsStopping(st)
    ensures IsStopping(Next(st, step))
  {
    if !step.op.StopBegin? {
      FrameLife(st, step);
    }
  }

  // ---- Shard locks ----------------------------------------------------------------------------

  lemma LockStep(st: State, step: Step, s: nat)
    requires Shape(st) && Enabled(st, step) && s < st.cfg.shards && LockLaw(st, s)
    ensures LockLaw(Next(st, step), s)
  {
    StepTotal(Lock(s), st, step);
    if !step.op.Push? && !step.op.Pop? && !step.op.Account? {
      FrameLocks(st, step, s);
      PoppedOnlyByPop(st, step);
      assert !st.threads[step.t].Popped?;
    }
  }

  lemma FrameLocks(st: State, step: Step, s: nat)
    requires Shape(st) && Enabled(st, step) && s < st.cfg.shards
    requires !step.op.Push? && !step.op.Pop? && !step.op.Account?
    ensures Next(st, step).shards[s].locked == st.shards[s].locked
  {
    if IsQuiet(step.op) {
      QuietEffect(st, step);
    }
  }

  // ---- A cleared shard stays clear -------------------------------------------------------------

  lemma {:induction false} EmptyPass(lanes: seq<seq<Job>>, quotas: seq<nat>)
    requires |lanes| == |quotas| && !HasWork(lanes)
    ensures Batch(lanes, quotas) == [] && !HasWork(Remainder(lanes, quotas))
  {
    PassConserves(Every, lanes, quotas);
    EmptyLanes(Every, lanes);
    CountEvery(Batch(lanes, quotas));
    NoWork(Remainder(lanes, quotas));
  }

  lemma PoppedOnlyByPop(st: State, step: Step)
    requires Shape(st) && Enabled(st, step) && !step.op.Pop?
    ensures !Next(st, step).threads[step.t].Popped?
  {
    ThreadAfter(st, step);
  }

  lemma ClearStep(st: State, step: Step, s: nat)
    requires Shape(st) && Enabled(st, step) && s < st.cfg.shards && Clear(st, s) && GateLaw(st) && IsStopping(st)
    ensures Clear(Next(st, step), s)
  {
    NoPushAfterGate(st, step);
    if step.op.Pop? {
      ClearPop(st, step, s);
    } else {
      FrameShards(st, step, s);
      PoppedOnlyByPop(st, step);
    }
  }

  lemma ClearPop(st: State, step: Step, s: nat)
    requires Shape(st) && Enabled(st, step) && step.op.Pop? && s < st.cfg.shards && Clear(st, s)
    ensures Clear(Next(st, step), s)
  {
    assert PcShape(st.cfg, st.threads[step.t]);
    if st.threads[step.t].shard == s {
      EmptyPop(st, step);
    } else {
      PopElsewhere(st, step, s);
    }
  }

  lemma PopElsewhere(st: State, step: Step, s: nat)
    requires Shape(st) && Enabled(st, step) && step.op.Pop? && st.threads[step.t].shard < st.cfg.shards
    requires s < st.cfg.shards && st.threads[step.t].shard != s
    ensures Next(st, step).shards[s] == st.shards[s]
    ensures Next(st, step).threads[step.t].Popped? && Next(st, step).threads[step.t].shard != s
  {
    PopEffect(st, step);
  }

  lemma FrameScan(st: State, step: Step)
    requires Shape(st) && Enabled(st, step)
    requires !step.op.StopBegin? && !step.op.DrainFirst? && !step.op.ScanShard?
    requires !step.op.DrainLast? && !step.op.DrainGiveUp?
    ensures !IsStopPc(Next(st, step).threads[step.t])
  {
    ThreadAfter(st, step);
  }

  lemma ScanOther(st: State, step: Step, t: nat)
    requires Shape(st) && Enabled(st, step) && t < |st.threads| && t != step.t
    requires GateLaw(st) && ScanLaw(st, t)
    ensures ScanLaw(Next(st, step), t)
  {
    if IsStopPc(st.threads[t]) {
      StoppingStays(st, step);
      if st.threads[t].Scan? {
        forall s | 0 <= s < st.threads[t].next ensures Clear(Next(st, step), s) {
          ClearStep(st, step, s);
        }
      }
    }
  }

  /** The scanner itself: an unlocked empty shard has no one inside its critical section. */
  lemma ScanSelf(st: State, step: Step)
    requires Shape(st) && Enabled(st, step) && DrainInv(st)
    ensures ScanLaw(Next(st, step), step.t)
  {
    var t := step.t;
    assert ScanLaw(st, t);
    if step.op.ScanShard? {
      var k := st.threads[t].next;
      StoppingStays(st, step);
      assert LockLaw(st, k);
      if !HasWork(st.shards[k].lanes) {
        forall u | 0 <= u < |st.threads| ensures !(st.threads[u].Popped? && st.threads[u].shard == k) {
          TotalUpdate(Lock(k), st.threads, u, Idle);
        }
        assert Clear(st, k);
        forall s | 0 <= s < k + 1 ensures Clear(Next(st, step), s) {
          ClearStep(st, step, s);
        }
      }
    } else if step.op.StopBegin? || step.op.DrainFirst? || step.op.DrainLast? || step.op.DrainGiveUp? {
    } else {
      FrameScan(st, step);
    }
  }

  // ---- The verdict -----------------------------------------------------------------------------

  lemma VerdictSound(st: State, t: nat)
    requires Shape(st) && DrainInv(st) && FlightLaw(st) && t < |st.threads|
    requires st.threads[t] == Scan(st.cfg.shards) && st.inflight == 0
    ensures AllDone(st)
  {
    assert ScanLaw(st, t);
    forall s | 0 <= s < st.cfg.shards ensures !HasWork(st.shards[s].lanes) {
      assert Clear(st, s);
    }
    forall u | 0 <= u < |st.threads| ensures Weigh(Unended(Every), st.threads[u]) == 0 {
      var pc := st.threads[u];
      assert PcShape(st.cfg, pc);
      TotalUpdate(Flying(Every), st.threads, u, Idle);
      if pc.Popped? {
        assert Clear(st, pc.shard);
      }
    }
  }

  lemma DoneThread(st: State, step: Step)
    requires Shape(st) && Enabled(st, step) && AllDone(st) && !step.op.Push? && !step.op.Pop?
    ensures Weigh(Unended(Every), Next(st, step).threads[step.t]) == 0
  {
    ThreadAfter(st, step);
    assert Weigh(Unended(Every), st.threads[step.t]) == 0;
  }

  lemma DoneStays(st: State, step: Step)
    requires Shape(st) && Enabled(st, step) && GateLaw(st) && IsStopping(st) && AllDone(st)
    ensures AllDone(Next(st, step))
  {
    NoPushAfterGate(st, step);
    if step.op.Pop? {
      DonePop(st, step);
    } else {
      DoneThread(st, step);
      forall s | 0 <= s < st.cfg.shards ensures !HasWork(Next(st, step).shards[s].lanes) {
        FrameShards(st, step, s);
      }
    }
  }

  lemma NothingTaken(lanes: seq<seq<Job>>, quotas: seq<nat>, rest: seq<seq<Job>>, batch: seq<Job>)
    requires |lanes| == |quotas| && !HasWork(lanes) && rest == Remainder(lanes, quotas)
    requires batch == Batch(lanes, quotas)
    ensures !HasWork(rest) && batch == []
  {
    EmptyPass(lanes, quotas);
  }

  /** A pass over an empty shard takes nothing. */
  lemma EmptyPop(st: State, step: Step)
    requires Shape(st) && Enabled(st, step) && step.op.Pop? && st.threads[step.t].shard < st.cfg.shards
    requires !HasWork(st.shards[st.threads[step.t].shard].lanes)
    ensures var st', s := Next(st, step), st.threads[step.t].shard;
            && st'.shards == st.shards[s := st'.shards[s]] && !HasWork(st'.shards[s].lanes)
            && st'.threads[step.t].Popped? && st'.threads[step.t].batch == []
  {
    var st', s := Next(st, step), st.threads[step.t].shard;
    PopEffect(st, step);
    NothingTaken(st.shards[s].lanes, step.op.quotas, st'.shards[s].lanes, st'.threads[step.t].batch);
  }

  lemma DonePop(st: State, step: Step)
    requires Shape(st) && Enabled(st, step) && step.op.Pop? && AllDone(st)
    ensures AllDone(Next(st, step))
  {
    assert PcShape(st.cfg, st.threads[step.t]);
    EmptyPop(st, step);
    NothingHeld(Next(st, step).threads[step.t]);
    DoneElsewhere(st, Next(st, step), step.t, st.threads[step.t].shard);
  }

  lemma NothingHeld(pc: Pc)
    requires pc.Popped? && pc.batch == []
    ensures Weigh(Unended(Every), pc) == 0
  {
  }

  lemma DoneElsewhere(st: State, st': State, t: nat, s: nat)
    requires Shape(st) && Reshaped(st, st', t) && AllDone(st) && s < st.cfg.shards && t < |st.threads|
    requires st'.shards == st.shards[s := st'.shards[s]] && !HasWork(st'.shards[s].lanes)
    requires Weigh(Unended(Every), st'.threads[t]) == 0
    ensures AllDone(st')
  {
    forall u | 0 <= u < |st'.threads| ensures Weigh(Unended(Every), st'.threads[u]) == 0 {
      assert u != t ==> st'.threads[u] == st.threads[u];
    }
  }

  lemma FrameDrained(st: State, step: Step)
    requires Shape(st) && Enabled(st, step) && !step.op.DrainLast?
    ensures Next(st, step).drained == st.drained
  {
  }

  lemma DrainStep(st: State, step: Step)
    requires Shape(st) && Enabled(st, step) && DrainInv(st) && FlightLaw(st)
    ensures DrainInv(Next(st, step))
  {
    var st' := Next(st, step);
    GateStep(st, step);
    forall s | 0 <= s < st.cfg.shards ensures LockLaw(st', s) {
      assert LockLaw(st, s);
      LockStep(st, step, s);
    }
    forall t | 0 <= t < |st.threads| ensures ScanLaw(st', t) {
      assert ScanLaw(st, t);
      if t == step.t { ScanSelf(st, step); } else { ScanOther(st, step, t); }
    }
    if st'.drained {
      if !st.drained {
        if !step.op.DrainLast? { FrameDrained(st, step); }
        assert ScanLaw(st, step.t);
        VerdictSound(st, step.t);
      }
      StoppingStays(st, step);
      DoneStays(st, step);
    }
  }

  lemma {:induction false} DrainRun(st: State, steps: seq<Step>)
    requires Shape(st) && Legal(st, steps) && DrainInv(st) && FlightLaw(st)
    ensures DrainInv(Run(st, steps))
    decreases |steps|
  {
    if steps != [] {
      DrainStep(st, steps[0]);
      FlightStep(st, steps[0]);
      DrainRun(Next(st, steps[0]), steps[1..]);
    }
  }

  /** Drain soundness: once a drain scan has answered yes, at every later point of every
      run all queues are empty, no popped job is unfinished, and each accepted job has
      ended exactly once, one way. */
  lemma DrainSound(st: State, steps: seq<Step>, id: nat)
    requires Init(st) && Legal(st, steps) && Run(st, steps).drained
    ensures var e := Run(st, steps);
            && (forall s :: 0 <= s < e.cfg.shards ==> !HasWork(e.shards[s].lanes))
            && (forall t :: 0 <= t < |e.threads| ==> Weigh(Unended(Every), e.threads[t]) == 0)
            && Ended(ById(id), e.h) == One(id < |e.h.entered|)
  {
    var e := Run(st, steps);
    DrainInit(st);
    FlightInit(st);
    DrainRun(st, steps);
    OneFate(st, steps, id);
    EmptyQueues(ById(id), e.shards);
    TotalZero(Unended(Every), e.threads);
    forall t | 0 <= t < |e.threads| ensures Weigh(Unended(ById(id)), e.threads[t]) == 0 {
      NoneOfNone(e.threads[t], ById(id));
    }
    TotalZero(Unended(ById(id)), e.threads);
  }

  lemma NoneOfNone(pc: Pc, m: Match)
    requires Weigh(Unended(Every), pc) == 0
    ensures Weigh(Unended(m), pc) == 0
  {
    if HasBatch(pc) {
      CountEvery(pc.batch);
      if pc.Finishing? && pc.batch != [] {
        CountEvery(pc.batch[1..]);
      }
    }
  }

  /** `drained` is set by exactly one step: the second in-flight read of a full scan. */
  lemma DrainedOnlyByScan(st: State, step: Step)
    requires Shape(st) && Enabled(st, step) && !st.drained
    ensures Next(st, step).drained <==>
            step.op.DrainLast? && st.threads[step.t] == Scan(st.cfg.shards) && st.inflight == 0
  {
    if !step.op.DrainLast? {
      FrameDrained(st, step);
    }
  }
}
