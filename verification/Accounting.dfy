/** Work conservation: where every accepted job is, and what the counters say about it. */
module Accounting {
  import opened Basics
  import opened Jobs
  import opened Protocol

  // ---- Jobs are conserved -------------------------------------------------------------------

  function Queued(m: Match, shards: seq<Shard>): nat {
    if shards == [] then 0 else Depth(m, shards[0].lanes) + Queued(m, shards[1..])
  }

  lemma {:induction false} QueuedUpdate(m: Match, shards: seq<Shard>, s: nat, sh: Shard)
    requires s < |shards|
    ensures Queued(m, shards[s := sh]) == Queued(m, shards) - Depth(m, shards[s].lanes) + Depth(m, sh.lanes)
  {
    if s == 0 {
      assert shards[s := sh][1..] == shards[1..];
    } else {
      QueuedUpdate(m, shards[1..], s - 1, sh);
      assert shards[s := sh][1..] == shards[1..][s - 1 := sh];
    }
  }

  function Ended(m: Match, h: History): nat {
    Count(m, h.completed) + Count(m, h.failed) + Count(m, h.canceled)
  }

  /** Jobs matching `m` that were pushed are queued, held by a worker, or ended. */
  predicate Conserved(st: State, m: Match) {
    Count(m, st.h.entered) == Queued(m, st.shards) + Total(Unended(m), st.threads) + Ended(m, st.h)
  }

  lemma ConservePush(st: State, step: Step, m: Match)
    requires Shape(st) && Enabled(st, step) && step.op.Push? && Conserved(st, m)
    ensures Conserved(Next(st, step), m)
  {
    StepTotal(Unended(m), st, step);
    ThreadAfter(st, step);
    var job := step.op.job;
    var s := RouteShard(job.keyHash, st.cfg.shards);
    if |st.shards[s].lanes[st.threads[step.t].lane]| < st.cfg.capacity {
      PushQueued(st, step, m);
      CountConcat(m, st.h.entered, [job]);
    }
  }

  /** An accepted push adds its job to the queues. */
  lemma PushQueued(st: State, step: Step, m: Match)
    requires Shape(st) && Enabled(st, step) && step.op.Push?
    requires |st.shards[RouteShard(step.op.job.keyHash, st.cfg.shards)].lanes[step.op.job.lane]| < st.cfg.capacity
    ensures Queued(m, Next(st, step).shards) == Queued(m, st.shards) + Count(m, [step.op.job])
  {
    var job := step.op.job;
    var s := RouteShard(job.keyHash, st.cfg.shards);
    var sh := st.shards[s];
    var lane := sh.lanes[job.lane];
    CountConcat(m, lane, [job]);
    DepthUpdate(m, sh.lanes, job.lane, lane + [job]);
    QueuedUpdate(m, st.shards, s, Shard(true, sh.locked, sh.lanes[job.lane := lane + [job]]));
  }

  lemma ConservePop(st: State, step: Step, m: Match)
    requires Shape(st) && Enabled(st, step) && step.op.Pop? && Conserved(st, m)
    ensures Conserved(Next(st, step), m)
  {
    var st', s := Next(st, step), st.threads[step.t].shard;
    assert PcShape(st.cfg, st.threads[step.t]);
    StepTotal(Unended(m), st, step);
    PopMoves(st, step, m);
    PopQueued(m, st.shards, st'.shards, s, st'.threads[step.t]);
    assert Weigh(Unended(m), st.threads[step.t]) == 0;
  }

  lemma PopMoves(st: State, step: Step, m: Match)
    requires Shape(st) && Enabled(st, step) && step.op.Pop? && st.threads[step.t].shard < st.cfg.shards
    ensures var st', s := Next(st, step), st.threads[step.t].shard;
            && st'.h == st.h && st'.shards == st.shards[s := st'.shards[s]] && st'.threads[step.t].Popped?
            && Depth(m, st.shards[s].lanes)
               == Count(m, st'.threads[step.t].batch) + Depth(m, st'.shards[s].lanes)
  {
    PopEffect(st, step);
    PassConserves(m, st.shards[st.threads[step.t].shard].lanes, step.op.quotas);
  }

  /** What leaves the queues is what the worker holds. */
  lemma PopQueued(m: Match, shards: seq<Shard>, shards': seq<Shard>, s: nat, pc: Pc)
    requires s < |shards| == |shards'| && shards' == shards[s := shards'[s]] && pc.Popped?
    requires Depth(m, shards[s].lanes) == Count(m, pc.batch) + Depth(m, shards'[s].lanes)
    ensures Queued(m, shards) == Queued(m, shards') + Weigh(Unended(m), pc)
  {
    QueuedUpdate(m, shards, s, shards'[s]);
  }

  lemma ConserveAccount(st: State, step: Step, m: Match)
    requires Shape(st) && Enabled(st, step) && step.op.Account? && Conserved(st, m)
    ensures Conserved(Next(st, step), m)
  {
    StepTotal(Unended(m), st, step);
    var s := st.threads[step.t].shard;
    QueuedUpdate(m, st.shards, s, Next(st, step).shards[s]);
  }

  lemma EndedGrows(m: Match, h: History, js: seq<Job>)
    ensures Ended(m, h.(completed := h.completed + js)) == Ended(m, h) + Count(m, js)
    ensures Ended(m, h.(failed := h.failed + js)) == Ended(m, h) + Count(m, js)
    ensures Ended(m, h.(canceled := h.canceled + js)) == Ended(m, h) + Count(m, js)
  {
    CountConcat(m, h.completed, js);
    CountConcat(m, h.failed, js);
    CountConcat(m, h.canceled, js);
  }

  lemma FinishEffect(st: State, step: Step)
    requires Shape(st) && Enabled(st, step) && step.op.FinishJob?
    ensures var st', pc := Next(st, step), st.threads[step.t];
            var j := [pc.batch[0]];
            && st'.shards == st.shards && st'.h.entered == st.h.entered
            && st'.threads[step.t] == Finishing(pc.shard, pc.batch, pc.more)
            && (st'.h == st.h.(completed := st.h.completed + j) || st'.h == st.h.(failed := st.h.failed + j)
                || st'.h == st.h.(canceled := st.h.canceled + j))
  {
  }

  lemma ConserveFinish(st: State, step: Step, m: Match)
    requires Shape(st) && Enabled(st, step) && Conserved(st, m) && step.op.FinishJob?
    ensures Conserved(Next(st, step), m)
  {
    var batch := st.threads[step.t].batch;
    FinishEffect(st, step);
    assert Ended(m, Next(st, step).h) == Ended(m, st.h) + Count(m, [batch[0]]) by {
      EndedGrows(m, st.h, [batch[0]]);
    }
    assert Count(m, batch) == Count(m, [batch[0]]) + Count(m, batch[1..]) by {
      assert batch == [batch[0]] + batch[1..];
      CountConcat(m, [batch[0]], batch[1..]);
    }
    StepTotal(Unended(m), st, step);
  }

  lemma ConserveCancel(st: State, step: Step, m: Match)
    requires Shape(st) && Enabled(st, step) && Conserved(st, m) && step.op.CancelRest?
    ensures Conserved(Next(st, step), m)
  {
    StepTotal(Unended(m), st, step);
    EndedGrows(m, st.h, st.threads[step.t].batch);
  }

  lemma ConserveOther(st: State, step: Step, m: Match)
    requires Shape(st) && Enabled(st, step) && Conserved(st, m)
    requires !step.op.Push? && !step.op.Pop? && !step.op.Account? && !step.op.FinishJob? && !step.op.CancelRest?
    ensures Conserved(Next(st, step), m)
  {
    StepTotal(Unended(m), st, step);
    FrameRest(st, step);
    FrameUnended(st, step, m);
  }

  lemma FrameRest(st: State, step: Step)
    requires Shape(st) && Enabled(st, step)
    requires !step.op.Push? && !step.op.Pop? && !step.op.Account? && !step.op.FinishJob? && !step.op.CancelRest?
    ensures Next(st, step).h == st.h && Next(st, step).shards == st.shards
  {
    if IsQuiet(step.op) {
      QuietEffect(st, step);
    }
  }

  lemma FrameUnended(st: State, step: Step, m: Match)
    requires Shape(st) && Enabled(st, step)
    requires !step.op.Push? && !step.op.Pop? && !step.op.Account? && !step.op.FinishJob? && !step.op.CancelRest?
    ensures Weigh(Unended(m), Next(st, step).threads[step.t]) == Weigh(Unended(m), st.threads[step.t])
  {
    ThreadAfter(st, step);
  }

  lemma ConserveStep(st: State, step: Step, m: Match)
    requires Shape(st) && Enabled(st, step) && Conserved(st, m)
    ensures Conserved(Next(st, step), m)
  {
    if step.op.Push? {
      ConservePush(st, step, m);
    } else if step.op.Pop? {
      ConservePop(st, step, m);
    } else if step.op.Account? {
      ConserveAccount(st, step, m);
    } else if step.op.FinishJob? {
      ConserveFinish(st, step, m);
    } else if step.op.CancelRest? {
      ConserveCancel(st, step, m);
    } else {
      ConserveOther(st, step, m);
    }
  }

  lemma {:induction false} EmptyQueues(m: Match, shards: seq<Shard>)
    requires forall s :: 0 <= s < |shards| ==> !HasWork(shards[s].lanes)
    ensures Queued(m, shards) == 0
  {
    if shards != [] {
      assert forall s :: 0 <= s < |shards[1..]| ==> shards[1..][s] == shards[s + 1];
      EmptyQueues(m, shards[1..]);
      EmptyLanes(m, shards[0].lanes);
    }
  }

  lemma {:induction false} EmptyLanes(m: Match, lanes: seq<seq<Job>>)
    requires !HasWork(lanes)
    ensures Depth(m, lanes) == 0
  {
    if lanes != [] {
      var n := |lanes| - 1;
      assert lanes[n] == [];
      forall i | 0 <= i < n ensures lanes[..n][i] == [] {
        assert lanes[i] == [];
      }
      EmptyLanes(m, lanes[..n]);
    }
  }

  lemma ConserveInit(st: State, m: Match)
    requires Init(st)
    ensures Conserved(st, m)
  {
    TotalZero(Unended(m), st.threads);
    EmptyQueues(m, st.shards);
  }

  lemma {:induction false} ConserveRun(st: State, steps: seq<Step>, m: Match)
    requires Shape(st) && Legal(st, steps) && Conserved(st, m)
    ensures Conserved(Run(st, steps), m)
    decreases |steps|
  {
    if steps != [] {
      ConserveStep(st, steps[0], m);
      ConserveRun(Next(st, steps[0]), steps[1..], m);
    }
  }

  // ---- Identity ------------------------------------------------------------------------------

  predicate Numbered(js: seq<Job>) {
    forall i :: 0 <= i < |js| ==> js[i].id == i
  }

  lemma NumberedStep(st: State, step: Step)
    requires Shape(st) && Enabled(st, step) && Numbered(st.h.entered)
    ensures Numbered(Next(st, step).h.entered) && st.h.entered <= Next(st, step).h.entered
  {
    if IsQuiet(step.op) {
      QuietEffect(st, step);
    }
  }

  lemma {:induction false} NumberedRun(st: State, steps: seq<Step>)
    requires Shape(st) && Legal(st, steps) && Numbered(st.h.entered)
    ensures Numbered(Run(st, steps).h.entered)
    decreases |steps|
  {
    if steps != [] {
      NumberedStep(st, steps[0]);
      NumberedRun(Next(st, steps[0]), steps[1..]);
    }
  }

  lemma {:induction false} NumberedCount(js: seq<Job>, id: nat)
    requires Numbered(js)
    ensures Count(ById(id), js) == One(id < |js|)
  {
    if js != [] {
      var n := |js| - 1;
      NumberedCount(js[..n], id);
      CountConcat(ById(id), js[..n], [js[n]]);
      assert js == js[..n] + [js[n]];
    }
  }

  /** Every accepted job is in exactly one place: one queue, one worker that has yet to
      end it, or exactly one of the three ends; and no other job is anywhere. */
  lemma OneFate(st: State, steps: seq<Step>, id: nat)
    requires Init(st) && Legal(st, steps)
    ensures var e := Run(st, steps);
            var m := ById(id);
            Queued(m, e.shards) + Total(Unended(m), e.threads)
              + Count(m, e.h.completed) + Count(m, e.h.failed) + Count(m, e.h.canceled)
            == One(id < |e.h.entered|)
  {
    ConserveInit(st, ById(id));
    ConserveRun(st, steps, ById(id));
    NumberedRun(st, steps);
    NumberedCount(Run(st, steps).h.entered, id);
  }

  // ---- In-flight counters ---------------------------------------------------------------------

  predicate FlightLaw(st: State)
    requires Shape(st)
  {
    && st.inflight == Total(Flying(Every), st.threads)
    && (forall s :: 0 <= s < st.cfg.shards ==> st.shardInflight[s] == Total(FlyingAt(s), st.threads))
    && (forall l :: 0 <= l < st.cfg.lanes ==> st.laneInflight[l] == Total(Flying(ByLane(l)), st.threads))
  }

  predicate MovesFlight(op: Op) {
    op.Account? || op.Settle? || op.CancelRest?
  }

  lemma FrameFlight(st: State, step: Step)
    requires Shape(st) && Enabled(st, step) && !MovesFlight(step.op)
    ensures var st' := Next(st, step);
            st'.inflight == st.inflight && st'.shardInflight == st.shardInflight && st'.laneInflight == st.laneInflight
  {
    if IsQuiet(step.op) {
      QuietEffect(st, step);
    }
  }

  lemma FrameFlying(st: State, step: Step)
    requires Shape(st) && Enabled(st, step) && !MovesFlight(step.op)
    ensures var pc, pc' := st.threads[step.t], Next(st, step).threads[step.t];
            if InFlight(pc') then InFlight(pc) && pc.batch == pc'.batch && pc.shard == pc'.shard
            else InFlight(pc) ==> pc.batch == []
  {
    ThreadAfter(st, step);
  }

  lemma FlightMoveGlobal(st: State, step: Step)
    requires Shape(st) && Enabled(st, step) && MovesFlight(step.op)
    requires st.inflight == Total(Flying(Every), st.threads)
    ensures Next(st, step).inflight == Total(Flying(Every), Next(st, step).threads)
  {
    var batch := st.threads[step.t].batch;
    StepTotal(Flying(Every), st, step);
    CountEvery(batch);
    if step.op.Settle? { CountEvery(batch[1..]); }
  }

  lemma FlightMoveShard(st: State, step: Step, s: nat)
    requires Shape(st) && Enabled(st, step) && MovesFlight(step.op) && s < st.cfg.shards
    requires st.shardInflight[s] == Total(FlyingAt(s), st.threads)
    ensures Next(st, step).shardInflight[s] == Total(FlyingAt(s), Next(st, step).threads)
  {
    StepTotal(FlyingAt(s), st, step);
  }

  lemma FlightMoveLane(st: State, step: Step, l: nat)
    requires Shape(st) && Enabled(st, step) && MovesFlight(step.op) && l < st.cfg.lanes
    requires st.laneInflight[l] == Total(Flying(ByLane(l)), st.threads)
    ensures Next(st, step).laneInflight[l] == Total(Flying(ByLane(l)), Next(st, step).threads)
  {
    var batch := st.threads[step.t].batch;
    StepTotal(Flying(ByLane(l)), st, step);
    if step.op.Settle? {
      assert batch == [batch[0]] + batch[1..];
      CountConcat(ByLane(l), [batch[0]], batch[1..]);
    }
  }

  lemma FlightStep(st: State, step: Step)
    requires Shape(st) && Enabled(st, step) && FlightLaw(st)
    ensures FlightLaw(Next(st, step))
  {
    var st' := Next(st, step);
    if MovesFlight(step.op) {
      FlightMoveGlobal(st, step);
    } else {
      FrameFlight(st, step);
      FrameFlying(st, step);
      StepTotal(Flying(Every), st, step);
    }
    forall s | 0 <= s < st.cfg.shards ensures st'.shardInflight[s] == Total(FlyingAt(s), st'.threads) {
      if MovesFlight(step.op) { FlightMoveShard(st, step, s); } else { StepTotal(FlyingAt(s), st, step); }
    }
    forall l | 0 <= l < st.cfg.lanes ensures st'.laneInflight[l] == Total(Flying(ByLane(l)), st'.threads) {
      if MovesFlight(step.op) { FlightMoveLane(st, step, l); } else { StepTotal(Flying(ByLane(l)), st, step); }
    }
  }

  lemma FlightInit(st: State)
    requires Init(st)
    ensures FlightLaw(st)
  {
    TotalZero(Flying(Every), st.threads);
    forall s | 0 <= s < st.cfg.shards ensures Total(FlyingAt(s), st.threads) == 0 {
      TotalZero(FlyingAt(s), st.threads);
    }
    forall l | 0 <= l < st.cfg.lanes ensures Total(Flying(ByLane(l)), st.threads) == 0 {
      TotalZero(Flying(ByLane(l)), st.threads);
    }
  }

  lemma {:induction false} FlightRun(st: State, steps: seq<Step>)
    requires Shape(st) && Legal(st, steps) && FlightLaw(st)
    ensures FlightLaw(Run(st, steps))
    decreases |steps|
  {
    if steps != [] {
      FlightStep(st, steps[0]);
      FlightRun(Next(st, steps[0]), steps[1..]);
    }
  }

  // ---- Lanes stay in range ----------------------------------------------------------------------

  predicate HasBatch(pc: Pc) {
    pc.Popped? || InFlight(pc)
  }

  predicate RangeInv(st: State)
    requires Shape(st)
  {
    && (forall s, l :: 0 <= s < st.cfg.shards && 0 <= l < st.cfg.lanes ==> InLanes(st.shards[s].lanes[l], st.cfg.lanes))
    && (forall t :: 0 <= t < |st.threads| && HasBatch(st.threads[t]) ==> InLanes(st.threads[t].batch, st.cfg.lanes))
  }

  lemma RangePushPop(st: State, step: Step)
    requires Shape(st) && Enabled(st, step) && RangeInv(st)
    requires step.op.Push? || step.op.Pop?
    ensures RangeInv(Next(st, step))
  {
    var pc := st.threads[step.t];
    if step.op.Pop? {
      BatchInLanes(st.shards[pc.shard].lanes, step.op.quotas, st.cfg.lanes);
    } else {
      var s := RouteShard(step.op.job.keyHash, st.cfg.shards);
      assert InLanes(st.shards[s].lanes[pc.lane], st.cfg.lanes);
    }
  }

  lemma RangeThread(st: State, step: Step)
    requires Shape(st) && Enabled(st, step) && RangeInv(st)
    requires !step.op.Push? && !step.op.Pop?
    ensures var pc := Next(st, step).threads[step.t]; HasBatch(pc) ==> InLanes(pc.batch, st.cfg.lanes)
  {
    ThreadAfter(st, step);
    var pc := st.threads[step.t];
    assert HasBatch(pc) ==> InLanes(pc.batch, st.cfg.lanes);
  }

  lemma RangeOther(st: State, step: Step)
    requires Shape(st) && Enabled(st, step) && RangeInv(st)
    requires !step.op.Push? && !step.op.Pop?
    ensures RangeInv(Next(st, step))
  {
    var st' := Next(st, step);
    RangeThread(st, step);
    forall s, l | 0 <= s < st.cfg.shards && 0 <= l < st.cfg.lanes
      ensures InLanes(st'.shards[s].lanes[l], st.cfg.lanes)
    {
      FrameShards(st, step, s);
    }
  }

  lemma {:induction false} RangeRun(st: State, steps: seq<Step>)
    requires Shape(st) && Legal(st, steps) && RangeInv(st)
    ensures RangeInv(Run(st, steps))
    decreases |steps|
  {
    if steps != [] {
      if steps[0].op.Push? || steps[0].op.Pop? {
        RangePushPop(st, steps[0]);
      } else {
        RangeOther(st, steps[0]);
      }
      RangeRun(Next(st, steps[0]), steps[1..]);
    }
  }

  function Sum(v: seq<int>): int {
    if v == [] then 0 else Sum(v[..|v| - 1]) + v[|v| - 1]
  }

  lemma {:induction false} SumOfShards(st: State, k: nat)
    requires Shape(st) && FlightLaw(st) && k <= st.cfg.shards
    ensures Sum(st.shardInflight[..k]) == Total(FlyingBelow(k), st.threads)
  {
    if k == 0 {
      TotalZero(FlyingBelow(0), st.threads);
    } else {
      SumOfShards(st, k - 1);
      assert st.shardInflight[..k][..k - 1] == st.shardInflight[..k - 1];
      TotalSum(FlyingBelow(k), FlyingBelow(k - 1), FlyingAt(k - 1), st.threads);
    }
  }

  lemma {:induction false} SumOfLanes(st: State, k: nat)
    requires Shape(st) && FlightLaw(st) && k <= st.cfg.lanes
    ensures Sum(st.laneInflight[..k]) == Total(Flying(LanesBelow(k)), st.threads)
  {
    if k == 0 {
      forall t | 0 <= t < |st.threads| && InFlight(st.threads[t])
        ensures Count(LanesBelow(0), st.threads[t].batch) == 0
      {
        CountLanes(st.threads[t].batch, 0);
      }
      TotalZero(Flying(LanesBelow(0)), st.threads);
    } else {
      SumOfLanes(st, k - 1);
      assert st.laneInflight[..k][..k - 1] == st.laneInflight[..k - 1];
      forall t | 0 <= t < |st.threads| && InFlight(st.threads[t])
        ensures Count(LanesBelow(k), st.threads[t].batch)
             == Count(LanesBelow(k - 1), st.threads[t].batch) + Count(ByLane(k - 1), st.threads[t].batch)
      {
        CountLanes(st.threads[t].batch, k - 1);
      }
      TotalSum(Flying(LanesBelow(k)), Flying(LanesBelow(k - 1)), Flying(ByLane(k - 1)), st.threads);
    }
  }

  /** The global in-flight counter is the sum of the per-shard ones and of the per-lane ones. */
  lemma InflightAgrees(st: State)
    requires Shape(st) && FlightLaw(st) && RangeInv(st)
    ensures st.inflight == Sum(st.shardInflight) == Sum(st.laneInflight)
  {
    SumOfShards(st, st.cfg.shards);
    SumOfLanes(st, st.cfg.lanes);
    assert st.shardInflight[..st.cfg.shards] == st.shardInflight;
    assert st.laneInflight[..st.cfg.lanes] == st.laneInflight;
    forall t | 0 <= t < |st.threads|
      ensures Weigh(FlyingBelow(st.cfg.shards), st.threads[t]) == Weigh(Flying(Every), st.threads[t])
      ensures Weigh(Flying(LanesBelow(st.cfg.lanes)), st.threads[t]) == Weigh(Flying(Every), st.threads[t])
    {
      var pc := st.threads[t];
      assert PcShape(st.cfg, pc);
      if InFlight(pc) {
        CountEvery(pc.batch);
        CountLanes(pc.batch, st.cfg.lanes);
        assert InLanes(pc.batch, st.cfg.lanes);
      }
    }
    TotalLe(FlyingBelow(st.cfg.shards), Flying(Every), st.threads);
    TotalLe(Flying(Every), FlyingBelow(st.cfg.shards), st.threads);
    TotalLe(Flying(LanesBelow(st.cfg.lanes)), Flying(Every), st.threads);
    TotalLe(Flying(Every), Flying(LanesBelow(st.cfg.lanes)), st.threads);
  }

  // ---- Lane counters ----------------------------------------------------------------------------

  predicate BookLaw(st: State, l: nat)
    requires Shape(st) && l < st.cfg.lanes
  {
    && st.c.submitted[l] + st.c.pressureRejected[l]
       == st.c.accepted[l] + st.c.rejected[l] + Total(Attempt(l), st.threads)
    && st.c.accepted[l] + Total(AcceptLag(l), st.threads) == Count(ByLane(l), st.h.entered)
    && st.c.completed[l] == Count(ByLane(l), st.h.completed)
    && st.c.failed[l] == Count(ByLane(l), st.h.failed)
    && st.c.canceled[l] == Count(ByLane(l), st.h.canceled)
  }

  predicate IsAdmission(op: Op) {
    op.Begin? || op.Push? || op.RecordAccepted? || op.RecordRejected? || op.PressureReject?
  }

  lemma PushEffect(st: State, step: Step)
    requires Shape(st) && Enabled(st, step) && step.op.Push?
    ensures var st', pc := Next(st, step), st.threads[step.t];
            && st'.c == st.c && pc.Admitting?
            && st'.h.completed == st.h.completed && st'.h.failed == st.h.failed && st'.h.canceled == st.h.canceled
            && if st'.threads[step.t].Rejecting?
               then st'.threads[step.t] == Rejecting(pc.lane) && st'.h.entered == st.h.entered
               else st'.threads[step.t].Accepted? && st'.threads[step.t].lane == pc.lane
                    && st'.h.entered == st.h.entered + [step.op.job] && step.op.job.lane == pc.lane
  {
  }

  lemma BookPush(st: State, step: Step, l: nat)
    requires Shape(st) && Enabled(st, step) && l < st.cfg.lanes && BookLaw(st, l) && step.op.Push?
    ensures BookLaw(Next(st, step), l)
  {
    PushEffect(st, step);
    StepTotal(Attempt(l), st, step);
    StepTotal(AcceptLag(l), st, step);
    CountConcat(ByLane(l), st.h.entered, [step.op.job]);
    assert Count(ByLane(l), [step.op.job]) == One(step.op.job.lane == l);
  }

  lemma BookRecord(st: State, step: Step, l: nat)
    requires Shape(st) && Enabled(st, step) && l < st.cfg.lanes && BookLaw(st, l)
    requires step.op.Begin? || step.op.RecordAccepted? || step.op.RecordRejected? || step.op.PressureReject?
    ensures BookLaw(Next(st, step), l)
  {
    StepTotal(Attempt(l), st, step);
    StepTotal(AcceptLag(l), st, step);
    assert Next(st, step).h == st.h;
  }

  lemma FinishBooks(st: State, step: Step, l: nat)
    requires Shape(st) && Enabled(st, step) && l < st.cfg.lanes && BookLaw(st, l) && step.op.FinishJob?
    ensures var st' := Next(st, step);
            && st'.c.completed[l] == Count(ByLane(l), st'.h.completed)
            && st'.c.failed[l] == Count(ByLane(l), st'.h.failed)
            && st'.c.canceled[l] == Count(ByLane(l), st'.h.canceled)
            && st'.c.submitted == st.c.submitted && st'.c.pressureRejected == st.c.pressureRejected
            && st'.c.accepted == st.c.accepted && st'.c.rejected == st.c.rejected
  {
    var js := [st.threads[step.t].batch[0]];
    match step.op.outcome
    case Completed => CountConcat(ByLane(l), st.h.completed, js);
    case Failed => CountConcat(ByLane(l), st.h.failed, js);
    case Canceled => CountConcat(ByLane(l), st.h.canceled, js);
  }

  lemma BookFinish(st: State, step: Step, l: nat)
    requires Shape(st) && Enabled(st, step) && l < st.cfg.lanes && BookLaw(st, l) && step.op.FinishJob?
    ensures BookLaw(Next(st, step), l)
  {
    FinishEffect(st, step);
    FinishBooks(st, step, l);
    StepTotal(Attempt(l), st, step);
    StepTotal(AcceptLag(l), st, step);
  }

  lemma BookCancel(st: State, step: Step, l: nat)
    requires Shape(st) && Enabled(st, step) && l < st.cfg.lanes && BookLaw(st, l) && step.op.CancelRest?
    ensures BookLaw(Next(st, step), l)
  {
    StepTotal(Attempt(l), st, step);
    StepTotal(AcceptLag(l), st, step);
    CountConcat(ByLane(l), st.h.canceled, st.threads[step.t].batch);
  }

  lemma FrameBooks(st: State, step: Step)
    requires Shape(st) && Enabled(st, step)
    requires !IsAdmission(step.op) && !step.op.FinishJob? && !step.op.CancelRest?
    ensures Next(st, step).c == st.c && Next(st, step).h == st.h
  {
  }

  lemma FrameAdmission(st: State, step: Step, g: Gauge)
    requires Shape(st) && Enabled(st, step) && !IsAdmission(step.op) && (g.Attempt? || g.AcceptLag?)
    ensures Weigh(g, Next(st, step).threads[step.t]) == Weigh(g, st.threads[step.t])
  {
    ThreadAfter(st, step);
  }

  lemma BookStep(st: State, step: Step, l: nat)
    requires Shape(st) && Enabled(st, step) && l < st.cfg.lanes && BookLaw(st, l)
    ensures BookLaw(Next(st, step), l)
  {
    if step.op.Push? {
      BookPush(st, step, l);
    } else if IsAdmission(step.op) {
      BookRecord(st, step, l);
    } else if step.op.FinishJob? {
      BookFinish(st, step, l);
    } else if step.op.CancelRest? {
      BookCancel(st, step, l);
    } else {
      StepTotal(Attempt(l), st, step);
      StepTotal(AcceptLag(l), st, step);
      FrameBooks(st, step);
      FrameAdmission(st, step, Attempt(l));
      FrameAdmission(st, step, AcceptLag(l));
    }
  }

  lemma {:induction false} BookRun(st: State, steps: seq<Step>, l: nat)
    requires Shape(st) && Legal(st, steps) && l < st.cfg.lanes && BookLaw(st, l)
    ensures BookLaw(Run(st, steps), l)
    decreases |steps|
  {
    if steps != [] {
      BookStep(st, steps[0], l);
      BookRun(Next(st, steps[0]), steps[1..], l);
    }
  }

  /** Nobody is inside an enqueue, a locked pass, or between a result and its bookkeeping. */
  predicate Quiescent(st: State) {
    forall t :: 0 <= t < |st.threads| ==>
      !HoldsReadLock(st.threads[t]) && !st.threads[t].Popped? && !st.threads[t].Finishing?
  }

  lemma RangeInit(st: State)
    requires Init(st)
    ensures RangeInv(st)
  {
    forall s, l | 0 <= s < st.cfg.shards && 0 <= l < st.cfg.lanes ensures st.shards[s].lanes[l] == [] {
      assert !HasWork(st.shards[s].lanes);
    }
  }

  lemma BookInit(st: State, l: nat)
    requires Init(st) && l < st.cfg.lanes
    ensures BookLaw(st, l)
  {
    TotalZero(Attempt(l), st.threads);
    TotalZero(AcceptLag(l), st.threads);
  }

  lemma QuietBooks(e: State, l: nat)
    requires Shape(e) && l < e.cfg.lanes && BookLaw(e, l) && FlightLaw(e) && Conserved(e, ByLane(l)) && Quiescent(e)
    ensures e.c.accepted[l] == Queued(ByLane(l), e.shards) + e.laneInflight[l]
                               + e.c.completed[l] + e.c.failed[l] + e.c.canceled[l]
    ensures e.c.submitted[l] + e.c.pressureRejected[l] == e.c.accepted[l] + e.c.rejected[l]
  {
    TotalZero(Attempt(l), e.threads);
    TotalZero(AcceptLag(l), e.threads);
    TotalLe(Unended(ByLane(l)), Flying(ByLane(l)), e.threads);
    TotalLe(Flying(ByLane(l)), Unended(ByLane(l)), e.threads);
  }

  /** At every quiescent point of every run the books balance, lane by lane and in total. */
  lemma WorkConserved(st: State, steps: seq<Step>, l: nat)
    requires Init(st) && Legal(st, steps) && l < st.cfg.lanes
    requires Quiescent(Run(st, steps))
    ensures var e := Run(st, steps);
            && e.c.accepted[l] == Queued(ByLane(l), e.shards) + e.laneInflight[l]
                                  + e.c.completed[l] + e.c.failed[l] + e.c.canceled[l]
            && e.c.submitted[l] + e.c.pressureRejected[l] == e.c.accepted[l] + e.c.rejected[l]
            && e.inflight == Sum(e.shardInflight) == Sum(e.laneInflight)
  {
    ConserveInit(st, ByLane(l));
    ConserveRun(st, steps, ByLane(l));
    FlightInit(st);
    FlightRun(st, steps);
    BookInit(st, l);
    BookRun(st, steps, l);
    RangeInit(st);
    RangeRun(st, steps);
    InflightAgrees(Run(st, steps));
    QuietBooks(Run(st, steps), l);
  }
}
