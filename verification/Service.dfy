/** That the work gets done: from any point at which nobody is in the middle of something, one worker can
    bring every queued job to its end, and a scheduler without work can be drained and stopped. */
module Service {
  import opened Basics
  import opened Jobs
  import opened Protocol
  import opened Tokens
  import opened Accounting
  import opened Drain

  // ---- Runs of one thread ------------------------------------------------------------------------

  /** A run of steps that are all thread `t`'s. */
  predicate Leads(st: State, steps: seq<Step>, e: State, t: nat) {
    Shape(st) && Legal(st, steps) && Run(st, steps) == e && forall x :: x in steps ==> x.t == t
  }

  lemma LeadsOne(st: State, t: nat, op: Op)
    requires Shape(st) && Enabled(st, Step(t, op))
    ensures Leads(st, [Step(t, op)], Next(st, Step(t, op)), t)
  {
    RunCons(st, Step(t, op), []);
    assert [Step(t, op)] + [] == [Step(t, op)];
  }

  lemma LeadsOn(st: State, a: seq<Step>, mid: State, b: seq<Step>, e: State, t: nat)
    requires Leads(st, a, mid, t) && Leads(mid, b, e, t)
    ensures Leads(st, a + b, e, t)
  {
    RunConcat(st, a, b);
  }

  lemma LeadsBy(st: State, a: seq<Step>, mid: State, t: nat, op: Op)
    requires Leads(st, a, mid, t) && Shape(mid) && Enabled(mid, Step(t, op))
    ensures Leads(st, a + [Step(t, op)], Next(mid, Step(t, op)), t)
  {
    LeadsOne(mid, t, op);
    LeadsOn(st, a, mid, [Step(t, op)], Next(mid, Step(t, op)), t);
  }

  /** Thread `t` gets to `pc`; the other threads, the scheduler's life and the books on tokens given up
      and jobs accepted stay as they are. */
  predicate Moves(st: State, st': State, t: nat, pc: Pc)
    requires t < |st.threads|
  {
    && st'.threads == st.threads[t := pc]
    && st'.cfg == st.cfg && st'.life == st.life && st'.cancelled == st.cancelled && st'.drained == st.drained
    && st'.lost == st.lost && st'.h.entered == st.h.entered
  }

  predicate Unlocked(st: State) {
    forall s :: 0 <= s < |st.shards| ==> !st.shards[s].locked
  }

  /** Every thread but `t` is idle or waits in the stop loop. */
  predicate Standby(st: State, t: nat) {
    && t < |st.threads| && st.threads[t].Idle?
    && forall u :: 0 <= u < |st.threads| ==> st.threads[u].Idle? || st.threads[u].StopLoop?
  }

  // ---- The steps of a pass -------------------------------------------------------------------------

  lemma DoReceive(st: State, t: nat)
    requires Shape(st) && t < |st.threads| && st.threads[t].Idle? && st.life != New && st.ch != []
    ensures Enabled(st, Step(t, Receive))
    ensures var st' := Next(st, Step(t, Receive));
            Moves(st, st', t, Received(st.ch[0])) && st'.ch == st.ch[1..] && st'.shards == st.shards
  {
  }

  function Ones(n: nat): seq<nat> {
    seq(n, i => 1)
  }

  lemma DoPop(st: State, t: nat, s: nat)
    requires Shape(st) && t < |st.threads| && st.threads[t] == Received(s) && s < st.cfg.shards && Unlocked(st)
    ensures |st.shards[s].lanes| == st.cfg.lanes
    ensures Enabled(st, Step(t, Pop(Ones(st.cfg.lanes))))
    ensures var st', lanes, q := Next(st, Step(t, Pop(Ones(st.cfg.lanes)))), st.shards[s].lanes, Ones(st.cfg.lanes);
            && Moves(st, st', t, Popped(s, Batch(lanes, q), HasWork(Remainder(lanes, q)))) && st'.ch == st.ch
            && st'.shards == st.shards[s := Shard(st'.shards[s].ready, true, Remainder(lanes, q))]
  {
    assert PcShape(st.cfg, st.threads[t]) && ShardShape(st.cfg, st.shards[s]);
  }

  lemma DoAccount(st: State, t: nat)
    requires Shape(st) && t < |st.threads| && st.threads[t].Popped? && st.threads[t].shard < st.cfg.shards
    ensures Enabled(st, Step(t, Account))
    ensures var st', pc := Next(st, Step(t, Account)), st.threads[t];
            && Moves(st, st', t, Running(pc.shard, pc.batch, pc.more)) && st'.ch == st.ch
            && st'.shards == st.shards[pc.shard := st.shards[pc.shard].(locked := false)]
  {
  }

  lemma DoStart(st: State, t: nat)
    requires Shape(st) && t < |st.threads| && st.threads[t].Running? && st.threads[t].batch != [] && !st.cancelled
    requires st.threads[t].shard < st.cfg.shards
    ensures Enabled(st, Step(t, StartJob))
    ensures var st', pc := Next(st, Step(t, StartJob)), st.threads[t];
            Moves(st, st', t, Executing(pc.shard, pc.batch, pc.more)) && st'.ch == st.ch && st'.shards == st.shards
  {
  }

  lemma DoFinish(st: State, t: nat)
    requires Shape(st) && t < |st.threads| && st.threads[t].Executing?
    ensures Enabled(st, Step(t, FinishJob(Completed)))
    ensures var st', pc := Next(st, Step(t, FinishJob(Completed))), st.threads[t];
            Moves(st, st', t, Finishing(pc.shard, pc.batch, pc.more)) && st'.ch == st.ch && st'.shards == st.shards
  {
    assert PcShape(st.cfg, st.threads[t]);
  }

  lemma DoSettle(st: State, t: nat)
    requires Shape(st) && t < |st.threads| && st.threads[t].Finishing? && st.threads[t].batch != []
    ensures Enabled(st, Step(t, Settle))
    ensures var st', pc := Next(st, Step(t, Settle)), st.threads[t];
            Moves(st, st', t, Running(pc.shard, pc.batch[1..], pc.more)) && st'.ch == st.ch && st'.shards == st.shards
  {
    assert PcShape(st.cfg, st.threads[t]);
  }

  lemma DoEnd(st: State, t: nat)
    requires Shape(st) && t < |st.threads| && st.threads[t].Running? && st.threads[t].batch == []
    ensures Enabled(st, Step(t, EndBatch))
    ensures var st', pc := Next(st, Step(t, EndBatch)), st.threads[t];
            && Moves(st, st', t, if pc.more then Requeueing(pc.shard) else Idle)
            && st'.ch == st.ch && st'.shards == st.shards
  {
    assert PcShape(st.cfg, st.threads[t]);
  }

  lemma DoRequeue(st: State, t: nat)
    requires Shape(st) && t < |st.threads| && st.threads[t].Requeueing? && |st.ch| < st.cfg.shards
    ensures Enabled(st, Step(t, Requeue))
    ensures var st' := Next(st, Step(t, Requeue));
            Moves(st, st', t, Idle) && st'.ch == st.ch + [st.threads[t].shard] && st'.shards == st.shards
  {
    assert PcShape(st.cfg, st.threads[t]);
  }

  // ---- One pass ------------------------------------------------------------------------------------

  /** The first job of a batch is run. */
  lemma OneJob(st: State, t: nat) returns (steps: seq<Step>, e: State)
    requires Shape(st) && t < |st.threads| && st.threads[t].Running? && st.threads[t].batch != [] && !st.cancelled
    requires st.threads[t].shard < st.cfg.shards
    ensures Leads(st, steps, e, t) && Shape(e)
    ensures var pc := st.threads[t];
            Moves(st, e, t, Running(pc.shard, pc.batch[1..], pc.more)) && e.ch == st.ch && e.shards == st.shards
  {
    DoStart(st, t);
    LeadsOne(st, t, StartJob);
    var s1 := Next(st, Step(t, StartJob));
    DoFinish(s1, t);
    LeadsBy(st, [Step(t, StartJob)], s1, t, FinishJob(Completed));
    var s2 := Next(s1, Step(t, FinishJob(Completed)));
    DoSettle(s2, t);
    LeadsBy(st, [Step(t, StartJob)] + [Step(t, FinishJob(Completed))], s2, t, Settle);
    steps := [Step(t, StartJob)] + [Step(t, FinishJob(Completed))] + [Step(t, Settle)];
    e := Next(s2, Step(t, Settle));
  }

  /** The whole batch is run. */
  lemma {:induction false} RunOut(st: State, t: nat) returns (steps: seq<Step>, e: State)
    requires Shape(st) && t < |st.threads| && st.threads[t].Running? && !st.cancelled
    requires st.threads[t].shard < st.cfg.shards
    ensures Leads(st, steps, e, t) && Shape(e)
    ensures Moves(st, e, t, Running(st.threads[t].shard, [], st.threads[t].more))
    ensures e.ch == st.ch && e.shards == st.shards
    decreases |st.threads[t].batch|
  {
    if st.threads[t].batch == [] {
      steps, e := [], st;
    } else {
      var first, mid := OneJob(st, t);
      var rest, e' := RunOut(mid, t);
      LeadsOn(st, first, mid, rest, e', t);
      steps, e := first + rest, e';
    }
  }

  /** A token is taken, and its shard's jobs, one of every lane, are popped and accounted for. */
  lemma TakeJobs(st: State, t: nat) returns (steps: seq<Step>, e: State)
    requires Shape(st) && t < |st.threads| && st.threads[t].Idle? && st.life != New && st.ch != [] && Unlocked(st)
    ensures Leads(st, steps, e, t) && Shape(e) && Unlocked(e) && e.ch == st.ch[1..]
    ensures var s, q := st.ch[0], Ones(st.cfg.lanes);
            && s < st.cfg.shards && |st.shards[s].lanes| == st.cfg.lanes
            && var lanes := st.shards[s].lanes;
               && Moves(st, e, t, Running(s, Batch(lanes, q), HasWork(Remainder(lanes, q))))
               && e.shards == st.shards[s := Shard(e.shards[s].ready, false, Remainder(lanes, q))]
  {
    var s, q := st.ch[0], Ones(st.cfg.lanes);
    DoReceive(st, t);
    LeadsOne(st, t, Receive);
    var s1 := Next(st, Step(t, Receive));
    DoPop(s1, t, s);
    LeadsBy(st, [Step(t, Receive)], s1, t, Pop(q));
    var s2 := Next(s1, Step(t, Pop(q)));
    DoAccount(s2, t);
    LeadsBy(st, [Step(t, Receive)] + [Step(t, Pop(q))], s2, t, Account);
    steps := [Step(t, Receive)] + [Step(t, Pop(q))] + [Step(t, Account)];
    e := Next(s2, Step(t, Account));
  }

  /** After the batch the token goes back if its shard has more. */
  lemma HandBack(st: State, t: nat) returns (steps: seq<Step>, e: State)
    requires Shape(st) && TokenInv(st) && t < |st.threads| && st.threads[t].Running? && st.threads[t].batch == []
    ensures Leads(st, steps, e, t) && Shape(e) && Moves(st, e, t, Idle) && e.shards == st.shards
    ensures e.ch == if st.threads[t].more then st.ch + [st.threads[t].shard] else st.ch
  {
    DoEnd(st, t);
    LeadsOne(st, t, EndBatch);
    steps, e := [Step(t, EndBatch)], Next(st, Step(t, EndBatch));
    if st.threads[t].more {
      TokenStep(st, Step(t, EndBatch));
      RoomForHolder(e, t);
      DoRequeue(e, t);
      LeadsBy(st, steps, e, t, Requeue);
      steps, e := steps + [Step(t, Requeue)], Next(e, Step(t, Requeue));
    }
  }

  /** Taking one job of every lane takes something where there is something. */
  lemma {:induction false} TakesSome(lanes: seq<seq<Job>>)
    requires HasWork(lanes)
    ensures Batch(lanes, Ones(|lanes|)) != []
  {
    var n := |lanes| - 1;
    assert Ones(|lanes|)[..n] == Ones(n);
    if lanes[n] == [] {
      var i :| 0 <= i <= n && lanes[i] != [];
      assert lanes[..n][i] != [];
      TakesSome(lanes[..n]);
    }
  }

  /** A token is taken and the jobs that come with it are run. */
  lemma TakeAndRun(st: State, t: nat) returns (steps: seq<Step>, e: State)
    requires Shape(st) && TokenInv(st) && t < |st.threads| && st.threads[t].Idle? && Unlocked(st)
    requires st.life != New && !st.cancelled && st.ch != []
    ensures Leads(st, steps, e, t) && Shape(e) && TokenInv(e) && Unlocked(e) && e.ch == st.ch[1..]
    ensures var s, q := st.ch[0], Ones(st.cfg.lanes);
            && s < st.cfg.shards && |st.shards[s].lanes| == st.cfg.lanes
            && var lanes := st.shards[s].lanes;
               && Moves(st, e, t, Running(s, [], HasWork(Remainder(lanes, q))))
               && e.shards == st.shards[s := Shard(e.shards[s].ready, false, Remainder(lanes, q))]
  {
    var a, s1 := TakeJobs(st, t);
    var b, s2 := RunOut(s1, t);
    LeadsOn(st, a, s1, b, s2, t);
    TokenRun(st, a + b);
    steps, e := a + b, s2;
  }

  /** A pass leaves fewer jobs queued, or as many and fewer tokens waiting. */
  lemma OnePass(st: State, t: nat) returns (steps: seq<Step>, e: State)
    requires Shape(st) && TokenInv(st) && t < |st.threads| && st.threads[t].Idle? && Unlocked(st)
    requires st.life != New && !st.cancelled && st.ch != []
    ensures Leads(st, steps, e, t) && Shape(e) && TokenInv(e) && Unlocked(e) && Moves(st, e, t, Idle)
    ensures || Queued(Every, e.shards) < Queued(Every, st.shards)
            || (Queued(Every, e.shards) == Queued(Every, st.shards) && |e.ch| < |st.ch|)
  {
    var a, mid := TakeAndRun(st, t);
    var b, e' := HandBack(mid, t);
    LeadsOn(st, a, mid, b, e', t);
    TokenRun(st, a + b);
    steps, e := a + b, e';
    PassShrinks(st.shards, e.shards, st.ch[0], Ones(st.cfg.lanes));
  }

  lemma PassShrinks(shards: seq<Shard>, shards': seq<Shard>, s: nat, q: seq<nat>)
    requires s < |shards| == |shards'| && |q| == |shards[s].lanes| && q == Ones(|q|)
    requires shards' == shards[s := shards'[s]] && shards'[s].lanes == Remainder(shards[s].lanes, q)
    ensures Queued(Every, shards') <= Queued(Every, shards)
    ensures HasWork(Remainder(shards[s].lanes, q)) ==> Queued(Every, shards') < Queued(Every, shards)
  {
    var lanes := shards[s].lanes;
    PassConserves(Every, lanes, q);
    CountEvery(Batch(lanes, q));
    QueuedUpdate(Every, shards, s, shards'[s]);
    if HasWork(Remainder(lanes, q)) {
      var i :| 0 <= i < |lanes| && Remainder(lanes, q)[i] != [];
      assert lanes[i] != [];
      TakesSome(lanes);
    }
  }

  /** Pass after pass, until no token is left. */
  lemma {:induction false} ClearOut(st: State, t: nat) returns (steps: seq<Step>, e: State)
    requires Shape(st) && TokenInv(st) && t < |st.threads| && st.threads[t].Idle? && Unlocked(st)
    requires st.life != New && !st.cancelled
    ensures Leads(st, steps, e, t) && Shape(e) && TokenInv(e) && Unlocked(e) && Moves(st, e, t, Idle) && e.ch == []
    decreases Queued(Every, st.shards), |st.ch|
  {
    if st.ch == [] {
      steps, e := [], st;
      assert st.threads == st.threads[t := Idle];
    } else {
      var first, mid := OnePass(st, t);
      var rest, e' := ClearOut(mid, t);
      LeadsOn(st, first, mid, rest, e', t);
      steps, e := first + rest, e';
    }
  }

  // ---- All of the work -------------------------------------------------------------------------------

  /** What a run from the start is known to have when nobody is in the middle of something. */
  lemma AtRest(st: State, steps: seq<Step>, t: nat)
    requires Init(st) && Legal(st, steps) && Standby(Run(st, steps), t)
    ensures var e := Run(st, steps); TokenInv(e) && Unlocked(e) && e.inflight == 0
  {
    var e := Run(st, steps);
    TokenInit(st);
    TokenRun(st, steps);
    DrainInit(st);
    FlightInit(st);
    DrainRun(st, steps);
    FlightRun(st, steps);
    forall s | 0 <= s < |e.shards| ensures !e.shards[s].locked {
      assert LockLaw(e, s);
      TotalZero(Lock(s), e.threads);
    }
    TotalZero(Flying(Every), e.threads);
  }

  /** Nothing is queued and every accepted job has ended, one way and once. */
  ghost predicate NothingLeft(e: State)
    requires Shape(e)
  {
    && (forall s :: 0 <= s < e.cfg.shards ==> !HasWork(e.shards[s].lanes))
    && (forall id: nat :: Ended(ById(id), e.h) == One(id < |e.h.entered|))
  }

  lemma NoTokensNoWork(st: State, steps: seq<Step>, t: nat)
    requires Init(st) && Legal(st, steps) && Standby(Run(st, steps), t) && Run(st, steps).ch == []
    requires forall s :: 0 <= s < st.cfg.shards ==> Run(st, steps).lost[s] == 0
    ensures NothingLeft(Run(st, steps))
  {
    var e := Run(st, steps);
    AtRest(st, steps, t);
    forall s | 0 <= s < e.cfg.shards ensures !HasWork(e.shards[s].lanes) {
      assert TokenLaw(e, s);
      TotalZero(Token(s), e.threads);
    }
    forall id: nat ensures Ended(ById(id), e.h) == One(id < |e.h.entered|) {
      HasEnded(st, steps, t, id);
    }
  }

  lemma HasEnded(st: State, steps: seq<Step>, t: nat, id: nat)
    requires Init(st) && Legal(st, steps) && Standby(Run(st, steps), t)
    requires forall s :: 0 <= s < st.cfg.shards ==> !HasWork(Run(st, steps).shards[s].lanes)
    ensures var e := Run(st, steps); Ended(ById(id), e.h) == One(id < |e.h.entered|)
  {
    OneFate(st, steps, id);
    EmptyQueues(ById(id), Run(st, steps).shards);
    TotalZero(Unended(ById(id)), Run(st, steps).threads);
  }

  /**
   * From any point of any run at which the other threads stand by, the workers are started and not
   * cancelled, and no token was given up, a single worker can bring every job accepted so far to its
   * end.
   */
  lemma WorkGetsDone(st: State, steps: seq<Step>, t: nat) returns (more: seq<Step>)
    requires Init(st) && Legal(st, steps) && Standby(Run(st, steps), t)
    requires Run(st, steps).life != New && !Run(st, steps).cancelled
    requires forall s :: 0 <= s < st.cfg.shards ==> Run(st, steps).lost[s] == 0
    ensures Legal(st, steps + more) && forall x :: x in more ==> x.t == t
    ensures var e, f := Run(st, steps), Run(st, steps + more);
            Moves(e, f, t, Idle) && Standby(f, t) && f.inflight == 0 && NothingLeft(f)
  {
    AtRest(st, steps, t);
    var f;
    more, f := ClearOut(Run(st, steps), t);
    RunConcat(st, steps, more);
    AtRest(st, steps + more, t);
    NoTokensNoWork(st, steps + more, t);
  }

  // ---- The drain scan, on its own ------------------------------------------------------------------------

  predicate IsScanOp(op: Op) {
    op.DrainFirst? || op.ScanShard? || op.DrainLast?
  }

  predicate EmptyFrom(st: State, k: nat) {
    forall s :: k <= s < |st.shards| ==> !HasWork(st.shards[s].lanes)
  }

  /** What a scan makes of the scheduler. */
  predicate Answers(st: State, e: State, t: nat, yes: bool)
    requires t < |st.threads|
  {
    e == st.(threads := st.threads[t := if yes then StopCancel else StopLoop], drained := st.drained || yes)
  }

  lemma DoScan(st: State, t: nat)
    requires Shape(st) && t < |st.threads| && Unlocked(st)
    requires st.threads[t].Scan? && st.threads[t].next < st.cfg.shards
    ensures Enabled(st, Step(t, ScanShard))
    ensures var k := st.threads[t].next;
            Next(st, Step(t, ScanShard)) ==
              At(st, t, if exists l :: 0 <= l < |st.shards[k].lanes| && st.shards[k].lanes[l] != []
                        then StopLoop else Scan(k + 1))
  {
    assert PcShape(st.cfg, st.threads[t]);
  }

  lemma DoLastRead(st: State, t: nat)
    requires Shape(st) && t < |st.threads| && st.threads[t] == Scan(st.cfg.shards) && st.inflight == 0
    ensures Enabled(st, Step(t, DrainLast)) && Next(st, Step(t, DrainLast)) == At(st, t, StopCancel).(drained := true)
  {
  }

  lemma {:induction false} ScanOn(st: State, t: nat) returns (steps: seq<Step>, e: State)
    requires Shape(st) && t < |st.threads| && Unlocked(st) && st.inflight == 0
    requires st.threads[t].Scan? && st.threads[t].next <= st.cfg.shards
    ensures Leads(st, steps, e, t) && forall x :: x in steps ==> IsScanOp(x.op)
    ensures Answers(st, e, t, EmptyFrom(st, st.threads[t].next))
    decreases st.cfg.shards - st.threads[t].next
  {
    var k := st.threads[t].next;
    if k == st.cfg.shards {
      DoLastRead(st, t);
      LeadsOne(st, t, DrainLast);
      steps, e := [Step(t, DrainLast)], Next(st, Step(t, DrainLast));
    } else {
      var mid := ScanOne(st, t);
      if HasWork(st.shards[k].lanes) {
        steps, e := [Step(t, ScanShard)], mid;
      } else {
        var rest, e' := ScanOn(mid, t);
        LeadsOn(st, [Step(t, ScanShard)], mid, rest, e', t);
        steps, e := [Step(t, ScanShard)] + rest, e';
        AnswersFurther(st, mid, e, t, k);
      }
    }
  }

  lemma ScanOne(st: State, t: nat) returns (mid: State)
    requires Shape(st) && t < |st.threads| && Unlocked(st)
    requires st.threads[t].Scan? && st.threads[t].next < st.cfg.shards
    ensures Leads(st, [Step(t, ScanShard)], mid, t) && Shape(mid)
    ensures var k := st.threads[t].next; mid == At(st, t, if HasWork(st.shards[k].lanes) then StopLoop else Scan(k + 1))
  {
    DoScan(st, t);
    LeadsOne(st, t, ScanShard);
    mid := Next(st, Step(t, ScanShard));
  }

  lemma AnswersFurther(st: State, mid: State, e: State, t: nat, k: nat)
    requires t < |st.threads| && k < |st.shards| && !HasWork(st.shards[k].lanes) && mid == At(st, t, Scan(k + 1))
    requires Answers(mid, e, t, EmptyFrom(mid, k + 1))
    ensures Answers(st, e, t, EmptyFrom(st, k))
  {
    assert mid.threads[t := e.threads[t]] == st.threads[t := e.threads[t]];
  }

  /**
   * The scan is exact: undisturbed, it says yes if and only if nothing is in flight and every shard is
   * empty.
   */
  lemma ScanIsExact(st: State, t: nat) returns (steps: seq<Step>, e: State)
    requires Shape(st) && t < |st.threads| && st.threads[t].StopLoop? && Unlocked(st)
    ensures Leads(st, steps, e, t) && steps != [] && forall x :: x in steps ==> IsScanOp(x.op)
    ensures Answers(st, e, t, st.inflight == 0 && EmptyFrom(st, 0))
  {
    LeadsOne(st, t, DrainFirst);
    var mid := Next(st, Step(t, DrainFirst));
    steps, e := [Step(t, DrainFirst)], mid;
    if st.inflight == 0 {
      var rest, e' := ScanOn(mid, t);
      LeadsOn(st, steps, mid, rest, e', t);
      steps, e := steps + rest, e';
      assert mid.threads[t := e.threads[t]] == st.threads[t := e.threads[t]];
    }
  }

  /** Interleaved with anything else, a scan falls back only over a job it has seen queued or in flight. */
  lemma ScanGivesUpForCause(st: State, step: Step)
    requires Shape(st) && Enabled(st, step) && IsScanOp(step.op)
    ensures Next(st, step).threads[step.t].StopLoop? <==>
      if step.op.ScanShard?
      then exists l :: 0 <= l < st.cfg.lanes && st.shards[st.threads[step.t].next].lanes[l] != []
      else st.inflight != 0
  {
    if step.op.ScanShard? {
      assert ShardShape(st.cfg, st.shards[st.threads[step.t].next]);
    }
  }

  // ---- Stopping --------------------------------------------------------------------------------------------

  lemma DoStop(st: State, u: nat, drain: bool)
    requires Shape(st) && u < |st.threads| && st.threads[u].Idle? && (st.life == New || st.life == Started)
    requires forall t :: 0 <= t < |st.threads| ==> st.threads[t].Idle?
    ensures Enabled(st, Step(u, StopBegin(drain)))
    ensures Next(st, Step(u, StopBegin(drain))) ==
      At(st, u, if drain then StopLoop else StopCancel).(life := Stopping)
  {
  }

  /** The workers are cancelled, and the scheduler is marked stopped. */
  lemma DoCancel(st: State, u: nat)
    requires Shape(st) && u < |st.threads| && st.threads[u].StopCancel? && st.life == Stopping
    ensures Leads(st, [Step(u, CancelWorkers)] + [Step(u, MarkStopped)],
                  At(st, u, Idle).(cancelled := true, life := Stopped), u)
  {
    LeadsOne(st, u, CancelWorkers);
    var mid := Next(st, Step(u, CancelWorkers));
    LeadsBy(st, [Step(u, CancelWorkers)], mid, u, MarkStopped);
  }

  /** Without draining, a stop cancels the workers at once, whatever is queued. */
  lemma StopAtOnce(st: State, u: nat)
    requires Shape(st) && u < |st.threads| && (st.life == New || st.life == Started)
    requires forall t :: 0 <= t < |st.threads| ==> st.threads[t].Idle?
    ensures Leads(st, [Step(u, StopBegin(false))] + ([Step(u, CancelWorkers)] + [Step(u, MarkStopped)]),
                  st.(cancelled := true, life := Stopped), u)
  {
    DoStop(st, u, false);
    LeadsOne(st, u, StopBegin(false));
    var mid := Next(st, Step(u, StopBegin(false)));
    DoCancel(mid, u);
    LeadsOn(st, [Step(u, StopBegin(false))], mid, [Step(u, CancelWorkers)] + [Step(u, MarkStopped)],
            At(mid, u, Idle).(cancelled := true, life := Stopped), u);
    assert mid.threads[u := Idle] == st.threads;
  }

  lemma StopOnceDone(st: State, u: nat) returns (steps: seq<Step>)
    requires Shape(st) && u < |st.threads| && st.threads[u].StopLoop? && Unlocked(st) && st.life == Stopping
    requires st.inflight == 0 && EmptyFrom(st, 0)
    ensures Leads(st, steps, At(st, u, Idle).(drained := true, cancelled := true, life := Stopped), u)
  {
    var scan, mid := ScanIsExact(st, u);
    DoCancel(mid, u);
    var e := At(mid, u, Idle).(cancelled := true, life := Stopped);
    LeadsOn(st, scan, mid, [Step(u, CancelWorkers)] + [Step(u, MarkStopped)], e, u);
    steps := scan + ([Step(u, CancelWorkers)] + [Step(u, MarkStopped)]);
    assert mid.threads[u := Idle] == st.threads[u := Idle];
  }

  /** A run and what comes after it. */
  lemma Later(st: State, steps: seq<Step>, a: seq<Step>, mid: State, b: seq<Step>, e: State, t: nat)
    requires Shape(st) && Legal(st, steps + a) && Run(st, steps + a) == mid && Leads(mid, b, e, t)
    ensures Legal(st, steps + (a + b)) && Run(st, steps + (a + b)) == e
  {
    RunConcat(st, steps + a, b);
    Together(steps, a, b);
  }

  lemma Together(a: seq<Step>, b: seq<Step>, c: seq<Step>)
    ensures (a + b) + c == a + (b + c)
  {
  }

  lemma StopBegins(st: State, steps: seq<Step>, e: State, u: nat) returns (begin: seq<Step>, f: State)
    requires Shape(st) && Legal(st, steps) && Run(st, steps) == e && u < |e.threads|
    requires (forall v :: 0 <= v < |e.threads| ==> e.threads[v].Idle?) && e.life == Started
    ensures Legal(st, steps + begin) && Run(st, steps + begin) == f
    ensures f == At(e, u, StopLoop).(life := Stopping)
  {
    DoStop(e, u, true);
    LeadsOne(e, u, StopBegin(true));
    begin, f := [Step(u, StopBegin(true))], Next(e, Step(u, StopBegin(true)));
    RunConcat(st, steps, begin);
  }

  /** From rest, with the stop under way, the work gets done. */
  lemma WorkAfterStop(st: State, steps: seq<Step>, e: State, t: nat) returns (work: seq<Step>, f: State)
    requires Init(st) && Legal(st, steps) && Run(st, steps) == e && Standby(e, t)
    requires e.life == Stopping && !e.cancelled && forall s :: 0 <= s < st.cfg.shards ==> e.lost[s] == 0
    ensures Leads(e, work, f, t) && Shape(f) && Moves(e, f, t, Idle)
    ensures Unlocked(f) && f.inflight == 0 && NothingLeft(f)
  {
    work := WorkGetsDone(st, steps, t);
    f := Run(st, steps + work);
    AtRest(st, steps + work, t);
    RunSplits(st, steps, work);
  }

  lemma {:induction false} RunSplits(st: State, a: seq<Step>, b: seq<Step>)
    requires Shape(st) && Legal(st, a) && Legal(st, a + b)
    ensures Legal(Run(st, a), b) && Run(st, a + b) == Run(Run(st, a), b)
    decreases |a|
  {
    if a == [] {
      assert a + b == b;
    } else {
      FirstApart(a, b);
      assert (a + b)[1..] == a[1..] + b;
      RunSplits(Next(st, a[0]), a[1..], b);
    }
  }

  /** What a stop that drained leaves behind. */
  ghost predicate StoppedCleanly(e: State, f: State)
    requires Shape(f)
  {
    && f.life == Stopped && f.drained && f.cancelled && NothingLeft(f) && f.inflight == 0
    && f.h.entered == e.h.entered && f.threads == e.threads
  }

  /**
   * A graceful stop can always succeed: from any point of any run of a started scheduler at which nobody
   * is in the middle of something and no token was given up, a draining stop and one worker can bring
   * every accepted job to its end, the scan to say yes and the scheduler to be stopped.
   */
  lemma GracefulStop(st: State, steps: seq<Step>, e: State, t: nat, u: nat) returns (more: seq<Step>, f: State)
    requires Init(st) && Legal(st, steps) && Run(st, steps) == e
    requires t < |e.threads| && u < |e.threads| && t != u
    requires (forall v :: 0 <= v < |e.threads| ==> e.threads[v].Idle?) && e.life == Started && !e.cancelled
    requires forall s :: 0 <= s < st.cfg.shards ==> e.lost[s] == 0
    ensures Legal(st, steps + more) && Run(st, steps + more) == f && StoppedCleanly(e, f)
  {
    var begin, s1 := StopBegins(st, steps, e, u);
    var work, s2 := WorkAfterStop(st, steps + begin, s1, t);
    Later(st, steps, begin, s1, work, s2, t);
    var last := StopOnceDone(s2, u);
    f := At(s2, u, Idle).(drained := true, cancelled := true, life := Stopped);
    Later(st, steps, begin + work, s2, last, f, u);
    more := (begin + work) + last;
    assert e.threads[u := StopLoop][t := Idle][u := Idle] == e.threads;
  }

  // ---- Before the start and after the cancellation ----------------------------------------------------------

  /** Once the workers are cancelled no job is started any more. */
  lemma {:induction false} NoJobStartsOnceCancelled(st: State, steps: seq<Step>)
    requires Shape(st) && Legal(st, steps) && st.cancelled
    ensures Run(st, steps).cancelled && forall x :: x in steps ==> !x.op.StartJob?
    decreases |steps|
  {
    if steps != [] {
      CancelledStays(st, steps[0]);
      NoJobStartsOnceCancelled(Next(st, steps[0]), steps[1..]);
    }
  }

  lemma CancelledStays(st: State, step: Step)
    requires Shape(st) && Enabled(st, step) && st.cancelled
    ensures Next(st, step).cancelled
  {
    if IsStopOp(step.op) {
      StopEffect(st, step);
    } else if IsTokenOp(step.op) {
      TokenEffect(st, step);
    }
  }

  /** Workers are cancelled by a stop, or by the end of the context they were started with; nothing else
      does it. */
  lemma CancelledExactly(st: State, step: Step)
    requires Shape(st) && Enabled(st, step)
    ensures Next(st, step).cancelled <==> st.cancelled || step.op.CancelWorkers? || step.op.CancelParent?
  {
    if IsStopOp(step.op) {
      StopEffect(st, step);
    } else if IsTokenOp(step.op) {
      TokenEffect(st, step);
    }
  }

  /** Threads that have not started yet only submit. */
  predicate OnlySubmits(st: State) {
    st.life == New ==> forall t :: 0 <= t < |st.threads| ==>
      st.threads[t].Idle? || HoldsReadLock(st.threads[t]) || st.threads[t].Holding?
  }

  lemma SubmitsStep(st: State, step: Step)
    requires Shape(st) && Enabled(st, step) && OnlySubmits(st)
    ensures OnlySubmits(Next(st, step))
    ensures Next(st, step).life == New ==> st.life == New && !step.op.Pop? && !step.op.Receive?
  {
    ThreadAfter(st, step);
    if !IsStopOp(step.op) {
      LifeKept(st, step);
    }
  }

  /** Before the scheduler is started nothing is taken from its queues. */
  lemma {:induction false} NothingIsTakenBeforeStart(st: State, steps: seq<Step>)
    requires Shape(st) && Legal(st, steps) && OnlySubmits(st)
    ensures OnlySubmits(Run(st, steps))
    ensures Run(st, steps).life == New ==> st.life == New && forall x :: x in steps ==> !x.op.Pop? && !x.op.Receive?
    decreases |steps|
  {
    if steps != [] {
      SubmitsStep(st, steps[0]);
      NothingIsTakenBeforeStart(Next(st, steps[0]), steps[1..]);
    }
  }

  /** A new scheduler can be started, and only once. */
  lemma StartsOnce(st: State, t: nat)
    requires Shape(st) && t < |st.threads| && st.threads[t].Idle?
    ensures Enabled(st, Step(t, Start)) <==> st.life == New
    ensures st.life == New ==> Next(st, Step(t, Start)) == st.(life := Started)
  {
  }

  /** While a pass is inside its critical section no other step changes the shard's queues or flag. */
  lemma LockedIsLeftAlone(st: State, step: Step, s: nat)
    requires Shape(st) && Enabled(st, step) && s < st.cfg.shards && st.shards[s].locked
    ensures Next(st, step).shards[s].lanes == st.shards[s].lanes && Next(st, step).shards[s].ready == st.shards[s].ready
  {
    if step.op.Push? {
      PushElsewhere(st, step, s);
    } else if step.op.Pop? {
      assert PcShape(st.cfg, st.threads[step.t]);
      PopElsewhere(st, step, s);
    } else {
      FrameShards(st, step, s);
    }
  }

  lemma PushElsewhere(st: State, step: Step, s: nat)
    requires Shape(st) && Enabled(st, step) && step.op.Push? && s < st.cfg.shards && st.shards[s].locked
    ensures Next(st, step).shards[s] == st.shards[s]
  {
  }

  /** A stop begins exactly once, while no submission is between the gate and its end. */
  lemma StopsExactly(st: State, u: nat, drain: bool)
    requires Shape(st) && u < |st.threads| && st.threads[u].Idle?
    ensures Enabled(st, Step(u, StopBegin(drain))) <==>
      && (st.life == New || st.life == Started)
      && forall t :: 0 <= t < |st.threads| ==>
           !st.threads[t].Admitting? && !st.threads[t].Rejecting? && !st.threads[t].Accepted?
  {
    assert PcShape(st.cfg, st.threads[u]);
  }

  /** Jobs are dropped unrun, and tokens of workers given up, only once the workers are cancelled. */
  lemma {:induction false} NothingIsDroppedBefore(st: State, steps: seq<Step>)
    requires Shape(st) && Legal(st, steps) && !Run(st, steps).cancelled
    ensures !st.cancelled && forall x :: x in steps ==> !x.op.CancelRest? && !x.op.AbandonRequeue?
    decreases |steps|
  {
    if steps != [] {
      CancelledExactly(st, steps[0]);
      NothingIsDroppedBefore(Next(st, steps[0]), steps[1..]);
    }
  }

  /** A scheduler is marked stopped only after its workers were cancelled. */
  lemma {:induction false} StoppedMeansCancelled(st: State, steps: seq<Step>)
    requires Shape(st) && Legal(st, steps) && (st.life == Stopped ==> st.cancelled)
    ensures Run(st, steps).life == Stopped ==> Run(st, steps).cancelled
    decreases |steps|
  {
    if steps != [] {
      CancelledExactly(st, steps[0]);
      StoppedLater(st, steps[0]);
      StoppedMeansCancelled(Next(st, steps[0]), steps[1..]);
    }
  }

  lemma StoppedLater(st: State, step: Step)
    requires Shape(st) && Enabled(st, step)
    ensures Next(st, step).life == Stopped ==> st.life == Stopped || (step.op.MarkStopped? && st.cancelled)
  {
    if !IsStopOp(step.op) {
      LifeKept(st, step);
    }
  }
}
