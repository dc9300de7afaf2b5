/** What a worker does with its batch outside the shard lock: the in-flight and outcome
    counters over one run of the batch loop, including a cancellation part-way through. */
module WorkerLedger {
  import opened Basics
  import opened Jobs
  import opened Protocol

  /** The jobs of `js` that ended with outcome `o`. */
  function With(js: seq<Job>, outcome: Job -> Outcome, o: Outcome): seq<Job> {
    if js == [] then []
    else With(js[..|js| - 1], outcome, o) + (if outcome(js[|js| - 1]) == o then [js[|js| - 1]] else [])
  }

  lemma CountPiece(m: Match, js: seq<Job>, n: nat, outcome: Job -> Outcome, o: Outcome)
    requires |js| == n + 1
    ensures Count(m, With(js, outcome, o))
         == Count(m, With(js[..n], outcome, o)) + (if outcome(js[n]) == o && Hits(m, js[n]) then 1 else 0)
  {
    CountConcat(m, With(js[..n], outcome, o), if outcome(js[n]) == o then [js[n]] else []);
  }

  /** Every job that ran ended exactly one way. */
  lemma {:induction false} OutcomesPartition(m: Match, js: seq<Job>, outcome: Job -> Outcome)
    ensures Count(m, js) == Count(m, With(js, outcome, Completed)) + Count(m, With(js, outcome, Failed))
                            + Count(m, With(js, outcome, Canceled))
  {
    if js != [] {
      var n := |js| - 1;
      OutcomesPartition(m, js[..n], outcome);
      CountPiece(m, js, n, outcome, Completed);
      CountPiece(m, js, n, outcome, Failed);
      CountPiece(m, js, n, outcome, Canceled);
      assert Count(m, js) == Count(m, js[..n]) + Count(m, [js[n]]) by {
        assert js == js[..n] + [js[n]];
        CountConcat(m, js[..n], [js[n]]);
      }
      CountSingle(m, js[n]);
    }
  }

  lemma CountSingle(m: Match, j: Job)
    ensures Count(m, [j]) == One(Hits(m, j))
  {
    assert [j][1..] == [];
  }

  lemma AddOne(v: seq<int>, js: seq<Job>, j: Job)
    requires j.lane < |v|
    ensures AddLanes(v, js + [j]) == AddLanes(v, js)[j.lane := AddLanes(v, js)[j.lane] + 1]
    ensures SubLanes(v, js + [j]) == SubLanes(v, js)[j.lane := SubLanes(v, js)[j.lane] - 1]
  {
    forall l | 0 <= l < |v| ensures Count(ByLane(l), js + [j]) == Count(ByLane(l), js) + One(j.lane == l) {
      CountConcat(ByLane(l), js, [j]);
    }
  }

  lemma TakeNext(js: seq<Job>, i: nat)
    requires i < |js|
    ensures js[..i + 1] == js[..i] + [js[i]] && js[..i + 1][..i] == js[..i] && |js[..i + 1]| == i + 1
  {
  }

  lemma CountedNext(v: seq<int>, js: seq<Job>, i: nat, outcome: Job -> Outcome, o: Outcome)
    requires i < |js| && js[i].lane < |v|
    ensures AddLanes(v, With(js[..i + 1], outcome, o))
         == if outcome(js[i]) == o then Bump(AddLanes(v, With(js[..i], outcome, o)), js[i].lane)
            else AddLanes(v, With(js[..i], outcome, o))
  {
    TakeNext(js, i);
    if outcome(js[i]) == o {
      AddOne(v, With(js[..i], outcome, o), js[i]);
    } else {
      assert With(js[..i], outcome, o) + [] == With(js[..i], outcome, o);
    }
  }

  lemma SplitRest(v: seq<int>, js: seq<Job>, i: nat)
    requires i <= |js|
    ensures SubLanes(SubLanes(v, js[..i]), js[i..]) == SubLanes(v, js)
  {
    assert js == js[..i] + js[i..];
    forall l: nat ensures Count(ByLane(l), js) == Count(ByLane(l), js[..i]) + Count(ByLane(l), js[i..]) {
      CountConcat(ByLane(l), js[..i], js[i..]);
    }
  }

  /** The outcome counters of every lane. */
  datatype Tally = Tally(completed: seq<int>, failed: seq<int>, canceled: seq<int>)

  /** The tally after the jobs of `js` ran. */
  function Tallied(t: Tally, js: seq<Job>, outcome: Job -> Outcome): Tally {
    Tally(AddLanes(t.completed, With(js, outcome, Completed)),
          AddLanes(t.failed, With(js, outcome, Failed)),
          AddLanes(t.canceled, With(js, outcome, Canceled)))
  }

  predicate TallyFits(t: Tally, lanes: nat) {
    |t.completed| == |t.failed| == |t.canceled| == lanes
  }

  function CountOutcome(t: Tally, lane: nat, o: Outcome): Tally
    requires TallyFits(t, |t.completed|) && lane < |t.completed|
  {
    match o
    case Completed => t.(completed := Bump(t.completed, lane))
    case Failed => t.(failed := Bump(t.failed, lane))
    case Canceled => t.(canceled := Bump(t.canceled, lane))
  }

  lemma TalliedNext(t: Tally, js: seq<Job>, i: nat, outcome: Job -> Outcome)
    requires i < |js| && TallyFits(t, |t.completed|) && js[i].lane < |t.completed|
    ensures Tallied(t, js[..i + 1], outcome) == CountOutcome(Tallied(t, js[..i], outcome), js[i].lane, outcome(js[i]))
  {
    CountedNext(t.completed, js, i, outcome, Completed);
    CountedNext(t.failed, js, i, outcome, Failed);
    CountedNext(t.canceled, js, i, outcome, Canceled);
  }

  lemma DropNext(v: seq<int>, c: seq<int>, js: seq<Job>, i: nat)
    requires i < |js| && |v| == |c| && js[i].lane < |v|
    ensures SubLanes(v, js[..i + 1]) == SubLanes(v, js[..i])[js[i].lane := SubLanes(v, js[..i])[js[i].lane] - 1]
    ensures AddLanes(c, js[..i + 1]) == Bump(AddLanes(c, js[..i]), js[i].lane)
  {
    TakeNext(js, i);
    AddOne(v, js[..i], js[i]);
    AddOne(c, js[..i], js[i]);
  }

  lemma OneTurn(v: seq<int>, t: Tally, js: seq<Job>, i: nat, outcome: Job -> Outcome)
    requires i < |js| && TallyFits(t, |v|) && InLanes(js, |v|)
    ensures js[i].lane < |v|
    ensures SubLanes(v, js[..i + 1]) == SubLanes(v, js[..i])[js[i].lane := SubLanes(v, js[..i])[js[i].lane] - 1]
    ensures Tallied(t, js[..i + 1], outcome) == CountOutcome(Tallied(t, js[..i], outcome), js[i].lane, outcome(js[i]))
  {
    TakeNext(js, i);
    AddOne(v, js[..i], js[i]);
    TalliedNext(t, js, i, outcome);
  }

  class Ledger {
    var inflight: int
    /** The counter of the shard being processed. */
    var shardInflight: int
    var laneInflight: seq<int>
    var tally: Tally

    ghost predicate Fits(batch: seq<Job>)
      reads this
    {
      && TallyFits(tally, |laneInflight|)
      && InLanes(batch, |laneInflight|)
    }

    /** Under the shard lock, right after popping. */
    method Account(batch: seq<Job>)
      requires Fits(batch)
      modifies this`inflight, this`shardInflight, this`laneInflight
      ensures inflight == old(inflight) + |batch|
      ensures shardInflight == old(shardInflight) + |batch|
      ensures laneInflight == AddLanes(old(laneInflight), batch)
    {
      inflight := inflight + |batch|;
      shardInflight := shardInflight + |batch|;
      ghost var lanes0 := laneInflight;
      for i := 0 to |batch|
        invariant inflight == old(inflight) + |batch|
        invariant shardInflight == old(shardInflight) + |batch|
        invariant laneInflight == AddLanes(lanes0, batch[..i])
      {
        TakeNext(batch, i);
        AddOne(lanes0, batch[..i], batch[i]);
        var l := batch[i].lane;
        laneInflight := laneInflight[l := laneInflight[l] + 1];
      }
      assert batch[..|batch|] == batch;
    }

    method DropOne(job: Job)
      requires Fits([]) && job.lane < |laneInflight|
      modifies this`laneInflight, this`tally
      ensures laneInflight == old(laneInflight)[job.lane := old(laneInflight)[job.lane] - 1]
      ensures tally == old(tally).(canceled := Bump(old(tally).canceled, job.lane))
    {
      laneInflight := laneInflight[job.lane := laneInflight[job.lane] - 1];
      tally := tally.(canceled := Bump(tally.canceled, job.lane));
    }

    /** The jobs from `i` on are dropped: the context was cancelled before job `i`. */
    method DropRest(batch: seq<Job>, i: nat)
      requires Fits(batch) && i <= |batch|
      modifies this`inflight, this`shardInflight, this`laneInflight, this`tally
      ensures inflight == old(inflight) - (|batch| - i)
      ensures shardInflight == old(shardInflight) - (|batch| - i)
      ensures laneInflight == SubLanes(old(laneInflight), batch[i..])
      ensures tally == old(tally).(canceled := AddLanes(old(tally).canceled, batch[i..]))
    {
      var remaining := |batch| - i;
      inflight := inflight - remaining;
      shardInflight := shardInflight - remaining;
      DropAll(batch[i..]);
    }

    method DropAll(rest: seq<Job>)
      requires Fits(rest)
      modifies this`laneInflight, this`tally
      ensures laneInflight == SubLanes(old(laneInflight), rest)
      ensures tally == old(tally).(canceled := AddLanes(old(tally).canceled, rest))
    {
      ghost var lanes0, tally0 := laneInflight, tally;
      for j := 0 to |rest|
        invariant laneInflight == SubLanes(lanes0, rest[..j])
        invariant tally == tally0.(canceled := AddLanes(tally0.canceled, rest[..j]))
      {
        DropNext(lanes0, tally0.canceled, rest, j);
        DropOne(rest[j]);
      }
      assert rest[..|rest|] == rest;
    }

    /** One job: its outcome is counted, then the deferred decrements run. */
    method RunJob(job: Job, outcome: Outcome)
      requires Fits([]) && job.lane < |laneInflight|
      modifies this
      ensures inflight == old(inflight) - 1
      ensures shardInflight == old(shardInflight) - 1
      ensures laneInflight == old(laneInflight)[job.lane := old(laneInflight)[job.lane] - 1]
      ensures tally == CountOutcome(old(tally), job.lane, outcome)
    {
      match outcome {
        case Completed => tally := tally.(completed := Bump(tally.completed, job.lane));
        case Failed => tally := tally.(failed := Bump(tally.failed, job.lane));
        case Canceled => tally := tally.(canceled := Bump(tally.canceled, job.lane));
      }
      inflight := inflight - 1;
      shardInflight := shardInflight - 1;
      laneInflight := laneInflight[job.lane := laneInflight[job.lane] - 1];
    }

    /** Job `i` of a batch whose first `i` jobs ran since the counters were `lanes0` and `tally0`. */
    method RunNext(batch: seq<Job>, i: nat, outcome: Job -> Outcome, ghost lanes0: seq<int>, ghost tally0: Tally)
      requires Fits(batch) && i < |batch| && |lanes0| == |laneInflight| && TallyFits(tally0, |lanes0|)
      requires laneInflight == SubLanes(lanes0, batch[..i]) && tally == Tallied(tally0, batch[..i], outcome)
      modifies this
      ensures Fits(batch) && |laneInflight| == |lanes0|
      ensures inflight == old(inflight) - 1 && shardInflight == old(shardInflight) - 1
      ensures laneInflight == SubLanes(lanes0, batch[..i + 1]) && tally == Tallied(tally0, batch[..i + 1], outcome)
    {
      OneTurn(lanes0, tally0, batch, i, outcome);
      RunJob(batch[i], outcome(batch[i]));
    }

    /** Runs jobs until the context is found cancelled or the batch ends. */
    method RunUntil(batch: seq<Job>, cancelAt: nat, outcome: Job -> Outcome) returns (i: nat)
      requires Fits(batch)
      modifies this
      ensures i == Min(cancelAt, |batch|) && Fits(batch)
      ensures inflight == old(inflight) - i
      ensures shardInflight == old(shardInflight) - i
      ensures laneInflight == SubLanes(old(laneInflight), batch[..i])
      ensures tally == Tallied(old(tally), batch[..i], outcome)
    {
      ghost var inflight0, lanes0, tally0, shards0 := inflight, laneInflight, tally, shardInflight;
      i := 0;
      while i < |batch| && i != cancelAt
        invariant i <= |batch| && i <= cancelAt && Fits(batch) && |laneInflight| == |lanes0|
        invariant inflight == inflight0 - i
        invariant shardInflight == shards0 - i
        invariant laneInflight == SubLanes(lanes0, batch[..i])
        invariant tally == Tallied(tally0, batch[..i], outcome)
      {
        RunNext(batch, i, outcome, lanes0, tally0);
        i := i + 1;
      }
    }

    /** The whole loop.  The context is found cancelled before job `cancelAt` (never, when
        that is past the end); whatever happens, everything the batch added to the in-flight
        counters is taken back, and each job is counted under exactly one outcome. */
    method RunBatch(batch: seq<Job>, cancelAt: nat, outcome: Job -> Outcome)
      requires Fits(batch)
      modifies this
      ensures inflight == old(inflight) - |batch|
      ensures shardInflight == old(shardInflight) - |batch|
      ensures laneInflight == SubLanes(old(laneInflight), batch)
      ensures var k := Min(cancelAt, |batch|);
              tally == Tallied(old(tally), batch[..k], outcome).(
                         canceled := AddLanes(Tallied(old(tally), batch[..k], outcome).canceled, batch[k..]))
    {
      ghost var lanes0 := laneInflight;
      var i := RunUntil(batch, cancelAt, outcome);
      DropRest(batch, i);
      SplitRest(lanes0, batch, i);
    }
  }

  // ---- The ledger takes the protocol's steps -----------------------------------------------------

  function TallyOf(st: State): Tally {
    Tally(st.c.completed, st.c.failed, st.c.canceled)
  }

  /** The ledger holds what the protocol counts for shard `s`. */
  ghost predicate Mirrors(ledger: Ledger, st: State, s: nat)
    reads ledger
    requires Shape(st) && s < st.cfg.shards
  {
    && ledger.inflight == st.inflight && ledger.shardInflight == st.shardInflight[s]
    && ledger.laneInflight == st.laneInflight && ledger.tally == TallyOf(st)
  }

  /** The accounting under the shard lock is the protocol's `Account`. */
  method AccountMirrors(ledger: Ledger, st: State, step: Step)
    requires Shape(st) && Enabled(st, step) && step.op.Account?
    requires Mirrors(ledger, st, st.threads[step.t].shard) && InLanes(st.threads[step.t].batch, st.cfg.lanes)
    modifies ledger`inflight, ledger`shardInflight, ledger`laneInflight
    ensures Mirrors(ledger, Next(st, step), st.threads[step.t].shard)
  {
    ledger.Account(st.threads[step.t].batch);
  }

  /** Dropping the rest of a batch is the protocol's `CancelRest`. */
  method DropMirrors(ledger: Ledger, st: State, step: Step)
    requires Shape(st) && Enabled(st, step) && step.op.CancelRest?
    requires Mirrors(ledger, st, st.threads[step.t].shard) && InLanes(st.threads[step.t].batch, st.cfg.lanes)
    modifies ledger`inflight, ledger`shardInflight, ledger`laneInflight, ledger`tally
    ensures Mirrors(ledger, Next(st, step), st.threads[step.t].shard)
  {
    var batch := st.threads[step.t].batch;
    assert batch[0..] == batch;
    ledger.DropRest(batch, 0);
  }

  /** What a worker does for one job. */
  function TurnSteps(t: nat, o: Outcome): seq<Step> {
    [Step(t, StartJob), Step(t, FinishJob(o)), Step(t, Settle)]
  }

  function JobSteps(t: nat, batch: seq<Job>, k: nat, outcome: Job -> Outcome): seq<Step>
    requires k <= |batch|
  {
    if k == 0 then [] else JobSteps(t, batch, k - 1, outcome) + TurnSteps(t, outcome(batch[k - 1]))
  }

  /** Worker `t` has run `k` jobs of its batch since state `st`. */
  ghost predicate RanJobs(st: State, st': State, t: nat, s: nat, batch: seq<Job>, k: nat, outcome: Job -> Outcome,
                          more: bool)
    requires Shape(st) && Shape(st') && s < st.cfg.shards && k <= |batch|
  {
    && st'.cfg == st.cfg && |st'.threads| == |st.threads| && st'.cancelled == st.cancelled
    && t < |st'.threads| && st'.threads[t] == Running(s, batch[k..], more)
    && st'.inflight == st.inflight - k && st'.shardInflight[s] == st.shardInflight[s] - k
    && st'.laneInflight == SubLanes(st.laneInflight, batch[..k])
    && TallyOf(st') == Tallied(TallyOf(st), batch[..k], outcome)
  }

  lemma OneLane(v: seq<int>, j: Job)
    requires j.lane < |v|
    ensures AddLanes(v, [j]) == Bump(v, j.lane)
    ensures SubLanes(v, [j]) == v[j.lane := v[j.lane] - 1]
  {
    assert [] + [j] == [j];
    assert AddLanes(v, []) == v && SubLanes(v, []) == v;
    AddOne(v, [], j);
  }

  predicate SameBooks(st: State, st': State) {
    && st'.cancelled == st.cancelled && st'.inflight == st.inflight
    && st'.shardInflight == st.shardInflight && st'.laneInflight == st.laneInflight
  }

  predicate Started(st: State, st': State, t: nat)
    requires t < |st.threads| == |st'.threads| && st.threads[t].Running?
  {
    var pc := st.threads[t];
    st'.threads[t] == Executing(pc.shard, pc.batch, pc.more) && SameBooks(st, st') && TallyOf(st') == TallyOf(st)
  }

  predicate Finished(st: State, st': State, t: nat, o: Outcome)
    requires t < |st.threads| == |st'.threads| && st.threads[t].Executing? && st.threads[t].batch != []
    requires TallyFits(TallyOf(st), st.cfg.lanes) && st.threads[t].batch[0].lane < st.cfg.lanes
  {
    var pc := st.threads[t];
    && st'.threads[t] == Finishing(pc.shard, pc.batch, pc.more) && SameBooks(st, st')
    && TallyOf(st') == CountOutcome(TallyOf(st), pc.batch[0].lane, o)
  }

  /** One job less in flight, and nothing else. */
  predicate TakenBack(st: State, st': State, s: nat, l: nat)
    requires s < |st.shardInflight| == |st'.shardInflight| && l < |st.laneInflight|
  {
    && st'.cancelled == st.cancelled && st'.inflight == st.inflight - 1
    && st'.shardInflight[s] == st.shardInflight[s] - 1
    && st'.laneInflight == st.laneInflight[l := st.laneInflight[l] - 1]
  }

  lemma StartTurn(st: State, t: nat)
    requires Shape(st) && t < |st.threads| && st.threads[t].Running? && st.threads[t].batch != [] && !st.cancelled
    requires st.threads[t].shard < st.cfg.shards
    ensures Enabled(st, Step(t, StartJob))
    ensures Started(st, Next(st, Step(t, StartJob)), t)
  {
  }

  lemma FinishTurn(st: State, t: nat, o: Outcome)
    requires Shape(st) && t < |st.threads| && st.threads[t].Executing? && PcShape(st.cfg, st.threads[t])
    requires st.threads[t].batch[0].lane < st.cfg.lanes
    ensures Enabled(st, Step(t, FinishJob(o)))
    ensures Finished(st, Next(st, Step(t, FinishJob(o))), t, o)
  {
    var j := st.threads[t].batch[0];
    OneLane(st.c.completed, j);
    OneLane(st.c.failed, j);
    OneLane(st.c.canceled, j);
  }

  lemma SettleTurn(st: State, t: nat)
    requires Shape(st) && t < |st.threads| && st.threads[t].Finishing? && PcShape(st.cfg, st.threads[t])
    requires st.threads[t].batch[0].lane < st.cfg.lanes
    ensures Enabled(st, Step(t, Settle))
    ensures var st', pc := Next(st, Step(t, Settle)), st.threads[t];
      && st'.threads[t] == Running(pc.shard, pc.batch[1..], pc.more)
      && TakenBack(st, st', pc.shard, pc.batch[0].lane) && TallyOf(st') == TallyOf(st)
  {
    OneLane(st.laneInflight, st.threads[t].batch[0]);
  }

  lemma RunThree(st: State, a: Step, b: Step, c: Step)
    requires Shape(st) && Enabled(st, a) && Enabled(Next(st, a), b) && Enabled(Next(Next(st, a), b), c)
    ensures Legal(st, [a, b, c]) && Run(st, [a, b, c]) == Next(Next(Next(st, a), b), c)
  {
    var s2 := Next(Next(st, a), b);
    RunCons(s2, c, []);
    RunCons(Next(st, a), b, [c]);
    RunCons(st, a, [b, c]);
    assert [a] + [b, c] == [a, b, c] && [b] + [c] == [b, c] && [c] + [] == [c];
  }

  lemma BackAfterAll(st: State, s1: State, s2: State, st': State, s: nat, l: nat)
    requires s < |st.shardInflight| == |st'.shardInflight| && l < |st.laneInflight|
    requires SameBooks(st, s1) && SameBooks(s1, s2) && TakenBack(s2, st', s, l)
    ensures TakenBack(st, st', s, l)
  {
  }

  /** One job, as three steps of the protocol. */
  lemma JobTurn(st: State, t: nat, o: Outcome)
    requires Shape(st) && t < |st.threads| && st.threads[t].Running? && st.threads[t].batch != [] && !st.cancelled
    requires st.threads[t].shard < st.cfg.shards && st.threads[t].batch[0].lane < st.cfg.lanes
    ensures Legal(st, TurnSteps(t, o))
    ensures var st', pc := Run(st, TurnSteps(t, o)), st.threads[t];
      && st'.threads[t] == Running(pc.shard, pc.batch[1..], pc.more)
      && TakenBack(st, st', pc.shard, pc.batch[0].lane)
      && TallyOf(st') == CountOutcome(TallyOf(st), pc.batch[0].lane, o)
  {
    StartTurn(st, t);
    var s1 := Next(st, Step(t, StartJob));
    FinishTurn(s1, t, o);
    var s2 := Next(s1, Step(t, FinishJob(o)));
    SettleTurn(s2, t);
    BackAfterAll(st, s1, s2, Next(s2, Step(t, Settle)), st.threads[t].shard, st.threads[t].batch[0].lane);
    RunThree(st, Step(t, StartJob), Step(t, FinishJob(o)), Step(t, Settle));
  }

  /** The first `k` jobs of a batch, as a run of the protocol. */
  lemma {:induction false} JobsRun(st: State, t: nat, batch: seq<Job>, k: nat, outcome: Job -> Outcome)
    requires Shape(st) && t < |st.threads| && st.threads[t].Running? && st.threads[t].batch == batch && !st.cancelled
    requires st.threads[t].shard < st.cfg.shards && InLanes(batch, st.cfg.lanes) && k <= |batch|
    ensures Legal(st, JobSteps(t, batch, k, outcome))
    ensures RanJobs(st, Run(st, JobSteps(t, batch, k, outcome)), t, st.threads[t].shard, batch, k, outcome,
                    st.threads[t].more)
  {
    if k == 0 {
      NoJobs(st, batch, outcome);
    } else {
      JobsRun(st, t, batch, k - 1, outcome);
      var before := JobSteps(t, batch, k - 1, outcome);
      OneJobMore(st, Run(st, before), t, st.threads[t].shard, batch, k - 1, outcome, st.threads[t].more);
      RunConcat(st, before, TurnSteps(t, outcome(batch[k - 1])));
    }
  }

  lemma OneJobMore(st: State, mid: State, t: nat, s: nat, batch: seq<Job>, k: nat, outcome: Job -> Outcome, more: bool)
    requires Shape(st) && Shape(mid) && s < st.cfg.shards && k < |batch| && InLanes(batch, st.cfg.lanes)
    requires RanJobs(st, mid, t, s, batch, k, outcome, more) && !st.cancelled
    ensures Legal(mid, TurnSteps(t, outcome(batch[k])))
    ensures RanJobs(st, Run(mid, TurnSteps(t, outcome(batch[k]))), t, s, batch, k + 1, outcome, more)
  {
    RestOf(batch, k);
    JobTurn(mid, t, outcome(batch[k]));
    TurnCounts(st, mid, Run(mid, TurnSteps(t, outcome(batch[k]))), t, s, batch, k, outcome, more);
  }

  lemma RestOf(batch: seq<Job>, k: nat)
    requires k < |batch|
    ensures batch[k..][1..] == batch[k + 1..] && batch[k..][0] == batch[k]
  {
  }

  lemma TurnCounts(st: State, mid: State, st': State, t: nat, s: nat, batch: seq<Job>, k: nat,
                   outcome: Job -> Outcome, more: bool)
    requires Shape(st) && Shape(mid) && Shape(st') && s < st.cfg.shards && k < |batch| && InLanes(batch, st.cfg.lanes)
    requires st'.cfg == mid.cfg && |st'.threads| == |mid.threads|
    requires RanJobs(st, mid, t, s, batch, k, outcome, more) && TakenBack(mid, st', s, batch[k].lane)
    requires st'.threads[t] == Running(s, batch[k + 1..], more)
    requires TallyOf(st') == CountOutcome(TallyOf(mid), batch[k].lane, outcome(batch[k]))
    ensures RanJobs(st, st', t, s, batch, k + 1, outcome, more)
  {
    OneTurn(st.laneInflight, TallyOf(st), batch, k, outcome);
  }

  lemma NoJobs(st: State, batch: seq<Job>, outcome: Job -> Outcome)
    ensures batch[0..] == batch && batch[..0] == []
    ensures SubLanes(st.laneInflight, batch[..0]) == st.laneInflight
    ensures Tallied(TallyOf(st), batch[..0], outcome) == TallyOf(st)
  {
    forall v: seq<int> ensures AddLanes(v, []) == v {
    }
  }

  /** Running a batch up to a cancellation is a run of the protocol's steps for those jobs. */
  method RunMirrors(ledger: Ledger, st: State, t: nat, cancelAt: nat, outcome: Job -> Outcome) returns (k: nat)
    requires Shape(st) && t < |st.threads| && st.threads[t].Running? && st.threads[t].shard < st.cfg.shards
    requires !st.cancelled && InLanes(st.threads[t].batch, st.cfg.lanes)
    requires Mirrors(ledger, st, st.threads[t].shard)
    modifies ledger
    ensures k == Min(cancelAt, |st.threads[t].batch|)
    ensures Legal(st, JobSteps(t, st.threads[t].batch, k, outcome))
    ensures var end := Run(st, JobSteps(t, st.threads[t].batch, k, outcome));
      && Mirrors(ledger, end, st.threads[t].shard)
      && end.threads[t] == Running(st.threads[t].shard, st.threads[t].batch[k..], st.threads[t].more)
  {
    var batch := st.threads[t].batch;
    k := ledger.RunUntil(batch, cancelAt, outcome);
    JobsRun(st, t, batch, k, outcome);
  }
}
