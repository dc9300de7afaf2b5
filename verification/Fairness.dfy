/** Fairness: each lane of each shard is a FIFO across the whole run, a pass takes
    exactly its quota from the front, and so a queued job is bypassed a bounded number
    of times whatever happens elsewhere. */
module Fairness {
  import opened Basics
  import opened Jobs
  import opened Protocol
  import opened Tokens

  predicate PassesOver(st: State, step: Step, s: nat)
    requires Shape(st) && Enabled(st, step)
  {
    step.op.Pop? && st.threads[step.t].shard == s
  }

  /** The jobs one step removes from a lane. */
  function TakenBy(st: State, step: Step, s: nat, l: nat): seq<Job>
    requires Shape(st) && Enabled(st, step) && s < st.cfg.shards && l < st.cfg.lanes
  {
    if PassesOver(st, step, s) then Taken(st.shards[s].lanes[l], step.op.quotas[l]) else []
  }

  /** The job one step adds to a lane, if it accepts one there. */
  function AddedBy(st: State, step: Step, s: nat, l: nat): seq<Job>
    requires Shape(st) && Enabled(st, step) && s < st.cfg.shards && l < st.cfg.lanes
  {
    if step.op.Push? && RouteShard(step.op.job.keyHash, st.cfg.shards) == s && step.op.job.lane == l
       && |st.shards[s].lanes[l]| < st.cfg.capacity
    then [step.op.job] else []
  }

  lemma FifoStep(st: State, step: Step, s: nat, l: nat)
    requires Shape(st) && Enabled(st, step) && s < st.cfg.shards && l < st.cfg.lanes
    ensures st.shards[s].lanes[l] + AddedBy(st, step, s, l)
         == TakenBy(st, step, s, l) + Next(st, step).shards[s].lanes[l]
  {
    var lane := st.shards[s].lanes[l];
    assert ShardShape(st.cfg, st.shards[s]);
    if step.op.Push? || step.op.Pop? {
    } else {
      FrameShards(st, step, s);
    }
  }

  function Served(st: State, steps: seq<Step>, s: nat, l: nat): seq<Job>
    requires Shape(st) && Legal(st, steps) && s < st.cfg.shards && l < st.cfg.lanes
    decreases |steps|
  {
    if steps == [] then []
    else TakenBy(st, steps[0], s, l) + Served(Next(st, steps[0]), steps[1..], s, l)
  }

  function Pushed(st: State, steps: seq<Step>, s: nat, l: nat): seq<Job>
    requires Shape(st) && Legal(st, steps) && s < st.cfg.shards && l < st.cfg.lanes
    decreases |steps|
  {
    if steps == [] then []
    else AddedBy(st, steps[0], s, l) + Pushed(Next(st, steps[0]), steps[1..], s, l)
  }

  function Passes(st: State, steps: seq<Step>, s: nat): nat
    requires Shape(st) && Legal(st, steps)
    decreases |steps|
  {
    if steps == [] then 0
    else One(PassesOver(st, steps[0], s)) + Passes(Next(st, steps[0]), steps[1..], s)
  }

  lemma Splice(lane: seq<Job>, add: seq<Job>, rest: seq<Job>, take: seq<Job>, lane': seq<Job>, later: seq<Job>,
               end: seq<Job>)
    requires lane + add == take + lane' && lane' + rest == later + end
    ensures lane + (add + rest) == (take + later) + end
  {
    assert lane + (add + rest) == (lane + add) + rest;
    assert (take + lane') + rest == take + (lane' + rest);
    assert take + (later + end) == (take + later) + end;
  }

  /** Over any run a lane is a FIFO: jobs leave in the order they were accepted, none is
      skipped, duplicated or dropped. */
  lemma {:induction false} LaneIsFifo(st: State, steps: seq<Step>, s: nat, l: nat)
    requires Shape(st) && Legal(st, steps) && s < st.cfg.shards && l < st.cfg.lanes
    ensures st.shards[s].lanes[l] + Pushed(st, steps, s, l)
         == Served(st, steps, s, l) + Run(st, steps).shards[s].lanes[l]
    decreases |steps|
  {
    if steps != [] {
      var st' := Next(st, steps[0]);
      FifoStep(st, steps[0], s, l);
      LaneIsFifo(st', steps[1..], s, l);
      Splice(st.shards[s].lanes[l], AddedBy(st, steps[0], s, l), Pushed(st', steps[1..], s, l),
             TakenBy(st, steps[0], s, l), st'.shards[s].lanes[l], Served(st', steps[1..], s, l),
             Run(st', steps[1..]).shards[s].lanes[l]);
    }
  }

  /** Every pass over `s` in the run has a quota of at least `q` for lane `l`. */
  predicate QuotaAtLeast(st: State, steps: seq<Step>, s: nat, l: nat, q: nat)
    requires Shape(st) && Legal(st, steps) && l < st.cfg.lanes
    decreases |steps|
  {
    steps == [] ||
    ((PassesOver(st, steps[0], s) ==> steps[0].op.quotas[l] >= q)
     && QuotaAtLeast(Next(st, steps[0]), steps[1..], s, l, q))
  }

  lemma FifoPrefix(lane: seq<Job>, add: seq<Job>, take: seq<Job>, lane': seq<Job>, p: nat)
    requires lane + add == take + lane' && p < |lane|
    ensures p < |take| ==> take[p] == lane[p]
    ensures p >= |take| ==> p - |take| < |lane'| && lane'[p - |take|] == lane[p]
  {
    assert (lane + add)[p] == lane[p];
    assert p < |take| ==> (take + lane')[p] == take[p];
    assert p >= |take| ==> (take + lane')[p] == lane'[p - |take|];
  }

  lemma PassTakesQuota(st: State, step: Step, s: nat, l: nat, p: nat)
    requires Shape(st) && Enabled(st, step) && s < st.cfg.shards && l < st.cfg.lanes && p < |st.shards[s].lanes[l]|
    ensures var take, lane' := TakenBy(st, step, s, l), Next(st, step).shards[s].lanes[l];
            && (p < |take| ==> take[p] == st.shards[s].lanes[l][p])
            && (p >= |take| ==> p - |take| < |lane'| && lane'[p - |take|] == st.shards[s].lanes[l][p])
    ensures PassesOver(st, step, s) && p >= |TakenBy(st, step, s, l)| ==> |TakenBy(st, step, s, l)| == step.op.quotas[l]
    ensures !PassesOver(st, step, s) ==> TakenBy(st, step, s, l) == []
  {
    FifoStep(st, step, s, l);
    FifoPrefix(st.shards[s].lanes[l], AddedBy(st, step, s, l), TakenBy(st, step, s, l),
               Next(st, step).shards[s].lanes[l], p);
  }

  function Offered(st: State, step: Step, s: nat, l: nat): nat
    requires Shape(st) && Enabled(st, step) && l < st.cfg.lanes
  {
    if PassesOver(st, step, s) then step.op.quotas[l] else 0
  }

  /** The service lane `l` of shard `s` is offered over a run: the quotas of its passes. */
  function Service(st: State, steps: seq<Step>, s: nat, l: nat): nat
    requires Shape(st) && Legal(st, steps) && l < st.cfg.lanes
    decreases |steps|
  {
    if steps == [] then 0
    else Offered(st, steps[0], s, l) + Service(Next(st, steps[0]), steps[1..], s, l)
  }

  /** A job leaves as soon as the service offered exceeds its position, and leaves in its turn. */
  lemma {:induction false} ServedInTurn(st: State, steps: seq<Step>, s: nat, l: nat, p: nat)
    requires Shape(st) && Legal(st, steps) && s < st.cfg.shards && l < st.cfg.lanes
    requires p < |st.shards[s].lanes[l]| && Service(st, steps, s, l) > p
    ensures p < |Served(st, steps, s, l)| && Served(st, steps, s, l)[p] == st.shards[s].lanes[l][p]
    decreases |steps|
  {
    if steps != [] {
      var st', take := Next(st, steps[0]), TakenBy(st, steps[0], s, l);
      PassTakesQuota(st, steps[0], s, l, p);
      assert Service(st, steps, s, l) == Offered(st, steps[0], s, l) + Service(st', steps[1..], s, l);
      var later := Served(st', steps[1..], s, l);
      assert Served(st, steps, s, l) == take + later;
      if |take| <= p {
        ServedInTurn(st', steps[1..], s, l, p - |take|);
        assert (take + later)[p] == later[p - |take|];
      }
    }
  }

  lemma {:induction false} ServiceGrows(st: State, steps: seq<Step>, s: nat, l: nat, q: nat)
    requires Shape(st) && Legal(st, steps) && l < st.cfg.lanes && QuotaAtLeast(st, steps, s, l, q)
    ensures Service(st, steps, s, l) >= Times(Passes(st, steps, s), q)
    decreases |steps|
  {
    if steps != [] {
      var st', offered := Next(st, steps[0]), Offered(st, steps[0], s, l);
      ServiceGrows(st', steps[1..], s, l, q);
      OnePass(st, steps, s, l, q);
      OnePassMore(Passes(st', steps[1..], s), q, Service(st', steps[1..], s, l), offered);
    }
  }

  /** The first step's part of the service and of the passes. */
  lemma OnePass(st: State, steps: seq<Step>, s: nat, l: nat, q: nat)
    requires Shape(st) && Legal(st, steps) && l < st.cfg.lanes && QuotaAtLeast(st, steps, s, l, q) && steps != []
    ensures var st', offered := Next(st, steps[0]), Offered(st, steps[0], s, l);
            && Service(st, steps, s, l) == offered + Service(st', steps[1..], s, l)
            && Passes(st, steps, s) == One(PassesOver(st, steps[0], s)) + Passes(st', steps[1..], s)
            && (PassesOver(st, steps[0], s) ==> offered >= q)
  {
  }

  lemma OnePassMore(k: nat, q: nat, rest: nat, quota: nat)
    requires rest >= Times(k, q)
    ensures quota + rest >= Times(k, q)
    ensures quota >= q ==> quota + rest >= Times(1 + k, q)
  {
  }

  /** Bounded bypass: with quotas of at least `q`, the job at position `p` of a lane is
      gone after `p / q + 1` passes over its shard, whatever other lanes and shards do
      and whatever policies are published meanwhile. */
  lemma BoundedBypass(st: State, steps: seq<Step>, s: nat, l: nat, p: nat, q: nat)
    requires Shape(st) && Legal(st, steps) && s < st.cfg.shards && l < st.cfg.lanes
    requires p < |st.shards[s].lanes[l]| && q >= 1
    requires QuotaAtLeast(st, steps, s, l, q)
    requires Passes(st, steps, s) >= p / q + 1
    ensures p < |Served(st, steps, s, l)| && Served(st, steps, s, l)[p] == st.shards[s].lanes[l][p]
  {
    ServiceGrows(st, steps, s, l, q);
    TimesIsProduct(Passes(st, steps, s), q);
    EnoughPasses(Passes(st, steps, s), p, q);
    ServedInTurn(st, steps, s, l, p);
  }

  lemma EnoughPasses(k: nat, p: nat, q: nat)
    requires q >= 1 && k >= p / q + 1
    ensures k * q > p
  {
    assert p == (p / q) * q + p % q;
    assert k * q >= (p / q + 1) * q;
    assert (p / q + 1) * q == (p / q) * q + q;
  }

  lemma {:induction false} QuotasArePositive(st: State, steps: seq<Step>, s: nat, l: nat)
    requires Shape(st) && Legal(st, steps) && l < st.cfg.lanes
    ensures QuotaAtLeast(st, steps, s, l, 1)
    decreases |steps|
  {
    if steps != [] {
      QuotasArePositive(Next(st, steps[0]), steps[1..], s, l);
    }
  }

  /** Position `p` takes at most `p + 1` passes: every pass of a run has positive quotas, which is what
      `PolicyRuns` derives for whatever policies get published. */
  lemma LeavesWithinPositionPlusOne(st: State, steps: seq<Step>, s: nat, l: nat, p: nat)
    requires Shape(st) && Legal(st, steps) && s < st.cfg.shards && l < st.cfg.lanes
    requires p < |st.shards[s].lanes[l]| && Passes(st, steps, s) >= p + 1
    ensures p < |Served(st, steps, s, l)| && Served(st, steps, s, l)[p] == st.shards[s].lanes[l][p]
  {
    QuotasArePositive(st, steps, s, l);
    BoundedBypass(st, steps, s, l, p, 1);
  }

  // ---- The next pass is always on its way -------------------------------------------------------

  /** What a token holder does next. */
  function NextOp(st: State, pc: Pc): Op {
    match pc
    case Accepted(_, _, _, _) => RecordAccepted
    case Holding(_, _) => Send
    case Received(_) => Pop(seq(st.cfg.lanes, i => 1))
    case Popped(_, _, _) => Account
    case Running(_, batch, _) => if batch == [] then EndBatch else if st.cancelled then CancelRest else StartJob
    case Executing(_, _, _) => FinishJob(Completed)
    case Finishing(_, _, _) => Settle
    case _ => Requeue
  }

  lemma {:induction false} SomeHolder(g: Gauge, ts: seq<Pc>) returns (t: nat)
    requires Total(g, ts) > 0
    ensures t < |ts| && Weigh(g, ts[t]) > 0
  {
    if Weigh(g, ts[0]) > 0 {
      t := 0;
    } else {
      var u := SomeHolder(g, ts[1..]);
      t := u + 1;
    }
  }

  lemma HolderCanMove(st: State, t: nat, s: nat)
    requires Shape(st) && TokenInv(st) && t < |st.threads| && HoldsToken(st.threads[t], s)
    requires !(st.threads[t].Received? && st.shards[s].locked)
    ensures Enabled(st, Step(t, NextOp(st, st.threads[t])))
  {
    var pc := st.threads[t];
    assert PcShape(st.cfg, pc);
    if pc.Holding? || pc.Requeueing? {
      RoomForHolder(st, t);
    }
  }

  /** A shard with work whose token was not given up either has its id waiting in the
      channel, or is held by a thread that can take its next step; the one exception is a
      worker waiting for the shard lock. */
  lemma WorkIsNeverStuck(st: State, steps: seq<Step>, s: nat)
    requires Init(st) && Legal(st, steps) && s < st.cfg.shards
    requires var e := Run(st, steps); HasWork(e.shards[s].lanes) && e.lost[s] == 0
    ensures var e := Run(st, steps);
            || s in e.ch
            || (exists t :: 0 <= t < |e.threads| && HoldsToken(e.threads[t], s)
                  && (Enabled(e, Step(t, NextOp(e, e.threads[t]))) || (e.threads[t].Received? && e.shards[s].locked)))
  {
    var e := Run(st, steps);
    TokenInit(st);
    TokenRun(st, steps);
    NoLostWakeup(st, steps, s);
    if s !in e.ch {
      var t := SomeHolder(Token(s), e.threads);
      if !(e.threads[t].Received? && e.shards[s].locked) {
        HolderCanMove(e, t, s);
      }
    }
  }
}
