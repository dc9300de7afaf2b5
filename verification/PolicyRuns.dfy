/** The scheduler and the quota updaters side by side: every pass loads the snapshot that is active when
    it starts, so the fairness bounds rest on what updaters can publish. */
module PolicyRuns {
  import opened Basics
  import P = Protocol
  import F = Fairness
  import Q = Quotas

  datatype State = State(sched: P.State, policy: Q.State)

  datatype Step = Work(step: P.Step) | Update(change: Q.Step)

  /** The two halves have the same lanes, and every quota published so far is positive. */
  predicate Sound(names: seq<string>, s: State) {
    && P.Shape(s.sched) && Q.Shape(names, s.policy) && Q.Positive(names, s.policy)
    && |names| == s.sched.cfg.lanes
  }

  /** A pass takes its quotas from the active snapshot; nothing is asked of them here. */
  predicate Enabled(names: seq<string>, s: State, step: Step)
    requires Sound(names, s)
  {
    match step
    case Update(u) => Q.Enabled(names, s.policy, u)
    case Work(w) =>
      if w.op.Pop? then
        && w.t < |s.sched.threads| && s.sched.threads[w.t].Received?
        && s.sched.threads[w.t].shard < s.sched.cfg.shards
        && !s.sched.shards[s.sched.threads[w.t].shard].locked
        && w.op.quotas == Q.Active(s.policy).quotas
      else P.Enabled(s.sched, w)
  }

  /** What the scheduler alone needs of a pass follows. */
  lemma PassIsFed(names: seq<string>, s: State, w: P.Step)
    requires Sound(names, s) && Enabled(names, s, Work(w))
    ensures P.Enabled(s.sched, w)
  {
    if w.op.Pop? {
      assert |s.policy.log| > 1 ==> Q.AllSized(s.policy.log[|s.policy.log| - 1].snap.quotas);
      assert P.PcShape(s.sched.cfg, s.sched.threads[w.t]);
    }
  }

  function Next(names: seq<string>, s: State, step: Step): (r: State)
    requires Sound(names, s) && Enabled(names, s, step)
    ensures Sound(names, r) && r.sched.cfg == s.sched.cfg
  {
    match step
    case Update(u) =>
      Q.TightStep(names, s.policy, u);
      s.(policy := Q.Next(names, s.policy, u))
    case Work(w) =>
      PassIsFed(names, s, w);
      s.(sched := P.Next(s.sched, w))
  }

  predicate Legal(names: seq<string>, s: State, steps: seq<Step>)
    requires Sound(names, s)
    decreases |steps|
  {
    steps == [] || (Enabled(names, s, steps[0]) && Legal(names, Next(names, s, steps[0]), steps[1..]))
  }

  function Run(names: seq<string>, s: State, steps: seq<Step>): (r: State)
    requires Sound(names, s) && Legal(names, s, steps)
    ensures Sound(names, r) && r.sched.cfg == s.sched.cfg
    decreases |steps|
  {
    if steps == [] then s else Run(names, Next(names, s, steps[0]), steps[1..])
  }

  /** What the scheduler does in a joint run. */
  function WorkOf(steps: seq<Step>): seq<P.Step> {
    if steps == [] then []
    else (if steps[0].Work? then [steps[0].step] else []) + WorkOf(steps[1..])
  }

  /** The scheduler's half of a joint run is a run of the scheduler. */
  lemma {:induction false} WorkIsLegal(names: seq<string>, s: State, steps: seq<Step>)
    requires Sound(names, s) && Legal(names, s, steps)
    ensures P.Legal(s.sched, WorkOf(steps))
    ensures P.Run(s.sched, WorkOf(steps)) == Run(names, s, steps).sched
    decreases |steps|
  {
    if steps != [] {
      var s', rest := Next(names, s, steps[0]), WorkOf(steps[1..]);
      WorkIsLegal(names, s', steps[1..]);
      if steps[0].Work? {
        WorkFirst(names, s, steps[0].step, rest);
        assert WorkOf(steps) == [steps[0].step] + rest;
      } else {
        assert WorkOf(steps) == [] + rest == rest && s'.sched == s.sched;
      }
    }
  }

  lemma WorkFirst(names: seq<string>, s: State, w: P.Step, rest: seq<P.Step>)
    requires Sound(names, s) && Enabled(names, s, Work(w)) && P.Legal(Next(names, s, Work(w)).sched, rest)
    ensures P.Legal(s.sched, [w] + rest)
    ensures P.Run(s.sched, [w] + rest) == P.Run(Next(names, s, Work(w)).sched, rest)
  {
    PassIsFed(names, s, w);
    P.RunCons(s.sched, w, rest);
  }

  /**
   * With whatever policies updaters publish meanwhile, starting from positive quotas at construction:
   * the job at position `p` of a lane is gone after `p + 1` passes over its shard.
   */
  lemma PublishedPoliciesServe(names: seq<string>, s: State, steps: seq<Step>, shard: nat, lane: nat, p: nat)
    requires Sound(names, s) && Legal(names, s, steps)
    requires shard < s.sched.cfg.shards && lane < s.sched.cfg.lanes && p < |s.sched.shards[shard].lanes[lane]|
    ensures P.Legal(s.sched, WorkOf(steps))
    ensures F.Passes(s.sched, WorkOf(steps), shard) >= p + 1 ==>
      var out := F.Served(s.sched, WorkOf(steps), shard, lane);
      p < |out| && out[p] == s.sched.shards[shard].lanes[lane][p]
  {
    WorkIsLegal(names, s, steps);
    if F.Passes(s.sched, WorkOf(steps), shard) >= p + 1 {
      F.LeavesWithinPositionPlusOne(s.sched, WorkOf(steps), shard, lane, p);
    }
  }

  /** A new scheduler whose lanes were configured with positive quotas starts out sound. */
  lemma StartsSound(names: seq<string>, s: State)
    requires P.Init(s.sched) && Q.Initial(names, s.policy) && |names| == s.sched.cfg.lanes
    requires Q.AllPositive(Q.Active(s.policy).quotas)
    ensures Sound(names, s)
  {
  }
}
