/** Wakeup tokens: every ready shard has exactly one token somewhere, unless one
    was given up, in which case it has none ever again. */
module Tokens {
  import opened Basics
  import opened Jobs
  import opened Protocol

  /** Tokens of shard `s` that somebody will still act on. */
  function Live(st: State, s: nat): nat {
    multiset(st.ch)[s] + Total(Token(s), st.threads)
  }

  predicate TokenLaw(st: State, s: nat)
    requires Shape(st) && s < st.cfg.shards
  {
    && Live(st, s) + st.lost[s] == One(st.shards[s].ready)
    && (HasWork(st.shards[s].lanes) ==> st.shards[s].ready)
  }

  predicate TokenInv(st: State)
    requires Shape(st)
  {
    forall s :: 0 <= s < st.cfg.shards ==> TokenLaw(st, s)
  }

  lemma TokenInit(st: State)
    requires Init(st)
    ensures TokenInv(st)
  {
    forall s | 0 <= s < st.cfg.shards ensures TokenLaw(st, s) {
      TotalZero(Token(s), st.threads);
    }
  }

  lemma TokenPush(st: State, step: Step, s: nat)
    requires Shape(st) && Enabled(st, step) && s < st.cfg.shards && TokenLaw(st, s)
    requires step.op.Push?
    ensures TokenLaw(Next(st, step), s)
  {
    StepTotal(Token(s), st, step);
  }

  lemma TokenPop(st: State, step: Step, s: nat)
    requires Shape(st) && Enabled(st, step) && s < st.cfg.shards && TokenLaw(st, s)
    requires step.op.Pop?
    ensures TokenLaw(Next(st, step), s)
  {
    StepTotal(Token(s), st, step);
  }

  lemma TokenReceive(st: State, step: Step, s: nat)
    requires Shape(st) && Enabled(st, step) && s < st.cfg.shards && TokenLaw(st, s)
    requires step.op.Receive?
    ensures TokenLaw(Next(st, step), s)
  {
    StepTotal(Token(s), st, step);
    assert st.ch == [st.ch[0]] + st.ch[1..];
  }

  lemma TokenSend(st: State, step: Step, s: nat)
    requires Shape(st) && Enabled(st, step) && s < st.cfg.shards && TokenLaw(st, s)
    requires step.op.Send? || step.op.Requeue? || step.op.AbandonSend? || step.op.AbandonRequeue?
    ensures TokenLaw(Next(st, step), s)
  {
    StepTotal(Token(s), st, step);
    FrameShards(st, step, s);
  }

  lemma TokenHand(st: State, step: Step, s: nat)
    requires Shape(st) && Enabled(st, step) && s < st.cfg.shards && TokenLaw(st, s)
    requires step.op.RecordAccepted? || step.op.EndBatch?
    ensures TokenLaw(Next(st, step), s)
  {
    StepTotal(Token(s), st, step);
    FrameShards(st, step, s);
    assert Next(st, step).ch == st.ch && Next(st, step).lost == st.lost;
  }

  lemma TokenOther(st: State, step: Step, s: nat)
    requires Shape(st) && Enabled(st, step) && s < st.cfg.shards && TokenLaw(st, s)
    requires !step.op.Push? && !step.op.Pop? && !MovesToken(step.op)
    ensures TokenLaw(Next(st, step), s)
  {
    StepTotal(Token(s), st, step);
    FrameShards(st, step, s);
    FrameChannel(st, step);
    FrameHeld(st, step, s);
  }

  /** Every step of every thread conserves tokens. */
  lemma TokenStep(st: State, step: Step)
    requires Shape(st) && Enabled(st, step) && TokenInv(st)
    ensures TokenInv(Next(st, step))
  {
    forall s | 0 <= s < st.cfg.shards ensures TokenLaw(Next(st, step), s) {
      assert TokenLaw(st, s);
      if step.op.Push? {
        TokenPush(st, step, s);
      } else if step.op.Pop? {
        TokenPop(st, step, s);
      } else if step.op.Receive? {
        TokenReceive(st, step, s);
      } else if step.op.RecordAccepted? || step.op.EndBatch? {
        TokenHand(st, step, s);
      } else if MovesToken(step.op) {
        TokenSend(st, step, s);
      } else {
        TokenOther(st, step, s);
      }
    }
  }

  lemma {:induction false} TokenRun(st: State, steps: seq<Step>)
    requires Shape(st) && Legal(st, steps) && TokenInv(st)
    ensures TokenInv(Run(st, steps))
    decreases |steps|
  {
    if steps != [] {
      TokenStep(st, steps[0]);
      TokenRun(Next(st, steps[0]), steps[1..]);
    }
  }

  /** Token conservation and no lost wakeup, over every run: a shard never has two
      tokens and has none while it is not ready; a shard with queued work has a live
      token exactly when none of its tokens was given up. */
  lemma NoLostWakeup(st: State, steps: seq<Step>, s: nat)
    requires Init(st) && Legal(st, steps) && s < st.cfg.shards
    ensures var e := Run(st, steps);
            && Live(e, s) <= 1
            && e.lost[s] <= 1
            && (!e.shards[s].ready ==> Live(e, s) == 0)
            && (e.shards[s].ready ==> Live(e, s) == 1 - e.lost[s])
            && (HasWork(e.shards[s].lanes) ==> (Live(e, s) == 1 <==> e.lost[s] == 0))
  {
    TokenInit(st);
    TokenRun(st, steps);
    assert TokenLaw(Run(st, steps), s);
  }

  // ---- Giving a token up ------------------------------------------------------------------

  predicate GivesUp(op: Op) {
    op.AbandonSend? || op.AbandonRequeue?
  }

  /** Only the two context-cancelled branches ever give a token up. */
  lemma OnlyCancelledSendsLose(st: State, step: Step, s: nat)
    requires Shape(st) && Enabled(st, step) && TokenInv(st) && s < st.cfg.shards
    requires !GivesUp(step.op)
    ensures Next(st, step).lost[s] == st.lost[s]
  {
    if step.op.Send? {
      RoomForHolder(st, step.t);
    }
  }

  lemma {:induction false} LossFree(st: State, steps: seq<Step>, s: nat)
    requires Shape(st) && Legal(st, steps) && TokenInv(st) && s < st.cfg.shards
    requires forall i :: 0 <= i < |steps| ==> !GivesUp(steps[i].op)
    ensures Run(st, steps).lost[s] == st.lost[s]
    decreases |steps|
  {
    if steps != [] {
      TokenStep(st, steps[0]);
      OnlyCancelledSendsLose(st, steps[0], s);
      LossFree(Next(st, steps[0]), steps[1..], s);
    }
  }

  /** Without an abandoned send, every shard with work has exactly one live token. */
  lemma WakeupsSurvive(st: State, steps: seq<Step>, s: nat)
    requires Init(st) && Legal(st, steps) && s < st.cfg.shards
    requires forall i :: 0 <= i < |steps| ==> !GivesUp(steps[i].op)
    requires HasWork(Run(st, steps).shards[s].lanes)
    ensures Live(Run(st, steps), s) == 1
  {
    TokenInit(st);
    NoLostWakeup(st, steps, s);
    LossFree(st, steps, s);
  }

  predicate IsPrefix(a: seq<Job>, b: seq<Job>) {
    a <= b
  }

  lemma StarvedStep(st: State, step: Step, s: nat, l: nat)
    requires Shape(st) && Enabled(st, step) && TokenInv(st)
    requires s < st.cfg.shards && st.lost[s] > 0 && l < st.cfg.lanes
    ensures IsPrefix(st.shards[s].lanes[l], Next(st, step).shards[s].lanes[l])
  {
    assert TokenLaw(st, s);
    StepTotal(Token(s), st, step);
    if !step.op.Push? && !step.op.Pop? {
      FrameShards(st, step, s);
    }
  }

  lemma LossForever(st: State, step: Step, s: nat)
    requires Shape(st) && Enabled(st, step) && s < st.cfg.shards
    ensures Next(st, step).lost[s] >= st.lost[s]
  {
    if !MovesToken(step.op) {
      FrameChannel(st, step);
    }
  }

  /** The converse: once a token of a shard was given up, no later step of any thread
      takes a job out of it. */
  lemma {:induction false} AbandonedShardStarves(st: State, steps: seq<Step>, s: nat, l: nat)
    requires Shape(st) && Legal(st, steps) && TokenInv(st)
    requires s < st.cfg.shards && st.lost[s] > 0 && l < st.cfg.lanes
    ensures IsPrefix(st.shards[s].lanes[l], Run(st, steps).shards[s].lanes[l])
    ensures Live(Run(st, steps), s) == 0
    decreases |steps|
  {
    assert TokenLaw(st, s);
    if steps != [] {
      TokenStep(st, steps[0]);
      StarvedStep(st, steps[0], s, l);
      LossForever(st, steps[0], s);
      AbandonedShardStarves(Next(st, steps[0]), steps[1..], s, l);
    }
  }

  lemma RunFour(st: State, a: Step, b: Step, c: Step, d: Step)
    requires Shape(st) && Enabled(st, a) && Enabled(Next(st, a), b) && Enabled(Next(Next(st, a), b), c)
    requires Enabled(Next(Next(Next(st, a), b), c), d)
    ensures Legal(st, [a, b, c, d]) && Run(st, [a, b, c, d]) == Next(Next(Next(Next(st, a), b), c), d)
  {
    var s1 := Next(st, a);
    var s2 := Next(s1, b);
    var s3 := Next(s2, c);
    RunCons(s3, d, []);
    RunCons(s2, c, [d]);
    RunCons(s1, b, [c, d]);
    RunCons(st, a, [b, c, d]);
    InARow(a, b, c, d);
  }

  lemma InARow(a: Step, b: Step, c: Step, d: Step)
    ensures [a] + [b, c, d] == [a, b, c, d] && [b] + [c, d] == [b, c, d] && [c] + [d] == [c, d] && [d] + [] == [d]
  {
  }

  lemma FirstPush(st: State, job: Job)
    requires Init(st) && |st.threads| >= 1 && st.cfg.lanes >= 1 && st.cfg.capacity >= 1
    requires job.lane == 0 && job.id == 0
    ensures Enabled(st, Step(0, Begin(Submit, 0)))
    ensures var s1 := Next(st, Step(0, Begin(Submit, 0)));
            var s := RouteShard(job.keyHash, st.cfg.shards);
            && Enabled(s1, Step(0, Push(job)))
            && Next(s1, Step(0, Push(job))).threads[0] == Accepted(Submit, s, 0, true)
            && Next(s1, Step(0, Push(job))).lost[s] == 0
            && Next(s1, Step(0, Push(job))).shards[s].lanes[0] == [job]
  {
    var s := RouteShard(job.keyHash, st.cfg.shards);
    var s1 := Next(st, Step(0, Begin(Submit, 0)));
    assert !HasWork(st.shards[s].lanes);
    assert st.shards[s].lanes[0] == [];
    assert s1.shards[s] == st.shards[s];
  }

  /** The accepted job is counted, and then its token given up. */
  lemma ThenAbandon(s2: State, s: nat, job: Job)
    requires Shape(s2) && s < s2.cfg.shards && |s2.threads| >= 1 && s2.threads[0] == Accepted(Submit, s, 0, true)
    requires |s2.shards[s].lanes| > 0 && s2.shards[s].lanes[0] == [job] && s2.lost[s] == 0
    ensures Enabled(s2, Step(0, RecordAccepted)) && Enabled(Next(s2, Step(0, RecordAccepted)), Step(0, AbandonSend))
    ensures var s4 := Next(Next(s2, Step(0, RecordAccepted)), Step(0, AbandonSend));
            s4.shards[s].lanes == s2.shards[s].lanes && s4.lost[s] == 1
  {
    assert PcShape(s2.cfg, s2.threads[0]);
    var s3 := Next(s2, Step(0, RecordAccepted));
    FrameShards(s2, Step(0, RecordAccepted), s);
    assert s3.lost == s2.lost;
    FrameShards(s3, Step(0, AbandonSend), s);
  }

  /** The starving run exists: one Submit whose context is done by the time it sends. */
  lemma AbandonReachable(st: State, job: Job)
    requires Init(st) && |st.threads| >= 1 && st.cfg.lanes >= 1 && st.cfg.capacity >= 1
    requires job.lane == 0 && job.id == 0
    ensures var s := RouteShard(job.keyHash, st.cfg.shards);
            var steps := [Step(0, Begin(Submit, 0)), Step(0, Push(job)), Step(0, RecordAccepted), Step(0, AbandonSend)];
            && Legal(st, steps)
            && HasWork(Run(st, steps).shards[s].lanes) && Live(Run(st, steps), s) == 0
  {
    var s := RouteShard(job.keyHash, st.cfg.shards);
    var a, b, c, d := Step(0, Begin(Submit, 0)), Step(0, Push(job)), Step(0, RecordAccepted), Step(0, AbandonSend);
    FirstPush(st, job);
    var s2 := Next(Next(st, a), b);
    ThenAbandon(s2, s, job);
    RunFour(st, a, b, c, d);
    assert Run(st, [a, b, c, d]).shards[s].lanes[0] == [job];
    NoLostWakeup(st, [a, b, c, d], s);
  }

  // ---- Tokens are taken in the order they were sent -------------------------------------------

  function SentBy(st: State, step: Step): seq<nat>
    requires Shape(st) && Enabled(st, step)
  {
    if step.op.Send? || step.op.Requeue? then [st.threads[step.t].shard] else []
  }

  function GotBy(st: State, step: Step): seq<nat>
    requires Shape(st) && Enabled(st, step)
  {
    if step.op.Receive? then [Next(st, step).threads[step.t].shard] else []
  }

  function Sent(st: State, steps: seq<Step>): seq<nat>
    requires Shape(st) && Legal(st, steps)
    decreases |steps|
  {
    if steps == [] then [] else SentBy(st, steps[0]) + Sent(Next(st, steps[0]), steps[1..])
  }

  function Got(st: State, steps: seq<Step>): seq<nat>
    requires Shape(st) && Legal(st, steps)
    decreases |steps|
  {
    if steps == [] then [] else GotBy(st, steps[0]) + Got(Next(st, steps[0]), steps[1..])
  }

  lemma ChannelStep(st: State, step: Step)
    requires Shape(st) && Enabled(st, step) && TokenInv(st)
    ensures st.ch + SentBy(st, step) == GotBy(st, step) + Next(st, step).ch
  {
    if step.op.Send? || step.op.Requeue? {
      RoomForHolder(st, step.t);
    } else if step.op.Receive? {
      assert st.ch == [st.ch[0]] + st.ch[1..];
    } else if MovesToken(step.op) {
      assert Next(st, step).ch == st.ch;
    } else {
      ChannelOther(st, step);
    }
  }

  lemma ChannelOther(st: State, step: Step)
    requires Shape(st) && Enabled(st, step) && !MovesToken(step.op)
    ensures Next(st, step).ch == st.ch
  {
    FrameChannel(st, step);
  }

  lemma Regroup(ch: seq<nat>, sent: seq<nat>, got: seq<nat>, ch': seq<nat>, later: seq<nat>, gotLater: seq<nat>,
                end: seq<nat>)
    requires ch + sent == got + ch' && ch' + later == gotLater + end
    ensures ch + (sent + later) == (got + gotLater) + end
  {
    assert ch + (sent + later) == (ch + sent) + later == got + (ch' + later);
  }

  /** Over any run, shards are served in the order in which their tokens were sent, none overtaken. */
  lemma {:induction false} ChannelIsFifo(st: State, steps: seq<Step>)
    requires Shape(st) && Legal(st, steps) && TokenInv(st)
    ensures st.ch + Sent(st, steps) == Got(st, steps) + Run(st, steps).ch
    decreases |steps|
  {
    if steps != [] {
      var st' := Next(st, steps[0]);
      ChannelStep(st, steps[0]);
      TokenStep(st, steps[0]);
      ChannelIsFifo(st', steps[1..]);
      Regroup(st.ch, SentBy(st, steps[0]), GotBy(st, steps[0]), st'.ch, Sent(st', steps[1..]), Got(st', steps[1..]),
              Run(st, steps).ch);
    }
  }

  // ---- The channel is never full for whoever holds a token ----------------------------------

  lemma {:induction false} Pigeonhole(xs: seq<nat>, n: nat)
    requires forall i :: 0 <= i < |xs| ==> xs[i] < n
    requires forall x :: multiset(xs)[x] <= 1
    ensures |xs| <= n
    decreases n
  {
    if n == 0 {
      assert xs == [];
    } else if n - 1 in xs {
      var i :| 0 <= i < |xs| && xs[i] == n - 1;
      WithoutOne(xs, i, n - 1);
      Pigeonhole(xs[..i] + xs[i + 1..], n - 1);
    } else {
      Pigeonhole(xs, n - 1);
    }
  }

  lemma WithoutOne(xs: seq<nat>, i: nat, n: nat)
    requires i < |xs| && xs[i] == n && forall k :: 0 <= k < |xs| ==> xs[k] <= n
    requires forall x :: multiset(xs)[x] <= 1
    ensures var ys := xs[..i] + xs[i + 1..];
            && (forall k :: 0 <= k < |ys| ==> ys[k] < n)
            && (forall x :: multiset(ys)[x] <= 1)
  {
    var ys := xs[..i] + xs[i + 1..];
    assert xs == xs[..i] + [n] + xs[i + 1..];
    assert multiset(xs) == multiset(ys) + multiset{n};
    forall x ensures multiset(ys)[x] <= 1 {
      assert multiset(ys)[x] <= multiset(xs)[x];
    }
    assert multiset(xs)[n] == multiset(ys)[n] + 1;
    forall k | 0 <= k < |ys| ensures ys[k] < n {
      assert ys[k] in multiset(ys);
    }
  }

  /** A thread that holds a token finds room in the channel, so no send waits and the
      `default` branches of the non-blocking sends are dead. */
  lemma RoomForHolder(st: State, t: nat)
    requires Shape(st) && TokenInv(st) && t < |st.threads|
    requires st.threads[t].Holding? || st.threads[t].Requeueing?
    ensures |st.ch| < st.cfg.shards
  {
    var s := st.threads[t].shard;
    assert TokenLaw(st, s);
    TotalUpdate(Token(s), st.threads, t, Idle);
    var xs := st.ch + [s];
    assert multiset(xs) == multiset(st.ch) + multiset{s};
    forall x ensures multiset(xs)[x] <= 1 {
      if x in st.ch {
        var i :| 0 <= i < |st.ch| && st.ch[i] == x;
        assert TokenLaw(st, x);
      }
    }
    Pigeonhole(xs, st.cfg.shards);
  }

  /** Over every run, including before `Start`: a sender's step delivers its token. */
  lemma SendsAlwaysDeliver(st: State, steps: seq<Step>, t: nat)
    requires Init(st) && Legal(st, steps) && t < |st.threads|
    requires var pc := Run(st, steps).threads[t]; pc.Holding? || pc.Requeueing?
    ensures var e := Run(st, steps);
            var step := Step(t, if e.threads[t].Holding? then Send else Requeue);
            && Enabled(e, step)
            && Next(e, step).ch == e.ch + [e.threads[t].shard]
            && Next(e, step).lost == e.lost
  {
    TokenInit(st);
    TokenRun(st, steps);
    RoomForHolder(Run(st, steps), t);
  }
}
