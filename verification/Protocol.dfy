/** The scheduler as labelled steps over shared state.

    Each `Op` is one region that the program runs under a lock, or one atomic
    operation outside it; any thread may take any step its program counter
    allows, so a list of steps is an arbitrary interleaving of submitters,
    workers and a stopper.  What user code decides (job outcomes, cancelled
    contexts, published quotas, key hashes) is a parameter of the step. */
module Protocol {
  import opened Basics
  import opened Jobs

  datatype Life = New | Started | Stopping | Stopped

  /** Submit blocks on its send and may give up with its context; TrySubmit and
      the continuation path send without blocking. */
  datatype Kind = Submit | TrySubmit | Resume

  datatype Outcome = Completed | Failed | Canceled

  datatype Pc =
    | Idle
    | Admitting(kind: Kind, lane: nat)
    | Rejecting(lane: nat)
    | Accepted(kind: Kind, shard: nat, lane: nat, becameReady: bool)
    | Holding(kind: Kind, shard: nat)
    | Received(shard: nat)
    | Popped(shard: nat, batch: seq<Job>, more: bool)
    | Running(shard: nat, batch: seq<Job>, more: bool)
    | Executing(shard: nat, batch: seq<Job>, more: bool)
    | Finishing(shard: nat, batch: seq<Job>, more: bool)
    | Requeueing(shard: nat)
    | StopLoop
    | Scan(next: nat)
    | StopCancel

  datatype Shard = Shard(ready: bool, locked: bool, lanes: seq<seq<Job>>)

  datatype Config = Config(shards: nat, lanes: nat, capacity: nat)

  datatype Counters = Counters(
    submitted: seq<int>, accepted: seq<int>, rejected: seq<int>, pressureRejected: seq<int>,
    completed: seq<int>, failed: seq<int>, canceled: seq<int>)

  /** What happened so far: jobs pushed, and jobs by the way they ended. */
  datatype History = History(entered: seq<Job>, completed: seq<Job>, failed: seq<Job>, canceled: seq<Job>)

  /** `lost[s]` counts tokens of shard `s` given up instead of sent. */
  datatype State = State(
    cfg: Config, life: Life, cancelled: bool, drained: bool,
    shards: seq<Shard>, ch: seq<nat>, lost: seq<nat>, threads: seq<Pc>,
    inflight: int, shardInflight: seq<int>, laneInflight: seq<int>,
    c: Counters, h: History)

  datatype Op =
    | Begin(kind: Kind, lane: nat) | Push(job: Job) | RecordAccepted | RecordRejected | PressureReject(lane: nat)
    | Send | AbandonSend | Receive | Pop(quotas: seq<nat>) | Account
    | StartJob | FinishJob(outcome: Outcome) | Settle | CancelRest | EndBatch | Requeue | AbandonRequeue
    | Start | StopBegin(drain: bool) | DrainFirst | ScanShard | DrainLast | DrainGiveUp
    | CancelWorkers | CancelParent | MarkStopped

  datatype Step = Step(t: nat, op: Op)

  // ---- Shape -------------------------------------------------------------------------------

  predicate PcShape(cfg: Config, pc: Pc) {
    match pc
    case Idle => true
    case Admitting(_, lane) => lane < cfg.lanes
    case Rejecting(lane) => lane < cfg.lanes
    case Accepted(_, s, lane, _) => s < cfg.shards && lane < cfg.lanes
    case Scan(k) => k <= cfg.shards
    case StopLoop => true
    case StopCancel => true
    case Executing(s, batch, _) => s < cfg.shards && batch != []
    case Finishing(s, batch, _) => s < cfg.shards && batch != []
    case _ => pc.shard < cfg.shards
  }

  predicate ShardShape(cfg: Config, sh: Shard) {
    |sh.lanes| == cfg.lanes && forall l :: 0 <= l < cfg.lanes ==> |sh.lanes[l]| <= cfg.capacity
  }

  predicate CountersShape(cfg: Config, c: Counters) {
    && |c.submitted| == |c.accepted| == |c.rejected| == |c.pressureRejected| == cfg.lanes
    && |c.completed| == |c.failed| == |c.canceled| == cfg.lanes
  }

  predicate Shape(st: State) {
    && st.cfg.shards > 0
    && |st.shards| == |st.lost| == |st.shardInflight| == st.cfg.shards
    && |st.laneInflight| == st.cfg.lanes
    && CountersShape(st.cfg, st.c)
    && (forall s :: 0 <= s < st.cfg.shards ==> ShardShape(st.cfg, st.shards[s]))
    && (forall i :: 0 <= i < |st.ch| ==> st.ch[i] < st.cfg.shards)
    && (forall t :: 0 <= t < |st.threads| ==> PcShape(st.cfg, st.threads[t]))
  }

  predicate IsStopping(st: State) {
    st.life == Stopping || st.life == Stopped
  }

  predicate HoldsReadLock(pc: Pc) {
    pc.Admitting? || pc.Rejecting? || pc.Accepted?
  }

  /** The admission gate: `Enqueue` refuses once stopping, `TryEnqueue` also before start. */
  predicate GateOpen(st: State, kind: Kind) {
    if kind == TrySubmit then st.life == Started else !IsStopping(st)
  }

  function RouteShard(keyHash: nat, shards: nat): (s: nat)
    requires shards > 0
    ensures s < shards
  {
    keyHash % shards
  }

  // ---- Steps -------------------------------------------------------------------------------

  predicate Enabled(st: State, step: Step)
    requires Shape(st)
  {
    step.t < |st.threads| &&
    var pc := st.threads[step.t];
    PcShape(st.cfg, pc) &&
    match step.op
    case Begin(_, lane) => pc.Idle? && lane < st.cfg.lanes
    case Push(job) =>
      && pc.Admitting? && job.lane == pc.lane && job.id == |st.h.entered|
      && !st.shards[RouteShard(job.keyHash, st.cfg.shards)].locked
    case RecordAccepted => pc.Accepted?
    case RecordRejected => pc.Rejecting?
    case PressureReject(lane) => pc.Idle? && lane < st.cfg.lanes
    case Send => pc.Holding? && (pc.kind == Submit ==> |st.ch| < st.cfg.shards)
    case AbandonSend => pc.Holding? && pc.kind == Submit
    case Receive => pc.Idle? && st.life != New && st.ch != []
    case Pop(quotas) =>
      && pc.Received? && !st.shards[pc.shard].locked
      && |quotas| == st.cfg.lanes && forall l :: 0 <= l < |quotas| ==> quotas[l] >= 1
    case Account => pc.Popped?
    case StartJob => pc.Running? && pc.batch != [] && !st.cancelled
    case FinishJob(_) => pc.Executing?
    case Settle => pc.Finishing?
    case CancelRest => pc.Running? && pc.batch != [] && st.cancelled
    case EndBatch => pc.Running? && pc.batch == []
    case Requeue => pc.Requeueing? && |st.ch| < st.cfg.shards
    case AbandonRequeue => pc.Requeueing? && st.cancelled
    case Start => pc.Idle? && st.life == New
    case StopBegin(_) =>
      && pc.Idle? && !IsStopping(st)
      && forall t :: 0 <= t < |st.threads| ==> !HoldsReadLock(st.threads[t])
    case DrainFirst => pc.StopLoop?
    case ScanShard => pc.Scan? && pc.next < st.cfg.shards && !st.shards[pc.next].locked
    case DrainLast => pc.Scan? && pc.next == st.cfg.shards
    case DrainGiveUp => pc.StopLoop?
    case CancelWorkers => pc.StopCancel?
    case CancelParent => pc.Idle? && st.life != New
    case MarkStopped => pc.Idle? && st.life == Stopping && st.cancelled
  }

  function AddLanes(v: seq<int>, js: seq<Job>): (r: seq<int>)
    ensures |r| == |v|
    ensures forall l :: 0 <= l < |v| ==> r[l] == v[l] + Count(ByLane(l), js)
  {
    seq(|v|, l requires 0 <= l < |v| => v[l] + Count(ByLane(l), js))
  }

  function SubLanes(v: seq<int>, js: seq<Job>): (r: seq<int>)
    ensures |r| == |v|
    ensures forall l :: 0 <= l < |v| ==> r[l] == v[l] - Count(ByLane(l), js)
  {
    seq(|v|, l requires 0 <= l < |v| => v[l] - Count(ByLane(l), js))
  }

  function At(st: State, t: nat, pc: Pc): State
    requires t < |st.threads|
  {
    st.(threads := st.threads[t := pc])
  }

  /** A token is given up: nobody will send it. */
  function Lose(st: State, s: nat): State
    requires s < |st.lost|
  {
    st.(lost := st.lost[s := st.lost[s] + 1])
  }

  function ApplyPush(st: State, t: nat, pc: Pc, job: Job): State
    requires Shape(st) && t < |st.threads| && pc.Admitting? && pc.lane < st.cfg.lanes
  {
    var s := RouteShard(job.keyHash, st.cfg.shards);
    var sh := st.shards[s];
    if |sh.lanes[pc.lane]| == st.cfg.capacity then At(st, t, Rejecting(pc.lane))
    else
      var lanes := sh.lanes[pc.lane := sh.lanes[pc.lane] + [job]];
      At(st, t, Accepted(pc.kind, s, pc.lane, !sh.ready)).(
        shards := st.shards[s := Shard(true, sh.locked, lanes)],
        h := st.h.(entered := st.h.entered + [job]))
  }

  /** One locked pass: drain every lane up to its quota, clear `ready` when nothing is left. */
  function ApplyPop(st: State, t: nat, s: nat, quotas: seq<nat>): State
    requires Shape(st) && t < |st.threads| && s < st.cfg.shards && |quotas| == st.cfg.lanes
  {
    var sh := st.shards[s];
    var rest := Remainder(sh.lanes, quotas);
    var more := HasWork(rest);
    At(st, t, Popped(s, Batch(sh.lanes, quotas), more)).(
      shards := st.shards[s := Shard(sh.ready && more, true, rest)])
  }

  function ApplyAccount(st: State, t: nat, pc: Pc): State
    requires Shape(st) && t < |st.threads| && pc.Popped? && pc.shard < st.cfg.shards
  {
    var s, n := pc.shard, |pc.batch|;
    At(st, t, Running(s, pc.batch, pc.more)).(
      shards := st.shards[s := st.shards[s].(locked := false)],
      inflight := st.inflight + n,
      shardInflight := st.shardInflight[s := st.shardInflight[s] + n],
      laneInflight := AddLanes(st.laneInflight, pc.batch))
  }

  function ApplyFinish(st: State, t: nat, pc: Pc, outcome: Outcome): State
    requires Shape(st) && t < |st.threads| && pc.Executing? && pc.batch != []
  {
    var j := [pc.batch[0]];
    var st' := At(st, t, Finishing(pc.shard, pc.batch, pc.more));
    match outcome
    case Completed =>
      st'.(c := st.c.(completed := AddLanes(st.c.completed, j)), h := st.h.(completed := st.h.completed + j))
    case Failed => st'.(c := st.c.(failed := AddLanes(st.c.failed, j)), h := st.h.(failed := st.h.failed + j))
    case Canceled => st'.(c := st.c.(canceled := AddLanes(st.c.canceled, j)), h := st.h.(canceled := st.h.canceled + j))
  }

  function Release(st: State, s: nat, js: seq<Job>): State
    requires Shape(st) && s < st.cfg.shards
  {
    st.(inflight := st.inflight - |js|,
        shardInflight := st.shardInflight[s := st.shardInflight[s] - |js|],
        laneInflight := SubLanes(st.laneInflight, js))
  }

  function ApplyCancelRest(st: State, t: nat, pc: Pc): State
    requires Shape(st) && t < |st.threads| && pc.Running? && pc.shard < st.cfg.shards
  {
    At(Release(st, pc.shard, pc.batch), t, Running(pc.shard, [], pc.more)).(
      c := st.c.(canceled := AddLanes(st.c.canceled, pc.batch)),
      h := st.h.(canceled := st.h.canceled + pc.batch))
  }

  function ApplySend(st: State, t: nat, s: nat): State
    requires Shape(st) && t < |st.threads| && s < st.cfg.shards
  {
    if |st.ch| < st.cfg.shards then At(st, t, Idle).(ch := st.ch + [s]) else Lose(At(st, t, Idle), s)
  }

  function Bump(v: seq<int>, i: nat): seq<int>
    requires i < |v|
  {
    v[i := v[i] + 1]
  }

  function Apply(st: State, step: Step): State
    requires Shape(st) && Enabled(st, step)
  {
    var t := step.t;
    var pc := st.threads[t];
    match step.op
    case Begin(kind, lane) =>
      At(st, t, if GateOpen(st, kind) then Admitting(kind, lane) else Rejecting(lane)).(
        c := st.c.(submitted := Bump(st.c.submitted, lane)))
    case Push(job) => ApplyPush(st, t, pc, job)
    case RecordAccepted =>
      At(st, t, if pc.becameReady then Holding(pc.kind, pc.shard) else Idle).(
        c := st.c.(accepted := Bump(st.c.accepted, pc.lane)))
    case RecordRejected => At(st, t, Idle).(c := st.c.(rejected := Bump(st.c.rejected, pc.lane)))
    case PressureReject(lane) =>
      st.(c := st.c.(rejected := Bump(st.c.rejected, lane), pressureRejected := Bump(st.c.pressureRejected, lane)))
    case Send => ApplySend(st, t, pc.shard)
    case AbandonSend => Lose(At(st, t, Idle), pc.shard)
    case Receive => At(st, t, Received(st.ch[0])).(ch := st.ch[1..])
    case Pop(quotas) => ApplyPop(st, t, pc.shard, quotas)
    case Account => ApplyAccount(st, t, pc)
    case StartJob => At(st, t, Executing(pc.shard, pc.batch, pc.more))
    case FinishJob(outcome) => ApplyFinish(st, t, pc, outcome)
    case Settle => At(Release(st, pc.shard, [pc.batch[0]]), t, Running(pc.shard, pc.batch[1..], pc.more))
    case CancelRest => ApplyCancelRest(st, t, pc)
    case EndBatch => At(st, t, if pc.more then Requeueing(pc.shard) else Idle)
    case Requeue => ApplySend(st, t, pc.shard)
    case AbandonRequeue => Lose(At(st, t, Idle), pc.shard)
    case Start => st.(life := Started)
    case StopBegin(drain) => At(st, t, if drain then StopLoop else StopCancel).(life := Stopping)
    case DrainFirst => At(st, t, if st.inflight == 0 then Scan(0) else StopLoop)
    case ScanShard => At(st, t, if HasWork(st.shards[pc.next].lanes) then StopLoop else Scan(pc.next + 1))
    case DrainLast => if st.inflight == 0 then At(st, t, StopCancel).(drained := true) else At(st, t, StopLoop)
    case DrainGiveUp => At(st, t, StopCancel)
    case CancelWorkers => At(st, t, Idle).(cancelled := true)
    case CancelParent => st.(cancelled := true)
    case MarkStopped => st.(life := Stopped)
  }

  /** A freshly built scheduler with any number of threads standing by. */
  predicate Init(st: State) {
    && Shape(st)
    && st.life == New && !st.cancelled && !st.drained && st.ch == []
    && st.inflight == 0 && st.h == History([], [], [], [])
    && (forall s :: 0 <= s < st.cfg.shards ==>
          && !st.shards[s].ready && !st.shards[s].locked && !HasWork(st.shards[s].lanes)
          && st.lost[s] == 0 && st.shardInflight[s] == 0)
    && (forall t :: 0 <= t < |st.threads| ==> st.threads[t].Idle?)
    && (forall l :: 0 <= l < st.cfg.lanes ==>
          && st.laneInflight[l] == 0 && st.c.submitted[l] == 0 && st.c.accepted[l] == 0
          && st.c.rejected[l] == 0 && st.c.pressureRejected[l] == 0
          && st.c.completed[l] == 0 && st.c.failed[l] == 0 && st.c.canceled[l] == 0)
  }

  /** What every step keeps about a state's shape, for one changed thread. */
  predicate Reshaped(st: State, st': State, t: nat) {
    && Shape(st') && st'.cfg == st.cfg
    && |st'.threads| == |st.threads|
    && forall u :: 0 <= u < |st.threads| && u != t ==> st'.threads[u] == st.threads[u]
  }

  lemma ShapePush(st: State, t: nat, pc: Pc, job: Job)
    requires Shape(st) && t < |st.threads| && pc.Admitting? && pc.lane < st.cfg.lanes
    ensures Reshaped(st, ApplyPush(st, t, pc, job), t)
  {
    var s := RouteShard(job.keyHash, st.cfg.shards);
    assert ShardShape(st.cfg, st.shards[s]);
  }

  lemma ShapePop(st: State, t: nat, s: nat, quotas: seq<nat>)
    requires Shape(st) && t < |st.threads| && s < st.cfg.shards && |quotas| == st.cfg.lanes
    ensures Reshaped(st, ApplyPop(st, t, s, quotas), t)
  {
    assert ShardShape(st.cfg, st.shards[s]);
  }

  lemma ShapeAccount(st: State, t: nat, pc: Pc)
    requires Shape(st) && t < |st.threads| && pc.Popped? && pc.shard < st.cfg.shards
    ensures Reshaped(st, ApplyAccount(st, t, pc), t)
  {
    assert ShardShape(st.cfg, st.shards[pc.shard]);
  }

  lemma ShapeFinish(st: State, t: nat, pc: Pc, outcome: Outcome)
    requires Shape(st) && t < |st.threads| && pc.Executing? && pc.batch != [] && pc.shard < st.cfg.shards
    ensures Reshaped(st, ApplyFinish(st, t, pc, outcome), t)
  {
  }

  lemma ShapeWork(st: State, step: Step)
    requires Shape(st) && Enabled(st, step)
    requires step.op.Settle? || step.op.CancelRest? || step.op.StartJob? || step.op.EndBatch?
    ensures Reshaped(st, Apply(st, step), step.t)
  {
    assert PcShape(st.cfg, st.threads[step.t]);
  }

  lemma ShapeToken(st: State, step: Step)
    requires Shape(st) && Enabled(st, step)
    requires step.op.Send? || step.op.AbandonSend? || step.op.Receive? || step.op.Requeue? || step.op.AbandonRequeue?
    ensures Reshaped(st, Apply(st, step), step.t)
  {
    assert PcShape(st.cfg, st.threads[step.t]);
  }

  lemma ShapeCount(st: State, step: Step)
    requires Shape(st) && Enabled(st, step)
    requires step.op.Begin? || step.op.RecordAccepted? || step.op.RecordRejected? || step.op.PressureReject?
    ensures Reshaped(st, Apply(st, step), step.t)
  {
    assert PcShape(st.cfg, st.threads[step.t]);
  }

  predicate IsStopOp(op: Op) {
    || op.Start? || op.StopBegin? || op.DrainFirst? || op.ScanShard? || op.DrainLast? || op.DrainGiveUp?
    || op.CancelWorkers? || op.CancelParent? || op.MarkStopped?
  }

  predicate IsDrainOp(op: Op) {
    op.DrainFirst? || op.ScanShard? || op.DrainLast? || op.DrainGiveUp?
  }

  lemma ShapeDrain(st: State, step: Step)
    requires Shape(st) && Enabled(st, step) && IsDrainOp(step.op)
    ensures Reshaped(st, Apply(st, step), step.t)
  {
  }

  lemma ShapeStop(st: State, step: Step)
    requires Shape(st) && Enabled(st, step) && IsStopOp(step.op) && !IsDrainOp(step.op)
    ensures Reshaped(st, Apply(st, step), step.t)
  {
  }

  lemma ShapeKept(st: State, step: Step)
    requires Shape(st) && Enabled(st, step)
    ensures Reshaped(st, Apply(st, step), step.t)
  {
    var t := step.t;
    var pc := st.threads[t];
    assert PcShape(st.cfg, pc);
    match step.op
    case Push(job) => ShapePush(st, t, pc, job);
    case Pop(quotas) => ShapePop(st, t, pc.shard, quotas);
    case Account => ShapeAccount(st, t, pc);
    case FinishJob(outcome) => ShapeFinish(st, t, pc, outcome);
    case Settle => ShapeWork(st, step);
    case CancelRest => ShapeWork(st, step);
    case StartJob => ShapeWork(st, step);
    case EndBatch => ShapeWork(st, step);
    case Send => ShapeToken(st, step);
    case AbandonSend => ShapeToken(st, step);
    case Receive => ShapeToken(st, step);
    case Requeue => ShapeToken(st, step);
    case AbandonRequeue => ShapeToken(st, step);
    case Begin(_, _) => ShapeCount(st, step);
    case RecordAccepted => ShapeCount(st, step);
    case RecordRejected => ShapeCount(st, step);
    case PressureReject(_) => ShapeCount(st, step);
    case _ => if IsDrainOp(step.op) { ShapeDrain(st, step); } else { ShapeStop(st, step); }
  }

  // ---- Runs --------------------------------------------------------------------------------

  /** One step, as a state of the same shape. */
  function Next(st: State, step: Step): (st': State)
    requires Shape(st) && Enabled(st, step)
    ensures Reshaped(st, st', step.t)
  {
    ShapeKept(st, step);
    Apply(st, step)
  }

  predicate Legal(st: State, steps: seq<Step>)
    requires Shape(st)
    decreases |steps|
  {
    steps == [] || (Enabled(st, steps[0]) && Legal(Next(st, steps[0]), steps[1..]))
  }

  function Run(st: State, steps: seq<Step>): (st': State)
    requires Shape(st) && Legal(st, steps)
    ensures Shape(st') && st'.cfg == st.cfg && |st'.threads| == |st.threads|
    decreases |steps|
  {
    if steps == [] then st else Run(Next(st, steps[0]), steps[1..])
  }

  lemma RunCons(st: State, step: Step, rest: seq<Step>)
    requires Shape(st) && Enabled(st, step) && Legal(Next(st, step), rest)
    ensures Legal(st, [step] + rest) && Run(st, [step] + rest) == Run(Next(st, step), rest)
  {
    assert ([step] + rest)[1..] == rest;
  }

  lemma {:induction false} RunConcat(st: State, first: seq<Step>, rest: seq<Step>)
    requires Shape(st) && Legal(st, first) && Legal(Run(st, first), rest)
    ensures Legal(st, first + rest) && Run(st, first + rest) == Run(Run(st, first), rest)
    decreases |first|
  {
    if first == [] {
      assert first + rest == rest;
    } else {
      RunConcat(Next(st, first[0]), first[1..], rest);
      RunCons(st, first[0], first[1..] + rest);
      FirstApart(first, rest);
    }
  }

  // ---- Routing and admission -----------------------------------------------------------------

  /** Hashes go round the shards: those below the shard count to their own number, and on from there. */
  lemma RoutesAround(h: nat, shards: nat)
    requires shards > 0
    ensures h < shards ==> RouteShard(h, shards) == h
    ensures RouteShard(h + shards, shards) == RouteShard(h, shards)
  {
    if h < shards {
      RemainderOf(h, 0, h, shards);
    }
    var q, r := h / shards, h % shards;
    assert h + shards == (q + 1) * shards + r;
    RemainderOf(h + shards, q + 1, r, shards);
  }

  /** A TrySubmit gets past the gate if and only if the scheduler is started, any other submission if and
      only if it is not being stopped. */
  lemma AdmittedExactly(st: State, step: Step)
    requires Shape(st) && Enabled(st, step) && step.op.Begin?
    ensures Next(st, step).threads[step.t] ==
      if st.life == Started || (st.life == New && step.op.kind != TrySubmit)
      then Admitting(step.op.kind, step.op.lane) else Rejecting(step.op.lane)
  {
  }

  // ---- Sums over threads -------------------------------------------------------------------

  /** A quantity each thread contributes to, by its program counter. */
  datatype Gauge =
    | Token(s: nat) | Lock(s: nat) | Reader | Attempt(lane: nat) | AcceptLag(lane: nat)
    | Flying(m: Match) | FlyingAt(s: nat) | FlyingBelow(s: nat) | Unended(m: Match)

  predicate HoldsToken(pc: Pc, s: nat) {
    match pc
    case Accepted(_, s', _, becameReady) => s' == s && becameReady
    case Holding(_, s') => s' == s
    case Received(s') => s' == s
    case Requeueing(s') => s' == s
    case Popped(s', _, more) => s' == s && more
    case Running(s', _, more) => s' == s && more
    case Executing(s', _, more) => s' == s && more
    case Finishing(s', _, more) => s' == s && more
    case _ => false
  }

  predicate InFlight(pc: Pc) {
    pc.Running? || pc.Executing? || pc.Finishing?
  }

  function Weigh(g: Gauge, pc: Pc): nat {
    match g
    case Token(s) => One(HoldsToken(pc, s))
    case Lock(s) => One(pc.Popped? && pc.shard == s)
    case Reader => One(pc.Admitting? || pc.Accepted?)
    case Attempt(l) => One(HoldsReadLock(pc) && pc.lane == l)
    case AcceptLag(l) => One(pc.Accepted? && pc.lane == l)
    case Flying(m) => if InFlight(pc) then Count(m, pc.batch) else 0
    case FlyingAt(s) => if InFlight(pc) && pc.shard == s then |pc.batch| else 0
    case FlyingBelow(s) => if InFlight(pc) && pc.shard < s then |pc.batch| else 0
    case Unended(m) =>
      if pc.Popped? || pc.Running? || pc.Executing? then Count(m, pc.batch)
      else if pc.Finishing? && pc.batch != [] then Count(m, pc.batch[1..])
      else 0
  }

  function Total(g: Gauge, ts: seq<Pc>): nat {
    if ts == [] then 0 else Weigh(g, ts[0]) + Total(g, ts[1..])
  }

  lemma {:induction false} TotalUpdate(g: Gauge, ts: seq<Pc>, t: nat, pc: Pc)
    requires t < |ts|
    ensures Total(g, ts[t := pc]) == Total(g, ts) - Weigh(g, ts[t]) + Weigh(g, pc)
    ensures Weigh(g, ts[t]) <= Total(g, ts)
  {
    if t == 0 {
      assert ts[t := pc][1..] == ts[1..];
    } else {
      TotalUpdate(g, ts[1..], t - 1, pc);
      assert ts[t := pc][1..] == ts[1..][t - 1 := pc];
    }
  }

  lemma {:induction false} TotalLe(g: Gauge, g': Gauge, ts: seq<Pc>)
    requires forall t :: 0 <= t < |ts| ==> Weigh(g, ts[t]) <= Weigh(g', ts[t])
    ensures Total(g, ts) <= Total(g', ts)
  {
    if ts != [] {
      assert forall t :: 0 <= t < |ts[1..]| ==> ts[1..][t] == ts[t + 1];
      TotalLe(g, g', ts[1..]);
    }
  }

  lemma {:induction false} TotalSum(g: Gauge, g1: Gauge, g2: Gauge, ts: seq<Pc>)
    requires forall t :: 0 <= t < |ts| ==> Weigh(g, ts[t]) == Weigh(g1, ts[t]) + Weigh(g2, ts[t])
    ensures Total(g, ts) == Total(g1, ts) + Total(g2, ts)
  {
    if ts != [] {
      assert forall t :: 0 <= t < |ts[1..]| ==> ts[1..][t] == ts[t + 1];
      TotalSum(g, g1, g2, ts[1..]);
    }
  }

  lemma {:induction false} TotalZero(g: Gauge, ts: seq<Pc>)
    requires forall t :: 0 <= t < |ts| ==> Weigh(g, ts[t]) == 0
    ensures Total(g, ts) == 0
  {
    if ts != [] {
      assert forall t :: 0 <= t < |ts[1..]| ==> ts[1..][t] == ts[t + 1];
      TotalZero(g, ts[1..]);
    }
  }

  /** The step moves one thread, so every gauge moves by that thread's change. */
  lemma StepTotal(g: Gauge, st: State, step: Step)
    requires Shape(st) && Enabled(st, step)
    ensures var st' := Next(st, step);
            Total(g, st'.threads) == Total(g, st.threads) - Weigh(g, st.threads[step.t]) + Weigh(g, st'.threads[step.t])
    ensures Weigh(g, st.threads[step.t]) <= Total(g, st.threads)
  {
    var st' := Next(st, step);
    TotalUpdate(g, st.threads, step.t, st'.threads[step.t]);
    assert st'.threads == st.threads[step.t := st'.threads[step.t]];
  }

  // ---- What each kind of step leaves alone -----------------------------------------------

  predicate MovesToken(op: Op) {
    || op.Send? || op.AbandonSend? || op.Receive? || op.Requeue? || op.AbandonRequeue?
    || op.RecordAccepted? || op.EndBatch?
  }

  /** Where the acting thread stands after a step. */
  function PcAfter(st: State, step: Step): Pc
    requires Shape(st) && Enabled(st, step)
  {
    var pc := st.threads[step.t];
    match step.op
    case Begin(kind, lane) => if GateOpen(st, kind) then Admitting(kind, lane) else Rejecting(lane)
    case Push(job) =>
      var s := RouteShard(job.keyHash, st.cfg.shards);
      if |st.shards[s].lanes[pc.lane]| == st.cfg.capacity then Rejecting(pc.lane)
      else Accepted(pc.kind, s, pc.lane, !st.shards[s].ready)
    case RecordAccepted => if pc.becameReady then Holding(pc.kind, pc.shard) else Idle
    case Receive => Received(st.ch[0])
    case Pop(quotas) =>
      var lanes := st.shards[pc.shard].lanes;
      Popped(pc.shard, Batch(lanes, quotas), HasWork(Remainder(lanes, quotas)))
    case Account => Running(pc.shard, pc.batch, pc.more)
    case StartJob => Executing(pc.shard, pc.batch, pc.more)
    case FinishJob(_) => Finishing(pc.shard, pc.batch, pc.more)
    case Settle => Running(pc.shard, pc.batch[1..], pc.more)
    case CancelRest => Running(pc.shard, [], pc.more)
    case EndBatch => if pc.more then Requeueing(pc.shard) else Idle
    case StopBegin(drain) => if drain then StopLoop else StopCancel
    case DrainFirst => if st.inflight == 0 then Scan(0) else StopLoop
    case ScanShard => if HasWork(st.shards[pc.next].lanes) then StopLoop else Scan(pc.next + 1)
    case DrainLast => if st.inflight == 0 then StopCancel else StopLoop
    case DrainGiveUp => StopCancel
    case _ => Idle
  }

  lemma ThreadAfter(st: State, step: Step)
    requires Shape(st) && Enabled(st, step)
    ensures Next(st, step).threads == st.threads[step.t := PcAfter(st, step)]
  {
  }

  predicate IsCountOp(op: Op) {
    op.Begin? || op.RecordAccepted? || op.RecordRejected? || op.PressureReject?
  }

  predicate IsTokenOp(op: Op) {
    op.Send? || op.AbandonSend? || op.Receive? || op.Requeue? || op.AbandonRequeue?
  }

  /** Steps that touch neither jobs nor in-flight counters. */
  predicate IsQuiet(op: Op) {
    IsStopOp(op) || IsCountOp(op) || IsTokenOp(op) || op.StartJob? || op.EndBatch?
  }

  lemma StopEffect(st: State, step: Step)
    requires Shape(st) && Enabled(st, step) && IsStopOp(step.op)
    ensures var st' := Next(st, step);
            st' == st.(threads := st'.threads, life := st'.life, cancelled := st'.cancelled, drained := st'.drained)
  {
  }

  lemma TokenEffect(st: State, step: Step)
    requires Shape(st) && Enabled(st, step) && IsTokenOp(step.op)
    ensures var st' := Next(st, step);
            st' == st.(threads := st'.threads, ch := st'.ch, lost := st'.lost)
  {
  }

  /** A quiet step leaves queues, history and in-flight counters as they were. */
  lemma QuietEffect(st: State, step: Step)
    requires Shape(st) && Enabled(st, step) && IsQuiet(step.op)
    ensures var st' := Next(st, step);
            && st'.shards == st.shards && st'.h == st.h
            && st'.inflight == st.inflight && st'.shardInflight == st.shardInflight
            && st'.laneInflight == st.laneInflight
  {
    if IsStopOp(step.op) {
      StopEffect(st, step);
    } else if IsTokenOp(step.op) {
      TokenEffect(st, step);
    }
  }

  /** A pass moves the front of every lane of its shard to the worker. */
  lemma PopEffect(st: State, step: Step)
    requires Shape(st) && Enabled(st, step) && step.op.Pop? && st.threads[step.t].shard < st.cfg.shards
    ensures var st', s := Next(st, step), st.threads[step.t].shard;
            && |st.shards[s].lanes| == |step.op.quotas| && st'.shards == st.shards[s := st'.shards[s]]
            && st'.shards[s].lanes == Remainder(st.shards[s].lanes, step.op.quotas)
            && st'.threads[step.t].Popped? && st'.threads[step.t].shard == s && st'.h == st.h
            && st'.threads[step.t].batch == Batch(st.shards[s].lanes, step.op.quotas)
  {
  }

  /** Only a push and a pass change queues and the ready flag. */
  lemma FrameShards(st: State, step: Step, s: nat)
    requires Shape(st) && Enabled(st, step) && s < st.cfg.shards
    requires !step.op.Push? && !step.op.Pop?
    ensures Next(st, step).shards[s].lanes == st.shards[s].lanes
    ensures Next(st, step).shards[s].ready == st.shards[s].ready
  {
    if IsQuiet(step.op) {
      QuietEffect(st, step);
    }
  }

  /** Steps that neither push, pop nor move a token leave channel and holdings alone. */
  lemma FrameChannel(st: State, step: Step)
    requires Shape(st) && Enabled(st, step)
    requires !MovesToken(step.op)
    ensures Next(st, step).ch == st.ch && Next(st, step).lost == st.lost
  {
    if IsStopOp(step.op) {
      StopEffect(st, step);
    }
  }

  lemma FrameHeld(st: State, step: Step, s: nat)
    requires Shape(st) && Enabled(st, step)
    requires !step.op.Push? && !step.op.Pop? && !MovesToken(step.op)
    ensures HoldsToken(Next(st, step).threads[step.t], s) == HoldsToken(st.threads[step.t], s)
  {
    ThreadAfter(st, step);
  }
}
