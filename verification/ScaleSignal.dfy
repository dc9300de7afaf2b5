/** The autoscaling signal: trigger evaluation and the consecutive-window rule. */
module ScaleSignal {

  datatype Pressure = Healthy | Skewed | Distributed | WorkerBound | OtherPressure

  datatype Config = Config(
    window: int, consecutive: int,
    shedRate: real, rejectRate: real, manyHotShards: int, hotShardRatio: real,
    busyRatio: real, waitMax: int, depthRatio: real, localizedRatio: real)

  datatype Input = Input(
    depth: nat, capacity: int, waitMax: int,
    rejectRate: real, shedRate: real, busyRatio: real,
    hotShards: int, hotShardRatio: real, localizedRatio: real, pressure: Pressure,
    submitted: nat)

  datatype Reason =
    | NoReason
    | ShedHigh
    | RejectHigh
    | DistributedPressure
    | ManyHotShards
    | WorkerSaturated
    | QueueWaitHigh
    | QueueDepthHigh
    | InsufficientData
    | LocalizedHotKey

  datatype Scope = NoScope | Global | Shard | HotKey | UnknownScope

  datatype Signal = Signal(recommended: bool, reason: Reason, scope: Scope)

  // ---- Triggers --------------------------------------------------------------------------------

  function DepthRatio(x: Input): real {
    if x.capacity > 0 then x.depth as real / x.capacity as real else 0.0
  }

  /** The triggers, highest priority first. */
  const TRIGGERS :=
    [ShedHigh, RejectHigh, DistributedPressure, ManyHotShards, WorkerSaturated, QueueWaitHigh, QueueDepthHigh]

  predicate Fires(r: Reason, x: Input, cfg: Config) {
    match r
    case ShedHigh => x.shedRate >= cfg.shedRate
    case RejectHigh => x.rejectRate >= cfg.rejectRate
    case DistributedPressure => x.pressure == Distributed || x.pressure == WorkerBound
    case ManyHotShards => x.hotShards >= cfg.manyHotShards || x.hotShardRatio >= cfg.hotShardRatio
    case WorkerSaturated => x.busyRatio >= cfg.busyRatio || x.pressure == WorkerBound
    case QueueWaitHigh => cfg.waitMax > 0 && x.waitMax >= cfg.waitMax
    case QueueDepthHigh => DepthRatio(x) >= cfg.depthRatio
    case NoReason => false
    case InsufficientData => false
    case LocalizedHotKey => false
  }

  predicate Unhealthy(x: Input, cfg: Config) {
    exists i :: 0 <= i < |TRIGGERS| && Fires(TRIGGERS[i], x, cfg)
  }

  function ScopeFor(r: Reason, x: Input): Scope {
    match r
    case ManyHotShards => if x.hotShards <= 1 then Shard else Global
    case WorkerSaturated => if x.pressure != WorkerBound && x.hotShards == 1 then Shard else Global
    case QueueWaitHigh => QueueScope(x)
    case QueueDepthHigh => QueueScope(x)
    case _ => Global
  }

  function QueueScope(x: Input): Scope {
    if x.hotShards == 1 && x.pressure != Distributed && x.pressure != WorkerBound then Shard else Global
  }

  /** Trigger `i` has fired and none of higher priority has. */
  predicate Leads(i: nat, x: Input, cfg: Config)
    requires i < |TRIGGERS|
  {
    Fires(TRIGGERS[i], x, cfg) && forall j :: 0 <= j < i ==> !Fires(TRIGGERS[j], x, cfg)
  }

  /** Finds the fired trigger that no other fired trigger outranks. */
  method EvaluateTriggers(x: Input, cfg: Config) returns (reason: Reason, scope: Scope, unhealthy: bool)
    ensures unhealthy <==> Unhealthy(x, cfg)
    ensures unhealthy ==> exists i :: 0 <= i < |TRIGGERS| && TRIGGERS[i] == reason && Leads(i, x, cfg)
    ensures unhealthy ==> scope == ScopeFor(reason, x)
    ensures !unhealthy ==> reason == NoReason && scope == NoScope
  {
    reason, scope, unhealthy := NoReason, NoScope, false;
    ghost var at := 0;
    var best := 999;
    var i := 0;
    while i < |TRIGGERS|
      invariant 0 <= i <= |TRIGGERS|
      invariant unhealthy <==> exists j :: 0 <= j < i && Fires(TRIGGERS[j], x, cfg)
      invariant unhealthy ==> 0 <= at < i && best == at + 1 && TRIGGERS[at] == reason && Leads(at, x, cfg)
      invariant unhealthy ==> scope == ScopeFor(reason, x)
      invariant !unhealthy ==> best == 999 && reason == NoReason && scope == NoScope
    {
      if Fires(TRIGGERS[i], x, cfg) {
        if i + 1 < best {
          best, at := i + 1, i;
          reason, scope := TRIGGERS[i], ScopeFor(TRIGGERS[i], x);
        }
        unhealthy := true;
      }
      i := i + 1;
    }
  }

  // ---- The calculator --------------------------------------------------------------------------

  datatype Option = None | Some(value: int)

  /** What the calculator remembers between samples. */
  datatype Memory = Memory(windows: nat, lastAt: Option)

  predicate Sufficient(x: Input) {
    x.capacity > 0 && x.submitted > 0
  }

  predicate Localized(x: Input, cfg: Config) {
    x.localizedRatio >= cfg.localizedRatio && x.hotShards <= 2
  }

  /** A sample closes a window when none was taken yet or the last one is a window old. */
  predicate Advances(m: Memory, cfg: Config, x: Input, now: int) {
    Sufficient(x) && (m.lastAt.None? || now - m.lastAt.value >= cfg.window)
  }

  function After(m: Memory, cfg: Config, x: Input, now: int): Memory {
    if !Advances(m, cfg, x, now) then m
    else Memory(if Unhealthy(x, cfg) then m.windows + 1 else 0, Some(now))
  }

  predicate Recommends(m: Memory, cfg: Config, x: Input, now: int) {
    && Sufficient(x) && !Localized(x, cfg) && Unhealthy(x, cfg)
    && After(m, cfg, x, now).windows >= cfg.consecutive
  }

  /** The reason and scope say why: too little data, a localized key, or the leading trigger if any. */
  predicate Explained(s: Signal, x: Input, cfg: Config) {
    if !Sufficient(x) then s.reason == InsufficientData && s.scope == UnknownScope
    else if Localized(x, cfg) then s.reason == LocalizedHotKey && s.scope == HotKey
    else if !Unhealthy(x, cfg) then s.reason == NoReason && s.scope == NoScope
    else
      && s.scope == ScopeFor(s.reason, x)
      && exists i :: 0 <= i < |TRIGGERS| && TRIGGERS[i] == s.reason && Leads(i, x, cfg)
  }

  lemma DeepExactly(x: Input, cfg: Config)
    requires x.capacity > 0
    ensures DepthRatio(x) >= cfg.depthRatio <==> x.depth as real >= cfg.depthRatio * x.capacity as real
  {
    var q, n := DepthRatio(x), x.capacity as real;
    assert q * n == x.depth as real;
    assert q >= cfg.depthRatio ==> q * n >= cfg.depthRatio * n;
    assert q < cfg.depthRatio ==> q * n < cfg.depthRatio * n;
  }

  /** The first trigger to hold, in the order of their priority. */
  lemma LeaderIsFirst(i: nat, x: Input, cfg: Config)
    requires x.capacity > 0 && i < |TRIGGERS| && Leads(i, x, cfg)
    ensures TRIGGERS[i] ==
      if x.shedRate >= cfg.shedRate then ShedHigh
      else if x.rejectRate >= cfg.rejectRate then RejectHigh
      else if x.pressure == Distributed || x.pressure == WorkerBound then DistributedPressure
      else if x.hotShards >= cfg.manyHotShards || x.hotShardRatio >= cfg.hotShardRatio then ManyHotShards
      else if x.busyRatio >= cfg.busyRatio then WorkerSaturated
      else if 0 < cfg.waitMax <= x.waitMax then QueueWaitHigh
      else QueueDepthHigh
    ensures TRIGGERS[i] == QueueDepthHigh ==> x.depth as real >= cfg.depthRatio * x.capacity as real
  {
    DeepExactly(x, cfg);
    assert forall j :: 0 <= j < i ==> !Fires(TRIGGERS[j], x, cfg);
    assert 0 < i ==> !Fires(TRIGGERS[0], x, cfg);
    assert 1 < i ==> !Fires(TRIGGERS[1], x, cfg);
    assert 2 < i ==> !Fires(TRIGGERS[2], x, cfg);
    assert 3 < i ==> !Fires(TRIGGERS[3], x, cfg);
    assert 4 < i ==> !Fires(TRIGGERS[4], x, cfg);
    assert 5 < i ==> !Fires(TRIGGERS[5], x, cfg);
  }

  /** Too little data, or pressure that hot keys on at most two shards explain, is said before any trigger. */
  lemma DataBeforeTriggers(s: Signal, x: Input, cfg: Config)
    requires Explained(s, x, cfg)
    ensures s.reason == InsufficientData <==> x.capacity <= 0 || x.submitted == 0
    ensures s.reason == LocalizedHotKey <==>
      x.capacity > 0 && x.submitted > 0 && x.localizedRatio >= cfg.localizedRatio && x.hotShards <= 2
  {
  }

  lemma UnhealthyExactly(x: Input, cfg: Config)
    requires x.capacity > 0
    ensures Unhealthy(x, cfg) <==>
      || x.shedRate >= cfg.shedRate
      || x.rejectRate >= cfg.rejectRate
      || x.pressure == Distributed || x.pressure == WorkerBound
      || x.hotShards >= cfg.manyHotShards || x.hotShardRatio >= cfg.hotShardRatio
      || x.busyRatio >= cfg.busyRatio
      || 0 < cfg.waitMax <= x.waitMax
      || x.depth as real >= cfg.depthRatio * x.capacity as real
  {
    DeepExactly(x, cfg);
    assert Fires(TRIGGERS[0], x, cfg) <==> x.shedRate >= cfg.shedRate;
    assert Fires(TRIGGERS[1], x, cfg) <==> x.rejectRate >= cfg.rejectRate;
    assert Fires(TRIGGERS[2], x, cfg) <==> x.pressure == Distributed || x.pressure == WorkerBound;
    assert Fires(TRIGGERS[3], x, cfg) <==> x.hotShards >= cfg.manyHotShards || x.hotShardRatio >= cfg.hotShardRatio;
    assert Fires(TRIGGERS[4], x, cfg) <==> x.busyRatio >= cfg.busyRatio || x.pressure == WorkerBound;
    assert Fires(TRIGGERS[5], x, cfg) <==> 0 < cfg.waitMax <= x.waitMax;
    assert Fires(TRIGGERS[6], x, cfg) <==> DepthRatio(x) >= cfg.depthRatio;
  }

  /** The scope of an answer: the whole queue, unless the trigger is one that a single hot shard explains. */
  lemma ScopeExactly(s: Signal, x: Input, cfg: Config)
    requires Explained(s, x, cfg) && Sufficient(x) && !Localized(x, cfg) && Unhealthy(x, cfg)
    ensures s.scope == Shard <==>
      || (s.reason == ManyHotShards && x.hotShards <= 1)
      || (s.reason == WorkerSaturated && x.hotShards == 1 && x.pressure != WorkerBound)
      || ((s.reason == QueueWaitHigh || s.reason == QueueDepthHigh) && x.hotShards == 1
          && x.pressure != Distributed && x.pressure != WorkerBound)
    ensures s.scope == Shard || s.scope == Global
  {
    var i :| 0 <= i < |TRIGGERS| && TRIGGERS[i] == s.reason && Leads(i, x, cfg);
  }

  class Calculator {
    var cfg: Config
    var unhealthyWindows: nat
    var lastSampleAt: Option

    ghost function View(): Memory
      reads this
    {
      Memory(unhealthyWindows, lastSampleAt)
    }

    constructor (cfg: Config)
      ensures this.cfg == cfg && View() == Memory(0, None)
    {
      this.cfg, unhealthyWindows, lastSampleAt := cfg, 0, None;
    }

    method Configure(cfg: Config)
      modifies this
      ensures this.cfg == cfg && View() == Memory(0, None)
    {
      this.cfg, unhealthyWindows, lastSampleAt := cfg, 0, None;
    }

    method Calculate(x: Input, now: int) returns (s: Signal)
      modifies this`unhealthyWindows, this`lastSampleAt
      ensures View() == After(old(View()), cfg, x, now)
      ensures s.recommended <==> Recommends(old(View()), cfg, x, now)
      ensures Explained(s, x, cfg)
    {
      if x.capacity <= 0 {
        return Signal(false, InsufficientData, UnknownScope);
      }
      if x.submitted == 0 {
        return Signal(false, InsufficientData, UnknownScope);
      }
      var advance := lastSampleAt.None? || now - lastSampleAt.value >= cfg.window;
      var localized := x.localizedRatio >= cfg.localizedRatio && x.hotShards <= 2;
      var reason, scope, unhealthy := EvaluateTriggers(x, cfg);
      if advance {
        if unhealthy {
          unhealthyWindows := unhealthyWindows + 1;
        } else {
          unhealthyWindows := 0;
        }
        lastSampleAt := Some(now);
      }
      if localized {
        return Signal(false, LocalizedHotKey, HotKey);
      }
      return Signal(unhealthy && unhealthyWindows >= cfg.consecutive, reason, scope);
    }
  }

  // ---- Whole call sequences --------------------------------------------------------------------

  datatype Event = Sample(x: Input, now: int) | Configure(cfg: Config)

  /** A window-advancing sample: when it was taken and whether it was unhealthy. */
  datatype Mark = Mark(at: int, unhealthy: bool)

  /** The calculator, with every window-advancing sample since it was last configured. */
  datatype State = State(cfg: Config, memory: Memory, marks: seq<Mark>)

  function Next(s: State, ev: Event): State {
    match ev
    case Configure(cfg) => State(cfg, Memory(0, None), [])
    case Sample(x, now) =>
      s.(memory := After(s.memory, s.cfg, x, now),
         marks := if Advances(s.memory, s.cfg, x, now) then s.marks + [Mark(now, Unhealthy(x, s.cfg))] else s.marks)
  }

  function Run(s: State, evs: seq<Event>): State
    decreases |evs|
  {
    if evs == [] then s else Run(Next(s, evs[0]), evs[1..])
  }

  /** The last `k` marks are all unhealthy. */
  predicate LastUnhealthy(marks: seq<Mark>, k: nat) {
    k <= |marks| && forall i :: |marks| - k <= i < |marks| ==> marks[i].unhealthy
  }

  predicate Spaced(marks: seq<Mark>, window: int) {
    forall i :: 0 < i < |marks| ==> marks[i].at - marks[i - 1].at >= window
  }

  /** The counter is exactly the length of the unhealthy tail, and marks are a window apart. */
  predicate Faithful(s: State) {
    && Spaced(s.marks, s.cfg.window)
    && s.memory.lastAt == (if s.marks == [] then None else Some(s.marks[|s.marks| - 1].at))
    && LastUnhealthy(s.marks, s.memory.windows)
    && (s.memory.windows < |s.marks| ==> !s.marks[|s.marks| - 1 - s.memory.windows].unhealthy)
  }

  lemma FaithfulStep(s: State, ev: Event)
    requires Faithful(s)
    ensures Faithful(Next(s, ev))
  {
  }

  lemma {:induction false} FaithfulRun(s: State, evs: seq<Event>)
    requires Faithful(s)
    ensures Faithful(Run(s, evs))
    decreases |evs|
  {
    if evs != [] {
      FaithfulStep(s, evs[0]);
      FaithfulRun(Next(s, evs[0]), evs[1..]);
    }
  }

  /** After any calls, a sample counts as one of the windows if and only if it has data and none was counted
      since configuration, or the last one is a window old. */
  lemma WindowsExactly(cfg: Config, evs: seq<Event>, x: Input, now: int)
    ensures var s := Run(State(cfg, Memory(0, None), []), evs);
      Next(s, Sample(x, now)).marks ==
        if x.capacity > 0 && x.submitted > 0
           && (s.marks == [] || now - s.marks[|s.marks| - 1].at >= s.cfg.window)
        then s.marks + [Mark(now, Unhealthy(x, s.cfg))] else s.marks
  {
    FaithfulRun(State(cfg, Memory(0, None), []), evs);
  }

  lemma TailIsExact(s: State, k: nat)
    requires Faithful(s)
    ensures LastUnhealthy(s.marks, k) <==> k <= s.memory.windows
  {
    if k > s.memory.windows && k <= |s.marks| {
      assert !s.marks[|s.marks| - 1 - s.memory.windows].unhealthy;
    }
  }

  /**
   * After any sequence of samples and reconfigurations, a sample is answered with a scaling
   * recommendation exactly when it has enough data, is unhealthy and not localized, and the last
   * `consecutive` window-advancing samples since configuration, this one included if it is one,
   * were all unhealthy; those samples are at least a window apart.
   */
  lemma Hysteresis(cfg: Config, evs: seq<Event>, x: Input, now: int)
    ensures var s := Run(State(cfg, Memory(0, None), []), evs);
      var t := Next(s, Sample(x, now));
      && Spaced(t.marks, t.cfg.window)
      && (Recommends(s.memory, s.cfg, x, now) <==>
            && Sufficient(x) && !Localized(x, s.cfg) && Unhealthy(x, s.cfg)
            && LastUnhealthy(t.marks, if s.cfg.consecutive < 0 then 0 else s.cfg.consecutive))
  {
    var s := Run(State(cfg, Memory(0, None), []), evs);
    FaithfulRun(State(cfg, Memory(0, None), []), evs);
    FaithfulStep(s, Sample(x, now));
    TailIsExact(Next(s, Sample(x, now)), if s.cfg.consecutive < 0 then 0 else s.cfg.consecutive);
  }

  lemma {:induction false} MarksReachBack(marks: seq<Mark>, window: int, j: nat)
    requires Spaced(marks, window) && j < |marks|
    ensures marks[|marks| - 1].at - marks[|marks| - 1 - j].at >= j * window
  {
    if j > 0 {
      MarksReachBack(marks, window, j - 1);
      assert marks[|marks| - j].at - marks[|marks| - 1 - j].at >= window;
      assert j * window == (j - 1) * window + window;
    }
  }

  /** The last `k` marks are unhealthy and reach back over `k - 1` whole windows. */
  ghost predicate Lasted(marks: seq<Mark>, k: int, window: int) {
    && 1 <= k <= |marks| && marks[|marks| - k].unhealthy
    && marks[|marks| - 1].at - marks[|marks| - k].at >= (k - 1) * window
  }

  lemma TailLasts(marks: seq<Mark>, k: nat, window: int)
    requires k >= 1 && Spaced(marks, window) && LastUnhealthy(marks, k)
    ensures Lasted(marks, k, window)
  {
    MarksReachBack(marks, window, k - 1);
  }

  /** A recommendation therefore rests on trouble seen over at least `consecutive - 1` whole windows. */
  lemma TroubleLasted(cfg: Config, evs: seq<Event>, x: Input, now: int)
    requires var s := Run(State(cfg, Memory(0, None), []), evs);
      s.cfg.consecutive >= 1 && Recommends(s.memory, s.cfg, x, now)
    ensures var s := Run(State(cfg, Memory(0, None), []), evs);
      Lasted(Next(s, Sample(x, now)).marks, s.cfg.consecutive, s.cfg.window)
  {
    Hysteresis(cfg, evs, x, now);
    var s := Run(State(cfg, Memory(0, None), []), evs);
    TailLasts(Next(s, Sample(x, now)).marks, s.cfg.consecutive, s.cfg.window);
  }
}
