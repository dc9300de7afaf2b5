/** One evaluation of the adaptive quota controller. */
module Adaptive {
  import opened Basics
  import opened Quotas

  datatype Class = Critical | Normal | Background | BestEffort | Unclassed

  datatype Reason =
    | NoReason
    | CriticalQueueWaitHigh
    | NormalQueueWaitHigh
    | BackgroundQueueWaitHigh
    | GlobalPressureHigh
    | BackgroundPressureHigh
    | BestEffortPressureHigh
    | RunTimeTooHigh
    | CooldownActive
    | AtMinBound
    | AtMaxBound
    | InsufficientSamples
    | IncreaseDisabled
    | DecreaseDisabled
    | WarmupActive
    | NeutralPressure
    | QueueFull

  datatype Config = Config(
    enabled: bool,
    warmup: int, cooldown: int,
    high: real, low: real,
    waitHigh: int, runHigh: int,
    up: int, down: int,
    maxAdjustments: int,
    mayRaise: bool, mayLower: bool)

  datatype Lane = Lane(
    class_: Class, enabled: bool, min: int, max: int,
    mayRaise: bool, mayLower: bool, targetWait: int)

  datatype Signal = Signal(
    quota: int,
    waitAvg: int, waitMax: int, waitSamples: nat, runMax: int,
    rejected: nat, shed: nat, degraded: nat, full: nat)

  datatype Action = Hold | Raise | Lower

  datatype Decision = Decision(action: Action, reason: Reason, old_: int, new_: int)

  // ---- What one lane asks for ------------------------------------------------------------------

  datatype Want = Keep(reason: Reason) | Go(action: Action, reason: Reason)

  predicate Overloaded(g: Signal) {
    g.shed > 0 || g.rejected > 0 || g.degraded > 0
  }

  predicate LocallyOverloaded(c: Class, g: Signal) {
    Overloaded(g) && (c == Background || c == BestEffort)
  }

  /** Why a lane of this class gives up quota; `NoReason` when it does not. */
  function LowerReason(c: Class, g: Signal, pressure: real, cfg: Config): Reason {
    match c
    case BestEffort => if pressure >= cfg.high || Overloaded(g) then BestEffortPressureHigh else NoReason
    case Background => if pressure >= cfg.high || Overloaded(g) then BackgroundPressureHigh else NoReason
    case Normal => if pressure >= cfg.high || g.shed > 0 || g.rejected > 0 then GlobalPressureHigh else NoReason
    case Critical => NoReason
    case Unclassed => NoReason
  }

  function RaiseReason(c: Class): Reason {
    match c
    case Critical => CriticalQueueWaitHigh
    case Normal => NormalQueueWaitHigh
    case Background => BackgroundQueueWaitHigh
    case BestEffort => NoReason
    case Unclassed => NoReason
  }

  /** Lower is taken first. */
  function Priority(a: Action, c: Class): nat {
    match c
    case Critical => if a == Raise then 0 else 99
    case Normal => if a == Raise then 1 else 2
    case Background => if a == Raise then 2 else 1
    case BestEffort => if a == Raise then 99 else 0
    case Unclassed => 99
  }

  predicate WaitHigh(g: Signal, lane: Lane, cfg: Config) {
    var wait := if g.waitMax == 0 then g.waitAvg else g.waitMax;
    (lane.targetWait > 0 && wait >= lane.targetWait) || (cfg.waitHigh > 0 && wait >= cfg.waitHigh)
  }

  function Idle(cfg: Config, lane: Lane, pressure: real): Reason {
    if cfg.low < pressure < cfg.high then NeutralPressure
    else if pressure >= cfg.high then (if lane.mayLower then GlobalPressureHigh else DecreaseDisabled)
    else if pressure <= cfg.low && !lane.mayRaise then IncreaseDisabled
    else NoReason
  }

  function WantUp(cfg: Config, lane: Lane, g: Signal, pressure: real): Want {
    if cfg.mayRaise && lane.mayRaise && pressure <= cfg.low then
      if g.full > 0 then Keep(QueueFull)
      else if g.quota >= lane.max then Keep(AtMaxBound)
      else if g.runMax > cfg.runHigh > 0 then Keep(RunTimeTooHigh)
      else if !WaitHigh(g, lane, cfg) then Keep(NeutralPressure)
      else if RaiseReason(lane.class_) != NoReason then Go(Raise, RaiseReason(lane.class_))
      else Keep(Idle(cfg, lane, pressure))
    else Keep(Idle(cfg, lane, pressure))
  }

  function Wanted(cfg: Config, lane: Lane, g: Signal, pressure: real, warm: bool, cooling: bool): Want {
    var local := LocallyOverloaded(lane.class_, g);
    if !lane.enabled then Keep(IncreaseDisabled)
    else if warm then Keep(WarmupActive)
    else if cooling then Keep(CooldownActive)
    else if g.waitSamples < 1 && pressure < cfg.high && !local then Keep(InsufficientSamples)
    else if cfg.mayLower && lane.mayLower && (pressure >= cfg.high || local) then
      if g.quota <= lane.min then Keep(AtMinBound)
      else
        var reason := LowerReason(lane.class_, g, pressure, cfg);
        if reason != NoReason then Go(Lower, reason) else WantUp(cfg, lane, g, pressure)
    else WantUp(cfg, lane, g, pressure)
  }

  // ---- Applying a candidate --------------------------------------------------------------------

  function Clamp(q: int): int {
    if q < 1 then 1 else if q > MAX_LANE_QUOTA then MAX_LANE_QUOTA else q
  }

  function Moved(cfg: Config, lane: Lane, q: int, a: Action): int {
    match a
    case Hold => Clamp(q)
    case Raise => Clamp(if q + cfg.up > lane.max then lane.max else q + cfg.up)
    case Lower => Clamp(if q - cfg.down < lane.min then lane.min else q - cfg.down)
  }

  /** Validated settings: steps move, and every lane's range is non-empty and publishable. */
  predicate Sane(cfg: Config, lanes: seq<Lane>) {
    && cfg.up >= 1 && cfg.down >= 1 && cfg.low < cfg.high
    && forall i :: 0 <= i < |lanes| ==> 1 <= lanes[i].min <= lanes[i].max <= MAX_LANE_QUOTA
  }

  predicate InRange(lane: Lane, q: int) {
    lane.min <= q <= lane.max
  }

  /** A tick's inputs. */
  datatype Input = Input(
    cfg: Config, lanes: seq<Lane>, signals: seq<Signal>, pressure: real,
    startedAt: int, last: map<nat, int>, now: int)

  predicate WellFormed(x: Input) {
    |x.lanes| == |x.signals|
  }

  predicate Cooling(x: Input, i: nat) {
    i in x.last && x.now - x.last[i] < x.cfg.cooldown
  }

  function WantOf(x: Input, i: nat): Want
    requires WellFormed(x) && i < |x.lanes|
  {
    Wanted(x.cfg, x.lanes[i], x.signals[i], x.pressure,
           x.cfg.warmup > 0 && x.now - x.startedAt < x.cfg.warmup, Cooling(x, i))
  }

  predicate Wants(x: Input, i: nat, a: Action)
    requires WellFormed(x) && i < |x.lanes|
  {
    WantOf(x, i).Go? && WantOf(x, i).action == a
  }

  function Candidates(x: Input, a: Action): set<nat>
    requires WellFormed(x)
  {
    set i: nat | i < |x.lanes| && Wants(x, i, a)
  }

  function Chosen(ds: seq<Decision>, a: Action): set<nat> {
    set i: nat | i < |ds| && ds[i].action == a
  }

  function Budget(cfg: Config): nat {
    if cfg.maxAdjustments < 1 then 1 else cfg.maxAdjustments
  }

  function Held(x: Input, i: nat): Decision
    requires WellFormed(x) && i < |x.lanes|
  {
    Decision(Hold, if WantOf(x, i).Keep? then WantOf(x, i).reason else NoReason, x.signals[i].quota, x.signals[i].quota)
  }

  function Applied(x: Input, i: nat, a: Action): Decision
    requires WellFormed(x) && i < |x.lanes| && Wants(x, i, a)
  {
    Decision(a, WantOf(x, i).reason, x.signals[i].quota, Moved(x.cfg, x.lanes[i], x.signals[i].quota, a))
  }

  /** The lanes acting as `a` are candidates for it, and no candidate left out had a better priority. */
  predicate BestOf(x: Input, ds: seq<Decision>, a: Action)
    requires WellFormed(x) && |ds| == |x.lanes|
  {
    && Chosen(ds, a) <= Candidates(x, a)
    && forall i, j :: i in Chosen(ds, a) && j in Candidates(x, a) && j !in Chosen(ds, a) ==>
         Priority(a, x.lanes[i].class_) <= Priority(a, x.lanes[j].class_)
  }

  predicate Justified(x: Input, d: Decision, i: nat)
    requires WellFormed(x) && i < |x.lanes|
  {
    d == Held(x, i) || (d.action != Hold && Wants(x, i, d.action) && d == Applied(x, i, d.action))
  }

  /**
   * What an evaluation promises: the budget is spent on lowering first and on raising only with
   * what is left, in each case on the best-placed candidates; every other lane holds.
   */
  predicate Outcome(x: Input, ds: seq<Decision>)
    requires WellFormed(x)
  {
    && |ds| == |x.lanes|
    && (forall i :: 0 <= i < |ds| ==> Justified(x, ds[i], i))
    && BestOf(x, ds, Lower) && BestOf(x, ds, Raise)
    && |Chosen(ds, Lower)| == Min(Budget(x.cfg), |Candidates(x, Lower)|)
    && |Chosen(ds, Raise)| == Min(Budget(x.cfg) - |Chosen(ds, Lower)|, |Candidates(x, Raise)|)
  }

  /** Partway through taking candidates for `a`, with `rest` still to consider. */
  ghost predicate Taking(x: Input, before: seq<Decision>, ds: seq<Decision>, a: Action, rest: set<nat>)
    requires WellFormed(x) && |before| == |x.lanes|
  {
    && |ds| == |x.lanes| && rest <= Candidates(x, a)
    && (forall i :: 0 <= i < |ds| ==> Justified(x, ds[i], i))
    && (forall i :: 0 <= i < |ds| && !Wants(x, i, a) ==> ds[i] == before[i])
    && Chosen(ds, a) == Candidates(x, a) - rest
  }

  ghost predicate Ordered(x: Input, a: Action, rest: set<nat>)
    requires WellFormed(x) && rest <= Candidates(x, a)
  {
    forall i, j :: i in Candidates(x, a) && i !in rest && j in rest ==>
      Priority(a, x.lanes[i].class_) <= Priority(a, x.lanes[j].class_)
  }

  lemma TakingStep(x: Input, before: seq<Decision>, ds: seq<Decision>, a: Action, rest: set<nat>, c: nat)
    requires WellFormed(x) && |before| == |x.lanes| && a != Hold && Taking(x, before, ds, a, rest) && c in rest
    ensures Taking(x, before, ds[c := Applied(x, c, a)], a, rest - {c})
    ensures |Chosen(ds[c := Applied(x, c, a)], a)| == |Chosen(ds, a)| + 1
  {
    assert c in Candidates(x, a) && c !in Chosen(ds, a);
    var next := ds[c := Applied(x, c, a)];
    assert Chosen(next, a) == Chosen(ds, a) + {c};
    assert Candidates(x, a) - (rest - {c}) == (Candidates(x, a) - rest) + {c};
    forall i | 0 <= i < |next| ensures Justified(x, next[i], i) {
      assert Justified(x, ds[i], i);
    }
  }

  /** Takes up to `room` candidates in order of priority; ties may fall either way. */
  method Take(x: Input, before: seq<Decision>, a: Action, room: nat) returns (ds: seq<Decision>)
    requires WellFormed(x) && |before| == |x.lanes| && a != Hold
    requires forall i :: 0 <= i < |before| ==> Justified(x, before[i], i)
    requires Chosen(before, a) == {}
    ensures |ds| == |x.lanes| && forall i :: 0 <= i < |ds| ==> Justified(x, ds[i], i)
    ensures BestOf(x, ds, a)
    ensures |Chosen(ds, a)| == Min(room, |Candidates(x, a)|)
    ensures forall i :: 0 <= i < |ds| && !Wants(x, i, a) ==> ds[i] == before[i]
  {
    ds := before;
    var rest := Candidates(x, a);
    var used := 0;
    assert Chosen(ds, a) == Candidates(x, a) - rest;
    while used < room && rest != {}
      invariant Taking(x, before, ds, a, rest) && Ordered(x, a, rest)
      invariant |Chosen(ds, a)| == used <= room
      decreases rest
    {
      var c := Best(x, rest, a);
      TakingStep(x, before, ds, a, rest, c);
      ds := ds[c := Applied(x, c, a)];
      used := used + 1;
      rest := rest - {c};
    }
    if rest == {} {
      assert Chosen(ds, a) == Candidates(x, a);
    } else {
      SubsetSize(Chosen(ds, a), Candidates(x, a));
    }
  }

  /** Some candidate of least priority. */
  method Best(x: Input, rest: set<nat>, a: Action) returns (c: nat)
    requires WellFormed(x) && rest != {} && forall i :: i in rest ==> i < |x.lanes|
    ensures c in rest
    ensures forall j :: j in rest ==> Priority(a, x.lanes[c].class_) <= Priority(a, x.lanes[j].class_)
  {
    c :| c in rest;
    var todo := rest - {c};
    while todo != {}
      invariant c in rest && todo <= rest
      invariant forall j :: j in rest && j !in todo ==> Priority(a, x.lanes[c].class_) <= Priority(a, x.lanes[j].class_)
      decreases todo
    {
      var j :| j in todo;
      if Priority(a, x.lanes[j].class_) < Priority(a, x.lanes[c].class_) {
        c := j;
      }
      todo := todo - {j};
    }
  }

  /** One evaluation tick; a disabled controller decides nothing. */
  method Evaluate(x: Input) returns (ds: seq<Decision>)
    requires WellFormed(x)
    ensures !x.cfg.enabled || x.lanes == [] ==> ds == []
    ensures x.cfg.enabled && x.lanes != [] ==> Outcome(x, ds)
  {
    if !x.cfg.enabled || |x.signals| == 0 {
      return [];
    }
    ds := [];
    var i := 0;
    while i < |x.lanes|
      invariant 0 <= i <= |x.lanes| && |ds| == i
      invariant forall j :: 0 <= j < i ==> ds[j] == Held(x, j)
    {
      ds := ds + [Held(x, i)];
      i := i + 1;
    }
    ds := Take(x, ds, Lower, Budget(x.cfg));
    ghost var lowered := ds;
    var used := |Chosen(ds, Lower)|;
    assert Chosen(ds, Raise) == {};
    ds := Take(x, ds, Raise, Budget(x.cfg) - used);
    assert Chosen(ds, Lower) == Chosen(lowered, Lower);
  }

  // ---- What follows from an outcome ------------------------------------------------------------

  /**
   * Why a lane moves at all: it is raised only when the queue as a whole is calm, it waits too long
   * and never because it is best effort; it is lowered only under high pressure or, for background
   * and best-effort lanes, its own overload, and never because it is critical.
   */
  lemma WhyLanesMove(x: Input, i: nat, a: Action)
    requires WellFormed(x) && i < |x.lanes| && Wants(x, i, a)
    ensures a == Raise || a == Lower
    ensures x.lanes[i].enabled && !Cooling(x, i) && !(x.cfg.warmup > 0 && x.now - x.startedAt < x.cfg.warmup)
    ensures a == Raise ==>
      && x.pressure <= x.cfg.low && x.signals[i].full == 0 && WaitHigh(x.signals[i], x.lanes[i], x.cfg)
      && x.cfg.mayRaise && x.lanes[i].mayRaise && x.lanes[i].class_ != BestEffort
    ensures a == Lower ==>
      && (x.pressure >= x.cfg.high || LocallyOverloaded(x.lanes[i].class_, x.signals[i]))
      && x.cfg.mayLower && x.lanes[i].mayLower && x.lanes[i].class_ != Critical
      && (x.lanes[i].class_ == Normal ==> x.pressure >= x.cfg.high)
  {
  }

  // ---- When a lane must move, and by how much ----------------------------------------------------

  /** The lane takes part in this tick: enabled, warmed up, and not cooling down. */
  predicate TakesPart(x: Input, i: nat)
    requires WellFormed(x) && i < |x.lanes|
  {
    && x.lanes[i].enabled
    && (x.cfg.warmup <= 0 || x.now - x.startedAt >= x.cfg.warmup)
    && (i in x.last ==> x.now - x.last[i] >= x.cfg.cooldown)
  }

  /** A lane is lowered if and only if it takes part, may be lowered and has room, and either pressure is
      high and its class is not exempt, or it is a background or best-effort lane with overload of its own. */
  lemma LowersExactly(x: Input, i: nat)
    requires WellFormed(x) && i < |x.lanes|
    ensures var c, g := x.lanes[i].class_, x.signals[i];
      var own := g.shed > 0 || g.rejected > 0 || g.degraded > 0;
      Wants(x, i, Lower) <==>
        && TakesPart(x, i) && x.cfg.mayLower && x.lanes[i].mayLower && g.quota > x.lanes[i].min
        && (|| (x.pressure >= x.cfg.high && (c == Normal || c == Background || c == BestEffort))
            || (own && (c == Background || c == BestEffort)))
  {
  }

  /** A lane is raised if and only if it takes part, may be raised and has room, pressure is low, it has
      samples of waiting too long (or overload of its own that may not lower it), no full queue and no
      overlong run, and its class is one that is raised. */
  lemma RaisesExactly(x: Input, i: nat)
    requires WellFormed(x) && i < |x.lanes| && x.cfg.low < x.cfg.high
    ensures var c, g, cfg := x.lanes[i].class_, x.signals[i], x.cfg;
      var own := (g.shed > 0 || g.rejected > 0 || g.degraded > 0) && (c == Background || c == BestEffort);
      var wait := if g.waitMax == 0 then g.waitAvg else g.waitMax;
      Wants(x, i, Raise) <==>
        && TakesPart(x, i) && cfg.mayRaise && x.lanes[i].mayRaise && g.quota < x.lanes[i].max
        && x.pressure <= cfg.low && (g.waitSamples >= 1 || own) && !(own && cfg.mayLower && x.lanes[i].mayLower)
        && g.full == 0 && !(0 < cfg.runHigh < g.runMax)
        && (0 < x.lanes[i].targetWait <= wait || 0 < cfg.waitHigh <= wait)
        && (c == Critical || c == Normal || c == Background)
  {
  }

  /** The reason given names the class. */
  lemma ReasonsByClass(x: Input, i: nat, a: Action)
    requires WellFormed(x) && i < |x.lanes| && Wants(x, i, a)
    ensures var c, why := x.lanes[i].class_, WantOf(x, i).reason;
      why == if a == Raise
             then (if c == Critical then CriticalQueueWaitHigh else if c == Normal then NormalQueueWaitHigh
                   else BackgroundQueueWaitHigh)
             else (if c == Normal then GlobalPressureHigh else if c == Background then BackgroundPressureHigh
                   else BestEffortPressureHigh)
  {
  }

  /** Why a lane that does not move holds: the first of these that applies, in this order. */
  lemma HoldReasons(x: Input, i: nat)
    requires WellFormed(x) && i < |x.lanes| && WantOf(x, i).Keep? && x.cfg.low < x.cfg.high
    ensures var lane, g, cfg, why := x.lanes[i], x.signals[i], x.cfg, WantOf(x, i).reason;
      var warm := cfg.warmup > 0 && x.now - x.startedAt < cfg.warmup;
      var cooling := i in x.last && x.now - x.last[i] < cfg.cooldown;
      var own := (g.shed > 0 || g.rejected > 0 || g.degraded > 0)
                 && (lane.class_ == Background || lane.class_ == BestEffort);
      var blind := g.waitSamples < 1 && x.pressure < cfg.high && !own;
      var lowering := cfg.mayLower && lane.mayLower && (x.pressure >= cfg.high || own);
      var raising := cfg.mayRaise && lane.mayRaise && x.pressure <= cfg.low;
      var awake := lane.enabled && !warm && !cooling && !blind;
      && (!lane.enabled ==> why == IncreaseDisabled)
      && (lane.enabled && warm ==> why == WarmupActive)
      && (lane.enabled && !warm && cooling ==> why == CooldownActive)
      && (lane.enabled && !warm && !cooling && blind ==> why == InsufficientSamples)
      && (awake && lowering && g.quota <= lane.min ==> why == AtMinBound)
      && (awake && !(lowering && g.quota <= lane.min) && raising ==>
            if g.full > 0 then why == QueueFull
            else if g.quota >= lane.max then why == AtMaxBound
            else if 0 < cfg.runHigh < g.runMax then why == RunTimeTooHigh
            else why == NeutralPressure || (why == NoReason && lane.class_ != Critical && lane.class_ != Normal))
      && (awake && !(lowering && g.quota <= lane.min) && !raising ==>
            if cfg.low < x.pressure < cfg.high then why == NeutralPressure
            else if x.pressure >= cfg.high then why == (if lane.mayLower then GlobalPressureHigh else DecreaseDisabled)
            else why == (if lane.mayRaise then NoReason else IncreaseDisabled))
  {
  }

  /** Each decision says so: a lane that holds gives its reason, or none if it only lacked the budget, and
      keeps its quota; a lane that moves gives the reason it wanted to. */
  lemma DecisionsSayWhy(x: Input, ds: seq<Decision>, i: nat)
    requires WellFormed(x) && Outcome(x, ds) && i < |ds|
    ensures ds[i].old_ == x.signals[i].quota
    ensures ds[i].action == Hold && WantOf(x, i).Keep? ==> ds[i].reason == WantOf(x, i).reason
    ensures ds[i].action == Hold && WantOf(x, i).Go? ==> ds[i].reason == NoReason
    ensures ds[i].action == Hold ==> ds[i].new_ == ds[i].old_
    ensures ds[i].action != Hold ==> WantOf(x, i) == Go(ds[i].action, ds[i].reason)
  {
    assert Justified(x, ds[i], i);
  }

  /** By how much: one step, cut at the lane's own bound. */
  lemma MovesOneStep(x: Input, ds: seq<Decision>, i: nat)
    requires WellFormed(x) && Sane(x.cfg, x.lanes) && Outcome(x, ds) && i < |ds|
    requires 1 <= x.signals[i].quota <= MAX_LANE_QUOTA
    ensures var lane, q := x.lanes[i], x.signals[i].quota;
      && (ds[i].action == Hold ==> ds[i].new_ == q)
      && (ds[i].action == Raise ==> ds[i].new_ == if q + x.cfg.up <= lane.max then q + x.cfg.up else lane.max)
      && (ds[i].action == Lower ==> ds[i].new_ == if q - x.cfg.down >= lane.min then q - x.cfg.down else lane.min)
  {
    assert Justified(x, ds[i], i);
  }

  /** Who goes first: best effort is lowered before background and background before normal; critical is
      raised before normal and normal before background. */
  lemma ClassesInOrder(x: Input, ds: seq<Decision>, i: nat, j: nat)
    requires WellFormed(x) && Outcome(x, ds) && i < |ds| && j < |ds|
    ensures ds[i].action == Lower && Wants(x, j, Lower) && ds[j].action != Lower ==>
      && (x.lanes[i].class_ == Normal ==> x.lanes[j].class_ == Normal)
      && (x.lanes[i].class_ == Background ==> x.lanes[j].class_ != BestEffort)
    ensures ds[i].action == Raise && Wants(x, j, Raise) && ds[j].action != Raise ==>
      && (x.lanes[i].class_ == Background ==> x.lanes[j].class_ == Background)
      && (x.lanes[i].class_ == Normal ==> x.lanes[j].class_ != Critical)
  {
    assert Justified(x, ds[i], i) && Justified(x, ds[j], j);
    if ds[i].action == Lower && Wants(x, j, Lower) && ds[j].action != Lower {
      assert i in Chosen(ds, Lower) && j in Candidates(x, Lower) && j !in Chosen(ds, Lower);
    }
    if ds[i].action == Raise && Wants(x, j, Raise) && ds[j].action != Raise {
      assert i in Chosen(ds, Raise) && j in Candidates(x, Raise) && j !in Chosen(ds, Raise);
    }
  }

  /** A tick makes as many changes as are wanted, up to its budget, which is one at least. */
  lemma UsesBudget(x: Input, ds: seq<Decision>)
    requires WellFormed(x) && Outcome(x, ds)
    ensures |Chosen(ds, Lower)| + |Chosen(ds, Raise)|
      == Min(if x.cfg.maxAdjustments < 1 then 1 else x.cfg.maxAdjustments,
             |Candidates(x, Lower)| + |Candidates(x, Raise)|)
  {
  }

  /** A tick that both raises and lowers does so because of overload of the lowered lanes alone. */
  lemma MixedTicksAreLocal(x: Input, ds: seq<Decision>, i: nat, j: nat)
    requires WellFormed(x) && Sane(x.cfg, x.lanes) && Outcome(x, ds) && i < |ds| && j < |ds|
    requires ds[i].action == Raise && ds[j].action == Lower
    ensures LocallyOverloaded(x.lanes[j].class_, x.signals[j]) && x.pressure <= x.cfg.low
  {
    assert Justified(x, ds[i], i) && Justified(x, ds[j], j);
    WhyLanesMove(x, i, Raise);
    WhyLanesMove(x, j, Lower);
  }

  /** Nothing is raised while some lane that should be lowered was not. */
  lemma RaisesComeLast(x: Input, ds: seq<Decision>, i: nat)
    requires WellFormed(x) && Outcome(x, ds) && i < |ds| && ds[i].action == Raise
    ensures Chosen(ds, Lower) == Candidates(x, Lower)
  {
    assert i in Chosen(ds, Raise);
    var gap := Candidates(x, Lower) - Chosen(ds, Lower);
    assert Candidates(x, Lower) == Chosen(ds, Lower) + gap;
    assert |gap| == 0;
  }

  /** A tick never decides on more changes than its budget. */
  lemma WithinBudget(x: Input, ds: seq<Decision>)
    requires WellFormed(x) && Outcome(x, ds)
    ensures |Chosen(ds, Lower)| + |Chosen(ds, Raise)| <= Budget(x.cfg)
  {
  }

  /**
   * A decided change moves the quota the way it says, by at least one and at most a step; a quota
   * inside its lane's range stays inside, and one outside moves towards it.
   */
  lemma ChangeIsSafe(x: Input, ds: seq<Decision>, i: nat)
    requires WellFormed(x) && Sane(x.cfg, x.lanes) && Outcome(x, ds) && i < |ds| && ds[i].action != Hold
    requires 1 <= x.signals[i].quota
    ensures InRange(x.lanes[i], ds[i].old_) ==> InRange(x.lanes[i], ds[i].new_) && Sized(ds[i].new_)
    ensures ds[i].action == Raise ==> ds[i].old_ < ds[i].new_ <= x.lanes[i].max
    ensures ds[i].action == Lower ==> x.lanes[i].min <= ds[i].new_ < ds[i].old_
    ensures ds[i].old_ == x.signals[i].quota && !Cooling(x, i)
  {
    assert Justified(x, ds[i], i);
  }
}
