/** The adaptive controller ticking beside other quota updaters, in every interleaving. */
module AdaptiveRuns {
  import opened Adaptive
  import Q = Quotas

  /** Fixed for the controller's life. */
  datatype Setup = Setup(names: seq<string>, cfg: Config, lanes: seq<Lane>, startedAt: int)

  predicate Good(u: Setup) {
    Q.Registered(u.names) && |u.lanes| == |u.names| && Sane(u.cfg, u.lanes)
  }

  /**
   * Where the controller stands in a tick.  `version` is the quota version sampled first, `seen`
   * the version of the quotas read afterwards, `next` the decision to handle next.
   */
  datatype Ctl =
    | Resting
    | Sampled(now: int, version: nat)
    | Working(x: Input, version: nat, seen: nat, ds: seq<Decision>, next: nat)
    | Applying(x: Input, version: nat, seen: nat, ds: seq<Decision>, next: nat, base: Q.Snapshot)

  /** A change the controller got published: by which tick, at what time, as which version. */
  datatype Change = Change(lane: nat, at: int, tick: nat, version: nat)

  datatype State = State(q: Q.State, ctl: Ctl, last: map<nat, int>, clock: int, ticks: nat, changes: seq<Change>)

  datatype Step =
    | Others(step: Q.Step)
    | Tick(now: int)
    | Decide(signals: seq<Signal>, pressure: real, ds: seq<Decision>)
    | Skip
    | Read
    | Commit
    | Refused
    | Finish

  predicate Shape(u: Setup, s: State) {
    && Q.Shape(u.names, s.q)
    && (s.ctl.Working? || s.ctl.Applying? ==> s.ctl.next <= |s.ctl.ds| <= |u.names|)
    && (s.ctl.Applying? ==>
          s.ctl.next < |s.ctl.ds| && s.ctl.ds[s.ctl.next].new_ >= 0 && |s.ctl.base.quotas| == |u.names|)
  }

  function InputOf(u: Setup, s: State, signals: seq<Signal>, pressure: real): Input
    requires s.ctl.Sampled?
  {
    Input(u.cfg, u.lanes, signals, pressure, u.startedAt, s.last, s.ctl.now)
  }

  /** The decision at hand changes something. */
  predicate Active(ds: seq<Decision>, k: nat)
    requires k < |ds|
  {
    ds[k].action != Hold && ds[k].new_ != ds[k].old_
  }

  predicate Enabled(u: Setup, s: State, step: Step)
    requires Shape(u, s)
  {
    match step
    case Others(step) => Q.Enabled(u.names, s.q, step)
    case Tick(now) => s.ctl.Resting? && now >= s.clock
    case Decide(signals, pressure, ds) =>
      && s.ctl.Sampled? && |signals| == |u.lanes| == |u.names|
      && (forall i :: 0 <= i < |signals| ==> signals[i].quota == Q.Active(s.q).quotas[i])
      && if u.cfg.enabled && u.lanes != [] then Outcome(InputOf(u, s, signals, pressure), ds) else ds == []
    case Skip => s.ctl.Working? && s.ctl.next < |s.ctl.ds| && !Active(s.ctl.ds, s.ctl.next)
    case Read =>
      s.ctl.Working? && s.ctl.next < |s.ctl.ds| && Active(s.ctl.ds, s.ctl.next) && s.ctl.ds[s.ctl.next].new_ >= 0
    case Commit => s.ctl.Applying?
    case Refused => s.ctl.Applying?
    case Finish => s.ctl.Working?
  }

  function Advance(c: Ctl): Ctl
    requires c.Working? || c.Applying?
  {
    Working(c.x, c.version, c.seen, c.ds, c.next + 1)
  }

  function Edit(u: Setup, c: Ctl): Q.Policy
    requires c.Applying? && c.next < |c.ds| <= |u.names| == |c.base.quotas| && c.ds[c.next].new_ >= 0
  {
    Q.Edited(u.names, c.base, u.names[c.next], c.ds[c.next].new_)
  }

  function Next(u: Setup, s: State, step: Step): (r: State)
    requires Shape(u, s) && Enabled(u, s, step)
    ensures Shape(u, r) && s.changes <= r.changes && s.q.log <= r.q.log
  {
    match step
    case Others(step) => s.(q := Q.Next(u.names, s.q, step))
    case Tick(now) => s.(ctl := Sampled(now, Q.Active(s.q).version), clock := now, ticks := s.ticks + 1)
    case Decide(signals, pressure, ds) =>
      s.(ctl := Working(InputOf(u, s, signals, pressure), s.ctl.version, Q.Active(s.q).version, ds, 0))
    case Skip => s.(ctl := Advance(s.ctl))
    case Read =>
      var c := Applying(s.ctl.x, s.ctl.version, s.ctl.seen, s.ctl.ds, s.ctl.next, Q.Active(s.q));
      s.(ctl := if Q.Acceptable(u.names, Edit(u, c)) then c else Advance(s.ctl))
    case Commit =>
      var c := s.ctl;
      var done := s.(ctl := Advance(c));
      if Q.Active(s.q).version != c.version then done
      else
        done.(q := Q.Published(s.q, c.base.fallback, Q.Filled(u.names, Edit(u, c)), AuthorOf(u, c)),
              last := s.last[c.next := c.x.now],
              changes := s.changes + [Change(c.next, c.x.now, s.ticks, c.version + 1)])
    case Refused => s.(ctl := Advance(s.ctl))
    case Finish => s.(ctl := Resting)
  }

  ghost predicate Legal(u: Setup, s: State, steps: seq<Step>)
    requires Shape(u, s)
    decreases |steps|
  {
    steps != [] ==> Enabled(u, s, steps[0]) && Legal(u, Next(u, s, steps[0]), steps[1..])
  }

  ghost function Run(u: Setup, s: State, steps: seq<Step>): (r: State)
    requires Shape(u, s) && Legal(u, s, steps)
    ensures Shape(u, r)
    decreases |steps|
  {
    if steps == [] then s else Run(u, Next(u, s, steps[0]), steps[1..])
  }

  predicate Initial(u: Setup, s: State) {
    Shape(u, s) && Q.Initial(u.names, s.q) && s.ctl.Resting? && s.last == map[] && s.changes == []
  }

  // ---- Invariants ------------------------------------------------------------------------------

  /** The tick's samples are genuine and no newer than what is active now. */
  ghost predicate Honest(u: Setup, s: State)
    requires Shape(u, s)
  {
    var top := Q.Active(s.q).version;
    match s.ctl
    case Resting => true
    case Sampled(now, version) => version <= top && now == s.clock
    case Working(x, version, seen, ds, next) =>
      version <= seen <= top && x.now == s.clock && Reasoned(u, s, x, seen, ds, next)
    case Applying(x, version, seen, ds, next, base) =>
      && version <= seen <= base.version <= top && x.now == s.clock && Reasoned(u, s, x, seen, ds, next)
      && base.version < |s.q.log| && s.q.log[base.version].snap == base && Active(ds, next)
      && Q.Acceptable(u.names, Edit(u, s.ctl))
  }

  /** The decisions answer an input taken from a published snapshot; lanes ahead are untouched since. */
  ghost predicate Reasoned(u: Setup, s: State, x: Input, seen: nat, ds: seq<Decision>, next: nat)
    requires Shape(u, s)
  {
    && WellFormed(x) && x.cfg == u.cfg && x.lanes == u.lanes && seen < |s.q.log|
    && (ds == [] || Outcome(x, ds))
    && |x.signals| == |u.names|
    && (forall i :: 0 <= i < |u.names| ==> x.signals[i].quota == s.q.log[seen].snap.quotas[i])
    && (forall i :: i in s.last && i >= next ==> i in x.last && x.last[i] == s.last[i])
  }

  /** Every change is remembered, and no tick in progress can still publish once it has. */
  ghost predicate Remembered(s: State)
    requires s.q.log != []
  {
    forall j :: 0 <= j < |s.changes| ==>
      && s.changes[j].lane in s.last && s.changes[j].at <= s.last[s.changes[j].lane] <= s.clock
      && s.changes[j].tick <= s.ticks && s.changes[j].version <= Q.Active(s.q).version
      && (s.changes[j].tick == s.ticks && !s.ctl.Resting? ==>
            !s.ctl.Sampled? && s.ctl.version < Q.Active(s.q).version)
  }

  /** Two changes never belong to one tick, and those to one lane are a cooldown apart. */
  ghost predicate Spaced(u: Setup, s: State) {
    forall j, k :: 0 <= j < k < |s.changes| ==>
      && s.changes[j].tick < s.changes[k].tick
      && (s.changes[j].lane == s.changes[k].lane ==> s.changes[k].at - s.changes[j].at >= u.cfg.cooldown)
  }

  /** A change alters one lane of the copy of its predecessor, and keeps that lane's quota in range. */
  ghost predicate Proper(u: Setup, log: seq<Q.Entry>, c: Change) {
    && 0 < c.version < |log| && c.lane < |u.names| == |u.lanes|
    && |log[c.version].snap.quotas| == |log[c.version - 1].snap.quotas| == |u.names|
    && Q.OneLane(u.names, Q.Cut(log[c.version - 1].snap), log[c.version].snap,
                 u.names[c.lane], log[c.version].snap.quotas[c.lane])
    && (InRange(u.lanes[c.lane], log[c.version - 1].snap.quotas[c.lane]) ==>
          InRange(u.lanes[c.lane], log[c.version].snap.quotas[c.lane]))
  }

  ghost predicate AllProper(u: Setup, s: State) {
    forall j :: 0 <= j < |s.changes| ==> Proper(u, s.q.log, s.changes[j])
  }

  ghost predicate Law(u: Setup, s: State) {
    && Shape(u, s) && Q.Consistent(u.names, s.q) && Q.Tight(u.names, s.q) && Honest(u, s)
    && Remembered(s) && Spaced(u, s) && AllProper(u, s)
  }

  lemma ReasonedGrows(u: Setup, s: State, r: State, x: Input, seen: nat, ds: seq<Decision>, next: nat, later: nat)
    requires Shape(u, s) && Shape(u, r) && Reasoned(u, s, x, seen, ds, next) && next <= later
    requires s.q.log <= r.q.log
    requires forall i :: i in r.last && i >= later ==> i in s.last && s.last[i] == r.last[i]
    ensures Reasoned(u, r, x, seen, ds, later)
  {
  }

  /** Steps by which nothing is published and no change recorded. */
  predicate Quiet(step: Step) {
    !step.Others? && !step.Commit?
  }

  lemma QuietStep(u: Setup, s: State, step: Step)
    requires Good(u) && Law(u, s) && Enabled(u, s, step) && Quiet(step)
    ensures Law(u, Next(u, s, step))
  {
    QuietHonest(u, s, step);
    QuietChanges(u, s, step);
  }

  lemma QuietHonest(u: Setup, s: State, step: Step)
    requires Good(u) && Law(u, s) && Enabled(u, s, step) && Quiet(step)
    ensures Shape(u, Next(u, s, step)) && Honest(u, Next(u, s, step))
  {
    var r := Next(u, s, step);
    if step.Skip? || step.Read? || step.Refused? {
      ReasonedGrows(u, s, r, s.ctl.x, s.ctl.seen, s.ctl.ds, s.ctl.next, r.ctl.next);
    }
  }

  lemma QuietChanges(u: Setup, s: State, step: Step)
    requires Good(u) && Law(u, s) && Enabled(u, s, step) && Quiet(step)
    ensures var r := Next(u, s, step);
            r.q == s.q && Remembered(r) && Spaced(u, r) && AllProper(u, r)
  {
  }

  lemma OthersStep(u: Setup, s: State, step: Q.Step)
    requires Good(u) && Law(u, s) && Q.Enabled(u.names, s.q, step)
    ensures Law(u, Next(u, s, Others(step)))
  {
    var r := Next(u, s, Others(step));
    Q.ConsistentStep(u.names, s.q, step);
    Q.TightStep(u.names, s.q, step);
    assert Q.Active(s.q).version <= Q.Active(r.q).version;
    if s.ctl.Working? || s.ctl.Applying? {
      ReasonedGrows(u, s, r, s.ctl.x, s.ctl.seen, s.ctl.ds, s.ctl.next, s.ctl.next);
    }
    forall j | 0 <= j < |r.changes| ensures Proper(u, r.q.log, r.changes[j]) {
      assert Proper(u, s.q.log, s.changes[j]);
    }
  }

  predicate Lands(s: State)
    requires s.q.log != []
  {
    s.ctl.Applying? && Q.Active(s.q).version == s.ctl.version
  }

  /** A landing commit edits the very snapshot its decision was made on. */
  lemma CommitBase(u: Setup, s: State)
    requires Good(u) && Law(u, s) && Lands(s)
    ensures s.ctl.seen == s.ctl.base.version == |s.q.log| - 1 && s.ctl.base == Q.Active(s.q)
  {
  }

  lemma CommitConsistent(u: Setup, s: State)
    requires Good(u) && Law(u, s) && Lands(s)
    ensures Q.Consistent(u.names, Next(u, s, Commit).q)
  {
    var r := Next(u, s, Commit);
    CommitBase(u, s);
    var c := s.ctl;
    Q.EditTouchesOneLane(u.names, c.base, u.names[c.next], c.ds[c.next].new_, c.version + 1);
    forall k | 0 <= k < |r.q.log| ensures Q.Derived(u.names, r.q.log, k) {
      if k < |s.q.log| {
        Q.DerivedGrows(u.names, s.q.log, r.q.log, k);
      }
    }
  }

  lemma ProperGrows(u: Setup, log: seq<Q.Entry>, more: seq<Q.Entry>, c: Change)
    requires log <= more && Proper(u, log, c)
    ensures Proper(u, more, c)
  {
  }

  function ChangeOf(s: State): Change
    requires s.ctl.Applying?
  {
    Change(s.ctl.next, s.ctl.x.now, s.ticks, s.ctl.version + 1)
  }

  lemma CommitInRange(u: Setup, s: State)
    requires Good(u) && Law(u, s) && Lands(s) && InRange(u.lanes[s.ctl.next], s.ctl.base.quotas[s.ctl.next])
    ensures InRange(u.lanes[s.ctl.next], s.ctl.ds[s.ctl.next].new_)
  {
    CommitBase(u, s);
    ChangeIsSafe(s.ctl.x, s.ctl.ds, s.ctl.next);
  }

  lemma CommitNew(u: Setup, s: State)
    requires Good(u) && Law(u, s) && Lands(s)
    ensures Proper(u, Next(u, s, Commit).q.log, ChangeOf(s))
  {
    var log, c := Next(u, s, Commit).q.log, s.ctl;
    CommitLogs(u, s);
    if InRange(u.lanes[c.next], c.base.quotas[c.next]) {
      CommitInRange(u, s);
    }
  }

  /** What a landing commit appends, and to what. */
  lemma CommitLogs(u: Setup, s: State)
    requires Good(u) && Law(u, s) && Lands(s)
    ensures var log, c := Next(u, s, Commit).q.log, s.ctl;
      && |log| == c.version + 2 && log[c.version].snap == c.base
      && Q.OneLane(u.names, Q.Cut(c.base), log[c.version + 1].snap, u.names[c.next], c.ds[c.next].new_)
  {
    CommitBase(u, s);
    CommitPublishes(u, s);
    Q.EditTouchesOneLane(u.names, s.ctl.base, u.names[s.ctl.next], s.ctl.ds[s.ctl.next].new_, s.ctl.version + 1);
  }

  function AuthorOf(u: Setup, c: Ctl): Q.Author
    requires c.Applying? && c.next < |c.ds| <= |u.names| && c.ds[c.next].new_ >= 0
  {
    Q.Author.Lane(u.names[c.next], c.ds[c.next].new_, c.version, c.base.version)
  }

  lemma CommitPublishes(u: Setup, s: State)
    requires Shape(u, s) && Lands(s)
    ensures Next(u, s, Commit).q ==
      Q.Published(s.q, s.ctl.base.fallback, Q.Filled(u.names, Edit(u, s.ctl)), AuthorOf(u, s.ctl))
  {
  }

  lemma CommitTight(u: Setup, s: State)
    requires Good(u) && Law(u, s) && Lands(s)
    ensures Q.Tight(u.names, Next(u, s, Commit).q)
  {
    CommitPublishes(u, s);
    Q.PublishedIsTight(u.names, s.q, s.ctl.base.fallback, Edit(u, s.ctl), AuthorOf(u, s.ctl));
  }

  lemma CommitProper(u: Setup, s: State)
    requires Good(u) && Law(u, s) && Lands(s)
    ensures AllProper(u, Next(u, s, Commit))
  {
    var r := Next(u, s, Commit);
    forall j | 0 <= j < |r.changes| ensures Proper(u, r.q.log, r.changes[j]) {
      if j < |s.changes| {
        ProperGrows(u, s.q.log, r.q.log, s.changes[j]);
      } else {
        CommitNew(u, s);
      }
    }
  }

  /** The lane about to change is not cooling down. */
  lemma CommitRested(u: Setup, s: State)
    requires Good(u) && Law(u, s) && Lands(s)
    ensures s.ctl.next in s.last ==> s.ctl.x.now - s.last[s.ctl.next] >= u.cfg.cooldown
  {
    assert Justified(s.ctl.x, s.ctl.ds[s.ctl.next], s.ctl.next);
    assert !Cooling(s.ctl.x, s.ctl.next);
  }

  lemma CommitSpaced(u: Setup, s: State)
    requires Good(u) && Law(u, s) && Lands(s)
    ensures Spaced(u, Next(u, s, Commit))
  {
    var r := Next(u, s, Commit);
    assert r.changes == s.changes + [ChangeOf(s)];
    CommitRested(u, s);
    forall j, k | 0 <= j < k < |r.changes|
      ensures r.changes[j].tick < r.changes[k].tick
      ensures r.changes[j].lane == r.changes[k].lane ==> r.changes[k].at - r.changes[j].at >= u.cfg.cooldown
    {
      assert r.changes[j] == s.changes[j];
    }
  }

  lemma CommitRemembered(u: Setup, s: State)
    requires Good(u) && Law(u, s) && Lands(s)
    ensures Remembered(Next(u, s, Commit))
  {
    var r := Next(u, s, Commit);
    assert r.changes == s.changes + [ChangeOf(s)];
    assert Q.Active(r.q).version == Q.Active(s.q).version + 1;
  }

  lemma CommitStep(u: Setup, s: State)
    requires Good(u) && Law(u, s) && s.ctl.Applying?
    ensures Law(u, Next(u, s, Commit))
  {
    var r := Next(u, s, Commit);
    ReasonedGrows(u, s, r, s.ctl.x, s.ctl.seen, s.ctl.ds, s.ctl.next, s.ctl.next + 1);
    if Lands(s) {
      CommitConsistent(u, s);
      CommitTight(u, s);
      CommitProper(u, s);
      CommitSpaced(u, s);
      CommitRemembered(u, s);
    }
  }

  lemma {:induction false} LawRun(u: Setup, s: State, steps: seq<Step>)
    requires Good(u) && Law(u, s) && Legal(u, s, steps)
    ensures Law(u, Run(u, s, steps))
    decreases |steps|
  {
    if steps != [] {
      if steps[0].Others? {
        OthersStep(u, s, steps[0].step);
      } else if steps[0].Commit? {
        CommitStep(u, s);
      } else {
        QuietStep(u, s, steps[0]);
      }
      LawRun(u, Next(u, s, steps[0]), steps[1..]);
    }
  }

  // ---- Main results ----------------------------------------------------------------------------

  /**
   * Whatever other updaters do in between, a tick publishes at most one of its decisions, and two
   * published adaptive changes to one lane are at least the cooldown apart.
   */
  lemma ChangesAreSpaced(u: Setup, s: State, steps: seq<Step>, j: nat, k: nat)
    requires Good(u) && Initial(u, s) && Legal(u, s, steps)
    requires j < k < |Run(u, s, steps).changes|
    ensures var cs := Run(u, s, steps).changes;
      && cs[j].tick != cs[k].tick
      && (cs[j].lane == cs[k].lane ==> cs[k].at - cs[j].at >= u.cfg.cooldown)
  {
    LawRun(u, s, steps);
  }

  /**
   * Every published adaptive change is its immediate predecessor with one lane changed, and a quota
   * that was inside its lane's range is still inside.  Where it is the first update after construction,
   * it changes one lane exactly if the others were configured within 32 bits.
   */
  lemma ChangesStayInRange(u: Setup, s: State, steps: seq<Step>, c: Change)
    requires Good(u) && Initial(u, s) && Legal(u, s, steps)
    requires c in Run(u, s, steps).changes
    ensures var log := Run(u, s, steps).q.log;
      && Proper(u, log, c)
      && (Q.OneLane(u.names, log[c.version - 1].snap, log[c.version].snap,
                    u.names[c.lane], log[c.version].snap.quotas[c.lane]) <==>
            c.version > 1 || Q.FitsBut(u.names, Q.Active(s.q), u.names[c.lane]))
  {
    LawRun(u, s, steps);
    var log := Run(u, s, steps).q.log;
    assert Proper(u, log, c);
    FirstEntryStays(u, s, steps);
    Q.CutOneLane(u.names, log[c.version - 1].snap, log[c.version].snap,
                 u.names[c.lane], log[c.version].snap.quotas[c.lane]);
    assert c.version > 1 ==> Q.AllSized(log[c.version - 1].snap.quotas);
  }

  lemma {:induction false} FirstEntryStays(u: Setup, s: State, steps: seq<Step>)
    requires Shape(u, s) && Legal(u, s, steps)
    ensures s.q.log <= Run(u, s, steps).q.log
    decreases |steps|
  {
    if steps != [] {
      FirstEntryStays(u, Next(u, s, steps[0]), steps[1..]);
    }
  }
}
