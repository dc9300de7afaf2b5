/** Versioned quota policies: snapshots, single-lane edits, and concurrent updaters. */
module Quotas {
  import opened Basics

  const MAX_LANE_QUOTA := 1024

  /** Lanes keep their quotas as machine integers; policies carry 32 bits. */
  const WORD := 0x1_0000_0000

  /** Lane names are fixed at construction: distinct and non-empty. */
  predicate Registered(names: seq<string>) {
    && (forall i :: 0 <= i < |names| ==> names[i] != "")
    && (forall i, j :: 0 <= i < j < |names| ==> names[i] != names[j])
  }

  datatype Policy = Policy(fallback: nat, lanes: map<string, nat>)

  datatype Snapshot = Snapshot(version: nat, fallback: nat, quotas: seq<nat>)

  predicate Sized(q: nat) {
    1 <= q <= MAX_LANE_QUOTA
  }

  /** What a policy must satisfy to be published. */
  predicate Acceptable(names: seq<string>, p: Policy) {
    Sized(p.fallback) && forall l :: l in p.lanes ==> l in names && Sized(p.lanes[l])
  }

  function QuotaFor(p: Policy, name: string): nat {
    if name in p.lanes then p.lanes[name] else p.fallback
  }

  function Filled(names: seq<string>, p: Policy): (r: seq<nat>)
    ensures |r| == |names|
  {
    seq(|names|, i requires 0 <= i < |names| => QuotaFor(p, names[i]))
  }

  /** What 32 bits keep of a quota. */
  function Word(q: nat): (r: nat)
    ensures r < WORD && (r == q <==> q < WORD)
  {
    q % WORD
  }

  /** The active quotas as a name-keyed copy, over the first `k` lanes, cut to 32 bits. */
  function Named(names: seq<string>, quotas: seq<nat>, k: nat): map<string, nat>
    requires k <= |names| == |quotas|
  {
    if k == 0 then map[] else Named(names, quotas, k - 1)[names[k - 1] := Word(quotas[k - 1])]
  }

  lemma {:induction false} NamedExactly(names: seq<string>, quotas: seq<nat>, k: nat)
    requires k <= |names| == |quotas| && Registered(names)
    ensures forall i :: 0 <= i < k ==>
              names[i] in Named(names, quotas, k) && Named(names, quotas, k)[names[i]] == Word(quotas[i])
    ensures forall l :: l in Named(names, quotas, k) ==> exists i :: 0 <= i < k && names[i] == l
  {
    if k > 0 {
      NamedExactly(names, quotas, k - 1);
    }
  }

  /** The policy a single-lane update derives from the snapshot it read. */
  function Edited(names: seq<string>, base: Snapshot, lane: string, quota: nat): Policy
    requires |names| == |base.quotas|
  {
    Policy(base.fallback, Named(names, base.quotas, |names|)[lane := quota])
  }

  /** `next` is `base` with the named lane set to `quota` and nothing else changed. */
  predicate OneLane(names: seq<string>, base: Snapshot, next: Snapshot, lane: string, quota: nat) {
    && |names| == |base.quotas| == |next.quotas|
    && next.fallback == base.fallback
    && forall i :: 0 <= i < |names| ==> next.quotas[i] == if names[i] == lane then quota else base.quotas[i]
  }

  /** A snapshot as the copy has it. */
  function Cut(base: Snapshot): (r: Snapshot)
    ensures |r.quotas| == |base.quotas| && r.version == base.version
  {
    base.(quotas := seq(|base.quotas|, i requires 0 <= i < |base.quotas| => Word(base.quotas[i])))
  }

  /** The quotas of all lanes but one fit 32 bits. */
  predicate FitsBut(names: seq<string>, base: Snapshot, lane: string) {
    |names| == |base.quotas| && forall i :: 0 <= i < |names| && names[i] != lane ==> base.quotas[i] < WORD
  }

  /** A one-lane change of what the copy holds is one of the snapshot itself exactly if the rest fits. */
  lemma CutOneLane(names: seq<string>, base: Snapshot, next: Snapshot, lane: string, quota: nat)
    requires OneLane(names, Cut(base), next, lane, quota)
    ensures OneLane(names, base, next, lane, quota) <==> FitsBut(names, base, lane)
  {
    if OneLane(names, base, next, lane, quota) {
      forall i | 0 <= i < |names| && names[i] != lane ensures base.quotas[i] < WORD {
        assert next.quotas[i] == base.quotas[i] && next.quotas[i] == Cut(base).quotas[i];
      }
    }
  }

  /**
   * Copying the snapshot out, overwriting one entry and refilling sets that lane and cuts the others to
   * 32 bits; it changes that lane alone if and only if every other lane's quota fits.
   */
  lemma EditTouchesOneLane(names: seq<string>, base: Snapshot, lane: string, quota: nat, version: nat)
    requires Registered(names) && |names| == |base.quotas|
    ensures var next := Snapshot(version, base.fallback, Filled(names, Edited(names, base, lane, quota)));
      && OneLane(names, Cut(base), next, lane, quota)
      && (OneLane(names, base, next, lane, quota) <==> FitsBut(names, base, lane))
  {
    var next := Snapshot(version, base.fallback, Filled(names, Edited(names, base, lane, quota)));
    NamedExactly(names, base.quotas, |names|);
    CutOneLane(names, base, next, lane, quota);
  }

  /**
   * A single-lane edit is accepted exactly when the lane exists, the quota is in range, and so is
   * everything it copies: one lane configured above the maximum blocks edits of all the others, unless
   * what 32 bits keep of it happens to be in range.
   */
  lemma EditAccepted(names: seq<string>, base: Snapshot, lane: string, quota: nat)
    requires Registered(names) && |names| == |base.quotas|
    ensures Acceptable(names, Edited(names, base, lane, quota)) <==>
      && lane in names && Sized(quota) && Sized(base.fallback)
      && forall i :: 0 <= i < |names| && names[i] != lane ==> Sized(Word(base.quotas[i]))
  {
    NamedExactly(names, base.quotas, |names|);
    var p := Edited(names, base, lane, quota);
    assert lane in p.lanes;
    if Acceptable(names, p) {
      forall i | 0 <= i < |names| && names[i] != lane ensures Sized(Word(base.quotas[i])) {
        assert names[i] in p.lanes;
      }
    }
  }

  /** A policy is published only if its default and every quota it names, for lanes that exist, are from 1
      to 1024; then every lane has the quota named for it, or the default. */
  lemma AcceptableExactly(names: seq<string>, p: Policy)
    ensures Acceptable(names, p) <==>
      1 <= p.fallback <= 1024 && forall l :: l in p.lanes ==> l in names && 1 <= p.lanes[l] <= 1024
    ensures forall i :: 0 <= i < |names| ==>
      Filled(names, p)[i] == if names[i] in p.lanes then p.lanes[names[i]] else p.fallback
  {
  }

  // ---- Building a snapshot ---------------------------------------------------------------------

  datatype Fault = BadDefault | DefaultTooLarge | EmptyLane | UnknownLane | BadQuota | QuotaTooLarge

  datatype Built = Ok(quotas: seq<nat>) | Err(fault: Fault)

  predicate HasFault(names: seq<string>, p: Policy, f: Fault) {
    match f
    case BadDefault => p.fallback < 1
    case DefaultTooLarge => p.fallback > MAX_LANE_QUOTA
    case EmptyLane => "" in p.lanes
    case UnknownLane => exists l :: l in p.lanes && l != "" && l !in names
    case BadQuota => exists l :: l in p.lanes && l in names && p.lanes[l] < 1
    case QuotaTooLarge => exists l :: l in p.lanes && l in names && p.lanes[l] > MAX_LANE_QUOTA
  }

  /**
   * Builds the per-lane quotas, or reports a fault the policy really has; a policy with several
   * faults may be reported for any of them, because its lanes are visited in no fixed order.
   */
  method BuildSnapshot(names: seq<string>, p: Policy) returns (b: Built)
    requires Registered(names)
    ensures b.Ok? <==> Acceptable(names, p)
    ensures b.Ok? ==> b.quotas == Filled(names, p) && forall i :: 0 <= i < |names| ==> Sized(b.quotas[i])
    ensures b.Err? ==> HasFault(names, p, b.fault)
  {
    if p.fallback < 1 {
      return Err(BadDefault);
    }
    if p.fallback > MAX_LANE_QUOTA {
      return Err(DefaultTooLarge);
    }
    var rest := p.lanes.Keys;
    while rest != {}
      invariant rest <= p.lanes.Keys
      invariant forall l :: l in p.lanes && l !in rest ==> l in names && Sized(p.lanes[l])
      decreases rest
    {
      var lane :| lane in rest;
      if lane == "" {
        return Err(EmptyLane);
      }
      if lane !in names {
        return Err(UnknownLane);
      }
      if p.lanes[lane] < 1 {
        return Err(BadQuota);
      }
      if p.lanes[lane] > MAX_LANE_QUOTA {
        return Err(QuotaTooLarge);
      }
      rest := rest - {lane};
    }
    var quotas := [];
    var i := 0;
    while i < |names|
      invariant 0 <= i <= |names| && quotas == Filled(names, p)[..i]
      invariant forall j :: 0 <= j < i ==> Sized(quotas[j])
    {
      quotas := quotas + [if names[i] in p.lanes then p.lanes[names[i]] else p.fallback];
      i := i + 1;
    }
    return Ok(quotas);
  }

  // ---- Concurrent updaters ---------------------------------------------------------------------

  /** Who published an entry; `readAt` is the version the edit was derived from. */
  datatype Author = Start | Whole | Lane(lane: string, quota: nat, expected: nat, readAt: nat)

  datatype Entry = Entry(snap: Snapshot, author: Author)

  /**
   * Where an updater stands: it has fixed the version it expects, or it has also read the
   * snapshot and built the replacement.
   */
  datatype Pc =
    | Idle
    | Expecting(lane: string, quota: nat, expected: nat)
    | Ready(lane: string, quota: nat, expected: nat, base: Snapshot)

  /** All that was ever published, in order; the last entry is active. */
  datatype State = State(log: seq<Entry>, pcs: seq<Pc>)

  datatype Step =
    | Call(t: nat, lane: string, quota: nat)
    | CallIf(t: nat, lane: string, quota: nat, expected: nat)
    | Read(t: nat)
    | Publish(t: nat)
    | Refused(t: nat)
    | Replace(policy: Policy)

  function Active(s: State): Snapshot
    requires s.log != []
  {
    s.log[|s.log| - 1].snap
  }

  predicate Shape(names: seq<string>, s: State) {
    && s.log != []
    && (forall k :: 0 <= k < |s.log| ==> |s.log[k].snap.quotas| == |names|)
    && (forall t :: 0 <= t < |s.pcs| && s.pcs[t].Ready? ==> |s.pcs[t].base.quotas| == |names|)
  }

  function PcOf(s: State, t: nat): Pc {
    if t < |s.pcs| then s.pcs[t] else Idle
  }

  predicate Enabled(names: seq<string>, s: State, step: Step) {
    match step
    case Call(t, _, _) => t < |s.pcs| && s.pcs[t].Idle?
    case CallIf(t, _, _, _) => t < |s.pcs| && s.pcs[t].Idle?
    case Read(t) => PcOf(s, t).Expecting?
    case Publish(t) => PcOf(s, t).Ready?
    case Refused(t) => t < |s.pcs| && !s.pcs[t].Idle?
    case Replace(policy) => Acceptable(names, policy)
  }

  function Published(s: State, fallback: nat, quotas: seq<nat>, author: Author): State
    requires s.log != []
  {
    s.(log := s.log + [Entry(Snapshot(Active(s).version + 1, fallback, quotas), author)])
  }

  function Next(names: seq<string>, s: State, step: Step): (r: State)
    requires Shape(names, s) && Enabled(names, s, step)
    ensures Shape(names, r) && s.log <= r.log && |r.pcs| == |s.pcs|
  {
    match step
    // A plain single-lane update takes the active version as the one it expects.
    case Call(t, lane, quota) => s.(pcs := s.pcs[t := Expecting(lane, quota, Active(s).version)])
    case CallIf(t, lane, quota, expected) => s.(pcs := s.pcs[t := Expecting(lane, quota, expected)])
    case Read(t) =>
      var pc := s.pcs[t];
      s.(pcs := s.pcs[t :=
        if Acceptable(names, Edited(names, Active(s), pc.lane, pc.quota))
        then Ready(pc.lane, pc.quota, pc.expected, Active(s)) else Idle])
    case Publish(t) =>
      var pc := s.pcs[t];
      var done := s.(pcs := s.pcs[t := Idle]);
      if Active(s).version != pc.expected then done
      else Published(done, pc.base.fallback, Filled(names, Edited(names, pc.base, pc.lane, pc.quota)),
                     Lane(pc.lane, pc.quota, pc.expected, pc.base.version))
    case Refused(t) => s.(pcs := s.pcs[t := Idle])
    case Replace(policy) => Published(s, policy.fallback, Filled(names, policy), Whole)
  }

  ghost predicate Legal(names: seq<string>, s: State, steps: seq<Step>)
    requires Shape(names, s)
    decreases |steps|
  {
    steps != [] ==> Enabled(names, s, steps[0]) && Legal(names, Next(names, s, steps[0]), steps[1..])
  }

  ghost function Run(names: seq<string>, s: State, steps: seq<Step>): (r: State)
    requires Shape(names, s) && Legal(names, s, steps)
    ensures Shape(names, r) && s.log <= r.log
    decreases |steps|
  {
    if steps == [] then s else Run(names, Next(names, s, steps[0]), steps[1..])
  }

  predicate Initial(names: seq<string>, s: State) {
    && Shape(names, s) && |s.log| == 1 && Active(s).version == 0 && s.log[0].author == Start
    && forall t :: 0 <= t < |s.pcs| ==> s.pcs[t].Idle?
  }

  // ---- Invariants ------------------------------------------------------------------------------

  /** Each entry's version is its place in the order of publication. */
  predicate Numbered(s: State) {
    forall k :: 0 <= k < |s.log| ==> s.log[k].snap.version == k
  }

  /** What an updater has read was once the published snapshot of that version. */
  predicate Genuine(s: State) {
    forall t :: 0 <= t < |s.pcs| && s.pcs[t].Ready? ==>
      s.pcs[t].base.version < |s.log| && s.log[s.pcs[t].base.version].snap == s.pcs[t].base
  }

  /**
   * A lane entry was published right after the version it expected, and is a one-lane change of the
   * copy of the snapshot it was derived from, which had already been published then.
   */
  predicate Derived(names: seq<string>, log: seq<Entry>, k: nat)
    requires k < |log|
  {
    log[k].author.Lane? ==>
      && log[k].author.expected + 1 == k && log[k].author.readAt < k
      && OneLane(names, Cut(log[log[k].author.readAt].snap), log[k].snap, log[k].author.lane, log[k].author.quota)
  }

  predicate AllDerived(names: seq<string>, s: State) {
    forall k :: 0 <= k < |s.log| ==> Derived(names, s.log, k)
  }

  predicate Consistent(names: seq<string>, s: State) {
    Numbered(s) && Genuine(s) && AllDerived(names, s)
  }

  lemma DerivedGrows(names: seq<string>, log: seq<Entry>, more: seq<Entry>, k: nat)
    requires k < |log| && log <= more && Derived(names, log, k)
    ensures Derived(names, more, k)
  {
  }

  lemma ConsistentStep(names: seq<string>, s: State, step: Step)
    requires Registered(names) && Shape(names, s) && Enabled(names, s, step) && Consistent(names, s)
    ensures Consistent(names, Next(names, s, step))
  {
    var r := Next(names, s, step);
    forall k | 0 <= k < |r.log| ensures Derived(names, r.log, k) {
      if k < |s.log| {
        DerivedGrows(names, s.log, r.log, k);
      } else if step.Publish? {
        var pc := s.pcs[step.t];
        EditTouchesOneLane(names, pc.base, pc.lane, pc.quota, Active(s).version + 1);
      }
    }
  }

  lemma {:induction false} ConsistentRun(names: seq<string>, s: State, steps: seq<Step>)
    requires Registered(names) && Shape(names, s) && Legal(names, s, steps) && Consistent(names, s)
    ensures Consistent(names, Run(names, s, steps))
    decreases |steps|
  {
    if steps != [] {
      ConsistentStep(names, s, steps[0]);
      ConsistentRun(names, Next(names, s, steps[0]), steps[1..]);
    }
  }

  // ---- No lost update --------------------------------------------------------------------------

  /** In every interleaving of updaters, versions strictly increase in the order of publication. */
  lemma VersionsIncrease(names: seq<string>, s: State, steps: seq<Step>)
    requires Registered(names) && Initial(names, s) && Legal(names, s, steps)
    ensures forall j, k :: 0 <= j < k < |Run(names, s, steps).log| ==>
      Run(names, s, steps).log[j].snap.version < Run(names, s, steps).log[k].snap.version
  {
    ConsistentRun(names, s, steps);
  }

  // ---- Only construction can put a quota beyond 32 bits --------------------------------------------

  predicate AllSized(quotas: seq<nat>) {
    forall i :: 0 <= i < |quotas| ==> Sized(quotas[i])
  }

  /** Everything published after construction is in range, and so will be what is being built. */
  predicate Tight(names: seq<string>, s: State)
    requires Shape(names, s)
  {
    && (forall k :: 0 < k < |s.log| ==> AllSized(s.log[k].snap.quotas))
    && (forall t :: 0 <= t < |s.pcs| && s.pcs[t].Ready? ==>
          Acceptable(names, Edited(names, s.pcs[t].base, s.pcs[t].lane, s.pcs[t].quota)))
  }

  lemma FilledIsSized(names: seq<string>, p: Policy)
    requires Acceptable(names, p)
    ensures AllSized(Filled(names, p))
  {
  }

  lemma PublishedIsTight(names: seq<string>, s: State, fallback: nat, p: Policy, author: Author)
    requires Shape(names, s) && Tight(names, s) && Acceptable(names, p)
    ensures Tight(names, Published(s, fallback, Filled(names, p), author))
  {
    FilledIsSized(names, p);
  }

  lemma TightStep(names: seq<string>, s: State, step: Step)
    requires Shape(names, s) && Enabled(names, s, step) && Tight(names, s)
    ensures Tight(names, Next(names, s, step))
  {
    if step.Replace? {
      FilledIsSized(names, step.policy);
    } else if step.Publish? {
      var pc := s.pcs[step.t];
      FilledIsSized(names, Edited(names, pc.base, pc.lane, pc.quota));
    }
  }

  lemma {:induction false} TightRun(names: seq<string>, s: State, steps: seq<Step>)
    requires Shape(names, s) && Legal(names, s, steps) && Tight(names, s)
    ensures Tight(names, Run(names, s, steps))
    decreases |steps|
  {
    if steps != [] {
      TightStep(names, s, steps[0]);
      TightRun(names, Next(names, s, steps[0]), steps[1..]);
    }
  }

  /**
   * In every interleaving, a lane update whose expected version was not ahead of the snapshot it
   * read is its immediate predecessor with that one lane changed: nothing another updater
   * published is lost.  The first update after construction is so exactly if the other lanes were
   * configured within 32 bits.
   */
  lemma NoLostUpdate(names: seq<string>, s: State, steps: seq<Step>, k: nat)
    requires Registered(names) && Initial(names, s) && Legal(names, s, steps)
    requires k < |Run(names, s, steps).log|
    requires var who := Run(names, s, steps).log[k].author; who.Lane? && who.expected <= who.readAt
    ensures k > 0
    ensures var log := Run(names, s, steps).log;
      && OneLane(names, Cut(log[k - 1].snap), log[k].snap, log[k].author.lane, log[k].author.quota)
      && (OneLane(names, log[k - 1].snap, log[k].snap, log[k].author.lane, log[k].author.quota) <==>
            k > 1 || FitsBut(names, Active(s), log[k].author.lane))
  {
    ConsistentRun(names, s, steps);
    TightRun(names, s, steps);
    var log := Run(names, s, steps).log;
    assert Derived(names, log, k);
    CutOneLane(names, log[k - 1].snap, log[k].snap, log[k].author.lane, log[k].author.quota);
    if k > 1 {
      assert AllSized(log[k - 1].snap.quotas);
    } else {
      assert log[0] == s.log[0];
    }
  }

  /** An updater that chose its expected version by reading it is never ahead of the snapshot. */
  predicate NotAhead(s: State, t: nat) {
    match PcOf(s, t)
    case Idle => true
    case Expecting(_, _, expected) => s.log != [] && expected <= Active(s).version
    case Ready(_, _, expected, base) => expected <= base.version
  }

  /** Every lane entry published so far was derived from a snapshot at least as new as expected. */
  predicate Prudent(s: State) {
    && (forall t :: 0 <= t < |s.pcs| ==> NotAhead(s, t))
    && (forall k :: 0 <= k < |s.log| && s.log[k].author.Lane? ==> s.log[k].author.expected <= s.log[k].author.readAt)
  }

  /** The one thing a caller must check before a versioned update: the version has been published. */
  predicate Checked(s: State, step: Step)
    requires s.log != []
  {
    step.CallIf? ==> step.expected <= Active(s).version
  }

  ghost predicate AllChecked(names: seq<string>, s: State, steps: seq<Step>)
    requires Shape(names, s) && Legal(names, s, steps)
    decreases |steps|
  {
    steps != [] ==> Checked(s, steps[0]) && AllChecked(names, Next(names, s, steps[0]), steps[1..])
  }

  lemma {:induction false} PrudentRun(names: seq<string>, s: State, steps: seq<Step>)
    requires Registered(names) && Shape(names, s) && Legal(names, s, steps)
    requires Consistent(names, s) && Prudent(s) && AllChecked(names, s, steps)
    ensures Prudent(Run(names, s, steps))
    decreases |steps|
  {
    if steps != [] {
      var r := Next(names, s, steps[0]);
      ConsistentStep(names, s, steps[0]);
      assert Active(s).version <= Active(r).version;
      forall t | 0 <= t < |r.pcs| ensures NotAhead(r, t) {
        assert NotAhead(s, t);
      }
      if steps[0].Publish? {
        assert NotAhead(s, steps[0].t);
      }
      PrudentRun(names, r, steps[1..]);
    }
  }

  /**
   * Plain lane updates need no care, and versioned ones only that the version already exists: then in
   * every interleaving every lane update keeps its predecessor's other lanes; the first one exactly if
   * they were configured within 32 bits.
   */
  lemma LaneUpdatesAreSafe(names: seq<string>, s: State, steps: seq<Step>, k: nat)
    requires Registered(names) && Initial(names, s) && Legal(names, s, steps) && AllChecked(names, s, steps)
    requires k < |Run(names, s, steps).log| && Run(names, s, steps).log[k].author.Lane?
    ensures k > 0
    ensures var log := Run(names, s, steps).log;
      OneLane(names, log[k - 1].snap, log[k].snap, log[k].author.lane, log[k].author.quota) <==>
        k > 1 || FitsBut(names, Active(s), log[k].author.lane)
  {
    PrudentRun(names, s, steps);
    NoLostUpdate(names, s, steps, k);
  }

  // ---- A version from the future ---------------------------------------------------------------

  function Repeated(policy: Policy, n: nat): (r: seq<Step>)
    ensures |r| == n
  {
    if n == 0 then [] else [Replace(policy)] + Repeated(policy, n - 1)
  }

  /** A ready update whose version is active is published. */
  lemma PublishRuns(names: seq<string>, s: State, t: nat)
    requires Shape(names, s) && PcOf(s, t).Ready? && PcOf(s, t).expected == Active(s).version
    ensures Legal(names, s, [Publish(t)])
    ensures var pc := PcOf(s, t);
      var snap := Snapshot(Active(s).version + 1, pc.base.fallback,
                           Filled(names, Edited(names, pc.base, pc.lane, pc.quota)));
      Run(names, s, [Publish(t)]).log == s.log + [Entry(snap, AuthorOf(pc))]
  {
    RunCons(names, s, Publish(t), []);
    assert [Publish(t)] + [] == [Publish(t)];
  }

  /** The same policy published over and over. */
  lemma {:induction false} RepeatedOnly(names: seq<string>, s: State, policy: Policy, n: nat)
    requires Shape(names, s) && Acceptable(names, policy)
    ensures Legal(names, s, Repeated(policy, n))
    ensures var e := Run(names, s, Repeated(policy, n));
      && e.pcs == s.pcs && |e.log| == |s.log| + n && Active(e).version == Active(s).version + n
      && (n > 0 ==> Active(e).quotas == Filled(names, policy))
    decreases n
  {
    if n > 0 {
      RepeatedOnly(names, Next(names, s, Replace(policy)), policy, n - 1);
      RunCons(names, s, Replace(policy), Repeated(policy, n - 1));
    }
  }

  lemma RepeatedRuns(names: seq<string>, s: State, policy: Policy, n: nat, t: nat) returns (log: seq<Entry>)
    requires Registered(names) && Shape(names, s) && Acceptable(names, policy)
    requires PcOf(s, t).Ready? && PcOf(s, t).expected == Active(s).version + n
    ensures Legal(names, s, Repeated(policy, n) + [Publish(t)])
    ensures Run(names, s, Repeated(policy, n) + [Publish(t)]).log == log
    ensures |log| == |s.log| + n + 1 && log[|log| - 1].author == AuthorOf(PcOf(s, t))
    ensures log[|log| - 1].snap.quotas ==
      Filled(names, Edited(names, PcOf(s, t).base, PcOf(s, t).lane, PcOf(s, t).quota))
    ensures n > 0 ==> log[|log| - 2].snap.quotas == Filled(names, policy)
  {
    RepeatedOnly(names, s, policy, n);
    var e := Run(names, s, Repeated(policy, n));
    PublishRuns(names, e, t);
    RunConcat(names, s, Repeated(policy, n), [Publish(t)]);
    log := Run(names, e, [Publish(t)]).log;
  }

  /** How an updater signs what it publishes. */
  function AuthorOf(pc: Pc): Author
    requires pc.Ready?
  {
    Lane(pc.lane, pc.quota, pc.expected, pc.base.version)
  }

  /** The run ends with this author's entry, which differs from the one before in lane `other`. */
  ghost predicate LosesLane(names: seq<string>, s: State, steps: seq<Step>, author: Author, other: nat)
    requires Shape(names, s) && other < |names|
  {
    && Legal(names, s, steps)
    && var log := Run(names, s, steps).log;
       && |log| >= 2 && log[|log| - 1].author == author
       && log[|log| - 1].snap.quotas[other] != log[|log| - 2].snap.quotas[other]
  }

  /**
   * The check is necessary: whenever an updater has read its snapshot under an expected version
   * that does not exist yet, the others can go on so that its update is accepted and yet wipes
   * out another lane's quota.
   */
  lemma FutureVersionLoses(names: seq<string>, s: State, t: nat, other: nat)
    requires Registered(names) && Shape(names, s) && Consistent(names, s)
    requires PcOf(s, t).Ready? && PcOf(s, t).expected > Active(s).version
    requires other < |names| && names[other] != PcOf(s, t).lane
    ensures exists steps ::
      LosesLane(names, s, steps, AuthorOf(PcOf(s, t)), other)
  {
    var pc := PcOf(s, t);
    var fallback := if Word(pc.base.quotas[other]) == 1 then 2 else 1;
    var policy := Policy(fallback, map[]);
    var n := pc.expected - Active(s).version;
    var steps := Repeated(policy, n) + [Publish(t)];
    var log := RepeatedRuns(names, s, policy, n, t);
    EditTouchesOneLane(names, pc.base, pc.lane, pc.quota, 0);
    assert log[|log| - 2].snap.quotas[other] == fallback;
    assert LosesLane(names, s, steps, AuthorOf(pc), other);
  }

  // ---- How an update gets ahead ------------------------------------------------------------------

  lemma RunCons(names: seq<string>, s: State, step: Step, rest: seq<Step>)
    requires Shape(names, s) && Enabled(names, s, step) && Legal(names, Next(names, s, step), rest)
    ensures Legal(names, s, [step] + rest) && Run(names, s, [step] + rest) == Run(names, Next(names, s, step), rest)
  {
    assert ([step] + rest)[1..] == rest;
  }

  lemma {:induction false} RunConcat(names: seq<string>, s: State, first: seq<Step>, rest: seq<Step>)
    requires Shape(names, s) && Legal(names, s, first) && Legal(names, Run(names, s, first), rest)
    ensures Legal(names, s, first + rest)
    ensures Run(names, s, first + rest) == Run(names, Run(names, s, first), rest)
    decreases |first|
  {
    if first == [] {
      assert first + rest == rest;
    } else {
      RunConcat(names, Next(names, s, first[0]), first[1..], rest);
      RunCons(names, s, first[0], first[1..] + rest);
      FirstApart(first, rest);
    }
  }

  /** Naming a version that does not exist yet is all it takes to get ahead of the log. */
  lemma GetAhead(names: seq<string>, s: State, t: nat, lane: string, quota: nat, expected: nat)
    requires Registered(names) && Initial(names, s) && t < |s.pcs| && expected > 0
    requires Acceptable(names, Edited(names, Active(s), lane, quota))
    ensures var steps := [CallIf(t, lane, quota, expected), Read(t)];
      && Legal(names, s, steps)
      && PcOf(Run(names, s, steps), t) == Ready(lane, quota, expected, Active(s))
      && Run(names, s, steps).log == s.log
  {
    var steps := [CallIf(t, lane, quota, expected), Read(t)];
    var s1 := Next(names, s, steps[0]);
    var s2 := Next(names, s1, steps[1]);
    assert steps[1..] == [Read(t)] && steps[1..][1..] == [];
    assert Legal(names, s2, []) && Run(names, s2, []) == s2;
    assert Legal(names, s1, steps[1..]) && Run(names, s1, steps[1..]) == s2;
  }

  /**
   * So from the very start, for every version not yet published, there is a run in which a lane update
   * naming it is accepted and differs from its predecessor in a lane it did not name.
   */
  lemma UpdatesCanBeLost(names: seq<string>, s: State, t: nat, lane: string, quota: nat, expected: nat, other: nat)
    requires Registered(names) && Initial(names, s) && t < |s.pcs| && expected > 0
    requires Acceptable(names, Edited(names, Active(s), lane, quota))
    requires other < |names| && names[other] != lane
    ensures exists steps :: LosesLane(names, s, steps, Lane(lane, quota, expected, 0), other)
  {
    var first := [CallIf(t, lane, quota, expected), Read(t)];
    GetAhead(names, s, t, lane, quota, expected);
    var ahead, author := Run(names, s, first), Lane(lane, quota, expected, 0);
    ConsistentRun(names, s, first);
    FutureVersionLoses(names, ahead, t, other);
    var rest :| LosesLane(names, ahead, rest, author, other);
    LosesLater(names, s, first, rest, author, other);
  }

  lemma LosesLater(names: seq<string>, s: State, first: seq<Step>, rest: seq<Step>, author: Author, other: nat)
    requires Shape(names, s) && Legal(names, s, first) && other < |names|
    requires LosesLane(names, Run(names, s, first), rest, author, other)
    ensures LosesLane(names, s, first + rest, author, other)
  {
    RunConcat(names, s, first, rest);
  }

  // ---- A quota beyond 32 bits ------------------------------------------------------------------------

  /** The first lane update of a new scheduler, with nobody else at work. */
  function FirstUpdate(t: nat, lane: string, quota: nat): seq<Step> {
    [Call(t, lane, quota), Read(t), Publish(t)]
  }

  lemma {:induction false} PlainIsChecked(names: seq<string>, s: State, steps: seq<Step>)
    requires Shape(names, s) && Legal(names, s, steps) && forall x :: x in steps ==> !x.CallIf?
    ensures AllChecked(names, s, steps)
    decreases |steps|
  {
    if steps != [] {
      assert steps[0] in steps;
      PlainIsChecked(names, Next(names, s, steps[0]), steps[1..]);
    }
  }

  lemma FirstUpdateRuns(names: seq<string>, s: State, t: nat, lane: string, quota: nat)
    requires Registered(names) && Initial(names, s) && t < |s.pcs|
    requires Acceptable(names, Edited(names, Active(s), lane, quota))
    ensures var steps := FirstUpdate(t, lane, quota);
      && Legal(names, s, steps) && AllChecked(names, s, steps)
      && Run(names, s, steps).log == s.log + [
           Entry(Snapshot(1, Active(s).fallback, Filled(names, Edited(names, Active(s), lane, quota))),
                 Lane(lane, quota, 0, 0))]
  {
    var steps := FirstUpdate(t, lane, quota);
    var s1 := Next(names, s, steps[0]);
    var s2 := Next(names, s1, steps[1]);
    var s3 := Next(names, s2, steps[2]);
    RunCons(names, s2, steps[2], []);
    RunCons(names, s1, steps[1], [steps[2]]);
    RunCons(names, s, steps[0], [steps[1], steps[2]]);
    assert [steps[2]] + [] == [steps[2]] && [steps[1]] + [steps[2]] == [steps[1], steps[2]];
    assert [steps[0]] + [steps[1], steps[2]] == steps;
    PlainIsChecked(names, s, steps);
  }

  /**
   * So a plain update of one lane of a new scheduler rewrites every other lane configured beyond 32
   * bits, whenever it is accepted at all.
   */
  lemma WideQuotaIsCut(names: seq<string>, s: State, t: nat, lane: string, quota: nat, other: nat)
    requires Registered(names) && Initial(names, s) && t < |s.pcs|
    requires Acceptable(names, Edited(names, Active(s), lane, quota))
    requires other < |names| && names[other] != lane && Active(s).quotas[other] >= WORD
    ensures var steps := FirstUpdate(t, lane, quota);
      && Legal(names, s, steps) && AllChecked(names, s, steps)
      && LosesLane(names, s, steps, Lane(lane, quota, 0, 0), other)
  {
    FirstUpdateRuns(names, s, t, lane, quota);
    EditTouchesOneLane(names, Active(s), lane, quota, 1);
  }

  /** One such scheduler: one of its two lanes has 2^32 + 5, and 5 once the other was updated to 2. */
  lemma WideQuotaExample(names: seq<string>, s: State)
    requires Registered(names) && |names| == 2 && Initial(names, s) && |s.pcs| > 0
    requires Active(s) == Snapshot(0, 1, [WORD + 5, 1])
    ensures var steps := FirstUpdate(0, names[1], 2);
      && Legal(names, s, steps)
      && Active(Run(names, s, steps)).quotas == [5, 2]
  {
    var base := Active(s);
    EditAccepted(names, base, names[1], 2);
    assert Word(base.quotas[0]) == 5;
    EditTouchesOneLane(names, base, names[1], 2, 1);
    FirstUpdateRuns(names, s, 0, names[1], 2);
    assert Cut(base).quotas[0] == 5;
  }

  // ---- Published quotas are positive ---------------------------------------------------------------

  predicate AllPositive(quotas: seq<nat>) {
    forall i :: 0 <= i < |quotas| ==> quotas[i] >= 1
  }

  /** Positive quotas at construction, and everything published since is in range. */
  predicate Positive(names: seq<string>, s: State)
    requires Shape(names, s)
  {
    AllPositive(s.log[0].snap.quotas) && Tight(names, s)
  }

  /** From positive quotas at construction, in every interleaving of updaters, every published quota is positive. */
  lemma PositiveRun(names: seq<string>, s: State, steps: seq<Step>)
    requires Shape(names, s) && Legal(names, s, steps) && Positive(names, s)
    ensures Positive(names, Run(names, s, steps))
    ensures forall e :: e in Run(names, s, steps).log ==> AllPositive(e.snap.quotas)
  {
    TightRun(names, s, steps);
    var log := Run(names, s, steps).log;
    assert log[0] == s.log[0];
    forall e | e in log ensures AllPositive(e.snap.quotas) {
      var k :| 0 <= k < |log| && log[k] == e;
      assert k > 0 ==> AllSized(log[k].snap.quotas);
    }
  }
}
