/** Per-key admission on top of the tracker: the deciding form, its dry run, and mitigation over time. */
module PerKeyAdmission {
  import opened HotKeys

  datatype Status = NotHot | Candidate | Dominant

  datatype Reason =
    | NoReason
    | HotKeyCandidate
    | DominantHotKey
    | MaxQueuedPerKey
    | MaxInflightPerKey
    | CooldownActive
    | ShardOverloaded

  datatype Policy = Policy(
    enabled: bool,
    minStatus: Status, defaultAction: Action,
    maxQueued: int, maxInflight: int,
    pressureThreshold: real, rejectThreshold: real,
    cooldown: int, recovery: int)

  /** The shard's load as the caller measured it. */
  datatype Load = Load(depth: nat, wait: nat, pressure: real)

  datatype Decision = Decision(
    action: Action, reason: Reason, status: Status, ratio: real,
    retryAfter: int, cooldownRemaining: int)

  const ALLOWED := Decision(Allow, NoReason, NotHot, 0.0, 0, 0)

  const DOMINANT_RATIO := 0.7
  const OVERLOAD_PRESSURE := 0.95

  // ---- Heat of one key -------------------------------------------------------------------------

  function Share(part: int, whole: real): real {
    if whole > 0.0 && part > 0 then part as real / whole else 0.0
  }

  function Max(a: real, b: real): real {
    if b > a then b else a
  }

  function Heat(e: Entry, cfg: Config, load: Load, submitted: nat, queued: int): (Status, real) {
    var whole := if load.depth == 0 && queued > 0 then queued as real else load.depth as real;
    var depth := Share(e.queued, whole);
    var submit := Share(e.submitted, if submitted == 0 then 1.0 else submitted as real);
    var wait := Share(e.waited, load.wait as real);
    var top := Max(Max(depth, submit), wait);
    if e.hash == 0 then (NotHot, 0.0)
    else if depth < cfg.depthRatio && submit < cfg.depthRatio && wait < cfg.waitRatio then (NotHot, 0.0)
    else if top >= DOMINANT_RATIO then (Dominant, top)
    else (Candidate, top)
  }

  function Rank(s: Status): nat {
    match s case NotHot => 0 case Candidate => 1 case Dominant => 2
  }

  predicate Meets(s: Status, min: Status) {
    Rank(s) >= Rank(min)
  }

  lemma ShareGrows(a: int, b: int, whole: real)
    requires a <= b
    ensures 0.0 <= Share(a, whole) <= Share(b, whole)
  {
    if whole > 0.0 && a > 0 {
      Quotients(a as real, b as real, whole);
    }
  }

  lemma Quotients(a: real, b: real, w: real)
    requires 0.0 <= a <= b && w > 0.0
    ensures 0.0 <= a / w <= b / w
  {
    assert b / w - a / w == (b - a) / w;
  }

  /** A key that queues, submits or waits more against the same totals is never judged cooler. */
  lemma HeatGrows(e: Entry, f: Entry, cfg: Config, load: Load, submitted: nat, queued: int)
    requires e.hash == f.hash && e.queued <= f.queued && e.submitted <= f.submitted && e.waited <= f.waited
    ensures Rank(Heat(e, cfg, load, submitted, queued).0) <= Rank(Heat(f, cfg, load, submitted, queued).0)
    ensures Heat(e, cfg, load, submitted, queued).1 <= Heat(f, cfg, load, submitted, queued).1
  {
    var whole := if load.depth == 0 && queued > 0 then queued as real else load.depth as real;
    ShareGrows(e.queued, f.queued, whole);
    ShareGrows(e.submitted, f.submitted, if submitted == 0 then 1.0 else submitted as real);
    ShareGrows(e.waited, f.waited, load.wait as real);
  }

  // ---- Shard totals ----------------------------------------------------------------------------

  function Submitted(es: seq<Entry>, k: nat): nat
    requires k <= |es|
  {
    if k == 0 then 0
    else Submitted(es, k - 1) + if es[k - 1].hash != 0 then es[k - 1].submitted else 0
  }

  function Queued(es: seq<Entry>, k: nat): nat
    requires k <= |es|
  {
    if k == 0 then 0
    else Queued(es, k - 1) + if es[k - 1].hash != 0 && es[k - 1].queued > 0 then es[k - 1].queued else 0
  }

  predicate Counted(e: Entry, window: int, now: int) {
    e.hash != 0 && !Stale(e, window, now)
  }

  /** The read-only totals skip stale entries instead of relying on their having been expired. */
  function FreshSubmitted(es: seq<Entry>, window: int, now: int, k: nat): nat
    requires k <= |es|
  {
    if k == 0 then 0
    else FreshSubmitted(es, window, now, k - 1) +
         if Counted(es[k - 1], window, now) then es[k - 1].submitted else 0
  }

  function FreshQueued(es: seq<Entry>, window: int, now: int, k: nat): nat
    requires k <= |es|
  {
    if k == 0 then 0
    else FreshQueued(es, window, now, k - 1) +
         if Counted(es[k - 1], window, now) && es[k - 1].queued > 0 then es[k - 1].queued else 0
  }

  lemma {:induction false} TotalsAgree(t: Tracker, now: int, k: nat)
    requires Coherent(t) && k <= |t.entries|
    ensures Submitted(Expire(t, now).entries, k) == FreshSubmitted(t.entries, t.cfg.window, now, k)
    ensures Queued(Expire(t, now).entries, k) == FreshQueued(t.entries, t.cfg.window, now, k)
  {
    if k > 0 {
      TotalsAgree(t, now, k - 1);
      ExpireExactly(t, now);
    }
  }

  // ---- The decision ----------------------------------------------------------------------------

  datatype Verdict = Recovered | Pass | Resolve(action: Action, reason: Reason)

  function HeatReason(s: Status): Reason {
    if s == Dominant then DominantHotKey else HotKeyCandidate
  }

  predicate Mitigating(a: Action) {
    a != Unset && a != Allow
  }

  /** The ordered checks on one entry; what is done about the verdict differs between the two forms. */
  function Judge(e: Entry, status: Status, ratio: real, pressure: real, p: Policy, now: int): Verdict {
    if e.recoveryUntil > 0 && now >= e.recoveryUntil && status == NotHot then Recovered
    else if p.maxQueued > 0 && e.queued >= p.maxQueued then Resolve(Throttle, MaxQueuedPerKey)
    else if p.maxInflight > 0 && e.inflight >= p.maxInflight then Resolve(Throttle, MaxInflightPerKey)
    else if && e.submitted > 0 && p.rejectThreshold > 0.0
            && e.rejected as real / e.submitted as real >= p.rejectThreshold then
      Resolve(if p.defaultAction == Allow || p.defaultAction == Throttle then Reject else p.defaultAction,
              HeatReason(status))
    else if e.cooldownUntil > now && Mitigating(e.lastAction) then Resolve(e.lastAction, CooldownActive)
    else if pressure >= OVERLOAD_PRESSURE && Meets(status, p.minStatus) then
      Resolve(p.defaultAction, ShardOverloaded)
    else if !Meets(status, p.minStatus) then Pass
    else if p.pressureThreshold > 0.0 && ratio < p.pressureThreshold then Pass
    else Resolve(if p.defaultAction == Allow then Throttle else p.defaultAction, HeatReason(status))
  }

  predicate Refuses(v: Verdict) {
    v.Resolve? && v.action != Allow
  }

  /** More pressure on the shard never turns a refusal into an admission, unless the default action is to allow. */
  lemma PressureNeverHelps(e: Entry, status: Status, ratio: real, low: real, high: real, p: Policy, now: int)
    requires low <= high && p.defaultAction != Allow && Refuses(Judge(e, status, ratio, low, p, now))
    ensures Refuses(Judge(e, status, ratio, high, p, now))
  {
  }

  /**
   * With allow as the default action it does, and exactly for the keys throttled for their heat
   * alone: they get through again once the shard is overloaded.
   */
  lemma OverloadRelents(e: Entry, status: Status, ratio: real, low: real, high: real, p: Policy, now: int)
    requires low < OVERLOAD_PRESSURE <= high && p.defaultAction == Allow
    ensures Refuses(Judge(e, status, ratio, low, p, now)) && !Refuses(Judge(e, status, ratio, high, p, now)) <==>
      Judge(e, status, ratio, low, p, now) == Resolve(Throttle, HeatReason(status))
  {
  }

  function CoolingFor(e: Entry, now: int): int {
    if e.cooldownUntil > now then e.cooldownUntil - now else 0
  }

  function RetryAfter(action: Action, p: Policy): int {
    if action == Throttle && p.cooldown > 0 then p.cooldown else 0
  }

  /** The dry run: reads the tracker as it stands. */
  function Plan(t: Tracker, hash: nat, load: Load, p: Policy, now: int): Decision
    requires Coherent(t)
  {
    if t.entries == [] || !p.enabled || hash !in t.index then ALLOWED
    else
      var e := t.entries[t.index[hash]];
      if Stale(e, t.cfg.window, now) then ALLOWED
      else
        var n := |t.entries|;
        var (status, ratio) := Heat(e, t.cfg, load, FreshSubmitted(t.entries, t.cfg.window, now, n),
                                    FreshQueued(t.entries, t.cfg.window, now, n));
        match Judge(e, status, ratio, load.pressure, p, now)
        case Resolve(a, r) => Decision(a, r, status, ratio, RetryAfter(a, p), CoolingFor(e, now))
        case Recovered => ALLOWED
        case Pass => ALLOWED
  }

  /** A resolved entry restarts its cooldown and recovery clocks, unless it was allowed through. */
  function Finish(e: Entry, a: Action, p: Policy, now: int): (r: Entry)
    ensures r.hash == e.hash
  {
    e.(cooldownUntil := if a != Allow && p.cooldown > 0 then now + p.cooldown else e.cooldownUntil,
       recoveryUntil := if a != Allow && p.recovery > 0 then now + p.recovery else e.recoveryUntil,
       lastAction := a,
       lastSeen := now)
  }

  function Pardon(e: Entry): (r: Entry)
    ensures r.hash == e.hash
  {
    e.(lastAction := Allow, cooldownUntil := 0, recoveryUntil := 0)
  }

  /** The real evaluation: expires first, then decides and records. */
  function Evaluate(t: Tracker, hash: nat, load: Load, p: Policy, now: int): (r: (Tracker, Decision))
    requires Coherent(t)
    ensures Coherent(r.0) && |r.0.entries| == |t.entries| && r.0.cfg == t.cfg
  {
    if t.entries == [] || !p.enabled then (t, ALLOWED)
    else
      var u := Expire(t, now);
      if hash !in u.index then (u, ALLOWED)
      else
        var i, n := u.index[hash], |u.entries|;
        var e := u.entries[i];
        var (status, ratio) := Heat(e, u.cfg, load, Submitted(u.entries, n), Queued(u.entries, n));
        match Judge(e, status, ratio, load.pressure, p, now)
        case Recovered => (Edit(u, i, Pardon(e)), ALLOWED)
        case Pass => (u, ALLOWED)
        case Resolve(a, r) =>
          (Edit(u, i, Finish(e, a, p, now)),
           Decision(a, r, status, ratio, RetryAfter(a, p),
                    if a != Allow && p.cooldown > 0 then p.cooldown else CoolingFor(e, now)))
  }

  /**
   * The dry run decides as the real evaluation does, in every coherent tracker state, although
   * only the latter expires first; the remaining cooldown it reports is the only difference, and
   * then only when the evaluation restarts that clock.
   */
  lemma DryRunAgrees(t: Tracker, hash: nat, load: Load, p: Policy, now: int)
    requires Coherent(t)
    ensures Plan(t, hash, load, p, now) ==
      Evaluate(t, hash, load, p, now).1.(cooldownRemaining := Plan(t, hash, load, p, now).cooldownRemaining)
    ensures Plan(t, hash, load, p, now) == Evaluate(t, hash, load, p, now).1 ||
      (Evaluate(t, hash, load, p, now).1.action != Allow && p.cooldown > 0)
  {
    ExpireExactly(t, now);
    TotalsAgree(t, now, |t.entries|);
  }

  // ---- Runs ------------------------------------------------------------------------------------

  datatype Event =
    | Note(hash: nat, op: Op, now: int)
    | Attempt(hash: nat, load: Load, now: int)

  function Step(t: Tracker, p: Policy, ev: Event): (r: Tracker)
    requires Coherent(t)
    ensures Coherent(r) && |r.entries| == |t.entries| && r.cfg == t.cfg
  {
    match ev
    case Note(hash, op, now) => Observe(t, hash, op, now)
    case Attempt(hash, load, now) => Evaluate(t, hash, load, p, now).0
  }

  function Run(t: Tracker, p: Policy, evs: seq<Event>): (r: Tracker)
    requires Coherent(t)
    ensures Coherent(r) && |r.entries| == |t.entries| && r.cfg == t.cfg
    decreases |evs|
  {
    if evs == [] then t else Run(Step(t, p, evs[0]), p, evs[1..])
  }

  /** A new tracker with `n` slots. */
  function Empty(n: nat, cfg: Config): (r: Tracker)
    ensures Coherent(r)
  {
    Tracker(seq(n, _ => BLANK), map[], cfg)
  }

  /**
   * After any events whatever, at whatever times: a non-zero hash is indexed at a slot exactly
   * when that slot holds it, no two slots hold the same one, and the index fits the slots.
   */
  lemma IndexSafe(n: nat, cfg: Config, p: Policy, evs: seq<Event>, h: nat, i: nat)
    requires h != 0 && i < n
    ensures var t := Run(Empty(n, cfg), p, evs);
      && |t.entries| == n && |t.index| <= n
      && (h in t.index && t.index[h] == i <==> t.entries[i].hash == h)
  {
    var t := Run(Empty(n, cfg), p, evs);
    IndexBounded(t);
    IndexAgrees(t, h, i);
  }

  /** The rule of `KeysLeaveForAReason`, for evaluations as well. */
  lemma EventsKeepFreshKeys(t: Tracker, p: Policy, ev: Event, h: nat)
    requires Coherent(t) && h != 0 && h in t.index && h !in Step(t, p, ev).index
    ensures
      || Stale(t.entries[t.index[h]], t.cfg.window, ev.now)
      || (&& ev.Note? && !HasRoom(t, ev.now)
          && forall i :: 0 <= i < |t.entries| ==> t.entries[t.index[h]].lastSeen <= t.entries[i].lastSeen)
  {
    if ev.Note? {
      KeysLeaveForAReason(t, ev.hash, ev.op, ev.now, h);
    } else {
      ExpireExactly(t, ev.now);
    }
  }

  /** The signed counters of every slot are at least zero. */
  predicate NoDebt(t: Tracker) {
    forall i :: 0 <= i < |t.entries| ==> t.entries[i].queued >= 0 && t.entries[i].inflight >= 0
  }

  lemma ExpireNoDebt(t: Tracker, now: int)
    requires Coherent(t) && NoDebt(t)
    ensures NoDebt(Expire(t, now))
  {
    ExpireExactly(t, now);
  }

  lemma TouchNoDebt(t: Tracker, hash: nat, lane: nat, now: int)
    requires Coherent(t) && t.entries != [] && NoDebt(t)
    ensures NoDebt(Touch(t, hash, lane, now).0)
  {
  }

  lemma NoDebtNote(t: Tracker, hash: nat, op: Op, now: int)
    requires Coherent(t) && NoDebt(t)
    ensures NoDebt(Observe(t, hash, op, now))
  {
    if t.entries != [] && (op.Submit? || op.Enqueue?) {
      ExpireNoDebt(t, now);
      TouchNoDebt(Expire(t, now), hash, op.lane, now);
    }
  }

  lemma NoDebtAttempt(t: Tracker, p: Policy, hash: nat, load: Load, now: int)
    requires Coherent(t) && NoDebt(t)
    ensures NoDebt(Evaluate(t, hash, load, p, now).0)
  {
    ExpireNoDebt(t, now);
  }

  lemma NoDebtStep(t: Tracker, p: Policy, ev: Event)
    requires Coherent(t) && NoDebt(t)
    ensures NoDebt(Step(t, p, ev))
  {
    match ev
    case Note(hash, op, now) => NoDebtNote(t, hash, op, now);
    case Attempt(hash, load, now) => NoDebtAttempt(t, p, hash, load, now);
  }

  /** Dequeues and ends that were never matched by a beginning do not drive a counter below zero. */
  lemma {:induction false} CountersStayNonNegative(t: Tracker, p: Policy, evs: seq<Event>)
    requires Coherent(t) && NoDebt(t)
    ensures NoDebt(Run(t, p, evs))
    decreases |evs|
  {
    if evs != [] {
      NoDebtStep(t, p, evs[0]);
      CountersStayNonNegative(Step(t, p, evs[0]), p, evs[1..]);
    }
  }

  // ---- Sticky mitigation -----------------------------------------------------------------------

  /** Key `h` was mitigated at `at` and nothing has undone it. */
  predicate Held(t: Tracker, p: Policy, h: nat, at: int)
    requires Coherent(t)
  {
    && h in t.index
    && var e := t.entries[t.index[h]];
       && Mitigating(e.lastAction) && e.lastSeen >= at
       && e.cooldownUntil == at + p.cooldown && e.recoveryUntil == at + p.recovery
  }

  predicate Sticky(cfg: Config, p: Policy) {
    && p.enabled && p.defaultAction != Unset
    && 0 < p.cooldown <= p.recovery && p.cooldown <= cfg.window
  }

  lemma FreshKept(t: Tracker, p: Policy, h: nat, at: int, now: int)
    requires Coherent(t) && Sticky(t.cfg, p) && Held(t, p, h, at) && now < at + p.cooldown
    ensures Held(Expire(t, now), p, h, at)
  {
    ExpireExactly(t, now);
  }

  lemma AttemptSticks(t: Tracker, p: Policy, h: nat, at: int, load: Load, now: int)
    requires Coherent(t) && Sticky(t.cfg, p) && Held(t, p, h, at) && at <= now < at + p.cooldown
    ensures Evaluate(t, h, load, p, now).1.action != Allow
    ensures Held(Evaluate(t, h, load, p, now).0, p, h, now)
  {
    FreshKept(t, p, h, at, now);
  }

  lemma OthersAttempt(t: Tracker, p: Policy, h: nat, at: int, hash: nat, load: Load, now: int)
    requires Coherent(t) && Sticky(t.cfg, p) && Held(t, p, h, at) && at <= now < at + p.cooldown
    requires hash != h
    ensures Held(Evaluate(t, hash, load, p, now).0, p, h, at)
  {
    FreshKept(t, p, h, at, now);
    var u := Expire(t, now);
    assert u.entries[u.index[h]].hash == h;
    assert hash in u.index ==> u.entries[u.index[hash]].hash == hash;
  }

  /** A submit or enqueue of the key with hash zero, whose slot always looks free, starts it afresh. */
  predicate Rewrites(h: nat, hash: nat, op: Op) {
    h == 0 && hash == 0 && (op.Submit? || op.Enqueue?)
  }

  lemma TouchSticks(t: Tracker, p: Policy, h: nat, at: int, hash: nat, lane: nat, now: int)
    requires Coherent(t) && Held(t, p, h, at) && (h != 0 || hash != 0) && at <= now
    requires !Stale(t.entries[t.index[h]], t.cfg.window, now) && h in Touch(t, hash, lane, now).0.index
    ensures Held(Touch(t, hash, lane, now).0, p, h, at)
    ensures hash != h ==> Touch(t, hash, lane, now).1 != Touch(t, hash, lane, now).0.index[h]
  {
    assert t.entries[t.index[h]].hash == h;
    assert hash in t.index ==> t.entries[t.index[hash]].hash == hash;
  }

  lemma NoteSticks(t: Tracker, p: Policy, h: nat, at: int, hash: nat, op: Op, now: int)
    requires Coherent(t) && Sticky(t.cfg, p) && Held(t, p, h, at) && at <= now < at + p.cooldown
    requires h in Observe(t, hash, op, now).index && !Rewrites(h, hash, op)
    ensures Held(Observe(t, hash, op, now), p, h, at)
  {
    if op.Submit? || op.Enqueue? {
      FreshKept(t, p, h, at, now);
      TouchSticks(Expire(t, now), p, h, at, hash, op.lane, now);
    } else {
      assert t.entries[t.index[h]].hash == h;
      assert hash in t.index ==> t.entries[t.index[hash]].hash == hash;
    }
  }

  /** The answers key `h` got along a run. */
  function Answers(t: Tracker, p: Policy, evs: seq<Event>, h: nat): seq<Decision>
    requires Coherent(t)
    decreases |evs|
  {
    if evs == [] then []
    else
      (if evs[0].Attempt? && evs[0].hash == h then [Evaluate(t, h, evs[0].load, p, evs[0].now).1] else [])
      + Answers(Step(t, p, evs[0]), p, evs[1..], h)
  }

  /** Key `h` is never evicted. */
  predicate NeverEvicted(t: Tracker, p: Policy, evs: seq<Event>, h: nat)
    requires Coherent(t)
    decreases |evs|
  {
    h in t.index && (evs != [] ==> NeverEvicted(Step(t, p, evs[0]), p, evs[1..], h))
  }

  /** No event rewrites key `h`: no condition at all for a hash other than zero. */
  predicate NeverRewritten(evs: seq<Event>, h: nat) {
    forall i :: 0 <= i < |evs| && evs[i].Note? ==> !Rewrites(h, evs[i].hash, evs[i].op)
  }

  /** Time does not go back, and every event comes less than a cooldown after key `h`'s last attempt. */
  predicate Prompt(evs: seq<Event>, h: nat, cooldown: int, at: int, clock: int)
    decreases |evs|
  {
    evs != [] ==>
      && clock <= evs[0].now < at + cooldown
      && Prompt(evs[1..], h, cooldown,
                if evs[0].Attempt? && evs[0].hash == h then evs[0].now else at, evs[0].now)
  }

  /**
   * Once mitigated, a key is refused at every later attempt made less than a cooldown after the
   * one before, however many there are and whatever else the tracker observes in between.
   */
  lemma {:induction false} MitigationSticks(t: Tracker, p: Policy, evs: seq<Event>, h: nat, at: int, clock: int)
    requires Coherent(t) && Sticky(t.cfg, p) && at <= clock && NeverRewritten(evs, h)
    requires Held(t, p, h, at) && NeverEvicted(t, p, evs, h) && Prompt(evs, h, p.cooldown, at, clock)
    ensures forall d :: d in Answers(t, p, evs, h) ==> d.action != Allow
    decreases |evs|
  {
    if evs != [] {
      var ev, u := evs[0], Step(t, p, evs[0]);
      assert h in u.index;
      match ev {
        case Note(hash, op, now) =>
          NoteSticks(t, p, h, at, hash, op, now);
          MitigationSticks(u, p, evs[1..], h, at, now);
        case Attempt(hash, load, now) =>
          if hash == h {
            AttemptSticks(t, p, h, at, load, now);
            MitigationSticks(u, p, evs[1..], h, now, now);
          } else {
            OthersAttempt(t, p, h, at, hash, load, now);
            MitigationSticks(u, p, evs[1..], h, at, now);
          }
      }
    }
  }

  /** Any refusal of a key puts it in the state `MitigationSticks` starts from. */
  lemma RefusalHolds(t: Tracker, p: Policy, h: nat, load: Load, now: int)
    requires Coherent(t) && Sticky(t.cfg, p)
    requires Evaluate(t, h, load, p, now).1.action != Allow
    ensures Held(Evaluate(t, h, load, p, now).0, p, h, now)
  {
    assert Coherent(Expire(t, now));
  }

  /** The way out: past the recovery window a key that is no longer hot is let in and its record wiped. */
  lemma RecoveryOpens(t: Tracker, p: Policy, h: nat, load: Load, now: int)
    requires Coherent(t) && h in t.index && p.enabled && t.entries != []
    requires !Stale(t.entries[t.index[h]], t.cfg.window, now)
    requires 0 < t.entries[t.index[h]].recoveryUntil <= now
    requires Heat(t.entries[t.index[h]], t.cfg, load,
                  FreshSubmitted(t.entries, t.cfg.window, now, |t.entries|),
                  FreshQueued(t.entries, t.cfg.window, now, |t.entries|)).0 == NotHot
    ensures Evaluate(t, h, load, p, now).1.action == Allow
    ensures var u := Evaluate(t, h, load, p, now).0;
      h in u.index && !Mitigating(u.entries[u.index[h]].lastAction)
  {
    ExpireExactly(t, now);
    TotalsAgree(t, now, |t.entries|);
  }

  /** What is left of the key with hash zero once it was submitted or enqueued: a fresh slot. */
  lemma RewrittenSlot(t: Tracker, op: Op, now: int)
    requires Coherent(t) && 0 in t.index && (op.Submit? || op.Enqueue?)
    ensures var u := Observe(t, 0, op, now);
      0 in u.index && u.entries[u.index[0]] == Noted(Fresh(0, op.lane, now), op, now)
  {
    ExpireExactly(t, now);
  }

  /**
   * The condition is exact: after a submit the next attempt of the key with hash zero is let in, after
   * an enqueue it is refused exactly if a single queued job is already the limit, whatever mitigation
   * it was under before.
   */
  lemma ZeroHashForgets(t: Tracker, p: Policy, op: Op, now: int, load: Load, later: int)
    requires Coherent(t) && 0 in t.index && p.enabled && p.minStatus != NotHot && (op.Submit? || op.Enqueue?)
    ensures Evaluate(Observe(t, 0, op, now), 0, load, p, later).1.action ==
      if op.Enqueue? && p.maxQueued == 1 then Throttle else Allow
  {
    RewrittenSlot(t, op, now);
    ZeroHashJudged(Observe(t, 0, op, now), p, load, later);
    FreshJudged(Noted(Fresh(0, op.lane, now), op, now), p, load.pressure, later, op);
  }

  /** The key with hash zero is never hot, and never expires: its slot alone decides. */
  lemma ZeroHashJudged(t: Tracker, p: Policy, load: Load, now: int)
    requires Coherent(t) && 0 in t.index && p.enabled
    ensures var v := Judge(t.entries[t.index[0]], NotHot, 0.0, load.pressure, p, now);
      Evaluate(t, 0, load, p, now).1.action == if v.Resolve? then v.action else Allow
  {
    ExpireExactly(t, now);
  }

  lemma FreshJudged(e: Entry, p: Policy, pressure: real, now: int, op: Op)
    requires (op.Submit? || op.Enqueue?) && p.minStatus != NotHot
    requires exists lane, seen :: e == Noted(Fresh(0, lane, seen), op, seen)
    ensures Judge(e, NotHot, 0.0, pressure, p, now) ==
      if op.Enqueue? && p.maxQueued == 1 then Resolve(Throttle, MaxQueuedPerKey) else Pass
  {
  }

  /** A key with hash zero can be under mitigation when that happens. */
  lemma ZeroHashHeld(load: Load)
    ensures var p := Policy(true, Candidate, Throttle, 1, 0, 0.0, 0.0, 10, 10);
      var t := Tracker([BLANK.(lastSeen := 1, queued := 1)], map[0 := 0], Config(10, 0.5, 0.5));
      && Coherent(t) && Sticky(t.cfg, p) && t == Run(Empty(1, t.cfg), p, [Note(0, Enqueue(0), 1)])
      && Evaluate(t, 0, load, p, 2).1.action == Throttle && Held(Evaluate(t, 0, load, p, 2).0, p, 0, 2)
  {
    var p := Policy(true, Candidate, Throttle, 1, 0, 0.0, 0.0, 10, 10);
    var e := Empty(1, Config(10, 0.5, 0.5));
    var t := Tracker([BLANK.(lastSeen := 1, queued := 1)], map[0 := 0], e.cfg);
    ExpireExactly(e, 1);
    assert Expire(e, 1).entries == [BLANK];
    assert Expire(e, 1).index == map[];
    var u := Observe(e, 0, Enqueue(0), 1);
    assert u.entries == t.entries;
    assert u.index == t.index;
    assert Run(u, p, []) == u;
    assert [Note(0, Enqueue(0), 1)][1..] == [];
    ExpireExactly(t, 2);
    RefusalHolds(t, p, 0, load, 2);
  }
}
