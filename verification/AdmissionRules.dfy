/** What per-key admission answers, in terms of an entry's counts and the settings, and what a tracked
    key's entry says about the events it has seen. */
module AdmissionRules {
  import opened Basics
  import opened HotKeys
  import opened PerKeyAdmission

  // ---- Heat ----------------------------------------------------------------------------------------

  /** The part is at least the fraction `x` of the whole; nothing is of nothing. */
  predicate AtLeast(part: int, whole: real, x: real) {
    if part > 0 && whole > 0.0 then part as real >= x * whole else 0.0 >= x
  }

  lemma ShareAtLeast(part: int, whole: real, x: real)
    ensures Share(part, whole) >= x <==> AtLeast(part, whole, x)
  {
    if part > 0 && whole > 0.0 {
      var q := part as real / whole;
      assert q * whole == part as real;
      assert q >= x ==> q * whole >= x * whole;
      assert q < x ==> q * whole < x * whole;
    }
  }

  /** Some share of the key reaches a fraction: of the queue, of submissions, or of the time waited. */
  predicate SomeShare(e: Entry, load: Load, submitted: nat, queued: int, x: real, y: real) {
    || AtLeast(e.queued, if load.depth > 0 then load.depth as real else if queued > 0 then queued as real else 0.0, x)
    || AtLeast(e.submitted, if submitted > 0 then submitted as real else 1.0, x)
    || AtLeast(e.waited, load.wait as real, y)
  }

  /**
   * A key is hot if and only if some share of it reaches its threshold, dominant if moreover one reaches
   * seven tenths, and its ratio is the largest share: it reaches exactly the fractions that some share
   * does.
   */
  lemma HeatExactly(e: Entry, cfg: Config, load: Load, submitted: nat, queued: int, x: real)
    ensures var (status, ratio) := Heat(e, cfg, load, submitted, queued);
      var hot := e.hash != 0 && SomeShare(e, load, submitted, queued, cfg.depthRatio, cfg.waitRatio);
      && (status != NotHot <==> hot)
      && (status == Dominant <==> hot && SomeShare(e, load, submitted, queued, 0.7, 0.7))
      && (hot ==> (ratio >= x <==> SomeShare(e, load, submitted, queued, x, x)))
      && (!hot ==> ratio == 0.0)
  {
    var whole := if load.depth == 0 && queued > 0 then queued as real else load.depth as real;
    var subs := if submitted == 0 then 1.0 else submitted as real;
    ShareAtLeast(e.queued, whole, cfg.depthRatio);
    ShareAtLeast(e.submitted, subs, cfg.depthRatio);
    ShareAtLeast(e.waited, load.wait as real, cfg.waitRatio);
    ShareAtLeast(e.queued, whole, 0.7);
    ShareAtLeast(e.submitted, subs, 0.7);
    ShareAtLeast(e.waited, load.wait as real, 0.7);
    ShareAtLeast(e.queued, whole, x);
    ShareAtLeast(e.submitted, subs, x);
    ShareAtLeast(e.waited, load.wait as real, x);
  }

  // ---- The answer ------------------------------------------------------------------------------------

  /** A key's heat in a tracker, against the totals of the keys that are not stale. */
  function KeyHeat(t: Tracker, h: nat, load: Load, now: int): (Status, real)
    requires Coherent(t) && h in t.index
  {
    Heat(t.entries[t.index[h]], t.cfg, load, FreshSubmitted(t.entries, t.cfg.window, now, |t.entries|),
         FreshQueued(t.entries, t.cfg.window, now, |t.entries|))
  }

  /** Its recovery window is over and it is not hot. */
  predicate Excused(e: Entry, status: Status, now: int) {
    0 < e.recoveryUntil <= now && status == NotHot
  }

  predicate QueuesTooMuch(e: Entry, p: Policy) {
    0 < p.maxQueued <= e.queued
  }

  predicate RunsTooMuch(e: Entry, p: Policy) {
    0 < p.maxInflight <= e.inflight
  }

  /** Enough of its submissions were rejected. */
  predicate RejectedOften(e: Entry, p: Policy) {
    e.submitted > 0 && p.rejectThreshold > 0.0 && e.rejected as real >= p.rejectThreshold * e.submitted as real
  }

  predicate CoolsDown(e: Entry, now: int) {
    e.cooldownUntil > now && (e.lastAction == Throttle || e.lastAction == Reject || e.lastAction == Shed)
  }

  predicate HotEnough(status: Status, p: Policy) {
    p.minStatus == NotHot || status == p.minStatus || status == Dominant
  }

  /** Which rule decides, in their order of precedence. */
  datatype Rule = Excuse | QueueLimit | InflightLimit | RejectRatio | Cooldown | Overload | HeatRule | NoRule

  predicate Decides(r: Rule, e: Entry, status: Status, ratio: real, pressure: real, p: Policy, now: int) {
    match r
    case Excuse => Excused(e, status, now)
    case QueueLimit => !Excused(e, status, now) && QueuesTooMuch(e, p)
    case InflightLimit => !Excused(e, status, now) && !QueuesTooMuch(e, p) && RunsTooMuch(e, p)
    case RejectRatio =>
      !Excused(e, status, now) && !QueuesTooMuch(e, p) && !RunsTooMuch(e, p) && RejectedOften(e, p)
    case Cooldown => Unruled(e, status, p, now) && CoolsDown(e, now)
    case Overload =>
      Unruled(e, status, p, now) && !CoolsDown(e, now) && HotEnough(status, p) && pressure >= 0.95
    case HeatRule =>
      && Unruled(e, status, p, now) && !CoolsDown(e, now) && HotEnough(status, p) && pressure < 0.95
      && (p.pressureThreshold <= 0.0 || ratio >= p.pressureThreshold)
    case NoRule =>
      && Unruled(e, status, p, now) && !CoolsDown(e, now)
      && (!HotEnough(status, p) || (pressure < 0.95 && p.pressureThreshold > 0.0 && ratio < p.pressureThreshold))
  }

  predicate Unruled(e: Entry, status: Status, p: Policy, now: int) {
    !Excused(e, status, now) && !QueuesTooMuch(e, p) && !RunsTooMuch(e, p) && !RejectedOften(e, p)
  }

  lemma RatioReached(e: Entry, p: Policy)
    requires e.submitted > 0 && p.rejectThreshold > 0.0
    ensures e.rejected as real / e.submitted as real >= p.rejectThreshold <==>
            e.rejected as real >= p.rejectThreshold * e.submitted as real
  {
    var q, n := e.rejected as real / e.submitted as real, e.submitted as real;
    assert q * n == e.rejected as real;
    assert q >= p.rejectThreshold ==> q * n >= p.rejectThreshold * n;
    assert q < p.rejectThreshold ==> q * n < p.rejectThreshold * n;
  }

  /** The verdict on an entry, by the rule that decides. */
  lemma VerdictExactly(e: Entry, status: Status, ratio: real, pressure: real, p: Policy, now: int, r: Rule)
    requires Decides(r, e, status, ratio, pressure, p, now)
    ensures var v := Judge(e, status, ratio, pressure, p, now);
      var heat := if status == Dominant then DominantHotKey else HotKeyCandidate;
      match r
      case Excuse => v == Recovered
      case QueueLimit => v == Resolve(Throttle, MaxQueuedPerKey)
      case InflightLimit => v == Resolve(Throttle, MaxInflightPerKey)
      case RejectRatio =>
        v == Resolve(if p.defaultAction == Allow || p.defaultAction == Throttle then Reject else p.defaultAction, heat)
      case Cooldown => v == Resolve(e.lastAction, CooldownActive)
      case Overload => v == Resolve(p.defaultAction, ShardOverloaded)
      case HeatRule => v == Resolve(if p.defaultAction == Allow then Throttle else p.defaultAction, heat)
      case NoRule => v == Pass
  {
    if e.submitted > 0 && p.rejectThreshold > 0.0 {
      RatioReached(e, p);
    }
  }

  /** Exactly one rule decides. */
  function RuleFor(e: Entry, status: Status, ratio: real, pressure: real, p: Policy, now: int): (r: Rule)
    ensures Decides(r, e, status, ratio, pressure, p, now)
    ensures forall q :: Decides(q, e, status, ratio, pressure, p, now) ==> q == r
  {
    if Excused(e, status, now) then Excuse
    else if QueuesTooMuch(e, p) then QueueLimit
    else if RunsTooMuch(e, p) then InflightLimit
    else if RejectedOften(e, p) then RejectRatio
    else if CoolsDown(e, now) then Cooldown
    else if !HotEnough(status, p) then NoRule
    else if pressure >= 0.95 then Overload
    else if p.pressureThreshold <= 0.0 || ratio >= p.pressureThreshold then HeatRule
    else NoRule
  }

  /** What a rule makes of a default action, for a key of this status. */
  function ActionBy(r: Rule, e: Entry, p: Policy): Action {
    match r
    case QueueLimit => Throttle
    case InflightLimit => Throttle
    case RejectRatio => if p.defaultAction == Allow || p.defaultAction == Throttle then Reject else p.defaultAction
    case Cooldown => e.lastAction
    case Overload => p.defaultAction
    case HeatRule => if p.defaultAction == Allow then Throttle else p.defaultAction
    case _ => Allow
  }

  function ReasonBy(r: Rule, status: Status): Reason {
    match r
    case QueueLimit => MaxQueuedPerKey
    case InflightLimit => MaxInflightPerKey
    case Cooldown => CooldownActive
    case Overload => ShardOverloaded
    case RejectRatio => if status == Dominant then DominantHotKey else HotKeyCandidate
    case HeatRule => if status == Dominant then DominantHotKey else HotKeyCandidate
    case _ => NoReason
  }

  /**
   * The answer for a tracked key that is not stale, and what it leaves in the key's slot: the action and
   * reason of the deciding rule; a decision that is not to allow restarts the clocks that are set, an
   * excuse clears them, and no count changes.
   */
  lemma AnswerExactly(t: Tracker, h: nat, load: Load, p: Policy, now: int)
    requires Coherent(t) && p.enabled && h in t.index && !Stale(t.entries[t.index[h]], t.cfg.window, now)
    ensures var e := t.entries[t.index[h]];
      var (status, ratio) := KeyHeat(t, h, load, now);
      var r := RuleFor(e, status, ratio, load.pressure, p, now);
      var (u, d) := Evaluate(t, h, load, p, now);
      var a := ActionBy(r, e, p);
      && d.action == a && d.reason == ReasonBy(r, status)
      && d.retryAfter == (if a == Throttle && p.cooldown > 0 then p.cooldown else 0)
      && (d.reason != NoReason ==>
            && d.status == status && d.ratio == ratio
            && d.cooldownRemaining ==
                 if a != Allow && p.cooldown > 0 then p.cooldown
                 else if e.cooldownUntil > now then e.cooldownUntil - now else 0)
      && h in u.index && u.index[h] == t.index[h]
      && var e' := u.entries[u.index[h]];
         && (r == NoRule ==> e' == e)
         && (r == Excuse ==> e' == e.(lastAction := Allow, cooldownUntil := 0, recoveryUntil := 0))
         && (r != NoRule && r != Excuse ==>
               e' == e.(lastAction := a, lastSeen := now,
                        cooldownUntil := if a != Allow && p.cooldown > 0 then now + p.cooldown else e.cooldownUntil,
                        recoveryUntil := if a != Allow && p.recovery > 0 then now + p.recovery else e.recoveryUntil))
  {
    ExpireExactly(t, now);
    TotalsAgree(t, now, |t.entries|);
    var e := t.entries[t.index[h]];
    var (status, ratio) := KeyHeat(t, h, load, now);
    VerdictExactly(e, status, ratio, load.pressure, p, now, RuleFor(e, status, ratio, load.pressure, p, now));
  }

  /** Keys without a slot, or with a stale one, are let through, and so is everything when the tracker or
      the policy is off. */
  lemma UnknownIsAllowed(t: Tracker, h: nat, load: Load, p: Policy, now: int)
    requires Coherent(t)
    requires !p.enabled || t.entries == [] || h !in t.index || Stale(t.entries[t.index[h]], t.cfg.window, now)
    ensures Evaluate(t, h, load, p, now).1.action == Allow && Evaluate(t, h, load, p, now).1.reason == NoReason
  {
    ExpireExactly(t, now);
  }

  /**
   * Why a tracked, fresh key is refused: it is not excused, and it queues or runs too much, was rejected
   * often enough, is cooling down, or is hot enough and, on a shard that is overloaded, the default is
   * not to allow, or else its pressure counts.
   */
  predicate Refused(e: Entry, hot: bool, dominant: bool, pressed: bool, pressure: real, p: Policy, now: int) {
    && !(0 < e.recoveryUntil <= now && !hot)
    && (|| 0 < p.maxQueued <= e.queued
        || 0 < p.maxInflight <= e.inflight
        || RejectedOften(e, p)
        || (e.cooldownUntil > now && e.lastAction != Allow && e.lastAction != Unset)
        || ((p.minStatus == NotHot || (if p.minStatus == Candidate then hot else dominant))
            && if pressure >= 0.95 then p.defaultAction != Allow else pressed))
  }

  lemma RuleRefuses(e: Entry, status: Status, ratio: real, pressure: real, p: Policy, now: int,
                    hot: bool, dominant: bool, pressed: bool)
    requires (status != NotHot <==> hot) && (status == Dominant <==> dominant)
    requires pressed <==> p.pressureThreshold <= 0.0 || ratio >= p.pressureThreshold
    ensures ActionBy(RuleFor(e, status, ratio, pressure, p, now), e, p) != Allow <==>
            Refused(e, hot, dominant, pressed, pressure, p, now)
  {
  }

  /** The key is hot, and dominant, in its counts and the totals of the keys that are not stale. */
  predicate HotKey(t: Tracker, h: nat, load: Load, now: int, dominant: bool)
    requires Coherent(t) && h in t.index
  {
    var e, n := t.entries[t.index[h]], |t.entries|;
    var submitted, queued := FreshSubmitted(t.entries, t.cfg.window, now, n),
                             FreshQueued(t.entries, t.cfg.window, now, n);
    && e.hash != 0 && SomeShare(e, load, submitted, queued, t.cfg.depthRatio, t.cfg.waitRatio)
    && (dominant ==> SomeShare(e, load, submitted, queued, 0.7, 0.7))
  }

  /** No threshold is set, or some share of the hot key reaches it. */
  predicate Pressed(t: Tracker, h: nat, load: Load, p: Policy, now: int)
    requires Coherent(t) && h in t.index
  {
    var n := |t.entries|;
    || p.pressureThreshold <= 0.0
    || (HotKey(t, h, load, now, false)
        && SomeShare(t.entries[t.index[h]], load, FreshSubmitted(t.entries, t.cfg.window, now, n),
                     FreshQueued(t.entries, t.cfg.window, now, n), p.pressureThreshold, p.pressureThreshold))
  }

  lemma HeatOfKey(t: Tracker, h: nat, load: Load, p: Policy, now: int)
    requires Coherent(t) && h in t.index
    ensures var (status, ratio) := KeyHeat(t, h, load, now);
      && (status != NotHot <==> HotKey(t, h, load, now, false))
      && (status == Dominant <==> HotKey(t, h, load, now, true))
      && (p.pressureThreshold <= 0.0 || ratio >= p.pressureThreshold <==> Pressed(t, h, load, p, now))
  {
    var n := |t.entries|;
    HeatExactly(t.entries[t.index[h]], t.cfg, load, FreshSubmitted(t.entries, t.cfg.window, now, n),
                FreshQueued(t.entries, t.cfg.window, now, n), p.pressureThreshold);
  }

  /** When a tracked, fresh key is refused, in its counts and the settings alone. */
  lemma RefusedExactly(t: Tracker, h: nat, load: Load, p: Policy, now: int)
    requires Coherent(t) && p.enabled && h in t.index && !Stale(t.entries[t.index[h]], t.cfg.window, now)
    ensures Evaluate(t, h, load, p, now).1.action != Allow <==>
            Refused(t.entries[t.index[h]], HotKey(t, h, load, now, false), HotKey(t, h, load, now, true),
                    Pressed(t, h, load, p, now), load.pressure, p, now)
  {
    AnswerExactly(t, h, load, p, now);
    HeatOfKey(t, h, load, p, now);
    var (status, ratio) := KeyHeat(t, h, load, now);
    RuleRefuses(t.entries[t.index[h]], status, ratio, load.pressure, p, now,
                HotKey(t, h, load, now, false), HotKey(t, h, load, now, true), Pressed(t, h, load, p, now));
  }

  // ---- Totals ------------------------------------------------------------------------------------------

  lemma {:induction false} TotalsPrefix(a: seq<Entry>, b: seq<Entry>, window: int, now: int, k: nat)
    requires k <= |a|
    ensures FreshSubmitted(a + b, window, now, k) == FreshSubmitted(a, window, now, k)
    ensures FreshQueued(a + b, window, now, k) == FreshQueued(a, window, now, k)
  {
    if k > 0 {
      TotalsPrefix(a, b, window, now, k - 1);
    }
  }

  /** The totals add up over any split of the slots; a slot adds its submissions and its queued jobs,
      never less than none, if it is taken and not stale. */
  lemma {:induction false} TotalsAddUp(a: seq<Entry>, b: seq<Entry>, window: int, now: int)
    ensures FreshSubmitted(a + b, window, now, |a + b|)
         == FreshSubmitted(a, window, now, |a|) + FreshSubmitted(b, window, now, |b|)
    ensures FreshQueued(a + b, window, now, |a + b|)
         == FreshQueued(a, window, now, |a|) + FreshQueued(b, window, now, |b|)
    ensures |b| == 1 ==>
      var e := b[0];
      var counts := e.hash != 0 && !(window > 0 && e.lastSeen != 0 && now - e.lastSeen > window);
      && FreshSubmitted(b, window, now, 1) == (if counts then e.submitted else 0)
      && FreshQueued(b, window, now, 1) == (if counts && e.queued > 0 then e.queued else 0)
    decreases |b|
  {
    if b == [] {
      assert a + b == a;
    } else {
      var n := |b| - 1;
      TotalsAddUp(a, b[..n], window, now);
      assert a + b == (a + b[..n]) + [b[n]] && b == b[..n] + [b[n]];
      TotalsPrefix(a + b[..n], [b[n]], window, now, |a| + n);
      TotalsPrefix(b[..n], [b[n]], window, now, n);
      if n == 0 {
        assert FreshSubmitted(b, window, now, 0) == 0 && FreshQueued(b, window, now, 0) == 0;
      }
    }
  }
}
