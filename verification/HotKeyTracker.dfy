/** The tracker as the program keeps it: slots and index changed in place, scanned by loops. */
module HotKeyTrackers {
  import opened HotKeys
  import opened PerKeyAdmission

  class HotKeyTracker {
    const cfg: Config
    const entries: array<Entry>
    var index: map<nat, nat>

    ghost function View(): Tracker
      reads this, entries
    {
      Tracker(entries[..], index, cfg)
    }

    ghost predicate Valid()
      reads this, entries
    {
      Coherent(View())
    }

    /** A disabled tracker gets no slots. */
    constructor (cfg: Config, enabled: bool, maxTracked: int)
      ensures Valid() && fresh(entries)
      ensures View() == Empty(if enabled && maxTracked > 0 then maxTracked else 0, cfg)
    {
      this.cfg := cfg;
      index := map[];
      var n: nat := if enabled && maxTracked > 0 then maxTracked else 0;
      entries := new Entry[n](_ => BLANK);
      new;
      assert entries[..] == seq(n, _ => BLANK);
    }

    method Put(i: nat, e: Entry)
      requires i < entries.Length
      modifies entries
      ensures View() == old(View()).(entries := old(entries[..])[i := e])
    {
      entries[i] := e;
      assert entries[..] == old(entries[..])[i := e];
    }

    method ClearEntry(i: nat)
      requires Valid() && i < entries.Length
      modifies this`index, entries
      ensures View() == Clear(old(View()), i)
    {
      if entries[i].hash != 0 {
        index := index - {entries[i].hash};
      }
      Put(i, BLANK);
    }

    method ExpireStaleEntries(now: int)
      requires Valid()
      modifies this`index, entries
      ensures View() == Expire(old(View()), now)
    {
      if cfg.window <= 0 {
        NothingExpires(View(), now, entries.Length);
        return;
      }
      var i := 0;
      while i < entries.Length
        invariant 0 <= i <= entries.Length
        invariant Valid() && View() == ExpireFirst(old(View()), now, i)
      {
        var e := entries[i];
        if e.hash != 0 && e.lastSeen != 0 && now - e.lastSeen > cfg.window {
          ClearEntry(i);
        }
        i := i + 1;
      }
    }

    static lemma {:induction false} NothingExpires(t: Tracker, now: int, k: nat)
      requires Coherent(t) && k <= |t.entries| && t.cfg.window <= 0
      ensures ExpireFirst(t, now, k) == t
    {
      if k > 0 {
        NothingExpires(t, now, k - 1);
      }
    }

    method MaybeResetEntry(i: nat, now: int)
      requires Valid() && i < entries.Length
      modifies this`index, entries
      ensures View() == HotKeys.Reset(old(View()), i, now)
    {
      if entries[i].hash != 0 && Stale(entries[i], cfg.window, now) {
        ClearEntry(i);
      }
    }

    method RemoveSlotFromIndex(i: nat)
      requires i < entries.Length
      modifies this`index
      ensures index == Unindex(old(View()), i)
    {
      if entries[i].hash != 0 {
        index := index - {entries[i].hash};
        return;
      }
      ghost var was := index;
      var rest := index.Keys;
      while rest != {}
        invariant rest <= was.Keys
        invariant index == map h | h in was && (h in rest || was[h] != i) :: was[h]
        decreases rest
      {
        var h :| h in rest;
        if index[h] == i {
          index := index - {h};
        }
        rest := rest - {h};
      }
    }

    method InitSlot(i: nat, hash: nat, lane: nat, now: int)
      requires i < entries.Length
      modifies this`index, entries
      ensures View() == Init(old(View()), i, hash, lane, now)
    {
      Put(i, Fresh(hash, lane, now));
      index := index[hash := i];
    }

    /** First a free slot, else the least recently seen one. */
    method ChooseSlot() returns (slot: nat)
      requires entries.Length > 0
      ensures slot == SlotFor(entries[..])
    {
      ghost var es := entries[..];
      var i := 0;
      while i < entries.Length
        invariant 0 <= i <= entries.Length
        invariant FirstFree(es, 0) == FirstFree(es, i)
      {
        if entries[i].hash == 0 {
          return i;
        }
        i := i + 1;
      }
      slot := 0;
      i := 1;
      while i < entries.Length
        invariant 1 <= i <= entries.Length
        invariant slot == Oldest(es, i)
      {
        if entries[i].lastSeen < entries[slot].lastSeen {
          slot := i;
        }
        i := i + 1;
      }
    }

    method AllocateSlot(hash: nat, lane: nat, now: int) returns (slot: nat)
      requires Valid() && entries.Length > 0 && hash !in index
      modifies this`index, entries
      ensures View() == Allocate(old(View()), hash, lane, now)
      ensures slot == SlotFor(old(entries[..]))
    {
      slot := ChooseSlot();
      RemoveSlotFromIndex(slot);
      InitSlot(slot, hash, lane, now);
    }

    method TouchKey(hash: nat, lane: nat, now: int) returns (slot: nat)
      requires Valid() && entries.Length > 0
      modifies this`index, entries
      ensures (View(), slot) == Touch(old(View()), hash, lane, now)
    {
      if hash in index {
        slot := index[hash];
        MaybeResetEntry(slot, now);
        if entries[slot].hash == 0 {
          InitSlot(slot, hash, lane, now);
        } else {
          Put(slot, entries[slot].(lane := lane, lastSeen := now));
        }
      } else {
        slot := AllocateSlot(hash, lane, now);
      }
    }

    method ObserveSubmit(hash: nat, lane: nat, now: int)
      requires Valid()
      modifies this`index, entries
      ensures View() == Observe(old(View()), hash, Submit(lane), now)
      ensures Valid()
    {
      if entries.Length > 0 {
        ExpireStaleEntries(now);
        var i := TouchKey(hash, lane, now);
        Put(i, entries[i].(submitted := entries[i].submitted + 1));
      }
    }

    method ObserveEnqueue(hash: nat, lane: nat, now: int)
      requires Valid()
      modifies this`index, entries
      ensures View() == Observe(old(View()), hash, Enqueue(lane), now)
      ensures Valid()
    {
      if entries.Length > 0 {
        ExpireStaleEntries(now);
        var i := TouchKey(hash, lane, now);
        Put(i, entries[i].(queued := entries[i].queued + 1));
      }
    }

    /** The slot of a tracked key, blanked first if it went stale; such a slot is still written to. */
    method EntryIfFresh(hash: nat, now: int) returns (found: bool, i: nat)
      requires Valid()
      modifies this`index, entries
      ensures found <==> hash in old(index)
      ensures found ==> i == old(index)[hash] && i < entries.Length && View() == HotKeys.Reset(old(View()), i, now)
      ensures !found ==> View() == old(View())
    {
      if hash !in index {
        return false, 0;
      }
      found, i := true, index[hash];
      MaybeResetEntry(i, now);
    }

    method ObserveDequeue(hash: nat, now: int)
      requires Valid()
      modifies this`index, entries
      ensures View() == Observe(old(View()), hash, Dequeue, now)
      ensures Valid()
    {
      var found, i := EntryIfFresh(hash, now);
      if found {
        var e := entries[i];
        if e.queued > 0 {
          e := e.(queued := e.queued - 1);
        }
        Put(i, e.(lastSeen := now));
      }
    }

    method ObserveReject(hash: nat, now: int)
      requires Valid()
      modifies this`index, entries
      ensures View() == Observe(old(View()), hash, Refuse, now)
      ensures Valid()
    {
      var found, i := EntryIfFresh(hash, now);
      if found {
        Put(i, entries[i].(rejected := entries[i].rejected + 1, lastSeen := now));
      }
    }

    method ObserveQueueWait(hash: nat, nanos: nat, now: int)
      requires Valid()
      modifies this`index, entries
      ensures View() == Observe(old(View()), hash, Wait(nanos), now)
      ensures Valid()
    {
      if nanos == 0 {
        return;
      }
      var found, i := EntryIfFresh(hash, now);
      if found {
        Put(i, entries[i].(waited := entries[i].waited + nanos, lastSeen := now));
      }
    }

    method ObserveInflightStart(hash: nat, now: int)
      requires Valid()
      modifies this`index, entries
      ensures View() == Observe(old(View()), hash, Start, now)
      ensures Valid()
    {
      var found, i := EntryIfFresh(hash, now);
      if found {
        Put(i, entries[i].(inflight := entries[i].inflight + 1, lastSeen := now));
      }
    }

    method ObserveInflightEnd(hash: nat, now: int)
      requires Valid()
      modifies this`index, entries
      ensures View() == Observe(old(View()), hash, End, now)
      ensures Valid()
    {
      var found, i := EntryIfFresh(hash, now);
      if found {
        var e := entries[i];
        if e.inflight > 0 {
          e := e.(inflight := e.inflight - 1);
        }
        Put(i, e.(lastSeen := now));
      }
    }

    method Totals() returns (submitted: nat, queued: nat)
      ensures submitted == Submitted(entries[..], entries.Length)
      ensures queued == Queued(entries[..], entries.Length)
    {
      submitted, queued := 0, 0;
      var i := 0;
      while i < entries.Length
        invariant 0 <= i <= entries.Length
        invariant submitted == Submitted(entries[..], i) && queued == Queued(entries[..], i)
      {
        if entries[i].hash != 0 {
          submitted := submitted + entries[i].submitted;
          if entries[i].queued > 0 {
            queued := queued + entries[i].queued;
          }
        }
        i := i + 1;
      }
    }

    method TotalsForObservation(now: int) returns (submitted: nat, queued: nat)
      ensures submitted == FreshSubmitted(entries[..], cfg.window, now, entries.Length)
      ensures queued == FreshQueued(entries[..], cfg.window, now, entries.Length)
    {
      submitted, queued := 0, 0;
      var i := 0;
      while i < entries.Length
        invariant 0 <= i <= entries.Length
        invariant submitted == FreshSubmitted(entries[..], cfg.window, now, i)
        invariant queued == FreshQueued(entries[..], cfg.window, now, i)
      {
        if entries[i].hash != 0 && !Stale(entries[i], cfg.window, now) {
          submitted := submitted + entries[i].submitted;
          if entries[i].queued > 0 {
            queued := queued + entries[i].queued;
          }
        }
        i := i + 1;
      }
    }

    /** Records a resolved decision when it is for real. */
    method ResolveDecision(i: nat, dec: Decision, p: Policy, now: int, apply: bool) returns (d: Decision)
      requires i < entries.Length
      modifies entries
      ensures apply ==>
        View() == old(View()).(entries := old(entries[..])[i := Finish(old(entries[i]), dec.action, p, now)])
      ensures !apply ==> View() == old(View())
      ensures d == dec.(
        retryAfter := if dec.action == Throttle && p.cooldown > 0 then p.cooldown else dec.retryAfter,
        cooldownRemaining :=
          if apply && dec.action != Allow && p.cooldown > 0 then p.cooldown else dec.cooldownRemaining)
    {
      d := dec;
      if dec.action == Throttle && p.cooldown > 0 {
        d := d.(retryAfter := p.cooldown);
      }
      if apply {
        var e := entries[i];
        if dec.action != Allow {
          if p.cooldown > 0 {
            e := e.(cooldownUntil := now + p.cooldown);
            d := d.(cooldownRemaining := p.cooldown);
          }
          if p.recovery > 0 {
            e := e.(recoveryUntil := now + p.recovery);
          }
        }
        Put(i, e.(lastAction := dec.action, lastSeen := now));
      }
    }

    /** The checks on the entry in slot `i`, in the program's order. */
    method Decide(i: nat, dec: Decision, pressure: real, p: Policy, now: int, apply: bool) returns (d: Decision)
      requires i < entries.Length && dec.retryAfter == 0 && dec.cooldownRemaining == CoolingFor(entries[i], now)
      modifies entries
      ensures !apply ==> View() == old(View())
      ensures Decided(old(entries[i]), dec, Judge(old(entries[i]), dec.status, dec.ratio, pressure, p, now),
                      p, now, apply, old(View()), i, View(), d)
    {
      var e := entries[i];
      if e.recoveryUntil > 0 && now >= e.recoveryUntil && dec.status == NotHot {
        if apply {
          Put(i, e.(lastAction := Allow, cooldownUntil := 0, recoveryUntil := 0));
        }
        return ALLOWED;
      }
      var action, reason := Throttle, MaxQueuedPerKey;
      if p.maxQueued > 0 && e.queued >= p.maxQueued {
      } else if p.maxInflight > 0 && e.inflight >= p.maxInflight {
        reason := MaxInflightPerKey;
      } else if && e.submitted > 0 && p.rejectThreshold > 0.0
                && e.rejected as real / e.submitted as real >= p.rejectThreshold {
        action := p.defaultAction;
        if action == Allow || action == Throttle {
          action := Reject;
        }
        reason := HeatReason(dec.status);
      } else if e.cooldownUntil > now && e.lastAction != Allow && e.lastAction != Unset {
        action, reason := e.lastAction, CooldownActive;
      } else if pressure >= OVERLOAD_PRESSURE && Meets(dec.status, p.minStatus) {
        action, reason := p.defaultAction, ShardOverloaded;
      } else if !Meets(dec.status, p.minStatus) {
        return ALLOWED;
      } else if p.pressureThreshold > 0.0 && dec.ratio < p.pressureThreshold {
        return ALLOWED;
      } else {
        action := if p.defaultAction == Allow then Throttle else p.defaultAction;
        reason := HeatReason(dec.status);
      }
      d := ResolveDecision(i, dec.(action := action, reason := reason), p, now, apply);
    }

    /** What a verdict turns into: the answer, and the slot's new content when it is for real. */
    static ghost predicate Decided(e: Entry, dec: Decision, v: Verdict, p: Policy, now: int, apply: bool,
                                   pre: Tracker, i: nat, post: Tracker, d: Decision)
      requires i < |pre.entries|
    {
      match v
      case Recovered => d == ALLOWED && post == if apply then pre.(entries := pre.entries[i := Pardon(e)]) else pre
      case Pass => d == ALLOWED && post == pre
      case Resolve(a, r) =>
        && d == Decision(a, r, dec.status, dec.ratio, RetryAfter(a, p),
                         if apply && a != Allow && p.cooldown > 0 then p.cooldown else CoolingFor(e, now))
        && post == if apply then pre.(entries := pre.entries[i := Finish(e, a, p, now)]) else pre
    }

    /** Evaluates for real, or as a dry run that leaves everything as it was. */
    method EvaluateAdmission(hash: nat, load: Load, p: Policy, now: int, apply: bool) returns (d: Decision)
      requires Valid()
      modifies this`index, entries
      ensures apply ==> (View(), d) == Evaluate(old(View()), hash, load, p, now)
      ensures !apply ==> View() == old(View()) && d == Plan(old(View()), hash, load, p, now)
      ensures Valid()
    {
      if entries.Length == 0 || !p.enabled {
        return ALLOWED;
      }
      if apply {
        ExpireStaleEntries(now);
      }
      if hash !in index || (!apply && Stale(entries[index[hash]], cfg.window, now)) {
        return ALLOWED;
      }
      var submitted: nat, queued: nat;
      if apply {
        submitted, queued := Totals();
      } else {
        submitted, queued := TotalsForObservation(now);
      }
      var i := index[hash];
      var (status, ratio) := Heat(entries[i], cfg, load, submitted, queued);
      d := Decide(i, Decision(Allow, NoReason, status, ratio, 0, CoolingFor(entries[i], now)),
                  load.pressure, p, now, apply);
    }
  }
}
