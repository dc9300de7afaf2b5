/** The bounded hot-key tracker of one shard: a slot array and a hash index kept in step. */
module HotKeys {
  import opened Basics

  datatype Action = Unset | Allow | Throttle | Reject | Shed

  datatype Entry = Entry(
    hash: nat, lane: nat,
    submitted: nat, queued: int, rejected: nat, waited: nat, inflight: int,
    lastSeen: int,
    lastAction: Action, cooldownUntil: int, recoveryUntil: int)

  const BLANK := Entry(0, 0, 0, 0, 0, 0, 0, 0, Unset, 0, 0)

  datatype Config = Config(window: int, depthRatio: real, waitRatio: real)

  /** No slots at all is the disabled tracker. */
  datatype Tracker = Tracker(entries: seq<Entry>, index: map<nat, nat>, cfg: Config)

  predicate Stale(e: Entry, window: int, now: int) {
    e.hash != 0 && window > 0 && e.lastSeen != 0 && now - e.lastSeen > window
  }

  // ---- The index invariant ---------------------------------------------------------------------

  /** Every index entry points at a slot holding that very hash. */
  predicate Sound(t: Tracker) {
    forall h :: h in t.index ==> t.index[h] < |t.entries| && t.entries[t.index[h]].hash == h
  }

  /** Every occupied slot (hash zero marks a free one) is found through the index. */
  predicate Complete(t: Tracker) {
    forall i :: 0 <= i < |t.entries| && t.entries[i].hash != 0 ==>
      t.entries[i].hash in t.index && t.index[t.entries[i].hash] == i
  }

  predicate Coherent(t: Tracker) {
    Sound(t) && Complete(t)
  }

  // ---- Operations ------------------------------------------------------------------------------

  function Clear(t: Tracker, i: nat): (r: Tracker)
    requires Coherent(t) && i < |t.entries|
    ensures Coherent(r) && |r.entries| == |t.entries| && r.cfg == t.cfg
  {
    var e := t.entries[i];
    t.(index := if e.hash != 0 then t.index - {e.hash} else t.index, entries := t.entries[i := BLANK])
  }

  /** Expires the stale entries among the first `k` slots. */
  function ExpireFirst(t: Tracker, now: int, k: nat): (r: Tracker)
    requires Coherent(t) && k <= |t.entries|
    ensures Coherent(r) && |r.entries| == |t.entries| && r.cfg == t.cfg
  {
    if k == 0 then t
    else
      var p := ExpireFirst(t, now, k - 1);
      if Stale(p.entries[k - 1], t.cfg.window, now) then Clear(p, k - 1) else p
  }

  function Expire(t: Tracker, now: int): (r: Tracker)
    requires Coherent(t)
    ensures Coherent(r) && |r.entries| == |t.entries| && r.cfg == t.cfg
  {
    ExpireFirst(t, now, |t.entries|)
  }

  function Reset(t: Tracker, i: nat, now: int): (r: Tracker)
    requires Coherent(t) && i < |t.entries|
    ensures Coherent(r) && |r.entries| == |t.entries| && r.cfg == t.cfg
  {
    if Stale(t.entries[i], t.cfg.window, now) then Clear(t, i) else t
  }

  /** Drops whatever the index holds for slot `i`. */
  function Unindex(t: Tracker, i: nat): map<nat, nat>
    requires i < |t.entries|
  {
    if t.entries[i].hash != 0 then t.index - {t.entries[i].hash}
    else map h | h in t.index && t.index[h] != i :: t.index[h]
  }

  function Fresh(hash: nat, lane: nat, now: int): Entry {
    BLANK.(hash := hash, lane := lane, lastSeen := now)
  }

  function Init(t: Tracker, i: nat, hash: nat, lane: nat, now: int): Tracker
    requires i < |t.entries|
  {
    t.(entries := t.entries[i := Fresh(hash, lane, now)], index := t.index[hash := i])
  }

  /** Hands a free slot, or failing that the least recently seen one, to an untracked key. */
  function Allocate(t: Tracker, hash: nat, lane: nat, now: int): (r: Tracker)
    requires Coherent(t) && t.entries != [] && hash !in t.index
    ensures Coherent(r) && |r.entries| == |t.entries| && r.cfg == t.cfg
  {
    var i := SlotFor(t.entries);
    Init(t.(index := Unindex(t, i)), i, hash, lane, now)
  }

  /** The first free slot at or after `i`, or the slot count. */
  function FirstFree(es: seq<Entry>, i: nat): (r: nat)
    requires i <= |es|
    ensures i <= r <= |es|
    ensures r < |es| ==> es[r].hash == 0
    ensures forall j :: i <= j < r ==> es[j].hash != 0
    decreases |es| - i
  {
    if i == |es| || es[i].hash == 0 then i else FirstFree(es, i + 1)
  }

  /** The first slot, among the first `k`, that was seen longest ago. */
  function Oldest(es: seq<Entry>, k: nat): (r: nat)
    requires 0 < k <= |es|
    ensures r < k
    ensures forall j :: 0 <= j < k ==> es[r].lastSeen <= es[j].lastSeen
    ensures forall j :: 0 <= j < r ==> es[r].lastSeen < es[j].lastSeen
  {
    if k == 1 then 0
    else
      var p := Oldest(es, k - 1);
      if es[k - 1].lastSeen < es[p].lastSeen then k - 1 else p
  }

  function SlotFor(es: seq<Entry>): (r: nat)
    requires es != []
    ensures r < |es|
  {
    var free := FirstFree(es, 0);
    if free < |es| then free else Oldest(es, |es|)
  }

  /**
   * The tracker after touching a key, and the slot that now holds it.  The program also repairs an
   * index entry whose slot holds another hash; coherence rules that case out.
   */
  function Touch(t: Tracker, hash: nat, lane: nat, now: int): (r: (Tracker, nat))
    requires Coherent(t) && t.entries != []
    ensures Coherent(r.0) && |r.0.entries| == |t.entries| && r.0.cfg == t.cfg
    ensures r.1 < |r.0.entries| && r.0.entries[r.1].hash == hash
  {
    if hash in t.index then
      var i := t.index[hash];
      var u := Reset(t, i, now);
      if u.entries[i].hash == 0 then (Init(u, i, hash, lane, now), i)
      else (Edit(u, i, u.entries[i].(lane := lane, lastSeen := now)), i)
    else
      (Allocate(t, hash, lane, now), SlotFor(t.entries))
  }

  /** Changes a slot's data without changing the key it holds. */
  function Edit(t: Tracker, i: nat, e: Entry): (r: Tracker)
    requires Coherent(t) && i < |t.entries| && e.hash == t.entries[i].hash
    ensures Coherent(r) && |r.entries| == |t.entries| && r.cfg == t.cfg
  {
    t.(entries := t.entries[i := e])
  }

  datatype Op =
    | Submit(lane: nat)
    | Enqueue(lane: nat)
    | Dequeue
    | Refuse
    | Wait(nanos: nat)
    | Start
    | End

  /** What an observation does to the slot it reaches. */
  function Noted(e: Entry, op: Op, now: int): (r: Entry)
    ensures r.hash == e.hash
  {
    match op
    case Submit(_) => e.(submitted := e.submitted + 1)
    case Enqueue(_) => e.(queued := e.queued + 1)
    case Dequeue => e.(queued := if e.queued > 0 then e.queued - 1 else e.queued, lastSeen := now)
    case Refuse => e.(rejected := e.rejected + 1, lastSeen := now)
    case Wait(nanos) => e.(waited := e.waited + nanos, lastSeen := now)
    case Start => e.(inflight := e.inflight + 1, lastSeen := now)
    case End => e.(inflight := if e.inflight > 0 then e.inflight - 1 else e.inflight, lastSeen := now)
  }

  /** Submit and enqueue expire and claim a slot; the rest only reach a key that has one. */
  function Observe(t: Tracker, hash: nat, op: Op, now: int): (r: Tracker)
    requires Coherent(t)
    ensures Coherent(r) && |r.entries| == |t.entries| && r.cfg == t.cfg
  {
    if t.entries == [] || op == Wait(0) then t
    else if op.Submit? || op.Enqueue? then
      var (u, i) := Touch(Expire(t, now), hash, op.lane, now);
      Edit(u, i, Noted(u.entries[i], op, now))
    else if hash !in t.index then t
    else
      var u := Reset(t, t.index[hash], now);
      Edit(u, t.index[hash], Noted(u.entries[t.index[hash]], op, now))
  }

  // ---- What expiry does ------------------------------------------------------------------------

  lemma {:induction false} ExpireSlot(t: Tracker, now: int, k: nat, i: nat)
    requires Coherent(t) && k <= |t.entries| && i < |t.entries|
    ensures ExpireFirst(t, now, k).entries[i] ==
      if i < k && Stale(t.entries[i], t.cfg.window, now) then BLANK else t.entries[i]
  {
    if k > 0 {
      ExpireSlot(t, now, k - 1, i);
    }
  }

  lemma ExpireSlots(t: Tracker, now: int, k: nat)
    requires Coherent(t) && k <= |t.entries|
    ensures forall i :: 0 <= i < |t.entries| ==>
      ExpireFirst(t, now, k).entries[i] ==
        if i < k && Stale(t.entries[i], t.cfg.window, now) then BLANK else t.entries[i]
  {
    forall i | 0 <= i < |t.entries|
      ensures ExpireFirst(t, now, k).entries[i] ==
        if i < k && Stale(t.entries[i], t.cfg.window, now) then BLANK else t.entries[i]
    {
      ExpireSlot(t, now, k, i);
    }
  }

  lemma {:induction false} ExpireKeys(t: Tracker, now: int, k: nat)
    requires Coherent(t) && k <= |t.entries|
    ensures forall h :: h in ExpireFirst(t, now, k).index ==>
      h in t.index && t.index[h] == ExpireFirst(t, now, k).index[h]
    ensures forall h :: h in t.index && h !in ExpireFirst(t, now, k).index ==>
      Stale(t.entries[t.index[h]], t.cfg.window, now)
  {
    if k > 0 {
      ExpireKeys(t, now, k - 1);
      ExpireSlots(t, now, k - 1);
    }
  }

  /**
   * Expiry blanks exactly the stale slots and forgets exactly their keys; every other slot and
   * every other index entry is untouched.
   */
  lemma ExpireExactly(t: Tracker, now: int)
    requires Coherent(t)
    ensures forall i :: 0 <= i < |t.entries| ==>
      Expire(t, now).entries[i] == if Stale(t.entries[i], t.cfg.window, now) then BLANK else t.entries[i]
    ensures forall h :: h in Expire(t, now).index <==>
      h in t.index && !Stale(t.entries[t.index[h]], t.cfg.window, now)
    ensures forall h :: h in Expire(t, now).index ==> Expire(t, now).index[h] == t.index[h]
  {
    var u := Expire(t, now);
    ExpireSlots(t, now, |t.entries|);
    ExpireKeys(t, now, |t.entries|);
    forall h
      ensures h in u.index <==> h in t.index && !Stale(t.entries[t.index[h]], t.cfg.window, now)
    {
      if h in t.index && Stale(t.entries[t.index[h]], t.cfg.window, now) {
        assert u.entries[t.index[h]] == BLANK;
      }
    }
  }

  // ---- Whole runs ------------------------------------------------------------------------------

  /** A non-zero hash is indexed at `i` exactly when slot `i` holds it. */
  lemma IndexAgrees(t: Tracker, h: nat, i: nat)
    requires Coherent(t) && h != 0 && i < |t.entries|
    ensures h in t.index && t.index[h] == i <==> t.entries[i].hash == h
  {
    if h in t.index {
      assert t.entries[t.index[h]].hash == h;
    }
  }

  function Hashes(es: seq<Entry>): (r: set<nat>)
    ensures |r| <= |es|
    ensures forall i :: 0 <= i < |es| ==> es[i].hash in r
  {
    if es == [] then {}
    else
      var rest := Hashes(es[..|es| - 1]);
      assert es == es[..|es| - 1] + [es[|es| - 1]];
      rest + {es[|es| - 1].hash}
  }

  lemma IndexBounded(t: Tracker)
    requires Coherent(t)
    ensures |t.index| <= |t.entries|
  {
    assert t.index.Keys <= Hashes(t.entries) by {
      forall h | h in t.index ensures h in Hashes(t.entries) {
        assert t.entries[t.index[h]].hash == h;
      }
    }
    SubsetSize(t.index.Keys, Hashes(t.entries));
    assert |t.index| == |t.index.Keys|;
  }

  /** Room: some slot is free, or holds a key that has gone stale. */
  predicate HasRoom(t: Tracker, now: int) {
    exists i :: 0 <= i < |t.entries| && (t.entries[i].hash == 0 || Stale(t.entries[i], t.cfg.window, now))
  }

  lemma SlotForFull(es: seq<Entry>, j: nat)
    requires j < |es| && es[j].hash != 0 && SlotFor(es) == j
    ensures forall i :: 0 <= i < |es| ==> es[i].hash != 0 && es[j].lastSeen <= es[i].lastSeen
  {
  }

  lemma TouchLoses(t: Tracker, hash: nat, lane: nat, now: int, h: nat)
    requires Coherent(t) && t.entries != [] && h != 0 && h != hash
    requires h in t.index && h !in Touch(t, hash, lane, now).0.index
    ensures forall i :: 0 <= i < |t.entries| ==>
      t.entries[i].hash != 0 && t.entries[t.index[h]].lastSeen <= t.entries[i].lastSeen
  {
    if hash !in t.index {
      assert SlotFor(t.entries) == t.index[h];
      SlotForFull(t.entries, t.index[h]);
    }
  }

  /**
   * A tracked key stops being tracked in one observation only if its own entry was stale, or if
   * the tracker was full of fresh keys and none of them was seen longer ago than this one.
   */
  lemma KeysLeaveForAReason(t: Tracker, hash: nat, op: Op, now: int, h: nat)
    requires Coherent(t) && h != 0 && h in t.index && h !in Observe(t, hash, op, now).index
    ensures
      || Stale(t.entries[t.index[h]], t.cfg.window, now)
      || (&& !HasRoom(t, now)
          && forall i :: 0 <= i < |t.entries| ==> t.entries[t.index[h]].lastSeen <= t.entries[i].lastSeen)
  {
    ExpireExactly(t, now);
    var u := Expire(t, now);
    if !Stale(t.entries[t.index[h]], t.cfg.window, now) {
      assert h in u.index;
      if op.Submit? || op.Enqueue? {
        assert u.entries[u.index[h]].hash == h;
        TouchLoses(u, hash, op.lane, now, h);
        forall i | 0 <= i < |t.entries|
          ensures t.entries[i].hash != 0 && !Stale(t.entries[i], t.cfg.window, now)
          ensures t.entries[t.index[h]].lastSeen <= t.entries[i].lastSeen
        {
          assert u.entries[i].hash != 0;
        }
      }
    }
  }
}
