/** What the entry of a tracked key says about the events since it got its slot. */
module KeyHistory {
  import opened Basics
  import opened HotKeys
  import opened PerKeyAdmission
  import opened AdmissionRules

  // ---- What one event does to an entry -------------------------------------------------------------

  /** The key's own submissions and enqueues refresh its lane; all its events but an empty wait refresh
      the time it was last seen. */
  function Seen(e: Entry, op: Op, now: int): Entry {
    match op
    case Submit(lane) => e.(submitted := e.submitted + 1, lane := lane, lastSeen := now)
    case Enqueue(lane) => e.(queued := e.queued + 1, lane := lane, lastSeen := now)
    case Dequeue => e.(queued := Less(e.queued), lastSeen := now)
    case Refuse => e.(rejected := e.rejected + 1, lastSeen := now)
    case Wait(nanos) => if nanos == 0 then e else e.(waited := e.waited + nanos, lastSeen := now)
    case Start => e.(inflight := e.inflight + 1, lastSeen := now)
    case End => e.(inflight := Less(e.inflight), lastSeen := now)
  }

  /** One less, down to none. */
  function Less(n: int): int {
    if n > 0 then n - 1 else n
  }

  /** Key `h` has a slot that is not stale at `now`. */
  predicate Present(t: Tracker, h: nat, now: int)
    requires Coherent(t)
  {
    h in t.index && !Stale(t.entries[t.index[h]], t.cfg.window, now)
  }

  lemma OwnNote(t: Tracker, h: nat, op: Op, now: int)
    requires Coherent(t) && Present(t, h, now) && !Rewrites(h, h, op)
    ensures var u := Observe(t, h, op, now);
            h in u.index && u.index[h] == t.index[h] && u.entries[u.index[h]] == Seen(t.entries[t.index[h]], op, now)
  {
    ExpireExactly(t, now);
    assert t.entries[t.index[h]].hash == h;
  }

  lemma OthersNote(t: Tracker, h: nat, hash: nat, op: Op, now: int)
    requires Coherent(t) && Present(t, h, now) && hash != h && h in Observe(t, hash, op, now).index
    ensures var u := Observe(t, hash, op, now);
            u.index[h] == t.index[h] && u.entries[u.index[h]] == t.entries[t.index[h]]
  {
    ExpireExactly(t, now);
    var u := Expire(t, now);
    assert t.entries[t.index[h]].hash == h;
    assert u.entries[u.index[h]].hash == h;
    assert hash in t.index ==> t.entries[t.index[hash]].hash == hash;
    assert hash in u.index ==> u.entries[u.index[hash]].hash == hash;
    assert Observe(t, hash, op, now).entries[Observe(t, hash, op, now).index[h]].hash == h;
  }

  lemma SlotTaken(t: Tracker, h: nat, op: Op, now: int)
    requires Coherent(t) && t.entries != [] && (op.Submit? || op.Enqueue?)
    requires h !in t.index || Stale(t.entries[t.index[h]], t.cfg.window, now)
    ensures var u := Observe(t, h, op, now);
            h in u.index && u.entries[u.index[h]] == Seen(BLANK.(hash := h), op, now)
  {
    ExpireExactly(t, now);
  }

  /** Any other observation of a key that has gone stale forgets it and frees its slot. */
  lemma StaleIsForgotten(t: Tracker, h: nat, op: Op, now: int)
    requires Coherent(t) && h in t.index && Stale(t.entries[t.index[h]], t.cfg.window, now)
    requires !op.Submit? && !op.Enqueue? && op != Wait(0)
    ensures var u := Observe(t, h, op, now);
            h !in u.index && u.entries[t.index[h]].hash == 0
  {
    assert t.entries[t.index[h]].hash == h;
  }

  /** A submission, an enqueue or an evaluation of any key sweeps out every stale one but, maybe, its own. */
  lemma SweepsStale(t: Tracker, p: Policy, ev: Event, h: nat)
    requires Coherent(t) && t.entries != [] && h in t.index && Stale(t.entries[t.index[h]], t.cfg.window, ev.now)
    requires ev.hash != h && (if ev.Note? then ev.op.Submit? || ev.op.Enqueue? else p.enabled)
    ensures h !in Step(t, p, ev).index
  {
    ExpireExactly(t, ev.now);
    assert t.entries[t.index[h]].hash == h;
  }

  lemma OwnAttempt(t: Tracker, p: Policy, h: nat, load: Load, now: int)
    requires Coherent(t) && Present(t, h, now)
    ensures var (u, d) := Evaluate(t, h, load, p, now);
      && h in u.index
      && var e, e' := t.entries[t.index[h]], u.entries[u.index[h]];
         && e'.submitted == e.submitted && e'.queued == e.queued && e'.rejected == e.rejected
         && e'.waited == e.waited && e'.inflight == e.inflight && e'.lane == e.lane
         && e'.lastSeen == if d.reason != NoReason then now else e.lastSeen
  {
    if p.enabled {
      AnswerExactly(t, h, load, p, now);
    }
  }

  lemma OthersTry(t: Tracker, p: Policy, h: nat, hash: nat, load: Load, now: int)
    requires Coherent(t) && Present(t, h, now) && hash != h
    ensures var u := Evaluate(t, hash, load, p, now).0;
            h in u.index && u.index[h] == t.index[h] && u.entries[u.index[h]] == t.entries[t.index[h]]
  {
    ExpireExactly(t, now);
    var u := Expire(t, now);
    assert u.entries[u.index[h]].hash == h;
    assert hash in u.index ==> u.entries[u.index[hash]].hash == hash;
  }

  // ---- What a sequence of events adds up to ----------------------------------------------------------

  /** The event is an observation of key `h`. */
  predicate Notes(ev: Event, h: nat) {
    ev.Note? && ev.hash == h
  }

  function Submissions(evs: seq<Event>, h: nat): nat {
    if evs == [] then 0 else One(Notes(evs[0], h) && evs[0].op.Submit?) + Submissions(evs[1..], h)
  }

  function Refusals(evs: seq<Event>, h: nat): nat {
    if evs == [] then 0 else One(Notes(evs[0], h) && evs[0].op.Refuse?) + Refusals(evs[1..], h)
  }

  function WaitIn(ev: Event, h: nat): nat {
    if Notes(ev, h) && ev.op.Wait? then ev.op.nanos else 0
  }

  function Waited(evs: seq<Event>, h: nat): nat {
    if evs == [] then 0 else WaitIn(evs[0], h) + Waited(evs[1..], h)
  }

  /** Enqueues less dequeues, where a dequeue of none counts for nothing. */
  function InQueue(start: int, evs: seq<Event>, h: nat): int
    decreases |evs|
  {
    if evs == [] then start else InQueue(QueueAfter(start, evs[0], h), evs[1..], h)
  }

  function QueueAfter(n: int, ev: Event, h: nat): int {
    if !Notes(ev, h) then n else if ev.op.Enqueue? then n + 1 else if ev.op.Dequeue? then Less(n) else n
  }

  /** Starts less ends, likewise. */
  function InFlight(start: int, evs: seq<Event>, h: nat): int
    decreases |evs|
  {
    if evs == [] then start else InFlight(FlightAfter(start, evs[0], h), evs[1..], h)
  }

  function FlightAfter(n: int, ev: Event, h: nat): int {
    if !Notes(ev, h) then n else if ev.op.Start? then n + 1 else if ev.op.End? then Less(n) else n
  }

  /** The last observation of the key, or the last decision recorded about it. */
  function LastTouched(t: Tracker, p: Policy, evs: seq<Event>, h: nat, start: int): int
    requires Coherent(t)
    decreases |evs|
  {
    if evs == [] then start
    else LastTouched(Step(t, p, evs[0]), p, evs[1..], h, TouchAfter(t, p, evs[0], h, start))
  }

  function TouchAfter(t: Tracker, p: Policy, ev: Event, h: nat, at: int): int
    requires Coherent(t)
  {
    var touches := if ev.Note? then ev.hash == h && ev.op != Wait(0)
                   else ev.hash == h && Evaluate(t, h, ev.load, p, ev.now).1.reason != NoReason;
    if touches then ev.now else at
  }

  /** Key `h` keeps its slot, and no event finds it stale. */
  predicate Stays(t: Tracker, p: Policy, evs: seq<Event>, h: nat)
    requires Coherent(t)
    decreases |evs|
  {
    h in t.index && (evs != [] ==> Present(t, h, evs[0].now) && Stays(Step(t, p, evs[0]), p, evs[1..], h))
  }

  /** The entry is its old self with what the events add up to. */
  predicate Tells(e: Entry, e': Entry, t: Tracker, p: Policy, evs: seq<Event>, h: nat)
    requires Coherent(t)
  {
    && e'.submitted == e.submitted + Submissions(evs, h)
    && e'.rejected == e.rejected + Refusals(evs, h)
    && e'.waited == e.waited + Waited(evs, h)
    && e'.queued == InQueue(e.queued, evs, h)
    && e'.inflight == InFlight(e.inflight, evs, h)
    && e'.lastSeen == LastTouched(t, p, evs, h, e.lastSeen)
  }

  predicate TellsOne(e: Entry, e': Entry, t: Tracker, p: Policy, ev: Event, h: nat)
    requires Coherent(t)
  {
    && e'.submitted == e.submitted + One(Notes(ev, h) && ev.op.Submit?)
    && e'.rejected == e.rejected + One(Notes(ev, h) && ev.op.Refuse?)
    && e'.waited == e.waited + WaitIn(ev, h)
    && e'.queued == QueueAfter(e.queued, ev, h)
    && e'.inflight == FlightAfter(e.inflight, ev, h)
    && e'.lastSeen == TouchAfter(t, p, ev, h, e.lastSeen)
  }

  lemma TellsFirst(t: Tracker, p: Policy, ev: Event, h: nat)
    requires Coherent(t) && Present(t, h, ev.now) && h in Step(t, p, ev).index
    requires ev.Note? ==> !Rewrites(h, ev.hash, ev.op)
    ensures var u := Step(t, p, ev); TellsOne(t.entries[t.index[h]], u.entries[u.index[h]], t, p, ev, h)
  {
    match ev
    case Note(hash, op, now) => if hash == h { OwnNote(t, h, op, now); } else { OthersNote(t, h, hash, op, now); }
    case Attempt(hash, load, now) =>
      if hash == h { OwnAttempt(t, p, h, load, now); } else { OthersTry(t, p, h, hash, load, now); }
  }

  lemma TellsRest(e: Entry, mid: Entry, e': Entry, t: Tracker, p: Policy, evs: seq<Event>, h: nat)
    requires Coherent(t) && evs != [] && TellsOne(e, mid, t, p, evs[0], h)
    requires Tells(mid, e', Step(t, p, evs[0]), p, evs[1..], h)
    ensures Tells(e, e', t, p, evs, h)
  {
  }

  /** While a key keeps its slot, the counts in it are the numbers of its events, and the time it was last
      seen is that of its last observation or recorded decision. */
  lemma {:induction false} EntryTellsHistory(t: Tracker, p: Policy, evs: seq<Event>, h: nat)
    requires Coherent(t) && Stays(t, p, evs, h) && NeverRewritten(evs, h)
    ensures var u := Run(t, p, evs);
            h in u.index && Tells(t.entries[t.index[h]], u.entries[u.index[h]], t, p, evs, h)
    decreases |evs|
  {
    if evs != [] {
      var ev, u := evs[0], Step(t, p, evs[0]);
      TellsFirst(t, p, ev, h);
      EntryTellsHistory(u, p, evs[1..], h);
      var f := Run(u, p, evs[1..]);
      TellsRest(t.entries[t.index[h]], u.entries[u.index[h]], f.entries[f.index[h]], t, p, evs, h);
    }
  }

  /** A key gets its slot with one submission or one queued job, and everything else from nothing; so
      from then on the counts are the numbers of events since. */
  lemma HistorySinceSlot(t: Tracker, p: Policy, ev: Event, evs: seq<Event>, h: nat)
    requires Coherent(t) && t.entries != [] && Notes(ev, h) && (ev.op.Submit? || ev.op.Enqueue?)
    requires h !in t.index || Stale(t.entries[t.index[h]], t.cfg.window, ev.now)
    requires Stays(Step(t, p, ev), p, evs, h) && NeverRewritten(evs, h)
    ensures var u := Run(Step(t, p, ev), p, evs);
      && h in u.index
      && var e := u.entries[u.index[h]];
         && e.submitted == One(ev.op.Submit?) + Submissions(evs, h)
         && e.queued == InQueue(One(ev.op.Enqueue?), evs, h)
         && e.rejected == Refusals(evs, h) && e.waited == Waited(evs, h) && e.inflight == InFlight(0, evs, h)
         && e.lastSeen == LastTouched(Step(t, p, ev), p, evs, h, ev.now)
  {
    SlotTaken(t, h, ev.op, ev.now);
    EntryTellsHistory(Step(t, p, ev), p, evs, h);
  }
}
