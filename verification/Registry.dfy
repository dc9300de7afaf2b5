/** The bounded registry of pending continuations. */
module Registry {
  import opened Basics

  datatype Kind = Complete | Fail | Cancel

  /** `maxPending` and `maxPerShard` are unlimited when not positive. */
  datatype Reg = Reg(
    maxPending: int, maxPerShard: int,
    pending: map<nat, nat>, perShard: map<nat, nat>, nextId: nat,
    completed: nat, failed: nat, cancelled: nat, late: nat)

  function OnShard(r: Reg, shard: nat): nat {
    if shard in r.perShard then r.perShard[shard] else 0
  }

  predicate HasRoom(r: Reg, shard: nat) {
    && !(r.maxPending > 0 && |r.pending| >= r.maxPending)
    && !(r.maxPerShard > 0 && OnShard(r, shard) >= r.maxPerShard)
  }

  function Register(r: Reg, id: nat, shard: nat): Reg {
    if HasRoom(r, shard)
    then r.(pending := r.pending[id := shard], perShard := r.perShard[shard := OnShard(r, shard) + 1])
    else r
  }

  /** Takes an entry out; `Exact` shows the census never goes below zero. */
  function Remove(r: Reg, id: nat): Reg
    requires id in r.pending
  {
    var shard := r.pending[id];
    var left := OnShard(r, shard) - 1;
    r.(pending := r.pending - {id},
       perShard := if left <= 0 then r.perShard - {shard} else r.perShard[shard := left])
  }

  function Tally(r: Reg, kind: Kind): Reg {
    match kind
    case Complete => r.(completed := r.completed + 1)
    case Fail => r.(failed := r.failed + 1)
    case Cancel => r.(cancelled := r.cancelled + 1)
  }

  function Resolve(r: Reg, id: nat, kind: Kind): Reg {
    if id in r.pending then Tally(Remove(r, id), kind) else r.(late := r.late + 1)
  }

  // ---- Laws ------------------------------------------------------------------------------------

  function IdsOn(pending: map<nat, nat>, shard: nat): set<nat> {
    set id | id in pending && pending[id] == shard
  }

  /** The per-shard map is the exact census of pending entries, with no zero entries. */
  predicate Exact(r: Reg) {
    && (forall s :: s in r.perShard ==> r.perShard[s] > 0 && r.perShard[s] == |IdsOn(r.pending, s)|)
    && (forall id :: id in r.pending ==> r.pending[id] in r.perShard)
  }

  predicate Bounded(r: Reg) {
    && (r.maxPending > 0 ==> |r.pending| <= r.maxPending)
    && (r.maxPerShard > 0 ==> forall s :: s in r.perShard ==> r.perShard[s] <= r.maxPerShard)
  }

  predicate Issued(r: Reg) {
    forall id :: id in r.pending ==> id <= r.nextId
  }

  predicate RegLaw(r: Reg) {
    Exact(r) && Bounded(r) && Issued(r)
  }

  function Settled(r: Reg): nat {
    r.completed + r.failed + r.cancelled
  }

  lemma CensusOf(r: Reg, s: nat)
    requires Exact(r)
    ensures OnShard(r, s) == |IdsOn(r.pending, s)|
  {
    if s !in r.perShard {
      assert IdsOn(r.pending, s) == {};
    }
  }

  lemma RegisterExact(r: Reg, id: nat, shard: nat)
    requires Exact(r) && id !in r.pending && HasRoom(r, shard)
    ensures Exact(Register(r, id, shard))
  {
    var r' := Register(r, id, shard);
    CensusOf(r, shard);
    assert IdsOn(r'.pending, shard) == IdsOn(r.pending, shard) + {id};
    forall s | s in r'.perShard ensures r'.perShard[s] > 0 && r'.perShard[s] == |IdsOn(r'.pending, s)| {
      if s != shard {
        assert IdsOn(r'.pending, s) == IdsOn(r.pending, s);
      }
    }
  }

  lemma RegisterKeeps(r: Reg, id: nat, shard: nat)
    requires RegLaw(r) && id !in r.pending && id <= r.nextId
    ensures RegLaw(Register(r, id, shard))
    ensures var r' := Register(r, id, shard);
            && Settled(r') == Settled(r)
            && |r'.pending| == |r.pending| + (if HasRoom(r, shard) then 1 else 0)
  {
    if HasRoom(r, shard) {
      RegisterExact(r, id, shard);
      CensusOf(r, shard);
    }
  }

  lemma RemoveExact(r: Reg, id: nat)
    requires Exact(r) && id in r.pending
    ensures Exact(Remove(r, id))
  {
    var r' := Remove(r, id);
    var shard := r.pending[id];
    CensusOf(r, shard);
    assert IdsOn(r'.pending, shard) == IdsOn(r.pending, shard) - {id};
    forall s | s in r'.perShard ensures r'.perShard[s] > 0 && r'.perShard[s] == |IdsOn(r'.pending, s)| {
      if s != shard {
        assert IdsOn(r'.pending, s) == IdsOn(r.pending, s);
      }
    }
    forall id' | id' in r'.pending ensures r'.pending[id'] in r'.perShard {
      if r'.pending[id'] == shard {
        assert id' in IdsOn(r'.pending, shard);
      }
    }
  }

  lemma RemoveBounded(r: Reg, id: nat)
    requires RegLaw(r) && id in r.pending
    ensures Bounded(Remove(r, id)) && Issued(Remove(r, id))
    ensures |Remove(r, id).pending| == |r.pending| - 1
  {
    assert Remove(r, id).pending.Keys == r.pending.Keys - {id};
    assert |r.pending.Keys - {id}| == |r.pending.Keys| - 1;
  }

  lemma ResolveKeeps(r: Reg, id: nat, kind: Kind)
    requires RegLaw(r)
    ensures RegLaw(Resolve(r, id, kind))
    ensures id !in Resolve(r, id, kind).pending
    ensures Settled(Resolve(r, id, kind)) + |Resolve(r, id, kind).pending| == Settled(r) + |r.pending|
  {
    if id in r.pending {
      RemoveExact(r, id);
      RemoveBounded(r, id);
      assert Exact(Tally(Remove(r, id), kind)) && Bounded(Tally(Remove(r, id), kind));
    }
  }

  // ---- Exactly what is done -----------------------------------------------------------------------

  /** A registration succeeds if and only if there is room for it below both limits, where only the
      pending entries of its own shard count against the second; then that entry is added. */
  lemma RegisterExactly(r: Reg, id: nat, shard: nat)
    requires RegLaw(r) && id !in r.pending
    ensures var r' := Register(r, id, shard);
      var room := (r.maxPending <= 0 || |r.pending| < r.maxPending)
                  && (r.maxPerShard <= 0 || |IdsOn(r.pending, shard)| < r.maxPerShard);
      && r'.pending == (if room then r.pending[id := shard] else r.pending)
      && r' == r.(pending := r'.pending, perShard := r'.perShard)
  {
    CensusOf(r, shard);
  }

  /** Resolving a pending entry takes it out and raises the counter of its kind alone; otherwise it is
      late. */
  lemma ResolveExactly(r: Reg, id: nat, kind: Kind)
    ensures var r', found := Resolve(r, id, kind), id in r.pending;
      && r'.pending == r.pending - {id}
      && r'.completed == r.completed + One(found && kind == Complete)
      && r'.failed == r.failed + One(found && kind == Fail)
      && r'.cancelled == r.cancelled + One(found && kind == Cancel)
      && r'.late == r.late + One(!found)
      && r'.nextId == r.nextId && r'.maxPending == r.maxPending && r'.maxPerShard == r.maxPerShard
  {
    if id !in r.pending {
      assert r.pending - {id} == r.pending;
    }
  }

  // ---- Runs of the registry alone ---------------------------------------------------------------

  /**
   * Allocating an id, registering it and resolving some id are separate operations, so workers may
   * register in another order than they allocated.
   */
  datatype RegOp = Alloc | Enter(id: nat, shard: nat) | Settle(id: nat, kind: Kind)

  /** A registry, with the ids handed out and not yet brought back for registration. */
  datatype Desk = Desk(reg: Reg, out: set<nat>)

  /** A worker brings back the id it was given, once; anyone may try to resolve any id. */
  predicate Allowed(d: Desk, op: RegOp) {
    op.Enter? ==> op.id in d.out
  }

  function Alloc1(r: Reg): Reg {
    r.(nextId := r.nextId + 1)
  }

  function Do(d: Desk, op: RegOp): Desk {
    match op
    case Alloc => Desk(Alloc1(d.reg), d.out + {d.reg.nextId + 1})
    case Enter(id, shard) => Desk(Register(d.reg, id, shard), d.out - {id})
    case Settle(id, kind) => d.(reg := Resolve(d.reg, id, kind))
  }

  predicate AllAllowed(d: Desk, ops: seq<RegOp>)
    decreases |ops|
  {
    ops == [] || (Allowed(d, ops[0]) && AllAllowed(Do(d, ops[0]), ops[1..]))
  }

  function DoAll(d: Desk, ops: seq<RegOp>): Desk
    decreases |ops|
  {
    if ops == [] then d else DoAll(Do(d, ops[0]), ops[1..])
  }

  function Admits(d: Desk, op: RegOp): nat {
    One(op.Enter? && HasRoom(d.reg, op.shard))
  }

  /** How many registrations succeed. */
  function Admitted(d: Desk, ops: seq<RegOp>): nat
    decreases |ops|
  {
    if ops == [] then 0 else Admits(d, ops[0]) + Admitted(Do(d, ops[0]), ops[1..])
  }

  /** How many times `id` is resolved as found. */
  function Found(d: Desk, ops: seq<RegOp>, id: nat): nat
    decreases |ops|
  {
    if ops == [] then 0
    else One(ops[0].Settle? && ops[0].id == id && id in d.reg.pending) + Found(Do(d, ops[0]), ops[1..], id)
  }

  /** Ids on their way to registration were allocated and are not pending. */
  predicate DeskLaw(d: Desk) {
    RegLaw(d.reg) && forall id :: id in d.out ==> id <= d.reg.nextId && id !in d.reg.pending
  }

  lemma AllocKeeps(r: Reg)
    requires RegLaw(r)
    ensures RegLaw(Alloc1(r)) && Settled(Alloc1(r)) == Settled(r) && r.nextId + 1 !in r.pending
  {
  }

  lemma EnterKeeps(d: Desk, id: nat, shard: nat)
    requires DeskLaw(d) && id in d.out
    ensures DeskLaw(Do(d, Enter(id, shard)))
    ensures var r' := Register(d.reg, id, shard);
      Settled(r') + |r'.pending| == Settled(d.reg) + |d.reg.pending| + One(HasRoom(d.reg, shard))
  {
    RegisterKeeps(d.reg, id, shard);
  }

  lemma AllocDesk(d: Desk)
    requires DeskLaw(d)
    ensures DeskLaw(Do(d, Alloc)) && Settled(Do(d, Alloc).reg) == Settled(d.reg)
  {
    AllocKeeps(d.reg);
  }

  lemma SettleDesk(d: Desk, id: nat, kind: Kind)
    requires DeskLaw(d)
    ensures DeskLaw(Do(d, Settle(id, kind)))
    ensures var r' := Resolve(d.reg, id, kind);
      Settled(r') + |r'.pending| == Settled(d.reg) + |d.reg.pending| && r'.nextId == d.reg.nextId
  {
    ResolveKeeps(d.reg, id, kind);
  }

  lemma DoKeeps(d: Desk, op: RegOp)
    requires DeskLaw(d) && Allowed(d, op)
    ensures DeskLaw(Do(d, op)) && Do(d, op).reg.nextId >= d.reg.nextId
    ensures Settled(Do(d, op).reg) + |Do(d, op).reg.pending| == Settled(d.reg) + |d.reg.pending| + Admits(d, op)
  {
    match op
    case Alloc => AllocDesk(d);
    case Enter(id, shard) => EnterKeeps(d, id, shard);
    case Settle(id, kind) => SettleDesk(d, id, kind);
  }

  lemma {:induction false} FoundOnce(d: Desk, ops: seq<RegOp>, id: nat)
    requires DeskLaw(d) && AllAllowed(d, ops)
    ensures Found(d, ops, id) <= 1
    ensures id !in d.reg.pending && id !in d.out && id <= d.reg.nextId ==> Found(d, ops, id) == 0
    decreases |ops|
  {
    if ops != [] {
      DoKeeps(d, ops[0]);
      FoundOnce(Do(d, ops[0]), ops[1..], id);
      if ops[0].Settle? {
        ResolveKeeps(d.reg, ops[0].id, ops[0].kind);
      }
    }
  }

  lemma {:induction false} BooksBalance(d: Desk, ops: seq<RegOp>)
    requires DeskLaw(d) && AllAllowed(d, ops)
    ensures DeskLaw(DoAll(d, ops))
    ensures Settled(DoAll(d, ops).reg) + |DoAll(d, ops).reg.pending|
         == Settled(d.reg) + |d.reg.pending| + Admitted(d, ops)
    decreases |ops|
  {
    if ops != [] {
      DoKeeps(d, ops[0]);
      BooksBalance(Do(d, ops[0]), ops[1..]);
    }
  }

  function Empty(maxPending: int, maxPerShard: int): Reg {
    Reg(maxPending, maxPerShard, map[], map[], 0, 0, 0, 0, 0)
  }

  /** Over every run of a registry, with allocations, registrations and resolutions in any order: the
      census is exact, both bounds hold, every successful registration is pending or was settled
      one way, and no id is found twice. */
  lemma RegistrySafe(maxPending: int, maxPerShard: int, ops: seq<RegOp>, s: nat, id: nat)
    requires AllAllowed(Desk(Empty(maxPending, maxPerShard), {}), ops)
    ensures var d0 := Desk(Empty(maxPending, maxPerShard), {});
            var r := DoAll(d0, ops).reg;
            && OnShard(r, s) == |IdsOn(r.pending, s)|
            && (r.maxPending > 0 ==> |r.pending| <= r.maxPending)
            && (r.maxPerShard > 0 ==> OnShard(r, s) <= r.maxPerShard)
            && r.completed + r.failed + r.cancelled + |r.pending| == Admitted(d0, ops)
            && Found(d0, ops, id) <= 1
  {
    var d0 := Desk(Empty(maxPending, maxPerShard), {});
    BooksBalance(d0, ops);
    FoundOnce(d0, ops, id);
    CensusOf(DoAll(d0, ops).reg, s);
  }

  // ---- The object ----------------------------------------------------------------------------------

  class ContinuationRegistry {
    const maxPending: int
    const maxPerShard: int
    var pending: map<nat, nat>
    var perShard: map<nat, nat>
    var nextId: nat
    var completed: nat
    var failed: nat
    var cancelled: nat
    var late: nat

    function View(): Reg
      reads this
    {
      Reg(maxPending, maxPerShard, pending, perShard, nextId, completed, failed, cancelled, late)
    }

    constructor (maxPending: int, maxPerShard: int)
      ensures View() == Empty(maxPending, maxPerShard)
    {
      this.maxPending := maxPending;
      this.maxPerShard := maxPerShard;
      pending, perShard, nextId := map[], map[], 0;
      completed, failed, cancelled, late := 0, 0, 0, 0;
    }

    method AllocId() returns (id: nat)
      modifies this`nextId
      ensures id == nextId == old(nextId) + 1
    {
      nextId := nextId + 1;
      id := nextId;
    }

    method Add(id: nat, shard: nat) returns (ok: bool)
      modifies this`pending, this`perShard
      ensures ok == HasRoom(old(View()), shard)
      ensures View() == Register(old(View()), id, shard)
    {
      if maxPending > 0 && |pending| >= maxPending {
        return false;
      }
      var here := if shard in perShard then perShard[shard] else 0;
      if maxPerShard > 0 && here >= maxPerShard {
        return false;
      }
      pending := pending[id := shard];
      perShard := perShard[shard := here + 1];
      return true;
    }

    method Settle(id: nat, kind: Kind) returns (found: bool)
      requires Exact(View())
      modifies this
      ensures found == (id in old(pending))
      ensures View() == Resolve(old(View()), id, kind)
    {
      if id !in pending {
        late := late + 1;
        return false;
      }
      var shard := pending[id];
      pending := pending - {id};
      var left := perShard[shard] - 1;
      if left == 0 {
        perShard := perShard - {shard};
      } else {
        perShard := perShard[shard := left];
      }
      match kind {
        case Complete => completed := completed + 1;
        case Fail => failed := failed + 1;
        case Cancel => cancelled := cancelled + 1;
      }
      return true;
    }
  }
}
