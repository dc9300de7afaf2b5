/** How an answer can get lost for good: a stage gives its continuation a context of its own, and a
    completer call takes that one and finds it ended, before the runner puts the request's in its place. */
module Stranding {
  import opened Basics
  import opened Continuations
  import opened SingleDriver
  import opened Meaning
  import opened Answers
  import opened Progress
  import R = Registry

  /** It is final: short of the end of the request's context, no run ever completes the request. */
  lemma StrandedForever(ps: seq<Plan>, st: State, steps: seq<Step>, more: seq<Step>, t: nat, r: nat)
    requires Init(ps, st) && Legal(ps, st, steps) && Stranded(ps, Run(ps, st, steps), t, r)
    requires Legal(ps, Run(ps, st, steps), more) && CancelContext(r) !in more
    ensures var e := Run(ps, Run(ps, st, steps), more); Stranded(ps, e, t, r) && e.results[r] == []
  {
    InitialLaws(ps, st, r);
    EntryInit(ps, st);
    GovernedRun(ps, st, steps, r);
    var e := Run(ps, st, steps);
    GovernedRun(ps, e, more, r);
    StrandedRun(ps, e, more, t, r);
    TotalUpdate(Driver(r), Run(ps, e, more).tasks, t, Returned);
  }

  lemma StrandedAtRest(ps: seq<Plan>, st: State, t: nat, r: nat)
    requires Shape(ps, st) && Governed(ps, st, r) && Stranded(ps, st, t, r)
    ensures AtRest(ps, st, r)
  {
    TotalUpdate(Driver(r), st.tasks, t, Returned);
    forall u: nat | Drives(st, u, r) && TaskShape(ps, |st.cells|, st.tasks[u])
      ensures !Enabled(ps, st, NextStep(ps, st, u))
    {
      if u != t {
        TotalUpdate(Driver(r), st.tasks[t := Returned], u, Returned);
      }
      DriverCanMove(ps, st, u);
    }
  }

  /** At any point of any run, while a resolver waits for a completer not yet called, a call that took the
      stage's context before adoption and found it ended can still strand it. */
  lemma GlimpseStrands(ps: seq<Plan>, st: State, steps: seq<Step>, t: nat, r: nat)
    requires Init(ps, st) && Legal(ps, st, steps) && r < |ps|
    requires var e := Run(ps, st, steps);
             AwaitsCall(ps, e, t, r) && e.cells[e.tasks[t].c].doomed
    ensures var e := Run(ps, st, steps);
            var burn := Burn(e.tasks[t].c);
            && Enabled(ps, e, burn) && Stranded(ps, Go(ps, e, burn), t, r) && AtRest(ps, Go(ps, e, burn), r)
  {
    InitialLaws(ps, st, r);
    EntryInit(ps, st);
    GovernedRun(ps, st, steps, r);
    var e := Run(ps, st, steps);
    var burn := Burn(e.tasks[t].c);
    assert TaskOk(ps, e.cells, e.tasks[t]);
    Bystander(ps, e, burn, t);
    GovernedStep(ps, e, burn, r);
    StrandedAtRest(ps, Go(ps, e, burn), t, r);
  }

  // ---- A run that ends so ------------------------------------------------------------------------------

  /** The request's first stage yields; the completer is called once, under an ended context of the
      stage's own; then the runner adopts and registers the continuation as usual. */
  function HangSteps(r: nat): seq<Step> {
    [Submit(r, true), Start(0), RunStage(0), Glimpse(0), Burn(0), Allocate(0), Register(0)]
  }

  predicate FirstYields(ps: seq<Plan>, st: State, r: nat) {
    && Init(ps, st) && r < |ps| && ps[r].stages > 0 && ps[r].run(1, 0, ps[r].init) == Yield
  }

  function Here(ps: seq<Plan>, r: nat): Place
    requires r < |ps|
  {
    Place(r, 1, 0, ps[r].init)
  }

  function Fresh(at: Place): Cell {
    Cell(at, false, None, 0, false, false, false, false)
  }

  /** The states on the way: a submitted request with one task. */
  function Scene(st: State, r: nat, task: Task, cells: seq<Cell>, ran: seq<(nat, nat)>): State
    requires r < |st.submitted| == |st.trace|
  {
    st.(tasks := [task], cells := cells, submitted := st.submitted[r := true], trace := st.trace[r := ran])
  }

  function Queued(ps: seq<Plan>, st: State, r: nat): State
    requires FirstYields(ps, st, r)
  {
    Scene(st, r, QueuedRun(r, 1), [], [])
  }

  function Running(ps: seq<Plan>, st: State, r: nat): State
    requires FirstYields(ps, st, r)
  {
    Scene(st, r, AtStage(Here(ps, r)), [], [])
  }

  /** The stage has yielded; `cell` is its continuation. */
  function Suspended(ps: seq<Plan>, st: State, r: nat, cell: Cell): State
    requires FirstYields(ps, st, r)
  {
    Scene(st, r, Yielded(Here(ps, r), 0), [cell], [(1, 0)])
  }

  function Adopted(ps: seq<Plan>, st: State, r: nat, cell: Cell): State
    requires FirstYields(ps, st, r)
  {
    Scene(st, r, Named(Here(ps, r), 0, 1), [cell.(adopted := true)], [(1, 0)]).(reg := R.Alloc1(st.reg))
  }

  /** A step without a fault from one state to the next. */
  predicate Leads(ps: seq<Plan>, st: State, step: Step, st': State) {
    Shape(ps, st) && Enabled(ps, st, step) && Faultless(ps, st, step) && Go(ps, st, step) == st'
  }

  lemma IsQueued(ps: seq<Plan>, st: State, r: nat)
    requires FirstYields(ps, st, r)
    ensures Leads(ps, st, Submit(r, true), Queued(ps, st, r))
  {
    assert st.trace[r := []] == st.trace;
    assert st.tasks + [QueuedRun(r, 1)] == [QueuedRun(r, 1)];
  }

  lemma IsStarted(ps: seq<Plan>, st: State, r: nat)
    requires FirstYields(ps, st, r)
    ensures Leads(ps, Queued(ps, st, r), Start(0), Running(ps, st, r))
  {
  }

  lemma IsSuspended(ps: seq<Plan>, st: State, r: nat)
    requires FirstYields(ps, st, r)
    ensures Leads(ps, Running(ps, st, r), RunStage(0), Suspended(ps, st, r, Fresh(Here(ps, r))))
  {
    var s, at := Running(ps, st, r), Here(ps, r);
    var ran: seq<(nat, nat)> := [];
    assert s.trace[r] == ran && ran + [(at.a, at.i)] == [(1, 0)];
    assert s.trace[r := [(1, 0)]] == st.trace[r := [(1, 0)]];
    assert s.cells + [Fresh(at)] == [Fresh(at)];
  }

  /** The call that looks too early, and the shot it wastes. */
  lemma Looks(ps: seq<Plan>, st: State, r: nat)
    requires FirstYields(ps, st, r)
    ensures var cell := Fresh(Here(ps, r));
            && Leads(ps, Suspended(ps, st, r, cell), Glimpse(0), Suspended(ps, st, r, cell.(doomed := true)))
            && Leads(ps, Suspended(ps, st, r, cell.(doomed := true)), Burn(0),
                     Suspended(ps, st, r, cell.(used := true, doomed := true, wasted := true)))
  {
  }

  lemma IsAdopted(ps: seq<Plan>, st: State, r: nat, cell: Cell)
    requires FirstYields(ps, st, r) && cell.at == Here(ps, r)
    ensures Leads(ps, Suspended(ps, st, r, cell), Allocate(0), Adopted(ps, st, r, cell))
  {
  }

  /** The empty registry has room. */
  lemma IsRegistered(ps: seq<Plan>, st: State, r: nat, cell: Cell)
    requires FirstYields(ps, st, r) && cell.at == Here(ps, r)
    ensures var s := Adopted(ps, st, r, cell);
            && Shape(ps, s) && Enabled(ps, s, Register(0)) && Faultless(ps, s, Register(0))
            && var e := Go(ps, s, Register(0));
               && e.cells == s.cells && e.tasks == [Returned, Waiting(Here(ps, r), 0, 1)]
               && e.submitted[r] && e.cancelled == st.cancelled
  {
    var s := Adopted(ps, st, r, cell);
    assert R.HasRoom(s.reg, ps[r].shard);
    RegisterEffect(ps, s, Register(0));
  }

  // ---- Putting the steps together ----------------------------------------------------------------------

  predicate Hung(ps: seq<Plan>, e: State, r: nat)
    requires Shape(ps, e)
  {
    && Stranded(ps, e, 1, r) && e.submitted[r]
    && forall c :: 0 <= c < |e.cells| ==> e.cells[c].used
  }

  /** These steps are a faultless run that leads there. */
  predicate Hangs(ps: seq<Plan>, st: State, steps: seq<Step>, r: nat) {
    Shape(ps, st) && Legal(ps, st, steps) && FaultlessRun(ps, st, steps) && Hung(ps, Run(ps, st, steps), r)
  }

  lemma HangsFrom(ps: seq<Plan>, st: State, st': State, steps: seq<Step>, r: nat)
    requires steps != [] && Leads(ps, st, steps[0], st') && Hangs(ps, st', steps[1..], r)
    ensures Hangs(ps, st, steps, r)
  {
  }

  lemma HangsAtLast(ps: seq<Plan>, st: State, r: nat)
    requires FirstYields(ps, st, r)
    ensures var cell := Fresh(Here(ps, r)).(used := true, doomed := true, wasted := true);
            Hangs(ps, Adopted(ps, st, r, cell), [Register(0)], r)
  {
    var cell := Fresh(Here(ps, r)).(used := true, doomed := true, wasted := true);
    IsRegistered(ps, st, r, cell);
    HangsFrom(ps, Adopted(ps, st, r, cell), Go(ps, Adopted(ps, st, r, cell), Register(0)), [Register(0)], r);
  }

  lemma HangsOnceSuspended(ps: seq<Plan>, st: State, r: nat)
    requires FirstYields(ps, st, r)
    ensures Hangs(ps, Suspended(ps, st, r, Fresh(Here(ps, r))), HangSteps(r)[3..], r)
  {
    var unused := Fresh(Here(ps, r));
    var wasted := unused.(used := true, doomed := true, wasted := true);
    HangsAtLast(ps, st, r);
    assert HangSteps(r)[5..][1..] == [Register(0)];
    IsAdopted(ps, st, r, wasted);
    HangsFrom(ps, Suspended(ps, st, r, wasted), Adopted(ps, st, r, wasted), HangSteps(r)[5..], r);
    Looks(ps, st, r);
    var doomed := Suspended(ps, st, r, unused.(doomed := true));
    assert HangSteps(r)[4..][1..] == HangSteps(r)[5..] && HangSteps(r)[3..][1..] == HangSteps(r)[4..];
    HangsFrom(ps, doomed, Suspended(ps, st, r, wasted), HangSteps(r)[4..], r);
    HangsFrom(ps, Suspended(ps, st, r, unused), doomed, HangSteps(r)[3..], r);
  }

  lemma HangsFromStart(ps: seq<Plan>, st: State, r: nat)
    requires FirstYields(ps, st, r)
    ensures Hangs(ps, st, HangSteps(r), r)
  {
    var steps := HangSteps(r);
    HangsOnceSuspended(ps, st, r);
    IsSuspended(ps, st, r);
    IsStarted(ps, st, r);
    IsQueued(ps, st, r);
    assert steps[2..][1..] == steps[3..] && steps[1..][1..] == steps[2..];
    HangsFrom(ps, Running(ps, st, r), Suspended(ps, st, r, Fresh(Here(ps, r))), steps[2..], r);
    HangsFrom(ps, Queued(ps, st, r), Running(ps, st, r), steps[1..], r);
    HangsFrom(ps, st, Queued(ps, st, r), steps, r);
  }

  /**
   * So the condition on contexts is needed: for every pipeline whose first stage yields there is a run
   * of a new queue with no deadline, cancellation, refusal or retry in which every completer is called
   * and no driver can move, and still the request is never completed.
   */
  lemma HangReachable(ps: seq<Plan>, st: State, r: nat)
    requires FirstYields(ps, st, r)
    ensures Legal(ps, st, HangSteps(r)) && FaultlessRun(ps, st, HangSteps(r))
    ensures var e := Run(ps, st, HangSteps(r));
            && e.submitted[r] && !e.cancelled[r] && e.results[r] == [] && AtRest(ps, e, r)
            && (forall c :: 0 <= c < |e.cells| ==> e.cells[c].used)
    ensures !ContextsLast(ps, st, HangSteps(r), r)
  {
    HangsFromStart(ps, st, r);
    var e := Run(ps, st, HangSteps(r));
    assert Run(ps, e, []) == e;
    StrandedForever(ps, st, HangSteps(r), [], 1, r);
    InitialLaws(ps, st, r);
    EntryInit(ps, st);
    GovernedRun(ps, st, HangSteps(r), r);
    StrandedAtRest(ps, e, 1, r);
    if ContextsLast(ps, st, HangSteps(r), r) {
      NoneStranded(ps, st, HangSteps(r), r);
    }
  }
}
