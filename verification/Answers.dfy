/** Continuations and their completers: one task per continuation, one answer per continuation, and a
    resolver that waits in vain only for a call that was never made. */
module Answers {
  import opened Basics
  import opened Continuations
  import opened SingleDriver

  // ---- A continuation belongs to one task --------------------------------------------------------

  predicate HolderLaw(st: State, c: nat) {
    Total(Holder(c), st.tasks) <= 1 && (c >= |st.cells| ==> Total(Holder(c), st.tasks) == 0)
  }

  ghost predicate HolderInv(st: State) {
    forall c :: HolderLaw(st, c)
  }

  /** Outside a stage and a registration, a task keeps its continuation or drops it. */
  lemma KeepsOrDrops(ps: seq<Plan>, st: State, step: Step)
    requires Shape(ps, st) && Enabled(ps, st, step) && IsTaskStep(step) && !step.RunStage? && !step.Register?
    ensures var st', task := Go(ps, st, step), st.tasks[step.t];
            && |st.tasks| <= |st'.tasks|
            && (HasCell(st'.tasks[step.t]) ==> HasCell(task) && st'.tasks[step.t].c == task.c)
            && (|st'.tasks| > |st.tasks| ==> !HasCell(st'.tasks[|st.tasks|]))
  {
  }

  lemma StageMakes(ps: seq<Plan>, st: State, step: Step)
    requires Shape(ps, st) && Enabled(ps, st, step) && step.RunStage?
    ensures var st' := Go(ps, st, step);
            && |st.tasks| == |st'.tasks|
            && (HasCell(st'.tasks[step.t]) ==> st'.tasks[step.t].c == |st.cells|)
  {
  }

  /** What a step does to the holders of one continuation: it may pass it on, drop it, or make it. */
  lemma HolderMoves(ps: seq<Plan>, st: State, step: Step, c: nat)
    requires Shape(ps, st) && Enabled(ps, st, step) && IsTaskStep(step)
    ensures var st' := Go(ps, st, step);
            && |st.tasks| <= |st'.tasks| <= |st.tasks| + 1
            && Weigh(Holder(c), st'.tasks[step.t])
               + (if |st'.tasks| > |st.tasks| then Weigh(Holder(c), st'.tasks[|st.tasks|]) else 0)
               <= Weigh(Holder(c), st.tasks[step.t]) + One(step.RunStage? && c == |st.cells|)
  {
    TaskFrame(ps, st, step);
    if step.Register? {
      RegisterEffect(ps, st, step);
    } else if step.RunStage? {
      StageMakes(ps, st, step);
    } else {
      KeepsOrDrops(ps, st, step);
    }
  }

  lemma CellsGrow(ps: seq<Plan>, st: State, step: Step)
    requires Shape(ps, st) && Enabled(ps, st, step)
    ensures |st.cells| <= |Go(ps, st, step).cells| <= |st.cells| + One(step.RunStage?)
    ensures step.RunStage? && |Go(ps, st, step).cells| == |st.cells| ==> !HasCell(Go(ps, st, step).tasks[step.t])
  {
  }

  lemma HolderTask(ps: seq<Plan>, st: State, step: Step, c: nat)
    requires Shape(ps, st) && Enabled(ps, st, step) && IsTaskStep(step) && HolderLaw(st, c)
    ensures HolderLaw(Go(ps, st, step), c)
  {
    TaskFrame(ps, st, step);
    StepTotal(Holder(c), st, Go(ps, st, step), step.t);
    HolderMoves(ps, st, step, c);
    CellsGrow(ps, st, step);
    if step.RunStage? {
      StageMakes(ps, st, step);
    }
  }

  lemma HolderStep(ps: seq<Plan>, st: State, step: Step)
    requires Shape(ps, st) && Enabled(ps, st, step) && HolderInv(st)
    ensures HolderInv(Go(ps, st, step))
  {
    var st' := Go(ps, st, step);
    CellsGrow(ps, st, step);
    forall c ensures HolderLaw(st', c) {
      assert HolderLaw(st, c);
      if IsTaskStep(step) {
        HolderTask(ps, st, step, c);
      } else {
        EnvFrame(ps, st, step);
        if st'.tasks != st.tasks {
          TotalAppend(Holder(c), st.tasks, QueuedRun(step.r, 1));
        }
      }
    }
  }

  lemma SoleHolder(st: State, t: nat, u: nat)
    requires HolderInv(st) && t < |st.tasks| && u < |st.tasks| && t != u
    requires HasCell(st.tasks[t]) && HasCell(st.tasks[u])
    ensures st.tasks[t].c != st.tasks[u].c
  {
    var c := st.tasks[t].c;
    assert HolderLaw(st, c);
    TotalUpdate(Holder(c), st.tasks, t, Returned);
    TotalUpdate(Holder(c), st.tasks[t := Returned], u, Returned);
  }

  // ---- The completer is one-shot, and its answer is the one used -------------------------------------

  /** At most one call won, an answer on its way is the one that call gave, and a wasted shot neither
      won nor left an answer. */
  predicate CellLaw(cell: Cell) {
    && cell.wins <= 1 && (cell.wins == 1 ==> cell.used)
    && (cell.buffer.Some? ==> cell.wins == 1)
    && (cell.wasted ==> cell.used && cell.doomed && cell.wins == 0)
  }

  /** A resolver about to act on an answer got it from a winning call. */
  predicate ToldByWinner(st: State, task: Task) {
    task.Chosen? && task.o.Told? ==> task.c < |st.cells| && st.cells[task.c].wins == 1
  }

  predicate WinInv(st: State) {
    && CellLaws(st)
    && (forall t :: 0 <= t < |st.tasks| ==> ToldByWinner(st, st.tasks[t]))
  }

  predicate CellLaws(st: State) {
    forall c :: 0 <= c < |st.cells| ==> CellLaw(st.cells[c])
  }

  lemma CellByTask(ps: seq<Plan>, st: State, step: Step)
    requires Shape(ps, st) && Enabled(ps, st, step) && CellLaws(st) && IsTaskStep(step)
    ensures CellLaws(Go(ps, st, step))
  {
  }

  lemma CellByEnv(ps: seq<Plan>, st: State, step: Step)
    requires Shape(ps, st) && Enabled(ps, st, step) && CellLaws(st) && !IsTaskStep(step)
    ensures CellLaws(Go(ps, st, step))
  {
  }

  lemma CellStep(ps: seq<Plan>, st: State, step: Step)
    requires Shape(ps, st) && Enabled(ps, st, step) && CellLaws(st)
    ensures CellLaws(Go(ps, st, step))
  {
    if IsTaskStep(step) {
      CellByTask(ps, st, step);
    } else {
      CellByEnv(ps, st, step);
    }
  }

  lemma WinsGrow(ps: seq<Plan>, st: State, step: Step)
    requires Shape(ps, st) && Enabled(ps, st, step)
    ensures |st.cells| <= |Go(ps, st, step).cells|
    ensures forall c :: 0 <= c < |st.cells| ==> st.cells[c].wins <= Go(ps, st, step).cells[c].wins
  {
  }

  lemma MoverTold(ps: seq<Plan>, st: State, step: Step)
    requires Shape(ps, st) && Enabled(ps, st, step) && IsTaskStep(step) && WinInv(st)
    ensures var st' := Go(ps, st, step);
            && |st.tasks| <= |st'.tasks| && ToldByWinner(st', st'.tasks[step.t])
            && (|st'.tasks| > |st.tasks| ==> ToldByWinner(st', st'.tasks[|st.tasks|]))
  {
    TaskFrame(ps, st, step);
    if step.Register? {
      RegisterEffect(ps, st, step);
    } else if step.TakeAnswer? {
      assert CellLaw(st.cells[st.tasks[step.t].c]);
    }
  }

  lemma StillTold(st: State, st': State, task: Task)
    requires ToldByWinner(st, task) && |st.cells| <= |st'.cells|
    requires forall c :: 0 <= c < |st'.cells| ==> CellLaw(st'.cells[c])
    requires forall c :: 0 <= c < |st.cells| ==> st.cells[c].wins <= st'.cells[c].wins
    ensures ToldByWinner(st', task)
  {
    if task.Chosen? && task.o.Told? {
      assert CellLaw(st'.cells[task.c]);
    }
  }

  lemma WinStep(ps: seq<Plan>, st: State, step: Step)
    requires Shape(ps, st) && Enabled(ps, st, step) && WinInv(st)
    ensures WinInv(Go(ps, st, step))
  {
    var st' := Go(ps, st, step);
    CellStep(ps, st, step);
    WinsGrow(ps, st, step);
    forall u | 0 <= u < |st'.tasks| ensures ToldByWinner(st', st'.tasks[u]) {
      if u < |st.tasks| && (IsTaskStep(step) ==> u != step.t) {
        Bystander(ps, st, step, u);
        StillTold(st, st', st.tasks[u]);
      } else if IsTaskStep(step) {
        TaskFrame(ps, st, step);
        MoverTold(ps, st, step);
      } else {
        EnvFrame(ps, st, step);
      }
    }
  }

  lemma {:induction false} WinRun(ps: seq<Plan>, st: State, steps: seq<Step>)
    requires Shape(ps, st) && Legal(ps, st, steps) && WinInv(st)
    ensures WinInv(Run(ps, st, steps))
    decreases |steps|
  {
    if steps != [] {
      WinStep(ps, st, steps[0]);
      WinRun(ps, Go(ps, st, steps[0]), steps[1..]);
    }
  }

  /** Over every run: at most one Complete, Fail or Cancel call per continuation reports success, and
      an answer that is waiting or being acted on came from exactly such a call. */
  lemma OneAnswerWins(ps: seq<Plan>, st: State, steps: seq<Step>)
    requires Init(ps, st) && Legal(ps, st, steps)
    ensures var e := Run(ps, st, steps);
            && (forall c :: 0 <= c < |e.cells| ==> e.cells[c].wins <= 1)
            && (forall c :: 0 <= c < |e.cells| && e.cells[c].buffer.Some? ==> e.cells[c].wins == 1)
            && (forall t :: 0 <= t < |e.tasks| && e.tasks[t].Chosen? && e.tasks[t].o.Told? ==>
                  e.tasks[t].c < |e.cells| && e.cells[e.tasks[t].c].wins == 1)
  {
    WinRun(ps, st, steps);
    var e := Run(ps, st, steps);
    forall t | 0 <= t < |e.tasks| && e.tasks[t].Chosen? && e.tasks[t].o.Told?
      ensures e.tasks[t].c < |e.cells| && e.cells[e.tasks[t].c].wins == 1
    {
      assert ToldByWinner(e, e.tasks[t]);
    }
  }

  // ---- Nobody waits for a call that was made -----------------------------------------------------------

  predicate Awaits(task: Task) {
    task.Yielded? || task.Named? || task.Waiting?
  }

  /** A completer that used its shot left an answer, unless the request's context was gone or the shot
      was wasted. */
  predicate Answered(ps: seq<Plan>, st: State, c: nat)
    requires Shape(ps, st) && c < |st.cells|
  {
    st.cells[c].used ==> st.cells[c].buffer.Some? || st.cells[c].wasted || st.cancelled[st.cells[c].at.r]
  }

  predicate NoneMissed(ps: seq<Plan>, st: State, task: Task)
    requires Shape(ps, st)
  {
    Awaits(task) ==> task.c < |st.cells| && Answered(ps, st, task.c)
  }

  predicate AnswerInv(ps: seq<Plan>, st: State)
    requires Shape(ps, st)
  {
    forall t :: 0 <= t < |st.tasks| ==> NoneMissed(ps, st, st.tasks[t])
  }

  /** Only its holder, its completer and its context touch a continuation. */
  lemma CellFrame(ps: seq<Plan>, st: State, step: Step, c: nat)
    requires Shape(ps, st) && Enabled(ps, st, step) && c < |st.cells| && IsTaskStep(step)
    requires HasCell(st.tasks[step.t]) ==> st.tasks[step.t].c != c
    ensures c < |Go(ps, st, step).cells| && Go(ps, st, step).cells[c] == st.cells[c]
    ensures Go(ps, st, step).cancelled == st.cancelled
  {
  }

  lemma EnvAnswers(ps: seq<Plan>, st: State, step: Step, c: nat)
    requires Shape(ps, st) && Enabled(ps, st, step) && !IsTaskStep(step) && c < |st.cells| && Answered(ps, st, c)
    ensures |Go(ps, st, step).cells| == |st.cells| && Answered(ps, Go(ps, st, step), c)
  {
  }

  lemma StageAnswers(ps: seq<Plan>, st: State, step: Step)
    requires Shape(ps, st) && Enabled(ps, st, step) && step.RunStage?
    ensures NoneMissed(ps, Go(ps, st, step), Go(ps, st, step).tasks[step.t])
  {
  }

  lemma RegisterAnswers(ps: seq<Plan>, st: State, step: Step)
    requires Shape(ps, st) && Enabled(ps, st, step) && (step.Allocate? || step.Register?)
    requires NoneMissed(ps, st, st.tasks[step.t])
    ensures var st' := Go(ps, st, step);
            && |st.tasks| <= |st'.tasks| && NoneMissed(ps, st', st'.tasks[step.t])
            && (|st'.tasks| > |st.tasks| ==> NoneMissed(ps, st', st'.tasks[|st.tasks|]))
  {
    if step.Register? {
      RegisterEffect(ps, st, step);
    }
  }

  lemma OthersStopWaiting(ps: seq<Plan>, st: State, step: Step)
    requires Shape(ps, st) && Enabled(ps, st, step) && IsTaskStep(step)
    requires !step.RunStage? && !step.Allocate? && !step.Register?
    ensures |st.tasks| <= |Go(ps, st, step).tasks| && !Awaits(Go(ps, st, step).tasks[step.t])
  {
  }

  lemma MoverAnswers(ps: seq<Plan>, st: State, step: Step)
    requires Shape(ps, st) && Enabled(ps, st, step) && IsTaskStep(step) && AnswerInv(ps, st)
    ensures var st' := Go(ps, st, step);
            && |st.tasks| <= |st'.tasks| && NoneMissed(ps, st', st'.tasks[step.t])
            && (|st'.tasks| > |st.tasks| ==> NoneMissed(ps, st', st'.tasks[|st.tasks|]))
  {
    assert NoneMissed(ps, st, st.tasks[step.t]);
    if step.RunStage? {
      StageMakes(ps, st, step);
      StageAnswers(ps, st, step);
    } else if step.Allocate? || step.Register? {
      RegisterAnswers(ps, st, step);
    } else {
      KeepsOrDrops(ps, st, step);
      OthersStopWaiting(ps, st, step);
    }
  }

  lemma BystanderAnswers(ps: seq<Plan>, st: State, step: Step, u: nat)
    requires Shape(ps, st) && Enabled(ps, st, step) && HolderInv(st)
    requires u < |st.tasks| && (IsTaskStep(step) ==> u != step.t) && NoneMissed(ps, st, st.tasks[u])
    ensures u < |Go(ps, st, step).tasks| && NoneMissed(ps, Go(ps, st, step), Go(ps, st, step).tasks[u])
  {
    Bystander(ps, st, step, u);
    if Awaits(st.tasks[u]) {
      if !IsTaskStep(step) {
        EnvAnswers(ps, st, step, st.tasks[u].c);
      } else {
        if HasCell(st.tasks[step.t]) {
          SoleHolder(st, step.t, u);
        }
        CellFrame(ps, st, step, st.tasks[u].c);
      }
    }
  }

  lemma AnswerStep(ps: seq<Plan>, st: State, step: Step)
    requires Shape(ps, st) && Enabled(ps, st, step) && AnswerInv(ps, st) && HolderInv(st)
    ensures AnswerInv(ps, Go(ps, st, step))
  {
    var st' := Go(ps, st, step);
    forall u | 0 <= u < |st'.tasks| ensures NoneMissed(ps, st', st'.tasks[u]) {
      if u < |st.tasks| && (IsTaskStep(step) ==> u != step.t) {
        BystanderAnswers(ps, st, step, u);
      } else if IsTaskStep(step) {
        TaskFrame(ps, st, step);
        MoverAnswers(ps, st, step);
      } else {
        EnvFrame(ps, st, step);
      }
    }
  }

  lemma {:induction false} AnswerRun(ps: seq<Plan>, st: State, steps: seq<Step>)
    requires Shape(ps, st) && Legal(ps, st, steps) && AnswerInv(ps, st) && HolderInv(st)
    ensures AnswerInv(ps, Run(ps, st, steps)) && HolderInv(Run(ps, st, steps))
    decreases |steps|
  {
    if steps != [] {
      AnswerStep(ps, st, steps[0]);
      HolderStep(ps, st, steps[0]);
      AnswerRun(ps, Go(ps, st, steps[0]), steps[1..]);
    }
  }

  // ---- Shots spent before adoption ---------------------------------------------------------------------

  /** No call that takes the context a stage of request `r` gave its continuation, before the runner has
      adopted it, finds that context ended. */
  predicate ContextsLast(ps: seq<Plan>, st: State, steps: seq<Step>, r: nat)
    requires Shape(ps, st) && Legal(ps, st, steps)
    decreases |steps|
  {
    steps != [] ==>
      && !(steps[0].Glimpse? && st.cells[steps[0].c].at.r == r)
      && ContextsLast(ps, Go(ps, st, steps[0]), steps[1..], r)
  }

  predicate NoneDoomed(st: State, r: nat) {
    forall c :: 0 <= c < |st.cells| && st.cells[c].at.r == r ==> !st.cells[c].doomed
  }

  /** Continuations keep their place, new ones are not doomed, and of the others at most `but` becomes so. */
  predicate NewlyDoomed(st: State, st': State, but: int) {
    && |st.cells| <= |st'.cells|
    && (forall c :: 0 <= c < |st.cells| ==> st'.cells[c].at == st.cells[c].at)
    && (forall c :: 0 <= c < |st.cells| && c != but ==> st'.cells[c].doomed == st.cells[c].doomed)
    && (forall c :: |st.cells| <= c < |st'.cells| ==> !st'.cells[c].doomed)
  }

  /** What the holder's own step does to its continuation. */
  lemma OwnCell(ps: seq<Plan>, st: State, step: Step)
    requires Shape(ps, st) && Enabled(ps, st, step) && IsTaskStep(step) && HasCell(st.tasks[step.t])
    ensures var c, st' := st.tasks[step.t].c, Go(ps, st, step);
            && c < |st.cells| == |st'.cells|
            && st'.cells[c].at == st.cells[c].at && st'.cells[c].doomed == st.cells[c].doomed
  {
  }

  lemma DoomByStage(ps: seq<Plan>, st: State, step: Step)
    requires Shape(ps, st) && Enabled(ps, st, step) && step.RunStage?
    ensures NewlyDoomed(st, Go(ps, st, step), -1)
  {
  }

  lemma DoomByTask(ps: seq<Plan>, st: State, step: Step)
    requires Shape(ps, st) && Enabled(ps, st, step) && IsTaskStep(step)
    ensures NewlyDoomed(st, Go(ps, st, step), -1)
  {
    var st' := Go(ps, st, step);
    if step.RunStage? {
      DoomByStage(ps, st, step);
    } else {
      CellsGrow(ps, st, step);
      forall c | 0 <= c < |st.cells|
        ensures st'.cells[c].at == st.cells[c].at && st'.cells[c].doomed == st.cells[c].doomed
      {
        if HasCell(st.tasks[step.t]) && st.tasks[step.t].c == c {
          OwnCell(ps, st, step);
        } else {
          CellFrame(ps, st, step, c);
        }
      }
    }
  }

  lemma DoomByEnv(ps: seq<Plan>, st: State, step: Step)
    requires Shape(ps, st) && Enabled(ps, st, step) && !IsTaskStep(step)
    ensures NewlyDoomed(st, Go(ps, st, step), if step.Glimpse? then step.c else -1)
  {
  }

  /** Only such a call dooms a continuation. */
  lemma DoomFrame(ps: seq<Plan>, st: State, step: Step)
    requires Shape(ps, st) && Enabled(ps, st, step)
    ensures NewlyDoomed(st, Go(ps, st, step), if step.Glimpse? then step.c else -1)
  {
    if IsTaskStep(step) {
      DoomByTask(ps, st, step);
    } else {
      DoomByEnv(ps, st, step);
    }
  }

  lemma {:induction false} NoneDoomedRun(ps: seq<Plan>, st: State, steps: seq<Step>, r: nat)
    requires Shape(ps, st) && Legal(ps, st, steps) && NoneDoomed(st, r) && ContextsLast(ps, st, steps, r)
    ensures NoneDoomed(Run(ps, st, steps), r)
    decreases |steps|
  {
    if steps != [] {
      DoomFrame(ps, st, steps[0]);
      NoneDoomedRun(ps, Go(ps, st, steps[0]), steps[1..], r);
    }
  }

  /**
   * Over every run: if a resolver waits on an empty buffer while its request's context is good, then
   * its completer has been called if and only if a call wasted the shot.  None did if the context
   * given to the continuation lasted for the calls that came before the runner adopted it.
   */
  lemma NoAnswerIsLost(ps: seq<Plan>, st: State, steps: seq<Step>, t: nat)
    requires Init(ps, st) && Legal(ps, st, steps) && t < |Run(ps, st, steps).tasks|
    requires var e := Run(ps, st, steps);
             && e.tasks[t].Waiting? && e.tasks[t].c < |e.cells|
             && e.cells[e.tasks[t].c].buffer.None? && !e.cancelled[e.cells[e.tasks[t].c].at.r]
    ensures var e := Run(ps, st, steps);
            var cell := e.cells[e.tasks[t].c];
            && (cell.used <==> cell.wasted)
            && (ContextsLast(ps, st, steps, cell.at.r) ==> !cell.used)
  {
    AnswerRun(ps, st, steps);
    WinRun(ps, st, steps);
    var e := Run(ps, st, steps);
    var cell := e.cells[e.tasks[t].c];
    assert NoneMissed(ps, e, e.tasks[t]);
    assert CellLaw(cell);
    if ContextsLast(ps, st, steps, cell.at.r) {
      NoneDoomedRun(ps, st, steps, cell.at.r);
    }
  }

  /** A resolver waits for a completer whose shot was wasted, under a good context. */
  predicate Stranded(ps: seq<Plan>, st: State, t: nat, r: nat)
    requires Shape(ps, st)
  {
    && r < |ps| && t < |st.tasks| && st.tasks[t].Waiting? && st.tasks[t].at.r == r && st.tasks[t].c < |st.cells|
    && var cell := st.cells[st.tasks[t].c];
       cell.at == st.tasks[t].at && cell.buffer.None? && cell.used && cell.wasted && !st.cancelled[r]
  }

  /** Nothing outside the tasks helps, short of ending the request's context. */
  lemma StrandedEnv(ps: seq<Plan>, st: State, step: Step, t: nat, r: nat)
    requires Shape(ps, st) && Enabled(ps, st, step) && Stranded(ps, st, t, r)
    requires !IsTaskStep(step) && step != CancelContext(r)
    ensures Stranded(ps, Go(ps, st, step), t, r)
  {
    Bystander(ps, st, step, t);
  }

  lemma StrandedStep(ps: seq<Plan>, st: State, step: Step, t: nat, r: nat)
    requires Shape(ps, st) && Enabled(ps, st, step) && HolderInv(st) && Stranded(ps, st, t, r)
    requires step != CancelContext(r)
    ensures Stranded(ps, Go(ps, st, step), t, r)
  {
    if IsTaskStep(step) {
      assert step.t != t;
      Bystander(ps, st, step, t);
      if HasCell(st.tasks[step.t]) {
        SoleHolder(st, step.t, t);
      }
      CellFrame(ps, st, step, st.tasks[t].c);
    } else {
      StrandedEnv(ps, st, step, t, r);
    }
  }

  lemma {:induction false} StrandedRun(ps: seq<Plan>, st: State, steps: seq<Step>, t: nat, r: nat)
    requires Shape(ps, st) && Legal(ps, st, steps) && HolderInv(st) && Stranded(ps, st, t, r)
    requires CancelContext(r) !in steps
    ensures Stranded(ps, Run(ps, st, steps), t, r)
    decreases |steps|
  {
    if steps != [] {
      StrandedStep(ps, st, steps[0], t, r);
      HolderStep(ps, st, steps[0]);
      StrandedRun(ps, Go(ps, st, steps[0]), steps[1..], t, r);
    }
  }
}
