/** Retirement requests: RETRAITE_DEMANDEE, one flag per CPU, over the hand-off.

    A CPU that starts a task stores the flag, a task that dies raises its own
    CPU's, a killer raises the flag of the CPU it last saw own its victim, and
    the frontier `retire_current_if_zombie` reads it.  No lock orders them. */
module Retraite {
  import opened Runs
  import opened Passation
  import opened PassationInv
  import opened PassationElection

  /** `finalise_task_running` after the hand-off flag: read the state, read the
      condemnation, store the CPU's flag.  `due` is history: the task was
      condemned or dead when this began. */
  datatype FinPc = NotFin | FinState(t: int, due: bool) | FinCond(t: int, due: bool) | FinStore(t: int, due: bool, v: bool)

  /** A task inside `retire_current_if_zombie` (`cpu`: the CPU it noted on entry)
      or `meurt_soi_meme`.  `due` is history: condemned or dead when the frontier
      began.  A user task inside the kernel is not preempted: it leaves its CPU in
      neither. */
  datatype TaskPc =
    | Rest
    | FLoad(cpu: int, due: bool)        // load the flag
    | FCond(cpu: int, due: bool)        // flag down: read the condemnation
    | FClear(cpu: int, due: bool)       // lower the flag
    | FReread(cpu: int, due: bool)      // read the condemnation
    | FState(cpu: int, due: bool)       // not condemned: read the state
    | Doomed                            // about to be retired
    | DOn                               // died: on_cpu >= 0?
    | DSw                               // switching_out?
    | DCpu                              // read on_cpu
    | DStore(cpu: int)                  // raise the flag

  /** A killer running `condamne`, under the registry's read guard. */
  datatype Ask = AMark(t: int) | AState(t: int) | ACpu(t: int) | AStore(t: int, cpu: int)

  datatype Sys = Sys(b: State, cond: seq<bool>, tpc: seq<TaskPc>, flag: seq<bool>, fin: seq<FinPc>, asks: map<nat, Ask>)

  datatype Act =
    | Base(l: Label)
    | FinNext(c: int)
    | Front(c: int)             // the current task reaches a frontier
    | TaskNext(c: int)          // next access of its frontier or death
    | NewAsk(k: nat, t: int)
    | AskNext(k: nat)

  predicate Frontier(p: TaskPc) { p.FLoad? || p.FCond? || p.FClear? || p.FReread? || p.FState? }

  predicate Dying(p: TaskPc) { p.DOn? || p.DSw? || p.DCpu? || p.DStore? }

  predicate Shaped(s: Sys)
  {
    && |s.cond| == |s.b.tasks| && |s.tpc| == |s.b.tasks|
    && |s.flag| == |s.b.cpus| && |s.fin| == |s.b.cpus|
  }

  /** The task whose code CPU `c` executes. */
  predicate Executes(s: Sys, c: int, t: int)
  {
    Slot(s.b, t) && IsCpu(s.b, c) && s.b.cpus[c].cur == t && s.b.cpus[c].pc.Exec?
  }

  /** The CPU a hand-off label belongs to, if any. */
  function Actor(l: Label): int
  {
    match l
    case Wake(_, _, _) => -1
    case Kill(_) => -1
    case PubNext(_, _) => -1
    case Recycle(_, _, _) => -1
    case _ => l.c
  }

  /** What a CPU does as its current task's code, outside frontier and death. */
  predicate OwnMove(l: Label) { l.Endort? || l.Annule? || l.Meurt? || l.Retire? || l.Schedule? }

  /** The current task of `c`, if any, is in neither. */
  predicate AtLeisure(s: Sys, c: int)
    requires Shaped(s) && IsCpu(s.b, c)
  {
    Slot(s.b, s.b.cpus[c].cur) ==> s.tpc[s.b.cpus[c].cur].Rest? || s.tpc[s.b.cpus[c].cur].Doomed?
  }

  ghost predicate Can(s: Sys, a: Act)
  {
    && Shaped(s)
    && match a
       case Base(l) =>
         && Enabled(s.b, l)
         && (Actor(l) >= 0 ==> s.fin[Actor(l)].NotFin?)
         && (OwnMove(l) ==> AtLeisure(s, l.c))
         && (l.Endort? || l.Annule? ==> !s.tpc[s.b.cpus[l.c].cur].Doomed?)
         && (l.Kill? ==> s.cond[l.t])
         && (l.Recycle? ==> s.asks == map[])
       case FinNext(c) => IsCpu(s.b, c) && !s.fin[c].NotFin?
       case Front(c) => IsCpu(s.b, c) && Executes(s, c, s.b.cpus[c].cur) && s.tpc[s.b.cpus[c].cur].Rest?
       case TaskNext(c) =>
         IsCpu(s.b, c) && Executes(s, c, s.b.cpus[c].cur)
         && (Frontier(s.tpc[s.b.cpus[c].cur]) || Dying(s.tpc[s.b.cpus[c].cur]))
       case NewAsk(k, t) => k !in s.asks && Slot(s.b, t)
       case AskNext(k) => k in s.asks
  }

  /** Condemned or dead. */
  predicate Due(s: Sys, t: int)
    requires Shaped(s) && Slot(s.b, t)
  {
    s.cond[t] || s.b.tasks[t].st.Zombie?
  }

  ghost function BaseStep(s: Sys, l: Label): Sys
    requires Can(s, Base(l))
  {
    var s' := s.(b := Apply(s.b, l));
    match l
    case CpuNext(c) =>
      if s.b.cpus[c].pc.Fin?
      then assert CpuTyped(s.b, s.b.cpus[c]); s'.(fin := s.fin[c := FinState(s.b.cpus[c].pc.t, Due(s, s.b.cpus[c].pc.t))])
      else s'
    case Meurt(c) => s'.(tpc := s.tpc[s.b.cpus[c].cur := DOn])
    case Recycle(t, _, _) => s'.(cond := s.cond[t := false], tpc := s.tpc[t := Rest])
    case _ => s'
  }

  function FinStep(s: Sys, c: int): Sys
    requires Shaped(s) && IsCpu(s.b, c)
  {
    match s.fin[c]
    case FinState(t, due) =>
      if !Slot(s.b, t) then s
      else s.(fin := s.fin[c := if s.b.tasks[t].st.Zombie? then FinStore(t, due, true) else FinCond(t, due)])
    case FinCond(t, due) => if !Slot(s.b, t) then s else s.(fin := s.fin[c := FinStore(t, due, s.cond[t])])
    case FinStore(_, _, v) => s.(flag := s.flag[c := v], fin := s.fin[c := NotFin])
    case NotFin => s
  }

  function Raise(s: Sys, cpu: int, v: bool): seq<bool> { if 0 <= cpu < |s.flag| then s.flag[cpu := v] else s.flag }

  function TaskStep(s: Sys, t: int): Sys
    requires Shaped(s) && Slot(s.b, t)
  {
    var x := s.b.tasks[t];
    match s.tpc[t]
    case FLoad(cpu, due) =>
      s.(tpc := s.tpc[t := if 0 <= cpu < |s.flag| && s.flag[cpu] then FClear(cpu, due) else FCond(cpu, due)])
    case FCond(cpu, due) => s.(tpc := s.tpc[t := if s.cond[t] then FClear(cpu, due) else Rest])
    case FClear(cpu, due) => s.(tpc := s.tpc[t := FReread(cpu, due)], flag := Raise(s, cpu, false))
    case FReread(cpu, due) => s.(tpc := s.tpc[t := if s.cond[t] then Doomed else FState(cpu, due)])
    case FState(_, _) => s.(tpc := s.tpc[t := if x.st.Zombie? then Doomed else Rest])
    case DOn => s.(tpc := s.tpc[t := if x.onCpu >= 0 then DSw else Rest])
    case DSw => s.(tpc := s.tpc[t := if x.sw then Rest else DCpu])
    case DCpu => s.(tpc := s.tpc[t := DStore(x.onCpu)])
    case DStore(cpu) => s.(tpc := s.tpc[t := Rest], flag := Raise(s, cpu, true))
    case _ => s
  }

  /** `condamne`: condemn, and if the state reads ready, raise the flag of the
      CPU that owns the task.  What it does to a blocked task is a wake-up or a
      kill of the hand-off. */
  function AskStep(s: Sys, k: nat): Sys
    requires Shaped(s) && k in s.asks
  {
    var gone := s.(asks := s.asks - {k});
    var t := s.asks[k].t;
    if !Slot(s.b, t) then gone
    else match s.asks[k]
      case AMark(_) => s.(cond := s.cond[t := true], asks := s.asks[k := AState(t)])
      case AState(_) => if s.b.tasks[t].st.Ready? then s.(asks := s.asks[k := ACpu(t)]) else gone
      case ACpu(_) => if s.b.tasks[t].onCpu >= 0 then s.(asks := s.asks[k := AStore(t, s.b.tasks[t].onCpu)]) else gone
      case AStore(_, cpu) => gone.(flag := Raise(s, cpu, true))
  }

  ghost function Do(s: Sys, a: Act): Sys
    requires Can(s, a)
  {
    match a
    case Base(l) => BaseStep(s, l)
    case FinNext(c) => FinStep(s, c)
    case Front(c) => s.(tpc := s.tpc[s.b.cpus[c].cur := FLoad(c, Due(s, s.b.cpus[c].cur))])
    case TaskNext(c) => TaskStep(s, s.b.cpus[c].cur)
    case NewAsk(k, t) => s.(asks := s.asks[k := AMark(t)])
    case AskNext(k) => AskStep(s, k)
  }

  ghost predicate Start(s: Sys)
  {
    && Shaped(s) && Init(s.b) && s.asks == map[]
    && (forall t :: 0 <= t < |s.cond| ==> !s.cond[t])
    && (forall t :: 0 <= t < |s.tpc| ==> s.tpc[t].Rest?)
    && (forall c :: 0 <= c < |s.flag| ==> !s.flag[c])
    && (forall c :: 0 <= c < |s.fin| ==> s.fin[c].NotFin?)
  }

  // ---- The invariant ----

  /** CPU `c` executes the code of `t`. */
  predicate AtWork(b: State, c: int, t: int) { IsCpu(b, c) && b.cpus[c].cur == t && b.cpus[c].pc.Exec? }

  /** The CPU this dead task is still current on, until it is about to leave it,
      has its flag up. */
  ghost predicate Announced(b: State, flag: seq<bool>, t: int)
    requires |flag| == |b.cpus|
  {
    forall c :: 0 <= c < |b.cpus| && b.cpus[c].cur == t && !b.cpus[c].pc.SetCur? ==> flag[c]
  }

  /** A frontier that began on a condemned or dead task knows it, by the
      condemnation or by the flag; a death not yet announced is under way. */
  ghost predicate TaskOk(b: State, flag: seq<bool>, t: int, cond: bool, p: TaskPc)
    requires Slot(b, t) && |flag| == |b.cpus|
  {
    var dead := b.tasks[t].st.Zombie?;
    && (Frontier(p) ==> AtWork(b, p.cpu, t))
    && (Frontier(p) && p.due && !cond ==> dead && !p.FCond? && (p.FLoad? ==> flag[p.cpu]))
    && (Frontier(p) && dead && !cond ==> p.due)
    && (p.FState? && p.due ==> dead)
    && (p.Doomed? ==> cond || dead)
    && (Dying(p) ==> dead)
    && (p.DStore? ==> AtWork(b, p.cpu, t))
    && (p.Rest? && dead && !cond ==> Announced(b, flag, t))
  }

  ghost predicate TaskFine(s: Sys, t: int)
    requires Shaped(s) && Slot(s.b, t)
  {
    TaskOk(s.b, s.flag, t, s.cond[t], s.tpc[t])
  }

  predicate AskOk(s: Sys, x: Ask)
    requires Shaped(s)
  {
    Slot(s.b, x.t) && (!x.AMark? ==> s.cond[x.t]) && (x.AStore? ==> IsCpu(s.b, x.cpu))
  }

  predicate FinOk(s: Sys, c: int)
    requires Shaped(s) && IsCpu(s.b, c)
  {
    var f := s.fin[c];
    !f.NotFin? ==>
      && s.b.cpus[c].pc == SetCur(f.t) && Slot(s.b, f.t)
      && (f.FinState? ==> (f.due ==> Due(s, f.t)))
      && (f.FinCond? ==> (f.due ==> s.cond[f.t]))
      && (f.FinStore? ==> (f.due ==> f.v) && (f.v ==> Due(s, f.t)))
  }

  ghost predicate Good(s: Sys)
  {
    && Shaped(s) && Inv(s.b) && Fit(s.b)
    && (forall t :: 0 <= t < |s.b.tasks| ==> TaskFine(s, t))
    && (forall k :: k in s.asks ==> AskOk(s, s.asks[k]))
    && (forall c :: 0 <= c < |s.b.cpus| ==> FinOk(s, c))
  }

  lemma StartGood(s: Sys)
    requires Start(s)
    ensures Good(s)
  {
    InitInv(s.b);
    forall c | 0 <= c < |s.b.cpus| ensures FitAt(s.b, c) && FinOk(s, c) {
      assert s.b.cpus[c] == Cpu(NO_TASK, NO_TASK, NO_TASK, Exec) && s.fin[c].NotFin?;
    }
    forall t | 0 <= t < |s.b.tasks| ensures TaskFine(s, t) { assert s.tpc[t].Rest?; }
  }

  /** A dead task is current only where it was, and not at the end of a switch. */
  lemma StillThere(b: State, l: Label, t: int, c: int)
    requires Inv(b) && Fit(b) && Enabled(b, l) && Slot(b, t) && b.tasks[t].st.Zombie? && IsCpu(b, c)
    requires |Apply(b, l).cpus| == |b.cpus| && Apply(b, l).cpus[c].cur == t && !Apply(b, l).cpus[c].pc.SetCur?
    ensures b.cpus[c].cur == t && !b.cpus[c].pc.SetCur?
  {
    NotElected(b, l, t, c);
    assert CpuTyped(b, b.cpus[c]) && CpuOk(b, c);
    if b.cpus[c].pc.SetCur? {
      if Moves(l) { MovesMild(b, l); } else { OthersStand(b, l); }
      if Moves(l) && l.c == c { SetCurMoves(b, l, c); }
    }
  }

  lemma SetCurMoves(b: State, l: Label, c: int)
    requires Enabled(b, l) && Moves(l) && l.c == c && b.cpus[c].pc.SetCur?
    ensures |Apply(b, l).cpus| == |b.cpus| && Apply(b, l).cpus[c].cur == b.cpus[c].pc.t
  {
  }

  /** A task in its frontier or its last store keeps its CPU. */
  lemma StaysAtWork(b: State, l: Label, c: int, t: int)
    requires Enabled(b, l) && AtWork(b, c, t) && Actor(l) != c
    ensures AtWork(Apply(b, l), c, t)
  {
    if Moves(l) { MovesMild(b, l); } else { OthersStand(b, l); }
  }

  /** The hand-off under a task: a dead one stays dead, stays announced, and a
      frontier is not interrupted. */
  lemma BaseTask(b: State, flag: seq<bool>, l: Label, t: int, cond: bool, p: TaskPc)
    requires Inv(b) && Fit(b) && Enabled(b, l) && Slot(b, t) && |flag| == |b.cpus| && TaskOk(b, flag, t, cond, p)
    requires !(l.Recycle? && l.t == t) && !(l.Meurt? && b.cpus[l.c].cur == t) && (l.Kill? && l.t == t ==> cond)
    requires forall c :: AtWork(b, c, t) && Actor(l) == c ==> p.Rest? || p.Doomed?
    ensures Slot(Apply(b, l), t) && |Apply(b, l).cpus| == |b.cpus| && TaskOk(Apply(b, l), flag, t, cond, p)
  {
    var b' := Apply(b, l);
    StepSizes(b, l);
    StateChanges(b, l, t);
    if Frontier(p) || p.DStore? { StaysAtWork(b, l, p.cpu, t); }
    if p.Rest? && b'.tasks[t].st.Zombie? && !cond {
      DiesWillingly(b, l, t);
      forall c | 0 <= c < |b'.cpus| && b'.cpus[c].cur == t && !b'.cpus[c].pc.SetCur? ensures flag[c] { StillThere(b, l, t, c); }
    }
    if b'.tasks[t].st.Zombie? && !cond { DiesWillingly(b, l, t); }
  }

  /** Unless it is killed or dies of itself, a task dead after a step was dead. */
  lemma DiesWillingly(b: State, l: Label, t: int)
    requires Enabled(b, l) && Slot(b, t) && |Apply(b, l).tasks| == |b.tasks|
    requires !(l.Meurt? && b.cpus[l.c].cur == t) && !(l.Kill? && l.t == t) && Apply(b, l).tasks[t].st.Zombie?
    ensures b.tasks[t].st.Zombie?
  {
    StateChanges(b, l, t);
    if !Moves(l) { ComesToLife(b, l, t); }
  }

  lemma ComesToLife(b: State, l: Label, t: int)
    requires Enabled(b, l) && !Moves(l) && Slot(b, t) && |Apply(b, l).tasks| == |b.tasks|
    requires !(l.Meurt? && b.cpus[l.c].cur == t) && !(l.Kill? && l.t == t)
    ensures Apply(b, l).tasks[t].st.Zombie? ==> b.tasks[t].st.Zombie?
  {
    if l.PubNext? { PubStands(b, l.p, l.target); }
  }

  lemma BaseTasks(s: Sys, l: Label, t: int)
    requires Good(s) && Can(s, Base(l)) && Slot(s.b, t) && Shaped(BaseStep(s, l))
    ensures Slot(BaseStep(s, l).b, t) && TaskFine(BaseStep(s, l), t)
  {
    StepSizes(s.b, l);
    assert TaskFine(s, t);
    if l.Recycle? && l.t == t {
      StartsOver(s.b, l, t);
    } else if l.Meurt? && s.b.cpus[l.c].cur == t {
    } else {
      BaseTask(s.b, s.flag, l, t, s.cond[t], s.tpc[t]);
    }
  }

  lemma StartsOver(b: State, l: Label, t: int)
    requires Enabled(b, l) && l.Recycle? && l.t == t
    ensures Apply(b, l).tasks[t].st.Ready?
  {
  }

  lemma BaseGood(s: Sys, l: Label)
    requires Good(s) && Can(s, Base(l))
    ensures Good(BaseStep(s, l))
  {
    var s' := BaseStep(s, l);
    StepInv(s.b, l);
    StepFit(s.b, l);
    StepSizes(s.b, l);
    forall t | 0 <= t < |s'.b.tasks| ensures TaskFine(s', t) { BaseTasks(s, l, t); }
    forall k | k in s'.asks ensures AskOk(s', s'.asks[k]) { assert AskOk(s, s.asks[k]); }
    forall c | 0 <= c < |s'.b.cpus| ensures FinOk(s', c) {
      assert FinOk(s, c);
      BaseFin(s, l, c);
    }
  }

  /** A CPU in the middle of `finalise_task_running` does not move otherwise, and
      the slot it starts is not recycled. */
  lemma BaseFin(s: Sys, l: Label, c: int)
    requires Can(s, Base(l)) && Inv(s.b) && IsCpu(s.b, c) && FinOk(s, c)
    requires Shaped(BaseStep(s, l)) && IsCpu(BaseStep(s, l).b, c)
    ensures FinOk(BaseStep(s, l), c)
  {
    assert CpuTyped(s.b, s.b.cpus[c]) && CpuOk(s.b, c);
    if !s.fin[c].NotFin? {
      FinGoesOn(s, l, c);
    } else if l.CpuNext? && l.c == c && s.b.cpus[c].pc.Fin? {
      StateChanges(s.b, l, s.b.cpus[c].pc.t);
    }
  }

  lemma FinGoesOn(s: Sys, l: Label, c: int)
    requires Can(s, Base(l)) && IsCpu(s.b, c) && FinOk(s, c) && !s.fin[c].NotFin? && s.b.tasks[s.fin[c].t].onCpu == c
    requires Shaped(BaseStep(s, l)) && IsCpu(BaseStep(s, l).b, c)
    ensures FinOk(BaseStep(s, l), c)
  {
    StateChanges(s.b, l, s.fin[c].t);
    if !Moves(l) { OthersStand(s.b, l); } else { MovesMild(s.b, l); }
  }

  lemma FinGood(s: Sys, c: int)
    requires Good(s) && Can(s, FinNext(c))
    ensures Good(FinStep(s, c))
  {
    var s' := FinStep(s, c);
    assert FinOk(s, c);
    forall d | 0 <= d < |s'.b.cpus| ensures FinOk(s', d) { assert FinOk(s, d); }
    forall k | k in s'.asks ensures AskOk(s', s'.asks[k]) { assert AskOk(s, s.asks[k]); }
    forall t | 0 <= t < |s'.b.tasks| ensures TaskFine(s', t) { assert TaskFine(s, t); }
  }

  /** A step that leaves the hand-off alone and moves one task's counter; it
      lowers no flag but that of the CPU this task is at work on. */
  lemma TaskMoves(s: Sys, s': Sys, c: int, t: int)
    requires Good(s) && AtWork(s.b, c, t) && Slot(s.b, t) && Shaped(s')
    requires s'.b == s.b && s'.cond == s.cond && s'.fin == s.fin && s'.asks == s.asks && s'.tpc == s.tpc[t := s'.tpc[t]]
    requires forall d :: 0 <= d < |s.flag| && d != c && s.flag[d] ==> s'.flag[d]
    requires TaskFine(s', t)
    ensures Good(s')
  {
    forall u | 0 <= u < |s'.b.tasks| ensures TaskFine(s', u) { assert TaskFine(s, u); }
    forall d | 0 <= d < |s'.b.cpus| ensures FinOk(s', d) { assert FinOk(s, d); }
    forall k | k in s'.asks ensures AskOk(s', s'.asks[k]) { assert AskOk(s, s.asks[k]); }
  }

  lemma OnlyThere(b: State, c: int, d: int, t: int)
    requires Inv(b) && Slot(b, t) && IsCpu(b, c) && IsCpu(b, d) && b.cpus[c].cur == t && b.cpus[d].cur == t
    ensures c == d
  {
    assert CpuTyped(b, b.cpus[c]) && CpuOk(b, c) && CpuTyped(b, b.cpus[d]) && CpuOk(b, d);
  }

  lemma TaskGood(s: Sys, c: int)
    requires Good(s) && Can(s, TaskNext(c))
    ensures Good(Do(s, TaskNext(c)))
  {
    var t := s.b.cpus[c].cur;
    assert TaskFine(s, t) && CpuTyped(s.b, s.b.cpus[c]) && CpuOk(s.b, c);
    if Frontier(s.tpc[t]) || s.tpc[t].DStore? { OnlyThere(s.b, c, s.tpc[t].cpu, t); }
    if Frontier(s.tpc[t]) { FrontierAdvances(s, c, t); } else { DeathAdvances(s, c, t); }
    TaskMoves(s, TaskStep(s, t), c, t);
  }

  lemma FrontierAdvances(s: Sys, c: int, t: int)
    requires Shaped(s) && Slot(s.b, t) && AtWork(s.b, c, t) && TaskFine(s, t) && Frontier(s.tpc[t]) && s.tpc[t].cpu == c
    ensures var s' := TaskStep(s, t);
      && s'.b == s.b && s'.cond == s.cond && s'.fin == s.fin && s'.asks == s.asks && |s'.flag| == |s.flag|
      && |s'.tpc| == |s.tpc| && s'.tpc == s.tpc[t := s'.tpc[t]] && TaskFine(s', t)
      && forall d :: 0 <= d < |s.flag| && d != c && s.flag[d] ==> s'.flag[d]
  {
  }

  lemma DeathAdvances(s: Sys, c: int, t: int)
    requires Shaped(s) && Inv(s.b) && Slot(s.b, t) && AtWork(s.b, c, t) && TaskFine(s, t) && Dying(s.tpc[t])
    requires s.b.tasks[t].onCpu == c && !s.b.tasks[t].sw && (s.tpc[t].DStore? ==> s.tpc[t].cpu == c)
    ensures var s' := TaskStep(s, t);
      && s'.b == s.b && s'.cond == s.cond && s'.fin == s.fin && s'.asks == s.asks && |s'.flag| == |s.flag|
      && |s'.tpc| == |s.tpc| && s'.tpc == s.tpc[t := s'.tpc[t]] && TaskFine(s', t)
      && forall d :: 0 <= d < |s.flag| && d != c && s.flag[d] ==> s'.flag[d]
  {
    var s' := TaskStep(s, t);
    if s.tpc[t].DStore? {
      forall d | 0 <= d < |s.b.cpus| && s.b.cpus[d].cur == t ensures d == c { OnlyThere(s.b, c, d, t); }
    }
  }

  lemma FrontGood(s: Sys, c: int)
    requires Good(s) && Can(s, Front(c))
    ensures Good(Do(s, Front(c)))
  {
    var t := s.b.cpus[c].cur;
    assert TaskFine(s, t);
    TaskMoves(s, Do(s, Front(c)), c, t);
  }

  /** A killer condemns and raises; it does nothing else. */
  lemma AskEffect(s: Sys, k: nat)
    requires Shaped(s) && k in s.asks && AskOk(s, s.asks[k])
    ensures var s' := AskStep(s, k);
      && s'.b == s.b && s'.tpc == s.tpc && s'.fin == s.fin && Shaped(s')
      && (forall t :: 0 <= t < |s.cond| && s.cond[t] ==> s'.cond[t])
      && (forall c :: 0 <= c < |s.flag| && s.flag[c] ==> s'.flag[c])
  {
  }

  lemma AskGood(s: Sys, k: nat)
    requires Good(s) && k in s.asks
    ensures Good(AskStep(s, k))
  {
    var s' := AskStep(s, k);
    assert AskOk(s, s.asks[k]) && Owned(s.b, s.asks[k].t);
    AskEffect(s, k);
    forall j | j in s'.asks ensures AskOk(s', s'.asks[j]) {
      if j != k { assert AskOk(s, s.asks[j]); }
    }
    forall d | 0 <= d < |s'.b.cpus| ensures FinOk(s', d) { assert FinOk(s, d); }
    forall t | 0 <= t < |s'.b.tasks| ensures TaskFine(s', t) { assert TaskFine(s, t); }
  }

  lemma NewAskGood(s: Sys, k: nat, t: int)
    requires Good(s) && Can(s, NewAsk(k, t))
    ensures Good(Do(s, NewAsk(k, t)))
  {
    var s' := Do(s, NewAsk(k, t));
    forall j | j in s'.asks ensures AskOk(s', s'.asks[j]) { if j != k { assert AskOk(s, s.asks[j]); } }
    forall d | 0 <= d < |s'.b.cpus| ensures FinOk(s', d) { assert FinOk(s, d); }
    forall u | 0 <= u < |s'.b.tasks| ensures TaskFine(s', u) { assert TaskFine(s, u); }
  }

  /** Every step of every CPU, task, killer and recycler keeps the invariant. */
  lemma StepGood(s: Sys, a: Act)
    requires Good(s) && Can(s, a)
    ensures Good(Do(s, a))
  {
    match a
    case Base(l) => BaseGood(s, l);
    case FinNext(c) => FinGood(s, c);
    case Front(c) => FrontGood(s, c);
    case TaskNext(c) => TaskGood(s, c);
    case NewAsk(k, t) => NewAskGood(s, k, t);
    case AskNext(k) => AskGood(s, k);
  }

  // ---- Whole runs ----

  ghost predicate Run(states: seq<Sys>, acts: seq<Act>)
  {
    && |states| == |acts| + 1
    && Start(states[0])
    && forall i :: 0 <= i < |acts| ==> Can(states[i], acts[i]) && states[i + 1] == Do(states[i], acts[i])
  }

  lemma {:induction false} RunGood(states: seq<Sys>, acts: seq<Act>, i: nat)
    requires Run(states, acts) && i <= |acts|
    ensures Good(states[i])
  {
    if i == 0 {
      StartGood(states[0]);
    } else {
      RunGood(states, acts, i - 1);
      assert Can(states[i - 1], acts[i - 1]) && states[i - 1 + 1] == Do(states[i - 1], acts[i - 1]);
      StepGood(states[i - 1], acts[i - 1]);
    }
  }

  /** Whatever raised the flag it read, the frontier retires only a task that is
      condemned or dead. */
  lemma RetiresOnlyTheDoomed(states: seq<Sys>, acts: seq<Act>, i: nat, t: int)
    requires Run(states, acts) && i <= |acts| && Slot(states[i].b, t)
    ensures Shaped(states[i]) && (states[i].tpc[t].Doomed? ==> Due(states[i], t))
  {
    RunGood(states, acts, i);
    assert TaskFine(states[i], t);
  }

  /** A task that dies raises the flag of the very CPU it is current on. */
  lemma OwnDeathFlagsOwnCpu(states: seq<Sys>, acts: seq<Act>, i: nat, c: int)
    requires Run(states, acts) && i < |acts| && acts[i] == TaskNext(c)
    requires states[i].tpc[states[i].b.cpus[c].cur].DStore?
    ensures var t := states[i].b.cpus[c].cur;
      states[i].tpc[t].cpu == c && states[i].b.tasks[t].st.Zombie? && states[i + 1].flag == states[i].flag[c := true]
  {
    RunGood(states, acts, i);
    var s, t := states[i], states[i].b.cpus[c].cur;
    assert TaskFine(s, t);
    OnlyThere(s.b, c, s.tpc[t].cpu, t);
  }

  lemma RunStep(states: seq<Sys>, acts: seq<Act>, i: nat)
    requires Run(states, acts) && i < |acts|
    ensures Good(states[i]) && Good(states[i + 1]) && Can(states[i], acts[i]) && states[i + 1] == Do(states[i], acts[i])
  {
    RunGood(states, acts, i);
    RunGood(states, acts, i + 1);
  }

  // ---- Starting a task ----

  predicate Starts(s: Sys, c: int, t: int)
  {
    Shaped(s) && IsCpu(s.b, c) && !s.fin[c].NotFin? && s.fin[c].t == t
  }

  /** From the step after `i`, CPU `c` is starting `t`. */
  ghost predicate Starting(states: seq<Sys>, c: int, t: int, i: nat, n: nat)
    requires n < |states|
  {
    forall m :: i < m <= n ==> Starts(states[m], c, t)
  }

  lemma FinKeepsDue(s: Sys, a: Act, c: int, t: int)
    requires Good(s) && Can(s, a) && Starts(s, c, t) && Starts(Do(s, a), c, t)
    ensures Do(s, a).fin[c].due == s.fin[c].due
  {
    assert FinOk(s, c);
  }

  lemma FinKeepsDueAt(states: seq<Sys>, acts: seq<Act>, c: int, t: int, m: nat)
    requires Run(states, acts) && m < |acts| && Starts(states[m], c, t) && Starts(states[m + 1], c, t)
    ensures states[m + 1].fin[c].due == states[m].fin[c].due
  {
    RunStep(states, acts, m);
    FinKeepsDue(states[m], acts[m], c, t);
  }

  /** The finalisation of `t` on `c` begins at step `i`. */
  ghost predicate Begins(states: seq<Sys>, acts: seq<Act>, c: int, t: int, i: nat)
  {
    i < |acts| && i < |states| && acts[i] == Base(CpuNext(c)) && IsCpu(states[i].b, c) && states[i].b.cpus[c].pc == Fin(t)
  }

  lemma DueAtStart(states: seq<Sys>, acts: seq<Act>, c: int, t: int, i: nat)
    requires Run(states, acts) && Begins(states, acts, c, t, i)
    ensures Starts(states[i + 1], c, t)
    ensures Shaped(states[i]) && Slot(states[i].b, t) && states[i + 1].fin[c].due == Due(states[i], t)
  {
    RunStep(states, acts, i);
    assert CpuTyped(states[i].b, states[i].b.cpus[c]);
  }

  lemma {:induction false} DueConstant(states: seq<Sys>, c: int, t: int, i: nat, n: nat)
    requires i < n < |states| && Starting(states, c, t, i, n)
    requires forall m :: i < m < n ==> states[m + 1].fin[c].due == states[m].fin[c].due
    ensures states[n].fin[c].due == states[i + 1].fin[c].due
  {
    if n > i + 1 { DueConstant(states, c, t, i, n - 1); assert states[n - 1 + 1].fin[c].due == states[n - 1].fin[c].due; }
  }

  lemma DueSinceStart(states: seq<Sys>, acts: seq<Act>, c: int, t: int, i: nat, n: nat)
    requires Run(states, acts) && i < n <= |acts| && Starting(states, c, t, i, n) && Begins(states, acts, c, t, i)
    ensures Shaped(states[i]) && Slot(states[i].b, t) && states[n].fin[c].due == Due(states[i], t)
  {
    DueAtStart(states, acts, c, t, i);
    forall m | i < m < n ensures states[m + 1].fin[c].due == states[m].fin[c].due { FinKeepsDueAt(states, acts, c, t, m); }
    DueConstant(states, c, t, i, n);
  }

  lemma StoreMeansDue(states: seq<Sys>, acts: seq<Act>, c: int, t: int, n: nat)
    requires Run(states, acts) && n < |acts| && acts[n] == FinNext(c) && Starts(states[n], c, t)
    requires Shaped(states[n + 1]) && IsCpu(states[n + 1].b, c) && states[n + 1].fin[c].NotFin?
    ensures states[n].fin[c].due ==> states[n + 1].flag[c]
    ensures Slot(states[n].b, t) && (states[n + 1].flag[c] ==> Due(states[n], t))
  {
    RunStep(states, acts, n);
    assert FinOk(states[n], c);
  }

  /** When a CPU ends `finalise_task_running`, its flag is up if the task was
      condemned or dead when that began, and only if it is by now. */
  lemma StartFlags(states: seq<Sys>, acts: seq<Act>, c: int, t: int, i: nat, n: nat)
    requires Run(states, acts) && i < n < |acts| && Starting(states, c, t, i, n) && Begins(states, acts, c, t, i)
    requires acts[n] == FinNext(c) && Shaped(states[n + 1]) && IsCpu(states[n + 1].b, c) && states[n + 1].fin[c].NotFin?
    ensures Shaped(states[i]) && Slot(states[i].b, t) && (Due(states[i], t) ==> states[n + 1].flag[c])
    ensures Shaped(states[n]) && Slot(states[n].b, t) && (states[n + 1].flag[c] ==> Due(states[n], t))
  {
    DueSinceStart(states, acts, c, t, i, n);
    assert Starts(states[n], c, t);
    StoreMeansDue(states, acts, c, t, n);
  }

  // ---- Passing a frontier ----

  /** What a step does to a task inside its frontier: it moves by itself only,
      and one that is due stays so or is doomed. */
  lemma FrontierStep(s: Sys, a: Act, c: int, t: int)
    requires Good(s) && Can(s, a) && Slot(s.b, t) && Frontier(s.tpc[t]) && s.tpc[t].cpu == c
    ensures Shaped(Do(s, a)) && Slot(Do(s, a).b, t)
    ensures var p := Do(s, a).tpc[t]; p == s.tpc[t] || (a == TaskNext(c) && (p.Rest? || p.Doomed? || (Frontier(p) && p.cpu == c)))
    ensures s.tpc[t].due ==> var p := Do(s, a).tpc[t]; p.Doomed? || (Frontier(p) && p.due)
  {
    StepGood(s, a);
    assert TaskFine(s, t) && CpuTyped(s.b, s.b.cpus[c]) && CpuOk(s.b, c);
    if a.TaskNext? && s.b.cpus[a.c].cur == t { OnlyThere(s.b, a.c, c, t); }
    if a.Base? { BaseLeavesFrontier(s, a.l, c, t); }
    if a.AskNext? { assert AskOk(s, s.asks[a.k]); AskEffect(s, a.k); }
  }

  lemma BaseLeavesFrontier(s: Sys, l: Label, c: int, t: int)
    requires Inv(s.b) && Can(s, Base(l)) && Slot(s.b, t) && Frontier(s.tpc[t]) && AtWork(s.b, c, t)
    ensures |BaseStep(s, l).tpc| == |s.tpc| && BaseStep(s, l).tpc[t] == s.tpc[t]
  {
    assert CpuTyped(s.b, s.b.cpus[c]) && CpuOk(s.b, c);
  }

  /** Who raises and who lowers the flag of `c`: a killer of a condemned task, a
      task that died on `c`, the start of a condemned or dead task; the frontier
      of the task at work on `c`, or the start of a task. */
  lemma FlagMoves(s: Sys, a: Act, c: int)
    requires Good(s) && Can(s, a) && IsCpu(s.b, c)
    ensures |Do(s, a).flag| == |s.flag|
    ensures !s.flag[c] && Do(s, a).flag[c] ==>
              || (a.AskNext? && s.asks[a.k].AStore? && s.asks[a.k].cpu == c && s.cond[s.asks[a.k].t])
              || (a == TaskNext(c) && s.tpc[s.b.cpus[c].cur].DStore? && s.b.tasks[s.b.cpus[c].cur].st.Zombie?)
              || (a == FinNext(c) && s.fin[c].FinStore? && Slot(s.b, s.fin[c].t) && Due(s, s.fin[c].t))
    ensures s.flag[c] && !Do(s, a).flag[c] ==>
              || (a == TaskNext(c) && s.tpc[s.b.cpus[c].cur].FClear?)
              || (a == FinNext(c) && s.fin[c].FinStore? && !s.fin[c].due)
  {
    assert FinOk(s, c);
    if a.AskNext? { assert AskOk(s, s.asks[a.k]); }
    if a.TaskNext? {
      var t := s.b.cpus[a.c].cur;
      assert TaskFine(s, t);
      if Frontier(s.tpc[t]) || s.tpc[t].DStore? { OnlyThere(s.b, a.c, s.tpc[t].cpu, t); }
    }
  }

  predicate Asks(s: Sys, a: Act, c: int) { a.AskNext? && a.k in s.asks && s.asks[a.k].AStore? && s.asks[a.k].cpu == c }

  /** No killer stores the flag of `c` from `i` to `n`. */
  ghost predicate Unasked(states: seq<Sys>, acts: seq<Act>, c: int, i: nat, n: nat)
    requires n <= |acts| < |states|
  {
    forall m :: i <= m < n ==> !Asks(states[m], acts[m], c)
  }

  /** Past the store that lowers it, the flag is down. */
  predicate Lowered(s: Sys, c: int, t: int)
    requires Shaped(s) && IsCpu(s.b, c) && Slot(s.b, t)
  {
    s.tpc[t].FReread? || s.tpc[t].FState? ==> !s.flag[c]
  }

  predicate Found(p: TaskPc) { p.FClear? || p.FReread? || p.FState? }

  lemma LoweredStep(s: Sys, a: Act, c: int, t: int)
    requires Good(s) && Can(s, a) && Slot(s.b, t) && Frontier(s.tpc[t]) && s.tpc[t].cpu == c && IsCpu(s.b, c)
    requires Lowered(s, c, t) && !Asks(s, a, c)
    ensures Shaped(Do(s, a)) && Slot(Do(s, a).b, t) && IsCpu(Do(s, a).b, c) && Lowered(Do(s, a), c, t)
    ensures Found(s.tpc[t]) && !Frontier(Do(s, a).tpc[t]) ==> !Do(s, a).flag[c]
  {
    StepGood(s, a);
    assert TaskFine(s, t) && FinOk(s, c);
    FrontierStep(s, a, c, t);
    FlagMoves(s, a, c);
  }

  /** Having found the flag up, a frontier goes on to lower it. */
  lemma FoundStep(s: Sys, a: Act, c: int, t: int)
    requires Good(s) && Can(s, a) && Slot(s.b, t) && Frontier(s.tpc[t]) && s.tpc[t].cpu == c && IsCpu(s.b, c)
    requires Found(s.tpc[t]) || (s.tpc[t].FLoad? && s.flag[c] && a == TaskNext(c))
    ensures Slot(Do(s, a).b, t) && Shaped(Do(s, a)) && (Frontier(Do(s, a).tpc[t]) ==> Found(Do(s, a).tpc[t]))
    ensures !Frontier(Do(s, a).tpc[t]) ==> Found(s.tpc[t])
  {
    assert TaskFine(s, t);
    FrontierStep(s, a, c, t);
  }

  /** What leads to lowering the flag, and to dooming the task. */
  lemma LowersForReason(s: Sys, a: Act, c: int, t: int)
    requires Good(s) && Can(s, a) && Slot(s.b, t) && Frontier(s.tpc[t]) && s.tpc[t].cpu == c && IsCpu(s.b, c)
    ensures Slot(Do(s, a).b, t) && Shaped(Do(s, a))
    ensures Do(s, a).tpc[t].FClear? && !s.tpc[t].FClear? ==> (s.tpc[t].FLoad? && s.flag[c]) || (s.tpc[t].FCond? && s.cond[t])
    ensures Do(s, a).tpc[t].Doomed? || (Found(Do(s, a).tpc[t]) && !Do(s, a).tpc[t].FClear?) ==> Found(s.tpc[t])
  {
    assert TaskFine(s, t);
    FrontierStep(s, a, c, t);
  }

  /** Task `t` is inside a frontier it began on `c`. */
  predicate In(s: Sys, c: int, t: int)
  {
    Shaped(s) && IsCpu(s.b, c) && Slot(s.b, t) && Frontier(s.tpc[t]) && s.tpc[t].cpu == c
  }

  /** Everything a step means to a task inside its frontier. */
  predicate Passage(s: Sys, a: Act, s': Sys, c: int, t: int)
    requires In(s, c, t)
  {
    && Shaped(s') && IsCpu(s'.b, c) && Slot(s'.b, t)
    && (In(s', c, t) || s'.tpc[t].Rest? || s'.tpc[t].Doomed?)
    && (s.tpc[t].due ==> !s'.tpc[t].Rest? && (Frontier(s'.tpc[t]) ==> s'.tpc[t].due))
    && (Lowered(s, c, t) && !Asks(s, a, c) ==> Lowered(s', c, t) && (Found(s.tpc[t]) && !In(s', c, t) ==> !s'.flag[c]))
    && (Found(s.tpc[t]) || (s.tpc[t].FLoad? && s.flag[c] && a == TaskNext(c)) ==>
          (Frontier(s'.tpc[t]) ==> Found(s'.tpc[t])) && (!In(s', c, t) ==> Found(s.tpc[t])))
    && (s'.tpc[t].FClear? && !s.tpc[t].FClear? ==> (s.tpc[t].FLoad? && s.flag[c]) || (s.tpc[t].FCond? && s.cond[t]))
    && (s'.tpc[t].Doomed? || (Found(s'.tpc[t]) && !s'.tpc[t].FClear?) ==> Found(s.tpc[t]))
  }

  lemma PassageAt(states: seq<Sys>, acts: seq<Act>, c: int, t: int, m: nat)
    requires Run(states, acts) && m < |acts| && In(states[m], c, t)
    ensures Passage(states[m], acts[m], states[m + 1], c, t)
  {
    RunStep(states, acts, m);
    var s, a := states[m], acts[m];
    FrontierStep(s, a, c, t);
    StepSizesSys(s, a);
    LowersForReason(s, a, c, t);
    if Lowered(s, c, t) && !Asks(s, a, c) { LoweredStep(s, a, c, t); }
    if Found(s.tpc[t]) || (s.tpc[t].FLoad? && s.flag[c] && a == TaskNext(c)) { FoundStep(s, a, c, t); }
  }

  lemma StepSizesSys(s: Sys, a: Act)
    requires Good(s) && Can(s, a)
    ensures |Do(s, a).b.cpus| == |s.b.cpus| && |Do(s, a).b.tasks| == |s.b.tasks|
  {
    StepGood(s, a);
    if a.Base? { StepSizes(s.b, a.l); }
  }

  /** A frontier of `t` on `c`, begun at step `i` and still going on at `n`. */
  ghost predicate Crossing(states: seq<Sys>, acts: seq<Act>, c: int, t: int, i: nat, n: nat)
  {
    && i < n <= |acts| && |states| == |acts| + 1
    && acts[i] == Front(c) && IsCpu(states[i].b, c) && states[i].b.cpus[c].cur == t
    && forall m :: i < m <= n ==> In(states[m], c, t)
  }

  lemma EntersFrontier(states: seq<Sys>, acts: seq<Act>, c: int, t: int, i: nat, n: nat)
    requires Run(states, acts) && Crossing(states, acts, c, t, i, n)
    ensures Shaped(states[i]) && Slot(states[i].b, t) && states[i + 1].tpc[t] == FLoad(c, Due(states[i], t))
  {
    RunStep(states, acts, i);
  }

  lemma {:induction false} StaysDue(states: seq<Sys>, acts: seq<Act>, c: int, t: int, i: nat, n: nat)
    requires Crossing(states, acts, c, t, i, n) && states[i + 1].tpc[t].due
    requires forall m :: i < m < n ==> Passage(states[m], acts[m], states[m + 1], c, t)
    ensures states[n].tpc[t].due
  {
    if n > i + 1 {
      StaysDue(states, acts, c, t, i, n - 1);
      assert Passage(states[n - 1], acts[n - 1], states[n - 1 + 1], c, t);
    }
  }

  /** A frontier begun by a task condemned, or dead, never lets it pass: it ends
      with the task doomed, whether or not any killer found its CPU to flag. */
  lemma FrontierStopsDoomed(states: seq<Sys>, acts: seq<Act>, c: int, t: int, i: nat, n: nat)
    requires Run(states, acts) && n < |acts| && Crossing(states, acts, c, t, i, n)
    requires Shaped(states[i]) && Slot(states[i].b, t) && Due(states[i], t)
    ensures Shaped(states[n + 1]) && Slot(states[n + 1].b, t)
    ensures Frontier(states[n + 1].tpc[t]) || states[n + 1].tpc[t].Doomed?
  {
    EntersFrontier(states, acts, c, t, i, n);
    forall m | i < m <= n ensures Passage(states[m], acts[m], states[m + 1], c, t) { PassageAt(states, acts, c, t, m); }
    StaysDue(states, acts, c, t, i, n);
  }

  lemma {:induction false} LoweredSince(states: seq<Sys>, acts: seq<Act>, c: int, t: int, i: nat, n: nat)
    requires Crossing(states, acts, c, t, i, n) && states[i + 1].tpc[t].FLoad? && Unasked(states, acts, c, i, n)
    requires forall m :: i < m < n ==> Passage(states[m], acts[m], states[m + 1], c, t)
    ensures Lowered(states[n], c, t)
  {
    if n > i + 1 {
      LoweredSince(states, acts, c, t, i, n - 1);
      assert Passage(states[n - 1], acts[n - 1], states[n - 1 + 1], c, t);
    }
  }

  lemma {:induction false} FoundUp(states: seq<Sys>, acts: seq<Act>, c: int, t: int, i: nat, f: nat, n: nat)
    requires Crossing(states, acts, c, t, i, n) && i < f < n
    requires states[f].tpc[t].FLoad? && acts[f] == TaskNext(c) && states[f].flag[c]
    requires forall m :: i < m < n ==> Passage(states[m], acts[m], states[m + 1], c, t)
    ensures Found(states[n].tpc[t])
  {
    if n > f + 1 { FoundUp(states, acts, c, t, i, f, n - 1); }
    assert Passage(states[n - 1], acts[n - 1], states[n - 1 + 1], c, t);
  }

  /** A frontier lowers the flag only for a reason: it found it up, or found the
      task condemned. */
  lemma {:induction false} ReasonToLower(states: seq<Sys>, acts: seq<Act>, c: int, t: int, i: nat, n: nat) returns (r: nat)
    requires Crossing(states, acts, c, t, i, n) && states[i + 1].tpc[t].FLoad? && Found(states[n].tpc[t])
    requires forall m :: i < m < n ==> Passage(states[m], acts[m], states[m + 1], c, t)
    ensures i < r < n && ((states[r].tpc[t].FLoad? && states[r].flag[c]) || (states[r].tpc[t].FCond? && states[r].cond[t]))
  {
    assert Passage(states[n - 1], acts[n - 1], states[n - 1 + 1], c, t);
    if Found(states[n - 1].tpc[t]) { r := ReasonToLower(states, acts, c, t, i, n - 1); } else { r := n - 1; }
  }

  lemma LowersOnlyForReason(states: seq<Sys>, acts: seq<Act>, c: int, t: int, i: nat, n: nat) returns (r: nat)
    requires Run(states, acts) && Crossing(states, acts, c, t, i, n) && Found(states[n].tpc[t])
    ensures i < r < n && ((states[r].tpc[t].FLoad? && states[r].flag[c]) || (states[r].tpc[t].FCond? && states[r].cond[t]))
  {
    EntersFrontier(states, acts, c, t, i, n);
    forall m | i < m < n ensures Passage(states[m], acts[m], states[m + 1], c, t) { PassageAt(states, acts, c, t, m); }
    r := ReasonToLower(states, acts, c, t, i, n);
  }

  /** A frontier that dooms its task leaves the flag down, if no killer has stored
      it since the frontier began. */
  lemma DoomLeavesFlagDown(states: seq<Sys>, acts: seq<Act>, c: int, t: int, i: nat, n: nat)
    requires Run(states, acts) && n < |acts| && Crossing(states, acts, c, t, i, n)
    requires Shaped(states[n + 1]) && Slot(states[n + 1].b, t) && states[n + 1].tpc[t].Doomed?
    requires Unasked(states, acts, c, i, n + 1)
    ensures IsCpu(states[n + 1].b, c) && !states[n + 1].flag[c]
  {
    EntersFrontier(states, acts, c, t, i, n);
    forall m | i < m <= n ensures Passage(states[m], acts[m], states[m + 1], c, t) { PassageAt(states, acts, c, t, m); }
    LoweredSince(states, acts, c, t, i, n);
    assert Passage(states[n], acts[n], states[n + 1], c, t);
  }

  /** A frontier that found the flag up and lets its task pass leaves it down,
      if no killer has stored it since the frontier began. */
  lemma PassLeavesFlagDown(states: seq<Sys>, acts: seq<Act>, c: int, t: int, i: nat, f: nat, n: nat)
    requires Run(states, acts) && n < |acts| && Crossing(states, acts, c, t, i, n) && i < f <= n
    requires states[f].tpc[t].FLoad? && acts[f] == TaskNext(c) && states[f].flag[c]
    requires Shaped(states[n + 1]) && Slot(states[n + 1].b, t) && states[n + 1].tpc[t].Rest?
    requires Unasked(states, acts, c, i, n + 1)
    ensures IsCpu(states[n + 1].b, c) && !states[n + 1].flag[c]
  {
    EntersFrontier(states, acts, c, t, i, n);
    forall m | i < m <= n ensures Passage(states[m], acts[m], states[m + 1], c, t) { PassageAt(states, acts, c, t, m); }
    LoweredSince(states, acts, c, t, i, n);
    if f < n { FoundUp(states, acts, c, t, i, f, n); }
    assert Passage(states[n], acts[n], states[n + 1], c, t);
  }

  // ---- Who condemns ----

  predicate Condemns(s: Sys, a: Act, t: int) { a.AskNext? && a.k in s.asks && s.asks[a.k] == AMark(t) }

  predicate Reborn(a: Act, t: int) { a.Base? && a.l.Recycle? && a.l.t == t }

  lemma CondemnationMoves(s: Sys, a: Act, t: int)
    requires Good(s) && Can(s, a) && Slot(s.b, t)
    ensures |Do(s, a).cond| == |s.cond|
    ensures Do(s, a).cond[t] ==> !Reborn(a, t) && (s.cond[t] || Condemns(s, a, t))
  {
    if a.AskNext? { assert AskOk(s, s.asks[a.k]); }
  }

  predicate CondStep(s: Sys, a: Act, s': Sys, t: int)
  {
    0 <= t < |s'.cond| && s'.cond[t] ==> t < |s.cond| && !Reborn(a, t) && (s.cond[t] || Condemns(s, a, t))
  }

  lemma CondStepAt(states: seq<Sys>, acts: seq<Act>, t: int, m: nat)
    requires Run(states, acts) && m < |acts|
    ensures CondStep(states[m], acts[m], states[m + 1], t)
  {
    RunStep(states, acts, m);
    StepSizesSys(states[m], acts[m]);
    if Slot(states[m].b, t) { CondemnationMoves(states[m], acts[m], t); }
  }

  lemma {:induction false} CondemnedSince(states: seq<Sys>, acts: seq<Act>, t: int, n: nat) returns (m: nat)
    requires n <= |acts| < |states| && 0 <= t < |states[n].cond| && states[n].cond[t]
    requires t < |states[0].cond| ==> !states[0].cond[t]
    requires forall j :: 0 <= j < n ==> CondStep(states[j], acts[j], states[j + 1], t)
    ensures m < n && Condemns(states[m], acts[m], t) && forall j :: m <= j < n ==> !Reborn(acts[j], t)
  {
    assert CondStep(states[n - 1], acts[n - 1], states[n - 1 + 1], t);
    if Condemns(states[n - 1], acts[n - 1], t) { m := n - 1; } else { m := CondemnedSince(states, acts, t, n - 1); }
  }

  /** A condemned task was condemned by a killer, in its present incarnation. */
  lemma CondemnedByKiller(states: seq<Sys>, acts: seq<Act>, t: int, n: nat) returns (m: nat)
    requires Run(states, acts) && n <= |acts| && 0 <= t < |states[n].cond| && states[n].cond[t]
    ensures m < n && Condemns(states[m], acts[m], t) && forall j :: m <= j < n ==> !Reborn(acts[j], t)
  {
    forall j | 0 <= j < n ensures CondStep(states[j], acts[j], states[j + 1], t) { CondStepAt(states, acts, t, j); }
    m := CondemnedSince(states, acts, t, n);
  }

  // ---- What a killer has seen ----

  function AskPos(x: Ask): nat { match x case AMark(_) => 0 case AState(_) => 1 case ACpu(_) => 2 case AStore(_, _) => 3 }

  /** One killer's progress in one step, by what it reads or writes. */
  predicate AskMoves(s: Sys, s': Sys, k: nat)
  {
    && k in s.asks && k in s'.asks
    && var x, y := s.asks[k], s'.asks[k];
      && y.t == x.t
      && (y != x ==>
          && AskPos(y) == AskPos(x) + 1 && 0 <= x.t < |s.b.tasks| && x.t < |s'.cond|
          && (y.AState? ==> s'.cond[x.t])
          && (y.ACpu? ==> s.b.tasks[x.t].st.Ready?)
          && (y.AStore? ==> s.b.tasks[x.t].onCpu == y.cpu))
  }

  lemma AskMovesStep(s: Sys, k: nat, j: nat)
    requires Shaped(s) && k in s.asks && j in s.asks && AskOk(s, s.asks[k]) && k in AskStep(s, j).asks
    ensures AskMoves(s, AskStep(s, j), k)
  {
  }

  lemma OthersAsk(s: Sys, a: Act, k: nat)
    requires Can(s, a) && !a.AskNext? && k in s.asks && k in Do(s, a).asks
    ensures Do(s, a).asks[k] == s.asks[k]
  {
  }

  lemma AskMovesAt(states: seq<Sys>, acts: seq<Act>, k: nat, m: nat)
    requires Run(states, acts) && m < |acts| && k in states[m].asks && k in states[m + 1].asks
    ensures AskMoves(states[m], states[m + 1], k)
  {
    RunStep(states, acts, m);
    assert AskOk(states[m], states[m].asks[k]);
    if acts[m].AskNext? { AskMovesStep(states[m], k, acts[m].k); } else { OthersAsk(states[m], acts[m], k); }
  }

  /** Killer `k` of `t` is at work from state `b`, where it begins, to `n`. */
  ghost predicate AtIt(states: seq<Sys>, k: nat, t: int, b: nat, n: nat)
  {
    b <= n < |states| && (forall m :: b <= m <= n ==> k in states[m].asks && states[m].asks[k].t == t) && states[b].asks[k].AMark?
  }

  function AskPosAt(states: seq<Sys>, k: nat, m: nat): nat
  {
    if m < |states| && k in states[m].asks then AskPos(states[m].asks[k]) else 0
  }

  /** What the killer read or wrote at its `j`-th access. */
  predicate AskedAt(states: seq<Sys>, k: nat, t: int, m: nat, j: nat)
  {
    && m + 1 < |states| && 0 <= t < |states[m].b.tasks| && t < |states[m + 1].cond| && k in states[m + 1].asks
    && (j == 0 ==> states[m + 1].cond[t])
    && (j == 1 ==> states[m].b.tasks[t].st.Ready?)
    && (j == 2 ==> states[m + 1].asks[k].AStore? && states[m].b.tasks[t].onCpu == states[m + 1].asks[k].cpu)
  }

  lemma {:induction false} StoreKept(states: seq<Sys>, k: nat, m: nat, n: nat)
    requires m <= n < |states| && forall i :: m <= i < n ==> AskMoves(states[i], states[i + 1], k)
    requires k in states[m].asks && states[m].asks[k].AStore?
    ensures k in states[n].asks && states[n].asks[k] == states[m].asks[k]
  {
    if n > m { StoreKept(states, k, m, n - 1); assert AskMoves(states[n - 1], states[n - 1 + 1], k); }
  }

  lemma AskPassages(states: seq<Sys>, k: nat, t: int, b: nat, n: nat) returns (r: seq<nat>)
    requires AtIt(states, k, t, b, n) && states[n].asks[k].AStore?
    requires forall m :: b <= m < n ==> AskMoves(states[m], states[m + 1], k)
    ensures |r| == 3 && b <= r[0] < r[1] < r[2] < n
    ensures forall j :: 0 <= j < 3 ==> AskedAt(states, k, t, r[j], j)
  {
    forall m: nat | b <= m < n
      ensures AskPosAt(states, k, m + 1) == AskPosAt(states, k, m)
        || (AskPosAt(states, k, m + 1) == AskPosAt(states, k, m) + 1 && AskedAt(states, k, t, m, AskPosAt(states, k, m)))
    {
      assert AskMoves(states[m], states[m + 1], k);
    }
    r := Climb((m: nat) => AskPosAt(states, k, m), (j: nat, m: nat) => AskedAt(states, k, t, m, j), b, n);
  }

  /** A killer about to store a CPU's flag has condemned the task, has then read it
      ready, and has then read that CPU as its owner. */
  lemma KillerSaw(states: seq<Sys>, acts: seq<Act>, k: nat, t: int, b: nat, n: nat) returns (r: seq<nat>)
    requires Run(states, acts) && AtIt(states, k, t, b, n) && states[n].asks[k].AStore?
    ensures |r| == 3 && b <= r[0] < r[1] < r[2] < n
    ensures 0 <= t < |states[r[0] + 1].cond| && states[r[0] + 1].cond[t]
    ensures Slot(states[r[1]].b, t) && states[r[1]].b.tasks[t].st.Ready?
    ensures Slot(states[r[2]].b, t) && states[r[2]].b.tasks[t].onCpu == states[n].asks[k].cpu
  {
    forall m: nat | b <= m < n ensures AskMoves(states[m], states[m + 1], k) { AskMovesAt(states, acts, k, m); }
    r := AskPassages(states, k, t, b, n);
    assert AskedAt(states, k, t, r[0], 0) && AskedAt(states, k, t, r[1], 1) && AskedAt(states, k, t, r[2], 2);
    StoreKept(states, k, r[2] + 1, n);
  }

  /** The CPU has left `t` for another stack and still owns it. */
  predicate HandedOver(x: Cpu, t: int) { x.pend == t && (x.pc.Phys? || x.pc.CompLoad? || x.pc.CompRq? || x.pc.CompOn?) }

  /** The CPU a killer flags has the condemned task as its current task if and
      only if it still owns it, entered it after claiming it, and is not handing
      it over. */
  lemma AskHitsIffCurrent(states: seq<Sys>, acts: seq<Act>, i: nat, k: nat)
    requires Run(states, acts) && i <= |acts| && k in states[i].asks && states[i].asks[k].AStore?
    ensures var s := states[i]; var AStore(t, c) := s.asks[k];
      && Shaped(s) && Slot(s.b, t) && IsCpu(s.b, c) && s.cond[t]
      && (s.b.cpus[c].cur == t <==>
            s.b.tasks[t].onCpu == c && Held(s.b.cpus[c].pc) != t && !HandedOver(s.b.cpus[c], t))
  {
    RunGood(states, acts, i);
    var s := states[i];
    assert AskOk(s, s.asks[k]);
    var AStore(t, c) := s.asks[k];
    assert CpuTyped(s.b, s.b.cpus[c]) && CpuOk(s.b, c) && Owned(s.b, t);
  }
}
