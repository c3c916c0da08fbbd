/** Where a CPU goes: it leaves a live task only for one it elected, a retired one
    for good, publishes what it read ready, and writes the queue number of the
    tasks it enters and leaves. */
module PassationChemin {
  import opened Passation
  import opened PassationInv
  import opened PassationSure
  import opened PassationElection

  // ---- Leaving for the idle stack ----

  predicate Back(after: After) { after.ToKernel? }

  /** On the way to the idle stack. */
  predicate ToIdle(pc: Pc)
  {
    match pc
    case CompLoad(a) => Back(a)
    case CompRq(_, a) => Back(a)
    case CompOn(_, a) => Back(a)
    case CompSw(_, a) => Back(a)
    case CompState(_, a) => Back(a)
    case CompPend(_, _, a) => Back(a)
    case Prep(t) => t == NO_TASK
    case PrepSw(t) => t == NO_TASK
    case SetCur(t) => t == NO_TASK
    case _ => false
  }

  /** A CPU on its way to the idle stack leaves no live task; only a stolen entry
      is returned to its queue without the checks of remet_si_perdue. */
  predicate StraightAt(s: State, c: int)
    requires IsCpu(s, c) && CpuTyped(s, s.cpus[c])
  {
    && (ToIdle(s.cpus[c].pc) ==> s.cpus[c].cur == NO_TASK || s.tasks[s.cpus[c].cur].st.Zombie?)
    && (s.cpus[c].pc.PutBack? ==> s.cpus[c].pc.src != c)
  }

  ghost predicate Straight(s: State)
  {
    Typed(s) && forall c :: 0 <= c < |s.cpus| ==> StraightAt(s, c)
  }

  /** What the acting CPU's next position may be. */
  predicate Turns(s: State, x: Cpu, y: Cpu, c: int)
    requires CpuTyped(s, x)
  {
    && (ToIdle(y.pc) ==> (ToIdle(x.pc) && y.cur == x.cur) || y.cur == NO_TASK || (y.cur == x.cur && s.tasks[x.cur].st.Zombie?))
    && (y.pc.PutBack? ==> (x.pc.PutBack? && x.pc.src == y.pc.src) || y.pc.src != c)
  }

  lemma PickTurns(s: State, c: int)
    requires Typed(s) && IsCpu(s, c) && CpuTyped(s, s.cpus[c]) && Picking(s.cpus[c].pc)
    ensures |PickStep(s, c).cpus| == |s.cpus| && Turns(s, s.cpus[c], PickStep(s, c).cpus[c], c)
  {
  }

  lemma SwitchTurns(s: State, c: int)
    requires Typed(s) && IsCpu(s, c) && CpuTyped(s, s.cpus[c]) && Switching(s.cpus[c].pc)
    ensures |SwitchStep(s, c).cpus| == |s.cpus| && Turns(s, s.cpus[c], SwitchStep(s, c).cpus[c], c)
  {
  }

  lemma CpuTurns(s: State, c: int)
    requires Typed(s) && IsCpu(s, c) && !s.cpus[c].pc.CompPend? && !s.cpus[c].pc.Exec? && !s.cpus[c].pc.PickDeq?
    ensures |CpuStep(s, c).cpus| == |s.cpus| && CpuTyped(s, s.cpus[c]) && Turns(s, s.cpus[c], CpuStep(s, c).cpus[c], c)
  {
    assert CpuTyped(s, s.cpus[c]);
    if Picking(s.cpus[c].pc) { PickTurns(s, c); } else if Switching(s.cpus[c].pc) { SwitchTurns(s, c); }
  }

  lemma MoverTurns(s: State, l: Label)
    requires Enabled(s, l) && Moves(l)
    ensures |Apply(s, l).cpus| == |s.cpus| && CpuTyped(s, s.cpus[l.c]) && Turns(s, s.cpus[l.c], Apply(s, l).cpus[l.c], l.c)
  {
    assert CpuTyped(s, s.cpus[l.c]);
    if l.CpuNext? { CpuTurns(s, l.c); }
  }

  /** The current task of a CPU, dead, stays dead. */
  lemma CurrentStaysDead(s: State, l: Label, c: int, t: int)
    requires Inv(s) && Enabled(s, l) && IsCpu(s, c) && s.cpus[c].cur == t && Slot(s, t) && s.tasks[t].st.Zombie?
    ensures |Apply(s, l).tasks| == |s.tasks| && Apply(s, l).tasks[t].st.Zombie?
  {
    assert CpuTyped(s, s.cpus[c]) && CpuOk(s, c);
    StateChanges(s, l, t);
  }

  lemma StraightStepAt(s: State, l: Label, c: int)
    requires Inv(s) && Straight(s) && Enabled(s, l) && IsCpu(s, c) && Typed(Apply(s, l)) && |Apply(s, l).cpus| == |s.cpus|
    ensures StraightAt(Apply(s, l), c)
  {
    var s' := Apply(s, l);
    assert StraightAt(s, c) && CpuTyped(s, s.cpus[c]) && CpuTyped(s', s'.cpus[c]);
    if !Moves(l) { OthersStand(s, l); } else if l.c != c { MovesMild(s, l); } else { MoverTurns(s, l); }
    var t := s.cpus[c].cur;
    if t != NO_TASK && s.tasks[t].st.Zombie? { CurrentStaysDead(s, l, c, t); }
  }

  lemma StraightStep(s: State, l: Label)
    requires Inv(s) && Straight(s) && Enabled(s, l)
    ensures Straight(Apply(s, l))
  {
    StepInv(s, l);
    StepSizes(s, l);
    forall c | 0 <= c < |s.cpus| ensures StraightAt(Apply(s, l), c) { StraightStepAt(s, l, c); }
  }

  lemma InitStraight(s: State)
    requires Init(s)
    ensures Straight(s)
  {
    forall c | 0 <= c < |s.cpus| ensures StraightAt(s, c) {
      assert s.cpus[c] == Cpu(NO_TASK, NO_TASK, NO_TASK, Exec);
    }
  }

  /** In every state of every run a CPU goes back to its idle stack only from a
      dead task, and returns unchecked only what it stole. */
  lemma {:induction false} RunStraight(states: seq<State>, labels: seq<Label>, i: nat)
    requires Run(states, labels) && i <= |labels|
    ensures Straight(states[i])
  {
    if i == 0 {
      InitStraight(states[0]);
    } else {
      RunStraight(states, labels, i - 1);
      RunInv(states, labels, i - 1);
      RunAt(states, labels, i - 1);
      StraightStep(states[i - 1], labels[i - 1]);
    }
  }

  // ---- A retired task runs no more ----

  predicate Going(s: State, c: int, t: int) { IsCpu(s, c) && s.cpus[c].cur == t && ToIdle(s.cpus[c].pc) }

  lemma GoingStep(s: State, l: Label, c: int, t: int)
    requires Inv(s) && Enabled(s, l) && t != NO_TASK && Going(s, c, t)
    ensures |Apply(s, l).cpus| == |s.cpus| && (Apply(s, l).cpus[c].cur == t ==> Going(Apply(s, l), c, t))
  {
    assert CpuTyped(s, s.cpus[c]) && CpuOk(s, c);
    StepSizes(s, l);
    if !Moves(l) { OthersStand(s, l); } else if l.c != c { MovesMild(s, l); }
  }

  lemma GoingAt(states: seq<State>, labels: seq<Label>, c: int, t: int, m: nat)
    requires Run(states, labels) && m < |labels| && t != NO_TASK && Going(states[m], c, t)
    ensures IsCpu(states[m + 1], c) && (states[m + 1].cpus[c].cur == t ==> Going(states[m + 1], c, t))
  {
    RunInv(states, labels, m);
    RunAt(states, labels, m);
    GoingStep(states[m], labels[m], c, t);
  }

  lemma RetireGoes(states: seq<State>, labels: seq<Label>, c: int, t: int, i: nat)
    requires Run(states, labels) && i < |labels| && labels[i] == Retire(c) && IsCpu(states[i], c) && states[i].cpus[c].cur == t
    ensures t != NO_TASK && Going(states[i + 1], c, t)
  {
    RunAt(states, labels, i);
  }

  /** Once retired, a task executes nothing: its CPU is on the way to its idle
      stack for as long as the task is current. */
  lemma {:induction false} RetiredRunsNoMore(states: seq<State>, labels: seq<Label>, c: int, t: int, i: nat, n: nat)
    requires Run(states, labels) && i < n <= |labels| && labels[i] == Retire(c) && IsCpu(states[i], c) && states[i].cpus[c].cur == t
    requires forall m :: i < m <= n ==> IsCpu(states[m], c) && states[m].cpus[c].cur == t
    ensures Going(states[n], c, t) && !states[n].cpus[c].pc.Exec?
    decreases n
  {
    RetireGoes(states, labels, c, t, i);
    if n > i + 1 {
      RetiredRunsNoMore(states, labels, c, t, i, n - 1);
      GoingAt(states, labels, c, t, n - 1);
    }
  }

  // ---- A call of schedule elects ----

  /** Completing a hand-off on the way to an election. */
  predicate ToElection(pc: Pc)
  {
    match pc
    case CompLoad(a) => a.ToPick?
    case CompRq(_, a) => a.ToPick?
    case CompOn(_, a) => a.ToPick?
    case CompSw(_, a) => a.ToPick?
    case CompState(_, a) => a.ToPick?
    case CompPend(_, _, a) => a.ToPick?
    case _ => false
  }

  predicate HeadsToElection(s: State, s': State, c: int)
  {
    IsCpu(s, c) && ToElection(s.cpus[c].pc) ==> IsCpu(s', c) && (ToElection(s'.cpus[c].pc) || s'.cpus[c].pc.PickDeq?)
  }

  lemma HeadsAt(states: seq<State>, labels: seq<Label>, c: int, m: nat)
    requires Run(states, labels) && m < |labels|
    ensures HeadsToElection(states[m], states[m + 1], c)
  {
    RunAt(states, labels, m);
    StepSizes(states[m], labels[m]);
    if IsCpu(states[m], c) && ToElection(states[m].cpus[c].pc) { HeadsStep(states[m], labels[m], c); }
  }

  lemma HeadsStep(s: State, l: Label, c: int)
    requires Enabled(s, l) && IsCpu(s, c) && ToElection(s.cpus[c].pc) && |Apply(s, l).cpus| == |s.cpus|
    ensures ToElection(Apply(s, l).cpus[c].pc) || Apply(s, l).cpus[c].pc.PickDeq?
  {
    assert CpuTyped(s, s.cpus[c]);
    if !Moves(l) { OthersStand(s, l); } else if l.c != c { MovesMild(s, l); }
  }

  lemma {:induction false} HeadsThrough(states: seq<State>, c: int, i: nat, n: nat)
    requires i <= n < |states| && IsCpu(states[i], c) && ToElection(states[i].cpus[c].pc)
    requires forall m :: i <= m < n ==> HeadsToElection(states[m], states[m + 1], c)
    requires forall m :: i <= m <= n && IsCpu(states[m], c) ==> !states[m].cpus[c].pc.PickDeq?
    ensures IsCpu(states[n], c) && ToElection(states[n].cpus[c].pc)
  {
    if n > i { HeadsThrough(states, c, i, n - 1); assert HeadsToElection(states[n - 1], states[n - 1 + 1], c); }
  }

  /** Between a call of schedule and the next instruction of a task or of the idle
      loop on that CPU, an election has been opened. */
  lemma ScheduleElects(states: seq<State>, labels: seq<Label>, c: int, i: nat, n: nat)
    requires Run(states, labels) && i < n <= |labels| && labels[i] == Schedule(c) && IsCpu(states[n], c) && states[n].cpus[c].pc.Exec?
    ensures exists m :: i < m < n && IsCpu(states[m], c) && states[m].cpus[c].pc.PickDeq?
  {
    RunAt(states, labels, i);
    if forall m :: i < m < n && IsCpu(states[m], c) ==> !states[m].cpus[c].pc.PickDeq? {
      forall m | i + 1 <= m < n ensures HeadsToElection(states[m], states[m + 1], c) { HeadsAt(states, labels, c, m); }
      HeadsThrough(states, c, i + 1, n);
      assert false;
    }
  }

  // ---- What a hand-off publishes ----

  /** Where a CPU comes from when it is about to acknowledge a hand-off. */
  lemma PendingFrom(s: State, l: Label, c: int)
    requires Enabled(s, l) && IsCpu(s, c) && |Apply(s, l).cpus| == |s.cpus| && Apply(s, l).cpus[c].pc.CompPend?
    ensures var y := Apply(s, l).cpus[c].pc;
      || s.cpus[c].pc == y
      || (l == CpuNext(c) && s.cpus[c].pc.CompState? && s.cpus[c].pc.o == y.o && Slot(s, y.o) && (y.publish <==> s.tasks[y.o].st.Ready?))
  {
    assert CpuTyped(s, s.cpus[c]);
    if !Moves(l) { OthersStand(s, l); } else if l.c != c { MovesMild(s, l); } else if l.CpuNext? { CpuPending(s, c); }
  }

  lemma CpuPending(s: State, c: int)
    requires Typed(s) && IsCpu(s, c) && CpuTyped(s, s.cpus[c]) && |CpuStep(s, c).cpus| == |s.cpus| && CpuStep(s, c).cpus[c].pc.CompPend?
    ensures s.cpus[c].pc.CompPend? ==> s.cpus[c].pc == CpuStep(s, c).cpus[c].pc
    ensures !s.cpus[c].pc.CompPend? ==> var y := CpuStep(s, c).cpus[c].pc;
      s.cpus[c].pc.CompState? && s.cpus[c].pc.o == y.o && Slot(s, y.o) && (y.publish <==> s.tasks[y.o].st.Ready?)
  {
    var pc := s.cpus[c].pc;
    if Completing(pc) { CompletePending(s, c); }
    else if Picking(pc) { PickNotPending(s, c); }
    else if Switching(pc) { SwitchNotPending(s, c); }
    else if pc.Remet? { RemetNotPending(s, c); }
  }

  lemma CompletePending(s: State, c: int)
    requires Typed(s) && IsCpu(s, c) && CpuTyped(s, s.cpus[c]) && Completing(s.cpus[c].pc)
    requires |CompleteStep(s, c).cpus| == |s.cpus| && CompleteStep(s, c).cpus[c].pc.CompPend?
    ensures var y := CompleteStep(s, c).cpus[c].pc;
      s.cpus[c].pc.CompState? && s.cpus[c].pc.o == y.o && (y.publish <==> s.tasks[y.o].st.Ready?)
  {
  }

  lemma PickNotPending(s: State, c: int)
    requires Typed(s) && IsCpu(s, c) && CpuTyped(s, s.cpus[c]) && Picking(s.cpus[c].pc)
    ensures |PickStep(s, c).cpus| == |s.cpus| && !PickStep(s, c).cpus[c].pc.CompPend?
  {
  }

  lemma SwitchNotPending(s: State, c: int)
    requires Typed(s) && IsCpu(s, c) && CpuTyped(s, s.cpus[c]) && Switching(s.cpus[c].pc)
    ensures |SwitchStep(s, c).cpus| == |s.cpus| && !SwitchStep(s, c).cpus[c].pc.CompPend?
  {
  }

  lemma RemetNotPending(s: State, c: int)
    requires Typed(s) && IsCpu(s, c) && CpuTyped(s, s.cpus[c]) && s.cpus[c].pc.Remet?
    ensures |RemetStep(s, c).cpus| == |s.cpus| && !RemetStep(s, c).cpus[c].pc.CompPend?
  {
  }

  /** A CPU about to acknowledge was so already, or has just read the state. */
  predicate Reads(s: State, l: Label, s': State, c: int)
  {
    IsCpu(s', c) && s'.cpus[c].pc.CompPend? ==>
      && IsCpu(s, c)
      && var x, y := s.cpus[c].pc, s'.cpus[c].pc;
        x == y || (l == CpuNext(c) && x.CompState? && x.o == y.o && Slot(s, y.o) && (y.publish <==> s.tasks[y.o].st.Ready?))
  }

  lemma ReadsAt(states: seq<State>, labels: seq<Label>, c: int, m: nat)
    requires Run(states, labels) && m < |labels|
    ensures Reads(states[m], labels[m], states[m + 1], c)
  {
    RunAt(states, labels, m);
    StepSizes(states[m], labels[m]);
    if IsCpu(states[m], c) && states[m + 1].cpus[c].pc.CompPend? { PendingFrom(states[m], labels[m], c); }
  }

  lemma {:induction false} ReadBefore(states: seq<State>, labels: seq<Label>, c: int, n: nat) returns (r: nat)
    requires n <= |labels| < |states| && IsCpu(states[n], c) && states[n].cpus[c].pc.CompPend?
    requires IsCpu(states[0], c) ==> !states[0].cpus[c].pc.CompPend?
    requires forall m :: 0 <= m < n ==> Reads(states[m], labels[m], states[m + 1], c)
    ensures var o := states[n].cpus[c].pc.o;
      && r < n && labels[r] == CpuNext(c) && IsCpu(states[r], c) && states[r].cpus[c].pc.CompState? && states[r].cpus[c].pc.o == o
      && Slot(states[r], o) && (states[n].cpus[c].pc.publish <==> states[r].tasks[o].st.Ready?)
  {
    assert Reads(states[n - 1], labels[n - 1], states[n - 1 + 1], c);
    if states[n - 1].cpus[c].pc == states[n].cpus[c].pc { r := ReadBefore(states, labels, c, n - 1); } else { r := n - 1; }
  }

  /** A hand-off publishes its task if and only if it read it ready, after clearing
      its owner and its flag. */
  lemma HandoffReadsState(states: seq<State>, labels: seq<Label>, c: int, n: nat) returns (r: nat)
    requires Run(states, labels) && n <= |labels| && IsCpu(states[n], c) && states[n].cpus[c].pc.CompPend?
    ensures var o := states[n].cpus[c].pc.o;
      && r < n && labels[r] == CpuNext(c) && IsCpu(states[r], c) && states[r].cpus[c].pc.CompState? && states[r].cpus[c].pc.o == o
      && Slot(states[r], o) && (states[n].cpus[c].pc.publish <==> states[r].tasks[o].st.Ready?)
  {
    forall m | 0 <= m < n ensures Reads(states[m], labels[m], states[m + 1], c) { ReadsAt(states, labels, c, m); }
    r := ReadBefore(states, labels, c, n);
  }

  // ---- The queue number ----

  /** Who writes the queue number of `t`, and what: a CPU that leaves it, steals it
      or enters it, its own number; a publisher, the queue it chose; a recycler,
      the queue of the new task. */
  function QueueWriter(s: State, l: Label, t: int): (d: int)
  {
    match l
    case CpuNext(c) =>
      if IsCpu(s, c) && s.cpus[c].pc in {CompRq(t, ToExec), CompRq(t, ToPick), CompRq(t, ToKernel), StealRq(t), Fin(t)} then c else -1
    case PubNext(p, target) => if p in s.pubs && s.pubs[p].t == t && s.pubs[p].k == 3 then target else -1
    case Recycle(u, rq, _) => if u == t then rq else -1
    case _ => -1
  }

  lemma QueueNumber(s: State, l: Label, t: int)
    requires Enabled(s, l) && Slot(s, t)
    ensures |Apply(s, l).tasks| == |s.tasks|
    ensures Apply(s, l).tasks[t].rq == if QueueWriter(s, l, t) == -1 then s.tasks[t].rq else QueueWriter(s, l, t)
  {
    StepSizes(s, l);
    if l.CpuNext? { CpuQueueNumber(s, l.c, t); }
  }

  lemma CpuQueueNumber(s: State, c: int, t: int)
    requires Typed(s) && IsCpu(s, c) && Slot(s, t) && |CpuStep(s, c).tasks| == |s.tasks|
    ensures CpuStep(s, c).tasks[t].rq ==
              if s.cpus[c].pc in {CompRq(t, ToExec), CompRq(t, ToPick), CompRq(t, ToKernel), StealRq(t), Fin(t)} then c else s.tasks[t].rq
  {
    assert CpuTyped(s, s.cpus[c]);
    if s.cpus[c].pc.CompRq? { var a := s.cpus[c].pc.after; assert a == ToExec || a == ToPick || a == ToKernel; }
  }

  /** Entered and not yet left by `c`, or left by `c` and claimed by nobody. */
  predicate LastOn(s: State, c: int, t: int)
  {
    && IsCpu(s, c) && Slot(s, t) && s.tasks[t].onCpu in {-1, c}
    && (|| (s.cpus[c].pc == SetCur(t))
        || (s.cpus[c].cur == t && s.tasks[t].onCpu == c)
        || (s.cpus[c].pend == t && (s.cpus[c].pc.Phys? || s.cpus[c].pc.CompLoad? || s.cpus[c].pc.CompRq?) && s.tasks[t].onCpu == c)
        || (s.cpus[c].pend == t && (s.cpus[c].pc.CompOn? || s.cpus[c].pc.CompSw? || s.cpus[c].pc.CompState? || s.cpus[c].pc.CompPend?)))
  }

  /** Nobody but a publisher or a recycler can write over it meanwhile. */
  lemma QueueStays(s: State, l: Label, c: int, t: int)
    requires Inv(s) && Enabled(s, l) && LastOn(s, c, t) && s.tasks[t].rq == c && !l.PubNext? && !l.Recycle?
    ensures |Apply(s, l).tasks| == |s.tasks| && Apply(s, l).tasks[t].rq == c
  {
    QueueNumber(s, l, t);
    assert CpuTyped(s, s.cpus[c]) && CpuOk(s, c);
    if l.CpuNext? { assert CpuTyped(s, s.cpus[l.c]) && CpuOk(s, l.c); }
  }

  lemma QueueStaysAt(states: seq<State>, labels: seq<Label>, c: int, t: int, m: nat)
    requires Run(states, labels) && m < |labels| && LastOn(states[m], c, t) && states[m].tasks[t].rq == c
    requires QueueWriter(states[m], labels[m], t) == -1 || (!labels[m].PubNext? && !labels[m].Recycle?)
    ensures Slot(states[m + 1], t) && states[m + 1].tasks[t].rq == c
  {
    RunInv(states, labels, m);
    RunAt(states, labels, m);
    if labels[m].PubNext? || labels[m].Recycle? { QueueNumber(states[m], labels[m], t); } else { QueueStays(states[m], labels[m], c, t); }
  }

  lemma EntersQueue(states: seq<State>, labels: seq<Label>, c: int, t: int, i: nat)
    requires Run(states, labels) && i < |labels| && labels[i] == CpuNext(c) && IsCpu(states[i], c) && states[i].cpus[c].pc == Fin(t)
    ensures Slot(states[i + 1], t) && states[i + 1].tasks[t].rq == c
  {
    RunAt(states, labels, i);
    assert CpuTyped(states[i], states[i].cpus[c]);
    QueueNumber(states[i], labels[i], t);
  }

  /** From its entry by `c` until another CPU claims it, a task bears the queue
      number of `c`, unless a publisher, or the recycler, has written another. */
  lemma {:induction false} RunsOnItsOwnQueue(states: seq<State>, labels: seq<Label>, c: int, t: int, i: nat, n: nat)
    requires Run(states, labels) && i < n <= |labels|
    requires labels[i] == CpuNext(c) && IsCpu(states[i], c) && states[i].cpus[c].pc == Fin(t)
    requires forall m :: i < m < n ==> LastOn(states[m], c, t)
    requires forall m :: i < m < n && (labels[m].PubNext? || labels[m].Recycle?) ==> QueueWriter(states[m], labels[m], t) == -1
    ensures Slot(states[n], t) && states[n].tasks[t].rq == c
    decreases n
  {
    if n == i + 1 {
      EntersQueue(states, labels, c, t, i);
    } else {
      RunsOnItsOwnQueue(states, labels, c, t, i, n - 1);
      QueueStaysAt(states, labels, c, t, n - 1);
    }
  }
}
