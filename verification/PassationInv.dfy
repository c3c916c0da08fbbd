/** The inductive invariant of the hand-off: who owns a task, which hand-off is
    pending where, and which stack each CPU is on. */
module PassationInv {
  import opened Passation

  /** The task a CPU has claimed by compare-and-swap and not yet made current. */
  function Held(pc: Pc): int
  {
    match pc
    case Check(_, t, _, _) => t
    case Release(_, t, _) => t
    case StealRq(t) => t
    case Prep(t) => t
    case PrepSw(t) => t
    case Fin(t) => t
    case SetCur(t) => t
    case _ => NO_TASK
  }

  /** The claim has survived the second look at state and hand-off flag. */
  predicate Accepted(pc: Pc) { pc.StealRq? || pc.Prep? || pc.PrepSw? || pc.Fin? || pc.SetCur? }

  /** A hand-off announced in SWITCH_PENDING still has `switching_out` set. */
  predicate Handing(pc: Pc)
  {
    pc.Fin? || pc.SetCur? || pc.Phys? || pc.CompLoad? || pc.CompRq? || pc.CompOn? || pc.CompSw?
  }

  /** ... and the outgoing task still belongs to this CPU. */
  predicate HandingOwned(pc: Pc) { Handing(pc) && !pc.CompSw? }

  predicate Out(pc: Pc, o: int)
  {
    match pc
    case CompRq(p, _) => p == o
    case CompOn(p, _) => p == o
    case CompSw(p, _) => p == o
    case CompState(p, _) => p == o
    case CompPend(p, _, _) => p == o
    case _ => false
  }

  predicate CpuOk(s: State, c: int)
    requires IsCpu(s, c) && CpuTyped(s, s.cpus[c])
  {
    var x := s.cpus[c];
    && (x.cur != NO_TASK ==> s.tasks[x.cur].onCpu == c)
    && (x.cur != NO_TASK && !x.pc.Fin? && !x.pc.SetCur? ==> !s.tasks[x.cur].sw)
    && (if x.pc.Phys? then x.stack == x.pend && x.cur == x.pc.t else x.stack == x.cur)
    && (if x.pc.PrepSw? || x.pc.Fin? || x.pc.SetCur? then x.pend == x.cur
        else if x.pc.Phys? || x.pc.CompLoad? then x.pend == NO_TASK || x.pend != x.cur
        else if x.pc.CompRq? || x.pc.CompOn? || x.pc.CompSw? || x.pc.CompState? || x.pc.CompPend? then Out(x.pc, x.pend)
        else x.pend == NO_TASK)
    && (x.pc.CompRq? || x.pc.CompOn? ==> x.pend != x.cur)
    && (x.pend != NO_TASK && Handing(x.pc) ==> s.tasks[x.pend].sw && s.tasks[x.pend].via == c)
    && (x.pend != NO_TASK && HandingOwned(x.pc) ==> s.tasks[x.pend].onCpu == c)
    && (Held(x.pc) != NO_TASK ==> s.tasks[Held(x.pc)].onCpu == c && Held(x.pc) != x.cur)
    && (Held(x.pc) != NO_TASK && Accepted(x.pc) ==> !s.tasks[Held(x.pc)].sw)
  }

  /** A task with an owner is that CPU's current task, its claimed successor or
      the task it is handing off. */
  predicate Owned(s: State, t: int)
    requires Slot(s, t)
  {
    var o := s.tasks[t].onCpu;
    o != -1 ==>
      && IsCpu(s, o)
      && var x := s.cpus[o];
         t == x.cur || t == Held(x.pc) || (t == x.pend && (x.pc.Phys? || x.pc.CompLoad? || x.pc.CompRq? || x.pc.CompOn?))
  }

  /** A task marked `switching_out` is pending on exactly the CPU that marked it. */
  predicate Leaving(s: State, t: int)
    requires Slot(s, t)
  {
    s.tasks[t].sw ==>
      && IsCpu(s, s.tasks[t].via)
      && s.cpus[s.tasks[t].via].pend == t
      && Handing(s.cpus[s.tasks[t].via].pc)
  }

  ghost predicate Inv(s: State)
  {
    && Typed(s)
    && (forall c :: 0 <= c < |s.cpus| ==> CpuOk(s, c))
    && (forall t :: 0 <= t < |s.tasks| ==> Owned(s, t))
    && (forall t :: 0 <= t < |s.tasks| ==> Leaving(s, t))
  }

  lemma InitInv(s: State)
    requires Init(s)
    ensures Inv(s)
  {
    forall t | 0 <= t < |s.tasks| ensures Owned(s, t) && Leaving(s, t) {
      assert Recyclable(s.tasks[t]);
    }
  }

  /** What one access of CPU `c` may change in a slot: ownership only between
      nobody and `c`, the hand-off flag only as `c`'s own. */
  predicate Changed(c: int, x: Task, y: Task)
  {
    && (y.onCpu == x.onCpu || (x.onCpu in {-1, c} && y.onCpu in {-1, c}))
    && (|| (y.sw == x.sw && (x.sw ==> y.via == x.via))
        || (y.sw && !x.sw && x.onCpu == c && y.via == c)
        || (!y.sw && x.sw && x.via == c))
  }

  /** Steps of `c` that respect `Changed` leave every other CPU's facts alone. */
  lemma Frame(s: State, s': State, c: int)
    requires Inv(s) && Typed(s')
    requires IsCpu(s, c) && |s'.cpus| == |s.cpus| && |s'.tasks| == |s.tasks|
    requires forall d :: 0 <= d < |s.cpus| && d != c ==> s'.cpus[d] == s.cpus[d]
    requires forall t :: 0 <= t < |s.tasks| ==> Changed(c, s.tasks[t], s'.tasks[t])
    requires CpuOk(s', c)
    requires forall t :: 0 <= t < |s.tasks| && s'.tasks[t].onCpu == c ==> Owned(s', t)
    requires forall t :: 0 <= t < |s.tasks| && s'.tasks[t].sw && s'.tasks[t].via == c ==> Leaving(s', t)
    ensures Inv(s')
  {
    forall d | 0 <= d < |s'.cpus| ensures CpuOk(s', d) {
      assert CpuTyped(s', s'.cpus[d]);
      if d != c {
        assert CpuOk(s, d);
        assert CpuTyped(s, s.cpus[d]);
      }
    }
    forall t | 0 <= t < |s'.tasks| ensures Owned(s', t) && Leaving(s', t) {
      assert Changed(c, s.tasks[t], s'.tasks[t]);
      assert Owned(s, t) && Leaving(s, t);
    }
  }

  /** Program counters at which this CPU announces no hand-off. */
  predicate Settled(pc: Pc)
  {
    pc.Exec? || pc.CompLoad? || pc.PickDeq? || Picking(pc) || pc.Remet? || pc.Prep?
  }

  /** A step that only reads shared memory, or writes identities and queues:
      CPU `c` moves between settled points holding the same claim. */
  lemma Glance(s: State, s': State, c: int, pc: Pc)
    requires Inv(s) && IsCpu(s, c) && s'.cpus == s.cpus[c := s.cpus[c].(pc := pc)]
    requires s'.tasks == s.tasks && s'.pubs == s.pubs
    requires |s'.ident| == |s.ident| && |s'.q| == |s.q|
    requires s.cpus[c].pend == NO_TASK && Settled(s.cpus[c].pc)
    requires Settled(pc) && PcTyped(s, pc) && Held(pc) == Held(s.cpus[c].pc)
    requires Held(pc) != NO_TASK && Accepted(pc) ==> !s.tasks[Held(pc)].sw
    ensures Inv(s')
  {
    assert CpuTyped(s, s.cpus[c]) && CpuOk(s, c);
    forall t | 0 <= t < |s.tasks| ensures Owned(s', t) && Leaving(s', t) {
      assert Owned(s, t) && Leaving(s, t);
    }
    Frame(s, s', c);
  }

  /** A step of `c` that rewrites slot `t`, which nobody else owns or hands off. */
  lemma Touch(s: State, s': State, c: int, t: int, y: Task)
    requires Inv(s) && IsCpu(s, c) && Slot(s, t) && s'.tasks == s.tasks[t := y]
    requires |s'.cpus| == |s.cpus| && (forall d :: 0 <= d < |s.cpus| && d != c ==> s'.cpus[d] == s.cpus[d])
    requires s'.pubs == s.pubs && |s'.ident| == |s.ident| && |s'.q| == |s.q|
    requires IsCpu(s, y.rq) && Changed(c, s.tasks[t], y)
    requires CpuTyped(s, s'.cpus[c]) && CpuOk(s', c)
    requires y.onCpu == c ==> Owned(s', t)
    requires y.sw && y.via == c ==> Leaving(s', t)
    requires forall u :: 0 <= u < |s.tasks| && u != t ==> (s.tasks[u].onCpu == c ==> Owned(s', u))
    requires forall u :: 0 <= u < |s.tasks| && u != t ==> (s.tasks[u].sw && s.tasks[u].via == c ==> Leaving(s', u))
    ensures Inv(s')
  {
    forall d | 0 <= d < |s'.cpus| ensures CpuTyped(s', s'.cpus[d]) {
      if d != c { assert CpuTyped(s, s.cpus[d]); }
    }
    Frame(s, s', c);
  }

  lemma CompleteLoadInv(s: State, c: int)
    requires Inv(s) && IsCpu(s, c) && (s.cpus[c].pc.CompLoad? || s.cpus[c].pc.CompState?)
    ensures Inv(CompleteStep(s, c))
  {
    var s' := CompleteStep(s, c);
    assert CpuTyped(s, s.cpus[c]) && CpuOk(s, c);
    forall t | 0 <= t < |s.tasks| ensures Owned(s', t) && Leaving(s', t) {
      assert Owned(s, t) && Leaving(s, t);
    }
    Frame(s, s', c);
  }

  lemma CompleteWriteInv(s: State, c: int)
    requires Inv(s) && IsCpu(s, c) && (s.cpus[c].pc.CompRq? || s.cpus[c].pc.CompOn? || s.cpus[c].pc.CompSw?)
    ensures Inv(CompleteStep(s, c))
  {
    var s' := CompleteStep(s, c);
    assert CpuTyped(s, s.cpus[c]) && CpuOk(s, c);
    forall t | 0 <= t < |s.tasks|
      ensures s'.tasks[t].onCpu == c ==> Owned(s', t)
      ensures s'.tasks[t].sw && s'.tasks[t].via == c ==> Leaving(s', t)
    {
      assert Owned(s, t) && Leaving(s, t);
    }
    Touch(s, s', c, s.cpus[c].pc.o, s'.tasks[s.cpus[c].pc.o]);
  }

  lemma CompleteInv(s: State, c: int)
    requires Inv(s) && IsCpu(s, c) && Completing(s.cpus[c].pc)
    ensures Inv(CompleteStep(s, c))
  {
    if s.cpus[c].pc.CompLoad? || s.cpus[c].pc.CompState? { CompleteLoadInv(s, c); } else { CompleteWriteInv(s, c); }
  }

  lemma TakeInv(s: State, c: int)
    requires Inv(s) && IsCpu(s, c) && (s.cpus[c].pc.Take? || s.cpus[c].pc.Look? || s.cpus[c].pc.Judge? || s.cpus[c].pc.PutBack?)
    ensures Inv(PickStep(s, c))
  {
    var s' := PickStep(s, c);
    assert CpuTyped(s, s.cpus[c]) && CpuOk(s, c);
    Glance(s, s', c, s'.cpus[c].pc);
  }

  lemma RemetInv(s: State, c: int)
    requires Inv(s) && IsCpu(s, c) && s.cpus[c].pc.Remet?
    ensures Inv(RemetStep(s, c))
  {
    var s' := RemetStep(s, c);
    assert CpuTyped(s, s.cpus[c]) && CpuOk(s, c);
    Glance(s, s', c, s'.cpus[c].pc);
  }

  lemma ClaimInv(s: State, c: int)
    requires Inv(s) && IsCpu(s, c) && s.cpus[c].pc.Claim?
    ensures Inv(PickStep(s, c))
  {
    var Claim(src, t, g) := s.cpus[c].pc;
    assert CpuTyped(s, s.cpus[c]) && CpuOk(s, c);
    var s' := PickStep(s, c);
    if s.tasks[t].onCpu == -1 {
      forall u | 0 <= u < |s.tasks|
        ensures s'.tasks[u].onCpu == c ==> Owned(s', u)
        ensures s'.tasks[u].sw && s'.tasks[u].via == c ==> Leaving(s', u)
      {
        assert Owned(s, u) && Leaving(s, u);
      }
      Touch(s, s', c, t, s.tasks[t].(onCpu := c));
    } else {
      Glance(s, s', c, Remet(src, t, g, 0, 0));
    }
  }

  lemma CheckInv(s: State, c: int)
    requires Inv(s) && IsCpu(s, c) && s.cpus[c].pc.Check?
    ensures Inv(PickStep(s, c))
  {
    assert CpuTyped(s, s.cpus[c]) && CpuOk(s, c);
    var s' := PickStep(s, c);
    Glance(s, s', c, s'.cpus[c].pc);
  }

  lemma ReleaseInv(s: State, c: int)
    requires Inv(s) && IsCpu(s, c) && (s.cpus[c].pc.Release? || s.cpus[c].pc.StealRq?)
    ensures Inv(PickStep(s, c))
  {
    assert CpuTyped(s, s.cpus[c]) && CpuOk(s, c);
    var s' := PickStep(s, c);
    var t := s.cpus[c].pc.t;
    forall u | 0 <= u < |s.tasks|
      ensures s'.tasks[u].onCpu == c ==> Owned(s', u)
      ensures s'.tasks[u].sw && s'.tasks[u].via == c ==> Leaving(s', u)
    {
      assert Owned(s, u) && Leaving(s, u);
    }
    Touch(s, s', c, t, s'.tasks[t]);
  }

  lemma PrepInv(s: State, c: int)
    requires Inv(s) && IsCpu(s, c) && s.cpus[c].pc.Prep?
    ensures Inv(SwitchStep(s, c))
  {
    if s.cpus[c].cur == NO_TASK { PrepIdleInv(s, c); } else { PrepTaskInv(s, c); }
  }

  lemma PrepIdleInv(s: State, c: int)
    requires Inv(s) && IsCpu(s, c) && s.cpus[c].pc.Prep? && s.cpus[c].cur == NO_TASK
    ensures Inv(SwitchStep(s, c))
  {
    assert CpuTyped(s, s.cpus[c]) && CpuOk(s, c);
    var s' := SwitchStep(s, c);
    forall u | 0 <= u < |s.tasks| ensures Owned(s', u) && Leaving(s', u) {
      assert Owned(s, u) && Leaving(s, u);
    }
    Frame(s, s', c);
  }

  lemma PrepTaskInv(s: State, c: int)
    requires Inv(s) && IsCpu(s, c) && s.cpus[c].pc.Prep? && s.cpus[c].cur != NO_TASK
    ensures Inv(SwitchStep(s, c))
  {
    assert CpuTyped(s, s.cpus[c]) && CpuOk(s, c);
    var s' := SwitchStep(s, c);
    forall u | 0 <= u < |s.tasks| ensures Owned(s', u) && Leaving(s', u) {
      assert Owned(s, u) && Leaving(s, u);
    }
    Frame(s, s', c);
  }

  lemma LandInv(s: State, c: int)
    requires Inv(s) && IsCpu(s, c) && (s.cpus[c].pc.SetCur? || s.cpus[c].pc.Phys?)
    ensures Inv(SwitchStep(s, c))
  {
    assert CpuTyped(s, s.cpus[c]) && CpuOk(s, c);
    var s' := SwitchStep(s, c);
    forall u | 0 <= u < |s.tasks| ensures Owned(s', u) && Leaving(s', u) {
      assert Owned(s, u) && Leaving(s, u);
    }
    Frame(s, s', c);
  }

  lemma MarkInv(s: State, c: int)
    requires Inv(s) && IsCpu(s, c) && s.cpus[c].pc.PrepSw?
    ensures Inv(SwitchStep(s, c))
  {
    assert CpuTyped(s, s.cpus[c]) && CpuOk(s, c);
    var s' := SwitchStep(s, c);
    forall u | 0 <= u < |s.tasks|
      ensures s'.tasks[u].onCpu == c ==> Owned(s', u)
      ensures s'.tasks[u].sw && s'.tasks[u].via == c ==> Leaving(s', u)
    {
      assert Owned(s, u) && Leaving(s, u);
    }
    Touch(s, s', c, s.cpus[c].cur, s'.tasks[s.cpus[c].cur]);
  }

  lemma FinInv(s: State, c: int)
    requires Inv(s) && IsCpu(s, c) && s.cpus[c].pc.Fin?
    ensures Inv(SwitchStep(s, c))
  {
    assert CpuTyped(s, s.cpus[c]) && CpuOk(s, c);
    var s' := SwitchStep(s, c);
    var t := s.cpus[c].pc.t;
    forall u | 0 <= u < |s.tasks|
      ensures s'.tasks[u].onCpu == c ==> Owned(s', u)
      ensures s'.tasks[u].sw && s'.tasks[u].via == c ==> Leaving(s', u)
    {
      assert Owned(s, u) && Leaving(s, u);
    }
    Touch(s, s', c, t, s'.tasks[t]);
  }

  /** A step that moves no CPU and touches no owner and no hand-off flag. */
  lemma Still(s: State, s': State)
    requires Inv(s) && Typed(s') && s'.cpus == s.cpus && |s'.tasks| == |s.tasks|
    requires forall t :: 0 <= t < |s.tasks| ==>
      s'.tasks[t].onCpu == s.tasks[t].onCpu && s'.tasks[t].sw == s.tasks[t].sw
      && (s.tasks[t].sw ==> s'.tasks[t].via == s.tasks[t].via)
    ensures Inv(s')
  {
    forall d | 0 <= d < |s'.cpus| ensures CpuOk(s', d) {
      assert CpuTyped(s', s'.cpus[d]) && CpuOk(s, d);
    }
    forall t | 0 <= t < |s'.tasks| ensures Owned(s', t) && Leaving(s', t) {
      assert Owned(s, t) && Leaving(s, t);
    }
  }

  lemma HopInv(s: State, l: Label, c: int)
    requires Inv(s) && Enabled(s, l)
    requires l in {Schedule(c), Retire(c), PickNone(c), Reject(c)} || ((l.Dequeue? || l.Steal?) && l.c == c)
    ensures Inv(Apply(s, l))
  {
    assert CpuTyped(s, s.cpus[c]) && CpuOk(s, c);
    var s' := Apply(s, l);
    Glance(s, s', c, s'.cpus[c].pc);
  }

  lemma PublishTyped(s: State, c: int, p: nat)
    requires Enabled(s, Publish(c, p))
    ensures Typed(Apply(s, Publish(c, p)))
  {
    assert CpuTyped(s, s.cpus[c]);
  }

  lemma PublishInv(s: State, c: int, p: nat)
    requires Inv(s) && Enabled(s, Publish(c, p))
    ensures Inv(Apply(s, Publish(c, p)))
  {
    PublishTyped(s, c, p);
    assert CpuTyped(s, s.cpus[c]) && CpuOk(s, c);
    var s' := Apply(s, Publish(c, p));
    forall u | 0 <= u < |s.tasks| ensures Owned(s', u) && Leaving(s', u) {
      assert Owned(s, u) && Leaving(s, u);
    }
    Frame(s, s', c);
  }

  lemma OtherInv(s: State, l: Label)
    requires Inv(s) && Enabled(s, l)
    requires l.Endort? || l.Annule? || l.Meurt? || l.Wake? || l.Kill? || l.Recycle?
    ensures Inv(Apply(s, l))
  {
    var s' := Apply(s, l);
    if l.Recycle? { assert Owned(s, l.t); }
    Still(s, s');
  }

  lemma PubInv(s: State, p: nat, target: int)
    requires Inv(s) && p in s.pubs && IsCpu(s, target)
    ensures Inv(PubStep(s, p, target))
  {
    Still(s, PubStep(s, p, target));
  }

  lemma CpuInv(s: State, c: int)
    requires Inv(s) && Enabled(s, CpuNext(c))
    ensures Inv(CpuStep(s, c))
  {
    var pc := s.cpus[c].pc;
    if Completing(pc) { CompleteInv(s, c); }
    else if pc.Take? || pc.Look? || pc.Judge? || pc.PutBack? { TakeInv(s, c); }
    else if pc.Claim? { ClaimInv(s, c); }
    else if pc.Check? { CheckInv(s, c); }
    else if Picking(pc) { ReleaseInv(s, c); }
    else if pc.Remet? { RemetInv(s, c); }
    else if pc.PrepSw? { MarkInv(s, c); }
    else if pc.Fin? { FinInv(s, c); }
    else if pc.Prep? { PrepInv(s, c); }
    else { LandInv(s, c); }
  }

  /** Every step of every CPU, waker, killer and recycler keeps the invariant. */
  lemma StepInv(s: State, l: Label)
    requires Inv(s) && Enabled(s, l)
    ensures Inv(Apply(s, l))
  {
    if l.CpuNext? { CpuInv(s, l.c); }
    else if l.PubNext? { PubInv(s, l.p, l.target); }
    else if l.Publish? { PublishInv(s, l.c, l.p); }
    else if l.Schedule? || l.Retire? || l.PickNone? || l.Reject? || l.Dequeue? || l.Steal? { HopInv(s, l, l.c); }
    else { OtherInv(s, l); }
  }
}
