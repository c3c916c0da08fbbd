/** No ready task is lost: from the moment a task is ready, unowned and off its
    stack, somebody is responsible for it -- a run queue under its current
    identity, a publisher, or the CPU that consumed its entry. */
module PassationPerte {
  import opened Passation
  import opened PassationInv
  import opened PassationSure

  /** The identity table names the slot's present incarnation. */
  predicate Fresh(s: State, t: int)
    requires |s.ident| == |s.tasks| && Slot(s, t)
  {
    s.ident[t] == s.tasks[t].gen
  }

  ghost predicate Queued(s: State, t: int)
    requires |s.ident| == |s.tasks| && Slot(s, t)
  {
    Fresh(s, t) && exists c :: 0 <= c < |s.q| && t in s.q[c]
  }

  /** A publisher that will store the identity of `t`'s present incarnation, or
      has only the bit left to set over it. */
  ghost predicate Publishing(s: State, t: int)
    requires |s.ident| == |s.tasks| && Slot(s, t)
  {
    exists p :: p in s.pubs && Serves(s, s.pubs[p], t)
  }

  predicate Serves(s: State, x: Pub, t: int)
    requires |s.ident| == |s.tasks| && Slot(s, t)
  {
    x.t == t && (x.k == 6 ==> Fresh(s, t))
  }

  /** This CPU consumed an entry of `t` for its present incarnation, or is the
      continuation that must publish it. */
  predicate Bears(s: State, pc: Pc, t: int)
    requires |s.ident| == |s.tasks| && Slot(s, t)
  {
    match pc
    case Take(_, u) => u == t && Fresh(s, t)
    case Look(_, u, g) => u == t && g == s.tasks[t].gen
    case Judge(_, u, _, _) => u == t
    case Claim(_, u, _) => u == t
    case Remet(_, u, _, _, _) => u == t
    case PutBack(_, u, _, _) => u == t
    case CompState(u, _) => u == t
    case CompPend(u, publish, _) => u == t && publish
    case _ => false
  }

  ghost predicate InHand(s: State, t: int)
    requires |s.ident| == |s.tasks| && Slot(s, t)
  {
    exists c :: 0 <= c < |s.cpus| && Bears(s, s.cpus[c].pc, t)
  }

  ghost predicate Accounted(s: State, t: int)
    requires |s.ident| == |s.tasks| && Slot(s, t)
  {
    Queued(s, t) || Publishing(s, t) || InHand(s, t)
  }

  /** What a CPU inspecting an entry knows of the incarnation it guards. */
  predicate Current(s: State, pc: Pc)
    requires |s.ident| == |s.tasks| && PcTyped(s, pc)
  {
    match pc
    case Look(_, t, g) => g <= s.tasks[t].gen
    case Judge(_, t, g, _) => g == s.tasks[t].gen
    case Claim(_, t, g) => g == s.tasks[t].gen
    case Check(_, t, g, _) => g == s.tasks[t].gen
    case Release(_, t, g) => g == s.tasks[t].gen
    case Remet(_, t, g, k, _) => g == s.tasks[t].gen && (k == 6 ==> Fresh(s, t))
    case PutBack(_, t, g, k) => g == s.tasks[t].gen && (k == 1 ==> Fresh(s, t))
    case _ => true
  }

  predicate PubCurrent(s: State, x: Pub)
    requires |s.ident| == |s.tasks| && Slot(s, x.t)
  {
    x.k == 5 ==> x.g == s.tasks[x.t].gen
  }

  ghost predicate Kept(s: State)
  {
    && Inv(s)
    && (forall t :: 0 <= t < |s.ident| && t < |s.tasks| ==> s.ident[t] <= s.tasks[t].gen)
    && (forall c :: 0 <= c < |s.cpus| ==> Current(s, s.cpus[c].pc))
    && (forall p :: p in s.pubs ==> PubCurrent(s, s.pubs[p]))
    && (forall t :: 0 <= t < |s.tasks| && Selectable(s.tasks[t]) ==> Accounted(s, t))
  }

  /** A recycling is quiet when no publisher stands between its read and its
      store of the identity of the incarnation it ends. */
  ghost predicate Quiet(s: State, l: Label)
  {
    l.Recycle? ==> forall p :: p in s.pubs && s.pubs[p].t == l.t ==> s.pubs[p].k != 5
  }

  lemma InitKept(s: State)
    requires Init(s)
    ensures Kept(s)
  {
    InitInv(s);
    forall c | 0 <= c < |s.cpus| ensures Current(s, s.cpus[c].pc) {
      assert s.cpus[c] == Cpu(NO_TASK, NO_TASK, NO_TASK, Exec);
    }
  }

  /** One task's view of a step: identities only become fresh, and whoever was
      responsible for it still is. */
  lemma Carry(s: State, s': State, c: int, t: int)
    requires Kept(s) && Typed(s') && Slot(s, t) && IsCpu(s, c)
    requires |s'.tasks| == |s.tasks| && |s'.cpus| == |s.cpus|
    requires forall d :: 0 <= d < |s.cpus| && d != c ==> s'.cpus[d] == s.cpus[d]
    requires Accounted(s, t)
    requires s'.tasks[t].gen == s.tasks[t].gen && (Fresh(s, t) ==> Fresh(s', t))
    requires forall d :: 0 <= d < |s.q| && Fresh(s, t) && t in s.q[d] ==> t in s'.q[d]
    requires forall p :: p in s.pubs && Serves(s, s.pubs[p], t) ==> p in s'.pubs && Serves(s', s'.pubs[p], t)
    requires Bears(s, s.cpus[c].pc, t) ==> Accounted(s', t)
    ensures Accounted(s', t)
  {
    if Queued(s, t) {
      var d :| 0 <= d < |s.q| && t in s.q[d];
      assert t in s'.q[d];
    } else if Publishing(s, t) {
      var p :| p in s.pubs && Serves(s, s.pubs[p], t);
      assert p in s'.pubs && Serves(s', s'.pubs[p], t);
    } else {
      var d :| 0 <= d < |s.cpus| && Bears(s, s.cpus[d].pc, t);
      if d != c { assert Bears(s', s'.cpus[d].pc, t); }
    }
  }

  /** What an access of CPU `c` does to identities and queues: it renames a slot
      only to its present incarnation and only adds to queues. */
  ghost predicate Gentle(s: State, s': State, c: int)
  {
    && |s'.tasks| == |s.tasks| && |s'.cpus| == |s.cpus| && |s'.ident| == |s.ident| && |s'.q| == |s.q|
    && (forall d :: 0 <= d < |s.cpus| && d != c ==> s'.cpus[d] == s.cpus[d])
    && (forall t :: 0 <= t < |s.tasks| ==> s'.tasks[t].gen == s.tasks[t].gen)
    && (forall t :: 0 <= t < |s.tasks| && t < |s.ident| ==> s'.ident[t] == s.ident[t] || s'.ident[t] == s.tasks[t].gen)
    && (forall d, t :: 0 <= d < |s.q| && t in s.q[d] ==> t in s'.q[d])
  }

  lemma KeepCpu(s: State, s': State, c: int)
    requires Kept(s) && Inv(s') && IsCpu(s, c) && Gentle(s, s', c) && s'.pubs == s.pubs
    requires Current(s', s'.cpus[c].pc)
    requires forall t :: 0 <= t < |s.tasks| && Selectable(s'.tasks[t]) && (Selectable(s.tasks[t]) ==> Bears(s, s.cpus[c].pc, t))
               ==> Accounted(s', t)
    ensures Kept(s')
  {
    forall d | 0 <= d < |s'.cpus| ensures Current(s', s'.cpus[d].pc) {
      if d != c { assert CpuTyped(s, s.cpus[d]) && Current(s, s.cpus[d].pc); }
    }
    forall p | p in s'.pubs ensures PubCurrent(s', s'.pubs[p]) {
      assert PubCurrent(s, s.pubs[p]);
    }
    forall t | 0 <= t < |s'.tasks| && Selectable(s'.tasks[t]) ensures Accounted(s', t) {
      if Selectable(s.tasks[t]) { Carry(s, s', c, t); }
    }
  }

  lemma Hold(s: State, c: int, t: int)
    requires |s.ident| == |s.tasks| && Slot(s, t) && IsCpu(s, c) && Bears(s, s.cpus[c].pc, t)
    ensures Accounted(s, t)
  {
  }

  lemma CompleteKept(s: State, c: int)
    requires Kept(s) && IsCpu(s, c) && Completing(s.cpus[c].pc)
    ensures Kept(CompleteStep(s, c))
  {
    CompleteInv(s, c);
    var s' := CompleteStep(s, c);
    assert CpuTyped(s, s.cpus[c]) && CpuOk(s, c);
    forall t | 0 <= t < |s.tasks| && Selectable(s'.tasks[t]) && (Selectable(s.tasks[t]) ==> Bears(s, s.cpus[c].pc, t))
      ensures Accounted(s', t)
    {
      Hold(s', c, t);
    }
    KeepCpu(s, s', c);
  }

  lemma TakeKept(s: State, c: int)
    requires Kept(s) && IsCpu(s, c) && (s.cpus[c].pc.Take? || s.cpus[c].pc.Look? || s.cpus[c].pc.Judge?)
    ensures Kept(PickStep(s, c))
  {
    TakeInv(s, c);
    var s' := PickStep(s, c);
    assert CpuTyped(s, s.cpus[c]) && Current(s, s.cpus[c].pc);
    forall t | 0 <= t < |s.tasks| && Selectable(s.tasks[t]) && Bears(s, s.cpus[c].pc, t) ensures Accounted(s', t) {
      Hold(s', c, t);
    }
    KeepCpu(s, s', c);
  }

  lemma PutBackKept(s: State, c: int)
    requires Kept(s) && IsCpu(s, c) && s.cpus[c].pc.PutBack?
    ensures Kept(PickStep(s, c))
  {
    TakeInv(s, c);
    var s' := PickStep(s, c);
    var PutBack(src, t, g, k) := s.cpus[c].pc;
    assert CpuTyped(s, s.cpus[c]) && Current(s, s.cpus[c].pc);
    if k == 0 { Hold(s', c, t); } else { assert t in s'.q[src]; }
    KeepCpu(s, s', c);
  }

  lemma ClaimKept(s: State, c: int)
    requires Kept(s) && IsCpu(s, c) && s.cpus[c].pc.Claim?
    ensures Kept(PickStep(s, c))
  {
    ClaimInv(s, c);
    var s' := PickStep(s, c);
    var t := s.cpus[c].pc.t;
    assert CpuTyped(s, s.cpus[c]) && Current(s, s.cpus[c].pc);
    assert Owned(s, t);
    if s.tasks[t].onCpu != -1 { Hold(s', c, t); }
    KeepCpu(s, s', c);
  }

  lemma CheckKept(s: State, c: int)
    requires Kept(s) && IsCpu(s, c) && s.cpus[c].pc.Check?
    ensures Kept(PickStep(s, c))
  {
    CheckInv(s, c);
    assert CpuTyped(s, s.cpus[c]) && Current(s, s.cpus[c].pc);
    KeepCpu(s, PickStep(s, c), c);
  }

  lemma ReleaseKept(s: State, c: int)
    requires Kept(s) && IsCpu(s, c) && (s.cpus[c].pc.Release? || s.cpus[c].pc.StealRq?)
    ensures Kept(PickStep(s, c))
  {
    ReleaseInv(s, c);
    var s' := PickStep(s, c);
    var t := s.cpus[c].pc.t;
    assert CpuTyped(s, s.cpus[c]) && Current(s, s.cpus[c].pc) && CpuOk(s, c);
    if s.cpus[c].pc.Release? { Hold(s', c, t); }
    KeepCpu(s, s', c);
  }

  lemma RemetKept(s: State, c: int)
    requires Kept(s) && IsCpu(s, c) && s.cpus[c].pc.Remet?
    ensures Kept(RemetStep(s, c))
  {
    RemetInv(s, c);
    var s' := RemetStep(s, c);
    var Remet(src, t, g, k, rq) := s.cpus[c].pc;
    assert CpuTyped(s, s.cpus[c]) && Current(s, s.cpus[c].pc);
    if s'.cpus[c].pc.Remet? { Hold(s', c, t); }
    else if k >= 4 { assert t in s'.q[rq]; }
    KeepCpu(s, s', c);
  }

  lemma SwitchKept(s: State, c: int)
    requires Kept(s) && IsCpu(s, c) && Switching(s.cpus[c].pc)
    ensures Kept(SwitchStep(s, c))
  {
    CpuInv(s, c);
    var s' := SwitchStep(s, c);
    assert CpuTyped(s, s.cpus[c]) && CpuOk(s, c);
    SwitchGentle(s, c, s');
    KeepCpu(s, s', c);
  }

  /** A switch touches no identity and no queue, and frees no task. */
  lemma SwitchGentle(s: State, c: int, s': State)
    requires Typed(s) && IsCpu(s, c) && Switching(s.cpus[c].pc) && CpuTyped(s, s.cpus[c]) && s' == SwitchStep(s, c)
    requires s.cpus[c].pc.Fin? ==> s.tasks[s.cpus[c].pc.t].onCpu == c
    ensures Gentle(s, s', c) && s'.pubs == s.pubs && s'.ident == s.ident && !Picking(s'.cpus[c].pc) && !s'.cpus[c].pc.Remet?
    ensures forall t :: 0 <= t < |s.tasks| && Selectable(s'.tasks[t]) ==> Selectable(s.tasks[t])
  {
  }

  lemma CpuKept(s: State, c: int)
    requires Kept(s) && Enabled(s, CpuNext(c))
    ensures Kept(CpuStep(s, c))
  {
    var pc := s.cpus[c].pc;
    if Completing(pc) { CompleteKept(s, c); }
    else if pc.Take? || pc.Look? || pc.Judge? { TakeKept(s, c); }
    else if pc.PutBack? { PutBackKept(s, c); }
    else if pc.Claim? { ClaimKept(s, c); }
    else if pc.Check? { CheckKept(s, c); }
    else if Picking(pc) { ReleaseKept(s, c); }
    else if pc.Remet? { RemetKept(s, c); }
    else { SwitchKept(s, c); }
  }

  lemma HopKept(s: State, l: Label)
    requires Kept(s) && Enabled(s, l) && (l.Schedule? || l.Retire? || l.PickNone? || l.Reject?)
    ensures Kept(Apply(s, l))
  {
    HopInv(s, l, l.c);
    var s' := Apply(s, l);
    assert CpuTyped(s, s.cpus[l.c]) && Current(s, s.cpus[l.c].pc);
    if l.Reject? { Hold(s', l.c, s.cpus[l.c].pc.t); }
    KeepCpu(s, s', l.c);
  }

  /** Consuming an entry makes the consumer responsible for it. */
  lemma ConsumeKept(s: State, l: Label)
    requires Kept(s) && Enabled(s, l) && (l.Dequeue? || l.Steal?)
    ensures Kept(Apply(s, l))
  {
    HopInv(s, l, l.c);
    var s' := Apply(s, l);
    forall d | 0 <= d < |s'.cpus| ensures Current(s', s'.cpus[d].pc) {
      assert CpuTyped(s, s.cpus[d]) && Current(s, s.cpus[d].pc);
    }
    forall p | p in s'.pubs ensures PubCurrent(s', s'.pubs[p]) {
      assert PubCurrent(s, s.pubs[p]);
    }
    forall t | 0 <= t < |s'.tasks| && Selectable(s'.tasks[t]) ensures Accounted(s', t) {
      assert Accounted(s, t);
      if t == l.t && Fresh(s, t) { Hold(s', l.c, t); } else { Carry(s, s', l.c, t); }
    }
  }

  /** The publisher no longer serves the task it served, and the task is
      selectable. */
  predicate Drops(s: State, s': State, p: nat)
    requires |s.ident| == |s.tasks| && |s'.ident| == |s'.tasks| == |s.tasks| && p in s.pubs && Slot(s, s.pubs[p].t)
  {
    var t := s.pubs[p].t;
    Selectable(s'.tasks[t]) && Serves(s, s.pubs[p], t) && !(p in s'.pubs && Serves(s', s'.pubs[p], t))
  }

  /** A step of a publisher, waker, killer or of a task on itself: no CPU moves,
      publishers of a task it stops publishing have handed it over. */
  lemma KeepPub(s: State, s': State)
    requires Kept(s) && Inv(s') && s'.cpus == s.cpus
    requires |s'.tasks| == |s.tasks| && |s'.ident| == |s.ident| && |s'.q| == |s.q|
    requires forall t :: 0 <= t < |s.tasks| ==> s'.tasks[t].gen == s.tasks[t].gen
    requires forall t :: 0 <= t < |s.tasks| && t < |s.ident| ==> s'.ident[t] == s.ident[t] || s'.ident[t] == s.tasks[t].gen
    requires forall d, t :: 0 <= d < |s.q| && t in s.q[d] ==> t in s'.q[d]
    requires forall p :: p in s'.pubs ==> (p in s.pubs && s'.pubs[p] == s.pubs[p]) || PubCurrent(s', s'.pubs[p])
    requires forall p :: p in s.pubs && Drops(s, s', p) ==> Accounted(s', s.pubs[p].t)
    requires forall t :: 0 <= t < |s.tasks| && Selectable(s'.tasks[t]) && !Selectable(s.tasks[t]) ==> Accounted(s', t)
    ensures Kept(s')
  {
    forall d | 0 <= d < |s'.cpus| ensures Current(s', s'.cpus[d].pc) {
      assert CpuTyped(s, s.cpus[d]) && Current(s, s.cpus[d].pc);
    }
    forall p | p in s'.pubs ensures PubCurrent(s', s'.pubs[p]) {
      if p in s.pubs { assert PubCurrent(s, s.pubs[p]); }
    }
    forall t | 0 <= t < |s'.tasks| && Selectable(s'.tasks[t]) ensures Accounted(s', t) {
      if Selectable(s.tasks[t]) {
        forall p | p in s.pubs && Serves(s, s.pubs[p], t)
          ensures (p in s'.pubs && Serves(s', s'.pubs[p], t)) || Accounted(s', t)
        {
          assert Drops(s, s', p) ==> Accounted(s', s.pubs[p].t);
        }
        CarryPub(s, s', t);
      }
    }
  }

  lemma CarryPub(s: State, s': State, t: int)
    requires Kept(s) && Typed(s') && s'.cpus == s.cpus && Slot(s, t) && |s'.tasks| == |s.tasks|
    requires Accounted(s, t) && s'.tasks[t].gen == s.tasks[t].gen && (Fresh(s, t) ==> Fresh(s', t))
    requires forall d :: 0 <= d < |s.q| ==> t in s.q[d] ==> t in s'.q[d]
    requires forall p :: p in s.pubs && Serves(s, s.pubs[p], t) ==> (p in s'.pubs && Serves(s', s'.pubs[p], t)) || Accounted(s', t)
    ensures Accounted(s', t)
  {
    if Queued(s, t) {
      var d :| 0 <= d < |s.q| && t in s.q[d];
      assert t in s'.q[d];
    } else if Publishing(s, t) {
      var p :| p in s.pubs && Serves(s, s.pubs[p], t);
      assert (p in s'.pubs && Serves(s', s'.pubs[p], t)) || Accounted(s', t);
    } else {
      var d :| 0 <= d < |s.cpus| && Bears(s, s.cpus[d].pc, t);
      assert Bears(s', s'.cpus[d].pc, t);
    }
  }

  lemma PubKept(s: State, p: nat, target: int)
    requires Kept(s) && p in s.pubs && IsCpu(s, target)
    ensures Kept(PubStep(s, p, target))
  {
    PubInv(s, p, target);
    assert PubCurrent(s, s.pubs[p]);
    if s.pubs[p].k <= 3 { PubChecksKept(s, p, target); } else { PubStoresKept(s, p, target); }
  }

  lemma PubChecksKept(s: State, p: nat, target: int)
    requires Kept(s) && p in s.pubs && IsCpu(s, target) && s.pubs[p].k <= 3 && Inv(PubStep(s, p, target))
    ensures Kept(PubStep(s, p, target))
  {
    KeepPub(s, PubStep(s, p, target));
  }

  lemma PubStoresKept(s: State, p: nat, target: int)
    requires Kept(s) && p in s.pubs && IsCpu(s, target) && s.pubs[p].k > 3 && PubCurrent(s, s.pubs[p])
    requires Inv(PubStep(s, p, target))
    ensures Kept(PubStep(s, p, target))
  {
    var s' := PubStep(s, p, target);
    var x := s.pubs[p];
    if x.k == 6 { assert x.t in s'.q[x.target]; }
    KeepPub(s, s');
  }

  lemma OtherKept(s: State, l: Label)
    requires Kept(s) && Enabled(s, l) && (l.Endort? || l.Annule? || l.Meurt? || l.Wake? || l.Kill?)
    ensures Kept(Apply(s, l))
  {
    OtherInv(s, l);
    var s' := Apply(s, l);
    if l.Annule? { assert CpuTyped(s, s.cpus[l.c]) && CpuOk(s, l.c); }
    if l.Wake? { assert l.p in s'.pubs && Serves(s', s'.pubs[l.p], l.t); }
    KeepPub(s, s');
  }

  lemma PublishShape(s: State, c: int, p: nat, s': State)
    requires Enabled(s, Publish(c, p)) && s' == Apply(s, Publish(c, p))
    ensures s'.tasks == s.tasks && s'.ident == s.ident && s'.q == s.q && |s'.cpus| == |s.cpus|
    ensures forall d :: 0 <= d < |s.cpus| && d != c ==> s'.cpus[d] == s.cpus[d]
    ensures forall r :: r in s.pubs ==> r in s'.pubs && s'.pubs[r] == s.pubs[r]
    ensures forall r :: r in s'.pubs && r !in s.pubs ==> r == p && s'.pubs[r].k == 0
    ensures s'.cpus[c].pc.Exec? || s'.cpus[c].pc.PickDeq? || s'.cpus[c].pc.Prep?
    ensures forall t {:trigger Bears(s, s.cpus[c].pc, t)} :: Slot(s, t) && Bears(s, s.cpus[c].pc, t)
              ==> p in s'.pubs && s'.pubs[p].t == t && s'.pubs[p].k == 0
  {
  }

  /** A continuation that read the outgoing task ready hands it to a publisher. */
  lemma PublishKept(s: State, c: int, p: nat)
    requires Kept(s) && Enabled(s, Publish(c, p))
    ensures Kept(Apply(s, Publish(c, p)))
  {
    PublishInv(s, c, p);
    var s' := Apply(s, Publish(c, p));
    assert CpuTyped(s, s.cpus[c]);
    PublishShape(s, c, p, s');
    forall d | 0 <= d < |s'.cpus| ensures Current(s', s'.cpus[d].pc) {
      assert CpuTyped(s, s.cpus[d]) && Current(s, s.cpus[d].pc);
    }
    forall p | p in s'.pubs ensures PubCurrent(s', s'.pubs[p]) {
      if p in s.pubs { assert PubCurrent(s, s.pubs[p]); }
    }
    forall t | 0 <= t < |s'.tasks| && Selectable(s'.tasks[t]) ensures Accounted(s', t) {
      if Bears(s, s.cpus[c].pc, t) { assert p in s'.pubs && Serves(s', s'.pubs[p], t); } else { Carry(s, s', c, t); }
    }
  }

  lemma RecycleKept(s: State, t: int, rq: int, p: nat)
    requires Kept(s) && Enabled(s, Recycle(t, rq, p)) && Quiet(s, Recycle(t, rq, p))
    ensures Kept(Apply(s, Recycle(t, rq, p)))
  {
    OtherInv(s, Recycle(t, rq, p));
    var s' := Apply(s, Recycle(t, rq, p));
    forall d | 0 <= d < |s'.cpus| ensures Current(s', s'.cpus[d].pc) {
      assert CpuTyped(s, s.cpus[d]) && Current(s, s.cpus[d].pc) && Guarded(s.cpus[d].pc) == NO_TASK;
      assert CpuOk(s, d);
    }
    forall r | r in s'.pubs ensures PubCurrent(s', s'.pubs[r]) {
      if r in s.pubs { assert PubCurrent(s, s.pubs[r]); }
    }
    forall u | 0 <= u < |s'.tasks| && Selectable(s'.tasks[u]) ensures Accounted(s', u) {
      if u == t { assert p in s'.pubs && Serves(s', s'.pubs[p], t); } else { CarryPub(s, s', u); }
    }
  }

  lemma StepKept(s: State, l: Label)
    requires Kept(s) && Enabled(s, l) && Quiet(s, l)
    ensures Kept(Apply(s, l))
  {
    if l.CpuNext? { CpuKept(s, l.c); }
    else if l.PubNext? { PubKept(s, l.p, l.target); }
    else if l.Publish? { PublishKept(s, l.c, l.p); }
    else if l.Recycle? { RecycleKept(s, l.t, l.rq, l.p); }
    else if l.Dequeue? || l.Steal? { ConsumeKept(s, l); }
    else if l.Schedule? || l.Retire? || l.PickNone? || l.Reject? { HopKept(s, l); }
    else { OtherKept(s, l); }
  }

  /** Every run whose recyclings are quiet keeps every ready task accounted for
      in every state it visits. */
  lemma {:induction false} NothingLost(states: seq<State>, labels: seq<Label>, i: nat)
    requires Run(states, labels) && i <= |labels|
    requires forall j :: 0 <= j < |labels| ==> Quiet(states[j], labels[j])
    ensures Kept(states[i])
  {
    if i == 0 {
      InitKept(states[0]);
    } else {
      NothingLost(states, labels, i - 1);
      assert Enabled(states[i - 1], labels[i - 1]) && states[i - 1 + 1] == Apply(states[i - 1], labels[i - 1]);
      assert Quiet(states[i - 1], labels[i - 1]);
      StepKept(states[i - 1], labels[i - 1]);
    }
  }

  /** Once every CPU is back in task or idle code and no publisher is at work,
      a ready task is running somewhere or sits in a run queue under an identity
      the election will accept. */
  lemma QuiescentReadyTask(s: State, t: int)
    requires Kept(s) && Slot(s, t) && s.tasks[t].st.Ready?
    requires s.pubs == map[] && forall c :: 0 <= c < |s.cpus| ==> s.cpus[c].pc.Exec?
    ensures (exists c :: 0 <= c < |s.cpus| && s.cpus[c].cur == t) || Queued(s, t)
  {
    assert Owned(s, t) && Leaving(s, t);
    if s.tasks[t].onCpu == -1 {
      assert Selectable(s.tasks[t]) && Accounted(s, t);
    } else {
      var c := s.tasks[t].onCpu;
      assert CpuTyped(s, s.cpus[c]) && CpuOk(s, c);
    }
  }
}
