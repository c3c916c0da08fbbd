/** Only a ready task is made current, and a dead one never again. */
module PassationElection {
  import opened Passation
  import opened PassationInv

  /** The claim has been followed by a look at the state that found it ready. */
  predicate Cleared(pc: Pc) { Accepted(pc) || (pc.Check? && pc.k == 1) }

  predicate FitAt(s: State, c: int)
    requires IsCpu(s, c) && CpuTyped(s, s.cpus[c])
  {
    Cleared(s.cpus[c].pc) && Held(s.cpus[c].pc) != NO_TASK ==> s.tasks[Held(s.cpus[c].pc)].st.Ready?
  }

  /** Every task claimed and found ready still is. */
  ghost predicate Fit(s: State)
  {
    Typed(s) && forall c :: 0 <= c < |s.cpus| ==> FitAt(s, c)
  }

  /** A step of CPU `c`: no state changes, no other CPU moves, and a task
      becomes current only at the end of a switch to it. */
  ghost predicate Mild(s: State, s': State, c: int)
    requires IsCpu(s, c)
  {
    && |s'.tasks| == |s.tasks| && |s'.cpus| == |s.cpus|
    && (forall t :: 0 <= t < |s.tasks| ==> s'.tasks[t].st == s.tasks[t].st)
    && (forall d :: 0 <= d < |s.cpus| && d != c ==> s'.cpus[d] == s.cpus[d])
    && (s'.cpus[c].cur == s.cpus[c].cur || s.cpus[c].pc == SetCur(s'.cpus[c].cur))
  }

  lemma CompleteMild(s: State, c: int)
    requires Typed(s) && IsCpu(s, c)
    ensures Mild(s, CompleteStep(s, c), c)
  {
    assert CpuTyped(s, s.cpus[c]);
  }

  lemma PickMild(s: State, c: int)
    requires Typed(s) && IsCpu(s, c)
    ensures Mild(s, PickStep(s, c), c)
  {
    assert CpuTyped(s, s.cpus[c]);
  }

  lemma SwitchMild(s: State, c: int)
    requires Typed(s) && IsCpu(s, c)
    ensures Mild(s, SwitchStep(s, c), c)
  {
    assert CpuTyped(s, s.cpus[c]);
  }

  lemma CpuMild(s: State, c: int)
    requires Typed(s) && IsCpu(s, c)
    ensures Mild(s, CpuStep(s, c), c)
  {
    assert CpuTyped(s, s.cpus[c]);
    if Completing(s.cpus[c].pc) { CompleteMild(s, c); }
    else if Picking(s.cpus[c].pc) { PickMild(s, c); }
    else if !s.cpus[c].pc.Remet? { SwitchMild(s, c); }
  }

  /** The labels that move a CPU. */
  predicate Moves(l: Label)
  {
    l.CpuNext? || l.Schedule? || l.Retire? || l.Dequeue? || l.Steal? || l.PickNone? || l.Reject? || l.Publish?
  }

  lemma MovesMild(s: State, l: Label)
    requires Enabled(s, l) && Moves(l)
    ensures Mild(s, Apply(s, l), l.c)
  {
    if l.CpuNext? { CpuMild(s, l.c); }
  }

  /** The other labels: states change only by the current task of a CPU, from
      Blocked, or by recycling. */
  lemma OthersStand(s: State, l: Label)
    requires Enabled(s, l) && !Moves(l)
    ensures var s' := Apply(s, l);
      && |s'.tasks| == |s.tasks| && s'.cpus == s.cpus
      && forall t :: 0 <= t < |s.tasks| && s'.tasks[t].st != s.tasks[t].st ==> MayChange(s, l, t)
  {
    if l.PubNext? { PubStands(s, l.p, l.target); }
  }

  predicate MayChange(s: State, l: Label, t: int)
    requires Slot(s, t)
  {
    || (s.tasks[t].st.Blocked?)
    || ((l.Endort? || l.Meurt?) && IsCpu(s, l.c) && s.cpus[l.c].cur == t)
    || (l.Recycle? && l.t == t)
  }

  lemma PubStands(s: State, p: nat, target: int)
    requires Typed(s) && p in s.pubs && IsCpu(s, target)
    ensures var s' := PubStep(s, p, target);
      |s'.tasks| == |s.tasks| && s'.cpus == s.cpus && forall t :: 0 <= t < |s.tasks| ==> s'.tasks[t].st == s.tasks[t].st
  {
  }

  lemma StepSizes(s: State, l: Label)
    requires Enabled(s, l)
    ensures |Apply(s, l).tasks| == |s.tasks| && |Apply(s, l).cpus| == |s.cpus|
  {
    if Moves(l) { MovesMild(s, l); } else { OthersStand(s, l); }
  }

  lemma StateChanges(s: State, l: Label, t: int)
    requires Enabled(s, l) && Slot(s, t)
    ensures |Apply(s, l).tasks| == |s.tasks|
    ensures Apply(s, l).tasks[t].st != s.tasks[t].st ==> !Moves(l) && MayChange(s, l, t)
    ensures s.tasks[t].st.Zombie? && !(l.Recycle? && l.t == t) ==> Apply(s, l).tasks[t].st.Zombie?
  {
    if Moves(l) { MovesMild(s, l); } else { OthersStand(s, l); if s.tasks[t].st.Zombie? { DeadStands(s, l, t); } }
  }

  lemma DeadStands(s: State, l: Label, t: int)
    requires Enabled(s, l) && Slot(s, t) && !Moves(l) && s.tasks[t].st.Zombie? && |Apply(s, l).tasks| == |s.tasks|
    ensures !(l.Recycle? && l.t == t) ==> Apply(s, l).tasks[t].st.Zombie?
  {
    if l.PubNext? { PubStands(s, l.p, l.target); }
  }

  /** A CPU comes to hold a cleared task by looking at its state. */
  predicate Looked(s: State, pc: Pc, pc': Pc)
  {
    var t := Held(pc');
    Cleared(pc') && t != NO_TASK ==>
      Slot(s, t) && (s.tasks[t].st.Ready? || (Cleared(pc) && Held(pc) == t))
  }

  lemma PickLooks(s: State, c: int)
    requires Typed(s) && IsCpu(s, c) && Picking(s.cpus[c].pc)
    ensures |PickStep(s, c).cpus| == |s.cpus| && Looked(s, s.cpus[c].pc, PickStep(s, c).cpus[c].pc)
  {
    assert CpuTyped(s, s.cpus[c]);
  }

  lemma SwitchLooks(s: State, c: int)
    requires Typed(s) && IsCpu(s, c) && Switching(s.cpus[c].pc)
    ensures |SwitchStep(s, c).cpus| == |s.cpus| && Looked(s, s.cpus[c].pc, SwitchStep(s, c).cpus[c].pc)
  {
    assert CpuTyped(s, s.cpus[c]);
  }

  lemma CpuLooks(s: State, c: int)
    requires Typed(s) && IsCpu(s, c)
    ensures |CpuStep(s, c).cpus| == |s.cpus| && Looked(s, s.cpus[c].pc, CpuStep(s, c).cpus[c].pc)
  {
    var pc := s.cpus[c].pc;
    assert CpuTyped(s, s.cpus[c]);
    if Picking(pc) && !Completing(pc) { PickLooks(s, c); }
    else if Switching(pc) { SwitchLooks(s, c); }
  }

  lemma ActorLooks(s: State, l: Label, c: int)
    requires Enabled(s, l) && IsCpu(s, c)
    ensures |Apply(s, l).cpus| == |s.cpus| && Looked(s, s.cpus[c].pc, Apply(s, l).cpus[c].pc)
  {
    assert CpuTyped(s, s.cpus[c]);
    if !Moves(l) { OthersStand(s, l); }
    else if l.c != c { MovesMild(s, l); }
    else if l.CpuNext? { CpuLooks(s, c); }
    else { HopLooks(s, l); }
  }

  lemma HopLooks(s: State, l: Label)
    requires Enabled(s, l) && Moves(l) && !l.CpuNext?
    ensures |Apply(s, l).cpus| == |s.cpus| && Looked(s, s.cpus[l.c].pc, Apply(s, l).cpus[l.c].pc)
  {
    assert CpuTyped(s, s.cpus[l.c]);
  }

  /** A task held by a CPU is current on none, free for no recycler. */
  lemma HeldIsStill(s: State, l: Label, c: int, t: int)
    requires Inv(s) && Enabled(s, l) && IsCpu(s, c) && t != NO_TASK
    requires t == Held(s.cpus[c].pc) && s.tasks[t].st.Ready?
    ensures |Apply(s, l).tasks| == |s.tasks| && Apply(s, l).tasks[t].st.Ready?
  {
    StateChanges(s, l, t);
    assert CpuTyped(s, s.cpus[c]) && CpuOk(s, c);
    if l.Endort? || l.Meurt? { assert CpuTyped(s, s.cpus[l.c]) && CpuOk(s, l.c); }
  }

  lemma StepFitAt(s: State, l: Label, c: int)
    requires Inv(s) && Fit(s) && Enabled(s, l) && IsCpu(s, c) && Inv(Apply(s, l))
    ensures IsCpu(Apply(s, l), c) && FitAt(Apply(s, l), c)
  {
    var s' := Apply(s, l);
    assert FitAt(s, c) && CpuTyped(s, s.cpus[c]);
    ActorLooks(s, l, c);
    assert CpuTyped(s', s'.cpus[c]);
    var t := Held(s'.cpus[c].pc);
    if Cleared(s'.cpus[c].pc) && t != NO_TASK {
      if !Moves(l) { OthersStand(s, l); HeldIsStill(s, l, c, t); } else { StateChanges(s, l, t); }
    }
  }

  lemma StepFit(s: State, l: Label)
    requires Inv(s) && Fit(s) && Enabled(s, l)
    ensures Fit(Apply(s, l))
  {
    StepInv(s, l);
    StepSizes(s, l);
    forall c | 0 <= c < |s.cpus| ensures FitAt(Apply(s, l), c) { StepFitAt(s, l, c); }
  }

  /** A dead task is never made current. */
  lemma NotElected(s: State, l: Label, t: int, c: int)
    requires Fit(s) && Enabled(s, l) && Slot(s, t) && s.tasks[t].st.Zombie? && IsCpu(s, c)
    ensures |Apply(s, l).cpus| == |s.cpus| && (Apply(s, l).cpus[c].cur == t ==> s.cpus[c].cur == t)
  {
    if Moves(l) { MovesMild(s, l); } else { OthersStand(s, l); }
    assert CpuTyped(s, s.cpus[c]) && FitAt(s, c);
  }
}
