/** What the hand-off guarantees in every state of every run, for any number of
    CPUs, tasks, wakers and recyclings, under any interleaving of accesses. */
module PassationSure {
  import opened Passation
  import opened PassationInv

  /** The states a run of labelled steps visits, starting from boot. */
  ghost predicate Run(states: seq<State>, labels: seq<Label>)
  {
    && |states| == |labels| + 1
    && Init(states[0])
    && forall i :: 0 <= i < |labels| ==> Enabled(states[i], labels[i]) && states[i + 1] == Apply(states[i], labels[i])
  }

  lemma RunAt(states: seq<State>, labels: seq<Label>, m: nat)
    requires Run(states, labels) && m < |labels|
    ensures Enabled(states[m], labels[m]) && states[m + 1] == Apply(states[m], labels[m])
  {
  }

  ghost predicate Reachable(s: State)
  {
    exists states: seq<State>, labels: seq<Label> :: Run(states, labels) && s == states[|labels|]
  }

  lemma {:induction false} RunInv(states: seq<State>, labels: seq<Label>, i: nat)
    requires Run(states, labels) && i <= |labels|
    ensures Inv(states[i])
  {
    if i == 0 {
      InitInv(states[0]);
    } else {
      RunInv(states, labels, i - 1);
      assert Enabled(states[i - 1], labels[i - 1]) && states[i - 1 + 1] == Apply(states[i - 1], labels[i - 1]);
      StepInv(states[i - 1], labels[i - 1]);
    }
  }

  lemma ReachableInv(s: State)
    requires Reachable(s)
    ensures Inv(s)
  {
    var states: seq<State>, labels: seq<Label> :| Run(states, labels) && s == states[|labels|];
    RunInv(states, labels, |labels|);
  }

  /** The stack a CPU stands on belongs to a task that CPU owns. */
  lemma StackOwned(s: State, c: int)
    requires Inv(s) && IsCpu(s, c) && s.cpus[c].stack != NO_TASK
    ensures Slot(s, s.cpus[c].stack) && s.tasks[s.cpus[c].stack].onCpu == c
  {
    assert CpuTyped(s, s.cpus[c]) && CpuOk(s, c);
  }

  /** No kernel stack is ever in use by two CPUs, no task is ever current on
      two CPUs, and no task is announced as outgoing by two CPUs. */
  lemma OneCpuPerStack(s: State, c: int, d: int)
    requires Reachable(s) && IsCpu(s, c) && IsCpu(s, d) && c != d
    ensures s.cpus[c].stack != NO_TASK ==> s.cpus[c].stack != s.cpus[d].stack
    ensures s.cpus[c].cur != NO_TASK ==> s.cpus[c].cur != s.cpus[d].cur
    ensures s.cpus[c].stack != NO_TASK ==> s.cpus[c].stack != s.cpus[d].cur
  {
    ReachableInv(s);
    assert CpuTyped(s, s.cpus[c]) && CpuOk(s, c) && CpuTyped(s, s.cpus[d]) && CpuOk(s, d);
  }

  predicate Selectable(x: Task) { x.st.Ready? && x.onCpu < 0 && !x.sw }

  /** A task the election may take, and a slot the registry may recycle, is on
      no CPU: not as the physical stack, not as the current task, not claimed,
      and not as a hand-off still to be acknowledged by its flag. */
  lemma FreeTaskIsNowhere(s: State, t: int, c: int)
    requires Reachable(s) && Slot(s, t) && IsCpu(s, c)
    requires Selectable(s.tasks[t]) || Recyclable(s.tasks[t])
    ensures s.cpus[c].stack != t && s.cpus[c].cur != t && Held(s.cpus[c].pc) != t
    ensures s.cpus[c].pend == t ==> s.cpus[c].pc.CompState? || s.cpus[c].pc.CompPend?
  {
    ReachableInv(s);
    assert CpuTyped(s, s.cpus[c]) && CpuOk(s, c);
  }

  /** The run-time checks of the hand-off: what prepare_switch_handoff,
      complete_switch_handoff, finalise_task_running and the release of a claim
      assert before acting. */
  predicate ChecksPass(s: State, c: int)
    requires IsCpu(s, c) && CpuTyped(s, s.cpus[c])
  {
    var x := s.cpus[c];
    match x.pc
    case Prep(t) =>
      x.cur != NO_TASK ==> s.tasks[x.cur].onCpu == c && !s.tasks[x.cur].sw && x.pend == NO_TASK && t != x.cur
    case CompRq(o, _) => s.tasks[o].sw && s.tasks[o].onCpu == c && x.stack != o
    case Fin(t) => s.tasks[t].onCpu == c && !s.tasks[t].sw
    case Release(_, t, _) => s.tasks[t].onCpu == c
    case Exec => x.pend == NO_TASK
    case PickDeq => x.pend == NO_TASK
    case _ => true
  }

  lemma ChecksNeverFail(s: State, c: int)
    requires Reachable(s) && IsCpu(s, c)
    ensures CpuTyped(s, s.cpus[c]) && ChecksPass(s, c)
  {
    ReachableInv(s);
    assert CpuTyped(s, s.cpus[c]) && CpuOk(s, c);
  }

  predicate HandsOff(s: State, c: int, t: int) { IsCpu(s, c) && s.cpus[c].pend == t && Handing(s.cpus[c].pc) }

  /** `switching_out` and SWITCH_PENDING are two views of one fact: the flag is
      set exactly while some CPU has the task pending and has not yet reached
      the point that clears the flag, and that CPU is unique. */
  lemma FlagIsPendingHandoff(s: State, t: int)
    requires Reachable(s) && Slot(s, t)
    ensures s.tasks[t].sw <==> exists c :: HandsOff(s, c, t)
    ensures forall c, d :: HandsOff(s, c, t) && HandsOff(s, d, t) ==> c == d
  {
    ReachableInv(s);
    assert Leaving(s, t);
    assert s.tasks[t].sw ==> HandsOff(s, s.tasks[t].via, t);
    forall c | HandsOff(s, c, t) ensures s.tasks[t].sw && s.tasks[t].via == c {
      assert CpuTyped(s, s.cpus[c]) && CpuOk(s, c);
    }
  }

  /** A task is published only after its stack has been left: from the step that
      announces a hand-off until the step that clears its owner, the outgoing
      task is neither selectable nor recyclable, whatever wakers and killers do
      to its state. */
  lemma OutgoingNotPublished(s: State, c: int)
    requires Reachable(s) && IsCpu(s, c) && s.cpus[c].pend != NO_TASK && !s.cpus[c].pc.CompState? && !s.cpus[c].pc.CompPend?
    ensures Slot(s, s.cpus[c].pend)
    ensures !Selectable(s.tasks[s.cpus[c].pend]) && !Recyclable(s.tasks[s.cpus[c].pend])
  {
    ReachableInv(s);
    assert CpuTyped(s, s.cpus[c]) && CpuOk(s, c);
  }
}
