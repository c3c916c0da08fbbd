/** The context-switch hand-off of the SMP scheduler, at the granularity of one
    shared-memory access per step.

    Every CPU runs `schedule` / `switch_to` / `switch_to_kernel` /
    `preempt_from_irq`, `pick_next` and `complete_switch_handoff`; any number of
    wakers run `publish_ready` beside them.  No lock orders them: a task is
    claimed by a compare-and-swap on `on_cpu`, a run queue is a set of slots,
    and the outgoing task is published by the continuation that replaced it. */
module Passation {
  const NO_TASK := -1

  datatype TState = Ready | Blocked | Zombie

  /** One registry slot.  `onCpu` is the CPU that owns the task or -1, `sw` is
      `switching_out`, `rq` is `runq_cpu`, `gen` is the slot's incarnation.
      `via` is a history variable: the CPU whose hand-off last set `sw`. */
  datatype Task = Task(st: TState, onCpu: int, sw: bool, rq: int, gen: nat, via: int)

  /** Where `complete_switch_handoff` returns to. */
  datatype After = ToExec | ToPick | ToKernel

  /** Program counter of a CPU: the access it performs next. */
  datatype Pc =
    | Exec                                                // task or idle code
    | CompLoad(after: After)                              // load SWITCH_PENDING
    | CompRq(o: int, after: After)                        // runq_cpu := cpu
    | CompOn(o: int, after: After)                        // on_cpu := -1
    | CompSw(o: int, after: After)                        // switching_out := false
    | CompState(o: int, after: After)                     // read the state
    | CompPend(o: int, publish: bool, after: After)       // SWITCH_PENDING := NO_TASK
    | PickDeq                                             // inside pick_next
    | Take(src: int, t: int)                              // entry consumed, identity unread
    | Look(src: int, t: int, g: nat)                      // registre_tache_id
    | Judge(src: int, t: int, g: nat, k: nat)             // runnable_local / runnable_steal
    | Claim(src: int, t: int, g: nat)                     // on_cpu: -1 -> cpu
    | Check(src: int, t: int, g: nat, k: nat)             // re-read after the claim
    | Release(src: int, t: int, g: nat)                   // on_cpu: cpu -> -1
    | Remet(src: int, t: int, g: nat, k: nat, rq: int)    // remet_si_perdue
    | PutBack(src: int, t: int, g: nat, k: nat)           // entry returned to its donor
    | StealRq(t: int)                                     // runq_cpu := thief
    | Prep(t: int)                                        // prepare_switch_handoff
    | PrepSw(t: int)                                      // switching_out := true
    | Fin(t: int)                                         // finalise_task_running
    | SetCur(t: int)                                      // set_current_index
    | Phys(t: int)                                        // mov rsp

  /** `stack` is the task whose kernel stack the CPU physically uses, NO_TASK on
      the idle stack; `pend` is SWITCH_PENDING. */
  datatype Cpu = Cpu(cur: int, stack: int, pend: int, pc: Pc)

  /** A running `publie_pret`: slot, next access, identity read, chosen queue,
      and whether its caller holds a read guard of the registry throughout. */
  datatype Pub = Pub(t: int, k: nat, g: nat, target: int, held: bool)

  datatype State = State(tasks: seq<Task>, ident: seq<nat>, q: seq<set<int>>, cpus: seq<Cpu>, pubs: map<nat, Pub>)

  datatype Label =
    | CpuNext(c: int)
    | Schedule(c: int)
    | Retire(c: int)
    | Dequeue(c: int, t: int)
    | Steal(c: int, donor: int, t: int)
    | PickNone(c: int)
    | Reject(c: int)
    | Publish(c: int, p: nat)
    | Endort(c: int)
    | Annule(c: int)
    | Meurt(c: int)
    | Wake(t: int, p: nat, held: bool)
    | Kill(t: int)
    | PubNext(p: nat, target: int)
    | Recycle(t: int, rq: int, p: nat)

  predicate Slot(s: State, t: int) { 0 <= t < |s.tasks| }

  predicate IsCpu(s: State, c: int) { 0 <= c < |s.cpus| }

  predicate PcTyped(s: State, pc: Pc)
  {
    match pc
    case Exec => true
    case CompLoad(_) => true
    case CompRq(o, _) => Slot(s, o)
    case CompOn(o, _) => Slot(s, o)
    case CompSw(o, _) => Slot(s, o)
    case CompState(o, _) => Slot(s, o)
    case CompPend(o, _, _) => Slot(s, o)
    case PickDeq => true
    case Take(src, t) => IsCpu(s, src) && Slot(s, t)
    case Look(src, t, _) => IsCpu(s, src) && Slot(s, t)
    case Judge(src, t, _, k) => IsCpu(s, src) && Slot(s, t) && k <= 3
    case Claim(src, t, _) => IsCpu(s, src) && Slot(s, t)
    case Check(src, t, _, k) => IsCpu(s, src) && Slot(s, t) && k <= 1
    case Release(src, t, _) => IsCpu(s, src) && Slot(s, t)
    case Remet(src, t, _, k, rq) => IsCpu(s, src) && Slot(s, t) && k <= 6 && (k >= 4 ==> IsCpu(s, rq))
    case PutBack(src, t, _, k) => IsCpu(s, src) && Slot(s, t) && k <= 1
    case StealRq(t) => Slot(s, t)
    case Prep(t) => t == NO_TASK || Slot(s, t)
    case PrepSw(t) => t == NO_TASK || Slot(s, t)
    case Fin(t) => Slot(s, t)
    case SetCur(t) => t == NO_TASK || Slot(s, t)
    case Phys(t) => t == NO_TASK || Slot(s, t)
  }

  predicate CpuTyped(s: State, x: Cpu)
  {
    && PcTyped(s, x.pc)
    && (x.cur == NO_TASK || Slot(s, x.cur))
    && (x.pend == NO_TASK || Slot(s, x.pend))
    && (x.pc.PrepSw? ==> x.cur != NO_TASK)
  }

  /** Every index a program counter mentions is a slot or a CPU. */
  ghost predicate Typed(s: State)
  {
    && |s.ident| == |s.tasks|
    && |s.q| == |s.cpus|
    && (forall c :: 0 <= c < |s.cpus| ==> CpuTyped(s, s.cpus[c]))
    && (forall t :: 0 <= t < |s.tasks| ==> IsCpu(s, s.tasks[t].rq))
    && (forall p :: p in s.pubs ==> Slot(s, s.pubs[p].t) && s.pubs[p].k <= 6 && IsCpu(s, s.pubs[p].target))
  }

  function WithTask(s: State, t: int, x: Task): State
    requires Slot(s, t)
  {
    s.(tasks := s.tasks[t := x])
  }

  function WithCpu(s: State, c: int, x: Cpu): State
    requires IsCpu(s, c)
  {
    s.(cpus := s.cpus[c := x])
  }

  function Goto(s: State, c: int, pc: Pc): State
    requires IsCpu(s, c)
  {
    WithCpu(s, c, s.cpus[c].(pc := pc))
  }

  function WithPub(s: State, p: nat, x: Pub): State { s.(pubs := s.pubs[p := x]) }

  function Enqueued(s: State, c: int, t: int): State
    requires |s.q| == |s.cpus| && IsCpu(s, c)
  {
    s.(q := s.q[c := s.q[c] + {t}])
  }

  function Named(s: State, t: int, g: nat): State
    requires |s.ident| == |s.tasks| && Slot(s, t)
  {
    s.(ident := s.ident[t := g])
  }

  function Resume(after: After): Pc
  {
    match after
    case ToExec => Exec
    case ToPick => PickDeq
    case ToKernel => Prep(NO_TASK)
  }

  /** complete_switch_handoff, one access at a time. */
  ghost function CompleteStep(s: State, c: int): State
    requires Typed(s) && IsCpu(s, c)
  {
    var x := s.cpus[c];
    match x.pc
    case CompLoad(after) =>
      Goto(s, c, if x.pend == NO_TASK then Resume(after) else CompRq(x.pend, after))
    case CompRq(o, after) =>
      Goto(WithTask(s, o, s.tasks[o].(rq := c)), c, CompOn(o, after))
    case CompOn(o, after) =>
      Goto(WithTask(s, o, s.tasks[o].(onCpu := -1)), c, CompSw(o, after))
    case CompSw(o, after) =>
      Goto(WithTask(s, o, s.tasks[o].(sw := false)), c, CompState(o, after))
    case CompState(o, after) =>
      Goto(s, c, CompPend(o, s.tasks[o].st.Ready?, after))
    case _ => s
  }

  /** pick_next once an entry has been consumed. */
  ghost function PickStep(s: State, c: int): State
    requires Typed(s) && IsCpu(s, c)
  {
    var x := s.cpus[c];
    match x.pc
    case Take(src, t) => Goto(s, c, Look(src, t, s.ident[t]))
    case Look(src, t, g) => Goto(s, c, if s.tasks[t].gen == g then Judge(src, t, g, 0) else PickDeq)
    case Judge(src, t, g, k) =>
      var holds :=
        if k == 0 then s.tasks[t].st.Ready?
        else if k == 1 then s.tasks[t].onCpu < 0
        else if k == 2 then !s.tasks[t].sw
        else s.tasks[t].rq == src;
      Goto(s, c, if !holds then Rejected(c, src, t, g) else if k < 3 then Judge(src, t, g, k + 1) else Claim(src, t, g))
    case Claim(src, t, g) =>
      if s.tasks[t].onCpu == -1
      then Goto(WithTask(s, t, s.tasks[t].(onCpu := c)), c, Check(src, t, g, 0))
      else Goto(s, c, Remet(src, t, g, 0, 0))
    case Check(src, t, g, k) =>
      var holds := if k == 0 then s.tasks[t].st.Ready? else !s.tasks[t].sw;
      Goto(s, c, if !holds then Release(src, t, g) else if k == 0 then Check(src, t, g, 1)
                 else if src == c then Prep(t) else StealRq(t))
    case Release(src, t, g) =>
      Goto(WithTask(s, t, s.tasks[t].(onCpu := -1)), c, Remet(src, t, g, 0, 0))
    case StealRq(t) =>
      Goto(WithTask(s, t, s.tasks[t].(rq := c)), c, Prep(t))
    case PutBack(src, t, g, k) =>
      if k == 0 then Goto(Named(s, t, g), c, PutBack(src, t, g, 1))
      else Goto(Enqueued(s, src, t), c, PickDeq)
    case _ => s
  }

  /** An entry judged ineligible: a local one goes through remet_si_perdue, a
      stolen one returns to its donor's queue. */
  function Rejected(c: int, src: int, t: int, g: nat): Pc
  {
    if src == c then Remet(src, t, g, 0, 0) else PutBack(src, t, g, 0)
  }

  /** remet_si_perdue: put the consumed entry back unless the task is not
      ready, owned, leaving its CPU, or already queued. */
  ghost function RemetStep(s: State, c: int): State
    requires Typed(s) && IsCpu(s, c) && s.cpus[c].pc.Remet?
  {
    var Remet(src, t, g, k, rq) := s.cpus[c].pc;
    if k == 0 then Goto(s, c, if s.tasks[t].st.Ready? then Remet(src, t, g, 1, rq) else PickDeq)
    else if k == 1 then Goto(s, c, if s.tasks[t].onCpu < 0 then Remet(src, t, g, 2, rq) else PickDeq)
    else if k == 2 then Goto(s, c, if !s.tasks[t].sw then Remet(src, t, g, 3, rq) else PickDeq)
    else if k == 3 then Goto(s, c, Remet(src, t, g, 4, s.tasks[t].rq))
    else if k == 4 then Goto(s, c, if t in s.q[rq] && s.ident[t] == g then PickDeq else Remet(src, t, g, 5, rq))
    else if k == 5 then Goto(Named(s, t, g), c, Remet(src, t, g, 6, rq))
    else Goto(Enqueued(s, rq, t), c, PickDeq)
  }

  /** prepare_switch_handoff, finalise_task_running, set_current_index and the
      change of stack.  Target NO_TASK is switch_to_kernel. */
  ghost function SwitchStep(s: State, c: int): State
    requires Typed(s) && IsCpu(s, c)
  {
    var x := s.cpus[c];
    match x.pc
    case Prep(t) =>
      if x.cur == NO_TASK then Goto(s, c, if t == NO_TASK then Exec else Fin(t))
      else WithCpu(s, c, x.(pend := x.cur, pc := PrepSw(t)))
    case PrepSw(t) =>
      Goto(WithTask(s, x.cur, s.tasks[x.cur].(sw := true, via := c)), c, if t == NO_TASK then SetCur(t) else Fin(t))
    case Fin(t) =>
      Goto(WithTask(s, t, s.tasks[t].(rq := c, sw := false)), c, SetCur(t))
    case SetCur(t) => WithCpu(s, c, x.(cur := t, pc := Phys(t)))
    case Phys(t) => WithCpu(s, c, x.(stack := t, pc := CompLoad(ToExec)))
    case _ => s
  }

  predicate Completing(pc: Pc)
  {
    pc.CompLoad? || pc.CompRq? || pc.CompOn? || pc.CompSw? || pc.CompState?
  }

  predicate Picking(pc: Pc)
  {
    pc.Take? || pc.Look? || pc.Judge? || pc.Claim? || pc.Check? || pc.Release? || pc.StealRq? || pc.PutBack?
  }

  predicate Switching(pc: Pc)
  {
    pc.Prep? || pc.PrepSw? || pc.Fin? || pc.SetCur? || pc.Phys?
  }

  ghost function CpuStep(s: State, c: int): State
    requires Typed(s) && IsCpu(s, c)
  {
    var pc := s.cpus[c].pc;
    if Completing(pc) then CompleteStep(s, c)
    else if Picking(pc) then PickStep(s, c)
    else if pc.Remet? then RemetStep(s, c)
    else SwitchStep(s, c)
  }

  /** publie_pret: check state, owner and hand-off; then choose a queue, read
      the slot's identity, publish it, set the bit. */
  ghost function PubStep(s: State, p: nat, target: int): State
    requires Typed(s) && p in s.pubs && IsCpu(s, target)
  {
    var x := s.pubs[p];
    var t := x.t;
    var gone := s.(pubs := s.pubs - {p});
    if x.k == 0 then (if s.tasks[t].st.Ready? then WithPub(s, p, x.(k := 1)) else gone)
    else if x.k == 1 then (if s.tasks[t].onCpu < 0 then WithPub(s, p, x.(k := 2)) else gone)
    else if x.k == 2 then (if !s.tasks[t].sw then WithPub(s, p, x.(k := 3)) else gone)
    else if x.k == 3 then WithPub(WithTask(s, t, s.tasks[t].(rq := target)), p, x.(k := 4, target := target))
    else if x.k == 4 then WithPub(s, p, x.(k := 5, g := s.tasks[t].gen))
    else if x.k == 5 then WithPub(Named(s, t, x.g), p, x.(k := 6))
    else Enqueued(gone, x.target, t)
  }

  /** The slot a CPU reads under the registry's read guard.  A guard, whatever
      the slot, makes the recycler wait. */
  function Guarded(pc: Pc): int
  {
    match pc
    case Judge(_, t, _, _) => t
    case Claim(_, t, _) => t
    case Check(_, t, _, _) => t
    case Release(_, t, _) => t
    case Remet(_, t, _, _, _) => t
    case PutBack(_, t, _, _) => t
    case StealRq(t) => t
    case CompRq(o, _) => o
    case CompOn(o, _) => o
    case CompSw(o, _) => o
    case CompState(o, _) => o
    case _ => NO_TASK
  }

  predicate Recyclable(x: Task) { x.st.Zombie? && x.onCpu < 0 && !x.sw }

  ghost predicate Enabled(s: State, l: Label)
  {
    && Typed(s)
    && match l
       case CpuNext(c) =>
         IsCpu(s, c) && !s.cpus[c].pc.Exec? && !s.cpus[c].pc.PickDeq? && !s.cpus[c].pc.CompPend?
       case Schedule(c) => IsCpu(s, c) && s.cpus[c].pc.Exec?
       case Retire(c) => IsCpu(s, c) && s.cpus[c].pc.Exec? && s.cpus[c].cur != NO_TASK && s.tasks[s.cpus[c].cur].st.Zombie?
       case Dequeue(c, t) => IsCpu(s, c) && s.cpus[c].pc.PickDeq? && Slot(s, t) && t in s.q[c]
       case Steal(c, d, t) => IsCpu(s, c) && s.cpus[c].pc.PickDeq? && IsCpu(s, d) && d != c && Slot(s, t) && t in s.q[d]
       case PickNone(c) => IsCpu(s, c) && s.cpus[c].pc.PickDeq?
       case Reject(c) => IsCpu(s, c) && s.cpus[c].pc.Judge?
       case Publish(c, p) => IsCpu(s, c) && s.cpus[c].pc.CompPend? && p !in s.pubs
       case Endort(c) => IsCpu(s, c) && s.cpus[c].pc.Exec? && s.cpus[c].cur != NO_TASK && s.tasks[s.cpus[c].cur].st.Ready?
       case Annule(c) => IsCpu(s, c) && s.cpus[c].pc.Exec? && s.cpus[c].cur != NO_TASK && s.tasks[s.cpus[c].cur].st.Blocked?
       case Meurt(c) => IsCpu(s, c) && s.cpus[c].pc.Exec? && s.cpus[c].cur != NO_TASK
       case Wake(t, p, _) => Slot(s, t) && s.tasks[t].st.Blocked? && p !in s.pubs
       case Kill(t) => Slot(s, t) && s.tasks[t].st.Blocked?
       case PubNext(p, target) => p in s.pubs && IsCpu(s, target)
       case Recycle(t, rq, p) =>
         && Slot(s, t) && Recyclable(s.tasks[t]) && IsCpu(s, rq) && p !in s.pubs
         && (forall c :: 0 <= c < |s.cpus| ==> Guarded(s.cpus[c].pc) == NO_TASK)
         && (forall q :: q in s.pubs ==> !s.pubs[q].held)
  }

  ghost function Apply(s: State, l: Label): State
    requires Enabled(s, l)
  {
    match l
    case CpuNext(c) => CpuStep(s, c)
    case Schedule(c) => Goto(s, c, CompLoad(ToPick))
    case Retire(c) => Goto(s, c, CompLoad(ToKernel))
    case Dequeue(c, t) => Goto(s.(q := s.q[c := s.q[c] - {t}]), c, Take(c, t))
    case Steal(c, d, t) => Goto(s.(q := s.q[d := s.q[d] - {t}]), c, Take(d, t))
    case PickNone(c) => Goto(s, c, Exec)
    case Reject(c) => Goto(s, c, Rejected(c, s.cpus[c].pc.src, s.cpus[c].pc.t, s.cpus[c].pc.g))
    case Publish(c, p) =>
      var CompPend(o, publish, after) := s.cpus[c].pc;
      var s' := WithCpu(s, c, s.cpus[c].(pend := NO_TASK, pc := Resume(after)));
      if publish then WithPub(s', p, Pub(o, 0, 0, s.tasks[o].rq, false)) else s'
    case Endort(c) => WithTask(s, s.cpus[c].cur, s.tasks[s.cpus[c].cur].(st := Blocked))
    case Annule(c) => WithTask(s, s.cpus[c].cur, s.tasks[s.cpus[c].cur].(st := Ready))
    case Meurt(c) => WithTask(s, s.cpus[c].cur, s.tasks[s.cpus[c].cur].(st := Zombie))
    case Wake(t, p, held) => WithPub(WithTask(s, t, s.tasks[t].(st := Ready)), p, Pub(t, 0, 0, s.tasks[t].rq, held))
    case Kill(t) => WithTask(s, t, s.tasks[t].(st := Zombie))
    case PubNext(p, target) => PubStep(s, p, target)
    case Recycle(t, rq, p) =>
      WithPub(WithTask(s, t, Task(Ready, -1, false, rq, s.tasks[t].gen + 1, -1)), p, Pub(t, 0, 0, s.tasks[t].rq, false))
  }

  /** Every slot free, every CPU idle on its own stack, nothing queued and no
      identity published. */
  ghost predicate Init(s: State)
  {
    && Typed(s)
    && s.pubs == map[]
    && (forall c :: 0 <= c < |s.cpus| ==> s.cpus[c] == Cpu(NO_TASK, NO_TASK, NO_TASK, Exec))
    && (forall c :: 0 <= c < |s.q| ==> s.q[c] == {})
    && (forall t :: 0 <= t < |s.ident| ==> s.ident[t] == 0)
    && (forall t :: 0 <= t < |s.tasks| ==> Recyclable(s.tasks[t]) && s.tasks[t].onCpu == -1)
  }
}
