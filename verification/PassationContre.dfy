/** The quietness of recyclings is needed: a run in which a publisher that read
    the identity of one incarnation stores it over the identity of the next
    strands the new task, ready and in nobody's care. */
module PassationContre {
  import opened Passation
  import opened PassationInv
  import opened PassationSure
  import opened PassationPerte

  predicate Visit(s: State) { true }

  predicate Step(s: State, l: Label) { true }

  predicate Ends(l: Label) { l.Meurt? || l.Kill? }

  /** A set of sound states that no step leaves, recyclings and deaths apart. */
  ghost predicate Closed(r: iset<State>)
  {
    && (forall s {:trigger Visit(s)} :: Visit(s) && s in r ==> Inv(s))
    && (forall s, l {:trigger Step(s, l)} :: Step(s, l) && s in r && Enabled(s, l) && !l.Recycle? && !Ends(l) ==> Apply(s, l) in r)
  }

  /** ... deaths apart. */
  ghost predicate Open(r: iset<State>)
  {
    && Closed(r)
    && (forall s, l {:trigger Step(s, l)} :: Step(s, l) && s in r && Enabled(s, l) && l.Recycle? ==> Apply(s, l) in r)
  }

  /** ... that no step leaves at all.  The reachable states are such a set; the
      run is built in an arbitrary one. */
  ghost predicate Full(r: iset<State>)
  {
    && Open(r)
    && (forall s, l {:trigger Step(s, l)} :: Step(s, l) && s in r && Enabled(s, l) && Ends(l) ==> Apply(s, l) in r)
  }

  lemma ReachableFull(r: iset<State>)
    requires r == iset s | Reachable(s)
    ensures Full(r)
  {
    forall s | Visit(s) && s in r ensures Inv(s) { ReachableInv(s); }
    forall s, l | Step(s, l) && s in r && Enabled(s, l) ensures Apply(s, l) in r { ReachableStep(s, l); }
  }

  lemma Appended(states: seq<State>, labels: seq<Label>, l: Label)
    requires Run(states, labels) && Enabled(states[|labels|], l)
    ensures Run(states + [Apply(states[|labels|], l)], labels + [l])
  {
    var states', labels' := states + [Apply(states[|labels|], l)], labels + [l];
    forall i | 0 <= i < |labels'|
      ensures Enabled(states'[i], labels'[i]) && states'[i + 1] == Apply(states'[i], labels'[i])
    {
      if i < |labels| { RunAt(states, labels, i); }
    }
  }

  lemma ReachableStep(s: State, l: Label)
    requires Reachable(s) && Enabled(s, l)
    ensures Reachable(Apply(s, l))
  {
    var states: seq<State>, labels: seq<Label> :| Run(states, labels) && s == states[|labels|];
    var states', labels' := states + [Apply(s, l)], labels + [l];
    Appended(states, labels, l);
    assert Apply(s, l) == states'[|labels'|];
  }

  lemma Sound(r: iset<State>, s: State)
    requires Closed(r) && s in r
    ensures Inv(s)
  {
    assert Visit(s);
  }

  lemma Extend(r: iset<State>, s: State, l: Label)
    requires Closed(r) && (l.Recycle? ==> Open(r)) && (Ends(l) ==> Full(r)) && s in r && Enabled(s, l)
    ensures Apply(s, l) in r
  {
    assert Step(s, l);
  }

  lemma Advance(r: iset<State>, s: State, p: nat, target: int, s': State)
    requires Closed(r)
    requires s in r && p in s.pubs && IsCpu(s, target)
    requires Typed(s) ==> s' == PubStep(s, p, target)
    ensures s' in r
  {
    Sound(r, s);
    Extend(r, s, PubNext(p, target));
  }

  /** A publisher of a selectable task gets past its three checks. */
  lemma PassChecks(r: iset<State>, s: State, p: nat, t: int, to: int, h: bool)
    requires Closed(r)
    requires s in r && p in s.pubs && s.pubs[p] == Pub(t, 0, 0, to, h)
    requires Slot(s, t) && Selectable(s.tasks[t])
    ensures WithPub(s, p, Pub(t, 3, 0, to, h)) in r
  {
    Sound(r, s);
    var s1, s2, s3 := WithPub(s, p, Pub(t, 1, 0, to, h)), WithPub(s, p, Pub(t, 2, 0, to, h)), WithPub(s, p, Pub(t, 3, 0, to, h));
    Advance(r, s, p, to, s1);
    Advance(r, s1, p, to, s2);
    Advance(r, s2, p, to, s3);
  }

  lemma Address(r: iset<State>, s: State, p: nat, t: int, to: int, target: int, h: bool)
    requires Closed(r)
    requires Slot(s, t) && IsCpu(s, target) && WithPub(s, p, Pub(t, 3, 0, to, h)) in r
    ensures WithPub(WithTask(s, t, s.tasks[t].(rq := target)), p, Pub(t, 4, 0, target, h)) in r
  {
    Advance(r, WithPub(s, p, Pub(t, 3, 0, to, h)), p, target,
            WithPub(WithTask(s, t, s.tasks[t].(rq := target)), p, Pub(t, 4, 0, target, h)));
  }

  ghost function Addressed(s: State, p: nat, t: int, target: int, h: bool): State
    requires Slot(s, t)
  {
    WithPub(WithTask(s, t, s.tasks[t].(rq := target)), p, Pub(t, 5, s.tasks[t].gen, target, h))
  }

  /** ... and as far as reading the identity it will store. */
  lemma ReadIdentity(r: iset<State>, s: State, p: nat, t: int, to: int, target: int, h: bool)
    requires Closed(r)
    requires s in r && p in s.pubs && s.pubs[p] == Pub(t, 0, 0, to, h)
    requires Slot(s, t) && Selectable(s.tasks[t]) && IsCpu(s, target)
    ensures Addressed(s, p, t, target, h) in r
  {
    PassChecks(r, s, p, t, to, h);
    Address(r, s, p, t, to, target, h);
    var s4 := WithPub(WithTask(s, t, s.tasks[t].(rq := target)), p, Pub(t, 4, 0, target, h));
    Advance(r, s4, p, target, Addressed(s, p, t, target, h));
  }

  ghost function Stored(s: State, p: nat, t: int, g: nat, to: int): State
    requires 0 <= t < |s.ident| && 0 <= to < |s.q|
  {
    s.(ident := s.ident[t := g], q := s.q[to := s.q[to] + {t}], pubs := s.pubs - {p})
  }

  /** It finishes by storing what it read and setting the bit. */
  lemma StoreIdentity(r: iset<State>, s: State, p: nat, t: int, g: nat, to: int, h: bool)
    requires Closed(r)
    requires s in r && p in s.pubs && s.pubs[p] == Pub(t, 5, g, to, h)
    ensures 0 <= t < |s.ident| && 0 <= to < |s.q| && Stored(s, p, t, g, to) in r
  {
    Sound(r, s);
    var s1 := s.(ident := s.ident[t := g], pubs := s.pubs[p := Pub(t, 6, g, to, h)]);
    Advance(r, s, p, to, s1);
    assert s1.pubs - {p} == s.pubs - {p};
    Advance(r, s1, p, to, Stored(s, p, t, g, to));
  }

  /** One access of CPU `c`. */
  lemma Access(r: iset<State>, s: State, c: int, s': State)
    requires Closed(r)
    requires s in r && IsCpu(s, c) && !s.cpus[c].pc.Exec? && !s.cpus[c].pc.PickDeq? && !s.cpus[c].pc.CompPend?
    requires Typed(s) ==> s' == CpuStep(s, c)
    ensures s' in r
  {
    Sound(r, s);
    Extend(r, s, CpuNext(c));
  }

  lemma OpenElection(r: iset<State>, s: State, c: int)
    requires Closed(r)
    requires s in r && IsCpu(s, c) && s.cpus[c].pc.Exec?
    ensures Goto(s, c, PickDeq) in r
  {
    Sound(r, s);
    assert CpuTyped(s, s.cpus[c]) && CpuOk(s, c);
    Extend(r, s, Schedule(c));
    Access(r, Goto(s, c, CompLoad(ToPick)), c, Goto(s, c, PickDeq));
  }

  ghost function Taken(s: State, c: int, t: int): State
    requires 0 <= c < |s.q|
  {
    s.(q := s.q[c := s.q[c] - {t}])
  }

  /** An entry of the CPU's own queue is consumed and its identity compared. */
  lemma Consume(r: iset<State>, s: State, c: int, t: int)
    requires Closed(r)
    requires IsCpu(s, c) && |s.q| == |s.cpus| && |s.ident| == |s.tasks| && Slot(s, t)
    requires Goto(s, c, PickDeq) in r && t in s.q[c]
    ensures Goto(Taken(s, c, t), c, if Fresh(s, t) then Judge(c, t, s.ident[t], 0) else PickDeq) in r
  {
    var s0, d := Goto(s, c, PickDeq), Taken(s, c, t);
    var s1, s2 := Goto(d, c, Take(c, t)), Goto(d, c, Look(c, t, s.ident[t]));
    Sound(r, s0);
    Extend(r, s0, Dequeue(c, t));
    assert Apply(s0, Dequeue(c, t)) == s1;
    Access(r, s1, c, s2);
    Access(r, s2, c, Goto(d, c, if Fresh(s, t) then Judge(c, t, s.ident[t], 0) else PickDeq));
  }

  lemma {:induction false} JudgeAll(r: iset<State>, d: State, c: int, t: int, g: nat, k: nat)
    requires Closed(r)
    requires IsCpu(d, c) && Slot(d, t) && k <= 3 && Goto(d, c, Judge(c, t, g, k)) in r
    requires Selectable(d.tasks[t]) && d.tasks[t].rq == c
    ensures Goto(d, c, Claim(c, t, g)) in r
    decreases 3 - k
  {
    var s := Goto(d, c, Judge(c, t, g, k));
    Access(r, s, c, Goto(d, c, if k < 3 then Judge(c, t, g, k + 1) else Claim(c, t, g)));
    if k < 3 { JudgeAll(r, d, c, t, g, k + 1); }
  }

  lemma ClaimIt(r: iset<State>, d: State, c: int, t: int, g: nat)
    requires Closed(r)
    requires IsCpu(d, c) && Slot(d, t) && Goto(d, c, Claim(c, t, g)) in r
    requires Selectable(d.tasks[t]) && d.tasks[t].onCpu == -1
    ensures Goto(WithTask(d, t, d.tasks[t].(onCpu := c)), c, Prep(t)) in r
  {
    var e := WithTask(d, t, d.tasks[t].(onCpu := c));
    Access(r, Goto(d, c, Claim(c, t, g)), c, Goto(e, c, Check(c, t, g, 0)));
    Access(r, Goto(e, c, Check(c, t, g, 0)), c, Goto(e, c, Check(c, t, g, 1)));
    Access(r, Goto(e, c, Check(c, t, g, 1)), c, Goto(e, c, Prep(t)));
  }

  ghost function Elected(s: State, c: int, t: int): State
    requires 0 <= c < |s.q| && Slot(s, t)
  {
    s.(q := s.q[c := s.q[c] - {t}], tasks := s.tasks[t := s.tasks[t].(onCpu := c)])
  }

  /** CPU `c` elects `t` from its own queue and stands before the switch. */
  lemma Elect(r: iset<State>, s: State, c: int, t: int)
    requires Closed(r)
    requires s in r && IsCpu(s, c) && s.cpus[c].pc.Exec? && |s.q| == |s.cpus| && |s.ident| == |s.tasks|
    requires Slot(s, t) && Selectable(s.tasks[t]) && s.tasks[t].onCpu == -1 && s.tasks[t].rq == c
    requires t in s.q[c] && Fresh(s, t)
    ensures Goto(Elected(s, c, t), c, Prep(t)) in r
  {
    OpenElection(r, s, c);
    Consume(r, s, c, t);
    var d := Taken(s, c, t);
    JudgeAll(r, d, c, t, s.ident[t], 0);
    ClaimIt(r, d, c, t, s.ident[t]);
  }

  /** From the idle stack, `c` enters the task it elected. */
  lemma EnterFromIdle(r: iset<State>, d: State, c: int, t: int)
    requires Closed(r)
    requires IsCpu(d, c) && Slot(d, t) && d.cpus[c].cur == NO_TASK && Goto(d, c, Prep(t)) in r
    ensures WithCpu(WithTask(d, t, d.tasks[t].(rq := c, sw := false)), c, Cpu(t, t, NO_TASK, Exec)) in r
  {
    var s0 := Goto(d, c, Prep(t));
    Sound(r, s0);
    assert CpuTyped(s0, s0.cpus[c]) && CpuOk(s0, c);
    var e := WithTask(d, t, d.tasks[t].(rq := c, sw := false));
    Access(r, s0, c, Goto(d, c, Fin(t)));
    Finalise(r, d, c, t);
    Land(r, e, c, t);
    Resumed(r, e, c, t);
  }

  lemma Finalise(r: iset<State>, d: State, c: int, t: int)
    requires Closed(r)
    requires IsCpu(d, c) && Slot(d, t) && Goto(d, c, Fin(t)) in r
    ensures Goto(WithTask(d, t, d.tasks[t].(rq := c, sw := false)), c, SetCur(t)) in r
  {
    Access(r, Goto(d, c, Fin(t)), c, Goto(WithTask(d, t, d.tasks[t].(rq := c, sw := false)), c, SetCur(t)));
  }

  lemma Resumed(r: iset<State>, e: State, c: int, t: int)
    requires Closed(r)
    requires IsCpu(e, c) && WithCpu(e, c, Cpu(t, t, NO_TASK, CompLoad(ToExec))) in r
    ensures WithCpu(e, c, Cpu(t, t, NO_TASK, Exec)) in r
  {
    Access(r, WithCpu(e, c, Cpu(t, t, NO_TASK, CompLoad(ToExec))), c, WithCpu(e, c, Cpu(t, t, NO_TASK, Exec)));
  }

  /** The current index, then the stack pointer, move to `t`. */
  lemma Land(r: iset<State>, e: State, c: int, t: int)
    requires Closed(r)
    requires IsCpu(e, c) && Goto(e, c, SetCur(t)) in r
    ensures WithCpu(e, c, Cpu(t, t, e.cpus[c].pend, CompLoad(ToExec))) in r
  {
    var x := e.cpus[c];
    Access(r, Goto(e, c, SetCur(t)), c, WithCpu(e, c, Cpu(t, x.stack, x.pend, Phys(t))));
    Access(r, WithCpu(e, c, Cpu(t, x.stack, x.pend, Phys(t))), c, WithCpu(e, c, Cpu(t, t, x.pend, CompLoad(ToExec))));
  }

  /** The outgoing task `o` of a switch loses its owner, then its flag. */
  lemma Vacate(r: iset<State>, e: State, c: int, o: int)
    requires Closed(r)
    requires IsCpu(e, c) && Slot(e, o) && e.cpus[c].pend == o && Goto(e, c, CompLoad(ToExec)) in r
    ensures Goto(WithTask(e, o, e.tasks[o].(rq := c, onCpu := -1, sw := false)), c, CompState(o, ToExec)) in r
  {
    LoadPending(r, e, c, o);
    assert e.tasks == e.tasks[o := e.tasks[o]];
    VacateStep(r, e, c, o, e.tasks[o], CompRq(o, ToExec));
    VacateStep(r, e, c, o, e.tasks[o].(rq := c), CompOn(o, ToExec));
    VacateStep(r, e, c, o, e.tasks[o].(rq := c, onCpu := -1), CompSw(o, ToExec));
  }

  lemma LoadPending(r: iset<State>, e: State, c: int, o: int)
    requires Closed(r)
    requires IsCpu(e, c) && Slot(e, o) && e.cpus[c].pend == o && Goto(e, c, CompLoad(ToExec)) in r
    ensures Goto(e, c, CompRq(o, ToExec)) in r
  {
    Access(r, Goto(e, c, CompLoad(ToExec)), c, Goto(e, c, CompRq(o, ToExec)));
  }

  lemma VacateStep(r: iset<State>, e: State, c: int, o: int, x: Task, pc: Pc)
    requires Closed(r)
    requires IsCpu(e, c) && Slot(e, o) && pc in {CompRq(o, ToExec), CompOn(o, ToExec), CompSw(o, ToExec)}
    requires Goto(WithTask(e, o, x), c, pc) in r
    ensures pc.CompRq? ==> Goto(WithTask(e, o, x.(rq := c)), c, CompOn(o, ToExec)) in r
    ensures pc.CompOn? ==> Goto(WithTask(e, o, x.(onCpu := -1)), c, CompSw(o, ToExec)) in r
    ensures pc.CompSw? ==> Goto(WithTask(e, o, x.(sw := false)), c, CompState(o, ToExec)) in r
  {
    var s := Goto(WithTask(e, o, x), c, pc);
    var y := if pc.CompRq? then x.(rq := c) else if pc.CompOn? then x.(onCpu := -1) else x.(sw := false);
    var pc' := if pc.CompRq? then CompOn(o, ToExec) else if pc.CompOn? then CompSw(o, ToExec) else CompState(o, ToExec);
    assert e.tasks[o := x][o := y] == e.tasks[o := y];
    Access(r, s, c, Goto(WithTask(e, o, y), c, pc'));
  }

  ghost function Marked(d: State, c: int, o: int): State
    requires IsCpu(d, c) && Slot(d, o)
  {
    WithCpu(WithTask(d, o, d.tasks[o].(sw := true, via := c)), c, d.cpus[c].(pend := o))
  }

  /** The current task `o` is announced as outgoing. */
  lemma Announce(r: iset<State>, d: State, c: int, t: int)
    requires Closed(r)
    requires IsCpu(d, c) && d.cpus[c].cur != NO_TASK && Goto(d, c, Prep(t)) in r
    ensures Slot(d, d.cpus[c].cur)
    ensures Goto(Marked(d, c, d.cpus[c].cur), c, if t == NO_TASK then SetCur(t) else Fin(t)) in r
  {
    var s0, o := Goto(d, c, Prep(t)), d.cpus[c].cur;
    Sound(r, s0);
    assert CpuTyped(s0, s0.cpus[c]) && CpuOk(s0, c);
    var s1 := WithCpu(d, c, d.cpus[c].(pend := o, pc := PrepSw(t)));
    Access(r, s0, c, s1);
    Access(r, s1, c, Goto(Marked(d, c, o), c, if t == NO_TASK then SetCur(t) else Fin(t)));
  }

  /** The continuation reads the state and acknowledges the hand-off; a ready
      task goes to publisher `p`. */
  lemma Acknowledge(r: iset<State>, e: State, c: int, o: int, p: nat)
    requires Closed(r)
    requires IsCpu(e, c) && Slot(e, o) && p !in e.pubs && Goto(e, c, CompState(o, ToExec)) in r
    ensures var s' := WithCpu(e, c, e.cpus[c].(pend := NO_TASK, pc := Exec));
      (if e.tasks[o].st.Ready? then WithPub(s', p, Pub(o, 0, 0, e.tasks[o].rq, false)) else s') in r
  {
    var s1 := Goto(e, c, CompPend(o, e.tasks[o].st.Ready?, ToExec));
    Access(r, Goto(e, c, CompState(o, ToExec)), c, s1);
    Sound(r, s1);
    Extend(r, s1, Publish(c, p));
    assert s1.cpus[c := s1.cpus[c].(pend := NO_TASK, pc := Exec)] == e.cpus[c := e.cpus[c].(pend := NO_TASK, pc := Exec)];
  }

  // Two CPUs and two slots; slot 0 is the victim, slot 1 only takes CPU 0 over.

  const IDLE := Cpu(NO_TASK, NO_TASK, NO_TASK, Exec)
  const FREE := Task(Zombie, -1, false, 0, 0, -1)

  function Boot(): State { State([FREE, FREE], [0, 0], [{}, {}], [IDLE, IDLE], map[]) }

  /** The first incarnation of slot 0 runs on CPU 0. */
  function Running(): State
  {
    Boot().(tasks := [Task(Ready, 0, false, 0, 1, -1), FREE], ident := [1, 0], cpus := [Cpu(0, 0, NO_TASK, Exec), IDLE])
  }

  /** It went to sleep; slot 1 took CPU 0 over and has just cleared its flag. */
  function Asleep(): State
  {
    Boot().(tasks := [Task(Blocked, -1, false, 0, 1, 0), Task(Ready, 0, false, 0, 1, -1)], ident := [1, 1],
            cpus := [Cpu(1, 1, 0, CompState(0, ToExec)), IDLE])
  }

  /** A waker queued it on CPU 1, which elected it, while the publisher of the
      continuation had read its identity and gone no further. */
  function Elsewhere(): State
  {
    Boot().(tasks := [Task(Ready, 1, false, 1, 1, 0), Task(Ready, 0, false, 0, 1, -1)], ident := [1, 1],
            cpus := [Cpu(1, 1, NO_TASK, Exec), Cpu(0, 0, NO_TASK, Exec)], pubs := map[2 := Pub(0, 5, 1, 1, false)])
  }

  /** It died there and left its stack. */
  function Dead(): State
  {
    Elsewhere().(tasks := [Task(Zombie, -1, false, 1, 1, 1), Task(Ready, 0, false, 0, 1, -1)],
                 cpus := [Cpu(1, 1, NO_TASK, Exec), IDLE])
  }

  /** The second incarnation, ready, queued nowhere, published by nobody. */
  function Stranded(): State
  {
    Dead().(tasks := [Task(Ready, -1, false, 1, 2, -1), Task(Ready, 0, false, 0, 1, -1)], pubs := map[])
  }

  lemma BootReachable()
    ensures Reachable(Boot())
  {
    assert Init(Boot()) by { assert CpuTyped(Boot(), IDLE); }
    var labels: seq<Label> := [];
    assert Run([Boot()], labels) && Boot() == [Boot()][|labels|];
  }

  /** A new task in slot `t`, published at once in the queue of `c`. */
  lemma Spawn(r: iset<State>, s: State, t: int, c: int, p: nat)
    requires Open(r)
    requires s in r && Slot(s, t) && Recyclable(s.tasks[t]) && IsCpu(s, c) && p !in s.pubs
    requires forall d :: 0 <= d < |s.cpus| ==> Guarded(s.cpus[d].pc) == NO_TASK
    requires forall q :: q in s.pubs ==> !s.pubs[q].held
    requires |s.ident| == |s.tasks| && |s.q| == |s.cpus|
    ensures var y := Task(Ready, -1, false, c, s.tasks[t].gen + 1, -1);
      s.(tasks := s.tasks[t := y], ident := s.ident[t := y.gen], q := s.q[c := s.q[c] + {t}]) in r
  {
    Sound(r, s);
    Extend(r, s, Recycle(t, c, p));
    var y, to := Task(Ready, -1, false, c, s.tasks[t].gen + 1, -1), s.tasks[t].rq;
    var s1 := WithPub(WithTask(s, t, y), p, Pub(t, 0, 0, to, false));
    ReadIdentity(r, s1, p, t, to, c, false);
    var s2 := Addressed(s1, p, t, c, false);
    StoreIdentity(r, s2, p, t, y.gen, c, false);
    assert s2.pubs - {p} == s.pubs;
    assert Stored(s2, p, t, y.gen, c) == s.(tasks := s.tasks[t := y], ident := s.ident[t := y.gen], q := s.q[c := s.q[c] + {t}]);
  }

  lemma RunsFirst(r: iset<State>)
    requires Open(r) && Boot() in r
    ensures Running() in r
  {
    Spawn(r, Boot(), 0, 0, 0);
    var s := Boot().(tasks := [Task(Ready, -1, false, 0, 1, -1), FREE], ident := [1, 0], q := [{0}, {}]);
    assert Boot().q[0] + {0} == {0};
    assert s.tasks == Boot().tasks[0 := s.tasks[0]] && s.ident == Boot().ident[0 := 1] && s.q == Boot().q[0 := Boot().q[0] + {0}];
    Elect(r, s, 0, 0);
    var d := Elected(s, 0, 0);
    EnterFromIdle(r, d, 0, 0);
    assert Running().q == d.q && Running().cpus == d.cpus[0 := Cpu(0, 0, NO_TASK, Exec)];
    assert Running().tasks == d.tasks[0 := Running().tasks[0]];
  }

  /** ... with slot 1 queued behind it. */
  function Paired(): State
  {
    Running().(tasks := [Running().tasks[0], Task(Ready, -1, false, 0, 1, -1)], ident := [1, 1], q := [{1}, {}])
  }

  lemma PairedIn(r: iset<State>)
    requires Open(r) && Boot() in r
    ensures Paired() in r
  {
    RunsFirst(r);
    var s0 := Running();
    Spawn(r, s0, 1, 0, 0);
    assert s0.q[0] + {1} == {1};
    assert Paired().tasks == s0.tasks[1 := Paired().tasks[1]] && Paired().ident == s0.ident[1 := 1] && Paired().q == s0.q[0 := s0.q[0] + {1}];
  }

  lemma FallsAsleep(r: iset<State>)
    requires Closed(r) && Paired() in r
    ensures Asleep() in r
  {
    var s0, s1 := Running(), Paired();
    var u := Task(Ready, -1, false, 0, 1, -1);
    Sound(r, s1);
    Extend(r, s1, Endort(0));
    var s2 := s1.(tasks := [Task(Blocked, 0, false, 0, 1, -1), u]);
    assert s2.tasks == s1.tasks[0 := s2.tasks[0]];
    Elect(r, s2, 0, 1);
    var d := s0.(tasks := [s2.tasks[0], u.(onCpu := 0)], ident := [1, 1]);
    assert s2.q[0] - {1} == {};
    assert d.q == Elected(s2, 0, 1).q && d.tasks == Elected(s2, 0, 1).tasks;
    SwitchAway(r, d);
  }

  lemma SwitchAway(r: iset<State>, d: State)
    requires Closed(r)
    requires d == Running().(tasks := [Task(Blocked, 0, false, 0, 1, -1), Task(Ready, 0, false, 0, 1, -1)], ident := [1, 1])
    requires Goto(d, 0, Prep(1)) in r
    ensures Asleep() in r
  {
    Announce(r, d, 0, 1);
    var m := Marked(d, 0, 0);
    Finalise(r, m, 0, 1);
    assert m.tasks[1 := m.tasks[1].(rq := 0, sw := false)] == m.tasks;
    Land(r, m, 0, 1);
    var e := WithCpu(m, 0, Cpu(1, 1, 0, CompLoad(ToExec)));
    assert e == Goto(e, 0, CompLoad(ToExec));
    Vacate(r, e, 0, 0);
    assert Asleep().tasks == e.tasks[0 := Asleep().tasks[0]] && Asleep().cpus == e.cpus[0 := Asleep().cpus[0]];
  }

  /** Woken before the continuation reads its state: the waker, under its read
      guard, publishes it from end to end; the continuation reads it ready too,
      and its own publisher stops after reading the identity. */
  lemma TwoPublishers(r: iset<State>)
    requires Open(r) && Boot() in r
    ensures Elsewhere().(tasks := [Task(Ready, -1, false, 1, 1, 0), Elsewhere().tasks[1]], q := [{}, {0}],
                                   cpus := [Cpu(1, 1, NO_TASK, Exec), IDLE]) in r
  {
    WakerPublishes(r);
    var s := Woken();
    assert s == Goto(s, 0, CompState(0, ToExec));
    Acknowledge(r, s, 0, 0, 2);
    var s3 := s.(cpus := [Cpu(1, 1, NO_TASK, Exec), IDLE], pubs := map[2 := Pub(0, 0, 0, 1, false)]);
    assert s3.cpus == s.cpus[0 := Cpu(1, 1, NO_TASK, Exec)] && s3.pubs == s.pubs[2 := Pub(0, 0, 0, 1, false)];
    ReadIdentity(r, s3, 2, 0, 1, 1, false);
    var s4 := s3.(pubs := map[2 := Pub(0, 5, 1, 1, false)]);
    assert s4.pubs == s3.pubs[2 := Pub(0, 5, 1, 1, false)];
    assert s4 == Addressed(s3, 2, 0, 1, false) by { assert s3.tasks[0 := s3.tasks[0].(rq := 1)] == s3.tasks; }
  }

  function Woken(): State
  {
    Asleep().(tasks := [Task(Ready, -1, false, 1, 1, 0), Asleep().tasks[1]], q := [{}, {0}])
  }

  lemma WakerPublishes(r: iset<State>)
    requires Open(r) && Boot() in r
    ensures Woken() in r
  {
    PairedIn(r);
    FallsAsleep(r);
    var s0, u := Asleep(), Asleep().tasks[1];
    Sound(r, s0);
    Extend(r, s0, Wake(0, 1, true));
    var s1 := s0.(tasks := [Task(Ready, -1, false, 0, 1, 0), u], pubs := map[1 := Pub(0, 0, 0, 0, true)]);
    assert s1.tasks == s0.tasks[0 := s1.tasks[0]] && s1.pubs == s0.pubs[1 := Pub(0, 0, 0, 0, true)];
    ReadIdentity(r, s1, 1, 0, 0, 1, true);
    var s2 := s0.(tasks := [Task(Ready, -1, false, 1, 1, 0), u], pubs := map[1 := Pub(0, 5, 1, 1, true)]);
    assert s2.tasks == s1.tasks[0 := s2.tasks[0]] && s2.pubs == s1.pubs[1 := Pub(0, 5, 1, 1, true)];
    StoreIdentity(r, s2, 1, 0, 1, 1, true);
    assert s2.pubs - {1} == map[] && s2.ident[0 := 1] == s2.ident && s2.q[1] + {0} == {0};
    assert s2.q[1 := {0}] == [{}, {0}];
  }

  lemma RunsElsewhere(r: iset<State>)
    requires Open(r) && Boot() in r
    ensures Elsewhere() in r
  {
    TwoPublishers(r);
    var s := Elsewhere().(tasks := [Task(Ready, -1, false, 1, 1, 0), Elsewhere().tasks[1]], q := [{}, {0}],
                          cpus := [Cpu(1, 1, NO_TASK, Exec), IDLE]);
    Elect(r, s, 1, 0);
    var d := Elected(s, 1, 0);
    EnterFromIdle(r, d, 1, 0);
    assert s.q[1] - {0} == {};
    assert Elsewhere().q == d.q && Elsewhere().cpus == d.cpus[1 := Cpu(0, 0, NO_TASK, Exec)];
    assert Elsewhere().tasks == d.tasks[0 := Elsewhere().tasks[0]];
  }

  lemma Dies(r: iset<State>)
    requires Full(r) && Boot() in r
    ensures Dead() in r
  {
    RunsElsewhere(r);
    var s0, u := Elsewhere(), Elsewhere().tasks[1];
    Sound(r, s0);
    Extend(r, s0, Meurt(1));
    var s1 := s0.(tasks := [Task(Zombie, 1, false, 1, 1, 0), u]);
    assert s1.tasks == s0.tasks[0 := s1.tasks[0]];
    Sound(r, s1);
    Extend(r, s1, Retire(1));
    Access(r, Goto(s1, 1, CompLoad(ToKernel)), 1, Goto(s1, 1, Prep(NO_TASK)));
    LeaveForIdle(r, s1);
  }

  lemma LeaveForIdle(r: iset<State>, s: State)
    requires Closed(r)
    requires s == Elsewhere().(tasks := [Task(Zombie, 1, false, 1, 1, 0), Elsewhere().tasks[1]])
    requires Goto(s, 1, Prep(NO_TASK)) in r
    ensures Dead() in r
  {
    Announce(r, s, 1, NO_TASK);
    var m := Marked(s, 1, 0);
    Land(r, m, 1, NO_TASK);
    var e := WithCpu(m, 1, Cpu(NO_TASK, NO_TASK, 0, CompLoad(ToExec)));
    assert e == Goto(e, 1, CompLoad(ToExec));
    Vacate(r, e, 1, 0);
    var f := WithTask(e, 0, Task(Zombie, -1, false, 1, 1, 1));
    Acknowledge(r, f, 1, 0, 3);
    assert Dead().tasks == f.tasks && Dead().cpus == f.cpus[1 := IDLE];
  }

  /** The whole run: the slot is recycled while the continuation's publisher,
      which holds no guard, still has the old identity, and the new task's only queue entry is discarded. */
  lemma StrandedIn(r: iset<State>)
    requires Full(r) && Boot() in r
    ensures Stranded() in r
  {
    Dies(r);
    var s0, u := Dead(), Dead().tasks[1];
    Spawn(r, s0, 0, 1, 3);
    var y := Task(Ready, -1, false, 1, 2, -1);
    var s1 := s0.(tasks := [y, u], ident := [2, 1], q := [{}, {0}]);
    assert s0.q[1] + {0} == {0};
    assert s1.tasks == s0.tasks[0 := y] && s1.ident == s0.ident[0 := 2] && s1.q == s0.q[1 := {0}];
    StoreIdentity(r, s1, 2, 0, 1, 1, false);
    var s2 := s1.(ident := [1, 1], pubs := map[]);
    assert s1.q[1] + {0} == {0};
    assert s2.ident == s1.ident[0 := 1] && s2.q == s1.q[1 := {0}] && s2.pubs == s1.pubs - {2};
    OpenElection(r, s2, 1);
    Consume(r, s2, 1, 0);
    var d := Stranded();
    assert d == Taken(s2, 1, 0) by { assert d.q == s2.q[1 := s2.q[1] - {0}]; }
    Sound(r, Goto(d, 1, PickDeq));
    Extend(r, Goto(d, 1, PickDeq), PickNone(1));
    assert Goto(Goto(d, 1, PickDeq), 1, Exec) == d;
  }

  /** A reachable state in which a ready, free task is in no queue, held by no
      CPU and published by no one. */
  lemma StaleIdentityStrandsTask()
    ensures Reachable(Stranded())
    ensures Selectable(Stranded().tasks[0]) && !Accounted(Stranded(), 0)
  {
    var r := iset s | Reachable(s);
    ReachableFull(r);
    BootReachable();
    StrandedIn(r);
  }
}
