/** A retirement request that reaches the wrong task: between the killer's read
    of on_cpu and its store, the CPU has gone on to another task. */
module RetraiteContre {
  import opened Passation
  import opened PassationInv
  import opened PassationElection
  import opened PassationContre
  import opened Retraite

  predicate SysVisit(s: Sys) { true }

  predicate SysStep(s: Sys, a: Act) { true }

  /** A set of sound systems that no step leaves. */
  ghost predicate SysClosed(w: iset<Sys>)
  {
    && (forall s {:trigger SysVisit(s)} :: SysVisit(s) && s in w ==> Good(s))
    && (forall s, a {:trigger SysStep(s, a)} :: SysStep(s, a) && s in w && Can(s, a) ==> Do(s, a) in w)
  }

  ghost predicate SysReachable(s: Sys)
  {
    exists states: seq<Sys>, acts: seq<Act> :: Retraite.Run(states, acts) && s == states[|acts|]
  }

  lemma SysReachableStep(s: Sys, a: Act)
    requires SysReachable(s) && Can(s, a)
    ensures SysReachable(Do(s, a))
  {
    var states: seq<Sys>, acts: seq<Act> :| Retraite.Run(states, acts) && s == states[|acts|];
    var states', acts' := states + [Do(s, a)], acts + [a];
    forall i | 0 <= i < |acts'| ensures Can(states'[i], acts'[i]) && states'[i + 1] == Do(states'[i], acts'[i]) {
      if i < |acts| { assert Can(states[i], acts[i]) && states[i + 1] == Do(states[i], acts[i]); }
    }
    assert Retraite.Run(states', acts') && Do(s, a) == states'[|acts'|];
  }

  lemma SysReachableClosed(w: iset<Sys>)
    requires w == iset s | SysReachable(s)
    ensures SysClosed(w)
  {
    forall s | SysVisit(s) && s in w ensures Good(s) {
      var states: seq<Sys>, acts: seq<Act> :| Retraite.Run(states, acts) && s == states[|acts|];
      RunGood(states, acts, |acts|);
    }
    forall s, a | SysStep(s, a) && s in w && Can(s, a) ensures Do(s, a) in w { SysReachableStep(s, a); }
  }

  lemma SysExtend(w: iset<Sys>, s: Sys, a: Act)
    requires SysClosed(w) && s in w && Can(s, a)
    ensures Do(s, a) in w
  {
    assert SysStep(s, a);
  }

  /** The hand-off state `b` with no task in a frontier or a death and no CPU in
      the middle of starting a task. */
  function Lift(b: State, cond: seq<bool>, flag: seq<bool>, asks: map<nat, Ask>): Sys
  {
    Sys(b, cond, seq(|b.tasks|, _ => Rest), flag, seq(|b.cpus|, _ => NotFin), asks)
  }

  ghost predicate Lifted(w: iset<Sys>, b: State, cond: seq<bool>, asks: map<nat, Ask>)
  {
    exists flag :: Lift(b, cond, flag, asks) in w
  }

  /** Starting a task: the three accesses after the hand-off flag. */
  lemma Started(w: iset<Sys>, s: Sys, c: int, t: int, due: bool) returns (flag: seq<bool>)
    requires SysClosed(w) && s in w && Shaped(s) && IsCpu(s.b, c) && Slot(s.b, t)
    requires s.fin == seq(|s.b.cpus|, _ => NotFin)[c := FinState(t, due)]
    ensures s.(flag := flag, fin := seq(|s.b.cpus|, _ => NotFin)) in w
  {
    var none := seq(|s.b.cpus|, _ => NotFin);
    SysExtend(w, s, FinNext(c));
    var z := s.b.tasks[t].st.Zombie?;
    var s1 := s.(fin := none[c := if z then FinStore(t, due, true) else FinCond(t, due)]);
    assert FinStep(s, c) == s1 by { assert s.fin[c := s1.fin[c]] == s1.fin; }
    var v := z || s.cond[t];
    var s2 := s.(fin := none[c := FinStore(t, due, v)]);
    if !z {
      SysExtend(w, s1, FinNext(c));
      assert FinStep(s1, c) == s2 by { assert s1.fin[c := FinStore(t, due, v)] == s2.fin; }
    }
    SysExtend(w, s2, FinNext(c));
    flag := s.flag[c := v];
    assert FinStep(s2, c) == s.(flag := flag, fin := none) by { assert s2.fin[c := NotFin] == none; }
  }

  lemma LiftStep(w: iset<Sys>, b: State, cond: seq<bool>, asks: map<nat, Ask>, l: Label)
    requires SysClosed(w) && Lifted(w, b, cond, asks) && Enabled(b, l) && !Ends(l)
    requires l.Recycle? ==> asks == map[] && forall t :: 0 <= t < |cond| ==> !cond[t]
    ensures Lifted(w, Apply(b, l), cond, asks)
  {
    var flag :| Lift(b, cond, flag, asks) in w;
    var s := Lift(b, cond, flag, asks);
    assert SysVisit(s);
    LiftCan(s, l);
    SysExtend(w, s, Base(l));
    var s' := BaseStep(s, l);
    StepSizes(b, l);
    if l.CpuNext? && b.cpus[l.c].pc.Fin? {
      assert CpuTyped(b, b.cpus[l.c]);
      var flag' := Started(w, s', l.c, b.cpus[l.c].pc.t, Due(s, b.cpus[l.c].pc.t));
      assert Lift(Apply(b, l), cond, flag', asks) == s'.(flag := flag', fin := seq(|s'.b.cpus|, _ => NotFin));
    } else {
      assert Lift(Apply(b, l), cond, flag, asks) == s' by {
        if l.Recycle? { assert cond[l.t := false] == cond && s.tpc[l.t := Rest] == s.tpc; }
      }
    }
  }

  lemma LiftCan(s: Sys, l: Label)
    requires Good(s) && Enabled(s.b, l) && !Ends(l) && (l.Recycle? ==> s.asks == map[])
    requires s.tpc == seq(|s.b.tasks|, _ => Rest) && s.fin == seq(|s.b.cpus|, _ => NotFin)
    ensures Can(s, Base(l))
  {
    if l.Endort? || l.Annule? || l.Retire? { assert CpuTyped(s.b, s.b.cpus[l.c]); }
  }

  /** The hand-off states that lift are closed, so that a run of the hand-off
      built in such a set is one of the whole system. */
  lemma LiftClosed(w: iset<Sys>, r: iset<State>, cond: seq<bool>, asks: map<nat, Ask>)
    requires SysClosed(w) && r == iset b | Lifted(w, b, cond, asks)
    ensures Closed(r)
    ensures asks == map[] && (forall t :: 0 <= t < |cond| ==> !cond[t]) ==> Open(r)
  {
    forall b | Visit(b) && b in r ensures Inv(b) {
      var flag :| Lift(b, cond, flag, asks) in w;
      assert SysVisit(Lift(b, cond, flag, asks));
    }
    forall b, l | Step(b, l) && b in r && Enabled(b, l) && !l.Recycle? && !Ends(l) ensures Apply(b, l) in r {
      LiftStep(w, b, cond, asks, l);
    }
    if asks == map[] && forall t :: 0 <= t < |cond| ==> !cond[t] {
      forall b, l | Step(b, l) && b in r && Enabled(b, l) && l.Recycle? ensures Apply(b, l) in r {
        LiftStep(w, b, cond, asks, l);
      }
    }
  }

  const START := Lift(Boot(), [false, false], [false, false], map[])

  lemma StartReachable()
    ensures SysReachable(START)
  {
    assert Init(Boot()) by { assert CpuTyped(Boot(), IDLE); }
    var acts: seq<Act> := [];
    assert Retraite.Run([START], acts) && START == [START][|acts|];
  }

  /** Slot 0 runs on CPU 0; a killer condemns it, reads it ready, reads CPU 0 as
      its owner, and has only the flag left to store. */
  lemma Asks(w: iset<Sys>, flag: seq<bool>)
    requires SysClosed(w) && Lift(Paired(), [false, false], flag, map[]) in w
    ensures Lift(Paired(), [true, false], flag, map[7 := AStore(0, 0)]) in w
  {
    var s0 := Lift(Paired(), [false, false], flag, map[]);
    assert SysVisit(s0);
    SysExtend(w, s0, NewAsk(7, 0));
    var s1 := s0.(asks := map[7 := AMark(0)]);
    assert Do(s0, NewAsk(7, 0)) == s1;
    SysExtend(w, s1, AskNext(7));
    var s2 := Lift(Paired(), [true, false], flag, map[7 := AState(0)]);
    assert AskStep(s1, 7) == s2 by { assert [false, false][0 := true] == [true, false]; }
    SysExtend(w, s2, AskNext(7));
    var s3 := s2.(asks := map[7 := ACpu(0)]);
    assert AskStep(s2, 7) == s3;
    SysExtend(w, s3, AskNext(7));
    assert AskStep(s3, 7) == s3.(asks := map[7 := AStore(0, 0)]);
  }

  /** Meanwhile slot 0 goes to sleep and slot 1 takes CPU 0 over. */
  lemma LeavesMeanwhile(w: iset<Sys>) returns (flag: seq<bool>)
    requires SysClosed(w) && START in w
    ensures Lift(Asleep(), [true, false], flag, map[7 := AStore(0, 0)]) in w
  {
    var r0 := iset b | Lifted(w, b, [false, false], map[]);
    assert Lifted(w, Boot(), [false, false], map[]);
    LiftClosed(w, r0, [false, false], map[]);
    PairedIn(r0);
    var before :| Lift(Paired(), [false, false], before, map[]) in w;
    Asks(w, before);
    var asks := map[7 := AStore(0, 0)];
    var r1 := iset b | Lifted(w, b, [true, false], asks);
    assert Lifted(w, Paired(), [true, false], asks);
    LiftClosed(w, r1, [true, false], asks);
    FallsAsleep(r1);
    flag :| Lift(Asleep(), [true, false], flag, asks) in w;
  }

  /** CPU 0 is flagged while its current task is slot 1, ready and never
      condemned; the condemned one, slot 0, sleeps on no CPU. */
  predicate WrongTask(s: Sys)
  {
    && |s.b.cpus| == 2 && |s.b.tasks| == 2 && Shaped(s) && s.flag[0]
    && s.b.cpus[0].cur == 1 && s.b.tasks[1].st.Ready? && !s.cond[1]
    && s.cond[0] && s.b.tasks[0].st.Blocked? && s.b.tasks[0].onCpu == -1
  }

  lemma StoreHitsSuccessor(w: iset<Sys>, flag: seq<bool>) returns (s: Sys)
    requires SysClosed(w) && Lift(Asleep(), [true, false], flag, map[7 := AStore(0, 0)]) in w
    ensures s in w && WrongTask(s)
  {
    var last := Lift(Asleep(), [true, false], flag, map[7 := AStore(0, 0)]);
    assert SysVisit(last);
    SysExtend(w, last, AskNext(7));
    s := AskStep(last, 7);
  }

  /** The request raised for a condemned task can reach the CPU's next one. */
  lemma RequestCanHitSuccessor() returns (s: Sys)
    ensures SysReachable(s) && WrongTask(s)
  {
    var w := iset s | SysReachable(s);
    SysReachableClosed(w);
    StartReachable();
    var flag := LeavesMeanwhile(w);
    s := StoreHitsSuccessor(w, flag);
  }
}
