/** A wake-up let through on a task that is busy all along: a CPU that had judged
    the task in an earlier wait claims it between the two stores that end its
    hand-off. */
module PassationReveilContre {
  import opened Commun
  import opened Runs
  import opened Passation
  import opened PassationInv
  import opened PassationSure
  import opened PassationPerte
  import opened PassationContre
  import opened PassationRefus
  import opened PassationReveil

  const JUDGING := Cpu(NO_TASK, NO_TASK, NO_TASK, Claim(1, 0, 1))

  /** CPU 1 took the waker's entry, judged task 0 eligible, and is about to claim
      it; CPU 0 has yet to read the state of the task it handed off. */
  function Judged(): State { Woken().(q := [{}, {}], cpus := [Woken().cpus[0], JUDGING]) }

  lemma JudgedIn(r: iset<State>)
    requires Open(r) && Boot() in r
    ensures Judged() in r
  {
    WakerPublishes(r);
    var s := Woken();
    OpenElection(r, s, 1);
    Consume(r, s, 1, 0);
    var d := Taken(s, 1, 0);
    assert s.q[1] - {0} == {};
    assert d.q == [{}, {}];
    JudgeAll(r, d, 1, 0, 1, 0);
    assert Goto(d, 1, Claim(1, 0, 1)) == Judged() by { assert d.cpus[1 := JUDGING] == Judged().cpus; }
  }

  /** CPU 0's own publisher has queued the task on CPU 0. */
  function Requeued(): State
  {
    Judged().(tasks := [Task(Ready, -1, false, 0, 1, 0), Judged().tasks[1]], q := [{0}, {}], cpus := [Cpu(1, 1, NO_TASK, Exec), JUDGING])
  }

  lemma RequeuedIn(r: iset<State>)
    requires Open(r) && Boot() in r
    ensures Requeued() in r
  {
    JudgedIn(r);
    var s := Judged();
    assert s == Goto(s, 0, CompState(0, ToExec)) by { assert s.cpus[0 := s.cpus[0]] == s.cpus; }
    Acknowledge(r, s, 0, 0, 2);
    var s1 := s.(cpus := [Cpu(1, 1, NO_TASK, Exec), JUDGING], pubs := map[2 := Pub(0, 0, 0, 1, false)]);
    assert s1.cpus == s.cpus[0 := Cpu(1, 1, NO_TASK, Exec)] && s1.pubs == s.pubs[2 := Pub(0, 0, 0, 1, false)];
    Queue(r, s1, 0, 1);
    assert Requeued() == Queued(s1, 0) by {
      assert s1.tasks[0 := s1.tasks[0].(rq := 0)] == Requeued().tasks && s1.ident[0 := 1] == s1.ident;
      assert s1.q[0] + {0} == {0} && s1.q[0 := {0}] == Requeued().q;
    }
  }

  /** Publisher 2, the only one, has queued `t` on CPU 0. */
  function Queued(s: State, t: int): State
    requires Slot(s, t) && |s.ident| == |s.tasks| && 0 < |s.q|
  {
    s.(tasks := s.tasks[t := s.tasks[t].(rq := 0)], ident := s.ident[t := s.tasks[t].gen], q := s.q[0 := s.q[0] + {t}], pubs := map[])
  }

  lemma Queue(r: iset<State>, s: State, t: int, to: int)
    requires Closed(r) && s in r && s.pubs == map[2 := Pub(t, 0, 0, to, false)]
    requires Slot(s, t) && Selectable(s.tasks[t]) && IsCpu(s, 0)
    ensures |s.ident| == |s.tasks| && 0 < |s.q| && Queued(s, t) in r
  {
    Sound(r, s);
    ReadIdentity(r, s, 2, t, to, 0, false);
    var s1 := Addressed(s, 2, t, 0, false);
    StoreIdentity(r, s1, 2, t, s.tasks[t].gen, 0, false);
    assert s1.pubs - {2} == map[];
  }

  /** CPU 0 has elected it and handed slot 1 off, which is queued. */
  function Swapped(): State
  {
    Requeued().(tasks := [Task(Ready, 0, false, 0, 1, 0), Task(Ready, -1, false, 0, 1, 0)], q := [{1}, {}],
                cpus := [Cpu(0, 0, NO_TASK, Exec), JUDGING])
  }

  lemma SwappedIn(r: iset<State>)
    requires Open(r) && Boot() in r
    ensures Swapped() in r
  {
    RequeuedIn(r);
    var s := Requeued();
    Elect(r, s, 0, 0);
    var d := s.(tasks := [Task(Ready, 0, false, 0, 1, 0), s.tasks[1]], q := [{}, {}]);
    assert s.q[0] - {0} == {};
    assert d.q == Elected(s, 0, 0).q && d.tasks == Elected(s, 0, 0).tasks;
    SwitchTo(r, d);
    var s1 := d.(tasks := [d.tasks[0], Task(Ready, -1, false, 0, 1, 0)], cpus := [Cpu(0, 0, NO_TASK, Exec), JUDGING],
                 pubs := map[2 := Pub(1, 0, 0, 0, false)]);
    Queue(r, s1, 1, 0);
    assert Swapped() == Queued(s1, 1) by {
      assert s1.tasks[1 := s1.tasks[1].(rq := 0)] == s1.tasks && s1.ident[1 := 1] == s1.ident;
      assert s1.q[0] + {1} == {1} && s1.q[0 := {1}] == Swapped().q;
    }
  }

  lemma SwitchTo(r: iset<State>, d: State)
    requires d == Requeued().(tasks := [Task(Ready, 0, false, 0, 1, 0), Requeued().tasks[1]], q := [{}, {}])
    requires Closed(r) && Goto(d, 0, Prep(0)) in r
    ensures d.(tasks := [d.tasks[0], Task(Ready, -1, false, 0, 1, 0)], cpus := [Cpu(0, 0, NO_TASK, Exec), JUDGING],
               pubs := map[2 := Pub(1, 0, 0, 0, false)]) in r
  {
    Announce(r, d, 0, 0);
    var m := Marked(d, 0, 1);
    Finalise(r, m, 0, 0);
    assert m.tasks[0 := m.tasks[0].(rq := 0, sw := false)] == m.tasks;
    Land(r, m, 0, 0);
    var e := WithCpu(m, 0, Cpu(0, 0, 1, CompLoad(ToExec)));
    assert e == Goto(e, 0, CompLoad(ToExec));
    Vacate(r, e, 0, 1);
    var f := WithTask(e, 1, Task(Ready, -1, false, 0, 1, 0));
    Acknowledge(r, f, 0, 1, 2);
    assert f.tasks == [d.tasks[0], Task(Ready, -1, false, 0, 1, 0)] && f.cpus[0 := Cpu(0, 0, NO_TASK, Exec)] == [Cpu(0, 0, NO_TASK, Exec), JUDGING];
    assert f.pubs[2 := Pub(1, 0, 0, 0, false)] == map[2 := Pub(1, 0, 0, 0, false)];
  }

  /** Asleep again, being handed off by CPU 0 in favour of slot 1. */
  function Leaving(): State
  {
    Swapped().(tasks := [Task(Blocked, 0, true, 0, 1, 0), Task(Ready, 0, false, 0, 1, 0)], q := [{}, {}],
               cpus := [Cpu(1, 1, 0, CompOn(0, ToExec)), JUDGING])
  }

  lemma LeavingIn(r: iset<State>)
    requires Open(r) && Boot() in r
    ensures Leaving() in r
  {
    SwappedIn(r);
    var s := Swapped();
    Sound(r, s);
    Extend(r, s, Endort(0));
    var s1 := s.(tasks := [Task(Blocked, 0, false, 0, 1, 0), s.tasks[1]]);
    assert s1.tasks == s.tasks[0 := s1.tasks[0]];
    Elect(r, s1, 0, 1);
    var d := s1.(tasks := [s1.tasks[0], Task(Ready, 0, false, 0, 1, 0)], q := [{}, {}]);
    assert s1.q[0] - {1} == {};
    assert d.q == Elected(s1, 0, 1).q && d.tasks == Elected(s1, 0, 1).tasks;
    Announce(r, d, 0, 1);
    var m := Marked(d, 0, 0);
    Finalise(r, m, 0, 1);
    assert m.tasks[1 := m.tasks[1].(rq := 0, sw := false)] == m.tasks;
    Land(r, m, 0, 1);
    var e := WithCpu(m, 0, Cpu(1, 1, 0, CompLoad(ToExec)));
    assert e == Goto(e, 0, CompLoad(ToExec));
    LoadPending(r, e, 0, 0);
    assert e.tasks == e.tasks[0 := e.tasks[0]];
    VacateStep(r, e, 0, 0, e.tasks[0], CompRq(0, ToExec));
    assert Leaving().tasks == e.tasks[0 := e.tasks[0].(rq := 0)] && Leaving().cpus == e.cpus[0 := Leaving().cpus[0]];
  }

  const WAKER := Pub(0, 0, 0, 0, true)

  /** The wake-up, the vacated stack, the claim, the flag. */
  function Path4(): seq<State>
  {
    var s := Leaving();
    var s1 := s.(tasks := [Task(Ready, 0, true, 0, 1, 0), s.tasks[1]], pubs := map[5 := WAKER]);
    var s2 := s1.(tasks := [Task(Ready, -1, true, 0, 1, 0), s.tasks[1]], cpus := [Cpu(1, 1, 0, CompSw(0, ToExec)), JUDGING]);
    var s3 := s2.(tasks := [Task(Ready, 1, true, 0, 1, 0), s.tasks[1]],
                  cpus := [s2.cpus[0], Cpu(NO_TASK, NO_TASK, NO_TASK, Check(1, 0, 1, 0))]);
    var s4 := s3.(tasks := [Task(Ready, 1, false, 0, 1, 0), s.tasks[1]], cpus := [Cpu(1, 1, 0, CompState(0, ToExec)), s3.cpus[1]]);
    [s, s1, s2, s3, s4]
  }

  const LABELS4: seq<Label> := [Wake(0, 5, true), CpuNext(0), CpuNext(1), CpuNext(0)]

  lemma TypedHere(s: State)
    requires s in Path4()
    ensures Typed(s)
  {
    forall c | 0 <= c < |s.cpus| ensures CpuTyped(s, s.cpus[c]) { }
  }

  lemma Step0() ensures Move(Path4()[0], LABELS4[0]) == Some(Path4()[1])
  {
    TypedHere(Path4()[0]);
    assert Path4()[0].tasks[0 := Path4()[1].tasks[0]] == Path4()[1].tasks && Path4()[0].pubs[5 := WAKER] == map[5 := WAKER];
  }

  lemma Step1() ensures Move(Path4()[1], LABELS4[1]) == Some(Path4()[2])
  {
    TypedHere(Path4()[1]);
    assert Path4()[1].tasks[0 := Path4()[2].tasks[0]] == Path4()[2].tasks && Path4()[1].cpus[0 := Path4()[2].cpus[0]] == Path4()[2].cpus;
  }

  lemma Step2() ensures Move(Path4()[2], LABELS4[2]) == Some(Path4()[3])
  {
    TypedHere(Path4()[2]);
    assert Path4()[2].tasks[0 := Path4()[3].tasks[0]] == Path4()[3].tasks && Path4()[2].cpus[1 := Path4()[3].cpus[1]] == Path4()[3].cpus;
  }

  lemma Step3() ensures Move(Path4()[3], LABELS4[3]) == Some(Path4()[4])
  {
    TypedHere(Path4()[3]);
    assert Path4()[3].tasks[0 := Path4()[4].tasks[0]] == Path4()[4].tasks && Path4()[3].cpus[0 := Path4()[4].cpus[0]] == Path4()[4].cpus;
  }

  lemma ReachLeaving() returns (states: seq<State>, labels: seq<Label>)
    ensures Run(states, labels) && states[|labels|] == Leaving()
  {
    var r := iset s | Reachable(s);
    ReachableFull(r);
    BootReachable();
    LeavingIn(r);
    states, labels :| Run(states, labels) && Leaving() == states[|labels|];
  }

  /** The run in which the waker's publisher has not moved. */
  lemma Environment() returns (env: seq<State>, lenv: seq<Label>, n: nat)
    ensures Run(env, lenv) && |lenv| == n + 4 && env[n] == Leaving() && lenv[n] == Wake(0, 5, true)
    ensures StandsStill(env, lenv, 5, n + 2, n + 4) && AllBusy(env, 0, n, n + 4) && ClaimedOver(env, 0, n + 2, n + 4)
    ensures env[n + 2].pubs[5] == WAKER && env[n + 2].tasks[0].st.Ready?
  {
    var ss, ls := ReachLeaving();
    n := |ls|;
    Path4Leads();
    env, lenv := Extended(ss, ls, n, Path4(), LABELS4);
    forall i | 0 <= i <= 4 ensures env[n + i] == Path4()[i] { assert env[n + i] == Path4()[n + i - n]; }
    forall m | n <= m <= n + 4 ensures Slot(env[m], 0) && Busy(env[m].tasks[0]) { assert env[m] == Path4()[m - n]; }
    forall m | n <= m < n + 4 ensures !lenv[m].PubNext? { assert lenv[m] == LABELS4[m - n]; }
    assert lenv[n] == LABELS4[n - n];
  }

  lemma Path4Leads()
    ensures Path(Move, Path4(), LABELS4)
  {
    Step0();
    Step1();
    Step2();
    Step3();
  }

  /** In no queue, asleep, owned and leaving: the wake-up's publisher begins at
      `b + 1`, and the task ends up in a queue without having been free once. */
  lemma BusyWakeCanGetThrough() returns (states: seq<State>, labels: seq<Label>, b: nat)
    ensures Run(states, labels) && b < |labels| && states[b] == Leaving() && labels[b] == Wake(0, 5, true)
    ensures AllBusy(states, 0, b, |labels|) && |states[|labels|].q| > 0 && 0 in states[|labels|].q[0]
  {
    var env, lenv, n := Environment();
    b := n;
    var a := n + 2;
    states, labels := ClaimedOverLetsThrough(env, lenv, 5, 0, a, n + 4);
    forall m | n <= m <= a ensures states[m] == env[m] { assert states[m] == states[..a + 1][m]; }
    assert labels[n] == labels[..a][n] == lenv[..a][n];
  }
}
