/** What publishers, electors and the remet_si_perdue path must have seen before
    they act, over whole runs: who may put a task in a queue, and when a wake-up
    is refused. */
module PassationRefus {
  import opened Runs
  import opened Passation
  import opened PassationInv
  import opened PassationSure
  import opened PassationElection

  // ---- Publishers ----

  /** What `publie_pret` asks of the task before its first store. */
  predicate Asked(k: nat, x: Task)
  {
    if k == 0 then x.st.Ready? else if k == 1 then x.onCpu < 0 else !x.sw
  }

  /** A publisher's own progress in one step. */
  predicate PubMoves(s: State, s': State, p: nat)
    requires p in s.pubs && p in s'.pubs && Slot(s, s.pubs[p].t) && |s'.tasks| == |s.tasks|
  {
    var x, y, t := s.pubs[p], s'.pubs[p], s.pubs[p].t;
    && y.t == t && y.held == x.held
    && (y != x ==>
        && y.k == x.k + 1
        && (x.k < 3 ==> Asked(x.k, s.tasks[t]) && y.target == x.target)
        && (x.k == 3 ==> s'.tasks[t].rq == y.target)
        && (x.k > 3 ==> y.target == x.target)
        && (x.k == 4 ==> y.g == s.tasks[t].gen)
        && (x.k > 4 ==> y.g == x.g)
        && (x.k == 5 ==> t < |s'.ident| && s'.ident[t] == x.g))
  }

  lemma PubMovesStep(s: State, l: Label, p: nat)
    requires Enabled(s, l) && p in s.pubs && p in Apply(s, l).pubs
    ensures |Apply(s, l).tasks| == |s.tasks| && PubMoves(s, Apply(s, l), p)
  {
    StepSizes(s, l);
    if l.PubNext? {
      if l.p == p { assert s.pubs[p].k <= 6; }
    } else {
      OthersPublish(s, l, p);
    }
  }

  lemma OthersPublish(s: State, l: Label, p: nat)
    requires Enabled(s, l) && p in s.pubs && !l.PubNext?
    ensures p in Apply(s, l).pubs && Apply(s, l).pubs[p] == s.pubs[p]
  {
    if l.CpuNext? { CpuKeepsPubs(s, l.c); }
  }

  lemma CpuKeepsPubs(s: State, c: int)
    requires Typed(s) && IsCpu(s, c)
    ensures CpuStep(s, c).pubs == s.pubs
  {
    assert CpuTyped(s, s.cpus[c]);
  }

  /** Publisher `p` of `t` began in the step before state `b` and is at work in
      every state from `b` to `n`. */
  ghost predicate Publishes(states: seq<State>, p: nat, t: int, b: nat, n: nat)
  {
    && b <= n < |states|
    && (forall m :: b <= m <= n ==> Slot(states[m], t) && p in states[m].pubs && states[m].pubs[p].t == t)
    && states[b].pubs[p].k == 0
  }

  ghost predicate PubTrace(states: seq<State>, p: nat, t: int, b: nat, n: nat)
  {
    && Publishes(states, p, t, b, n)
    && forall m :: b <= m < n ==> |states[m + 1].tasks| == |states[m].tasks| && PubMoves(states[m], states[m + 1], p)
  }

  lemma Traced(states: seq<State>, labels: seq<Label>, p: nat, t: int, b: nat, n: nat)
    requires Run(states, labels) && Publishes(states, p, t, b, n)
    ensures PubTrace(states, p, t, b, n)
  {
    forall m | b <= m < n ensures |states[m + 1].tasks| == |states[m].tasks| && PubMoves(states[m], states[m + 1], p) {
      RunAt(states, labels, m);
      PubMovesStep(states[m], labels[m], p);
    }
  }

  lemma {:induction false} TargetKept(states: seq<State>, p: nat, t: int, b: nat, m: nat, n: nat)
    requires PubTrace(states, p, t, b, n) && b <= m <= n && states[m].pubs[p].k > 3
    ensures states[n].pubs[p].target == states[m].pubs[p].target && states[n].pubs[p].k >= states[m].pubs[p].k
    ensures states[m].pubs[p].k > 4 ==> states[n].pubs[p].g == states[m].pubs[p].g
    decreases n - m
  {
    if m < n {
      assert PubMoves(states[m], states[m + 1], p);
      TargetKept(states, p, t, b, m + 1, n);
    }
  }

  /** A publisher past its checks has seen, since it began and in this order, the
      task ready, without owner, and not leaving a CPU. */
  lemma PublisherSaw(states: seq<State>, labels: seq<Label>, p: nat, t: int, b: nat, n: nat) returns (r: seq<nat>)
    requires Run(states, labels) && Publishes(states, p, t, b, n) && states[n].pubs[p].k >= 3
    ensures |r| == 3 && b <= r[0] < r[1] < r[2] < n
    ensures forall j :: 0 <= j < 3 ==> Asked(j, states[r[j]].tasks[t])
  {
    Traced(states, labels, p, t, b, n);
    r := Passages(states, p, t, b, n);
    r := r[..3];
  }

  /** ... and, when it sets the bit, has stored its queue in the task and then the
      identity it read in the table. */
  lemma PublisherStored(states: seq<State>, labels: seq<Label>, p: nat, t: int, b: nat, n: nat) returns (a: nat, g: nat, i: nat)
    requires Run(states, labels) && Publishes(states, p, t, b, n) && states[n].pubs[p].k == 6
    ensures b <= a < g < i < n
    ensures states[a + 1].tasks[t].rq == states[n].pubs[p].target
    ensures states[n].pubs[p].g == states[g].tasks[t].gen
    ensures t < |states[i + 1].ident| && states[i + 1].ident[t] == states[n].pubs[p].g
  {
    Traced(states, labels, p, t, b, n);
    var r := Passages(states, p, t, b, n);
    a, g, i := r[3], r[4], r[5];
    assert PubMoves(states[a], states[a + 1], p) && PubMoves(states[g], states[g + 1], p) && PubMoves(states[i], states[i + 1], p);
    TargetKept(states, p, t, b, a + 1, n);
    TargetKept(states, p, t, b, g + 1, n);
    TargetKept(states, p, t, b, i + 1, n);
  }

  /** The states in which a publisher's accesses took place. */
  lemma Passages(states: seq<State>, p: nat, t: int, b: nat, n: nat) returns (r: seq<nat>)
    requires PubTrace(states, p, t, b, n)
    ensures |r| == states[n].pubs[p].k
    ensures forall j :: 0 <= j < |r| ==> b <= r[j] < n && states[r[j]].pubs[p].k == j && states[r[j] + 1].pubs[p].k == j + 1
    ensures forall j :: 0 <= j < |r| && j < 3 ==> Asked(j, states[r[j]].tasks[t])
    ensures forall i, j :: 0 <= i < j < |r| ==> r[i] < r[j]
  {
    forall m: nat | b <= m < n
      ensures PubPos(states, p, m + 1) == PubPos(states, p, m)
        || (PubPos(states, p, m + 1) == PubPos(states, p, m) + 1 && PassesAt(states, p, t, m, PubPos(states, p, m)))
    {
      assert PubMoves(states[m], states[m + 1], p);
    }
    r := Climb((m: nat) => PubPos(states, p, m), (j: nat, m: nat) => PassesAt(states, p, t, m, j), b, n);
    forall j | 0 <= j < |r| ensures PassesAt(states, p, t, r[j], j) {
    }
  }

  function PubPos(states: seq<State>, p: nat, m: nat): nat
  {
    if m < |states| && p in states[m].pubs then states[m].pubs[p].k else 0
  }

  predicate PassesAt(states: seq<State>, p: nat, t: int, m: nat, j: nat)
  {
    && m + 1 < |states| && p in states[m].pubs && p in states[m + 1].pubs && Slot(states[m], t)
    && states[m].pubs[p].k == j && states[m + 1].pubs[p].k == j + 1
    && (j < 3 ==> Asked(j, states[m].tasks[t]))
  }

  // ---- Entries of the queues ----

  /** A task enters a queue by a publisher past its stores, by remet_si_perdue, or
      by the return of a stolen entry; never otherwise. */
  lemma QueueGrows(s: State, l: Label, d: int, t: int)
    requires Enabled(s, l) && IsCpu(s, d)
    ensures |Apply(s, l).q| == |s.q|
    ensures t in Apply(s, l).q[d] && t !in s.q[d] ==>
              || (l.PubNext? && s.pubs[l.p].t == t && s.pubs[l.p].k == 6 && s.pubs[l.p].target == d)
              || (l.CpuNext? && Puts(s.cpus[l.c].pc, d, t))
  {
    if l.CpuNext? { CpuQueues(s, l.c, d, t); }
    else if l.PubNext? { assert s.pubs[l.p].k <= 6; }
  }

  /** About to set the bit of `t` in the queue of `d`. */
  predicate Puts(pc: Pc, d: int, t: int)
  {
    || (pc.Remet? && pc.k == 6 && pc.rq == d && pc.t == t)
    || (pc.PutBack? && pc.k == 1 && pc.src == d && pc.t == t)
  }

  lemma CpuQueues(s: State, c: int, d: int, t: int)
    requires Typed(s) && IsCpu(s, c) && IsCpu(s, d)
    ensures |CpuStep(s, c).q| == |s.q|
    ensures t in CpuStep(s, c).q[d] ==> t in s.q[d] || Puts(s.cpus[c].pc, d, t)
    ensures t in s.q[d] ==> t in CpuStep(s, c).q[d]
  {
    assert CpuTyped(s, s.cpus[c]);
  }

  /** An entry leaves its queue exactly when a CPU takes it, into its hands. */
  lemma QueueShrinks(s: State, l: Label, d: int, t: int)
    requires Enabled(s, l) && IsCpu(s, d) && t in s.q[d]
    ensures |Apply(s, l).q| == |s.q|
    ensures t !in Apply(s, l).q[d] <==> l == Dequeue(d, t) || (l.Steal? && l.donor == d && l.t == t)
    ensures t !in Apply(s, l).q[d] ==> Apply(s, l).cpus[l.c].pc == Take(d, t)
  {
    if l.CpuNext? { CpuQueues(s, l.c, d, t); }
  }

  // ---- The election ----

  /** Between the entry taken from the queue of `src` and the switch to `t`. */
  predicate Electing(pc: Pc, src: int, t: int)
  {
    match pc
    case Judge(x, u, _, _) => x == src && u == t
    case Claim(x, u, _) => x == src && u == t
    case Check(x, u, _, _) => x == src && u == t
    case StealRq(u) => u == t
    case Prep(u) => u == t
    case _ => false
  }

  function Stage(pc: Pc, c: int, src: int): nat
  {
    match pc
    case Judge(_, _, _, k) => k
    case Claim(_, _, _) => 4
    case Check(_, _, _, k) => 5 + k
    case StealRq(_) => 7
    case Prep(_) => if src == c then 7 else 8
    case _ => 0
  }

  /** What the election asks of the task at each stage: three looks and the queue
      number, then the claim and two more looks; a thief stores its number. */
  predicate Sought(j: nat, c: int, src: int, x: Task, y: Task)
  {
    if j == 0 || j == 5 then x.st.Ready?
    else if j == 1 then x.onCpu < 0
    else if j == 2 || j == 6 then !x.sw
    else if j == 3 then x.rq == src
    else if j == 4 then x.onCpu == -1 && y.onCpu == c
    else y.rq == c
  }

  predicate ElectMoves(s: State, s': State, c: int, src: int, t: int)
    requires IsCpu(s, c) && |s'.cpus| == |s.cpus| && Slot(s, t) && |s'.tasks| == |s.tasks|
  {
    var j, j' := Stage(s.cpus[c].pc, c, src), Stage(s'.cpus[c].pc, c, src);
    j' == j || (j' == j + 1 && Sought(j, c, src, s.tasks[t], s'.tasks[t]))
  }

  lemma ElectMovesStep(s: State, l: Label, c: int, src: int, t: int)
    requires Enabled(s, l) && IsCpu(s, c) && Slot(s, t) && Electing(s.cpus[c].pc, src, t)
    requires |Apply(s, l).cpus| == |s.cpus| && |Apply(s, l).tasks| == |s.tasks| && Electing(Apply(s, l).cpus[c].pc, src, t)
    requires s.cpus[c].pc.StealRq? ==> src != c
    ensures ElectMoves(s, Apply(s, l), c, src, t)
    ensures Apply(s, l).cpus[c].pc.StealRq? ==> src != c
  {
    assert CpuTyped(s, s.cpus[c]);
    if !Moves(l) { OthersStand(s, l); } else if l.c != c { MovesMild(s, l); } else if l.CpuNext? { PickElects(s, c, src, t); }
  }

  lemma PickElects(s: State, c: int, src: int, t: int)
    requires Typed(s) && IsCpu(s, c) && Slot(s, t) && Electing(s.cpus[c].pc, src, t) && (s.cpus[c].pc.StealRq? ==> src != c)
    ensures |CpuStep(s, c).cpus| == |s.cpus| && |CpuStep(s, c).tasks| == |s.tasks|
    ensures Electing(CpuStep(s, c).cpus[c].pc, src, t) ==>
              ElectMoves(s, CpuStep(s, c), c, src, t) && (CpuStep(s, c).cpus[c].pc.StealRq? ==> src != c)
  {
    assert CpuTyped(s, s.cpus[c]);
  }

  /** CPU `c` elects `t` from the queue of `src`, from state `b` to `n`. */
  ghost predicate Elects(states: seq<State>, c: int, src: int, t: int, b: nat, n: nat)
  {
    && b <= n < |states|
    && (forall m :: b <= m <= n ==> IsCpu(states[m], c) && Slot(states[m], t) && Electing(states[m].cpus[c].pc, src, t))
    && states[b].cpus[c].pc.Judge? && states[b].cpus[c].pc.k == 0
  }

  /** One step of the election: in order, and to StealRq for a theft only. */
  predicate ElectStep(s: State, s': State, c: int, src: int, t: int)
    requires IsCpu(s, c) && IsCpu(s', c) && Slot(s, t)
  {
    (s.cpus[c].pc.StealRq? ==> src != c) ==>
      && |s'.cpus| == |s.cpus| && |s'.tasks| == |s.tasks|
      && ElectMoves(s, s', c, src, t) && (s'.cpus[c].pc.StealRq? ==> src != c)
  }

  lemma ElectStepAt(states: seq<State>, labels: seq<Label>, c: int, src: int, t: int, m: nat)
    requires Run(states, labels) && m < |labels| && IsCpu(states[m], c) && IsCpu(states[m + 1], c) && Slot(states[m], t)
    requires Electing(states[m].cpus[c].pc, src, t) && Electing(states[m + 1].cpus[c].pc, src, t)
    ensures ElectStep(states[m], states[m + 1], c, src, t)
  {
    RunAt(states, labels, m);
    StepSizes(states[m], labels[m]);
    if states[m].cpus[c].pc.StealRq? ==> src != c { ElectMovesStep(states[m], labels[m], c, src, t); }
  }

  lemma {:induction false} StealsOnly(states: seq<State>, c: int, src: int, t: int, b: nat, n: nat)
    requires Elects(states, c, src, t, b, n) && forall m :: b <= m < n ==> ElectStep(states[m], states[m + 1], c, src, t)
    ensures states[n].cpus[c].pc.StealRq? ==> src != c
    decreases n
  {
    if n > b {
      StealsOnly(states, c, src, t, b, n - 1);
      assert ElectStep(states[n - 1], states[n - 1 + 1], c, src, t);
    }
  }

  predicate SoughtAt(states: seq<State>, c: int, src: int, t: int, m: nat, j: nat)
  {
    m + 1 < |states| && Slot(states[m], t) && Slot(states[m + 1], t) && Sought(j, c, src, states[m].tasks[t], states[m + 1].tasks[t])
  }

  function StageAt(states: seq<State>, c: int, src: int, m: nat): nat
  {
    if m < |states| && IsCpu(states[m], c) then Stage(states[m].cpus[c].pc, c, src) else 0
  }

  /** A CPU about to switch to the task it elected has seen, since it began and in
      this order: the task ready, without owner, not leaving, and of the queue its
      entry came from; has then claimed it; has then seen it ready and not
      leaving; and, if it stole it, has put it on its own queue's number. */
  lemma ElectorSaw(states: seq<State>, labels: seq<Label>, c: int, src: int, t: int, b: nat, n: nat) returns (r: seq<nat>)
    requires Run(states, labels) && Elects(states, c, src, t, b, n) && states[n].cpus[c].pc.Prep?
    ensures |r| == (if src == c then 7 else 8)
    ensures forall j :: 0 <= j < |r| ==> b <= r[j] < n && SoughtAt(states, c, src, t, r[j], j)
    ensures forall i, j :: 0 <= i < j < |r| ==> r[i] < r[j]
  {
    forall m: nat | b <= m < n ensures ElectStep(states[m], states[m + 1], c, src, t) {
      ElectStepAt(states, labels, c, src, t, m);
    }
    forall m: nat | b <= m < n
      ensures StageAt(states, c, src, m + 1) == StageAt(states, c, src, m)
        || (StageAt(states, c, src, m + 1) == StageAt(states, c, src, m) + 1 && SoughtAt(states, c, src, t, m, StageAt(states, c, src, m)))
    {
      StealsOnly(states, c, src, t, b, m);
      assert ElectStep(states[m], states[m + 1], c, src, t);
    }
    r := Climb((m: nat) => StageAt(states, c, src, m), (j: nat, m: nat) => SoughtAt(states, c, src, t, m, j), b, n);
  }

  // ---- An entry put back ----

  predicate Returning(pc: Pc, t: int, g: nat) { pc.Remet? && pc.t == t && pc.g == g }

  /** What remet_si_perdue asks, or does, at each access. */
  predicate Redone(j: nat, g: nat, t: int, s: State, s': State, rq: int)
    requires Slot(s, t)
  {
    if j < 3 then Asked(j, s.tasks[t])
    else if j == 3 then s.tasks[t].rq == rq
    else if j == 4 then !(0 <= rq < |s.q| && t in s.q[rq] && t < |s.ident| && s.ident[t] == g)
    else t < |s'.ident| && s'.ident[t] == g
  }

  predicate RemetMoves(s: State, s': State, c: int, t: int, g: nat)
    requires IsCpu(s, c) && IsCpu(s', c) && Slot(s, t) && Returning(s.cpus[c].pc, t, g) && Returning(s'.cpus[c].pc, t, g)
  {
    var x, y := s.cpus[c].pc, s'.cpus[c].pc;
    y != x ==> y.k == x.k + 1 && Redone(x.k, g, t, s, s', y.rq) && (x.k > 3 ==> y.rq == x.rq)
  }

  lemma RemetMovesAt(states: seq<State>, labels: seq<Label>, c: int, t: int, g: nat, m: nat)
    requires Run(states, labels) && m < |labels| && IsCpu(states[m], c) && IsCpu(states[m + 1], c) && Slot(states[m], t)
    requires Returning(states[m].cpus[c].pc, t, g) && Returning(states[m + 1].cpus[c].pc, t, g)
    ensures RemetMoves(states[m], states[m + 1], c, t, g)
  {
    RunAt(states, labels, m);
    RemetMovesStep(states[m], labels[m], c, t, g);
  }

  lemma RemetMovesStep(s: State, l: Label, c: int, t: int, g: nat)
    requires Enabled(s, l) && IsCpu(s, c) && Slot(s, t) && Returning(s.cpus[c].pc, t, g)
    requires IsCpu(Apply(s, l), c) && Returning(Apply(s, l).cpus[c].pc, t, g)
    ensures RemetMoves(s, Apply(s, l), c, t, g)
  {
    assert CpuTyped(s, s.cpus[c]);
    if !Moves(l) { OthersStand(s, l); } else if l.c != c { MovesMild(s, l); }
  }

  /** CPU `c` puts back the entry of `t` it consumed, from state `b` to `n`. */
  ghost predicate PutsBack(states: seq<State>, c: int, t: int, g: nat, b: nat, n: nat)
  {
    && b <= n < |states|
    && (forall m :: b <= m <= n ==> IsCpu(states[m], c) && Slot(states[m], t) && Returning(states[m].cpus[c].pc, t, g))
    && states[b].cpus[c].pc.k == 0
  }

  ghost predicate RemetTrace(states: seq<State>, c: int, t: int, g: nat, b: nat, n: nat)
  {
    PutsBack(states, c, t, g, b, n) && forall m :: b <= m < n ==> RemetMoves(states[m], states[m + 1], c, t, g)
  }

  lemma {:induction false} QueueKept(states: seq<State>, c: int, t: int, g: nat, b: nat, m: nat, n: nat)
    requires RemetTrace(states, c, t, g, b, n) && b <= m <= n && states[m].cpus[c].pc.k > 3
    ensures states[n].cpus[c].pc.rq == states[m].cpus[c].pc.rq
    decreases n - m
  {
    if m < n {
      assert RemetMoves(states[m], states[m + 1], c, t, g);
      QueueKept(states, c, t, g, b, m + 1, n);
    }
  }

  function RemetPos(states: seq<State>, c: int, m: nat): nat
  {
    if m < |states| && IsCpu(states[m], c) && states[m].cpus[c].pc.Remet? then states[m].cpus[c].pc.k else 0
  }

  predicate RedoneAt(states: seq<State>, c: int, t: int, g: nat, m: nat, j: nat)
  {
    && m + 1 < |states| && IsCpu(states[m + 1], c) && states[m + 1].cpus[c].pc.Remet? && states[m + 1].cpus[c].pc.k == j + 1
    && Slot(states[m], t) && Redone(j, g, t, states[m], states[m + 1], states[m + 1].cpus[c].pc.rq)
  }

  /** A CPU about to put a consumed entry back has seen, since it began and in this
      order, the task ready, without owner and not leaving; has then read its
      queue number, and the entry goes to that queue; has then found it not queued
      there under its identity, and stored that identity. */
  lemma RemetSaw(states: seq<State>, labels: seq<Label>, c: int, t: int, g: nat, b: nat, n: nat) returns (r: seq<nat>)
    requires Run(states, labels) && PutsBack(states, c, t, g, b, n) && states[n].cpus[c].pc.k == 6
    ensures |r| == 6 && forall i, j :: 0 <= i < j < 6 ==> r[i] < r[j]
    ensures forall j :: 0 <= j < 6 ==> b <= r[j] < n && Redone(j, g, t, states[r[j]], states[r[j] + 1], states[n].cpus[c].pc.rq)
  {
    forall m: nat | b <= m < n ensures RemetMoves(states[m], states[m + 1], c, t, g) { RemetMovesAt(states, labels, c, t, g, m); }
    forall m: nat | b <= m < n
      ensures RemetPos(states, c, m + 1) == RemetPos(states, c, m)
        || (RemetPos(states, c, m + 1) == RemetPos(states, c, m) + 1 && RedoneAt(states, c, t, g, m, RemetPos(states, c, m)))
    {
      assert RemetMoves(states[m], states[m + 1], c, t, g);
    }
    r := Climb((m: nat) => RemetPos(states, c, m), (j: nat, m: nat) => RedoneAt(states, c, t, g, m, j), b, n);
    forall j | 0 <= j < 6 ensures Redone(j, g, t, states[r[j]], states[r[j] + 1], states[n].cpus[c].pc.rq) {
      assert RedoneAt(states, c, t, g, r[j], j);
      if j >= 3 { QueueKept(states, c, t, g, b, r[j] + 1, n); }
    }
  }

  /** Between the entry taken and its return to the queue it came from. */
  predicate Carries(pc: Pc, t: int)
  {
    (pc.Take? && pc.t == t) || (pc.Look? && pc.t == t) || (pc.Judge? && pc.t == t) || (pc.PutBack? && pc.t == t)
  }

  function Source(pc: Pc): int
  {
    match pc
    case Take(src, _) => src
    case Look(src, _, _) => src
    case Judge(src, _, _, _) => src
    case PutBack(src, _, _, _) => src
    case _ => -1
  }

  lemma SourceStep(s: State, l: Label, c: int, t: int)
    requires Enabled(s, l) && IsCpu(s, c) && Carries(s.cpus[c].pc, t)
    requires IsCpu(Apply(s, l), c) && Carries(Apply(s, l).cpus[c].pc, t)
    ensures Source(Apply(s, l).cpus[c].pc) == Source(s.cpus[c].pc)
  {
    assert CpuTyped(s, s.cpus[c]);
    if !Moves(l) { OthersStand(s, l); } else if l.c != c { MovesMild(s, l); }
  }

  lemma SourceAt(states: seq<State>, labels: seq<Label>, c: int, t: int, m: nat)
    requires Run(states, labels) && m < |labels| && IsCpu(states[m], c) && IsCpu(states[m + 1], c)
    requires Carries(states[m].cpus[c].pc, t) && Carries(states[m + 1].cpus[c].pc, t)
    ensures Source(states[m + 1].cpus[c].pc) == Source(states[m].cpus[c].pc)
  {
    RunAt(states, labels, m);
    SourceStep(states[m], labels[m], c, t);
  }

  function SourceOf(s: State, c: int): int { if IsCpu(s, c) then Source(s.cpus[c].pc) else -1 }

  lemma {:induction false} SourceConstant(states: seq<State>, c: int, b: nat, n: nat)
    requires b <= n < |states| && forall m :: b <= m < n ==> SourceOf(states[m + 1], c) == SourceOf(states[m], c)
    ensures SourceOf(states[n], c) == SourceOf(states[b], c)
  {
    if n > b { SourceConstant(states, c, b, n - 1); assert SourceOf(states[n - 1 + 1], c) == SourceOf(states[n - 1], c); }
  }

  lemma PutBackLands(states: seq<State>, labels: seq<Label>, c: int, n: nat)
    requires Run(states, labels) && n < |labels| && labels[n] == CpuNext(c) && IsCpu(states[n], c)
    requires states[n].cpus[c].pc.PutBack? && states[n].cpus[c].pc.k == 1
    ensures var d := states[n].cpus[c].pc.src; 0 <= d < |states[n + 1].q| && states[n].cpus[c].pc.t in states[n + 1].q[d]
  {
    RunAt(states, labels, n);
    assert CpuTyped(states[n], states[n].cpus[c]);
  }

  /** A stolen entry judged ineligible returns to the queue it was stolen from. */
  lemma StolenReturns(states: seq<State>, labels: seq<Label>, c: int, d: int, t: int, b: nat, n: nat)
    requires Run(states, labels) && b < n < |labels| && labels[b] == Steal(c, d, t)
    requires forall m :: b < m <= n ==> IsCpu(states[m], c) && Carries(states[m].cpus[c].pc, t)
    requires labels[n] == CpuNext(c) && states[n].cpus[c].pc.PutBack? && states[n].cpus[c].pc.k == 1
    ensures 0 <= d < |states[n + 1].q| && t in states[n + 1].q[d]
  {
    forall m | b + 1 <= m < n ensures SourceOf(states[m + 1], c) == SourceOf(states[m], c) { SourceAt(states, labels, c, t, m); }
    SourceConstant(states, c, b + 1, n);
    RunAt(states, labels, b);
    PutBackLands(states, labels, c, n);
  }
}
