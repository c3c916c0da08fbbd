/** A wake-up that lands on a task still owned or leaving its CPU: it is refused,
    and the end of the hand-off publishes the task instead -- unless another CPU
    claims the task before the hand-off has cleared its flag. */
module PassationReveil {
  import opened Commun
  import opened Runs
  import opened Passation
  import opened PassationInv
  import opened PassationSure
  import opened PassationElection
  import opened PassationRefus

  /** Owned by a CPU, or leaving one. */
  predicate Busy(x: Task) { x.onCpu >= 0 || x.sw }

  ghost predicate AllBusy(states: seq<State>, t: int, b: nat, n: nat)
  {
    b <= n < |states| && forall m :: b <= m <= n ==> Slot(states[m], t) && Busy(states[m].tasks[t])
  }

  /** Vacated at `a` with its flag still up, owned at `z` with its flag down: in
      between, another CPU claimed the task over its hand-off. */
  predicate ClaimedOver(states: seq<State>, t: int, a: nat, z: nat)
  {
    && a < |states| && z < |states| && Slot(states[a], t) && Slot(states[z], t)
    && states[a].tasks[t].onCpu < 0 && states[a].tasks[t].sw
    && states[z].tasks[t].onCpu >= 0 && !states[z].tasks[t].sw
  }

  /** A publisher begun at `b` on a task busy ever since is past its checks only if
      the task has been claimed over its hand-off meanwhile. */
  lemma BusyWakeRefused(states: seq<State>, labels: seq<Label>, p: nat, t: int, b: nat, n: nat) returns (a: nat, z: nat)
    requires Run(states, labels) && Publishes(states, p, t, b, n) && AllBusy(states, t, b, n)
    ensures states[n].pubs[p].k >= 3 ==> b <= a < z < n && ClaimedOver(states, t, a, z)
  {
    a, z := 0, 0;
    if states[n].pubs[p].k >= 3 {
      var r := PublisherSaw(states, labels, p, t, b, n);
      a, z := r[1], r[2];
      assert Asked(1, states[a].tasks[t]) && Asked(2, states[z].tasks[t]);
    }
  }

  /** So a wake-up on a task no CPU claims over its hand-off puts it in no queue,
      as long as it is busy. */
  lemma BusyWakeAddsNothing(states: seq<State>, labels: seq<Label>, p: nat, t: int, b: nat, n: nat, target: int, d: int)
    requires Run(states, labels) && n < |labels| && Publishes(states, p, t, b, n) && AllBusy(states, t, b, n)
    requires forall a, z :: b <= a < z < n ==> !ClaimedOver(states, t, a, z)
    requires labels[n] == PubNext(p, target) && IsCpu(states[n], d) && 0 <= d < |states[n].q|
    ensures states[n].pubs[p].k < 3 && d < |states[n + 1].q| && (t in states[n + 1].q[d] ==> t in states[n].q[d])
  {
    var a, z := BusyWakeRefused(states, labels, p, t, b, n);
    RunAt(states, labels, n);
    QueueGrows(states[n], labels[n], d, t);
  }

  // ---- The end of the hand-off publishes it ----

  /** CPU `c` is handing `t` off and will publish it if it reads it ready. */
  predicate HandsOver(s: State, c: int, t: int)
  {
    && IsCpu(s, c) && s.cpus[c].pend == t
    && (Handing(s.cpus[c].pc) || s.cpus[c].pc.PrepSw? || s.cpus[c].pc.CompState?
        || (s.cpus[c].pc.CompPend? && s.cpus[c].pc.publish && s.cpus[c].pc.o == t))
  }

  lemma HandoverStep(s: State, l: Label, c: int, t: int)
    requires Inv(s) && Enabled(s, l) && Slot(s, t) && s.tasks[t].st.Ready? && HandsOver(s, c, t) && !(l.Publish? && l.c == c)
    ensures HandsOver(Apply(s, l), c, t)
  {
    assert CpuTyped(s, s.cpus[c]) && CpuOk(s, c);
    if !Moves(l) { OthersStand(s, l); } else if l.c != c { MovesMild(s, l); }
  }

  lemma HandoverAt(states: seq<State>, labels: seq<Label>, c: int, t: int, m: nat)
    requires Run(states, labels) && m < |labels| && !(labels[m].Publish? && labels[m].c == c)
    requires Slot(states[m], t) && states[m].tasks[t].st.Ready? && HandsOver(states[m], c, t)
    ensures HandsOver(states[m + 1], c, t)
  {
    RunInv(states, labels, m);
    RunAt(states, labels, m);
    HandoverStep(states[m], labels[m], c, t);
  }

  lemma {:induction false} HandoverThrough(states: seq<State>, c: int, t: int, i: nat, n: nat)
    requires i <= n < |states| && HandsOver(states[i], c, t)
    requires forall m :: i <= m < n && HandsOver(states[m], c, t) ==> HandsOver(states[m + 1], c, t)
    ensures HandsOver(states[n], c, t)
  {
    if n > i { HandoverThrough(states, c, t, i, n - 1); assert HandsOver(states[n - 1 + 1], c, t); }
  }

  lemma PublishStarts(states: seq<State>, labels: seq<Label>, c: int, t: int, p: nat, n: nat)
    requires Run(states, labels) && n < |labels| && labels[n] == Publish(c, p) && HandsOver(states[n], c, t)
    ensures p !in states[n].pubs && p in states[n + 1].pubs && states[n + 1].pubs[p].t == t && states[n + 1].pubs[p].k == 0
  {
    RunAt(states, labels, n);
    assert CpuTyped(states[n], states[n].cpus[c]);
  }

  /** A task made ready while a CPU is handing it off is given to a publisher by
      the end of that hand-off, whatever became of the wake-up's own publisher. */
  lemma HandoffPublishes(states: seq<State>, labels: seq<Label>, c: int, t: int, p: nat, i: nat, n: nat)
    requires Run(states, labels) && i <= n < |labels| && HandsOver(states[i], c, t)
    requires forall m :: i <= m <= n ==> Slot(states[m], t) && states[m].tasks[t].st.Ready?
    requires labels[n] == Publish(c, p) && forall m :: i <= m < n ==> !(labels[m].Publish? && labels[m].c == c)
    ensures p !in states[n].pubs && p in states[n + 1].pubs && states[n + 1].pubs[p].t == t && states[n + 1].pubs[p].k == 0
  {
    forall m | i <= m < n && HandsOver(states[m], c, t) ensures HandsOver(states[m + 1], c, t) { HandoverAt(states, labels, c, t, m); }
    HandoverThrough(states, c, t, i, n);
    PublishStarts(states, labels, c, t, p, n);
  }

  /** Until then it is busy, and in the care of that CPU. */
  lemma HandedOffIsBusy(states: seq<State>, labels: seq<Label>, c: int, t: int, i: nat)
    requires Run(states, labels) && i <= |labels| && Slot(states[i], t) && HandsOver(states[i], c, t)
    ensures Busy(states[i].tasks[t]) || states[i].cpus[c].pc.CompState? || states[i].cpus[c].pc.CompPend?
  {
    RunInv(states, labels, i);
    assert CpuTyped(states[i], states[i].cpus[c]) && CpuOk(states[i], c);
  }

  // ---- Claimed over its hand-off, it is let through ----

  ghost function Move(s: State, l: Label): Option<State> { if Enabled(s, l) then Some(Apply(s, l)) else None }

  /** The same state with publisher `p` at another of its first accesses. */
  function Lift(s: State, p: nat, x: Pub): State { s.(pubs := s.pubs[p := x]) }

  predicate Similar(s: State, p: nat, x: Pub)
  {
    p in s.pubs && x.t == s.pubs[p].t && x.held == s.pubs[p].held && x.target == s.pubs[p].target && x.k <= 6
  }

  lemma LiftTyped(s: State, p: nat, x: Pub)
    requires Typed(s) && Similar(s, p, x)
    ensures Typed(Lift(s, p, x))
  {
    var s' := Lift(s, p, x);
    forall c | 0 <= c < |s'.cpus| ensures CpuTyped(s', s'.cpus[c]) { assert CpuTyped(s, s.cpus[c]); }
  }

  /** Nobody else can tell. */
  lemma LiftStep(s: State, l: Label, p: nat, x: Pub)
    requires Enabled(s, l) && Similar(s, p, x) && !(l.PubNext? && l.p == p)
    ensures p in Apply(s, l).pubs && Apply(s, l).pubs[p] == s.pubs[p]
    ensures Enabled(Lift(s, p, x), l) && Apply(Lift(s, p, x), l) == Lift(Apply(s, l), p, x)
  {
    LiftTyped(s, p, x);
    if l.CpuNext? { LiftCpu(s, l.c, p, x); }
    else if l.PubNext? { LiftPub(s, l.p, l.target, p, x); }
    else if l.Publish? || l.Wake? || l.Recycle? { LiftBegin(s, l, p, x); }
  }

  lemma LiftCpu(s: State, c: int, p: nat, x: Pub)
    requires Typed(s) && IsCpu(s, c) && Similar(s, p, x) && Typed(Lift(s, p, x))
    ensures CpuStep(s, c).pubs == s.pubs && CpuStep(Lift(s, p, x), c) == Lift(CpuStep(s, c), p, x)
  {
    CpuKeepsPubs(s, c);
    assert CpuTyped(s, s.cpus[c]);
  }

  lemma LiftPub(s: State, q: nat, target: int, p: nat, x: Pub)
    requires Typed(s) && q in s.pubs && IsCpu(s, target) && q != p && Similar(s, p, x) && Typed(Lift(s, p, x))
    ensures p in PubStep(s, q, target).pubs && PubStep(s, q, target).pubs[p] == s.pubs[p]
    ensures PubStep(Lift(s, p, x), q, target) == Lift(PubStep(s, q, target), p, x)
  {
    assert PubStep(Lift(s, p, x), q, target).pubs == PubStep(s, q, target).pubs[p := x];
  }

  lemma LiftBegin(s: State, l: Label, p: nat, x: Pub)
    requires Enabled(s, l) && Similar(s, p, x) && (l.Publish? || l.Wake? || l.Recycle?) && Typed(Lift(s, p, x))
    ensures p in Apply(s, l).pubs && Apply(s, l).pubs[p] == s.pubs[p]
    ensures Enabled(Lift(s, p, x), l) && Apply(Lift(s, p, x), l) == Lift(Apply(s, l), p, x)
  {
    assert l.p != p;
    assert Apply(Lift(s, p, x), l).pubs == Apply(s, l).pubs[p := x];
  }

  lemma LiftInv(s: State, p: nat, x: Pub)
    requires Inv(s) && Similar(s, p, x)
    ensures Inv(Lift(s, p, x))
  {
    LiftTyped(s, p, x);
    var s' := Lift(s, p, x);
    forall c | 0 <= c < |s'.cpus| ensures CpuOk(s', c) { assert CpuTyped(s, s.cpus[c]) && CpuOk(s, c); }
    forall u | 0 <= u < |s'.tasks| ensures Owned(s', u) && Leaving(s', u) { assert Owned(s, u) && Leaving(s, u); }
  }

  /** From `a` to `z` of a run, publisher `p` stands still. */
  ghost predicate StandsStill(states: seq<State>, labels: seq<Label>, p: nat, a: nat, z: nat)
  {
    && a <= z <= |labels| && |states| == |labels| + 1
    && p in states[a].pubs && forall m :: a <= m < z ==> !(labels[m].PubNext? && labels[m].p == p)
  }

  lemma LiftAt(states: seq<State>, labels: seq<Label>, p: nat, x: Pub, m: nat)
    requires Run(states, labels) && m < |labels| && Similar(states[m], p, x) && !(labels[m].PubNext? && labels[m].p == p)
    ensures p in states[m + 1].pubs && states[m + 1].pubs[p] == states[m].pubs[p]
    ensures Move(Lift(states[m], p, x), labels[m]) == Some(Lift(states[m + 1], p, x))
  {
    RunAt(states, labels, m);
    LiftStep(states[m], labels[m], p, x);
  }

  predicate SamePub(s: State, s': State, p: nat) { p in s.pubs ==> p in s'.pubs && s'.pubs[p] == s.pubs[p] }

  lemma SamePubAt(states: seq<State>, labels: seq<Label>, p: nat, m: nat)
    requires Run(states, labels) && m < |labels| && !(labels[m].PubNext? && labels[m].p == p)
    ensures SamePub(states[m], states[m + 1], p)
  {
    if p in states[m].pubs {
      RunAt(states, labels, m);
      assert states[m].pubs[p].k <= 6;
      LiftAt(states, labels, p, states[m].pubs[p], m);
    }
  }

  lemma {:induction false} SamePubThrough(states: seq<State>, p: nat, a: nat, z: nat)
    requires a <= z < |states| && p in states[a].pubs && forall m :: a <= m < z ==> SamePub(states[m], states[m + 1], p)
    ensures p in states[z].pubs && states[z].pubs[p] == states[a].pubs[p]
  {
    if z > a {
      SamePubThrough(states, p, a, z - 1);
      assert SamePub(states[z - 1], states[z - 1 + 1], p);
    }
  }

  lemma StillThere(states: seq<State>, labels: seq<Label>, p: nat, a: nat, z: nat, i: nat)
    requires Run(states, labels) && StandsStill(states, labels, p, a, z) && a <= i <= z
    ensures p in states[i].pubs && states[i].pubs[p] == states[a].pubs[p]
  {
    forall m | a <= m < i ensures SamePub(states[m], states[m + 1], p) { SamePubAt(states, labels, p, m); }
    SamePubThrough(states, p, a, i);
  }

  lemma LiftedAt(states: seq<State>, labels: seq<Label>, p: nat, x: Pub, a: nat, z: nat, i: nat)
    requires Run(states, labels) && StandsStill(states, labels, p, a, z) && Similar(states[a], p, x) && a <= i < z
    ensures Move(Lift(states[i], p, x), labels[i]) == Some(Lift(states[i + 1], p, x))
  {
    StillThere(states, labels, p, a, z, i);
    LiftAt(states, labels, p, x, i);
  }

  /** The rest of the machine does the same with the publisher further on. */
  lemma LiftPath(states: seq<State>, labels: seq<Label>, p: nat, x: Pub, a: nat, z: nat) returns (es: seq<State>)
    requires Run(states, labels) && StandsStill(states, labels, p, a, z) && Similar(states[a], p, x)
    ensures |es| == z - a + 1 && Path(Move, es, labels[a..z])
    ensures forall i :: 0 <= i <= z - a ==> es[i] == Lift(states[a + i], p, x)
  {
    var f := (m: nat) => Lift(states[if m < |states| then m else 0], p, x);
    forall i: nat | a <= i < z ensures Move(f(i), labels[i]) == Some(f(i + 1)) { LiftedAt(states, labels, p, x, a, z, i); }
    es := PathThrough(Move, f, labels, a, z);
  }

  ghost predicate BusyPath(es: seq<State>, t: int) { forall i :: 0 <= i < |es| ==> Slot(es[i], t) && Busy(es[i].tasks[t]) }

  lemma Advances(s: State, p: nat, t: int)
    requires Inv(s) && p in s.pubs && s.pubs[p].t == t && Slot(s, t)
    requires s.pubs[p].k < 3 ==> Asked(s.pubs[p].k, s.tasks[t])
    ensures IsCpu(s, s.pubs[p].target) && Enabled(s, PubNext(p, s.pubs[p].target))
    ensures var s' := PubStep(s, p, s.pubs[p].target);
      && Inv(s') && Slot(s', t) && s'.tasks[t] == s.tasks[t].(rq := s'.tasks[t].rq)
      && (s.pubs[p].k < 6 ==> p in s'.pubs && s'.pubs[p] == s.pubs[p].(k := s.pubs[p].k + 1, g := s'.pubs[p].g))
      && (s.pubs[p].k == 6 ==> s.pubs[p].target < |s'.q| && t in s'.q[s.pubs[p].target])
  {
    PubInv(s, p, s.pubs[p].target);
  }

  /** Past its second check and with the flag down, it goes on to the queue. */
  lemma {:induction false} Finishes(s: State, p: nat, t: int) returns (es: seq<State>, ls: seq<Label>)
    requires Inv(s) && p in s.pubs && s.pubs[p].t == t && Slot(s, t) && 2 <= s.pubs[p].k <= 6
    requires (s.pubs[p].k == 2 ==> !s.tasks[t].sw) && Busy(s.tasks[t])
    ensures Path(Move, es, ls) && es[0] == s && BusyPath(es, t)
    ensures 0 <= s.pubs[p].target < |es[|ls|].q| && t in es[|ls|].q[s.pubs[p].target]
    decreases 7 - s.pubs[p].k
  {
    Advances(s, p, t);
    var l := PubNext(p, s.pubs[p].target);
    var s' := PubStep(s, p, s.pubs[p].target);
    if s.pubs[p].k == 6 {
      es, ls := [s, s'], [l];
    } else {
      var es', ls' := Finishes(s', p, t);
      PathConcat(Move, [s, s'], [l], es', ls');
      es, ls := [s, s'] + es'[1..], [l] + ls';
    }
  }

  lemma Begins(s: State, p: nat, t: int) returns (es: seq<State>)
    requires Inv(s) && p in s.pubs && s.pubs[p].t == t && s.pubs[p].k == 0 && Slot(s, t)
    requires s.tasks[t].st.Ready? && s.tasks[t].onCpu < 0 && Busy(s.tasks[t])
    ensures |es| == 3 && Path(Move, es, [PubNext(p, s.pubs[p].target), PubNext(p, s.pubs[p].target)]) && BusyPath(es, t)
    ensures es[0] == s && es[2] == Lift(s, p, s.pubs[p].(k := 2))
  {
    var x := s.pubs[p];
    var s1, s2 := Lift(s, p, x.(k := 1)), Lift(s, p, x.(k := 2));
    Advances(s, p, t);
    LiftInv(s, p, x.(k := 1));
    Advances(s1, p, t);
    assert s1.pubs[p := x.(k := 2)] == s2.pubs;
    es := [s, s1, s2];
  }

  /** From `a` on: two checks at once, the rest of the machine up to `z`, then the
      remaining accesses. */
  lemma Detour(states: seq<State>, labels: seq<Label>, p: nat, t: int, a: nat, z: nat) returns (es: seq<State>, ls: seq<Label>)
    requires Run(states, labels) && StandsStill(states, labels, p, a, z) && AllBusy(states, t, a, z) && ClaimedOver(states, t, a, z)
    requires states[a].pubs[p].t == t && states[a].pubs[p].k == 0 && states[a].tasks[t].st.Ready?
    ensures Path(Move, es, ls) && es[0] == states[a] && |ls| > 0 && BusyPath(es, t)
    ensures var to := states[a].pubs[p].target; 0 <= to < |es[|ls|].q| && t in es[|ls|].q[to]
  {
    var x, to := states[a].pubs[p], states[a].pubs[p].target;
    RunInv(states, labels, a);
    RunInv(states, labels, z);
    var one := Begins(states[a], p, t);
    var two := LiftPath(states, labels, p, x.(k := 2), a, z);
    StillThere(states, labels, p, a, z, z);
    LiftInv(states[z], p, x.(k := 2));
    var three, l3 := Finishes(Lift(states[z], p, x.(k := 2)), p, t);
    es, ls := Joined(one, [PubNext(p, to), PubNext(p, to)], two, labels[a..z], three, l3, t);
  }

  lemma Joined(one: seq<State>, l1: seq<Label>, two: seq<State>, l2: seq<Label>, three: seq<State>, l3: seq<Label>, t: int)
    returns (es: seq<State>, ls: seq<Label>)
    requires Path(Move, one, l1) && Path(Move, two, l2) && Path(Move, three, l3) && one[|l1|] == two[0] && two[|l2|] == three[0]
    requires BusyPath(one, t) && BusyPath(two, t) && BusyPath(three, t)
    ensures Path(Move, es, ls) && es[0] == one[0] && es[|ls|] == three[|l3|] && |ls| == |l1| + |l2| + |l3| && BusyPath(es, t)
  {
    PathConcat(Move, two, l2, three, l3);
    PathConcat(Move, one, l1, two + three[1..], l2 + l3);
    es, ls := one + (two + three[1..])[1..], l1 + (l2 + l3);
  }

  /** If a busy task is ever seen vacated and later with its flag down, a publisher
      that had not begun its checks by then can, whatever else happens, get it into
      a queue while it stays busy throughout. */
  lemma ClaimedOverLetsThrough(states: seq<State>, labels: seq<Label>, p: nat, t: int, a: nat, z: nat)
    returns (states': seq<State>, labels': seq<Label>)
    requires Run(states, labels) && StandsStill(states, labels, p, a, z) && AllBusy(states, t, a, z) && ClaimedOver(states, t, a, z)
    requires states[a].pubs[p].t == t && states[a].pubs[p].k == 0 && states[a].tasks[t].st.Ready?
    ensures Run(states', labels') && a < |labels'| && states'[..a + 1] == states[..a + 1] && labels'[..a] == labels[..a]
    ensures AllBusy(states', t, a, |labels'|)
    ensures var to := states[a].pubs[p].target; 0 <= to < |states'[|labels'|].q| && t in states'[|labels'|].q[to]
  {
    var es, ls := Detour(states, labels, p, t, a, z);
    states', labels' := Extended(states, labels, a, es, ls);
    forall m | a <= m <= |labels'| ensures Slot(states'[m], t) && Busy(states'[m].tasks[t]) {
      assert states'[m] == es[m - a];
    }
  }

  lemma RunIsPath(states: seq<State>, labels: seq<Label>)
    requires Run(states, labels)
    ensures Path(Move, states, labels)
  {
    forall i | 0 <= i < |labels| ensures Move(states[i], labels[i]) == Some(states[i + 1]) { RunAt(states, labels, i); }
  }

  lemma PathIsRun(states: seq<State>, labels: seq<Label>)
    requires Path(Move, states, labels) && Init(states[0])
    ensures Run(states, labels)
  {
    forall i | 0 <= i < |labels| ensures Enabled(states[i], labels[i]) && states[i + 1] == Apply(states[i], labels[i]) {
      assert Move(states[i], labels[i]) == Some(states[i + 1]);
    }
  }

  /** A run cut at `a` and continued otherwise. */
  lemma Extended(states: seq<State>, labels: seq<Label>, a: nat, es: seq<State>, ls: seq<Label>)
    returns (states': seq<State>, labels': seq<Label>)
    requires Run(states, labels) && a <= |labels| && Path(Move, es, ls) && es[0] == states[a]
    ensures Run(states', labels') && |labels'| == a + |ls| && states'[..a + 1] == states[..a + 1] && labels'[..a] == labels[..a]
    ensures forall m :: a <= m <= |labels'| ==> states'[m] == es[m - a]
    ensures forall m :: a <= m < |labels'| ==> labels'[m] == ls[m - a]
  {
    RunIsPath(states, labels);
    states', labels' := PathDetour(Move, states, labels, a, es, ls);
    assert states'[0] == states'[..a + 1][0] == states[..a + 1][0];
    PathIsRun(states', labels');
  }
}
