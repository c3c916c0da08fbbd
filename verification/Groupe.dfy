/** exit_group and execve: one thread claims the group, condemns its siblings in
    one sweep of the registry, then rescans it until no sibling is alive, while
    the siblings still clone, die and run.  A sweep and a scan each hold the
    registry's read guard from end to end, so that no thread is registered
    during one; between them the registry is open. */
module Groupe {
  /** A registry slot.  `grp`: a thread of the group. */
  datatype Thread = Thread(grp: bool, tid: nat, dead: bool, cond: bool, user: bool)

  datatype Wpc =
    | Before
    | Sweep(i: nat)           // condemning, under the guard
    | Pause                   // before a scan, without the guard
    | Scan(i: nat)            // looking for a live sibling, under the guard
    | Found                   // one was found, guard released
    | Returned(early: bool)

  /** A clone between the registration of its child and the reread of the claim. */
  datatype Clone = Clone(child: nat, tid: nat)

  datatype State = State(slots: seq<Thread>, me: nat, claimed: bool, w: Wpc, clones: map<nat, Clone>)

  datatype Label =
    | Claim
    | Next                              // the claimer's next access
    | Register(p: nat, j: nat, tid: nat) // thread p registers its child in slot j
    | Reread(p: nat)                    // tue_si_groupe_reclame
    | Foreign(j: nat, t: Thread)        // another process registers
    | Condemn(j: nat)
    | Exit(j: nat)
    | Enter(j: nat)
    | Leave(j: nat)

  predicate Sibling(s: State, j: nat) { j < |s.slots| && j != s.me && s.slots[j].grp }

  predicate Alive(s: State, j: nat) { Sibling(s, j) && !s.slots[j].dead }

  /** A slot the registry may fill: a dead thread's, or the next one. */
  predicate Free(s: State, j: nat) { j <= |s.slots| && j != s.me && (j < |s.slots| ==> s.slots[j].dead) }

  /** No thread number is given twice: not that of a clone still to be reread. */
  predicate Unused(s: State, tid: nat) { forall p :: p in s.clones ==> s.clones[p].tid != tid }

  /** The claimer holds the read guard: registrations wait. */
  predicate Guarding(w: Wpc) { w.Sweep? || w.Scan? }

  predicate Enabled(s: State, l: Label)
  {
    && s.me < |s.slots|
    && match l
       case Claim => s.w.Before? && !s.claimed
       case Next => !s.w.Before? && !s.w.Returned?
       case Register(p, j, tid) =>
         && !Guarding(s.w) && Alive(s, p) && !s.slots[p].user && p !in s.clones
         && Free(s, j) && tid != s.slots[s.me].tid && Unused(s, tid)
       case Reread(p) => p in s.clones
       case Foreign(j, t) => !Guarding(s.w) && Free(s, j) && !t.grp && !t.cond && Unused(s, t.tid)
       case Condemn(j) => j < |s.slots|
       case Exit(j) => j < |s.slots| && j != s.me && j !in s.clones
       case Enter(j) => Alive(s, j) && !s.slots[j].cond && j !in s.clones
       case Leave(j) => Alive(s, j)
  }

  function Put(s: State, j: nat, t: Thread): State
    requires j <= |s.slots|
  {
    s.(slots := if j < |s.slots| then s.slots[j := t] else s.slots + [t])
  }

  function ClaimerStep(s: State): State
    requires s.me < |s.slots|
  {
    match s.w
    case Sweep(i) =>
      if i >= |s.slots| then s.(w := Pause)
      else if s.slots[i].grp && s.slots[i].tid != s.slots[s.me].tid
      then s.(slots := s.slots[i := s.slots[i].(cond := true)], w := Sweep(i + 1))
      else s.(w := Sweep(i + 1))
    case Pause => s.(w := Scan(0))
    case Scan(i) =>
      if i >= |s.slots| then s.(w := Returned(false))
      else if s.slots[i].grp && s.slots[i].tid != s.slots[s.me].tid && !s.slots[i].dead then s.(w := Found)
      else s.(w := Scan(i + 1))
    case Found => if s.slots[s.me].cond then s.(w := Returned(true)) else s.(w := Pause)
    case _ => s
  }

  function Apply(s: State, l: Label): State
    requires Enabled(s, l)
  {
    match l
    case Claim => s.(claimed := true, w := Sweep(0))
    case Next => ClaimerStep(s)
    case Register(p, j, tid) =>
      Put(s, j, Thread(true, tid, false, false, false)).(clones := s.clones[p := Clone(j, tid)])
    case Reread(p) =>
      var c := s.clones[p];
      var gone := s.(clones := s.clones - {p});
      if s.claimed && c.child < |s.slots| && s.slots[c.child].tid == c.tid
      then gone.(slots := s.slots[c.child := s.slots[c.child].(cond := true)])
      else gone
    case Foreign(j, t) => Put(s, j, t)
    case Condemn(j) => s.(slots := s.slots[j := s.slots[j].(cond := true)])
    case Exit(j) => s.(slots := s.slots[j := s.slots[j].(dead := true, user := false)])
    case Enter(j) => s.(slots := s.slots[j := s.slots[j].(user := true)])
    case Leave(j) => s.(slots := s.slots[j := s.slots[j].(user := false)])
  }

  ghost predicate Init(s: State)
  {
    && s.me < |s.slots| && s.slots[s.me].grp && !s.slots[s.me].dead && !s.claimed && s.w.Before? && s.clones == map[]
    && forall j :: 0 <= j < |s.slots| && j != s.me && s.slots[j].grp ==> s.slots[j].tid != s.slots[s.me].tid
  }

  ghost predicate Pending(s: State, j: nat)
    requires j < |s.slots|
  {
    exists p :: p in s.clones && s.clones[p] == Clone(j, s.slots[j].tid)
  }

  /** Slots the sweep has dealt with. */
  predicate Swept(w: Wpc, j: nat) { (w.Sweep? && j < w.i) || w.Pause? || w.Scan? || w.Found? || w.Returned? }

  /** A swept sibling still alive is condemned, or the thread that registered it
      has yet to reread the claim. */
  ghost predicate Doomed(s: State, j: nat)
  {
    Alive(s, j) && Swept(s.w, j) ==> s.slots[j].cond || Pending(s, j)
  }

  /** No sibling is alive behind the scan, nor after the last one. */
  predicate Seen(s: State, j: nat)
  {
    (s.w.Scan? && j < s.w.i) || s.w == Returned(false) ==> !Alive(s, j)
  }

  /** The slot a clone will reread holds its child, or another thread's number. */
  predicate CloneOk(s: State, c: Clone)
  {
    c.child != s.me && (c.child < |s.slots| && s.slots[c.child].tid == c.tid ==> s.slots[c.child].grp)
  }

  ghost predicate Inv(s: State)
  {
    && s.me < |s.slots| && s.slots[s.me].grp && !s.slots[s.me].dead
    && (s.claimed <==> !s.w.Before?)
    && (s.w == Returned(true) ==> s.slots[s.me].cond)
    && (forall j :: 0 <= j < |s.slots| && Sibling(s, j) ==> s.slots[j].tid != s.slots[s.me].tid)
    && (forall j :: 0 <= j < |s.slots| ==> Doomed(s, j))
    && (forall j :: 0 <= j < |s.slots| ==> Seen(s, j))
    && (forall p :: p in s.clones ==> CloneOk(s, s.clones[p]))
  }

  lemma InitInv(s: State)
    requires Init(s)
    ensures Inv(s)
  {
  }

  lemma ClaimerInv(s: State)
    requires Inv(s) && Enabled(s, Next)
    ensures Inv(ClaimerStep(s))
  {
    var s' := ClaimerStep(s);
    forall j | 0 <= j < |s'.slots| ensures Doomed(s', j) && Seen(s', j) {
      assert Doomed(s, j) && Seen(s, j);
      if Pending(s, j) {
        var p :| p in s.clones && s.clones[p] == Clone(j, s.slots[j].tid);
        assert s'.clones[p] == Clone(j, s'.slots[j].tid);
      }
    }
  }

  lemma RegisterInv(s: State, p: nat, j: nat, tid: nat)
    requires Inv(s) && Enabled(s, Register(p, j, tid))
    ensures Inv(Apply(s, Register(p, j, tid)))
  {
    var s' := Apply(s, Register(p, j, tid));
    assert s'.clones[p] == Clone(j, s'.slots[j].tid);
    assert Seen(s, p) && !s.w.Scan?;
    forall k | 0 <= k < |s'.slots| ensures Doomed(s', k) && Seen(s', k) {
      if k != j {
        assert Doomed(s, k) && Seen(s, k);
        if Pending(s, k) {
          var q :| q in s.clones && s.clones[q] == Clone(k, s.slots[k].tid);
          assert q != p && s'.clones[q] == Clone(k, s'.slots[k].tid);
        }
      }
    }
  }

  lemma RereadInv(s: State, p: nat)
    requires Inv(s) && Enabled(s, Reread(p))
    ensures Inv(Apply(s, Reread(p)))
  {
    var s' := Apply(s, Reread(p));
    forall k | 0 <= k < |s'.slots| ensures Doomed(s', k) && Seen(s', k) {
      assert Doomed(s, k) && Seen(s, k);
      if Pending(s, k) {
        var q :| q in s.clones && s.clones[q] == Clone(k, s.slots[k].tid);
        assert q != p ==> s'.clones[q] == Clone(k, s'.slots[k].tid);
      }
    }
  }

  lemma OtherInv(s: State, l: Label)
    requires Inv(s) && Enabled(s, l) && !l.Next? && !l.Register? && !l.Reread?
    ensures Inv(Apply(s, l))
  {
    var s' := Apply(s, l);
    forall k | 0 <= k < |s'.slots| ensures Doomed(s', k) && Seen(s', k) {
      if k < |s.slots| {
        assert Doomed(s, k) && Seen(s, k);
        if Pending(s, k) && Alive(s', k) {
          var q :| q in s.clones && s.clones[q] == Clone(k, s.slots[k].tid);
          assert s'.clones[q] == Clone(k, s'.slots[k].tid);
        }
      }
    }
  }

  lemma StepInv(s: State, l: Label)
    requires Inv(s) && Enabled(s, l)
    ensures Inv(Apply(s, l))
  {
    match l
    case Next => ClaimerInv(s);
    case Register(p, j, tid) => RegisterInv(s, p, j, tid);
    case Reread(p) => RereadInv(s, p);
    case _ => OtherInv(s, l);
  }

  // ---- Who is condemned ----

  /** Apart from Condemn, which stands for killers of other kinds, a step condemns
      only a sibling of the claimer, and only once the group is claimed. */
  lemma CondemnsOnlySiblings(s: State, l: Label, j: nat)
    requires Inv(s) && Enabled(s, l) && !l.Condemn? && j < |Apply(s, l).slots| && Apply(s, l).slots[j].cond
    requires j < |s.slots| ==> !s.slots[j].cond
    ensures s.claimed && Apply(s, l).me == s.me && Sibling(Apply(s, l), j)
  {
    if l.Reread? { assert CloneOk(s, s.clones[l.p]); }
  }

  lemma ClaimerSpared(s: State, l: Label)
    requires Inv(s) && Enabled(s, l) && l != Condemn(s.me) && !s.slots[s.me].cond
    ensures Apply(s, l).me == s.me && s.me < |Apply(s, l).slots| && !Apply(s, l).slots[s.me].cond
  {
    if l.Reread? { assert CloneOk(s, s.clones[l.p]); }
  }

  // ---- Whole runs ----

  ghost predicate Run(states: seq<State>, labels: seq<Label>)
  {
    && |states| == |labels| + 1
    && Init(states[0])
    && forall i :: 0 <= i < |labels| ==> Enabled(states[i], labels[i]) && states[i + 1] == Apply(states[i], labels[i])
  }

  lemma {:induction false} RunInv(states: seq<State>, labels: seq<Label>, i: nat)
    requires Run(states, labels) && i <= |labels|
    ensures Inv(states[i])
  {
    if i == 0 {
      InitInv(states[0]);
    } else {
      RunInv(states, labels, i - 1);
      assert states[i - 1 + 1] == Apply(states[i - 1], labels[i - 1]);
      StepInv(states[i - 1], labels[i - 1]);
    }
  }

  ghost predicate Extinct(s: State) { forall j :: 0 <= j < |s.slots| ==> !Alive(s, j) }

  /** When the wait is over the group is extinct, unless the claimer, condemned
      itself, gave up: then a sibling still alive is condemned too, or the thread
      that registered it is still inside clone and will condemn it. */
  lemma AfterTheWait(states: seq<State>, labels: seq<Label>, i: nat)
    requires Run(states, labels) && i <= |labels| && states[i].w.Returned?
    ensures var s := states[i];
      && s.me < |s.slots| && (Extinct(s) || (s.w.early && s.slots[s.me].cond))
      && (forall j :: 0 <= j < |s.slots| && Alive(s, j) ==> s.slots[j].cond || Pending(s, j))
  {
    RunInv(states, labels, i);
    var s := states[i];
    forall j | 0 <= j < |s.slots| && Alive(s, j) ensures (s.slots[j].cond || Pending(s, j)) && s.w.early {
      assert Doomed(s, j) && Seen(s, j);
    }
  }

  lemma SparedAt(states: seq<State>, labels: seq<Label>, m: nat)
    requires Run(states, labels) && m < |labels| && labels[m] != Condemn(states[m].me)
    requires states[m].me < |states[m].slots| && !states[m].slots[states[m].me].cond
    ensures states[m + 1].me == states[m].me && states[m + 1].me < |states[m + 1].slots| && !states[m + 1].slots[states[m + 1].me].cond
  {
    RunInv(states, labels, m);
    assert states[m + 1] == Apply(states[m], labels[m]);
    ClaimerSpared(states[m], labels[m]);
  }

  lemma {:induction false} SparedThrough(states: seq<State>, labels: seq<Label>, me: nat, i: nat)
    requires Run(states, labels) && i <= |labels| && states[0].me == me && !states[0].slots[me].cond
    requires forall m :: 0 <= m < i ==> labels[m] != Condemn(me)
    ensures states[i].me == me && me < |states[i].slots| && !states[i].slots[me].cond
  {
    if i > 0 {
      SparedThrough(states, labels, me, i - 1);
      SparedAt(states, labels, i - 1);
    }
  }

  /** A claimer nobody condemns waits to the end: when it returns, every sibling
      is dead. */
  lemma UncondemnedClaimerWaits(states: seq<State>, labels: seq<Label>, i: nat)
    requires Run(states, labels) && i <= |labels| && states[i].w.Returned? && !states[0].slots[states[0].me].cond
    requires forall m :: 0 <= m < i ==> labels[m] != Condemn(states[0].me)
    ensures Extinct(states[i])
  {
    SparedThrough(states, labels, states[0].me, i);
    AfterTheWait(states, labels, i);
  }

  /** The claimer's next step, as the wait meets it: it stops at a slot only for a
      live sibling there, and gives up after one only if condemned itself. */
  lemma StopsForTheLiving(states: seq<State>, labels: seq<Label>, m: nat)
    requires Run(states, labels) && m < |labels| && labels[m] == Next
    ensures states[m].w.Scan? && states[m + 1].w.Found? ==> Alive(states[m], states[m].w.i)
    ensures states[m].w.Found? ==> (states[m + 1].w.Returned? <==> states[m].me < |states[m].slots| && states[m].slots[states[m].me].cond)
  {
    RunInv(states, labels, m);
    assert states[m + 1] == Apply(states[m], labels[m]);
  }

  /** `n` steps of the claimer alone. */
  function Alone(s: State, n: nat): State
    requires s.me < |s.slots|
    decreases n
  {
    if n == 0 then s else var s' := ClaimerStep(s); if s'.me < |s'.slots| then Alone(s', n - 1) else s'
  }

  /** Once every sibling is dead the wait ends: a scan from slot `i` returns in as
      many steps as slots are left, and one more. */
  lemma {:induction false} ExtinctWaitEnds(s: State)
    requires Inv(s) && Extinct(s) && s.w.Scan? && s.w.i <= |s.slots|
    ensures Alone(s, |s.slots| - s.w.i + 1).w == Returned(false)
    decreases |s.slots| - s.w.i
  {
    if s.w.i < |s.slots| {
      var s' := ClaimerStep(s);
      ClaimerInv(s);
      assert !Alive(s, s.w.i);
      assert s' == s.(w := Scan(s.w.i + 1));
      assert Extinct(s') by { forall j | 0 <= j < |s'.slots| ensures !Alive(s', j) { assert !Alive(s, j); } }
      ExtinctWaitEnds(s');
    }
  }

  lemma ExtinctStep(s: State, l: Label)
    requires Enabled(s, l) && Extinct(s)
    ensures Extinct(Apply(s, l))
  {
    var s' := Apply(s, l);
    forall j | 0 <= j < |s'.slots| ensures !Alive(s', j) {
      if j < |s.slots| { assert !Alive(s, j); }
    }
  }

  /** An extinct group stays extinct: no thread of it exists, runs user code or
      is created ever again. */
  lemma {:induction false} ExtinctForever(states: seq<State>, labels: seq<Label>, i: nat, j: nat)
    requires Run(states, labels) && i <= j <= |labels| && Extinct(states[i])
    ensures Extinct(states[j])
    decreases j - i
  {
    if i < j {
      ExtinctForever(states, labels, i, j - 1);
      assert states[j - 1 + 1] == Apply(states[j - 1], labels[j - 1]);
      ExtinctStep(states[j - 1], labels[j - 1]);
    }
  }
}
