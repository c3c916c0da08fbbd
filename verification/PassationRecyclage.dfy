/** When a recycling is safe: exactly when no publisher stands between its read
    and its store of the identity of the incarnation that ends. */
module PassationRecyclage {
  import opened Commun
  import opened Runs
  import opened Passation
  import opened PassationInv
  import opened PassationSure
  import opened PassationPerte

  /** The machine whose later recyclings are all quiet. */
  ghost function QuietStep(s: State, l: Label): Option<State>
  {
    if Enabled(s, l) && Quiet(s, l) then Some(Apply(s, l)) else None
  }

  ghost predicate AllAccounted(s: State)
  {
    |s.ident| == |s.tasks| && forall t :: 0 <= t < |s.tasks| && Selectable(s.tasks[t]) ==> Accounted(s, t)
  }

  /** Whatever happens next, as long as the later recyclings are quiet, every
      ready task stays accounted for. */
  ghost predicate Safe(s: State)
  {
    forall labels: seq<Label>, s': State :: Leads(QuietStep, s, labels, s') ==> AllAccounted(s')
  }

  lemma {:induction false} KeptThroughout(s: State, labels: seq<Label>, s': State)
    requires Kept(s) && Leads(QuietStep, s, labels, s')
    ensures AllAccounted(s')
    decreases |labels|
  {
    if labels != [] {
      StepKept(s, labels[0]);
      KeptThroughout(Apply(s, labels[0]), labels[1..], s');
    }
  }

  /** This CPU has no business with `t` that could save it: it guards no access
      to it, owes it no publication, and if it looks at an entry of `t`, under
      the identity of an earlier incarnation. */
  predicate Aloof(s: State, pc: Pc, t: int)
    requires Slot(s, t)
  {
    && Guarded(pc) != t
    && (pc.Look? && pc.t == t ==> pc.g != s.tasks[t].gen)
  }

  predicate Owes(pc: Pc, t: int) { pc.CompPend? && pc.publish && pc.o == t }

  /** Publisher `r` is about to store an identity `t` no longer has. */
  ghost predicate Overtaken(s: State, t: int, r: nat)
  {
    && Typed(s) && Slot(s, t) && Selectable(s.tasks[t])
    && r in s.pubs && s.pubs[r].t == t && s.pubs[r].k == 5 && s.pubs[r].g != s.tasks[t].gen
    && forall c :: 0 <= c < |s.cpus| ==> Aloof(s, s.cpus[c].pc, t)
  }

  /** A publisher of `t` other than `r` that has not stored its identity yet. */
  predicate Pending(s: State, t: int, r: nat, p: nat) { p in s.pubs && p != r && s.pubs[p].t == t && s.pubs[p].k != 6 }

  lemma {:induction false} FreshKey(keys: set<nat>) returns (p: nat)
    ensures forall k :: k in keys ==> k < p
    decreases |keys|
  {
    if keys == {} {
      p := 0;
    } else {
      var k :| k in keys;
      var q := FreshKey(keys - {k});
      p := if q > k then q else k + 1;
      forall j | j in keys ensures j < p { if j != k { assert j in keys - {k}; } }
    }
  }

  lemma One(s: State, l: Label, s': State)
    requires Enabled(s, l) && Quiet(s, l) && Apply(s, l) == s'
    ensures Leads(QuietStep, s, [l], s')
  {
    assert [l][1..] == [];
  }

  /** The publisher passes its checks and goes on to its next access: only the
      slot's queue number and identity can change. */
  lemma PubShape(s: State, t: int, p: nat, s': State)
    requires Typed(s) && Slot(s, t) && Selectable(s.tasks[t]) && p in s.pubs && s.pubs[p].t == t && s.pubs[p].k < 6
    requires s' == PubStep(s, p, s.pubs[p].target)
    ensures s'.cpus == s.cpus && s'.q == s.q && |s'.ident| == |s'.tasks| == |s.tasks|
    ensures s'.tasks == s.tasks || exists rq :: IsCpu(s, rq) && s'.tasks == s.tasks[t := s.tasks[t].(rq := rq)]
    ensures exists x: Pub :: x.t == t && x.k == s.pubs[p].k + 1 && IsCpu(s, x.target) && s'.pubs == s.pubs[p := x]
  {
    var k := s.pubs[p].k;
    assert s'.pubs[p].t == t && s'.pubs[p].k == k + 1 && s'.pubs == s.pubs[p := s'.pubs[p]];
  }

  lemma PubAdvances(s: State, t: int, r: nat, p: nat) returns (s': State)
    requires Overtaken(s, t, r) && Pending(s, t, r, p)
    ensures Leads(QuietStep, s, [PubNext(p, s.pubs[p].target)], s')
    ensures Overtaken(s', t, r) && s'.cpus == s.cpus && s'.pubs.Keys == s.pubs.Keys
    ensures s'.pubs[p].t == t && s'.pubs[p].k == s.pubs[p].k + 1
    ensures forall q :: q in s.pubs && q != p ==> s'.pubs[q] == s.pubs[q]
  {
    var l := PubNext(p, s.pubs[p].target);
    assert Enabled(s, l);
    s' := Apply(s, l);
    PubShape(s, t, p, s');
    forall c | 0 <= c < |s'.cpus| ensures CpuTyped(s', s'.cpus[c]) { assert CpuTyped(s, s.cpus[c]); }
    forall c | 0 <= c < |s'.cpus| ensures Aloof(s', s'.cpus[c].pc, t) {
      assert Aloof(s, s.cpus[c].pc, t);
    }
    One(s, l, s');
  }

  lemma {:induction false} PubStores(s: State, t: int, r: nat, p: nat) returns (labels: seq<Label>, s': State)
    requires Overtaken(s, t, r) && Pending(s, t, r, p)
    ensures Leads(QuietStep, s, labels, s')
    ensures Overtaken(s', t, r) && s'.cpus == s.cpus && s'.pubs.Keys == s.pubs.Keys
    ensures s'.pubs[p].t == t && s'.pubs[p].k == 6
    ensures forall q :: q in s.pubs && q != p ==> s'.pubs[q] == s.pubs[q]
    decreases 6 - s.pubs[p].k
  {
    var s1 := PubAdvances(s, t, r, p);
    var first := [PubNext(p, s.pubs[p].target)];
    if s1.pubs[p].k == 6 {
      labels, s' := first, s1;
    } else {
      var rest;
      rest, s' := PubStores(s1, t, r, p);
      labels := first + rest;
      LeadsConcat(QuietStep, s, first, s1, rest, s');
    }
  }

  /** Every other publisher stores its identity before `r` does. */
  lemma {:induction false} OthersStore(s: State, t: int, r: nat, todo: set<nat>) returns (labels: seq<Label>, s': State)
    requires Overtaken(s, t, r) && forall p :: Pending(s, t, r, p) ==> p in todo
    ensures Leads(QuietStep, s, labels, s')
    ensures Overtaken(s', t, r) && s'.cpus == s.cpus && forall p :: !Pending(s', t, r, p)
    decreases |todo|
  {
    if p :| Pending(s, t, r, p) {
      var a, s1 := PubStores(s, t, r, p);
      assert todo - {p} + {p} == todo;
      forall q | Pending(s1, t, r, q) ensures q in todo - {p} { assert Pending(s, t, r, q); }
      var b;
      b, s' := OthersStore(s1, t, r, todo - {p});
      labels := a + b;
      LeadsConcat(QuietStep, s, a, s1, b, s');
    } else {
      labels, s' := [], s;
    }
  }

  /** The continuations that owe `t` a publication start it. */
  lemma PublishOwed(s: State, t: int, r: nat, c: int) returns (l: Label, s': State)
    requires Overtaken(s, t, r) && IsCpu(s, c) && Owes(s.cpus[c].pc, t)
    ensures Leads(QuietStep, s, [l], s') && Overtaken(s', t, r) && |s'.cpus| == |s.cpus|
    ensures !Owes(s'.cpus[c].pc, t) && forall d :: 0 <= d < |s.cpus| && d != c ==> s'.cpus[d] == s.cpus[d]
  {
    var p := FreshKey(s.pubs.Keys);
    assert p !in s.pubs && r in s.pubs;
    l := Publish(c, p);
    s' := Apply(s, l);
    forall d | 0 <= d < |s'.cpus| ensures CpuTyped(s', s'.cpus[d]) { assert CpuTyped(s, s.cpus[d]); }
    forall d | 0 <= d < |s'.cpus| ensures Aloof(s', s'.cpus[d].pc, t) { assert Aloof(s, s.cpus[d].pc, t); }
    One(s, l, s');
  }

  lemma {:induction false} AllPublishOwed(s: State, t: int, r: nat, i: nat) returns (labels: seq<Label>, s': State)
    requires Overtaken(s, t, r) && i <= |s.cpus| && forall c :: 0 <= c < i ==> !Owes(s.cpus[c].pc, t)
    ensures Leads(QuietStep, s, labels, s') && Overtaken(s', t, r)
    ensures forall c :: 0 <= c < |s'.cpus| ==> !Owes(s'.cpus[c].pc, t)
    decreases |s.cpus| - i
  {
    if i == |s.cpus| {
      labels, s' := [], s;
    } else if Owes(s.cpus[i].pc, t) {
      var l, s1 := PublishOwed(s, t, r, i);
      var rest;
      rest, s' := AllPublishOwed(s1, t, r, i + 1);
      labels := [l] + rest;
      LeadsConcat(QuietStep, s, [l], s1, rest, s');
    } else {
      labels, s' := AllPublishOwed(s, t, r, i + 1);
    }
  }

  /** Last of all, `r` stores the stale identity: nobody is left to correct it. */
  lemma LastStoreLoses(s: State, t: int, r: nat) returns (l: Label, s': State)
    requires Overtaken(s, t, r) && forall p :: !Pending(s, t, r, p)
    requires forall c :: 0 <= c < |s.cpus| ==> !Owes(s.cpus[c].pc, t)
    ensures Leads(QuietStep, s, [l], s') && !AllAccounted(s')
  {
    l := PubNext(r, s.pubs[r].target);
    s' := Apply(s, l);
    assert !Fresh(s', t);
    forall p | p in s'.pubs ensures !Serves(s', s'.pubs[p], t) { assert !Pending(s, t, r, p); }
    forall c | 0 <= c < |s'.cpus| ensures !Bears(s', s'.cpus[c].pc, t) {
      assert Aloof(s, s.cpus[c].pc, t) && !Owes(s.cpus[c].pc, t);
    }
    assert !Accounted(s', t);
    One(s, l, s');
  }

  lemma OvertakenLoses(s: State, t: int, r: nat) returns (labels: seq<Label>, s': State)
    requires Overtaken(s, t, r)
    ensures Leads(QuietStep, s, labels, s') && !AllAccounted(s')
  {
    var a, s1 := AllPublishOwed(s, t, r, 0);
    var b, s2 := OthersStore(s1, t, r, s1.pubs.Keys);
    var l, s3 := LastStoreLoses(s2, t, r);
    LeadsConcat(QuietStep, s1, b, s2, [l], s3);
    LeadsConcat(QuietStep, s, a, s1, b + [l], s3);
    labels, s' := a + (b + [l]), s3;
  }

  /** A recycling that is not quiet leaves a publisher overtaken. */
  lemma LoudOvertakes(s: State, l: Label) returns (r: nat)
    requires Kept(s) && Enabled(s, l) && l.Recycle? && !Quiet(s, l)
    ensures Overtaken(Apply(s, l), l.t, r)
  {
    r :| r in s.pubs && s.pubs[r].t == l.t && s.pubs[r].k == 5;
    OtherInv(s, l);
    var s' := Apply(s, l);
    assert PubCurrent(s, s.pubs[r]);
    forall c | 0 <= c < |s'.cpus| ensures Aloof(s', s'.cpus[c].pc, l.t) {
      assert CpuTyped(s, s.cpus[c]) && Current(s, s.cpus[c].pc) && Guarded(s.cpus[c].pc) == NO_TASK;
    }
  }

  /** A recycling is safe if and only if no publisher of the slot has read an
      identity it has not stored yet. */
  lemma RecyclingSafeIffQuiet(s: State, l: Label)
    requires Kept(s) && Enabled(s, l) && l.Recycle?
    ensures Safe(Apply(s, l)) <==> Quiet(s, l)
  {
    var s1 := Apply(s, l);
    if Quiet(s, l) {
      StepKept(s, l);
      forall labels: seq<Label>, s': State | Leads(QuietStep, s1, labels, s') ensures AllAccounted(s') {
        KeptThroughout(s1, labels, s');
      }
    } else {
      var r := LoudOvertakes(s, l);
      var labels, s' := OvertakenLoses(s1, l.t, r);
    }
  }
}
