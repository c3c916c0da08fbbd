/** Keys: how the positions and numbers of a writer's lines are ordered,
    whichever rings they took and however the writer moved between CPUs. */
module ConsoleCle {
  import opened Console

  predicate IsRec(s: State, c: int, i: int) { 0 <= c < |s.cores| && 0 <= i < |s.cores[c]| }

  /** A deferred line against the main ring: its writer's earlier lines are
      exactly those below its position. */
  ghost predicate AgainstMain(r: Rec, main: seq<Line>)
  {
    && r.rep <= |main|
    && forall j :: 0 <= j < |main| && main[j].w == r.line.w ==>
         main[j].k != r.line.k && (main[j].k < r.line.k <==> j < r.rep)
  }

  predicate SameWriter(a: Rec, b: Rec)
  {
    a.line.w == b.line.w && a.line.k < b.line.k ==> a.rep <= b.rep && a.num < b.num
  }

  predicate Differ(a: Rec, b: Rec) { a.line.w == b.line.w ==> a.line.k != b.line.k }

  predicate InRing(a: Rec, b: Rec) { a.rep <= b.rep && a.num < b.num }

  /** A writer against a deferred line on ring `c`. */
  predicate WriterRec(w: nat, x: Writer, c: int, r: Rec)
  {
    && (r.line.w == w ==> r.line.k < x.k)
    && (!x.Idle? && (r.line.w == w || c == x.core) ==> r.rep <= x.rep)
    && (x.GotNum? && (r.line.w == w || c == x.core) ==> r.num < x.num)
  }

  ghost predicate WriterMain(w: nat, x: Writer, main: seq<Line>)
  {
    && (forall j :: 0 <= j < |main| && main[j].w == w ==> main[j].k < x.k && (!x.Idle? ==> j < x.rep))
    && (!x.Idle? ==> x.rep <= |main|)
  }

  ghost predicate MainOrder(main: seq<Line>)
  {
    forall i, j :: 0 <= i < j < |main| && main[i].w == main[j].w ==> main[i].k < main[j].k
  }

  ghost predicate Recs(s: State)
  {
    && (forall c, i :: IsRec(s, c, i) ==> AgainstMain(s.cores[c][i], s.main) && s.cores[c][i].num < s.numero)
    && (forall c, i, d, j :: IsRec(s, c, i) && IsRec(s, d, j) ==> SameWriter(s.cores[c][i], s.cores[d][j]))
    && (forall c, i, d, j :: IsRec(s, c, i) && IsRec(s, d, j) && (c != d || i != j) ==> Differ(s.cores[c][i], s.cores[d][j]))
    && (forall c, i, j :: IsRec(s, c, i) && IsRec(s, c, j) && i < j ==> InRing(s.cores[c][i], s.cores[c][j]))
  }

  ghost predicate Writers(s: State)
  {
    && (forall w :: w in s.writers ==> WriterMain(w, s.writers[w], s.main))
    && (forall w, c, i :: w in s.writers && IsRec(s, c, i) ==> WriterRec(w, s.writers[w], c, s.cores[c][i]))
    && (forall w :: w in s.writers && s.writers[w].GotNum? ==> s.writers[w].num < s.numero)
    && (forall v, w :: v in s.writers && w in s.writers && v != w && !s.writers[v].Idle? ==> Busy(s.writers[v]) != Busy(s.writers[w]))
  }

  ghost predicate Keys(s: State) { MainOrder(s.main) && Recs(s) && Writers(s) }

  lemma InitKeys(s: State)
    requires Init(s)
    ensures Keys(s)
  {
  }

  lemma RingRecs(s: State, w: nat, text: seq<Octet>)
    requires Keys(s) && Enabled(s, Ring(w, text))
    ensures Recs(Apply(s, Ring(w, text)))
  {
    var s' := Apply(s, Ring(w, text));
    forall c, i | IsRec(s', c, i) ensures AgainstMain(s'.cores[c][i], s'.main) {
      assert IsRec(s, c, i) && AgainstMain(s.cores[c][i], s.main) && WriterRec(w, s.writers[w], c, s.cores[c][i]);
    }
    forall c, i, d, j | IsRec(s', c, i) && IsRec(s', d, j)
      ensures SameWriter(s'.cores[c][i], s'.cores[d][j]) && (c != d || i != j ==> Differ(s'.cores[c][i], s'.cores[d][j]))
    {
      assert IsRec(s, c, i) && IsRec(s, d, j);
    }
  }

  lemma RingKeys(s: State, w: nat, text: seq<Octet>)
    requires Keys(s) && Enabled(s, Ring(w, text))
    ensures Keys(Apply(s, Ring(w, text)))
  {
    var s' := Apply(s, Ring(w, text));
    assert WriterMain(w, s.writers[w], s.main);
    RingRecs(s, w, text);
    forall v | v in s'.writers ensures WriterMain(v, s'.writers[v], s'.main) {
      assert WriterMain(v, s.writers[v], s.main);
    }
    forall v, c, i | v in s'.writers && IsRec(s', c, i) ensures WriterRec(v, s'.writers[v], c, s'.cores[c][i]) {
      assert WriterRec(v, s.writers[v], c, s.cores[c][i]);
    }
  }

  /** A step that only moves writer `w` inside `differe`. */
  lemma MoveKeys(s: State, w: nat, y: Writer, numero: nat)
    requires Keys(s) && w in s.writers && numero >= s.numero
    requires WriterMain(w, y, s.main) && (y.GotNum? ==> y.num < numero)
    requires forall c, i :: IsRec(s, c, i) ==> WriterRec(w, y, c, s.cores[c][i])
    requires !y.Idle? ==> forall v :: v in s.writers && v != w ==> Busy(s.writers[v]) != y.core
    ensures Keys(WithWriter(s, w, y).(numero := numero))
  {
    var s' := WithWriter(s, w, y).(numero := numero);
    assert Recs(s') by {
      forall c, i, d, j | IsRec(s', c, i) && IsRec(s', d, j)
        ensures SameWriter(s'.cores[c][i], s'.cores[d][j]) && (c != d || i != j ==> Differ(s'.cores[c][i], s'.cores[d][j]))
      {
        assert IsRec(s, c, i) && IsRec(s, d, j);
      }
    }
    forall v, c, i | v in s'.writers && IsRec(s', c, i) ensures WriterRec(v, s'.writers[v], c, s'.cores[c][i]) {
      assert IsRec(s, c, i);
      if v != w { assert WriterRec(v, s.writers[v], c, s.cores[c][i]); }
    }
  }

  lemma BeginKeys(s: State, w: nat, core: nat, text: seq<Octet>)
    requires Keys(s) && Enabled(s, Begin(w, core, text))
    ensures Keys(Apply(s, Begin(w, core, text)))
  {
    var y := GotRep(s.writers[w].k, core, text, |s.main|);
    assert WriterMain(w, s.writers[w], s.main);
    forall c, i | IsRec(s, c, i) ensures WriterRec(w, y, c, s.cores[c][i]) {
      assert WriterRec(w, s.writers[w], c, s.cores[c][i]) && AgainstMain(s.cores[c][i], s.main);
    }
    MoveKeys(s, w, y, s.numero);
  }

  lemma NumberKeys(s: State, w: nat)
    requires Keys(s) && Enabled(s, Number(w))
    ensures Keys(Apply(s, Number(w)))
  {
    var x := s.writers[w];
    var y := GotNum(x.k, x.core, x.text, x.rep, s.numero);
    assert WriterMain(w, x, s.main);
    forall c, i | IsRec(s, c, i) ensures WriterRec(w, y, c, s.cores[c][i]) {
      assert WriterRec(w, x, c, s.cores[c][i]);
    }
    MoveKeys(s, w, y, s.numero + 1);
  }

  lemma GiveUpKeys(s: State, w: nat, k: nat)
    requires Keys(s) && w in s.writers && k >= s.writers[w].k
    ensures Keys(WithWriter(s, w, Idle(k)))
  {
    var x := s.writers[w];
    assert WriterMain(w, x, s.main);
    forall c, i | IsRec(s, c, i) ensures WriterRec(w, Idle(k), c, s.cores[c][i]) {
      assert WriterRec(w, x, c, s.cores[c][i]);
    }
    MoveKeys(s, w, Idle(k), s.numero);
  }

  /** Keys survive any change of the rings that maps each record to an old one
      of the same ring, in the same order, marks aside. */
  lemma MapKeys(s: State, s': State, shift: seq<int>)
    requires Keys(s) && s'.main == s.main && s'.numero == s.numero && s'.writers == s.writers
    requires |s'.cores| == |s.cores| == |shift|
    requires forall c, i :: IsRec(s', c, i) ==>
      shift[c] >= 0 && IsRec(s, c, i + shift[c]) && s'.cores[c][i].(late := false) == s.cores[c][i + shift[c]].(late := false)
    ensures Keys(s')
  {
    forall c, i | IsRec(s', c, i) ensures AgainstMain(s'.cores[c][i], s'.main) && s'.cores[c][i].num < s'.numero {
      assert IsRec(s, c, i + shift[c]);
    }
    forall c, i, d, j | IsRec(s', c, i) && IsRec(s', d, j)
      ensures SameWriter(s'.cores[c][i], s'.cores[d][j]) && (c != d || i != j ==> Differ(s'.cores[c][i], s'.cores[d][j]))
    {
      assert IsRec(s, c, i + shift[c]) && IsRec(s, d, j + shift[d]);
    }
    forall c, i, j | IsRec(s', c, i) && IsRec(s', c, j) && i < j ensures InRing(s'.cores[c][i], s'.cores[c][j]) {
      assert IsRec(s, c, i + shift[c]) && IsRec(s, c, j + shift[c]);
    }
    forall w, c, i | w in s'.writers && IsRec(s', c, i) ensures WriterRec(w, s'.writers[w], c, s'.cores[c][i]) {
      assert IsRec(s, c, i + shift[c]);
    }
  }

  /** What a step of the token holder does to the rings. */
  lemma DrainShape(s: State, budget: nat)
    ensures var t := DrainStep(s, budget);
      && t.main == s.main && t.numero == s.numero && t.writers == s.writers && t.published == s.published
      && (|| t.cores == s.cores
          || (s.d.Taken? && t.cores == AllOnTime(s.cores))
          || (s.d.EmitDeferred? && s.d.core < |s.cores| && s.cores[s.d.core] != []
              && t.cores == s.cores[s.d.core := s.cores[s.d.core][1..]]))
  {
  }

  lemma OnTimeKeys(s: State, s': State)
    requires Keys(s) && s'.main == s.main && s'.numero == s.numero && s'.writers == s.writers
    requires s'.cores == AllOnTime(s.cores) || s'.cores == s.cores
    ensures Keys(s')
  {
    var shift := seq(|s.cores|, _ => 0);
    forall c, i | IsRec(s', c, i)
      ensures IsRec(s, c, i + shift[c]) && s'.cores[c][i].(late := false) == s.cores[c][i + shift[c]].(late := false)
    {
    }
    MapKeys(s, s', shift);
  }

  lemma PopKeys(s: State, s': State, core: int)
    requires Keys(s) && s'.main == s.main && s'.numero == s.numero && s'.writers == s.writers
    requires 0 <= core < |s.cores| && s.cores[core] != [] && s'.cores == s.cores[core := s.cores[core][1..]]
    ensures Keys(s')
  {
    var shift := seq(|s.cores|, c => if c == core then 1 else 0);
    forall c, i | IsRec(s', c, i)
      ensures IsRec(s, c, i + shift[c]) && s'.cores[c][i].(late := false) == s.cores[c][i + shift[c]].(late := false)
    {
    }
    MapKeys(s, s', shift);
  }

  lemma DrainKeys(s: State, budget: nat)
    requires Keys(s)
    ensures Keys(DrainStep(s, budget))
  {
    DrainShape(s, budget);
    var s' := DrainStep(s, budget);
    if s'.cores == s.cores || s.d.Taken? { OnTimeKeys(s, s'); } else { PopKeys(s, s', s.d.core); }
  }

  predicate Compatible(a: Rec, b: Rec) { SameWriter(a, b) && SameWriter(b, a) && Differ(a, b) && Differ(b, a) }

  /** The new record of writer `w` against everything already there. */
  lemma NewRec(s: State, w: nat, late: bool)
    requires Keys(s) && w in s.writers && s.writers[w].GotNum?
    ensures var x := s.writers[w];
      var r := Rec(Line(w, x.k, x.text), x.rep, x.num, late);
      && AgainstMain(r, s.main) && r.num < s.numero
      && (forall c, i :: IsRec(s, c, i) ==>
            Compatible(s.cores[c][i], r) && (c == x.core ==> InRing(s.cores[c][i], r)))
      && (forall v :: v in s.writers && v != w ==> WriterRec(v, s.writers[v], x.core, r))
  {
    var x := s.writers[w];
    var r := Rec(Line(w, x.k, x.text), x.rep, x.num, late);
    assert WriterMain(w, x, s.main);
    forall c, i | IsRec(s, c, i)
      ensures Compatible(s.cores[c][i], r) && (c == x.core ==> InRing(s.cores[c][i], r))
    {
      assert WriterRec(w, x, c, s.cores[c][i]);
    }
    forall v | v in s.writers && v != w ensures WriterRec(v, s.writers[v], x.core, r) {
      assert Busy(s.writers[v]) != Busy(x);
    }
  }

  lemma PublishKeys(s: State, w: nat)
    requires Keys(s) && Enabled(s, Publish(w))
    ensures Keys(Apply(s, Publish(w)))
  {
    var s', x := Apply(s, Publish(w)), s.writers[w];
    var late := Behind(s.d, x.core);
    var r, n := Rec(Line(w, x.k, x.text), x.rep, x.num, late), |s.cores[x.core]|;
    NewRec(s, w, late);
    assert s'.cores[x.core][n] == r;
    forall c, i | IsRec(s', c, i) ensures (IsRec(s, c, i) && s'.cores[c][i] == s.cores[c][i]) || (c == x.core && i == n) {
    }
    PublishRecs(s, s', x.core, r);
    PublishWriters(s, s', w, r);
  }

  lemma PublishRecs(s: State, s': State, core: int, r: Rec)
    requires Keys(s) && 0 <= core < |s.cores| && s'.cores == s.cores[core := s.cores[core] + [r]]
    requires s'.main == s.main && s'.numero == s.numero && AgainstMain(r, s.main) && r.num < s.numero
    requires forall c, i :: IsRec(s, c, i) ==>
      Compatible(s.cores[c][i], r) && (c == core ==> InRing(s.cores[c][i], r))
    ensures Recs(s')
  {
    forall c, i | IsRec(s', c, i)
      ensures AgainstMain(s'.cores[c][i], s'.main) && s'.cores[c][i].num < s'.numero
    {
      if IsRec(s, c, i) { assert s'.cores[c][i] == s.cores[c][i]; }
    }
    forall c, i, d, j | IsRec(s', c, i) && IsRec(s', d, j)
      ensures SameWriter(s'.cores[c][i], s'.cores[d][j]) && (c != d || i != j ==> Differ(s'.cores[c][i], s'.cores[d][j]))
    {
      if IsRec(s, c, i) { assert s'.cores[c][i] == s.cores[c][i]; }
      if IsRec(s, d, j) { assert s'.cores[d][j] == s.cores[d][j]; }
    }
    forall c, i, j | IsRec(s', c, i) && IsRec(s', c, j) && i < j ensures InRing(s'.cores[c][i], s'.cores[c][j]) {
      assert IsRec(s, c, i) && s'.cores[c][i] == s.cores[c][i];
      if IsRec(s, c, j) { assert s'.cores[c][j] == s.cores[c][j]; }
    }
  }

  lemma PublishWriters(s: State, s': State, w: nat, r: Rec)
    requires Keys(s) && Enabled(s, Publish(w)) && s' == Apply(s, Publish(w))
    requires s'.cores == s.cores[s.writers[w].core := s.cores[s.writers[w].core] + [r]]
    requires r.line.w == w && r.line.k == s.writers[w].k
    requires forall v :: v in s.writers && v != w ==> WriterRec(v, s.writers[v], s.writers[w].core, r)
    ensures Writers(s')
  {
    forall v | v in s'.writers ensures WriterMain(v, s'.writers[v], s'.main) {
      assert WriterMain(v, s.writers[v], s.main);
    }
    forall v, c, i | v in s'.writers && IsRec(s', c, i) ensures WriterRec(v, s'.writers[v], c, s'.cores[c][i]) {
      if IsRec(s, c, i) {
        assert s'.cores[c][i] == s.cores[c][i] && WriterRec(v, s.writers[v], c, s.cores[c][i]);
      }
    }
  }

  lemma StepKeys(s: State, l: Label)
    requires Keys(s) && Enabled(s, l)
    ensures Keys(Apply(s, l))
  {
    if l.Ring? { RingKeys(s, l.w, l.text); }
    else if l.Begin? { BeginKeys(s, l.w, l.core, l.text); }
    else if l.Number? { NumberKeys(s, l.w); }
    else if l.Publish? { PublishKeys(s, l.w); }
    else { OtherKeys(s, l); }
  }

  lemma OtherKeys(s: State, l: Label)
    requires Keys(s) && Enabled(s, l) && (l.Retry? || l.Lose? || l.Seek? || l.Take? || l.GiveUp? || l.Next?)
    ensures Keys(Apply(s, l))
  {
    if l.Retry? { GiveUpKeys(s, l.w, s.writers[l.w].k); }
    else if l.Lose? { GiveUpKeys(s, l.w, s.writers[l.w].k + 1); }
    else if l.Seek? || l.Take? || l.GiveUp? { OnTimeKeys(s, Apply(s, l)); }
    else { DrainKeys(s, l.budget); }
  }
}
