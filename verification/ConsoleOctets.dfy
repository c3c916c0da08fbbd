/** Every line comes out whole, in one piece, exactly once, although it is sent
    a piece at a time by successive token holders. */
module ConsoleOctets {
  import opened Console
  import opened ConsoleCle
  import opened ConsoleOrdre

  function Upto(lines: seq<Line>, k: nat): seq<Octet>
    requires k <= |lines|
  {
    if k == 0 then [] else Upto(lines, k - 1) + lines[k - 1].text
  }

  /** The texts of the lines, one after the other. */
  function Flat(lines: seq<Line>): seq<Octet> { Upto(lines, |lines|) }

  lemma {:induction false} UptoAppend(lines: seq<Line>, line: Line, k: nat)
    requires k <= |lines|
    ensures Upto(lines + [line], k) == Upto(lines, k)
  {
    if k > 0 { UptoAppend(lines, line, k - 1); }
  }

  lemma FlatAppend(lines: seq<Line>, line: Line)
    ensures Flat(lines + [line]) == Flat(lines) + line.text
  {
    UptoAppend(lines, line, |lines|);
  }

  /** What remains to send of the line in progress. */
  function Rest(s: State): seq<Octet>
    requires HeadOk(s)
  {
    if s.entame == 0 then [] else s.main[s.lus].text[s.entame - STAMP..]
  }

  /** The port has carried the lines begun, one after the other, less what
      remains of the last. */
  ghost predicate Contiguous(s: State)
  {
    && HeadOk(s)
    && s.bytes + Rest(s) == Flat(s.out)
    && (s.entame != 0 ==> s.out != [] && s.out[|s.out| - 1] == s.main[s.lus])
  }

  lemma Piece(b: seq<Octet>, text: seq<Octet>, x: nat, y: nat)
    requires x <= y <= |text|
    ensures (b + text[x..y]) + text[y..] == b + text[x..]
  {
    assert text[x..y] + text[y..] == text[x..];
  }

  /** From where the head is resumed, the port still owes the rest of its text. */
  lemma Owed(s: State, line: Line, from: nat)
    requires Contiguous(s) && s.lus < |s.main| && line == s.main[s.lus]
    requires from == if s.entame == 0 then STAMP else s.entame
    ensures STAMP <= from <= STAMP + |line.text|
    ensures s.bytes + line.text[from - STAMP..] == Flat(if s.entame == 0 then s.out + [line] else s.out)
  {
    if s.entame == 0 {
      FlatAppend(s.out, line);
      assert line.text[0..] == line.text;
    }
  }

  /** The head advanced from `from` to `to`. */
  lemma AdvanceFields(s: State, budget: nat, from: nat, to: nat)
    requires HeadOk(s) && budget > 0 && s.lus < |s.main| && s.main[s.lus].text != []
    requires from == (if s.entame == 0 then STAMP else s.entame) && to == Min(from + budget, STAMP + |s.main[s.lus].text|)
    ensures var t, line := AdvanceHead(s, budget), s.main[s.lus];
      && STAMP <= from < to <= STAMP + |line.text| && t.main == s.main
      && t.out == (if s.entame == 0 then s.out + [line] else s.out)
      && t.bytes == s.bytes + line.text[from - STAMP..to - STAMP]
      && (if to < STAMP + |line.text| then t.entame == to && t.lus == s.lus else t.entame == 0 && t.lus == s.lus + 1)
  {
  }

  lemma AdvanceContiguous(s: State, budget: nat)
    requires Contiguous(s) && budget > 0 && s.lus < |s.main| && s.main[s.lus].text != []
    ensures Contiguous(AdvanceHead(s, budget))
  {
    var line := s.main[s.lus];
    var n, from := STAMP + |line.text|, if s.entame == 0 then STAMP else s.entame;
    var to := Min(from + budget, n);
    AdvanceFields(s, budget, from, to);
    AdvanceRest(s, budget, from, to);
    AdvanceBytes(s, line, from, to);
  }

  /** What was owed is what is sent now and what is owed then. */
  lemma AdvanceBytes(s: State, line: Line, from: nat, to: nat)
    requires Contiguous(s) && s.lus < |s.main| && line == s.main[s.lus]
    requires from == (if s.entame == 0 then STAMP else s.entame) && STAMP <= from <= to <= STAMP + |line.text|
    ensures s.bytes + line.text[from - STAMP..to - STAMP] + line.text[to - STAMP..]
         == Flat(if s.entame == 0 then s.out + [line] else s.out)
  {
    Owed(s, line, from);
    Piece(s.bytes, line.text, from - STAMP, to - STAMP);
  }

  lemma AdvanceRest(s: State, budget: nat, from: nat, to: nat)
    requires HeadOk(s) && budget > 0 && s.lus < |s.main| && s.main[s.lus].text != []
    requires from == (if s.entame == 0 then STAMP else s.entame) && to == Min(from + budget, STAMP + |s.main[s.lus].text|)
    ensures var t := AdvanceHead(s, budget); to >= STAMP && HeadOk(t) && Rest(t) == s.main[s.lus].text[to - STAMP..]
  {
    AdvanceFields(s, budget, from, to);
    if to == STAMP + |s.main[s.lus].text| { assert s.main[s.lus].text[to - STAMP..] == []; }
  }

  ghost predicate NonEmpty(s: State)
  {
    && (forall j :: 0 <= j < |s.main| ==> s.main[j].text != [])
    && (forall w :: w in s.writers && !s.writers[w].Idle? ==> s.writers[w].text != [])
  }

  lemma StepNonEmpty(s: State, l: Label)
    requires NonEmpty(s) && Enabled(s, l)
    ensures NonEmpty(Apply(s, l))
  {
    if l.Next? { DrainShape(s, l.budget); }
  }

  lemma WriterContiguous(s: State, l: Label)
    requires Contiguous(s) && Enabled(s, l) && !l.Next?
    ensures Contiguous(Apply(s, l))
  {
    WriterShape(s, l);
    var s' := Apply(s, l);
    assert s.lus < |s.main| ==> s'.main[s.lus] == s.main[s.lus];
  }

  /** Writers and the taking of the token touch neither the port nor the head. */
  lemma WriterShape(s: State, l: Label)
    requires Enabled(s, l) && !l.Next?
    ensures var t := Apply(s, l);
      t.out == s.out && t.bytes == s.bytes && t.lus == s.lus && t.entame == s.entame && s.main <= t.main
  {
  }

  lemma DrainContiguous(s: State, budget: nat)
    requires Sound(s) && Contiguous(s) && NonEmpty(s) && Enabled(s, Next(budget))
    ensures Contiguous(DrainStep(s, budget))
  {
    if s.d.Advance? {
      if s.lus < |s.main| { AdvanceContiguous(s, budget); }
    } else if s.d.EmitDeferred? {
      EmitContiguous(s, budget);
    }
  }

  lemma EmitContiguous(s: State, budget: nat)
    requires Sound(s) && Contiguous(s) && s.d.EmitDeferred?
    ensures Contiguous(DrainStep(s, budget))
  {
    assert IsRec(s, s.d.core, 0);
    var line := s.cores[s.d.core][0].line;
    FlatAppend(s.out, line);
    var s' := DrainStep(s, budget);
    assert s'.out == s.out + [line] && s'.bytes == s.bytes + line.text && Rest(s') == [];
  }

  // ---- Exactly once ----

  function Lines(ring: seq<Rec>): (r: seq<Line>)
    ensures |r| == |ring|
  {
    seq(|ring|, i requires 0 <= i < |ring| => ring[i].line)
  }

  function Below(cores: seq<seq<Rec>>, n: nat): multiset<Line>
    requires n <= |cores|
  {
    if n == 0 then multiset{} else Below(cores, n - 1) + multiset(Lines(cores[n - 1]))
  }

  /** Every deferred line waiting, with multiplicity. */
  function Deferred(cores: seq<seq<Rec>>): multiset<Line> { Below(cores, |cores|) }

  lemma {:induction false} BelowElse(cores: seq<seq<Rec>>, c: nat, ring: seq<Rec>, n: nat)
    requires n <= c < |cores|
    ensures Below(cores[c := ring], n) == Below(cores, n)
  {
    if n > 0 { BelowElse(cores, c, ring, n - 1); }
  }

  lemma {:induction false} BelowUpdate(cores: seq<seq<Rec>>, c: nat, ring: seq<Rec>, n: nat)
    requires c < n <= |cores|
    ensures Below(cores[c := ring], n) + multiset(Lines(cores[c])) == Below(cores, n) + multiset(Lines(ring))
  {
    var a, b := Below(cores[c := ring], n - 1), Below(cores, n - 1);
    if c < n - 1 {
      BelowUpdate(cores, c, ring, n - 1);
      Swap(a, multiset(Lines(cores[n - 1])), multiset(Lines(cores[c])));
      Swap(b, multiset(Lines(cores[n - 1])), multiset(Lines(ring)));
    } else {
      BelowElse(cores, c, ring, n - 1);
      Swap(b, multiset(Lines(ring)), multiset(Lines(cores[c])));
    }
  }

  lemma Swap(a: multiset<Line>, b: multiset<Line>, c: multiset<Line>)
    ensures a + b + c == a + c + b
  {
  }

  lemma DeferredUpdate(cores: seq<seq<Rec>>, c: nat, ring: seq<Rec>)
    requires c < |cores|
    ensures Deferred(cores[c := ring]) + multiset(Lines(cores[c])) == Deferred(cores) + multiset(Lines(ring))
  {
    BelowUpdate(cores, c, ring, |cores|);
  }

  lemma {:induction false} BelowOnTime(cores: seq<seq<Rec>>, n: nat)
    requires n <= |cores|
    ensures Below(AllOnTime(cores), n) == Below(cores, n)
  {
    if n > 0 {
      BelowOnTime(cores, n - 1);
      assert AllOnTime(cores)[n - 1] == OnTime(cores[n - 1]);
      LinesOnTime(cores[n - 1]);
    }
  }

  lemma LinesOnTime(ring: seq<Rec>)
    ensures Lines(OnTime(ring)) == Lines(ring)
  {
  }

  /** Begun, waiting in the main ring or waiting in a deferred ring: together,
      exactly what was published. */
  ghost predicate Conserved(s: State)
  {
    Started(s) <= |s.main|
    && multiset(s.out) + multiset(s.main[Started(s)..]) + Deferred(s.cores) == multiset(s.published)
  }

  lemma AppendDeferred(cores: seq<seq<Rec>>, c: nat, r: Rec)
    requires c < |cores|
    ensures Deferred(cores[c := cores[c] + [r]]) == Deferred(cores) + multiset{r.line}
  {
    DeferredUpdate(cores, c, cores[c] + [r]);
    assert Lines(cores[c] + [r]) == Lines(cores[c]) + [r.line];
    Cancel(Deferred(cores[c := cores[c] + [r]]), Deferred(cores) + multiset{r.line}, multiset(Lines(cores[c])));
  }

  lemma PopDeferred(cores: seq<seq<Rec>>, c: nat)
    requires c < |cores| && cores[c] != []
    ensures Deferred(cores[c := cores[c][1..]]) + multiset{cores[c][0].line} == Deferred(cores)
  {
    var rest := cores[c][1..];
    DeferredUpdate(cores, c, rest);
    assert Lines(cores[c]) == [cores[c][0].line] + Lines(rest);
    Cancel(Deferred(cores[c := rest]) + multiset{cores[c][0].line}, Deferred(cores), multiset(Lines(rest)));
  }

  lemma Cancel(a: multiset<Line>, b: multiset<Line>, c: multiset<Line>)
    requires a + c == b + c
    ensures a == b
  {
    assert forall x :: a[x] == (a + c)[x] - c[x];
    assert forall x :: b[x] == (b + c)[x] - c[x];
  }

  lemma RingConserved(s: State, w: nat, text: seq<Octet>)
    requires Conserved(s) && Enabled(s, Ring(w, text))
    ensures Conserved(Apply(s, Ring(w, text)))
  {
    var s', n := Apply(s, Ring(w, text)), Started(s);
    var line := Line(w, s.writers[w].k, text);
    assert s'.main[n..] == s.main[n..] + [line];
    Move(multiset(s.out), multiset(s.main[n..]), Deferred(s.cores), line);
  }

  lemma Move(a: multiset<Line>, b: multiset<Line>, c: multiset<Line>, x: Line)
    ensures a + (b + multiset{x}) + c == a + b + c + multiset{x} == a + b + (c + multiset{x})
  {
  }

  lemma PublishConserved(s: State, w: nat)
    requires Conserved(s) && Enabled(s, Publish(w))
    ensures Conserved(Apply(s, Publish(w)))
  {
    var x, n := s.writers[w], Started(s);
    var line := Line(w, x.k, x.text);
    AppendDeferred(s.cores, x.core, Rec(line, x.rep, x.num, Behind(s.d, x.core)));
    Move(multiset(s.out), multiset(s.main[n..]), Deferred(s.cores), line);
  }

  lemma WriterConserved(s: State, l: Label)
    requires Conserved(s) && Enabled(s, l) && !l.Next?
    ensures Conserved(Apply(s, l))
  {
    if l.Ring? { RingConserved(s, l.w, l.text); } else if l.Publish? { PublishConserved(s, l.w); }
  }

  lemma EmitConserved(s: State, budget: nat)
    requires Conserved(s) && s.d.EmitDeferred? && s.d.core < |s.cores| && s.cores[s.d.core] != [] && s.entame == 0
    ensures Conserved(DrainStep(s, budget))
  {
    PopDeferred(s.cores, s.d.core);
    var line, rest := s.cores[s.d.core][0].line, multiset(s.main[Started(s)..]);
    var popped := Deferred(s.cores[s.d.core := s.cores[s.d.core][1..]]);
    Move(multiset(s.out), rest, popped, line);
    Swap(multiset(s.out), multiset{line}, rest);
    Swap(multiset(s.out) + rest, multiset{line}, popped);
  }

  lemma AdvanceShape(s: State, budget: nat)
    requires HeadOk(s) && budget > 0 && s.lus < |s.main| && s.main[s.lus].text != []
    ensures var t := AdvanceHead(s, budget);
      && t.main == s.main && t.cores == s.cores && t.published == s.published && Started(t) == s.lus + 1
      && t.out == if s.entame == 0 then s.out + [s.main[s.lus]] else s.out
  {
  }

  lemma AdvanceConserved(s: State, budget: nat)
    requires Conserved(s) && HeadOk(s) && budget > 0 && s.lus < |s.main| && s.main[s.lus].text != []
    ensures Conserved(AdvanceHead(s, budget))
  {
    AdvanceShape(s, budget);
    if s.entame == 0 { Shift(s.out, s.main, s.lus); }
  }

  lemma Shift(out: seq<Line>, main: seq<Line>, n: nat)
    requires n < |main|
    ensures multiset(out + [main[n]]) + multiset(main[n + 1..]) == multiset(out) + multiset(main[n..])
  {
    assert main[n..] == [main[n]] + main[n + 1..];
  }

  lemma QuietConserved(s: State, budget: nat)
    requires HeadOk(s) && Conserved(s) && budget > 0 && Beginning(s).None?
    ensures Conserved(DrainStep(s, budget))
  {
    SilentShape(s, budget);
    BelowOnTime(s.cores, |s.cores|);
    DrainShape(s, budget);
  }

  lemma DrainConserved(s: State, budget: nat)
    requires Sound(s) && Conserved(s) && NonEmpty(s) && Enabled(s, Next(budget))
    ensures Conserved(DrainStep(s, budget))
  {
    if s.d.EmitDeferred? {
      assert IsRec(s, s.d.core, 0);
      EmitConserved(s, budget);
    } else if s.d.Advance? && s.lus < |s.main| {
      AdvanceConserved(s, budget);
    } else {
      QuietConserved(s, budget);
    }
  }

  /** No line is published twice. */
  ghost predicate Fresh(s: State)
  {
    && (forall i, j :: 0 <= i < j < |s.published| ==> s.published[i].w != s.published[j].w || s.published[i].k != s.published[j].k)
    && (forall i :: 0 <= i < |s.published| ==> s.published[i].w in s.writers && s.published[i].k < s.writers[s.published[i].w].k)
  }

  lemma StepFresh(s: State, l: Label)
    requires Fresh(s) && Enabled(s, l)
    ensures Fresh(Apply(s, l))
  {
    if l.Next? { DrainShape(s, l.budget); }
  }

  ghost predicate Whole(s: State) { Contiguous(s) && Conserved(s) && NonEmpty(s) && Fresh(s) }

  lemma StepWhole(s: State, l: Label)
    requires Sound(s) && Whole(s) && Enabled(s, l)
    ensures Whole(Apply(s, l))
  {
    StepNonEmpty(s, l);
    StepFresh(s, l);
    if l.Next? {
      DrainContiguous(s, l.budget);
      DrainConserved(s, l.budget);
    } else {
      WriterContiguous(s, l);
      WriterConserved(s, l);
    }
  }

  lemma {:induction false} RunWhole(states: seq<State>, labels: seq<Label>, i: nat)
    requires Run(states, labels) && i <= |labels|
    ensures Whole(states[i])
  {
    if i == 0 {
      InitWhole(states[0]);
    } else {
      RunWhole(states, labels, i - 1);
      RunSound(states, labels, i - 1);
      var s, l := states[i - 1], labels[i - 1];
      assert states[i - 1 + 1] == Apply(s, l);
      StepWhole(s, l);
    }
  }

  lemma InitWhole(s: State)
    requires Init(s)
    ensures Whole(s)
  {
    NoneBelow(s.cores, |s.cores|);
  }

  lemma {:induction false} NoneBelow(cores: seq<seq<Rec>>, n: nat)
    requires n <= |cores| && forall c :: 0 <= c < |cores| ==> cores[c] == []
    ensures Below(cores, n) == multiset{}
  {
    if n > 0 { NoneBelow(cores, n - 1); }
  }

  // ---- No line vanishes ----

  predicate HasPublished(s: State, w: nat, j: nat)
  {
    exists i :: 0 <= i < |s.published| && s.published[i].w == w && s.published[i].k == j
  }

  predicate Loses(s: State, l: Label, w: nat, j: nat) { l == Lose(w) && w in s.writers && s.writers[w].k == j }

  /** A writer goes past its line `j` only by publishing it or by losing it. */
  predicate Accounts(s: State, l: Label, s': State, w: nat, j: nat)
  {
    && (HasPublished(s, w, j) ==> HasPublished(s', w, j))
    && (w in s'.writers && j < s'.writers[w].k ==>
          (w in s.writers && j < s.writers[w].k) || HasPublished(s', w, j) || Loses(s, l, w, j))
  }

  lemma AccountsStep(s: State, l: Label, w: nat, j: nat)
    requires Enabled(s, l)
    ensures Accounts(s, l, Apply(s, l), w, j)
  {
    var s' := Apply(s, l);
    if l.Next? { DrainShape(s, l.budget); }
    assert s.published <= s'.published;
    if HasPublished(s, w, j) {
      var i :| 0 <= i < |s.published| && s.published[i].w == w && s.published[i].k == j;
      assert s'.published[i].w == w && s'.published[i].k == j;
    }
    if l.Ring? || l.Publish? {
      var line := s'.published[|s.published|];
      assert line.w == l.w && line.k == s.writers[l.w].k;
    }
  }

  lemma {:induction false} AccountedSince(states: seq<State>, labels: seq<Label>, w: nat, j: nat, n: nat) returns (m: nat)
    requires n <= |labels| < |states| && w in states[n].writers && j < states[n].writers[w].k
    requires w in states[0].writers ==> states[0].writers[w].k == 0
    requires forall i :: 0 <= i < n ==> Accounts(states[i], labels[i], states[i + 1], w, j)
    ensures HasPublished(states[n], w, j) || (m < n && Loses(states[m], labels[m], w, j))
  {
    m := 0;
    if n > 0 {
      assert Accounts(states[n - 1], labels[n - 1], states[n - 1 + 1], w, j);
      if w in states[n - 1].writers && j < states[n - 1].writers[w].k { m := AccountedSince(states, labels, w, j, n - 1); } else { m := n - 1; }
    }
  }

  /** Every line a writer is past has been published, or was lost where the writer
      says so: when its CPU's ring had no room. */
  lemma NoLineVanishes(states: seq<State>, labels: seq<Label>, w: nat, j: nat, n: nat) returns (m: nat)
    requires Run(states, labels) && n <= |labels| && w in states[n].writers && j < states[n].writers[w].k
    ensures HasPublished(states[n], w, j) || (m < n && Loses(states[m], labels[m], w, j))
  {
    forall i | 0 <= i < n ensures Accounts(states[i], labels[i], states[i + 1], w, j) {
      assert Enabled(states[i], labels[i]) && states[i + 1] == Apply(states[i], labels[i]);
      AccountsStep(states[i], labels[i], w, j);
    }
    m := AccountedSince(states, labels, w, j, n);
  }

  lemma {:induction false} AtMostOnce(lines: seq<Line>, x: Line)
    requires forall i, j :: 0 <= i < j < |lines| ==> lines[i].w != lines[j].w || lines[i].k != lines[j].k
    ensures multiset(lines)[x] <= 1
  {
    if lines != [] {
      var n := |lines| - 1;
      AtMostOnce(lines[..n], x);
      assert lines == lines[..n] + [lines[n]];
      if lines[n] == x { assert x !in lines[..n]; }
    }
  }

  /** In every run: the port carries whole lines back to back; each published
      line is begun at most once, nothing else ever is; and once nothing waits,
      each has come out exactly once. */
  lemma WholeAndOnce(states: seq<State>, labels: seq<Label>, i: nat)
    requires Run(states, labels) && i <= |labels|
    ensures HeadOk(states[i]) && states[i].bytes + Rest(states[i]) == Flat(states[i].out)
    ensures forall x :: multiset(states[i].out)[x] <= multiset(states[i].published)[x] <= 1
    ensures Started(states[i]) == |states[i].main| && (forall c :: 0 <= c < |states[i].cores| ==> states[i].cores[c] == []) ==>
              multiset(states[i].out) == multiset(states[i].published)
  {
    RunWhole(states, labels, i);
    var s := states[i];
    forall x ensures multiset(s.out)[x] <= multiset(s.published)[x] <= 1 {
      AtMostOnce(s.published, x);
      assert (multiset(s.out) + multiset(s.main[Started(s)..]) + Deferred(s.cores))[x] >= multiset(s.out)[x];
    }
    if Started(s) == |s.main| && forall c :: 0 <= c < |s.cores| ==> s.cores[c] == [] {
      NoneBelow(s.cores, |s.cores|);
      assert s.main[Started(s)..] == [];
    }
  }
}
