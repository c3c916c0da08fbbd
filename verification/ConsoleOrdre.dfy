/** The order of a writer's lines on the port: when the merge keeps it, and
    exactly when it does not. */
module ConsoleOrdre {
  import opened Commun
  import opened Console
  import opened ConsoleCle

  predicate LeqKey(rep: nat, num: nat, r: Rec) { rep < r.rep || (rep == r.rep && num <= r.num) }

  predicate HeadOk(s: State)
  {
    && s.lus <= |s.main|
    && (s.entame != 0 ==> s.lus < |s.main| && STAMP < s.entame < STAMP + |s.main[s.lus].text|)
  }

  /** The best head of the rings scanned so far, and what it is best of: every
      mature record that was there when the scan passed. */
  ghost predicate Scanned(s: State, lus: nat, c: nat, best: Best)
  {
    && (best.Best? ==>
          && best.core < c && best.rep <= lus && IsRec(s, best.core, 0)
          && s.cores[best.core][0].rep == best.rep && s.cores[best.core][0].num == best.num)
    && (forall d, i :: IsRec(s, d, i) && d < c && !s.cores[d][i].late && s.cores[d][i].rep <= lus ==>
          best.Best? && LeqKey(best.rep, best.num, s.cores[d][i]))
  }

  ghost predicate DrainOk(s: State)
  {
    match s.d
    case Free => true
    case Taken => true
    case Scan(lus, c, best) => s.entame == 0 && lus == s.lus && c <= |s.cores| && Scanned(s, lus, c, best)
    case EmitDeferred(core) =>
      s.entame == 0 && IsRec(s, core, 0)
      && Scanned(s, s.lus, |s.cores|, Best(core, s.cores[core][0].rep, s.cores[core][0].num))
    case Advance => s.entame == 0 ==> Scanned(s, s.lus, |s.cores|, NoBest)
  }

  ghost predicate Sound(s: State) { Keys(s) && HeadOk(s) && DrainOk(s) }

  lemma InitSound(s: State)
    requires Init(s)
    ensures Sound(s)
  {
    InitKeys(s);
  }

  lemma ScanStep(s: State, budget: nat)
    requires Sound(s) && s.d.Scan?
    ensures DrainOk(DrainStep(s, budget))
  {
    var Scan(lus, c, best) := s.d;
    var s' := DrainStep(s, budget);
    if c < |s.cores| {
      var best' := s'.d.best;
      forall d, i | IsRec(s', d, i) && d < c + 1 && !s'.cores[d][i].late && s'.cores[d][i].rep <= lus
        ensures best'.Best? && LeqKey(best'.rep, best'.num, s'.cores[d][i])
      {
        assert IsRec(s, d, i);
        if d == c && i > 0 { assert IsRec(s, c, 0) && InRing(s.cores[c][0], s.cores[c][i]); }
      }
      assert IsRec(s', c, 0) <==> s.cores[c] != [];
      if best.Best? { assert IsRec(s', best.core, 0); }
    } else {
      assert Scanned(s', lus, |s.cores|, best) by {
        forall d, i | IsRec(s', d, i) && d < c && !s'.cores[d][i].late && s'.cores[d][i].rep <= lus
          ensures best.Best? && LeqKey(best.rep, best.num, s'.cores[d][i])
        {
          assert IsRec(s, d, i);
        }
        if best.Best? { assert IsRec(s, best.core, 0); }
      }
    }
  }

  lemma HeadStep(s: State, budget: nat)
    requires HeadOk(s) && budget > 0
    ensures HeadOk(DrainStep(s, budget))
  {
  }

  lemma DrainSound(s: State, budget: nat)
    requires Sound(s) && Enabled(s, Next(budget))
    ensures Sound(DrainStep(s, budget))
  {
    DrainKeys(s, budget);
    HeadStep(s, budget);
    if s.d.Scan? { ScanStep(s, budget); }
  }

  /** A writer's step: the rings only grow at their ends, and what lands behind
      the scan is marked. */
  lemma GrowScanned(s: State, s': State, lus: nat, c: nat, best: Best)
    requires Scanned(s, lus, c, best) && |s'.cores| == |s.cores|
    requires forall d, i :: IsRec(s, d, i) ==> IsRec(s', d, i) && s'.cores[d][i] == s.cores[d][i]
    requires forall d, i :: IsRec(s', d, i) && !IsRec(s, d, i) && d < c ==> s'.cores[d][i].late
    ensures Scanned(s', lus, c, best)
  {
    if best.Best? { assert IsRec(s, best.core, 0); }
  }

  lemma WriterSound(s: State, l: Label)
    requires Sound(s) && Enabled(s, l) && !l.Next? && !l.Seek? && !l.Take? && !l.GiveUp?
    ensures Sound(Apply(s, l))
  {
    StepKeys(s, l);
    var s' := Apply(s, l);
    assert s'.lus == s.lus && s'.entame == s.entame && s'.d == s.d && |s'.cores| == |s.cores|;
    assert HeadOk(s');
    forall d, i | IsRec(s, d, i) ensures IsRec(s', d, i) && s'.cores[d][i] == s.cores[d][i] {
    }
    forall d, i | IsRec(s', d, i) && !IsRec(s, d, i) ensures Behind(s.d, d) ==> s'.cores[d][i].late {
    }
    match s.d
    case Scan(lus, c, best) => GrowScanned(s, s', lus, c, best);
    case EmitDeferred(core) =>
      assert IsRec(s, core, 0);
      GrowScanned(s, s', s.lus, |s.cores|, Best(core, s.cores[core][0].rep, s.cores[core][0].num));
    case Advance => if s.entame == 0 { GrowScanned(s, s', s.lus, |s.cores|, NoBest); }
    case _ =>
  }

  lemma StepSound(s: State, l: Label)
    requires Sound(s) && Enabled(s, l)
    ensures Sound(Apply(s, l))
  {
    if l.Next? { DrainSound(s, l.budget); }
    else if l.Seek? || l.Take? || l.GiveUp? { StepKeys(s, l); }
    else { WriterSound(s, l); }
  }

  // ---- The line about to be begun ----

  /** The line the next step of the token holder begins, if it begins one. */
  function Beginning(s: State): Option<Line>
  {
    if s.d.EmitDeferred? && s.d.core < |s.cores| && s.cores[s.d.core] != [] then Some(s.cores[s.d.core][0].line)
    else if s.d.Advance? && s.entame == 0 && s.lus < |s.main| then Some(s.main[s.lus])
    else None
  }

  predicate Before(a: Line, b: Line) { a.w == b.w && a.k < b.k }

  /** Records of the main ring not yet begun start here. */
  function Started(s: State): nat { s.lus + (if s.entame != 0 then 1 else 0) }

  ghost predicate EarlierInMain(s: State, line: Line) { exists j :: Started(s) <= j < |s.main| && Before(s.main[j], line) }

  ghost predicate EarlierDeferred(s: State, line: Line) { exists c, i :: IsRec(s, c, i) && Before(s.cores[c][i].line, line) }

  /** An earlier line of the same writer was deferred on a ring the scan had
      already passed. */
  ghost predicate Missed(s: State, line: Line)
  {
    exists c, i :: IsRec(s, c, i) && s.cores[c][i].late && Before(s.cores[c][i].line, line)
  }

  lemma DeferredFirst(s: State)
    requires Sound(s) && s.d.EmitDeferred?
    ensures Beginning(s).Some? && !EarlierInMain(s, Beginning(s).value)
    ensures EarlierDeferred(s, Beginning(s).value) ==> Missed(s, Beginning(s).value)
  {
    var core := s.d.core;
    var h := s.cores[core][0];
    assert IsRec(s, core, 0) && AgainstMain(h, s.main);
    if EarlierDeferred(s, h.line) {
      var c, i :| IsRec(s, c, i) && Before(s.cores[c][i].line, h.line);
      assert SameWriter(s.cores[c][i], s.cores[core][0]);
      assert s.cores[c][i].late;
    }
  }

  lemma HeadFirst(s: State)
    requires Sound(s) && s.d.Advance? && Beginning(s).Some?
    ensures !EarlierInMain(s, Beginning(s).value)
    ensures EarlierDeferred(s, Beginning(s).value) ==> Missed(s, Beginning(s).value)
  {
    var line := s.main[s.lus];
    forall j | Started(s) <= j < |s.main| ensures !Before(s.main[j], line) {
      if j > s.lus && s.main[j].w == line.w { assert s.main[s.lus].k < s.main[j].k; }
    }
    if EarlierDeferred(s, line) {
      var c, i :| IsRec(s, c, i) && Before(s.cores[c][i].line, line);
      assert AgainstMain(s.cores[c][i], s.main);
      assert s.cores[c][i].rep <= s.lus;
      assert s.cores[c][i].late;
    }
  }

  /** A line is begun before an earlier line of its writer exactly when that
      earlier line was deferred behind the scan. */
  lemma OvertakesIffMissed(s: State)
    requires Sound(s) && Beginning(s).Some?
    ensures var line := Beginning(s).value;
      EarlierInMain(s, line) || EarlierDeferred(s, line) <==> Missed(s, line)
  {
    if s.d.EmitDeferred? { DeferredFirst(s); } else { HeadFirst(s); }
    if Missed(s, Beginning(s).value) {
      var c, i :| IsRec(s, c, i) && s.cores[c][i].late && Before(s.cores[c][i].line, Beginning(s).value);
    }
  }

  // ---- Whole runs ----

  /** The output is in each writer's order, and nothing still waiting belongs
      before what is out. */
  ghost predicate Ordered(s: State)
  {
    && (forall i, j :: 0 <= i < j < |s.out| && s.out[i].w == s.out[j].w ==> s.out[i].k < s.out[j].k)
    && (forall i, j :: 0 <= i < |s.out| && Started(s) <= j < |s.main| && s.main[j].w == s.out[i].w ==> s.out[i].k < s.main[j].k)
    && (forall i, c, j :: 0 <= i < |s.out| && IsRec(s, c, j) && s.cores[c][j].line.w == s.out[i].w ==> s.out[i].k < s.cores[c][j].line.k)
  }

  /** Lines out were finished by their writers; every line has a writer. */
  ghost predicate Written(s: State)
  {
    && (forall i :: 0 <= i < |s.out| ==> s.out[i].w in s.writers && s.out[i].k < s.writers[s.out[i].w].k)
    && (forall j :: 0 <= j < |s.main| ==> s.main[j].w in s.writers)
    && (forall c, i :: IsRec(s, c, i) ==> s.cores[c][i].line.w in s.writers)
  }

  lemma WriterWritten(s: State, l: Label)
    requires Written(s) && Enabled(s, l) && !l.Next?
    ensures Written(Apply(s, l))
  {
    var s' := Apply(s, l);
    assert s'.out == s.out;
    forall i | 0 <= i < |s'.out| ensures s'.out[i].w in s'.writers && s'.out[i].k < s'.writers[s'.out[i].w].k {
      assert s.out[i].w in s.writers;
    }
    forall c, i | IsRec(s', c, i) ensures s'.cores[c][i].line.w in s'.writers {
      if IsRec(s, c, i) { assert s'.cores[c][i] == s.cores[c][i]; }
    }
  }

  lemma WriterOrdered(s: State, l: Label)
    requires Ordered(s) && Written(s) && Enabled(s, l) && !l.Next?
    ensures Ordered(Apply(s, l))
  {
    var s' := Apply(s, l);
    assert s'.out == s.out && Started(s') == Started(s);
    forall i, j | 0 <= i < |s'.out| && Started(s') <= j < |s'.main| && s'.main[j].w == s'.out[i].w
      ensures s'.out[i].k < s'.main[j].k
    {
      assert s.out[i].w in s.writers;
      if j < |s.main| { assert s'.main[j] == s.main[j]; }
    }
    forall i, c, j | 0 <= i < |s'.out| && IsRec(s', c, j) && s'.cores[c][j].line.w == s'.out[i].w
      ensures s'.out[i].k < s'.cores[c][j].line.k
    {
      assert s.out[i].w in s.writers;
      if IsRec(s, c, j) { assert s'.cores[c][j] == s.cores[c][j]; }
    }
  }

  /** What a step that begins no line does to the order: nothing. */
  lemma SilentShape(s: State, budget: nat)
    requires HeadOk(s) && Beginning(s).None? && budget > 0
    ensures var t := DrainStep(s, budget);
      && t.out == s.out && Started(t) == Started(s) && t.main == s.main && t.writers == s.writers
      && (t.cores == s.cores || t.cores == AllOnTime(s.cores))
  {
  }

  lemma SilentOrdered(s: State, budget: nat)
    requires HeadOk(s) && Ordered(s) && budget > 0 && Beginning(s).None?
    ensures Ordered(DrainStep(s, budget))
  {
    SilentShape(s, budget);
    var s' := DrainStep(s, budget);
    forall c, i | IsRec(s', c, i) ensures IsRec(s, c, i) && s'.cores[c][i].line == s.cores[c][i].line {
    }
  }

  lemma DeferredPending(s: State, budget: nat, c: int, i: int)
    requires Sound(s) && s.d.EmitDeferred? && IsRec(DrainStep(s, budget), c, i)
    ensures var s', line := DrainStep(s, budget), Beginning(s).value;
      exists j :: IsRec(s, c, j) && s'.cores[c][i] == s.cores[c][j] && (s.cores[c][j].line.w == line.w ==> s.cores[c][j].line.k != line.k)
  {
    var core := s.d.core;
    assert IsRec(s, core, 0);
    var j := if c == core then i + 1 else i;
    assert IsRec(s, c, j) && Differ(s.cores[c][j], s.cores[core][0]);
  }

  lemma BeginOrdered(s: State, budget: nat)
    requires Sound(s) && Ordered(s) && Written(s) && Enabled(s, Next(budget)) && Beginning(s).Some?
    requires !Missed(s, Beginning(s).value)
    ensures Ordered(DrainStep(s, budget))
  {
    OvertakesIffMissed(s);
    var s', line := DrainStep(s, budget), Beginning(s).value;
    BeginShape(s, budget);
    forall i | 0 <= i < |s.out| && s.out[i].w == line.w ensures s.out[i].k < line.k { BeginAfterOut(s, i); }
    forall i, j | 0 <= i < |s'.out| && Started(s') <= j < |s'.main| && s'.main[j].w == s'.out[i].w
      ensures s'.out[i].k < s'.main[j].k
    {
      if i == |s.out| { BeginBeforeMain(s, budget, j); }
    }
    forall i, c, j | 0 <= i < |s'.out| && IsRec(s', c, j) && s'.cores[c][j].line.w == s'.out[i].w
      ensures s'.out[i].k < s'.cores[c][j].line.k
    {
      if i == |s.out| { BeginBeforeRec(s, budget, c, j); } else { PendingRec(s, budget, c, j); }
    }
  }

  lemma BeginBeforeRec(s: State, budget: nat, c: int, j: int)
    requires Sound(s) && Beginning(s).Some? && !EarlierDeferred(s, Beginning(s).value)
    requires var s' := DrainStep(s, budget); IsRec(s', c, j) && s'.cores[c][j].line.w == Beginning(s).value.w
    ensures Beginning(s).value.k < DrainStep(s, budget).cores[c][j].line.k
  {
    PendingRec(s, budget, c, j);
  }

  lemma BeginShape(s: State, budget: nat)
    requires HeadOk(s) && Beginning(s).Some? && budget > 0
    ensures var t := DrainStep(s, budget);
      t.out == s.out + [Beginning(s).value] && t.main == s.main && t.writers == s.writers && Started(t) >= Started(s)
  {
  }

  lemma BeginAfterOut(s: State, i: nat)
    requires Sound(s) && Ordered(s) && Beginning(s).Some? && i < |s.out| && s.out[i].w == Beginning(s).value.w
    ensures s.out[i].k < Beginning(s).value.k
  {
    if s.d.EmitDeferred? { assert IsRec(s, s.d.core, 0); } else { assert s.main[s.lus] == Beginning(s).value; }
  }

  lemma BeginBeforeMain(s: State, budget: nat, j: nat)
    requires Sound(s) && Beginning(s).Some? && budget > 0 && !EarlierInMain(s, Beginning(s).value)
    requires Started(DrainStep(s, budget)) <= j < |s.main| && s.main[j].w == Beginning(s).value.w
    ensures Beginning(s).value.k < s.main[j].k
  {
    BeginShape(s, budget);
    assert !Before(s.main[j], Beginning(s).value);
    if s.d.EmitDeferred? { assert IsRec(s, s.d.core, 0) && AgainstMain(s.cores[s.d.core][0], s.main); }
    else { HeadPassed(s, budget); }
  }

  lemma HeadPassed(s: State, budget: nat)
    requires HeadOk(s) && s.d.Advance? && s.entame == 0 && s.lus < |s.main| && budget > 0
    ensures s.main[s.lus].text != [] ==> Started(DrainStep(s, budget)) == s.lus + 1
    ensures Started(DrainStep(s, budget)) > s.lus
  {
  }

  /** A deferred line still waiting was waiting before, and is not the one just
      begun. */
  lemma PendingRec(s: State, budget: nat, c: int, i: int)
    requires Sound(s) && Beginning(s).Some? && IsRec(DrainStep(s, budget), c, i)
    ensures var s', line := DrainStep(s, budget), Beginning(s).value;
      exists j :: IsRec(s, c, j) && s'.cores[c][i] == s.cores[c][j] && (s.cores[c][j].line.w == line.w ==> s.cores[c][j].line.k != line.k)
  {
    if s.d.EmitDeferred? {
      DeferredPending(s, budget, c, i);
    } else {
      assert IsRec(s, c, i) && AgainstMain(s.cores[c][i], s.main);
    }
  }

  lemma BeginWritten(s: State, budget: nat)
    requires Sound(s) && Written(s) && Enabled(s, Next(budget)) && Beginning(s).Some?
    ensures Written(DrainStep(s, budget))
  {
    var s', line := DrainStep(s, budget), Beginning(s).value;
    assert s'.out == s.out + [line] && s'.main == s.main && s'.writers == s.writers;
    if s.d.EmitDeferred? {
      assert IsRec(s, s.d.core, 0) && WriterRec(line.w, s.writers[line.w], s.d.core, s.cores[s.d.core][0]);
    } else {
      assert WriterMain(line.w, s.writers[line.w], s.main) && s.main[s.lus] == line;
    }
    forall c, i | IsRec(s', c, i) ensures s'.cores[c][i].line.w in s'.writers {
      PendingRec(s, budget, c, i);
    }
  }

  /** The order survives the beginning of a line exactly when that line does not
      overtake one deferred behind the scan. */
  lemma OrderKeptIffNotMissed(s: State, budget: nat)
    requires Sound(s) && Ordered(s) && Written(s) && Enabled(s, Next(budget)) && Beginning(s).Some?
    ensures Ordered(DrainStep(s, budget)) <==> !Missed(s, Beginning(s).value)
  {
    var s', line := DrainStep(s, budget), Beginning(s).value;
    if Missed(s, line) {
      var c, i :| IsRec(s, c, i) && s.cores[c][i].late && Before(s.cores[c][i].line, line);
      assert s'.out[|s.out|] == line;
      var j := if s.d.EmitDeferred? && c == s.d.core then i - 1 else i;
      assert s.d.EmitDeferred? && c == s.d.core ==> i != 0;
      assert IsRec(s', c, j) && s'.cores[c][j] == s.cores[c][i];
    } else {
      BeginOrdered(s, budget);
    }
  }

  ghost predicate Run(states: seq<State>, labels: seq<Label>)
  {
    && |states| == |labels| + 1
    && Init(states[0])
    && forall i :: 0 <= i < |labels| ==> Enabled(states[i], labels[i]) && states[i + 1] == Apply(states[i], labels[i])
  }

  lemma {:induction false} RunSound(states: seq<State>, labels: seq<Label>, i: nat)
    requires Run(states, labels) && i <= |labels|
    ensures Sound(states[i]) && Written(states[i])
  {
    if i == 0 {
      InitSound(states[0]);
    } else {
      RunSound(states, labels, i - 1);
      var s, l := states[i - 1], labels[i - 1];
      assert states[i - 1 + 1] == Apply(s, l);
      StepSound(s, l);
      StepWritten(s, l);
    }
  }

  /** The line in progress has been sent past its eight octets of stamp and not up
      to its end. */
  lemma HeadInProgress(states: seq<State>, labels: seq<Label>, i: nat)
    requires Run(states, labels) && i <= |labels| && states[i].entame != 0
    ensures states[i].lus < |states[i].main| && 8 < states[i].entame < 8 + |states[i].main[states[i].lus].text|
  {
    RunSound(states, labels, i);
  }

  lemma StepWritten(s: State, l: Label)
    requires Sound(s) && Written(s) && Enabled(s, l)
    ensures Written(Apply(s, l))
  {
    if !l.Next? { WriterWritten(s, l); }
    else if Beginning(s).Some? { BeginWritten(s, l.budget); }
    else { SilentWritten(s, l.budget); }
  }

  lemma SilentWritten(s: State, budget: nat)
    requires HeadOk(s) && Written(s) && budget > 0 && Beginning(s).None?
    ensures Written(DrainStep(s, budget))
  {
    SilentShape(s, budget);
    var s' := DrainStep(s, budget);
    forall c, i | IsRec(s', c, i) ensures IsRec(s, c, i) && s'.cores[c][i].line == s.cores[c][i].line {
    }
  }

  /** In every run in which no line is begun past one deferred behind the scan,
      the output of every writer is in its own order at every moment, whatever
      mix of rings its lines took and however it moved between CPUs. */
  lemma {:induction false} WriterOrder(states: seq<State>, labels: seq<Label>, i: nat)
    requires Run(states, labels) && i <= |labels|
    requires forall j :: 0 <= j < |labels| && labels[j].Next? && Beginning(states[j]).Some? ==>
               !Missed(states[j], Beginning(states[j]).value)
    ensures Ordered(states[i])
  {
    if i > 0 {
      WriterOrder(states, labels, i - 1);
      RunSound(states, labels, i - 1);
      var s, l := states[i - 1], labels[i - 1];
      assert states[i - 1 + 1] == Apply(s, l);
      if !l.Next? { WriterOrdered(s, l); }
      else if Beginning(s).Some? { BeginOrdered(s, l.budget); }
      else { SilentOrdered(s, l.budget); }
    }
  }

  ghost predicate NoneLate(s: State) { forall c, i :: IsRec(s, c, i) ==> !s.cores[c][i].late }

  /** A deferral is calm when no scan has passed its ring. */
  ghost predicate Calm(s: State, l: Label)
  {
    l.Publish? && l.w in s.writers && s.writers[l.w].GotNum? ==> !Behind(s.d, s.writers[l.w].core)
  }

  lemma {:induction false} CalmNoneLate(states: seq<State>, labels: seq<Label>, i: nat)
    requires Run(states, labels) && i <= |labels| && forall j :: 0 <= j < |labels| ==> Calm(states[j], labels[j])
    ensures NoneLate(states[i])
  {
    if i > 0 {
      CalmNoneLate(states, labels, i - 1);
      var s, l := states[i - 1], labels[i - 1];
      var s' := states[i];
      assert s' == Apply(s, l) && Calm(s, l) by { assert states[i - 1 + 1] == Apply(s, l); }
      CalmStep(s, l);
    }
  }

  lemma CalmStep(s: State, l: Label)
    requires Enabled(s, l) && NoneLate(s) && Calm(s, l)
    ensures NoneLate(Apply(s, l))
  {
    var s' := Apply(s, l);
    if l.Next? { DrainShape(s, l.budget); }
    forall c, i | IsRec(s', c, i) ensures !s'.cores[c][i].late {
      if l.Publish? && !IsRec(s, c, i) {
        assert s'.cores[c][i].late == Behind(s.d, s.writers[l.w].core);
      } else if !l.Next? {
        assert IsRec(s, c, i) && s'.cores[c][i] == s.cores[c][i];
      } else if s.d.EmitDeferred? && s'.cores != s.cores {
        var j := if c == s.d.core then i + 1 else i;
        assert IsRec(s, c, j) && s'.cores[c][i] == s.cores[c][j];
      } else {
        assert IsRec(s, c, i);
      }
    }
  }

  /** Deferrals that land behind no scan keep every writer's order. */
  lemma CalmRunsAreOrdered(states: seq<State>, labels: seq<Label>, i: nat)
    requires Run(states, labels) && i <= |labels| && forall j :: 0 <= j < |labels| ==> Calm(states[j], labels[j])
    ensures Ordered(states[i])
  {
    forall j | 0 <= j < |labels| && labels[j].Next? && Beginning(states[j]).Some?
      ensures !Missed(states[j], Beginning(states[j]).value)
    {
      CalmNoneLate(states, labels, j);
    }
    WriterOrder(states, labels, i);
  }
}
