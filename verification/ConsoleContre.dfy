/** The scan of the deferred heads is not atomic: two runs in which a writer's
    second line comes out before its first. */
module ConsoleContre {
  import opened Commun
  import opened Runs
  import opened Console
  import opened ConsoleCle
  import opened ConsoleOrdre

  function Move(s: State, l: Label): Option<State> { if Enabled(s, l) then Some(Apply(s, l)) else None }

  const X: Line := Line(1, 0, [88])
  const A: Line := Line(0, 0, [65])
  const B: Line := Line(0, 1, [66])

  lemma {:induction false} One(s: State, l: Label, t: State)
    requires Enabled(s, l) && Apply(s, l) == t
    ensures Leads(Move, s, [l], t)
  {
    assert [l][1..] == [];
  }

  lemma Then(s: State, a: seq<Label>, t: State, l: Label, u: State)
    requires Leads(Move, s, a, t) && Enabled(t, l) && Apply(t, l) == u
    ensures Leads(Move, s, a + [l], u)
  {
    One(t, l, u);
    LeadsConcat(Move, s, a, t, [l], u);
  }

  lemma BootedInit(n: nat)
    ensures Init(Booted(n))
  {
  }

  lemma Played(s: State, labels: seq<Label>, t: State) returns (states: seq<State>)
    requires Init(s) && Leads(Move, s, labels, t)
    ensures Run(states, labels) && states[|labels|] == t
  {
    states := LeadsPath(Move, s, labels, t);
    forall i | 0 <= i < |labels| ensures Enabled(states[i], labels[i]) && states[i + 1] == Apply(states[i], labels[i]) {
      assert Move(states[i], labels[i]) == Some(states[i + 1]);
    }
  }

  // ---- Before both runs: a second agent is left with the token and nothing to do ----

  function Silent(n: nat): seq<seq<Rec>> { seq(n, _ => []) }

  function Booted(n: nat): State { State([], 0, 0, Silent(n), 0, map[0 := Idle(0), 1 := Idle(0)], Free, 0, [], [], []) }

  /** Writer 1's line is in the ring; two agents have seen it. */
  function Sought(n: nat): State
  {
    Booted(n).(main := [X], writers := map[0 := Idle(0), 1 := Idle(1)], seek := 2, published := [X])
  }

  /** The first has sent it; the second is still about to try the token. */
  function Sent(n: nat): State { Sought(n).(lus := 1, seek := 1, out := [X], bytes := [88]) }

  /** ... and has taken it, and passed the deferred rings of the first CPU. */
  function Passed(n: nat): State { Sent(n).(seek := 0, d := Scan(1, 1, NoBest)) }

  lemma NoneOnTime(n: nat)
    ensures AllOnTime(Silent(n)) == Silent(n)
  {
    assert OnTime([]) == [];
  }

  lemma SoughtLeads(n: nat)
    ensures Leads(Move, Booted(n), [Ring(1, [88]), Seek, Seek], Sought(n))
  {
    var s := Sought(n).(seek := 0);
    assert Booted(n).writers[1 := Idle(1)] == s.writers;
    assert Apply(Booted(n), Ring(1, [88])) == s;
  }

  function Scans(n: nat): seq<Label> { seq(n, _ => Next(1)) }

  /** An empty deferred ring after the other. */
  lemma {:induction false} ScanLeads(s: State, n: nat, c: nat)
    requires s.cores == Silent(n) && c <= n && s.d == Scan(s.lus, n - c, NoBest)
    ensures Leads(Move, s, Scans(c), s.(d := Scan(s.lus, n, NoBest)))
    decreases c
  {
    if c > 0 {
      var s1 := s.(d := Scan(s.lus, n - c + 1, NoBest));
      assert Apply(s, Next(1)) == s1;
      ScanLeads(s1, n, c - 1);
      assert Scans(c)[1..] == Scans(c - 1);
    }
  }

  lemma SentLeads(n: nat) returns (labels: seq<Label>)
    ensures Leads(Move, Sought(n), labels, Sent(n))
  {
    var s := Sought(n);
    var s1, s2 := s.(seek := 1, d := Taken), s.(seek := 1, d := Scan(0, 0, NoBest));
    One(s, Take, s1);
    NoneOnTime(n);
    Then(s, [Take], s1, Next(1), s2);
    ScanLeads(s2, n, n);
    var s3 := s2.(d := Scan(0, n, NoBest));
    LeadsConcat(Move, s, [Take] + [Next(1)], s2, Scans(n), s3);
    labels := [Take] + [Next(1)] + Scans(n);
    var s4 := s2.(d := Advance);
    Then(s, labels, s3, Next(1), s4);
    labels := labels + [Next(1)];
    assert X.text[0..1] == [88] && s4.out + [X] == [X] && s4.bytes + [88] == [88];
    Then(s, labels, s4, Next(1), Sent(n));
    labels := labels + [Next(1)];
  }

  lemma PassedLeads(n: nat)
    requires n > 0
    ensures Leads(Move, Sent(n), [Take, Next(1), Next(1)], Passed(n))
  {
    NoneOnTime(n);
  }

  lemma Prelude(n: nat) returns (labels: seq<Label>)
    requires n > 0
    ensures Leads(Move, Booted(n), labels, Passed(n))
  {
    SoughtLeads(n);
    var a := SentLeads(n);
    PassedLeads(n);
    LeadsConcat(Move, Sought(n), a, Sent(n), [Take, Next(1), Next(1)], Passed(n));
    LeadsConcat(Move, Booted(n), [Ring(1, [88]), Seek, Seek], Sought(n), a + [Take, Next(1), Next(1)], Passed(n));
    labels := [Ring(1, [88]), Seek, Seek] + (a + [Take, Next(1), Next(1)]);
  }

  /** Writer 0 defers its next line on `core`. */
  lemma DeferOn(s: State, core: nat, text: seq<Octet>, t: State)
    requires core < |s.cores| && text != [] && 0 in s.writers && forall w :: w in s.writers ==> s.writers[w].Idle?
    requires var line := Line(0, s.writers[0].k, text);
      t == s.(cores := s.cores[core := s.cores[core] + [Rec(line, |s.main|, s.numero, Behind(s.d, core))]],
              numero := s.numero + 1, writers := s.writers[0 := Idle(line.k + 1)], published := s.published + [line])
    ensures Leads(Move, s, [Begin(0, core, text), Number(0), Publish(0)], t)
  {
    var k := s.writers[0].k;
    var s1 := s.(writers := s.writers[0 := GotRep(k, core, text, |s.main|)]);
    assert Apply(s, Begin(0, core, text)) == s1;
    var s2 := s.(writers := s.writers[0 := GotNum(k, core, text, |s.main|, s.numero)], numero := s.numero + 1);
    assert Apply(s1, Number(0)) == s2;
    assert s2.writers[0 := Idle(k + 1)] == s.writers[0 := Idle(k + 1)];
    assert Apply(s2, Publish(0)) == t;
    One(s2, Publish(0), t);
    assert [Number(0), Publish(0)][1..] == [Publish(0)] && Leads(Move, s1, [Number(0), Publish(0)], t);
    assert [Begin(0, core, text), Number(0), Publish(0)][1..] == [Number(0), Publish(0)];
  }

  // ---- Deferred behind the scan, then the main ring ----

  function Deferred1(): State
  {
    Passed(1).(cores := [[Rec(A, 1, 0, true)]], numero := 1, writers := map[0 := Idle(1), 1 := Idle(1)], published := [X, A])
  }

  function Both1(): State
  {
    Deferred1().(main := [X, B], writers := map[0 := Idle(2), 1 := Idle(1)], published := [X, A, B])
  }

  function Over1(): State { Both1().(lus := 2, d := Free, out := [X, B], bytes := [88, 66]) }

  lemma Defer1()
    ensures Leads(Move, Passed(1), [Begin(0, 0, [65]), Number(0), Publish(0)], Deferred1())
  {
    var empty: seq<Rec> := [];
    assert empty + [Rec(A, 1, 0, true)] == [Rec(A, 1, 0, true)];
    assert Deferred1().cores == Passed(1).cores[0 := [Rec(A, 1, 0, true)]];
    assert Passed(1).writers[0 := Idle(1)] == Deferred1().writers && Passed(1).published + [A] == [X, A];
    DeferOn(Passed(1), 0, [65], Deferred1());
  }

  lemma Ring1()
    ensures Leads(Move, Deferred1(), [Ring(0, [66])], Both1())
  {
    assert Deferred1().writers[0 := Idle(2)] == Both1().writers;
    assert Deferred1().main + [B] == [X, B] && Deferred1().published + [B] == [X, A, B];
    One(Deferred1(), Ring(0, [66]), Both1());
  }

  lemma Emit1()
    ensures Leads(Move, Both1(), [Next(1), Next(1)], Over1())
  {
    assert [X] + [B] == [X, B] && B.text[0..1] == [66] && [88] + [66] == [88, 66];
  }

  lemma After1() returns (labels: seq<Label>)
    ensures Leads(Move, Passed(1), labels, Over1())
  {
    Defer1();
    Ring1();
    Emit1();
    var b, c, d := [Begin(0, 0, [65]), Number(0), Publish(0)], [Ring(0, [66])], [Next(1), Next(1)];
    LeadsConcat(Move, Deferred1(), c, Both1(), d, Over1());
    LeadsConcat(Move, Passed(1), b, Deferred1(), c + d, Over1());
    labels := b + (c + d);
  }

  lemma Reversed1()
    ensures Over1().out == [X, B] && Before(A, B) && !Ordered(Over1())
  {
    assert IsRec(Over1(), 0, 0) && Over1().cores[0][0].line == A && Over1().out[1] == B;
  }

  /** With the main ring empty when the scan passes, a line deferred behind it
      and the next line put in the main ring come out reversed. */
  lemma MainOvertakesDeferred() returns (states: seq<State>, labels: seq<Label>)
    ensures Run(states, labels) && states[|labels|] == Over1() && !Ordered(Over1())
  {
    Reversed1();
    var a := Prelude(1);
    var b := After1();
    LeadsConcat(Move, Booted(1), a, Passed(1), b, Over1());
    labels := a + b;
    BootedInit(1);
    states := Played(Booted(1), labels, Over1());
  }

  // ---- Deferred behind the scan, then ahead of it on another CPU ----

  function First2(): State
  {
    Passed(2).(cores := [[Rec(A, 1, 0, true)], []], numero := 1, writers := map[0 := Idle(1), 1 := Idle(1)], published := [X, A])
  }

  function Second2(): State
  {
    First2().(cores := [[Rec(A, 1, 0, true)], [Rec(B, 1, 1, false)]], numero := 2,
              writers := map[0 := Idle(2), 1 := Idle(1)], published := [X, A, B])
  }

  function Over2(): State { Second2().(cores := [[Rec(A, 1, 0, true)], []], d := Free, out := [X, B], bytes := [88, 66]) }

  lemma Defer2()
    ensures Leads(Move, Passed(2), [Begin(0, 0, [65]), Number(0), Publish(0)], First2())
    ensures Leads(Move, First2(), [Begin(0, 1, [66]), Number(0), Publish(0)], Second2())
  {
    var empty: seq<Rec> := [];
    assert empty + [Rec(A, 1, 0, true)] == [Rec(A, 1, 0, true)] && empty + [Rec(B, 1, 1, false)] == [Rec(B, 1, 1, false)];
    assert First2().cores == Passed(2).cores[0 := [Rec(A, 1, 0, true)]];
    assert Passed(2).writers[0 := Idle(1)] == First2().writers && Passed(2).published + [A] == [X, A];
    DeferOn(Passed(2), 0, [65], First2());
    assert Second2().cores == First2().cores[1 := [Rec(B, 1, 1, false)]];
    assert First2().writers[0 := Idle(2)] == Second2().writers && First2().published + [B] == [X, A, B];
    DeferOn(First2(), 1, [66], Second2());
  }

  lemma Emit2()
    ensures Leads(Move, Second2(), [Next(1), Next(1), Next(1)], Over2())
  {
    var s := Second2().(d := Scan(1, 2, Best(1, 1, 1)));
    assert Apply(Second2(), Next(1)) == s;
    var t := Second2().(d := EmitDeferred(1));
    assert Apply(s, Next(1)) == t;
    assert t.cores[1][1..] == [] && [X] + [B] == [X, B] && [88] + [66] == [88, 66];
    assert Over2().cores == t.cores[1 := []];
    assert Apply(t, Next(1)) == Over2();
  }

  lemma After2() returns (labels: seq<Label>)
    ensures Leads(Move, Passed(2), labels, Over2())
  {
    Defer2();
    Emit2();
    var b, c, d := [Begin(0, 0, [65]), Number(0), Publish(0)], [Begin(0, 1, [66]), Number(0), Publish(0)], [Next(1), Next(1), Next(1)];
    LeadsConcat(Move, First2(), c, Second2(), d, Over2());
    LeadsConcat(Move, Passed(2), b, First2(), c + d, Over2());
    labels := b + (c + d);
  }

  lemma Reversed2()
    ensures Over2().out == [X, B] && Before(A, B) && !Ordered(Over2())
  {
    assert IsRec(Over2(), 0, 0) && Over2().cores[0][0].line == A && Over2().out[1] == B;
  }

  /** A line deferred behind the scan and the next one deferred ahead of it, on
      another CPU, come out reversed although their numbers are in order. */
  lemma DeferredOvertakesDeferred() returns (states: seq<State>, labels: seq<Label>)
    ensures Run(states, labels) && states[|labels|] == Over2() && !Ordered(Over2())
  {
    Reversed2();
    var a := Prelude(2);
    var b := After2();
    LeadsConcat(Move, Booted(2), a, Passed(2), b, Over2());
    labels := a + b;
    BootedInit(2);
    states := Played(Booted(2), labels, Over2());
  }
}
