/** Executions of a labelled machine.  A machine is its step function: the state
    a label leads to, or None where the label is not enabled. */
module Runs {
  import opened Commun

  /** Taking the labels in turn leads from `s` to `t`. */
  ghost predicate Leads<S, L>(step: (S, L) -> Option<S>, s: S, labels: seq<L>, t: S)
    decreases |labels|
  {
    if labels == [] then s == t
    else step(s, labels[0]).Some? && Leads(step, step(s, labels[0]).value, labels[1..], t)
  }

  lemma {:induction false} LeadsConcat<S, L>(step: (S, L) -> Option<S>, s: S, a: seq<L>, t: S, b: seq<L>, u: S)
    requires Leads(step, s, a, t) && Leads(step, t, b, u)
    ensures Leads(step, s, a + b, u)
    decreases |a|
  {
    if a == [] {
      assert a + b == b;
    } else {
      assert (a + b)[1..] == a[1..] + b;
      LeadsConcat(step, step(s, a[0]).value, a[1..], t, b, u);
    }
  }

  /** Consecutive states, each the step of the one before. */
  ghost predicate Path<S, L>(step: (S, L) -> Option<S>, states: seq<S>, labels: seq<L>)
  {
    && |states| == |labels| + 1
    && forall i :: 0 <= i < |labels| ==> step(states[i], labels[i]) == Some(states[i + 1])
  }

  /** The states an execution visits. */
  lemma {:induction false} LeadsPath<S, L>(step: (S, L) -> Option<S>, s: S, labels: seq<L>, t: S) returns (states: seq<S>)
    requires Leads(step, s, labels, t)
    ensures Path(step, states, labels) && states[0] == s && states[|labels|] == t
    decreases |labels|
  {
    if labels == [] {
      states := [s];
    } else {
      var rest := LeadsPath(step, step(s, labels[0]).value, labels[1..], t);
      states := [s] + rest;
      forall i | 0 <= i < |labels| ensures step(states[i], labels[i]) == Some(states[i + 1]) {
        if i > 0 {
          assert labels[i] == labels[1..][i - 1] && states[i] == rest[i - 1] && states[i + 1] == rest[i - 1 + 1];
        }
      }
    }
  }

  lemma PathConcat<S, L>(step: (S, L) -> Option<S>, a: seq<S>, la: seq<L>, b: seq<S>, lb: seq<L>)
    requires Path(step, a, la) && Path(step, b, lb) && a[|la|] == b[0]
    ensures Path(step, a + b[1..], la + lb) && (a + b[1..])[|la + lb|] == b[|lb|]
  {
    var s, l := a + b[1..], la + lb;
    forall i | 0 <= i < |l| ensures step(s[i], l[i]) == Some(s[i + 1]) {
      if i < |la| {
        assert step(a[i], la[i]) == Some(a[i + 1]);
      } else {
        var j := i - |la|;
        assert step(b[j], lb[j]) == Some(b[j + 1]) && s[i] == b[j] && s[i + 1] == b[j + 1];
      }
    }
  }

  lemma PathPrefix<S, L>(step: (S, L) -> Option<S>, s: seq<S>, l: seq<L>, a: nat)
    requires Path(step, s, l) && a <= |l|
    ensures Path(step, s[..a + 1], l[..a])
  {
    forall i | 0 <= i < a ensures step(s[..a + 1][i], l[..a][i]) == Some(s[..a + 1][i + 1]) {
      assert step(s[i], l[i]) == Some(s[i + 1]);
    }
  }

  /** A path cut at `a` and continued otherwise. */
  lemma PathDetour<S, L>(step: (S, L) -> Option<S>, s: seq<S>, l: seq<L>, a: nat, es: seq<S>, ls: seq<L>)
    returns (s': seq<S>, l': seq<L>)
    requires Path(step, s, l) && a <= |l| && Path(step, es, ls) && es[0] == s[a]
    ensures Path(step, s', l') && |l'| == a + |ls| && s'[..a + 1] == s[..a + 1] && l'[..a] == l[..a]
    ensures forall m :: a <= m <= |l'| ==> s'[m] == es[m - a]
    ensures forall m :: a <= m < |l'| ==> l'[m] == ls[m - a]
  {
    PathPrefix(step, s, l, a);
    PathConcat(step, s[..a + 1], l[..a], es, ls);
    s', l' := s[..a + 1] + es[1..], l[..a] + ls;
  }

  /** The path through the states `f` numbers from `a` to `z`. */
  lemma PathThrough<S, L>(step: (S, L) -> Option<S>, f: nat -> S, labels: seq<L>, a: nat, z: nat) returns (es: seq<S>)
    requires a <= z <= |labels| && forall i: nat :: a <= i < z ==> step(f(i), labels[i]) == Some(f(i + 1))
    ensures Path(step, es, labels[a..z]) && forall i: nat :: 0 <= i <= z - a ==> es[i] == f(a + i)
  {
    es := seq(z - a + 1, i requires 0 <= i < z - a + 1 => f(a + i));
    forall i | 0 <= i < z - a ensures step(es[i], labels[a..z][i]) == Some(es[i + 1]) {
      assert step(f(a + i), labels[a + i]) == Some(f(a + i + 1));
    }
  }

  /** A counter that starts at 0 in `b` and passes `j` only where `ok(j, _)`
      holds: the moments of its passages, in order. */
  lemma {:induction false} Climb(pos: nat -> nat, ok: (nat, nat) -> bool, b: nat, n: nat) returns (when: seq<nat>)
    requires b <= n && pos(b) == 0
    requires forall m: nat :: b <= m < n ==> pos(m + 1) == pos(m) || (pos(m + 1) == pos(m) + 1 && ok(pos(m), m))
    ensures |when| == pos(n)
    ensures forall j :: 0 <= j < |when| ==> b <= when[j] < n && ok(j, when[j])
    ensures forall i, j :: 0 <= i < j < |when| ==> when[i] < when[j]
    decreases n - b
  {
    if n == b {
      when := [];
    } else {
      when := Climb(pos, ok, b, n - 1);
      assert pos(n - 1 + 1) == pos(n - 1) || (pos(n - 1 + 1) == pos(n - 1) + 1 && ok(pos(n - 1), n - 1));
      if pos(n) != pos(n - 1) { when := when + [n - 1]; }
    }
  }
}
