/** Worst-case kernel stack depth over the static call graph: a depth-first
    search with a memo shared between roots. */
module Pile {
  const RETURN_ADDRESS := 8
  const MARK := "(recursion)"

  type Frames = map<string, nat>
  type Calls = map<string, seq<string>>

  function Own(trames: Frames, n: string): nat { (if n in trames then trames[n] else 0) + RETURN_ADDRESS }

  function Callees(appels: Calls, n: string): seq<string> { if n in appels then appels[n] else [] }

  /** A call, self-recursion excepted. */
  predicate Edge(appels: Calls, a: string, b: string) { b in Callees(appels, a) && a != b }

  ghost predicate Path(appels: Calls, p: seq<string>)
  {
    p != [] && forall k :: 0 <= k < |p| - 1 ==> Edge(appels, p[k], p[k + 1])
  }

  predicate Distinct(p: seq<string>) { forall i, j :: 0 <= i < j < |p| ==> p[i] != p[j] }

  function Sum(trames: Frames, p: seq<string>): nat
  {
    if p == [] then 0 else Own(trames, p[0]) + Sum(trames, p[1..])
  }

  /** The frames of a chain alone. */
  function FrameSum(trames: Frames, p: seq<string>): nat
  {
    if p == [] then 0 else (if p[0] in trames then trames[p[0]] else 0) + FrameSum(trames, p[1..])
  }

  lemma {:induction false} CostOfChain(trames: Frames, p: seq<string>)
    ensures Sum(trames, p) == 8 * |p| + FrameSum(trames, p)
  {
    if p != [] { CostOfChain(trames, p[1..]); }
  }

  /** A real chain of calls from `n`, no function twice, and its exact cost. */
  ghost predicate Real(trames: Frames, appels: Calls, n: string, total: nat, p: seq<string>)
  {
    Path(appels, p) && p[0] == n && Distinct(p) && total == Sum(trames, p)
  }

  ghost predicate Reaches(appels: Calls, a: string, b: string)
  {
    exists p: seq<string> :: Path(appels, p) && p[0] == a && p[|p| - 1] == b
  }

  /** The text of the recursion mark occurs in `s`. */
  predicate HasMark(s: string) { |s| >= |MARK| && (s[..|MARK|] == MARK || HasMark(s[1..])) }

  predicate Marked(p: seq<string>) { exists k :: 0 <= k < |p| && HasMark(p[k]) }

  lemma ReachesSelf(appels: Calls, a: string)
    ensures Reaches(appels, a, a)
  {
    assert Path(appels, [a]) && [a][0] == a;
  }

  lemma ReachesStep(appels: Calls, a: string, b: string, c: string)
    requires Reaches(appels, a, b) && Edge(appels, b, c)
    ensures Reaches(appels, a, c)
  {
    var p: seq<string> :| Path(appels, p) && p[0] == a && p[|p| - 1] == b;
    var q := p + [c];
    forall k | 0 <= k < |q| - 1 ensures Edge(appels, q[k], q[k + 1]) {
      if k < |p| - 1 { assert Edge(appels, p[k], p[k + 1]); }
    }
    assert Path(appels, q) && q[|q| - 1] == c;
  }

  lemma RealCons(trames: Frames, appels: Calls, n: string, m: string, total: nat, p: seq<string>)
    requires Real(trames, appels, m, total, p) && Edge(appels, n, m) && n !in p
    ensures Real(trames, appels, n, Own(trames, n) + total, [n] + p)
  {
    var q := [n] + p;
    assert q[1..] == p;
    forall k | 0 <= k < |q| - 1 ensures Edge(appels, q[k], q[k + 1]) {
      if k > 0 { assert Edge(appels, p[k - 1], p[k - 1 + 1]); }
    }
  }

  lemma RealAlone(trames: Frames, appels: Calls, n: string)
    ensures Real(trames, appels, n, Own(trames, n), [n])
  {
    assert Sum(trames, [n]) == Own(trames, n) + Sum(trames, [n][1..]);
  }

  // ---- The memo ----

  datatype Entry = Entry(total: nat, chaine: seq<string>)

  type Memo = map<string, Entry>

  /** Each memoised chain is real and made of memoised functions. */
  ghost predicate MemoReal(trames: Frames, appels: Calls, memo: Memo)
  {
    forall n :: n in memo ==> Real(trames, appels, n, memo[n].total, memo[n].chaine) && forall m :: m in memo[n].chaine ==> m in memo
  }

  /** Each call of a memoised function was either followed -- to a memoised
      function whose depth it dominates -- or cut. */
  ghost predicate Followed(trames: Frames, appels: Calls, memo: Memo, cut: set<(string, string)>)
  {
    forall n, m :: n in memo && Edge(appels, n, m) ==>
      (n, m) in cut || (m in memo && memo[n].total >= Own(trames, n) + memo[m].total)
  }

  /** Every cut call closes a cycle of the call graph. */
  ghost predicate CutsAreCycles(appels: Calls, cut: set<(string, string)>)
  {
    forall n, m :: (n, m) in cut ==> Edge(appels, n, m) && Reaches(appels, m, n)
  }

  ghost predicate Avoids(p: seq<string>, cut: set<(string, string)>)
  {
    forall k :: 0 <= k < |p| - 1 ==> (p[k], p[k + 1]) !in cut
  }

  /** The memoised depth bounds every chain that takes no cut call. */
  lemma {:induction false} MemoIsLongest(trames: Frames, appels: Calls, memo: Memo, cut: set<(string, string)>, p: seq<string>)
    requires Followed(trames, appels, memo, cut) && MemoReal(trames, appels, memo)
    requires Path(appels, p) && Avoids(p, cut) && p[0] in memo
    ensures Sum(trames, p) <= memo[p[0]].total
  {
    if |p| > 1 {
      assert Edge(appels, p[0], p[0 + 1]) && (p[0], p[0 + 1]) !in cut;
      var q := p[1..];
      forall k | 0 <= k < |q| - 1 ensures Edge(appels, q[k], q[k + 1]) && (q[k], q[k + 1]) !in cut {
        assert Edge(appels, p[k + 1], p[k + 1 + 1]) && (p[k + 1], p[k + 1 + 1]) !in cut;
      }
      MemoIsLongest(trames, appels, memo, cut, q);
    } else {
      var c := memo[p[0]].chaine;
      assert p[1..] == [];
    }
  }

  /** No symbol of the graph contains the text of the recursion mark. */
  ghost predicate Clean(appels: Calls)
  {
    forall n, m :: Edge(appels, n, m) ==> !HasMark(m)
  }

  lemma CleanPath(appels: Calls, p: seq<string>)
    requires Clean(appels) && Path(appels, p) && !HasMark(p[0])
    ensures !Marked(p)
  {
    forall k | 0 <= k < |p| ensures !HasMark(p[k]) {
      if k > 0 { assert Edge(appels, p[k - 1], p[k - 1 + 1]); }
    }
  }

  ghost predicate Sound(trames: Frames, appels: Calls, memo: Memo, cut: set<(string, string)>)
  {
    && MemoReal(trames, appels, memo)
    && (Clean(appels) ==> Followed(trames, appels, memo, cut))
    && CutsAreCycles(appels, cut)
    && (forall n, m :: (n, m) in cut ==> n in memo)
    && (forall n :: n in memo ==> Avoids(memo[n].chaine, cut))
  }

  /** What the loop over the calls of `n` has found: the deepest chain so far. */
  ghost predicate Deepest(trames: Frames, appels: Calls, memo: Memo, n: string, vus: set<string>, pire: nat, chaine: seq<string>)
  {
    if chaine == [] then pire == 0
    else
      && Real(trames, appels, chaine[0], pire, chaine)
      && Edge(appels, n, chaine[0])
      && (forall m :: m in chaine ==> m !in vus && m != n)
      && (!Marked(chaine) ==> chaine[0] in memo && memo[chaine[0]] == Entry(pire, chaine))
  }

  function Cuts(n: string, fils: seq<string>, vus: set<string>): set<(string, string)>
  {
    set a | a in fils && a in vus && a != n :: (n, a)
  }

  lemma MemoiseReal(trames: Frames, appels: Calls, memo: Memo, n: string, vus: set<string>, pire: nat, chaine: seq<string>)
    requires MemoReal(trames, appels, memo) && n !in memo && Deepest(trames, appels, memo, n, vus, pire, chaine)
    ensures Real(trames, appels, n, Own(trames, n) + pire, [n] + chaine)
    ensures !Marked([n] + chaine) ==> MemoReal(trames, appels, memo[n := Entry(Own(trames, n) + pire, [n] + chaine)])
  {
    var q := [n] + chaine;
    if chaine == [] {
      RealAlone(trames, appels, n);
      assert q == [n];
    } else {
      RealCons(trames, appels, n, chaine[0], pire, chaine);
      if !Marked(q) { assert forall k :: 0 <= k < |chaine| ==> q[k + 1] == chaine[k]; }
    }
  }

  lemma MemoiseAvoids(trames: Frames, appels: Calls, memo: Memo, cut: set<(string, string)>, n: string, vus: set<string>, pire: nat, chaine: seq<string>)
    requires Sound(trames, appels, memo, cut) && n !in memo && Deepest(trames, appels, memo, n, vus, pire, chaine)
    requires !Marked([n] + chaine)
    ensures var cut' := cut + Cuts(n, Callees(appels, n), vus);
      Avoids([n] + chaine, cut') && forall k :: k in memo ==> Avoids(memo[k].chaine, cut')
  {
    var cut' := cut + Cuts(n, Callees(appels, n), vus);
    forall m | m in memo ensures Avoids(memo[m].chaine, cut') {
      var c := memo[m].chaine;
      forall i | 0 <= i < |c| - 1 ensures (c[i], c[i + 1]) !in cut' { assert c[i] in memo && (c[i], c[i + 1]) !in cut; }
    }
    var q := [n] + chaine;
    if chaine != [] {
      assert !Marked(chaine) by { assert forall k :: 0 <= k < |chaine| ==> q[k + 1] == chaine[k]; }
      forall i | 0 <= i < |q| - 1 ensures (q[i], q[i + 1]) !in cut' {
        if i > 0 { assert (chaine[i - 1], chaine[i - 1 + 1]) !in cut'; }
      }
    }
  }

  lemma Memoise(trames: Frames, appels: Calls, memo: Memo, cut: set<(string, string)>, n: string, vus: set<string>, pire: nat, chaine: seq<string>)
    requires Sound(trames, appels, memo, cut) && n !in memo && Deepest(trames, appels, memo, n, vus, pire, chaine)
    requires forall v :: v in vus ==> Reaches(appels, v, n)
    requires Clean(appels) ==> forall a :: Edge(appels, n, a) ==> a in vus || (a in memo && memo[a].total <= pire)
    requires !Marked([n] + chaine)
    ensures Sound(trames, appels, memo[n := Entry(Own(trames, n) + pire, [n] + chaine)], cut + Cuts(n, Callees(appels, n), vus))
  {
    MemoiseReal(trames, appels, memo, n, vus, pire, chaine);
    MemoiseAvoids(trames, appels, memo, cut, n, vus, pire, chaine);
  }

  /** The callee of every cut call is memoised, or still on the search path. */
  ghost predicate CutsOpen(appels: Calls, cut: set<(string, string)>, memo: Memo, vus: set<string>)
  {
    Clean(appels) ==> forall n, m :: (n, m) in cut ==> m in memo || m in vus
  }

  /** A function left unmemoised is the callee of no cut call. */
  lemma OpenWithout(trames: Frames, appels: Calls, memo: Memo, cut: set<(string, string)>, n: string, vus: set<string>, chaine: seq<string>)
    requires Sound(trames, appels, memo, cut) && CutsOpen(appels, cut, memo, vus + {n})
    requires Path(appels, chaine) && chaine[0] == n && Marked(chaine)
    ensures CutsOpen(appels, cut, memo, vus)
  {
    if Clean(appels) && !HasMark(n) { CleanPath(appels, chaine); }
  }

  /** With nothing on the path, the memo holds whatever a memoised function can
      reach. */
  lemma {:induction false} MemoHoldsReached(trames: Frames, appels: Calls, memo: Memo, cut: set<(string, string)>, p: seq<string>)
    requires Followed(trames, appels, memo, cut) && CutsOpen(appels, cut, memo, {}) && Clean(appels)
    requires Path(appels, p) && p[0] in memo
    ensures p[|p| - 1] in memo
    decreases |p|
  {
    if |p| > 1 {
      var q := p[1..];
      forall k | 0 <= k < |q| - 1 ensures Edge(appels, q[k], q[k + 1]) { assert Edge(appels, p[k + 1], p[k + 1 + 1]); }
      assert Edge(appels, p[0], p[0 + 1]);
      MemoHoldsReached(trames, appels, memo, cut, q);
    }
  }

  /** The memo holds the answer for `n` and every function `n` can reach. */
  ghost predicate HoldsReached(appels: Calls, memo: Memo, n: string, r: Entry)
  {
    n in memo && memo[n] == r && forall m :: Reaches(appels, n, m) ==> m in memo
  }

  /** Nothing already memoised changes. */
  ghost predicate Grows(memo: Memo, memo': Memo)
  {
    forall n :: n in memo ==> n in memo' && memo'[n] == memo[n]
  }

  /** The depths of the first `k` calls, other than those on the path. */
  ghost predicate Seen(appels: Calls, memo: Memo, fils: seq<string>, k: nat, path: set<string>, pire: nat)
    requires k <= |fils|
  {
    Clean(appels) ==> forall j :: 0 <= j < k && fils[j] !in path ==> fils[j] in memo && memo[fils[j]].total <= pire
  }

  /** What a search below `path` returns for `m`. */
  ghost predicate Answer(trames: Frames, appels: Calls, memo: Memo, m: string, path: set<string>, r: Entry)
  {
    if m in path then r == Entry(0, [m + " " + MARK])
    else
      && Real(trames, appels, m, r.total, r.chaine)
      && (forall x :: x in r.chaine ==> x !in path)
      && (!Marked(r.chaine) ==> m in memo && memo[m] == r)
  }

  lemma Advance(trames: Frames, appels: Calls, memo: Memo, memo': Memo, n: string, vus: set<string>, k: nat, pire: nat, chaine: seq<string>, r: Entry)
    requires k < |Callees(appels, n)| && Edge(appels, n, Callees(appels, n)[k]) && Grows(memo, memo')
    requires Deepest(trames, appels, memo, n, vus, pire, chaine) && Seen(appels, memo, Callees(appels, n), k, vus + {n}, pire)
    requires Answer(trames, appels, memo', Callees(appels, n)[k], vus + {n}, r)
    ensures var (pire', chaine') := if r.total > pire then (r.total, r.chaine) else (pire, chaine);
      && Deepest(trames, appels, memo', n, vus, pire', chaine')
      && Seen(appels, memo', Callees(appels, n), k + 1, vus + {n}, pire')
  {
    var m := Callees(appels, n)[k];
    if m !in vus + {n} && Clean(appels) { CleanPath(appels, r.chaine); }
  }

  lemma Hit(trames: Frames, appels: Calls, memo: Memo, n: string, vus: set<string>)
    requires MemoReal(trames, appels, memo) && n in memo && vus !! memo.Keys
    ensures Answer(trames, appels, memo, n, vus, memo[n])
  {
  }

  /** The answer for `n` once its calls are searched, memoised unless marked. */
  lemma Settle(trames: Frames, appels: Calls, memo: Memo, cut: set<(string, string)>, n: string, vus: set<string>, pire: nat, chaine: seq<string>)
    requires Sound(trames, appels, memo, cut) && n !in memo && n !in vus
    requires Deepest(trames, appels, memo, n, vus, pire, chaine)
    requires Seen(appels, memo, Callees(appels, n), |Callees(appels, n)|, vus + {n}, pire)
    requires forall v :: v in vus ==> Reaches(appels, v, n)
    ensures var r := Entry(Own(trames, n) + pire, [n] + chaine);
      if Marked(r.chaine) then Answer(trames, appels, memo, n, vus, r)
      else Answer(trames, appels, memo[n := r], n, vus, r) && Sound(trames, appels, memo[n := r], cut + Cuts(n, Callees(appels, n), vus))
  {
    var r := Entry(Own(trames, n) + pire, [n] + chaine);
    MemoiseReal(trames, appels, memo, n, vus, pire, chaine);
    if !Marked(r.chaine) { Memoise(trames, appels, memo, cut, n, vus, pire, chaine); }
  }

  /** One traversal: a call table in a fixed order and the memo it fills. */
  class Parcours {
    const trames: Frames
    const appels: Calls
    var memo: Memo
    /** Calls skipped because the callee was still on the search path. */
    ghost var cut: set<(string, string)>

    ghost predicate Valid() reads this { Sound(trames, appels, memo, cut) }

    ghost predicate Below(vus: set<string>) reads this { CutsOpen(appels, cut, memo, vus) }

    constructor (trames: Frames, appels: Calls)
      ensures Valid() && Below({}) && this.trames == trames && this.appels == appels && memo == map[] && cut == {}
    {
      this.trames, this.appels := trames, appels;
      memo, cut := map[], {};
    }

    /** The worst chain from `depart`, below the functions `vus` of the current
        path. */
    method ProfondeurMax(depart: string, vus: set<string>) returns (r: Entry)
      requires Valid() && Below(vus) && vus !! memo.Keys
      requires forall v :: v in vus ==> Reaches(appels, v, depart)
      modifies this
      ensures Valid() && Below(vus) && vus !! memo.Keys && Grows(old(memo), memo) && old(cut) <= cut
      ensures Answer(trames, appels, memo, depart, vus, r)
      decreases |appels.Keys - vus|, 2
    {
      if depart in vus {
        return Entry(0, [depart + " " + MARK]);
      }
      if depart in memo {
        Hit(trames, appels, memo, depart, vus);
        return memo[depart];
      }
      var pire, chaine := Enfants(depart, vus);
      r := Entry(Own(trames, depart) + pire, [depart] + chaine);
      Settle(trames, appels, memo, cut, depart, vus, pire, chaine);
      if !Marked(r.chaine) {
        memo := memo[depart := r];
        cut := cut + Cuts(depart, Callees(appels, depart), vus);
      } else {
        OpenWithout(trames, appels, memo, cut, depart, vus, r.chaine);
      }
    }

    /** The loop over the calls of `depart`: the deepest chain below it. */
    method Enfants(depart: string, vus: set<string>) returns (pire: nat, chaine: seq<string>)
      requires Valid() && Below(vus + {depart}) && vus + {depart} !! memo.Keys && depart !in vus
      requires forall v :: v in vus ==> Reaches(appels, v, depart)
      modifies this
      ensures Valid() && Below(vus + {depart}) && vus + {depart} !! memo.Keys && Grows(old(memo), memo) && old(cut) <= cut
      ensures Deepest(trames, appels, memo, depart, vus, pire, chaine)
      ensures Seen(appels, memo, Callees(appels, depart), |Callees(appels, depart)|, vus + {depart}, pire)
      decreases |appels.Keys - vus|, 1
    {
      pire, chaine := 0, [];
      for k := 0 to |Callees(appels, depart)|
        invariant Valid() && Below(vus + {depart}) && vus + {depart} !! memo.Keys && Grows(old(memo), memo) && old(cut) <= cut
        invariant Deepest(trames, appels, memo, depart, vus, pire, chaine)
        invariant Seen(appels, memo, Callees(appels, depart), k, vus + {depart}, pire)
      {
        pire, chaine := UnEnfant(depart, vus, k, pire, chaine);
      }
    }

    /** One call: search below it, keep the deeper chain. */
    method UnEnfant(depart: string, vus: set<string>, k: nat, avant: nat, chaineAvant: seq<string>)
      returns (pire: nat, chaine: seq<string>)
      requires Valid() && Below(vus + {depart}) && vus + {depart} !! memo.Keys && depart !in vus
      requires forall v :: v in vus ==> Reaches(appels, v, depart)
      requires k < |Callees(appels, depart)|
      requires Deepest(trames, appels, memo, depart, vus, avant, chaineAvant)
      requires Seen(appels, memo, Callees(appels, depart), k, vus + {depart}, avant)
      modifies this
      ensures Valid() && Below(vus + {depart}) && vus + {depart} !! memo.Keys && Grows(old(memo), memo) && old(cut) <= cut
      ensures Deepest(trames, appels, memo, depart, vus, pire, chaine)
      ensures Seen(appels, memo, Callees(appels, depart), k + 1, vus + {depart}, pire)
      decreases |appels.Keys - vus|, 0
    {
      pire, chaine := avant, chaineAvant;
      var appele := Callees(appels, depart)[k];
      if appele == depart {
        return;
      }
      ReachesSelf(appels, depart);
      ReachAll(appels, vus + {depart}, depart, appele);
      Shrinks(appels.Keys, vus, depart);
      var sous := ProfondeurMax(appele, vus + {depart});
      Advance(trames, appels, old(memo), memo, depart, vus, k, avant, chaineAvant, sous);
      if sous.total > pire {
        pire, chaine := sous.total, sous.chaine;
      }
    }

    /** A root: its chain is real whatever the graph and the memo, and it is the
        longest of the graph less the cut calls, of which it takes none.  Every
        function it can reach ends up memoised. */
    method Mesure(depart: string) returns (r: Entry)
      requires Valid() && Below({})
      modifies this
      ensures Valid() && Below({}) && Grows(old(memo), memo) && old(cut) <= cut
      ensures Real(trames, appels, depart, r.total, r.chaine)
      ensures r.total == 8 * |r.chaine| + FrameSum(trames, r.chaine)
      ensures Clean(appels) && !HasMark(depart) ==> Avoids(r.chaine, cut)
      ensures Clean(appels) && !HasMark(depart) ==>
                forall p :: Path(appels, p) && p[0] == depart && Avoids(p, cut) ==> Sum(trames, p) <= r.total
      ensures Clean(appels) && !HasMark(depart) ==> HoldsReached(appels, memo, depart, r)
      ensures CutsAreCycles(appels, cut)
      ensures Clean(appels) && !HasMark(depart) && Acyclic(appels) ==>
                forall p :: Path(appels, p) && p[0] == depart ==> Sum(trames, p) <= r.total
    {
      r := ProfondeurMax(depart, {});
      CostOfChain(trames, r.chaine);
      if Clean(appels) && !HasMark(depart) {
        CleanPath(appels, r.chaine);
        forall p | Path(appels, p) && p[0] == depart && Avoids(p, cut) ensures Sum(trames, p) <= r.total {
          MemoIsLongest(trames, appels, memo, cut, p);
        }
        forall m | Reaches(appels, depart, m) ensures m in memo {
          var p: seq<string> :| Path(appels, p) && p[0] == depart && p[|p| - 1] == m;
          MemoHoldsReached(trames, appels, memo, cut, p);
        }
      }
    }
  }

  ghost predicate Acyclic(appels: Calls) { forall n, m :: Edge(appels, n, m) ==> !Reaches(appels, m, n) }

  lemma ReachAll(appels: Calls, vus: set<string>, n: string, m: string)
    requires (forall v :: v in vus ==> Reaches(appels, v, n)) && Edge(appels, n, m)
    ensures forall v :: v in vus ==> Reaches(appels, v, m)
  {
    forall v | v in vus ensures Reaches(appels, v, m) { ReachesStep(appels, v, n, m); }
  }

  lemma Shrinks(keys: set<string>, vus: set<string>, n: string)
    requires n in keys && n !in vus
    ensures |keys - (vus + {n})| < |keys - vus|
  {
    assert keys - vus == (keys - (vus + {n})) + {n};
  }

  // ---- The worst of several traversal orders ----

  /** Two tables with the same calls, in different orders. */
  ghost predicate SameCalls(a: Calls, b: Calls) { forall n, m :: Edge(a, n, m) <==> Edge(b, n, m) }

  lemma SameReal(trames: Frames, a: Calls, b: Calls)
    requires SameCalls(a, b)
    ensures forall p :: Path(a, p) <==> Path(b, p)
    ensures forall n, total, p :: Real(trames, a, n, total, p) <==> Real(trames, b, n, total, p)
    ensures forall cut :: CutsAreCycles(a, cut) ==> CutsAreCycles(b, cut)
    ensures Clean(a) <==> Clean(b)
  {
    forall p ensures Path(a, p) <==> Path(b, p) {
      if p != [] { assert forall k :: 0 <= k < |p| - 1 ==> (Edge(a, p[k], p[k + 1]) <==> Edge(b, p[k], p[k + 1])); }
    }
    forall cut, n, m | CutsAreCycles(a, cut) && (n, m) in cut ensures Edge(b, n, m) && Reaches(b, m, n) {
      var p: seq<string> :| Path(a, p) && p[0] == m && p[|p| - 1] == n;
      assert Path(b, p);
    }
  }

  /** `r` is a real chain from `n` at least as deep as every chain that avoids
      the cut calls. */
  ghost predicate Dominates(trames: Frames, appels: Calls, cut: set<(string, string)>, n: string, total: nat)
  {
    Clean(appels) && !HasMark(n) ==>
      forall p :: Path(appels, p) && p[0] == n && Avoids(p, cut) ==> Sum(trames, p) <= total
  }

  lemma DominatesMore(trames: Frames, appels: Calls, cut: set<(string, string)>, cut': set<(string, string)>, n: string, total: nat, total': nat)
    requires Dominates(trames, appels, cut, n, total) && cut <= cut' && total <= total'
    ensures Dominates(trames, appels, cut', n, total')
  {
    if Clean(appels) && !HasMark(n) {
      forall p | Path(appels, p) && p[0] == n && Avoids(p, cut') ensures Sum(trames, p) <= total' {
        assert Avoids(p, cut);
      }
    }
  }

  ghost predicate AllReal(trames: Frames, appels: Calls, pires: Memo)
  {
    forall n :: n in pires ==> Real(trames, appels, n, pires[n].total, pires[n].chaine)
  }

  /** Worse or equal everywhere. */
  ghost predicate Worse(pires: Memo, pires': Memo)
  {
    forall n :: n in pires ==> n in pires' && pires[n].total <= pires'[n].total
  }

  /** The first `n` roots are measured and dominate what `cut` leaves. */
  ghost predicate Roots(trames: Frames, appels: Calls, cut: set<(string, string)>, racines: seq<string>, n: nat, pires: Memo)
    requires n <= |racines|
  {
    forall i :: 0 <= i < n ==> racines[i] in pires && Dominates(trames, appels, cut, racines[i], pires[racines[i]].total)
  }

  lemma RootsMore(trames: Frames, appels: Calls, cut: set<(string, string)>, cut': set<(string, string)>, racines: seq<string>, n: nat, pires: Memo, pires': Memo)
    requires n <= |racines| && Roots(trames, appels, cut, racines, n, pires) && cut <= cut' && Worse(pires, pires')
    ensures Roots(trames, appels, cut', racines, n, pires')
  {
    forall i | 0 <= i < n ensures racines[i] in pires' && Dominates(trames, appels, cut', racines[i], pires'[racines[i]].total) {
      DominatesMore(trames, appels, cut, cut', racines[i], pires[racines[i]].total, pires'[racines[i]].total);
    }
  }

  lemma RootsStep(trames: Frames, appels: Calls, cut: set<(string, string)>, cut': set<(string, string)>, racines: seq<string>, n: nat, pires: Memo, pires': Memo, total: nat)
    requires n < |racines| && Roots(trames, appels, cut, racines, n, pires) && cut <= cut' && Worse(pires, pires')
    requires racines[n] in pires' && total <= pires'[racines[n]].total && Dominates(trames, appels, cut', racines[n], total)
    ensures Roots(trames, appels, cut', racines, n + 1, pires')
  {
    RootsMore(trames, appels, cut, cut', racines, n, pires, pires');
    DominatesMore(trames, appels, cut', cut', racines[n], total, pires'[racines[n]].total);
  }

  /** One table: every root measured with one memo. */
  method UnParcours(trames: Frames, appels: Calls, racines: seq<string>, avant: Memo)
    returns (pires: Memo, ghost cut: set<(string, string)>)
    requires AllReal(trames, appels, avant)
    ensures AllReal(trames, appels, pires) && Worse(avant, pires) && CutsAreCycles(appels, cut)
    ensures Roots(trames, appels, cut, racines, |racines|, pires)
    ensures forall n :: n in pires && n !in avant ==> n in racines
  {
    var parcours := new Parcours(trames, appels);
    pires := avant;
    for i := 0 to |racines|
      invariant parcours.Valid() && parcours.Below({}) && fresh(parcours) && parcours.trames == trames && parcours.appels == appels
      invariant AllReal(trames, appels, pires) && Worse(avant, pires)
      invariant Roots(trames, appels, parcours.cut, racines, i, pires)
      invariant forall n :: n in pires && n !in avant ==> n in racines
    {
      var nom := racines[i];
      ghost var was, cutWas := pires, parcours.cut;
      var r := parcours.Mesure(nom);
      assert Dominates(trames, appels, parcours.cut, nom, r.total);
      if nom !in pires || r.total > pires[nom].total {
        pires := pires[nom := r];
      }
      RootsStep(trames, appels, cutWas, parcours.cut, racines, i, was, pires, r.total);
    }
    cut := parcours.cut;
  }

  lemma SameRoots(trames: Frames, a: Calls, b: Calls, cut: set<(string, string)>, racines: seq<string>, pires: Memo)
    requires SameCalls(a, b) && Roots(trames, a, cut, racines, |racines|, pires)
    ensures Roots(trames, b, cut, racines, |racines|, pires)
  {
    SameReal(trames, a, b);
    forall i | 0 <= i < |racines| ensures racines[i] in pires && Dominates(trames, b, cut, racines[i], pires[racines[i]].total) {
      assert Dominates(trames, a, cut, racines[i], pires[racines[i]].total);
    }
  }

  /** The measure that decides the budget: for each root, the worst over all the
      orders.  It is the cost of a real chain, and each order proves it at least
      as deep as everything but the calls that order cut, all of them on cycles. */
  method PireParRacine(trames: Frames, appels: Calls, tables: seq<Calls>, racines: seq<string>)
    returns (pires: Memo, ghost cuts: seq<set<(string, string)>>)
    requires forall k :: 0 <= k < |tables| ==> SameCalls(tables[k], appels)
    ensures AllReal(trames, appels, pires)
    ensures |tables| > 0 ==> forall n :: n in pires <==> n in racines
    ensures |cuts| == |tables| && forall k :: 0 <= k < |tables| ==> CutsAreCycles(appels, cuts[k])
    ensures forall k :: 0 <= k < |tables| ==> Roots(trames, appels, cuts[k], racines, |racines|, pires)
  {
    pires, cuts := map[], [];
    for k := 0 to |tables|
      invariant AllReal(trames, appels, pires) && |cuts| == k
      invariant forall j :: 0 <= j < k ==> CutsAreCycles(appels, cuts[j])
      invariant forall j :: 0 <= j < k ==> Roots(trames, appels, cuts[j], racines, |racines|, pires)
      invariant forall n :: n in pires ==> n in racines
      invariant k > 0 ==> forall i :: 0 <= i < |racines| ==> racines[i] in pires
    {
      SameReal(trames, appels, tables[k]);
      SameReal(trames, tables[k], appels);
      ghost var was := pires;
      ghost var cut;
      pires, cut := UnParcours(trames, tables[k], racines, pires);
      ghost var cutsWas := cuts;
      cuts := cuts + [cut];
      forall j | 0 <= j < k + 1 ensures Roots(trames, appels, cuts[j], racines, |racines|, pires) {
        if j < k {
          RootsMore(trames, appels, cutsWas[j], cuts[j], racines, |racines|, was, pires);
        } else {
          SameRoots(trames, tables[k], appels, cut, racines, pires);
        }
      }
    }
    if |tables| > 0 {
      forall n ensures n in pires <==> n in racines {
        if n in racines {
          var i :| 0 <= i < |racines| && racines[i] == n;
          assert racines[i] in pires;
        }
      }
    }
  }
}
