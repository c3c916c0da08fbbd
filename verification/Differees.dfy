/** The byte rings under the console: length-prefixed records in a circular
    buffer, addressed by ever-growing positions. */
module Differees {
  import opened Commun
  import opened Console

  const U16_MAX: nat := 0xFFFF

  datatype Tete = Tete(position: nat, longueur: nat)

  // ---- Positions and cells ----

  /** The cell of a position: its remainder. */
  function Cell(p: nat, n: nat): (c: nat)
    requires n > 0
    ensures c < n
  {
    if p < n then p else Cell(p - n, n)
  }

  lemma {:induction false} CellIsMod(p: nat, n: nat)
    requires n > 0
    ensures Cell(p, n) == p % n
  {
    if p >= n {
      CellIsMod(p - n, n);
      assert p == (p - n) + n * 1 && (p - n) % n == p % n by { ModSub(p, n); }
    }
  }

  lemma ModSub(p: nat, n: nat)
    requires 0 < n <= p
    ensures (p - n) % n == p % n
  {
    var q, r := p / n, p % n;
    assert p - n == (q - 1) * n + r;
    assert (p - n) % n == r by { ModOf(p - n, n, q - 1, r); }
  }

  lemma ModOf(x: nat, n: nat, q: int, r: nat)
    requires n > 0 && x == q * n + r && r < n
    ensures x % n == r
  {
    var d := x / n - q;
    assert d * n == r - x % n;
    MulAway(d, n);
  }

  lemma MulAway(d: int, n: int)
    requires n > 0
    ensures (d > 0 ==> d * n >= n) && (d < 0 ==> d * n <= -n)
  {
  }

  /** Positions less than a turn apart fall on different cells. */
  lemma {:induction false} DifferentCells(a: nat, b: nat, n: nat)
    requires n > 0 && a < b < a + n
    ensures Cell(a, n) != Cell(b, n)
    decreases a
  {
    if a >= n { DifferentCells(a - n, b - n, n); }
  }

  lemma {:induction false} CellPlus(p: nat, k: nat, n: nat)
    requires k < n
    ensures Cell(p + k, n) == if Cell(p, n) + k < n then Cell(p, n) + k else Cell(p, n) + k - n
  {
    if p >= n { CellPlus(p - n, k, n); }
  }

  /** The `k` octets from position `p` on. */
  function Window(mem: seq<Octet>, p: nat, k: nat): (w: seq<Octet>)
    requires mem != []
    ensures |w| == k
  {
    seq(k, i requires 0 <= i => mem[Cell(p + i, |mem|)])
  }

  lemma WindowSlice(mem: seq<Octet>, p: nat, k: nat, x: nat, y: nat)
    requires mem != [] && x <= y <= k
    ensures Window(mem, p, k)[x..y] == Window(mem, p + x, y - x)
  {
    forall i | 0 <= i < y - x ensures Window(mem, p, k)[x..y][i] == Window(mem, p + x, y - x)[i] {
      assert p + (x + i) == (p + x) + i;
    }
  }

  /** Writing past a window, less than a turn away, leaves it. */
  lemma WriteBeyond(mem: seq<Octet>, p: nat, k: nat, q: nat, b: Octet)
    requires mem != [] && p + k <= q < p + |mem|
    ensures Window(mem[Cell(q, |mem|) := b], p, k) == Window(mem, p, k)
  {
    forall i | 0 <= i < k ensures Window(mem[Cell(q, |mem|) := b], p, k)[i] == Window(mem, p, k)[i] {
      DifferentCells(p + i, q, |mem|);
    }
  }

  /** Writing right after a window extends it. */
  lemma WriteNext(mem: seq<Octet>, p: nat, k: nat, b: Octet)
    requires mem != [] && k < |mem|
    ensures Window(mem[Cell(p + k, |mem|) := b], p, k + 1) == Window(mem, p, k) + [b]
  {
    WriteBeyond(mem, p, k, p + k, b);
    WindowSlice(mem[Cell(p + k, |mem|) := b], p, k + 1, 0, k);
  }

  function Slices(mem: seq<Octet>, c: nat, k: nat): (s: seq<Octet>)
    requires c < |mem| && k <= |mem|
    ensures |s| == k
  {
    if k <= |mem| - c then mem[c..c + k] else mem[c..] + mem[..k - (|mem| - c)]
  }

  /** A window is at most two contiguous slices. */
  lemma WindowSlices(mem: seq<Octet>, p: nat, k: nat)
    requires mem != [] && k <= |mem|
    ensures Window(mem, p, k) == Slices(mem, Cell(p, |mem|), k)
  {
    var s := Slices(mem, Cell(p, |mem|), k);
    forall i | 0 <= i < k ensures Window(mem, p, k)[i] == s[i] {
      CellPlus(p, i, |mem|);
    }
  }

  method Reste(p: nat, n: nat) returns (c: nat)
    requires n > 0
    ensures c == Cell(p, n)
  {
    CellIsMod(p, n);
    c := p % n;
  }

  // ---- Records ----

  function Header(n: nat): (h: seq<Octet>)
    requires n <= U16_MAX
    ensures |h| == 2
  {
    [n % 256, n / 256]
  }

  /** A record as it lies in the ring: its length, low octet first, then itself. */
  function Frame(r: seq<Octet>): (f: seq<Octet>)
    requires |r| <= U16_MAX
    ensures |f| == 2 + |r|
  {
    Header(|r|) + r
  }

  function Flatten(pieces: seq<seq<Octet>>): seq<Octet>
  {
    if pieces == [] then [] else Flatten(pieces[..|pieces| - 1]) + pieces[|pieces| - 1]
  }

  /** Between the two positions lie exactly these records, end to end. */
  ghost predicate Holds(mem: seq<Octet>, p: nat, q: nat, rs: seq<seq<Octet>>)
    requires mem != []
    decreases |rs|
  {
    if rs == [] then p == q
    else
      && 0 < |rs[0]| <= U16_MAX
      && Window(mem, p, 2 + |rs[0]|) == Frame(rs[0])
      && Holds(mem, p + 2 + |rs[0]|, q, rs[1..])
  }

  lemma {:induction false} HoldsSpan(mem: seq<Octet>, p: nat, q: nat, rs: seq<seq<Octet>>)
    requires mem != [] && Holds(mem, p, q, rs)
    ensures p <= q && (rs != [] ==> p + 2 + |rs[0]| <= q)
    decreases |rs|
  {
    if rs != [] { HoldsSpan(mem, p + 2 + |rs[0]|, q, rs[1..]); }
  }

  lemma {:induction false} HoldsAppend(mem: seq<Octet>, p: nat, q: nat, rs: seq<seq<Octet>>, r: seq<Octet>)
    requires mem != [] && Holds(mem, p, q, rs) && 0 < |r| <= U16_MAX && Window(mem, q, 2 + |r|) == Frame(r)
    ensures Holds(mem, p, q + 2 + |r|, rs + [r])
    decreases |rs|
  {
    if rs == [] {
      assert rs + [r] == [r] && [r][1..] == [];
    } else {
      HoldsAppend(mem, p + 2 + |rs[0]|, q, rs[1..], r);
      assert (rs + [r])[1..] == rs[1..] + [r];
    }
  }

  /** Writing past the queue, less than a turn from the head, changes no record. */
  lemma {:induction false} HoldsBeyond(mem: seq<Octet>, p: nat, q: nat, rs: seq<seq<Octet>>, x: nat, b: Octet)
    requires mem != [] && Holds(mem, p, q, rs) && q <= x < p + |mem|
    ensures Holds(mem[Cell(x, |mem|) := b], p, q, rs)
    decreases |rs|
  {
    if rs != [] {
      HoldsSpan(mem, p, q, rs);
      WriteBeyond(mem, p, 2 + |rs[0]|, x, b);
      HoldsBeyond(mem, p + 2 + |rs[0]|, q, rs[1..], x, b);
    }
  }

  class Anneau {
    const octets: array<Octet>
    var tete: nat
    var queue: nat
    ghost var records: seq<seq<Octet>>

    ghost predicate Valid()
      reads this, octets
    {
      octets.Length > 0 && tete <= queue <= tete + octets.Length && Holds(octets[..], tete, queue, records)
    }

    constructor (n: nat)
      requires n > 0
      ensures Valid() && records == [] && octets.Length == n && fresh(octets)
    {
      octets := new Octet[n](_ => 0);
      tete, queue, records := 0, 0, [];
    }

    /** A record announced `total` octets long and written piece by piece; it is
        published only if the pieces add up to exactly that. */
    method RangeMorceaux(total: nat, morceaux: seq<seq<Octet>>) returns (ok: bool)
      requires Valid()
      modifies this`queue, this`records, octets
      ensures Valid() && tete == old(tete)
      ensures ok == (total == 0
                     || (total <= U16_MAX && |Flatten(morceaux)| == total && old(queue - tete) + 2 + total <= octets.Length))
      ensures records == if ok && total > 0 then old(records) + [Flatten(morceaux)] else old(records)
      ensures ok && total > 0 ==> Window(octets[..], old(queue), 2) == [total % 256, total / 256]
    {
      if total == 0 {
        return true;
      }
      if total > U16_MAX || octets.Length - (queue - tete) < 2 + total {
        return false;
      }
      var pose := Ecrit(total, morceaux);
      ok := pose == total;
      if ok {
        WindowSlice(octets[..], queue, 2 + total, 0, 2);
        Publie(total, Flatten(morceaux));
      }
    }

    /** The queue moves past a record already in place. */
    method Publie(total: nat, ghost r: seq<Octet>)
      requires Valid() && 0 < |r| == total <= U16_MAX && queue - tete + 2 + total <= octets.Length
      requires Window(octets[..], queue, 2 + total) == Frame(r)
      modifies this`queue, this`records
      ensures Valid() && records == old(records) + [r]
    {
      HoldsAppend(octets[..], tete, queue, records, r);
      queue := queue + 2 + total;
      records := records + [r];
    }

    /** The copy behind the queue: nothing live is touched, and at most `total`
        octets are written whatever the pieces hold. */
    method Ecrit(total: nat, morceaux: seq<seq<Octet>>) returns (pose: nat)
      requires Valid() && 0 < total <= U16_MAX && queue - tete + 2 + total <= octets.Length
      modifies octets
      ensures Valid() && pose == |Flatten(morceaux)|
      ensures pose == total ==> Window(octets[..], queue, 2 + total) == Frame(Flatten(morceaux))
    {
      Pose(0, total % 256);
      Pose(1, total / 256);
      pose := 0;
      ghost var done: seq<Octet> := [];
      for i := 0 to |morceaux|
        invariant Valid() && done == Flatten(morceaux[..i]) && pose == |done|
        invariant pose <= total ==> Window(octets[..], queue, 2 + pose) == Header(total) + done
      {
        assert morceaux[..i + 1][..i] == morceaux[..i];
        pose := EcritMorceau(total, pose, morceaux[i], Header(total) + done);
        Regroup(Header(total), done, morceaux[i]);
        done := done + morceaux[i];
      }
      assert morceaux[..|morceaux|] == morceaux;
    }

    /** One piece, octet by octet; those beyond `total` are counted, not written. */
    method EcritMorceau(total: nat, depuis: nat, morceau: seq<Octet>, ghost pris: seq<Octet>) returns (pose: nat)
      requires Valid() && queue - tete + 2 + total <= octets.Length && |pris| == 2 + depuis
      requires depuis <= total ==> Window(octets[..], queue, 2 + depuis) == pris
      modifies octets
      ensures Valid() && pose == depuis + |morceau|
      ensures pose <= total ==> Window(octets[..], queue, 2 + pose) == pris + morceau
    {
      pose := depuis;
      for j := 0 to |morceau|
        invariant Valid() && pose == depuis + j
        invariant pose <= total ==> Window(octets[..], queue, 2 + pose) == pris + morceau[..j]
      {
        if pose < total {
          Pose(2 + pose, morceau[j]);
        }
        assert pris + morceau[..j] + [morceau[j]] == pris + morceau[..j + 1];
        pose := pose + 1;
      }
      assert morceau[..|morceau|] == morceau;
    }

    /** One octet, `k` cells behind the queue. */
    method Pose(k: nat, b: Octet)
      requires Valid() && queue - tete + k < octets.Length
      modifies octets
      ensures Valid()
      ensures Window(octets[..], queue, k + 1) == old(Window(octets[..], queue, k)) + [b]
    {
      ghost var mem := octets[..];
      var cell := Reste(queue + k, octets.Length);
      octets[cell] := b;
      assert octets[..] == mem[cell := b];
      HoldsBeyond(mem, tete, queue, records, queue + k, b);
      WriteNext(mem, queue, k, b);
    }

    /** The head record: where it starts and how long it is. */
    method Premier() returns (r: Option<Tete>)
      requires Valid()
      ensures r == if records == [] then None else Some(Tete(tete, |records[0]|))
    {
      HoldsSpan(octets[..], tete, queue, records);
      if tete >= queue {
        return None;
      }
      HeadLength(octets[..], tete, queue, records);
      var i := Reste(tete, octets.Length);
      var j := Reste(tete + 1, octets.Length);
      var bas: int, haut: int := octets[i], octets[j];
      var n := bas + haut * 256;
      return Some(Tete(tete, n));
    }

    /** Octets `de..a` of the head record, in at most two contiguous pieces. */
    method Lis(de: nat, a: nat) returns (lus: seq<Octet>)
      requires Valid() && records != [] && de <= a <= |records[0]|
      ensures lus == records[0][de..a]
    {
      if de >= a {
        return [];
      }
      var len, n := octets.Length, a - de;
      var debut := Reste(tete + 2 + de, len);
      HeadSlices(octets[..], tete, queue, records, de, a);
      lus := Tranche(debut, n);
    }

    /** `n` octets from cell `debut` on, going round the end once. */
    method Tranche(debut: nat, n: nat) returns (lus: seq<Octet>)
      requires debut < octets.Length && n <= octets.Length
      ensures lus == Slices(octets[..], debut, n)
    {
      var premier := if n <= octets.Length - debut then n else octets.Length - debut;
      lus := octets[debut..debut + premier];
      if n > premier {
        lus := lus + octets[..n - premier];
      }
    }

    /** The head record leaves. */
    method Retire(n: nat)
      requires Valid() && records != [] && n == |records[0]|
      modifies this`tete, this`records
      ensures Valid() && records == old(records)[1..] && queue == old(queue) && tete == old(tete) + 2 + n
    {
      HoldsSpan(octets[..], tete, queue, records);
      tete := tete + 2 + n;
      records := records[1..];
    }
  }

  lemma Regroup(a: seq<Octet>, b: seq<Octet>, c: seq<Octet>)
    ensures a + b + c == a + (b + c)
  {
  }

  lemma HeadLength(mem: seq<Octet>, p: nat, q: nat, rs: seq<seq<Octet>>)
    requires mem != [] && rs != [] && Holds(mem, p, q, rs)
    ensures (mem[Cell(p, |mem|)] as int) + (mem[Cell(p + 1, |mem|)] as int) * 256 == |rs[0]|
  {
    var k := 2 + |rs[0]|;
    assert Window(mem, p, k)[0] == mem[Cell(p + 0, |mem|)] && Window(mem, p, k)[1] == mem[Cell(p + 1, |mem|)];
  }

  /** Where a slice of the head record lies. */
  lemma HeadSlices(mem: seq<Octet>, p: nat, q: nat, rs: seq<seq<Octet>>, de: nat, a: nat)
    requires mem != [] && rs != [] && Holds(mem, p, q, rs) && de <= a <= |rs[0]| && q - p <= |mem|
    ensures a - de <= |mem| && rs[0][de..a] == Slices(mem, Cell(p + 2 + de, |mem|), a - de)
  {
    HoldsSpan(mem, p, q, rs);
    WindowSlice(mem, p, 2 + |rs[0]|, 2 + de, 2 + a);
    FrameSlice(rs[0], de, a);
    WindowSlices(mem, p + 2 + de, a - de);
  }

  lemma FrameSlice(r: seq<Octet>, de: nat, a: nat)
    requires |r| <= U16_MAX && de <= a <= |r|
    ensures Frame(r)[2 + de..2 + a] == r[de..a]
  {
  }

  // ---- What is put in a record ----

  /** The text with the prefix put before each line that is not empty. */
  function Prefixed(octets: seq<Octet>, prefixe: seq<Octet>, debut: bool): seq<Octet>
  {
    if octets == [] then []
    else (if debut && octets[0] != NEWLINE then prefixe else []) + [octets[0]] + Prefixed(octets[1..], prefixe, octets[0] == NEWLINE)
  }

  const NEWLINE: Octet := 10

  function Starts(octets: seq<Octet>, debut: bool): bool { if octets == [] then debut else octets[|octets| - 1] == NEWLINE }

  lemma {:induction false} PrefixedSplit(a: seq<Octet>, b: seq<Octet>, prefixe: seq<Octet>, debut: bool)
    ensures Prefixed(a + b, prefixe, debut) == Prefixed(a, prefixe, debut) + Prefixed(b, prefixe, Starts(a, debut))
  {
    if a == [] {
      assert a + b == b;
    } else {
      assert (a + b)[1..] == a[1..] + b;
      PrefixedSplit(a[1..], b, prefixe, a[0] == NEWLINE);
    }
  }

  /** Line by line, a newline being octet 10: a line that starts a line and is not
      empty gets the prefix, nothing else changes. */
  lemma {:induction false} PrefixedLine(line: seq<Octet>, rest: seq<Octet>, prefixe: seq<Octet>, debut: bool)
    requires 10 !in line
    ensures var shown := (if debut && line != [] then prefixe else []) + line;
      && Prefixed(line, prefixe, debut) == shown
      && Prefixed(line + [10] + rest, prefixe, debut) == shown + [10] + Prefixed(rest, prefixe, true)
  {
    PlainLine(line, prefixe, debut);
    var nl: seq<Octet> := [10];
    assert nl[1..] == [];
    PrefixedSplit(line + nl, rest, prefixe, debut);
    PrefixedSplit(line, nl, prefixe, debut);
    assert Prefixed(nl, prefixe, Starts(line, debut)) == nl;
  }

  lemma {:induction false} PlainLine(line: seq<Octet>, prefixe: seq<Octet>, debut: bool)
    requires 10 !in line
    ensures Prefixed(line, prefixe, debut) == (if debut && line != [] then prefixe else []) + line
  {
    if line != [] {
      PlainLine(line[1..], prefixe, false);
      assert [line[0]] + line[1..] == line;
    }
  }

  /** The length announced is the length written. */
  method LongueurPrefixee(octets: seq<Octet>, prefixe: seq<Octet>, debut: bool) returns (n: nat)
    ensures n == |Prefixed(octets, prefixe, debut)|
  {
    n := |octets|;
    var debutLigne := debut;
    for i := 0 to |octets|
      invariant debutLigne == Starts(octets[..i], debut) && n == |Prefixed(octets[..i], prefixe, debut)| + (|octets| - i)
    {
      PrefixedStep(octets, i, prefixe, debut);
      if debutLigne && octets[i] != NEWLINE {
        n := n + |prefixe|;
      }
      debutLigne := octets[i] == NEWLINE;
    }
    assert octets[..|octets|] == octets;
  }

  lemma PrefixedStep(octets: seq<Octet>, i: nat, prefixe: seq<Octet>, debut: bool)
    requires i < |octets|
    ensures Prefixed(octets[..i + 1], prefixe, debut)
      == Prefixed(octets[..i], prefixe, debut) + (if Starts(octets[..i], debut) && octets[i] != NEWLINE then prefixe else []) + [octets[i]]
    ensures Starts(octets[..i + 1], debut) == (octets[i] == NEWLINE)
  {
    var last := [octets[i]];
    assert octets[..i + 1] == octets[..i] + last && last[1..] == [];
    PrefixedSplit(octets[..i], last, prefixe, debut);
    assert Prefixed(last[1..], prefixe, octets[i] == NEWLINE) == [];
  }

  /** The pieces posed are the prefixed text, and the next call knows whether it
      starts a line. */
  method PosePrefixee(octets: seq<Octet>, prefixe: seq<Octet>, debut: bool) returns (morceaux: seq<seq<Octet>>, suivant: bool)
    ensures Flatten(morceaux) == Prefixed(octets, prefixe, debut) && suivant == Starts(octets, debut)
  {
    morceaux, suivant := [], debut;
    var depuis := 0;
    for i := 0 to |octets|
      invariant depuis <= i && suivant == Starts(octets[..i], debut)
      invariant Flatten(morceaux) + octets[depuis..i] == Prefixed(octets[..i], prefixe, debut)
    {
      PrefixedStep(octets, i, prefixe, debut);
      if suivant && octets[i] != NEWLINE {
        FlattenTwo(morceaux, octets[depuis..i], prefixe);
        morceaux := morceaux + [octets[depuis..i], prefixe];
        depuis := i;
      }
      assert octets[depuis..i + 1] == octets[depuis..i] + [octets[i]];
      suivant := octets[i] == NEWLINE;
    }
    assert octets[..|octets|] == octets && octets[depuis..|octets|] == octets[depuis..];
    FlattenOne(morceaux, octets[depuis..]);
    morceaux := morceaux + [octets[depuis..]];
  }

  lemma FlattenOne(pieces: seq<seq<Octet>>, a: seq<Octet>)
    ensures Flatten(pieces + [a]) == Flatten(pieces) + a
  {
    assert (pieces + [a])[..|pieces|] == pieces;
  }

  lemma FlattenTwo(pieces: seq<seq<Octet>>, a: seq<Octet>, b: seq<Octet>)
    ensures Flatten(pieces + [a, b]) == Flatten(pieces) + a + b
  {
    assert pieces + [a, b] == (pieces + [a]) + [b];
    FlattenOne(pieces, a);
    FlattenOne(pieces + [a], b);
  }

  datatype Candidat = Candidat(coeur: nat, repere: nat, numero: nat)

  predicate Precede(a: Candidat, b: Candidat) { a.repere < b.repere || (a.repere == b.repere && a.numero < b.numero) }

  /** The oldest mature head: the smallest position, then number, never the
      order of the CPUs. */
  method PlusAncienneMure(candidats: seq<Candidat>, lus: nat) returns (choix: Option<nat>, ghost i: nat)
    ensures choix.None? <==> forall k :: 0 <= k < |candidats| ==> candidats[k].repere > lus
    ensures choix.Some? ==> i < |candidats| && choix.value == candidats[i].coeur && candidats[i].repere <= lus
    ensures choix.Some? ==> forall k :: 0 <= k < |candidats| && candidats[k].repere <= lus ==>
              candidats[i].repere < candidats[k].repere
              || (candidats[i].repere == candidats[k].repere && candidats[i].numero <= candidats[k].numero)
  {
    var retenu: Option<Candidat> := None;
    i := 0;
    for j := 0 to |candidats|
      invariant retenu.None? <==> forall k :: 0 <= k < j ==> candidats[k].repere > lus
      invariant retenu.Some? ==> i < j && retenu == Some(candidats[i]) && candidats[i].repere <= lus
      invariant retenu.Some? ==> forall k :: 0 <= k < j && candidats[k].repere <= lus ==> !Precede(candidats[k], candidats[i])
    {
      if candidats[j].repere <= lus && (retenu.None? || Precede(candidats[j], retenu.value)) {
        retenu, i := Some(candidats[j]), j;
      }
    }
    choix := if retenu.Some? then Some(retenu.value.coeur) else None;
  }
}
