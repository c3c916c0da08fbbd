/** Blocks of the blanked text: brackets matched by counting, and the innermost
    function around a position. */
module Blocs {
  import opened Commun

  /** Openings less closings in `code[a..k]`. */
  function Depth(code: string, o: char, f: char, a: nat, k: nat): int
    requires a <= k <= |code|
    decreases k - a
  {
    if k == a then 0
    else Depth(code, o, f, a, k - 1) + (if code[k - 1] == o then 1 else if code[k - 1] == f then -1 else 0)
  }

  /** The depth is the openings less the closings, counted. */
  lemma {:induction false} DepthCounts(code: string, o: char, f: char, a: nat, k: nat)
    requires a <= k <= |code| && o != f
    ensures Depth(code, o, f, a, k) + multiset(code[a..k])[f] == multiset(code[a..k])[o]
    decreases k - a
  {
    if k > a {
      DepthCounts(code, o, f, a, k - 1);
      assert code[a..k] == code[a..k - 1] + [code[k - 1]];
    }
  }

  /** The block opened at `a` ends at `j`: it stays open up to `j` and, unless
      the text runs out, `j` closes it. */
  ghost predicate Extent(code: string, o: char, f: char, a: nat, j: nat)
  {
    && a < j <= |code|
    && code[a] == o
    && (forall k :: a < k <= j ==> Depth(code, o, f, a, k) > 0)
    && (j < |code| ==> code[j] == f && Depth(code, o, f, a, j + 1) == 0)
  }

  method Apparie(code: string, o: char, f: char, ouverture: nat) returns (j: nat)
    requires ouverture < |code| && code[ouverture] == o && o != f
    ensures Extent(code, o, f, ouverture, j)
  {
    var profondeur := 0;
    j := ouverture;
    while j < |code|
      invariant ouverture <= j <= |code| && profondeur == Depth(code, o, f, ouverture, j)
      invariant forall k :: ouverture < k <= j ==> Depth(code, o, f, ouverture, k) > 0
    {
      if code[j] == o {
        profondeur := profondeur + 1;
      } else if code[j] == f {
        profondeur := profondeur - 1;
        if profondeur == 0 {
          break;
        }
      }
      j := j + 1;
    }
  }

  lemma {:induction false} DepthSplit(code: string, o: char, f: char, a: nat, c: nat, k: nat)
    requires a <= c <= k <= |code|
    ensures Depth(code, o, f, a, k) == Depth(code, o, f, a, c) + Depth(code, o, f, c, k)
    decreases k - c
  {
    if c < k { DepthSplit(code, o, f, a, c, k - 1); }
  }

  /** A block has one end, whoever looks for it. */
  lemma ExtentUnique(code: string, o: char, f: char, a: nat, b: nat, d: nat)
    requires Extent(code, o, f, a, b) && Extent(code, o, f, a, d)
    ensures b == d
  {
  }

  /** Two blocks are disjoint or one holds the other. */
  lemma ExtentsNested(code: string, o: char, f: char, a: nat, b: nat, c: nat, d: nat)
    requires Extent(code, o, f, a, b) && Extent(code, o, f, c, d) && a < c <= b
    ensures d <= b && (d == b ==> b == |code|)
  {
    if b < |code| && b <= d {
      DepthSplit(code, o, f, a, c, b + 1);
    }
  }

  datatype Fonction = Fonction(nom: string, debut: nat, fin: nat)

  predicate Around(x: Fonction, position: nat) { x.debut <= position <= x.fin }

  /** The function whose block, among those around `position`, opens last. */
  method Enclosante(fns: seq<Fonction>, position: nat) returns (nom: Option<string>, ghost i: nat)
    ensures nom.None? <==> forall k :: 0 <= k < |fns| ==> !(fns[k].debut <= position <= fns[k].fin)
    ensures nom.Some? ==> i < |fns| && fns[i].nom == nom.value && fns[i].debut <= position <= fns[i].fin
    ensures nom.Some? ==> forall k :: 0 <= k < |fns| && fns[k].debut <= position <= fns[k].fin ==>
              fns[k].debut < fns[i].debut || (fns[k].debut == fns[i].debut && i <= k)
  {
    var meilleure: Option<Fonction> := None;
    i := 0;
    for j := 0 to |fns|
      invariant meilleure.None? <==> forall k :: 0 <= k < j ==> !Around(fns[k], position)
      invariant meilleure.Some? ==> i < j && meilleure == Some(fns[i]) && Around(fns[i], position)
      invariant meilleure.Some? ==> forall k :: 0 <= k < j && Around(fns[k], position) ==>
                  fns[k].debut < fns[i].debut || (fns[k].debut == fns[i].debut && i <= k)
    {
      if Around(fns[j], position) && (meilleure.None? || fns[j].debut > meilleure.value.debut) {
        meilleure, i := Some(fns[j]), j;
      }
    }
    nom := if meilleure.Some? then Some(meilleure.value.nom) else None;
  }

  /** When the extents come from one text, the block that opens last is inside
      every other block around the position: it is the innermost. */
  lemma LastOpenedIsInnermost(code: string, o: char, f: char, fns: seq<Fonction>, position: nat, i: nat, k: nat)
    requires forall x :: 0 <= x < |fns| ==> Extent(code, o, f, fns[x].debut, fns[x].fin)
    requires i < |fns| && k < |fns| && Around(fns[i], position) && Around(fns[k], position)
    requires fns[k].debut <= fns[i].debut
    ensures fns[i].fin <= fns[k].fin
  {
    if fns[k].debut == fns[i].debut {
      ExtentUnique(code, o, f, fns[k].debut, fns[k].fin, fns[i].fin);
    } else {
      ExtentsNested(code, o, f, fns[k].debut, fns[k].fin, fns[i].debut, fns[i].fin);
    }
  }
}
