/** Insertion of a damaged rectangle in a frame's sparse region, as a function
    on the sequence of regions, and what it preserves. */
module DegatsSpec {
  import opened Commun
  import opened Rectangles

  const CAPACITY := 16

  /** The merge test, in saturating 64-bit arithmetic: the bounding box costs at
      most a quarter more than the two rectangles apart. */
  predicate Profitable(a: Rect, b: Rect)
  {
    Empty(a) || Empty(b)
    || Sat(Sat(Area(Union(a, b))) * 4) <= Sat(Sat(Sat(Area(a)) + Sat(Area(b))) * 5)
  }

  predicate Cheap(a: Rect, b: Rect) { 4 * Area(Union(a, b)) <= 5 * (Area(a) + Area(b)) }

  /** Saturation changes the verdict of no pair but those whose separate cost
      reaches a fifth of the 64-bit range, and merges all of these. */
  lemma ProfitableExactly(a: Rect, b: Rect)
    requires Rep(a) && Rep(b)
    ensures Profitable(a, b) <==> Empty(a) || Empty(b) || Cheap(a, b) || 5 * (Area(a) + Area(b)) >= U64_MAX
  {
    if !Empty(a) && !Empty(b) {
      UnionCoversIffFits(a, b);
      AreaBound(a);
      AreaBound(b);
      AreaBound(Union(a, b));
    }
  }

  lemma AreaBound(r: Rect)
    requires Rep(r)
    ensures 0 <= Area(r) < U64_MAX
  {
    MulMonotone(r.w, U32 - 1, r.h, U32 - 1);
  }

  predicate On(r: Rect, e: Rect) { Rep(r) && !Empty(r) && Inside(r, e) }

  predicate OnScreen(rs: seq<Rect>, e: Rect)
  {
    Rep(e) && forall i :: 0 <= i < |rs| ==> On(rs[i], e)
  }

  function SwapRemove(rs: seq<Rect>, i: nat): seq<Rect>
    requires i < |rs|
  {
    rs[i := rs[|rs| - 1]][..|rs| - 1]
  }

  /** Transitive merging: scan from `i`, and start over after each merge. */
  function Absorb(rs: seq<Rect>, r: Rect, i: nat): (seq<Rect>, Rect)
    requires i <= |rs|
    decreases |rs|, |rs| - i
  {
    if i == |rs| then (rs, r)
    else if Profitable(rs[i], r) then Absorb(SwapRemove(rs, i), Union(rs[i], r), 0)
    else Absorb(rs, r, i + 1)
  }

  /** The first of the first `n` slots whose box with `r` is smallest. */
  function Best(rs: seq<Rect>, r: Rect, n: nat): (m: nat)
    requires 0 < n <= |rs|
    ensures m < n && forall j :: 0 <= j < n ==> Area(Union(rs[m], r)) <= Area(Union(rs[j], r))
    ensures forall j :: 0 <= j < m ==> Area(Union(rs[m], r)) < Area(Union(rs[j], r))
  {
    if n == 1 then 0
    else
      var m := Best(rs, r, n - 1);
      if Area(Union(rs[n - 1], r)) < Area(Union(rs[m], r)) then n - 1 else m
  }

  predicate Overflows(rs: seq<Rect>, r: Rect) { |Absorb(rs, r, 0).0| >= CAPACITY }

  function Insert(rs: seq<Rect>, r: Rect): seq<Rect>
  {
    var (rs', r') := Absorb(rs, r, 0);
    if |rs'| < CAPACITY then rs' + [r']
    else var m := Best(rs', r', |rs'|); rs'[m := Union(rs'[m], r')]
  }

  lemma {:induction false} AbsorbOnScreen(rs: seq<Rect>, r: Rect, i: nat, e: Rect)
    requires i <= |rs| && OnScreen(rs, e) && On(r, e)
    ensures var (rs', r') := Absorb(rs, r, i); OnScreen(rs', e) && On(r', e) && |rs'| <= |rs|
    decreases |rs|, |rs| - i
  {
    if i < |rs| {
      if Profitable(rs[i], r) {
        UnionWithin(rs[i], r, e);
        AbsorbOnScreen(SwapRemove(rs, i), Union(rs[i], r), 0, e);
      } else {
        AbsorbOnScreen(rs, r, i + 1, e);
      }
    }
  }

  /** A frame never holds more than sixteen regions, each non-empty and on the
      screen. */
  lemma InsertOnScreen(rs: seq<Rect>, r: Rect, e: Rect)
    requires OnScreen(rs, e) && On(r, e) && |rs| <= CAPACITY
    ensures OnScreen(Insert(rs, r), e) && 0 < |Insert(rs, r)| <= CAPACITY == 16
  {
    AbsorbOnScreen(rs, r, 0, e);
    var (rs', r') := Absorb(rs, r, 0);
    if |rs'| >= CAPACITY { UnionWithin(rs'[Best(rs', r', |rs'|)], r', e); }
  }

  ghost predicate Covered(rs: seq<Rect>, px: int, py: int) { exists i :: 0 <= i < |rs| && Contains(rs[i], px, py) }

  lemma CoveredSwap(rs: seq<Rect>, i: nat, px: int, py: int)
    requires i < |rs| && Covered(rs, px, py) && !Contains(rs[i], px, py)
    ensures Covered(SwapRemove(rs, i), px, py)
  {
    var j :| 0 <= j < |rs| && Contains(rs[j], px, py);
    assert SwapRemove(rs, i)[if j == |rs| - 1 then i else j] == rs[j];
  }

  lemma {:induction false} AbsorbCovers(rs: seq<Rect>, r: Rect, i: nat, e: Rect, px: int, py: int)
    requires i <= |rs| && OnScreen(rs, e) && On(r, e)
    requires Covered(rs, px, py) || Contains(r, px, py)
    ensures var (rs', r') := Absorb(rs, r, i); Covered(rs', px, py) || Contains(r', px, py)
    decreases |rs|, |rs| - i
  {
    if i < |rs| {
      if Profitable(rs[i], r) {
        UnionWithin(rs[i], r, e);
        if !Contains(r, px, py) && !Contains(rs[i], px, py) { CoveredSwap(rs, i, px, py); }
        AbsorbCovers(SwapRemove(rs, i), Union(rs[i], r), 0, e, px, py);
      } else {
        AbsorbCovers(rs, r, i + 1, e, px, py);
      }
    }
  }

  /** No dirty pixel is ever forgotten. */
  lemma InsertCovers(rs: seq<Rect>, r: Rect, e: Rect, px: int, py: int)
    requires OnScreen(rs, e) && On(r, e)
    requires Covered(rs, px, py) || Contains(r, px, py)
    ensures Covered(Insert(rs, r), px, py)
  {
    AbsorbOnScreen(rs, r, 0, e);
    AbsorbCovers(rs, r, 0, e, px, py);
    var (rs', r') := Absorb(rs, r, 0);
    var out := Insert(rs, r);
    if |rs'| < CAPACITY {
      if Covered(rs', px, py) {
        var j :| 0 <= j < |rs'| && Contains(rs'[j], px, py);
        assert out[j] == rs'[j];
      } else {
        assert out[|rs'|] == r';
      }
    } else {
      var m := Best(rs', r', |rs'|);
      UnionWithin(rs'[m], r', e);
      if Contains(r', px, py) {
        assert Contains(out[m], px, py);
      } else {
        var j :| 0 <= j < |rs'| && Contains(rs'[j], px, py);
        assert Contains(out[j], px, py);
      }
    }
  }

  // ---- Provenance ----

  /** The box the diagnostics report: fold of unions from the empty rectangle. */
  function Hull(rs: seq<Rect>): Rect
  {
    if rs == [] then DEFAULT else Union(Hull(rs[..|rs| - 1]), rs[|rs| - 1])
  }

  predicate AllInside(rs: seq<Rect>, f: Rect) { forall i :: 0 <= i < |rs| ==> Inside(rs[i], f) }

  /** The box holds every rectangle and is the least to do so. */
  lemma {:induction false} HullLeast(rs: seq<Rect>, e: Rect)
    requires OnScreen(rs, e) && rs != []
    ensures On(Hull(rs), e) && AllInside(rs, Hull(rs))
    ensures forall f :: AllInside(rs, f) ==> Inside(Hull(rs), f)
  {
    var n := |rs| - 1;
    if n > 0 {
      HullLeast(rs[..n], e);
      UnionWithin(Hull(rs[..n]), rs[n], e);
      forall f | AllInside(rs, f) ensures Inside(Hull(rs), f) {
        assert AllInside(rs[..n], f);
        assert Inside(rs[n], f);
      }
    } else {
      assert rs[..0] == [];
    }
  }

  lemma {:induction false} HullConcat(a: seq<Rect>, b: seq<Rect>, e: Rect)
    requires OnScreen(a, e) && OnScreen(b, e) && a != [] && b != []
    ensures Hull(a + b) == Union(Hull(a), Hull(b))
  {
    var n := |b| - 1;
    assert (a + b)[..|a + b| - 1] == a + b[..n];
    if n == 0 {
      assert a + b[..0] == a && b[..0] == [];
    } else {
      HullConcat(a, b[..n], e);
      HullLeast(a, e);
      HullLeast(b[..n], e);
      UnionAssociative(Hull(a), Hull(b[..n]), b[n], e);
    }
  }

  /** Every rectangle named by a list of lists, with multiplicity. */
  function All(prov: seq<seq<Rect>>): multiset<Rect>
  {
    if prov == [] then multiset{} else All(prov[..|prov| - 1]) + multiset(prov[|prov| - 1])
  }

  lemma {:induction false} AllUpdate(prov: seq<seq<Rect>>, i: nat, v: seq<Rect>)
    requires i < |prov|
    ensures All(prov[i := v]) + multiset(prov[i]) == All(prov) + multiset(v)
  {
    var n := |prov| - 1;
    if i < n {
      AllUpdate(prov[..n], i, v);
      assert prov[i := v][..n] == prov[..n][i := v];
      var a, b, last := All(prov[..n][i := v]), All(prov[..n]), multiset(prov[n]);
      assert a + last + multiset(prov[i]) == a + multiset(prov[i]) + last;
      assert b + last + multiset(v) == b + multiset(v) + last;
    } else {
      assert prov[i := v][..n] == prov[..n];
    }
  }

  predicate Share(asked: seq<Rect>, r: Rect, e: Rect) { asked != [] && OnScreen(asked, e) && r == Hull(asked) }

  /** `prov` splits the rectangles asked so far among the regions: each region
      is exactly the box of its share. */
  ghost predicate Explains(prov: seq<seq<Rect>>, rs: seq<Rect>, e: Rect)
  {
    |prov| == |rs| && forall i :: 0 <= i < |rs| ==> Share(prov[i], rs[i], e)
  }

  lemma ShareJoin(a: seq<Rect>, ra: Rect, b: seq<Rect>, rb: Rect, e: Rect)
    requires Share(a, ra, e) && Share(b, rb, e)
    ensures Share(a + b, Union(ra, rb), e)
  {
    HullConcat(a, b, e);
  }

  function Dropped(prov: seq<seq<Rect>>, i: nat): seq<seq<Rect>>
    requires i < |prov|
  {
    prov[i := prov[|prov| - 1]][..|prov| - 1]
  }

  lemma Cancel(a: multiset<Rect>, b: multiset<Rect>, c: multiset<Rect>, d: multiset<Rect>)
    requires a + d + c == b + d
    ensures a + c == b
  {
    assert forall r :: (a + c)[r] == (a + d + c)[r] - d[r];
  }

  lemma AllDrop(prov: seq<seq<Rect>>, i: nat)
    requires i < |prov|
    ensures All(Dropped(prov, i)) + multiset(prov[i]) == All(prov)
  {
    var n := |prov| - 1;
    var moved := prov[i := prov[n]];
    AllUpdate(prov, i, prov[n]);
    assert moved[..n] == Dropped(prov, i) && moved[n] == prov[n];
    assert All(moved) == All(Dropped(prov, i)) + multiset(prov[n]);
    Cancel(All(Dropped(prov, i)), All(prov), multiset(prov[i]), multiset(prov[n]));
  }

  lemma ExplainsDrop(prov: seq<seq<Rect>>, rs: seq<Rect>, i: nat, e: Rect)
    requires Explains(prov, rs, e) && i < |rs|
    ensures Explains(Dropped(prov, i), SwapRemove(rs, i), e)
  {
    forall j | 0 <= j < |rs| - 1 ensures Share(Dropped(prov, i)[j], SwapRemove(rs, i)[j], e) {
      var k := if j == i then |rs| - 1 else j;
      assert Share(prov[k], rs[k], e);
    }
  }

  lemma ShareOn(a: seq<Rect>, r: Rect, e: Rect)
    requires Share(a, r, e)
    ensures On(r, e)
  {
    HullLeast(a, e);
  }

  lemma PricedDrop(prov: seq<seq<Rect>>, rs: seq<Rect>, i: nat)
    requires AllPriced(prov, rs) && i < |rs|
    ensures AllPriced(Dropped(prov, i), SwapRemove(rs, i))
  {
    forall j | 0 <= j < |rs| - 1 ensures Priced(Dropped(prov, i)[j], SwapRemove(rs, i)[j]) {
      var k := if j == i then |rs| - 1 else j;
      assert Priced(prov[k], rs[k]);
    }
  }

  lemma MergeExplains(rs: seq<Rect>, r: Rect, i: nat, e: Rect, prov: seq<seq<Rect>>, mine: seq<Rect>)
    requires i < |rs| && Explains(prov, rs, e) && Share(mine, r, e) && Profitable(rs[i], r)
    ensures Explains(Dropped(prov, i), SwapRemove(rs, i), e) && Share(prov[i] + mine, Union(rs[i], r), e)
    ensures All(Dropped(prov, i)) + multiset(prov[i] + mine) == All(prov) + multiset(mine)
    ensures Exact(e) && AllPriced(prov, rs) && Priced(mine, r) ==>
              AllPriced(Dropped(prov, i), SwapRemove(rs, i)) && Priced(prov[i] + mine, Union(rs[i], r))
  {
    ExplainsDrop(prov, rs, i, e);
    AllDrop(prov, i);
    ShareJoin(prov[i], rs[i], mine, r, e);
    if Exact(e) && AllPriced(prov, rs) && Priced(mine, r) {
      ShareOn(prov[i], rs[i], e);
      ShareOn(mine, r, e);
      PriceJoin(prov[i], rs[i], mine, r, e);
      PricedDrop(prov, rs, i);
    }
  }

  lemma {:induction false} AbsorbExplains(rs: seq<Rect>, r: Rect, i: nat, e: Rect, prov: seq<seq<Rect>>, mine: seq<Rect>)
    returns (prov': seq<seq<Rect>>, mine': seq<Rect>)
    requires i <= |rs| && Explains(prov, rs, e) && Share(mine, r, e)
    ensures Explains(prov', Absorb(rs, r, i).0, e) && Share(mine', Absorb(rs, r, i).1, e)
    ensures All(prov') + multiset(mine') == All(prov) + multiset(mine)
    ensures Exact(e) && AllPriced(prov, rs) && Priced(mine, r) ==>
              AllPriced(prov', Absorb(rs, r, i).0) && Priced(mine', Absorb(rs, r, i).1)
    decreases |rs|, |rs| - i
  {
    if i == |rs| {
      prov', mine' := prov, mine;
    } else if Profitable(rs[i], r) {
      MergeExplains(rs, r, i, e, prov, mine);
      prov', mine' := AbsorbExplains(SwapRemove(rs, i), Union(rs[i], r), 0, e, Dropped(prov, i), prov[i] + mine);
    } else {
      prov', mine' := AbsorbExplains(rs, r, i + 1, e, prov, mine);
    }
  }

  /** After an insertion the regions are still the boxes of a partition of the
      rectangles asked, the new one included: nothing is dropped, nothing is
      counted twice, and no region is larger than what it was asked for. */
  lemma InsertExplains(rs: seq<Rect>, r: Rect, e: Rect, prov: seq<seq<Rect>>) returns (prov': seq<seq<Rect>>)
    requires OnScreen(rs, e) && On(r, e) && Explains(prov, rs, e)
    ensures Explains(prov', Insert(rs, r), e)
    ensures All(prov') == All(prov) + multiset{r}
    ensures Exact(e) && !Overflows(rs, r) && AllPriced(prov, rs) ==> AllPriced(prov', Insert(rs, r))
  {
    assert [r][..0] == [] && Share([r], r, e);
    assert Priced([r], r) by { assert Total([r]) == Total([]) + Area(r); }
    var p, mine := AbsorbExplains(rs, r, 0, e, prov, [r]);
    var (rs', r') := Absorb(rs, r, 0);
    if |rs'| < CAPACITY {
      prov' := p + [mine];
      assert prov'[..|p|] == p;
    } else {
      prov' := JoinAt(p, rs', Best(rs', r', |rs'|), mine, r', e);
    }
  }

  lemma JoinAt(p: seq<seq<Rect>>, rs: seq<Rect>, m: nat, mine: seq<Rect>, r: Rect, e: Rect) returns (p': seq<seq<Rect>>)
    requires Explains(p, rs, e) && m < |rs| && Share(mine, r, e)
    ensures Explains(p', rs[m := Union(rs[m], r)], e) && All(p') == All(p) + multiset(mine)
  {
    p' := p[m := p[m] + mine];
    ShareJoin(p[m], rs[m], mine, r, e);
    AllUpdate(p, m, p[m] + mine);
    var was, add := multiset(p[m]), multiset(mine);
    assert All(p') + was == All(p) + (was + add);
    assert forall x :: All(p')[x] == (All(p) + (was + add))[x] - was[x];
  }

  /** Every rectangle asked lies whole in one region. */
  lemma {:induction false} AskedInOneRegion(prov: seq<seq<Rect>>, rs: seq<Rect>, e: Rect, r: Rect)
    requires Explains(prov, rs, e) && r in All(prov)
    ensures exists i :: 0 <= i < |rs| && Inside(r, rs[i])
  {
    var n := |rs| - 1;
    if r in prov[n] {
      HullLeast(prov[n], e);
      var k :| 0 <= k < |prov[n]| && prov[n][k] == r;
      assert Share(prov[n], rs[n], e) && Inside(prov[n][k], rs[n]);
    } else {
      AskedInOneRegion(prov[..n], rs[..n], e, r);
      var i :| 0 <= i < n && Inside(r, rs[..n][i]);
      assert rs[i] == rs[..n][i];
    }
  }

  function Flat(prov: seq<seq<Rect>>): seq<Rect>
  {
    if prov == [] then [] else Flat(prov[..|prov| - 1]) + prov[|prov| - 1]
  }

  lemma {:induction false} FlatAll(prov: seq<seq<Rect>>, rs: seq<Rect>, e: Rect)
    requires Rep(e) && Explains(prov, rs, e)
    ensures multiset(Flat(prov)) == All(prov) && OnScreen(Flat(prov), e)
  {
    if prov != [] {
      var n := |prov| - 1;
      FlatAll(prov[..n], rs[..n], e);
      assert Share(prov[n], rs[n], e);
    }
  }

  /** The whole screen is the box of anything asked plus the screen itself. */
  lemma ScreenShare(asked: seq<Rect>, e: Rect)
    requires OnScreen(asked, e) && On(e, e)
    ensures Share(asked + [e], e, e)
  {
    var all := asked + [e];
    HullLeast(all, e);
    assert all[|asked|] == e && AllInside(all, e);
    assert Inside(e, Hull(all)) && Inside(Hull(all), e);
  }

  /** Around the regions or around the rectangles asked, it is the same box:
      the same rectangles hold both. */
  lemma {:induction false} SameBounds(prov: seq<seq<Rect>>, rs: seq<Rect>, e: Rect, f: Rect)
    requires Explains(prov, rs, e)
    ensures AllInside(rs, f) <==> (forall r :: r in All(prov) ==> Inside(r, f))
  {
    if rs != [] {
      var n := |rs| - 1;
      SameBounds(prov[..n], rs[..n], e, f);
      HullLeast(prov[n], e);
      assert All(prov) == All(prov[..n]) + multiset(prov[n]);
      assert AllInside(rs, f) <==> AllInside(rs[..n], f) && Inside(rs[n], f);
      assert Inside(rs[n], f) <==> AllInside(prov[n], f);
      assert AllInside(prov[n], f) <==> forall r :: r in multiset(prov[n]) ==> Inside(r, f) by {
        assert forall k :: 0 <= k < |prov[n]| ==> prov[n][k] in multiset(prov[n]);
      }
    }
  }

  // ---- Regions stay apart ----

  ghost predicate Apart(rs: seq<Rect>)
  {
    forall i, j :: 0 <= i < j < |rs| ==> !Profitable(rs[i], rs[j])
  }

  lemma ProfitableSymmetric(a: Rect, b: Rect, e: Rect)
    requires Rep(e) && On(a, e) && On(b, e)
    ensures Profitable(a, b) == Profitable(b, a)
  {
    UnionWithin(a, b, e);
  }

  lemma ApartSwap(rs: seq<Rect>, i: nat, e: Rect)
    requires i < |rs| && OnScreen(rs, e) && Apart(rs)
    ensures Apart(SwapRemove(rs, i))
  {
    var out, n := SwapRemove(rs, i), |rs| - 1;
    forall a, b | 0 <= a < b < |out| ensures !Profitable(out[a], out[b]) {
      ProfitableSymmetric(out[a], out[b], e);
    }
  }

  lemma {:induction false} AbsorbApart(rs: seq<Rect>, r: Rect, i: nat, e: Rect)
    requires i <= |rs| && OnScreen(rs, e) && On(r, e) && Apart(rs)
    requires forall j :: 0 <= j < i ==> !Profitable(rs[j], r)
    ensures var (rs', r') := Absorb(rs, r, i); Apart(rs') && forall j :: 0 <= j < |rs'| ==> !Profitable(rs'[j], r')
    decreases |rs|, |rs| - i
  {
    if i < |rs| {
      if Profitable(rs[i], r) {
        UnionWithin(rs[i], r, e);
        ApartSwap(rs, i, e);
        AbsorbApart(SwapRemove(rs, i), Union(rs[i], r), 0, e);
      } else {
        AbsorbApart(rs, r, i + 1, e);
      }
    }
  }

  /** Until the frame overflows, no two of its regions are worth merging. */
  lemma InsertApart(rs: seq<Rect>, r: Rect, e: Rect)
    requires OnScreen(rs, e) && On(r, e) && Apart(rs) && !Overflows(rs, r)
    ensures Apart(Insert(rs, r))
  {
    AbsorbApart(rs, r, 0, e);
  }

  // ---- Cost ----

  function Total(rs: seq<Rect>): int
  {
    if rs == [] then 0 else Total(rs[..|rs| - 1]) + Area(rs[|rs| - 1])
  }

  function Pow(b: nat, n: nat): nat { if n == 0 then 1 else b * Pow(b, n - 1) }

  lemma {:induction false} TotalUpdate(rs: seq<Rect>, i: nat, r: Rect)
    requires i < |rs|
    ensures Total(rs[i := r]) == Total(rs) - Area(rs[i]) + Area(r)
  {
    var n := |rs| - 1;
    if i < n {
      TotalUpdate(rs[..n], i, r);
      assert rs[i := r][..n] == rs[..n][i := r];
    } else {
      assert rs[i := r][..n] == rs[..n];
    }
  }

  lemma TotalSwap(rs: seq<Rect>, i: nat)
    requires i < |rs|
    ensures Total(SwapRemove(rs, i)) == Total(rs) - Area(rs[i])
  {
    TotalUpdate(rs, i, rs[|rs| - 1]);
  }

  lemma {:induction false} TotalBounds(rs: seq<Rect>, e: Rect, i: nat)
    requires OnScreen(rs, e)
    ensures Total(rs) >= 0 && (i < |rs| ==> 0 <= Area(rs[i]) <= Total(rs))
  {
    if rs != [] {
      var n := |rs| - 1;
      AreaBound(rs[n]);
      TotalBounds(rs[..n], e, i);
    }
  }

  /** On a screen whose area is below a tenth of the 64-bit range the merge
      test is exact. */
  predicate Exact(e: Rect) { Rep(e) && 10 * Area(e) < U64_MAX }

  lemma MergeCost(a: Rect, b: Rect, e: Rect)
    requires Exact(e) && On(a, e) && On(b, e) && Profitable(a, b)
    ensures Cheap(a, b)
  {
    AreaGrows(a, e);
    AreaGrows(b, e);
    ProfitableExactly(a, b);
  }

  /** `s` exceeds `t` by at most `k` quarters compounded. */
  ghost predicate Within(k: nat, s: int, t: int)
  {
    if k == 0 then s <= t else exists m :: Within(k - 1, s, m) && 4 * m <= 5 * t
  }

  lemma {:induction false} WithinPow(k: nat, s: int, t: int)
    requires Within(k, s, t)
    ensures Pow(4, k) * s <= Pow(5, k) * t
  {
    if k > 0 {
      var m :| Within(k - 1, s, m) && 4 * m <= 5 * t;
      WithinPow(k - 1, s, m);
      Scale(Pow(4, k - 1), Pow(5, k - 1), s, m, t);
    }
  }

  lemma Scale(p: nat, q: nat, s: int, m: int, t: int)
    requires p * s <= q * m && 4 * m <= 5 * t
    ensures (4 * p) * s <= (5 * q) * t
  {
    MulLeft(q, 4 * m, 5 * t);
    Regroup(4, p, s);
    Regroup(4, q, m);
    Regroup(5, q, t);
    Regroup(q, 4, m);
    Regroup(q, 5, t);
  }

  lemma Regroup(a: int, b: int, c: int)
    ensures (a * b) * c == a * (b * c)
  {
  }

  lemma {:induction false} WithinAdd(k: nat, s: int, t: int, a: nat)
    requires Within(k, s, t)
    ensures Within(k, s + a, t + a)
  {
    if k > 0 {
      var m :| Within(k - 1, s, m) && 4 * m <= 5 * t;
      WithinAdd(k - 1, s, m, a);
      var n := m + a;
      assert Within(k - 1, s + a, n) && 4 * n <= 5 * (t + a);
    }
  }

  lemma {:induction false} WithinTrans(k: nat, s: int, t: int, j: nat, u: int)
    requires Within(k, s, t) && Within(j, t, u)
    ensures Within(k + j, s, u)
    decreases j, k
  {
    if j > 0 {
      var m :| Within(j - 1, t, m) && 4 * m <= 5 * u;
      WithinTrans(k, s, t, j - 1, m);
    } else if k > 0 {
      var m :| Within(k - 1, s, m) && 4 * m <= 5 * t;
    }
  }

  lemma OneMerge(rs: seq<Rect>, r: Rect, i: nat, e: Rect)
    requires i < |rs| && OnScreen(rs, e) && On(r, e) && Exact(e) && Profitable(rs[i], r)
    ensures 4 * (Total(SwapRemove(rs, i)) + Area(Union(rs[i], r))) <= 5 * (Total(rs) + Area(r))
  {
    MergeCost(rs[i], r, e);
    TotalSwap(rs, i);
    TotalBounds(rs, e, i);
  }

  lemma {:induction false} AbsorbCost(rs: seq<Rect>, r: Rect, i: nat, e: Rect)
    requires i <= |rs| && OnScreen(rs, e) && On(r, e) && Exact(e)
    ensures var (rs', r') := Absorb(rs, r, i);
      |rs'| <= |rs| && Within(|rs| - |rs'|, Total(rs') + Area(r'), Total(rs) + Area(r))
    decreases |rs|, |rs| - i
  {
    if i < |rs| {
      if Profitable(rs[i], r) {
        UnionWithin(rs[i], r, e);
        OneMerge(rs, r, i, e);
        AbsorbCost(SwapRemove(rs, i), Union(rs[i], r), 0, e);
      } else {
        AbsorbCost(rs, r, i + 1, e);
      }
    }
  }

  lemma MulLeft(a: nat, b: int, c: int)
    requires b <= c
    ensures a * b <= a * c
  {
  }

  lemma InsertWithin(rs: seq<Rect>, r: Rect, e: Rect)
    requires OnScreen(rs, e) && On(r, e) && Exact(e) && !Overflows(rs, r)
    ensures |Insert(rs, r)| <= |rs| + 1
    ensures Within(|rs| + 1 - |Insert(rs, r)|, Total(Insert(rs, r)), Total(rs) + Area(r))
  {
    AbsorbCost(rs, r, 0, e);
    var (rs', r') := Absorb(rs, r, 0);
    assert Insert(rs, r)[..|rs'|] == rs';
  }

  /** What the frame has cost since it was emptied, carried over an insertion. */
  lemma HistoryStep(rs: seq<Rect>, r: Rect, e: Rect, merges: nat, demanded: int)
    requires OnScreen(rs, e) && On(r, e) && Exact(e) && !Overflows(rs, r) && Within(merges, Total(rs), demanded)
    ensures |Insert(rs, r)| <= |rs| + 1
    ensures Within(merges + (|rs| + 1 - |Insert(rs, r)|), Total(Insert(rs, r)), demanded + Area(r))
  {
    AreaBound(r);
    InsertWithin(rs, r, e);
    WithinAdd(merges, Total(rs), demanded, Area(r));
    WithinTrans(|rs| + 1 - |Insert(rs, r)|, Total(Insert(rs, r)), Total(rs) + Area(r), merges, demanded + Area(r));
  }

  /** Each merge costs at most a quarter more: after an insertion that merged
      `k` times, the pixels to present exceed those held and asked by at most
      the factor (5/4)^k. */
  lemma InsertCost(rs: seq<Rect>, r: Rect, e: Rect)
    requires OnScreen(rs, e) && On(r, e) && Exact(e) && !Overflows(rs, r)
    ensures var k := |rs| + 1 - |Insert(rs, r)|;
      k >= 0 && Pow(4, k) * Total(Insert(rs, r)) <= Pow(5, k) * (Total(rs) + Area(r))
  {
    InsertWithin(rs, r, e);
    WithinPow(|rs| + 1 - |Insert(rs, r)|, Total(Insert(rs, r)), Total(rs) + Area(r));
  }

  /** Two regions kept apart cost less than four fifths of any box around them. */
  lemma PairCost(a: Rect, b: Rect, h: Rect, e: Rect)
    requires Rep(e) && On(a, e) && On(b, e) && Rep(h) && Inside(a, h) && Inside(b, h) && !Profitable(a, b)
    ensures 5 * (Area(a) + Area(b)) < 4 * Area(h)
  {
    UnionWithin(a, b, e);
    UnionWithin(a, b, h);
    ProfitableExactly(a, b);
    AreaGrows(Union(a, b), h);
  }

  function Sum(a: seq<int>): int { if a == [] then 0 else Sum(a[..|a| - 1]) + a[|a| - 1] }

  function Areas(rs: seq<Rect>): seq<int> { seq(|rs|, i requires 0 <= i < |rs| => Area(rs[i])) }

  lemma {:induction false} TotalIsSum(rs: seq<Rect>)
    ensures Total(rs) == Sum(Areas(rs))
  {
    if rs != [] {
      TotalIsSum(rs[..|rs| - 1]);
      assert Areas(rs)[..|rs| - 1] == Areas(rs[..|rs| - 1]);
    }
  }

  /** Walking the regions in order counts each but the two ends twice. */
  lemma {:induction false} ChainCost(a: seq<int>, h: int, k: nat)
    requires 1 <= k <= |a| && forall i, j :: 0 <= i < j < |a| ==> 5 * (a[i] + a[j]) < 4 * h
    ensures 5 * (2 * Sum(a[..k]) - a[0] - a[k - 1]) <= 4 * (k - 1) * h
  {
    if k == 1 {
      assert a[..1][..0] == [];
    } else {
      ChainCost(a, h, k - 1);
      assert 5 * (a[k - 2] + a[k - 1]) < 4 * h;
      assert a[..k][..k - 1] == a[..k - 1];
      assert 4 * (k - 1) * h == 4 * (k - 2) * h + 4 * h;
    }
  }

  /** The sparse frame against one box around everything: `n` regions cost less
      than 2n/5 of the box, so two regions always beat it. */
  lemma SparseAgainstBox(rs: seq<Rect>, h: Rect, e: Rect)
    requires OnScreen(rs, e) && Apart(rs) && |rs| >= 2
    requires Rep(h) && forall i :: 0 <= i < |rs| ==> Inside(rs[i], h)
    ensures 5 * Total(rs) < 2 * |rs| * Area(h)
  {
    var a, n := Areas(rs), |rs|;
    forall i, j | 0 <= i < j < n ensures 5 * (a[i] + a[j]) < 4 * Area(h) {
      PairCost(rs[i], rs[j], h, e);
    }
    TotalIsSum(rs);
    ChainClosed(a, Area(h));
  }

  lemma ChainClosed(a: seq<int>, h: int)
    requires |a| >= 2 && forall i, j :: 0 <= i < j < |a| ==> 5 * (a[i] + a[j]) < 4 * h
    ensures 5 * Sum(a) < 2 * |a| * h
  {
    ChainCost(a, h, |a|);
    assert a[..|a|] == a;
    assert 4 * (|a| - 1) * h + 4 * h == 2 * (2 * |a| * h);
  }

  lemma {:induction false} AbsorbNone(rs: seq<Rect>, r: Rect, i: nat)
    requires i <= |rs| && forall j :: i <= j < |rs| ==> !Profitable(rs[j], r)
    ensures Absorb(rs, r, i) == (rs, r)
    decreases |rs| - i
  {
    if i < |rs| { AbsorbNone(rs, r, i + 1); }
  }

  const SCREEN := Rect(0, 0, 100, 100)

  /** Two columns and a band, each joined with another filling the screen, then
      single pixels in the gaps, too far from everything to be merged. */
  function Piece(i: nat): Rect
  {
    if i == 0 then Rect(0, 0, 39, 100)
    else if i == 1 then Rect(61, 0, 39, 100)
    else if i == 2 then Rect(0, 30, 100, 39)
    else Rect(49, if i < 14 then 2 * (i - 3) else 78 + 2 * (i - 14), 1, 1)
  }

  function Pieces(n: nat): seq<Rect> { seq(n, i requires 0 <= i < n => Piece(i)) }

  lemma BigApart(i: nat, j: nat)
    requires i < j < 3
    ensures !Profitable(Piece(i), Piece(j))
  {
    assert Area(Piece(i)) == 3900 && Area(Piece(j)) == 3900;
    assert Union(Piece(i), Piece(j)) == SCREEN;
  }

  /** A union much larger than its two parts is not profitable. */
  lemma Wasteful(a: Rect, b: Rect, u: Rect)
    requires !Empty(a) && !Empty(b) && u == Union(a, b) && 0 <= Area(a) <= 3900 && 0 <= Area(b) <= 3900 && Area(u) <= 10000
    requires 4 * Area(u) > 5 * (Area(a) + Area(b))
    ensures !Profitable(a, b)
  {
  }

  lemma PixelByColumns(y: int)
    requires 0 <= y < 100
    ensures !Profitable(Rect(0, 0, 39, 100), Rect(49, y, 1, 1)) && !Profitable(Rect(61, 0, 39, 100), Rect(49, y, 1, 1))
  {
    Wasteful(Rect(0, 0, 39, 100), Rect(49, y, 1, 1), Rect(0, 0, 50, 100));
    Wasteful(Rect(61, 0, 39, 100), Rect(49, y, 1, 1), Rect(49, 0, 51, 100));
  }

  lemma PixelByBand(y: int)
    requires 0 <= y <= 20 || 78 <= y < 100
    ensures !Profitable(Rect(0, 30, 100, 39), Rect(49, y, 1, 1))
  {
    var u := if y <= 20 then Rect(0, y, 100, 69 - y) else Rect(0, 30, 100, y - 29);
    Wasteful(Rect(0, 30, 100, 39), Rect(49, y, 1, 1), u);
  }

  lemma PixelByPixel(y: int, z: int)
    requires 0 <= y && y + 2 <= z < 100
    ensures !Profitable(Rect(49, y, 1, 1), Rect(49, z, 1, 1))
  {
    Wasteful(Rect(49, y, 1, 1), Rect(49, z, 1, 1), Rect(49, y, 1, z - y + 1));
  }

  lemma PieceApart(i: nat, j: nat)
    requires i < j < CAPACITY
    ensures !Profitable(Piece(i), Piece(j))
  {
    if j < 3 { BigApart(i, j); }
    else if i < 2 { PixelByColumns(Piece(j).y); }
    else if i == 2 { PixelByBand(Piece(j).y); }
    else { PixelByPixel(Piece(i).y, Piece(j).y); }
  }

  lemma TheseApart(i: nat, j: nat, a: Rect, b: Rect)
    requires i < j < CAPACITY && a == Piece(i) && b == Piece(j)
    ensures !Profitable(a, b)
  {
    PieceApart(i, j);
  }

  lemma PieceOn(i: nat)
    requires i < CAPACITY
    ensures On(Piece(i), SCREEN)
  {
  }

  lemma PiecesApart(rs: seq<Rect>)
    requires |rs| <= CAPACITY && forall i :: 0 <= i < |rs| ==> rs[i] == Piece(i)
    ensures Apart(rs)
  {
    forall i, j | 0 <= i < j < |rs| ensures !Profitable(rs[i], rs[j]) { TheseApart(i, j, rs[i], rs[j]); }
  }

  lemma PiecesOn(rs: seq<Rect>)
    requires |rs| <= CAPACITY && forall i :: 0 <= i < |rs| ==> rs[i] == Piece(i)
    ensures OnScreen(rs, SCREEN)
  {
    forall i | 0 <= i < |rs| ensures On(rs[i], SCREEN) { PieceOn(i); }
  }

  /** The regions left by inserting the first `n` requests. */
  function Inserted(asked: seq<Rect>, n: nat): seq<Rect>
    requires n <= |asked|
  {
    if n == 0 then [] else Insert(Inserted(asked, n - 1), asked[n - 1])
  }

  lemma InsertAside(rs: seq<Rect>, r: Rect)
    requires |rs| < CAPACITY && forall j :: 0 <= j < |rs| ==> !Profitable(rs[j], r)
    ensures Insert(rs, r) == rs + [r]
  {
    AbsorbNone(rs, r, 0);
  }

  /** Requests no two of which are profitable to merge are kept as they are. */
  lemma {:induction false} ApartKept(asked: seq<Rect>, n: nat)
    requires n <= |asked| <= CAPACITY && Apart(asked)
    ensures Inserted(asked, n) == asked[..n]
  {
    if n > 0 {
      ApartKept(asked, n - 1);
      var rs, r := asked[..n - 1], asked[n - 1];
      forall j | 0 <= j < |rs| ensures !Profitable(rs[j], r) { assert rs[j] == asked[j]; }
      InsertAside(rs, r);
      assert asked[..n - 1] + [asked[n - 1]] == asked[..n];
    }
  }

  lemma {:induction false} PiecesTotal(n: nat)
    requires n <= CAPACITY
    ensures Total(Pieces(n)) >= 3900 * (if n < 3 then n else 3)
  {
    if n > 0 {
      PiecesTotal(n - 1);
      assert Pieces(n)[..n - 1] == Pieces(n - 1);
    }
  }

  /** Three regions or more need not: for every count up to the capacity there
      are requests whose regions cost more than the single box around them. */
  lemma SparseCanExceedBox(n: nat) returns (asked: seq<Rect>)
    requires 3 <= n <= 16
    ensures OnScreen(asked, SCREEN)
    ensures var rs := Inserted(asked, |asked|); |rs| == n && OnScreen(rs, SCREEN) && Apart(rs) && Total(rs) > Area(SCREEN)
  {
    asked := Pieces(n);
    PiecesApart(asked);
    PiecesOn(asked);
    ApartKept(asked, n);
    assert asked[..n] == asked;
    PiecesTotal(n);
  }

  // ---- The cost of each region ----

  /** A region made from `n` rectangles took `n - 1` merges, each within a
      quarter. */
  ghost predicate Priced(asked: seq<Rect>, r: Rect) { asked != [] && Within(|asked| - 1, Area(r), Total(asked)) }

  ghost predicate AllPriced(prov: seq<seq<Rect>>, rs: seq<Rect>)
  {
    |prov| == |rs| && forall i :: 0 <= i < |rs| ==> Priced(prov[i], rs[i])
  }

  lemma {:induction false} TotalConcat(a: seq<Rect>, b: seq<Rect>)
    ensures Total(a + b) == Total(a) + Total(b)
  {
    if b == [] {
      assert a + b == a;
    } else {
      var n := |b| - 1;
      TotalConcat(a, b[..n]);
      assert (a + b)[..|a| + n] == a + b[..n];
    }
  }

  lemma PriceJoin(a: seq<Rect>, ra: Rect, b: seq<Rect>, rb: Rect, e: Rect)
    requires Priced(a, ra) && Priced(b, rb) && On(ra, e) && On(rb, e) && Exact(e) && OnScreen(a, e) && Profitable(ra, rb)
    ensures Priced(a + b, Union(ra, rb))
  {
    MergeCost(ra, rb, e);
    AreaBound(ra);
    AreaBound(rb);
    TotalBounds(a, e, 0);
    TotalConcat(a, b);
    PriceSum(|a| - 1, Area(ra), Total(a), |b| - 1, Area(rb), Total(b), Area(Union(ra, rb)));
  }

  lemma PriceSum(j: nat, x: nat, s: nat, k: nat, y: nat, t: int, u: int)
    requires Within(j, x, s) && Within(k, y, t) && 4 * u <= 5 * (x + y)
    ensures Within(j + k + 1, u, s + t)
  {
    WithinAdd(j, x, s, y);
    WithinAdd(k, y, t, s);
    WithinTrans(j, x + y, s + y, k, s + t);
    assert Within(0, u, u);
    assert Within(1, u, x + y);
    WithinTrans(1, u, x + y, j + k, s + t);
  }

  // ---- The history of a frame ----

  /** What was asked of a frame since it was emptied, how it is shared among the
      regions, and the pixels asked and merges made since it was last emptied or
      filled whole. */
  datatype History = History(prov: seq<seq<Rect>>, asked: multiset<Rect>, demanded: nat, merges: nat, overflowed: bool)

  const BLANK := History([], multiset{}, 0, 0, false)

  ghost predicate Sound(h: History, rs: seq<Rect>, e: Rect)
  {
    && |rs| <= CAPACITY
    && OnScreen(rs, e)
    && Explains(h.prov, rs, e)
    && All(h.prov) == h.asked
    && (!h.overflowed ==> Apart(rs))
    && (!h.overflowed && Exact(e) ==> AllPriced(h.prov, rs) && Within(h.merges, Total(rs), h.demanded))
  }

  lemma Recorded(h: History, rs: seq<Rect>, r: Rect, e: Rect) returns (h': History)
    requires Sound(h, rs, e) && On(r, e)
    ensures Sound(h', Insert(rs, r), e)
    ensures h'.asked == h.asked + multiset{r} && h'.overflowed == (h.overflowed || Overflows(rs, r))
    ensures h'.demanded == h.demanded + Area(r) && h'.merges == h.merges + (|rs| + 1 - |Insert(rs, r)|)
  {
    AreaBound(r);
    InsertOnScreen(rs, r, e);
    InsertLength(rs, r, e);
    var rs', over := Insert(rs, r), h.overflowed || Overflows(rs, r);
    var merges, demanded := h.merges + (|rs| + 1 - |rs'|), h.demanded + Area(r);
    var prov := InsertShares(h, rs, r, e);
    if !over { InsertCheap(rs, r, e, h.merges, h.demanded); }
    h' := Assembled(prov, h.asked + multiset{r}, demanded, merges, over, rs', e);
  }

  lemma InsertShares(h: History, rs: seq<Rect>, r: Rect, e: Rect) returns (prov: seq<seq<Rect>>)
    requires Sound(h, rs, e) && On(r, e)
    ensures Explains(prov, Insert(rs, r), e) && All(prov) == h.asked + multiset{r}
    ensures !h.overflowed && !Overflows(rs, r) && Exact(e) ==> AllPriced(prov, Insert(rs, r))
  {
    prov := InsertExplains(rs, r, e, h.prov);
  }

  lemma Assembled(prov: seq<seq<Rect>>, asked: multiset<Rect>, demanded: nat, merges: nat, over: bool, rs: seq<Rect>, e: Rect)
    returns (h: History)
    requires |rs| <= CAPACITY && OnScreen(rs, e) && Explains(prov, rs, e) && All(prov) == asked
    requires !over ==> Apart(rs)
    requires !over && Exact(e) ==> AllPriced(prov, rs) && Within(merges, Total(rs), demanded)
    ensures h == History(prov, asked, demanded, merges, over) && Sound(h, rs, e)
  {
    h := History(prov, asked, demanded, merges, over);
  }

  lemma InsertCheap(rs: seq<Rect>, r: Rect, e: Rect, merges: nat, demanded: nat)
    requires OnScreen(rs, e) && On(r, e) && Apart(rs) && !Overflows(rs, r) && (Exact(e) ==> Within(merges, Total(rs), demanded))
    ensures Apart(Insert(rs, r))
    ensures |Insert(rs, r)| <= |rs| + 1
    ensures Exact(e) ==> Within(merges + (|rs| + 1 - |Insert(rs, r)|), Total(Insert(rs, r)), demanded + Area(r))
  {
    InsertApart(rs, r, e);
    InsertLength(rs, r, e);
    if Exact(e) { HistoryStep(rs, r, e, merges, demanded); }
  }

  lemma InsertLength(rs: seq<Rect>, r: Rect, e: Rect)
    requires OnScreen(rs, e) && On(r, e)
    ensures |Insert(rs, r)| <= |rs| + 1
  {
    AbsorbOnScreen(rs, r, 0, e);
  }

  lemma Filled(h: History, rs: seq<Rect>, e: Rect) returns (h': History)
    requires Sound(h, rs, e) && On(e, e)
    ensures Sound(h', [e], e)
    ensures h'.asked == h.asked + multiset{e} && h'.demanded == Area(e) && h'.merges == 0 && !h'.overflowed
  {
    AreaBound(e);
    FlatAll(h.prov, rs, e);
    var flat := Flat(h.prov);
    ScreenShare(flat, e);
    ScreenPriced(flat, e);
    var share := flat + [e];
    h' := History([share], h.asked + multiset{e}, Area(e), 0, false);
    assert [share][..0] == [] && All([share]) == All([]) + multiset(share);
  }

  lemma ScreenPriced(flat: seq<Rect>, e: Rect)
    requires OnScreen(flat, e) && On(e, e)
    ensures Total([e]) == Area(e) && Priced(flat + [e], e)
  {
    AreaBound(e);
    assert [e][..0] == [] && Total([e]) == Total([]) + Area(e);
    TotalConcat(flat, [e]);
    FlatTotal(flat, e);
    WithinMore(|flat|, Area(e), Total(flat + [e]));
  }

  lemma FlatTotal(a: seq<Rect>, e: Rect)
    requires OnScreen(a, e)
    ensures Total(a) >= 0
  {
    TotalBounds(a, e, 0);
  }

  lemma {:induction false} WithinMore(k: nat, s: nat, t: int)
    requires s <= t
    ensures Within(k, s, t)
  {
    if k > 0 {
      WithinMore(k - 1, s, t);
      assert Within(k - 1, s, t) && 4 * t <= 5 * t;
    }
  }

  /** Until an overflow, a region built from `n` of the rectangles asked covers
      at most (5/4)^(n-1) times their pixels. */
  lemma RegionCost(h: History, rs: seq<Rect>, e: Rect, i: nat)
    requires Sound(h, rs, e) && !h.overflowed && Exact(e) && i < |rs|
    ensures var k := |h.prov[i]| - 1; k >= 0 && Pow(4, k) * Area(rs[i]) <= Pow(5, k) * Total(h.prov[i])
  {
    assert Priced(h.prov[i], rs[i]);
    WithinPow(|h.prov[i]| - 1, Area(rs[i]), Total(h.prov[i]));
  }

  lemma NestedProfitable(a: Rect, b: Rect, e: Rect)
    requires Rep(e) && On(a, e) && On(b, e) && Inside(a, b)
    ensures Profitable(a, b)
  {
    UnionWithin(a, b, e);
    assert Union(a, b) == b;
    AreaBound(a);
    AreaBound(b);
    ProfitableExactly(a, b);
  }

  /** Regions kept apart are not nested. */
  lemma ApartNotNested(rs: seq<Rect>, e: Rect, i: nat, j: nat)
    requires OnScreen(rs, e) && Apart(rs) && i < |rs| && j < |rs| && i != j
    ensures !Inside(rs[i], rs[j])
  {
    ProfitableSymmetric(rs[i], rs[j], e);
    if Inside(rs[i], rs[j]) { NestedProfitable(rs[i], rs[j], e); }
  }

  lemma {:induction false} AbsorbKeepsAll(rs: seq<Rect>, r: Rect, i: nat)
    requires i <= |rs| && |Absorb(rs, r, i).0| >= |rs|
    ensures Absorb(rs, r, i) == (rs, r)
    decreases |rs|, |rs| - i
  {
    if i < |rs| {
      if Profitable(rs[i], r) { AbsorbShrinks(SwapRemove(rs, i), Union(rs[i], r), 0); }
      else { AbsorbKeepsAll(rs, r, i + 1); }
    }
  }

  lemma {:induction false} AbsorbShrinks(rs: seq<Rect>, r: Rect, i: nat)
    requires i <= |rs|
    ensures |Absorb(rs, r, i).0| <= |rs|
    decreases |rs|, |rs| - i
  {
    if i < |rs| {
      if Profitable(rs[i], r) { AbsorbShrinks(SwapRemove(rs, i), Union(rs[i], r), 0); }
      else { AbsorbShrinks(rs, r, i + 1); }
    }
  }

  /** The overflow path is taken only with sixteen regions and a rectangle that
      merged with none of them; it then grows the slot whose box is smallest. */
  lemma OverflowMergedNothing(rs: seq<Rect>, r: Rect)
    requires |rs| <= CAPACITY && Overflows(rs, r)
    ensures |rs| == 16 && Absorb(rs, r, 0) == (rs, r)
    ensures exists m :: 0 <= m < |rs| && Insert(rs, r) == rs[m := Union(rs[m], r)]
              && forall j :: 0 <= j < |rs| ==> Area(Union(rs[m], r)) <= Area(Union(rs[j], r))
  {
    AbsorbShrinks(rs, r, 0);
    AbsorbKeepsAll(rs, r, 0);
    var m := Best(rs, r, |rs|);
    assert Insert(rs, r) == rs[m := Union(rs[m], r)];
  }
}
