/** A frame's damage: sixteen slots updated in place, without allocation. */
module Degats {
  import opened Commun
  import opened Rectangles
  import opened DegatsSpec

  class Degats {
    const regions: array<Rect>
    var nombre: nat
    const ecran: Rect

    ghost var history: History

    ghost function Held(): (s: seq<Rect>)
      requires nombre <= regions.Length
      reads this, regions
    {
      regions[..nombre]
    }

    ghost predicate Valid()
      reads this, regions
    {
      && regions.Length == CAPACITY && nombre <= CAPACITY && Rep(ecran)
      && (Empty(ecran) ==> Held() == [] || Held() == [ecran])
      && (!Empty(ecran) ==> Sound(history, Held(), ecran))
    }

    constructor (screen: Rect)
      requires Rep(screen)
      ensures Valid() && fresh(regions) && ecran == screen && Held() == [] && history == BLANK
    {
      regions := new Rect[CAPACITY](_ => DEFAULT);
      nombre, ecran, history := 0, screen, BLANK;
    }

    method RetireIndex(index: nat)
      requires regions.Length == CAPACITY && index < nombre <= CAPACITY
      modifies this`nombre, regions
      ensures nombre == old(nombre) - 1 && Held() == SwapRemove(old(Held()), index)
    {
      nombre := nombre - 1;
      regions[index] := regions[nombre];
      regions[nombre] := DEFAULT;
    }

    /** Merge with whatever is worth merging, starting over after each merge. */
    method Fusionne(rect: Rect) returns (r: Rect)
      requires regions.Length == CAPACITY && nombre <= CAPACITY
      modifies this`nombre, regions
      ensures nombre <= CAPACITY && (Held(), r) == Absorb(old(Held()), rect, 0)
    {
      r := rect;
      var i := 0;
      while i < nombre
        invariant i <= nombre <= CAPACITY && Absorb(Held(), r, i) == Absorb(old(Held()), rect, 0)
        decreases nombre, nombre - i
      {
        var existant := regions[i];
        if Profitable(existant, r) {
          r := Union(existant, r);
          RetireIndex(i);
          i := 0;
        } else {
          i := i + 1;
        }
      }
    }

    /** Then take a free slot, or the slot whose box grows least. */
    method Insere(rect: Rect)
      requires Valid() && On(rect, ecran)
      modifies this, regions
      ensures Valid() && Held() == Insert(old(Held()), rect)
      ensures history.asked == old(history.asked) + multiset{rect}
      ensures history.overflowed == (old(history.overflowed) || Overflows(old(Held()), rect))
      ensures history.demanded == old(history.demanded) + Area(rect)
      ensures history.merges == old(history.merges) + (old(nombre) + 1 - nombre)
    {
      ghost var was := Held();
      ghost var told := Recorded(history, was, rect, ecran);
      AbsorbOnScreen(was, rect, 0, ecran);
      var r := Fusionne(rect);
      if nombre < CAPACITY {
        regions[nombre] := r;
        nombre := nombre + 1;
        assert Held() == regions[..nombre - 1] + [r];
      } else {
        Deborde(r);
      }
      history := told;
    }

    method Deborde(r: Rect)
      requires regions.Length == CAPACITY == nombre && Rep(ecran) && On(r, ecran) && OnScreen(Held(), ecran)
      modifies regions
      ensures Held() == (var rs := old(Held()); var m := Best(rs, r, |rs|); rs[m := Union(rs[m], r)])
    {
      var meilleur, meilleureAire := 0, U64_MAX;
      ghost var rs := Held();
      for index := 0 to nombre
        invariant Held() == rs
        invariant index == 0 ==> meilleur == 0 && meilleureAire == U64_MAX
        invariant index > 0 ==> meilleur == Best(rs, r, index) && meilleureAire == Area(Union(rs[meilleur], r))
      {
        assert regions[index] == rs[index];
        var candidate := Union(regions[index], r);
        UnionWithin(rs[index], r, ecran);
        AreaBound(candidate);
        var candidateAire := Sat(Area(candidate));
        if candidateAire < meilleureAire {
          meilleureAire, meilleur := candidateAire, index;
        }
      }
      regions[meilleur] := Union(regions[meilleur], r);
    }

    method Ajoute(rect: Rect)
      requires Valid() && Rep(rect)
      modifies this, regions
      ensures Valid()
      ensures var clipped := Intersect(rect, ecran);
        if Empty(clipped) then Held() == old(Held()) && history == old(history)
        else Held() == Insert(old(Held()), clipped) && history.asked == old(history.asked) + multiset{clipped}
      ensures forall px, py :: Contains(ecran, px, py) && (Contains(rect, px, py) || Covered(old(Held()), px, py)) ==>
                Covered(Held(), px, py)
    {
      IntersectExact(rect, ecran);
      ghost var was := Held();
      var clipped := Intersect(rect, ecran);
      if Empty(clipped) {
        return;
      }
      Insere(clipped);
      forall px, py | Contains(ecran, px, py) && (Contains(rect, px, py) || Covered(was, px, py))
        ensures Covered(Held(), px, py)
      {
        InsertCovers(was, clipped, ecran, px, py);
      }
    }

    /** The whole screen, as one region. */
    method Tout()
      requires Valid()
      modifies this, regions
      ensures Valid() && Held() == [ecran]
      ensures !Empty(ecran) ==> history.asked == old(history.asked) + multiset{ecran}
      ensures !Empty(ecran) ==> history.demanded == Area(ecran) && history.merges == 0 && !history.overflowed
    {
      ghost var told := history;
      if !Empty(ecran) { told := Filled(history, Held(), ecran); }
      Vide();
      regions[0] := ecran;
      nombre, history := 1, told;
      assert Held() == [ecran];
    }

    method Vide()
      modifies regions
      ensures forall i :: 0 <= i < regions.Length ==> regions[i] == DEFAULT
    {
      for i := 0 to regions.Length
        invariant forall j :: 0 <= j < i ==> regions[j] == DEFAULT
      {
        regions[i] := DEFAULT;
      }
    }

    method Efface()
      requires Valid()
      modifies this, regions
      ensures Valid() && Held() == [] && history == BLANK
    {
      Vide();
      nombre, history := 0, BLANK;
    }

    /** The box around everything asked: every rectangle asked is inside, and no
        smaller rectangle holds them all. */
    method Region() returns (boite: Rect)
      requires Valid()
      ensures boite == Hull(Held())
      ensures !Empty(ecran) ==> forall f :: nombre > 0 ==> (Inside(boite, f) <==> forall r :: r in history.asked ==> Inside(r, f))
    {
      boite := DEFAULT;
      for i := 0 to nombre
        invariant boite == Hull(Held()[..i])
      {
        assert Held()[..i + 1][..i] == Held()[..i];
        boite := Union(boite, regions[i]);
      }
      assert Held()[..nombre] == Held();
      if !Empty(ecran) && nombre > 0 {
        HullLeast(Held(), ecran);
        forall f ensures Inside(boite, f) <==> forall r :: r in history.asked ==> Inside(r, f) {
          SameBounds(history.prov, Held(), ecran, f);
          assert Inside(boite, f) ==> AllInside(Held(), f);
        }
      }
    }

    /** Pixels to present, within (5/4)^merges of the pixels asked as long as
        the sixteen slots sufficed. */
    method PixelsRegions() returns (total: int)
      requires Valid()
      ensures total == Sat(Total(Held()))
      ensures !Empty(ecran) && !history.overflowed && Exact(ecran) ==>
                Pow(4, history.merges) * total <= Pow(5, history.merges) * history.demanded
    {
      total := 0;
      for i := 0 to nombre
        invariant Total(Held()[..i]) >= 0 && total == Sat(Total(Held()[..i]))
      {
        assert Held()[..i + 1][..i] == Held()[..i];
        assert Rep(Held()[i]);
        AreaBound(regions[i]);
        total := Sat(total + Sat(Area(regions[i])));
      }
      assert Held()[..nombre] == Held();
      if !Empty(ecran) && !history.overflowed && Exact(ecran) {
        WithinPow(history.merges, Total(Held()), history.demanded);
        MulLeft(Pow(4, history.merges), total, Total(Held()));
      }
    }
  }
}
