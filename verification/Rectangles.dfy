/** Screen rectangles: signed 32-bit corner, unsigned 32-bit extents, edges
    computed in 64 bits. */
module Rectangles {
  const U32 := 0x1_0000_0000
  const I32 := 0x8000_0000

  datatype Rect = Rect(x: int, y: int, w: int, h: int)

  const DEFAULT := Rect(0, 0, 0, 0)

  /** The values the machine representation can hold. */
  predicate Rep(r: Rect)
  {
    -I32 <= r.x < I32 && -I32 <= r.y < I32 && 0 <= r.w < U32 && 0 <= r.h < U32
  }

  predicate Empty(r: Rect) { r.w == 0 || r.h == 0 }

  function Right(r: Rect): int { r.x + r.w }

  function Bottom(r: Rect): int { r.y + r.h }

  predicate Contains(r: Rect, px: int, py: int) { r.x <= px < Right(r) && r.y <= py < Bottom(r) }

  predicate Inside(r: Rect, e: Rect)
  {
    e.x <= r.x && Right(r) <= Right(e) && e.y <= r.y && Bottom(r) <= Bottom(e)
  }

  function Min(a: int, b: int): int { if a <= b then a else b }

  function Max(a: int, b: int): int { if a >= b then a else b }

  function Intersect(a: Rect, b: Rect): Rect
  {
    var x0, y0 := Max(a.x, b.x), Max(a.y, b.y);
    var x1, y1 := Min(Right(a), Right(b)), Min(Bottom(a), Bottom(b));
    if x1 <= x0 || y1 <= y0 then DEFAULT else Rect(x0, y0, x1 - x0, y1 - y0)
  }

  /** The extents are cast back to 32 bits, so they wrap. */
  function Union(a: Rect, b: Rect): Rect
  {
    if Empty(a) then b
    else if Empty(b) then a
    else
      var x0, y0 := Min(a.x, b.x), Min(a.y, b.y);
      var x1, y1 := Max(Right(a), Right(b)), Max(Bottom(a), Bottom(b));
      Rect(x0, y0, (x1 - x0) % U32, (y1 - y0) % U32)
  }

  lemma IntersectExact(a: Rect, b: Rect)
    requires Rep(a) && Rep(b)
    ensures Rep(Intersect(a, b))
    ensures forall px, py :: Contains(Intersect(a, b), px, py) <==> Contains(a, px, py) && Contains(b, px, py)
    ensures if Empty(Intersect(a, b)) then Intersect(a, b) == Rect(0, 0, 0, 0)
            else Inside(Intersect(a, b), a) && Inside(Intersect(a, b), b)
  {
    forall px, py ensures Contains(Intersect(a, b), px, py) <==> Contains(a, px, py) && Contains(b, px, py) {
      IntersectAt(a, b, px, py);
    }
  }

  lemma IntersectAt(a: Rect, b: Rect, px: int, py: int)
    ensures Contains(Intersect(a, b), px, py) <==> Contains(a, px, py) && Contains(b, px, py)
  {
  }

  predicate Fits(a: Rect, b: Rect)
  {
    && Max(Right(a), Right(b)) - Min(a.x, b.x) < U32
    && Max(Bottom(a), Bottom(b)) - Min(a.y, b.y) < U32
  }

  /** The union of two non-empty rectangles contains them exactly when their
      common extents fit in 32 bits; it is then the least such rectangle. */
  lemma UnionCoversIffFits(a: Rect, b: Rect)
    requires Rep(a) && Rep(b) && !Empty(a) && !Empty(b)
    ensures Rep(Union(a, b))
    ensures Inside(a, Union(a, b)) && Inside(b, Union(a, b)) <==> Fits(a, b)
    ensures Fits(a, b) ==> !Empty(Union(a, b)) && forall e :: Inside(a, e) && Inside(b, e) ==> Inside(Union(a, b), e)
  {
  }

  lemma UnionWithin(a: Rect, b: Rect, e: Rect)
    requires Rep(a) && Rep(b) && Rep(e) && Inside(a, e) && Inside(b, e) && !Empty(a) && !Empty(b)
    ensures Fits(a, b) && Rep(Union(a, b)) && !Empty(Union(a, b)) && Inside(Union(a, b), e)
    ensures Inside(a, Union(a, b)) && Inside(b, Union(a, b))
    ensures Union(a, b) == Union(b, a) == Hull2(a, b)
  {
    HullWithin(a, b, e);
    HullWithin(b, a, e);
    Small(Hull2(a, b).w);
    Small(Hull2(a, b).h);
  }

  lemma HullWithin(a: Rect, b: Rect, e: Rect)
    requires Rep(a) && Rep(b) && Rep(e) && Inside(a, e) && Inside(b, e) && !Empty(a) && !Empty(b)
    ensures Fits(a, b) && Rep(Hull2(a, b)) && !Empty(Hull2(a, b)) && Inside(Hull2(a, b), e)
    ensures Inside(a, Hull2(a, b)) && Inside(b, Hull2(a, b)) && Hull2(a, b) == Hull2(b, a)
  {
  }

  lemma Small(n: int)
    requires 0 <= n < U32
    ensures n % U32 == n
  {
  }

  /** The rectangle spanned by two rectangles, without the 32-bit casts. */
  function Hull2(a: Rect, b: Rect): Rect
  {
    Rect(Min(a.x, b.x), Min(a.y, b.y), Max(Right(a), Right(b)) - Min(a.x, b.x), Max(Bottom(a), Bottom(b)) - Min(a.y, b.y))
  }

  lemma UnionAssociative(a: Rect, b: Rect, c: Rect, e: Rect)
    requires Rep(a) && Rep(b) && Rep(c) && Rep(e) && Inside(a, e) && Inside(b, e) && Inside(c, e)
    requires !Empty(a) && !Empty(b) && !Empty(c)
    ensures Union(Union(a, b), c) == Union(a, Union(b, c))
  {
    UnionWithin(a, b, e);
    UnionWithin(b, c, e);
    UnionWithin(Union(a, b), c, e);
    UnionWithin(a, Union(b, c), e);
    HullAssociative(a, b, c);
  }

  lemma HullAssociative(a: Rect, b: Rect, c: Rect)
    ensures Hull2(Hull2(a, b), c) == Hull2(a, Hull2(b, c))
  {
    MinMaxAssociative(a.x, b.x, c.x);
    MinMaxAssociative(a.y, b.y, c.y);
    MinMaxAssociative(Right(a), Right(b), Right(c));
    MinMaxAssociative(Bottom(a), Bottom(b), Bottom(c));
  }

  lemma MinMaxAssociative(a: int, b: int, c: int)
    ensures Min(Min(a, b), c) == Min(a, Min(b, c)) && Max(Max(a, b), c) == Max(a, Max(b, c))
  {
  }

  function Area(r: Rect): int { r.w * r.h }

  lemma AreaGrows(r: Rect, e: Rect)
    requires 0 <= r.w && 0 <= r.h && 0 <= e.w && 0 <= e.h && Inside(r, e)
    ensures 0 <= Area(r) <= Area(e)
  {
    MulMonotone(r.w, e.w, r.h, e.h);
  }

  lemma MulMonotone(a: int, b: int, c: int, d: int)
    requires 0 <= a <= b && 0 <= c <= d
    ensures 0 <= a * c <= b * d
  {
    assert a * c <= b * c <= b * d;
  }
}
