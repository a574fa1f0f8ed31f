/** Integer rectangles in image pixel coordinates (y grows downwards) and the
    open-interval overlap test that decides whether a piece of text may be
    drawn where it was first placed (check_overlap in app.py). */
module Geometry {

  /** A pixel position: the top-left corner of a piece of text. */
  datatype Point = Point(x: int, y: int)

  /** A rectangle given by its top-left corner (x0, y0) and its bottom-right
      corner (x1, y1); this is the 4-tuple kept in `used_positions`. */
  datatype Rect = Rect(x0: int, y0: int, x1: int, y1: int)

  /** The width and height of a rendered text, as the font measures it. A
      measured bounding box never has its right edge left of its left edge
      nor its bottom above its top, so both are natural numbers. */
  datatype Extent = Extent(width: nat, height: nat)

  /** The rectangle a text of the given extent covers when drawn at `p`. */
  function TextRect(p: Point, size: Extent): Rect
  {
    Rect(p.x, p.y, p.x + size.width, p.y + size.height)
  }

  /** The four strict comparisons check_overlap makes between one used
      rectangle and the candidate: the open intervals meet on both axes. */
  predicate RectsOverlap(used: Rect, cand: Rect)
  {
    used.x0 < cand.x1 && used.x1 > cand.x0 && used.y0 < cand.y1 && used.y1 > cand.y0
  }

  /** The candidate meets at least one of the rectangles placed so far. */
  predicate Overlaps(used: seq<Rect>, cand: Rect)
  {
    exists i :: 0 <= i < |used| && RectsOverlap(used[i], cand)
  }

  /** No rectangle meets any rectangle placed before it. */
  ghost predicate PairwiseDisjoint(used: seq<Rect>)
  {
    forall i, j :: 0 <= i < j < |used| ==> !RectsOverlap(used[i], used[j])
  }

  /** check_overlap: scan the used rectangles in order and report the first
      one whose open extent meets the candidate's. */
  method CheckOverlap(used: seq<Rect>, position: Point, width: int, height: int) returns (hit: bool)
    ensures hit <==> exists i :: 0 <= i < |used| && RectsOverlap(used[i], Rect(position.x, position.y, position.x + width, position.y + height))
  {
    for i := 0 to |used|
      invariant forall j :: 0 <= j < i ==> !RectsOverlap(used[j], Rect(position.x, position.y, position.x + width, position.y + height))
    {
      var u := used[i];
      if u.x0 < position.x + width && u.x1 > position.x && u.y0 < position.y + height && u.y1 > position.y {
        return true;
      }
    }
    return false;
  }

  /** A rectangle with a non-empty interior. */
  predicate Proper(r: Rect)
  {
    r.x0 < r.x1 && r.y0 < r.y1
  }

  /** The point (px, py) lies strictly inside `r`. */
  predicate Inside(r: Rect, px: real, py: real)
  {
    r.x0 as real < px < r.x1 as real && r.y0 as real < py < r.y1 as real
  }

  /** For rectangles with a non-empty interior, the overlap test holds exactly
      when the two interiors share a point; in particular rectangles that only
      touch along an edge or at a corner do not overlap. */
  lemma OverlapIffCommonInteriorPoint(a: Rect, b: Rect)
    requires Proper(a) && Proper(b)
    ensures RectsOverlap(a, b) <==> exists px: real, py: real :: Inside(a, px, py) && Inside(b, px, py)
  {
    if RectsOverlap(a, b) {
      var lx := if a.x0 < b.x0 then b.x0 else a.x0;
      var hx := if a.x1 < b.x1 then a.x1 else b.x1;
      var ly := if a.y0 < b.y0 then b.y0 else a.y0;
      var hy := if a.y1 < b.y1 then a.y1 else b.y1;
      var px := (lx as real + hx as real) / 2.0;
      var py := (ly as real + hy as real) / 2.0;
      assert Inside(a, px, py) && Inside(b, px, py);
    }
  }

  /** Rectangles that share an edge line do not overlap, in either argument
      order. */
  lemma SharedEdgeIsNoOverlap(a: Rect, b: Rect)
    requires a.x1 == b.x0 || b.x1 == a.x0 || a.y1 == b.y0 || b.y1 == a.y0
    ensures !RectsOverlap(a, b) && !RectsOverlap(b, a)
  {
  }

  /** A zero-height text is still blocked when its line runs through the
      interior of a used rectangle: the test compares open intervals of the
      used rectangle against the candidate's edges, not interiors. */
  lemma FlatTextCanBeBlocked(u: Rect, p: Point, w: nat)
    requires u.x0 < p.x + w && p.x < u.x1 && u.y0 < p.y < u.y1
    ensures Overlaps([u], TextRect(p, Extent(w, 0)))
  {
    assert RectsOverlap([u][0], TextRect(p, Extent(w, 0)));
  }

  /** Appending a rectangle that meets none of the placed ones keeps the
      placed rectangles pairwise disjoint. */
  lemma AppendFreeKeepsDisjoint(used: seq<Rect>, r: Rect)
    requires PairwiseDisjoint(used)
    requires !Overlaps(used, r)
    ensures PairwiseDisjoint(used + [r])
  {
    var used' := used + [r];
    forall i, j | 0 <= i < j < |used'|
      ensures !RectsOverlap(used'[i], used'[j])
    {
      if j == |used| {
        assert used'[i] == used[i];
      }
    }
  }
}
