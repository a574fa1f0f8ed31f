/** Greedy vertical nudging of a text position (the two `while
    check_overlap(...)` loops of detect_nudity in app.py): while the text would
    meet a rectangle placed earlier, move it by its own height plus a 10-pixel
    gap, upwards for a class label and downwards for a confidence score. */
module Placement {
  import opened Geometry

  /** Labels move up, confidence texts move down. */
  datatype Direction = Up | Down

  /** The pixel gap between a text and the box, and between nudge positions. */
  const Gap: int := 10

  /** The signed vertical move of one nudge. */
  function Advance(dir: Direction, size: Extent): int
  {
    match dir
    case Up => -(size.height + Gap)
    case Down => size.height + Gap
  }

  /** The top edge after `k` nudges from `y`. */
  function Shifted(y: int, dir: Direction, size: Extent, k: nat): int
  {
    y + k * Advance(dir, size)
  }

  /** A text of extent `size` with its top-left corner at (x, y) meets a
      rectangle placed earlier. */
  predicate Blocked(used: seq<Rect>, x: int, y: int, size: Extent)
  {
    Overlaps(used, TextRect(Point(x, y), size))
  }

  /** `k` nudges reach a free position and every position before it was
      blocked: `k` is the number of iterations the loop runs. */
  ghost predicate FirstFree(used: seq<Rect>, x: int, y: int, size: Extent, dir: Direction, k: nat)
  {
    && !Blocked(used, x, Shifted(y, dir, size, k), size)
    && forall j: nat :: j < k ==> Blocked(used, x, Shifted(y, dir, size, j), size)
  }

  /** The smallest top edge among the used rectangles (0 when there are none). */
  function LowestTop(used: seq<Rect>): (m: int)
    ensures forall i :: 0 <= i < |used| ==> m <= used[i].y0
  {
    if |used| == 0 then 0
    else
      var rest := LowestTop(used[1..]);
      assert forall i :: 1 <= i < |used| ==> used[i] == used[1..][i - 1];
      if used[0].y0 < rest then used[0].y0 else rest
  }

  /** The largest bottom edge among the used rectangles (0 when there are none). */
  function HighestBottom(used: seq<Rect>): (m: int)
    ensures forall i :: 0 <= i < |used| ==> used[i].y1 <= m
  {
    if |used| == 0 then 0
    else
      var rest := HighestBottom(used[1..]);
      assert forall i :: 1 <= i < |used| ==> used[i] == used[1..][i - 1];
      if used[0].y1 > rest then used[0].y1 else rest
  }

  /** How far the text still is from having passed every used rectangle in
      the direction it moves. */
  function Distance(used: seq<Rect>, y: int, size: Extent, dir: Direction): int
  {
    match dir
    case Up => y + size.height - LowestTop(used)
    case Down => HighestBottom(used) - y
  }

  /** The termination argument: a blocked text has not yet passed every used
      rectangle, and each nudge brings it closer by exactly its height plus
      the gap, that is by at least 10 pixels. */
  lemma NudgeApproaches(used: seq<Rect>, x: int, y: int, size: Extent, dir: Direction)
    ensures Blocked(used, x, y, size) ==> 0 < Distance(used, y, size, dir)
    ensures Distance(used, y + Advance(dir, size), size, dir) == Distance(used, y, size, dir) - (size.height + Gap)
  {
    if Blocked(used, x, y, size) {
      var i :| 0 <= i < |used| && RectsOverlap(used[i], TextRect(Point(x, y), size));
      assert LowestTop(used) <= used[i].y0 && used[i].y1 <= HighestBottom(used);
    }
  }

  /** One nudge of a blocked text and `k` more reach the same place as `k + 1`
      nudges from the start. */
  lemma ShiftedSucc(y: int, dir: Direction, size: Extent, k: nat)
    ensures Shifted(y + Advance(dir, size), dir, size, k) == Shifted(y, dir, size, k + 1)
  {
    calc {
      Shifted(y, dir, size, k + 1);
      y + (k + 1) * Advance(dir, size);
      { assert (k + 1) * Advance(dir, size) == k * Advance(dir, size) + Advance(dir, size); }
      Shifted(y + Advance(dir, size), dir, size, k);
    }
  }

  /** If the start is blocked and `k` nudges from the next position are the
      first free ones, then `k + 1` nudges from the start are. */
  lemma FirstFreeBack(used: seq<Rect>, x: int, y: int, size: Extent, dir: Direction, k: nat)
    requires Blocked(used, x, y, size)
    requires FirstFree(used, x, y + Advance(dir, size), size, dir, k)
    ensures FirstFree(used, x, y, size, dir, k + 1)
  {
    ShiftedSucc(y, dir, size, k);
    forall j: nat | j < k + 1
      ensures Blocked(used, x, Shifted(y, dir, size, j), size)
    {
      if j > 0 {
        ShiftedSucc(y, dir, size, j - 1);
      }
    }
  }

  /** The number of nudges the loop makes before the text is free. */
  function Steps(used: seq<Rect>, x: int, y: int, size: Extent, dir: Direction): (k: nat)
    ensures FirstFree(used, x, y, size, dir, k)
    decreases Distance(used, y, size, dir)
  {
    if Blocked(used, x, y, size) then
      NudgeApproaches(used, x, y, size, dir);
      var k := Steps(used, x, y + Advance(dir, size), size, dir);
      FirstFreeBack(used, x, y, size, dir, k);
      k + 1
    else
      0
  }

  /** Two counts that both reach the first free position are the same count. */
  lemma FirstFreeUnique(used: seq<Rect>, x: int, y: int, size: Extent, dir: Direction, k1: nat, k2: nat)
    requires FirstFree(used, x, y, size, dir, k1)
    requires FirstFree(used, x, y, size, dir, k2)
    ensures k1 == k2
  {
  }

  /** An explicit bound on the iterations: all nudges but the last start from
      a blocked position, so they cover less than the initial distance. */
  lemma {:induction false} StepsBound(used: seq<Rect>, x: int, y: int, size: Extent, dir: Direction)
    ensures Steps(used, x, y, size, dir) == 0
         || (Steps(used, x, y, size, dir) - 1) * (size.height + Gap) < Distance(used, y, size, dir)
    decreases Distance(used, y, size, dir)
  {
    if Blocked(used, x, y, size) {
      NudgeApproaches(used, x, y, size, dir);
      var y' := y + Advance(dir, size);
      StepsBound(used, x, y', size, dir);
      var k' := Steps(used, x, y', size, dir);
      var d := size.height + Gap;
      var dist := Distance(used, y, size, dir);
      assert Steps(used, x, y, size, dir) == k' + 1;
      assert Distance(used, y', size, dir) == dist - d;
      if k' > 0 {
        assert (k' - 1) * d < dist - d;
        MulPred(k', d);
      }
    }
  }

  /** Arithmetic helper: peeling one factor off a product. */
  lemma MulPred(k: int, d: int)
    ensures k * d == (k - 1) * d + d
  {
  }

  /** `k` nudges move the text by `k` times its height plus the gap, away from
      the box. */
  lemma ShiftIsMultiple(y: int, dir: Direction, size: Extent, k: nat)
    ensures dir == Up ==> Shifted(y, dir, size, k) <= y
    ensures dir == Down ==> Shifted(y, dir, size, k) >= y
    ensures (y - Shifted(y, dir, size, k)) % (size.height + Gap) == 0
  {
    var d := size.height + Gap;
    var m: int := if dir == Up then k else -(k as int);
    assert y - Shifted(y, dir, size, k) == m * d;
    MultipleHasNoRemainder(m, d);
  }

  /** Arithmetic helper: a multiple of a positive divisor leaves no remainder. */
  lemma MultipleHasNoRemainder(m: int, d: int)
    requires d > 0
    ensures (m * d) % d == 0
  {
    var q, r := (m * d) / d, (m * d) % d;
    assert m * d == d * q + r && 0 <= r < d;
    assert r == d * (m - q);
    ProductAwayFromZero(d, m - q);
  }

  /** Arithmetic helper: a non-zero multiple of `d` is at least `d` away from 0. */
  lemma ProductAwayFromZero(d: int, t: int)
    requires d > 0
    ensures t >= 1 ==> d * t >= d
    ensures t <= -1 ==> d * t <= -d
  {
    if t >= 1 {
      assert d * t == d + d * (t - 1);
    } else if t <= -1 {
      assert d * t == -d + d * (t + 1);
    }
  }

  /** Where the loop leaves the top edge of a text first placed at (x, y). */
  function NudgedTop(used: seq<Rect>, x: int, y: int, size: Extent, dir: Direction): (top: int)
    ensures !Blocked(used, x, top, size)
    ensures dir == Up ==> top <= y
    ensures dir == Down ==> top >= y
    ensures (y - top) % (size.height + Gap) == 0
  {
    var k := Steps(used, x, y, size, dir);
    ShiftIsMultiple(y, dir, size, k);
    Shifted(y, dir, size, k)
  }

  /** A blocked text ends where the text one nudge further ends. */
  lemma NudgedTopUnfold(used: seq<Rect>, x: int, y: int, size: Extent, dir: Direction)
    requires Blocked(used, x, y, size)
    ensures NudgedTop(used, x, y, size, dir) == NudgedTop(used, x, y + Advance(dir, size), size, dir)
  {
    ShiftedSucc(y, dir, size, Steps(used, x, y + Advance(dir, size), size, dir));
  }

  /** The loop itself: test the position, and while it is blocked move it by
      the text height plus the gap. The x-coordinate never changes. */
  method NudgeText(used: seq<Rect>, start: Point, size: Extent, dir: Direction) returns (pos: Point)
    ensures pos.x == start.x
    ensures !Overlaps(used, TextRect(pos, size))
    ensures pos.y == NudgedTop(used, start.x, start.y, size, dir)
  {
    pos := start;
    var hit := CheckOverlap(used, pos, size.width, size.height);
    while hit
      invariant pos.x == start.x
      invariant hit == Blocked(used, pos.x, pos.y, size)
      invariant NudgedTop(used, pos.x, pos.y, size, dir) == NudgedTop(used, start.x, start.y, size, dir)
      decreases Distance(used, pos.y, size, dir)
    {
      NudgeApproaches(used, pos.x, pos.y, size, dir);
      NudgedTopUnfold(used, pos.x, pos.y, size, dir);
      if dir == Up {
        pos := Point(pos.x, pos.y - size.height - Gap);
      } else {
        pos := Point(pos.x, pos.y + size.height + Gap);
      }
      hit := CheckOverlap(used, pos, size.width, size.height);
    }
  }
}
