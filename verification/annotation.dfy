/** The drawing pass of detect_nudity in app.py: for every detection of a
    class in the colour table, outline its box, try the class name centred
    above the box and the confidence text centred below it, nudge each away
    from the texts placed before it, and record both text rectangles in
    `used_positions`. */
module Annotation {
  import opened Geometry
  import opened Placement
  import opened Labels

  /** A detector box as [x, y, width, height]. */
  datatype Box = Box(x: int, y: int, w: int, h: int)

  /** One detection record. The confidence score enters only through its
      formatted text; both texts come with the extent the font measures for
      them. */
  datatype Detection = Detection(
    name: string,
    scoreText: string,
    box: Box,
    nameExtent: Extent,
    scoreExtent: Extent)

  /** An element of the detector's result list: a record, or anything that is
      not a dictionary. */
  datatype Entry = Record(detection: Detection) | NotRecord

  /** The detector's result: a list, or anything that is not a list. */
  datatype DetectorOutput = Entries(entries: seq<Entry>) | NotAList

  /** What is drawn on the image: a box outline, or a text at a position. */
  datatype Mark =
    | Outline(corners: Rect, color: string)
    | Caption(at: Point, text: string, color: string)
  {
    function Color(): string
    {
      match this
      case Outline(_, c) => c
      case Caption(_, _, c) => c
    }
  }

  /** The drawing state: the text rectangles placed so far (`used_positions`)
      and the marks drawn so far, in order. */
  datatype Canvas = Canvas(used: seq<Rect>, marks: seq<Mark>)

  const Blank: Canvas := Canvas([], [])

  /** The left edge that centres a text of the given width over the box; the
      halving rounds towards minus infinity, as Python's `//` does. */
  function CenteredX(box: Box, textWidth: nat): (x: int)
    ensures x - box.x <= (box.x + box.w) - (x + textWidth) <= x - box.x + 1
  {
    box.x + (box.w - textWidth) / 2
  }

  /** Where a class name is first tried: centred, its bottom 10 pixels above
      the box, but never above the top of the image. */
  function NameStart(box: Box, size: Extent): (p: Point)
    ensures p.x == CenteredX(box, size.width)
    ensures p.y >= 0
    ensures p.y + size.height + Gap == box.y || (p.y == 0 && box.y < size.height + Gap)
  {
    var y := box.y - size.height - Gap;
    Point(CenteredX(box, size.width), if y < 0 then 0 else y)
  }

  /** Where a confidence text is first tried: centred, its top 10 pixels below
      the bottom of the box. */
  function ScoreStart(box: Box, size: Extent): (p: Point)
    ensures p.x == CenteredX(box, size.width)
    ensures p.y - Gap == box.y + box.h
  {
    Point(CenteredX(box, size.width), box.y + box.h + Gap)
  }

  /** The final class-name position for a detection: straight above its
      first position and clear of every text placed before it. */
  function NamePosition(used: seq<Rect>, d: Detection): (p: Point)
    ensures p.x == NameStart(d.box, d.nameExtent).x
    ensures p.y <= NameStart(d.box, d.nameExtent).y
    ensures !Overlaps(used, TextRect(p, d.nameExtent))
    ensures (NameStart(d.box, d.nameExtent).y - p.y) % (d.nameExtent.height + Gap) == 0
  {
    var p := NameStart(d.box, d.nameExtent);
    Point(p.x, NudgedTop(used, p.x, p.y, d.nameExtent, Up))
  }

  /** The final confidence-text position, after the class name was placed:
      straight below its first position and clear of every text placed
      before it, the class name included. */
  function ScorePosition(used: seq<Rect>, d: Detection): (p: Point)
    ensures p.x == ScoreStart(d.box, d.scoreExtent).x
    ensures p.y >= ScoreStart(d.box, d.scoreExtent).y
    ensures !Overlaps(used, TextRect(p, d.scoreExtent))
    ensures (ScoreStart(d.box, d.scoreExtent).y - p.y) % (d.scoreExtent.height + Gap) == 0
  {
    var p := ScoreStart(d.box, d.scoreExtent);
    Point(p.x, NudgedTop(used, p.x, p.y, d.scoreExtent, Down))
  }

  /** The drawing pass for one detection record: nothing for a class outside
      the table; otherwise the box outline and the two texts in the class's
      colour, and two new text rectangles of exactly the measured extents,
      each free of every rectangle placed before it. */
  function PlaceDetection(c: Canvas, d: Detection): (r: Canvas)
    ensures d.name !in AllLabels ==> r == c
    ensures d.name in AllLabels ==>
      && |r.used| == |c.used| + 2
      && r.used[..|c.used|] == c.used
      && |r.marks| == |c.marks| + 3
      && r.marks[..|c.marks|] == c.marks
      && (forall k :: |c.marks| <= k < |r.marks| ==> r.marks[k].Color() == AllLabels[d.name])
    ensures d.name in AllLabels ==>
      var n := |c.used|;
      && r.used[n].x1 - r.used[n].x0 == d.nameExtent.width
      && r.used[n].y1 - r.used[n].y0 == d.nameExtent.height
      && r.used[n + 1].x1 - r.used[n + 1].x0 == d.scoreExtent.width
      && r.used[n + 1].y1 - r.used[n + 1].y0 == d.scoreExtent.height
      && r.used[n].x0 == CenteredX(d.box, d.nameExtent.width)
      && r.used[n + 1].x0 == CenteredX(d.box, d.scoreExtent.width)
      && r.used[n].y0 <= NameStart(d.box, d.nameExtent).y
      && r.used[n + 1].y0 >= ScoreStart(d.box, d.scoreExtent).y
      && !Overlaps(c.used, r.used[n])
      && !Overlaps(r.used[..n + 1], r.used[n + 1])
    ensures d.name in AllLabels ==>
      var n, m, col := |c.used|, |c.marks|, AllLabels[d.name];
      && r.marks[m] == Outline(Rect(d.box.x, d.box.y, d.box.x + d.box.w, d.box.y + d.box.h), col)
      && r.marks[m + 1] == Caption(Point(r.used[n].x0, r.used[n].y0), d.name, col)
      && r.marks[m + 2] == Caption(Point(r.used[n + 1].x0, r.used[n + 1].y0), d.scoreText, col)
  {
    var color := ColorOf(d.name);
    if d.name in AllLabels then
      var b := d.box;
      var nameAt := NamePosition(c.used, d);
      var used1 := c.used + [TextRect(nameAt, d.nameExtent)];
      var scoreAt := ScorePosition(used1, d);
      var used2 := used1 + [TextRect(scoreAt, d.scoreExtent)];
      assert used2[..|c.used|] == c.used && used2[..|c.used| + 1] == used1;
      Canvas(used2, c.marks + [
        Outline(Rect(b.x, b.y, b.x + b.w, b.y + b.h), color),
        Caption(nameAt, d.name, color),
        Caption(scoreAt, d.scoreText, color)])
    else
      c
  }

  /** The invariant of the drawing pass: placing one more detection keeps the
      text rectangles pairwise disjoint. */
  lemma PlaceDetectionKeepsDisjoint(c: Canvas, d: Detection)
    requires PairwiseDisjoint(c.used)
    ensures PairwiseDisjoint(PlaceDetection(c, d).used)
  {
    var r := PlaceDetection(c, d);
    if d.name in AllLabels {
      var n := |c.used|;
      assert r.used[..n] == c.used;
      AppendFreeKeepsDisjoint(c.used, r.used[n]);
      assert r.used[..n + 1] == c.used + [r.used[n]];
      AppendFreeKeepsDisjoint(r.used[..n + 1], r.used[n + 1]);
      assert r.used == r.used[..n + 1] + [r.used[n + 1]];
    }
  }

  /** Both texts of a known detection stop at the first free step of their
      nudge loop: the name over the rectangles placed before it, the
      confidence text over those and the name. */
  lemma PlaceDetectionStopsAtFirstFree(c: Canvas, d: Detection)
    requires d.name in AllLabels
    ensures var r, n := PlaceDetection(c, d), |c.used|;
      var s := NameStart(d.box, d.nameExtent);
      exists k: nat :: FirstFree(c.used, s.x, s.y, d.nameExtent, Up, k)
        && r.used[n].y0 == Shifted(s.y, Up, d.nameExtent, k)
    ensures var r, n := PlaceDetection(c, d), |c.used|;
      var t := ScoreStart(d.box, d.scoreExtent);
      exists k: nat :: FirstFree(r.used[..n + 1], t.x, t.y, d.scoreExtent, Down, k)
        && r.used[n + 1].y0 == Shifted(t.y, Down, d.scoreExtent, k)
  {
    var r, n := PlaceDetection(c, d), |c.used|;
    var s := NameStart(d.box, d.nameExtent);
    var t := ScoreStart(d.box, d.scoreExtent);
    var k1 := Steps(c.used, s.x, s.y, d.nameExtent, Up);
    var used1 := c.used + [TextRect(NamePosition(c.used, d), d.nameExtent)];
    assert r.used[..n + 1] == used1;
    var k2 := Steps(used1, t.x, t.y, d.scoreExtent, Down);
    assert FirstFree(c.used, s.x, s.y, d.nameExtent, Up, k1)
      && r.used[n].y0 == Shifted(s.y, Up, d.nameExtent, k1);
    assert FirstFree(r.used[..n + 1], t.x, t.y, d.scoreExtent, Down, k2)
      && r.used[n + 1].y0 == Shifted(t.y, Down, d.scoreExtent, k2);
  }

  /** One element of the result list: only dictionary records are drawn. */
  function PlaceEntry(c: Canvas, e: Entry): (r: Canvas)
    ensures (e.NotRecord? || e.detection.name !in AllLabels) ==> r == c
  {
    match e
    case Record(d) => PlaceDetection(c, d)
    case NotRecord => c
  }

  /** The drawing pass over the remaining entries, in list order. */
  function Annotated(c: Canvas, es: seq<Entry>): (r: Canvas)
    ensures KnownCount(es) == 0 ==> r == c
    decreases |es|
  {
    if |es| == 0 then c else Annotated(PlaceEntry(c, es[0]), es[1..])
  }

  /** The drawing pass over the detector's result; a result that is not a
      list draws nothing. */
  function Draw(output: DetectorOutput): (r: Canvas)
    ensures (output.NotAList? || KnownCount(output.entries) == 0) ==> r == Blank
  {
    match output
    case Entries(es) => Annotated(Blank, es)
    case NotAList => Blank
  }

  /** The number of entries that are records of a class in the table. */
  function KnownCount(es: seq<Entry>): nat
  {
    if |es| == 0 then 0
    else (if es[0].Record? && es[0].detection.name in AllLabels then 1 else 0) + KnownCount(es[1..])
  }

  /** Every mark is drawn in a table colour, never in the fallback colour. */
  ghost predicate TableColoured(marks: seq<Mark>)
  {
    forall k :: 0 <= k < |marks| ==> marks[k].Color() in Palette
  }

  /** The pass only appends: what was placed and drawn before stays, and each
      known record adds exactly two text rectangles and three marks. */
  lemma {:induction false} AnnotatedAppends(c: Canvas, es: seq<Entry>)
    ensures var r := Annotated(c, es);
      && |r.used| == |c.used| + 2 * KnownCount(es)
      && |r.marks| == |c.marks| + 3 * KnownCount(es)
      && r.used[..|c.used|] == c.used
      && r.marks[..|c.marks|] == c.marks
    decreases |es|
  {
    if |es| > 0 {
      var c' := PlaceEntry(c, es[0]);
      AnnotatedAppends(c', es[1..]);
      var r := Annotated(c', es[1..]);
      assert r.used[..|c.used|] == r.used[..|c'.used|][..|c.used|];
      assert r.marks[..|c.marks|] == r.marks[..|c'.marks|][..|c.marks|];
    }
  }

  /** The invariant over the whole pass: no text rectangle meets one placed
      before it. */
  lemma {:induction false} AnnotatedKeepsDisjoint(c: Canvas, es: seq<Entry>)
    requires PairwiseDisjoint(c.used)
    ensures PairwiseDisjoint(Annotated(c, es).used)
    decreases |es|
  {
    if |es| > 0 {
      if es[0].Record? {
        PlaceDetectionKeepsDisjoint(c, es[0].detection);
      }
      AnnotatedKeepsDisjoint(PlaceEntry(c, es[0]), es[1..]);
    }
  }

  /** Only table classes are drawn, so no mark ever uses the fallback colour. */
  lemma {:induction false} AnnotatedTableColoured(c: Canvas, es: seq<Entry>)
    requires TableColoured(c.marks)
    ensures TableColoured(Annotated(c, es).marks)
    decreases |es|
  {
    if |es| > 0 {
      var c' := PlaceEntry(c, es[0]);
      if es[0].Record? && es[0].detection.name in AllLabels {
        var d := es[0].detection;
        assert ColorOf(d.name) in Palette;
        forall k | 0 <= k < |c'.marks|
          ensures c'.marks[k].Color() in Palette
        {
          if k < |c.marks| {
            assert c'.marks[k] == c'.marks[..|c.marks|][k];
          }
        }
      }
      AnnotatedTableColoured(c', es[1..]);
    }
  }

  /** The whole drawing pass: pairwise disjoint text rectangles, two per known
      record, and every mark in a table colour. */
  lemma DrawProperties(output: DetectorOutput)
    ensures PairwiseDisjoint(Draw(output).used)
    ensures |Draw(output).used| == if output.Entries? then 2 * KnownCount(output.entries) else 0
    ensures |Draw(output).marks| == if output.Entries? then 3 * KnownCount(output.entries) else 0
    ensures forall k :: 0 <= k < |Draw(output).marks| ==> Draw(output).marks[k].Color() != Fallback
  {
    if output.Entries? {
      AnnotatedKeepsDisjoint(Blank, output.entries);
      AnnotatedAppends(Blank, output.entries);
      AnnotatedTableColoured(Blank, output.entries);
    }
  }

  /** The drawing loop of detect_nudity, written as app.py runs it: one
      pass over the result list, with the two nudge loops per known record. */
  method DrawDetections(output: DetectorOutput) returns (c: Canvas)
    ensures c == Draw(output)
    ensures PairwiseDisjoint(c.used)
  {
    c := Blank;
    if output.Entries? {
      var es := output.entries;
      for i := 0 to |es|
        invariant Annotated(c, es[i..]) == Annotated(Blank, es)
        invariant PairwiseDisjoint(c.used)
      {
        ghost var before := c;
        match es[i]
        case NotRecord =>
        case Record(d) =>
          var color := ColorOf(d.name);
          if d.name in AllLabels {
            var b := d.box;
            var nameAt := NudgeText(c.used, NameStart(b, d.nameExtent), d.nameExtent, Up);
            var used := c.used + [TextRect(nameAt, d.nameExtent)];
            var scoreAt := NudgeText(used, ScoreStart(b, d.scoreExtent), d.scoreExtent, Down);
            used := used + [TextRect(scoreAt, d.scoreExtent)];
            c := Canvas(used, c.marks + [
              Outline(Rect(b.x, b.y, b.x + b.w, b.y + b.h), color),
              Caption(nameAt, d.name, color),
              Caption(scoreAt, d.scoreText, color)]);
          }
          PlaceDetectionKeepsDisjoint(before, d);
        assert c == PlaceEntry(before, es[i]);
        assert es[i..][1..] == es[i + 1..];
      }
    }
  }

  /** The initial clamp keeps a class name's first position inside the image,
      but nudging can still move it above the top edge: here a name whose
      first position is y = 0 is blocked and ends at y = -30. */
  lemma NameCanLeaveTopEdge()
    ensures var c := Canvas([Rect(0, 0, 100, 20)], []);
      var d := Detection("FACE_FEMALE", "0.90", Box(0, 5, 100, 100), Extent(100, 20), Extent(40, 20));
      PlaceDetection(c, d).used[1].y0 == -30
  {
    var c := Canvas([Rect(0, 0, 100, 20)], []);
    var d := Detection("FACE_FEMALE", "0.90", Box(0, 5, 100, 100), Extent(100, 20), Extent(40, 20));
    var size := d.nameExtent;
    assert d.name in AllLabels;
    assert NameStart(d.box, size) == Point(0, 0);
    assert RectsOverlap(c.used[0], TextRect(Point(0, 0), size));
    assert Blocked(c.used, 0, 0, size);
    assert !Blocked(c.used, 0, -30, size);
    assert Steps(c.used, 0, -30, size, Up) == 0;
    assert Steps(c.used, 0, 0, size, Up) == 1;
    assert NamePosition(c.used, d) == Point(0, -30);
  }

  /** In general: when the clamp to the top edge applies and the name is
      blocked there, it ends at least one full step above the image. */
  lemma ClampedBlockedNameLeavesImage(c: Canvas, d: Detection)
    requires d.name in AllLabels
    requires d.box.y < d.nameExtent.height + Gap
    requires Blocked(c.used, NameStart(d.box, d.nameExtent).x, 0, d.nameExtent)
    ensures PlaceDetection(c, d).used[|c.used|].y0 <= -(d.nameExtent.height + Gap)
  {
    var x := NameStart(d.box, d.nameExtent).x;
    NudgedTopUnfold(c.used, x, 0, d.nameExtent, Up);
    assert PlaceDetection(c, d).used[|c.used|].y0 == NamePosition(c.used, d).y;
  }
}
