/**
 * `draw_bbox` in utils.py: outline a box on an image and, when a label is given,
 * draw a filled label strip with the label text on it.
 *
 * The image is an object the call changes in place; what the drawing calls do
 * to its pixels is abstracted as the sequence of drawing commands issued on it.
 * Strip sizing is a three-tier step function of the image height, and strip
 * placement an ordered two-step rule over integers.
 */
module BoxDrawing {
  import opened Wrappers
  import opened Boxes

  /** A colour as the three channel values the drawing library receives. */
  datatype Color = Color(c0: int, c1: int, c2: int)

  datatype Point = Point(x: int, y: int)

  /** The drawing calls `draw_bbox` makes, with the arguments it passes. */
  datatype Command =
    | Rectangle(pt1: Point, pt2: Point, color: Color, thickness: int)
    | PutText(text: string, org: Point, font: int, fontScale: real, color: Color, thickness: int, lineType: int)

  const OutlineThickness: int := 5
  /** The drawing library's thickness value that asks for a filled rectangle. */
  const Filled: int := -1
  const FontHersheySimplex: int := 0
  const TextColor: Color := Color(255, 255, 255)
  const TextLineType: int := 1
  /** The text origin sits this far right of the box's left edge ... */
  const TextInsetX: int := 5
  /** ... and this far above the strip's bottom edge. */
  const TextRaiseY: int := 2

  /** Stroke thickness, font scale and strip height of the label. */
  datatype LabelStyle = LabelStyle(thickness: int, fontScale: real, stripHeight: int)

  /** The three tiers, as `draw_bbox` selects them from the image height. */
  function StyleFor(imageHeight: int): (style: LabelStyle)
    ensures style.thickness > 0 && style.fontScale > 0.0 && style.stripHeight > 0
  {
    LabelStyle(
      if imageHeight < 1000 then 2 else if imageHeight < 2000 then 3 else 6,
      if imageHeight < 1000 then 0.8 else if imageHeight < 2000 then 2.0 else 3.0,
      if imageHeight < 1000 then 20 else if imageHeight < 2000 then 70 else 150)
  }

  /** The same tiers as an ordered table: the first row whose bound exceeds the height applies. */
  const StyleTable: seq<(int, LabelStyle)> := [(1000, LabelStyle(2, 0.8, 20)), (2000, LabelStyle(3, 2.0, 70))]
  const LargestStyle: LabelStyle := LabelStyle(6, 3.0, 150)

  function LookupStyle(table: seq<(int, LabelStyle)>, fallback: LabelStyle, imageHeight: int): LabelStyle
  {
    if table == [] then fallback
    else if imageHeight < table[0].0 then table[0].1
    else LookupStyle(table[1..], fallback, imageHeight)
  }

  /** The nested conditionals of `draw_bbox` pick exactly the row the table picks. */
  lemma StyleMatchesTable(imageHeight: int)
    ensures StyleFor(imageHeight) == LookupStyle(StyleTable, LargestStyle, imageHeight)
  {
    var rest := StyleTable[1..];
    assert rest == [(2000, LabelStyle(3, 2.0, 70))] && rest[1..] == [];
    if imageHeight >= 1000 {
      assert LookupStyle(StyleTable, LargestStyle, imageHeight) == LookupStyle(rest, LargestStyle, imageHeight);
      if imageHeight >= 2000 {
        assert LookupStyle(rest, LargestStyle, imageHeight) == LookupStyle([], LargestStyle, imageHeight);
      }
    }
  }

  /** A taller image never gets a thinner stroke, a smaller font or a lower strip. */
  lemma StyleMonotone(h1: int, h2: int)
    requires h1 <= h2
    ensures StyleFor(h1).thickness <= StyleFor(h2).thickness
    ensures StyleFor(h1).fontScale <= StyleFor(h2).fontScale
    ensures StyleFor(h1).stripHeight <= StyleFor(h2).stripHeight
  {
  }

  /**
   * Where the label strip goes, stated case by case: directly above the box top
   * when it starts at or below the image top and the box top is within the
   * image; otherwise directly below the box when that fits in the image; and
   * otherwise ending at the box bottom.  The result is `(top, bottom)`.
   */
  function StripSpan(y1: int, y2: int, stripHeight: int, imageHeight: int): (span: (int, int))
    ensures span.1 - span.0 == stripHeight
    ensures 0 <= y1 <= y2 <= imageHeight ==> span.1 <= imageHeight
    ensures span.1 == y1 || span.0 == y2 || span.1 == y2
  {
    if y1 - stripHeight >= 0 && y1 <= imageHeight then (y1 - stripHeight, y1)
    else if y1 - stripHeight < 0 && y2 + stripHeight <= imageHeight then (y2, y2 + stripHeight)
    else (y2 - stripHeight, y2)
  }

  /** For a box inside an image at least two strips tall, the strip is inside the image too. */
  lemma StripWithinImage(y1: int, y2: int, stripHeight: int, imageHeight: int)
    requires 0 <= y1 <= y2 <= imageHeight
    requires 0 <= stripHeight && 2 * stripHeight <= imageHeight
    ensures 0 <= StripSpan(y1, y2, stripHeight, imageHeight).0
    ensures StripSpan(y1, y2, stripHeight, imageHeight).1 <= imageHeight
  {
  }

  /**
   * Without the two-strip bound the strip can start above the image: on a
   * 25-pixel image a box from row 0 to row 10 has no room above or below.
   */
  lemma StripAboveSmallImage()
    ensures StyleFor(25).stripHeight == 20
    ensures StripSpan(0, 10, 20, 25) == (-10, 10)
  {
  }

  /** A box touching the image's top edge gets its strip directly below it, when that fits. */
  lemma TopEdgeBoxStripBelow(y2: int, stripHeight: int, imageHeight: int)
    requires 0 < stripHeight && 0 <= y2 && y2 + stripHeight <= imageHeight
    ensures StripSpan(0, y2, stripHeight, imageHeight) == (y2, y2 + stripHeight)
  {
  }

  /** The colour used: the caller's when one is given, otherwise the randomly drawn one. */
  function ChosenColor(color: Option<Color>, randomColor: Color): (c: Color)
    ensures color.Some? ==> c == color.value
    ensures color.None? ==> c == randomColor
  {
    if color.Some? then color.value else randomColor
  }

  /**
   * The commands `draw_bbox` issues on an image `imageHeight` pixels tall: always
   * the five-pixel outline first; without a label nothing else.  With a label,
   * a filled strip in the box colour spanning the box's x-extent and, vertically,
   * the span `StripSpan` places (exactly one strip height), then the label in
   * white, its origin inset from the box's left edge and raised above the
   * strip's bottom edge, inside the strip, in the tier's font scale and thickness.
   */
  function BBoxCommands(b: PixelBox, caption: Option<string>, color: Color, imageHeight: int): (cmds: seq<Command>)
    ensures |cmds| == if caption.None? then 1 else 3
    ensures cmds[0] == Rectangle(Point(b.x1, b.y1), Point(b.x2, b.y2), color, OutlineThickness)
    ensures caption.Some? ==>
      var style := StyleFor(imageHeight);
      var span := StripSpan(b.y1, b.y2, style.stripHeight, imageHeight);
      cmds[1].Rectangle? && cmds[1].thickness == Filled && cmds[1].color == color &&
      cmds[1].pt1.x == b.x1 && cmds[1].pt2.x == b.x2 &&
      cmds[1].pt1.y == span.0 && cmds[1].pt2.y == span.1 &&
      cmds[1].pt2.y - cmds[1].pt1.y == style.stripHeight &&
      cmds[2].PutText? && cmds[2].text == caption.value && cmds[2].color == TextColor &&
      cmds[2].org.x == b.x1 + TextInsetX && cmds[2].org.y == cmds[1].pt2.y - TextRaiseY &&
      cmds[1].pt1.y < cmds[2].org.y < cmds[1].pt2.y &&
      cmds[2].font == FontHersheySimplex && cmds[2].lineType == TextLineType &&
      cmds[2].fontScale == style.fontScale && cmds[2].thickness == style.thickness
  {
    var outline := Rectangle(Point(b.x1, b.y1), Point(b.x2, b.y2), color, OutlineThickness);
    if caption.None? then [outline]
    else
      var style := StyleFor(imageHeight);
      var span := StripSpan(b.y1, b.y2, style.stripHeight, imageHeight);
      [outline,
       Rectangle(Point(b.x1, span.0), Point(b.x2, span.1), color, Filled),
       PutText(caption.value, Point(b.x1 + TextInsetX, span.1 - TextRaiseY), FontHersheySimplex,
               style.fontScale, TextColor, style.thickness, TextLineType)]
  }

  /** An image buffer, seen through its height and the drawing done on it so far. */
  class Image {
    /** `img.shape[0]`: the number of pixel rows. */
    const height: nat
    /** Every drawing command issued on this image, oldest first. */
    var drawn: seq<Command>

    constructor (height: nat)
      ensures this.height == height && drawn == []
    {
      this.height := height;
      drawn := [];
    }
  }

  /**
   * Draw `b` on `img`, labelled with `caption` if one is given, in `color` or,
   * without one, in `randomColor` (the model's stand-in for the randomly
   * drawn colour).  The strip is placed by two checks in order:
   * move it below the box if it would start above the image; then end it at
   * the box bottom if its bottom is past the image.
   */
  method DrawBBox(img: Image, b: PixelBox, caption: Option<string>, color: Option<Color>, randomColor: Color)
    modifies img
    ensures img.drawn == old(img.drawn) + BBoxCommands(b, caption, ChosenColor(color, randomColor), img.height)
  {
    var c := ChosenColor(color, randomColor);
    img.drawn := img.drawn + [Rectangle(Point(b.x1, b.y1), Point(b.x2, b.y2), c, OutlineThickness)];
    if caption.Some? {
      var style := StyleFor(img.height);
      var labelY1 := b.y1 - style.stripHeight;
      var labelY2 := b.y1;
      if labelY1 < 0 {
        labelY1 := b.y2;
        labelY2 := b.y2 + style.stripHeight;
      }
      if labelY2 > img.height {
        labelY1 := b.y2 - style.stripHeight;
        labelY2 := b.y2;
      }
      img.drawn := img.drawn + [
        Rectangle(Point(b.x1, labelY1), Point(b.x2, labelY2), c, Filled),
        PutText(caption.value, Point(b.x1 + TextInsetX, labelY2 - TextRaiseY), FontHersheySimplex,
                style.fontScale, TextColor, style.thickness, TextLineType)];
    }
  }
}
