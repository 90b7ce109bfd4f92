/**
 * One line of a dataset-list (.lst) file, as `build_lst_record` in utils.py
 * builds it: the record index, a header, the flattened labels and the image
 * path, joined by tabs.
 *
 * A record is modelled as a sequence of typed fields; label values are exact
 * reals (the source's floats), and the line itself is the tab-join of the
 * fields' renderings.  Integers render as Python's `str(int)`; how a float is
 * rendered is left to the caller-supplied `showReal`.
 */
module LstRecord {
  import opened Wrappers
  import opened Boxes
  import opened Decimal
  import opened Delimited

  /** One tab-separated field of a record. */
  datatype Field =
    | IntField(n: int)        // `str` of an int: the index and the header values
    | RealField(x: real)      // `str` of a float: every label value
    | PathField(path: string) // the image path, written as given

  /** Header length and per-box label length of a detection record. */
  const DetectionHeaderLength: int := 4
  const BoxLabelLength: int := 5

  const Tab: char := '\t'

  function Abs(x: real): real
  {
    if x < 0.0 then -x else x
  }

  /** `np.clip(x, 0., 1.)` on one value: `x` itself when it is in [0, 1], otherwise the nearer bound. */
  function Clip01(x: real): (r: real)
    ensures 0.0 <= r <= 1.0
    ensures 0.0 <= x <= 1.0 ==> r == x
    ensures x < 0.0 ==> r == 0.0
    ensures x > 1.0 ==> r == 1.0
  {
    if x < 0.0 then 0.0 else if x > 1.0 then 1.0 else x
  }

  /** No point of [0, 1] is closer to `x` than its clipped value. */
  lemma Clip01Nearest(x: real, y: real)
    requires 0.0 <= y <= 1.0
    ensures Abs(Clip01(x) - x) <= Abs(y - x)
  {
  }

  /**
   * A pixel coordinate divided by the image extent along its axis, then clipped.
   * Inside the image the result is the exact fraction (multiplying back by the
   * extent recovers the pixel); outside it saturates at 0 or 1.
   */
  function NormalizeCoord(v: int, extent: int): (r: real)
    requires extent != 0
    ensures 0.0 <= r <= 1.0
    ensures extent > 0 && v <= 0 ==> r == 0.0
    ensures extent > 0 && v >= extent ==> r == 1.0
    ensures extent > 0 && 0 <= v <= extent ==> r * extent as real == v as real
  {
    Clip01(v as real / extent as real)
  }

  /**
   * The normalised box of a detection record: columns 0 and 2 scaled by the
   * width, columns 1 and 3 by the height, all clipped to [0, 1].  Each
   * coordinate is treated on its own: one that lies within its axis is the exact
   * fraction even when another coordinate of the box lies outside the image.
   */
  function NormalizeBox(b: PixelBox, w: int, h: int): (nb: seq<real>)
    requires w != 0 && h != 0
    ensures |nb| == 4
    ensures forall k :: 0 <= k < 4 ==> 0.0 <= nb[k] <= 1.0
    ensures w > 0 && 0 <= b.x1 <= w ==> nb[0] * w as real == b.x1 as real
    ensures h > 0 && 0 <= b.y1 <= h ==> nb[1] * h as real == b.y1 as real
    ensures w > 0 && 0 <= b.x2 <= w ==> nb[2] * w as real == b.x2 as real
    ensures h > 0 && 0 <= b.y2 <= h ==> nb[3] * h as real == b.y2 as real
    ensures w > 0 && h > 0 ==>
      (b.x1 >= w ==> nb[0] == 1.0) && (b.y1 >= h ==> nb[1] == 1.0) &&
      (b.x2 >= w ==> nb[2] == 1.0) && (b.y2 >= h ==> nb[3] == 1.0) &&
      (b.x1 <= 0 ==> nb[0] == 0.0) && (b.y1 <= 0 ==> nb[1] == 0.0) &&
      (b.x2 <= 0 ==> nb[2] == 0.0) && (b.y2 <= 0 ==> nb[3] == 0.0)
  {
    [NormalizeCoord(b.x1, w), NormalizeCoord(b.y1, h), NormalizeCoord(b.x2, w), NormalizeCoord(b.y2, h)]
  }

  /** The five label values one box contributes: its class id, then its normalised box. */
  function BoxLabel(cid: int, b: PixelBox, w: int, h: int): (fields: seq<Field>)
    requires w != 0 && h != 0
    ensures |fields| == BoxLabelLength
    ensures fields[0] == RealField(cid as real)
    ensures forall k :: 1 <= k < 5 ==> fields[k] == RealField(NormalizeBox(b, w, h)[k - 1])
    ensures forall k :: 1 <= k < 5 ==> fields[k].RealField? && 0.0 <= fields[k].x <= 1.0
  {
    var nb := NormalizeBox(b, w, h);
    [RealField(cid as real), RealField(nb[0]), RealField(nb[1]), RealField(nb[2]), RealField(nb[3])]
  }

  /** The id column stacked beside the box columns, flattened row by row. */
  function DetectionLabels(boxes: seq<PixelBox>, cids: seq<int>, w: int, h: int): (labels: seq<Field>)
    requires w != 0 && h != 0 && |boxes| == |cids|
    ensures |labels| == BoxLabelLength * |boxes|
    ensures forall i :: 0 <= i < |labels| ==> labels[i].RealField?
    decreases |boxes|
  {
    if boxes == [] then []
    else BoxLabel(cids[0], boxes[0], w, h) + DetectionLabels(boxes[1..], cids[1..], w, h)
  }

  /** Box `i` owns label positions `5*i .. 5*i+4`, in input order. */
  lemma {:induction false} DetectionLabelsAt(boxes: seq<PixelBox>, cids: seq<int>, w: int, h: int, i: nat)
    requires w != 0 && h != 0 && |boxes| == |cids|
    requires i < |boxes|
    ensures 5 * i + 5 <= |DetectionLabels(boxes, cids, w, h)|
    ensures DetectionLabels(boxes, cids, w, h)[5 * i .. 5 * i + 5] == BoxLabel(cids[i], boxes[i], w, h)
    decreases i
  {
    var labels := DetectionLabels(boxes, cids, w, h);
    var rest := DetectionLabels(boxes[1..], cids[1..], w, h);
    assert labels == BoxLabel(cids[0], boxes[0], w, h) + rest;
    if i > 0 {
      DetectionLabelsAt(boxes[1..], cids[1..], w, h, i - 1);
      assert labels[5 * i .. 5 * i + 5] == rest[5 * (i - 1) .. 5 * (i - 1) + 5];
    }
  }

  /** The labels of a classification record: each class id as a float, in order. */
  function ClassificationLabels(cids: seq<int>): (labels: seq<Field>)
    ensures |labels| == |cids|
    ensures forall i :: 0 <= i < |cids| ==> labels[i] == RealField(cids[i] as real)
  {
    if cids == [] then [] else [RealField(cids[0] as real)] + ClassificationLabels(cids[1..])
  }

  /**
   * What `build_lst_record` needs of a detection call: dimensions it can divide
   * by, one class id per box, and at least one box (an empty box list is a
   * one-dimensional array that the column selection rejects).
   */
  predicate DetectionInput(boxes: seq<PixelBox>, cids: seq<int>, w: int, h: int)
  {
    w != 0 && h != 0 && |boxes| == |cids| && |boxes| > 0
  }

  /**
   * The fields of the record: index, header, labels, image path.  Detection
   * records (`boxes` given) carry the header `[4, 5, w, h]` and five labels per
   * box; classification records have no header and one label per class id.
   */
  function BuildRecord(imgPath: string, w: int, h: int, boxes: Option<seq<PixelBox>>, cids: seq<int>, idx: int)
    : (record: seq<Field>)
    requires boxes.Some? ==> DetectionInput(boxes.value, cids, w, h)
    ensures |record| >= 2
    ensures record[0] == IntField(idx) && record[|record| - 1] == PathField(imgPath)
    ensures forall i :: 0 <= i < |record| - 1 ==> !record[i].PathField?
    ensures boxes.Some? ==> |record| == 2 + DetectionHeaderLength + BoxLabelLength * |cids|
    ensures boxes.Some? ==>
      record[1..5] == [IntField(DetectionHeaderLength), IntField(BoxLabelLength), IntField(w), IntField(h)]
    ensures boxes.None? ==> |record| == 2 + |cids|
    ensures boxes.None? ==> forall i :: 0 <= i < |cids| ==> record[1 + i] == RealField(cids[i] as real)
  {
    var header :=
      if boxes.Some? then [IntField(DetectionHeaderLength), IntField(BoxLabelLength), IntField(w), IntField(h)]
      else [];
    var labels :=
      if boxes.Some? then DetectionLabels(boxes.value, cids, w, h) else ClassificationLabels(cids);
    [IntField(idx)] + header + labels + [PathField(imgPath)]
  }

  /**
   * In a detection record, box `i` occupies fields `5 + 5*i .. 9 + 5*i`: its class
   * id, unclipped, then its four normalised coordinates, each in [0, 1].
   */
  lemma DetectionRecordBox(imgPath: string, w: int, h: int, boxes: seq<PixelBox>, cids: seq<int>, idx: int, i: nat)
    requires DetectionInput(boxes, cids, w, h)
    requires i < |boxes|
    ensures 10 + 5 * i <= |BuildRecord(imgPath, w, h, Some(boxes), cids, idx)|
    ensures BuildRecord(imgPath, w, h, Some(boxes), cids, idx)[5 + 5 * i .. 10 + 5 * i] ==
      [RealField(cids[i] as real)] + seq(4, k requires 0 <= k < 4 => RealField(NormalizeBox(boxes[i], w, h)[k]))
  {
    var record := BuildRecord(imgPath, w, h, Some(boxes), cids, idx);
    var labels := DetectionLabels(boxes, cids, w, h);
    var front := [IntField(idx), IntField(DetectionHeaderLength), IntField(BoxLabelLength), IntField(w), IntField(h)];
    assert record == front + labels + [PathField(imgPath)];
    DetectionLabelsAt(boxes, cids, w, h, i);
    assert record[5 + 5 * i .. 10 + 5 * i] == labels[5 * i .. 5 * i + 5];
  }

  /**
   * Every field of a detection record other than the index, the header, the
   * class ids and the path is a coordinate in [0, 1], whatever the pixel boxes.
   */
  lemma DetectionRecordCoordinatesInUnitRange(
    imgPath: string, w: int, h: int, boxes: seq<PixelBox>, cids: seq<int>, idx: int, j: nat)
    requires DetectionInput(boxes, cids, w, h)
    requires 5 <= j < 5 + BoxLabelLength * |boxes|
    requires (j - 5) % 5 != 0
    ensures BuildRecord(imgPath, w, h, Some(boxes), cids, idx)[j].RealField?
    ensures 0.0 <= BuildRecord(imgPath, w, h, Some(boxes), cids, idx)[j].x <= 1.0
  {
    var record := BuildRecord(imgPath, w, h, Some(boxes), cids, idx);
    var i := (j - 5) / 5;
    DetectionRecordBox(imgPath, w, h, boxes, cids, idx, i);
    var nb := NormalizeBox(boxes[i], w, h);
    var k := j - 5 - 5 * i - 1;
    assert 0 <= k < 4;
    assert record[j] == record[5 + 5 * i .. 10 + 5 * i][k + 1] == RealField(nb[k]);
  }

  /**
   * `str` of one field: an integer field reads back as its value, a float field
   * is whatever `showReal` writes, and the path is written unchanged.
   */
  function RenderField(f: Field, showReal: real -> string): (text: string)
    ensures f.IntField? ==> IsIntLiteral(text) && ParseInt(text) == f.n
    ensures f.RealField? ==> text == showReal(f.x)
    ensures f.PathField? ==> text == f.path
  {
    IntToDecimalRoundTrip(if f.IntField? then f.n else 0);
    match f
    case IntField(n) => IntToDecimal(n)
    case RealField(x) => showReal(x)
    case PathField(p) => p
  }

  /** The `str` of each field, in record order. */
  function RenderAll(record: seq<Field>, showReal: real -> string): (texts: seq<string>)
    ensures |texts| == |record|
    ensures forall i :: 0 <= i < |record| ==> texts[i] == RenderField(record[i], showReal)
  {
    if record == [] then [] else [RenderField(record[0], showReal)] + RenderAll(record[1..], showReal)
  }

  /** No rendering of a real number contains a tab. */
  ghost predicate TabFree(showReal: real -> string)
  {
    forall x :: Tab !in showReal(x)
  }

  /** No path field of the record contains a tab. */
  ghost predicate PathsTabFree(record: seq<Field>)
  {
    forall i :: 0 <= i < |record| && record[i].PathField? ==> Tab !in record[i].path
  }

  /** Integers never render with a tab, so only paths and float renderings could hold one. */
  lemma RenderedFieldsTabFree(record: seq<Field>, showReal: real -> string)
    ensures TabFree(showReal) && PathsTabFree(record) ==>
      forall i :: 0 <= i < |record| ==> Tab !in RenderAll(record, showReal)[i]
  {
    if TabFree(showReal) && PathsTabFree(record) {
      var texts := RenderAll(record, showReal);
      forall i | 0 <= i < |texts|
        ensures Tab !in texts[i]
      {
        match record[i]
        case IntField(n) =>
          var digits := IntToDecimal(n);
          assert forall k :: 0 <= k < |digits| ==> digits[k] != Tab;
        case RealField(x) =>
        case PathField(p) =>
      }
    }
  }

  /** `'\t'.join(...)` of the rendered fields: the first field, a tab, ..., a tab, the last field. */
  function RecordLine(record: seq<Field>, showReal: real -> string): (line: string)
    ensures |record| > 1 ==> RenderField(record[0], showReal) + [Tab] <= line
    ensures |record| > 1 ==>
      var last := RenderField(record[|record| - 1], showReal);
      |last| + 1 <= |line| && line[|line| - |last| - 1..] == [Tab] + last
  {
    Join(RenderAll(record, showReal), Tab)
  }

  /** The line `build_lst_record` returns: `str(idx)` and a tab first, a tab and the image path last. */
  function BuildLine(imgPath: string, w: int, h: int, boxes: Option<seq<PixelBox>>, cids: seq<int>, idx: int,
                     showReal: real -> string): (line: string)
    requires boxes.Some? ==> DetectionInput(boxes.value, cids, w, h)
    ensures IntToDecimal(idx) + [Tab] <= line
    ensures |imgPath| + 1 <= |line| && line[|line| - |imgPath| - 1..] == [Tab] + imgPath
  {
    var record := BuildRecord(imgPath, w, h, boxes, cids, idx);
    assert RenderField(record[0], showReal) == IntToDecimal(idx);
    assert RenderField(record[|record| - 1], showReal) == imgPath;
    RecordLine(record, showReal)
  }

  /**
   * Splitting the line at tabs gives back exactly the rendered fields, as long
   * as the image path and the float renderings hold no tab.
   */
  lemma RecordLineSplits(record: seq<Field>, showReal: real -> string)
    requires |record| > 0 && TabFree(showReal) && PathsTabFree(record)
    ensures Split(RecordLine(record, showReal), Tab) == RenderAll(record, showReal)
  {
    RenderedFieldsTabFree(record, showReal);
    SplitJoin(RenderAll(record, showReal), Tab);
  }

  /**
   * The line has `1 + |header| + |labels| + 1` tab-separated fields:
   * `6 + 5n` for a detection record of n boxes, `2 + n` for a classification
   * record of n class ids.
   */
  lemma LineFieldCount(imgPath: string, w: int, h: int, boxes: Option<seq<PixelBox>>, cids: seq<int>, idx: int,
                       showReal: real -> string)
    requires boxes.Some? ==> DetectionInput(boxes.value, cids, w, h)
    requires Tab !in imgPath && TabFree(showReal)
    ensures var fields := Split(BuildLine(imgPath, w, h, boxes, cids, idx, showReal), Tab);
      (boxes.Some? ==> |fields| == 6 + 5 * |cids|) && (boxes.None? ==> |fields| == 2 + |cids|)
    ensures var fields := Split(BuildLine(imgPath, w, h, boxes, cids, idx, showReal), Tab);
      fields[0] == IntToDecimal(idx) && fields[|fields| - 1] == imgPath
  {
    var record := BuildRecord(imgPath, w, h, boxes, cids, idx);
    RecordLineSplits(record, showReal);
  }

  /** A 100x200 image with one box of class 3 at (10, 20, 50, 80). */
  lemma SingleBoxExample()
    ensures BuildRecord("a.jpg", 100, 200, Some([PixelBox(10, 20, 50, 80)]), [3], 0) ==
      [IntField(0), IntField(4), IntField(5), IntField(100), IntField(200),
       RealField(3.0), RealField(0.1), RealField(0.1), RealField(0.5), RealField(0.4), PathField("a.jpg")]
  {
  }
}
