# cv-utils `utils.py` in Dafny

A model of the two functions in `utils.py` that make up this small computer-vision
utility module:

- `build_lst_record` writes one line of a dataset-list (`.lst`) file. A detection
  record is the index, the header `[4, 5, w, h]`, then per box its class id and its
  box normalised by the image width and height and clipped to [0, 1], then the image
  path. A classification record is the index, the class ids and the path. All fields
  are joined by tabs.
- `draw_bbox` outlines a box on an image in place. When a label is given, it also
  picks a stroke thickness, font scale and strip height from the image height (three
  tiers). It places a label strip above the box, below it, or ending at the box bottom,
  and fills the strip and writes the label on it.

Modules:

- `Wrappers` (`wrappers.dfy`): `Option`, for arguments that may be `None`.
- `Boxes` (`boxes.dfy`): the pixel box `(xmin, ymin, xmax, ymax)`.
- `Decimal` (`decimal.dfy`): Python's `str` of an integer, with its inverse.
- `Delimited` (`delimited.dfy`): `'\t'.join` and `str.split`, with the round trip between them.
- `LstRecord` (`lst_record.dfy`): `build_lst_record`.
  - The record is a sequence of typed fields. Label values are exact `real`s.
  - The line is the tab-join of the fields' renderings. Integers render exactly; a
    float is rendered by a caller-supplied function `showReal`.
- `BoxDrawing` (`box_drawing.dfy`): `draw_bbox`.
  - The image is a class `Image` with its height and the log of drawing commands issued
    on it.
  - `DrawBBox` changes that log in place. It uses the same two sequential `if`s as the
    source, and is proved equal to the case-by-case placement rule `StripSpan`.

Points of the code worth stating explicitly:

- Class ids are converted to floats before they are written, so a record holds `3.0`, not
  `3`, for class 3. For detection records this is the `.astype('float')` after the
  `np.hstack` (utils.py:32); for classification records it is
  `np.array(cids).astype('float')` (utils.py:36).
- The code has no explicit input validation and reports no error of its own (no
  invalid-input error is raised for bad dimensions or mismatched lists). What it needs
  is stated as preconditions:
  - `w != 0` and `h != 0`;
  - one class id per box (otherwise `np.hstack` fails);
  - at least one box in a detection record. With an empty box list, `np.array([])` is
    one-dimensional and `bboxes[:, (0, 2)]` raises.
- After the strip has been placed above the box, the code still checks whether the
  strip's bottom is past the image. So a box whose top is below the image also gets its
  strip ending at the box bottom.

## Model

| member | source | states |
|---|---|---|
| `Decimal.NatToDecimal` | utils.py:23 | a rendered count is a non-empty digit string that starts with '0' exactly when the number is zero (no leading zeros) |
| `Decimal.DigitsValueOfDecimal` | utils.py:23 | reading the digits back gives the number rendered |
| `Decimal.IntToDecimal` | utils.py:40 | `str(idx)`: a leading '-' exactly for negatives; every other character is a digit (so never a tab) |
| `Decimal.IntToDecimalRoundTrip` | utils.py:40 | the index and header integers written into the line can be read back exactly |
| `LstRecord.Clip01` | utils.py:29 | `np.clip` to [0, 1]: the result is in [0, 1], equals the input when the input is already there, and is otherwise the bound on the input's side |
| `LstRecord.Clip01Nearest` | utils.py:29 | no point of [0, 1] is nearer the input than its clipped value |
| `Delimited.SplitJoin` | utils.py:40 | splitting the tab-joined line at tabs returns exactly the joined fields when none holds a tab |
| `Delimited.Join` | utils.py:40 | `'\t'.join`: the line starts with the first part followed by a tab and ends with a tab followed by the last part; with `SplitJoin`, splitting it returns the parts |
| `LstRecord.NormalizeCoord` | utils.py:26-29 | a normalised coordinate is in [0, 1]; for a positive extent it is 0 at or left of the origin, 1 at or past the extent, and inside the image multiplying by the extent gives back the pixel |
| `LstRecord.NormalizeBox` | utils.py:26-29 | four values, all in [0, 1]; columns 0 and 2 are fractions of the width, 1 and 3 of the height, each coordinate on its own: one within its axis is recovered exactly by multiplying back, even when another coordinate of the box lies outside the image; coordinates outside saturate at 0 or 1 |
| `LstRecord.BoxLabel` | utils.py:32 | one stacked row: five floats, the class id unclipped, then the box's four normalised coordinates in column order, each in [0, 1] |
| `LstRecord.DetectionLabels` | utils.py:32 | the stacked id and box columns flatten to 5 values per box, all floats |
| `LstRecord.DetectionLabelsAt` | utils.py:39 | box i owns label positions 5i..5i+4, in input order: its class id, then its normalised box |
| `LstRecord.ClassificationLabels` | utils.py:36 | one label per class id, equal to that id as a float, in input order |
| `LstRecord.BuildRecord` | utils.py:17-40 | the index comes first and the path last, and only the last field is the path. A detection record has header `[4, 5, w, h]` and 6 + 5n fields. A classification record has no header, 2 + n fields, and field 1 + i is class id i |
| `LstRecord.DetectionRecordBox` | utils.py:26-39 | in a detection record, fields 5 + 5i .. 9 + 5i are exactly box i's class id, unclipped, followed by its four normalised coordinates |
| `LstRecord.DetectionRecordCoordinatesInUnitRange` | utils.py:29 | every coordinate field of a detection record lies in [0, 1], even for boxes outside the image |
| `LstRecord.RenderField` | utils.py:40 | `str` of one field: an integer field (index, header value) reads back as its value, a float field is the caller's float rendering, the path is written unchanged |
| `LstRecord.RenderAll` | utils.py:40 | the `str` of every field, one per field, in record order |
| `LstRecord.RecordLine` | utils.py:40 | the tab-join of the rendered fields: the first field and a tab at the front, a tab and the last field at the end |
| `LstRecord.BuildLine` | utils.py:40-41 | the returned string begins with `str(idx)` and a tab and ends with a tab and the image path (its field count is `LineFieldCount`) |
| `LstRecord.RecordLineSplits` | utils.py:40 | the returned line splits at tabs into exactly the rendered fields, when the path and float renderings hold no tab |
| `LstRecord.LineFieldCount` | utils.py:40 | the line has 6 + 5n tab-separated fields for detection and 2 + n for classification, beginning with `str(idx)` and ending with the image path |
| `LstRecord.SingleBoxExample` | utils.py:17-40 | box (10, 20, 50, 80), class 3, on a 100x200 image gives `0, 4, 5, 100, 200, 3.0, 0.1, 0.1, 0.5, 0.4, a.jpg` |
| `BoxDrawing.StyleFor` | utils.py:53-55 | every tier has a positive thickness, font scale and strip height |
| `BoxDrawing.StyleMatchesTable` | utils.py:53-55 | the three conditionals agree with the ordered table: below 1000 → (2, 0.8, 20); below 2000 → (3, 2, 70); else (6, 3, 150) |
| `BoxDrawing.StyleMonotone` | utils.py:53-55 | a taller image never gets a smaller thickness, font scale or strip height |
| `BoxDrawing.StripSpan` | utils.py:56-63 | the strip is exactly one strip height tall; it ends at the box top, starts at the box bottom, or ends at the box bottom; for a box inside the image its bottom is within the image |
| `BoxDrawing.StripWithinImage` | utils.py:56-63 | for a box inside an image at least two strip heights tall, the whole strip is inside the image |
| `BoxDrawing.StripAboveSmallImage` | utils.py:56-63 | on a 25-pixel image, a box at rows 0..10 gets the strip (-10, 10), so the two-strip bound above is needed |
| `BoxDrawing.TopEdgeBoxStripBelow` | utils.py:58-60 | a box touching the image's top edge gets its strip directly below it when the strip fits there |
| `BoxDrawing.ChosenColor` | utils.py:46-47 | the caller's colour when one is given, otherwise the randomly drawn one |
| `BoxDrawing.BBoxCommands` | utils.py:49-66 | the outline (thickness 5) comes first; without a label nothing follows. With a label it is followed by a filled strip in the box colour over [x1, x2], vertically at exactly the span `StripSpan` places (one strip height), then the white label in the simplex font, line type 1, at (x1 + 5, strip bottom - 2), strictly inside the strip, in the tier's font scale and thickness |
| `BoxDrawing.Image.constructor` | utils.py:53 | the image, seen through `img.shape[0]` and the commands drawn on it, starts with no commands |
| `BoxDrawing.DrawBBox` | utils.py:44-66 | the image's drawing log grows by exactly the commands of the outline, strip and text. The strip is placed by the two ordered checks and lands where `StripSpan` says. The colour is the caller's or else the random one |

## Left out

- The pixels that `cv2.rectangle` and `cv2.putText` change. These are library calls, so the model records the commands and their arguments instead.
- `random.randint` for the default colour. It becomes the parameter `randomColor` of `DrawBBox`.
- How Python formats a float as text. Label values are exact reals, and their text comes from the parameter `showReal`.
- IEEE float behaviour: rounding in the division, and the `inf`/`nan` that a zero width or height would produce. The model requires non-zero dimensions.
- Image width and channel count. `draw_bbox` reads only `img.shape[0]`.
- Non-integer or nested inputs that numpy would accept. Boxes are integer pixel boxes and class ids are integers.
- Converting normalised boxes back to pixels, and a general scalar clamp. utils.py contains neither; the only clamp is `np.clip` to [0, 1], modelled by `Clip01`.
