/** Pixel-space bounding boxes, as both functions of utils.py receive them. */
module Boxes {

  /** A box `(xmin, ymin, xmax, ymax)` in pixels, origin at the top-left corner. */
  datatype PixelBox = PixelBox(x1: int, y1: int, x2: int, y2: int)
}
