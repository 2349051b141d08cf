/** Axis-aligned bounding boxes and the one intersection test every collision check of the game uses. */
module Geometry {

  /** A rectangle given by its top-left corner and its size; y grows downwards, as on the canvas. */
  datatype Box = Box(x: real, y: real, w: real, h: real)

  /** Strict overlap of two boxes: touching edges do not count. */
  predicate Overlap(a: Box, b: Box) {
    a.x < b.x + b.w && a.x + a.w > b.x && a.y < b.y + b.h && a.y + a.h > b.y
  }
}
