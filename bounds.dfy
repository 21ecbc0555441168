/** The bounds window: the range of document offsets inside which no edge
    resistance applies. */
module BoundsWindow {

  datatype Window = Window(minX: real, minY: real, maxX: real, maxY: real)

  /** updateMinMax: the window for a viewport of `width` x `height`, a
      document of `docWidth` x `docHeight`, a margin and the vast-scrolling
      factor, which lets the viewport travel that fraction of its own size
      past each document edge. */
  function Compute(width: real, height: real, docWidth: int, docHeight: int, margin: int, factor: real): (w: Window)
    ensures w.maxX - w.minX == docWidth as real - width + 2.0 * (width * factor) + 2.0 * margin as real
    ensures w.maxY - w.minY == docHeight as real - height + 2.0 * (height * factor) + 2.0 * margin as real
  {
    Window(-(width * factor) - margin as real,
           -(height * factor) - margin as real,
           (docWidth as real + width * factor) - width + margin as real,
           (docHeight as real + height * factor) - height + margin as real)
  }

  /** A window empty of extent on some axis; the state before the first
      computation (all four bounds zero) is one. */
  predicate Degenerate(w: Window) {
    w.minX == w.maxX || w.minY == w.maxY
  }

  /** The window is ordered on an axis exactly when the document, widened by
      the overscroll and the margin on both sides, is at least the viewport. */
  lemma OrderedIff(width: real, height: real, docWidth: int, docHeight: int, margin: int, factor: real)
    ensures var w := Compute(width, height, docWidth, docHeight, margin, factor);
      (w.minX <= w.maxX <==> docWidth as real + 2.0 * (width * factor) + 2.0 * margin as real >= width) &&
      (w.minY <= w.maxY <==> docHeight as real + 2.0 * (height * factor) + 2.0 * margin as real >= height)
  {
  }

  /** With a document at least as large as the viewport and non-negative
      factor and margin, the window is ordered and contains the origin. */
  lemma OrderedWhenDocumentCovers(width: real, height: real, docWidth: int, docHeight: int, margin: int, factor: real)
    requires 0.0 <= width <= docWidth as real && 0.0 <= height <= docHeight as real
    requires 0 <= margin && 0.0 <= factor
    ensures var w := Compute(width, height, docWidth, docHeight, margin, factor);
      w.minX <= 0.0 <= w.maxX && w.minY <= 0.0 <= w.maxY
  {
    assert 0.0 <= width * factor;
    assert 0.0 <= height * factor;
  }
}
