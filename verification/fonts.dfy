/**
 * What the layout reads from a FontAtlas: the font's per-character metrics
 * and descent, and the atlas's entry for each character. Rasterising and
 * packing happen behind `get`, which is memoised, so it is a function here.
 */
module Fonts {
  import opened Vectors

  /** One tuple of `font.metrics`: (min_x, max_x, min_y, max_y, horizontal_advance_x). */
  datatype Metric = Metric(minX: real, maxX: real, minY: real, maxY: real, advance: real)

  /** A backing texture, known by its GL object name `glo`. */
  datatype Texture = Texture(glo: int)

  /** The atlas entry of one character: its texture, UV corners and local quad rows. */
  datatype GlyphEntry = GlyphEntry(tex: Texture, uvs: Corners<Vec2>, verts: Corners<Vec3>)

  /** The loaded font: `metrics(text)` and `get_descent()`. */
  datatype Font = Font(metrics: string -> seq<Metric>, descent: real)

  /** A font together with the texture atlas its glyphs are packed into. */
  datatype FontAtlas = FontAtlas(font: Font, get: char -> GlyphEntry)

  /**
   * `FontAtlas.set_anchor`: moves the glyph's origin to its bottom-left
   * corner by subtracting (w, h, 0) from every vertex row.
   */
  function SetAnchor(verts: seq<Vec3>, w: real, h: real): (r: seq<Vec3>)
    ensures |r| == |verts|
    ensures forall k :: 0 <= k < |verts| ==> r[k].w == verts[k].w
    ensures forall k :: 0 <= k < |verts| ==>
              verts[k].x - r[k].x == w && verts[k].y - r[k].y == h
  {
    seq(|verts|, k requires 0 <= k < |verts| => Shift(verts[k], -w, -h))
  }

  /** Anchoring by (w, h) and then by (-w, -h) gives the rows back. */
  lemma AnchorRoundTrip(verts: seq<Vec3>, w: real, h: real)
    ensures SetAnchor(SetAnchor(verts, w, h), -w, -h) == verts
  {

  }

  /** Two anchorings amount to one by the summed offsets. */
  lemma AnchorCompose(verts: seq<Vec3>, w1: real, h1: real, w2: real, h2: real)
    ensures SetAnchor(SetAnchor(verts, w1, h1), w2, h2) == SetAnchor(verts, w1 + w2, h1 + h2)
  {

  }

  /** Anchoring moves every row by the same amount, so differences between rows are kept. */
  lemma AnchorKeepsExtent(verts: seq<Vec3>, w: real, h: real, a: nat, b: nat)
    requires a < |verts| && b < |verts|
    ensures SetAnchor(verts, w, h)[a].x - SetAnchor(verts, w, h)[b].x == verts[a].x - verts[b].x
    ensures SetAnchor(verts, w, h)[a].y - SetAnchor(verts, w, h)[b].y == verts[a].y - verts[b].y
  {
  }
}
