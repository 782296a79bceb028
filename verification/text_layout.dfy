/**
 * `Label._layout`: turns per-character font metrics and atlas entries into a
 * vertex array (4 rows per glyph), a UV array (4 rows per glyph) and an index
 * array (6 entries per glyph), all drawn from one texture.
 */
module TextLayout {
  import opened Wrappers
  import opened Vectors
  import opened Fonts

  /** The size the atlas rasterises glyphs at; labels scale by fontsize / 48. */
  const BaseSize: real := 48.0

  /** The six-entry index pattern `QUAD` of one quad (two triangles). */
  type IndexPattern = q: seq<nat> | |q| == 6 witness [0, 0, 0, 0, 0, 0]

  /** A pattern that only refers to the four corners of its own quad. */
  predicate PatternLocal(quad: IndexPattern)
  {
    forall j :: 0 <= j < 6 ==> quad[j] < 4
  }

  /** Why `_layout` raises. */
  datatype LayoutError =
    | EmptyMetrics          // no metrics: the advance column cannot be taken (text.py:103)
    | CountMismatch         // metrics count differs from the character count (text.py:109)
    | MultipleTextures      // the characters use other than exactly one texture (text.py:140)

  /** The fields `_layout` assigns together on success. */
  datatype Geometry = Geometry(tex: Texture, verts: seq<Vec3>, uvs: seq<Vec2>, indices: seq<nat>)

  function Advances(metrics: seq<Metric>): (adv: seq<real>)
    ensures |adv| == |metrics|
  {
    seq(|metrics|, i requires 0 <= i < |metrics| => metrics[i].advance)
  }

  /**
   * The x position of glyph i: its min_x bearing plus the advances of
   * glyphs 0 through i, glyph i's own advance included.
   */
  function GlyphOffset(metrics: seq<Metric>, i: nat): (x: real)
    requires i < |metrics|
    ensures x == metrics[i].minX + CumSum(Advances(metrics))[i]
  {
    metrics[i].minX + Sum(Advances(metrics)[..i + 1])
  }

  /** The texture ids met when walking `text` and adding each character's texture to a set. */
  function TexIds(text: string, get: char -> GlyphEntry): (ids: set<int>)
    ensures ids == {} <==> |text| == 0
    ensures |ids| <= |text|
  {
    if |text| == 0 then {}
    else TexIds(text[..|text| - 1], get) + {get(text[|text| - 1]).tex.glo}
  }

  /** The walked set holds exactly the ids of the characters' textures. */
  lemma {:induction false} TexIdsMembers(text: string, get: char -> GlyphEntry)
    ensures forall i :: 0 <= i < |text| ==> get(text[i]).tex.glo in TexIds(text, get)
    ensures forall id :: id in TexIds(text, get) ==> exists i :: 0 <= i < |text| && get(text[i]).tex.glo == id
  {
    if |text| > 0 {
      var init := text[..|text| - 1];
      TexIdsMembers(init, get);
      assert forall i :: 0 <= i < |init| ==> init[i] == text[i];
    }
  }

  /** Every character of `text` resolves to the same texture. */
  predicate SharesOneTexture(text: string, get: char -> GlyphEntry)
  {
    forall i, j :: 0 <= i < |text| && 0 <= j < |text| ==> get(text[i]).tex == get(text[j]).tex
  }

  /** Row k of the vertex array before scaling: corner k % 4 of glyph k / 4, moved onto its place. */
  function PlacedRow(text: string, metrics: seq<Metric>, get: char -> GlyphEntry, descent: real, k: nat): Vec3
    requires |metrics| == |text| && k < 4 * |text|
  {
    Shift(get(text[k / 4]).verts.At(k % 4), GlyphOffset(metrics, k / 4), -descent)
  }

  /** Row k of the UV array: corner k % 4 of glyph k / 4's atlas UVs. */
  function UvRow(text: string, get: char -> GlyphEntry, k: nat): Vec2
    requires k < 4 * |text|
  {
    get(text[k / 4]).uvs.At(k % 4)
  }

  /** Entry k of the index array: the pattern entry k % 6, offset to glyph k / 6's four rows. */
  function IndexEntry(quad: IndexPattern, k: nat): nat
  {
    quad[k % 6] + 4 * (k / 6)
  }

  /**
   * The layout of `text`: failing on an empty metrics list, on a metrics
   * count other than the character count, and on characters spread over
   * other than exactly one texture; otherwise the buffers, with the vertex
   * rows multiplied by diag(fontsize / 48, fontsize / 48, 1).
   */
  function Layout(text: string, metrics: seq<Metric>, get: char -> GlyphEntry,
                  descent: real, fontsize: real, quad: IndexPattern): (r: Result<Geometry, LayoutError>)
    ensures r.Success? ==> && |metrics| == |text|
                           && |r.value.verts| == 4 * |text|
                           && |r.value.uvs| == 4 * |text|
                           && |r.value.indices| == 6 * |text|
  {
    if |metrics| == 0 then Failure(EmptyMetrics)
    else if |metrics| != |text| then Failure(CountMismatch)
    else if |TexIds(text, get)| != 1 then Failure(MultipleTextures)
    else
      var n := |text|;
      var resize := Resize(fontsize / BaseSize);
      Success(Geometry(
        get(text[n - 1]).tex,
        seq(4 * n, k requires 0 <= k < 4 * n => MulRow(PlacedRow(text, metrics, get, descent, k), resize)),
        seq(4 * n, k requires 0 <= k < 4 * n => UvRow(text, get, k)),
        seq(6 * n, k requires 0 <= k < 6 * n => IndexEntry(quad, k))))
  }

  /** Row 4i + j of a four-row-per-glyph array is corner j of glyph i. */
  lemma QuadRow(i: nat, j: nat)
    requires j < 4
    ensures (4 * i + j) / 4 == i && (4 * i + j) % 4 == j
  {
  }

  /** Entry 6i + j of a six-entry-per-glyph array is entry j of glyph i's block. */
  lemma IndexSlot(i: nat, j: nat)
    requires j < 6
    ensures (6 * i + j) / 6 == i && (6 * i + j) % 6 == j
  {
  }

  /** Walking one more character adds that character's texture id to the set. */
  lemma TexIdsStep(text: string, get: char -> GlyphEntry, i: nat)
    requires i < |text|
    ensures TexIds(text[..i + 1], get) == TexIds(text[..i], get) + {get(text[i]).tex.glo}
  {
    assert text[..i + 1][..i] == text[..i];
  }

  /** The running sum at glyph i, added to its bearing, is glyph i's offset. */
  lemma CursorIsOffset(metrics: seq<Metric>, cx: seq<real>, i: nat)
    requires cx == CumSum(Advances(metrics)) && i < |metrics|
    ensures metrics[i].minX + cx[i] == GlyphOffset(metrics, i)
  {
  }

  /** Glyph i's corner j lands on row 4i + j, moved by (x_i, -descent, 0). */
  lemma PlacedRowAt(text: string, metrics: seq<Metric>, get: char -> GlyphEntry, descent: real, i: nat, j: nat)
    requires |metrics| == |text| && i < |text| && j < 4
    ensures PlacedRow(text, metrics, get, descent, 4 * i + j)
            == Shift(get(text[i]).verts.At(j), GlyphOffset(metrics, i), -descent)
    ensures UvRow(text, get, 4 * i + j) == get(text[i]).uvs.At(j)
  {

  }

  /** Once glyph i's four rows are written, the placed prefix covers 4i + 4 rows. */
  lemma GlyphRowsPlaced(text: string, metrics: seq<Metric>, get: char -> GlyphEntry, descent: real,
                        i: nat, verts: seq<Vec3>, uvs: seq<Vec2>)
    requires |metrics| == |text| && i < |text| && |verts| == |uvs| == 4 * |text|
    requires forall k :: 0 <= k < 4 * i ==> verts[k] == PlacedRow(text, metrics, get, descent, k)
    requires forall k :: 0 <= k < 4 * i ==> uvs[k] == UvRow(text, get, k)
    requires forall j :: 0 <= j < 4 ==> verts[4 * i + j] == Shift(get(text[i]).verts.At(j), GlyphOffset(metrics, i), -descent)
    requires forall j :: 0 <= j < 4 ==> uvs[4 * i + j] == get(text[i]).uvs.At(j)
    ensures forall k :: 0 <= k < 4 * i + 4 ==> verts[k] == PlacedRow(text, metrics, get, descent, k)
    ensures forall k :: 0 <= k < 4 * i + 4 ==> uvs[k] == UvRow(text, get, k)
  {

  }

  /**
   * Writes one glyph's four vertex rows, its atlas quad moved by (x, dy, 0),
   * and its four UV rows at `base`; all other rows keep their values
   * (text.py:126-128).
   */
  method WriteQuad(verts: seq<Vec3>, uvs: seq<Vec2>, base: nat, entry: GlyphEntry, x: real, dy: real)
    returns (verts': seq<Vec3>, uvs': seq<Vec2>)
    requires base + 4 <= |verts| == |uvs|
    ensures |verts'| == |verts| && |uvs'| == |uvs|
    ensures forall k :: 0 <= k < base ==> verts'[k] == verts[k] && uvs'[k] == uvs[k]
    ensures forall k :: base + 4 <= k < |verts| ==> verts'[k] == verts[k] && uvs'[k] == uvs[k]
    ensures forall j :: 0 <= j < 4 ==> verts'[base + j] == Shift(entry.verts.At(j), x, dy)
    ensures forall j :: 0 <= j < 4 ==> uvs'[base + j] == entry.uvs.At(j)
  {
    verts', uvs' := verts, uvs;
    for j := 0 to 4
      invariant |verts'| == |verts| && |uvs'| == |uvs|
      invariant forall k :: 0 <= k < base ==> verts'[k] == verts[k] && uvs'[k] == uvs[k]
      invariant forall k :: base + j <= k < |verts| ==> verts'[k] == verts[k] && uvs'[k] == uvs[k]
      invariant forall j' :: 0 <= j' < j ==> verts'[base + j'] == Shift(entry.verts.At(j'), x, dy)
      invariant forall j' :: 0 <= j' < j ==> uvs'[base + j'] == entry.uvs.At(j')
    {
      verts' := verts'[base + j := Shift(entry.verts.At(j), x, dy)];
      uvs' := uvs'[base + j := entry.uvs.At(j)];
    }
  }

  /**
   * Writes glyph idx's block of six indices, the pattern offset by 4 * idx;
   * all other entries keep their values (text.py:129).
   */
  method WriteIndexBlock(indices: seq<nat>, idx: nat, quad: IndexPattern) returns (indices': seq<nat>)
    requires 6 * idx + 6 <= |indices|
    ensures |indices'| == |indices|
    ensures forall k :: 0 <= k < 6 * idx ==> indices'[k] == indices[k]
    ensures forall k :: 6 * idx + 6 <= k < |indices| ==> indices'[k] == indices[k]
    ensures forall k :: 6 * idx <= k < 6 * idx + 6 ==> indices'[k] == IndexEntry(quad, k)
  {
    indices' := indices;
    for j := 0 to 6
      invariant |indices'| == |indices|
      invariant forall k :: 0 <= k < 6 * idx ==> indices'[k] == indices[k]
      invariant forall k :: 6 * idx + j <= k < |indices| ==> indices'[k] == indices[k]
      invariant forall k :: 6 * idx <= k < 6 * idx + j ==> indices'[k] == IndexEntry(quad, k)
    {
      IndexSlot(idx, j);
      indices' := indices'[6 * idx + j := quad[j] + 4 * idx];
    }
  }

  /** The rows and indices of the first `count` glyphs hold their placed, unscaled values. */
  ghost predicate Filled(text: string, metrics: seq<Metric>, get: char -> GlyphEntry, descent: real,
                         quad: IndexPattern, count: nat, verts: seq<Vec3>, uvs: seq<Vec2>, indices: seq<nat>)
  {
    && |metrics| == |text| && count <= |text|
    && |verts| == |uvs| == 4 * |text| && |indices| == 6 * |text|
    && (forall k :: 0 <= k < 4 * count ==> verts[k] == PlacedRow(text, metrics, get, descent, k))
    && (forall k :: 0 <= k < 4 * count ==> uvs[k] == UvRow(text, get, k))
    && (forall k :: 0 <= k < 6 * count ==> indices[k] == IndexEntry(quad, k))
  }

  /**
   * One pass of the loop body of `_layout` over the buffers: glyph idx's
   * four vertex rows moved by (minX + cx[idx], -descent, 0), its four UV
   * rows and its six indices.
   */
  method PlaceGlyph(text: string, metrics: seq<Metric>, cx: seq<real>, get: char -> GlyphEntry,
                    descent: real, quad: IndexPattern, idx: nat,
                    verts: seq<Vec3>, uvs: seq<Vec2>, indices: seq<nat>)
    returns (verts': seq<Vec3>, uvs': seq<Vec2>, indices': seq<nat>)
    requires cx == CumSum(Advances(metrics)) && idx < |text|
    requires Filled(text, metrics, get, descent, quad, idx, verts, uvs, indices)
    ensures Filled(text, metrics, get, descent, quad, idx + 1, verts', uvs', indices')
  {
    var entry := get(text[idx]);
    var x := metrics[idx].minX + cx[idx];
    CursorIsOffset(metrics, cx, idx);
    verts', uvs' := WriteQuad(verts, uvs, 4 * idx, entry, x, -descent);
    GlyphRowsPlaced(text, metrics, get, descent, idx, verts', uvs');
    indices' := WriteIndexBlock(indices, idx, quad);
  }

  /**
   * The loop of `_layout`: for each character in order, fetch its atlas
   * entry, add its texture id to the set, and write its rows and indices.
   */
  method FillGlyphs(text: string, metrics: seq<Metric>, cx: seq<real>, get: char -> GlyphEntry,
                    descent: real, quad: IndexPattern)
    returns (verts: seq<Vec3>, uvs: seq<Vec2>, indices: seq<nat>, tex: Option<Texture>, texIds: set<int>)
    requires |metrics| == |text| && cx == CumSum(Advances(metrics))
    ensures |verts| == |uvs| == 4 * |text| && |indices| == 6 * |text|
    ensures forall k :: 0 <= k < 4 * |text| ==> verts[k] == PlacedRow(text, metrics, get, descent, k)
    ensures forall k :: 0 <= k < 4 * |text| ==> uvs[k] == UvRow(text, get, k)
    ensures forall k :: 0 <= k < 6 * |text| ==> indices[k] == IndexEntry(quad, k)
    ensures texIds == TexIds(text, get)
    ensures 0 < |text| ==> tex == Some(get(text[|text| - 1]).tex)
  {
    var n := |text|;
    verts := seq(4 * n, _ => Vec3(1.0, 1.0, 1.0));
    uvs := seq(4 * n, _ => Vec2(0.0, 0.0));
    indices := seq(6 * n, _ => 0);
    tex := None;
    texIds := {};
    var idx := 0;
    while idx < n
      invariant idx <= n
      invariant Filled(text, metrics, get, descent, quad, idx, verts, uvs, indices)
      invariant texIds == TexIds(text[..idx], get)
      invariant 0 < idx ==> tex == Some(get(text[idx - 1]).tex)
    {
      var entry := get(text[idx]);
      tex := Some(entry.tex);
      TexIdsStep(text, get, idx);
      texIds := texIds + {entry.tex.glo};
      verts, uvs, indices := PlaceGlyph(text, metrics, cx, get, descent, quad, idx, verts, uvs, indices);
      idx := idx + 1;
    }
    assert text[..n] == text;
  }

  /** Multiplies every row by diag(s, s, 1) (text.py:142). */
  method ScaleRows(verts: seq<Vec3>, s: real) returns (scaled: seq<Vec3>)
    ensures |scaled| == |verts|
    ensures forall k :: 0 <= k < |verts| ==> scaled[k] == MulRow(verts[k], Resize(s))
  {
    var resize := Resize(s);
    scaled := [];
    for k := 0 to |verts|
      invariant |scaled| == k
      invariant forall k' :: 0 <= k' < k ==> scaled[k'] == MulRow(verts[k'], resize)
    {
      scaled := scaled + [MulRow(verts[k], resize)];
    }
  }

  /**
   * `_layout` as a whole: the running sum of the advances, the glyph loop,
   * the one-texture check, and the final resize. It computes `Layout`.
   */
  method LayoutBuffers(text: string, metrics: seq<Metric>, get: char -> GlyphEntry,
                       descent: real, fontsize: real, quad: IndexPattern)
    returns (r: Result<Geometry, LayoutError>)
    ensures r == Layout(text, metrics, get, descent, fontsize, quad)
  {
    if |metrics| == 0 {
      return Failure(EmptyMetrics);
    }
    var cx := CumSum(Advances(metrics));
    if |metrics| != |text| {
      return Failure(CountMismatch);
    }
    var verts, uvs, indices, tex, texIds := FillGlyphs(text, metrics, cx, get, descent, quad);
    if |texIds| != 1 {
      return Failure(MultipleTextures);
    }
    var scaled := ScaleRows(verts, fontsize / BaseSize);
    ghost var expected := Layout(text, metrics, get, descent, fontsize, quad);
    assert scaled == expected.value.verts;
    assert uvs == expected.value.uvs;
    assert indices == expected.value.indices;
    r := Success(Geometry(tex.value, scaled, uvs, indices));
  }

  /** A one-element texture-id set is the same thing as every character sharing one texture. */
  lemma SingleTextureIff(text: string, get: char -> GlyphEntry)
    requires 0 < |text|
    ensures |TexIds(text, get)| == 1 <==> SharesOneTexture(text, get)
    ensures SharesOneTexture(text, get) ==> TexIds(text, get) == {get(text[0]).tex.glo}
  {
    TexIdsMembers(text, get);
    var ids := TexIds(text, get);
    var first := get(text[0]).tex.glo;
    if SharesOneTexture(text, get) {
      assert ids == {first};
    }
    if |ids| == 1 {
      forall i, j | 0 <= i < |text| && 0 <= j < |text|
        ensures get(text[i]).tex == get(text[j]).tex
      {
        var rest := ids - {first};
        assert |rest| == 0;
        assert get(text[i]).tex.glo !in rest;
        assert get(text[j]).tex.glo !in rest;
      }
    }
  }

  /**
   * The layout succeeds exactly when the text is non-empty, the font gave
   * one metrics tuple per character, and all characters share one texture;
   * that texture is then the label's. On a well-sized, non-empty input the
   * only failure is the multi-texture one.
   */
  lemma LayoutSucceedsIff(text: string, metrics: seq<Metric>, get: char -> GlyphEntry,
                          descent: real, fontsize: real, quad: IndexPattern)
    ensures Layout(text, metrics, get, descent, fontsize, quad).Success?
            <==> 0 < |text| && |metrics| == |text| && SharesOneTexture(text, get)
    ensures Layout(text, metrics, get, descent, fontsize, quad).Success? ==>
              var g := Layout(text, metrics, get, descent, fontsize, quad).value;
              && TexIds(text, get) == {g.tex.glo}
              && forall i :: 0 <= i < |text| ==> get(text[i]).tex == g.tex
    ensures 0 < |text| && |metrics| == |text| && !SharesOneTexture(text, get) ==>
              Layout(text, metrics, get, descent, fontsize, quad) == Failure(MultipleTextures)
  {
    if 0 < |text| {
      SingleTextureIff(text, get);
    }
  }

  /**
   * Glyph i's index block is the pattern shifted by 4i; when the pattern
   * only names corners 0..3, every index of the block names one of glyph
   * i's own four vertex rows.
   */
  lemma IndexBlock(text: string, metrics: seq<Metric>, get: char -> GlyphEntry,
                   descent: real, fontsize: real, quad: IndexPattern, i: nat)
    requires Layout(text, metrics, get, descent, fontsize, quad).Success?
    requires i < |text|
    ensures var g := Layout(text, metrics, get, descent, fontsize, quad).value;
            g.indices[6 * i..6 * i + 6] == seq(6, j requires 0 <= j < 6 => quad[j] + 4 * i)
    ensures var g := Layout(text, metrics, get, descent, fontsize, quad).value;
            PatternLocal(quad) ==>
              forall k :: 6 * i <= k < 6 * i + 6 ==> 4 * i <= g.indices[k] < 4 * i + 4
  {
    var g := Layout(text, metrics, get, descent, fontsize, quad).value;
    var block := g.indices[6 * i..6 * i + 6];
    forall j | 0 <= j < 6
      ensures block[j] == quad[j] + 4 * i
    {
      IndexSlot(i, j);
    }
    assert block == seq(6, j requires 0 <= j < 6 => quad[j] + 4 * i);
    forall k | 6 * i <= k < 6 * i + 6
      ensures g.indices[k] == block[k - 6 * i]
    {
    }
  }

  /** With a local pattern every index of the whole array names an existing vertex row. */
  lemma IndicesInRange(text: string, metrics: seq<Metric>, get: char -> GlyphEntry,
                       descent: real, fontsize: real, quad: IndexPattern)
    requires Layout(text, metrics, get, descent, fontsize, quad).Success?
    requires PatternLocal(quad)
    ensures var g := Layout(text, metrics, get, descent, fontsize, quad).value;
            forall k :: 0 <= k < |g.indices| ==> g.indices[k] < |g.verts|
  {

  }

  /**
   * Vertex row 4i + j is corner j of glyph i's atlas quad, moved by
   * (x_i, -descent, 0) and then scaled by fontsize / 48 in x and y only:
   * the homogeneous component is the atlas's own.
   */
  lemma GlyphVertex(text: string, metrics: seq<Metric>, get: char -> GlyphEntry,
                    descent: real, fontsize: real, quad: IndexPattern, i: nat, j: nat)
    requires Layout(text, metrics, get, descent, fontsize, quad).Success?
    requires i < |text| && j < 4
    ensures var v := Layout(text, metrics, get, descent, fontsize, quad).value.verts[4 * i + j];
            var q := get(text[i]).verts.At(j);
            v == Vec3((fontsize / BaseSize) * (q.x + metrics[i].minX + Sum(Advances(metrics)[..i + 1])),
                      (fontsize / BaseSize) * (q.y - descent),
                      q.w)
  {
    PlacedRowAt(text, metrics, get, descent, i, j);
  }

  /** UV row 4i + j is corner j of glyph i's atlas UVs, unscaled. */
  lemma GlyphUvs(text: string, metrics: seq<Metric>, get: char -> GlyphEntry,
                 descent: real, fontsize: real, quad: IndexPattern, i: nat, j: nat)
    requires Layout(text, metrics, get, descent, fontsize, quad).Success?
    requires i < |text| && j < 4
    ensures Layout(text, metrics, get, descent, fontsize, quad).value.uvs[4 * i + j] == get(text[i]).uvs.At(j)
  {
    PlacedRowAt(text, metrics, get, descent, i, j);
  }

  /**
   * Within one glyph the vertex rows keep the atlas quad's shape, scaled
   * by fontsize / 48: differences between corners scale, placement cancels.
   */
  lemma GlyphExtent(text: string, metrics: seq<Metric>, get: char -> GlyphEntry,
                    descent: real, fontsize: real, quad: IndexPattern, i: nat, a: nat, b: nat)
    requires Layout(text, metrics, get, descent, fontsize, quad).Success?
    requires i < |text| && a < 4 && b < 4
    ensures var g := Layout(text, metrics, get, descent, fontsize, quad).value;
            var q := get(text[i]).verts;
            && g.verts[4 * i + a].x - g.verts[4 * i + b].x == (fontsize / BaseSize) * (q.At(a).x - q.At(b).x)
            && g.verts[4 * i + a].y - g.verts[4 * i + b].y == (fontsize / BaseSize) * (q.At(a).y - q.At(b).y)
  {
    GlyphVertex(text, metrics, get, descent, fontsize, quad, i, a);
    GlyphVertex(text, metrics, get, descent, fontsize, quad, i, b);
  }

  /**
   * The running-sum part of the glyph offsets never decreases left to
   * right when no advance is negative.
   */
  lemma CursorMonotone(metrics: seq<Metric>, i: nat, j: nat)
    requires forall k :: 0 <= k < |metrics| ==> 0.0 <= metrics[k].advance
    requires i <= j < |metrics|
    ensures GlyphOffset(metrics, i) - metrics[i].minX <= GlyphOffset(metrics, j) - metrics[j].minX
  {
    CumSumMonotone(Advances(metrics), i, j);
  }

  /**
   * The offset of glyph i already counts glyph i's own advance: it is the
   * bearing plus the advances of the glyphs before it plus its own.
   */
  lemma OffsetCountsOwnAdvance(metrics: seq<Metric>, i: nat)
    requires i < |metrics|
    ensures GlyphOffset(metrics, i) == metrics[i].minX + Sum(Advances(metrics)[..i]) + metrics[i].advance
  {
    SumPrefixStep(Advances(metrics), i);
  }

  /**
   * Two glyphs, 'A' with bearing 1..9 and advance 10, 'B' with bearing
   * 0..8 and advance 8: their offsets are 11 and 18, and the left edges
   * of quads anchored by their advances are 1 and 10.
   */
  lemma TwoGlyphOffsets()
    ensures var metrics := [Metric(1.0, 9.0, 0.0, 0.0, 10.0), Metric(0.0, 8.0, 0.0, 0.0, 8.0)];
            GlyphOffset(metrics, 0) == 11.0 && GlyphOffset(metrics, 1) == 18.0
    ensures var metrics := [Metric(1.0, 9.0, 0.0, 0.0, 10.0), Metric(0.0, 8.0, 0.0, 0.0, 8.0)];
            // a quad starting at x = 0, anchored by a width equal to its advance
            && GlyphOffset(metrics, 0) + SetAnchor([Vec3(0.0, 0.0, 1.0)], 10.0, 0.0)[0].x == 1.0
            && GlyphOffset(metrics, 1) + SetAnchor([Vec3(0.0, 0.0, 1.0)], 8.0, 0.0)[0].x == 10.0
  {

  }

  /** A glyph 40 units tall in the 48-unit atlas is 20 units tall in a label of font size 24. */
  lemma HalfSizeGlyphHeight(text: string, metrics: seq<Metric>, get: char -> GlyphEntry,
                            descent: real, quad: IndexPattern, i: nat)
    requires Layout(text, metrics, get, descent, 24.0, quad).Success?
    requires i < |text|
    requires get(text[i]).verts.At(2).y - get(text[i]).verts.At(0).y == 40.0
    ensures var g := Layout(text, metrics, get, descent, 24.0, quad).value;
            g.verts[4 * i + 2].y - g.verts[4 * i].y == 20.0
  {
    assert 24.0 / BaseSize == 0.5;
    GlyphExtent(text, metrics, get, descent, 24.0, quad, i, 2, 0);
  }

  /**
   * `set_anchor` moves an atlas quad left by its width. When that width is
   * the glyph's advance, the anchor cancels the glyph's own advance in its
   * offset: a corner lands at its raw x plus the bearing plus the advances
   * of the glyphs before it, all scaled by fontsize / 48.
   */
  lemma AnchoredGlyphVertex(text: string, metrics: seq<Metric>, get: char -> GlyphEntry,
                            descent: real, fontsize: real, quad: IndexPattern, i: nat, j: nat,
                            raw: Vec3, w: real, h: real)
    requires Layout(text, metrics, get, descent, fontsize, quad).Success?
    requires i < |text| && j < 4
    requires get(text[i]).verts.At(j) == SetAnchor([raw], w, h)[0]
    requires w == metrics[i].advance
    ensures Layout(text, metrics, get, descent, fontsize, quad).value.verts[4 * i + j].x
            == (fontsize / BaseSize) * (raw.x + metrics[i].minX + Sum(Advances(metrics)[..i]))
  {
    GlyphVertex(text, metrics, get, descent, fontsize, quad, i, j);
    OffsetCountsOwnAdvance(metrics, i);
  }
}
