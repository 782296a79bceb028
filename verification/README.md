# wasabi2d single-line text layout, in Dafny

This project models the text core of wasabi2d's `Label` primitive
(`wasabi2d/primitives/text.py`): how a string becomes the three buffers a
textured-quad shader draws from, and how the label's fields and its
layer's dirty set change when the text is set.

- `Vectors` (`vectors.dfy`): vertex rows `(x, y, w)`, UV rows, 3x3 matrices
  and the row-times-matrix product, the resize matrix
  `diag(fontsize/48, fontsize/48, 1)`, and numpy's inclusive `cumsum`.
- `Fonts` (`fonts.dfy`): font metrics tuples `(min_x, max_x, min_y, max_y,
  advance)`, textures known by their GL name, atlas entries
  (texture, 4 UV corners, 4 quad rows), and `FontAtlas.set_anchor`.
- `TextLayout` (`text_layout.dfy`): `Label._layout`. `Layout` is a
  per-row definition of the result; `LayoutBuffers` follows the code step
  by step (running sum of advances, per-glyph slice writes, texture-id set,
  one-texture check, resize) and is proved to compute `Layout`. Lemmas
  give buffer sizes, index blocks, vertex and UV rows, and the
  success condition.
- `Labels` (`labels.dfy`): the `text` setter (normalise, store, lay out,
  mark dirty), `_update` and `_migrate` over a vertex-buffer allocation.

The font, the atlas and Unicode normalisation are inputs: the font is its
`metrics` function and `descent`; the atlas is a function from character
to entry, since `Atlas.get` memoises; `normalize` is any function on
strings. `QUAD`, which `wasabi2d/sprites.py` defines, is a parameter: any
six indices. Properties that need it to name only corners 0..3 say so
with `PatternLocal`.

Three behaviours of the code shape the model:

- `_layout` places glyphs with numpy's inclusive `cumsum` (text.py:103-104).
  So glyph i's offset is `min_x[i] + adv[0] + ... + adv[i]`, and it
  counts the glyph's own advance (`OffsetCountsOwnAdvance`). For 'A'
  (bearing 1, advance 10) and 'B' (bearing 0, advance 8), the offsets are
  11 and 18 (`TwoGlyphOffsets`). These are offsets only. `set_anchor`
  (text.py:43-45) has already moved each atlas quad left by its width.
  When that width equals the glyph's advance, a corner lands at its raw x
  plus the bearing plus the advances of the glyphs before it
  (`AnchoredGlyphVertex`). For 'A' and 'B' with raw quads starting at
  x = 0, the left edges are then 1 and 10 (also `TwoGlyphOffsets`).
- The setter stores `_text` before `_layout` runs (text.py:92-93). So
  after a raise, the label holds the new text next to its old geometry
  (`FailedSetLeavesStaleGeometry`).
- An empty string fails before the one-texture assertion is reached.
  `np.array([], 'f4')` is one-dimensional, so taking its advance column
  raises at line 103. This is `EmptyMetrics`. A mismatched metrics count
  is the assertion at line 109 (`CountMismatch`). The texture check at
  line 140 is `MultipleTextures`. Together they give: layout succeeds
  exactly when the text is non-empty, has one metrics tuple per
  character, and uses one texture (`LayoutSucceedsIff`).

## Model

| member | source | states |
|---|---|---|
| Vectors.Resize | wasabi2d/primitives/text.py:132-135 | multiplying any row by the resize matrix scales x and y by the factor and keeps the homogeneous component |
| Vectors.CumSum | wasabi2d/primitives/text.py:103 | same length as the advances; element i is the sum of advances 0 through i, i included |
| Vectors.CumSumMonotone | wasabi2d/primitives/text.py:103 | over non-negative advances the running sum never decreases left to right |
| Fonts.SetAnchor | wasabi2d/primitives/text.py:43-45 | same number of rows; every row loses exactly w in x and h in y; the third component is unchanged |
| Fonts.AnchorRoundTrip | wasabi2d/primitives/text.py:43-45 | anchoring by (w, h) and then by (-w, -h) restores the rows |
| Fonts.AnchorCompose | wasabi2d/primitives/text.py:43-45 | two anchorings equal one by the summed offsets |
| Fonts.AnchorKeepsExtent | wasabi2d/primitives/text.py:43-45 | anchoring keeps every difference between two rows, so the glyph's size is unchanged |
| TextLayout.TexIds | wasabi2d/primitives/text.py:115-118 | the walked id set is empty exactly for empty text and has at most one id per character |
| TextLayout.GlyphOffset | wasabi2d/primitives/text.py:104 | glyph i's x offset is its min_x plus element i of the running sum of the advances |
| TextLayout.TexIdsMembers | wasabi2d/primitives/text.py:115-118 | the id set built in the loop holds every character's texture id and nothing else |
| TextLayout.SingleTextureIff | wasabi2d/primitives/text.py:140 | for non-empty text, a one-element id set is the same as all characters sharing one texture, and the set is then that texture's id |
| TextLayout.Layout | wasabi2d/primitives/text.py:107-112 | on success there is one metrics tuple per character, and the buffers hold 4n vertex rows, 4n UV rows and 6n indices |
| TextLayout.WriteQuad | wasabi2d/primitives/text.py:126-128 | the four rows of the glyph slice become the atlas quad moved by (x, dy, 0) and the atlas UVs; every row before and after the slice is untouched |
| TextLayout.WriteIndexBlock | wasabi2d/primitives/text.py:129 | entries 6i..6i+5 become the pattern plus 4i; every entry before and after the block is untouched |
| TextLayout.PlaceGlyph | wasabi2d/primitives/text.py:125-129 | if glyphs 0..idx-1 already hold their placed rows and indices, then afterwards glyphs 0..idx do too |
| TextLayout.FillGlyphs | wasabi2d/primitives/text.py:110-129 | after the loop every vertex, UV and index entry is the placed row of its glyph, the id set is the characters' ids, and the last texture is the last character's |
| TextLayout.ScaleRows | wasabi2d/primitives/text.py:142 | each row of the result is the matching input row times the resize matrix |
| TextLayout.LayoutBuffers | wasabi2d/primitives/text.py:97-144 | the step-by-step layout (running sum, slice writes, id set, assertion, resize) yields exactly the per-row reference layout, error for error |
| TextLayout.LayoutSucceedsIff | wasabi2d/primitives/text.py:102-141 | layout succeeds iff the text is non-empty, has one metrics tuple per character and all its characters share one texture; that texture is the label's; a well-sized non-empty text can only fail with MultipleTextures |
| TextLayout.IndexBlock | wasabi2d/primitives/text.py:129 | glyph i's six indices are the pattern shifted by 4i and, for a pattern within 0..3, all lie among glyph i's own four vertex rows |
| TextLayout.IndicesInRange | wasabi2d/primitives/text.py:129 | with a pattern within 0..3, every index names an existing vertex row |
| TextLayout.GlyphVertex | wasabi2d/primitives/text.py:125-142 | vertex row 4i+j is atlas corner j moved by (min_x[i] + sum of advances 0..i, -descent), then scaled by fontsize/48 in x and y; its third component is the atlas's |
| TextLayout.GlyphUvs | wasabi2d/primitives/text.py:128 | UV row 4i+j is the atlas's UV corner j for character i, unscaled |
| TextLayout.GlyphExtent | wasabi2d/primitives/text.py:132-142 | within one glyph, the x and y differences between corners are the atlas quad's differences times fontsize/48 |
| TextLayout.CursorMonotone | wasabi2d/primitives/text.py:103-104 | with non-negative advances the cursor part of the glyph offsets never decreases left to right |
| TextLayout.OffsetCountsOwnAdvance | wasabi2d/primitives/text.py:103-125 | glyph i's offset is its bearing plus the advances before it plus its own advance |
| TextLayout.AnchoredGlyphVertex | wasabi2d/primitives/text.py:43-45 | for an atlas quad anchored by a width equal to the glyph's advance, a corner's final x is (raw x + min_x + advances of the earlier glyphs) times fontsize/48 |
| TextLayout.TwoGlyphOffsets | wasabi2d/primitives/text.py:103-104 | 'A' (bearing 1, advance 10) and 'B' (bearing 0, advance 8) get offsets 11 and 18; quads starting at x = 0 and anchored by their advances then start at 1 and 10 |
| TextLayout.HalfSizeGlyphHeight | wasabi2d/primitives/text.py:132-135 | a glyph 40 units tall in the atlas is 20 units tall at font size 24 |
| Labels.MarkDirty | wasabi2d/primitives/text.py:74-75 | the label is in the dirty set afterwards and every other label's membership is unchanged |
| Labels.SetText | wasabi2d/primitives/text.py:82-95 | the normalised text is stored whether or not layout raises; on success the geometry is the layout of that text and the label joins the dirty set; on a raise geometry and dirty set are unchanged |
| Labels.SetTextRaisesIff | wasabi2d/primitives/text.py:91-95 | the setter raises exactly when layout of the normalised text fails, with that error; the label is dirty afterwards iff it was already or layout succeeded; no other label's mark changes |
| Labels.FailedSetLeavesStaleGeometry | wasabi2d/primitives/text.py:92-93 | after a raise the label keeps its old geometry, which is not the layout of its new text |
| Labels.SetTextTwice | wasabi2d/primitives/text.py:91-95 | setting the same text twice leaves label and dirty set as setting it once |
| Labels.SetTextNormalized | wasabi2d/primitives/text.py:91 | with an idempotent normalisation, setting the normalised string gives the same outcome as setting the raw one |
| Labels.Update | wasabi2d/primitives/text.py:148-153 | in_vert becomes the first two columns of each row times the transform and in_color the label colour; in_uv and the index buffer keep their values; the allocation is flagged dirty |
| Labels.UpdateIdempotent | wasabi2d/primitives/text.py:148-153 | running the update twice with the same transform and colour equals running it once |
| Labels.UpdateForgetsPrevious | wasabi2d/primitives/text.py:151-152 | allocations that agree on UVs and indices give the same result, so nothing an earlier update wrote survives |
| Labels.Migrate | wasabi2d/primitives/text.py:155-164 | the array draws with the label's texture; the allocation holds the layout's indices, its UVs, its transformed positions and the colour, flagged dirty |
| Labels.MigratedLabelDrawable | wasabi2d/primitives/text.py:155-164 | after a successful set, a migration and any later update, the allocation still holds the layout's indices and UVs, and every index names one of its vertex records |

## Left out

- `TextVAO.render` and `text_vao` (lines 12-34): shader and GPU calls.
- `FontAtlas.__init__`, `FontAtlas._load` and `fonts.load` (lines 39-49): font-file loading and rasterisation. The font's metrics and descent and the atlas entries are inputs.
- `unicodedata.normalize('NFKC', ...)`: a library call, passed in as a function. Idempotence is assumed only where a lemma's `requires` says so.
- The `Atlas` packer and `VAO.alloc`: `wasabi2d/atlas.py` and `wasabi2d/allocators/vertlists.py` are not part of this model. `Migrate` takes the allocation `alloc` would return, sized to the geometry.
- The matrix `self._scale @ self._rot @ self._xlate` (line 149): the `Transformable` mixin is not part of this model, so `Update` takes the product as a given matrix. The colour from `Colorable` is an input too.
- `f4` floating point: all arithmetic is on `real`. `u4` indices are unbounded naturals. The 32-bit wrap-around would only occur beyond 2^30 glyphs.
- Labels.Update: requires the allocation to have one record per vertex row. The source does not check this. When the character count changes after a migration (the TODOs at lines 146 and 157), numpy broadcasts or raises. Neither case is modelled.
- `Label.__init__` and the `text` getter (lines 55-80): the constructor sets its fields and then calls the setter. A label with no geometry yet (`geometry == None`) is the state before its first successful set.
- Font metrics entries of `None`, which pygame returns for characters the font lacks, are not modelled. Every metrics entry is a full tuple.
- The errors `CountMismatch` and `MultipleTextures` come from Python `assert` statements (text.py:109, 140). The model takes asserts as enabled. Under `python -O` both checks vanish, and a multi-texture label would lay out silently with the last character's texture. `LayoutSucceedsIff` describes the asserts-enabled behaviour.
- Labels.Migrate: returns the array's new texture as a value. In the code, `self.vao.tex = self.tex` (text.py:160) rebinds the texture of a `TextVAO` that every label allocated in it shares, and `TextVAO.render` (text.py:15-18) draws all of them with it. What this does to the other labels in the same array is not modelled.
- Texture objects are identified only by their GL name `glo`, which is all the one-texture check compares.
- The commented-out kerning code (lines 120-123), and the layer's draining of its dirty set, which happens in the render loop.
