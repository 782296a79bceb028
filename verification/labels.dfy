/**
 * `Label`: the text setter that normalises, stores and lays out the text
 * and marks the label dirty with its layer, and the two steps that copy
 * the laid-out geometry into a vertex-buffer allocation, `_migrate` and
 * `_update`.
 */
module Labels {
  import opened Wrappers
  import opened Vectors
  import opened Fonts
  import opened TextLayout

  /** The identity a layer's dirty set holds a label by. */
  type LabelId = nat

  /**
   * The label fields the setter reads or writes: the stored text and the
   * geometry `_layout` assigns (absent until a layout first succeeds).
   */
  datatype Label = Label(id: LabelId, fontsize: real, text: string, geometry: Option<Geometry>)

  /** What a call of the setter leaves behind: the label, the layer's dirty set, and what it raised. */
  datatype SetOutcome = SetOutcome(after: Label, dirty: set<LabelId>, raised: Option<LayoutError>)

  /** `_set_dirty`: add the label to its layer's dirty set. */
  function MarkDirty(dirty: set<LabelId>, id: LabelId): (r: set<LabelId>)
    ensures id in r
    ensures forall other :: other != id ==> (other in r <==> other in dirty)
  {
    dirty + {id}
  }

  /** `_layout` as the label runs it: on the stored text, with its font atlas and font size. */
  function LayoutOf(lab: Label, atlas: FontAtlas, quad: IndexPattern): Result<Geometry, LayoutError>
  {
    Layout(lab.text, atlas.font.metrics(lab.text), atlas.get, atlas.font.descent, lab.fontsize, quad)
  }

  /** The stored geometry is the layout of the stored text. */
  predicate Consistent(lab: Label, atlas: FontAtlas, quad: IndexPattern)
  {
    lab.geometry.Some? && LayoutOf(lab, atlas, quad) == Success(lab.geometry.value)
  }

  /**
   * The `text` setter: normalise, store the text, lay it out, then mark the
   * label dirty. The text is stored before the layout runs, so it is kept
   * when the layout raises; the geometry and the dirty set change only when
   * the layout returns.
   */
  function SetText(before: Label, dirty: set<LabelId>, raw: string, atlas: FontAtlas,
                   normalize: string -> string, quad: IndexPattern): (r: SetOutcome)
    ensures r.after.text == normalize(raw)
    ensures r.after.id == before.id && r.after.fontsize == before.fontsize
    ensures r.raised.None? ==> Consistent(r.after, atlas, quad) && r.dirty == dirty + {before.id}
    ensures r.raised.Some? ==> r.after.geometry == before.geometry && r.dirty == dirty
  {
    var stored := before.(text := normalize(raw));
    match LayoutOf(stored, atlas, quad)
    case Failure(e) => SetOutcome(stored, dirty, Some(e))
    case Success(g) => SetOutcome(stored.(geometry := Some(g)), MarkDirty(dirty, before.id), None)
  }

  /**
   * The setter raises exactly when the layout of the normalised text fails,
   * and then raises that layout's error; no other label's dirty mark moves.
   */
  lemma SetTextRaisesIff(before: Label, dirty: set<LabelId>, raw: string, atlas: FontAtlas,
                         normalize: string -> string, quad: IndexPattern)
    ensures var r := SetText(before, dirty, raw, atlas, normalize, quad);
            var laid := LayoutOf(before.(text := normalize(raw)), atlas, quad);
            && (r.raised.Some? <==> laid.Failure?)
            && (r.raised.Some? ==> r.raised.value == laid.error)
            && (before.id in r.dirty <==> before.id in dirty || laid.Success?)
            && r.dirty - {before.id} == dirty - {before.id}
  {
  }

  /**
   * After a raise the label holds the new text but its old geometry, which
   * is no longer the layout of that text.
   */
  lemma FailedSetLeavesStaleGeometry(before: Label, dirty: set<LabelId>, raw: string, atlas: FontAtlas,
                                     normalize: string -> string, quad: IndexPattern)
    requires SetText(before, dirty, raw, atlas, normalize, quad).raised.Some?
    ensures var r := SetText(before, dirty, raw, atlas, normalize, quad);
            !Consistent(r.after, atlas, quad) && r.after.geometry == before.geometry
  {
  }

  /** Setting the same text twice leaves the label and the dirty set as setting it once. */
  lemma SetTextTwice(before: Label, dirty: set<LabelId>, raw: string, atlas: FontAtlas,
                     normalize: string -> string, quad: IndexPattern)
    ensures var once := SetText(before, dirty, raw, atlas, normalize, quad);
            var twice := SetText(once.after, once.dirty, raw, atlas, normalize, quad);
            twice == once
  {
  }

  /**
   * With an idempotent normalisation, setting an already normalised string
   * gives the same outcome as setting the raw one.
   */
  lemma SetTextNormalized(before: Label, dirty: set<LabelId>, raw: string, atlas: FontAtlas,
                          normalize: string -> string, quad: IndexPattern)
    requires normalize(normalize(raw)) == normalize(raw)
    ensures SetText(before, dirty, normalize(raw), atlas, normalize, quad)
            == SetText(before, dirty, raw, atlas, normalize, quad)
  {
  }

  /** A position as stored in the `in_vert` field. */
  datatype Point = Point(x: real, y: real)

  /** A tint as stored in the `in_color` field. */
  datatype Color = Color(r: real, g: real, b: real, a: real)

  /** One record of the vertex buffer: the fields `in_vert`, `in_color` and `in_uv`. */
  datatype VertexRecord = VertexRecord(vert: Point, color: Color, uv: Vec2)

  /** A label's region of a shared vertex array: its vertex records, its indices, its upload flag. */
  datatype Allocation = Allocation(vertbuf: seq<VertexRecord>, indexbuf: seq<nat>, dirty: bool)

  /** The first two columns of a row, `[:, :2]`. */
  function XY(p: Vec3): Point
  {
    Point(p.x, p.y)
  }

  /**
   * `_update`: writes the transformed positions into `in_vert` and the
   * label colour into `in_color`, and flags the allocation for upload;
   * `in_uv` and the index buffer are left as they were.
   */
  function Update(verts: seq<Vec3>, lst: Allocation, xform: Mat3, color: Color): (r: Allocation)
    requires |lst.vertbuf| == |verts|
    ensures |r.vertbuf| == |lst.vertbuf| && r.indexbuf == lst.indexbuf && r.dirty
    ensures forall k :: 0 <= k < |verts| ==> r.vertbuf[k].uv == lst.vertbuf[k].uv
    ensures forall k :: 0 <= k < |verts| ==>
              r.vertbuf[k].vert == XY(MulRow(verts[k], xform)) && r.vertbuf[k].color == color
  {
    var rows := seq(|verts|, k requires 0 <= k < |verts| =>
                      lst.vertbuf[k].(vert := XY(MulRow(verts[k], xform)), color := color));
    lst.(vertbuf := rows, dirty := true)
  }

  /** Running `_update` again with the same transform and colour changes nothing further. */
  lemma UpdateIdempotent(verts: seq<Vec3>, lst: Allocation, xform: Mat3, color: Color)
    requires |lst.vertbuf| == |verts|
    ensures Update(verts, Update(verts, lst, xform, color), xform, color) == Update(verts, lst, xform, color)
  {

  }

  /**
   * What `_update` leaves depends on the allocation only through its UVs
   * and indices: what an earlier transform or colour wrote is overwritten.
   */
  lemma UpdateForgetsPrevious(verts: seq<Vec3>, a: Allocation, b: Allocation, xform: Mat3, color: Color)
    requires |a.vertbuf| == |b.vertbuf| == |verts|
    requires a.indexbuf == b.indexbuf
    requires forall k :: 0 <= k < |verts| ==> a.vertbuf[k].uv == b.vertbuf[k].uv
    ensures Update(verts, a, xform, color) == Update(verts, b, xform, color)
  {

  }

  /** The result of `_migrate`: the texture the target array now draws with, and the filled allocation. */
  datatype Migration = Migration(vaoTex: Texture, lst: Allocation)

  /**
   * `_migrate`, given the allocation `vao.alloc` returned for the geometry's
   * row and index counts: binds the label's texture to the array, copies the
   * indices and UVs in, then runs `_update`.
   */
  function Migrate(g: Geometry, alloc: Allocation, xform: Mat3, color: Color): (r: Migration)
    requires |g.uvs| == |g.verts|
    requires |alloc.vertbuf| == |g.verts| && |alloc.indexbuf| == |g.indices|
    ensures r.vaoTex == g.tex && r.lst.dirty
    ensures r.lst.indexbuf == g.indices
    ensures |r.lst.vertbuf| == |g.verts|
    ensures forall k :: 0 <= k < |g.verts| ==> r.lst.vertbuf[k].uv == g.uvs[k]
    ensures forall k :: 0 <= k < |g.verts| ==>
              r.lst.vertbuf[k].vert == XY(MulRow(g.verts[k], xform)) && r.lst.vertbuf[k].color == color
  {
    var rows := seq(|g.verts|, k requires 0 <= k < |g.verts| => alloc.vertbuf[k].(uv := g.uvs[k]));
    Migration(g.tex, Update(g.verts, alloc.(indexbuf := g.indices, vertbuf := rows), xform, color))
  }

  /**
   * After a successful set and a migration, a later `_update` with any
   * transform and colour still holds the layout's UVs and indices, and
   * every index names one of the allocation's vertex records.
   */
  lemma MigratedLabelDrawable(before: Label, dirty: set<LabelId>, raw: string, atlas: FontAtlas,
                              normalize: string -> string, quad: IndexPattern, alloc: Allocation,
                              xform: Mat3, color: Color, xform2: Mat3, color2: Color)
    requires SetText(before, dirty, raw, atlas, normalize, quad).raised.None?
    requires PatternLocal(quad)
    requires var g := SetText(before, dirty, raw, atlas, normalize, quad).after.geometry.value;
             |alloc.vertbuf| == |g.verts| && |alloc.indexbuf| == |g.indices|
    ensures var g := SetText(before, dirty, raw, atlas, normalize, quad).after.geometry.value;
            var lst := Update(g.verts, Migrate(g, alloc, xform, color).lst, xform2, color2);
            && lst.indexbuf == g.indices
            && (forall k :: 0 <= k < |g.uvs| ==> lst.vertbuf[k].uv == g.uvs[k])
            && (forall k :: 0 <= k < |lst.indexbuf| ==> lst.indexbuf[k] < |lst.vertbuf|)
  {

  }
}
