/**
 * A sprite: a textured rectangle drawn as a four-corner mesh (the canvas),
 * placed by a position, a rotation and a scale. Clipping does not move or
 * resize the sprite: it rebuilds the canvas with new texture coordinates,
 * deleting the previous canvas first.
 */
module Sprites {
  import opened Algebra
  import opened Outcomes
  import opened Gl
  import Meshes

  datatype Sprite = Sprite(
    canvas: Meshes.Mesh,
    texture: Texture,
    position: Vec2,
    rotation: real,
    scale: real,
    dimensions: Vec2,
    layer: int)

  /** The texture coordinates of the whole texture, corner by corner. */
  const FullTexCoords: seq<Vec2> := [Vec2(0.0, 1.0), Vec2(0.0, 0.0), Vec2(1.0, 1.0), Vec2(1.0, 0.0)]

  /** The two triangles of the quad, as corner numbers. */
  const QuadIndices: seq<nat> := [2, 1, 0, 3, 1, 2]

  /** The corners of the canvas: origin, top-left, bottom-right, far corner, at the sprite's layer. */
  function Corners(dimensions: Vec2, layer: int): (r: seq<Vec3>)
    ensures |r| == 4
    ensures forall k :: 0 <= k < |r| ==> r[k].Vec3? && r[k].z == layer as real
    ensures r[0].x == r[1].x == 0.0 && r[2].x == r[3].x == dimensions.x
    ensures r[0].y == r[2].y == 0.0 && r[1].y == r[3].y == dimensions.y
  {
    var z := layer as real;
    [Vec3(0.0, 0.0, z), Vec3(0.0, dimensions.y, z), Vec3(dimensions.x, 0.0, z), Vec3(dimensions.x, dimensions.y, z)]
  }

  /** The canvas before set-up: each corner with its texture coordinate, then the two triangles. */
  function CanvasData(dimensions: Vec2, layer: int, texCoords: seq<Vec2>): (m: Meshes.Mesh)
    requires |texCoords| == 4
    ensures m.vertices == Corners(dimensions, layer) && m.texCoords == texCoords
    ensures m.indices == QuadIndices && forall k :: 0 <= k < |m.indices| ==> m.indices[k] < |m.vertices|
    ensures m.normals == [] && m.colors == []
    ensures !m.hasNormals && !m.hasColors && !m.hasTexCoords && !m.isIndexed
  {
    var c := Corners(dimensions, layer);
    var m0 := Meshes.NewMesh();
    var m1 := Meshes.AddTexCoord(Meshes.AddVertex(m0, c[0]), texCoords[0]);
    var m2 := Meshes.AddTexCoord(Meshes.AddVertex(m1, c[1]), texCoords[1]);
    var m3 := Meshes.AddTexCoord(Meshes.AddVertex(m2, c[2]), texCoords[2]);
    var m4 := Meshes.AddTexCoord(Meshes.AddVertex(m3, c[3]), texCoords[3]);
    assert m4.vertices == c && m4.texCoords == texCoords;
    Meshes.AddIndices(m4, QuadIndices)
  }

  /** Deletes the previous canvas, when there is one. */
  function DeletePrevious(previous: Option<Meshes.Mesh>, g: Gpu): (r: Gpu)
    ensures r.program == g.program && r.enabled == g.enabled && r.nextName == g.nextName
    ensures previous.None? ==> r.calls == g.calls
    ensures previous.Some? ==> r.calls == g.calls + [DeleteMesh(previous.value.id)]
  {
    if previous.Some? then Issue(g, DeleteMesh(previous.value.id)) else g
  }

  /** Builds a canvas with the given texture coordinates and sets it up. */
  function SetUpCanvas(dimensions: Vec2, layer: int, texCoords: seq<Vec2>, g: Gpu): (r: (Meshes.Mesh, Gpu))
    requires |texCoords| == 4
    ensures r.0.vertices == Corners(dimensions, layer) && r.0.texCoords == texCoords && r.0.indices == QuadIndices
    ensures r.0.hasTexCoords && r.0.isIndexed && !r.0.hasNormals && !r.0.hasColors
    ensures r.1.calls == g.calls + Meshes.SetUpCalls(r.0)
    ensures r.1.program == g.program && r.1.enabled == g.enabled
  {
    var data := CanvasData(dimensions, layer, texCoords);
    assert |data.texCoords| > 0 && |data.indices| > 0;
    Meshes.SetUp(data, g)
  }

  /**
   * Builds and sets up a canvas with the given texture coordinates, deleting
   * the previous canvas first when there is one.
   */
  function Rebuild(previous: Option<Meshes.Mesh>, dimensions: Vec2, layer: int, texCoords: seq<Vec2>, g: Gpu): (r: (Meshes.Mesh, Gpu))
    requires |texCoords| == 4
    ensures r.0.vertices == Corners(dimensions, layer) && r.0.texCoords == texCoords && r.0.indices == QuadIndices
    ensures r.0.hasTexCoords && r.0.isIndexed && !r.0.hasNormals && !r.0.hasColors
    ensures previous.Some? ==> r.1.calls == g.calls + [DeleteMesh(previous.value.id)] + Meshes.SetUpCalls(r.0)
    ensures previous.None? ==> r.1.calls == g.calls + Meshes.SetUpCalls(r.0)
    ensures r.1.program == g.program && r.1.enabled == g.enabled
  {
    var g1 := DeletePrevious(previous, g);
    SetUpCanvas(dimensions, layer, texCoords, g1)
  }

  /** `new Sprite(area, image, layer)`: placed at the area's corner, its size, unrotated, unscaled, showing the whole texture. */
  function NewSprite(area: Rectangle, image: Texture, layer: int, g: Gpu): (r: (Sprite, Gpu))
    ensures var s := r.0;
      && s.position == Vec2(area.x as real, area.y as real)
      && s.rotation == 0.0 && s.scale == 1.0
      && s.dimensions == Vec2(area.width as real, area.height as real)
      && s.layer == layer && s.texture == image
      && s.canvas.vertices == Corners(s.dimensions, layer)
      && s.canvas.texCoords == FullTexCoords && s.canvas.indices == QuadIndices
    ensures r.1.calls == g.calls + Meshes.SetUpCalls(r.0.canvas)
  {
    var dimensions := Vec2(area.width as real, area.height as real);
    var (canvas, g1) := Rebuild(None, dimensions, layer, FullTexCoords, g);
    (Sprite(canvas, image, Vec2(area.x as real, area.y as real), 0.0, 1.0, dimensions, layer), g1)
  }

  /** `ClipToFullTexture`: a new canvas showing the whole texture. */
  function ClipToFullTexture(s: Sprite, g: Gpu): (r: (Sprite, Gpu))
    ensures r.0.(canvas := s.canvas) == s
    ensures r.0.canvas.texCoords == FullTexCoords && r.0.canvas.vertices == Corners(s.dimensions, s.layer)
    ensures |r.1.calls| > |g.calls| && r.1.calls[|g.calls|] == DeleteMesh(s.canvas.id)
    ensures r.1.calls == g.calls + [DeleteMesh(s.canvas.id)] + Meshes.SetUpCalls(r.0.canvas)
    ensures r.0.canvas.hasTexCoords && r.0.canvas.isIndexed && !r.0.canvas.hasNormals && !r.0.canvas.hasColors
  {
    var (canvas, g1) := Rebuild(Some(s.canvas), s.dimensions, s.layer, FullTexCoords, g);
    (s.(canvas := canvas), g1)
  }

  /** The texture coordinates for a clip window from `topLeft` to `bottomRight`, in texture units. */
  function WindowTexCoords(topLeft: Vec2, bottomRight: Vec2): (r: seq<Vec2>)
    ensures |r| == 4
  {
    [Vec2(topLeft.x, bottomRight.y), Vec2(topLeft.x, topLeft.y), Vec2(bottomRight.x, bottomRight.y), Vec2(bottomRight.x, topLeft.y)]
  }

  /** `UpdateMesh`: a new canvas showing the window between two points of the texture. */
  function UpdateMesh(s: Sprite, topLeft: Vec2, bottomRight: Vec2, g: Gpu): (r: (Sprite, Gpu))
    ensures r.0.(canvas := s.canvas) == s
    ensures r.0.canvas.vertices == Corners(s.dimensions, s.layer) && r.0.canvas.indices == QuadIndices
    ensures r.0.canvas.texCoords ==
      [Vec2(topLeft.x, bottomRight.y), Vec2(topLeft.x, topLeft.y), Vec2(bottomRight.x, bottomRight.y), Vec2(bottomRight.x, topLeft.y)]
    ensures |r.1.calls| > |g.calls| && r.1.calls[|g.calls|] == DeleteMesh(s.canvas.id)
    ensures r.1.calls == g.calls + [DeleteMesh(s.canvas.id)] + Meshes.SetUpCalls(r.0.canvas)
    ensures r.0.canvas.hasTexCoords && r.0.canvas.isIndexed && !r.0.canvas.hasNormals && !r.0.canvas.hasColors
  {
    var (canvas, g1) := Rebuild(Some(s.canvas), s.dimensions, s.layer, WindowTexCoords(topLeft, bottomRight), g);
    (s.(canvas := canvas), g1)
  }

  /** Showing the window from (0, 0) to (1, 1) is showing the whole texture. */
  lemma UnitWindowIsFullTexture(s: Sprite, g: Gpu)
    ensures UpdateMesh(s, Vec2(0.0, 0.0), Vec2(1.0, 1.0), g) == ClipToFullTexture(s, g)
  {
    assert WindowTexCoords(Vec2(0.0, 0.0), Vec2(1.0, 1.0)) == FullTexCoords;
  }

  /** `Clip(left, right, bottom, top)`: pixel edges scaled to texture units by the texture's size. */
  function ClipEdges(s: Sprite, left: int, right: int, bottom: int, top: int, g: Gpu): (r: (Sprite, Gpu))
    ensures r.0.(canvas := s.canvas) == s
    ensures var w := s.texture.width as real;
      var h := s.texture.height as real;
      r.0.canvas.texCoords ==
        [Vec2(left as real / w, bottom as real / h), Vec2(left as real / w, top as real / h),
         Vec2(right as real / w, bottom as real / h), Vec2(right as real / w, top as real / h)]
    ensures r.1.calls == g.calls + [DeleteMesh(s.canvas.id)] + Meshes.SetUpCalls(r.0.canvas)
    ensures r.0.canvas.hasTexCoords && r.0.canvas.isIndexed && !r.0.canvas.hasNormals && !r.0.canvas.hasColors
  {
    var w := s.texture.width as real;
    var h := s.texture.height as real;
    UpdateMesh(s, Vec2(left as real / w, top as real / h), Vec2(right as real / w, bottom as real / h), g)
  }

  /**
   * `Clip(rectangle)`: the rectangle's edges, with its top at `y` and its bottom
   * at `y + height`; both sums are C# `int` sums and wrap around at 32 bits.
   */
  function ClipRect(s: Sprite, clipper: Rectangle, g: Gpu): (r: (Sprite, Gpu))
    ensures var right := WrapInt32(clipper.x + clipper.width);
      var bottom := WrapInt32(clipper.y + clipper.height);
      && Int32Min <= right <= Int32Max && Int32Min <= bottom <= Int32Max
      && r == ClipEdges(s, clipper.x, right, bottom, clipper.y, g)
    ensures r.0.(canvas := s.canvas) == s
  {
    var right := WrapInt32(clipper.x + clipper.width);
    var bottom := WrapInt32(clipper.y + clipper.height);
    ClipEdges(s, clipper.x, right, bottom, clipper.y, g)
  }

  /** A rectangle reaching past `int.MaxValue` has its right edge wrapped round to `int.MinValue`. */
  lemma ClipRectWrapsRightEdge(s: Sprite, g: Gpu)
    ensures ClipRect(s, Rectangle(Int32Max, 0, 1, 1), g) == ClipEdges(s, Int32Max, Int32Min, 1, 0, g)
  {
    assert WrapInt32(Int32Max + 1) == Int32Min;
  }

  /** A texture size divided by itself is 1, and 0 divided by it is 0. */
  lemma UnitRatios(n: Extent)
    ensures 0 as real / n as real == 0.0 && n as real / n as real == 1.0
  {
  }

  /** The pixel edges of the whole texture are the unit window. */
  lemma FullEdgesAreUnitWindow(s: Sprite, g: Gpu)
    ensures ClipEdges(s, 0, s.texture.width, s.texture.height, 0, g) == UpdateMesh(s, Vec2(0.0, 0.0), Vec2(1.0, 1.0), g)
  {
    var w := s.texture.width;
    var h := s.texture.height;
    var topLeft := Vec2(0 as real / w as real, 0 as real / h as real);
    var bottomRight := Vec2(w as real / w as real, h as real / h as real);
    UnitRatios(w);
    UnitRatios(h);
    assert topLeft == Vec2(0.0, 0.0) && bottomRight == Vec2(1.0, 1.0);
    assert ClipEdges(s, 0, w, h, 0, g) == UpdateMesh(s, topLeft, bottomRight, g);
  }

  /** Clipping to the whole texture in pixels shows the whole texture. */
  lemma FullRectIsFullTexture(s: Sprite, g: Gpu)
    ensures ClipRect(s, Rectangle(0, 0, s.texture.width, s.texture.height), g).0 == ClipToFullTexture(s, g).0
  {
    FullEdgesAreUnitWindow(s, g);
    UnitWindowIsFullTexture(s, g);
  }

  /** `Draw`: the canvas is drawn with the sprite's texture bound, which is unbound afterwards. */
  function Draw(s: Sprite, g: Gpu): (r: Gpu)
    ensures r.calls == g.calls + [BindTexture(s.texture.id)] + Meshes.DrawCalls(s.canvas) + [BindTexture(0)]
    ensures |r.calls| >= |g.calls| + 2
    ensures r.calls[|g.calls|] == BindTexture(s.texture.id) && r.calls[|r.calls| - 1] == BindTexture(0)
    ensures r.program == g.program
  {
    var g1 := Issue(g, BindTexture(s.texture.id));
    var g2 := Meshes.Draw(s.canvas, g1);
    Meshes.DrawRestoresSlots(s.canvas, g1);
    Issue(g2, BindTexture(0))
  }

  /** `Delete`: the canvas is deleted. */
  function Delete(s: Sprite, g: Gpu): (r: Gpu)
    ensures r.calls == g.calls + [DeleteMesh(s.canvas.id)]
  {
    Issue(g, DeleteMesh(s.canvas.id))
  }
}
