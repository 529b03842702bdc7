/**
 * A drawable mesh: five CPU-side lists, presence flags fixed by `SetUp`, one
 * device buffer per present list, and a draw that brackets the attribute
 * slots it uses. Operations return the new mesh and the device after the
 * calls they issue.
 */
module Meshes {
  import opened Algebra
  import opened Outcomes
  import opened Gl
  import opened Vertices
  import opened Welding
  import Shaders

  datatype Mesh = Mesh(
    id: int,
    hasNormals: bool,
    hasTexCoords: bool,
    hasColors: bool,
    isIndexed: bool,
    positionBuffer: int,
    normalBuffer: int,
    texCoordBuffer: int,
    colorBuffer: int,
    indexBuffer: int,
    vertices: seq<Vec3>,
    normals: seq<Vec3>,
    colors: seq<Vec4>,
    texCoords: seq<Vec2>,
    indices: seq<nat>)

  /** Bytes per element of each uploaded list (`Vector2/3/4.SizeInBytes`, `sizeof(uint)`). */
  const Vector2Bytes := 8
  const Vector3Bytes := 12
  const Vector4Bytes := 16
  const IndexBytes := 4

  /** The texture coordinate a loader stores when a corner has none. */
  const NoTexCoord: Vec2 := Vec2(-1.0, -1.0)

  /** `new Mesh()`: id -1, every list empty, flags false, buffer fields at their default 0. */
  function NewMesh(): (m: Mesh)
    ensures m.id == -1
    ensures m.vertices == [] && m.normals == [] && m.colors == [] && m.texCoords == [] && m.indices == []
    ensures !m.hasNormals && !m.hasTexCoords && !m.hasColors && !m.isIndexed
  {
    Mesh(-1, false, false, false, false, 0, 0, 0, 0, 0, [], [], [], [], [])
  }

  // ---------------------------------------------------------------------------
  // Loading welded data

  /** The positions of the units, in order. */
  function Positions(units: seq<VertexUnit>): (r: seq<Vec3>)
    ensures |r| == |units|
    ensures forall k :: 0 <= k < |units| ==> r[k] == units[k].position
  {
    if units == [] then [] else [units[0].position] + Positions(units[1..])
  }

  /** The normals of the units that are not the zero vector, in order. */
  function SuppliedNormals(units: seq<VertexUnit>): (r: seq<Vec3>)
    ensures |r| <= |units|
    ensures forall n :: n in r <==> n != Zero3 && exists k :: 0 <= k < |units| && units[k].normal == n
    ensures (forall k :: 0 <= k < |units| ==> units[k].normal != Zero3) ==>
      |r| == |units| && forall k :: 0 <= k < |units| ==> r[k] == units[k].normal
  {
    if units == [] then []
    else
      var rest := SuppliedNormals(units[1..]);
      assert forall k :: 0 <= k < |units[1..]| ==> units[1..][k] == units[k + 1];
      if units[0].normal != Zero3 then [units[0].normal] + rest else rest
  }

  /** The texture coordinates of the units that are not (-1, -1), in order. */
  function SuppliedTexCoords(units: seq<VertexUnit>): (r: seq<Vec2>)
    ensures |r| <= |units|
    ensures forall t :: t in r <==> t != NoTexCoord && exists k :: 0 <= k < |units| && units[k].texCoord == t
    ensures (forall k :: 0 <= k < |units| ==> units[k].texCoord != NoTexCoord) ==>
      |r| == |units| && forall k :: 0 <= k < |units| ==> r[k] == units[k].texCoord
  {
    if units == [] then []
    else
      var rest := SuppliedTexCoords(units[1..]);
      assert forall k :: 0 <= k < |units[1..]| ==> units[1..][k] == units[k + 1];
      if units[0].texCoord != NoTexCoord then [units[0].texCoord] + rest else rest
  }

  /** `LoadData`: appends every position, the supplied normals and texture coordinates, and every index. */
  function LoadData(m: Mesh, data: MeshData): (r: Mesh)
    ensures |r.vertices| == |m.vertices| + |data.vertices| && r.vertices[..|m.vertices|] == m.vertices
    ensures forall k :: 0 <= k < |data.vertices| ==> r.vertices[|m.vertices| + k] == data.vertices[k].position
    ensures r.normals == m.normals + SuppliedNormals(data.vertices)
    ensures r.texCoords == m.texCoords + SuppliedTexCoords(data.vertices)
    ensures r.indices == m.indices + data.indices
    ensures r.colors == m.colors
    ensures r.(vertices := m.vertices, normals := m.normals, texCoords := m.texCoords, indices := m.indices) == m
  {
    m.(vertices := m.vertices + Positions(data.vertices),
       normals := m.normals + SuppliedNormals(data.vertices),
       texCoords := m.texCoords + SuppliedTexCoords(data.vertices),
       indices := m.indices + data.indices)
  }

  // ---------------------------------------------------------------------------
  // The constructor from welded data, as written

  /** A `NullReferenceException`: a method called on a list field that was never assigned. */
  datatype Fault = NullReference

  /**
   * The list fields of a mesh and its name, where a list may be a null
   * reference (`None`): the fields as a constructor leaves them.
   */
  datatype ListFields = ListFields(
    id: int,
    vertices: Option<seq<Vec3>>,
    normals: Option<seq<Vec3>>,
    texCoords: Option<seq<Vec2>>,
    indices: Option<seq<nat>>)

  /** The list fields of a mesh whose lists all exist. */
  function FieldsOf(m: Mesh): ListFields {
    ListFields(m.id, Some(m.vertices), Some(m.normals), Some(m.texCoords), Some(m.indices))
  }

  /** `list.Add(x)`: the list grown by `x`, or a null reference when there is no list. */
  function Add<T>(list: Option<seq<T>>, x: T): Result<Option<seq<T>>, Fault> {
    match list
    case None => Failure(NullReference)
    case Some(xs) => Success(Some(xs + [x]))
  }

  /** The first loop of `LoadData`, unit by unit, through `Add`. */
  function LoadUnitsAsWritten(f: ListFields, units: seq<VertexUnit>): Result<ListFields, Fault>
    decreases |units|
  {
    if units == [] then Success(f)
    else
      var u := units[0];
      var vs :- Add(f.vertices, u.position);
      var ns :- if u.normal != Zero3 then Add(f.normals, u.normal) else Success(f.normals);
      var ts :- if u.texCoord != NoTexCoord then Add(f.texCoords, u.texCoord) else Success(f.texCoords);
      LoadUnitsAsWritten(f.(vertices := vs, normals := ns, texCoords := ts), units[1..])
  }

  /** The second loop of `LoadData`, index by index, through `Add`. */
  function LoadIndicesAsWritten(f: ListFields, indices: seq<nat>): Result<ListFields, Fault>
    decreases |indices|
  {
    if indices == [] then Success(f)
    else
      var xs :- Add(f.indices, indices[0]);
      LoadIndicesAsWritten(f.(indices := xs), indices[1..])
  }

  /** `LoadData` on list fields that may be null. */
  function LoadDataAsWritten(f: ListFields, data: MeshData): Result<ListFields, Fault> {
    var f1 :- LoadUnitsAsWritten(f, data.vertices);
    LoadIndicesAsWritten(f1, data.indices)
  }

  /** The fields on entry to `new Mesh(MeshData)`: no list assigned, and the name at its default 0. */
  const Unassigned := ListFields(0, None, None, None, None)

  /**
   * `new Mesh(MeshData)` as written: it calls `LoadData` without creating the
   * lists, so any data with a corner or an index throws, and only empty data
   * constructs, leaving every list null and the name 0.
   */
  function MeshFromDataAsWritten(data: MeshData): (r: Result<ListFields, Fault>)
    ensures r.Failure? <==> |data.vertices| > 0 || |data.indices| > 0
    ensures r.Success? ==> r.value.vertices == None && r.value.indices == None && r.value.id == 0
  {
    LoadDataAsWritten(Unassigned, data)
  }

  /** Any welded input with at least one corner makes the constructor as written throw. */
  lemma MeshFromDataAsWrittenThrows(u: VertexUnit)
    ensures MeshFromDataAsWritten(Weld([u])) == Failure(NullReference)
  {
    assert [u][..0] == [];
  }

  /** The list fields after the first unit, when the lists exist. */
  function AfterUnit(f: ListFields, u: VertexUnit): ListFields
    requires f.vertices.Some? && f.normals.Some? && f.texCoords.Some?
  {
    f.(vertices := Some(f.vertices.value + [u.position]),
       normals := Some(if u.normal != Zero3 then f.normals.value + [u.normal] else f.normals.value),
       texCoords := Some(if u.texCoord != NoTexCoord then f.texCoords.value + [u.texCoord] else f.texCoords.value))
  }

  /** With the lists created, one unit is appended without a throw. */
  lemma LoadUnitStep(f: ListFields, units: seq<VertexUnit>)
    requires f.vertices.Some? && f.normals.Some? && f.texCoords.Some? && units != []
    ensures LoadUnitsAsWritten(f, units) == LoadUnitsAsWritten(AfterUnit(f, units[0]), units[1..])
  {
  }

  /** Appending one element, then a sequence, is appending the element's sequence. */
  lemma AppendOne<T>(xs: seq<T>, x: T, rest: seq<T>)
    ensures xs + [x] + rest == xs + ([x] + rest)
  {
  }

  /** The lists that the first unit contributes, followed by those of the rest. */
  lemma SuppliedUnfold(vs: seq<Vec3>, ns: seq<Vec3>, ts: seq<Vec2>, units: seq<VertexUnit>)
    requires units != []
    ensures vs + [units[0].position] + Positions(units[1..]) == vs + Positions(units)
    ensures (if units[0].normal != Zero3 then ns + [units[0].normal] else ns) + SuppliedNormals(units[1..]) == ns + SuppliedNormals(units)
    ensures (if units[0].texCoord != NoTexCoord then ts + [units[0].texCoord] else ts) + SuppliedTexCoords(units[1..]) == ts + SuppliedTexCoords(units)
  {
    var u := units[0];
    AppendOne(vs, u.position, Positions(units[1..]));
    AppendOne(ns, u.normal, SuppliedNormals(units[1..]));
    AppendOne(ts, u.texCoord, SuppliedTexCoords(units[1..]));
  }

  /** With the lists created, the first loop appends as `LoadData` does. */
  lemma {:induction false} LoadUnitsWithLists(f: ListFields, vs: seq<Vec3>, ns: seq<Vec3>, ts: seq<Vec2>, units: seq<VertexUnit>)
    requires f.vertices == Some(vs) && f.normals == Some(ns) && f.texCoords == Some(ts)
    ensures LoadUnitsAsWritten(f, units) == Success(f.(
      vertices := Some(vs + Positions(units)),
      normals := Some(ns + SuppliedNormals(units)),
      texCoords := Some(ts + SuppliedTexCoords(units))))
    decreases |units|
  {
    if units == [] {
      assert vs + [] == vs && ns + [] == ns && ts + [] == ts;
    } else {
      var f1 := AfterUnit(f, units[0]);
      LoadUnitStep(f, units);
      LoadUnitsWithLists(f1, f1.vertices.value, f1.normals.value, f1.texCoords.value, units[1..]);
      SuppliedUnfold(vs, ns, ts, units);
    }
  }

  /** With the index list created, the second loop appends every index. */
  lemma {:induction false} LoadIndicesWithList(f: ListFields, held: seq<nat>, indices: seq<nat>)
    requires f.indices == Some(held)
    ensures LoadIndicesAsWritten(f, indices) == Success(f.(indices := Some(held + indices)))
    decreases |indices|
  {
    if indices == [] {
      assert held + [] == held;
    } else {
      LoadIndicesWithList(f.(indices := Some(held + [indices[0]])), held + [indices[0]], indices[1..]);
      assert held + [indices[0]] + indices[1..] == held + indices;
    }
  }

  /**
   * Once the lists exist, `LoadData` as written never throws and fills them
   * exactly as the model's `LoadData` does.
   */
  lemma LoadDataWithLists(m: Mesh, data: MeshData)
    ensures LoadDataAsWritten(FieldsOf(m), data) == Success(FieldsOf(LoadData(m, data)))
  {
    var f := FieldsOf(m);
    LoadUnitsWithLists(f, m.vertices, m.normals, m.texCoords, data.vertices);
    var f1 := LoadUnitsAsWritten(f, data.vertices).value;
    LoadIndicesWithList(f1, m.indices, data.indices);
    var r := LoadData(m, data);
    assert r.vertices == m.vertices + Positions(data.vertices);
  }

  /** `new Mesh(MeshData)` as intended: the lists of `new Mesh()` filled by `LoadData`. */
  function FromMeshData(data: MeshData): (r: Mesh)
    ensures r.id == -1 && r.colors == []
    ensures |r.vertices| == |data.vertices|
    ensures forall k :: 0 <= k < |data.vertices| ==> r.vertices[k] == data.vertices[k].position
    ensures |r.normals| <= |r.vertices| && |r.texCoords| <= |r.vertices|
    ensures r.indices == data.indices
  {
    LoadData(NewMesh(), data)
  }

  /**
   * The corrected constructor is the as-written loader run on the lists that
   * `new Mesh()` creates: it never throws, and the name stays -1.
   */
  lemma FromMeshDataCreatesLists(data: MeshData)
    ensures LoadDataAsWritten(FieldsOf(NewMesh()), data) == Success(FieldsOf(FromMeshData(data)))
    ensures FromMeshData(data).id == -1
  {
    LoadDataWithLists(NewMesh(), data);
  }

  /** Welding then loading: the position at the k-th index is the k-th corner's position. */
  lemma WeldThenLoadRoundTrip(units: seq<VertexUnit>)
    ensures |FromMeshData(Weld(units)).indices| == |units|
    ensures forall k :: 0 <= k < |units| ==>
      FromMeshData(Weld(units)).indices[k] < |FromMeshData(Weld(units)).vertices| &&
      FromMeshData(Weld(units)).vertices[FromMeshData(Weld(units)).indices[k]] == units[k].position
  {
    var d := Weld(units);
    var m := FromMeshData(d);
    WeldRoundTrip(units);
    forall k | 0 <= k < |units|
      ensures m.indices[k] < |m.vertices| && m.vertices[m.indices[k]] == units[k].position
    {
      assert m.indices[k] == d.indices[k];
      assert d.vertices[d.indices[k]] == units[k];
    }
  }

  // ---------------------------------------------------------------------------
  // Adding data by hand

  /** `AddVertex`: appends to the positions and to nothing else. */
  function AddVertex(m: Mesh, v: Vec3): (r: Mesh)
    ensures |r.vertices| == |m.vertices| + 1 && r.vertices[..|m.vertices|] == m.vertices
    ensures r.vertices[|m.vertices|] == v && r.(vertices := m.vertices) == m
  {
    m.(vertices := m.vertices + [v])
  }

  /** `AddNormal`: appends to the normals and to nothing else. */
  function AddNormal(m: Mesh, n: Vec3): (r: Mesh)
    ensures |r.normals| == |m.normals| + 1 && r.normals[..|m.normals|] == m.normals
    ensures r.normals[|m.normals|] == n && r.(normals := m.normals) == m
  {
    m.(normals := m.normals + [n])
  }

  /** `AddColor(Vector4)`: appends to the colours and to nothing else. */
  function AddColor(m: Mesh, c: Vec4): (r: Mesh)
    ensures |r.colors| == |m.colors| + 1 && r.colors[..|m.colors|] == m.colors
    ensures r.colors[|m.colors|] == c && r.(colors := m.colors) == m
  {
    m.(colors := m.colors + [c])
  }

  /**
   * `AddColor(Color)`: each byte channel becomes the component that, scaled
   * by 255, gives the byte back; so every component lies in [0, 1], is 1
   * exactly for a full channel and 0 exactly for an empty one.
   */
  function AddColorBytes(m: Mesh, c: Color): (r: Mesh)
    ensures |r.colors| == |m.colors| + 1 && r.colors[..|m.colors|] == m.colors && r.(colors := m.colors) == m
    ensures var v := r.colors[|m.colors|];
      v.x * 255.0 == c.r as real && v.y * 255.0 == c.g as real && v.z * 255.0 == c.b as real && v.w * 255.0 == c.a as real
    ensures var v := r.colors[|m.colors|];
      0.0 <= v.x <= 1.0 && 0.0 <= v.y <= 1.0 && 0.0 <= v.z <= 1.0 && 0.0 <= v.w <= 1.0
    ensures var v := r.colors[|m.colors|];
      && (v.x == 1.0 <==> c.r == 255) && (v.y == 1.0 <==> c.g == 255)
      && (v.z == 1.0 <==> c.b == 255) && (v.w == 1.0 <==> c.a == 255)
    ensures var v := r.colors[|m.colors|];
      && (v.x == 0.0 <==> c.r == 0) && (v.y == 0.0 <==> c.g == 0)
      && (v.z == 0.0 <==> c.b == 0) && (v.w == 0.0 <==> c.a == 0)
  {
    AddColor(m, Vec4(c.r as real / 255.0, c.g as real / 255.0, c.b as real / 255.0, c.a as real / 255.0))
  }

  /** `AddTexCoord`: appends to the texture coordinates and to nothing else. */
  function AddTexCoord(m: Mesh, t: Vec2): (r: Mesh)
    ensures |r.texCoords| == |m.texCoords| + 1 && r.texCoords[..|m.texCoords|] == m.texCoords
    ensures r.texCoords[|m.texCoords|] == t && r.(texCoords := m.texCoords) == m
  {
    m.(texCoords := m.texCoords + [t])
  }

  /** `AddIndex`: appends to the indices and to nothing else. */
  function AddIndex(m: Mesh, i: nat): (r: Mesh)
    ensures |r.indices| == |m.indices| + 1 && r.indices[..|m.indices|] == m.indices
    ensures r.indices[|m.indices|] == i && r.(indices := m.indices) == m
  {
    m.(indices := m.indices + [i])
  }

  /** `AddIndices`, which the sprite code calls: `AddIndex` on each value in turn. */
  function AddIndices(m: Mesh, values: seq<nat>): (r: Mesh)
    ensures r.indices == m.indices + values && r.(indices := m.indices) == m
    decreases |values|
  {
    if values == [] then m else AddIndices(AddIndex(m, values[0]), values[1..])
  }

  // ---------------------------------------------------------------------------
  // Set-up: flags and buffers

  /** `GL.GenBuffer` is done by the caller; this is `LoadArrayBuffer`/`LoadIndices` for one buffer. */
  function UploadCalls(target: BufferTarget, buffer: int, bytes: int): (cs: seq<Call>)
    ensures forall c :: c in cs ==> c.GenBuffer? || c.BindBuffer? || c.BufferData?
    ensures forall b :: GenBuffer(b) in cs <==> b == buffer
  {
    [GenBuffer(buffer), BindBuffer(target, buffer), BufferData(target, bytes), BindBuffer(target, 0)]
  }

  /** The calls `SetUp` issues, given the flags and names it settled on. */
  function SetUpCalls(r: Mesh): (cs: seq<Call>)
    ensures forall c :: c in cs ==> c.GenBuffer? || c.BindBuffer? || c.BufferData? || c.GenVertexArray?
    ensures forall b :: GenBuffer(b) in cs <==> b in Allocated(r)
  {
    UploadCalls(ArrayBuffer, r.positionBuffer, Vector3Bytes * |r.vertices|)
    + (if r.hasColors then UploadCalls(ArrayBuffer, r.colorBuffer, Vector4Bytes * |r.colors|) else [])
    + (if r.hasNormals then UploadCalls(ArrayBuffer, r.normalBuffer, Vector3Bytes * |r.normals|) else [])
    + (if r.hasTexCoords then UploadCalls(ArrayBuffer, r.texCoordBuffer, Vector2Bytes * |r.texCoords|) else [])
    + (if r.isIndexed then UploadCalls(ElementArrayBuffer, r.indexBuffer, IndexBytes * |r.indices|) else [])
    + [GenVertexArray(r.id)]
  }

  /** The mesh `SetUp` leaves: flags raised for non-empty lists, fresh names for the flagged buffers. */
  function SetUpMesh(m: Mesh, n0: int): (r: Mesh)
    ensures r.hasColors == (m.hasColors || |m.colors| > 0)
    ensures r.hasNormals == (m.hasNormals || |m.normals| > 0)
    ensures r.hasTexCoords == (m.hasTexCoords || |m.texCoords| > 0)
    ensures r.isIndexed == (m.isIndexed || |m.indices| > 0)
    ensures r.vertices == m.vertices && r.normals == m.normals && r.colors == m.colors
    ensures r.texCoords == m.texCoords && r.indices == m.indices
    ensures !r.hasColors ==> r.colorBuffer == m.colorBuffer
    ensures !r.hasNormals ==> r.normalBuffer == m.normalBuffer
    ensures !r.hasTexCoords ==> r.texCoordBuffer == m.texCoordBuffer
    ensures !r.isIndexed ==> r.indexBuffer == m.indexBuffer
    ensures r.positionBuffer == n0 && r.id > n0
  {
    var hasColors := m.hasColors || |m.colors| > 0;
    var hasNormals := m.hasNormals || |m.normals| > 0;
    var hasTexCoords := m.hasTexCoords || |m.texCoords| > 0;
    var isIndexed := m.isIndexed || |m.indices| > 0;
    var n1 := n0 + 1;
    var n2 := if hasColors then n1 + 1 else n1;
    var n3 := if hasNormals then n2 + 1 else n2;
    var n4 := if hasTexCoords then n3 + 1 else n3;
    var n5 := if isIndexed then n4 + 1 else n4;
    m.(hasColors := hasColors, hasNormals := hasNormals,
       hasTexCoords := hasTexCoords, isIndexed := isIndexed,
       positionBuffer := n0,
       colorBuffer := if hasColors then n1 else m.colorBuffer,
       normalBuffer := if hasNormals then n2 else m.normalBuffer,
       texCoordBuffer := if hasTexCoords then n3 else m.texCoordBuffer,
       indexBuffer := if isIndexed then n4 else m.indexBuffer,
       id := n5)
  }

  /** `SetUp`: fixes the flags, uploads each present list to a new buffer, creates the vertex array. */
  function SetUp(m: Mesh, g: Gpu): (r: (Mesh, Gpu))
    ensures r.0.hasColors == (m.hasColors || |m.colors| > 0)
    ensures r.0.hasNormals == (m.hasNormals || |m.normals| > 0)
    ensures r.0.hasTexCoords == (m.hasTexCoords || |m.texCoords| > 0)
    ensures r.0.isIndexed == (m.isIndexed || |m.indices| > 0)
    ensures r.0.vertices == m.vertices && r.0.normals == m.normals && r.0.colors == m.colors
    ensures r.0.texCoords == m.texCoords && r.0.indices == m.indices
    ensures r.1.calls == g.calls + SetUpCalls(r.0)
    ensures r.0.positionBuffer == g.nextName && r.1.nextName > r.0.id
    ensures r.1.program == g.program && r.1.enabled == g.enabled
  {
    var r := SetUpMesh(m, g.nextName);
    var g' := IssueAll(g.(nextName := r.id + 1), SetUpCalls(r));
    IssueAllEnables(g.(nextName := r.id + 1), SetUpCalls(r));
    assert forall s :: EnableVertexAttribArray(s) !in SetUpCalls(r);
    assert forall s :: s in g'.enabled <==> s in g.enabled;
    (r, g')
  }

  /** The buffer names `SetUp` settles on, in the order it creates them. */
  function Allocated(r: Mesh): seq<int> {
    [r.positionBuffer]
    + (if r.hasColors then [r.colorBuffer] else [])
    + (if r.hasNormals then [r.normalBuffer] else [])
    + (if r.hasTexCoords then [r.texCoordBuffer] else [])
    + (if r.isIndexed then [r.indexBuffer] else [])
  }

  /** How many buffers `SetUp` creates for a mesh with the given flags. */
  function BufferCount(r: Mesh): nat {
    1 + (if r.hasColors then 1 else 0) + (if r.hasNormals then 1 else 0)
      + (if r.hasTexCoords then 1 else 0) + (if r.isIndexed then 1 else 0)
  }

  /** The names `SetUpMesh` hands out are consecutive from `n0`, and the vertex array takes the next. */
  lemma AllocatedConsecutive(m: Mesh, n0: int)
    ensures Allocated(SetUpMesh(m, n0)) == seq(BufferCount(SetUpMesh(m, n0)), i => n0 + i)
    ensures SetUpMesh(m, n0).id == n0 + BufferCount(SetUpMesh(m, n0))
  {
    var r := SetUpMesh(m, n0);
    var a1 := [r.positionBuffer];
    var a2 := a1 + (if r.hasColors then [r.colorBuffer] else []);
    var a3 := a2 + (if r.hasNormals then [r.normalBuffer] else []);
    var a4 := a3 + (if r.hasTexCoords then [r.texCoordBuffer] else []);
    var a5 := a4 + (if r.isIndexed then [r.indexBuffer] else []);
    assert a1 == seq(|a1|, i => n0 + i);
    assert a2 == seq(|a2|, i => n0 + i);
    assert a3 == seq(|a3|, i => n0 + i);
    assert a4 == seq(|a4|, i => n0 + i);
    assert a5 == seq(|a5|, i => n0 + i);
  }

  /** `SetUp` creates a position buffer and one buffer per raised flag, under consecutive fresh names. */
  lemma SetUpAllocates(m: Mesh, g: Gpu)
    ensures var r := SetUp(m, g).0;
      var issued := SetUp(m, g).1.calls[|g.calls|..];
      && (forall b :: GenBuffer(b) in issued <==> b in Allocated(r))
      && Allocated(r) == seq(BufferCount(r), i => g.nextName + i)
      && r.id == g.nextName + BufferCount(r)
  {
    var res := SetUp(m, g);
    assert res.0 == SetUpMesh(m, g.nextName);
    assert res.1.calls[|g.calls|..] == SetUpCalls(res.0);
    AllocatedConsecutive(m, g.nextName);
  }

  /** `SetUp` uploads every position, and every index when indexed. */
  lemma SetUpUploads(m: Mesh, g: Gpu)
    ensures var r := SetUp(m, g).0;
      var issued := SetUp(m, g).1.calls[|g.calls|..];
      && BufferData(ArrayBuffer, Vector3Bytes * |m.vertices|) in issued
      && (r.isIndexed ==> BufferData(ElementArrayBuffer, IndexBytes * |m.indices|) in issued)
  {
    var res := SetUp(m, g);
    var r := res.0;
    assert res.1.calls[|g.calls|..] == SetUpCalls(r);
    assert BufferData(ArrayBuffer, Vector3Bytes * |m.vertices|) in UploadCalls(ArrayBuffer, r.positionBuffer, Vector3Bytes * |r.vertices|);
    if r.isIndexed {
      assert BufferData(ElementArrayBuffer, IndexBytes * |m.indices|) in UploadCalls(ElementArrayBuffer, r.indexBuffer, IndexBytes * |r.indices|);
    }
  }

  // ---------------------------------------------------------------------------
  // Drawing

  /** The buffer whose data an attribute slot reads: position, colour, normal, texture coordinate. */
  function SlotBuffer(m: Mesh, slot: int): int {
    if slot == Shaders.Slot(Shaders.VertexPosition) then m.positionBuffer
    else if slot == Shaders.Slot(Shaders.VertexColor) then m.colorBuffer
    else if slot == Shaders.Slot(Shaders.VertexNormal) then m.normalBuffer
    else m.texCoordBuffer
  }

  /** Every attribute pointer comes right after binding the buffer of its slot. */
  predicate PointersFollowBinds(m: Mesh, cs: seq<Call>) {
    forall k :: 0 <= k < |cs| && cs[k].VertexAttribPointer? ==>
      0 < k && cs[k - 1] == BindBuffer(ArrayBuffer, SlotBuffer(m, cs[k].slot))
  }

  /** Two call runs in which each pointer follows its bind still have that property once joined. */
  lemma PointersFollowBindsAppend(m: Mesh, a: seq<Call>, b: seq<Call>)
    requires PointersFollowBinds(m, a) && PointersFollowBinds(m, b)
    ensures PointersFollowBinds(m, a + b)
  {
    forall k | 0 <= k < |a + b| && (a + b)[k].VertexAttribPointer?
      ensures 0 < k && (a + b)[k - 1] == BindBuffer(ArrayBuffer, SlotBuffer(m, (a + b)[k].slot))
    {
      if k < |a| {
        assert (a + b)[k] == a[k] && (a + b)[k - 1] == a[k - 1];
      } else {
        assert (a + b)[k] == b[k - |a|];
        assert 0 < k - |a|;
        assert (a + b)[k - 1] == b[k - |a| - 1];
      }
    }
  }

  /** Binding one attribute's buffer and pointing its slot at it, when the attribute is present. */
  function AttributeCalls(present: bool, buffer: int, slot: int, size: int): (cs: seq<Call>)
    ensures forall s, n :: VertexAttribPointer(s, n) in cs <==> present && s == slot && n == size
    ensures forall t, b :: BindBuffer(t, b) in cs <==> present && t == ArrayBuffer && b == buffer
    ensures forall c :: c in cs ==> c.BindBuffer? || c.VertexAttribPointer?
    ensures present ==> cs == [BindBuffer(ArrayBuffer, buffer), VertexAttribPointer(slot, size)]
    ensures !present ==> cs == []
  {
    if present then [BindBuffer(ArrayBuffer, buffer), VertexAttribPointer(slot, size)] else []
  }

  /** The calls of `BindBuffers`. */
  function BindBufferCalls(m: Mesh): (cs: seq<Call>)
    ensures forall s, n :: VertexAttribPointer(s, n) in cs <==>
      || (s == Shaders.Slot(Shaders.VertexPosition) && n == 3)
      || (m.hasColors && s == Shaders.Slot(Shaders.VertexColor) && n == 4)
      || (m.hasNormals && s == Shaders.Slot(Shaders.VertexNormal) && n == 3)
      || (m.hasTexCoords && s == Shaders.Slot(Shaders.VertexTexCoord) && n == 2)
    ensures BindBuffer(ArrayBuffer, m.positionBuffer) in cs
    ensures forall b :: BindBuffer(ArrayBuffer, b) in cs <==>
      || b == m.positionBuffer
      || (m.hasColors && b == m.colorBuffer)
      || (m.hasNormals && b == m.normalBuffer)
      || (m.hasTexCoords && b == m.texCoordBuffer)
    ensures PointersFollowBinds(m, cs)
    ensures forall b :: BindBuffer(ElementArrayBuffer, b) in cs <==> m.isIndexed && b == m.indexBuffer
    ensures forall c :: c in cs ==> c.BindBuffer? || c.VertexAttribPointer?
  {
    var a1 := AttributeCalls(true, m.positionBuffer, Shaders.Slot(Shaders.VertexPosition), 3);
    var a2 := AttributeCalls(m.hasColors, m.colorBuffer, Shaders.Slot(Shaders.VertexColor), 4);
    var a3 := AttributeCalls(m.hasNormals, m.normalBuffer, Shaders.Slot(Shaders.VertexNormal), 3);
    var a4 := AttributeCalls(m.hasTexCoords, m.texCoordBuffer, Shaders.Slot(Shaders.VertexTexCoord), 2);
    var a5: seq<Call> := if m.isIndexed then [BindBuffer(ElementArrayBuffer, m.indexBuffer)] else [];
    AttributePointersFollowBinds(m);
    PointersFollowBindsAppend(m, a1, a2);
    PointersFollowBindsAppend(m, a1 + a2, a3);
    PointersFollowBindsAppend(m, a1 + a2 + a3, a4);
    PointersFollowBindsAppend(m, a1 + a2 + a3 + a4, a5);
    a1 + a2 + a3 + a4 + a5
  }

  /** In each attribute's calls, the pointer follows the bind of that attribute's own buffer. */
  lemma AttributePointersFollowBinds(m: Mesh)
    ensures PointersFollowBinds(m, AttributeCalls(true, m.positionBuffer, Shaders.Slot(Shaders.VertexPosition), 3))
    ensures PointersFollowBinds(m, AttributeCalls(m.hasColors, m.colorBuffer, Shaders.Slot(Shaders.VertexColor), 4))
    ensures PointersFollowBinds(m, AttributeCalls(m.hasNormals, m.normalBuffer, Shaders.Slot(Shaders.VertexNormal), 3))
    ensures PointersFollowBinds(m, AttributeCalls(m.hasTexCoords, m.texCoordBuffer, Shaders.Slot(Shaders.VertexTexCoord), 2))
    ensures PointersFollowBinds(m, if m.isIndexed then [BindBuffer(ElementArrayBuffer, m.indexBuffer)] else [])
  {
  }

  /** `BindBuffers`: binds the position buffer and each flagged buffer to its fixed slot. */
  function BindBuffers(m: Mesh, g: Gpu): (r: Gpu)
    ensures r.calls == g.calls + BindBufferCalls(m)
    ensures r.enabled == g.enabled && r.program == g.program
  {
    BindingsKeepState(m, g);
    IssueAll(g, BindBufferCalls(m))
  }

  /** Binding calls leave the program and the enabled slots alone. */
  lemma BindingsKeepState(m: Mesh, g: Gpu)
    ensures IssueAll(g, BindBufferCalls(m)).enabled == g.enabled
    ensures IssueAll(g, BindBufferCalls(m)).program == g.program
  {
    var cs := BindBufferCalls(m);
    assert OnlyEnables(cs);
    IssueAllEnables(g, cs);
    var r := IssueAll(g, cs);
    forall s ensures s in r.enabled <==> s in g.enabled {
      if EnableVertexAttribArray(s) in cs {
        assert false;
      }
    }
  }

  /** The slots a draw of `m` enables. */
  function EnableCalls(m: Mesh): (cs: seq<Call>)
    ensures forall c :: c in cs ==> c.EnableVertexAttribArray?
    ensures forall s :: EnableVertexAttribArray(s) in cs <==> s in PresentSlots(m)
  {
    [EnableVertexAttribArray(Shaders.Slot(Shaders.VertexPosition))]
    + (if m.hasColors then [EnableVertexAttribArray(Shaders.Slot(Shaders.VertexColor))] else [])
    + (if m.hasNormals then [EnableVertexAttribArray(Shaders.Slot(Shaders.VertexNormal))] else [])
    + (if m.hasTexCoords then [EnableVertexAttribArray(Shaders.Slot(Shaders.VertexTexCoord))] else [])
  }

  /** The slot of each attribute whose data the mesh holds; the position slot always. */
  function PresentSlots(m: Mesh): (r: set<int>)
    ensures r <= {0, 1, 2, 3}
    ensures forall s :: s in r <==>
      || s == Shaders.Slot(Shaders.VertexPosition)
      || (s == Shaders.Slot(Shaders.VertexColor) && m.hasColors)
      || (s == Shaders.Slot(Shaders.VertexNormal) && m.hasNormals)
      || (s == Shaders.Slot(Shaders.VertexTexCoord) && m.hasTexCoords)
  {
    {Shaders.Slot(Shaders.VertexPosition)}
    + (if m.hasColors then {Shaders.Slot(Shaders.VertexColor)} else {})
    + (if m.hasNormals then {Shaders.Slot(Shaders.VertexNormal)} else {})
    + (if m.hasTexCoords then {Shaders.Slot(Shaders.VertexTexCoord)} else {})
  }

  /** The one draw call: indexed over the current index count, or over the current vertex count. */
  function DrawCommand(m: Mesh): Call {
    if m.isIndexed then DrawElements(Triangles, |m.indices|) else DrawArrays(Triangles, 0, |m.vertices|)
  }

  const DisableCalls: seq<Call> := [
    DisableVertexAttribArray(0), DisableVertexAttribArray(1),
    DisableVertexAttribArray(2), DisableVertexAttribArray(3)]

  /** Everything `Draw` issues before the draw call itself. */
  function DrawPrologue(m: Mesh): (cs: seq<Call>)
    ensures forall c :: c in cs ==> c.BindVertexArray? || c.BindBuffer? || c.VertexAttribPointer? || c.EnableVertexAttribArray?
    ensures forall s :: EnableVertexAttribArray(s) in cs <==> s in PresentSlots(m)
  {
    [BindVertexArray(m.id)] + BindBufferCalls(m) + EnableCalls(m)
  }

  predicate IsDraw(c: Call) {
    c.DrawElements? || c.DrawArrays?
  }

  /** `Draw`: bind, enable the present slots, draw once, disable slots 0 to 3. */
  function Draw(m: Mesh, g: Gpu): Gpu {
    IssueAll(g, DrawCalls(m))
  }

  /** The prologue binds and enables, and neither switches programs nor disables. */
  lemma PrologueOnlyEnables(m: Mesh)
    ensures OnlyEnables(DrawPrologue(m))
    ensures forall s :: EnableVertexAttribArray(s) in DrawPrologue(m) <==> s in PresentSlots(m)
    ensures forall c :: c in DrawPrologue(m) ==> !IsDraw(c)
  {
  }

  /** When the draw call is issued, the enabled slots are those enabled before plus the present ones. */
  lemma DrawSlotsAtDrawCall(m: Mesh, g: Gpu)
    ensures var atDraw := IssueAll(g, DrawPrologue(m));
      && atDraw.program == g.program
      && forall s :: s in atDraw.enabled <==> s in g.enabled || s in PresentSlots(m)
  {
    PrologueOnlyEnables(m);
    IssueAllEnables(g, DrawPrologue(m));
  }

  /** Disabling slots 0 to 3 in turn. */
  lemma DisableAll(g: Gpu)
    ensures IssueAll(g, DisableCalls).enabled == g.enabled - {0, 1, 2, 3}
    ensures IssueAll(g, DisableCalls).program == g.program
  {
    var d := DisableCalls;
    assert d[1..][1..][1..][1..] == [];
  }

  /** The calls of one `Draw`. */
  function DrawCalls(m: Mesh): (cs: seq<Call>)
    ensures DrawCommand(m) in cs
    ensures forall c :: c in cs && IsDraw(c) ==> c == DrawCommand(m)
    ensures |cs| >= 4 && cs[|cs| - 4..] == DisableCalls
  {
    var pre := DrawPrologue(m);
    var cs := pre + [DrawCommand(m)] + DisableCalls;
    assert forall c :: c in pre ==> !IsDraw(c);
    assert cs[|cs| - 4..] == DisableCalls;
    cs
  }

  /** `Draw` issues exactly one draw call, the right one, and ends by disabling slots 0 to 3. */
  lemma DrawIssuesOneDraw(m: Mesh, g: Gpu)
    ensures var r := Draw(m, g);
      && |r.calls| > |g.calls| && r.calls[..|g.calls|] == g.calls
      && DrawCommand(m) in r.calls[|g.calls|..]
      && (forall c :: c in r.calls[|g.calls|..] && IsDraw(c) ==> c == DrawCommand(m))
      && r.calls[|r.calls| - 4..] == DisableCalls
  {
    var cs := DrawCalls(m);
    assert Draw(m, g).calls == g.calls + cs;
    AppendedCalls(g.calls, cs);
  }

  /** The parts of a trace extended by some calls. */
  lemma AppendedCalls(a: seq<Call>, b: seq<Call>)
    requires |b| >= 4
    ensures (a + b)[..|a|] == a && (a + b)[|a|..] == b
    ensures (a + b)[|a + b| - 4..] == b[|b| - 4..]
  {
  }

  /** After `Draw`, none of slots 0 to 3 is enabled and the current program is unchanged. */
  lemma DrawRestoresSlots(m: Mesh, g: Gpu)
    ensures Draw(m, g).enabled == g.enabled - {0, 1, 2, 3}
    ensures Draw(m, g).program == g.program
  {
    var pre := DrawPrologue(m) + [DrawCommand(m)];
    assert OnlyEnables(pre);
    IssueAllEnables(g, pre);
    IssueAllAppend(g, pre, DisableCalls);
    var h := IssueAll(g, pre);
    DisableAll(h);
    assert forall s :: EnableVertexAttribArray(s) in pre ==> s in PresentSlots(m);
    var r := IssueAll(h, DisableCalls);
    assert Draw(m, g) == r;
    forall s ensures s in r.enabled <==> s in g.enabled - {0, 1, 2, 3} {
    }
  }

  /** A mesh of four positions and the index list [0, 1, 2, 1, 3, 2], built by hand. */
  function Quad(p: seq<Vec3>): (m: Mesh)
    requires |p| == 4
    ensures m.vertices == p && m.indices == [0, 1, 2, 1, 3, 2]
    ensures m.colors == [] && m.normals == [] && m.texCoords == []
    ensures !m.hasColors && !m.hasNormals && !m.hasTexCoords && !m.isIndexed
  {
    var m4 := AddVertex(AddVertex(AddVertex(AddVertex(NewMesh(), p[0]), p[1]), p[2]), p[3]);
    assert m4.vertices == [p[0], p[1], p[2], p[3]] == p;
    AddIndices(m4, [0, 1, 2, 1, 3, 2])
  }

  /**
   * The quad, set up and drawn: one indexed draw over six indices, with only
   * the position slot enabled beyond what was already enabled.
   */
  lemma QuadDrawsSixIndices(p: seq<Vec3>, g: Gpu)
    requires |p| == 4
    ensures var m := SetUp(Quad(p), g).0;
      && m.isIndexed && !m.hasColors && !m.hasNormals && !m.hasTexCoords
      && m.vertices == p
      && DrawCommand(m) == DrawElements(Triangles, 6)
      && PresentSlots(m) == {0}
  {
    var m := SetUp(Quad(p), g).0;
    assert |m.indices| == 6;
    assert forall s :: s in PresentSlots(m) <==> s == 0;
  }
}
