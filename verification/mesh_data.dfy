/**
 * Vertex welding: the loader feeds one `VertexUnit` per face corner, and the
 * builder keeps the distinct units in first-seen order plus one index per
 * corner into that list. The scan is linear and compares with `==` of
 * `VertexUnit` only (`Equals` and `GetHashCode` are never used).
 */
module Welding {
  import opened Outcomes
  import opened Vertices

  /** Distinct units in first-seen order and one index per corner. */
  datatype MeshData = MeshData(vertices: seq<VertexUnit>, indices: seq<nat>)

  /** A builder with nothing added yet. */
  function NewMeshData(): (d: MeshData)
    ensures |d.vertices| == 0 && |d.indices| == 0
  {
    MeshData([], [])
  }

  /** Every index points into the vertex list and no two stored vertices are `==`. */
  ghost predicate Valid(d: MeshData) {
    && (forall k :: 0 <= k < |d.indices| ==> d.indices[k] < |d.vertices|)
    && (forall i, j :: 0 <= i < j < |d.vertices| ==> NotEqual(d.vertices[i], d.vertices[j]))
  }

  /** `u` is `==` to some stored vertex. */
  ghost predicate Stored(vs: seq<VertexUnit>, u: VertexUnit) {
    exists j :: 0 <= j < |vs| && Equal(vs[j], u)
  }

  /** `i` is the position of the first stored vertex `==` to `u`. */
  ghost predicate FirstEqualAt(vs: seq<VertexUnit>, u: VertexUnit, i: int) {
    0 <= i < |vs| && Equal(vs[i], u) && forall j :: 0 <= j < i ==> !Equal(vs[j], u)
  }

  /** The scan of `AddVertexUnit`: the first stored vertex `==` to `u`, if there is one. */
  function FirstEqual(vs: seq<VertexUnit>, u: VertexUnit): (r: Option<nat>)
    ensures r.Some? ==> FirstEqualAt(vs, u, r.value)
    ensures r.None? <==> !Stored(vs, u)
  {
    if vs == [] then None
    else if Equal(vs[0], u) then Some(0)
    else match FirstEqual(vs[1..], u)
      case None => None
      case Some(i) => Some(i + 1)
  }

  /** The effect of `AddVertexUnit(unit)` on the builder. */
  function Add(d: MeshData, u: VertexUnit): (r: MeshData)
    ensures |r.indices| == |d.indices| + 1 && r.indices[..|d.indices|] == d.indices
    ensures Stored(d.vertices, u) ==>
      r.vertices == d.vertices && FirstEqualAt(d.vertices, u, r.indices[|d.indices|])
    ensures !Stored(d.vertices, u) ==>
      r.vertices == d.vertices + [u] && r.indices[|d.indices|] == |d.vertices|
  {
    match FirstEqual(d.vertices, u)
    case Some(i) => MeshData(d.vertices, d.indices + [i])
    case None => MeshData(d.vertices + [u], d.indices + [|d.vertices|])
  }

  /** Two positions that are both the first `==` match are the same position. */
  lemma FirstEqualAtUnique(vs: seq<VertexUnit>, u: VertexUnit, i: int, k: int)
    requires FirstEqualAt(vs, u, i) && FirstEqualAt(vs, u, k)
    ensures i == k
  {
  }

  /** `MeshData.AddVertexUnit`: the linear scan with its `add` flag, as written. */
  method AddVertexUnit(d: MeshData, unit: VertexUnit) returns (r: MeshData)
    ensures |r.indices| == |d.indices| + 1 && r.indices[..|d.indices|] == d.indices
    ensures Stored(d.vertices, unit) ==>
      r.vertices == d.vertices && FirstEqualAt(d.vertices, unit, r.indices[|d.indices|])
    ensures !Stored(d.vertices, unit) ==>
      r.vertices == d.vertices + [unit] && r.indices[|d.indices|] == |d.vertices|
    ensures r == Add(d, unit)
  {
    var vertices := d.vertices;
    var indices := d.indices;
    var add := true;
    var i := 0;
    while add && i < |vertices|
      invariant vertices == d.vertices
      invariant 0 <= i <= |vertices|
      invariant add ==> indices == d.indices && forall j :: 0 <= j < i ==> !Equal(vertices[j], unit)
      invariant !add ==> 0 < i && indices == d.indices + [i - 1] && FirstEqualAt(vertices, unit, i - 1)
    {
      if Equal(vertices[i], unit) {
        add := false;
        indices := indices + [i];
      }
      i := i + 1;
    }
    if add {
      vertices := vertices + [unit];
      indices := indices + [|vertices| - 1];
    }
    r := MeshData(vertices, indices);
    match FirstEqual(d.vertices, unit)
    case Some(k) =>
      FirstEqualAtUnique(d.vertices, unit, k, i - 1);
    case None =>
  }

  /** The builder after `AddVertexUnit` has been called on each unit in turn. */
  function Weld(units: seq<VertexUnit>): MeshData
    decreases |units|
  {
    if units == [] then NewMeshData() else Add(Weld(units[..|units| - 1]), units[|units| - 1])
  }

  /** Adding a unit keeps every index in range and the stored vertices pairwise distinct. */
  lemma AddPreservesValid(d: MeshData, u: VertexUnit)
    requires Valid(d)
    ensures Valid(Add(d, u))
  {
    var r := Add(d, u);
    forall k | 0 <= k < |r.indices|
      ensures r.indices[k] < |r.vertices|
    {
      if k < |d.indices| {
        assert r.indices[k] == r.indices[..|d.indices|][k];
      }
    }
  }

  /** One index per corner, every index in range, no two stored vertices `==`. */
  lemma {:induction false} WeldValid(units: seq<VertexUnit>)
    ensures Valid(Weld(units))
    ensures |Weld(units).indices| == |units|
    ensures |Weld(units).vertices| <= |units|
    decreases |units|
  {
    if units != [] {
      WeldValid(units[..|units| - 1]);
      AddPreservesValid(Weld(units[..|units| - 1]), units[|units| - 1]);
    }
  }

  /** Building on a longer input only appends: both lists of a prefix's build are prefixes. */
  lemma {:induction false} WeldExtends(units: seq<VertexUnit>, n: nat)
    requires n <= |units|
    ensures Weld(units[..n]).vertices <= Weld(units).vertices
    ensures Weld(units[..n]).indices <= Weld(units).indices
    decreases |units|
  {
    if n < |units| {
      var init := units[..|units| - 1];
      assert init[..n] == units[..n];
      WeldExtends(init, n);
      WeldValid(init);
      assert Weld(init).indices == Weld(units).indices[..|Weld(init).indices|];
    } else {
      assert units[..n] == units;
    }
  }

  /** The lists after `Add` start with the lists before it. */
  lemma AddExtends(d: MeshData, u: VertexUnit)
    ensures d.vertices <= Add(d, u).vertices
    ensures d.indices <= Add(d, u).indices
  {
  }

  /** Round trip: the stored vertex at the k-th index is the k-th unit passed in. */
  lemma {:induction false} WeldRoundTrip(units: seq<VertexUnit>)
    ensures |Weld(units).indices| == |units|
    ensures forall k :: 0 <= k < |units| ==>
      Weld(units).indices[k] < |Weld(units).vertices| &&
      Weld(units).vertices[Weld(units).indices[k]] == units[k]
    decreases |units|
  {
    WeldValid(units);
    if units != [] {
      var init := units[..|units| - 1];
      var u := units[|units| - 1];
      var d := Weld(init);
      var r := Add(d, u);
      assert r == Weld(units);
      WeldRoundTrip(init);
      AddExtends(d, u);
      forall k | 0 <= k < |units|
        ensures r.vertices[r.indices[k]] == units[k]
      {
        if k < |init| {
          assert units[k] == init[k];
          assert r.indices[k] == d.indices[k];
          assert d.indices[k] < |d.vertices|;
          assert r.vertices[d.indices[k]] == d.vertices[d.indices[k]];
        } else {
          assert k == |d.indices|;
          assert Equal(r.vertices[r.indices[k]], u);
        }
      }
    }
  }

  /** Every stored vertex is one of the units passed in, and every unit passed in is stored. */
  lemma {:induction false} WeldStoresExactlyTheUnits(units: seq<VertexUnit>)
    ensures forall v :: v in Weld(units).vertices <==> v in units
    decreases |units|
  {
    WeldRoundTrip(units);
    if units != [] {
      var init := units[..|units| - 1];
      WeldStoresExactlyTheUnits(init);
      assert units == init + [units[|units| - 1]];
    }
  }

  /** Welding the same unit n times stores it once and yields n zero indices. */
  lemma {:induction false} WeldSameUnit(u: VertexUnit, n: nat)
    requires n >= 1
    ensures Weld(seq(n, _ => u)) == MeshData([u], seq(n, _ => 0))
    decreases n
  {
    var us := seq(n, _ => u);
    if n == 1 {
      assert us[..0] == [];
    } else {
      assert us[..n - 1] == seq(n - 1, _ => u);
      WeldSameUnit(u, n - 1);
      assert Equal([u][0], u);
      assert seq(n - 1, _ => 0) + [0] == seq(n, _ => 0);
    }
  }

  /** Three corners, the last two alike: two stored vertices, and the repeat points back at the first of them. */
  lemma WeldRepeatedCorner(a: VertexUnit, b: VertexUnit)
    requires a != b
    ensures Weld([a, b, b]) == MeshData([a, b], [0, 1, 1])
  {
    assert !Equal(a, b) && !Equal(b, a) && Equal(b, b);
    assert [a][..0] == [];
    var d1 := Add(NewMeshData(), a);
    assert FirstEqual([], a) == None;
    assert d1 == MeshData([a], [0]);
    assert Weld([a]) == d1;
    assert [a, b][..1] == [a];
    var d2 := Add(d1, b);
    assert FirstEqual([a], b) == None;
    assert d2 == MeshData([a, b], [0, 1]);
    assert Weld([a, b]) == d2;
    assert [a, b, b][..2] == [a, b];
    assert FirstEqual([a, b], b) == Some(1) by {
      assert [a, b][1..] == [b];
    }
    assert Add(d2, b) == MeshData([a, b], [0, 1, 1]);
  }
}
