/**
 * The key a mesh loader welds on: a position, a normal and a texture
 * coordinate. There is no colour in the key. Values are immutable once
 * built, so the record below is the whole of the class.
 */
module Vertices {
  import opened Algebra

  datatype VertexUnit = VertexUnit(position: Vec3, normal: Vec3, texCoord: Vec2)

  /** `operator ==`: the three fields compare equal. */
  function Equal(a: VertexUnit, b: VertexUnit): (r: bool)
    ensures r <==> a == b
  {
    a.position == b.position && a.normal == b.normal && a.texCoord == b.texCoord
  }

  /** `operator !=`. */
  function NotEqual(a: VertexUnit, b: VertexUnit): (r: bool)
    ensures r <==> a != b
  {
    !Equal(a, b)
  }

  predicate PositionEquals(a: VertexUnit, b: VertexUnit) {
    a.position == b.position
  }

  predicate NormalEquals(a: VertexUnit, b: VertexUnit) {
    a.normal == b.normal
  }

  predicate TexCoordEquals(a: VertexUnit, b: VertexUnit) {
    a.texCoord == b.texCoord
  }

  /** `==` is the conjunction of the three per-field comparisons. */
  lemma EqualIsFieldwise(a: VertexUnit, b: VertexUnit)
    ensures Equal(a, b) <==> PositionEquals(a, b) && NormalEquals(a, b) && TexCoordEquals(a, b)
    ensures NotEqual(a, b) <==> !Equal(a, b)
  {
  }

  /** `==` is an equivalence relation (components are compared as numbers without NaN). */
  lemma EqualIsEquivalence(a: VertexUnit, b: VertexUnit, c: VertexUnit)
    ensures Equal(a, a)
    ensures Equal(a, b) ==> Equal(b, a)
    ensures Equal(a, b) && Equal(b, c) ==> Equal(a, c)
  {
  }

  /** Two keys that differ in one field only, the normal, are not welded together. */
  lemma NormalAloneSeparates(p: Vec3, n: Vec3, t: Vec2)
    requires n != Zero3
    ensures NotEqual(VertexUnit(p, n, t), VertexUnit(p, Zero3, t))
  {
  }
}
