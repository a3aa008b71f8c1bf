/** What tinyobj::LoadObj hands to both loaders, as plain values: the indexed attribute
    arrays, the shapes with their per-corner index triples, and the materials. The
    parser itself is not part of this model; its output is an input here. */
module TinyObj {

  /** tinyobj::index_t: one face corner. A negative normal or texcoord index means the
      corner has none. */
  datatype Index = Index(vertexIndex: int, normalIndex: int, texcoordIndex: int)

  /** tinyobj::shape_t, reduced to shape.mesh.indices. */
  datatype Shape = Shape(indices: seq<Index>)

  /** tinyobj::attrib_t: flat arrays, three reals per position and per normal, two per
      texcoord. */
  datatype Attrib = Attrib(vertices: seq<real>, normals: seq<real>, texcoords: seq<real>)

  /** tinyobj::material_t, reduced to diffuse_texname. */
  datatype Material = Material(diffuseTexname: string)

  /** The outcome of tinyobj::LoadObj: its out-parameters when it returns true, its
      error text when it returns false. */
  datatype LoadResult =
    | Loaded(attrib: Attrib, shapes: seq<Shape>, materials: seq<Material>)
    | LoadFailed(err: string)

  /** Every corner of every shape, in shape order and, within a shape, in index order:
      the order in which both loaders' nested loops visit them. */
  function FlatIndices(shapes: seq<Shape>): seq<Index>
    decreases |shapes|
  {
    if shapes == [] then [] else FlatIndices(shapes[..|shapes| - 1]) + shapes[|shapes| - 1].indices
  }

  /** The corner's position triple lies inside attrib.vertices. */
  predicate PositionInRange(attrib: Attrib, idx: Index) {
    0 <= idx.vertexIndex && 3 * idx.vertexIndex + 2 < |attrib.vertices|
  }

  /** Position in range, and the normal and texcoord entries in range whenever the
      loader would read them (array non-empty and index non-negative). */
  predicate AttributesInRange(attrib: Attrib, idx: Index) {
    && PositionInRange(attrib, idx)
    && (|attrib.normals| > 0 && idx.normalIndex >= 0 ==> 3 * idx.normalIndex + 2 < |attrib.normals|)
    && (|attrib.texcoords| > 0 && idx.texcoordIndex >= 0 ==> 2 * idx.texcoordIndex + 1 < |attrib.texcoords|)
  }

  /** What tinyobj guarantees of a successful parse, as far as loadOBJ reads it. */
  predicate PositionsInRange(attrib: Attrib, idxs: seq<Index>) {
    forall i :: 0 <= i < |idxs| ==> PositionInRange(attrib, idxs[i])
  }

  /** What tinyobj guarantees of a successful parse, as far as Model::loadModel reads it. */
  predicate AllAttributesInRange(attrib: Attrib, idxs: seq<Index>) {
    forall i :: 0 <= i < |idxs| ==> AttributesInRange(attrib, idxs[i])
  }

  /** Visiting one more shape appends exactly that shape's corners. */
  lemma FlatIndicesStep(shapes: seq<Shape>, s: nat)
    requires s < |shapes|
    ensures FlatIndices(shapes[..s + 1]) == FlatIndices(shapes[..s]) + shapes[s].indices
  {
    assert shapes[..s + 1][..s] == shapes[..s];
  }

  /** The corners of the first n shapes come first in the flat sequence. */
  lemma {:induction false} FlatIndicesPrefix(shapes: seq<Shape>, n: nat)
    requires n <= |shapes|
    ensures FlatIndices(shapes[..n]) <= FlatIndices(shapes)
    decreases |shapes| - n
  {
    if n < |shapes| {
      FlatIndicesPrefix(shapes, n + 1);
      FlatIndicesStep(shapes, n);
    } else {
      assert shapes[..n] == shapes;
    }
  }

  /** Corner j of shape s sits in the flat sequence right after the corners of the
      shapes before it: the flat order is shape by shape, index by index. */
  lemma FlatIndicesAt(shapes: seq<Shape>, s: nat, j: nat)
    requires s < |shapes| && j < |shapes[s].indices|
    ensures |FlatIndices(shapes[..s])| + j < |FlatIndices(shapes)|
    ensures FlatIndices(shapes)[|FlatIndices(shapes[..s])| + j] == shapes[s].indices[j]
  {
    FlatIndicesPrefix(shapes, s + 1);
    FlatIndicesStep(shapes, s);
  }

  /** What a successful parse guarantees of all corners holds of each shape's corners. */
  lemma ShapeAttributesInRange(attrib: Attrib, shapes: seq<Shape>, s: nat)
    requires AllAttributesInRange(attrib, FlatIndices(shapes))
    requires s < |shapes|
    ensures AllAttributesInRange(attrib, shapes[s].indices)
  {
    forall j | 0 <= j < |shapes[s].indices|
      ensures AttributesInRange(attrib, shapes[s].indices[j])
    {
      FlatIndicesAt(shapes, s, j);
    }
  }

  /** The same, for the positions alone. */
  lemma ShapePositionsInRange(attrib: Attrib, shapes: seq<Shape>, s: nat)
    requires PositionsInRange(attrib, FlatIndices(shapes))
    requires s < |shapes|
    ensures PositionsInRange(attrib, shapes[s].indices)
  {
    forall j | 0 <= j < |shapes[s].indices|
      ensures PositionInRange(attrib, shapes[s].indices[j])
    {
      FlatIndicesAt(shapes, s, j);
    }
  }

  /** Every corner in the flat sequence comes from some shape and keeps its position
      in it; in particular nothing is added and nothing is dropped. */
  lemma {:induction false} FlatIndicesFrom(shapes: seq<Shape>, k: nat)
    requires k < |FlatIndices(shapes)|
    ensures exists s, j :: 0 <= s < |shapes| && 0 <= j < |shapes[s].indices|
                           && k == |FlatIndices(shapes[..s])| + j
                           && FlatIndices(shapes)[k] == shapes[s].indices[j]
    decreases |shapes|
  {
    var n := |shapes| - 1;
    var front := shapes[..n];
    assert FlatIndices(shapes) == FlatIndices(front) + shapes[n].indices;
    if k < |FlatIndices(front)| {
      FlatIndicesFrom(front, k);
      var s, j :| 0 <= s < |front| && 0 <= j < |front[s].indices|
                  && k == |FlatIndices(front[..s])| + j
                  && FlatIndices(front)[k] == front[s].indices[j];
      assert front[..s] == shapes[..s];
      assert shapes[s] == front[s];
    } else {
      var j := k - |FlatIndices(front)|;
      assert FlatIndices(shapes)[k] == shapes[n].indices[j];
    }
  }

  /** The number of corners is the sum of the shapes' index counts. */
  function IndexCount(shapes: seq<Shape>): nat
    decreases |shapes|
  {
    if shapes == [] then 0 else |shapes[0].indices| + IndexCount(shapes[1..])
  }

  lemma {:induction false} FlatIndicesLength(shapes: seq<Shape>)
    ensures |FlatIndices(shapes)| == IndexCount(shapes)
    decreases |shapes|
  {
    if shapes != [] {
      var n := |shapes| - 1;
      FlatIndicesLength(shapes[..n]);
      IndexCountSnoc(shapes[..n], shapes[n]);
      assert shapes[..n] + [shapes[n]] == shapes;
    }
  }

  /** IndexCount counts from the front; FlatIndices is built from the back. */
  lemma {:induction false} IndexCountSnoc(shapes: seq<Shape>, last: Shape)
    ensures IndexCount(shapes + [last]) == IndexCount(shapes) + |last.indices|
    decreases |shapes|
  {
    if shapes == [] {
      assert ([] + [last])[1..] == [];
    } else {
      assert (shapes + [last])[1..] == shapes[1..] + [last];
      IndexCountSnoc(shapes[1..], last);
    }
  }
}
