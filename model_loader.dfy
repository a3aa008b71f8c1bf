/** loadOBJ: the position-only loader. Each face corner contributes the three reals of
    its position to one flat float array, in shape order and then index order, and the
    vertex count is that array's length divided by three. */
module ObjLoader {
  import opened Vectors
  import opened TinyObj
  import opened MeshModel

  /** The three reals of a corner's position, as the loader pushes them. */
  function Position(attrib: Attrib, idx: Index): (p: seq<real>)
    requires PositionInRange(attrib, idx)
    ensures |p| == 3
  {
    var vi := idx.vertexIndex;
    [attrib.vertices[3 * vi], attrib.vertices[3 * vi + 1], attrib.vertices[3 * vi + 2]]
  }

  /** The flat position array for a run of corners. */
  function FlatPositions(attrib: Attrib, idxs: seq<Index>): (fs: seq<real>)
    requires PositionsInRange(attrib, idxs)
    ensures |fs| == 3 * |idxs|
    decreases |idxs|
  {
    if idxs == [] then []
    else FlatPositions(attrib, idxs[..|idxs| - 1]) + Position(attrib, idxs[|idxs| - 1])
  }

  /** Pushing one more corner appends exactly its three position reals. */
  lemma FlatPositionsStep(attrib: Attrib, idxs: seq<Index>, k: nat)
    requires PositionsInRange(attrib, idxs)
    requires k < |idxs|
    ensures FlatPositions(attrib, idxs[..k + 1]) == FlatPositions(attrib, idxs[..k]) + Position(attrib, idxs[k])
  {
    assert idxs[..k + 1][..k] == idxs[..k];
  }

  /** Floats 3k, 3k+1 and 3k+2 are the position of corner k. */
  lemma {:induction false} FlatPositionsAt(attrib: Attrib, idxs: seq<Index>, k: nat)
    requires PositionsInRange(attrib, idxs)
    requires k < |idxs|
    ensures FlatPositions(attrib, idxs)[3 * k .. 3 * k + 3] == Position(attrib, idxs[k])
    decreases |idxs|
  {
    var n := |idxs| - 1;
    var front := FlatPositions(attrib, idxs[..n]);
    var last := Position(attrib, idxs[n]);
    assert FlatPositions(attrib, idxs) == front + last;
    if k < n {
      FlatPositionsAt(attrib, idxs[..n], k);
      assert (front + last)[3 * k .. 3 * k + 3] == front[3 * k .. 3 * k + 3];
    } else {
      assert (front + last)[3 * k .. 3 * k + 3] == last;
    }
  }

  /** The flat array of two runs of corners is that of each run, one after the other. */
  lemma {:induction false} FlatPositionsConcat(attrib: Attrib, front: seq<Index>, back: seq<Index>)
    requires PositionsInRange(attrib, front) && PositionsInRange(attrib, back)
    ensures PositionsInRange(attrib, front + back)
    ensures FlatPositions(attrib, front + back) == FlatPositions(attrib, front) + FlatPositions(attrib, back)
    decreases |back|
  {
    var all := front + back;
    forall i | 0 <= i < |all|
      ensures PositionInRange(attrib, all[i])
    {
      if i >= |front| {
        assert all[i] == back[i - |front|];
      }
    }
    if back == [] {
      assert all == front;
    } else {
      var n := |back| - 1;
      FlatPositionsConcat(attrib, front, back[..n]);
      assert all[..|all| - 1] == front + back[..n];
    }
  }

  /** The two loaders agree: the three floats loadOBJ uploads for corner k are the
      position of the k-th vertex Model::loadModel builds from the same parse. */
  lemma LoadersAgreeOnPositions(attrib: Attrib, idxs: seq<Index>, k: nat)
    requires AllAttributesInRange(attrib, idxs)
    requires k < |idxs|
    ensures PositionsInRange(attrib, idxs)
    ensures var p := Expand(attrib, idxs)[k].position;
            FlatPositions(attrib, idxs)[3 * k .. 3 * k + 3] == [p.x, p.y, p.z]
  {
    FlatPositionsAt(attrib, idxs, k);
    ExpandAt(attrib, idxs, k);
  }

  /** loadOBJ with tinyobj's result passed in. The by-reference `vao` and `vertexCount`
      come in and go out as values; `generatedVao` is the name glGenVertexArrays hands
      back, and `uploaded` is the array given to glBufferData. */
  method LoadOBJ(obj: LoadResult, vao: nat, vertexCount: int, generatedVao: nat)
    returns (ok: bool, vaoOut: nat, vertexCountOut: int, uploaded: seq<real>)
    requires obj.Loaded? ==> PositionsInRange(obj.attrib, FlatIndices(obj.shapes))
    ensures obj.LoadFailed? ==> !ok && vaoOut == vao && vertexCountOut == vertexCount && uploaded == []
    ensures obj.Loaded? ==> && ok
                            && vaoOut == generatedVao
                            && uploaded == FlatPositions(obj.attrib, FlatIndices(obj.shapes))
                            && vertexCountOut == IndexCount(obj.shapes)
  {
    if obj.LoadFailed? {
      return false, vao, vertexCount, [];
    }
    var attrib, shapes := obj.attrib, obj.shapes;
    ghost var flat := FlatIndices(shapes);

    var vertices: seq<real> := [];
    var s := 0;
    while s < |shapes|
      invariant 0 <= s <= |shapes|
      invariant PositionsInRange(attrib, FlatIndices(shapes[..s]))
      invariant vertices == FlatPositions(attrib, FlatIndices(shapes[..s]))
    {
      FlatIndicesStep(shapes, s);
      ShapePositionsInRange(attrib, shapes, s);
      FlatPositionsConcat(attrib, FlatIndices(shapes[..s]), shapes[s].indices);
      vertices := AppendPositions(attrib, shapes[s].indices, vertices);
      s := s + 1;
    }
    assert shapes[..s] == shapes;

    FlatIndicesLength(shapes);
    vertexCountOut := |vertices| / 3;
    return true, generatedVao, vertexCountOut, vertices;
  }

  /** The inner loop of loadOBJ, over one shape's corners: three pushes per corner. */
  method AppendPositions(attrib: Attrib, corners: seq<Index>, vertices: seq<real>) returns (out: seq<real>)
    requires PositionsInRange(attrib, corners)
    ensures out == vertices + FlatPositions(attrib, corners)
  {
    out := vertices;
    var j := 0;
    while j < |corners|
      invariant 0 <= j <= |corners|
      invariant out == vertices + FlatPositions(attrib, corners[..j])
    {
      var index := corners[j];
      FlatPositionsStep(attrib, corners, j);
      out := out + [attrib.vertices[3 * index.vertexIndex + 0]];
      out := out + [attrib.vertices[3 * index.vertexIndex + 1]];
      out := out + [attrib.vertices[3 * index.vertexIndex + 2]];
      j := j + 1;
    }
    assert corners[..j] == corners;
  }
}
