/** Model::loadModel: tinyobj's indexed attributes are de-indexed into one vertex per
    face corner with an identity index buffer; missing normals and texcoords default to
    zero and V is flipped; the material directory is the path up to its last
    separator; the first material naming a diffuse texture is the one loaded. */
module MeshModel {
  import opened Wrappers
  import opened Vectors
  import opened TinyObj

  /** The Vertex struct of model.h. */
  datatype Vertex = Vertex(position: Vec3, normal: Vec3, texCoords: Vec2)

  /** size_t arithmetic: 2^64, and std::string::npos == 2^64 - 1. */
  const SIZE_T_MODULUS: nat := 0x1_0000_0000_0000_0000
  const NPOS: nat := SIZE_T_MODULUS - 1

  /** The separators passed to find_last_of. */
  const SEPARATORS: set<char> := {'/', '\\'}

  /** std::string::find_last_of: the position of the last character of `s` in `chars`,
      or NPOS when there is none. */
  function FindLastOf(s: string, chars: set<char>): (pos: nat)
    ensures || (pos == NPOS && forall i :: 0 <= i < |s| ==> s[i] !in chars)
            || (pos < |s| && s[pos] in chars && forall i :: pos < i < |s| ==> s[i] !in chars)
    decreases |s|
  {
    if s == [] then NPOS
    else if s[|s| - 1] in chars then |s| - 1
    else FindLastOf(s[..|s| - 1], chars)
  }

  /** mtlBaseDir: path.substr(0, path.find_last_of("/\\") + 1), where the + 1 is taken
      modulo 2^64, so that npos + 1 is 0, and substr clamps the count to the length. */
  function BaseDir(path: string): (dir: string)
    ensures dir <= path
  {
    var count := (FindLastOf(path, SEPARATORS) + 1) % SIZE_T_MODULUS;
    path[..if count < |path| then count else |path|]
  }

  /** The base directory is the prefix of the path up to and including its last '/' or
      '\\', and the empty string when the path has neither. (A string of 2^64 or more
      characters is beyond what size_t can index.) */
  lemma BaseDirIsLastSeparatorPrefix(path: string)
    requires |path| <= NPOS
    ensures (forall i :: 0 <= i < |path| ==> path[i] !in SEPARATORS) ==> BaseDir(path) == []
    ensures (exists i :: 0 <= i < |path| && path[i] in SEPARATORS) ==>
              var dir := BaseDir(path);
              && |dir| > 0
              && dir[|dir| - 1] in SEPARATORS
              && forall i :: |dir| <= i < |path| ==> path[i] !in SEPARATORS
  {
  }

  /** The base directory of a base directory is itself. */
  lemma BaseDirIdempotent(path: string)
    requires |path| <= NPOS
    ensures BaseDir(BaseDir(path)) == BaseDir(path)
  {
    var dir := BaseDir(path);
    BaseDirIsLastSeparatorPrefix(path);
    BaseDirIsLastSeparatorPrefix(dir);
    if exists i :: 0 <= i < |path| && path[i] in SEPARATORS {
      assert dir[|dir| - 1] in SEPARATORS;
      assert dir[..|dir|] == dir;
    }
  }

  /** A texture file named without a separator, joined to the base directory as
      fullPath is, lies in that same directory. */
  lemma TexturePathInBaseDir(path: string, texFile: string)
    requires |path| + |texFile| <= NPOS
    requires forall i :: 0 <= i < |texFile| ==> texFile[i] !in SEPARATORS
    ensures BaseDir(BaseDir(path) + texFile) == BaseDir(path)
  {
    var dir := BaseDir(path);
    var full := dir + texFile;
    BaseDirIsLastSeparatorPrefix(path);
    BaseDirIsLastSeparatorPrefix(full);
    forall i | |dir| <= i < |full|
      ensures full[i] !in SEPARATORS
    {
      assert full[i] == texFile[i - |dir|];
    }
    if exists i :: 0 <= i < |path| && path[i] in SEPARATORS {
      assert full[|dir| - 1] == dir[|dir| - 1];
      var fd := BaseDir(full);
      assert |fd| == |dir|;
    } else {
      forall i | 0 <= i < |full|
        ensures full[i] !in SEPARATORS
      {
      }
    }
  }

  /** The vertex built for one corner: position copied; normal copied when there are
      normals and the corner names one, zero otherwise; texcoords copied with V flipped
      when there are texcoords and the corner names one, zero otherwise. */
  function MakeVertex(attrib: Attrib, idx: Index): Vertex
    requires AttributesInRange(attrib, idx)
  {
    var vi, ni, ti := idx.vertexIndex, idx.normalIndex, idx.texcoordIndex;
    var position := Vec3(attrib.vertices[3 * vi], attrib.vertices[3 * vi + 1], attrib.vertices[3 * vi + 2]);
    var normal :=
      if |attrib.normals| > 0 && ni >= 0 then
        Vec3(attrib.normals[3 * ni], attrib.normals[3 * ni + 1], attrib.normals[3 * ni + 2])
      else Zero3;
    var texCoords :=
      if |attrib.texcoords| > 0 && ti >= 0 then
        Vec2(attrib.texcoords[2 * ti], 1.0 - attrib.texcoords[2 * ti + 1])
      else Zero2;
    Vertex(position, normal, texCoords)
  }

  /** The de-indexed vertex list: one vertex per corner, in corner order. */
  function Expand(attrib: Attrib, idxs: seq<Index>): (vs: seq<Vertex>)
    requires AllAttributesInRange(attrib, idxs)
    ensures |vs| == |idxs|
    decreases |idxs|
  {
    if idxs == [] then []
    else Expand(attrib, idxs[..|idxs| - 1]) + [MakeVertex(attrib, idxs[|idxs| - 1])]
  }

  /** Vertex k of the de-indexed list is the vertex of corner k. */
  lemma {:induction false} ExpandAt(attrib: Attrib, idxs: seq<Index>, k: nat)
    requires AllAttributesInRange(attrib, idxs)
    requires k < |idxs|
    ensures Expand(attrib, idxs)[k] == MakeVertex(attrib, idxs[k])
    decreases |idxs|
  {
    var n := |idxs| - 1;
    if k < n {
      ExpandAt(attrib, idxs[..n], k);
    }
  }

  /** De-indexing one more corner appends exactly its vertex. */
  lemma ExpandStep(attrib: Attrib, idxs: seq<Index>, k: nat)
    requires AllAttributesInRange(attrib, idxs)
    requires k < |idxs|
    ensures Expand(attrib, idxs[..k + 1]) == Expand(attrib, idxs[..k]) + [MakeVertex(attrib, idxs[k])]
  {
    assert idxs[..k + 1][..k] == idxs[..k];
  }

  /** De-indexing is compositional: the vertices of two runs of corners are those of
      each run, one after the other. */
  lemma {:induction false} ExpandConcat(attrib: Attrib, front: seq<Index>, back: seq<Index>)
    requires AllAttributesInRange(attrib, front) && AllAttributesInRange(attrib, back)
    ensures AllAttributesInRange(attrib, front + back)
    ensures Expand(attrib, front + back) == Expand(attrib, front) + Expand(attrib, back)
  {
    var all := front + back;
    forall i | 0 <= i < |all|
      ensures AttributesInRange(attrib, all[i])
    {
      if i >= |front| {
        assert all[i] == back[i - |front|];
      }
    }
    var lhs, rhs := Expand(attrib, all), Expand(attrib, front) + Expand(attrib, back);
    forall k | 0 <= k < |all|
      ensures lhs[k] == rhs[k]
    {
      ExpandAt(attrib, all, k);
      if k < |front| {
        ExpandAt(attrib, front, k);
      } else {
        assert all[k] == back[k - |front|];
        ExpandAt(attrib, back, k - |front|);
      }
    }
  }

  /** The index of the first material with a non-empty diffuse texture name at or after
      `from`, if any. */
  function FirstTexture(materials: seq<Material>, from: nat): (r: Option<nat>)
    requires from <= |materials|
    ensures r.None? <==> forall i :: from <= i < |materials| ==> materials[i].diffuseTexname == []
    ensures r.Some? ==> && from <= r.value < |materials|
                        && materials[r.value].diffuseTexname != []
                        && forall i :: from <= i < r.value ==> materials[i].diffuseTexname == []
    decreases |materials| - from
  {
    if from == |materials| then None
    else if materials[from].diffuseTexname != [] then Some(from)
    else FirstTexture(materials, from + 1)
  }

  /** The file handed to loadTexture after a load from `path`: base directory plus the
      first non-empty diffuse texture name, or nothing, leaving `previous` in place. */
  function TextureAfterLoad(path: string, materials: seq<Material>, previous: Option<string>): Option<string> {
    match FirstTexture(materials, 0)
    case None => previous
    case Some(i) => Some(BaseDir(path) + materials[i].diffuseTexname)
  }

  /** At most one texture, and only the first named one: every material before it names
      none, and with no materials or no named texture nothing is loaded. */
  lemma TextureIsFirstNamed(path: string, materials: seq<Material>, previous: Option<string>)
    ensures (forall i :: 0 <= i < |materials| ==> materials[i].diffuseTexname == []) ==>
              TextureAfterLoad(path, materials, previous) == previous
    ensures forall i :: 0 <= i < |materials| && materials[i].diffuseTexname != []
                        && (forall j :: 0 <= j < i ==> materials[j].diffuseTexname == []) ==>
              TextureAfterLoad(path, materials, previous) == Some(BaseDir(path) + materials[i].diffuseTexname)
  {
    forall i | 0 <= i < |materials| && materials[i].diffuseTexname != []
               && (forall j :: 0 <= j < i ==> materials[j].diffuseTexname == [])
      ensures FirstTexture(materials, 0) == Some(i)
    {
      var r := FirstTexture(materials, 0);
      assert r.Some?;
      assert !(r.value < i);
      assert !(r.value > i);
    }
  }

  /** The error Model::loadModel throws when tinyobj reports failure. */
  function LoadError(path: string): string {
    "Failed to load model: " + path
  }

  /** Drawing with the identity index buffer visits the de-indexed vertices in corner
      order, so the triangles drawn are those of the OBJ file, shape by shape. */
  lemma IndexedDrawMatchesMesh(attrib: Attrib, shapes: seq<Shape>, vertices: seq<Vertex>, indices: seq<nat>,
                               s: nat, j: nat)
    requires AllAttributesInRange(attrib, FlatIndices(shapes))
    requires vertices == Expand(attrib, FlatIndices(shapes))
    requires |indices| == |vertices| && forall k :: 0 <= k < |indices| ==> indices[k] == k
    requires s < |shapes| && j < |shapes[s].indices|
    ensures var k := |FlatIndices(shapes[..s])| + j;
            && k < |indices|
            && indices[k] < |vertices|
            && FlatIndices(shapes)[k] == shapes[s].indices[j]
            && vertices[indices[k]] == MakeVertex(attrib, FlatIndices(shapes)[k])
  {
    FlatIndicesAt(shapes, s, j);
    ExpandAt(attrib, FlatIndices(shapes), |FlatIndices(shapes[..s])| + j);
  }

  /** The model's mesh, as loadModel leaves it for setupMesh. */
  class Model {
    var vertices: seq<Vertex>
    var indices: seq<nat>
    /** The file last passed to loadTexture; the GL texture it yields is not modelled. */
    var textureFile: Option<string>

    /** The index buffer is the identity on the vertex list. */
    ghost predicate Valid()
      reads this
    {
      |indices| == |vertices| && forall k :: 0 <= k < |indices| ==> indices[k] == k
    }

    /** The members as loadModel finds them when Model::Model calls it. */
    constructor ()
      ensures vertices == [] && indices == [] && textureFile == None
      ensures Valid()
    {
      vertices := [];
      indices := [];
      textureFile := None;
    }

    /** loadModel, with tinyobj's result passed in. A failed load throws before anything
        is appended; a successful one appends one vertex per corner, extends the
        identity index buffer, and loads the first named texture. */
    method LoadModel(path: string, obj: LoadResult) returns (error: Option<string>)
      requires Valid()
      requires obj.Loaded? ==> AllAttributesInRange(obj.attrib, FlatIndices(obj.shapes))
      modifies this
      ensures Valid()
      ensures obj.LoadFailed? ==> && error == Some(LoadError(path))
                                  && vertices == old(vertices) && indices == old(indices)
                                  && textureFile == old(textureFile)
      ensures obj.Loaded? ==> && error == None
                              && vertices == old(vertices) + Expand(obj.attrib, FlatIndices(obj.shapes))
                              && textureFile == TextureAfterLoad(path, obj.materials, old(textureFile))
    {
      var mtlBaseDir := BaseDir(path);
      if obj.LoadFailed? {
        return Some(LoadError(path));
      }
      AppendMesh(obj.attrib, obj.shapes);
      if |obj.materials| > 0 {
        LoadFirstTexture(mtlBaseDir, obj.materials);
      }
      return None;
    }

    /** The nested loops of loadModel: one vertex per corner, shape by shape, each with
        the next index of the identity index buffer. */
    method AppendMesh(attrib: Attrib, shapes: seq<Shape>)
      requires Valid()
      requires AllAttributesInRange(attrib, FlatIndices(shapes))
      modifies this
      ensures Valid()
      ensures vertices == old(vertices) + Expand(attrib, FlatIndices(shapes))
      ensures textureFile == old(textureFile)
    {
      var s := 0;
      while s < |shapes|
        invariant 0 <= s <= |shapes|
        invariant AllAttributesInRange(attrib, FlatIndices(shapes[..s]))
        invariant Valid()
        invariant vertices == old(vertices) + Expand(attrib, FlatIndices(shapes[..s]))
        invariant textureFile == old(textureFile)
      {
        FlatIndicesStep(shapes, s);
        ghost var before := FlatIndices(shapes[..s]);
        ShapeAttributesInRange(attrib, shapes, s);
        AppendShape(attrib, shapes[s].indices);
        ExpandConcat(attrib, before, shapes[s].indices);
        s := s + 1;
      }
      assert shapes[..s] == shapes;
    }

    /** The inner loop of loadModel, over one shape's corners. */
    method AppendShape(attrib: Attrib, corners: seq<Index>)
      requires Valid()
      requires AllAttributesInRange(attrib, corners)
      modifies this
      ensures Valid()
      ensures vertices == old(vertices) + Expand(attrib, corners)
      ensures textureFile == old(textureFile)
    {
      var j := 0;
      while j < |corners|
        invariant 0 <= j <= |corners|
        invariant Valid()
        invariant vertices == old(vertices) + Expand(attrib, corners[..j])
        invariant textureFile == old(textureFile)
      {
        var index := corners[j];
        var vi, ni, ti := index.vertexIndex, index.normalIndex, index.texcoordIndex;
        var position := Vec3(attrib.vertices[3 * vi], attrib.vertices[3 * vi + 1], attrib.vertices[3 * vi + 2]);
        var normal;
        if |attrib.normals| > 0 && ni >= 0 {
          normal := Vec3(attrib.normals[3 * ni], attrib.normals[3 * ni + 1], attrib.normals[3 * ni + 2]);
        } else {
          normal := Zero3;
        }
        var texCoords;
        if |attrib.texcoords| > 0 && ti >= 0 {
          texCoords := Vec2(attrib.texcoords[2 * ti], 1.0 - attrib.texcoords[2 * ti + 1]);
        } else {
          texCoords := Zero2;
        }
        var vertex := Vertex(position, normal, texCoords);
        ExpandStep(attrib, corners, j);
        vertices := vertices + [vertex];
        indices := indices + [|indices|];
        j := j + 1;
      }
      assert corners[..j] == corners;
    }

    /** The material scan of loadModel: the first material with a non-empty diffuse
        texture name has its file loaded from the base directory, and the scan stops. */
    method LoadFirstTexture(mtlBaseDir: string, materials: seq<Material>)
      modifies this
      ensures vertices == old(vertices) && indices == old(indices)
      ensures textureFile == match FirstTexture(materials, 0)
                             case None => old(textureFile)
                             case Some(i) => Some(mtlBaseDir + materials[i].diffuseTexname)
    {
      var foundTexture := false;
      var i := 0;
      while i < |materials|
        invariant 0 <= i <= |materials|
        invariant FirstTexture(materials, i) == FirstTexture(materials, 0)
        invariant !foundTexture && textureFile == old(textureFile)
      {
        var texFile := materials[i].diffuseTexname;
        if texFile != [] {
          var fullPath := mtlBaseDir + texFile;
          textureFile := Some(fullPath);
          foundTexture := true;
          break;
        }
        i := i + 1;
      }
    }
  }
}
