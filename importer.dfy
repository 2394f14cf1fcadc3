/** What the Assimp importer and the stb image decoder hand the two model
    loaders (src/Model.cpp, Core/model.cpp). Both libraries are foreign code:
    their results are inputs here, namely a node tree over a table of meshes,
    per-vertex attribute arrays, faces, material lookups that may fail, and
    decoded images as bytes. The file-path helpers both loaders use sit here
    too. */
module Importer {
  import opened LinAlg
  import opened Wrappers

  /** `aiFace`: the vertex indices of one face. */
  datatype AiFace = AiFace(indices: seq<nat>)

  /** `aiMesh`: positions, the optional normal, tangent/bitangent and first
      texture-coordinate arrays, the faces, and the material's index. */
  datatype AiMesh = AiMesh(
    positions: seq<Vec3>,
    normals: Option<seq<Vec3>>,
    tangents: Option<seq<Vec3>>,
    bitangents: Option<seq<Vec3>>,
    texcoords: Option<seq<Vec3>>,
    faces: seq<AiFace>,
    materialIndex: nat)
  {
    /** Assimp's layout: every per-vertex array present is as long as the
        positions, and tangents come with bitangents. */
    predicate WellFormed() {
      && (normals.Some? ==> |normals.value| == |positions|)
      && (tangents.Some? <==> bitangents.Some?)
      && (tangents.Some? ==> |tangents.value| == |positions| && |bitangents.value| == |positions|)
      && (texcoords.Some? ==> |texcoords.value| == |positions|)
    }

    /** Every face lists three indices of existing vertices, as
        `aiProcess_Triangulate` leaves a mesh of triangles. */
    predicate Triangulated() {
      forall f :: 0 <= f < |faces| ==>
        |faces[f].indices| == 3 && forall j :: 0 <= j < 3 ==> faces[f].indices[j] < |positions|
    }
  }

  /** The index list both loaders build: the indices of each face in turn. */
  function FlattenFaces(faces: seq<AiFace>): seq<nat> {
    if |faces| == 0 then [] else FlattenFaces(faces[..|faces| - 1]) + faces[|faces| - 1].indices
  }

  /** When every face is a triangle of existing vertices, the list holds
      three indices per face, face f's at positions 3f to 3f + 2, and every
      entry names a vertex. */
  lemma {:induction false} FlattenTriangles(faces: seq<AiFace>, vertexCount: int)
    requires forall f :: 0 <= f < |faces| ==>
      |faces[f].indices| == 3 && forall j :: 0 <= j < 3 ==> faces[f].indices[j] < vertexCount
    ensures |FlattenFaces(faces)| == 3 * |faces|
    ensures forall f, j :: 0 <= f < |faces| && 0 <= j < 3 ==> FlattenFaces(faces)[3 * f + j] == faces[f].indices[j]
    ensures forall k :: 0 <= k < |FlattenFaces(faces)| ==> FlattenFaces(faces)[k] < vertexCount
  {
    if |faces| > 0 {
      var n := |faces| - 1;
      var front := faces[..n];
      assert forall f :: 0 <= f < n ==> front[f] == faces[f];
      FlattenTriangles(front, vertexCount);
      var r, a, b := FlattenFaces(faces), FlattenFaces(front), faces[n].indices;
      assert r == a + b;
      forall f, j | 0 <= f < |faces| && 0 <= j < 3
        ensures r[3 * f + j] == faces[f].indices[j]
      {
        if f < n {
          assert r[3 * f + j] == a[3 * f + j] == front[f].indices[j];
        } else {
          assert r[3 * f + j] == b[j];
        }
      }
      forall k | 0 <= k < |r|
        ensures r[k] < vertexCount
      {
        if k >= |a| {
          assert r[k] == b[k - |a|];
        }
      }
    }
  }

  /** The texture types the loaders ask for. */
  datatype TextureType = Diffuse | Specular | Ambient | Height | Displacement

  /** `aiMaterial`: the texture file names of each type, in importer order,
      and the result of each colour and shininess lookup (None when
      `Get` does not return `AI_SUCCESS`). */
  datatype AiMaterial = AiMaterial(
    diffuseFiles: seq<string>, specularFiles: seq<string>, ambientFiles: seq<string>,
    heightFiles: seq<string>, displacementFiles: seq<string>,
    ambient: Option<Vec3>, diffuse: Option<Vec3>, specular: Option<Vec3>, shininess: Option<real>)
  {
    /** `GetTextureCount(type)` and `GetTexture(type, i)` together. */
    function Files(kind: TextureType): seq<string> {
      match kind
      case Diffuse => diffuseFiles
      case Specular => specularFiles
      case Ambient => ambientFiles
      case Height => heightFiles
      case Displacement => displacementFiles
    }
  }

  /** `aiNode`: indices into the scene's mesh table, and the children. */
  datatype AiNode = AiNode(meshes: seq<nat>, children: seq<AiNode>)

  /** The mesh indices of a node and its descendants, the node's own first,
      then each child's subtree in order. */
  function PreOrder(n: AiNode): seq<nat>
    decreases n
  {
    n.meshes + PreOrderAll(n.children)
  }

  function PreOrderAll(children: seq<AiNode>): seq<nat>
    decreases children
  {
    if |children| == 0 then [] else PreOrderAll(children[..|children| - 1]) + PreOrder(children[|children| - 1])
  }

  /** Every mesh index in child k's subtree is one of its ancestor's. */
  lemma {:induction false} PreOrderAllHasChild(children: seq<AiNode>, k: int)
    requires 0 <= k < |children|
    ensures forall i :: i in PreOrder(children[k]) ==> i in PreOrderAll(children)
    decreases |children|
  {
    var n := |children| - 1;
    assert PreOrderAll(children) == PreOrderAll(children[..n]) + PreOrder(children[n]);
    if k < n {
      PreOrderAllHasChild(children[..n], k);
      assert children[..n][k] == children[k];
    }
  }

  /** Subtrees of a node are listed inside the node's pre-order. */
  lemma PreOrderHasChild(n: AiNode, k: int)
    requires 0 <= k < |n.children|
    ensures forall i :: i in PreOrder(n.children[k]) ==> i in PreOrder(n)
  {
    PreOrderAllHasChild(n.children, k);
  }

  /** The first children's pre-order extended by one more child. */
  lemma PreOrderAllStep(children: seq<AiNode>, k: int)
    requires 0 <= k < |children|
    ensures PreOrderAll(children[..k + 1]) == PreOrderAll(children[..k]) + PreOrder(children[k])
  {
    assert children[..k + 1][..k] == children[..k];
  }

  /** The result of the node walk both loaders share: the meshes with the
      given ids converted in order and appended, the converter's state (the
      texture cache) threaded from one conversion to the next. */
  datatype Walk<M, C> = Walk(meshes: seq<M>, cache: C)

  /** `convert` accepts every mesh of the scene, whatever its state. */
  ghost predicate Converts<M, C(!new)>(scene: AiScene, convert: (C, AiMesh) --> (M, C)) {
    forall c, k :: 0 <= k < |scene.meshes| ==> convert.requires(c, scene.meshes[k])
  }

  function ConvertAll<M, C(!new)>(s: Walk<M, C>, scene: AiScene, ids: seq<nat>, convert: (C, AiMesh) --> (M, C)): (r: Walk<M, C>)
    requires scene.NamesMeshes(ids) && Converts(scene, convert)
    ensures |r.meshes| == |s.meshes| + |ids| && r.meshes[..|s.meshes|] == s.meshes
  {
    if |ids| == 0 then s
    else
      var p := ConvertAll(s, scene, ids[..|ids| - 1], convert);
      var r := convert(p.cache, scene.meshes[ids[|ids| - 1]]);
      assert (p.meshes + [r.0])[..|s.meshes|] == p.meshes[..|s.meshes|];
      Walk(p.meshes + [r.0], r.1)
  }

  /** One more id: its mesh is converted with the state left by the ones
      before, and appended. */
  lemma ConvertAllStep<M, C(!new)>(s: Walk<M, C>, scene: AiScene, ids: seq<nat>, i: int, convert: (C, AiMesh) --> (M, C))
    requires scene.NamesMeshes(ids) && Converts(scene, convert) && 0 <= i < |ids|
    ensures var p := ConvertAll(s, scene, ids[..i], convert);
      var r := convert(p.cache, scene.meshes[ids[i]]);
      ConvertAll(s, scene, ids[..i + 1], convert) == Walk(p.meshes + [r.0], r.1)
  {
    assert ids[..i + 1][..i] == ids[..i];
  }

  /** Converting a, then b, is converting a + b. */
  lemma {:induction false} ConvertAllConcat<M, C(!new)>(s: Walk<M, C>, scene: AiScene, a: seq<nat>, b: seq<nat>, convert: (C, AiMesh) --> (M, C))
    requires scene.NamesMeshes(a) && scene.NamesMeshes(b) && Converts(scene, convert)
    ensures ConvertAll(s, scene, a + b, convert) == ConvertAll(ConvertAll(s, scene, a, convert), scene, b, convert)
    decreases |b|
  {
    if |b| == 0 {
      assert a + b == a;
    } else {
      var n := |b| - 1;
      assert (a + b)[..|a + b| - 1] == a + b[..n];
      ConvertAllConcat(s, scene, a, b[..n], convert);
    }
  }

  /** Ids read off a node tree whose ids all name meshes. */
  lemma NamesMeshesIn(scene: AiScene, ids: seq<nat>)
    requires forall i :: i in ids ==> i < |scene.meshes|
    ensures scene.NamesMeshes(ids)
  {
    forall k | 0 <= k < |ids|
      ensures ids[k] < |scene.meshes|
    {
      assert ids[k] in ids;
    }
  }

  /** The first i children's pre-order starts the pre-order of all of
      them. */
  lemma {:induction false} PreOrderAllPrefix(children: seq<AiNode>, i: int)
    requires 0 <= i <= |children|
    ensures PreOrderAll(children[..i]) <= PreOrderAll(children)
    decreases |children| - i
  {
    if i < |children| {
      PreOrderAllPrefix(children, i + 1);
      PreOrderAllStep(children, i);
    } else {
      assert children[..i] == children;
    }
  }

  /** Both parts of a list of mesh ids name meshes when the whole does. */
  lemma NamesMeshesSplit(scene: AiScene, a: seq<nat>, b: seq<nat>)
    requires scene.NamesMeshes(a + b)
    ensures scene.NamesMeshes(a) && scene.NamesMeshes(b)
  {
    assert forall k :: 0 <= k < |a| ==> a[k] == (a + b)[k];
    assert forall k :: 0 <= k < |b| ==> b[k] == (a + b)[|a| + k];
  }

  /** The step of the child loop of `process_node`: child i's subtree is
      walked after the earlier children's subtrees. */
  lemma ConvertChild<M, C(!new)>(s: Walk<M, C>, scene: AiScene, children: seq<AiNode>, i: int, convert: (C, AiMesh) --> (M, C))
    requires scene.NamesMeshes(PreOrderAll(children)) && Converts(scene, convert) && 0 <= i < |children|
    ensures scene.NamesMeshes(PreOrderAll(children[..i])) && scene.NamesMeshes(PreOrder(children[i]))
    ensures scene.NamesMeshes(PreOrderAll(children[..i + 1]))
    ensures ConvertAll(s, scene, PreOrderAll(children[..i + 1]), convert)
         == ConvertAll(ConvertAll(s, scene, PreOrderAll(children[..i]), convert), scene, PreOrder(children[i]), convert)
  {
    PreOrderAllPrefix(children, i + 1);
    PreOrderAllStep(children, i);
    var whole := PreOrderAll(children);
    var a, c := PreOrderAll(children[..i]), PreOrder(children[i]);
    assert forall k :: 0 <= k < |a + c| ==> (a + c)[k] == whole[k];
    NamesMeshesSplit(scene, a, c);
    ConvertAllConcat(s, scene, a, c, convert);
  }

  /** `aiScene`, or the reasons `load_model` gives up on it. */
  datatype AiScene = AiScene(meshes: seq<AiMesh>, materials: seq<AiMaterial>, root: Option<AiNode>, incomplete: bool)
  {
    /** What Assimp guarantees of a scene it returns: each mesh laid out
        consistently and naming an existing material, and every node's mesh
        index naming an existing mesh. */
    predicate WellFormed() {
      && (forall k :: 0 <= k < |meshes| ==> meshes[k].WellFormed() && meshes[k].materialIndex < |materials|)
      && (root.Some? ==> NamesMeshes(PreOrder(root.value)))
    }

    /** Every id names a mesh of the table. */
    predicate NamesMeshes(ids: seq<nat>) {
      forall k :: 0 <= k < |ids| ==> ids[k] < |meshes|
    }

    /** The test `load_model` applies: no scene at all is None; a scene with
        the incomplete flag or without a root node also fails. */
    predicate Usable() {
      !incomplete && root.Some?
    }
  }

  /** `stbi_load`'s result with zero requested components: the size, the
      file's channel count and components * width * height bytes. */
  datatype Decoded = Decoded(data: seq<bv8>, width: int, height: int, components: int)
  {
    predicate WellFormed() {
      width >= 0 && height >= 0 && 1 <= components <= 4 && |data| == components * (width * height)
    }
  }

  /** A decoded image as stb returns it. */
  type Image = d: Decoded | d.WellFormed() witness Decoded([], 0, 0, 1)

  /** The file system as the decoder sees it: None is a failed load (a null
      pointer). */
  type ImageFiles = string -> Option<Image>

  /** `find_last_of(c)`: the position of the last c, None for npos. */
  function LastIndexOf(s: string, c: char): (r: Option<nat>)
    ensures r.Some? ==> r.value < |s| && s[r.value] == c && c !in s[r.value + 1..]
    ensures r.None? <==> c !in s
  {
    if |s| == 0 then None
    else if s[|s| - 1] == c then Some(|s| - 1)
    else
      var r := LastIndexOf(s[..|s| - 1], c);
      assert s == s[..|s| - 1] + [s[|s| - 1]];
      r
  }

  /** `substr(0, n)` with npos standing for "the whole string". */
  function PrefixTo(s: string, n: Option<nat>): (r: string)
    ensures r <= s
  {
    if n.Some? && n.value <= |s| then s[..n.value] else s
  }

  /** `directory + sep + file`, the path a texture is decoded from. */
  function JoinPath(directory: string, sep: char, file: string): string {
    directory + [sep] + file
  }
}
