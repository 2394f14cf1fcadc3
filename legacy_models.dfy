/** Model loading of the older Eigen pipeline (src/Model.cpp, src/Mesh.h):
    decoded images expanded to RGBA bytes, the directory of the model file,
    a pre-order walk of the importer's node tree, meshes converted vertex by
    vertex with their faces flattened, and the texture cache. */
module LegacyModels {
  import opened LinAlg
  import opened Wrappers
  import opened LegacyShaders
  import opened Importer
  import TextureCache
  import Grid

  /** `Mesh`: vertices, a flat index list (three per triangle), textures and
      the material colours. */
  datatype Mesh = Mesh(vertices: seq<Vertex>, indices: seq<nat>, textures: seq<Texture>,
                       ka: Vec3, kd: Vec3, ks: Vec3, ns: real)

  const Zero3: Vec3 := Vec3(0.0, 0.0, 0.0)

  // ---------------------------------------------------------------------
  // texture_from_file

  /** The four bytes texel i of a decoded image becomes: one channel is
      repeated into red, green and blue; three channels gain an opaque
      alpha; four are copied; any other count leaves the zeros the buffer
      starts with. */
  function TexelBytes(d: Image, i: int): (r: seq<bv8>)
    requires 0 <= i < d.width * d.height
    ensures |r| == 4
  {
    if d.components == 1 then [d.data[i], d.data[i], d.data[i], 0xff]
    else if d.components == 3 then [d.data[3 * i], d.data[3 * i + 1], d.data[3 * i + 2], 0xff]
    else if d.components == 4 then [d.data[4 * i], d.data[4 * i + 1], d.data[4 * i + 2], d.data[4 * i + 3]]
    else [0, 0, 0, 0]
  }

  /** The bytes of texels 0 to n - 1, one texel after another. */
  function ExpandedBytes(d: Image, n: nat): (r: seq<bv8>)
    requires n <= d.width * d.height
    ensures |r| == 4 * n
  {
    if n == 0 then [] else ExpandedBytes(d, n - 1) + TexelBytes(d, n - 1)
  }

  /** Bytes 4i to 4i + 3 are texel i's. */
  lemma {:induction false} ExpandedBytesAt(d: Image, n: nat, i: int)
    requires n <= d.width * d.height && 0 <= i < n
    ensures ExpandedBytes(d, n)[4 * i .. 4 * i + 4] == TexelBytes(d, i)
  {
    Grid.QuadOfConcat(ExpandedBytes(d, n - 1), TexelBytes(d, n - 1), i);
    if i < n - 1 {
      ExpandedBytesAt(d, n - 1, i);
    }
  }

  /** A four-channel image is taken over byte for byte. */
  lemma {:induction false} FourChannelsVerbatim(d: Image, n: nat)
    requires d.components == 4 && n <= d.width * d.height
    ensures ExpandedBytes(d, n) == d.data[..4 * n]
  {
    if n > 0 {
      FourChannelsVerbatim(d, n - 1);
      Grid.QuadPrefix(d.data, n - 1);
    }
  }

  /** `texture_from_file`'s result for what the decoder returned: on
      success 4 * width * height bytes and the decoded size; a failed load
      is modelled as an empty texture. Type and path are set by the
      caller. */
  function LoadedTexture(decoded: Option<Image>): (t: Texture)
    ensures t.Complete()
    ensures decoded.Some? ==> t.width == decoded.value.width && t.height == decoded.value.height
    ensures decoded.None? ==> t.data == []
  {
    match decoded
    case None => Texture([], 0, 0, "", "")
    case Some(d) => Texture(ExpandedBytes(d, d.width * d.height), d.width, d.height, "", "")
  }

  /** A loaded texture seen texel by texel: a grey image becomes opaque
      grey, an RGB image gains an opaque alpha, and any other channel count
      leaves the texel transparent black. */
  lemma LoadedTexels(d: Image, i: int)
    requires 0 <= i < d.width * d.height
    ensures var q := LoadedTexture(Some(d)).data[4 * i .. 4 * i + 4];
      && (d.components == 1 ==> q == [d.data[i], d.data[i], d.data[i], 0xff])
      && (d.components == 3 ==> q == [d.data[3 * i], d.data[3 * i + 1], d.data[3 * i + 2], 0xff])
      && (d.components == 2 ==> q == [0, 0, 0, 0])
  {
    var n := d.width * d.height;
    assert LoadedTexture(Some(d)).data == ExpandedBytes(d, n);
    ExpandedBytesAt(d, n, i);
  }

  /** A four-channel image is loaded byte for byte. */
  lemma LoadedFourChannels(d: Image)
    requires d.components == 4
    ensures LoadedTexture(Some(d)).data == d.data
  {
    var n := d.width * d.height;
    FourChannelsVerbatim(d, n);
    assert d.data[..4 * n] == d.data;
  }

  /** One iteration of the conversion loop: texel i's bytes are written,
      which extends the finished prefix by one texel. */
  method WriteTexel(bytes: seq<bv8>, d: Image, i: nat) returns (r: seq<bv8>)
    requires i < d.width * d.height && |bytes| == 4 * (d.width * d.height)
    requires bytes[..4 * i] == ExpandedBytes(d, i)
    requires forall k :: 4 * i <= k < |bytes| ==> bytes[k] == 0
    ensures |r| == |bytes| && r[..4 * (i + 1)] == ExpandedBytes(d, i + 1)
    ensures forall k :: 4 * (i + 1) <= k < |r| ==> r[k] == 0
  {
    var q := TexelBytes(d, i);
    if d.components == 1 {
      r := bytes[4 * i := d.data[i]][4 * i + 1 := d.data[i]][4 * i + 2 := d.data[i]][4 * i + 3 := 0xff];
    } else if d.components == 3 {
      r := bytes[4 * i := d.data[3 * i]][4 * i + 1 := d.data[3 * i + 1]][4 * i + 2 := d.data[3 * i + 2]][4 * i + 3 := 0xff];
    } else if d.components == 4 {
      r := bytes[4 * i := d.data[4 * i]][4 * i + 1 := d.data[4 * i + 1]][4 * i + 2 := d.data[4 * i + 2]][4 * i + 3 := d.data[4 * i + 3]];
    } else {
      r := bytes;
      assert bytes[4 * i] == 0 && bytes[4 * i + 1] == 0 && bytes[4 * i + 2] == 0 && bytes[4 * i + 3] == 0;
    }
    assert r == bytes[4 * i := q[0]][4 * i + 1 := q[1]][4 * i + 2 := q[2]][4 * i + 3 := q[3]];
    Grid.QuadWrite(bytes, i, q);
  }

  /** `texture_from_file`: decodes `directory/file` and expands it to four
      bytes per texel. */
  method TextureFromFile(file: string, directory: string, files: ImageFiles) returns (t: Texture)
    ensures t == LoadedTexture(files(JoinPath(directory, '/', file)))
  {
    var decoded := files(JoinPath(directory, '/', file));
    if decoded.None? {
      t := Texture([], 0, 0, "", "");
      return;
    }
    var d := decoded.value;
    var n := d.width * d.height;
    var data: seq<bv8> := seq(4 * n, _ => 0);
    var i := 0;
    while i < n
      invariant 0 <= i <= n && |data| == 4 * n
      invariant data[..4 * i] == ExpandedBytes(d, i)
      invariant forall k :: 4 * i <= k < |data| ==> data[k] == 0
    {
      data := WriteTexel(data, d, i);
      i := i + 1;
    }
    assert data[..4 * n] == data;
    t := Texture(data, d.width, d.height, "", "");
  }

  // ---------------------------------------------------------------------
  // load_material_textures

  /** A texture's cache key: the file name it was loaded from. */
  function PathKey(t: Texture): string {
    t.path
  }

  /** Loading a texture not in the cache: decode it, then record the type
      name and the file name. */
  function Loader(directory: string, files: ImageFiles, kind: string): string -> Texture {
    file => LoadedTexture(files(JoinPath(directory, '/', file))).(kind := kind, path := file)
  }

  lemma LoaderKeyed(directory: string, files: ImageFiles, kind: string)
    ensures TextureCache.Keyed(PathKey, Loader(directory, files, kind))
  {
  }

  /** The four texture lists of `process_mesh`, each loaded through the
      cache left by the one before: diffuse, specular, normal maps read from
      the HEIGHT slot, and height maps read from the AMBIENT slot. */
  function MeshTextures(cache: seq<Texture>, directory: string, files: ImageFiles, mat: AiMaterial): TextureCache.Loaded<Texture> {
    var d := TextureCache.Load(cache, PathKey, Loader(directory, files, "texture_diffuse"), mat.Files(Diffuse));
    var s := TextureCache.Load(d.cache, PathKey, Loader(directory, files, "texture_specular"), mat.Files(Specular));
    var n := TextureCache.Load(s.cache, PathKey, Loader(directory, files, "texture_normal"), mat.Files(Height));
    var h := TextureCache.Load(n.cache, PathKey, Loader(directory, files, "texture_height"), mat.Files(Ambient));
    TextureCache.Loaded(d.textures + s.textures + n.textures + h.textures, h.cache)
  }

  // ---------------------------------------------------------------------
  // process_mesh

  /** Vertex i as `process_mesh` builds it: the position with w = 1, the
      normal when the mesh has normals, the first texture coordinates or
      (0, 0). Colour, tangent and bitangent are never set (zero here). */
  function ImportedVertex(m: AiMesh, i: int): Vertex
    requires m.WellFormed() && 0 <= i < |m.positions|
  {
    var p := m.positions[i];
    Vertex(Vec4(p.x, p.y, p.z, 1.0), Zero3,
           if m.normals.Some? then m.normals.value[i] else Zero3,
           if m.texcoords.Some? then Vec2(m.texcoords.value[i].x, m.texcoords.value[i].y) else Vec2(0.0, 0.0),
           Zero3, Zero3)
  }

  /** All vertices of a mesh, converted. */
  function ImportedVertices(m: AiMesh): (vs: seq<Vertex>)
    requires m.WellFormed()
    ensures |vs| == |m.positions| && forall i :: 0 <= i < |vs| ==> vs[i] == ImportedVertex(m, i)
  {
    seq(|m.positions|, i requires 0 <= i < |m.positions| => ImportedVertex(m, i))
  }

  datatype MeshAndCache = MeshAndCache(mesh: Mesh, cache: seq<Texture>)

  /** `process_mesh` on the texture cache `cache`. The colour lookups share
      one variable that starts at black and that a failed lookup leaves as it
      was, so a missing colour repeats the one looked up before it. The
      six-argument `Mesh` call matches no declared constructor; the exponent
      is taken as 0. */
  function ImportMesh(cache: seq<Texture>, directory: string, files: ImageFiles, scene: AiScene, m: AiMesh): MeshAndCache
    requires m.WellFormed() && m.materialIndex < |scene.materials|
  {
    var mat := scene.materials[m.materialIndex];
    var tex := MeshTextures(cache, directory, files, mat);
    var ka := mat.ambient.GetOr(Zero3);
    var kd := mat.diffuse.GetOr(ka);
    var ks := mat.specular.GetOr(kd);
    MeshAndCache(
      Mesh(ImportedVertices(m), FlattenFaces(m.faces), tex.textures, ka, kd, ks, 0.0),
      tex.cache)
  }

  /** An imported triangulated mesh is one the renderer can draw: three
      indices per face, each naming a vertex; and every position has w = 1. */
  lemma ImportedMeshShape(cache: seq<Texture>, directory: string, files: ImageFiles, scene: AiScene, m: AiMesh)
    requires m.WellFormed() && m.materialIndex < |scene.materials|
    ensures var r := ImportMesh(cache, directory, files, scene, m).mesh;
      && |r.vertices| == |m.positions|
      && (forall i :: 0 <= i < |r.vertices| ==> r.vertices[i].position.w == 1.0)
      && (m.texcoords.None? ==> forall i :: 0 <= i < |r.vertices| ==> r.vertices[i].texcoords == Vec2(0.0, 0.0))
      && (m.Triangulated() ==>
            |r.indices| == 3 * |m.faces| && |r.indices| % 3 == 0
            && forall k :: 0 <= k < |r.indices| ==> r.indices[k] < |r.vertices|)
  {
    if m.Triangulated() {
      FlattenTriangles(m.faces, |m.positions|);
    }
  }

  /** The textures a material lists, by type, all come out of the cache as
      their own files: one texture per listed name in the order diffuse,
      specular, HEIGHT, AMBIENT; the cache only grows, and it still holds
      each file at most once. */
  lemma MeshTexturesSpec(cache: seq<Texture>, directory: string, files: ImageFiles, mat: AiMaterial)
    ensures var r := MeshTextures(cache, directory, files, mat);
      var names := mat.Files(Diffuse) + mat.Files(Specular) + mat.Files(Height) + mat.Files(Ambient);
      && |r.textures| == |names|
      && (forall k :: 0 <= k < |names| ==> r.textures[k].path == names[k])
      && cache <= r.cache
      && (TextureCache.Unique(cache, PathKey) ==> TextureCache.Unique(r.cache, PathKey))
  {
    LoaderKeyed(directory, files, "texture_diffuse");
    LoaderKeyed(directory, files, "texture_specular");
    LoaderKeyed(directory, files, "texture_normal");
    LoaderKeyed(directory, files, "texture_height");
    var d := TextureCache.Load(cache, PathKey, Loader(directory, files, "texture_diffuse"), mat.Files(Diffuse));
    TextureCache.LoadSpec(cache, PathKey, Loader(directory, files, "texture_diffuse"), mat.Files(Diffuse));
    var s := TextureCache.Load(d.cache, PathKey, Loader(directory, files, "texture_specular"), mat.Files(Specular));
    TextureCache.LoadSpec(d.cache, PathKey, Loader(directory, files, "texture_specular"), mat.Files(Specular));
    var n := TextureCache.Load(s.cache, PathKey, Loader(directory, files, "texture_normal"), mat.Files(Height));
    TextureCache.LoadSpec(s.cache, PathKey, Loader(directory, files, "texture_normal"), mat.Files(Height));
    var h := TextureCache.Load(n.cache, PathKey, Loader(directory, files, "texture_height"), mat.Files(Ambient));
    TextureCache.LoadSpec(n.cache, PathKey, Loader(directory, files, "texture_height"), mat.Files(Ambient));
    KeysOfConcat(PathKey, d.textures, s.textures, mat.Files(Diffuse), mat.Files(Specular));
    KeysOfConcat(PathKey, d.textures + s.textures, n.textures, mat.Files(Diffuse) + mat.Files(Specular), mat.Files(Height));
    KeysOfConcat(PathKey, d.textures + s.textures + n.textures, h.textures,
                 mat.Files(Diffuse) + mat.Files(Specular) + mat.Files(Height), mat.Files(Ambient));
  }

  /** Two lists whose entries carry the names of two name lists, joined. */
  lemma KeysOfConcat<T>(key: T -> string, a: seq<T>, b: seq<T>, na: seq<string>, nb: seq<string>)
    requires |a| == |na| && (forall k :: 0 <= k < |a| ==> key(a[k]) == na[k])
    requires |b| == |nb| && (forall k :: 0 <= k < |b| ==> key(b[k]) == nb[k])
    ensures |a + b| == |na + nb| && forall k :: 0 <= k < |a + b| ==> key((a + b)[k]) == (na + nb)[k]
  {
    forall k | 0 <= k < |a + b|
      ensures key((a + b)[k]) == (na + nb)[k]
    {
      if k >= |a| {
        assert (a + b)[k] == b[k - |a|];
      }
    }
  }

  // ---------------------------------------------------------------------
  // process_node

  /** `process_mesh` as the walk's converter. */
  function Converter(directory: string, files: ImageFiles, scene: AiScene): (seq<Texture>, AiMesh) --> (Mesh, seq<Texture>) {
    (cache: seq<Texture>, m: AiMesh) requires m.WellFormed() && m.materialIndex < |scene.materials| =>
      var r := ImportMesh(cache, directory, files, scene, m); (r.mesh, r.cache)
  }

  lemma ConverterConverts(directory: string, files: ImageFiles, scene: AiScene)
    requires scene.WellFormed()
    ensures Converts(scene, Converter(directory, files, scene))
  {
  }

  /** A whole walk only appends to the texture cache, and a cache without
      repeated file names stays so: across all meshes of a model each file
      is decoded at most once. */
  lemma {:induction false} WalkCache(s: Walk<Mesh, seq<Texture>>, directory: string, files: ImageFiles, scene: AiScene, ids: seq<nat>)
    requires scene.WellFormed() && scene.NamesMeshes(ids)
    ensures Converts(scene, Converter(directory, files, scene))
    ensures var r := ConvertAll(s, scene, ids, Converter(directory, files, scene));
      && s.cache <= r.cache
      && (TextureCache.Unique(s.cache, PathKey) ==> TextureCache.Unique(r.cache, PathKey))
  {
    ConverterConverts(directory, files, scene);
    if |ids| > 0 {
      var conv := Converter(directory, files, scene);
      var p := ConvertAll(s, scene, ids[..|ids| - 1], conv);
      WalkCache(s, directory, files, scene, ids[..|ids| - 1]);
      var m := scene.meshes[ids[|ids| - 1]];
      MeshTexturesSpec(p.cache, directory, files, scene.materials[m.materialIndex]);
    }
  }

  /** The model's directory: the path up to its last '/', or the whole path
      when it has none. */
  function Directory(path: string): (d: string)
    ensures d <= path
  {
    PrefixTo(path, LastIndexOf(path, '/'))
  }

  /** With a '/' in the path, the path is the directory, a '/' and a file
      name free of '/'. */
  lemma DirectorySplit(path: string)
    ensures var d := Directory(path);
      && ('/' in path ==> |d| < |path| && path == d + "/" + path[|d| + 1..] && '/' !in path[|d| + 1..])
      && ('/' !in path ==> d == path)
  {
    var n := LastIndexOf(path, '/');
    if n.Some? {
      assert path == path[..n.value] + "/" + path[n.value + 1..];
    }
  }

  /** The vertex loop of `process_mesh`. */
  method ConvertVertices(m: AiMesh) returns (vertices: seq<Vertex>)
    requires m.WellFormed()
    ensures vertices == ImportedVertices(m)
  {
    vertices := [];
    for i := 0 to |m.positions|
      invariant |vertices| == i && forall k :: 0 <= k < i ==> vertices[k] == ImportedVertex(m, k)
    {
      var p := m.positions[i];
      var normal := Zero3;
      if m.normals.Some? {
        normal := m.normals.value[i];
      }
      var texcoords := Vec2(0.0, 0.0);
      if m.texcoords.Some? {
        texcoords := Vec2(m.texcoords.value[i].x, m.texcoords.value[i].y);
      }
      vertices := vertices + [Vertex(Vec4(p.x, p.y, p.z, 1.0), Zero3, normal, texcoords, Zero3, Zero3)];
    }
  }

  /** The face loop of `process_mesh`: each face's indices appended in
      turn. */
  method FlattenIndices(faces: seq<AiFace>) returns (indices: seq<nat>)
    ensures indices == FlattenFaces(faces)
  {
    indices := [];
    for i := 0 to |faces|
      invariant indices == FlattenFaces(faces[..i])
    {
      var face := faces[i];
      for j := 0 to |face.indices|
        invariant indices == FlattenFaces(faces[..i]) + face.indices[..j]
      {
        indices := indices + [face.indices[j]];
        assert face.indices[..j + 1] == face.indices[..j] + [face.indices[j]];
      }
      assert faces[..i + 1][..i] == faces[..i] && face.indices[..|face.indices|] == face.indices;
    }
    assert faces[..|faces|] == faces;
  }

  class Model {
    var texturesLoaded: seq<Texture>
    var meshes: seq<Mesh>
    var directory: string

    function State(): Walk<Mesh, seq<Texture>>
      reads this
    {
      Walk(meshes, texturesLoaded)
    }

    /** An empty model, before `load_model`. */
    constructor Empty()
      ensures texturesLoaded == [] && meshes == [] && directory == ""
    {
      texturesLoaded, meshes, directory := [], [], "";
    }

    /** `Model(path)`: `load_model` on an empty model. `scene` is what the
        importer returned for the path (None for a null scene); `files` is
        the image decoder. */
    constructor (path: string, scene: Option<AiScene>, files: ImageFiles)
      requires scene.Some? ==> scene.value.WellFormed()
      ensures scene.None? || !scene.value.Usable() ==> meshes == [] && texturesLoaded == [] && directory == ""
      ensures scene.Some? && scene.value.Usable() ==>
        && directory == Directory(path)
        && Converts(scene.value, Converter(directory, files, scene.value))
        && State() == ConvertAll(Walk([], []), scene.value, PreOrder(scene.value.root.value), Converter(directory, files, scene.value))
    {
      texturesLoaded, meshes, directory := [], [], "";
      new;
      LoadModel(path, scene, files);
    }

    /** `load_model`: gives up, changing nothing, when the importer returned
        no scene, an incomplete one or one without a root; otherwise sets the
        directory and imports the meshes of the node tree in pre-order. */
    method LoadModel(path: string, scene: Option<AiScene>, files: ImageFiles)
      requires scene.Some? ==> scene.value.WellFormed()
      modifies this
      ensures scene.None? || !scene.value.Usable() ==>
        meshes == old(meshes) && texturesLoaded == old(texturesLoaded) && directory == old(directory)
      ensures scene.Some? && scene.value.Usable() ==>
        && directory == Directory(path)
        && Converts(scene.value, Converter(directory, files, scene.value))
        && State() == ConvertAll(old(State()), scene.value, PreOrder(scene.value.root.value), Converter(directory, files, scene.value))
    {
      if scene.None? || scene.value.incomplete || scene.value.root.None? {
        return;
      }
      directory := Directory(path);
      ConverterConverts(directory, files, scene.value);
      ProcessNode(scene.value.root.value, scene.value, files);
    }

    /** `process_node`: the node's own meshes in order, then each child's
        subtree in order. */
    method ProcessNode(node: AiNode, scene: AiScene, files: ImageFiles)
      requires scene.WellFormed() && scene.NamesMeshes(PreOrder(node)) && Converts(scene, Converter(directory, files, scene))
      modifies this`meshes, this`texturesLoaded
      ensures State() == ConvertAll(old(State()), scene, PreOrder(node), Converter(directory, files, scene))
      decreases node, 1
    {
      NamesMeshesSplit(scene, node.meshes, PreOrderAll(node.children));
      ConvertAllConcat(State(), scene, node.meshes, PreOrderAll(node.children), Converter(directory, files, scene));
      ProcessMeshes(node.meshes, scene, files);
      ProcessChildren(node, scene, files);
    }

    /** The child loop of `process_node`: each child's subtree in order. */
    method ProcessChildren(node: AiNode, scene: AiScene, files: ImageFiles)
      requires scene.WellFormed() && scene.NamesMeshes(PreOrderAll(node.children)) && Converts(scene, Converter(directory, files, scene))
      modifies this`meshes, this`texturesLoaded
      ensures State() == ConvertAll(old(State()), scene, PreOrderAll(node.children), Converter(directory, files, scene))
      decreases node, 0
    {
      ghost var s0 := State();
      assert PreOrderAll(node.children[..0]) == [];
      for i := 0 to |node.children|
        invariant scene.NamesMeshes(PreOrderAll(node.children[..i]))
        invariant State() == ConvertAll(s0, scene, PreOrderAll(node.children[..i]), Converter(directory, files, scene))
      {
        ConvertChild(s0, scene, node.children, i, Converter(directory, files, scene));
        ProcessNode(node.children[i], scene, files);
      }
      assert node.children[..|node.children|] == node.children;
    }

    /** The mesh loop of `process_node`: the meshes with the given scene
        indices, processed and appended in order. */
    method ProcessMeshes(ids: seq<nat>, scene: AiScene, files: ImageFiles)
      requires scene.WellFormed() && scene.NamesMeshes(ids) && Converts(scene, Converter(directory, files, scene))
      modifies this`meshes, this`texturesLoaded
      ensures State() == ConvertAll(old(State()), scene, ids, Converter(directory, files, scene))
    {
      ghost var s0 := State();
      for i := 0 to |ids|
        invariant State() == ConvertAll(s0, scene, ids[..i], Converter(directory, files, scene))
      {
        ConvertAllStep(s0, scene, ids, i, Converter(directory, files, scene));
        var mesh := ProcessMesh(scene.meshes[ids[i]], scene, files);
        meshes := meshes + [mesh];
      }
      assert ids[..|ids|] == ids;
    }

    /** `process_mesh`: converts the vertices, flattens the faces, loads the
        four texture lists through the cache and looks up the colours. */
    method ProcessMesh(m: AiMesh, scene: AiScene, files: ImageFiles) returns (mesh: Mesh)
      requires m.WellFormed() && m.materialIndex < |scene.materials|
      modifies this`texturesLoaded
      ensures MeshAndCache(mesh, texturesLoaded) == ImportMesh(old(texturesLoaded), directory, files, scene, m)
    {
      var vertices := ConvertVertices(m);
      var indices := FlattenIndices(m.faces);
      var mat := scene.materials[m.materialIndex];
      var diffuseMaps := LoadMaterialTextures(mat, Diffuse, "texture_diffuse", files);
      var specularMaps := LoadMaterialTextures(mat, Specular, "texture_specular", files);
      var normalMaps := LoadMaterialTextures(mat, Height, "texture_normal", files);
      var heightMaps := LoadMaterialTextures(mat, Ambient, "texture_height", files);
      var color := Zero3;
      if mat.ambient.Some? {
        color := mat.ambient.value;
      }
      var ka := color;
      if mat.diffuse.Some? {
        color := mat.diffuse.value;
      }
      var kd := color;
      if mat.specular.Some? {
        color := mat.specular.value;
      }
      var ks := color;
      mesh := Mesh(vertices, indices, diffuseMaps + specularMaps + normalMaps + heightMaps, ka, kd, ks, 0.0);
    }

    /** `load_material_textures`: for each file name of the given type, the
        first cached texture with that path, or a fresh load appended to the
        result and to the cache. */
    method LoadMaterialTextures(mat: AiMaterial, kind: TextureType, typeName: string, files: ImageFiles)
      returns (textures: seq<Texture>)
      modifies this`texturesLoaded
      ensures TextureCache.Loaded(textures, texturesLoaded)
           == TextureCache.Load(old(texturesLoaded), PathKey, Loader(directory, files, typeName), mat.Files(kind))
    {
      var names := mat.Files(kind);
      ghost var load := Loader(directory, files, typeName);
      ghost var goal := TextureCache.Load(texturesLoaded, PathKey, load, names);
      textures := [];
      for i := 0 to |names|
        invariant TextureCache.LoadFrom(texturesLoaded, PathKey, load, names, i, textures) == goal
      {
        var file := names[i];
        var skip := false;
        var j := 0;
        while j < |texturesLoaded|
          invariant 0 <= j <= |texturesLoaded|
          invariant TextureCache.FindFrom(texturesLoaded, PathKey, file, j) == TextureCache.Find(texturesLoaded, PathKey, file)
        {
          if texturesLoaded[j].path == file {
            skip := true;
            break;
          }
          j := j + 1;
        }
        if skip {
          textures := textures + [texturesLoaded[j]];
        } else {
          var texture := TextureFromFile(file, directory, files);
          texture := texture.(kind := typeName, path := file);
          textures := textures + [texture];
          texturesLoaded := texturesLoaded + [texture];
        }
      }
    }
  }
}
