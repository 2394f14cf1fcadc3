/** Model loading of the glm pipeline (Core/model.cpp, Core/model.h):
    decoded images turned into RGBA texels in [0, 1], the model's directory
    taken up to its last '/' or else its last '\', a pre-order walk of the
    importer's node tree, meshes converted vertex by vertex into the default
    material with the lookups that succeed written over it, and the texture
    cache. */
module ModelImport {
  import opened LinAlg
  import opened Wrappers
  import opened Meshes
  import opened Importer
  import TextureCache
  import Scenes

  // ---------------------------------------------------------------------
  // textureFromFile

  /** A byte scaled to [0, 1]. */
  function Channel(b: bv8): real {
    (b as int) as real / 255.0
  }

  const Black: Vec4 := Vec4(0.0, 0.0, 0.0, 0.0)

  /** Texel i of a decoded image: one channel goes to red with green and
      blue zero, three channels gain an opaque alpha, four are all scaled;
      any other count keeps the zero texel the resized table starts with. */
  function TexelColor(d: Image, i: int): Vec4
    requires 0 <= i < d.width * d.height
  {
    if d.components == 1 then Vec4(Channel(d.data[i]), 0.0, 0.0, 1.0)
    else if d.components == 3 then Vec4(Channel(d.data[3 * i]), Channel(d.data[3 * i + 1]), Channel(d.data[3 * i + 2]), 1.0)
    else if d.components == 4 then
      Vec4(Channel(d.data[4 * i]), Channel(d.data[4 * i + 1]), Channel(d.data[4 * i + 2]), Channel(d.data[4 * i + 3]))
    else Black
  }

  /** All texels of a decoded image, row by row. */
  function Texels(d: Image): (r: seq<Vec4>)
    ensures |r| == d.width * d.height
    ensures forall i :: 0 <= i < |r| ==> r[i] == TexelColor(d, i)
  {
    seq(d.width * d.height, i requires 0 <= i < d.width * d.height => TexelColor(d, i))
  }

  /** `textureFromFile`'s result for what the decoder returned; type and
      file are set by the caller. A failed decode is modelled as an empty
      0 x 0 texture. */
  function LoadedTexture(decoded: Option<Image>): (t: Texture)
    ensures decoded.Some? ==> t.width == decoded.value.width && t.height == decoded.value.height
    ensures decoded.Some? ==> |t.data| == t.width * t.height
    ensures decoded.None? ==> t.data == []
  {
    match decoded
    case None => Texture([], 0, 0, "", "")
    case Some(d) => Texture(Texels(d), d.width, d.height, "", "")
  }

  lemma ChannelInUnit(b: bv8)
    ensures 0.0 <= Channel(b) <= 1.0
  {
  }

  /** Every channel of every loaded texel lies in [0, 1]; grey and RGB images
      come out opaque, a grey image only in the red channel. */
  lemma TexelsInUnit(d: Image, i: int)
    requires 0 <= i < d.width * d.height
    ensures var c := LoadedTexture(Some(d)).data[i];
      && 0.0 <= c.x <= 1.0 && 0.0 <= c.y <= 1.0 && 0.0 <= c.z <= 1.0 && 0.0 <= c.w <= 1.0
      && (d.components == 1 || d.components == 3 ==> c.w == 1.0)
      && (d.components == 1 ==> c.y == 0.0 && c.z == 0.0)
      && (d.components == 4 ==> c.w == Channel(d.data[4 * i + 3]))
  {
    if d.components == 1 {
      ChannelInUnit(d.data[i]);
    } else if d.components == 3 {
      ChannelInUnit(d.data[3 * i]);
      ChannelInUnit(d.data[3 * i + 1]);
      ChannelInUnit(d.data[3 * i + 2]);
    } else if d.components == 4 {
      ChannelInUnit(d.data[4 * i]);
      ChannelInUnit(d.data[4 * i + 1]);
      ChannelInUnit(d.data[4 * i + 2]);
      ChannelInUnit(d.data[4 * i + 3]);
    }
  }

  /** A loaded texture can be sampled exactly when the decode succeeded with
      at least one texel per axis; a failed decode never can. */
  lemma LoadedSampleable(decoded: Option<Image>)
    ensures LoadedTexture(decoded).Sampleable() <==>
      decoded.Some? && decoded.value.width >= 1 && decoded.value.height >= 1
  {
  }

  /** `textureFromFile`: decodes `directory\file` and converts it texel by
      texel into a table that starts as width * height zero texels. */
  method TextureFromFile(file: string, directory: string, files: ImageFiles) returns (t: Texture)
    ensures t == LoadedTexture(files(JoinPath(directory, '\\', file)))
  {
    var decoded := files(JoinPath(directory, '\\', file));
    if decoded.None? {
      t := Texture([], 0, 0, "", "");
      return;
    }
    var d := decoded.value;
    var n := d.width * d.height;
    var data: seq<Vec4> := seq(n, _ => Black);
    for i := 0 to n
      invariant |data| == n
      invariant forall k :: 0 <= k < i ==> data[k] == TexelColor(d, k)
      invariant forall k :: i <= k < n ==> data[k] == Black
    {
      if d.components == 1 {
        data := data[i := Vec4(Channel(d.data[i]), 0.0, 0.0, 1.0)];
      } else if d.components == 3 {
        data := data[i := Vec4(Channel(d.data[3 * i]), Channel(d.data[3 * i + 1]), Channel(d.data[3 * i + 2]), 1.0)];
      } else if d.components == 4 {
        data := data[i := Vec4(Channel(d.data[4 * i]), Channel(d.data[4 * i + 1]), Channel(d.data[4 * i + 2]), Channel(d.data[4 * i + 3]))];
      }
    }
    t := Texture(data, d.width, d.height, "", "");
  }

  // ---------------------------------------------------------------------
  // loadModel

  /** The model's directory: the path up to its last '/'; without one, up to
      its last '\'; without either, the whole path. */
  function Directory(path: string): (d: string)
    ensures d <= path
  {
    var slash := LastIndexOf(path, '/');
    if slash.Some? then PrefixTo(path, slash) else PrefixTo(path, LastIndexOf(path, '\\'))
  }

  /** The directory ends right before the last separator of the preferred
      kind, and the file name after it holds none of that kind. */
  lemma DirectorySplit(path: string)
    ensures var d := Directory(path);
      && ('/' in path ==> |d| < |path| && path[|d|] == '/' && '/' !in path[|d| + 1..])
      && ('/' !in path && '\\' in path ==> |d| < |path| && path[|d|] == '\\' && '\\' !in path[|d| + 1..])
      && ('/' !in path && '\\' !in path ==> d == path)
  {
  }

  // ---------------------------------------------------------------------
  // loadMaterialTextures

  /** A texture's cache key: the file name it was loaded from. */
  function FileKey(t: Texture): string {
    t.file
  }

  /** Loading a texture not in the cache: decode it, then record the type
      name and the file name. */
  function Loader(directory: string, files: ImageFiles, kind: string): string -> Texture {
    file => LoadedTexture(files(JoinPath(directory, '\\', file))).(kind := kind, file := file)
  }

  lemma LoaderKeyed(directory: string, files: ImageFiles, kind: string)
    ensures TextureCache.Keyed(FileKey, Loader(directory, files, kind))
  {
  }

  /** Every image the decoder is asked for decodes, with at least one texel
      per axis. */
  ghost predicate AllDecode(files: ImageFiles) {
    forall path :: files(path).Some? && files(path).value.width >= 1 && files(path).value.height >= 1
  }

  predicate AllSampleable(ts: seq<Texture>) {
    forall k :: 0 <= k < |ts| ==> ts[k].Sampleable()
  }

  /** When every image decodes, a call of `loadMaterialTextures` over a cache
      of sampleable textures returns sampleable textures and leaves the cache
      so. */
  lemma LoadSampleable(cache: seq<Texture>, directory: string, files: ImageFiles, kind: string, names: seq<string>)
    requires AllDecode(files) && AllSampleable(cache)
    ensures var r := TextureCache.Load(cache, FileKey, Loader(directory, files, kind), names);
      AllSampleable(r.textures) && AllSampleable(r.cache)
  {
    var load := Loader(directory, files, kind);
    LoaderKeyed(directory, files, kind);
    TextureCache.LoadSpec(cache, FileKey, load, names);
    var r := TextureCache.Load(cache, FileKey, load, names);
    forall j | 0 <= j < |r.cache|
      ensures r.cache[j].Sampleable()
    {
      if j < |cache| {
        assert r.cache[j] == cache[j];
      } else {
        var f := FileKey(r.cache[j]);
        LoadedSampleable(files(JoinPath(directory, '\\', f)));
        assert r.cache[j] == load(f);
      }
    }
  }

  // ---------------------------------------------------------------------
  // processMesh

  /** Vertex i as `processMesh` builds it: the position, the normal, tangent
      and bitangent when the mesh has them (zero otherwise), and the first
      texture coordinates or (0, 0). */
  function ImportedVertex(m: AiMesh, i: int): Vertex
    requires m.WellFormed() && 0 <= i < |m.positions|
  {
    Vertex(m.positions[i],
           if m.normals.Some? then m.normals.value[i] else Splat3(0.0),
           if m.texcoords.Some? then Vec2(m.texcoords.value[i].x, m.texcoords.value[i].y) else Vec2(0.0, 0.0),
           if m.tangents.Some? then m.tangents.value[i] else Splat3(0.0),
           if m.bitangents.Some? then m.bitangents.value[i] else Splat3(0.0))
  }

  function ImportedVertices(m: AiMesh): (vs: seq<Vertex>)
    requires m.WellFormed()
    ensures |vs| == |m.positions| && forall i :: 0 <= i < |vs| ==> vs[i] == ImportedVertex(m, i)
  {
    seq(|m.positions|, i requires 0 <= i < |m.positions| => ImportedVertex(m, i))
  }

  /** The texture lists of `processMesh`, each loaded through the cache left
      by the one before: diffuse, specular, normal maps read from the HEIGHT
      slot, and displacement maps. Bump maps stay empty. */
  datatype MeshMaps = MeshMaps(diffuse: seq<Texture>, specular: seq<Texture>, normal: seq<Texture>,
                               displacement: seq<Texture>, cache: seq<Texture>)

  function MeshTextures(cache: seq<Texture>, directory: string, files: ImageFiles, mat: AiMaterial): MeshMaps {
    var d := TextureCache.Load(cache, FileKey, Loader(directory, files, "texture_diffuse"), mat.Files(Diffuse));
    var s := TextureCache.Load(d.cache, FileKey, Loader(directory, files, "texture_specular"), mat.Files(Specular));
    var n := TextureCache.Load(s.cache, FileKey, Loader(directory, files, "texture_normal"), mat.Files(Height));
    var p := TextureCache.Load(n.cache, FileKey, Loader(directory, files, "texture_displacement"), mat.Files(Displacement));
    MeshMaps(d.textures, s.textures, n.textures, p.textures, p.cache)
  }

  /** The material `processMesh` returns: the defaults, the four texture
      lists, and each colour and the shininess written over only when its
      lookup succeeds. */
  function ImportedMaterial(maps: MeshMaps, mat: AiMaterial): Material {
    var base := DefaultMaterial();
    base.(diffuseMaps := maps.diffuse, specularMaps := maps.specular, normalMaps := maps.normal,
          displacementMaps := maps.displacement,
          ka := mat.ambient.GetOr(base.ka), kd := mat.diffuse.GetOr(base.kd),
          ks := mat.specular.GetOr(base.ks), ns := mat.shininess.GetOr(base.ns))
  }

  /** `processMesh` on the texture cache `cache`. */
  function ImportMesh(cache: seq<Texture>, directory: string, files: ImageFiles, scene: AiScene, m: AiMesh): (Mesh, seq<Texture>)
    requires m.WellFormed() && m.materialIndex < |scene.materials|
  {
    var maps := MeshTextures(cache, directory, files, scene.materials[m.materialIndex]);
    (Mesh(ImportedVertices(m), FlattenFaces(m.faces), ImportedMaterial(maps, scene.materials[m.materialIndex])), maps.cache)
  }

  /** The material keeps a default exactly where the lookup failed, and has
      no emission. */
  lemma ImportedMaterialDefaults(maps: MeshMaps, mat: AiMaterial)
    ensures var r := ImportedMaterial(maps, mat);
      && (mat.ambient.None? ==> r.ka == Splat3(0.1)) && (mat.ambient.Some? ==> r.ka == mat.ambient.value)
      && (mat.diffuse.None? ==> r.kd == Splat3(0.5)) && (mat.diffuse.Some? ==> r.kd == mat.diffuse.value)
      && (mat.specular.None? ==> r.ks == Splat3(0.5)) && (mat.specular.Some? ==> r.ks == mat.specular.value)
      && (mat.shininess.None? ==> r.ns == 12.0) && (mat.shininess.Some? ==> r.ns == mat.shininess.value)
      && r.bumpMaps == [] && GetEmission(r) == Splat3(0.0)
  {
    EmissionZero(ImportedMaterial(maps, mat));
  }

  /** When every image decodes and the cache holds sampleable textures, all
      four lists and the cache afterwards are sampleable. */
  lemma MeshTexturesSampleable(cache: seq<Texture>, directory: string, files: ImageFiles, mat: AiMaterial)
    requires AllDecode(files) && AllSampleable(cache)
    ensures var r := MeshTextures(cache, directory, files, mat);
      && AllSampleable(r.diffuse) && AllSampleable(r.specular) && AllSampleable(r.normal)
      && AllSampleable(r.displacement) && AllSampleable(r.cache)
  {
    var d := TextureCache.Load(cache, FileKey, Loader(directory, files, "texture_diffuse"), mat.Files(Diffuse));
    LoadSampleable(cache, directory, files, "texture_diffuse", mat.Files(Diffuse));
    var s := TextureCache.Load(d.cache, FileKey, Loader(directory, files, "texture_specular"), mat.Files(Specular));
    LoadSampleable(d.cache, directory, files, "texture_specular", mat.Files(Specular));
    var n := TextureCache.Load(s.cache, FileKey, Loader(directory, files, "texture_normal"), mat.Files(Height));
    LoadSampleable(s.cache, directory, files, "texture_normal", mat.Files(Height));
    LoadSampleable(n.cache, directory, files, "texture_displacement", mat.Files(Displacement));
  }

  /** An imported mesh of triangles, on a cache of sampleable textures and
      with every image decoding, is one both pipelines can draw: three
      indices per face, each naming a vertex, and every map sampleable; the
      cache it leaves stays sampleable. */
  lemma ImportedMeshReady(cache: seq<Texture>, directory: string, files: ImageFiles, scene: AiScene, m: AiMesh)
    requires m.WellFormed() && m.materialIndex < |scene.materials| && m.Triangulated()
    requires AllDecode(files) && AllSampleable(cache)
    ensures var (r, c) := ImportMesh(cache, directory, files, scene, m);
      |r.indices| == 3 * |m.faces| && Scenes.MeshReady(r) && AllSampleable(c)
  {
    var mat := scene.materials[m.materialIndex];
    FlattenTriangles(m.faces, |m.positions|);
    MeshTexturesSampleable(cache, directory, files, mat);
    var maps := MeshTextures(cache, directory, files, mat);
    var r := ImportedMaterial(maps, mat);
    assert forall t :: t in maps.diffuse ==> t.Sampleable();
    assert forall t :: t in maps.specular ==> t.Sampleable();
    assert forall t :: t in maps.normal ==> t.Sampleable();
    assert forall t :: t in maps.displacement ==> t.Sampleable();
    assert Scenes.MeshIndexed(ImportMesh(cache, directory, files, scene, m).0);
  }

  /** `processMesh` as the walk's converter. */
  function Converter(directory: string, files: ImageFiles, scene: AiScene): (seq<Texture>, AiMesh) --> (Mesh, seq<Texture>) {
    (cache: seq<Texture>, m: AiMesh) requires m.WellFormed() && m.materialIndex < |scene.materials| =>
      ImportMesh(cache, directory, files, scene, m)
  }

  lemma ConverterConverts(directory: string, files: ImageFiles, scene: AiScene)
    requires scene.WellFormed()
    ensures Converts(scene, Converter(directory, files, scene))
  {
  }

  /** Every mesh of the scene is made of triangles. */
  predicate AllTriangulated(scene: AiScene) {
    forall k :: 0 <= k < |scene.meshes| ==> scene.meshes[k].Triangulated()
  }

  /** A whole walk over a triangulated scene whose images all decode keeps
      every mesh ready to draw and every cached texture sampleable. */
  lemma {:induction false} WalkReady(s: Walk<Mesh, seq<Texture>>, directory: string, files: ImageFiles, scene: AiScene, ids: seq<nat>)
    requires scene.WellFormed() && scene.NamesMeshes(ids) && AllTriangulated(scene) && AllDecode(files)
    requires AllSampleable(s.cache) && forall j :: 0 <= j < |s.meshes| ==> Scenes.MeshReady(s.meshes[j])
    ensures Converts(scene, Converter(directory, files, scene))
    ensures var r := ConvertAll(s, scene, ids, Converter(directory, files, scene));
      AllSampleable(r.cache) && forall j :: 0 <= j < |r.meshes| ==> Scenes.MeshReady(r.meshes[j])
  {
    ConverterConverts(directory, files, scene);
    if |ids| > 0 {
      var conv := Converter(directory, files, scene);
      var p := ConvertAll(s, scene, ids[..|ids| - 1], conv);
      WalkReady(s, directory, files, scene, ids[..|ids| - 1]);
      var m := scene.meshes[ids[|ids| - 1]];
      ImportedMeshReady(p.cache, directory, files, scene, m);
      var r := ConvertAll(s, scene, ids, conv);
      assert r.meshes == p.meshes + [ImportMesh(p.cache, directory, files, scene, m).0];
    }
  }

  // ---------------------------------------------------------------------
  // The loop methods of processMesh

  /** The vertex loop of `processMesh`. */
  method ConvertVertices(m: AiMesh) returns (vertices: seq<Vertex>)
    requires m.WellFormed()
    ensures vertices == ImportedVertices(m)
  {
    vertices := [];
    for i := 0 to |m.positions|
      invariant |vertices| == i && forall k :: 0 <= k < i ==> vertices[k] == ImportedVertex(m, k)
    {
      var normal, tangent, bitangent := Splat3(0.0), Splat3(0.0), Splat3(0.0);
      if m.normals.Some? {
        normal := m.normals.value[i];
      }
      if m.tangents.Some? {
        tangent, bitangent := m.tangents.value[i], m.bitangents.value[i];
      }
      var texcoords := Vec2(0.0, 0.0);
      if m.texcoords.Some? {
        texcoords := Vec2(m.texcoords.value[i].x, m.texcoords.value[i].y);
      }
      vertices := vertices + [Vertex(m.positions[i], normal, texcoords, tangent, bitangent)];
    }
  }

  /** The face loop of `processMesh`: each face's indices appended in
      turn. */
  method FlattenIndices(faces: seq<AiFace>) returns (indices: seq<nat>)
    ensures indices == FlattenFaces(faces)
  {
    indices := [];
    for i := 0 to |faces|
      invariant indices == FlattenFaces(faces[..i])
    {
      var face := faces[i];
      for j := 0 to |face.indices|
        invariant indices == FlattenFaces(faces[..i]) + face.indices[..j]
      {
        indices := indices + [face.indices[j]];
        assert face.indices[..j + 1] == face.indices[..j] + [face.indices[j]];
      }
      assert faces[..i + 1][..i] == faces[..i] && face.indices[..|face.indices|] == face.indices;
    }
    assert faces[..|faces|] == faces;
  }

  class Model {
    var texturesLoaded: seq<Texture>
    var meshes: seq<Mesh>
    var directory: string
    var scale: Vec3
    var translate: Vec3

    function State(): Walk<Mesh, seq<Texture>>
      reads this
    {
      Walk(meshes, texturesLoaded)
    }

    /** The model as a scene holds it. */
    function Value(): Scenes.Model
      reads this
    {
      Scenes.Model(texturesLoaded, meshes, directory, scale, translate)
    }

    /** `Model(path)`: unit scale, no translation, then `loadModel`. `scene`
        is what the importer returned for the path (None for a null scene);
        `files` is the image decoder. */
    constructor (path: string, scene: Option<AiScene>, files: ImageFiles)
      requires scene.Some? ==> scene.value.WellFormed()
      ensures scale == Splat3(1.0) && translate == Splat3(0.0)
      ensures scene.None? || !scene.value.Usable() ==> meshes == [] && texturesLoaded == [] && directory == ""
      ensures scene.Some? && scene.value.Usable() ==>
        && directory == Directory(path)
        && Converts(scene.value, Converter(directory, files, scene.value))
        && State() == ConvertAll(Walk([], []), scene.value, PreOrder(scene.value.root.value), Converter(directory, files, scene.value))
    {
      texturesLoaded, meshes, directory := [], [], "";
      scale, translate := Splat3(1.0), Splat3(0.0);
      new;
      LoadModel(path, scene, files);
    }

    /** `loadModel`: gives up, changing nothing, when the importer returned
        no scene, an incomplete one or one without a root; otherwise sets the
        directory and imports the meshes of the node tree in pre-order. */
    method LoadModel(path: string, scene: Option<AiScene>, files: ImageFiles)
      requires scene.Some? ==> scene.value.WellFormed()
      modifies this`meshes, this`texturesLoaded, this`directory
      ensures scene.None? || !scene.value.Usable() ==>
        meshes == old(meshes) && texturesLoaded == old(texturesLoaded) && directory == old(directory)
      ensures scene.Some? && scene.value.Usable() ==>
        && directory == Directory(path)
        && Converts(scene.value, Converter(directory, files, scene.value))
        && State() == ConvertAll(old(State()), scene.value, PreOrder(scene.value.root.value), Converter(directory, files, scene.value))
    {
      if scene.None? || scene.value.incomplete || scene.value.root.None? {
        return;
      }
      directory := Directory(path);
      ConverterConverts(directory, files, scene.value);
      ProcessNode(scene.value.root.value, scene.value, files);
    }

    /** `processNode`: the node's own meshes in order, then each child's
        subtree in order. */
    method ProcessNode(node: AiNode, scene: AiScene, files: ImageFiles)
      requires scene.WellFormed() && scene.NamesMeshes(PreOrder(node)) && Converts(scene, Converter(directory, files, scene))
      modifies this`meshes, this`texturesLoaded
      ensures State() == ConvertAll(old(State()), scene, PreOrder(node), Converter(directory, files, scene))
      decreases node, 1
    {
      NamesMeshesSplit(scene, node.meshes, PreOrderAll(node.children));
      ConvertAllConcat(State(), scene, node.meshes, PreOrderAll(node.children), Converter(directory, files, scene));
      ProcessMeshes(node.meshes, scene, files);
      ProcessChildren(node, scene, files);
    }

    /** The child loop of `processNode`: each child's subtree in order. */
    method ProcessChildren(node: AiNode, scene: AiScene, files: ImageFiles)
      requires scene.WellFormed() && scene.NamesMeshes(PreOrderAll(node.children)) && Converts(scene, Converter(directory, files, scene))
      modifies this`meshes, this`texturesLoaded
      ensures State() == ConvertAll(old(State()), scene, PreOrderAll(node.children), Converter(directory, files, scene))
      decreases node, 0
    {
      ghost var s0 := State();
      assert PreOrderAll(node.children[..0]) == [];
      for i := 0 to |node.children|
        invariant scene.NamesMeshes(PreOrderAll(node.children[..i]))
        invariant State() == ConvertAll(s0, scene, PreOrderAll(node.children[..i]), Converter(directory, files, scene))
      {
        ConvertChild(s0, scene, node.children, i, Converter(directory, files, scene));
        ProcessNode(node.children[i], scene, files);
      }
      assert node.children[..|node.children|] == node.children;
    }

    /** The mesh loop of `processNode`: the meshes with the given scene
        indices, processed and appended in order. */
    method ProcessMeshes(ids: seq<nat>, scene: AiScene, files: ImageFiles)
      requires scene.WellFormed() && scene.NamesMeshes(ids) && Converts(scene, Converter(directory, files, scene))
      modifies this`meshes, this`texturesLoaded
      ensures State() == ConvertAll(old(State()), scene, ids, Converter(directory, files, scene))
    {
      ghost var s0 := State();
      for i := 0 to |ids|
        invariant State() == ConvertAll(s0, scene, ids[..i], Converter(directory, files, scene))
      {
        ConvertAllStep(s0, scene, ids, i, Converter(directory, files, scene));
        var mesh := ProcessMesh(scene.meshes[ids[i]], scene, files);
        meshes := meshes + [mesh];
      }
      assert ids[..|ids|] == ids;
    }

    /** `processMesh`: converts the vertices, flattens the faces, loads the
        four texture lists through the cache and writes the successful
        lookups over the default material. */
    method ProcessMesh(m: AiMesh, scene: AiScene, files: ImageFiles) returns (mesh: Mesh)
      requires m.WellFormed() && m.materialIndex < |scene.materials|
      modifies this`texturesLoaded
      ensures (mesh, texturesLoaded) == ImportMesh(old(texturesLoaded), directory, files, scene, m)
    {
      var vertices := ConvertVertices(m);
      var indices := FlattenIndices(m.faces);
      var material := scene.materials[m.materialIndex];
      var mat := DefaultMaterial();
      var diffuseMaps := LoadMaterialTextures(material, Diffuse, "texture_diffuse", files);
      var specularMaps := LoadMaterialTextures(material, Specular, "texture_specular", files);
      var normalMaps := LoadMaterialTextures(material, Height, "texture_normal", files);
      var displacementMaps := LoadMaterialTextures(material, Displacement, "texture_displacement", files);
      mat := mat.(diffuseMaps := diffuseMaps, specularMaps := specularMaps, normalMaps := normalMaps,
                  displacementMaps := displacementMaps);
      if material.ambient.Some? {
        mat := mat.(ka := material.ambient.value);
      }
      if material.diffuse.Some? {
        mat := mat.(kd := material.diffuse.value);
      }
      if material.specular.Some? {
        mat := mat.(ks := material.specular.value);
      }
      if material.shininess.Some? {
        mat := mat.(ns := material.shininess.value);
      }
      mesh := Mesh(vertices, indices, mat);
    }

    /** `loadMaterialTextures`: for each file name of the given type, the
        first cached texture with that file name, or a fresh load appended
        to the result and to the cache. */
    method LoadMaterialTextures(mat: AiMaterial, kind: TextureType, typeName: string, files: ImageFiles)
      returns (textures: seq<Texture>)
      modifies this`texturesLoaded
      ensures TextureCache.Loaded(textures, texturesLoaded)
           == TextureCache.Load(old(texturesLoaded), FileKey, Loader(directory, files, typeName), mat.Files(kind))
    {
      var names := mat.Files(kind);
      ghost var load := Loader(directory, files, typeName);
      ghost var goal := TextureCache.Load(texturesLoaded, FileKey, load, names);
      textures := [];
      for i := 0 to |names|
        invariant TextureCache.LoadFrom(texturesLoaded, FileKey, load, names, i, textures) == goal
      {
        var file := names[i];
        var skip := false;
        var j := 0;
        while j < |texturesLoaded|
          invariant 0 <= j <= |texturesLoaded|
          invariant TextureCache.FindFrom(texturesLoaded, FileKey, file, j) == TextureCache.Find(texturesLoaded, FileKey, file)
        {
          if texturesLoaded[j].file == file {
            skip := true;
            break;
          }
          j := j + 1;
        }
        if skip {
          textures := textures + [texturesLoaded[j]];
        } else {
          var texture := TextureFromFile(file, directory, files);
          texture := texture.(kind := typeName, file := file);
          textures := textures + [texture];
          texturesLoaded := texturesLoaded + [texture];
        }
      }
    }
  }

  /** A model loaded from a usable, triangulated scene whose images all
      decode is ready for both pipelines. */
  lemma LoadedModelReady(directory: string, files: ImageFiles, scene: AiScene)
    requires scene.WellFormed() && scene.Usable() && AllTriangulated(scene) && AllDecode(files)
    ensures Converts(scene, Converter(directory, files, scene))
    ensures var r := ConvertAll(Walk([], []), scene, PreOrder(scene.root.value), Converter(directory, files, scene));
      Scenes.ModelReady(Scenes.Model(r.cache, r.meshes, directory, Splat3(1.0), Splat3(0.0)))
  {
    WalkReady(Walk([], []), directory, files, scene, PreOrder(scene.root.value));
  }
}
