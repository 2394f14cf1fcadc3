/** The texture cache both model loaders keep (`load_material_textures` in
    src/Model.cpp, `loadMaterialTextures` in Core/model.cpp): every texture
    loaded so far, in load order, keyed by the file name it came from. A name
    already in the cache reuses the first cached texture with that name; any
    other name is loaded and appended both to the result and to the cache.
    The two loaders differ only in their texture type, so the cache is
    generic in it: `key` reads a texture's file name and `load` loads a
    file. */
module TextureCache {
  import opened Wrappers

  /** The inner search loop: the first entry at or after j whose name is
      `file`, None when there is none. */
  function FindFrom<T>(cache: seq<T>, key: T -> string, file: string, j: nat): (r: Option<nat>)
    ensures r.Some? ==> j <= r.value < |cache| && key(cache[r.value]) == file
    ensures r.Some? ==> forall k :: j <= k < r.value ==> key(cache[k]) != file
    ensures r.None? ==> forall k :: j <= k < |cache| ==> key(cache[k]) != file
    decreases |cache| - j
  {
    if j >= |cache| then None
    else if key(cache[j]) == file then Some(j)
    else FindFrom(cache, key, file, j + 1)
  }

  function Find<T>(cache: seq<T>, key: T -> string, file: string): Option<nat> {
    FindFrom(cache, key, file, 0)
  }

  /** Appending never changes which entry a search finds first, except that
      a name missing before is found at the appended entry when that entry
      carries it. */
  lemma {:induction false} FindFromAppend<T>(cache: seq<T>, key: T -> string, file: string, t: T, j: nat)
    requires j <= |cache|
    ensures FindFrom(cache, key, file, j).Some? ==> FindFrom(cache + [t], key, file, j) == FindFrom(cache, key, file, j)
    ensures FindFrom(cache, key, file, j).None? && key(t) == file ==> FindFrom(cache + [t], key, file, j) == Some(|cache|)
    ensures FindFrom(cache, key, file, j).None? && key(t) != file ==> FindFrom(cache + [t], key, file, j).None?
    decreases |cache| - j
  {
    var c := cache + [t];
    if j == |cache| {
      assert c[j] == t;
    } else {
      assert c[j] == cache[j];
      if key(cache[j]) != file {
        FindFromAppend(cache, key, file, t, j + 1);
      }
    }
  }

  lemma FindAppend<T>(cache: seq<T>, key: T -> string, file: string, t: T)
    ensures Find(cache, key, file).Some? ==> Find(cache + [t], key, file) == Find(cache, key, file)
    ensures Find(cache, key, file).None? && key(t) == file ==> Find(cache + [t], key, file) == Some(|cache|)
    ensures Find(cache, key, file).None? && key(t) != file ==> Find(cache + [t], key, file).None?
  {
    FindFromAppend(cache, key, file, t, 0);
  }

  /** No two entries carry the same name. */
  predicate Unique<T>(cache: seq<T>, key: T -> string) {
    forall a, b :: 0 <= a < b < |cache| ==> key(cache[a]) != key(cache[b])
  }

  /** `load` produces a texture carrying the name it was loaded from. */
  ghost predicate Keyed<T>(key: T -> string, load: string -> T) {
    forall file :: key(load(file)) == file
  }

  datatype Loaded<T> = Loaded(textures: seq<T>, cache: seq<T>)

  /** The outer loop from name i on, with `acc` the textures collected so
      far. */
  function LoadFrom<T>(cache: seq<T>, key: T -> string, load: string -> T, files: seq<string>, i: nat, acc: seq<T>): Loaded<T>
    requires i <= |files|
    decreases |files| - i
  {
    if i == |files| then Loaded(acc, cache)
    else
      match Find(cache, key, files[i])
      case Some(j) => LoadFrom(cache, key, load, files, i + 1, acc + [cache[j]])
      case None =>
        var t := load(files[i]);
        LoadFrom(cache + [t], key, load, files, i + 1, acc + [t])
  }

  /** One call of the loader's `load_material_textures` for the given file
      names. */
  function Load<T>(cache: seq<T>, key: T -> string, load: string -> T, files: seq<string>): Loaded<T> {
    LoadFrom(cache, key, load, files, 0, [])
  }

  /** What holds after names 0 to i - 1: the original cache is a prefix of the
      current one, every entry after it is a fresh load of its own name, the
      i textures carry their names and are each name's first cache entry. */
  ghost predicate Progress<T>(cache0: seq<T>, key: T -> string, load: string -> T, files: seq<string>, i: nat,
                              cache: seq<T>, acc: seq<T>)
  {
    && i <= |files| && |acc| == i
    && cache0 <= cache
    && (forall j :: |cache0| <= j < |cache| ==> cache[j] == load(key(cache[j])))
    && (forall k :: 0 <= k < i ==>
          key(acc[k]) == files[k] && Find(cache, key, files[k]).Some? && acc[k] == cache[Find(cache, key, files[k]).value])
    && (forall k :: 0 <= k < i && Find(cache0, key, files[k]).Some? ==> acc[k] == cache0[Find(cache0, key, files[k]).value])
    && (Unique(cache0, key) ==> Unique(cache, key))
  }

  lemma ProgressStep<T>(cache0: seq<T>, key: T -> string, load: string -> T, files: seq<string>, i: nat,
                        cache: seq<T>, acc: seq<T>)
    requires Keyed(key, load) && i < |files| && Progress(cache0, key, load, files, i, cache, acc)
    ensures match Find(cache, key, files[i])
      case Some(j) => Progress(cache0, key, load, files, i + 1, cache, acc + [cache[j]])
      case None => Progress(cache0, key, load, files, i + 1, cache + [load(files[i])], acc + [load(files[i])])
  {
    var f := files[i];
    match Find(cache, key, f)
    case Some(j) =>
      var acc' := acc + [cache[j]];
      forall k | 0 <= k < i + 1 && Find(cache0, key, files[k]).Some?
        ensures acc'[k] == cache0[Find(cache0, key, files[k]).value]
      {
        if k == i {
          FindPrefix(cache0, cache, key, f);
        }
      }
    case None =>
      var t := load(f);
      var cache', acc' := cache + [t], acc + [t];
      forall k | 0 <= k < i + 1
        ensures key(acc'[k]) == files[k] && Find(cache', key, files[k]).Some?
        ensures acc'[k] == cache'[Find(cache', key, files[k]).value]
      {
        FindAppend(cache, key, files[k], t);
        if k < i {
          assert cache'[Find(cache, key, files[k]).value] == cache[Find(cache, key, files[k]).value];
        }
      }
      forall k | 0 <= k < i + 1 && Find(cache0, key, files[k]).Some?
        ensures acc'[k] == cache0[Find(cache0, key, files[k]).value]
      {
        if k == i {
          FindPrefix(cache0, cache, key, f);
        }
      }
      forall j | |cache0| <= j < |cache'|
        ensures cache'[j] == load(key(cache'[j]))
      {
        if j < |cache| {
          assert cache'[j] == cache[j];
        }
      }
      if Unique(cache0, key) {
        forall a, b | 0 <= a < b < |cache'|
          ensures key(cache'[a]) != key(cache'[b])
        {
          if b == |cache| {
            assert key(cache[a]) != f;
          } else {
            assert cache'[a] == cache[a] && cache'[b] == cache[b];
          }
        }
      }
      assert cache0 <= cache';
  }

  /** A name found in an extension of a cache is found at the same entry
      when the shorter cache already has it. */
  lemma FindPrefix<T>(cache0: seq<T>, cache: seq<T>, key: T -> string, file: string)
    requires cache0 <= cache && Find(cache0, key, file).Some?
    ensures Find(cache, key, file) == Find(cache0, key, file)
  {
    var j := Find(cache0, key, file).value;
    assert cache[j] == cache0[j];
    assert forall k :: 0 <= k < j ==> cache[k] == cache0[k];
  }

  lemma {:induction false} LoadFromProgress<T>(cache0: seq<T>, key: T -> string, load: string -> T, files: seq<string>,
                                               i: nat, cache: seq<T>, acc: seq<T>)
    requires Keyed(key, load) && Progress(cache0, key, load, files, i, cache, acc)
    ensures var r := LoadFrom(cache, key, load, files, i, acc);
      Progress(cache0, key, load, files, |files|, r.cache, r.textures)
    decreases |files| - i
  {
    if i < |files| {
      ProgressStep(cache0, key, load, files, i, cache, acc);
      match Find(cache, key, files[i])
      case Some(j) =>
        LoadFromProgress(cache0, key, load, files, i + 1, cache, acc + [cache[j]]);
      case None =>
        var t := load(files[i]);
        LoadFromProgress(cache0, key, load, files, i + 1, cache + [t], acc + [t]);
    }
  }

  /** What a call promises: one texture per name, in order, each carrying
      its name; a name cached beforehand gives the cached texture, not a
      reload; every texture is its name's first cache entry afterwards; the
      cache only grows at the end, by fresh loads; and a cache without
      repeated names stays so, each file being loaded at most once. */
  lemma LoadSpec<T>(cache: seq<T>, key: T -> string, load: string -> T, files: seq<string>)
    requires Keyed(key, load)
    ensures var r := Load(cache, key, load, files);
      && |r.textures| == |files|
      && cache <= r.cache
      && (forall k :: 0 <= k < |files| ==> key(r.textures[k]) == files[k])
      && (forall k :: 0 <= k < |files| && Find(cache, key, files[k]).Some? ==>
            r.textures[k] == cache[Find(cache, key, files[k]).value])
      && (forall k :: 0 <= k < |files| ==>
            Find(r.cache, key, files[k]).Some? && r.textures[k] == r.cache[Find(r.cache, key, files[k]).value])
      && (forall j :: |cache| <= j < |r.cache| ==> r.cache[j] == load(key(r.cache[j])))
      && (Unique(cache, key) ==> Unique(r.cache, key))
  {
    assert Progress(cache, key, load, files, 0, cache, []);
    LoadFromProgress(cache, key, load, files, 0, cache, []);
  }
}
