/** The handle caches of src/lib/client/opfs.ts.

    The manager memoises the OPFS root directory and keeps two caches of
    handles keyed by path and options.  `navigator.storage.getDirectory()` and
    the root's `getFileHandle`/`getDirectoryHandle` are oracles given as
    parameters; handles are opaque values. */
module Opfs {
  import opened Wrappers
  import opened ErrorHandler

  datatype DirHandle = DirHandle(id: nat)
  datatype FileHandle = FileHandle(id: nat)

  /** `FileSystemGetFileOptions` / `FileSystemGetDirectoryOptions`: `{ create?: boolean }`. */
  datatype GetOptions = GetOptions(create: Option<bool>)

  /** `JSON.stringify(options || {})`; an absent `create` is omitted like any undefined
      property. */
  function SerializeOptions(options: Option<GetOptions>): (s: string)
    ensures s == "{}" || s == "{\"create\":true}" || s == "{\"create\":false}"
    ensures s == "{}" <==> options.None? || options.value.create.None?
  {
    match options
    case None => "{}"
    case Some(GetOptions(None)) => "{}"
    case Some(GetOptions(Some(true))) => "{\"create\":true}"
    case Some(GetOptions(Some(false))) => "{\"create\":false}"
  }

  /** `${path}:${JSON.stringify(options || {})}` */
  function CacheKey(path: string, options: Option<GetOptions>): string {
    path + ":" + SerializeOptions(options)
  }

  /** Reads the serialised options back from the end of a cache key: "{}" ends in '{}',
      the two others differ in the third character from the end. */
  function KeyOptions(key: string): string
    requires |key| >= 3
  {
    if key[|key| - 2] == '{' then "{}"
    else if key[|key| - 3] == 'u' then "{\"create\":true}"
    else "{\"create\":false}"
  }

  lemma {:induction false} KeyOptionsOfCacheKey(path: string, options: Option<GetOptions>)
    ensures |CacheKey(path, options)| >= 3
    ensures KeyOptions(CacheKey(path, options)) == SerializeOptions(options)
  {
    var s := SerializeOptions(options);
    var k := CacheKey(path, options);
    assert k == (path + ":") + s;
    assert k[|k| - 2] == s[|s| - 2];
    assert k[|k| - 3] == if |s| == 2 then ':' else s[|s| - 3];
  }

  /** Two requests share a cache entry exactly when they name the same path and serialise
      their options alike, even though paths may themselves contain ':'. */
  lemma CacheKeyInjective(path1: string, options1: Option<GetOptions>, path2: string, options2: Option<GetOptions>)
    ensures CacheKey(path1, options1) == CacheKey(path2, options2) <==>
      path1 == path2 && SerializeOptions(options1) == SerializeOptions(options2)
  {
    var s1, s2 := SerializeOptions(options1), SerializeOptions(options2);
    var k1, k2 := CacheKey(path1, options1), CacheKey(path2, options2);
    if k1 == k2 {
      KeyOptionsOfCacheKey(path1, options1);
      KeyOptionsOfCacheKey(path2, options2);
      assert path1 + ":" == k1[..|k1| - |s1|];
      assert path2 + ":" == k2[..|k2| - |s2|];
      assert path1 == (path1 + ":")[..|path1|];
      assert path2 == (path2 + ":")[..|path2|];
    }
  }

  class OpfsManager {
    var rootDirectory: Option<DirHandle>
    var fileHandleCache: map<string, FileHandle>
    var directoryHandleCache: map<string, DirHandle>

    constructor ()
      ensures rootDirectory == None && fileHandleCache == map[] && directoryHandleCache == map[]
    {
      rootDirectory := None;
      fileHandleCache := map[];
      directoryHandleCache := map[];
    }

    /** `getRootDirectory`: `fetched` is what `navigator.storage.getDirectory()` yields,
        consulted only while no root is memoised. */
    method GetRootDirectory(fetched: Step<DirHandle>) returns (r: Step<DirHandle>)
      modifies this
      ensures old(rootDirectory).Some? ==> r == Done(old(rootDirectory).value) && rootDirectory == old(rootDirectory)
      ensures old(rootDirectory).None? ==> r == fetched
      ensures old(rootDirectory).None? && fetched.Done? ==> rootDirectory == Some(fetched.value)
      ensures old(rootDirectory).None? && fetched.Threw? ==> rootDirectory == None
      ensures fileHandleCache == old(fileHandleCache) && directoryHandleCache == old(directoryHandleCache)
    {
      if rootDirectory.None? {
        if fetched.Threw? {
          return fetched;
        }
        rootDirectory := Some(fetched.value);
      }
      return Done(rootDirectory.value);
    }

    /** `getFileHandle`: a cache hit is answered without touching the root; a miss resolves
        the root (`rootFetched`) and asks it for the handle (`lookup`), caching what it gets. */
    method GetFileHandle(path: string, options: Option<GetOptions>, rootFetched: Step<DirHandle>, lookup: Step<FileHandle>)
      returns (r: Step<FileHandle>)
      modifies this
      ensures directoryHandleCache == old(directoryHandleCache)
      ensures var key := CacheKey(path, options);
        && (key in old(fileHandleCache) ==>
              && r == Done(old(fileHandleCache)[key])
              && fileHandleCache == old(fileHandleCache) && rootDirectory == old(rootDirectory))
        && (key !in old(fileHandleCache) && old(rootDirectory).None? && rootFetched.Threw? ==>
              && r == Threw(rootFetched.thrown)
              && fileHandleCache == old(fileHandleCache) && rootDirectory == None)
        && (key !in old(fileHandleCache) && (old(rootDirectory).Some? || rootFetched.Done?) ==>
              && rootDirectory.Some?
              && (old(rootDirectory).Some? ==> rootDirectory == old(rootDirectory))
              && r == lookup
              && fileHandleCache == (if lookup.Done? then old(fileHandleCache)[key := lookup.value] else old(fileHandleCache)))
    {
      var cacheKey := CacheKey(path, options);
      if cacheKey in fileHandleCache {
        return Done(fileHandleCache[cacheKey]);
      }
      var rootDir := GetRootDirectory(rootFetched);
      if rootDir.Threw? {
        return Threw(rootDir.thrown);
      }
      if lookup.Threw? {
        return lookup;
      }
      fileHandleCache := fileHandleCache[cacheKey := lookup.value];
      return lookup;
    }

    /** `getDirectoryHandle`, the same memoisation over the directory cache. */
    method GetDirectoryHandle(path: string, options: Option<GetOptions>, rootFetched: Step<DirHandle>, lookup: Step<DirHandle>)
      returns (r: Step<DirHandle>)
      modifies this
      ensures fileHandleCache == old(fileHandleCache)
      ensures var key := CacheKey(path, options);
        && (key in old(directoryHandleCache) ==>
              && r == Done(old(directoryHandleCache)[key])
              && directoryHandleCache == old(directoryHandleCache) && rootDirectory == old(rootDirectory))
        && (key !in old(directoryHandleCache) && old(rootDirectory).None? && rootFetched.Threw? ==>
              && r == Threw(rootFetched.thrown)
              && directoryHandleCache == old(directoryHandleCache) && rootDirectory == None)
        && (key !in old(directoryHandleCache) && (old(rootDirectory).Some? || rootFetched.Done?) ==>
              && rootDirectory.Some?
              && (old(rootDirectory).Some? ==> rootDirectory == old(rootDirectory))
              && r == lookup
              && directoryHandleCache == (if lookup.Done? then old(directoryHandleCache)[key := lookup.value] else old(directoryHandleCache)))
    {
      var cacheKey := CacheKey(path, options);
      if cacheKey in directoryHandleCache {
        return Done(directoryHandleCache[cacheKey]);
      }
      var rootDir := GetRootDirectory(rootFetched);
      if rootDir.Threw? {
        return Threw(rootDir.thrown);
      }
      if lookup.Threw? {
        return lookup;
      }
      directoryHandleCache := directoryHandleCache[cacheKey := lookup.value];
      return lookup;
    }

    /** `clearCache`: both caches emptied; the root stays memoised. */
    method ClearCache()
      modifies this
      ensures fileHandleCache == map[] && directoryHandleCache == map[]
      ensures rootDirectory == old(rootDirectory)
    {
      fileHandleCache := map[];
      directoryHandleCache := map[];
    }

    /** `removeCachedFileHandle` */
    method RemoveCachedFileHandle(path: string, options: Option<GetOptions>)
      modifies this
      ensures fileHandleCache == old(fileHandleCache) - {CacheKey(path, options)}
      ensures directoryHandleCache == old(directoryHandleCache) && rootDirectory == old(rootDirectory)
    {
      fileHandleCache := fileHandleCache - {CacheKey(path, options)};
    }

    /** `removeCachedDirectoryHandle` */
    method RemoveCachedDirectoryHandle(path: string, options: Option<GetOptions>)
      modifies this
      ensures directoryHandleCache == old(directoryHandleCache) - {CacheKey(path, options)}
      ensures fileHandleCache == old(fileHandleCache) && rootDirectory == old(rootDirectory)
    {
      directoryHandleCache := directoryHandleCache - {CacheKey(path, options)};
    }
  }

  /** Removing one cached file handle leaves every other request's entry, with other path
      or other options, in place. */
  lemma RemoveKeepsOtherEntries(cache: map<string, FileHandle>, path: string, options: Option<GetOptions>,
                                otherPath: string, otherOptions: Option<GetOptions>)
    requires otherPath != path || SerializeOptions(otherOptions) != SerializeOptions(options)
    requires CacheKey(otherPath, otherOptions) in cache
    ensures CacheKey(otherPath, otherOptions) in cache - {CacheKey(path, options)}
  {
    CacheKeyInjective(path, options, otherPath, otherOptions);
  }
}
