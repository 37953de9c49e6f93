/** The elevation-tile cache: which SRTM tiles a region of interest needs,
    where the cache lives, and fetching one tile into it. The file system is
    a set of directory paths and a set of regular-file paths; the network,
    the tile-lookup program and the contents of the downloaded archive are
    inputs. */
module Srtm {
  import opened Wrappers
  import opened Camera
  import opened RpcUtils

  /** Where the 5 x 5 degree GeoTIFF tiles are published. */
  const SrtmUrl: string := "http://srtm.csi.cgiar.org/wp-content/uploads/files/srtm_5x5/TIFF"

  /** The environment variable that overrides the cache directory. */
  const CacheVariable: string := "SRTM4_CACHE"

  /** The module-level configuration: download URL and cache directory. */
  datatype Config = Config(srtmUrl: string, srtmDir: string)

  // ---------------------------------------------------------------------
  // Paths

  predicate EndsWithSlash(s: string) {
    |s| > 0 && s[|s| - 1] == '/'
  }

  /** What `os.path.join(a, b)` puts in front of a relative `b`. */
  function JoinPrefix(a: string): (p: string)
    ensures |p| == |a| + (if a == "" || EndsWithSlash(a) then 0 else 1)
    ensures |p| >= |a| && p[..|a|] == a
    ensures a == "" || EndsWithSlash(p)
  {
    if a == "" || EndsWithSlash(a) then a else a + "/"
  }

  /** POSIX `os.path.join` of two components: an absolute second component
      replaces the first; otherwise the two are joined by exactly one
      separator unless the first is empty or already ends with one. */
  function PathJoin(a: string, b: string): (r: string)
    ensures |b| > 0 && b[0] == '/' ==> r == b
    ensures !(|b| > 0 && b[0] == '/') ==>
      |r| == |JoinPrefix(a)| + |b| && r[..|a|] == a &&
      r[..|JoinPrefix(a)|] == JoinPrefix(a) && r[|JoinPrefix(a)|..] == b
  {
    if |b| > 0 && b[0] == '/' then b else JoinPrefix(a) + b
  }

  /** `cfg['srtm_dir']`: the value of SRTM4_CACHE when it is set, otherwise
      `.srtm4` in the home directory. */
  function SrtmDir(env: map<string, string>, home: string): (d: string)
    ensures CacheVariable in env ==> d == env[CacheVariable]
    ensures CacheVariable !in env ==> d == PathJoin(home, ".srtm4")
  {
    if CacheVariable in env then env[CacheVariable] else PathJoin(home, ".srtm4")
  }

  /** Without SRTM4_CACHE and with a home directory written without a
      trailing slash, the cache is `<home>/.srtm4`. */
  lemma DefaultCacheDir(env: map<string, string>, home: string)
    requires CacheVariable !in env && home != "" && !EndsWithSlash(home)
    ensures SrtmDir(env, home) == home + "/.srtm4"
  {
  }

  /** The tile's GeoTIFF and the tile's archive are two different paths, so
      removing the archive never removes the GeoTIFF. */
  lemma TifIsNotZip(outDir: string, tile: string)
    ensures PathJoin(outDir, tile + ".tif") != PathJoin(outDir, tile + ".zip")
  {
    var t, z := PathJoin(outDir, tile + ".tif"), PathJoin(outDir, tile + ".zip");
    assert (tile + ".tif")[|tile| + 1] == 't' && (tile + ".zip")[|tile| + 1] == 'z';
    assert (tile + ".tif")[..|tile|] == tile == (tile + ".zip")[..|tile|];
    LastChar(outDir, tile + ".tif");
    LastChar(outDir, tile + ".zip");
  }

  /** A join ends with the last character of a non-empty second component. */
  lemma LastChar(a: string, b: string)
    requires |b| > 0
    ensures var r := PathJoin(a, b); |r| > 0 && r[|r| - 1] == b[|b| - 1]
  {
    var r := PathJoin(a, b);
    if !(b[0] == '/') {
      assert r[|JoinPrefix(a)|..] == b;
      assert r[|r| - 1] == r[|JoinPrefix(a)|..][|b| - 1];
    }
  }

  // ---------------------------------------------------------------------
  // list_srtm_tiles

  /** The tiles of the four corners of a geodetic box. */
  function CornerTiles(box: GeoBox, whichTile: (real, real) -> string): (ts: set<string>)
    ensures |ts| >= 1
  {
    var ts := {whichTile(box.lonMin, box.latMin), whichTile(box.lonMin, box.latMax),
               whichTile(box.lonMax, box.latMin), whichTile(box.lonMax, box.latMax)};
    assert whichTile(box.lonMin, box.latMin) in ts;
    ts
  }

  /** Four lookups name between one and four tiles, and exactly one when
      all four agree. */
  lemma CornerTilesCount(box: GeoBox, whichTile: (real, real) -> string)
    ensures 1 <= |CornerTiles(box, whichTile)| <= 4
    ensures |CornerTiles(box, whichTile)| == 1 <==>
      whichTile(box.lonMin, box.latMin) == whichTile(box.lonMin, box.latMax) ==
      whichTile(box.lonMax, box.latMin) == whichTile(box.lonMax, box.latMax)
  {
    var a, b := whichTile(box.lonMin, box.latMin), whichTile(box.lonMin, box.latMax);
    var c, d := whichTile(box.lonMax, box.latMin), whichTile(box.lonMax, box.latMax);
    var ts := CornerTiles(box, whichTile);
    assert ts == {a} + {b} + {c} + {d};
    SetCardBound({a}, {b});
    SetCardBound({a} + {b}, {c});
    SetCardBound({a} + {b} + {c}, {d});
    if |ts| == 1 {
      assert a in ts && b in ts && c in ts && d in ts;
      OneElement(ts, a, b);
      OneElement(ts, a, c);
      OneElement(ts, a, d);
    }
  }

  lemma SetCardBound(s: set<string>, t: set<string>)
    ensures |s + t| <= |s| + |t|
  {
    if t != {} {
      var x :| x in t;
      SetCardBound(s, t - {x});
      assert s + t == (s + (t - {x})) + {x};
    }
  }

  lemma OneElement(s: set<string>, x: string, y: string)
    requires |s| == 1 && x in s && y in s
    ensures x == y
  {
    assert |s - {x}| == 0;
    assert y !in s - {x};
  }

  /** `list_srtm_tiles`: the geodetic bounding box of the ROI, then one tile
      lookup per corner, longitudes outer and latitudes inner, collected in
      a list and turned into a set. `whichTile` stands for the
      `srtm4_which_tile` program. */
  method ListSrtmTiles(rpc: CameraModel, roi: Roi, whichTile: (real, real) -> string)
    returns (tiles: set<string>)
    ensures tiles == CornerTiles(GeodesicBoundingBox(rpc, roi), whichTile)
    ensures 1 <= |tiles| <= 4
  {
    var box := GeodesicBoundingBox(rpc, roi);
    var lons, lats := [box.lonMin, box.lonMax], [box.latMin, box.latMax];
    var out: seq<string> := [];
    for i := 0 to 2
      invariant |out| == 2 * i
      invariant forall k :: 0 <= k < |out| ==> out[k] == whichTile(lons[k / 2], lats[k % 2])
    {
      for j := 0 to 2
        invariant |out| == 2 * i + j
        invariant forall k :: 0 <= k < |out| ==> out[k] == whichTile(lons[k / 2], lats[k % 2])
      {
        out := out + [whichTile(lons[i], lats[j])];
      }
    }
    tiles := set t | t in out;
    assert out == [whichTile(box.lonMin, box.latMin), whichTile(box.lonMin, box.latMax),
                   whichTile(box.lonMax, box.latMin), whichTile(box.lonMax, box.latMax)];
    CornerTilesCount(box, whichTile);
  }

  // ---------------------------------------------------------------------
  // The cache directory

  /** The `errno` values the model distinguishes: the path exists, or the
      directory cannot be created for any other reason. */
  datatype Errno = EEXIST | OtherErrno

  /** How `get_srtm_tile` can fail: an `OSError` from creating the output
      directory, or a `KeyError` when the archive lacks the GeoTIFF. */
  datatype FetchError = OSError(errno: Errno) | KeyError(member: string)

  /** What the downloaded file turns out to be: not a zip archive, or a zip
      archive holding the listed member names. */
  datatype Archive = NotAZip | ZipArchive(members: set<string>)

  /** One call of the downloader: source URL and destination path. */
  datatype Download = Download(url: string, dest: string)

  /** The host the cache lives on: the configuration, the directories and
      regular files that exist, the downloads made so far and the messages
      printed so far. */
  class Host {
    var cfg: Config
    var dirs: set<string>
    var files: set<string>
    var downloads: seq<Download>
    var log: seq<string>

    /** A path is a directory or a regular file, never both. */
    predicate Valid()
      reads this
    {
      dirs !! files
    }

    /** The module being loaded: the configuration is computed from the
        environment, over an existing file system. */
    constructor(env: map<string, string>, home: string, dirs0: set<string>, files0: set<string>)
      requires dirs0 !! files0
      ensures cfg == Config(SrtmUrl, SrtmDir(env, home))
      ensures dirs == dirs0 && files == files0 && downloads == [] && log == []
      ensures Valid()
    {
      cfg := Config(SrtmUrl, SrtmDir(env, home));
      dirs := dirs0;
      files := files0;
      downloads := [];
      log := [];
    }

    /** `os.makedirs` of one path: EEXIST if anything exists there,
        otherwise the directory is created when `mayCreate` says the system
        allows it and another error is raised when it does not. */
    method Makedirs(path: string, mayCreate: bool) returns (r: Outcome<Errno>)
      modifies this
      ensures r == (if path in old(dirs) || path in old(files) then Fail(EEXIST)
                    else if mayCreate then Pass else Fail(OtherErrno))
      ensures dirs == (if r.Pass? then old(dirs) + {path} else old(dirs))
      ensures cfg == old(cfg) && files == old(files) && downloads == old(downloads) && log == old(log)
      ensures old(Valid()) ==> Valid()
    {
      if path in dirs || path in files {
        return Fail(EEXIST);
      }
      if !mayCreate {
        return Fail(OtherErrno);
      }
      dirs := dirs + {path};
      r := Pass;
    }

    /** `mkdir_p`: `os.makedirs`, where an EEXIST error is swallowed when
        the path is a directory and every other error is raised again. It
        succeeds exactly when the directory exists afterwards. */
    method MkdirP(path: string, mayCreate: bool) returns (r: Outcome<Errno>)
      modifies this
      ensures r.Pass? <==> path in old(dirs) || (path !in old(files) && mayCreate)
      ensures r.Pass? <==> path in dirs
      ensures r.Fail? ==> r.error == (if path in old(files) then EEXIST else OtherErrno)
      ensures dirs == old(dirs) + (if r.Pass? then {path} else {})
      ensures cfg == old(cfg) && files == old(files) && downloads == old(downloads) && log == old(log)
      ensures old(Valid()) ==> Valid()
    {
      r := Makedirs(path, mayCreate);
      if r.Fail? && r.error == EEXIST && path in dirs {
        r := Pass;
      }
    }

    /** `get_srtm_tile`: make sure `outDir` exists; stop if
        `<outDir>/<tile>.tif` already exists; otherwise download
        `<srtm_url>/<tile>.zip` to `<outDir>/<tile>.zip`, extract the
        GeoTIFF when the download is a zip archive (a KeyError, leaving the
        archive behind, when it lacks the member) or print that the tile is
        not available when it is not, and remove the archive. The archive
        path must not name a directory (nor `outDir` itself), since the
        download could not write there. */
    method GetSrtmTile(tile: string, outDir: string, mayCreate: bool, archive: Archive)
      returns (r: Outcome<FetchError>)
      requires Valid()
      requires PathJoin(outDir, tile + ".zip") !in dirs && PathJoin(outDir, tile + ".zip") != outDir
      modifies this
      ensures Valid()
      ensures var tif, zip := PathJoin(outDir, tile + ".tif"), PathJoin(outDir, tile + ".zip");
        var dirOk := outDir in old(dirs) || (outDir !in old(files) && mayCreate);
        var present := tif in old(files) || tif in old(dirs) || (tif == outDir && dirOk);
        var missing := archive.ZipArchive? && tile + ".tif" !in archive.members;
        cfg == old(cfg) &&
        dirs == old(dirs) + (if dirOk then {outDir} else {}) &&
        (!dirOk ==>
          r == Fail(OSError(if outDir in old(files) then EEXIST else OtherErrno)) &&
          files == old(files) && downloads == old(downloads) && log == old(log)) &&
        (dirOk && present ==>
          r == Pass && files == old(files) && downloads == old(downloads) && log == old(log)) &&
        (dirOk && !present ==>
          downloads == old(downloads) + [Download(cfg.srtmUrl + "/" + tile + ".zip", zip)] &&
          (archive.NotAZip? ==>
            r == Pass && files == old(files) - {zip} && log == old(log) + [tile + " not available"]) &&
          (archive.ZipArchive? && !missing ==>
            r == Pass && files == old(files) - {zip} + {tif} && log == old(log)) &&
          (missing ==>
            r == Fail(KeyError(tile + ".tif")) && files == old(files) + {zip} && log == old(log)))
    {
      var made := MkdirP(outDir, mayCreate);
      if made.Fail? {
        return Fail(OSError(made.error));
      }
      var tif := PathJoin(outDir, tile + ".tif");
      if tif in files || tif in dirs {
        return Pass;
      }
      var url := cfg.srtmUrl + "/" + tile + ".zip";
      var zip := PathJoin(outDir, tile + ".zip");
      downloads := downloads + [Download(url, zip)];
      files := files + {zip};
      match archive {
        case NotAZip =>
          log := log + [tile + " not available"];
        case ZipArchive(members) =>
          if tile + ".tif" !in members {
            return Fail(KeyError(tile + ".tif"));
          }
          files := files + {tif};
      }
      TifIsNotZip(outDir, tile);
      files := files - {zip};
      r := Pass;
    }

    /** Fetching the same tile twice: once the first call has extracted the
        GeoTIFF, the second call downloads nothing, prints nothing and
        changes no file or directory. `mid*` is the state between the two
        calls. */
    method GetSrtmTileTwice(tile: string, outDir: string, mayCreate: bool, archive: Archive)
      returns (first: Outcome<FetchError>, second: Outcome<FetchError>,
               ghost midDirs: set<string>, ghost midFiles: set<string>,
               ghost midDownloads: seq<Download>, ghost midLog: seq<string>)
      requires Valid()
      requires PathJoin(outDir, tile + ".zip") !in dirs && PathJoin(outDir, tile + ".zip") != outDir
      modifies this
      ensures Valid()
      ensures first.Pass? && archive.ZipArchive? ==>
        PathJoin(outDir, tile + ".tif") in midFiles + midDirs &&
        |midDownloads| <= |old(downloads)| + 1 &&
        second == Pass && dirs == midDirs && files == midFiles &&
        downloads == midDownloads && log == midLog
    {
      first := GetSrtmTile(tile, outDir, mayCreate, archive);
      midDirs, midFiles, midDownloads, midLog := dirs, files, downloads, log;
      second := GetSrtmTile(tile, outDir, mayCreate, archive);
    }
  }
}
