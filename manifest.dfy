/**
 * The default sanity-check manifest of an ATLAS installation: the files and
 * directories that must exist after installing, as a pure function of whether
 * shared libraries were built.
 */
module Manifest {

  /** The six libraries ATLAS installs. */
  const Libs: seq<string> := ["atlas", "cblas", "f77blas", "lapack", "ptcblas", "ptf77blas"]

  /** The two headers ATLAS installs under include/. */
  const Headers: seq<string> := ["cblas.h", "clapack.h"]

  /** The one directory required. */
  const AtlasIncludeDir: string := "include/atlas"

  /** The list comprehension [prefix + x + suffix for x in names]. */
  function Formatted(prefix: string, names: seq<string>, suffix: string): seq<string> {
    seq(|names|, k requires 0 <= k < |names| => prefix + names[k] + suffix)
  }

  function StaticLibPaths(): seq<string> {
    Formatted("lib/lib", Libs, ".a")
  }

  function SharedLibPaths(sharedLibs: bool): seq<string> {
    if sharedLibs then Formatted("lib/lib", Libs, ".so") else []
  }

  /** The required files: headers, then static archives, then shared objects. */
  function Files(sharedLibs: bool): seq<string> {
    Formatted("include/", Headers, "") + StaticLibPaths() + SharedLibPaths(sharedLibs)
  }

  /**
   * The manifest as it is stored in the configuration: a dictionary of two
   * lists. The one directory is include/atlas; the files are the two headers,
   * every library as an archive, and every library as a shared object exactly
   * when shared libraries are built, and nothing else ends in .so.
   */
  function DefaultPaths(sharedLibs: bool): (m: map<string, seq<string>>)
    ensures m.Keys == {"files", "dirs"}
    ensures m["dirs"] == [AtlasIncludeDir]
    ensures m["files"] == Files(sharedLibs)
    ensures |m["files"]| == if sharedLibs then 14 else 8
    ensures "include/cblas.h" in m["files"] && "include/clapack.h" in m["files"]
    ensures forall x :: x in Libs ==>
      "lib/lib" + x + ".a" in m["files"] && ("lib/lib" + x + ".so" in m["files"] <==> sharedLibs)
    ensures !sharedLibs ==> forall k :: 0 <= k < |m["files"]| ==> !EndsWith(m["files"][k], ".so")
  {
    FilesLayout(sharedLibs);
    LibrariesRequired();
    StaticManifestHasNoSharedObjects();
    assert Files(sharedLibs)[0] == "include/cblas.h" && Files(sharedLibs)[1] == "include/clapack.h";
    map["files" := Files(sharedLibs), "dirs" := [AtlasIncludeDir]]
  }

  /** s ends with suffix. */
  predicate EndsWith(s: string, suffix: string) {
    |suffix| <= |s| && s[|s| - |suffix|..] == suffix
  }

  /**
   * The files are the two headers, then lib/lib<x>.a for each of the six
   * libraries in order, then, only when shared libraries are built,
   * lib/lib<x>.so for each of them in the same order.
   */
  lemma FilesLayout(sharedLibs: bool)
    ensures var f := Files(sharedLibs);
      && |f| == (if sharedLibs then 14 else 8)
      && (forall k :: 0 <= k < 2 ==> f[k] == "include/" + Headers[k])
      && (forall k :: 0 <= k < 6 ==> f[2 + k] == "lib/lib" + Libs[k] + ".a")
      && (sharedLibs ==> forall k :: 0 <= k < 6 ==> f[8 + k] == "lib/lib" + Libs[k] + ".so")
  {
  }

  /** Without shared libraries, no required file is a shared object. */
  lemma StaticManifestHasNoSharedObjects()
    ensures forall k :: 0 <= k < |Files(false)| ==> !EndsWith(Files(false)[k], ".so")
  {
    var f := Files(false);
    FilesLayout(false);
    forall k | 0 <= k < |f| ensures !EndsWith(f[k], ".so") {
      assert f[k][|f[k]| - 1] != 'o' by {
        if k < 2 {
          assert f[k] == "include/" + Headers[k];
          assert Headers[k][|Headers[k]| - 1] == 'h';
          assert f[k][|f[k]| - 1] == 'h';
        } else {
          var x := Libs[k - 2];
          assert f[k] == ("lib/lib" + x) + ".a";
          assert f[k][|f[k]| - 1] == 'a';
        }
      }
    }
  }

  /** Every library is required as an archive, and as a shared object exactly when shared libraries are built. */
  lemma LibrariesRequired()
    ensures forall sharedLibs: bool, x :: x in Libs ==>
      "lib/lib" + x + ".a" in Files(sharedLibs) && ("lib/lib" + x + ".so" in Files(sharedLibs) <==> sharedLibs)
  {
    FilesLayout(true);
    FilesLayout(false);
    StaticManifestHasNoSharedObjects();
    forall x | x in Libs
      ensures "lib/lib" + x + ".a" in Files(true) && "lib/lib" + x + ".so" in Files(true)
      ensures "lib/lib" + x + ".a" in Files(false) && "lib/lib" + x + ".so" !in Files(false)
    {
      var k :| 0 <= k < |Libs| && Libs[k] == x;
      assert Files(true)[2 + k] == "lib/lib" + x + ".a";
      assert Files(true)[8 + k] == "lib/lib" + x + ".so";
      assert Files(false)[2 + k] == "lib/lib" + x + ".a";
      var so := "lib/lib" + x + ".so";
      assert EndsWith(so, ".so") by {
        assert so == ("lib/lib" + x) + ".so";
      }
    }
  }
}
