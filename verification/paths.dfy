/**
 * The string slicing and joining that ties an S3 key to its local download
 * path, its name inside the ZIP archive and the key rebuilt for deletion,
 * plus the archive's own name and destination key (script.py).
 */
module Paths {
  import opened Wrappers

  /** Python's slice `s[n:]` for a non-negative start: empty once `n` passes the end. */
  function Drop(s: string, n: nat): string
  {
    if n <= |s| then s[n..] else []
  }

  predicate StartsWith(s: string, p: string)
  {
    |p| <= |s| && s[..|p|] == p
  }

  /** A directory string that `os.path.join` extends without adding a separator. */
  predicate IsDirPrefix(d: string)
  {
    d == [] || d[|d| - 1] == '/'
  }

  /**
   * POSIX `os.path.join(a, b)`: an absolute `b` replaces `a`; otherwise `b` is
   * appended, with a '/' in between unless `a` is empty or already ends in one.
   */
  function Join(a: string, b: string): string
  {
    if b != [] && b[0] == '/' then b
    else if IsDirPrefix(a) then a + b
    else a + "/" + b
  }

  /** POSIX `os.path.basename`: everything after the last '/'. */
  function Basename(p: string): string
  {
    if p == [] || p[|p| - 1] == '/' then []
    else Basename(p[..|p| - 1]) + [p[|p| - 1]]
  }

  /** The base name is the last component of the path: a '/'-free suffix that starts the path or follows a '/'. */
  lemma {:induction false} BasenameIsLastComponent(p: string)
    ensures var r := Basename(p);
      && (forall i :: 0 <= i < |r| ==> r[i] != '/')
      && |r| <= |p| && p[|p| - |r|..] == r
      && (|r| < |p| ==> p[|p| - |r| - 1] == '/')
    decreases |p|
  {
    if p != [] && p[|p| - 1] != '/' {
      var init := p[..|p| - 1];
      BasenameIsLastComponent(init);
      var r := Basename(p);
      assert r == Basename(init) + [p[|p| - 1]];
      assert p == init + [p[|p| - 1]];
    }
  }

  lemma {:induction false} BasenameAfterDir(dir: string, name: string)
    requires IsDirPrefix(dir)
    requires '/' !in name
    ensures Basename(dir + name) == name
    decreases |name|
  {
    if name == [] {
      assert dir + name == dir;
    } else {
      var init := name[..|name| - 1];
      assert name[|name| - 1] in name;
      assert (dir + name)[|dir + name| - 1] == name[|name| - 1] != '/';
      assert (dir + name)[..|dir + name| - 1] == dir + init;
      assert forall c :: c in init ==> c in name;
      BasenameAfterDir(dir, init);
      assert init + [name[|name| - 1]] == name;
    }
  }

  /** script.py:42 — the local file a key is downloaded to: the key without the source prefix, under `localDir`. */
  function LocalPath(localDir: string, sourcePrefix: string, key: string): string
  {
    Join(localDir, Drop(key, |sourcePrefix|))
  }

  /** script.py:64 — the member name a local file gets inside the ZIP archive. */
  function ArcName(localTempDir: string, file: string): string
  {
    Drop(file, |localTempDir|)
  }

  /** script.py:77 — the S3 key rebuilt from a local file when the original is deleted. */
  function OriginalKey(sourcePrefix: string, localTempDir: string, file: string): string
  {
    sourcePrefix + Drop(file, |localTempDir|)
  }

  /**
   * The conditions under which a key survives the trip key -> local path ->
   * rebuilt key: it lies under the source prefix (the listing asks for that
   * prefix), and, assumed rather than guaranteed, the local directory is joined
   * without an extra separator and the rest of the key is not an absolute path.
   */
  predicate RoundTrips(sourcePrefix: string, localTempDir: string, key: string)
  {
    && StartsWith(key, sourcePrefix)
    && IsDirPrefix(localTempDir)
    && !StartsWith(Drop(key, |sourcePrefix|), "/")
  }

  lemma KeyRoundTrip(sourcePrefix: string, localTempDir: string, key: string)
    requires RoundTrips(sourcePrefix, localTempDir, key)
    ensures var file := LocalPath(localTempDir, sourcePrefix, key);
      && ArcName(localTempDir, file) == key[|sourcePrefix|..]
      && OriginalKey(sourcePrefix, localTempDir, file) == key
  {
    var suffix := Drop(key, |sourcePrefix|);
    assert LocalPath(localTempDir, sourcePrefix, key) == localTempDir + suffix;
    assert (localTempDir + suffix)[|localTempDir|..] == suffix;
  }

  /**
   * The third round-trip condition cannot be dropped: when the rest of the key
   * starts with '/', `os.path.join` discards the local directory and the key
   * rebuilt for deletion is a different key.
   */
  lemma AbsoluteSuffixBreaksRoundTrip(sourcePrefix: string, localTempDir: string, key: string)
    requires StartsWith(key, sourcePrefix)
    requires localTempDir != []
    requires StartsWith(Drop(key, |sourcePrefix|), "/")
    ensures OriginalKey(sourcePrefix, localTempDir, LocalPath(localTempDir, sourcePrefix, key)) != key
  {
    var suffix := Drop(key, |sourcePrefix|);
    assert LocalPath(localTempDir, sourcePrefix, key) == suffix;
    assert |Drop(suffix, |localTempDir|)| < |suffix|;
  }

  /**
   * The same break on concrete values: under the prefix `u/` and the
   * directory `temp/`, the key `u//abcdefgh` is downloaded to `/abcdefgh`,
   * archived under the name `efgh`, and deleted as `u/efgh`, another object.
   */
  lemma AbsoluteKeyRebuiltAsOther()
    ensures LocalPath("temp/", "u/", "u//abcdefgh") == "/abcdefgh"
    ensures ArcName("temp/", "/abcdefgh") == "efgh"
    ensures OriginalKey("u/", "temp/", "/abcdefgh") == "u/efgh" != "u//abcdefgh"
  {
    assert Drop("u//abcdefgh", 2) == "/abcdefgh";
    assert Drop("/abcdefgh", 5) == "efgh";
  }

  /**
   * The download path the code evidently intends: the rest of the key placed
   * under `localDir` as it is, so that every key stays inside the directory.
   */
  function IntendedLocalPath(localDir: string, sourcePrefix: string, key: string): string
  {
    localDir + Drop(key, |sourcePrefix|)
  }

  /** With the intended path every key under the source prefix survives the round trip, with no further condition. */
  lemma IntendedKeyRoundTrip(sourcePrefix: string, localTempDir: string, key: string)
    requires StartsWith(key, sourcePrefix)
    ensures var file := IntendedLocalPath(localTempDir, sourcePrefix, key);
      && ArcName(localTempDir, file) == key[|sourcePrefix|..]
      && OriginalKey(sourcePrefix, localTempDir, file) == key
  {
    var file := IntendedLocalPath(localTempDir, sourcePrefix, key);
    assert file[|localTempDir|..] == key[|sourcePrefix|..];
    assert key == key[..|sourcePrefix|] + key[|sourcePrefix|..];
  }

  /** For a key that round-trips, the path the code builds is the intended one. */
  lemma LocalPathIsIntended(sourcePrefix: string, localTempDir: string, key: string)
    requires RoundTrips(sourcePrefix, localTempDir, key)
    ensures LocalPath(localTempDir, sourcePrefix, key) == IntendedLocalPath(localTempDir, sourcePrefix, key)
  {
  }

  /** script.py:110 — the archive's file name built from the two formatted dates. */
  function ZipName(startDate: string, endDate: string): string
  {
    startDate + "_to_" + endDate + ".zip"
  }

  /**
   * Reads a ZIP name back into its two dates, given the width of the start
   * date (`%Y-%m-%d` always gives ten characters for four-digit years).
   */
  function ParseZipName(name: string, width: nat): (r: Option<(string, string)>)
    ensures r.Some? ==> |r.value.0| == width && ZipName(r.value.0, r.value.1) == name
  {
    if width + 8 <= |name| && name[width..width + 4] == "_to_" && name[|name| - 4..] == ".zip" then
      var r := Some((name[..width], name[width + 4..|name| - 4]));
      assert ZipName(r.value.0, r.value.1) == name;
      r
    else None
  }

  lemma ParseZipNameRoundTrip(startDate: string, endDate: string)
    ensures ParseZipName(ZipName(startDate, endDate), |startDate|) == Some((startDate, endDate))
  {
    var name := ZipName(startDate, endDate);
    var w := |startDate|;
    assert name[w..w + 4] == "_to_";
    assert name[|name| - 4..] == ".zip";
    assert name[..w] == startDate;
    assert name[w + 4..|name| - 4] == endDate;
  }

  /** Two archives whose start dates have the same width share a name only if they share both dates. */
  lemma ZipNameInjective(a: string, b: string, c: string, d: string)
    requires |a| == |c|
    requires ZipName(a, b) == ZipName(c, d)
    ensures a == c && b == d
  {
    ParseZipNameRoundTrip(a, b);
    ParseZipNameRoundTrip(c, d);
  }

  /**
   * script.py:71-72, 111 — the destination key of an archive written as
   * `localTempDir/zipName` is the destination prefix followed by `zipName`,
   * provided the name holds no '/'.
   */
  function DestinationKey(destinationPrefix: string, zipPath: string): string
  {
    destinationPrefix + Basename(zipPath)
  }

  lemma DestinationKeyOfZip(destinationPrefix: string, localTempDir: string, zipName: string)
    requires '/' !in zipName
    ensures DestinationKey(destinationPrefix, Join(localTempDir, zipName)) == destinationPrefix + zipName
  {
    if zipName != [] {
      assert zipName[0] in zipName;
    }
    if IsDirPrefix(localTempDir) {
      BasenameAfterDir(localTempDir, zipName);
    } else {
      assert localTempDir + "/" + zipName == (localTempDir + "/") + zipName;
      BasenameAfterDir(localTempDir + "/", zipName);
    }
  }
}
