/**
 * The S3-to-Glacier mover of script.py: `download_segment`, `compress_files`,
 * `upload_to_s3` and `main`, as methods over the S3 client's trace, each
 * proved against the specification functions of the other modules.
 */
module Mover {
  import opened Wrappers
  import opened Paths
  import opened Segments
  import opened Orchestration
  import opened S3
  import opened Sequences

  /** The module-level settings of script.py:7-11. */
  datatype Config = Config(
    bucket: string,
    sourcePrefix: string,
    destinationPrefix: string,
    localTempDir: string,
    segmentSize: nat)

  /** The values the script is deployed with; the size is 10 GiB (its comment says 1GB). */
  const Deployed: Config := Config(
    "assess-platform-prod-user-data",
    "proctoring/images/camera/u/",
    "proctoring/images/camera/u-glacier/",
    "temp/",
    10 * 1024 * 1024 * 1024)

  /** One entry of a ZIP archive: the local file written and its name inside the archive. */
  datatype Member = Member(file: string, arcname: string)

  /** A ZIP file written by `compress_files`: its path and its members in the order written. */
  datatype Archive = Archive(path: string, members: seq<Member>)

  function MemberNames(archive: Archive): seq<string>
  {
    seq(|archive.members|, i requires 0 <= i < |archive.members| => archive.members[i].arcname)
  }

  function Keys(files: seq<ObjectRecord>): seq<string>
  {
    seq(|files|, i requires 0 <= i < |files| => files[i].key)
  }

  /** The local path of each file, in order, built up the way `download_segment` appends them. */
  function LocalPaths(localDir: string, sourcePrefix: string, files: seq<ObjectRecord>): (paths: seq<string>)
    ensures |paths| == |files|
  {
    if files == [] then []
    else LocalPaths(localDir, sourcePrefix, files[..|files| - 1]) + [LocalPath(localDir, sourcePrefix, files[|files| - 1].key)]
  }

  lemma {:induction false} LocalPathsAt(localDir: string, sourcePrefix: string, files: seq<ObjectRecord>, i: nat)
    requires i < |files|
    ensures LocalPaths(localDir, sourcePrefix, files)[i] == LocalPath(localDir, sourcePrefix, files[i].key)
    decreases |files|
  {
    if i < |files| - 1 {
      LocalPathsAt(localDir, sourcePrefix, files[..|files| - 1], i);
    }
  }

  /** The key `upload_to_s3` deletes for each local file, in order. */
  function OriginalKeys(sourcePrefix: string, localTempDir: string, files: seq<string>): (keys: seq<string>)
    ensures |keys| == |files|
  {
    if files == [] then []
    else [OriginalKey(sourcePrefix, localTempDir, files[0])] + OriginalKeys(sourcePrefix, localTempDir, files[1..])
  }

  lemma {:induction false} OriginalKeysAt(sourcePrefix: string, localTempDir: string, files: seq<string>, i: nat)
    requires i < |files|
    ensures OriginalKeys(sourcePrefix, localTempDir, files)[i] == OriginalKey(sourcePrefix, localTempDir, files[i])
    decreases i
  {
    if i > 0 {
      OriginalKeysAt(sourcePrefix, localTempDir, files[1..], i - 1);
    }
  }

  /** The `download_file` calls for `files`, in order. */
  function DownloadEvents(bucket: string, localDir: string, sourcePrefix: string, files: seq<ObjectRecord>): seq<Event>
  {
    if files == [] then []
    else
      var last := files[|files| - 1];
      DownloadEvents(bucket, localDir, sourcePrefix, files[..|files| - 1])
        + [Download(bucket, last.key, LocalPath(localDir, sourcePrefix, last.key))]
  }

  lemma {:induction false} DownloadEventsAreDownloads(bucket: string, localDir: string, sourcePrefix: string, files: seq<ObjectRecord>)
    ensures var ev := DownloadEvents(bucket, localDir, sourcePrefix, files);
      |ev| == |files| && forall i :: 0 <= i < |ev| ==> ev[i].Download? && ev[i].key == files[i].key
    decreases |files|
  {
    if files != [] {
      var init := files[..|files| - 1];
      DownloadEventsAreDownloads(bucket, localDir, sourcePrefix, init);
      assert forall i :: 0 <= i < |init| ==> files[i] == init[i];
    }
  }

  /** Every key of the listing survives the trip to a local path and back (see `Paths.RoundTrips`). */
  predicate ListingRoundTrips(cfg: Config, files: seq<ObjectRecord>)
  {
    forall i :: 0 <= i < |files| ==> RoundTrips(cfg.sourcePrefix, cfg.localTempDir, files[i].key)
  }

  /**
   * What admitting `files[i]` adds to each quantity the download loop keeps,
   * given the byte total `total` and the local paths `paths` of the files
   * before it; `trace` is the client's trace before the segment's first download.
   */
  lemma AdmitStep(cfg: Config, files: seq<ObjectRecord>, localDir: string, i: nat, trace: seq<Event>, total: nat, paths: seq<string>)
    requires i < |files|
    requires total == TotalSize(files[..i])
    requires paths == LocalPaths(localDir, cfg.sourcePrefix, files[..i])
    ensures total + files[i].size == TotalSize(files[..i + 1])
    ensures RangeOf(files[..i + 1]) == Widen(RangeOf(files[..i]), files[i].lastModified)
    ensures paths + [LocalPath(localDir, cfg.sourcePrefix, files[i].key)] == LocalPaths(localDir, cfg.sourcePrefix, files[..i + 1])
    ensures trace + DownloadEvents(cfg.bucket, localDir, cfg.sourcePrefix, files[..i + 1])
         == (trace + DownloadEvents(cfg.bucket, localDir, cfg.sourcePrefix, files[..i]))
            + [Download(cfg.bucket, files[i].key, LocalPath(localDir, cfg.sourcePrefix, files[i].key))]
  {
    assert files[..i + 1] == files[..i] + [files[i]];
    assert files[..i + 1][..i] == files[..i];
    TotalSizeAppend(files[..i], [files[i]]);
    AppendAssoc(trace, DownloadEvents(cfg.bucket, localDir, cfg.sourcePrefix, files[..i]),
                     [Download(cfg.bucket, files[i].key, LocalPath(localDir, cfg.sourcePrefix, files[i].key))]);
  }

  /**
   * script.py:27-57. Downloads the greedy selection from `files`, one object
   * at a time, and returns its local paths, its byte total and its date range.
   */
  method DownloadSegment(s3: Client, cfg: Config, files: seq<ObjectRecord>, localDir: string, targetSize: nat)
    returns (downloadedFiles: seq<string>, totalSize: nat, dateRange: DateRange)
    modifies s3
    ensures var seg := Select(files, targetSize);
      && downloadedFiles == LocalPaths(localDir, cfg.sourcePrefix, seg)
      && totalSize == TotalSize(seg)
      && dateRange == RangeOf(seg)
      && s3.events == old(s3.events) + DownloadEvents(cfg.bucket, localDir, cfg.sourcePrefix, seg)
  {
    totalSize := 0;
    downloadedFiles := [];
    // The two slots of the `date_range` list.
    var earliest: Option<Timestamp> := None;
    var latest: Option<Timestamp> := None;
    var i := 0;
    while i < |files|
      invariant i <= |files|
      invariant totalSize == TotalSize(files[..i]) <= targetSize
      invariant downloadedFiles == LocalPaths(localDir, cfg.sourcePrefix, files[..i])
      invariant DateRange(earliest, latest) == RangeOf(files[..i])
      invariant s3.events == old(s3.events) + DownloadEvents(cfg.bucket, localDir, cfg.sourcePrefix, files[..i])
    {
      var file := files[i];
      if totalSize + file.size > targetSize {
        break;
      }
      var localPath := LocalPath(localDir, cfg.sourcePrefix, file.key);
      s3.DownloadFile(cfg.bucket, file.key, localPath);
      AdmitStep(cfg, files, localDir, i, old(s3.events), totalSize, downloadedFiles);

      totalSize := totalSize + file.size;
      downloadedFiles := downloadedFiles + [localPath];
      earliest := if earliest.None? || file.lastModified < earliest.value then Some(file.lastModified) else earliest;
      latest := if latest.None? || file.lastModified > latest.value then Some(file.lastModified) else latest;
      i := i + 1;
    }
    dateRange := DateRange(earliest, latest);
    AdmitFromExact(files, 0, targetSize, i);
  }

  /**
   * The archive holds one member per file, in order, each named by the file's
   * path with the local directory's prefix removed.
   */
  predicate ArchiveOf(archive: Archive, files: seq<string>, localTempDir: string)
  {
    && |archive.members| == |files|
    && forall i :: 0 <= i < |files| ==> archive.members[i] == Member(files[i], ArcName(localTempDir, files[i]))
  }

  /**
   * script.py:59-66. Writes every file into one archive, in order, under its
   * path with the local directory's prefix removed.
   */
  method CompressFiles(files: seq<string>, outputZip: string, localTempDir: string) returns (archive: Archive)
    ensures archive.path == outputZip
    ensures ArchiveOf(archive, files, localTempDir)
  {
    archive := Archive(outputZip, []);
    for i := 0 to |files|
      invariant archive.path == outputZip
      invariant |archive.members| == i
      invariant forall j :: 0 <= j < i ==>
        archive.members[j] == Member(files[j], ArcName(localTempDir, files[j]))
    {
      var arcname := ArcName(localTempDir, files[i]);
      archive := archive.(members := archive.members + [Member(files[i], arcname)]);
    }
  }

  /**
   * script.py:68-81. Uploads the archive under the Deep Archive storage class;
   * only once that call has returned does it delete the original of each
   * file, in order, stopping at the first delete that raises. A failed upload
   * deletes nothing.
   */
  method UploadToS3(s3: Client, cfg: Config, zip: Archive, bucketName: string, destinationPrefix: string, files: seq<string>)
    modifies s3
    ensures |old(s3.events)| < |s3.events| && s3.events[..|old(s3.events)|] == old(s3.events)
    ensures UploadRun(s3.events[|old(s3.events)|..], bucketName, DestinationKey(destinationPrefix, zip.path),
                      MemberNames(zip), OriginalKeys(cfg.sourcePrefix, cfg.localTempDir, files))
  {
    var fileName := Basename(zip.path);
    var destinationKey := destinationPrefix + fileName;
    assert destinationKey == DestinationKey(destinationPrefix, zip.path);
    ghost var keys := OriginalKeys(cfg.sourcePrefix, cfg.localTempDir, files);
    var uploaded := s3.UploadFile(MemberNames(zip), bucketName, destinationKey, DeepArchive);
    ghost var upload := Upload(bucketName, destinationKey, DeepArchive, MemberNames(zip), uploaded);
    ghost var uploadedTrace := s3.events;
    ghost var deletes: seq<Event> := [];
    if uploaded {
      var i := 0;
      while i < |files|
        invariant i <= |files|
        invariant DeletedPrefix(deletes, bucketName, keys, i)
        invariant s3.events == uploadedTrace + deletes
      {
        var originalKey := OriginalKey(cfg.sourcePrefix, cfg.localTempDir, files[i]);
        var deleted := s3.DeleteObject(bucketName, originalKey);
        OriginalKeysAt(cfg.sourcePrefix, cfg.localTempDir, files, i);
        ghost var attempt := Delete(bucketName, originalKey, deleted);
        AppendAssoc(uploadedTrace, deletes, [attempt]);
        if !deleted {
          DeleteRunEnds(deletes, bucketName, keys, i, [attempt]);
          deletes := deletes + [attempt];
          break;
        }
        deletes := deletes + [attempt];
        i := i + 1;
      }
      if i == |files| {
        DeleteRunEnds(deletes, bucketName, keys, i, []);
        assert deletes + [] == deletes;
      }
    }
    AppendAssoc(old(s3.events), [upload], deletes);
    UploadRunIntro(old(s3.events), s3.events, upload, deletes, keys);
  }

  function KeySet(files: seq<ObjectRecord>): set<string>
  {
    set k | k in Keys(files)
  }

  /**
   * For a segment whose keys all round-trip, the archive names each file by
   * its key without the source prefix, and the keys rebuilt for deletion are
   * exactly the segment's keys, in order (script.py:42, 64, 77).
   */
  lemma SegmentKeysRoundTrip(cfg: Config, seg: seq<ObjectRecord>)
    requires ListingRoundTrips(cfg, seg)
    ensures var files := LocalPaths(cfg.localTempDir, cfg.sourcePrefix, seg);
      && (forall i :: 0 <= i < |seg| ==> ArcName(cfg.localTempDir, files[i]) == seg[i].key[|cfg.sourcePrefix|..])
      && OriginalKeys(cfg.sourcePrefix, cfg.localTempDir, files) == Keys(seg)
  {
    var files := LocalPaths(cfg.localTempDir, cfg.sourcePrefix, seg);
    var keys := OriginalKeys(cfg.sourcePrefix, cfg.localTempDir, files);
    forall i | 0 <= i < |seg|
      ensures ArcName(cfg.localTempDir, files[i]) == seg[i].key[|cfg.sourcePrefix|..]
      ensures keys[i] == Keys(seg)[i]
    {
      SegmentKeyAt(cfg, seg, i);
    }
  }

  /** The round trip of `Paths.KeyRoundTrip` for the i-th file of a segment. */
  lemma SegmentKeyAt(cfg: Config, seg: seq<ObjectRecord>, i: nat)
    requires i < |seg|
    requires RoundTrips(cfg.sourcePrefix, cfg.localTempDir, seg[i].key)
    ensures var files := LocalPaths(cfg.localTempDir, cfg.sourcePrefix, seg);
      && ArcName(cfg.localTempDir, files[i]) == seg[i].key[|cfg.sourcePrefix|..]
      && OriginalKeys(cfg.sourcePrefix, cfg.localTempDir, files)[i] == seg[i].key
  {
    var files := LocalPaths(cfg.localTempDir, cfg.sourcePrefix, seg);
    KeyRoundTrip(cfg.sourcePrefix, cfg.localTempDir, seg[i].key);
    LocalPathsAt(cfg.localTempDir, cfg.sourcePrefix, seg, i);
    OriginalKeysAt(cfg.sourcePrefix, cfg.localTempDir, files, i);
  }

  /** script.py:64 — the member names `compress_files` gives the files, in order. */
  function ArcNames(localTempDir: string, files: seq<string>): seq<string>
  {
    seq(|files|, i requires 0 <= i < |files| => ArcName(localTempDir, files[i]))
  }

  lemma ArchiveOfNames(archive: Archive, files: seq<string>, localTempDir: string)
    requires ArchiveOf(archive, files, localTempDir)
    ensures MemberNames(archive) == ArcNames(localTempDir, files)
  {
  }

  /** script.py:108-109 — the formatted start and end dates of a non-empty segment. */
  function ArchiveDates(seg: seq<ObjectRecord>, formatDate: Timestamp -> string): (string, string)
    requires seg != []
  {
    assert RangeOf(seg).earliest.Some? && RangeOf(seg).latest.Some? by {
      RangeOfIsMinMax(seg);
    }
    (formatDate(RangeOf(seg).earliest.value), formatDate(RangeOf(seg).latest.value))
  }

  /** script.py:110-111 — where the archive of a non-empty segment is written. */
  function ArchivePath(cfg: Config, seg: seq<ObjectRecord>, formatDate: Timestamp -> string): string
    requires seg != []
  {
    var dates := ArchiveDates(seg, formatDate);
    Join(cfg.localTempDir, ZipName(dates.0, dates.1))
  }

  /**
   * Exactly the calls one pass of `main`'s loop makes for the non-empty
   * segment `seg`: one download per file, in order, then what `upload_to_s3`
   * issues for the archive named after the segment's formatted date range,
   * with the member names of `compress_files` and the keys rebuilt from the
   * local paths.
   */
  predicate SegmentCalls(cfg: Config, seg: seq<ObjectRecord>, formatDate: Timestamp -> string, ev: seq<Event>)
  {
    && seg != []
    && var files := LocalPaths(cfg.localTempDir, cfg.sourcePrefix, seg);
       var downloads := DownloadEvents(cfg.bucket, cfg.localTempDir, cfg.sourcePrefix, seg);
       && |downloads| < |ev| && ev[..|downloads|] == downloads
       && UploadRun(ev[|downloads|..], cfg.bucket, DestinationKey(cfg.destinationPrefix, ArchivePath(cfg, seg, formatDate)),
                    ArcNames(cfg.localTempDir, files), OriginalKeys(cfg.sourcePrefix, cfg.localTempDir, files))
  }

  /** Exactly the calls of `main`'s loop over `segments`: `calls[i]` is what it issues for `segments[i]`. */
  predicate RunCalls(cfg: Config, formatDate: Timestamp -> string, segments: seq<seq<ObjectRecord>>, calls: seq<seq<Event>>)
  {
    |calls| == |segments| && forall i :: 0 <= i < |segments| ==> SegmentCalls(cfg, segments[i], formatDate, calls[i])
  }

  /**
   * The calls of one segment are safe on their own: every delete among them
   * is authorized, every upload goes to Deep Archive under the destination
   * prefix, and, when the segment's keys round-trip, only keys of the segment
   * are deleted.
   */
  predicate SegmentSafe(cfg: Config, seg: seq<ObjectRecord>, ev: seq<Event>)
  {
    && DeletesAuthorized(ev, cfg.sourcePrefix, {})
    && UploadsUnder(ev, cfg.destinationPrefix)
    && (ListingRoundTrips(cfg, seg) ==> DeletesWithin(ev, KeySet(seg)))
  }

  /** The downloads of a segment followed by what its upload issued delete only authorized keys. */
  lemma SegmentEventsAuthorized(cfg: Config, seg: seq<ObjectRecord>, uploads: seq<Event>, destinationKey: string)
    requires var files := LocalPaths(cfg.localTempDir, cfg.sourcePrefix, seg);
      UploadRun(uploads, cfg.bucket, destinationKey, ArcNames(cfg.localTempDir, files), OriginalKeys(cfg.sourcePrefix, cfg.localTempDir, files))
    ensures DeletesAuthorized(DownloadEvents(cfg.bucket, cfg.localTempDir, cfg.sourcePrefix, seg) + uploads, cfg.sourcePrefix, {})
  {
    var files := LocalPaths(cfg.localTempDir, cfg.sourcePrefix, seg);
    var keys := OriginalKeys(cfg.sourcePrefix, cfg.localTempDir, files);
    var members := ArcNames(cfg.localTempDir, files);
    var downloads := DownloadEvents(cfg.bucket, cfg.localTempDir, cfg.sourcePrefix, seg);
    forall i | 0 <= i < |keys|
      ensures keys[i] == cfg.sourcePrefix + members[i]
    {
      OriginalKeysAt(cfg.sourcePrefix, cfg.localTempDir, files, i);
    }
    DownloadEventsAreDownloads(cfg.bucket, cfg.localTempDir, cfg.sourcePrefix, seg);
    NoDeletesAuthorized(downloads, cfg.sourcePrefix, {});
    UploadRunAuthorized(uploads, cfg.bucket, destinationKey, members, keys, cfg.sourcePrefix);
    DeletesAuthorizedAppend(downloads, uploads, cfg.sourcePrefix, {});
  }

  /** When its keys round-trip, the downloads and the upload run of one segment delete only keys of that segment. */
  lemma SegmentEventsWithin(cfg: Config, seg: seq<ObjectRecord>, uploads: seq<Event>, destinationKey: string, members: seq<string>)
    requires ListingRoundTrips(cfg, seg)
    requires var files := LocalPaths(cfg.localTempDir, cfg.sourcePrefix, seg);
      UploadRun(uploads, cfg.bucket, destinationKey, members, OriginalKeys(cfg.sourcePrefix, cfg.localTempDir, files))
    ensures DeletesWithin(DownloadEvents(cfg.bucket, cfg.localTempDir, cfg.sourcePrefix, seg) + uploads, KeySet(seg))
  {
    var files := LocalPaths(cfg.localTempDir, cfg.sourcePrefix, seg);
    var keys := OriginalKeys(cfg.sourcePrefix, cfg.localTempDir, files);
    SegmentKeysRoundTrip(cfg, seg);
    UploadRunDeletesWithin(uploads, cfg.bucket, destinationKey, members, keys);
    DownloadEventsAreDownloads(cfg.bucket, cfg.localTempDir, cfg.sourcePrefix, seg);
    DeletesWithinAppend(DownloadEvents(cfg.bucket, cfg.localTempDir, cfg.sourcePrefix, seg), uploads, {}, KeySet(seg));
    assert {} + KeySet(seg) == KeySet(seg);
  }

  /** The events of one segment upload only to the Deep Archive class, under the destination prefix. */
  lemma SegmentEventsUnder(cfg: Config, seg: seq<ObjectRecord>, uploads: seq<Event>, zipPath: string, members: seq<string>, keys: seq<string>)
    requires UploadRun(uploads, cfg.bucket, DestinationKey(cfg.destinationPrefix, zipPath), members, keys)
    ensures UploadsUnder(DownloadEvents(cfg.bucket, cfg.localTempDir, cfg.sourcePrefix, seg) + uploads, cfg.destinationPrefix)
  {
    var key := DestinationKey(cfg.destinationPrefix, zipPath);
    assert key[..|cfg.destinationPrefix|] == cfg.destinationPrefix;
    UploadRunUnder(uploads, cfg.bucket, key, members, keys, cfg.destinationPrefix);
    DownloadEventsAreDownloads(cfg.bucket, cfg.localTempDir, cfg.sourcePrefix, seg);
    UploadsUnderAppend(DownloadEvents(cfg.bucket, cfg.localTempDir, cfg.sourcePrefix, seg), uploads, cfg.destinationPrefix);
  }

  /** The calls of one segment are safe. */
  lemma SegmentCallsSafe(cfg: Config, seg: seq<ObjectRecord>, formatDate: Timestamp -> string, ev: seq<Event>)
    requires SegmentCalls(cfg, seg, formatDate, ev)
    ensures SegmentSafe(cfg, seg, ev)
  {
    var files := LocalPaths(cfg.localTempDir, cfg.sourcePrefix, seg);
    var downloads := DownloadEvents(cfg.bucket, cfg.localTempDir, cfg.sourcePrefix, seg);
    var uploads := ev[|downloads|..];
    var zipPath := ArchivePath(cfg, seg, formatDate);
    var destinationKey := DestinationKey(cfg.destinationPrefix, zipPath);
    var members := ArcNames(cfg.localTempDir, files);
    assert ev == downloads + uploads;
    SegmentEventsAuthorized(cfg, seg, uploads, destinationKey);
    SegmentEventsUnder(cfg, seg, uploads, zipPath, members, OriginalKeys(cfg.sourcePrefix, cfg.localTempDir, files));
    if ListingRoundTrips(cfg, seg) {
      SegmentEventsWithin(cfg, seg, uploads, destinationKey, members);
    }
  }

  /**
   * When none of its calls raised and its keys round-trip, one segment's
   * calls delete every key of the segment, once each and in order, and no
   * other key.
   */
  lemma SegmentCallsComplete(cfg: Config, seg: seq<ObjectRecord>, formatDate: Timestamp -> string, ev: seq<Event>)
    requires SegmentCalls(cfg, seg, formatDate, ev)
    requires NoneRaised(ev)
    requires ListingRoundTrips(cfg, seg)
    ensures DeletedKeys(ev) == Keys(seg)
  {
    var files := LocalPaths(cfg.localTempDir, cfg.sourcePrefix, seg);
    var downloads := DownloadEvents(cfg.bucket, cfg.localTempDir, cfg.sourcePrefix, seg);
    var uploads := ev[|downloads|..];
    assert ev == downloads + uploads;
    NoneRaisedAppend(downloads, uploads);
    DownloadEventsAreDownloads(cfg.bucket, cfg.localTempDir, cfg.sourcePrefix, seg);
    NoDeletesNoKeys(downloads);
    UploadRunComplete(uploads, cfg.bucket, DestinationKey(cfg.destinationPrefix, ArchivePath(cfg, seg, formatDate)),
                      ArcNames(cfg.localTempDir, files), OriginalKeys(cfg.sourcePrefix, cfg.localTempDir, files));
    SegmentKeysRoundTrip(cfg, seg);
    DeletedKeysAppend(downloads, uploads);
  }

  lemma KeySetAppend(a: seq<ObjectRecord>, b: seq<ObjectRecord>)
    ensures Keys(a + b) == Keys(a) + Keys(b)
    ensures KeySet(a + b) == KeySet(a) + KeySet(b)
  {
    assert Keys(a + b) == Keys(a) + Keys(b);
  }

  lemma ListingRoundTripsAppend(cfg: Config, a: seq<ObjectRecord>, b: seq<ObjectRecord>)
    ensures ListingRoundTrips(cfg, a + b) <==> ListingRoundTrips(cfg, a) && ListingRoundTrips(cfg, b)
  {
    if ListingRoundTrips(cfg, a + b) {
      forall i | 0 <= i < |a|
        ensures RoundTrips(cfg.sourcePrefix, cfg.localTempDir, a[i].key)
      {
        assert a[i] == (a + b)[i];
      }
      forall i | 0 <= i < |b|
        ensures RoundTrips(cfg.sourcePrefix, cfg.localTempDir, b[i].key)
      {
        assert b[i] == (a + b)[|a| + i];
      }
    }
  }

  /** Dropping the first segment of a run leaves a run over the remaining segments. */
  lemma RunCallsTail(cfg: Config, formatDate: Timestamp -> string, segments: seq<seq<ObjectRecord>>, calls: seq<seq<Event>>)
    requires segments != []
    requires RunCalls(cfg, formatDate, segments, calls)
    ensures SegmentCalls(cfg, segments[0], formatDate, calls[0])
    ensures RunCalls(cfg, formatDate, segments[1..], calls[1..])
  {
    forall i | 0 <= i < |segments| - 1
      ensures SegmentCalls(cfg, segments[1..][i], formatDate, calls[1..][i])
    {
      assert segments[1..][i] == segments[i + 1] && calls[1..][i] == calls[i + 1];
    }
  }

  /** One more segment and its calls extend a run. */
  lemma RunCallsSnoc(cfg: Config, formatDate: Timestamp -> string, segments: seq<seq<ObjectRecord>>, calls: seq<seq<Event>>,
                     seg: seq<ObjectRecord>, chunk: seq<Event>)
    requires RunCalls(cfg, formatDate, segments, calls)
    requires SegmentCalls(cfg, seg, formatDate, chunk)
    ensures RunCalls(cfg, formatDate, segments + [seg], calls + [chunk])
  {
    forall i | 0 <= i < |segments| + 1
      ensures SegmentCalls(cfg, (segments + [seg])[i], formatDate, (calls + [chunk])[i])
    {
      if i < |segments| {
        assert (segments + [seg])[i] == segments[i] && (calls + [chunk])[i] == calls[i];
      }
    }
  }

  /**
   * The calls of the whole loop are safe: every delete follows a successful
   * upload of an archive with a member named after the deleted key, every
   * upload goes to Deep Archive under the destination prefix, and, when the
   * processed keys round-trip, only processed keys are deleted.
   */
  lemma {:induction false} RunCallsSafe(cfg: Config, formatDate: Timestamp -> string, segments: seq<seq<ObjectRecord>>, calls: seq<seq<Event>>)
    requires RunCalls(cfg, formatDate, segments, calls)
    ensures DeletesAuthorized(Flatten(calls), cfg.sourcePrefix, {})
    ensures UploadsUnder(Flatten(calls), cfg.destinationPrefix)
    ensures ListingRoundTrips(cfg, Flatten(segments)) ==> DeletesWithin(Flatten(calls), KeySet(Flatten(segments)))
    decreases |segments|
  {
    if segments != [] {
      RunCallsTail(cfg, formatDate, segments, calls);
      RunCallsSafe(cfg, formatDate, segments[1..], calls[1..]);
      SegmentCallsSafe(cfg, segments[0], formatDate, calls[0]);
      DeletesAuthorizedAppend(calls[0], Flatten(calls[1..]), cfg.sourcePrefix, {});
      UploadsUnderAppend(calls[0], Flatten(calls[1..]), cfg.destinationPrefix);
      if ListingRoundTrips(cfg, Flatten(segments)) {
        ListingRoundTripsAppend(cfg, segments[0], Flatten(segments[1..]));
        DeletesWithinAppend(calls[0], Flatten(calls[1..]), KeySet(segments[0]), KeySet(Flatten(segments[1..])));
        KeySetAppend(segments[0], Flatten(segments[1..]));
      }
    }
  }

  /**
   * When no upload or delete of the loop raised and the processed keys
   * round-trip, the loop deletes exactly the processed keys, once each and in
   * listing order.
   */
  lemma {:induction false} RunCallsComplete(cfg: Config, formatDate: Timestamp -> string, segments: seq<seq<ObjectRecord>>, calls: seq<seq<Event>>)
    requires RunCalls(cfg, formatDate, segments, calls)
    requires NoneRaised(Flatten(calls))
    requires ListingRoundTrips(cfg, Flatten(segments))
    ensures DeletedKeys(Flatten(calls)) == Keys(Flatten(segments))
    decreases |segments|
  {
    if segments != [] {
      RunCallsTail(cfg, formatDate, segments, calls);
      NoneRaisedAppend(calls[0], Flatten(calls[1..]));
      ListingRoundTripsAppend(cfg, segments[0], Flatten(segments[1..]));
      RunCallsComplete(cfg, formatDate, segments[1..], calls[1..]);
      SegmentCallsComplete(cfg, segments[0], formatDate, calls[0]);
      DeletedKeysAppend(calls[0], Flatten(calls[1..]));
      KeySetAppend(segments[0], Flatten(segments[1..]));
    }
  }

  /**
   * The end-to-end promise of the script: when no file alone exceeds the
   * budget, every key round-trips and no upload or delete raised, `main`
   * deletes every listed object, once each, in listing order.
   */
  lemma RunDeletesListing(cfg: Config, formatDate: Timestamp -> string, listing: seq<ObjectRecord>, calls: seq<seq<Event>>)
    requires RunCalls(cfg, formatDate, Schedule(listing, cfg.segmentSize), calls)
    requires NoneRaised(Flatten(calls))
    requires ListingRoundTrips(cfg, listing)
    requires forall i :: 0 <= i < |listing| ==> listing[i].size <= cfg.segmentSize
    ensures DeletedKeys(Flatten(calls)) == Keys(listing)
  {
    ScheduleCoversAll(listing, cfg.segmentSize);
    RunCallsComplete(cfg, formatDate, Schedule(listing, cfg.segmentSize), calls);
  }

  /**
   * The upload of a segment's calls comes right after its downloads and names
   * the archive's destination key; when the formatted dates hold no '/', that
   * key is the destination prefix followed by the archive name.
   */
  lemma SegmentCallsUpload(cfg: Config, seg: seq<ObjectRecord>, formatDate: Timestamp -> string, ev: seq<Event>)
    requires SegmentCalls(cfg, seg, formatDate, ev)
    ensures |seg| < |ev| && ev[|seg|].Upload?
    ensures ev[|seg|].key == DestinationKey(cfg.destinationPrefix, ArchivePath(cfg, seg, formatDate))
    ensures var dates := ArchiveDates(seg, formatDate);
      '/' !in dates.0 && '/' !in dates.1 ==> ev[|seg|].key == cfg.destinationPrefix + ZipName(dates.0, dates.1)
  {
    DownloadEventsAreDownloads(cfg.bucket, cfg.localTempDir, cfg.sourcePrefix, seg);
    assert ev[|seg|] == ev[|seg|..][0];
    var dates := ArchiveDates(seg, formatDate);
    if '/' !in dates.0 && '/' !in dates.1 {
      ArchiveKeyOfDates(cfg, seg, formatDate);
    }
  }

  /** With '/'-free formatted dates, the archive of a segment is uploaded to the destination prefix followed by its name. */
  lemma ArchiveKeyOfDates(cfg: Config, seg: seq<ObjectRecord>, formatDate: Timestamp -> string)
    requires seg != []
    requires '/' !in ArchiveDates(seg, formatDate).0 && '/' !in ArchiveDates(seg, formatDate).1
    ensures var dates := ArchiveDates(seg, formatDate);
      DestinationKey(cfg.destinationPrefix, ArchivePath(cfg, seg, formatDate)) == cfg.destinationPrefix + ZipName(dates.0, dates.1)
  {
    var dates := ArchiveDates(seg, formatDate);
    var name := ZipName(dates.0, dates.1);
    assert '/' !in name by {
      assert name == dates.0 + ("_to_" + dates.1 + ".zip");
      assert forall i :: 0 <= i < |name| ==> name[i] != '/' by {
        forall i | 0 <= i < |name|
          ensures name[i] != '/'
        {
          if i < |dates.0| {
            assert name[i] == dates.0[i];
          } else if i < |dates.0| + 4 {
            assert name[i] == "_to_"[i - |dates.0|];
          } else if i < |dates.0| + 4 + |dates.1| {
            assert name[i] == dates.1[i - |dates.0| - 4];
          } else {
            assert name[i] == ".zip"[i - |dates.0| - 4 - |dates.1|];
          }
        }
      }
    }
    DestinationKeyOfZip(cfg.destinationPrefix, cfg.localTempDir, name);
  }

  /**
   * The converse of `SameDateArchivesShareKey`: when formatted dates have one
   * width and hold no '/', two segments' archives are uploaded under one key
   * exactly when their formatted date ranges agree.
   */
  lemma ArchiveKeysCollideIffSameDates(cfg: Config, formatDate: Timestamp -> string, s: seq<ObjectRecord>, t: seq<ObjectRecord>)
    requires s != [] && t != []
    requires |ArchiveDates(s, formatDate).0| == |ArchiveDates(t, formatDate).0|
    requires '/' !in ArchiveDates(s, formatDate).0 && '/' !in ArchiveDates(s, formatDate).1
    requires '/' !in ArchiveDates(t, formatDate).0 && '/' !in ArchiveDates(t, formatDate).1
    ensures DestinationKey(cfg.destinationPrefix, ArchivePath(cfg, s, formatDate))
         == DestinationKey(cfg.destinationPrefix, ArchivePath(cfg, t, formatDate))
        <==> ArchiveDates(s, formatDate) == ArchiveDates(t, formatDate)
  {
    var ds := ArchiveDates(s, formatDate);
    var dt := ArchiveDates(t, formatDate);
    ArchiveKeyOfDates(cfg, s, formatDate);
    ArchiveKeyOfDates(cfg, t, formatDate);
    var p := cfg.destinationPrefix;
    if p + ZipName(ds.0, ds.1) == p + ZipName(dt.0, dt.1) {
      assert ZipName(ds.0, ds.1) == (p + ZipName(ds.0, ds.1))[|p|..];
      assert ZipName(dt.0, dt.1) == (p + ZipName(dt.0, dt.1))[|p|..];
      ZipNameInjective(ds.0, ds.1, dt.0, dt.1);
    }
  }

  /** A file that fills the budget on its own is a segment by itself. */
  lemma TwoFullFilesSchedule(a: ObjectRecord, b: ObjectRecord, target: nat)
    requires 0 < target == a.size == b.size
    ensures Schedule([a, b], target) == [[a], [b]]
  {
    assert [a, b][1..] == [b];
    assert AdmitFrom([b], a.size, target) == 0;
    assert AdmitFrom([a, b], 0, target) == 1;
    assert Select([a, b], target) == [a];
    assert AdmitFrom([b][1..], b.size, target) == 0;
    assert AdmitFrom([b], 0, target) == 1;
    assert Select([b], target) == [b];
    assert Schedule([b][1..], target) == [];
  }

  /**
   * Archive names are not unique: two files that each fill the budget and
   * were modified on the same formatted date become two segments whose
   * archives are uploaded under one key. The second upload replaces the
   * archive of the first, whose originals were deleted in between when all
   * went well.
   */
  lemma SameDateArchivesShareKey(cfg: Config, formatDate: Timestamp -> string, a: ObjectRecord, b: ObjectRecord, calls: seq<seq<Event>>)
    requires 0 < cfg.segmentSize == a.size == b.size
    requires formatDate(a.lastModified) == formatDate(b.lastModified)
    requires RunCalls(cfg, formatDate, Schedule([a, b], cfg.segmentSize), calls)
    ensures Schedule([a, b], cfg.segmentSize) == [[a], [b]]
    ensures |calls| == 2 && Flatten(calls) == calls[0] + calls[1]
    ensures |calls[0]| > 1 && |calls[1]| > 1
    ensures calls[0][1].Upload? && calls[1][1].Upload? && calls[0][1].key == calls[1][1].key
    ensures NoneRaised(calls[0]) && ListingRoundTrips(cfg, [a]) ==> DeletedKeys(calls[0]) == [a.key]
  {
    TwoFullFilesSchedule(a, b, cfg.segmentSize);
    assert SegmentCalls(cfg, [a], formatDate, calls[0]);
    assert SegmentCalls(cfg, [b], formatDate, calls[1]);
    FlattenTwo(calls);
    assert RangeOf([a]) == DateRange(Some(a.lastModified), Some(a.lastModified)) by {
      assert [a][..0] == [];
    }
    assert RangeOf([b]) == DateRange(Some(b.lastModified), Some(b.lastModified)) by {
      assert [b][..0] == [];
    }
    SegmentCallsUpload(cfg, [a], formatDate, calls[0]);
    SegmentCallsUpload(cfg, [b], formatDate, calls[1]);
    if NoneRaised(calls[0]) && ListingRoundTrips(cfg, [a]) {
      SegmentCallsComplete(cfg, [a], formatDate, calls[0]);
      assert Keys([a]) == [a.key];
    }
  }

  /** The calls of a segment, given as the downloads followed by what `upload_to_s3` issued for its archive. */
  lemma SegmentCallsIntro(cfg: Config, seg: seq<ObjectRecord>, formatDate: Timestamp -> string,
                          before: seq<Event>, mid: seq<Event>, after: seq<Event>, archive: Archive)
    requires seg != []
    requires mid == before + DownloadEvents(cfg.bucket, cfg.localTempDir, cfg.sourcePrefix, seg)
    requires ArchiveOf(archive, LocalPaths(cfg.localTempDir, cfg.sourcePrefix, seg), cfg.localTempDir)
    requires archive.path == ArchivePath(cfg, seg, formatDate)
    requires |mid| < |after| && after[..|mid|] == mid
    requires UploadRun(after[|mid|..], cfg.bucket, DestinationKey(cfg.destinationPrefix, archive.path), MemberNames(archive),
                       OriginalKeys(cfg.sourcePrefix, cfg.localTempDir, LocalPaths(cfg.localTempDir, cfg.sourcePrefix, seg)))
    ensures |before| <= |after| && after == before + after[|before|..]
    ensures SegmentCalls(cfg, seg, formatDate, after[|before|..])
  {
    GrewBy(before, DownloadEvents(cfg.bucket, cfg.localTempDir, cfg.sourcePrefix, seg), mid, after);
    ArchiveOfNames(archive, LocalPaths(cfg.localTempDir, cfg.sourcePrefix, seg), cfg.localTempDir);
  }

  /**
   * script.py:103-121, the body of the loop of `main`: downloads the next
   * segment and, unless it is empty, names, compresses and uploads its
   * archive. The loop's `break` on an empty segment is left to `Run`.
   * `calls` are the calls it made.
   */
  method ProcessSegment(s3: Client, cfg: Config, files: seq<ObjectRecord>, formatDate: Timestamp -> string)
    returns (segmentFiles: seq<string>, segmentSize: nat, ghost calls: seq<Event>)
    modifies s3
    ensures var seg := Select(files, cfg.segmentSize);
      && segmentFiles == LocalPaths(cfg.localTempDir, cfg.sourcePrefix, seg)
      && segmentSize == TotalSize(seg)
      && (seg == [] ==> calls == [])
      && (seg != [] ==> SegmentCalls(cfg, seg, formatDate, calls))
    ensures s3.events == old(s3.events) + calls
  {
    ghost var seg := Select(files, cfg.segmentSize);
    var dateRange;
    segmentFiles, segmentSize, dateRange := DownloadSegment(s3, cfg, files, cfg.localTempDir, cfg.segmentSize);
    if segmentFiles == [] {
      calls := [];
      assert s3.events == old(s3.events) + [] + [];
      return;
    }
    assert dateRange.earliest.Some? && dateRange.latest.Some? by {
      RangeOfIsMinMax(seg);
    }

    var startDate := formatDate(dateRange.earliest.value);
    var endDate := formatDate(dateRange.latest.value);
    var zipName := ZipName(startDate, endDate);
    var zipPath := Join(cfg.localTempDir, zipName);
    assert zipPath == ArchivePath(cfg, seg, formatDate);

    var archive := CompressFiles(segmentFiles, zipPath, cfg.localTempDir);
    ghost var beforeUpload := s3.events;
    UploadToS3(s3, cfg, archive, cfg.bucket, cfg.destinationPrefix, segmentFiles);
    // cleanup_local_files (script.py:83-93) only touches the local disk.
    SegmentCallsIntro(cfg, seg, formatDate, old(s3.events), beforeUpload, s3.events, archive);
    calls := s3.events[|old(s3.events)|..];
  }

  /**
   * One pass of the loop of `main` keeps all of its invariants: an empty
   * selection means the schedule is done, and otherwise the selected segment
   * and the calls made for it join the processed part.
   */
  lemma MainLoopStep(cfg: Config, formatDate: Timestamp -> string, listing: seq<ObjectRecord>,
                     done: seq<seq<ObjectRecord>>, processed: seq<ObjectRecord>, files: seq<ObjectRecord>,
                     start: seq<Event>, calls: seq<seq<Event>>, chunk: seq<Event>)
    requires files != []
    requires listing == processed + files
    requires Schedule(listing, cfg.segmentSize) == done + Schedule(files, cfg.segmentSize)
    requires Flatten(done) == processed
    requires RunCalls(cfg, formatDate, done, calls)
    requires Select(files, cfg.segmentSize) != [] ==> SegmentCalls(cfg, Select(files, cfg.segmentSize), formatDate, chunk)
    ensures var seg := Select(files, cfg.segmentSize);
      && (seg == [] ==> Schedule(listing, cfg.segmentSize) == done)
      && (seg != [] ==>
            && listing == (processed + seg) + files[|seg|..]
            && Schedule(listing, cfg.segmentSize) == (done + [seg]) + Schedule(files[|seg|..], cfg.segmentSize)
            && Flatten(done + [seg]) == processed + seg
            && TotalSize(processed + seg) == TotalSize(processed) + TotalSize(seg)
            && RunCalls(cfg, formatDate, done + [seg], calls + [chunk])
            && (start + Flatten(calls)) + chunk == start + Flatten(calls + [chunk]))
  {
    var seg := Select(files, cfg.segmentSize);
    ScheduleAdvance(listing, done, processed, files, cfg.segmentSize);
    if seg != [] {
      FlattenSnoc(done, seg);
      FlattenSnoc(calls, chunk);
      AppendAssoc(start, Flatten(calls), chunk);
      TotalSizeAppend(processed, seg);
      RunCallsSnoc(cfg, formatDate, done, calls, seg, chunk);
    }
  }

  /**
   * When the loop of `main` stops, with nothing left or an empty selection,
   * the segments it processed are the whole schedule, and its calls are safe.
   */
  lemma MainLoopExit(cfg: Config, formatDate: Timestamp -> string, listing: seq<ObjectRecord>,
                     done: seq<seq<ObjectRecord>>, processed: seq<ObjectRecord>, files: seq<ObjectRecord>, calls: seq<seq<Event>>)
    requires listing == processed + files
    requires Schedule(listing, cfg.segmentSize) == done + Schedule(files, cfg.segmentSize)
    requires files == [] || Schedule(listing, cfg.segmentSize) == done
    requires Flatten(done) == processed
    requires RunCalls(cfg, formatDate, done, calls)
    ensures Schedule(listing, cfg.segmentSize) == done
    ensures Flatten(Schedule(listing, cfg.segmentSize)) == processed
    ensures DeletesAuthorized(Flatten(calls), cfg.sourcePrefix, {})
    ensures UploadsUnder(Flatten(calls), cfg.destinationPrefix)
    ensures ListingRoundTrips(cfg, listing) ==> DeletesWithin(Flatten(calls), KeySet(processed))
  {
    assert done + [] == done;
    RunCallsSafe(cfg, formatDate, done, calls);
    ListingRoundTripsAppend(cfg, processed, files);
  }

  /**
   * script.py:95-125 with the listing of script.py:18-24 given as `listing`.
   * Processes the segments of `Schedule` in order and returns the number of
   * bytes downloaded; `calls` are the calls made for each segment, exactly as
   * `SegmentCalls` describes them. Every delete it issues follows a
   * successful upload of an archive with a member named after the object,
   * every upload goes to Deep Archive under the destination prefix, and when
   * every listed key round-trips, it deletes only objects of the processed
   * segments.
   */
  method Run(s3: Client, cfg: Config, listing: seq<ObjectRecord>, formatDate: Timestamp -> string)
    returns (totalDownloaded: nat, ghost calls: seq<seq<Event>>)
    modifies s3
    ensures totalDownloaded == TotalSize(Flatten(Schedule(listing, cfg.segmentSize)))
    ensures s3.events == old(s3.events) + Flatten(calls)
    ensures RunCalls(cfg, formatDate, Schedule(listing, cfg.segmentSize), calls)
    ensures DeletesAuthorized(Flatten(calls), cfg.sourcePrefix, {})
    ensures UploadsUnder(Flatten(calls), cfg.destinationPrefix)
    ensures ListingRoundTrips(cfg, listing) ==>
      DeletesWithin(Flatten(calls), KeySet(Flatten(Schedule(listing, cfg.segmentSize))))
  {
    var files := listing;
    totalDownloaded := 0;
    calls := [];
    ghost var start := s3.events;
    ghost var processed: seq<ObjectRecord> := [];
    ghost var done: seq<seq<ObjectRecord>> := [];
    assert s3.events == start + Flatten(calls);
    while files != []
      invariant listing == processed + files
      invariant Schedule(listing, cfg.segmentSize) == done + Schedule(files, cfg.segmentSize)
      invariant Flatten(done) == processed
      invariant totalDownloaded == TotalSize(processed)
      invariant s3.events == start + Flatten(calls)
      invariant RunCalls(cfg, formatDate, done, calls)
      decreases |files|
    {
      ghost var seg := Select(files, cfg.segmentSize);
      var segmentFiles, segmentSize, chunk := ProcessSegment(s3, cfg, files, formatDate);
      MainLoopStep(cfg, formatDate, listing, done, processed, files, start, calls, chunk);
      if segmentFiles == [] {
        break;
      }
      totalDownloaded := totalDownloaded + segmentSize;
      files := files[|segmentFiles|..];
      processed := processed + seg;
      done := done + [seg];
      calls := calls + [chunk];
    }
    MainLoopExit(cfg, formatDate, listing, done, processed, files, calls);
  }
}
