# S3 to Glacier mover, modelled in Dafny

`script.py` moves the objects under one S3 prefix to Glacier Deep Archive, one
batch at a time:
- it lists the objects under the prefix;
- it downloads a greedy, size-bounded run of them (a *segment*), keeping each
  key's directory structure;
- it writes the segment into a ZIP archive named after the oldest and newest
  `LastModified` in it, and uploads that archive with the `DEEP_ARCHIVE`
  storage class;
- only once the upload has returned, it deletes the original objects one by one.

This repeats until the listing is used up, or until a segment comes back empty.

The model has five main modules:

- `Segments` (`segment.dfy`) holds the greedy selection of `download_segment`
  as a specification function (`Select`), together with the byte total and the
  date range of a segment.
- `Paths` (`paths.dfy`) holds the string arithmetic that ties an S3 key to its
  local path (`os.path.join` with the source prefix removed), to its name
  inside the archive, and to the key rebuilt for deletion. It also holds the
  archive's name and destination key. `os.path.join` and `os.path.basename`
  follow their POSIX definitions.
- `Orchestration` (`orchestration.dfy`) turns the `while files:` loop of `main` into a
  specification function `Schedule`: the list of segments the loop processes.
- `S3` (`s3.dfy`) holds the boto3 client, as a class whose state is the trace
  of calls made so far. An upload or a delete may succeed or raise, chosen
  freely on each call. This module also holds the safety predicates over such
  traces.
- `Mover` (`mover.dfy`) holds `download_segment`, `compress_files`,
  `upload_to_s3` and `main` as methods with their loops. The body of `main`'s
  loop is its own method, `ProcessSegment`. Each method is proved against the
  functions above.

Two small modules hold shared pieces: `Wrappers` (`wrappers.dfy`, an `Option`
type) and `Sequences` (`sequences.dfy`, concatenation facts and `Flatten`).

The model covers runs in which no download and no local file operation raises
(see "## Left out"). In the script such an exception ends the process, and the
calls made up to then are a prefix of a modelled run.

For those runs, `Mover.Run` states exactly which calls `main` makes. Its ghost
result `calls` has one chunk per segment of `Schedule`, and
`Mover.SegmentCalls` pins each chunk down:
- one download per file, in order;
- then one `DEEP_ARCHIVE` upload of the archive named after the segment's
  formatted date range;
- then, only if that upload returned, the deletes of the rebuilt keys, in
  order, up to the first delete that raised.

From this exact trace the model derives three kinds of results:

- Safety (`Mover.RunCallsSafe`, restated by `Mover.Run`):
  - every delete comes after a successful upload of an archive with a member
    whose name, after the source prefix, is the deleted key, with only deletes
    in between;
  - every upload goes to `DEEP_ARCHIVE` under the destination prefix;
  - when every key of the listing round-trips (see `Paths.RoundTrips`), only
    objects of the processed segments are deleted.

  Only with round-tripping keys does the member actually hold the deleted
  object; see the finding below.
- Completeness (`Mover.RunCallsComplete`, `Mover.RunDeletesListing`): when no
  local file operation, upload or delete raised and the keys round-trip, the
  processed objects are deleted once each, in listing order. When no file alone exceeds the segment
  budget as well, that is every listed object.
- Coverage (`Orchestration.ScheduleCoversAll`): the segments are the whole
  listing exactly when no single object exceeds the segment budget.
  Otherwise the loop stops at the first such object, and the closing message
  does not mention the objects left behind.

Safety is judged at the moment of each delete. Archive names are built from
dates formatted to the day, so two segments whose formatted ranges agree are
uploaded under one key. The second upload then replaces the archive of the
first, whose originals are already deleted. `Mover.SameDateArchivesShareKey`
shows this for two files that each fill the budget and share a date, and
`Mover.ArchiveKeysCollideIffSameDates` shows that, for `/`-free dates of one
width, a shared key arises exactly from equal formatted ranges.

The code behaves as follows in places where a safer or richer design might be
expected; the model follows the code:
- After an upload that raised, the loop goes on with the next segment. It
  does not abort.
- A delete that raises ends the remaining deletes of that segment, because
  the upload and the deletes share one `try` block. It is reported as
  `Upload failed` (script.py:81).
- There is no checkpoint, no bulk delete and no concurrent download.

## Model

| member | source | states |
|---|---|---|
| Segments.SelectIsGreedyPrefix | script.py:33-50 | The admitted files are a prefix of the listing, in listing order, with total size within the budget. If the segment stops short, the next file would have taken the total past the budget. The segment is empty exactly when the listing is empty or its first file alone is over budget. |
| Segments.AdmitFromStops | script.py:38-39 | Starting from `used` bytes, the admitted run stays within the budget, and the first file not admitted would overflow it. |
| Segments.AdmitFromExact | script.py:38-39 | When the first `i` files fit in what is left of the budget and file `i`, if any, would overflow it, the loop admits exactly `i` files. |
| Segments.TotalSizeAppend | script.py:49 | The byte total of two runs laid end to end is the sum of their totals, so the running total can be kept one file at a time. |
| Segments.RangeOfIsMinMax | script.py:51-54 | The date range is unset exactly for an empty segment. Otherwise its two ends are the minimum and the maximum `LastModified` of the admitted files, and some file has each. |
| Paths.BasenameIsLastComponent | script.py:71 | `os.path.basename` gives a suffix of the path that holds no `/` and that either is the whole path or follows a `/`. |
| Paths.BasenameAfterDir | script.py:71 | The base name of a directory ending in `/` followed by a `/`-free name is that name. |
| Paths.KeyRoundTrip | script.py:77 | For a key under the source prefix whose rest does not start with `/`, with a temporary directory ending in `/`: the archive member name of its local path is the key without the prefix (lines 42 and 64), and the key rebuilt for deletion is the original key. |
| Paths.AbsoluteSuffixBreaksRoundTrip | script.py:42 | When the rest of the key starts with `/` and the temporary directory is non-empty, the key rebuilt for deletion differs from the downloaded key. |
| Paths.AbsoluteKeyRebuiltAsOther | script.py:42 | Under prefix `u/` and directory `temp/`, the key `u//abcdefgh` is downloaded to `/abcdefgh`, archived as `efgh`, and deleted as `u/efgh`, a different object. |
| Paths.IntendedKeyRoundTrip | script.py:42 | With the local path kept under the directory, every key under the source prefix comes back as itself, and its member name is the key without the prefix. |
| Paths.LocalPathIsIntended | script.py:42 | For a key that round-trips, the path `os.path.join` builds is the intended path under the directory. |
| Paths.ParseZipName | script.py:110 | Whatever it reads back from an archive name puts the two dates back into the same archive name, with the start date of the given width. |
| Paths.ParseZipNameRoundTrip | script.py:110 | An archive name built from two dates is read back into the same two dates. |
| Paths.ZipNameInjective | script.py:108-110 | Two archive names whose start dates have the same width are equal only if both dates are equal. |
| Paths.DestinationKeyOfZip | script.py:71-72 | The destination key of the archive written under the temporary directory (line 111) is the destination prefix followed by the archive name, when that name holds no `/`. |
| Orchestration.ScheduleStep | script.py:103-105 | For a non-empty listing, an empty selection ends the schedule. Otherwise the schedule is the selection followed by the schedule of the rest, and so are the processed files. |
| Orchestration.ScheduleAdvance | script.py:103-122 | An empty selection means the segments done so far are the whole schedule. Otherwise dropping `len(segment_files)` items from the front of what is left moves exactly the selected segment from the listing to the processed part and to the segments done. |
| Orchestration.FirstOversizeIsFirst | script.py:38-39 | `FirstOversize` is the index of the first file that alone exceeds the budget: all files before it fit. |
| Orchestration.SelectedFilesFit | script.py:38-39 | Every file the greedy selection admits fits the budget on its own. |
| Orchestration.ScheduleSegmentsAreBounded | script.py:101-105 | Every processed segment is non-empty and within the budget, so each pass removes at least one file. |
| Orchestration.ScheduleCoversPrefix | script.py:101-122 | The processed segments, laid end to end, are exactly the listing up to the first file that alone exceeds the budget. |
| Orchestration.ScheduleCoversAll | script.py:104-105 | The loop processes the whole listing if and only if no file exceeds the budget. |
| S3.Client.constructor | script.py:14 | A new client has made no calls. |
| S3.Client.DownloadFile | script.py:46 | A download appends exactly one download event and nothing else. |
| S3.Client.UploadFile | script.py:74 | An upload appends exactly one upload event that records its bucket, key, storage class, archive members and whether it raised. |
| S3.Client.DeleteObject | script.py:78 | A delete appends exactly one delete event that records its bucket, key and whether it raised. |
| S3.DeleteRunAttemptsInOrder | script.py:76-81 | The deletes after an upload name the rebuilt keys in file order, and every attempt but the last succeeded. They stop short of the last file only after a delete that raised. |
| S3.DeleteRunEnds | script.py:76-81 | The delete loop can end in only two ways: every key deleted, or the successful deletes of a prefix followed by one that raised. Both are valid delete runs. |
| S3.DeleteRunComplete | script.py:76-78 | A delete loop in which no delete raised deletes every key of its list, once each, in order. |
| S3.UploadRunComplete | script.py:73-78 | When neither the upload nor any delete raised, what `upload_to_s3` issues deletes every rebuilt key, once each, in order. |
| S3.UploadRunDeletesWithin | script.py:76-78 | What `upload_to_s3` issues deletes only keys from its list of rebuilt keys. |
| S3.DeletesWithinAppend | script.py:101-122 | Deletes confined to one key set followed by deletes confined to another are confined to their union. |
| S3.DeletedKeysAppend | script.py:101-122 | The keys deleted by two traces laid end to end are those of the first followed by those of the second. |
| S3.NoneRaisedAppend | script.py:101-122 | Two traces laid end to end have no raised call exactly when neither has one. |
| S3.NoDeletesAuthorized | script.py:46 | A trace without deletes, such as the downloads of a segment, is safe from any starting point. |
| S3.NoDeletesNoKeys | script.py:46 | A trace without deletes, such as the downloads of a segment, deletes no key. |
| S3.DeletesAuthorizedWiden | script.py:76-78 | A safe trace stays safe when more archived keys are allowed at its start. |
| S3.DeletesAuthorizedAppend | script.py:101-122 | A trace that is safe from a clean start stays safe when it is appended to any safe trace, so segments compose. |
| S3.DeletesAuthorizedPrefix | script.py:46 | Every prefix of a safe trace is safe, so a run that a raising `download_file` cuts short keeps the safety of the run it is a prefix of. |
| S3.DeleteRunAuthorized | script.py:76-78 | A delete run over keys that the current upload allows is safe. |
| S3.UploadRunAuthorized | script.py:73-81 | What `upload_to_s3` issues is safe whatever came before, when each rebuilt key is the source prefix followed by that file's archive name. The deletes come only after an upload that returned normally, and a failed upload deletes nothing. |
| S3.UploadsUnderAppend | script.py:101-122 | Two traces whose uploads are all `DEEP_ARCHIVE` under the destination prefix keep that property when laid end to end. |
| S3.UploadRunUnder | script.py:72-74 | What `upload_to_s3` issues uploads only with the `DEEP_ARCHIVE` storage class, to a key under the prefix of its destination key. |
| Mover.LocalPaths | script.py:50 | There is one local path per admitted file. |
| Mover.LocalPathsAt | script.py:42 | The i-th local path is `os.path.join` of the local directory and the i-th key without the source prefix. |
| Mover.OriginalKeys | script.py:76-77 | There is one rebuilt key per local file. |
| Mover.OriginalKeysAt | script.py:77 | The i-th rebuilt key is the source prefix followed by the i-th file without the local directory's prefix. |
| Mover.DownloadEventsAreDownloads | script.py:46 | A segment's downloads make one call per file, each a download of that file's key. |
| Mover.AdmitStep | script.py:49-54 | Admitting one more file adds its size to the total, widens the date range by its `LastModified`, appends its local path and appends one download event. |
| Mover.DownloadSegment | script.py:27-57 | The method returns the local paths, byte total and date range of exactly the greedy selection `Select` from its input. The trace grows by one download per admitted file, in order. |
| Mover.CompressFiles | script.py:59-66 | The archive is written at the given path. It holds one member per file, in order, each named by the file's path without the temporary directory's prefix. |
| Mover.ArchiveOfNames | script.py:64 | The member names of the written archive are the files' paths without the temporary directory's prefix, in order. |
| Mover.UploadToS3 | script.py:68-81 | The trace grows by exactly an upload run: one `DEEP_ARCHIVE` upload to the destination prefix followed by the archive's base name. If that upload returned, the rebuilt keys are deleted in order until the first delete that raises. |
| Mover.SegmentKeysRoundTrip | script.py:77 | For a segment whose keys round-trip, each member is named by its key without the source prefix (line 64). The keys rebuilt for deletion are exactly the segment's keys, in order. |
| Mover.SegmentKeyAt | script.py:77 | For a key that round-trips, the archive member name of its local path is the key without the source prefix, and the i-th rebuilt key is the i-th key of the segment. |
| Mover.SegmentEventsAuthorized | script.py:103-115 | A segment's downloads followed by what its upload issued are safe on their own. |
| Mover.SegmentEventsWithin | script.py:103-115 | When its keys round-trip, a segment's downloads and upload run delete only keys of that segment. |
| Mover.SegmentEventsUnder | script.py:111-115 | The events of one segment upload only with the `DEEP_ARCHIVE` storage class, under the destination prefix. |
| Mover.SegmentCallsSafe | script.py:103-115 | The exact calls of one segment are safe: deletes are authorized, uploads are `DEEP_ARCHIVE` under the destination prefix, and with round-tripping keys only the segment's keys are deleted. |
| Mover.SegmentCallsComplete | script.py:103-115 | When none of a segment's calls raised and its keys round-trip, they delete exactly the segment's keys, once each, in order. |
| Mover.SegmentCallsUpload | script.py:72-74 | In a segment's calls, the upload comes right after the downloads and names the destination key of the archive built from the segment's formatted dates. When those dates hold no `/`, that key is the destination prefix followed by the archive name. |
| Mover.ArchiveKeyOfDates | script.py:108-111 | When the formatted dates hold no `/`, the destination key of a segment's archive is the destination prefix followed by `<start>_to_<end>.zip`. |
| Mover.ArchiveKeysCollideIffSameDates | script.py:108-111 | For formatted dates of one width that hold no `/`, two segments' archives get the same destination key if and only if their formatted date ranges are equal. |
| Mover.KeySetAppend | script.py:122 | The keys of two runs of files laid end to end are the keys of the first followed by those of the second, and the key sets are their union. |
| Mover.ListingRoundTripsAppend | script.py:122 | Two runs of files laid end to end round-trip exactly when each of them does. |
| Mover.RunCallsTail | script.py:101-122 | Dropping the first segment of the loop's calls leaves exactly the calls of the remaining segments. |
| Mover.RunCallsSnoc | script.py:101-122 | One more segment with its exact calls extends the loop's calls. |
| Mover.RunCallsSafe | script.py:101-122 | The loop's calls are safe: deletes are authorized, uploads are `DEEP_ARCHIVE` under the destination prefix, and with round-tripping keys only processed keys are deleted. |
| Mover.RunCallsComplete | script.py:101-122 | When no upload or delete raised and the processed keys round-trip, the loop deletes exactly the processed keys, once each, in listing order. |
| Mover.RunDeletesListing | script.py:95-125 | When no file exceeds the budget, every key round-trips and nothing raised, `main` deletes every listed object, once each, in listing order. |
| Mover.TwoFullFilesSchedule | script.py:101-105 | Two files that each fill the budget exactly become two segments of one file each. |
| Mover.SameDateArchivesShareKey | script.py:108-111 | Two such files with the same formatted date have their archives uploaded under one key. The first segment's deletes, which remove its original when nothing raised, come before the second upload. |
| Mover.SegmentCallsIntro | script.py:103-115 | A segment's downloads followed by what `upload_to_s3` issued for the archive at the date-named path are exactly that segment's calls. |
| Mover.ProcessSegment | script.py:103-121 | One pass of the loop body returns the local paths and byte total of exactly the greedy selection from what is left. It makes no call when that selection is empty. Otherwise the calls it appends are exactly `SegmentCalls` of that selection: its downloads, its archive's upload and the deletes that follow. |
| Mover.MainLoopStep | script.py:101-122 | One pass of the main loop keeps all its invariants. An empty selection means the schedule is complete. Otherwise the segment and its calls join the processed part, and the byte total grows by the segment's size. |
| Mover.MainLoopExit | script.py:101-122 | When the loop stops, the processed segments are the whole schedule, and the calls made are safe. |
| Mover.Run | script.py:95-125 | The returned byte total is the total size of the segments `Schedule` processes. The trace grows by exactly `SegmentCalls` of each of those segments, in order. Every delete follows a successful upload of an archive with a member named after the key. Every upload is `DEEP_ARCHIVE` under the destination prefix. When the listing's keys round-trip, only objects of the processed segments are deleted. |

## Findings

| source | as written | input that shows it | evidently intended | confidence | as-written member | corrected member |
|---|---|---|---|---|---|---|
| script.py:42 | The local path joins the temporary directory with the rest of the key. A rest that starts with `/` replaces the directory, and line 77 then rebuilds a different key for deletion. | Prefix `u/`, directory `temp/`, key `u//abcdefgh`: downloaded to `/abcdefgh`, archived as `efgh`, and the unrelated, never archived object `u/efgh` is deleted. | Every download stays under the temporary directory, so the deleted key is the downloaded key. | medium, not executed | Paths.AbsoluteKeyRebuiltAsOther | Paths.IntendedKeyRoundTrip |

The rest of the model keeps the path as written, so that `Mover.Run` describes
the calls the script really makes. Its object-level guarantees are stated under
`Mover.ListingRoundTrips`. For round-tripping keys the written path is the
intended one (`Paths.LocalPathIsIntended`), so under that condition these
guarantees are exactly those of the corrected path.

## Left out

- `get_files_to_download` (script.py:18-24): boto3 pagination is network I/O. The listing is an input of `Mover.Run`. Of the three conditions of `Paths.RoundTrips`, only the first, that the key starts with the source prefix, is what the prefix listing guarantees. The other two, a temporary directory that ends in `/` and a rest of the key that does not start with `/`, are assumptions that the results needing them state as hypotheses.
- S3.Client.DownloadFile: it always succeeds, so only runs in which every download returns are modelled. In the script a raising `download_file` ends the process. The trace up to that point is a prefix of a modelled trace, and `S3.DeletesAuthorizedPrefix` shows that the safety property carries over to it.
- Mover.Run: its safety clause holds at the moment of each delete. It does not promise that the archive survives later uploads, and `Mover.SameDateArchivesShareKey` shows that it may not.
- Local paths that alias: `u/a//b` and `u/a/b`, or `u/x/../b` and `u/b`, name one local file. The model treats local paths as strings, not as files on a disk. It therefore does not capture that the second download overwrites the first, after which both originals are deleted while the archive holds only the second's bytes.
- `zipfile` member-name normalisation (script.py:66): `ZipFile.write` normalises the given name and strips leading separators. The model records `arcname` as computed on line 64, so for names that normalisation changes, the real member name differs from the modelled one.
- Exceptions from local file operations: `os.makedirs` (script.py:43, 96), the `zipfile` calls (script.py:61, 66) and `os.remove` in `cleanup_local_files` (script.py:86, 92). Any of them that raises ends the process, since nothing catches it. For example, with keys `u/a` and then `u/a/b`, the second `os.makedirs` finds the file `temp/a` and raises. The model covers only runs in which none of them raises, so `Mover.Run`, `Mover.RunCallsComplete` and `Mover.RunDeletesListing` promise nothing about the others. The calls made before such an exception are a prefix of a modelled run, and `S3.DeletesAuthorizedPrefix` carries the safety property over to them.
- `os.path.exists` and the local effects of `os.makedirs`, `os.remove` and `cleanup_local_files` (script.py:43, 83-93, 96): they touch only the local disk and issue no S3 call.
- `zipfile` compression (script.py:61, 66): an archive is reduced to its path and its (file, member name) pairs. No bytes are modelled.
- `datetime.strftime` (script.py:108-109): it is the function parameter `formatDate` of `Mover.Run`. `LastModified` is an integer, since it is only compared.
- The `total_size / 1e9` reporting and all `print` output (script.py:32, 56, 62, 65, 70, 75, 79, 81, 87, 89, 93, 98, 123, 125): floating-point formatting and console I/O.
- The segment budget is a parameter of `Mover.Config`. `Mover.Deployed` records the deployed value of 10 GiB, although the comment on script.py:11 says 1GB.
- A checkpoint, concurrent downloads, bulk deletes and typed errors: `script.py` has none of them.
