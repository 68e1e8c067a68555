# upload-tracks: export cache, track splitting, compression and batch export in Dafny

This project models the four pieces of sequential logic that `upload-tracks`
runs between a Logic Pro project on disk and a set of audio files ready for
upload. It proves what each piece promises.

- **Cached track export** (`lib/export/logic.ts`). `exportTracks` reads the
  project's `MetaData.plist`, drops the "Smart Tempo Multitrack Set" entries
  of its `AudioFiles` and joins the rest under `Media`. It then validates the
  directory cached in `localStorage` for the project. The check uses
  `directoryHasFiles`, a multiset comparison of extension-stripped names built
  on the counting map `MapCounter`. On a miss it empties the stale directory,
  forgets the key, transcodes every source into a fresh temporary directory,
  and records that directory only when every transcode succeeded.
- **Track segmentation** (`splitTrack` in `src/utils.ts`). A track longer than
  the maximum duration is cut into `ceil(duration / max)` contiguous segments
  of equal length. Segment *n* is written to `dir/name + suffix(n) + ext`. The
  default suffix is `" Part n"`.
- **Size-ceiling compression** (`compressProjectFiles` in `src/project.ts`).
  Every file over the ceiling is transcoded next to itself. The transcode
  replaces the original when it fits. Otherwise the transcode is deleted and
  the file is left out of the result.
- **Batch export** (`exportDocuments` in `src/export/index.ts`). Documents are
  exported one after another. A failing export is skipped. Results are keyed
  by project name, so the last document of a name wins, except that a
  document named `__proto__` is dropped: assigning that key on a plain
  object stores nothing. Each recorded
  directory is then listed into a `{name, files}` project.

The modules follow the source files:

| module | file | models |
|---|---|---|
| `Wrappers` | `wrappers.dfy` | `Option`, `Result` |
| `Paths` | `paths.dfy` | the POSIX `path.parse`, `path.join` and `path.resolve` the code uses |
| `Counting` | `map_counter.dfy` | `MapCounter` (a class over a `map` field) and `arraysHaveSameValues` |
| `ExportLogic` | `export_logic.dfy` | the rest of `lib/export/logic.ts` |
| `SplitTrack` | `split_track.dfy` | `splitTrack` and its default suffix |
| `ProjectFiles` | `project.dfy` | `Project` and `compressProjectFiles` |
| `BatchExport` | `export_documents.dfy` | `exportDocuments` |

The outside world enters as parameters:

- the metadata reader: a function from path to `Unreadable`, `Undefined` or `Loaded(audioFiles)`;
- ffmpeg: a predicate telling which sources transcode without throwing;
- ffprobe: the duration, a `real`;
- `fs.stat`: size functions;
- the exporter and `fs.readdir`: functions returning `Option`;
- `Deno.makeTempDir`: the name of the directory it creates.

The filesystem (directory path to entries) and the `localStorage` cache are
the fields of `ExportLogic.Environment`, which `ExportTracks` updates in place.
The loops are `method`s proved against left folds: `WriteOutputs` and
`FirstFailure` for the transcode loop, `Compress`, `ExportsOf` and `Plan`.
`ExportTracks` as a whole is proved against `ExportTracksSpec`, a function of
the state before the call. Lemmas relate the folds to independent per-item
references (`Survivors`, `LastExport`) and relate `ExportTracksSpec` to later
calls (idempotence of the cache).

Three behaviours of the code are worth stating outright:

- `exportTracks` names each output by the plain `path.parse` name of its
  source and has no check for two sources with one name
  (`lib/export/logic.ts:155-160`). `DuplicateNamesDefeatCache` proves the
  consequence. Two sources of one name overwrite each other in the temporary
  directory, so the recorded directory never validates, and every later
  export transcodes everything again.
- `compressProjectFiles` leaves out of the result a file whose transcode is
  still over the ceiling (`src/project.ts:34-37`).
- A stale cache directory is only emptied with `emptyDir`
  (`lib/export/logic.ts:149`); it is not deleted, so it stays, empty.

## Model

| member | source | states |
|---|---|---|
| `Counting.MapCounter.constructor` | lib/export/logic.ts:47-48 | a new counter holds no counts |
| `Counting.MapCounter.Size` | lib/export/logic.ts:50-52 | the size is the number of items whose count is non-zero, and is 0 exactly when every count is 0 |
| `Counting.MapCounter.Count` | lib/export/logic.ts:54-56 | an item absent from the map counts 0, and a stored item counts its stored, non-zero value |
| `Counting.MapCounter.Add` | lib/export/logic.ts:58-66 | returns the previous count plus `step`; the item's count moves by `step`, no other count changes, a count reaching 0 removes its key, and no zero count is ever stored |
| `Counting.MapCounter.Delete` | lib/export/logic.ts:68-70 | behaves as `Add(item, -step)`: returns the previous count minus `step` and lowers only that item's count |
| `Counting.Bumped` | lib/export/logic.ts:58-66 | the map after one add changes only the item's count, by `step`, keeps the no-zero-entry invariant and adds no key but the item |
| `Counting.EmptyIffAllZero` | lib/export/logic.ts:50-52 | with no zero entries stored, the map is empty exactly when every item counts 0, so `size === 0` tests multiset equality |
| `Counting.ArraysHaveSameValues` | lib/export/logic.ts:73-85 | true exactly when the arrays are equal as multisets; false whenever their lengths differ |
| `ExportLogic.AudioFileExtension.Suffix` | lib/export/logic.ts:13-20 | every extension is a dot followed by a dot-free, separator-free tail |
| `ExportLogic.IsIgnored` | lib/export/logic.ts:128-130 | the ignore test: an entry is dropped when "Smart Tempo Multitrack Set" occurs anywhere in it, as the unanchored regular expression matches by substring |
| `ExportLogic.MediaPath` | lib/export/logic.ts:131-133 | `path.join(projectDirPath, "Media", audioFilePath)`, as two joins |
| `ExportLogic.SourcePaths` | lib/export/logic.ts:127-133 | the `filter`/`map` chain: each manifest entry that does not contain the ignore pattern becomes `project/Media/<entry>`, in manifest order; its lemmas below state membership and order |
| `ExportLogic.SourcePathsMembers` | lib/export/logic.ts:127-133 | a path is a source exactly when it is `project/Media/<entry>` for a manifest entry that does not contain the ignore pattern; there are no more sources than entries |
| `ExportLogic.SourcePathsAppend` | lib/export/logic.ts:127-133 | filtering and joining work entry by entry, so sources keep manifest order |
| `ExportLogic.FilesIn` | lib/export/logic.ts:92-96 | the walk with `includeDirs: false` and `maxDepth: 1`: the directory joined with each file entry of its listing, in listing order, with subdirectories skipped |
| `ExportLogic.Names` | lib/export/logic.ts:97-99 | one extension-stripped base name per path, in order (`path.parse(path).name`) |
| `ExportLogic.HasFiles` | lib/export/logic.ts:87-104 | the validation policy `DirectoryHasFiles` decides: the directory exists and the names of its top-level files equal, as a multiset, the names of the expected paths |
| `ExportLogic.DirectoryHasFiles` | lib/export/logic.ts:87-104 | true exactly when the directory exists and the names of its top-level files equal, as a multiset, the names of the expected files; a missing directory gives false |
| `ExportLogic.FirstFailureIsEarliest` | lib/export/logic.ts:155-171 | the transcode stage fails exactly when some source does not transcode, and the failure reported is the earliest such source |
| `ExportLogic.CachedDir` | lib/export/logic.ts:135-136 | `localStorage.getItem(projectDirPath)`, with a missing key read as the falsy `""` the `if (cachedDirPath)` test rejects |
| `ExportLogic.ExportTracksSpec` | lib/export/logic.ts:106-175 | the whole call as a function of the state before it: metadata failure, the empty-`AudioFiles` error, the cache hit, and on a miss the emptied stale directory and forgotten key followed by `Reexport`; the lemmas below prove its promises |
| `ExportLogic.Reexport` | lib/export/logic.ts:153-174 | a miss: `tempDir` created empty, every source transcoded into it, then `tempDir` removed and the first failure reported, or `tempDir` recorded under the project and returned |
| `ExportLogic.TranscodeAll` | lib/export/logic.ts:156-167 | the loop over the sources writes what `WriteOutputs` writes and reports the first failure |
| `ExportLogic.TranscodeStep` | lib/export/logic.ts:157-165 | one more source writes its `name + extension` into the directory when it transcodes, and becomes the failure when it is the first not to |
| `ExportLogic.WriteFile` | lib/export/logic.ts:159-160 | ffmpeg's `-y` write of `name + extension` into the directory: the file is added to the listing, or the listing is left as it is when the file is already there |
| `ExportLogic.WriteOutputs` | lib/export/logic.ts:156-167 | the filesystem after each source that transcodes, in order, has written `name + extension` into the temporary directory with `WriteFile` |
| `ExportLogic.FirstFailure` | lib/export/logic.ts:156-171 | the first source, in order, whose ffmpeg call throws, or none when every call succeeds; `FirstFailureIsEarliest` characterises it |
| `ExportLogic.WriteOutputsListing` | lib/export/logic.ts:156-167 | the emptied temporary directory ends up listing one file per distinct written name, in order, and the written names have no duplicates |
| `ExportLogic.WriteOutputsFrame` | lib/export/logic.ts:156-167 | transcoding into one directory leaves every other directory as it was |
| `ExportLogic.WrittenNamesAll` | lib/export/logic.ts:156-167 | when every source transcodes and the source names are distinct, the names written are the source names in order |
| `ExportLogic.WrittenNamesFrom` | lib/export/logic.ts:158-159 | every written name is the name of some source |
| `ExportLogic.RecordedDirValidates` | lib/export/logic.ts:153-167 | when every source transcodes and the source names are distinct and non-empty, the temporary directory passes `directoryHasFiles` |
| `ExportLogic.RecordedDirRejected` | lib/export/logic.ts:153-167 | when two sources share a name, the temporary directory never passes `directoryHasFiles` |
| `ExportLogic.ReexportRecordsValidDir` | lib/export/logic.ts:153-174 | a successful re-export of distinct, non-empty names returns and records the temporary directory, which validates |
| `ExportLogic.ReexportRecordsRejectedDir` | lib/export/logic.ts:153-174 | a successful re-export of sources with a repeated name returns and records the temporary directory, which does not validate |
| `ExportLogic.ReexportFrame` | lib/export/logic.ts:153-174 | a re-export changes no other project's cache entry and no directory other than the temporary one |
| `ExportLogic.AudioFilesCheckedBeforeFilter` | lib/export/logic.ts:110-125 | "AudioFiles not found" is raised exactly when the metadata is undefined or lists no audio file, before any filtering; a metadata failure changes neither cache nor filesystem and transcodes nothing |
| `ExportLogic.CacheHitReused` | lib/export/logic.ts:135-144 | a cached directory that validates is returned unchanged, with no transcoding and no change to cache or filesystem |
| `ExportLogic.CacheMissTranscodesAll` | lib/export/logic.ts:135-167 | when the cached directory does not validate, every source is handed to ffmpeg |
| `ExportLogic.StaleCacheEvicted` | lib/export/logic.ts:145-151 | an invalid cached directory is emptied and its key removed before re-export; the key then names the new directory on success and is absent on failure |
| `ExportLogic.FailedExportLeavesNoEntry` | lib/export/logic.ts:168-171 | a failed export reports a source that does not transcode, removes the temporary directory and leaves no cache entry for the project |
| `ExportLogic.SuccessfulExportRecorded` | lib/export/logic.ts:173-174 | a successful export into the temporary directory required every source to transcode, handed all of them to ffmpeg, kept the directory and recorded it for the project |
| `ExportLogic.ExportFrame` | lib/export/logic.ts:106-175 | an export touches only its own project's cache key and only the cached and the temporary directories |
| `ExportLogic.ExportIsIdempotent` | lib/export/logic.ts:106-175 | after a successful export of distinct, non-empty source names, the same export again is a cache hit that returns the same directory and changes nothing |
| `ExportLogic.DuplicateNamesDefeatCache` | lib/export/logic.ts:106-175 | after a successful export of sources with a repeated name, the recorded directory does not validate and the next export transcodes every source again |
| `ExportLogic.DuplicateNamesRecordRejectedDir` | lib/export/logic.ts:135-174 | a successful export of sources with a repeated name records the temporary directory, whose contents do not validate |
| `ExportLogic.Environment.ExportTracks` | lib/export/logic.ts:106-175 | returns, and leaves in the cache and the filesystem, what `ExportTracksSpec` gives for the state before the call; the lemmas above state what that is |
| `ExportLogic.Environment.ExportIntoTempDir` | lib/export/logic.ts:153-174 | empties `tempDir`, transcodes into it, removes it on failure and records it on success, as `Reexport` gives |
| `Paths.NameOfJoin` | lib/export/logic.ts:158-159 | a transcode written to `dir/name + extension` reads back, through `path.parse` when the directory is validated, as `name` with that extension, when the name has no separator and the extension is a single dotted suffix |
| `Paths.ResolveAbsolute` | src/export/index.ts:20 | against an absolute working directory every document resolves to an absolute path |
| `SplitTrack.Ceil` | src/utils.ts:73 | `Math.ceil`: the least integer not below its argument |
| `SplitTrack.DefaultSuffix` | src/utils.ts:64 | the default suffix of segment n is " Part " followed by the decimal digits of n, which read back as n and have no leading zero, so it is exactly `" Part n"` |
| `SplitTrack.NatToStringNoLeadingZero` | src/utils.ts:64 | a printed segment number starts with `0` only when it is 0: there are no leading zeros |
| `SplitTrack.NatToStringRoundTrip` | src/utils.ts:64 | the segment number printed in the default suffix reads back as the same number |
| `SplitTrack.DefaultSuffixInjective` | src/utils.ts:64 | different segment numbers get different default suffixes |
| `SplitTrack.SegmentPath` | src/utils.ts:82 | the output of segment n: the source's directory joined with `name + suffix(n) + ext` |
| `SplitTrack.SegmentFileName` | src/utils.ts:82 | a segment is written into the source's directory, under the file name `name + suffix(n) + ext` |
| `SplitTrack.SegmentPathsDiffer` | src/utils.ts:82 | segments with different suffixes are written to different paths |
| `SplitTrack.DefaultSegmentPathsDistinct` | src/utils.ts:64-82 | with the default suffix, no two segments of a track share an output path |
| `SplitTrack.SegmentCountBounds` | src/utils.ts:73-74 | for a positive maximum shorter than the track, there are at least two segments, each no longer than the maximum |
| `SplitTrack.BoundaryIsMultiple` | src/utils.ts:77-88 | chaining `start = end` over `k` segments reaches `k` segment lengths |
| `SplitTrack.LastBoundary` | src/utils.ts:73-88 | the last of `count` equal segments ends exactly at the duration |
| `SplitTrack.Boundary` | src/utils.ts:77-87 | where segment `k + 1` starts: `start = end` applied `k` times from 0 |
| `SplitTrack.Plan` | src/utils.ts:76-88 | the first `k` segments the loop asks ffmpeg for, in order: segment n numbered n, from boundary n - 1 to boundary n, at its segment path |
| `SplitTrack.PlanSegmentAt` | src/utils.ts:77-88 | segment n is numbered n, runs from boundary n - 1 to boundary n and is written to its segment path |
| `SplitTrack.PlanSegments` | src/utils.ts:76-90 | the loop yields `count` segments in order, numbered from 1, each of the segment length, the first starting at 0 and each starting where the previous ended, with outputs equal to their paths |
| `SplitTrack.SplitTrack` | src/utils.ts:58-91 | a track within the maximum comes back as itself; a longer one is cut into `ceil(duration / max)` segments (none when that is not positive), at least two for a positive maximum, of equal length `duration / count` not above a positive maximum, contiguous from 0 to the duration, the n-th written to `dir/name + suffix(n) + ext` |
| `ProjectFiles.CompressedPath` | src/project.ts:24-25 | the transcode target: the source's directory joined with the source's name and the compressed extension |
| `ProjectFiles.CompressedFileName` | src/project.ts:24-25 | the transcode sits beside its source, under the source's name with the new extension |
| `ProjectFiles.Step` | src/project.ts:17-37 | one pass of the loop: a small file is pushed; an oversized one is transcoded, then the transcode is pushed and the original removed when it fits, or the transcode is removed; a throwing conversion stops everything |
| `ProjectFiles.Compress` | src/project.ts:17-38 | the loop over the files, in order, as the fold of `Step` from an empty project |
| `ProjectFiles.CompressProjectFiles` | src/project.ts:10-41 | the project keeps its name and gets the files the loop keeps; the removals are those the loop makes; a conversion that throws rejects the call with that file |
| `ProjectFiles.CompressWithoutFailure` | src/project.ts:17-40 | when no conversion throws, the result is exactly the per-file survivors in input order, and the removals are exactly the per-file removals |
| `ProjectFiles.CompressStopsAtFailure` | src/project.ts:17-40 | the first conversion that throws ends the loop; what was kept and removed before it stays, and no later file is looked at |
| `ProjectFiles.FirstFailureExists` | src/project.ts:24-29 | when some conversion throws, there is a first one |
| `ProjectFiles.FailureSticks` | src/project.ts:26-29 | once a conversion has thrown, later files change nothing |
| `ProjectFiles.Survivors` | src/project.ts:17-40 | the result is never longer than the input |
| `ProjectFiles.SurvivorsAppend` | src/project.ts:17-40 | survivors are taken file by file, so they keep input order |
| `ProjectFiles.SurvivorsMembers` | src/project.ts:17-38 | a path is in the result exactly when some input file leaves it there |
| `ProjectFiles.SurvivorsFit` | src/project.ts:18-33 | every path in the result is within the ceiling, by its own size or by the size of its transcode |
| `ProjectFiles.SmallFileKept` | src/project.ts:18-22 | a file within the ceiling stays at its original path |
| `ProjectFiles.CompressedFileKept` | src/project.ts:24-33 | an oversized file whose transcode fits is replaced by `dir/name + extension`, and the original is removed |
| `ProjectFiles.OversizedFileDropped` | src/project.ts:34-37 | an oversized file whose transcode is still too large leaves nothing in the result, and the transcode is removed |
| `ProjectFiles.RemovalsMembers` | src/project.ts:30-37 | every removal a file calls for is made |
| `ProjectFiles.RemovalsOnlyFrom` | src/project.ts:30-37 | the loop removes only files that some input file calls for |
| `ProjectFiles.KeptFilesNotRemoved` | src/project.ts:17-38 | when no transcode lands on a file of the project and no two transcodes share a path, no path of the result is among the removed files |
| `BatchExport.Lookup` | src/export/index.ts:24 | reading `exports[name]`: the directory of the entry of that name, or none |
| `BatchExport.Record` | src/export/index.ts:17-24 | `exports[name] = dir` on the plain `{}`: overwrites the entry of that name in place, keeping its position, or appends a new entry at the end; for the key `__proto__` the inherited setter ignores the string and nothing changes |
| `BatchExport.IndexOf` | src/export/index.ts:24 | the entry found for a name is the first with that name; none is found only when no entry has it |
| `BatchExport.RecordLookup` | src/export/index.ts:17-24 | after `exports[name] = dir`, `name` reads `dir` and every other name reads what it did before; after assigning `__proto__`, every name reads what it did before |
| `BatchExport.RecordUnique` | src/export/index.ts:24 | assigning a key keeps the keys unique and adds an entry only for a new name other than `__proto__` |
| `BatchExport.ExportStep` | src/export/index.ts:19-27 | one pass of the loop: the path resolved against the working directory is exported, and its directory is recorded under `path.parse(absPath).name` unless the export rejects |
| `BatchExport.ExportsOf` | src/export/index.ts:17-28 | the record after the loop over the documents, in order, as the fold of `ExportStep` from `{}` |
| `BatchExport.LastExport` | src/export/index.ts:19-28 | the reference: the directory of the last document of a name whose export succeeded, with documents named `__proto__` skipped |
| `BatchExport.ExportsUnique` | src/export/index.ts:17-28 | the record has one entry per name and no more entries than documents |
| `BatchExport.ExportsLookup` | src/export/index.ts:19-28 | each name reads the directory of the last document of that name whose export succeeded, and `__proto__` reads nothing |
| `BatchExport.LastExportSome` | src/export/index.ts:19-28 | a name has an entry exactly when it is not `__proto__` and some document of that name exported successfully |
| `BatchExport.ProtoKeyNeverRecorded` | src/export/index.ts:17-31 | no entry is ever named `__proto__`: assigning that key on the plain `{}` runs the inherited setter, which ignores a string, so `Object.entries` never lists it |
| `BatchExport.RejectedDocumentIgnored` | src/export/index.ts:23-27 | a document whose export throws can be dropped from the input without changing the record |
| `BatchExport.JoinAll` | src/export/index.ts:35 | a project's files are its directory joined with each listed entry, in listing order |
| `BatchExport.ProjectsOf` | src/export/index.ts:30-40 | the projects built from the record entry by entry, in order, each named by its key with its joined listing; `None` when any `readdir` rejects |
| `BatchExport.ProjectsOfEntries` | src/export/index.ts:30-40 | the projects are built exactly when every recorded directory can be listed; the i-th is named by the i-th key and holds its directory's joined listing |
| `BatchExport.ExportDocuments` | src/export/index.ts:13-43 | the exporter is called once per document, in order, on the resolved path; the projects are those built from the fold of the record over the documents |
| `BatchExport.ProjectsAtMostDocuments` | src/export/index.ts:17-42 | there are never more projects than documents |

## Left out

- ffmpeg and ffprobe are not run. A transcode is an oracle predicate (it throws or it does not), sizes are oracle functions, and a duration is a given `real`. Nothing models what an output file contains.
- A transcode that exits with a non-zero status is modelled as a throw, because the shell helper `$` throws on a failed exit unless told not to. The branch that logs `stderr` on a failed exit (`lib/export/logic.ts:163-165`) is therefore never reached and is not modelled.
- ProjectFiles.CompressProjectFiles: sizes are read from oracles fixed before the loop, so a transcode target that is itself a file of the project, or the target of another file, is not modelled. In the source, `ffmpeg -y` overwrites such a file and `fs.remove` can later delete it, so the returned project can list a file that no longer exists or no longer fits. `KeptFilesNotRemoved` states the result is sound only when no transcode lands on a path of the project.
- `getTrackDuration` (`src/utils.ts:45-49`) and `parseFloat` are not modelled. The duration is a parameter, and IEEE rounding, `NaN` and infinities are not modelled.
- SplitTrack: the segment extractions cannot fail in the model. In the source, a failing `ffmpeg` call rejects the whole `Promise.all`.
- SplitTrack: a zero maximum with a positive duration is excluded. On it the source's loop never ends, because `Math.ceil(duration / 0)` is infinite.
- `Promise.all` in `exportTracks`, `splitTrack` and `exportDocuments` is modelled as a sequential loop in input order. The reported transcode failure is the first failing source in that order, not the first to fail in time. Writes by other transcodes still running after the rejection are not modelled.
- `Deno.makeTempDir` is a parameter, `tempDir`. The model empties the named directory first. The lemmas about repeated exports assume it differs from the cached directory, as a fresh directory does.
- The plist reader is a function of the metadata path, and its parse is not modelled. The regular expression is an unanchored literal and is modelled as substring containment.
- `$.fs.walk` failures other than a missing directory are not modelled. Subdirectories count as non-files, and the walk goes one level deep.
- `emptyDir` is modelled as replacing the directory's listing by the empty one. Deleting nested directories below it is not modelled.
- `Deno.remove(dirPath, { recursive: true })` is modelled as removing the directory's entry. Nested contents are not modelled.
- Paths: normalisation of `.`/`..` segments, repeated and trailing separators, and Windows paths is not modelled. `path.resolve` is modelled as joining a relative path onto the working directory.
- BatchExport.ProjectsOfEntries: `Object.entries` lists integer-like keys first, in numeric order. The model keeps insertion order for every key.
- BatchExport.ExportDocuments: a failing `fs.readdir` rejects the whole call, which the model returns as `None`. Logging of swallowed exporter errors is not modelled.
- `fs.stat` failures, and `fs.remove` failures in `compressProjectFiles`, are not modelled.
- `console`, `log` and `logAction` output are not modelled. `logAction` is modelled only as passing a thrown conversion through.
- The `@kvs` store `exportCache` (`src/export/index.ts:6-9`), which the Logic exporter `exportTracksFromLogic` reads and writes, and the `localStorage` versioning are not modelled. The cache is a plain `map<string, string>`, and a missing key reads as the falsy `""`.
- Browser upload scripting, keystroke-driven export from Logic, the CLI and the cache `clear`/`list` commands are not modelled. They are I/O wiring with no state of their own.
