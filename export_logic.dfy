/**
 * The cached track export of `lib/export/logic.ts`: the source audio files of
 * a Logic project are read from its metadata, a cached export directory is
 * validated against them, and on a miss every source is transcoded into a
 * fresh temporary directory that is then recorded in the key-value cache.
 *
 * The external world is passed in: the metadata reader (`plist`) is a
 * function from path to parsed result, ffmpeg is a predicate telling which
 * sources transcode successfully (the shell helper throws on a non-zero exit
 * status, so a failed transcode rejects and the branch that would log a
 * failed exit is never reached), the temporary directory the system creates
 * is a parameter, and the filesystem and the `localStorage` cache are fields
 * of an `Environment` object that the export updates in place.
 */
module ExportLogic {
  import opened Wrappers
  import opened Paths
  import Counting

  const ProjectMetaDataPath: string := "Alternatives/000/MetaData.plist"
  /** The one ignore pattern; it is an unanchored literal, so it matches by substring. */
  const IgnoredAudioFilesPattern: string := "Smart Tempo Multitrack Set"
  const ProjectMediaDirPath: string := "Media"
  const CachedDirPrefix: string := "uptrks"

  datatype AudioFileExtension = MP3 | MP4 | WAV | AAC | M4A | OGG
  {
    /** The file extension written for this format: a dot and a dot-free, separator-free tail. */
    function Suffix(): (s: string)
      ensures |s| >= 2 && s[0] == '.' && '.' !in s[1..] && Separator !in s
    {
      match this
      case MP3 => ".mp3"
      case MP4 => ".mp4"
      case WAV => ".wav"
      case AAC => ".aac"
      case M4A => ".m4a"
      case OGG => ".ogg"
    }
  }

  /** What reading the metadata plist yields: a read error, nothing, or a record with its `AudioFiles`. */
  datatype MetaData = Unreadable | Undefined | Loaded(audioFiles: seq<string>)

  datatype ExportError =
    | MetaDataUnreadable          // the plist reader reported an error
    | AudioFilesNotFound          // "AudioFiles not found"
    | TranscodeFailed(source: string)

  /** An entry of a directory listing. */
  datatype Entry = File(name: string) | Folder(name: string)

  /** Each directory that exists, by path, with its immediate entries in listing order. */
  type FileSystem = map<string, seq<Entry>>

  // ---------------------------------------------------------------------------
  // Source paths

  predicate OccursAt(s: string, pattern: string, i: nat)
  {
    i + |pattern| <= |s| && s[i..i + |pattern|] == pattern
  }

  predicate Contains(s: string, pattern: string)
  {
    exists i: nat | i <= |s| :: OccursAt(s, pattern, i)
  }

  predicate IsIgnored(audioFile: string)
  {
    Contains(audioFile, IgnoredAudioFilesPattern)
  }

  /** `path.join(projectDirPath, "Media", audioFilePath)`. */
  function MediaPath(projectDirPath: string, audioFile: string): string
  {
    Join(Join(projectDirPath, ProjectMediaDirPath), audioFile)
  }

  /** The `filter`/`map` chain over the metadata's `AudioFiles`. */
  function SourcePaths(projectDirPath: string, audioFiles: seq<string>): seq<string>
  {
    if audioFiles == [] then []
    else
      (if IsIgnored(audioFiles[0]) then [] else [MediaPath(projectDirPath, audioFiles[0])])
      + SourcePaths(projectDirPath, audioFiles[1..])
  }

  /** Filtering and joining commute with concatenation, so manifest order is kept. */
  lemma {:induction false} SourcePathsAppend(projectDirPath: string, a: seq<string>, b: seq<string>)
    ensures SourcePaths(projectDirPath, a + b) == SourcePaths(projectDirPath, a) + SourcePaths(projectDirPath, b)
  {
    if a != [] {
      assert (a + b)[1..] == a[1..] + b;
      SourcePathsAppend(projectDirPath, a[1..], b);
    } else {
      assert a + b == b;
    }
  }

  /**
   * A path is a source exactly when it is `project/Media/<entry>` for a
   * manifest entry that does not contain the ignore pattern; there are never
   * more sources than entries.
   */
  lemma {:induction false} SourcePathsMembers(projectDirPath: string, audioFiles: seq<string>, p: string)
    ensures |SourcePaths(projectDirPath, audioFiles)| <= |audioFiles|
    ensures p in SourcePaths(projectDirPath, audioFiles) <==>
              exists i :: 0 <= i < |audioFiles| && !IsIgnored(audioFiles[i]) && p == MediaPath(projectDirPath, audioFiles[i])
  {
    if audioFiles != [] {
      var tail := audioFiles[1..];
      SourcePathsMembers(projectDirPath, tail, p);
      if exists i :: 0 <= i < |tail| && !IsIgnored(tail[i]) && p == MediaPath(projectDirPath, tail[i]) {
        var i :| 0 <= i < |tail| && !IsIgnored(tail[i]) && p == MediaPath(projectDirPath, tail[i]);
        assert audioFiles[i + 1] == tail[i];
      }
      if exists i :: 0 <= i < |audioFiles| && !IsIgnored(audioFiles[i]) && p == MediaPath(projectDirPath, audioFiles[i]) {
        var i :| 0 <= i < |audioFiles| && !IsIgnored(audioFiles[i]) && p == MediaPath(projectDirPath, audioFiles[i]);
        if i > 0 {
          assert tail[i - 1] == audioFiles[i];
        }
      }
    }
  }

  // ---------------------------------------------------------------------------
  // Cache validation

  /** The top-level files of a directory listing, as paths (`walk` with `maxDepth: 1`, no directories). */
  function FilesIn(dir: string, entries: seq<Entry>): seq<string>
  {
    if entries == [] then []
    else (if entries[0].File? then [Join(dir, entries[0].name)] else []) + FilesIn(dir, entries[1..])
  }

  /** The extension-stripped base names of some paths (`path.parse(path).name`). */
  function Names(paths: seq<string>): (names: seq<string>)
    ensures |names| == |paths|
  {
    if paths == [] then [] else [Name(paths[0])] + Names(paths[1..])
  }

  lemma {:induction false} NamesAt(paths: seq<string>, k: nat)
    requires k < |paths|
    ensures Names(paths)[k] == Name(paths[k])
  {
    if k > 0 {
      NamesAt(paths[1..], k - 1);
    }
  }

  lemma {:induction false} NamesAppend(a: seq<string>, b: seq<string>)
    ensures Names(a + b) == Names(a) + Names(b)
  {
    if a == [] {
      assert a + b == b;
    } else {
      assert (a + b)[1..] == a[1..] + b;
      NamesAppend(a[1..], b);
    }
  }

  /**
   * The validation policy: the directory exists and the names of its
   * top-level files equal the names of the expected paths as multisets.
   */
  predicate HasFiles(fs: FileSystem, dir: string, filePaths: seq<string>)
  {
    dir in fs && multiset(Names(FilesIn(dir, fs[dir]))) == multiset(Names(filePaths))
  }

  /** `directoryHasFiles`: a missing directory (the walk throws) yields false. */
  method DirectoryHasFiles(fs: FileSystem, dirPath: string, filePaths: seq<string>) returns (r: bool)
    ensures r <==> HasFiles(fs, dirPath, filePaths)
    ensures dirPath !in fs ==> !r
  {
    if dirPath !in fs {
      return false;
    }
    var dirFileNames := Names(FilesIn(dirPath, fs[dirPath]));
    var fileNames := Names(filePaths);
    r := Counting.ArraysHaveSameValues(dirFileNames, fileNames);
  }

  // ---------------------------------------------------------------------------
  // Transcoding into the temporary directory

  /** Writing (or, with `-y`, overwriting) file `fileName` in `dir`. */
  function WriteFile(fs: FileSystem, dir: string, fileName: string): FileSystem
  {
    var entries := if dir in fs then fs[dir] else [];
    if File(fileName) in entries then fs else fs[dir := entries + [File(fileName)]]
  }

  /** The filesystem after every source that transcodes has written `name + extension` into `dir`. */
  function WriteOutputs(fs: FileSystem, dir: string, sources: seq<string>, ext: AudioFileExtension,
                        transcodes: string -> bool): FileSystem
    decreases |sources|
  {
    if sources == [] then fs
    else
      var before := WriteOutputs(fs, dir, sources[..|sources| - 1], ext, transcodes);
      var source := sources[|sources| - 1];
      if transcodes(source) then WriteFile(before, dir, Name(source) + ext.Suffix()) else before
  }

  /** Every source transcodes: `Promise.all` resolves. */
  predicate AllTranscode(sources: seq<string>, transcodes: string -> bool)
  {
    forall i :: 0 <= i < |sources| ==> transcodes(sources[i])
  }

  /** The first source, in order, whose transcode throws. */
  function FirstFailure(sources: seq<string>, transcodes: string -> bool): Option<string>
    decreases |sources|
  {
    if sources == [] then None
    else
      var before := FirstFailure(sources[..|sources| - 1], transcodes);
      var source := sources[|sources| - 1];
      if before.Some? then before
      else if !transcodes(source) then Some(source)
      else None
  }

  /**
   * There is a failure exactly when some source does not transcode, and the
   * one reported is the earliest such source.
   */
  lemma {:induction false} FirstFailureIsEarliest(sources: seq<string>, transcodes: string -> bool)
    ensures FirstFailure(sources, transcodes).None? <==> AllTranscode(sources, transcodes)
    ensures FirstFailure(sources, transcodes).Some? ==>
              exists k :: 0 <= k < |sources| && FirstFailure(sources, transcodes).value == sources[k]
                          && !transcodes(sources[k]) && forall j :: 0 <= j < k ==> transcodes(sources[j])
    decreases |sources|
  {
    if sources != [] {
      var prefix := sources[..|sources| - 1];
      FirstFailureIsEarliest(prefix, transcodes);
      assert forall j :: 0 <= j < |prefix| ==> prefix[j] == sources[j];
    }
  }

  // ---------------------------------------------------------------------------
  // The whole export as a function of the state before it

  /** What one `exportTracks` call returns and leaves behind, and which sources it hands to ffmpeg. */
  datatype Outcome = Outcome(result: Result<string, ExportError>, cache: map<string, string>,
                             fs: FileSystem, transcoded: seq<string>)

  /** `localStorage.getItem(key)`, with a missing key read as the falsy "". */
  function CachedDir(cache: map<string, string>, key: string): string
  {
    if key in cache then cache[key] else ""
  }

  function ExportTracksSpec(cache: map<string, string>, fs: FileSystem, projectDirPath: string,
                            ext: AudioFileExtension, plist: string -> MetaData, tempDir: string,
                            transcodes: string -> bool): Outcome
  {
    match plist(Join(projectDirPath, ProjectMetaDataPath))
    case Unreadable => Outcome(Failure(MetaDataUnreadable), cache, fs, [])
    case Undefined => Outcome(Failure(AudioFilesNotFound), cache, fs, [])
    case Loaded(audioFiles) =>
      if |audioFiles| == 0 then Outcome(Failure(AudioFilesNotFound), cache, fs, [])
      else
        var sources := SourcePaths(projectDirPath, audioFiles);
        var cached := CachedDir(cache, projectDirPath);
        if cached != "" && HasFiles(fs, cached, sources) then Outcome(Success(cached), cache, fs, [])
        else
          var cache1 := if cached != "" then cache - {projectDirPath} else cache;
          var fs1 := if cached != "" then fs[cached := []] else fs;
          Reexport(cache1, fs1, projectDirPath, sources, ext, tempDir, transcodes)
  }

  /** A cache miss: transcode every source into the emptied `tempDir`; record it only if none threw. */
  function Reexport(cache: map<string, string>, fs: FileSystem, projectDirPath: string, sources: seq<string>,
                    ext: AudioFileExtension, tempDir: string, transcodes: string -> bool): Outcome
  {
    var written := WriteOutputs(fs[tempDir := []], tempDir, sources, ext, transcodes);
    match FirstFailure(sources, transcodes)
    case Some(source) => Outcome(Failure(TranscodeFailed(source)), cache, written - {tempDir}, sources)
    case None => Outcome(Success(tempDir), cache[projectDirPath := tempDir], written, sources)
  }

  /**
   * The `Promise.all` over the sources, taken in order: every source is
   * transcoded, the successful ones are written into `dir`, and the first
   * failure is remembered.
   */
  method TranscodeAll(fs: FileSystem, dir: string, sources: seq<string>, ext: AudioFileExtension,
                      transcodes: string -> bool)
    returns (written: FileSystem, failed: Option<string>)
    ensures written == WriteOutputs(fs, dir, sources, ext, transcodes)
    ensures failed == FirstFailure(sources, transcodes)
  {
    written, failed := fs, None;
    var i := 0;
    while i < |sources|
      invariant 0 <= i <= |sources|
      invariant written == WriteOutputs(fs, dir, sources[..i], ext, transcodes)
      invariant failed == FirstFailure(sources[..i], transcodes)
    {
      var path := sources[i];
      TranscodeStep(fs, dir, sources, i, ext, transcodes);
      if transcodes(path) {
        written := WriteFile(written, dir, Name(path) + ext.Suffix());
      } else if failed.None? {
        failed := Some(path);
      }
      i := i + 1;
    }
    assert sources[..i] == sources;
  }

  /** One more source: its output is written if it transcodes, and it is the first failure if none came before. */
  lemma TranscodeStep(fs: FileSystem, dir: string, sources: seq<string>, i: nat, ext: AudioFileExtension,
                      transcodes: string -> bool)
    requires i < |sources|
    ensures var before := WriteOutputs(fs, dir, sources[..i], ext, transcodes);
            WriteOutputs(fs, dir, sources[..i + 1], ext, transcodes) ==
            if transcodes(sources[i]) then WriteFile(before, dir, Name(sources[i]) + ext.Suffix()) else before
    ensures var failed := FirstFailure(sources[..i], transcodes);
            FirstFailure(sources[..i + 1], transcodes) ==
            if failed.Some? then failed else if !transcodes(sources[i]) then Some(sources[i]) else None
  {
    var prefix := sources[..i + 1];
    assert prefix[..|prefix| - 1] == sources[..i] && prefix[|prefix| - 1] == sources[i];
  }

  // ---------------------------------------------------------------------------
  // What the transcodes leave in the temporary directory

  predicate NoDup<T(==)>(s: seq<T>)
  {
    forall i, j :: 0 <= i < j < |s| ==> s[i] != s[j]
  }

  /** A directory listing holding the files `name + suffix`, one per name, in order. */
  function ListingOf(names: seq<string>, suffix: string): seq<Entry>
  {
    seq(|names|, k requires 0 <= k < |names| => File(names[k] + suffix))
  }

  /** The names whose output file exists after the transcodes, in order of first writing. */
  ghost function WrittenNames(sources: seq<string>, transcodes: string -> bool): seq<string>
    decreases |sources|
  {
    if sources == [] then []
    else
      var before := WrittenNames(sources[..|sources| - 1], transcodes);
      var source := sources[|sources| - 1];
      if transcodes(source) && Name(source) !in before then before + [Name(source)] else before
  }

  lemma AppendCancel(a: string, b: string, suffix: string)
    requires a + suffix == b + suffix
    ensures a == b
  {
    assert |a| == |b|;
    assert a == (a + suffix)[..|a|];
    assert b == (b + suffix)[..|b|];
  }

  /**
   * Transcoding into an empty directory leaves one file per distinct name
   * that transcoded: two sources with the same name write the same file.
   */
  lemma {:induction false} WriteOutputsListing(fs: FileSystem, dir: string, sources: seq<string>,
                                                ext: AudioFileExtension, transcodes: string -> bool)
    requires dir in fs && fs[dir] == []
    ensures var w := WriteOutputs(fs, dir, sources, ext, transcodes);
            dir in w && w[dir] == ListingOf(WrittenNames(sources, transcodes), ext.Suffix())
    ensures NoDup(WrittenNames(sources, transcodes))
    decreases |sources|
  {
    var sfx := ext.Suffix();
    if sources != [] {
      var prefix := sources[..|sources| - 1];
      var source := sources[|sources| - 1];
      WriteOutputsListing(fs, dir, prefix, ext, transcodes);
      var before := WrittenNames(prefix, transcodes);
      var w := WriteOutputs(fs, dir, prefix, ext, transcodes);
      var n := Name(source);
      if transcodes(source) {
        if n in before {
          var k :| 0 <= k < |before| && before[k] == n;
          assert ListingOf(before, sfx)[k] == File(n + sfx);
        } else {
          if File(n + sfx) in w[dir] {
            var k :| 0 <= k < |w[dir]| && w[dir][k] == File(n + sfx);
            AppendCancel(before[k], n, sfx);
            assert false;
          }
          assert ListingOf(before, sfx) + [File(n + sfx)] == ListingOf(before + [n], sfx);
        }
      }
    }
  }

  lemma ListingCons(names: seq<string>, suffix: string)
    requires names != []
    ensures ListingOf(names, suffix) == [File(names[0] + suffix)] + ListingOf(names[1..], suffix)
  {
  }

  lemma FilesInCons(dir: string, e: Entry, rest: seq<Entry>)
    ensures FilesIn(dir, [e] + rest) == (if e.File? then [Join(dir, e.name)] else []) + FilesIn(dir, rest)
  {
    assert ([e] + rest)[1..] == rest;
  }

  lemma NamesCons(p: string, rest: seq<string>)
    ensures Names([p] + rest) == [Name(p)] + Names(rest)
  {
    assert ([p] + rest)[1..] == rest;
  }

  /** Reading back the names of a listing written by the transcodes gives the names written. */
  lemma {:induction false} NamesOfListing(dir: string, names: seq<string>, ext: AudioFileExtension)
    requires forall k :: 0 <= k < |names| ==> names[k] != "" && Separator !in names[k]
    ensures Names(FilesIn(dir, ListingOf(names, ext.Suffix()))) == names
  {
    var sfx := ext.Suffix();
    if names != [] {
      var head := names[0];
      ListingCons(names, sfx);
      FilesInCons(dir, File(head + sfx), ListingOf(names[1..], sfx));
      NamesCons(Join(dir, head + sfx), FilesIn(dir, ListingOf(names[1..], sfx)));
      NameOfJoin(dir, head, sfx);
      NamesOfListing(dir, names[1..], ext);
      assert names == [head] + names[1..];
    }
  }

  lemma NoDupSnoc<T>(s: seq<T>, x: T)
    requires NoDup(s + [x])
    ensures NoDup(s) && x !in s
  {
    forall a | 0 <= a < |s|
      ensures s[a] != x
    {
      assert (s + [x])[a] == s[a] && (s + [x])[|s|] == x;
    }
    forall a, b | 0 <= a < b < |s|
      ensures s[a] != s[b]
    {
      assert (s + [x])[a] == s[a] && (s + [x])[b] == s[b];
    }
  }

  /** When every source transcodes and no two share a name, every name is written, in order. */
  lemma {:induction false} WrittenNamesAll(sources: seq<string>, transcodes: string -> bool)
    requires AllTranscode(sources, transcodes)
    requires NoDup(Names(sources))
    ensures WrittenNames(sources, transcodes) == Names(sources)
    decreases |sources|
  {
    if sources != [] {
      var prefix := sources[..|sources| - 1];
      var last := sources[|sources| - 1];
      assert sources == prefix + [last];
      NamesAppend(prefix, [last]);
      NamesCons(last, []);
      assert [last] + [] == [last];
      assert Names(sources) == Names(prefix) + [Name(last)];
      NoDupSnoc(Names(prefix), Name(last));
      WrittenNamesAll(prefix, transcodes);
    }
  }

  lemma NoDupCount<T>(s: seq<T>, v: T)
    requires NoDup(s)
    ensures multiset(s)[v] <= 1
  {
    if s != [] {
      assert s == [s[0]] + s[1..];
      NoDupCount(s[1..], v);
      if s[0] == v {
        assert v !in s[1..];
      }
    }
  }

  lemma DupCount<T>(s: seq<T>, i: nat, j: nat)
    requires i < j < |s| && s[i] == s[j]
    ensures multiset(s)[s[i]] >= 2
  {
    assert s == s[..j] + [s[j]] + s[j + 1..];
    assert s[..j][i] == s[i];
  }

  /** The temporary directory, once every source with a distinct name has been written into it, validates. */
  lemma RecordedDirValidates(fs: FileSystem, tempDir: string, sources: seq<string>, ext: AudioFileExtension,
                             transcodes: string -> bool)
    requires tempDir in fs && fs[tempDir] == []
    requires FirstFailure(sources, transcodes).None?
    requires NoDup(Names(sources)) && "" !in Names(sources)
    ensures HasFiles(WriteOutputs(fs, tempDir, sources, ext, transcodes), tempDir, sources)
  {
    FirstFailureIsEarliest(sources, transcodes);
    WriteOutputsListing(fs, tempDir, sources, ext, transcodes);
    WrittenNamesAll(sources, transcodes);
    forall k | 0 <= k < |Names(sources)|
      ensures Names(sources)[k] != "" && Separator !in Names(sources)[k]
    {
      NamesAt(sources, k);
      NameExtSplitBase(sources[k]);
    }
    NamesOfListing(tempDir, Names(sources), ext);
  }

  /** With two sources of the same name, the directory they are written into never validates. */
  lemma RecordedDirRejected(fs: FileSystem, tempDir: string, sources: seq<string>, ext: AudioFileExtension,
                            transcodes: string -> bool, i: nat, j: nat)
    requires tempDir in fs && fs[tempDir] == []
    requires i < j < |sources| && Names(sources)[i] == Names(sources)[j]
    requires "" !in Names(sources)
    ensures !HasFiles(WriteOutputs(fs, tempDir, sources, ext, transcodes), tempDir, sources)
  {
    WriteOutputsListing(fs, tempDir, sources, ext, transcodes);
    var written := WrittenNames(sources, transcodes);
    WrittenNamesFrom(sources, transcodes);
    forall k | 0 <= k < |written|
      ensures written[k] != "" && Separator !in written[k]
    {
      var m :| 0 <= m < |Names(sources)| && Names(sources)[m] == written[k];
      NamesAt(sources, m);
      NameExtSplitBase(sources[m]);
    }
    NamesOfListing(tempDir, written, ext);
    NoDupCount(written, Names(sources)[i]);
    DupCount(Names(sources), i, j);
  }

  /** The names of the sources a project's metadata yields, when it yields any. */
  predicate SourcesOf(plist: string -> MetaData, projectDirPath: string, sources: seq<string>)
  {
    var metaData := plist(Join(projectDirPath, ProjectMetaDataPath));
    metaData.Loaded? && |metaData.audioFiles| > 0 && sources == SourcePaths(projectDirPath, metaData.audioFiles)
  }

  /**
   * Idempotence: after a successful export of sources with distinct,
   * non-empty names, exporting the same project again is a cache hit that
   * returns the same directory, changes nothing and transcodes nothing.
   */
  lemma ExportIsIdempotent(cache: map<string, string>, fs: FileSystem, projectDirPath: string,
                           ext: AudioFileExtension, plist: string -> MetaData, tempDir: string,
                           nextTempDir: string, transcodes: string -> bool, sources: seq<string>)
    requires SourcesOf(plist, projectDirPath, sources)
    requires NoDup(Names(sources)) && "" !in Names(sources)
    requires tempDir != ""
    ensures var first := ExportTracksSpec(cache, fs, projectDirPath, ext, plist, tempDir, transcodes);
            first.result.Success? ==>
              ExportTracksSpec(first.cache, first.fs, projectDirPath, ext, plist, nextTempDir, transcodes)
                == Outcome(first.result, first.cache, first.fs, [])
  {
    var cached := CachedDir(cache, projectDirPath);
    if !(cached != "" && HasFiles(fs, cached, sources)) {
      var fs1 := if cached != "" then fs[cached := []] else fs;
      var cache1 := if cached != "" then cache - {projectDirPath} else cache;
      ReexportRecordsValidDir(cache1, fs1, projectDirPath, sources, ext, tempDir, transcodes);
    }
  }

  /** A successful re-export records `tempDir`, and what it wrote there validates against the sources. */
  lemma ReexportRecordsValidDir(cache: map<string, string>, fs: FileSystem, projectDirPath: string, sources: seq<string>,
                                ext: AudioFileExtension, tempDir: string, transcodes: string -> bool)
    requires NoDup(Names(sources)) && "" !in Names(sources)
    ensures var o := Reexport(cache, fs, projectDirPath, sources, ext, tempDir, transcodes);
            o.result.Success? ==>
              o.result == Success(tempDir) && CachedDir(o.cache, projectDirPath) == tempDir && HasFiles(o.fs, tempDir, sources)
  {
    if FirstFailure(sources, transcodes).None? {
      RecordedDirValidates(fs[tempDir := []], tempDir, sources, ext, transcodes);
    }
  }

  /**
   * The source has no duplicate-name check: when two sources share a name,
   * their transcodes write one file, so the directory just recorded never
   * validates and the next export of the project transcodes everything again.
   */
  lemma DuplicateNamesDefeatCache(cache: map<string, string>, fs: FileSystem, projectDirPath: string,
                                  ext: AudioFileExtension, plist: string -> MetaData, tempDir: string,
                                  nextTempDir: string, transcodes: string -> bool, sources: seq<string>,
                                  i: nat, j: nat)
    requires SourcesOf(plist, projectDirPath, sources)
    requires i < j < |sources| && Names(sources)[i] == Names(sources)[j]
    requires "" !in Names(sources)
    requires tempDir != CachedDir(cache, projectDirPath)
    ensures var first := ExportTracksSpec(cache, fs, projectDirPath, ext, plist, tempDir, transcodes);
            first.result == Success(tempDir) ==>
              !HasFiles(first.fs, tempDir, sources) &&
              ExportTracksSpec(first.cache, first.fs, projectDirPath, ext, plist, nextTempDir, transcodes).transcoded
                == sources
  {
    var first := ExportTracksSpec(cache, fs, projectDirPath, ext, plist, tempDir, transcodes);
    DuplicateNamesRecordRejectedDir(cache, fs, projectDirPath, ext, plist, tempDir, transcodes, sources, i, j);
    if first.result == Success(tempDir) {
      CacheMissTranscodesAll(first.cache, first.fs, projectDirPath, ext, plist, nextTempDir, transcodes, sources);
    }
  }

  /** A successful export of sources with a repeated name records `tempDir`, which does not validate against them. */
  lemma DuplicateNamesRecordRejectedDir(cache: map<string, string>, fs: FileSystem, projectDirPath: string,
                                  ext: AudioFileExtension, plist: string -> MetaData, tempDir: string,
                                  transcodes: string -> bool, sources: seq<string>,
                                  i: nat, j: nat)
    requires SourcesOf(plist, projectDirPath, sources)
    requires i < j < |sources| && Names(sources)[i] == Names(sources)[j]
    requires "" !in Names(sources)
    requires tempDir != CachedDir(cache, projectDirPath)
    ensures var first := ExportTracksSpec(cache, fs, projectDirPath, ext, plist, tempDir, transcodes);
            first.result == Success(tempDir) ==>
              CachedDir(first.cache, projectDirPath) == tempDir && !HasFiles(first.fs, tempDir, sources)
  {
    var cached := CachedDir(cache, projectDirPath);
    if !(cached != "" && HasFiles(fs, cached, sources)) {
      var fs1 := if cached != "" then fs[cached := []] else fs;
      var cache1 := if cached != "" then cache - {projectDirPath} else cache;
      ReexportRecordsRejectedDir(cache1, fs1, projectDirPath, sources, ext, tempDir, transcodes, i, j);
    }
  }
  /** A cached directory that validates is returned as it is: nothing is transcoded, and neither the cache nor the filesystem changes. */
  lemma CacheHitReused(cache: map<string, string>, fs: FileSystem, projectDirPath: string,
                       ext: AudioFileExtension, plist: string -> MetaData, tempDir: string,
                       transcodes: string -> bool, sources: seq<string>)
    requires SourcesOf(plist, projectDirPath, sources)
    requires CachedDir(cache, projectDirPath) != "" && HasFiles(fs, CachedDir(cache, projectDirPath), sources)
    ensures ExportTracksSpec(cache, fs, projectDirPath, ext, plist, tempDir, transcodes)
              == Outcome(Success(CachedDir(cache, projectDirPath)), cache, fs, [])
  {
  }

  /** A cache miss transcodes every source again. */
  lemma CacheMissTranscodesAll(cache: map<string, string>, fs: FileSystem, projectDirPath: string,
                               ext: AudioFileExtension, plist: string -> MetaData, tempDir: string,
                               transcodes: string -> bool, sources: seq<string>)
    requires SourcesOf(plist, projectDirPath, sources)
    requires !HasFiles(fs, CachedDir(cache, projectDirPath), sources)
    ensures ExportTracksSpec(cache, fs, projectDirPath, ext, plist, tempDir, transcodes).transcoded == sources
  {
  }

  /** With two sources of one name, a successful re-export records `tempDir`, whose contents do not validate. */
  lemma ReexportRecordsRejectedDir(cache: map<string, string>, fs: FileSystem, projectDirPath: string, sources: seq<string>,
                                   ext: AudioFileExtension, tempDir: string, transcodes: string -> bool, i: nat, j: nat)
    requires i < j < |sources| && Names(sources)[i] == Names(sources)[j]
    requires "" !in Names(sources)
    ensures var o := Reexport(cache, fs, projectDirPath, sources, ext, tempDir, transcodes);
            o.result.Success? ==>
              o.result == Success(tempDir) && CachedDir(o.cache, projectDirPath) == tempDir && !HasFiles(o.fs, tempDir, sources)
  {
    if FirstFailure(sources, transcodes).None? {
      RecordedDirRejected(fs[tempDir := []], tempDir, sources, ext, transcodes, i, j);
    }
  }

  /** Every written name is the name of some source. */
  lemma {:induction false} WrittenNamesFrom(sources: seq<string>, transcodes: string -> bool)
    ensures forall k :: 0 <= k < |WrittenNames(sources, transcodes)| ==>
              WrittenNames(sources, transcodes)[k] in Names(sources)
    decreases |sources|
  {
    if sources != [] {
      var prefix := sources[..|sources| - 1];
      var last := sources[|sources| - 1];
      WrittenNamesFrom(prefix, transcodes);
      assert sources == prefix + [last];
      NamesAppend(prefix, [last]);
      assert Names([last]) == [Name(last)];
    }
  }

  /** The transcodes write into `dir` only. */
  lemma {:induction false} WriteOutputsFrame(fs: FileSystem, dir: string, sources: seq<string>,
                                              ext: AudioFileExtension, transcodes: string -> bool, d: string)
    requires d != dir
    ensures var w := WriteOutputs(fs, dir, sources, ext, transcodes);
            (d in w <==> d in fs) && (d in fs ==> w[d] == fs[d])
    ensures dir in fs ==> dir in WriteOutputs(fs, dir, sources, ext, transcodes)
    decreases |sources|
  {
    if sources != [] {
      WriteOutputsFrame(fs, dir, sources[..|sources| - 1], ext, transcodes, d);
    }
  }

  lemma ReexportFrame(cache: map<string, string>, fs: FileSystem, projectDirPath: string, sources: seq<string>,
                      ext: AudioFileExtension, tempDir: string, transcodes: string -> bool, d: string)
    requires d != tempDir
    ensures var o := Reexport(cache, fs, projectDirPath, sources, ext, tempDir, transcodes);
            o.cache - {projectDirPath} == cache - {projectDirPath} &&
            (d in o.fs <==> d in fs) && (d in fs ==> o.fs[d] == fs[d])
  {
    WriteOutputsFrame(fs[tempDir := []], tempDir, sources, ext, transcodes, d);
  }

  /**
   * Whatever happens, an export changes the cache at the project's own key
   * only, and the filesystem only at the stale cached directory and the new
   * temporary directory.
   */
  lemma ExportFrame(cache: map<string, string>, fs: FileSystem, projectDirPath: string,
                    ext: AudioFileExtension, plist: string -> MetaData, tempDir: string,
                    transcodes: string -> bool, d: string)
    requires d != tempDir && d != CachedDir(cache, projectDirPath)
    ensures var o := ExportTracksSpec(cache, fs, projectDirPath, ext, plist, tempDir, transcodes);
            o.cache - {projectDirPath} == cache - {projectDirPath} &&
            (d in o.fs <==> d in fs) && (d in fs ==> o.fs[d] == fs[d])
  {
    var metaData := plist(Join(projectDirPath, ProjectMetaDataPath));
    if metaData.Loaded? && |metaData.audioFiles| > 0 {
      var sources := SourcePaths(projectDirPath, metaData.audioFiles);
      var cached := CachedDir(cache, projectDirPath);
      if !(cached != "" && HasFiles(fs, cached, sources)) {
        var fs1 := if cached != "" then fs[cached := []] else fs;
        var cache1 := if cached != "" then cache - {projectDirPath} else cache;
        ReexportFrame(cache1, fs1, projectDirPath, sources, ext, tempDir, transcodes, d);
        assert cache1 - {projectDirPath} == cache - {projectDirPath};
      }
    }
  }

  /**
   * A stale cache entry (a cached directory that does not validate) is
   * evicted: its directory is emptied, and afterwards the key either names
   * the new directory (success) or is gone (failure).
   */
  lemma StaleCacheEvicted(cache: map<string, string>, fs: FileSystem, projectDirPath: string,
                          ext: AudioFileExtension, plist: string -> MetaData, tempDir: string,
                          transcodes: string -> bool, sources: seq<string>)
    requires SourcesOf(plist, projectDirPath, sources)
    requires CachedDir(cache, projectDirPath) != "" && !HasFiles(fs, CachedDir(cache, projectDirPath), sources)
    requires tempDir != CachedDir(cache, projectDirPath)
    ensures var o := ExportTracksSpec(cache, fs, projectDirPath, ext, plist, tempDir, transcodes);
            var cached := CachedDir(cache, projectDirPath);
            cached in o.fs && o.fs[cached] == [] &&
            o.transcoded == sources &&
            (o.result.Success? ==> o.result == Success(tempDir) && o.cache == cache[projectDirPath := tempDir]) &&
            (o.result.Failure? ==> o.cache == cache - {projectDirPath})
  {
    var cached := CachedDir(cache, projectDirPath);
    WriteOutputsFrame(fs[cached := []][tempDir := []], tempDir, sources, ext, transcodes, cached);
  }

  /**
   * A transcode that throws leaves no trace: the temporary directory is
   * removed and the cache holds no directory for the project.
   */
  lemma FailedExportLeavesNoEntry(cache: map<string, string>, fs: FileSystem, projectDirPath: string,
                                  ext: AudioFileExtension, plist: string -> MetaData, tempDir: string,
                                  transcodes: string -> bool, sources: seq<string>)
    requires SourcesOf(plist, projectDirPath, sources)
    ensures var o := ExportTracksSpec(cache, fs, projectDirPath, ext, plist, tempDir, transcodes);
            o.result.Failure? ==>
              o.result.error.TranscodeFailed? && o.result.error.source in sources &&
              !transcodes(o.result.error.source) &&
              tempDir !in o.fs && CachedDir(o.cache, projectDirPath) == ""
  {
    FirstFailureIsEarliest(sources, transcodes);
  }

  /**
   * A successful export that is not a cache hit hands every source to ffmpeg,
   * all of them transcoded, and records the new directory under the project.
   */
  lemma SuccessfulExportRecorded(cache: map<string, string>, fs: FileSystem, projectDirPath: string,
                                 ext: AudioFileExtension, plist: string -> MetaData, tempDir: string,
                                 transcodes: string -> bool, sources: seq<string>)
    requires SourcesOf(plist, projectDirPath, sources)
    requires tempDir != CachedDir(cache, projectDirPath)
    ensures var o := ExportTracksSpec(cache, fs, projectDirPath, ext, plist, tempDir, transcodes);
            o.result == Success(tempDir) ==>
              AllTranscode(sources, transcodes) &&
              o.transcoded == sources && CachedDir(o.cache, projectDirPath) == tempDir && tempDir in o.fs
  {
    var cached := CachedDir(cache, projectDirPath);
    var fs1 := if cached != "" then fs[cached := []] else fs;
    FirstFailureIsEarliest(sources, transcodes);
    WriteOutputsFrame(fs1[tempDir := []], tempDir, sources, ext, transcodes, cached);
  }

  /**
   * Missing metadata or an empty `AudioFiles` fails before anything is
   * touched; the check looks at the list before the ignore filter, so a
   * manifest whose every entry is ignored is not rejected.
   */
  lemma AudioFilesCheckedBeforeFilter(cache: map<string, string>, fs: FileSystem, projectDirPath: string,
                                      ext: AudioFileExtension, plist: string -> MetaData, tempDir: string,
                                      transcodes: string -> bool)
    ensures var o := ExportTracksSpec(cache, fs, projectDirPath, ext, plist, tempDir, transcodes);
            var metaData := plist(Join(projectDirPath, ProjectMetaDataPath));
            (o.result == Failure(AudioFilesNotFound) <==>
               metaData.Undefined? || (metaData.Loaded? && |metaData.audioFiles| == 0)) &&
            (o.result.Failure? && !o.result.error.TranscodeFailed? ==>
               o.cache == cache && o.fs == fs && o.transcoded == [])
  {
  }

  /** The filesystem and the `localStorage` cache that `exportTracks` works on. */
  class Environment {
    var cache: map<string, string>
    var fs: FileSystem

    constructor (cache: map<string, string>, fs: FileSystem)
      ensures this.cache == cache && this.fs == fs
    {
      this.cache := cache;
      this.fs := fs;
    }

    /**
     * `exportTracks`. `tempDir` is the directory `Deno.makeTempDir` creates
     * with the prefix `CachedDirPrefix`; the lemmas about repeated calls
     * take it to name nothing that exists.
     * Every source is handed to ffmpeg (the `Promise.all` fan-out, taken in
     * order); `transcoded` lists them.
     */
    method ExportTracks(projectDirPath: string, ext: AudioFileExtension, plist: string -> MetaData,
                        tempDir: string, transcodes: string -> bool)
      returns (r: Result<string, ExportError>, transcoded: seq<string>)
      modifies this
      ensures var o := ExportTracksSpec(old(cache), old(fs), projectDirPath, ext, plist, tempDir, transcodes);
              r == o.result && cache == o.cache && fs == o.fs && transcoded == o.transcoded
    {
      var metaData := plist(Join(projectDirPath, ProjectMetaDataPath));
      if metaData.Unreadable? {
        return Failure(MetaDataUnreadable), [];
      }
      if metaData.Undefined? || |metaData.audioFiles| <= 0 {
        return Failure(AudioFilesNotFound), [];
      }

      var filePaths := SourcePaths(projectDirPath, metaData.audioFiles);

      var cachedDirPath := CachedDir(cache, projectDirPath);
      if cachedDirPath != "" {
        var valid := DirectoryHasFiles(fs, cachedDirPath, filePaths);
        if valid {
          return Success(cachedDirPath), [];
        }
        fs := fs[cachedDirPath := []];
        cache := cache - {projectDirPath};
      }
      r, transcoded := ExportIntoTempDir(projectDirPath, filePaths, ext, tempDir, transcodes);
    }

    /**
     * The cache miss of `exportTracks`: the sources are transcoded into the
     * fresh `tempDir`, which is removed if a transcode throws and otherwise
     * recorded as the project's cached directory.
     */
    method ExportIntoTempDir(projectDirPath: string, filePaths: seq<string>, ext: AudioFileExtension,
                             tempDir: string, transcodes: string -> bool)
      returns (r: Result<string, ExportError>, transcoded: seq<string>)
      modifies this
      ensures var o := Reexport(old(cache), old(fs), projectDirPath, filePaths, ext, tempDir, transcodes);
              r == o.result && cache == o.cache && fs == o.fs && transcoded == o.transcoded
    {
      fs := fs[tempDir := []];
      var failed;
      fs, failed := TranscodeAll(fs, tempDir, filePaths, ext, transcodes);
      if failed.Some? {
        fs := fs - {tempDir};
        return Failure(TranscodeFailed(failed.value)), filePaths;
      }
      cache := cache[projectDirPath := tempDir];
      return Success(tempDir), filePaths;
    }
  }
}
