/**
 * `compressProjectFiles` of `src/project.ts`: every file of a project larger
 * than the size ceiling is transcoded next to itself with another extension;
 * the transcode replaces the original when it fits under the ceiling, and is
 * deleted otherwise, the file it came from being left out of the result.
 *
 * `fs.stat` is the oracle `size` for the files as they are before the loop,
 * and `transcodedSize` for what ffmpeg writes from a given source; `converts`
 * says whether ffmpeg exits successfully on that source.
 */
module ProjectFiles {
  import opened Wrappers
  import opened Paths

  /** A project: its name and the paths of its audio files. */
  datatype Project = Project(name: string, files: seq<string>)

  /** The ceiling, the target extension, and what the filesystem and ffmpeg answer. */
  datatype Setting = Setting(maxFileSize: nat, compressedFileExtension: string,
                             size: string -> nat, transcodedSize: string -> nat, converts: string -> bool)

  /** `path.join(dir, name + compressedFileExtension)` for the source `filePath`. */
  function CompressedPath(filePath: string, compressedFileExtension: string): string
  {
    Join(Dir(filePath), Name(filePath) + compressedFileExtension)
  }

  /** The transcode sits beside its source, under the source's name with the new extension. */
  lemma CompressedFileName(filePath: string, compressedFileExtension: string)
    requires Separator !in compressedFileExtension
    ensures Base(CompressedPath(filePath, compressedFileExtension)) == Name(filePath) + compressedFileExtension
  {
    NameExtSplitBase(filePath);
    BaseOfJoin(Dir(filePath), Name(filePath) + compressedFileExtension);
  }

  /** The state of the loop: the files pushed so far, the files removed so far, and the file whose conversion threw, if any. */
  datatype Compression = Compression(files: seq<string>, removed: seq<string>, failedAt: Option<string>)

  /** One pass of the loop body over `filePath`, from the state `c`. */
  function Step(c: Compression, filePath: string, s: Setting): Compression
  {
    var newFilePath := CompressedPath(filePath, s.compressedFileExtension);
    if c.failedAt.Some? then c
    else if s.size(filePath) <= s.maxFileSize then c.(files := c.files + [filePath])
    else if !s.converts(filePath) then c.(failedAt := Some(filePath))
    else if s.transcodedSize(filePath) <= s.maxFileSize then
      c.(files := c.files + [newFilePath], removed := c.removed + [filePath])
    else c.(removed := c.removed + [newFilePath])
  }

  /** The loop of `compressProjectFiles` over `files`, in order. */
  function Compress(files: seq<string>, s: Setting): Compression
  {
    if files == [] then Compression([], [], None)
    else Step(Compress(files[..|files| - 1], s), files[|files| - 1], s)
  }

  // ---------------------------------------------------------------------------
  // The reference: what becomes of each file on its own

  /** The path a file leaves in the compressed project, if any. */
  function Survivor(filePath: string, s: Setting): Option<string>
  {
    if s.size(filePath) <= s.maxFileSize then Some(filePath)
    else if s.transcodedSize(filePath) <= s.maxFileSize then Some(CompressedPath(filePath, s.compressedFileExtension))
    else None
  }

  /** The files a file gets deleted on its account. */
  function Removal(filePath: string, s: Setting): seq<string>
  {
    if s.size(filePath) <= s.maxFileSize then []
    else if s.transcodedSize(filePath) <= s.maxFileSize then [filePath]
    else [CompressedPath(filePath, s.compressedFileExtension)]
  }

  /** The survivors of `files`, in order. */
  function Survivors(files: seq<string>, s: Setting): (r: seq<string>)
    ensures |r| <= |files|
  {
    if files == [] then []
    else
      var rest := Survivors(files[..|files| - 1], s);
      match Survivor(files[|files| - 1], s)
      case Some(p) => rest + [p]
      case None => rest
  }

  /** The removals of `files`, in order. */
  function Removals(files: seq<string>, s: Setting): seq<string>
  {
    if files == [] then [] else Removals(files[..|files| - 1], s) + Removal(files[|files| - 1], s)
  }

  /** ffmpeg fails on the oversized file `files[i]`. */
  predicate FailsAt(files: seq<string>, i: nat, s: Setting)
  {
    i < |files| && s.size(files[i]) > s.maxFileSize && !s.converts(files[i])
  }

  predicate NoFailure(files: seq<string>, s: Setting)
  {
    forall i :: 0 <= i < |files| ==> !FailsAt(files, i, s)
  }

  // ---------------------------------------------------------------------------
  // The loop against the reference

  lemma NoFailurePrefix(files: seq<string>, s: Setting, k: nat)
    requires k <= |files| && NoFailure(files, s)
    ensures NoFailure(files[..k], s)
  {
    forall i | 0 <= i < k
      ensures !FailsAt(files[..k], i, s)
    {
      assert files[..k][i] == files[i] && !FailsAt(files, i, s);
    }
  }

  /**
   * When ffmpeg fails on none of the oversized files, the project gets exactly
   * the survivors, in input order, and exactly the removals are done.
   */
  lemma {:induction false} CompressWithoutFailure(files: seq<string>, s: Setting)
    requires NoFailure(files, s)
    ensures Compress(files, s) == Compression(Survivors(files, s), Removals(files, s), None)
    decreases |files|
  {
    if files != [] {
      NoFailurePrefix(files, s, |files| - 1);
      CompressWithoutFailure(files[..|files| - 1], s);
      assert !FailsAt(files, |files| - 1, s);
    }
  }

  /**
   * The first file ffmpeg fails on stops the loop: what was pushed and removed
   * before it stays, and nothing after it is looked at.
   */
  lemma {:induction false} CompressStopsAtFailure(files: seq<string>, i: nat, s: Setting)
    requires FailsAt(files, i, s) && NoFailure(files[..i], s)
    ensures Compress(files, s) == Compression(Survivors(files[..i], s), Removals(files[..i], s), Some(files[i]))
    decreases |files|
  {
    if |files| - 1 > i {
      var init := files[..|files| - 1];
      assert init[..i] == files[..i];
      CompressStopsAtFailure(init, i, s);
    } else {
      assert files[..i] == files[..|files| - 1];
      CompressWithoutFailure(files[..i], s);
    }
  }

  /** When ffmpeg fails on some oversized file, there is a first one, which `CompressStopsAtFailure` covers. */
  lemma {:induction false} FirstFailureExists(files: seq<string>, s: Setting) returns (i: nat)
    requires !NoFailure(files, s)
    ensures FailsAt(files, i, s) && NoFailure(files[..i], s)
    decreases |files|
  {
    var init := files[..|files| - 1];
    if NoFailure(init, s) {
      i := |files| - 1;
      assert init == files[..i];
      assert FailsAt(files, i, s) by {
        var j :| 0 <= j < |files| && FailsAt(files, j, s);
        if j < |init| {
          assert init[j] == files[j] && FailsAt(init, j, s);
        }
      }
    } else {
      i := FirstFailureExists(init, s);
      assert init[..i] == files[..i] && init[i] == files[i];
    }
  }

  // ---------------------------------------------------------------------------
  // Properties of the survivors

  /** Survivors are taken file by file: they keep the order of the input. */
  lemma {:induction false} SurvivorsAppend(a: seq<string>, b: seq<string>, s: Setting)
    ensures Survivors(a + b, s) == Survivors(a, s) + Survivors(b, s)
    decreases |b|
  {
    if b == [] {
      assert a + b == a;
    } else {
      var b0 := b[..|b| - 1];
      assert (a + b)[..|a + b| - 1] == a + b0;
      assert (a + b)[|a + b| - 1] == b[|b| - 1];
      SurvivorsAppend(a, b0, s);
    }
  }

  /**
   * A path is in the result exactly when it is a small input file kept as is,
   * or the compressed path of an oversized input file whose transcode fits.
   */
  lemma {:induction false} SurvivorsMembers(files: seq<string>, s: Setting, p: string)
    ensures p in Survivors(files, s) <==> exists i :: 0 <= i < |files| && Survivor(files[i], s) == Some(p)
    decreases |files|
  {
    if files != [] {
      var init := files[..|files| - 1];
      SurvivorsMembers(init, s, p);
      assert forall i :: 0 <= i < |init| ==> init[i] == files[i];
    }
  }

  /** Every path in the result fits under the ceiling, by the size of the original or of its transcode. */
  lemma SurvivorsFit(files: seq<string>, s: Setting, p: string)
    requires p in Survivors(files, s)
    ensures exists i :: 0 <= i < |files| &&
              ((p == files[i] && s.size(p) <= s.maxFileSize) ||
               (p == CompressedPath(files[i], s.compressedFileExtension) &&
                s.size(files[i]) > s.maxFileSize && s.transcodedSize(files[i]) <= s.maxFileSize))
  {
    SurvivorsMembers(files, s, p);
  }

  /** A file within the ceiling stays in the result at its own path. */
  lemma SmallFileKept(files: seq<string>, s: Setting, i: nat)
    requires i < |files| && s.size(files[i]) <= s.maxFileSize
    ensures files[i] in Survivors(files, s)
  {
    SurvivorsMembers(files, s, files[i]);
  }

  /** An oversized file whose transcode fits is replaced by its compressed path, and the original is removed. */
  lemma CompressedFileKept(files: seq<string>, s: Setting, i: nat)
    requires i < |files| && s.size(files[i]) > s.maxFileSize && s.transcodedSize(files[i]) <= s.maxFileSize
    ensures CompressedPath(files[i], s.compressedFileExtension) in Survivors(files, s)
    ensures files[i] in Removals(files, s)
  {
    SurvivorsMembers(files, s, CompressedPath(files[i], s.compressedFileExtension));
    RemovalsMembers(files, s, files[i], i);
  }

  /** An oversized file whose transcode is still too large leaves nothing in the result, and its transcode is removed. */
  lemma OversizedFileDropped(files: seq<string>, s: Setting, i: nat)
    requires i < |files| && s.size(files[i]) > s.maxFileSize && s.transcodedSize(files[i]) > s.maxFileSize
    ensures Survivor(files[i], s).None?
    ensures CompressedPath(files[i], s.compressedFileExtension) in Removals(files, s)
  {
    RemovalsMembers(files, s, CompressedPath(files[i], s.compressedFileExtension), i);
  }

  lemma {:induction false} RemovalsMembers(files: seq<string>, s: Setting, p: string, i: nat)
    requires i < |files| && p in Removal(files[i], s)
    ensures p in Removals(files, s)
    decreases |files|
  {
    var init := files[..|files| - 1];
    if i < |init| {
      assert init[i] == files[i];
      RemovalsMembers(init, s, p, i);
    }
  }

  /** A path that no file calls for is not removed. */
  lemma {:induction false} RemovalsOnlyFrom(files: seq<string>, s: Setting, p: string)
    requires forall j :: 0 <= j < |files| ==> p !in Removal(files[j], s)
    ensures p !in Removals(files, s)
    decreases |files|
  {
    if files != [] {
      var init := files[..|files| - 1];
      assert forall j :: 0 <= j < |init| ==> init[j] == files[j];
      RemovalsOnlyFrom(init, s, p);
    }
  }

  /**
   * No transcode lands on a path of the project: the compressed path of an
   * oversized file is no file of the project, and no two oversized files
   * share one. Only then do the sizes read before the loop stay the sizes of
   * the files the loop keeps.
   */
  predicate TargetsDistinct(files: seq<string>, s: Setting)
  {
    (forall i, j :: 0 <= i < |files| && 0 <= j < |files| && s.size(files[i]) > s.maxFileSize ==>
       CompressedPath(files[i], s.compressedFileExtension) != files[j]) &&
    (forall i, j :: 0 <= i < j < |files| && s.size(files[i]) > s.maxFileSize && s.size(files[j]) > s.maxFileSize ==>
       CompressedPath(files[i], s.compressedFileExtension) != CompressedPath(files[j], s.compressedFileExtension))
  }

  /**
   * What file `f` leaves in the result is not among what file `g` has
   * removed, when neither transcode lands on the other file and, for two
   * different positions, the two transcodes land apart.
   */
  lemma SurvivorNotRemoval(f: string, g: string, s: Setting, samePosition: bool)
    requires samePosition ==> f == g
    requires s.size(f) > s.maxFileSize ==> CompressedPath(f, s.compressedFileExtension) != g
    requires s.size(g) > s.maxFileSize ==> CompressedPath(g, s.compressedFileExtension) != f
    requires !samePosition && s.size(f) > s.maxFileSize && s.size(g) > s.maxFileSize ==>
               CompressedPath(f, s.compressedFileExtension) != CompressedPath(g, s.compressedFileExtension)
    requires Survivor(f, s).Some?
    ensures Survivor(f, s).value !in Removal(g, s)
  {
  }

  /** When no transcode lands on a path of the project, no path of the result is among the files the loop removes. */
  lemma KeptFilesNotRemoved(files: seq<string>, s: Setting, p: string)
    requires TargetsDistinct(files, s)
    requires p in Survivors(files, s)
    ensures p !in Removals(files, s)
  {
    SurvivorsMembers(files, s, p);
    var i :| 0 <= i < |files| && Survivor(files[i], s) == Some(p);
    forall j | 0 <= j < |files|
      ensures p !in Removal(files[j], s)
    {
      var f, g, ext := files[i], files[j], s.compressedFileExtension;
      if s.size(f) > s.maxFileSize && s.size(g) > s.maxFileSize {
        if i < j {
          assert CompressedPath(f, ext) != CompressedPath(g, ext);
        } else if j < i {
          assert CompressedPath(g, ext) != CompressedPath(f, ext);
        }
      }
      SurvivorNotRemoval(f, g, s, i == j);
    }
    RemovalsOnlyFrom(files, s, p);
  }

  // ---------------------------------------------------------------------------
  // The method

  /**
   * `compressProjectFiles`: the project keeps its name and gets the files the
   * loop pushes; a conversion that throws rejects the whole call, after the
   * removals already done.
   */
  method CompressProjectFiles(project: Project, s: Setting)
    returns (result: Result<Project, string>, removed: seq<string>)
    ensures var c := Compress(project.files, s);
            removed == c.removed &&
            (c.failedAt.Some? ==> result == Failure(c.failedAt.value)) &&
            (c.failedAt.None? ==> result == Success(Project(project.name, c.files)))
  {
    var files := project.files;
    var compressed: seq<string> := [];
    removed := [];
    var i := 0;
    while i < |files|
      invariant 0 <= i <= |files|
      invariant Compress(files[..i], s) == Compression(compressed, removed, None)
    {
      var filePath := files[i];
      CompressStep(files, i, s);
      if s.size(filePath) <= s.maxFileSize {
        compressed := compressed + [filePath];
        i := i + 1;
        continue;
      }
      var newFilePath := CompressedPath(filePath, s.compressedFileExtension);
      if !s.converts(filePath) {
        FailureSticks(files, i, s);
        return Failure(filePath), removed;
      }
      if s.transcodedSize(filePath) <= s.maxFileSize {
        removed := removed + [filePath];
        compressed := compressed + [newFilePath];
      } else {
        removed := removed + [newFilePath];
      }
      i := i + 1;
    }
    assert files[..i] == files;
    return Success(Project(project.name, compressed)), removed;
  }

  /** The loop's state after `files[i]` is one `Step` from its state before it. */
  lemma CompressStep(files: seq<string>, i: nat, s: Setting)
    requires i < |files|
    ensures Compress(files[..i + 1], s) == Step(Compress(files[..i], s), files[i], s)
  {
    assert files[..i + 1][..i] == files[..i];
  }

  /** Once a conversion has failed, the later files change nothing. */
  lemma {:induction false} FailureSticks(files: seq<string>, i: nat, s: Setting)
    requires FailsAt(files, i, s)
    ensures var c := Compress(files[..i], s);
            Compress(files, s) == (if c.failedAt.Some? then c else c.(failedAt := Some(files[i])))
    decreases |files|
  {
    if |files| - 1 > i {
      var init := files[..|files| - 1];
      assert init[..i] == files[..i];
      FailureSticks(init, i, s);
    } else {
      assert files[..i] == files[..|files| - 1];
    }
  }
}
