/**
 * A second run over the same assets changes no file: the target `.jpg` an
 * earlier run left behind is the skip marker of line 133, and an asset the
 * earlier run rejected is copied and deleted again. Proved about the
 * specification functions of module Pipeline.
 */
module Idempotence {
  import opened Wrappers
  import opened Paths
  import opened FileSystemModel
  import opened Pipeline
  import opened Properties

  /** A copy of this record would be deleted at line 192: it decodes, but not as an HD JPEG. */
  predicate Unqualified(r: FileRecord)
  {
    r.image.Decodes? && r.image != HD_LANDSCAPE && r.image != HD_PORTRAIT
  }

  /**
   * In `s`, the asset `file` would leave the filesystem as it is: its target
   * exists, or it is too short, or its copy would be pruned.
   */
  predicate Settled(dest: Path, s: Fs, file: Path)
  {
    TargetPath(dest, file) in s.files ||
    (file in s.files && (s.files[file].length < MIN_FILESIZE_TO_COPY || Unqualified(s.files[file])))
  }

  /**
   * The assets have distinct targets, no asset is a target or a slot or lies
   * under the Teams folder, and no target is a slot.
   */
  ghost predicate Apart(c: Ctx, files: seq<Path>)
  {
    && (forall j, k :: 0 <= j < |files| && 0 <= k < |files| && j != k ==>
          TargetPath(c.dest, files[j]) != TargetPath(c.dest, files[k]))
    && (forall j, k :: 0 <= j < |files| && 0 <= k < |files| ==> files[j] != TargetPath(c.dest, files[k]))
    && (forall j :: 0 <= j < |files| ==>
          && files[j] != c.latestLandscape && files[j] != c.latestPortrait && !(c.teams <= files[j])
          && TargetPath(c.dest, files[j]) != c.latestLandscape
          && TargetPath(c.dest, files[j]) != c.latestPortrait)
  }

  /** Whether an asset is settled depends only on its own path and its target. */
  lemma SettledFrame(dest: Path, s: Fs, t: Fs, file: Path)
    requires Settled(dest, s, file)
    requires Lookup(t, file) == Lookup(s, file)
    requires Lookup(t, TargetPath(dest, file)) == Lookup(s, TargetPath(dest, file))
    ensures Settled(dest, t, file)
  {
  }

  /**
   * Lines 123-331 write at most the asset's target, the two slots and paths
   * under the Teams folder, and create no folder but the two Teams ones.
   */
  lemma StepFrame(c: Ctx, p: Progress, file: Path, i: nat)
    requires Separated(c)
    ensures var q := Step(c, p, file, i);
      && (forall x ::
            x != TargetPath(c.dest, file) && x != c.latestLandscape && x != c.latestPortrait && !(c.teams <= x)
            ==> Lookup(q.fs, x) == Lookup(p.fs, x))
      && q.fs.dirs <= p.fs.dirs + {c.backgrounds, c.uploads}
  {
    var s := p.fs;
    var jpg := TargetPath(c.dest, file);
    if Copies(c, s, file) {
      var s1 := Copy(c, s, file, jpg, i);
      CopyWrites(c, s, file, i);
      var img := ReadImage(s1.files[jpg]);
      if img.threw || img.isHdLandscape || img.isHdPortrait {
        var s2 := PromoteLatest(c, s1, jpg, img.isHdLandscape, i);
        if img.isHdLandscape && c.teams in s2.dirs {
          TeamsConfined(c, s2, jpg, i);
        }
      }
    }
  }

  /** An asset that has been processed without an exception is settled afterwards. */
  lemma StepSettles(c: Ctx, p: Progress, file: Path, i: nat)
    requires Separated(c)
    requires TargetPath(c.dest, file) != c.latestLandscape && TargetPath(c.dest, file) != c.latestPortrait
    requires !Step(c, p, file, i).failed
    ensures Settled(c.dest, Step(c, p, file, i).fs, file)
  {
    var s := p.fs;
    var jpg := TargetPath(c.dest, file);
    if Copies(c, s, file) {
      var img := s.files[file].image;
      if img.Decodes? && img != HD_LANDSCAPE && img != HD_PORTRAIT {
        StepPrunes(c, p, file, i);
      } else {
        StepPromotesLatest(c, p, file, i);
      }
    }
  }

  /** A settled asset changes nothing, raises no exception and writes no Teams background. */
  lemma StepSettled(c: Ctx, p: Progress, file: Path, i: nat)
    requires Settled(c.dest, p.fs, file)
    ensures var q := Step(c, p, file, i);
      q.fs == p.fs && q.failed == p.failed && q.teamsUpdate == p.teamsUpdate
  {
    if Copies(c, p.fs, file) {
      StepPrunes(c, p, file, i);
    }
  }

  /** A loop that reached `n` without an exception had not met one before. */
  lemma ProcessedNotFailed(c: Ctx, p0: Progress, files: seq<Path>, n: nat)
    requires 0 < n <= |files|
    requires !Processed(c, p0, files, n).failed
    ensures !Processed(c, p0, files, n - 1).failed
  {
  }

  /** One turn of the first run keeps the assets already processed settled and settles the new one. */
  lemma ProcessedStepSettles(c: Ctx, p0: Progress, files: seq<Path>, n: nat)
    requires Separated(c) && Apart(c, files)
    requires 0 < n <= |files|
    requires !Processed(c, p0, files, n).failed
    requires forall j :: 0 <= j < n - 1 ==> Settled(c.dest, Processed(c, p0, files, n - 1).fs, files[j])
    ensures forall j :: 0 <= j < n ==> Settled(c.dest, Processed(c, p0, files, n).fs, files[j])
  {
    ProcessedNotFailed(c, p0, files, n);
    var q := Processed(c, p0, files, n - 1);
    assert Processed(c, p0, files, n) == Step(c, q, files[n - 1], n - 1);
    StepKeepsSettled(c, q, files, n - 1);
  }

  /** Processing the `n`-th asset without an exception settles it and keeps the assets before it settled. */
  lemma StepKeepsSettled(c: Ctx, q: Progress, files: seq<Path>, n: nat)
    requires Separated(c) && Apart(c, files)
    requires n < |files|
    requires !Step(c, q, files[n], n).failed
    requires forall j :: 0 <= j < n ==> Settled(c.dest, q.fs, files[j])
    ensures forall j :: 0 <= j <= n ==> Settled(c.dest, Step(c, q, files[n], n).fs, files[j])
  {
    var r := Step(c, q, files[n], n);
    StepFrame(c, q, files[n], n);
    StepSettles(c, q, files[n], n);
    forall j | 0 <= j < n
      ensures Settled(c.dest, r.fs, files[j])
    {
      OutsideTeams(c, files[j]);
      SettledFrame(c.dest, q.fs, r.fs, files[j]);
    }
  }

  /** After a first run without an exception, every asset it processed is settled. */
  lemma {:induction false} ProcessedSettles(c: Ctx, p0: Progress, files: seq<Path>, n: nat)
    requires Separated(c) && Apart(c, files)
    requires n <= |files|
    requires !Processed(c, p0, files, n).failed
    ensures forall j :: 0 <= j < n ==> Settled(c.dest, Processed(c, p0, files, n).fs, files[j])
    decreases n
  {
    if n > 0 {
      ProcessedNotFailed(c, p0, files, n);
      ProcessedSettles(c, p0, files, n - 1);
      ProcessedStepSettles(c, p0, files, n);
    }
  }

  /** A loop over settled assets changes nothing and neither fails nor updates Teams. */
  lemma {:induction false} ProcessedSettled(c: Ctx, p0: Progress, files: seq<Path>, n: nat)
    requires n <= |files|
    requires !p0.failed
    requires forall j :: 0 <= j < |files| ==> Settled(c.dest, p0.fs, files[j])
    ensures var q := Processed(c, p0, files, n);
      q.fs == p0.fs && !q.failed && q.teamsUpdate == p0.teamsUpdate
    decreases n
  {
    if n > 0 {
      ProcessedSettled(c, p0, files, n - 1);
      StepSettled(c, Processed(c, p0, files, n - 1), files[n - 1], n - 1);
    }
  }

  /** The loop creates no folder but the two Teams ones. */
  lemma {:induction false} ProcessedDirs(c: Ctx, p0: Progress, files: seq<Path>, n: nat)
    requires Separated(c)
    requires n <= |files|
    ensures Processed(c, p0, files, n).fs.dirs <= p0.fs.dirs + {c.backgrounds, c.uploads}
    decreases n
  {
    if n > 0 {
      ProcessedDirs(c, p0, files, n - 1);
      var q := Processed(c, p0, files, n - 1);
      if !q.failed {
        StepFrame(c, q, files[n - 1], n - 1);
      }
    }
  }

  /**
   * The loop run twice from the state the first pass left: the second pass,
   * at any later clock, changes nothing and meets no exception.
   */
  lemma LoopIdempotent(c: Ctx, later: Os, s1: Fs, listing: seq<Path>)
    requires Separated(c) && Apart(c, listing)
    ensures var q := Processed(c, Progress(s1, false, false, false), listing, |listing|);
      && s1.dirs <= q.fs.dirs <= s1.dirs + {c.backgrounds, c.uploads}
      && (!q.failed ==>
            var q2 := Processed(c.(os := later), Progress(q.fs, false, false, false), listing, |listing|);
            q2.fs == q.fs && !q2.failed && !q2.teamsUpdate)
  {
    var p0 := Progress(s1, false, false, false);
    var q := Processed(c, p0, listing, |listing|);
    ProcessedKeepsDirs(c, p0, listing, |listing|);
    ProcessedDirs(c, p0, listing, |listing|);
    if !q.failed {
      ProcessedSettles(c, p0, listing, |listing|);
      ProcessedSettled(c.(os := later), Progress(q.fs, false, false, false), listing, |listing|);
    }
  }

  /**
   * The routine is re-run every six hours, at start-up and on resume, and
   * must not redo its work: after a run that finished without an exception,
   * a second run over the same listing (at any later clock)
   * uses the same destination, changes no file and no folder, meets no
   * exception and reports no Teams update. The assets must have distinct
   * names and lie outside the picture and Teams folders, and the local
   * Pictures folder must not be one the first run could create.
   */
  lemma RunIdempotent(env: Env, listing: seq<Path>, os: Os, later: Os, s: Fs)
    requires |env.teams| > 0 && env.teams[|env.teams| - 1] == SEPARATOR
    requires !(env.teams <= env.userPictures + SUB_FOLDER)
    requires !(env.teams <= env.oneDrivePictures + SUB_FOLDER)
    requires env.userPictures != env.oneDrivePictures + SUB_FOLDER && !(env.teams <= env.userPictures)
    requires Apart(CtxFor(env.userPictures + SUB_FOLDER, env.teams, os), listing)
    requires Apart(CtxFor(env.oneDrivePictures + SUB_FOLDER, env.teams, os), listing)
    ensures var r := Run(env, listing, os, s);
      r.outcome.Finished? && !r.outcome.failed ==>
        var r2 := Run(env, listing, later, r.fs);
        && r2.fs == r.fs
        && r2.outcome.Finished? && r2.outcome.dest == r.outcome.dest
        && !r2.outcome.failed && !r2.outcome.teamsUpdate
  {
    var r := Run(env, listing, os, s);
    if r.outcome.Finished? && !r.outcome.failed {
      var root := ChooseRoot(env, s.dirs).value;
      var dest := root + SUB_FOLDER;
      var c := CtxFor(dest, env.teams, os);
      CtxForSeparated(dest, env.teams, os);
      var q := Processed(c, Progress(MakeDir(s, dest), false, false, false), listing, |listing|);
      assert r.fs == q.fs;
      LoopIdempotent(c, later, MakeDir(s, dest), listing);
      assert MakeDir(q.fs, dest) == q.fs;
      assert env.userPictures !in {c.backgrounds, c.uploads};
      assert ChooseRoot(env, r.fs.dirs) == Some(root);
      assert CtxFor(dest, env.teams, later) == c.(os := later);
    }
  }
}
