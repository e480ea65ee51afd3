/**
 * What one step and one run of the pipeline promise, proved about the
 * specification functions of module Pipeline (and so, by the contracts of
 * module Service, about the imperative run).
 */
module Properties {
  import opened Wrappers
  import opened Paths
  import opened FileSystemModel
  import opened Pipeline

  /** The condition under which line 153 copies `file`: no target yet, and a source at least 200000 bytes long. */
  predicate Copies(c: Ctx, s: Fs, file: Path)
  {
    TargetPath(c.dest, file) !in s.files && file in s.files &&
    s.files[file].length >= MIN_FILESIZE_TO_COPY
  }

  /**
   * The paths of a context keep the picture folder and the Teams tree apart:
   * the Teams folder ends with a separator, the picture folder and its two
   * slots do not lie under it, the two Teams files do, and the slots and the
   * Teams files are pairwise distinct. CtxForSeparated shows that every run
   * whose picture folder is outside the Teams folder has such a context.
   */
  ghost predicate Separated(c: Ctx)
  {
    && |c.teams| > 0 && c.teams[|c.teams| - 1] == SEPARATOR
    && !(c.teams <= c.dest)
    && !(c.teams <= c.latestLandscape) && !(c.teams <= c.latestPortrait)
    && c.latestLandscape != c.latestPortrait
    && c.teams <= c.background && c.teams <= c.thumb && c.background != c.thumb
  }

  /** `a` and `b` hold the same files at every path under `dir`. */
  ghost predicate SameUnder(dir: Path, a: Fs, b: Fs)
  {
    forall x :: dir <= x ==> Lookup(a, x) == Lookup(b, x)
  }

  /** The record the copy at line 153 writes. */
  function Copied(c: Ctx, s: Fs, file: Path, i: nat): FileRecord
    requires file in s.files
  {
    s.files[file].(created := c.os.created(i, TargetPath(c.dest, file), None))
  }

  const HD_LANDSCAPE: Decoding := Decodes(Jpeg, 1920, 1080)
  const HD_PORTRAIT: Decoding := Decodes(Jpeg, 1080, 1920)

  lemma SameUnderTransitive(dir: Path, a: Fs, b: Fs, d: Fs)
    requires SameUnder(dir, a, b) && SameUnder(dir, b, d)
    ensures SameUnder(dir, a, d)
  {
  }

  // ---------------------------------------------------------------- paths

  /** Line 129: the target is the destination, the asset's last path segment, and ".jpg". */
  lemma TargetPathShape(dest: Path, file: Path)
    ensures var t := TargetPath(dest, file);
      |t| >= |dest| + 4 && t[..|dest|] == dest && t[|t| - 4..] == ".jpg" &&
      IsLastSegment(file, t[|dest|..|t| - 4])
  {
    var name := FileName(file);
    var t := TargetPath(dest, file);
    assert t == dest + name + ".jpg";
    assert t[..|dest|] == dest;
    assert t[|dest|..|t| - 4] == name;
    assert t[|t| - 4..] == ".jpg";
    FileNameIsLastSegment(file);
  }

  /** The target of an asset never lies in the Teams tree. */
  lemma OutsideTeams(c: Ctx, file: Path)
    requires Separated(c)
    ensures !(c.teams <= TargetPath(c.dest, file))
  {
    var name := FileName(file) + ".jpg";
    FileNameIsLastSegment(file);
    assert SEPARATOR !in name by {
      forall k | 0 <= k < |name| ensures name[k] != SEPARATOR {
        if k < |FileName(file)| {
          assert name[k] == FileName(file)[k];
        }
      }
    }
    assert TargetPath(c.dest, file) == c.dest + name;
    NotBelow(c.teams, c.dest, name);
  }

  /** The paths a run builds are separated when the picture folder is outside the Teams folder. */
  lemma CtxForSeparated(dest: Path, teams: Path, os: Os)
    requires |teams| > 0 && teams[|teams| - 1] == SEPARATOR
    requires !(teams <= dest)
    ensures Separated(CtxFor(dest, teams, os))
  {
    var c := CtxFor(dest, teams, os);
    assert SEPARATOR !in LATEST_LANDSCAPE;
    assert SEPARATOR !in LATEST_PORTRAIT;
    NotBelow(teams, dest, LATEST_LANDSCAPE);
    NotBelow(teams, dest, LATEST_PORTRAIT);
    assert |c.latestLandscape| != |c.latestPortrait|;
    assert |c.background| != |c.thumb|;
  }

  // ---------------------------------------------------------------- one asset

  /** Lines 133-147: an asset whose target exists, or that is too short, changes nothing. */
  lemma StepSkips(c: Ctx, p: Progress, file: Path, i: nat)
    requires TargetPath(c.dest, file) in p.fs.files ||
             (file in p.fs.files && p.fs.files[file].length < MIN_FILESIZE_TO_COPY)
    ensures Step(c, p, file, i) == p
  {
  }

  /**
   * Lines 117, 141-154: `hasNewFiles` becomes true exactly when the copy at
   * line 153 happens and is never reset; only a vanished source ends the loop.
   */
  lemma StepNewFiles(c: Ctx, p: Progress, file: Path, i: nat)
    ensures Step(c, p, file, i).hasNewFiles == (p.hasNewFiles || Copies(c, p.fs, file))
    ensures Step(c, p, file, i).failed ==
      (p.failed || (TargetPath(c.dest, file) !in p.fs.files && file !in p.fs.files))
  {
  }

  /** Copying to a fresh path and deleting it again leaves the filesystem as it was. */
  lemma CopyThenRemove(s: Fs, src: Path, dst: Path, t: Tick)
    requires src in s.files && dst !in s.files
    ensures Remove(CopyTo(s, src, dst, t), dst) == s
  {
    assert s.files[dst := s.files[src].(created := t)] - {dst} == s.files;
  }

  /**
   * Lines 159-195: a copy that decodes but is neither a 1920x1080 nor a
   * 1080x1920 JPEG is deleted again; no slot, no Teams file, no flag but
   * `hasNewFiles` changes.
   */
  lemma StepPrunes(c: Ctx, p: Progress, file: Path, i: nat)
    requires Copies(c, p.fs, file)
    requires p.fs.files[file].image.Decodes?
    requires p.fs.files[file].image != HD_LANDSCAPE && p.fs.files[file].image != HD_PORTRAIT
    ensures Step(c, p, file, i) == p.(hasNewFiles := true)
  {
    var jpg := TargetPath(c.dest, file);
    CopyThenRemove(p.fs, file, jpg, c.os.created(i, jpg, CreatedOf(p.fs, jpg)));
  }

  /** Line 153 writes the copy and nothing else. */
  lemma CopyWrites(c: Ctx, s: Fs, file: Path, i: nat)
    requires Copies(c, s, file)
    ensures var s1 := Copy(c, s, file, TargetPath(c.dest, file), i);
      && s1.dirs == s.dirs
      && Lookup(s1, TargetPath(c.dest, file)) == Some(Copied(c, s, file, i))
      && forall x :: x != TargetPath(c.dest, file) ==> Lookup(s1, x) == Lookup(s, x)
  {
  }

  /** Lines 210-231 on their own: only the chosen slot may change, by the `<=` rule. */
  lemma LatestRule(c: Ctx, s: Fs, jpg: Path, landscape: bool, i: nat)
    requires jpg in s.files
    requires jpg != LatestTarget(c, landscape)
    ensures var r := PromoteLatest(c, s, jpg, landscape, i);
      var slot := LatestTarget(c, landscape);
      && r.dirs == s.dirs
      && (Overwrites(s, slot, jpg) ==>
            Lookup(r, slot) == Some(s.files[jpg].(created := c.os.created(i, slot, CreatedOf(s, slot)))))
      && (!Overwrites(s, slot, jpg) ==> Lookup(r, slot) == Lookup(s, slot))
      && forall x :: x != slot ==> Lookup(r, x) == Lookup(s, x)
  {
  }

  /** Lines 264-321 write only below the Teams folder. */
  lemma TeamsConfined(c: Ctx, s: Fs, jpg: Path, i: nat)
    requires Separated(c)
    requires jpg in s.files
    ensures var r := PromoteTeams(c, s, jpg, i).0;
      forall x :: !(c.teams <= x) ==> Lookup(r, x) == Lookup(s, x)
  {
  }

  /**
   * Lines 207-238: a kept copy (an HD image, or one whose decoding threw)
   * competes for exactly one slot, the landscape one only when it is HD
   * landscape. The slot receives the copy iff it is absent or its creation
   * tick is <= the copy's; the copy itself stays; the other slot and every
   * path outside the Teams tree keep their files.
   */
  lemma StepPromotesLatest(c: Ctx, p: Progress, file: Path, i: nat)
    requires Separated(c)
    requires Copies(c, p.fs, file)
    requires p.fs.files[file].image in {Throws, HD_LANDSCAPE, HD_PORTRAIT}
    requires TargetPath(c.dest, file) != c.latestLandscape
    requires TargetPath(c.dest, file) != c.latestPortrait
    ensures var s := p.fs; var q := Step(c, p, file, i);
      var jpg := TargetPath(c.dest, file);
      var copy := Copied(c, s, file, i);
      var landscape := s.files[file].image == HD_LANDSCAPE;
      var slot := LatestTarget(c, landscape);
      var other := LatestTarget(c, !landscape);
      && Lookup(q.fs, jpg) == Some(copy)
      && (slot !in s.files || s.files[slot].created <= copy.created ==>
            Lookup(q.fs, slot) == Some(copy.(created := c.os.created(i, slot, CreatedOf(s, slot)))))
      && (slot in s.files && s.files[slot].created > copy.created ==>
            Lookup(q.fs, slot) == Lookup(s, slot))
      && Lookup(q.fs, other) == Lookup(s, other)
      && (forall x :: x != jpg && x != slot && !(c.teams <= x) ==> Lookup(q.fs, x) == Lookup(s, x))
      && q.hasNewFiles && q.failed == p.failed
  {
    OutsideTeams(c, file);
    var s := p.fs;
    var jpg := TargetPath(c.dest, file);
    var s1 := Copy(c, s, file, jpg, i);
    CopyWrites(c, s, file, i);
    var landscape := s.files[file].image == HD_LANDSCAPE;
    assert ReadImage(s1.files[jpg]).isHdLandscape == landscape;
    var s2 := PromoteLatest(c, s1, jpg, landscape, i);
    LatestRule(c, s1, jpg, landscape, i);
    var q := Step(c, p, file, i);
    assert q.fs == Promote(c, s1, jpg, i).0;
    if landscape && c.teams in s2.dirs {
      assert q.fs == PromoteTeams(c, s2, jpg, i).0;
      TeamsConfined(c, s2, jpg, i);
    } else {
      assert q.fs == s2;
    }
    assert forall x :: !(c.teams <= x) ==> Lookup(q.fs, x) == Lookup(s2, x);
  }

  /**
   * Lines 162-200, 212-214, 250-262: when decoding throws, the copy is kept,
   * the portrait slot is the one considered, and the Teams section is skipped.
   */
  lemma StepKeepsUndecodable(c: Ctx, p: Progress, file: Path, i: nat)
    requires Separated(c)
    requires Copies(c, p.fs, file)
    requires p.fs.files[file].image == Throws
    requires TargetPath(c.dest, file) != c.latestPortrait
    ensures var q := Step(c, p, file, i);
      var jpg := TargetPath(c.dest, file);
      && Lookup(q.fs, jpg) == Some(Copied(c, p.fs, file, i))
      && q.fs == PromoteLatest(c, Copy(c, p.fs, file, jpg, i), jpg, false, i)
      && LatestTarget(c, false) == c.latestPortrait
      && q.teamsUpdate == p.teamsUpdate && q.fs.dirs == p.fs.dirs
      && SameUnder(c.teams, q.fs, p.fs)
  {
    OutsideTeams(c, file);
  }

  /**
   * Lines 248-262: unless the asset is copied, is HD landscape and the Teams
   * folder exists, the step creates no directory, touches nothing under the
   * Teams folder and leaves `teamsUpdate` alone.
   */
  lemma StepLeavesTeamsAlone(c: Ctx, p: Progress, file: Path, i: nat)
    requires Separated(c)
    requires !(Copies(c, p.fs, file) && p.fs.files[file].image == HD_LANDSCAPE && c.teams in p.fs.dirs)
    ensures var q := Step(c, p, file, i);
      q.fs.dirs == p.fs.dirs && SameUnder(c.teams, q.fs, p.fs) && q.teamsUpdate == p.teamsUpdate
  {
    OutsideTeams(c, file);
    var jpg := TargetPath(c.dest, file);
    if Copies(c, p.fs, file) {
      var img := ReadImage(p.fs.files[file]);
      if !img.threw && !img.isHdLandscape && !img.isHdPortrait {
        CopyThenRemove(p.fs, file, jpg, c.os.created(i, jpg, CreatedOf(p.fs, jpg)));
      }
    }
  }

  /**
   * Lines 264-321: for an HD landscape copy when the Teams folder exists, the
   * Backgrounds and Uploads folders exist afterwards; the Teams background is
   * written iff it is absent or its tick is <= the copy's, and then the
   * thumbnail is replaced by a 280x158 rendering of it and `teamsUpdate` is
   * set; otherwise neither file nor the flag changes. Nothing else in the
   * Teams tree changes.
   */
  lemma StepPromotesTeams(c: Ctx, p: Progress, file: Path, i: nat)
    requires Separated(c)
    requires Copies(c, p.fs, file)
    requires p.fs.files[file].image == HD_LANDSCAPE
    requires c.teams in p.fs.dirs
    requires TargetPath(c.dest, file) != c.latestLandscape
    ensures var s := p.fs; var q := Step(c, p, file, i);
      var copy := Copied(c, s, file, i);
      var bg := c.background;
      var thumb := c.thumb;
      && q.fs.dirs == s.dirs + {c.backgrounds, c.uploads}
      && (bg !in s.files || s.files[bg].created <= copy.created ==>
            && Lookup(q.fs, bg) == Some(copy.(created := c.os.created(i, bg, CreatedOf(s, bg))))
            && thumb in q.fs.files
            && q.fs.files[thumb].content == Thumbnail(s.files[file].content, THUMB_WIDTH, THUMB_HEIGHT)
            && q.fs.files[thumb].image == Decodes(Png, 280, 158)
            && q.teamsUpdate)
      && (bg in s.files && s.files[bg].created > copy.created ==>
            && Lookup(q.fs, bg) == Lookup(s, bg)
            && Lookup(q.fs, thumb) == Lookup(s, thumb)
            && q.teamsUpdate == p.teamsUpdate)
      && (forall x :: c.teams <= x && x != bg && x != thumb ==> Lookup(q.fs, x) == Lookup(s, x))
  {
    OutsideTeams(c, file);
  }

  // ---------------------------------------------------------------- the loop

  /** Once an exception has ended the loop, later assets change nothing. */
  lemma {:induction false} FailureEndsLoop(c: Ctx, p0: Progress, files: seq<Path>, n: nat, m: nat)
    requires n <= m <= |files|
    requires Processed(c, p0, files, n).failed
    ensures Processed(c, p0, files, m) == Processed(c, p0, files, n)
    decreases m - n
  {
    if m > n {
      FailureEndsLoop(c, p0, files, n, m - 1);
    }
  }

  /** The `k`-th asset was reached by the loop and copied at line 153. */
  ghost predicate CopiedAt(c: Ctx, p0: Progress, files: seq<Path>, k: nat)
    requires k < |files|
  {
    var q := Processed(c, p0, files, k);
    !q.failed && Copies(c, q.fs, files[k])
  }

  /**
   * `hasNewFiles` after the first `n` assets is true exactly when it started
   * true or some asset reached before the loop ended was copied at line 153.
   */
  lemma {:induction false} ProcessedNewFiles(c: Ctx, p0: Progress, files: seq<Path>, n: nat)
    requires n <= |files|
    ensures Processed(c, p0, files, n).hasNewFiles <==>
      p0.hasNewFiles || exists k :: 0 <= k < n && CopiedAt(c, p0, files, k)
    decreases n
  {
    if n > 0 {
      ProcessedNewFiles(c, p0, files, n - 1);
      var q := Processed(c, p0, files, n - 1);
      if !q.failed {
        StepNewFiles(c, q, files[n - 1], n - 1);
      }
      assert Processed(c, p0, files, n).hasNewFiles == (q.hasNewFiles || CopiedAt(c, p0, files, n - 1));
    }
  }

  /** Directories are only ever created, never removed. */
  lemma {:induction false} ProcessedKeepsDirs(c: Ctx, p0: Progress, files: seq<Path>, n: nat)
    requires n <= |files|
    ensures p0.fs.dirs <= Processed(c, p0, files, n).fs.dirs
    decreases n
  {
    if n > 0 {
      ProcessedKeepsDirs(c, p0, files, n - 1);
    }
  }

  /** One turn of the loop while the Teams folder does not exist. */
  lemma ProcessedStepLeavesTeamsAlone(c: Ctx, p0: Progress, files: seq<Path>, n: nat)
    requires Separated(c)
    requires 0 < n <= |files|
    requires c.teams !in Processed(c, p0, files, n - 1).fs.dirs
    ensures var q := Processed(c, p0, files, n - 1); var r := Processed(c, p0, files, n);
      r.fs.dirs == q.fs.dirs && SameUnder(c.teams, r.fs, q.fs) && r.teamsUpdate == q.teamsUpdate
  {
    var q := Processed(c, p0, files, n - 1);
    if !q.failed {
      StepLeavesTeamsAlone(c, q, files[n - 1], n - 1);
    }
  }

  /**
   * When the Teams folder does not exist, no asset creates it, nothing under
   * it changes and `teamsUpdate` keeps its value.
   */
  lemma {:induction false} ProcessedLeavesTeamsAlone(c: Ctx, p0: Progress, files: seq<Path>, n: nat)
    requires Separated(c)
    requires c.teams !in p0.fs.dirs
    requires n <= |files|
    ensures var q := Processed(c, p0, files, n);
      q.fs.dirs == p0.fs.dirs && SameUnder(c.teams, q.fs, p0.fs) && q.teamsUpdate == p0.teamsUpdate
    decreases n
  {
    if n > 0 {
      ProcessedLeavesTeamsAlone(c, p0, files, n - 1);
      ProcessedStepLeavesTeamsAlone(c, p0, files, n);
      SameUnderTransitive(c.teams, Processed(c, p0, files, n).fs, Processed(c, p0, files, n - 1).fs, p0.fs);
    }
  }

  // ---------------------------------------------------------------- the run

  /**
   * Lines 73-99: the run uses the local Pictures folder if it exists, else the
   * OneDrive one; without either it returns with the filesystem untouched.
   * Otherwise the destination is that folder plus `CopySpotlight\`, and it
   * exists afterwards.
   */
  lemma RunDestination(env: Env, listing: seq<Path>, os: Os, s: Fs)
    ensures var r := Run(env, listing, os, s);
      && (r.outcome == NoPicturesFolder <==>
            env.userPictures !in s.dirs && env.oneDrivePictures !in s.dirs)
      && (r.outcome == NoPicturesFolder ==> r.fs == s)
      && (r.outcome != NoPicturesFolder ==>
            && r.outcome.dest == (if env.userPictures in s.dirs then env.userPictures
                                  else env.oneDrivePictures) + SUB_FOLDER
            && r.outcome.dest in r.fs.dirs)
  {
    match ChooseRoot(env, s.dirs)
    case None =>
    case Some(root) =>
      var dest := root + SUB_FOLDER;
      var s1 := MakeDir(s, dest);
      if env.spotlight in s1.dirs && listing != [] {
        var c := CtxFor(dest, env.teams, os);
        ProcessedKeepsDirs(c, Progress(s1, false, false, false), listing, |listing|);
      }
  }

  /** Lines 106-112: with no assets the run returns before any copy; no file changes. */
  lemma RunEmptySource(env: Env, os: Os, s: Fs)
    ensures var r := Run(env, [], os, s);
      && r.fs.files == s.files
      && !r.outcome.Finished?
      && (ChooseRoot(env, s.dirs).Some? && env.spotlight in r.fs.dirs ==> r.outcome.NoSpotlightFiles?)
  {
  }

  /**
   * Lines 117, 153-154, 341-343: a finished run reports new files exactly
   * when some asset the loop reached was copied.
   */
  lemma RunReportsNewFiles(env: Env, listing: seq<Path>, os: Os, s: Fs)
    requires Run(env, listing, os, s).outcome.Finished?
    ensures var dest := Run(env, listing, os, s).outcome.dest;
      var c := CtxFor(dest, env.teams, os);
      var p0 := Progress(MakeDir(s, dest), false, false, false);
      Run(env, listing, os, s).outcome.hasNewFiles <==>
        exists k :: 0 <= k < |listing| && CopiedAt(c, p0, listing, k)
  {
    var dest := Run(env, listing, os, s).outcome.dest;
    ProcessedNewFiles(CtxFor(dest, env.teams, os), Progress(MakeDir(s, dest), false, false, false),
                      listing, |listing|);
  }

  /**
   * Lines 279-327 for one asset: the asset is copied as an HD landscape JPEG,
   * the Teams folder exists, and the Teams background is absent or not newer
   * than the copy.
   */
  predicate WritesTeams(c: Ctx, s: Fs, file: Path, i: nat)
  {
    && Copies(c, s, file) && s.files[file].image == HD_LANDSCAPE && c.teams in s.dirs
    && (c.background !in s.files || s.files[c.background].created <= Copied(c, s, file, i).created)
  }

  /** Lines 301 and 320: one asset sets `teamsUpdate` exactly when it writes the Teams background. */
  lemma StepTeamsUpdate(c: Ctx, p: Progress, file: Path, i: nat)
    requires Separated(c)
    requires TargetPath(c.dest, file) != c.latestLandscape
    ensures Step(c, p, file, i).teamsUpdate <==> p.teamsUpdate || WritesTeams(c, p.fs, file, i)
  {
    if Copies(c, p.fs, file) && p.fs.files[file].image == HD_LANDSCAPE && c.teams in p.fs.dirs {
      StepPromotesTeams(c, p, file, i);
    } else {
      StepLeavesTeamsAlone(c, p, file, i);
    }
  }

  /** The `k`-th asset was reached by the loop and written to the Teams background. */
  ghost predicate TeamsWrittenAt(c: Ctx, p0: Progress, files: seq<Path>, k: nat)
    requires k < |files|
  {
    var q := Processed(c, p0, files, k);
    !q.failed && WritesTeams(c, q.fs, files[k], k)
  }

  /**
   * `teamsUpdate` after the first `n` assets is true exactly when it started
   * true or some asset the loop reached before an exception wrote the Teams
   * background.
   */
  lemma {:induction false} ProcessedTeamsUpdate(c: Ctx, p0: Progress, files: seq<Path>, n: nat)
    requires Separated(c)
    requires forall j :: 0 <= j < |files| ==> TargetPath(c.dest, files[j]) != c.latestLandscape
    requires n <= |files|
    ensures Processed(c, p0, files, n).teamsUpdate <==>
      p0.teamsUpdate || exists k :: 0 <= k < n && TeamsWrittenAt(c, p0, files, k)
    decreases n
  {
    if n > 0 {
      ProcessedTeamsUpdate(c, p0, files, n - 1);
      var q := Processed(c, p0, files, n - 1);
      if !q.failed {
        StepTeamsUpdate(c, q, files[n - 1], n - 1);
      }
      assert Processed(c, p0, files, n).teamsUpdate == (q.teamsUpdate || TeamsWrittenAt(c, p0, files, n - 1));
    }
  }

  /** An asset whose name is not `latest-landscape` does not have the landscape slot as its target. */
  lemma TargetNotLandscapeSlot(dest: Path, file: Path)
    requires FileName(file) + ".jpg" != LATEST_LANDSCAPE
    ensures TargetPath(dest, file) != dest + LATEST_LANDSCAPE
  {
    var t := TargetPath(dest, file);
    assert t == dest + (FileName(file) + ".jpg");
    assert t[|dest|..] == FileName(file) + ".jpg";
    assert (dest + LATEST_LANDSCAPE)[|dest|..] == LATEST_LANDSCAPE;
  }

  /**
   * Lines 118 and 344, over a whole run: the run reports a Teams update exactly when
   * some asset it reached was copied as an HD landscape JPEG while the Teams
   * folder existed and the Teams background was absent or not newer. No asset
   * may be named `latest-landscape`, whose target would be the slot itself.
   */
  lemma RunReportsTeamsUpdate(env: Env, listing: seq<Path>, os: Os, s: Fs)
    requires |env.teams| > 0 && env.teams[|env.teams| - 1] == SEPARATOR
    requires !(env.teams <= env.userPictures + SUB_FOLDER)
    requires !(env.teams <= env.oneDrivePictures + SUB_FOLDER)
    requires forall j :: 0 <= j < |listing| ==> FileName(listing[j]) + ".jpg" != LATEST_LANDSCAPE
    requires Run(env, listing, os, s).outcome.Finished?
    ensures var dest := Run(env, listing, os, s).outcome.dest;
      var c := CtxFor(dest, env.teams, os);
      var p0 := Progress(MakeDir(s, dest), false, false, false);
      Run(env, listing, os, s).outcome.teamsUpdate <==>
        exists k :: 0 <= k < |listing| && TeamsWrittenAt(c, p0, listing, k)
  {
    var dest := Run(env, listing, os, s).outcome.dest;
    var c := CtxFor(dest, env.teams, os);
    CtxForSeparated(dest, env.teams, os);
    forall j | 0 <= j < |listing|
      ensures TargetPath(c.dest, listing[j]) != c.latestLandscape
    {
      TargetNotLandscapeSlot(dest, listing[j]);
    }
    ProcessedTeamsUpdate(c, Progress(MakeDir(s, dest), false, false, false), listing, |listing|);
  }

  /**
   * Lines 248-262, over a whole run: when the Teams folder does not exist and
   * the picture folder does not lie under it, the run creates nothing under
   * it, changes nothing there, and never reports a Teams update.
   */
  lemma RunLeavesTeamsAlone(env: Env, listing: seq<Path>, os: Os, s: Fs)
    requires |env.teams| > 0 && env.teams[|env.teams| - 1] == SEPARATOR
    requires env.teams !in s.dirs
    requires !(env.teams <= env.userPictures + SUB_FOLDER)
    requires !(env.teams <= env.oneDrivePictures + SUB_FOLDER)
    ensures var r := Run(env, listing, os, s);
      && env.teams !in r.fs.dirs
      && SameUnder(env.teams, r.fs, s)
      && (r.outcome.Finished? ==> !r.outcome.teamsUpdate)
  {
    match ChooseRoot(env, s.dirs)
    case None =>
    case Some(root) =>
      var dest := root + SUB_FOLDER;
      var s1 := MakeDir(s, dest);
      assert env.teams != dest;
      if env.spotlight in s1.dirs && listing != [] {
        var c := CtxFor(dest, env.teams, os);
        CtxForSeparated(dest, env.teams, os);
        ProcessedLeavesTeamsAlone(c, Progress(s1, false, false, false), listing, |listing|);
      }
  }
}
