/**
 * `DoCopySpotlight` (CopySpotlight/CopySpotlight.cs:67-353) as the service
 * runs it: one pass over the Spotlight assets that changes the filesystem in
 * place. Every awaited call is read as finishing before the next line.
 */
module Service {
  import opened Wrappers
  import opened Paths
  import opened FileSystemModel
  import opened Pipeline
  import Properties

  /**
   * The body of the `foreach` (lines 123-331) for the `i`-th asset `file`.
   * `failed` reports the exception that reaches the outer catch.
   */
  method ProcessFile(fs: FileSystem, c: Ctx, file: Path, i: nat, hasNewFiles: bool, teamsUpdate: bool)
    returns (newFiles: bool, teams: bool, failed: bool)
    modifies fs
    ensures Progress(fs.State(), newFiles, teams, failed)
         == Step(c, Progress(old(fs.State()), hasNewFiles, teamsUpdate, false), file, i)
  {
    newFiles, teams, failed := hasNewFiles, teamsUpdate, false;

    var jpgFile := TargetPath(c.dest, file);
    if jpgFile in fs.files {
      return;
    }
    if file !in fs.files {
      // new FileInfo(file).Length throws FileNotFoundException
      failed := true;
      return;
    }
    if fs.files[file].length < MIN_FILESIZE_TO_COPY {
      return;
    }
    fs.CopyFile(file, jpgFile, c.os.created(i, jpgFile, CreatedOf(fs.State(), jpgFile)));
    newFiles := true;

    var img := ReadImage(fs.files[jpgFile]);
    if !img.threw && !img.isHdLandscape && !img.isHdPortrait {
      fs.Delete(jpgFile);
      return;
    }

    UpdateLatest(fs, c, jpgFile, img.isHdLandscape, i);

    if !img.isHdLandscape || c.teams !in fs.dirs {
      return;
    }
    var written := UpdateTeamsBackground(fs, c, jpgFile, i);
    teams := teams || written;
  }

  /** Lines 207-238: copy the image into its "latest" slot if that is absent or not newer. */
  method UpdateLatest(fs: FileSystem, c: Ctx, jpgFile: Path, isHdLandscape: bool, i: nat)
    requires jpgFile in fs.files
    modifies fs
    ensures fs.State() == PromoteLatest(c, old(fs.State()), jpgFile, isHdLandscape, i)
  {
    var latestTarget := LatestTarget(c, isHdLandscape);
    if Overwrites(fs.State(), latestTarget, jpgFile) {
      fs.CopyFile(jpgFile, latestTarget, c.os.created(i, latestTarget, CreatedOf(fs.State(), latestTarget)));
    }
  }

  /**
   * Lines 264-321: make the Teams folders, then write the background and a
   * fresh thumbnail if the background is absent or not newer. `written` says
   * whether that happened.
   */
  method UpdateTeamsBackground(fs: FileSystem, c: Ctx, jpgFile: Path, i: nat) returns (written: bool)
    requires jpgFile in fs.files
    modifies fs
    ensures (fs.State(), written) == PromoteTeams(c, old(fs.State()), jpgFile, i)
  {
    fs.CreateDirectory(c.backgrounds);
    fs.CreateDirectory(c.uploads);
    var background := c.background;
    var thumb := c.thumb;
    written := false;
    if Overwrites(fs.State(), background, jpgFile) {
      fs.CopyFile(jpgFile, background, c.os.created(i, background, CreatedOf(fs.State(), background)));
      var backgroundImage := fs.files[background];
      if thumb in fs.files {
        fs.Delete(thumb);
      } else {
        assert fs.files - {thumb} == fs.files;
      }
      fs.SaveImage(thumb, ThumbnailOf(c, backgroundImage, thumb, i));
      written := true;
    }
  }

  /**
   * The run. `listing` stands for `Directory.GetFiles` on the Spotlight
   * folder; the outcome tells which of the early returns was taken, or the
   * two flags the summary is chosen by (lines 341-346).
   */
  method DoCopySpotlight(fs: FileSystem, env: Env, listing: seq<Path>, os: Os) returns (outcome: Outcome)
    modifies fs
    ensures RunResult(outcome, fs.State()) == Run(env, listing, os, old(fs.State()))
  {
    var picturesFolderPath := ChooseRoot(env, fs.dirs);
    if picturesFolderPath.None? {
      return NoPicturesFolder;
    }
    var dest := picturesFolderPath.value + SUB_FOLDER;
    fs.CreateDirectory(dest);

    if env.spotlight !in fs.dirs {
      // Directory.GetFiles throws DirectoryNotFoundException, which nothing catches
      return SpotlightFolderMissing(dest);
    }
    if |listing| == 0 {
      return NoSpotlightFiles(dest);
    }

    var c := CtxFor(dest, env.teams, os);
    ghost var p0 := Progress(fs.State(), false, false, false);
    var hasNewFiles, teamsUpdate, failed := false, false, false;
    var i := 0;
    while i < |listing| && !failed
      invariant 0 <= i <= |listing|
      invariant Progress(fs.State(), hasNewFiles, teamsUpdate, failed) == Processed(c, p0, listing, i)
    {
      hasNewFiles, teamsUpdate, failed := ProcessFile(fs, c, listing[i], i, hasNewFiles, teamsUpdate);
      i := i + 1;
    }
    if failed {
      Properties.FailureEndsLoop(c, p0, listing, i, |listing|);
    }
    outcome := Finished(dest, hasNewFiles, teamsUpdate, failed);
  }
}
