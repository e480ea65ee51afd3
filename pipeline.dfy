/**
 * One run of `DoCopySpotlight` (CopySpotlight/CopySpotlight.cs:67-353) as
 * functions on the abstract filesystem: where the pictures go, what happens
 * to each Spotlight asset, and what the run reports. The imperative methods
 * in module Service are proved to do exactly this; module Properties proves
 * what it means.
 */
module Pipeline {
  import opened Wrappers
  import opened Paths
  import opened FileSystemModel

  /** Assets shorter than this many bytes are not copied (line 140). */
  const MIN_FILESIZE_TO_COPY: nat := 200 * 1000

  const HD_LONG_SIDE: int := 1920
  const HD_SHORT_SIDE: int := 1080

  /** The size the Teams thumbnail is rendered at (lines 295, 317). */
  const THUMB_WIDTH: nat := 280
  const THUMB_HEIGHT: nat := 158

  const SUB_FOLDER: string := "CopySpotlight\\"
  const LATEST_LANDSCAPE: string := "latest-landscape.jpg"
  const LATEST_PORTRAIT: string := "latest-portrait.jpg"
  const LATEST_THUMB: string := "latest-landscape_thumb.jpg"

  /**
   * The folders the service finds by expanding environment variables: the
   * local Pictures folder (`%UserProfile%\Pictures\`, lines 73-74), the
   * OneDrive one (`%OneDrive%\Pictures\`, 83-84), the Spotlight asset cache
   * (`%LocalAppData%\Packages\...\LocalState\Assets\`, 102-104) and the
   * Teams folder (`%appdata%\Microsoft\Teams\`, 248-249).
   */
  datatype Env = Env(userPictures: Path, oneDrivePictures: Path, spotlight: Path, teams: Path)

  /**
   * What the operating system and the imaging library decide and the service
   * only observes: the creation tick a file gets when it is written while the
   * `n`-th asset is processed (given the tick it had before, if it existed),
   * and the byte length of a rendered thumbnail.
   */
  datatype Os = Os(created: (nat, Path, Option<Tick>) -> Tick, thumbLength: Content -> nat)

  /**
   * What stays fixed during the loop over the assets: the destination, the
   * two "latest" slots in it (lines 210-211), the Teams folder, the two
   * folders below it and the two files in them (lines 265-272), and the
   * operating system's choices.
   */
  datatype Ctx = Ctx(dest: Path, latestLandscape: Path, latestPortrait: Path,
                     teams: Path, backgrounds: Path, uploads: Path,
                     background: Path, thumb: Path, os: Os)

  /** The context of a run that writes to `dest` and sees the Teams folder at `teams`. */
  function CtxFor(dest: Path, teams: Path, os: Os): Ctx
  {
    var uploads := teams + "Backgrounds\\Uploads\\";
    Ctx(dest, dest + LATEST_LANDSCAPE, dest + LATEST_PORTRAIT,
        teams, teams + "Backgrounds\\", uploads,
        uploads + LATEST_LANDSCAPE, uploads + LATEST_THUMB, os)
  }

  /**
   * What the loop carries from one asset to the next: the filesystem, the
   * flags `hasNewFiles` (line 117) and `teamsUpdate` (line 118), and whether
   * an exception ended the loop (lines 334-338).
   */
  datatype Progress = Progress(fs: Fs, hasNewFiles: bool, teamsUpdate: bool, failed: bool)

  /**
   * Lines 73-96: the local Pictures folder if it exists, else the OneDrive one
   * if it exists, else none. (The `IsNullOrEmpty` test at line 91 can only see
   * the null case: both candidates end in `\Pictures\`.)
   */
  function ChooseRoot(env: Env, dirs: set<Path>): (root: Option<Path>)
    ensures env.userPictures in dirs ==> root == Some(env.userPictures)
    ensures env.userPictures !in dirs && env.oneDrivePictures in dirs ==>
      root == Some(env.oneDrivePictures)
    ensures root == None <==> env.userPictures !in dirs && env.oneDrivePictures !in dirs
  {
    if env.userPictures in dirs then Some(env.userPictures)
    else if env.oneDrivePictures in dirs then Some(env.oneDrivePictures)
    else None
  }

  /** Line 129: where an asset is copied to. */
  function TargetPath(dest: Path, file: Path): Path
  {
    dest + FileName(file) + ".jpg"
  }

  /** The flags lines 159-200 compute for a freshly copied file. */
  datatype ImageInfo = ImageInfo(threw: bool, isJpgImage: bool, isHdLandscape: bool, isHdPortrait: bool)

  /**
   * Lines 162-200: decode the copy; it is a JPEG if the format says so and both
   * sides are positive, landscape at 1920x1080, portrait at 1080x1920. If
   * decoding throws, every flag stays false.
   */
  function ReadImage(r: FileRecord): (info: ImageInfo)
    ensures info.threw <==> r.image.Throws?
    ensures info.isHdLandscape <==> r.length >= MIN_FILESIZE_TO_COPY && r.image == Decodes(Jpeg, 1920, 1080)
    ensures info.isHdPortrait <==> r.length >= MIN_FILESIZE_TO_COPY && r.image == Decodes(Jpeg, 1080, 1920)
    ensures !(info.isHdLandscape && info.isHdPortrait)
  {
    match r.image
    case Throws => ImageInfo(true, false, false, false)
    case Decodes(format, width, height) =>
      if r.length >= MIN_FILESIZE_TO_COPY then
        var isJpg := format == Jpeg && width > 0 && height > 0;
        ImageInfo(false, isJpg,
                  isJpg && width == HD_LONG_SIDE && height == HD_SHORT_SIDE,
                  isJpg && width == HD_SHORT_SIDE && height == HD_LONG_SIDE)
      else
        ImageInfo(false, false, false, false)
  }

  /** Lines 210-214: the "latest" slot an image competes for. */
  function LatestTarget(c: Ctx, isHdLandscape: bool): Path
  {
    if isHdLandscape then c.latestLandscape else c.latestPortrait
  }

  /** Lines 217, 225-226, 279, 305-306: a slot is written when it is absent or not newer than the copy. */
  predicate Overwrites(s: Fs, slot: Path, jpg: Path)
    requires jpg in s.files
  {
    slot !in s.files || s.files[slot].created <= s.files[jpg].created
  }

  /** A copy made while the `i`-th asset is processed, stamped by the operating system. */
  function Copy(c: Ctx, s: Fs, src: Path, dst: Path, i: nat): Fs
    requires src in s.files
  {
    CopyTo(s, src, dst, c.os.created(i, dst, CreatedOf(s, dst)))
  }

  /** Lines 295-296 / 317-318: the thumbnail drawn from the background, written to a path just emptied. */
  function ThumbnailOf(c: Ctx, background: FileRecord, thumb: Path, i: nat): FileRecord
  {
    FileRecord(Thumbnail(background.content, THUMB_WIDTH, THUMB_HEIGHT),
               c.os.thumbLength(background.content),
               c.os.created(i, thumb, None),
               Decodes(Png, THUMB_WIDTH, THUMB_HEIGHT))
  }

  /** Lines 207-238: copy the image into its slot if the slot is absent or not newer. */
  function PromoteLatest(c: Ctx, s: Fs, jpg: Path, isHdLandscape: bool, i: nat): Fs
    requires jpg in s.files
  {
    var latest := LatestTarget(c, isHdLandscape);
    if Overwrites(s, latest, jpg) then Copy(c, s, jpg, latest, i) else s
  }

  /**
   * Lines 264-321, reached for a landscape image when the Teams folder exists:
   * make the two folders, then write the background if it is absent or not
   * newer, and with it a fresh thumbnail. The flag says whether that happened.
   */
  function PromoteTeams(c: Ctx, s: Fs, jpg: Path, i: nat): (Fs, bool)
    requires jpg in s.files
  {
    var s1 := MakeDir(MakeDir(s, c.backgrounds), c.uploads);
    if Overwrites(s1, c.background, jpg) then
      var s2 := Copy(c, s1, jpg, c.background, i);
      var s3 := Remove(s2, c.thumb);
      (Save(s3, c.thumb, ThumbnailOf(c, s2.files[c.background], c.thumb, i)), true)
    else
      (s1, false)
  }

  /**
   * Lines 157-331, for the copy `jpg` just made: classify it, delete it if it
   * decodes but is not HD, otherwise promote it to its "latest" slot and, for
   * landscape, to Teams. The flag says whether the Teams background was written.
   */
  function Promote(c: Ctx, s: Fs, jpg: Path, i: nat): (Fs, bool)
    requires jpg in s.files
  {
    var img := ReadImage(s.files[jpg]);
    if !img.threw && !img.isHdLandscape && !img.isHdPortrait then
      (Remove(s, jpg), false)
    else
      var s1 := PromoteLatest(c, s, jpg, img.isHdLandscape, i);
      if !img.isHdLandscape || c.teams !in s1.dirs then (s1, false)
      else PromoteTeams(c, s1, jpg, i)
  }

  /** One pass of the `foreach` body (lines 123-331) for the `i`-th asset `file`. */
  function Step(c: Ctx, p: Progress, file: Path, i: nat): Progress
  {
    var s := p.fs;
    var jpg := TargetPath(c.dest, file);
    if jpg in s.files then p
    else if file !in s.files then p.(failed := true)
    else if s.files[file].length < MIN_FILESIZE_TO_COPY then p
    else
      var (s1, written) := Promote(c, Copy(c, s, file, jpg, i), jpg, i);
      p.(fs := s1, hasNewFiles := true, teamsUpdate := p.teamsUpdate || written)
  }

  /** The loop (lines 119-338) after the first `n` assets; an exception ends it. */
  function Processed(c: Ctx, p0: Progress, files: seq<Path>, n: nat): Progress
    requires n <= |files|
    decreases n
  {
    if n == 0 then p0
    else
      var q := Processed(c, p0, files, n - 1);
      if q.failed then q else Step(c, q, files[n - 1], n - 1)
  }

  /** How a run ends, with the destination it used. */
  datatype Outcome =
    | NoPicturesFolder
    | SpotlightFolderMissing(dest: Path)
    | NoSpotlightFiles(dest: Path)
    | Finished(dest: Path, hasNewFiles: bool, teamsUpdate: bool, failed: bool)

  datatype RunResult = RunResult(outcome: Outcome, fs: Fs)

  /**
   * The whole run. `listing` is what `Directory.GetFiles` returns for the
   * Spotlight folder when that folder exists.
   */
  function Run(env: Env, listing: seq<Path>, os: Os, s: Fs): RunResult
  {
    match ChooseRoot(env, s.dirs)
    case None => RunResult(NoPicturesFolder, s)
    case Some(root) =>
      var dest := root + SUB_FOLDER;
      var s1 := MakeDir(s, dest);
      if env.spotlight !in s1.dirs then RunResult(SpotlightFolderMissing(dest), s1)
      else if listing == [] then RunResult(NoSpotlightFiles(dest), s1)
      else
        var c := CtxFor(dest, env.teams, os);
        var q := Processed(c, Progress(s1, false, false, false), listing, |listing|);
        RunResult(Finished(dest, q.hasNewFiles, q.teamsUpdate, q.failed), q.fs)
  }
}
