# CopySpotlight: the file-promotion pipeline

CopySpotlight is a Windows service. It runs a routine every six hours, at
start-up and on resume. The routine copies the wallpapers that Windows
Spotlight downloads into the user's Pictures folder, skipping an asset
whose `.jpg` copy already exists and one shorter than 200000 bytes. It
keeps each copy that decodes as a 1920x1080 or 1080x1920 JPEG, or whose
decoding throws, and deletes the other copies. It then copies a kept image
into its slot (`latest-landscape.jpg` for the 1920x1080 ones,
`latest-portrait.jpg` for every other kept copy) when the slot is absent
or the slot's creation tick is `<=` the copy's. When the Microsoft Teams
folder exists, a 1920x1080 copy goes by the same rule into the Teams
custom background, which is then given a fresh 280x158 thumbnail.

This project models that routine, `DoCopySpotlight`, over an abstract
filesystem, and proves what it does with every asset.

- `paths.dfy` (module `Paths`) holds the paths and the one piece of path
  arithmetic the routine performs, taking the file name with
  `Split('\\').Last()`. It proves that this yields exactly the segment after
  the last separator.
- `filesystem.dfy` (module `FileSystemModel`) holds the filesystem.
  - As a value, it is a set of directories and a map from path to file
    record; a record holds the content, the length, the creation tick, and
    what the imaging library decodes (format, width, height, or an
    exception).
  - As an object, it is the class `FileSystem`, whose methods
    `CreateDirectory`, `CopyFile` (`CopyFileAsync`), `Delete`
    (`File.Delete` / `FileExtensions.DeleteAsync`) and `SaveImage` update
    those fields in place.
- `pipeline.dfy` (module `Pipeline`) holds the specification functions:
  - `Step` is one pass of the `foreach` body;
  - `Processed` is the loop over the first `n` assets, which stops at the
    first exception that reaches the outer `catch`;
  - `Run` is the whole routine, including its early returns.
- `service.dfy` (module `Service`) holds the imperative routine:
  - `DoCopySpotlight` loops over the listing, calling `ProcessFile`, and
    changes a `FileSystem` in place;
  - each method is proved to leave exactly the state (and return exactly
    the flags) that `Run` / `Step` compute.
- `properties.dfy` (module `Properties`) proves what the code promises
  about `Step`, `Processed` and `Run`: the skip rules, the prune, the slot
  rule, the Teams rule and the destination choice.
- `idempotence.dfy` (module `Idempotence`) proves that a re-run does not
  redo work. After a run that finished without an exception, a second run
  over the same listing, at any later clock, uses the same destination,
  changes nothing and reports no Teams update. `RunIdempotent` assumes,
  for both candidate destinations:
  - the assets have distinct file names;
  - no asset is itself a target, a slot, or a path under the Teams folder;
  - no asset is named `latest-landscape` or `latest-portrait`, whose
    target would be a slot;
  - the Teams folder path ends with `\` and is not a prefix of the
    destination;
  - the local Pictures folder is not under the Teams folder, and it is
    not OneDrive's `CopySpotlight\` folder, which the first run could
    create.

What the code does at four points where a reader might expect
otherwise:

- **Undecodable copies.** When decoding throws, the `catch` at lines
  197-200 only logs. The copy is kept, and because `isHdLandscape` is
  false it competes for the portrait slot (lines 212-214). It is not
  pruned as an unqualified image.
- **Missing Spotlight folder.** `Directory.GetFiles` (line 106) throws,
  and nothing catches it. The run ends after the destination folder has
  been created; this is the `SpotlightFolderMissing` outcome. It is not
  the same as the "no files" return at lines 107-112.
- **Unreachable test.** The `IsNullOrEmpty` test at line 91 can only see
  `null`, because both candidate folders come from non-empty templates.
  `ChooseRoot` returns `None` exactly there.
- **`hasNewFiles` and pruned copies.** `hasNewFiles` is set by the copy at
  line 153, before the prune. A run whose copies were all deleted again
  still reports new files. For the same reason, the second run in
  `RunIdempotent` may report new files while changing nothing.

## Model

| member | source | states |
|---|---|---|
| Paths.SplitPiecesHaveNoSeparator | CopySpotlight/CopySpotlight.cs:127 | no piece of `Split('\\')` contains a backslash |
| Paths.JoinSplit | CopySpotlight/CopySpotlight.cs:127 | splitting at backslashes loses nothing: joining the pieces with backslashes gives the path back |
| Paths.FileNameIsLastSegment | CopySpotlight/CopySpotlight.cs:127-128 | `Split('\\').Last()` is exactly the (backslash-free) segment after the last backslash, or the whole path if it has none |
| Paths.LastSegmentUnique | CopySpotlight/CopySpotlight.cs:127-128 | that segment is unique, so the file name is determined by the path |
| Paths.NotBelow | CopySpotlight/CopySpotlight.cs:129 | a folder path ending in a backslash that is not a prefix of `base` is not a prefix of `base + name` when `name` has no backslash |
| FileSystemModel.FileSystem.CreateDirectory | CopySpotlight/CopySpotlight.cs:99 | afterwards the folder exists; no file and no other folder changes |
| FileSystemModel.FileSystem.CopyFile | CopySpotlight/CopySpotlight.cs:389-398 | the destination is created or truncated and holds the source's content, length and decoding, with the creation tick the OS gives it; nothing else changes |
| FileSystemModel.FileSystem.Delete | CopySpotlight/CopySpotlight.cs:16-19 | the path no longer holds a file; nothing else changes |
| FileSystemModel.FileSystem.SaveImage | CopySpotlight/CopySpotlight.cs:296 | the path holds the saved image; nothing else changes |
| Paths.Split | CopySpotlight/CopySpotlight.cs:127 | `String.Split` at backslashes: the pieces between separators, always at least one; `SplitPiecesHaveNoSeparator` and `JoinSplit` state what they are |
| Paths.FileName | CopySpotlight/CopySpotlight.cs:127-128 | the last piece of the split; `FileNameIsLastSegment` states that it is the segment after the last backslash |
| FileSystemModel.MakeDir | CopySpotlight/CopySpotlight.cs:99 | the folder exists afterwards, no other folder is added or removed, and no file changes (also lines 275-276) |
| FileSystemModel.CopyTo | CopySpotlight/CopySpotlight.cs:389-398 | the destination holds the source's record with the new creation tick; no folder and no other path changes |
| FileSystemModel.Remove | CopySpotlight/CopySpotlight.cs:16-19 | the path holds no file afterwards; no folder and no other path changes (also `File.Delete` at lines 290, 315) |
| FileSystemModel.Save | CopySpotlight/CopySpotlight.cs:296 | the path holds the saved record; no folder and no other path changes (also line 318) |
| Pipeline.TargetPath | CopySpotlight/CopySpotlight.cs:129 | the destination folder, the asset's file name and `.jpg`; `Properties.TargetPathShape` states its shape |
| Pipeline.CtxFor | CopySpotlight/CopySpotlight.cs:210-272 | the slot paths are the destination folder plus `latest-landscape.jpg` / `latest-portrait.jpg` (lines 210-211); the Teams `Backgrounds\` and `Uploads\` folders, the background and the thumbnail are built from the Teams folder as at lines 265-272; `Properties.CtxForSeparated` states how they lie |
| Pipeline.LatestTarget | CopySpotlight/CopySpotlight.cs:212-214 | the landscape slot when `isHdLandscape`, the portrait slot otherwise (so also for a copy whose decoding threw); `Properties.LatestRule` states its use |
| Pipeline.Overwrites | CopySpotlight/CopySpotlight.cs:217-226 | a slot is written when it holds no file or its creation tick is `<=` the copy's, so an equal tick overwrites (also lines 279, 305-306); `Properties.LatestRule` and `Properties.StepPromotesTeams` state its effect |
| Pipeline.Copy | CopySpotlight/CopySpotlight.cs:153 | a `CopyFileAsync` made while the `i`-th asset is handled, with the creation tick the operating system gives the destination (also lines 220, 229, 282, 309); `Properties.CopyWrites` states its effect |
| Pipeline.ThumbnailOf | CopySpotlight/CopySpotlight.cs:295-296 | the thumbnail is a 280x158 rendering of the background just written, saved as PNG with a tick from the operating system (also lines 317-318); `Properties.StepPromotesTeams` states its effect |
| Pipeline.PromoteLatest | CopySpotlight/CopySpotlight.cs:207-238 | copy into the slot chosen by `isHdLandscape` if that slot is absent or not newer; `Properties.LatestRule` states this |
| Pipeline.PromoteTeams | CopySpotlight/CopySpotlight.cs:264-321 | make the two Teams folders, then write the background and a fresh 280x158 thumbnail if the background is absent or not newer; `Properties.TeamsConfined` and `Properties.StepPromotesTeams` state its effect |
| Pipeline.Promote | CopySpotlight/CopySpotlight.cs:157-331 | classify the copy, delete it if it decodes but is not HD, else promote it to its slot and, when landscape and the Teams folder exists, to Teams; `Properties.StepPrunes`, `StepPromotesLatest`, `StepKeepsUndecodable` and `StepPromotesTeams` state the cases |
| Pipeline.Step | CopySpotlight/CopySpotlight.cs:123-331 | one pass of the `foreach` body: skip, fail on a vanished source, skip a short source, or copy, set `hasNewFiles` and promote; the `Properties.Step*` lemmas state its effect |
| Pipeline.Processed | CopySpotlight/CopySpotlight.cs:119-338 | the loop over the first `n` assets, stopping at the first exception that reaches the outer `catch`; `Properties.FailureEndsLoop` and the `Processed*` lemmas state its effect |
| Pipeline.Run | CopySpotlight/CopySpotlight.cs:67-353 | the whole routine with its early returns and the two summary flags; the `Run*` lemmas state its effect |
| Pipeline.ChooseRoot | CopySpotlight/CopySpotlight.cs:73-96 | the local Pictures folder if it exists, else the OneDrive one if that exists, else none, in which case neither exists |
| Pipeline.ReadImage | CopySpotlight/CopySpotlight.cs:157-200 | the exception flag is set iff decoding throws; HD landscape iff the copy is at least 200000 bytes and decodes as a 1920x1080 JPEG; HD portrait likewise for 1080x1920; never both |
| Properties.TargetPathShape | CopySpotlight/CopySpotlight.cs:127-129 | the target is the destination folder, then the asset's last path segment (which has no backslash), then `.jpg` |
| Properties.OutsideTeams | CopySpotlight/CopySpotlight.cs:129 | when the picture folder is outside the Teams folder, no asset's target lies under the Teams folder |
| Properties.CtxForSeparated | CopySpotlight/CopySpotlight.cs:210-268 | the two slots lie outside the Teams folder and differ; the Teams background and thumbnail lie under it and differ |
| Properties.StepSkips | CopySpotlight/CopySpotlight.cs:133-147 | an asset whose target exists, or whose length is below 200000, changes neither the filesystem nor any flag (a length of exactly 200000 is copied) |
| Properties.StepNewFiles | CopySpotlight/CopySpotlight.cs:117 | `hasNewFiles` after a step is its old value or whether the copy happened (no target, source present, at least 200000 bytes); the loop fails iff there is no target and the source has vanished |
| Properties.CopyThenRemove | CopySpotlight/CopySpotlight.cs:153-192 | copying to a fresh path and deleting that path again restores the filesystem exactly |
| Properties.StepPrunes | CopySpotlight/CopySpotlight.cs:159-195 | a copy that decodes but is neither HD landscape nor HD portrait is deleted again: only `hasNewFiles` changes, so no slot and no Teams file is touched |
| Properties.CopyWrites | CopySpotlight/CopySpotlight.cs:153 | the copy writes exactly the target, with the source's record and a fresh tick |
| Properties.LatestRule | CopySpotlight/CopySpotlight.cs:210-231 | only the chosen slot may change; it receives the image iff it is absent or its tick is `<=` the image's |
| Properties.TeamsConfined | CopySpotlight/CopySpotlight.cs:264-321 | the Teams section writes nothing outside the Teams folder |
| Properties.StepPromotesLatest | CopySpotlight/CopySpotlight.cs:207-238 | a kept copy (HD, or one whose decoding threw) stays at its target; only the slot chosen by `isHdLandscape` is considered and receives the copy iff it is absent or not newer; the other slot and every path outside the Teams folder keep their files |
| Properties.StepKeepsUndecodable | CopySpotlight/CopySpotlight.cs:162-214 | when decoding throws, the copy is kept, the portrait slot rule applies, and nothing under the Teams folder nor `teamsUpdate` changes |
| Properties.StepLeavesTeamsAlone | CopySpotlight/CopySpotlight.cs:248-262 | unless the asset is copied, is HD landscape, and the Teams folder exists, no folder is created, nothing under the Teams folder changes, and `teamsUpdate` is unchanged |
| Properties.StepPromotesTeams | CopySpotlight/CopySpotlight.cs:264-321 | both Teams folders exist afterwards; the background is written iff it is absent or not newer, and then the thumbnail is a 280x158 rendering of it and `teamsUpdate` is true; if the background is strictly newer, neither file nor the flag changes; nothing else under Teams changes |
| Properties.FailureEndsLoop | CopySpotlight/CopySpotlight.cs:334-338 | after the exception that reaches the outer `catch`, later assets change nothing |
| Properties.ProcessedNewFiles | CopySpotlight/CopySpotlight.cs:117-154 | after the loop, `hasNewFiles` holds iff some asset the loop reached was copied |
| Properties.ProcessedKeepsDirs | CopySpotlight/CopySpotlight.cs:99-276 | the loop never removes a folder |
| Properties.ProcessedStepLeavesTeamsAlone | CopySpotlight/CopySpotlight.cs:250-262 | while the Teams folder is absent, one more asset creates no folder and changes nothing under it |
| Properties.ProcessedLeavesTeamsAlone | CopySpotlight/CopySpotlight.cs:248-262 | if the Teams folder is absent, no asset creates it, nothing under it changes, and `teamsUpdate` keeps its value |
| Properties.RunDestination | CopySpotlight/CopySpotlight.cs:73-99 | the run stops with the filesystem untouched iff neither Pictures folder exists; otherwise the destination is the local one (if present, else OneDrive) plus `CopySpotlight\` and exists afterwards |
| Properties.RunEmptySource | CopySpotlight/CopySpotlight.cs:106-112 | with no assets, no file changes and the run does not reach the loop, so it reports no new files |
| Properties.RunReportsNewFiles | CopySpotlight/CopySpotlight.cs:341-343 | a finished run reports new files iff some asset it reached was copied |
| Properties.StepTeamsUpdate | CopySpotlight/CopySpotlight.cs:279-320 | one asset sets `teamsUpdate` iff it is copied as an HD landscape JPEG while the Teams folder exists and the background is absent or has a tick `<=` the copy's; otherwise the flag keeps its value |
| Properties.ProcessedTeamsUpdate | CopySpotlight/CopySpotlight.cs:118-338 | after the loop, `teamsUpdate` holds iff it started true or some asset the loop reached before an exception wrote the Teams background |
| Properties.TargetNotLandscapeSlot | CopySpotlight/CopySpotlight.cs:129-211 | an asset not named `latest-landscape` does not have the landscape slot as its target |
| Properties.RunReportsTeamsUpdate | CopySpotlight/CopySpotlight.cs:344-346 | a finished run reports a Teams update iff some asset it reached was copied as an HD landscape JPEG with the Teams folder present and the background absent or not newer |
| Properties.RunLeavesTeamsAlone | CopySpotlight/CopySpotlight.cs:248-262 | when the Teams folder is absent, the run creates nothing under it, changes nothing there, and reports no Teams update |
| Idempotence.SettledFrame | CopySpotlight/CopySpotlight.cs:133-147 | whether an asset will be skipped or pruned depends only on its own file and its target |
| Idempotence.StepFrame | CopySpotlight/CopySpotlight.cs:123-331 | one asset writes at most its target, the two slots and paths under the Teams folder, and creates no folder except the two Teams ones |
| Idempotence.StepSettles | CopySpotlight/CopySpotlight.cs:133-238 | after an asset has been handled without an exception, a second pass over it would skip it or prune it again |
| Idempotence.StepSettled | CopySpotlight/CopySpotlight.cs:133-195 | such an asset leaves the filesystem, the failure flag and `teamsUpdate` unchanged |
| Idempotence.ProcessedNotFailed | CopySpotlight/CopySpotlight.cs:334-338 | helper (one unfolding of the loop): a loop that has not failed after `n` assets had not failed after `n - 1` |
| Idempotence.StepKeepsSettled | CopySpotlight/CopySpotlight.cs:121-331 | processing one more asset without an exception settles it and leaves every earlier asset settled |
| Idempotence.ProcessedStepSettles | CopySpotlight/CopySpotlight.cs:121-331 | one more asset keeps the earlier assets settled and settles itself |
| Idempotence.ProcessedSettles | CopySpotlight/CopySpotlight.cs:121-331 | after a loop without an exception, every asset it processed is settled |
| Idempotence.ProcessedSettled | CopySpotlight/CopySpotlight.cs:121-331 | a loop over settled assets changes nothing, never fails and never updates Teams |
| Idempotence.ProcessedDirs | CopySpotlight/CopySpotlight.cs:275-276 | the loop creates no folder except the Teams `Backgrounds` and `Uploads` folders |
| Idempotence.LoopIdempotent | CopySpotlight/CopySpotlight.cs:121-331 | a second pass of the loop over the same assets, at any later clock, changes nothing |
| Idempotence.RunIdempotent | CopySpotlight/CopySpotlight.cs:67-353 | after a run that finished without an exception, a second run over the same listing uses the same destination, changes no file and no folder, fails nowhere, and reports no Teams update |
| Service.ProcessFile | CopySpotlight/CopySpotlight.cs:123-331 | the imperative loop body leaves exactly the filesystem and flags that `Step` computes |
| Service.UpdateLatest | CopySpotlight/CopySpotlight.cs:207-238 | the imperative slot section leaves exactly the filesystem `PromoteLatest` computes |
| Service.UpdateTeamsBackground | CopySpotlight/CopySpotlight.cs:264-321 | the imperative Teams section leaves exactly the filesystem `PromoteTeams` computes and reports whether the background was written |
| Service.DoCopySpotlight | CopySpotlight/CopySpotlight.cs:67-353 | the imperative routine, with its loop invariant, returns the outcome and leaves exactly the filesystem that `Run` computes |

## Left out

- Service host: the constructor, the event-log setup, the six-hour timer,
  and `OnStart`, `OnTimer`, `OnContinue`, `OnPowerEvent`, `OnStop` (lines
  26-65, 355-387) are lifecycle plumbing. `DoCopySpotlight` is the single
  entry point.
- Asynchrony: every `await` and `Task.Factory.StartNew` is read as
  finishing before the next line. Overlapping runs are not modelled.
- Image decoding and rendering (`Image.FromFile`, `RawFormat`,
  `new Bitmap(..., new Size(280, 158))`) are foreign library calls.
  - Decoding is the `Decoding` field of each file record.
  - The thumbnail is the value `Thumbnail(background content, 280, 158)`.
    Its length is an input, and it is recorded as a 280x158 PNG, because
    `Image.Save` without an encoder writes PNG.
- Environment expansion: the four folders are inputs. The Teams
  `Backgrounds` and `Uploads` folders and the slot paths are built from
  them exactly as the code builds them.
- Creation ticks are produced by the input `Os.created` from the asset
  index, the path and the path's previous tick. Whether truncating a file
  keeps its creation time is operating-system behaviour, so ticks are
  only ever compared, as the code does.
- That a slot ends up holding the image with the greatest tick of all
  assets seen is not stated; the code only compares the slot with the
  current copy (lines 225-226, 305-306), and ticks are opaque.
- The `Directory.GetFiles` listing is an input. Its order is whatever the
  input gives.
- The event-log text and the `log` list are left out. The two flags that
  choose the summary lines (341-346) are part of the outcome.
- I/O exceptions from copies and deletes are not modelled: every copy and
  delete succeeds. The only exception modelled is the vanished source at
  line 142, which reaches the outer `catch` and ends the loop. Left out
  are:
  - a failing copy or delete in the slot section, caught at lines 233-238;
  - a failing copy, delete or thumbnail save in the Teams section, caught
    at lines 323-329;
  - a failing copy at line 153, which nothing inside the loop catches, so
    it would end the loop at lines 334-338;
  - a failing delete of a non-HD copy at line 192, which is caught at line
    197; the copy would then stay and compete for the portrait slot
    (lines 212-231).
- Paths are compared as exact, canonical strings: `File.Exists`,
  `Directory.Exists` and the prefix tests of the Teams frame lemmas see
  two paths as equal only when they are the same string. Windows compares
  paths case-insensitively and normalises separators, so an existing
  `dest\ABC.JPG` makes the code skip the asset `...\abc` at line 133,
  while the model copies it.
- Copying a file onto itself: an asset whose name is `latest-landscape`
  or `latest-portrait` has its slot as its target. The code would then
  copy that file onto itself, which throws a sharing violation and is
  caught. The model treats it as a plain copy, so the lemmas about slots
  exclude it in their requirements.
- Image handles that are never disposed (lines 287, 312) can keep the
  Teams background locked. File locking is not modelled.
- `Directory.CreateDirectory` creates missing parent folders too. The
  model records only the named folder.
