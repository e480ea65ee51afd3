/**
 * The abstract filesystem the service works on: a set of existing
 * directories and a map from file path to what the service can observe of
 * that file (its bytes, its length, its creation tick and what the imaging
 * library makes of it).
 */
module FileSystemModel {
  import opened Wrappers
  import opened Paths

  /** `File.GetCreationTime(path).Ticks`: opaque, only ever compared. */
  type Tick = int

  datatype ImageFormat = Jpeg | Png | OtherFormat

  /** What `Image.FromFile` does with a file: it yields an image of some format and size, or it throws. */
  datatype Decoding = Decodes(format: ImageFormat, width: int, height: int) | Throws

  /** The bytes of a file; a rendered thumbnail is known only as derived from the image it was drawn from. */
  datatype Content = Bytes(data: seq<bv8>) | Thumbnail(source: Content, width: nat, height: nat)

  datatype FileRecord = FileRecord(content: Content, length: nat, created: Tick, image: Decoding)

  datatype Fs = Fs(dirs: set<Path>, files: map<Path, FileRecord>)

  function Lookup(s: Fs, p: Path): Option<FileRecord>
  {
    if p in s.files then Some(s.files[p]) else None
  }

  /** The creation tick of `p`, if a file is there. */
  function CreatedOf(s: Fs, p: Path): Option<Tick>
  {
    if p in s.files then Some(s.files[p].created) else None
  }

  /** `Directory.CreateDirectory(p)`: afterwards `p` exists; nothing else changes. */
  function MakeDir(s: Fs, p: Path): (r: Fs)
    ensures p in r.dirs && s.dirs <= r.dirs && r.files == s.files
    ensures forall d :: d in r.dirs && d != p ==> d in s.dirs
  {
    s.(dirs := s.dirs + {p})
  }

  /**
   * `CopyFileAsync(src, dst)` (CopySpotlight/CopySpotlight.cs:389-398): `dst` is
   * created or truncated and receives the bytes of `src`; the operating system
   * gives it the creation tick `created`.
   */
  function CopyTo(s: Fs, src: Path, dst: Path, created: Tick): (r: Fs)
    requires src in s.files
    ensures Lookup(r, dst) == Some(s.files[src].(created := created))
    ensures r.dirs == s.dirs && forall x :: x != dst ==> Lookup(r, x) == Lookup(s, x)
  {
    s.(files := s.files[dst := s.files[src].(created := created)])
  }

  /** `FileInfo.Delete()` / `File.Delete(p)`: the path no longer holds a file (a missing file is no error). */
  function Remove(s: Fs, p: Path): (r: Fs)
    ensures Lookup(r, p) == None
    ensures r.dirs == s.dirs && forall x :: x != p ==> Lookup(r, x) == Lookup(s, x)
  {
    s.(files := s.files - {p})
  }

  /** `Image.Save(p)`: `p` holds the given file afterwards. */
  function Save(s: Fs, p: Path, rec: FileRecord): (r: Fs)
    ensures Lookup(r, p) == Some(rec)
    ensures r.dirs == s.dirs && forall x :: x != p ==> Lookup(r, x) == Lookup(s, x)
  {
    s.(files := s.files[p := rec])
  }

  /**
   * The filesystem as the service sees it, updated in place. Each method
   * applies the matching value-level operation above to the whole state.
   */
  class FileSystem {
    var dirs: set<Path>
    var files: map<Path, FileRecord>

    function State(): Fs
      reads this
    {
      Fs(dirs, files)
    }

    constructor (initial: Fs)
      ensures State() == initial
    {
      dirs := initial.dirs;
      files := initial.files;
    }

    method CreateDirectory(p: Path)
      modifies this
      ensures State() == MakeDir(old(State()), p)
    {
      dirs := dirs + {p};
    }

    method CopyFile(src: Path, dst: Path, created: Tick)
      requires src in files
      modifies this
      ensures State() == CopyTo(old(State()), src, dst, created)
    {
      files := files[dst := files[src].(created := created)];
    }

    method Delete(p: Path)
      modifies this
      ensures State() == Remove(old(State()), p)
    {
      files := files - {p};
    }

    method SaveImage(p: Path, r: FileRecord)
      modifies this
      ensures State() == Save(old(State()), p, r)
    {
      files := files[p := r];
    }
  }
}
