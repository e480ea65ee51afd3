/**
 * Windows paths as plain strings, and the one piece of path arithmetic the
 * service does itself: taking the last `\`-separated segment of a path with
 * `String.Split` followed by `Last()` (CopySpotlight/CopySpotlight.cs:127-128).
 */
module Paths {

  type Path = string

  const SEPARATOR: char := '\\'

  /**
   * `s.Split('\\')`: the pieces between separators, in order. There is always
   * one more piece than there are separators, so never fewer than one.
   */
  function Split(s: string): (parts: seq<string>)
    ensures |parts| >= 1
    decreases |s|
  {
    if s == [] then [""]
    else
      var rest := Split(s[1..]);
      if s[0] == SEPARATOR then [""] + rest
      else [[s[0]] + rest[0]] + rest[1..]
  }

  /** No piece of a split holds a separator. */
  lemma {:induction false} SplitPiecesHaveNoSeparator(s: string)
    ensures forall k :: 0 <= k < |Split(s)| ==> SEPARATOR !in Split(s)[k]
    decreases |s|
  {
    if s != [] {
      SplitPiecesHaveNoSeparator(s[1..]);
    }
  }

  /** The inverse of Split: the pieces glued back together with separators. */
  function Join(parts: seq<string>): string
    requires |parts| >= 1
    decreases |parts|
  {
    if |parts| == 1 then parts[0] else parts[0] + [SEPARATOR] + Join(parts[1..])
  }

  /** Splitting loses nothing: joining the pieces gives back the path. */
  lemma {:induction false} JoinSplit(s: string)
    ensures Join(Split(s)) == s
    decreases |s|
  {
    if s != [] {
      var rest := Split(s[1..]);
      JoinSplit(s[1..]);
      if s[0] == SEPARATOR {
        assert Split(s) == [""] + rest;
        assert ([""] + rest)[1..] == rest;
        assert s == [SEPARATOR] + s[1..];
      } else {
        var parts := [[s[0]] + rest[0]] + rest[1..];
        assert Split(s) == parts;
        if |rest| == 1 {
          assert s == [s[0]] + s[1..];
        } else {
          assert parts[1..] == rest[1..];
          assert Join(rest) == rest[0] + [SEPARATOR] + Join(rest[1..]);
          assert s == [s[0]] + s[1..];
        }
      }
    }
  }

  /** `Join` of several pieces ends with a separator followed by the last piece. */
  lemma {:induction false} JoinEndsWithLast(parts: seq<string>)
    requires |parts| >= 2
    ensures var j := Join(parts); var last := parts[|parts| - 1];
      |last| < |j| && j[|j| - |last|..] == last && j[|j| - |last| - 1] == SEPARATOR
    decreases |parts|
  {
    if |parts| > 2 {
      JoinEndsWithLast(parts[1..]);
    }
  }

  /** `name` is what follows the last separator of `path` (all of it when there is none). */
  ghost predicate IsLastSegment(path: Path, name: string)
  {
    SEPARATOR !in name &&
    |name| <= |path| && path[|path| - |name|..] == name &&
    (|name| == |path| || path[|path| - |name| - 1] == SEPARATOR)
  }

  /** `filePathParts.Last()` after `file.Split('\\')`: the file name of a path. */
  function FileName(path: Path): string
  {
    var parts := Split(path);
    parts[|parts| - 1]
  }

  /** FileName is exactly the segment after the last separator. */
  lemma FileNameIsLastSegment(path: Path)
    ensures IsLastSegment(path, FileName(path))
  {
    var parts := Split(path);
    SplitPiecesHaveNoSeparator(path);
    JoinSplit(path);
    if |parts| >= 2 {
      JoinEndsWithLast(parts);
    }
  }

  /** The last segment of a path is unique, so FileName is the only function meeting IsLastSegment. */
  lemma LastSegmentUnique(path: Path, a: string, b: string)
    requires IsLastSegment(path, a) && IsLastSegment(path, b)
    ensures a == b
  {
  }

  /**
   * A directory path `dir` that ends with a separator and is not a prefix of
   * `base` stays off every path `base + name` whose added part has no separator:
   * appending a file name to a folder cannot reach into another folder's tree.
   */
  lemma NotBelow(dir: Path, base: Path, name: string)
    requires |dir| > 0 && dir[|dir| - 1] == SEPARATOR
    requires !(dir <= base)
    requires SEPARATOR !in name
    ensures !(dir <= base + name)
  {
  }
}
