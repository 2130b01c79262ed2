/** `String.prototype.split` on a one-character separator and the
    "last segment" obtained by `split("/").pop()`. */
module Paths {

  predicate Free(s: string, sep: char) {
    forall i :: 0 <= i < |s| ==> s[i] != sep
  }

  /** Glues parts back together with `sep` between consecutive parts. */
  function Join(parts: seq<string>, sep: char): string
    requires |parts| >= 1
  {
    if |parts| == 1 then parts[0]
    else Join(parts[..|parts| - 1], sep) + [sep] + parts[|parts| - 1]
  }

  /** The pieces of `s` between occurrences of `sep`; like the JavaScript
      method it always yields at least one (possibly empty) piece. */
  function Split(s: string, sep: char): (parts: seq<string>)
    ensures |parts| >= 1
    ensures forall k :: 0 <= k < |parts| ==> Free(parts[k], sep)
    ensures Join(parts, sep) == s
    decreases |s|
  {
    if |s| == 0 then [""]
    else
      var rest := Split(s[..|s| - 1], sep);
      var c := s[|s| - 1];
      if c == sep then
        assert (rest + [""])[..|rest|] == rest;
        assert s == s[..|s| - 1] + [c];
        rest + [""]
      else
        JoinExtendLast(rest, sep, c);
        assert s == s[..|s| - 1] + [c];
        rest[..|rest| - 1] + [rest[|rest| - 1] + [c]]
  }

  lemma JoinExtendLast(parts: seq<string>, sep: char, c: char)
    requires |parts| >= 1
    ensures Join(parts[..|parts| - 1] + [parts[|parts| - 1] + [c]], sep) == Join(parts, sep) + [c]
  {
    var ext := parts[..|parts| - 1] + [parts[|parts| - 1] + [c]];
    if |parts| > 1 {
      assert ext[..|ext| - 1] == parts[..|parts| - 1];
    }
  }

  /** `path.split("/").pop()`: the text after the last '/', or all of
      `path` when it holds no '/'. */
  function LastSegment(path: string): string {
    var parts := Split(path, '/');
    parts[|parts| - 1]
  }

  /** The last segment is the slash-free tail of the path that is either the
      whole path or preceded by a '/'; these three facts determine it. */
  lemma {:induction false} LastSegmentIsTail(path: string)
    ensures var seg := LastSegment(path);
      && Free(seg, '/')
      && |seg| <= |path|
      && seg == path[|path| - |seg|..]
      && (|seg| < |path| ==> path[|path| - |seg| - 1] == '/')
    decreases |path|
  {
    if |path| > 0 && path[|path| - 1] != '/' {
      var pre := path[..|path| - 1];
      LastSegmentIsTail(pre);
      var seg := LastSegment(pre);
      assert LastSegment(path) == seg + [path[|path| - 1]];
      assert pre[|pre| - |seg|..] == seg;
      assert path[|path| - |seg| - 1..] == pre[|pre| - |seg|..] + [path[|path| - 1]];
    }
  }

  /** A path with no '/' is its own last segment. */
  lemma LastSegmentOfSlashFree(path: string)
    requires Free(path, '/')
    ensures LastSegment(path) == path
  {
    LastSegmentIsTail(path);
  }

  /** A path that ends in '/' has an empty last segment. */
  lemma LastSegmentAfterTrailingSlash(path: string)
    requires |path| >= 1 && path[|path| - 1] == '/'
    ensures LastSegment(path) == ""
  {
    LastSegmentIsTail(path);
  }

  /** Whatever precedes the final '/' does not matter. */
  lemma {:induction false} LastSegmentAfterSlash(dir: string, name: string)
    requires Free(name, '/')
    ensures LastSegment(dir + "/" + name) == name
    decreases |name|
  {
    var path := dir + "/" + name;
    if |name| > 0 {
      var pre := name[..|name| - 1];
      LastSegmentAfterSlash(dir, pre);
      assert path[..|path| - 1] == dir + "/" + pre;
      assert name == pre + [name[|name| - 1]];
    }
  }
}
