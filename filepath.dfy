/**
 * Go's `filepath.Base` on a system whose only separator is `/` and whose
 * paths carry no volume name.
 */
module FilePath {

  predicate AllSlashes(p: string) {
    forall i :: 0 <= i < |p| ==> p[i] == '/'
  }

  predicate NoSlash(p: string) {
    forall i :: 0 <= i < |p| ==> p[i] != '/'
  }

  /** Strips every trailing `/`: what remains is a prefix of `p` not ending in `/`. */
  function StripTrailingSlashes(p: string): (r: string)
    ensures |r| <= |p| && r == p[..|r|]
    ensures forall i :: |r| <= i < |p| ==> p[i] == '/'
    ensures r == [] || r[|r| - 1] != '/'
  {
    if |p| > 0 && p[|p| - 1] == '/' then StripTrailingSlashes(p[..|p| - 1]) else p
  }

  /** The text after the last `/` of `p` (all of `p` when it has none). */
  function LastElement(p: string): (r: string)
    ensures |r| <= |p| && r == p[|p| - |r|..]
    ensures NoSlash(r)
    ensures |r| == |p| || p[|p| - |r| - 1] == '/'
  {
    if |p| == 0 || p[|p| - 1] == '/' then [] else LastElement(p[..|p| - 1]) + [p[|p| - 1]]
  }

  /** `filepath.Base`: the last element of `path` once trailing slashes are gone. */
  function Base(path: string): string {
    if path == [] then "."
    else
      var last := LastElement(StripTrailingSlashes(path));
      if last == [] then "/" else last
  }

  /** The three shapes of `Base`: `"."` for the empty path, `"/"` for a path of slashes, else a slash-free element. */
  lemma BaseCases(path: string)
    ensures path == [] ==> Base(path) == "."
    ensures path != [] && AllSlashes(path) ==> Base(path) == "/"
    ensures !AllSlashes(path) ==> Base(path) != [] && NoSlash(Base(path))
  {
  }

  /**
   * Unless `path` is all slashes, `Base(path)` is an element of it: a slice
   * that starts the path or follows a `/`, followed only by slashes.
   */
  lemma BaseIsLastElement(path: string)
    requires !AllSlashes(path)
    ensures exists i, j ::
              && 0 <= i <= j <= |path|
              && Base(path) == path[i..j]
              && (i == 0 || path[i - 1] == '/')
              && AllSlashes(path[j..])
  {
    BaseCases(path);
    var trimmed := StripTrailingSlashes(path);
    var last := LastElement(trimmed);
    var i, j := |trimmed| - |last|, |trimmed|;
    assert Base(path) == last == path[i..j];
    assert AllSlashes(path[j..]) by {
      forall k | 0 <= k < |path| - j ensures path[j..][k] == '/' {
        assert path[j + k] == '/';
      }
    }
  }

  /** A non-empty name without `/` is its own base. */
  lemma BaseOfName(name: string)
    requires name != [] && NoSlash(name)
    ensures Base(name) == name
  {
  }

  /** The base of a path is the non-empty text after its last `/`, whatever precedes that `/`. */
  lemma {:induction false} BaseAfterSlash(prefix: string, name: string)
    requires name != [] && NoSlash(name)
    ensures Base(prefix + "/" + name) == name
  {
    var path := prefix + "/" + name;
    assert StripTrailingSlashes(path) == path;
    var last := LastElement(path);
    assert path[|path| - |name| - 1] == '/';
    assert last == path[|path| - |name|..] == name;
  }
}
