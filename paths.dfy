/** Path strings: splicing the location's pathname and fragment (getPath) and
    resolving a bare fragment against the pathname (the '#' rule of updatePath). */
module Paths {

  /** `s` ends with `suffix`, in the sense of String.prototype.endsWith. */
  predicate EndsWith(s: string, suffix: string): (b: bool)
    ensures b <==> |suffix| <= |s| && forall k :: 0 <= k < |suffix| ==> s[|s| - |suffix| + k] == suffix[k]
  {
    |suffix| <= |s| && s[|s| - |suffix|..] == suffix
  }

  /** endsWith agrees with the algebraic reading "s is something followed by suffix". */
  lemma EndsWithIffConcat(s: string, suffix: string)
    ensures EndsWith(s, suffix) <==> exists prefix: string :: prefix + suffix == s
  {
    if EndsWith(s, suffix) {
      var prefix := s[..|s| - |suffix|];
      assert prefix + suffix == s;
    }
    forall prefix: string | prefix + suffix == s
      ensures EndsWith(s, suffix)
    {
      assert s[|s| - |suffix|..] == (prefix + suffix)[|prefix|..];
    }
  }

  /** A path that starts with '#' (in the source: `path[0] == '#'`; the empty
      string has no first character and is not one). */
  predicate IsFragment(path: string): (b: bool)
    ensures b <==> "#" <= path
  {
    |path| > 0 && path[0] == '#'
  }

  /** The current path: the pathname alone when there is no fragment, the
      fragment alone when the pathname is the root, else both spliced. */
  function GetPath(pathname: string, hash: string): (r: string)
    ensures hash == "" ==> r == pathname
    ensures hash != "" && pathname == "/" ==> r == hash
    ensures hash != "" && pathname != "/" ==> r == pathname + hash
    ensures EndsWith(r, hash)
  {
    if hash == "" then pathname
    else if pathname == "/" then hash
    else pathname + hash
  }

  /** The path updatePath actually navigates to: a bare fragment is resolved
      against the current pathname, anything else is taken as given. */
  function Resolve(pathname: string, path: string): (r: string)
    ensures !IsFragment(path) ==> r == path
    ensures IsFragment(path) && pathname == "/" ==> r == path
    ensures IsFragment(path) && pathname != "/" ==> r == pathname + path
    ensures EndsWith(r, path)
  {
    if IsFragment(path) then GetPath(pathname, path) else path
  }

  /** Resolving twice is resolving once, for any pathname a browser can report
      (one that does not itself start with '#'). */
  lemma ResolveIdempotent(pathname: string, path: string)
    requires !IsFragment(pathname)
    ensures Resolve(pathname, Resolve(pathname, path)) == Resolve(pathname, path)
  {
    if IsFragment(path) && pathname != "/" {
      var r := pathname + path;
      if pathname != "" {
        assert r[0] == pathname[0];
      } else {
        assert r == path;
      }
    }
  }
}
