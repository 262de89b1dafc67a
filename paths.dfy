/** The pathlib operations the core uses on POSIX paths held as strings: `/`, `.parent` and `.stem`. */
module Paths {

  /** The last position of c in s, or -1. */
  function LastIndexOf(s: string, c: char): (r: int)
    ensures -1 <= r < |s|
    ensures r >= 0 ==> s[r] == c
    ensures forall i :: r < i < |s| ==> s[i] != c
  {
    if s == [] then -1
    else if s[|s| - 1] == c then |s| - 1
    else LastIndexOf(s[..|s| - 1], c)
  }

  predicate IsAbsolute(p: string) {
    p != [] && p[0] == '/'
  }

  /** `Path(base) / name`: an absolute name replaces the base, an empty base stands for the current directory, and
      otherwise a single separator joins the two. */
  function JoinPath(base: string, name: string): (r: string)
    ensures IsAbsolute(name) ==> r == name
    ensures !IsAbsolute(name) ==> |name| <= |r| && r[|r| - |name|..] == name
    ensures !IsAbsolute(name) ==> |base| <= |r| && r[..|base|] == base
  {
    if IsAbsolute(name) || base == "" then name
    else if base[|base| - 1] == '/' then base + name
    else base + "/" + name
  }

  /** `Path(p).parent`: everything before the last separator; "." for a bare name and "/" for a name in the root. */
  function ParentDir(p: string): (r: string)
    ensures LastIndexOf(p, '/') == -1 ==> r == "."
    ensures LastIndexOf(p, '/') >= 0 ==> |r| <= |p| && r == p[..|r|] && r != []
  {
    var k := LastIndexOf(p, '/');
    if k == -1 then "."
    else if k == 0 then "/"
    else p[..k]
  }

  /** `PurePath(p).name`: the part after the last separator. */
  function BaseName(p: string): (r: string)
    ensures |r| <= |p| && r == p[|p| - |r|..]
    ensures forall i :: 0 <= i < |r| ==> r[i] != '/'
  {
    p[LastIndexOf(p, '/') + 1..]
  }

  /** `PurePath(name).stem` for a file name: the name without its last suffix. A dot at the start or at the very end
      does not start a suffix. */
  function Stem(name: string): (r: string)
    ensures |r| <= |name| && r == name[..|r|]
    ensures r != name ==> 0 < |r| < |name| - 1 && name[|r|] == '.'
    ensures r != name ==> forall i :: |r| < i < |name| ==> name[i] != '.'
  {
    var i := LastIndexOf(name, '.');
    if 0 < i < |name| - 1 then name[..i] else name
  }
}
