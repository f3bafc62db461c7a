/** The `os.path` functions of Python 2's posixpath that the modelled code calls. */
module PyPath {

  /** `s.rfind(c)`: the last index of `c`, or -1 when there is none. */
  function RFind(s: string, c: char): (r: int)
    ensures -1 <= r < |s|
    ensures r >= 0 ==> s[r] == c
    ensures forall i :: r < i < |s| ==> s[i] != c
  {
    if s == [] then -1
    else if s[|s| - 1] == c then |s| - 1
    else RFind(s[..|s| - 1], c)
  }

  /** Appending text without `c` does not move the last `c`. */
  lemma {:induction false} RFindAppend(s: string, x: string, c: char)
    requires c !in x
    ensures RFind(s + x, c) == RFind(s, c)
  {
    if x != [] {
      var y := x[..|x| - 1];
      RFindAppend(s, y, c);
      assert (s + x)[..|s + x| - 1] == s + y;
    } else {
      assert s + x == s;
    }
  }

  /** Some character of `p[lo..hi]` is not a dot. */
  predicate HasNonDot(p: string, lo: int, hi: int)
    requires 0 <= lo <= hi <= |p|
  {
    exists k :: lo <= k < hi && p[k] != '.'
  }

  /** `os.path.splitext(p)`: the extension runs from the last dot of the final path
      component, unless everything before that dot in the component is dots. */
  function SplitExt(p: string): (string, string)
  {
    var sepIndex := RFind(p, '/');
    var dotIndex := RFind(p, '.');
    if dotIndex > sepIndex && HasNonDot(p, sepIndex + 1, dotIndex)
    then (p[..dotIndex], p[dotIndex..])
    else (p, "")
  }

  /** What `splitext` promises: root and extension put back together give the path; an
      extension is one dot followed by neither a dot nor a slash; and when there is one,
      the root's last component has a character that is not a dot. */
  lemma SplitExtParts(p: string)
    ensures SplitExt(p).0 + SplitExt(p).1 == p
    ensures var ext := SplitExt(p).1;
      ext == [] || (ext[0] == '.' && '.' !in ext[1..] && '/' !in ext)
    ensures var (root, ext) := SplitExt(p);
      ext != [] ==> exists k :: RFind(p, '/') < k < |root| && root[k] != '.'
  {
    var sepIndex := RFind(p, '/');
    var dotIndex := RFind(p, '.');
    if dotIndex > sepIndex && HasNonDot(p, sepIndex + 1, dotIndex) {
      var ext := p[dotIndex..];
      assert p[..dotIndex] + ext == p;
      assert forall i :: 1 <= i < |ext| ==> ext[i] == p[dotIndex + i];
    }
  }

  /** Appending an extension to a root whose last component is not all dots is undone
      by `splitext`. */
  lemma SplitExtAddExt(root: string, e: string, k: nat)
    requires '.' !in e && '/' !in e
    requires RFind(root, '/') < k < |root| && root[k] != '.'
    ensures SplitExt(root + "." + e) == (root, "." + e)
  {
    var p := root + "." + e;
    RFindExt(root, e);
    assert p[k] == root[k];
    SplitExtOfParts(p, root, e, k);
  }

  lemma SplitExtOfParts(p: string, root: string, e: string, k: int)
    requires p == root + "." + e
    requires RFind(p, '/') < k < RFind(p, '.') && p[k] != '.' && RFind(p, '.') == |root|
    ensures SplitExt(p) == (root, "." + e)
  {
    assert p[..|root|] == root && p[|root|..] == "." + e;
    SplitExtAt(p, k);
  }

  lemma RFindExt(root: string, e: string)
    requires '.' !in e && '/' !in e
    ensures RFind(root + "." + e, '/') == RFind(root, '/')
    ensures RFind(root + "." + e, '.') == |root|
  {
    var dot := root + ".";
    RFindAppend(root, ".", '/');
    RFindAppend(dot, e, '/');
    RFindAppend(dot, e, '.');
    assert RFind(dot, '.') == |root|;
  }

  /** A non-dot character between the last slash and the last dot fixes the split. */
  lemma SplitExtAt(p: string, k: int)
    requires RFind(p, '/') < k < RFind(p, '.') && p[k] != '.'
    ensures SplitExt(p) == (p[..RFind(p, '.')], p[RFind(p, '.')..])
  {
    assert HasNonDot(p, RFind(p, '/') + 1, RFind(p, '.'));
  }

  /** `os.path.basename(p)`: what follows the last slash. */
  function Basename(p: string): (r: string)
    ensures '/' !in r
    ensures |r| <= |p| && p[|p| - |r|..] == r
  {
    p[RFind(p, '/') + 1..]
  }

  /** Text without a slash appended to a path is appended to its base name. */
  lemma BasenameAppend(p: string, x: string)
    requires '/' !in x
    ensures Basename(p + x) == Basename(p) + x
  {
    RFindAppend(p, x, '/');
    var r := RFind(p, '/');
    assert (p + x)[r + 1..] == p[r + 1..] + x;
  }

  /** `os.path.join(a, b)` for two components. */
  function PathJoin(a: string, b: string): string
  {
    if |b| > 0 && b[0] == '/' then b
    else if a == [] || a[|a| - 1] == '/' then a + b
    else a + "/" + b
  }

  /** Re-rooting a file name under a directory keeps its base name. */
  lemma {:induction false} BasenameOfJoin(dir: string, name: string)
    requires '/' !in name
    ensures Basename(PathJoin(dir, name)) == name
  {
    if dir == [] {
      assert PathJoin(dir, name) == name;
      RFindAppend([], name, '/');
      assert [] + name == name;
    } else if dir[|dir| - 1] == '/' {
      RFindAppend(dir, name, '/');
      assert (dir + name)[|dir|..] == name;
    } else {
      RFindAppend(dir + "/", name, '/');
      assert (dir + "/" + name)[|dir| + 1..] == name;
    }
  }
}
