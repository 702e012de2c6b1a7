/** POSIX path handling as Python's `os.path` does it for the calls the
    compressor makes: `join`, `basename`, `dirname` and `splitext`. Paths are
    strings with `/` as the only separator. */
module Paths {
  import opened Common

  function LastIndexOf(s: string, c: char): (r: Option<nat>)
    ensures r.None? <==> Lacks(s, c)
    ensures r.Some? ==> r.value < |s| && s[r.value] == c && Lacks(s[r.value + 1..], c)
  {
    if s == [] then None
    else if s[|s| - 1] == c then Some(|s| - 1)
    else
      var r := LastIndexOf(s[..|s| - 1], c);
      assert r.Some? ==> s[r.value + 1..] == s[..|s| - 1][r.value + 1..] + [s[|s| - 1]];
      r
  }

  /** Where the last component of `p` starts: just after its last `/`. */
  function ComponentStart(p: string): (i: nat)
    ensures i <= |p|
    ensures Lacks(p[i..], '/')
    ensures i > 0 ==> p[i - 1] == '/'
  {
    match LastIndexOf(p, '/')
    case None => 0
    case Some(k) => k + 1
  }

  /** `os.path.basename`. */
  function Basename(p: string): (r: string)
    ensures Lacks(r, '/')
    ensures |r| <= |p| && r == p[|p| - |r|..]
    ensures |r| < |p| ==> p[|p| - |r| - 1] == '/'
  {
    p[ComponentStart(p)..]
  }

  /** `os.path.dirname`: everything before the last component, with the
      trailing slashes dropped unless it consists of slashes only. */
  function Dirname(p: string): (r: string)
    ensures |r| <= |p| && r == p[..|r|]
    ensures var head := p[..ComponentStart(p)];
            (head == [] || AllSlashes(head)) ==> r == head
    ensures var head := p[..ComponentStart(p)];
            !(head == [] || AllSlashes(head)) ==>
              |r| <= |head| && r != [] && r[|r| - 1] != '/' && AllSlashes(head[|r|..])
  {
    var head := p[..ComponentStart(p)];
    if head != [] && !AllSlashes(head) then TrimSlashes(head) else head
  }

  predicate AllSlashes(s: string)
  {
    forall i :: 0 <= i < |s| ==> s[i] == '/'
  }

  function TrimSlashes(s: string): (r: string)
    ensures |r| <= |s| && r == s[..|r|]
    ensures r == [] || r[|r| - 1] != '/'
    ensures AllSlashes(s[|r|..])
  {
    if |s| > 0 && s[|s| - 1] == '/' then TrimSlashes(s[..|s| - 1]) else s
  }

  /** What `os.path.join(dir, name)` puts in front of a relative `name`. */
  function JoinPrefix(dir: string): (r: string)
    ensures r == [] || r[|r| - 1] == '/'
  {
    if dir == [] || dir[|dir| - 1] == '/' then dir else dir + "/"
  }

  /** `os.path.join(dir, name)` for two components. */
  function Join(dir: string, name: string): (r: string)
    ensures name != [] && name[0] != '/' ==> r == JoinPrefix(dir) + name
    ensures name != [] && name[0] == '/' ==> r == name
  {
    if name != [] && name[0] == '/' then name else JoinPrefix(dir) + name
  }

  /** The root half of `os.path.splitext(name)` for a name without `/`: the
      extension starts at the last dot, provided some character other than a
      dot comes before it. */
  function SplitExt(name: string): (r: (string, string))
    requires Lacks(name, '/')
    ensures r.0 + r.1 == name
    ensures r.1 == [] || r.1[0] == '.'
    ensures r.1 != [] ==> Lacks(r.1[1..], '.') && exists k :: 0 <= k < |r.0| && r.0[k] != '.'
    ensures r.1 == [] ==> forall d :: 0 <= d < |name| && name[d] == '.' && Lacks(name[d + 1..], '.') ==>
                            forall k :: 0 <= k < d ==> name[k] == '.'
  {
    match LastIndexOf(name, '.')
    case None => (name, [])
    case Some(d) =>
      if exists k | 0 <= k < d :: name[k] != '.' then (name[..d], name[d..]) else (name, [])
  }

  lemma BasenameAfterSlash(prefix: string, name: string)
    requires prefix == [] || prefix[|prefix| - 1] == '/'
    requires Lacks(name, '/')
    ensures Basename(prefix + name) == name
  {
    var p := prefix + name;
    assert p[..|prefix|] == prefix;
    assert p[|prefix|..] == name;
  }

  /** A relative name without `/` is the last component of the joined path. */
  lemma BasenameOfJoin(dir: string, name: string)
    requires name != [] && Lacks(name, '/')
    ensures Basename(Join(dir, name)) == name
  {
    BasenameAfterSlash(JoinPrefix(dir), name);
  }

  /** Joining one directory with two different relative names gives two
      different paths. */
  lemma JoinInjective(dir: string, a: string, b: string)
    requires a != [] && a[0] != '/' && b != [] && b[0] != '/'
    requires Join(dir, a) == Join(dir, b)
    ensures a == b
  {
    var pre := JoinPrefix(dir);
    assert a == (pre + a)[|pre|..];
    assert b == (pre + b)[|pre|..];
  }
}
