/** The parts of pathlib's PurePosixPath the tool uses: `/`, name, parent,
    suffix, stem, with_suffix, and single-star glob patterns on file names.
    A path is its string form with '/' between components. */
module Paths {
  import opened Text

  /** Index of the last occurrence of c in s, or -1 when there is none. */
  function LastIndexOf(s: string, c: char): (i: int)
    ensures -1 <= i < |s|
    ensures i >= 0 ==> s[i] == c
    ensures forall k :: i < k < |s| ==> s[k] != c
  {
    if s == [] then -1
    else if s[|s| - 1] == c then |s| - 1
    else LastIndexOf(s[..|s| - 1], c)
  }

  /** Path(dir) / rel for a relative rel and a directory without a trailing
      '/'; Path("") stands for the current directory. */
  function JoinPath(dir: string, rel: string): (r: string)
    ensures EndsWith(r, rel)
  {
    EndsWithConcat(if dir == "" then "" else dir + "/", rel);
    if dir == "" then rel else dir + "/" + rel
  }

  /** Path(dir, p): p itself when it is absolute, otherwise p under dir. */
  function Resolve(dir: string, p: string): (r: string)
    ensures EndsWith(r, p)
  {
    EndsWithConcat([], p);
    assert [] + p == p;
    if StartsWith(p, "/") then p else JoinPath(dir, p)
  }

  /** Everything up to and including the last '/': "" for a bare name. */
  function DirPart(p: string): string {
    p[..LastIndexOf(p, '/') + 1]
  }

  /** PurePath.name: the last component. */
  function Name(p: string): (n: string)
    ensures forall j :: 0 <= j < |n| ==> n[j] != '/'
  {
    p[LastIndexOf(p, '/') + 1..]
  }

  /** p.parent / name: a file next to p. */
  function Sibling(p: string, name: string): string {
    DirPart(p) + name
  }

  /** Where the suffix of a file name starts: the last '.', unless it is the
      first or the last character (pathlib's rule); |name| when there is none. */
  function SuffixStart(name: string): (k: nat)
    ensures k <= |name|
    ensures k < |name| ==> name[k] == '.' && 0 < k < |name| - 1
    ensures forall j :: k < j < |name| ==> name[j] != '.'
  {
    var i := LastIndexOf(name, '.');
    if 0 < i < |name| - 1 then i else |name|
  }

  /** PurePath.suffix: "" or a '.' followed by no other '.'. */
  function Suffix(p: string): (s: string)
    ensures s == [] || (s[0] == '.' && |s| >= 2 && '.' !in s[1..])
  {
    var n := Name(p);
    var k := SuffixStart(n);
    assert forall j :: 0 <= j < |n[k..]| - 1 ==> n[k..][1..][j] == n[k + 1 + j];
    n[k..]
  }

  /** PurePath.stem: the name without its suffix. */
  function Stem(p: string): string {
    var n := Name(p);
    n[..SuffixStart(n)]
  }

  lemma PathParts(p: string)
    ensures p == DirPart(p) + Stem(p) + Suffix(p)
  {
    var n := Name(p);
    assert p == DirPart(p) + n;
    var k := SuffixStart(n);
    assert n == n[..k] + n[k..];
    assert DirPart(p) + n[..k] + n[k..] == DirPart(p) + (n[..k] + n[k..]);
  }

  /** PurePath.with_suffix(suffix). */
  function WithSuffix(p: string, suffix: string): string {
    DirPart(p) + Stem(p) + suffix
  }

  /** Replacing the suffix with one that holds two dots never gives back the
      same path: a backup made with with_suffix(".backup.json") never
      overwrites the file it copies. */
  lemma WithDoubleSuffixIsNewPath(p: string, suffix: string)
    requires |suffix| >= 2 && suffix[0] == '.' && '.' in suffix[1..]
    ensures WithSuffix(p, suffix) != p
  {
    PathParts(p);
    var pre := DirPart(p) + Stem(p);
    assert Suffix(p) != suffix;
    assert (pre + suffix)[|pre|..] == suffix;
    assert (pre + Suffix(p))[|pre|..] == Suffix(p);
  }

  lemma {:induction false} LastIndexOfAbsent(s: string, c: char)
    requires c !in s
    ensures LastIndexOf(s, c) == -1
    decreases |s|
  {
    if s != [] {
      assert s[..|s| - 1] <= s;
      LastIndexOfAbsent(s[..|s| - 1], c);
    }
  }

  /** The last c of a + [c] + b is the one after a, when b holds no c. */
  lemma {:induction false} LastIndexOfAfter(a: string, c: char, b: string)
    requires c !in b
    ensures LastIndexOf(a + [c] + b, c) == |a|
    decreases |b|
  {
    var s := a + [c] + b;
    if b != [] {
      assert s[|s| - 1] == b[|b| - 1];
      assert s[..|s| - 1] == a + [c] + b[..|b| - 1];
      LastIndexOfAfter(a, c, b[..|b| - 1]);
    } else {
      assert s[|s| - 1] == c;
    }
  }

  /** A file name joined to a directory is the name of the result, and the
      directory (with its '/') is the rest. */
  lemma JoinedName(dir: string, base: string)
    requires '/' !in base
    ensures Name(JoinPath(dir, base)) == base
    ensures DirPart(JoinPath(dir, base)) == if dir == "" then "" else dir + "/"
  {
    if dir == "" {
      LastIndexOfAbsent(base, '/');
    } else {
      LastIndexOfAfter(dir, '/', base);
      assert JoinPath(dir, base) == dir + ['/'] + base;
    }
  }

  /** The stem and suffix of dir/stem.ext, for a non-empty stem and an
      extension without dots. */
  lemma JoinedStem(dir: string, stem: string, ext: string)
    requires stem != [] && '/' !in stem && '/' !in ext && '.' !in ext && ext != []
    ensures Stem(JoinPath(dir, stem + "." + ext)) == stem
    ensures Suffix(JoinPath(dir, stem + "." + ext)) == "." + ext
  {
    var base := stem + "." + ext;
    assert '/' !in base by {
      forall i | 0 <= i < |base| ensures base[i] != '/' {
        if i < |stem| { assert base[i] == stem[i]; }
        else if i > |stem| { assert base[i] == ext[i - |stem| - 1]; }
      }
    }
    JoinedName(dir, base);
    NamedStem(JoinPath(dir, base), stem, ext);
  }

  /** The stem and suffix of a path named stem.ext. */
  lemma NamedStem(p: string, stem: string, ext: string)
    requires stem != [] && '.' !in ext && ext != [] && Name(p) == stem + "." + ext
    ensures Stem(p) == stem && Suffix(p) == "." + ext
  {
    var n := Name(p);
    LastIndexOfAfter(stem, '.', ext);
    assert stem + ['.'] + ext == n;
    assert n[..|stem|] == stem;
    assert n[|stem|..] == "." + ext;
  }

  /** fnmatch of a file name against a pattern prefix + "*" + suffix. */
  predicate MatchesStarPattern(name: string, prefix: string, suffix: string) {
    |name| >= |prefix| + |suffix|
    && name[..|prefix|] == prefix
    && name[|name| - |suffix|..] == suffix
  }
}
