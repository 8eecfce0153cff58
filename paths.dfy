/** POSIX path helpers with the semantics of Node's `path` module as far as the source uses
    them: `join` (without normalisation), `dirname` and `extname`. */
module Paths {
  import opened Text

  type Path = string

  /** `path.join(dir, name)`; the `.`/`..` normalisation Node applies is not modelled. */
  function Join(dir: Path, name: string): Path {
    dir + "/" + name
  }

  /** `path.resolve(cwd, p)` for the paths used here: an absolute `p` stays as it is, a
      relative one is put below `cwd` with a leading `./` dropped; `..` and repeated
      separators are not normalised. */
  function Resolve(cwd: Path, p: Path): Path {
    if |p| > 0 && p[0] == '/' then p
    else if |p| >= 2 && p[..2] == "./" then cwd + "/" + p[2..]
    else cwd + "/" + p
  }

  lemma ResolveDotSlash(cwd: Path, below: Path)
    ensures Resolve(cwd, "./" + below) == cwd + "/" + below
  {
    var p := "./" + below;
    assert p[..2] == "./" && p[2..] == below;
  }

  /** `path.dirname` of a path without trailing separator: the text before the last `/`,
      or `.` when there is none. */
  function Parent(p: Path): Path {
    var i := LastIndexOf(p, '/');
    if i < 0 then "." else p[..i]
  }

  /** The parent of `dir/name` is `dir` whenever `name` is a single path segment. */
  lemma ParentOfJoin(dir: Path, name: string)
    requires '/' !in name
    ensures Parent(Join(dir, name)) == dir
  {
    var p := Join(dir, name);
    assert p[|dir|] == '/';
    var i := LastIndexOf(p, '/');
    assert forall j :: |dir| < j < |p| ==> p[j] == name[j - |dir| - 1];
    assert p[..|dir|] == dir;
  }

  /** The path without its trailing `/` separators. */
  function TrimTrailingSlashes(p: Path): (r: Path)
    ensures |r| <= |p| && r == p[..|r|]
    ensures r == "" || r[|r| - 1] != '/'
    ensures forall i :: |r| <= i < |p| ==> p[i] == '/'
  {
    if |p| > 0 && p[|p| - 1] == '/' then TrimTrailingSlashes(p[..|p| - 1]) else p
  }

  /** The last segment of the path (`path.basename` without a suffix argument). */
  function BaseName(p: Path): (b: string)
    ensures '/' !in b
  {
    var t := TrimTrailingSlashes(p);
    var i := LastIndexOf(t, '/');
    t[i + 1..]
  }

  /** `path.extname`: from the last `.` of the base name to its end, or the empty string when
      the base name has no `.`, starts with its only `.` run before the last one (dot-files
      such as `.el`), or is `..`. */
  function ExtName(p: Path): (e: string)
  {
    BaseExt(BaseName(p))
  }

  /** The extension of a base name. */
  function BaseExt(b: string): (e: string)
  {
    var d := LastIndexOf(b, '.');
    if d <= 0 || b == ".." then "" else b[d..]
  }

  /** An extension is empty or a `.` followed by a dot-free, separator-free suffix of the base
      name; it is nonempty exactly when the base name has a `.` past its first character and
      is not `..`. */
  lemma ExtNameShape(p: Path)
    ensures var e := ExtName(p);
      && (e == "" || (e[0] == '.' && '.' !in e[1..] && '/' !in e && EndsWith(BaseName(p), e)))
      && (e != "" <==> LastIndexOf(BaseName(p), '.') > 0 && BaseName(p) != "..")
  {
    var b := BaseName(p);
    var d := LastIndexOf(b, '.');
    if d > 0 && b != ".." {
      LastDotSuffix(b, d);
    }
  }

  /** The text from the last `.` of a separator-free name on is a `.`, then no `.`, and no
      separator at all; it ends the name. */
  lemma LastDotSuffix(b: string, d: int)
    requires '/' !in b && 0 <= d < |b| && b[d] == '.'
    requires forall j :: d < j < |b| ==> b[j] != '.'
    ensures var e := b[d..]; e[0] == '.' && '.' !in e[1..] && '/' !in e && EndsWith(b, e)
  {
    var e := b[d..];
    forall k | 0 <= k < |e| - 1 ensures e[1..][k] != '.' {
      assert e[1..][k] == b[d + 1 + k];
    }
    forall k | 0 <= k < |e| ensures e[k] != '/' {
      assert e[k] == b[d + k];
    }
  }

  /** The base name is a suffix of the path without its trailing separators. */
  lemma BaseNameEndsTrimmed(p: Path)
    ensures EndsWith(TrimTrailingSlashes(p), BaseName(p))
  {
  }

  /** Lower-casing commutes with dropping trailing separators. */
  lemma {:induction false} TrimTrailingSlashesLower(p: Path)
    ensures TrimTrailingSlashes(ToLower(p)) == ToLower(TrimTrailingSlashes(p))
    decreases |p|
  {
    var l := ToLower(p);
    if |p| > 0 && p[|p| - 1] == '/' {
      LowerSlice(p, 0, |p| - 1);
      assert l[..|l| - 1] == ToLower(p[..|p| - 1]);
      TrimTrailingSlashesLower(p[..|p| - 1]);
    }
  }

  /** `path.basename` commutes with lower-casing. */
  lemma BaseNameLower(p: Path)
    ensures BaseName(ToLower(p)) == ToLower(BaseName(p))
  {
    var t := TrimTrailingSlashes(p);
    var i := LastIndexOf(t, '/');
    TrimTrailingSlashesLower(p);
    LastIndexOfLower(t, '/');
    BaseNameAt(p, t, i);
    BaseNameAt(ToLower(p), ToLower(t), i);
    LowerDrop(t, i + 1);
  }

  /** The base name is what follows the last separator of the trimmed path. */
  lemma BaseNameAt(p: Path, t: Path, i: int)
    requires t == TrimTrailingSlashes(p) && i == LastIndexOf(t, '/')
    ensures BaseName(p) == t[i + 1..]
  {
  }

  /** `path.extname` commutes with lower-casing: only letters change, never `.` or `/`. */
  lemma ExtNameLower(p: Path)
    ensures ExtName(ToLower(p)) == ToLower(ExtName(p))
  {
    BaseNameLower(p);
    BaseExtLower(BaseName(p));
  }

  lemma BaseExtLower(b: string)
    ensures BaseExt(ToLower(b)) == ToLower(BaseExt(b))
  {
    var lb := ToLower(b);
    LastIndexOfLower(b, '.');
    var d := LastIndexOf(b, '.');
    DotDotLower(b);
    if d > 0 && b != ".." {
      LowerDrop(b, d);
    }
  }

  lemma DotDotLower(b: string)
    ensures ToLower(b) == ".." <==> b == ".."
  {
    if ToLower(b) == ".." {
      assert LowerChar(b[0]) == '.' && LowerChar(b[1]) == '.';
    }
  }

  /** A nonempty extension implies a `.` in the path past its first character. */
  lemma ExtNameHasInnerDot(p: Path)
    requires ExtName(p) != ""
    ensures LastIndexOf(p, '.') > 0
  {
    var t := TrimTrailingSlashes(p);
    var i := LastIndexOf(t, '/');
    BaseNameAt(p, t, i);
    var b := t[i + 1..];
    var d := LastIndexOf(b, '.');
    assert d > 0 by { assert BaseExt(b) != ""; }
    DotInPrefix(p, t, i + 1, d);
  }

  /** A `.` at position `d` of the part of prefix `t` of `p` from `start` on is a `.` of `p`
      past position `d` of `p`. */
  lemma DotInPrefix(p: Path, t: Path, start: nat, d: int)
    requires |t| <= |p| && t == p[..|t|] && start <= |t|
    requires 0 < d < |t| - start && t[start..][d] == '.'
    ensures LastIndexOf(p, '.') > 0
  {
    var k := start + d;
    assert p[k] == '.' by { assert t[k] == t[start..][d]; }
    var q := LastIndexOf(p, '.');
    assert q >= k;
  }

  /** A stem free of `.` and `/` followed by an extension has that extension. */
  lemma ExtNameAfterStem(stem: string, e: string)
    requires stem != "" && '.' !in stem && '/' !in stem
    requires e == "" || (e[0] == '.' && '.' !in e[1..] && '/' !in e)
    ensures ExtName(stem + e) == e
  {
    var s := stem + e;
    assert '/' !in s by {
      forall k | 0 <= k < |s| ensures s[k] != '/' {
        if k < |stem| { assert s[k] == stem[k]; } else { assert s[k] == e[k - |stem|]; }
      }
    }
    assert TrimTrailingSlashes(s) == s;
    assert BaseName(s) == s;
    BaseExtAfterStem(stem, e);
  }

  lemma BaseExtAfterStem(stem: string, e: string)
    requires stem != "" && '.' !in stem
    requires e == "" || (e[0] == '.' && '.' !in e[1..])
    ensures BaseExt(stem + e) == e
  {
    var s := stem + e;
    if e == "" {
      assert s == stem;
    } else {
      assert s[|stem|] == '.';
      forall k | |stem| < k < |s| ensures s[k] != '.' {
        assert s[k] == e[1..][k - |stem| - 1];
      }
      forall k | 0 <= k < |stem| ensures s[k] != '.' {
        assert s[k] == stem[k];
      }
      var d := LastIndexOf(s, '.');
      assert d == |stem|;
      assert s != ".." by { assert s[0] == stem[0]; }
      assert s[d..] == e;
    }
  }
}
