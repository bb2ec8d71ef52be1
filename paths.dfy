/**
 * The parts of Python's path handling the transcoder relies on, for POSIX
 * paths: `pathlib.PurePath.name`, `.suffix` and `.stem`, `os.path.join` with
 * two arguments, and `str.lower` on ASCII letters.
 */
module Paths {

  predicate IsUpper(c: char) {
    'A' <= c <= 'Z'
  }

  function LowerChar(c: char): char {
    if IsUpper(c) then (c as int + 32) as char else c
  }

  /** `s.lower()` for ASCII letters; every other character is kept. */
  function Lower(s: string): (r: string)
    ensures |r| == |s|
    ensures forall i :: 0 <= i < |r| ==> !IsUpper(r[i])
    ensures forall i :: 0 <= i < |r| ==> r[i] == s[i] || (IsUpper(s[i]) && r[i] as int == s[i] as int + 32)
  {
    seq(|s|, i requires 0 <= i < |s| => LowerChar(s[i]))
  }

  predicate EndsWith(s: string, t: string) {
    |t| <= |s| && s[|s| - |t|..] == t
  }

  /** `s.rfind(c)`: the index of the last occurrence of `c`, or -1. */
  function LastIndexOf(s: string, c: char): (r: int)
    ensures -1 <= r < |s|
    ensures r >= 0 ==> s[r] == c
    ensures forall j :: r < j < |s| ==> s[j] != c
  {
    LastIndexBefore(s, c, |s|)
  }

  /** The index of the last `c` among the first `n` characters of `s`, or -1. */
  function LastIndexBefore(s: string, c: char, n: nat): (r: int)
    requires n <= |s|
    ensures -1 <= r < n
    ensures r >= 0 ==> s[r] == c
    ensures forall j :: r < j < n ==> s[j] != c
  {
    if n == 0 then -1
    else if s[n - 1] == c then n - 1
    else LastIndexBefore(s, c, n - 1)
  }

  /** Text that holds no `c` moves nothing: the last `c` of `x + y` is the last `c` of `x`. */
  lemma {:induction false} LastIndexOfAppend(x: string, y: string, c: char)
    requires c !in y
    ensures LastIndexOf(x + y, c) == LastIndexOf(x, c)
  {
    if y != [] {
      var front := y[..|y| - 1];
      assert (x + y)[|x + y| - 1] == y[|y| - 1] != c;
      assert (x + y)[..|x + y| - 1] == x + front;
      assert c !in front by {
        forall k | 0 <= k < |front| ensures front[k] != c {
          assert front[k] == y[k];
        }
      }
      LastIndexOfAppend(x, front, c);
    } else {
      assert x + y == x;
    }
  }

  function DropTrailingSlashes(p: string): (r: string)
    ensures |r| <= |p| && r == p[..|r|]
    ensures r == [] || r[|r| - 1] != '/'
  {
    if p != [] && p[|p| - 1] == '/' then DropTrailingSlashes(p[..|p| - 1]) else p
  }

  /**
   * `PurePath(p).name`: the last component of `p`. Separators at the end
   * are ignored, and so are `.` components, which `pathlib` drops when it
   * parses a path; a path with no component left has the empty name.
   */
  function Name(p: string): (r: string)
    ensures '/' !in r && r != "."
    decreases |p|
  {
    var q := DropTrailingSlashes(p);
    var i := LastIndexOf(q, '/');
    var last := q[i + 1..];
    if last == "." then (if i < 0 then "" else Name(q[..i]))
    else last
  }

  /** The name of a path that ends with a plain component is that component. */
  lemma NameOfPlainComponent(prefix: string, f: string)
    requires prefix == [] || prefix[|prefix| - 1] == '/'
    requires f != [] && '/' !in f && f != "."
    ensures Name(prefix + f) == f
  {
    var p := prefix + f;
    assert p[|p| - 1] == f[|f| - 1];
    assert DropTrailingSlashes(p) == p;
    LastIndexOfAppend(prefix, f, '/');
    assert p[LastIndexOf(p, '/') + 1..] == f;
  }

  /**
   * The final extension of a file name, dot included. It is empty exactly
   * when the name has no dot after its first character, or ends with a dot
   * (the rule of CPython up to 3.13): `clip`, `.mp4` and `a.` have none.
   */
  function NameSuffix(name: string): (r: string)
    ensures r == "" || (|r| >= 2 && r[0] == '.' && '.' !in r[1..])
    ensures EndsWith(name, r)
    ensures r == "" <==> NoExtension(name)
  {
    var i := LastIndexOf(name, '.');
    LastDotAndExtension(name);
    if 0 < i < |name| - 1 then name[i..] else ""
  }

  /** The names `NameSuffix` gives no extension: too short, no dot after the first character, or a final dot. */
  predicate NoExtension(name: string) {
    |name| < 2 || '.' !in name[1..] || name[|name| - 1] == '.'
  }

  lemma LastDotAndExtension(name: string)
    ensures var i := LastIndexOf(name, '.'); !(0 < i < |name| - 1) <==> NoExtension(name)
  {
    var i := LastIndexOf(name, '.');
    if |name| >= 2 {
      if 0 < i < |name| - 1 {
        assert name[1..][i - 1] == '.';
      } else if name[|name| - 1] != '.' {
        assert i != |name| - 1;
        forall k | 0 <= k < |name| - 1 ensures name[1..][k] != '.' {
          assert name[1..][k] == name[k + 1];
        }
      }
    }
  }

  /** A file name without its final extension. */
  function NameStem(name: string): (r: string)
    ensures r + NameSuffix(name) == name
  {
    var i := LastIndexOf(name, '.');
    if 0 < i < |name| - 1 then
      assert name[..i] + name[i..] == name;
      name[..i]
    else name
  }

  /** `PurePath(p).suffix`: the final extension of the name of `p`. */
  function Suffix(p: string): (r: string)
    ensures r == "" || (|r| >= 2 && r[0] == '.' && '.' !in r[1..])
    ensures EndsWith(Name(p), r)
    ensures r == "" <==> NoExtension(Name(p))
  {
    NameSuffix(Name(p))
  }

  /** `PurePath(p).stem`: the name without its suffix. */
  function Stem(p: string): (r: string)
    ensures r + Suffix(p) == Name(p)
  {
    NameStem(Name(p))
  }

  /**
   * `os.path.join(a, b)` on POSIX: an absolute `b` replaces `a`; otherwise
   * `b` is appended, with a separator unless `a` is empty or already ends
   * with one.
   */
  function Join(a: string, b: string): (r: string)
    ensures EndsWith(r, b)
    ensures b != [] && b[0] == '/' ==> r == b
    ensures (b == [] || b[0] != '/') ==> r == JoinPrefix(a) + b
  {
    if b != [] && b[0] == '/' then b
    else if a == [] || a[|a| - 1] == '/' then a + b
    else a + "/" + b
  }

  /** What `os.path.join(a, b)` puts in front of a relative `b`. */
  function JoinPrefix(a: string): (r: string)
    ensures r == [] || r[|r| - 1] == '/'
  {
    if a == [] || a[|a| - 1] == '/' then a else a + "/"
  }

  /** Joining a folder and a plain file name gives a path whose name is that file name. */
  lemma NameOfJoin(folder: string, f: string)
    requires f != [] && '/' !in f && f != "."
    ensures Name(Join(folder, f)) == f
  {
    assert f[0] != '/';
    assert Join(folder, f) == JoinPrefix(folder) + f;
    NameOfPlainComponent(JoinPrefix(folder), f);
  }

  /**
   * A file `clip`, a hidden file `.mp4` and a file `a.` have no extension,
   * while `a.mp4` has one.
   */
  lemma NoExtensionExamples()
    ensures NoExtension("clip") && NoExtension(".mp4") && NoExtension("a.")
    ensures !NoExtension("a.mp4")
  {
    assert "clip"[1..] == "lip" && ".mp4"[1..] == "mp4";
    assert "a.mp4"[1..][0] == '.';
  }

  /** A file with no extension has an empty suffix under any folder. */
  lemma NoSuffixUnder(folder: string, f: string)
    requires f != [] && '/' !in f && f != "." && NoExtension(f)
    ensures Suffix(Join(folder, f)) == ""
  {
    NameOfJoin(folder, f);
  }

  /** A name whose last dot follows a non-empty stem and precedes a non-empty extension has that extension as its suffix. */
  lemma SuffixOfName(stem: string, ext: string)
    requires stem != [] && '/' !in stem
    requires ext != [] && '/' !in ext && '.' !in ext
    ensures Suffix(stem + "." + ext) == "." + ext
  {
    var name := stem + "." + ext;
    NameOfDotted(stem, ext);
    LastDotOfDotted(stem, ext);
    SplitAtLastDot(name, |stem|);
    DotAndExtension(stem, ext);
  }

  lemma DotAndExtension(stem: string, ext: string)
    ensures (stem + "." + ext)[|stem|..] == "." + ext
  {
  }

  /** ... and that stem as its stem. */
  lemma StemOfName(stem: string, ext: string)
    requires stem != [] && '/' !in stem
    requires ext != [] && '/' !in ext && '.' !in ext
    ensures Stem(stem + "." + ext) == stem
  {
    var name := stem + "." + ext;
    NameOfDotted(stem, ext);
    LastDotOfDotted(stem, ext);
    SplitAtLastDot(name, |stem|);
    StemBeforeDot(stem, ext);
  }

  lemma StemBeforeDot(stem: string, ext: string)
    ensures (stem + "." + ext)[..|stem|] == stem
  {
  }

  lemma SplitAtLastDot(name: string, i: int)
    requires Name(name) == name && LastIndexOf(name, '.') == i && 0 < i < |name| - 1
    ensures Suffix(name) == name[i..] && Stem(name) == name[..i]
  {
  }

  lemma NameOfDotted(stem: string, ext: string)
    requires '/' !in stem && '/' !in ext && ext != []
    ensures Name(stem + "." + ext) == stem + "." + ext
  {
    NoSlashInDotted(stem, ext);
    NameOfBareName(stem + "." + ext);
  }

  lemma NoSlashInDotted(stem: string, ext: string)
    requires '/' !in stem && '/' !in ext
    ensures '/' !in stem + "." + ext
  {
    var name := stem + "." + ext;
    forall k | 0 <= k < |name| ensures name[k] != '/' {
      if k < |stem| { assert name[k] == stem[k]; }
      else if k > |stem| { assert name[k] == ext[k - |stem| - 1]; }
    }
  }

  /** A name without separators, other than `.`, is its own name. */
  lemma NameOfBareName(name: string)
    requires name != [] && '/' !in name && name != "."
    ensures Name(name) == name
  {
    NameOfPlainComponent([], name);
    assert [] + name == name;
  }

  lemma LastDotOfDotted(stem: string, ext: string)
    requires '.' !in ext
    ensures LastIndexOf(stem + "." + ext, '.') == |stem|
  {
    var front := stem + ".";
    assert stem + "." + ext == front + ext;
    LastIndexOfAppend(front, ext, '.');
  }
}
