/** POSIX path handling as the core uses it: pathlib's `Path(root, path)`,
    `name`, `suffix` and `with_suffix`, and `os.path.splitext` and
    `os.path.dirname`. Paths are taken in the normal form pathlib prints
    (no empty or "." components, no trailing separator). */
module Paths {
  import opened Data

  /** Index of the last occurrence of `c` in `s`, or -1 (Python's `str.rfind`). */
  function RFind(s: string, c: char): (i: int)
    ensures -1 <= i < |s|
    ensures i >= 0 ==> s[i] == c
    ensures forall j :: i < j < |s| ==> s[j] != c
  {
    if |s| == 0 then -1
    else if s[|s| - 1] == c then |s| - 1
    else RFind(s[..|s| - 1], c)
  }

  /** The three properties above determine the index. */
  lemma RFindUnique(s: string, c: char, i: int)
    requires -1 <= i < |s|
    requires i >= 0 ==> s[i] == c
    requires forall j :: i < j < |s| ==> s[j] != c
    ensures RFind(s, c) == i
  {
  }

  /** `rfind` finds something exactly when the character occurs. */
  lemma RFindFound(s: string, c: char)
    ensures c in s <==> RFind(s, c) >= 0
  {
    if c in s {
      var k :| 0 <= k < |s| && s[k] == c;
      assert k <= RFind(s, c);
    }
  }

  /** The last occurrence in a concatenation is in the right part if it has
      one, otherwise in the left part. */
  lemma {:induction false} RFindAppend(a: string, b: string, c: char)
    ensures RFind(a + b, c) == if RFind(b, c) >= 0 then |a| + RFind(b, c) else RFind(a, c)
    decreases |b|
  {
    var s := a + b;
    if b == [] {
      assert s == a;
    } else {
      var n := |b| - 1;
      assert s[|s| - 1] == b[n];
      if b[n] != c {
        assert s[..|s| - 1] == a + b[..n];
        RFindAppend(a, b[..n], c);
      }
    }
  }

  lemma RFindAppendHit(a: string, b: string, c: char)
    requires c in b
    ensures RFind(a + b, c) == |a| + RFind(b, c)
  {
    RFindFound(b, c);
    RFindAppend(a, b, c);
  }

  lemma RFindAppendMiss(a: string, b: string, c: char)
    requires c !in b
    ensures RFind(a + b, c) == RFind(a, c)
  {
    RFindFound(b, c);
    RFindAppend(a, b, c);
  }

  lemma RFindPrefix(s: string, k: nat, c: char)
    requires RFind(s, c) < k <= |s|
    ensures RFind(s[..k], c) == RFind(s, c)
  {
    RFindUnique(s[..k], c, RFind(s, c));
  }

  /** The position of the first character after the last separator. */
  function NameStart(p: string): (i: nat)
    ensures i <= |p|
    ensures i > 0 ==> p[i - 1] == '/'
    ensures '/' !in p[i..]
  {
    RFind(p, '/') + 1
  }

  /** The final component, pathlib's `name`. */
  function Name(p: string): string {
    p[NameStart(p)..]
  }

  /** Everything before the final component, separator included. */
  function Head(p: string): string {
    p[..NameStart(p)]
  }

  /** pathlib's `suffix`: from the last dot of the name, unless that dot
      starts the name or ends it. */
  function Suffix(name: string): (s: string)
    ensures s == "" || (s[0] == '.' && '.' !in s[1..] && |s| >= 2)
  {
    var i := RFind(name, '.');
    if 0 < i < |name| - 1 then name[i..] else ""
  }

  /** The name without its suffix, pathlib's `stem`. */
  function Stem(name: string): (s: string)
    ensures s + Suffix(name) == name
  {
    name[..|name| - |Suffix(name)|]
  }

  /** The suffixes `with_suffix` accepts: empty, or a dot followed by
      at least one character, never containing a separator. */
  predicate ValidSuffix(s: string) {
    '/' !in s && (s == "" || (s[0] == '.' && s != "."))
  }

  /** A suffix with exactly one dot, the first character, such as ".yml". */
  predicate SimpleSuffix(s: string) {
    |s| >= 2 && s[0] == '.' && '.' !in s[1..] && '/' !in s
  }

  /** `str(pathlib.Path(p).with_suffix(s))`. */
  function WithSuffix(p: string, s: string): (r: Result<string>)
    ensures r.Err? <==> !ValidSuffix(s) || Name(p) == "" || Name(p) == "."
  {
    if !ValidSuffix(s) then Err(InvalidSuffix(s))
    else if Name(p) == "" || Name(p) == "." then Err(EmptyName(p))
    else Ok(Head(p) + Stem(Name(p)) + s)
  }

  lemma NameOfHeadAppend(p: string, n: string)
    requires '/' !in n
    ensures Name(Head(p) + n) == n && Head(Head(p) + n) == Head(p)
  {
    var h := Head(p);
    RFindAppend(h, n, '/');
    if h != "" {
      assert h[|h| - 1] == '/';
      RFindUnique(h, '/', |h| - 1);
    } else {
      RFindUnique(h, '/', -1);
    }
    assert (h + n)[..|h|] == h;
    assert (h + n)[|h|..] == n;
  }

  /** `with_suffix` keeps the directory and the stem and puts `s` in place
      of the old suffix: the new path's suffix is `s`. */
  lemma {:induction false} WithSuffixReplacesSuffix(p: string, s: string)
    requires SimpleSuffix(s)
    requires WithSuffix(p, s).Ok?
    ensures var r := WithSuffix(p, s).value;
      Head(r) == Head(p) && Stem(Name(r)) == Stem(Name(p)) && Suffix(Name(r)) == s
  {
    var stem := Stem(Name(p));
    var n := stem + s;
    StemOfName(Name(p));
    NameOfHeadAppend(p, n);
    assert WithSuffix(p, s).value == Head(p) + n;
    RFindAppendHit(stem, s, '.');
    RFindUnique(s, '.', 0);
    assert RFind(n, '.') == |stem|;
    assert n[|stem|..] == s;
  }

  /** The stem of a non-empty final component is a non-empty prefix of it,
      free of separators: a suffix never starts the name. */
  lemma StemOfName(name: string)
    requires name != "" && '/' !in name
    ensures 0 < |Stem(name)| && name[..|Stem(name)|] == Stem(name) && '/' !in Stem(name)
  {
    var stem := Stem(name);
    assert name[..|stem|] == stem;
    if Suffix(name) != "" {
      assert RFind(name, '.') > 0;
    }
    forall k | 0 <= k < |stem| ensures stem[k] != '/' {
      assert stem[k] == name[k];
    }
  }


  /** Replacing the suffix a second time changes nothing. */
  lemma WithSuffixIdempotent(p: string, s: string)
    requires SimpleSuffix(s)
    requires WithSuffix(p, s).Ok?
    ensures WithSuffix(WithSuffix(p, s).value, s) == WithSuffix(p, s)
  {
    var r := WithSuffix(p, s).value;
    WithSuffixReplacesSuffix(p, s);
    var stem := Stem(Name(p));
    NameOfHeadAppend(p, stem + s);
    assert Name(r) == stem + s;
    assert Stem(Name(r)) + s == Name(r);
  }

  /** True when `s` has a character other than a dot. */
  predicate HasNonDot(s: string) {
    exists k :: 0 <= k < |s| && s[k] != '.'
  }

  /** `os.path.splitext(p)`: the extension runs from the last dot of the
      final component to the end, unless only dots precede that dot within
      the component. */
  function SplitExt(p: string): (parts: (string, string))
    ensures parts.0 + parts.1 == p
  {
    var sep := RFind(p, '/');
    var dot := RFind(p, '.');
    if dot > sep && HasNonDot(p[sep + 1..dot]) then (p[..dot], p[dot..]) else (p, "")
  }

  /** An extension is empty, or one dot followed by no dot and no separator. */
  lemma SplitExtShape(p: string)
    ensures var ext := SplitExt(p).1;
      ext == "" || (ext[0] == '.' && '.' !in ext[1..] && '/' !in ext)
  {
    var sep := RFind(p, '/');
    var dot := RFind(p, '.');
    var ext := SplitExt(p).1;
    if ext != "" {
      assert ext == p[dot..];
      forall k | 0 <= k < |ext| ensures ext[k] != '/' && (k > 0 ==> ext[k] != '.') {
        assert ext[k] == p[dot + k];
      }
    }
  }

  /** `os.path.dirname(p)`: everything up to the last separator, with
      trailing separators stripped unless it consists only of separators. */
  function Dirname(p: string): (d: string)
    ensures |d| <= |p| && d == p[..|d|]
  {
    var head := p[..RFind(p, '/') + 1];
    if head != "" && !AllSlashes(head) then RStripSlashes(head) else head
  }

  predicate AllSlashes(s: string) {
    forall k :: 0 <= k < |s| ==> s[k] == '/'
  }

  /** `s.rstrip("/")`. */
  function RStripSlashes(s: string): (r: string)
    ensures |r| <= |s| && r == s[..|r|]
    ensures r == "" || r[|r| - 1] != '/'
    ensures AllSlashes(s[|r|..])
  {
    if s != "" && s[|s| - 1] == '/' then RStripSlashes(s[..|s| - 1]) else s
  }

  /** The parent of a child of `d` is `d`. */
  lemma DirnameOfChild(d: string, n: string)
    requires d != "" && d[|d| - 1] != '/'
    requires '/' !in n
    ensures Dirname(d + "/" + n) == d
  {
    var p := d + "/" + n;
    RFindAppend(d + "/", n, '/');
    RFindUnique(d + "/", '/', |d|);
    assert p[..|d| + 1] == d + "/";
    assert (d + "/")[..|d|] == d;
    assert !AllSlashes(d + "/") by { assert (d + "/")[|d| - 1] != '/'; }
  }

  /** A path without a separator has an empty parent. */
  lemma DirnameOfBareName(p: string)
    requires '/' !in p
    ensures Dirname(p) == ""
  {
    RFindUnique(p, '/', -1);
  }

  /** `str(pathlib.Path(root, path))`: an absolute `path` replaces the root;
      an empty one names the root itself. */
  function Join(root: string, path: string): (full: string)
    ensures path != "" && path[0] != '/' && root != "" ==> EndsWith(full, "/" + path)
  {
    if path == "" then root
    else if path[0] == '/' || root == "" then path
    else if root[|root| - 1] == '/' then root + path
    else root + "/" + path
  }

  /** A slice that ends where `a` ends is a slice of `a`. */
  lemma SliceBeforeAppend(a: string, b: string, i: nat)
    requires i <= |a|
    ensures (a + b)[i..|a|] == a[i..]
  {
    assert (a + b)[..|a|] == a;
    assert (a + b)[i..|a|] == (a + b)[..|a|][i..];
  }

  /** `s.endswith(t)`. */
  predicate EndsWith(s: string, t: string) {
    |t| <= |s| && s[|s| - |t|..] == t
  }

  lemma EndsWithAppend(s: string, t: string)
    ensures EndsWith(s + t, t)
  {
    assert (s + t)[|s|..] == t;
  }
}
