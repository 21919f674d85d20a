/** The string and path helpers the builder leans on: Python's str.strip(),
    str.lower() and str.endswith(), and posixpath's basename, splitext and
    join. Strings are sequences of characters; paths use '/' as separator. */
module PathText {

  /** Python's str.isspace() on one character: the characters str.strip()
      removes when it is called without arguments. */
  predicate IsSpace(c: char) {
    ('\U{9}' <= c <= '\U{D}') || ('\U{1C}' <= c <= '\U{20}')
    || c == '\U{85}' || c == '\U{A0}' || c == '\U{1680}'
    || ('\U{2000}' <= c <= '\U{200A}') || c == '\U{2028}' || c == '\U{2029}'
    || c == '\U{202F}' || c == '\U{205F}' || c == '\U{3000}'
  }

  /** Drops the leading whitespace. */
  function TrimLeft(s: string): string {
    if s != [] && IsSpace(s[0]) then TrimLeft(s[1..]) else s
  }

  /** Drops the trailing whitespace. */
  function TrimRight(s: string): string {
    if s != [] && IsSpace(s[|s| - 1]) then TrimRight(s[..|s| - 1]) else s
  }

  /** str.strip(): whitespace dropped at both ends. */
  function Strip(s: string): string {
    TrimRight(TrimLeft(s))
  }

  /** What TrimLeft leaves is a suffix of s that starts with a non-space
      character, and everything it dropped was whitespace. */
  lemma {:induction false} TrimLeftShape(s: string)
    ensures var r := TrimLeft(s);
      |r| <= |s| && r == s[|s| - |r|..] &&
      (r != [] ==> !IsSpace(r[0])) &&
      (forall k :: 0 <= k < |s| - |r| ==> IsSpace(s[k]))
  {
    if s != [] && IsSpace(s[0]) {
      TrimLeftShape(s[1..]);
      var r := TrimLeft(s);
      forall k | 0 <= k < |s| - |r| ensures IsSpace(s[k]) {
        if k > 0 {
          assert s[k] == s[1..][k - 1];
        }
      }
    }
  }

  /** What TrimRight leaves is a prefix of s that ends with a non-space
      character, and everything it dropped was whitespace. */
  lemma {:induction false} TrimRightShape(s: string)
    ensures var r := TrimRight(s);
      |r| <= |s| && r == s[..|r|] &&
      (r != [] ==> !IsSpace(r[|r| - 1])) &&
      (forall k :: |r| <= k < |s| ==> IsSpace(s[k]))
  {
    if s != [] && IsSpace(s[|s| - 1]) {
      TrimRightShape(s[..|s| - 1]);
      var r := TrimRight(s);
      forall k | |r| <= k < |s| ensures IsSpace(s[k]) {
        if k < |s| - 1 {
          assert s[k] == s[..|s| - 1][k];
        }
      }
    }
  }

  /** strip() keeps a slice of s that neither starts nor ends with
      whitespace, and only whitespace lies outside it. */
  lemma {:induction false} StripShape(s: string)
    ensures var r, i := Strip(s), |s| - |TrimLeft(s)|;
      (r != [] ==> !IsSpace(r[0]) && !IsSpace(r[|r| - 1])) &&
      0 <= i && i + |r| <= |s| && r == s[i..i + |r|] &&
      (forall k :: 0 <= k < i ==> IsSpace(s[k])) &&
      (forall k :: i + |r| <= k < |s| ==> IsSpace(s[k]))
  {
    var t := TrimLeft(s);
    TrimLeftShape(s);
    TrimRightShape(t);
    var r := Strip(s);
    var i := |s| - |t|;
    if r != [] {
      assert r[0] == t[0];
    }
    forall k | i + |r| <= k < |s| ensures IsSpace(s[k]) {
      assert s[k] == t[k - i];
    }
  }

  /** strip() leaves nothing exactly when the text is all whitespace. */
  lemma {:induction false} StripEmpty(s: string)
    ensures Strip(s) == [] <==> forall k :: 0 <= k < |s| ==> IsSpace(s[k])
  {
    StripShape(s);
    if forall k :: 0 <= k < |s| ==> IsSpace(s[k]) {
      if Strip(s) != [] {
        var i := |s| - |TrimLeft(s)|;
        assert Strip(s)[0] == s[i];
      }
    }
  }

  /** A string that neither starts nor ends with whitespace is its own
      strip(). */
  lemma {:induction false} StripUnpadded(s: string)
    requires s != [] && !IsSpace(s[0]) && !IsSpace(s[|s| - 1])
    ensures Strip(s) == s
  {
  }

  /** str.lower() on one character, for the ASCII letters. */
  function LowerChar(c: char): char {
    if 'A' <= c <= 'Z' then (c as int + 32) as char else c
  }

  /** str.lower(), character by character. */
  function Lower(s: string): (r: string)
    ensures |r| == |s|
    ensures forall k :: 0 <= k < |s| ==> r[k] == LowerChar(s[k])
  {
    if s == [] then [] else [LowerChar(s[0])] + Lower(s[1..])
  }

  /** str.endswith(suffix). */
  predicate EndsWith(s: string, suffix: string) {
    |suffix| <= |s| && s[|s| - |suffix|..] == suffix
  }

  /** s.lower().endswith(suffix): the case-insensitive extension test. */
  predicate LowerEndsWith(s: string, suffix: string) {
    EndsWith(Lower(s), suffix)
  }

  /** str.rfind(c): the index of the last occurrence of c, or -1. */
  function LastIndexOf(s: string, c: char): (r: int)
    ensures -1 <= r < |s|
  {
    if s == [] then -1
    else if s[|s| - 1] == c then |s| - 1
    else LastIndexOf(s[..|s| - 1], c)
  }

  /** rfind finds the last occurrence: -1 or an index holding c, with no c
      after it. */
  lemma {:induction false} LastIndexOfShape(s: string, c: char)
    ensures var r := LastIndexOf(s, c);
      -1 <= r < |s| && (r >= 0 ==> s[r] == c) && (forall k :: r < k < |s| ==> s[k] != c)
  {
    if s != [] && s[|s| - 1] != c {
      var t := s[..|s| - 1];
      LastIndexOfShape(t, c);
      forall k | LastIndexOf(s, c) < k < |s| ensures s[k] != c {
        if k < |s| - 1 {
          assert s[k] == t[k];
        }
      }
    }
  }

  /** posixpath.basename: the part of p after its last '/'. */
  function Basename(p: string): string {
    p[LastIndexOf(p, '/') + 1..]
  }

  lemma {:induction false} BasenameIndex(p: string)
    ensures var i := LastIndexOf(p, '/') + 1;
      0 <= i <= |p| && Basename(p) == p[i..] && (i > 0 ==> p[i - 1] == '/') &&
      (forall k :: i <= k < |p| ==> p[k] != '/')
  {
    LastIndexOfShape(p, '/');
  }

  lemma {:induction false} BasenameShape(p: string)
    ensures var r := Basename(p);
      (forall k :: 0 <= k < |r| ==> r[k] != '/') && |r| <= |p| && r == p[|p| - |r|..] && (|r| < |p| ==> p[|p| - |r| - 1] == '/') &&
      (r == [] <==> p == [] || p[|p| - 1] == '/')
  {
    BasenameIndex(p);
    var r := Basename(p);
    var i := LastIndexOf(p, '/') + 1;
    assert |p| - |r| == i;
    forall k | 0 <= k < |r| ensures r[k] != '/' {
      assert r[k] == p[i + k];
    }
  }

  /** posixpath.splitext(p)[0]: p without its final extension. The extension
      starts at the last '.' of the last path component, unless every
      character before that dot in the component is itself a dot (".bashrc",
      "..py" keep their names). */
  function SplitextRoot(p: string): string {
    var sepIndex := LastIndexOf(p, '/');
    var dotIndex := LastIndexOf(p, '.');
    if -1 <= sepIndex && dotIndex > sepIndex && dotIndex < |p| && exists k :: sepIndex < k < dotIndex && p[k] != '.'
    then p[..dotIndex]
    else p
  }

  /** The root is a prefix of p, whatever it cuts off is a '.' followed by
      neither '.' nor '/', and the root is empty only for the empty path.
      An extension is cut off exactly when the last component holds a '.'
      after some character other than '.'. */
  lemma {:induction false} SplitextRootShape(p: string)
    ensures var r := SplitextRoot(p);
      |r| <= |p| && r == p[..|r|] &&
      (r != p ==> p[|r|] == '.' && forall k :: |r| < k < |p| ==> p[k] != '.' && p[k] != '/') &&
      (r == [] <==> p == []) &&
      (r != p <==> exists i, j :: LastIndexOf(p, '/') < i < j < |p| && p[i] != '.' && p[j] == '.')
  {
    LastIndexOfShape(p, '/');
    LastIndexOfShape(p, '.');
    var sep := LastIndexOf(p, '/');
    if exists i, j :: sep < i < j < |p| && p[i] != '.' && p[j] == '.' {
      var i, j :| sep < i < j < |p| && p[i] != '.' && p[j] == '.';
      assert j <= LastIndexOf(p, '.');
    }
  }

  /** posixpath.join(a, b) for two components: an absolute b replaces a,
      otherwise b is appended with a '/' unless a is empty or already ends
      with one. */
  function Join(a: string, b: string): string {
    if b != [] && b[0] == '/' then b
    else if a == [] || a[|a| - 1] == '/' then a + b
    else a + "/" + b
  }

  /** Joining a relative component onto a directory puts the component
      right after the directory and at most one separator: the result
      starts with the directory and ends with the component, with the
      separator inserted exactly when the directory is non-empty and does
      not already end with one. */
  lemma {:induction false} JoinRelative(a: string, b: string)
    requires b == [] || b[0] != '/'
    ensures var j := Join(a, b);
      |a| + |b| <= |j| <= |a| + |b| + 1 && j[..|a|] == a && EndsWith(j, b)
    ensures Join(a, b) == a + b || Join(a, b) == a + "/" + b
    ensures (a == [] || a[|a| - 1] == '/') ==> Join(a, b) == a + b
    ensures (a != [] && a[|a| - 1] != '/') ==> Join(a, b) == a + "/" + b
  {
  }

  /** Joining an absolute component discards the directory. */
  lemma {:induction false} JoinAbsolute(a: string, b: string)
    requires b != [] && b[0] == '/'
    ensures Join(a, b) == b
  {
  }

  /** Lower-casing keeps a separator a separator and turns nothing else
      into one. */
  lemma {:induction false} LowerKeepsSeparators(s: string, k: int)
    requires 0 <= k < |s|
    ensures Lower(s)[k] == '/' <==> s[k] == '/'
    ensures Lower(s)[k] == '.' <==> s[k] == '.'
  {
  }

  /** The name posixpath derives from a script path that passes the
      case-insensitive ".py" test is never empty: splitext(basename(p))[0]
      of such a path has at least one character. */
  lemma {:induction false} PythonScriptRootNonEmpty(p: string)
    requires LowerEndsWith(p, ".py")
    ensures SplitextRoot(Basename(p)) != []
  {
    assert Lower(p)[|p| - 1] == 'y';
    LowerKeepsSeparators(p, |p| - 1);
    BasenameShape(p);
    SplitextRootShape(Basename(p));
  }
}
