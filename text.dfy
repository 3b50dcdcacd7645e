/** Python string behaviour the scripts rely on: the `<` order that `sorted`
    uses on `str`, `endswith`, `os.path.join`, `str.strip` and
    `str.replace('\x00', '')`, and the `isdigit`/`int` pair used for track
    numbers. Strings are sequences of code points, as in Python. */
module Text {

  /** Python's `a <= b` on `str`: lexicographic by code point, a proper prefix first. */
  predicate StrLe(a: string, b: string)
  {
    a == [] || (b != [] && (a[0] < b[0] || (a[0] == b[0] && StrLe(a[1..], b[1..]))))
  }

  lemma {:induction false} StrLeReflexive(a: string)
    ensures StrLe(a, a)
  {
    if a != [] { StrLeReflexive(a[1..]); }
  }

  lemma {:induction false} StrLeAntisymmetric(a: string, b: string)
    requires StrLe(a, b) && StrLe(b, a)
    ensures a == b
  {
    if a != [] && b != [] {
      StrLeAntisymmetric(a[1..], b[1..]);
      assert a == [a[0]] + a[1..] && b == [b[0]] + b[1..];
    }
  }

  lemma {:induction false} StrLeTransitive(a: string, b: string, c: string)
    requires StrLe(a, b) && StrLe(b, c)
    ensures StrLe(a, c)
  {
    if a != [] && b != [] && c != [] && a[0] == b[0] == c[0] {
      StrLeTransitive(a[1..], b[1..], c[1..]);
    }
  }

  lemma {:induction false} StrLeTotal(a: string, b: string)
    ensures StrLe(a, b) || StrLe(b, a)
  {
    if a != [] && b != [] && a[0] == b[0] {
      StrLeTotal(a[1..], b[1..]);
    }
  }

  /** A shared prefix does not change the order: `p + a <= p + b` iff `a <= b`. */
  lemma {:induction false} StrLeCommonPrefix(p: string, a: string, b: string)
    ensures StrLe(p + a, p + b) == StrLe(a, b)
  {
    if p != [] {
      assert (p + a)[0] == p[0] == (p + b)[0];
      assert (p + a)[1..] == p[1..] + a;
      assert (p + b)[1..] == p[1..] + b;
      StrLeCommonPrefix(p[1..], a, b);
    } else {
      assert p + a == a && p + b == b;
    }
  }

  /** `s.endswith(suffix)`. */
  predicate EndsWith(s: string, suffix: string)
  {
    |suffix| <= |s| && s[|s| - |suffix|..] == suffix
  }

  /** `name.endswith('.flac')`: the extension test is case-sensitive. */
  predicate IsFlac(name: string)
  {
    EndsWith(name, ".flac")
  }

  /** `os.path.join(folder, name)` for a relative `name`: one '/' between the parts. */
  function Join(folder: string, name: string): (r: string)
    ensures |r| == |folder| + 1 + |name|
    ensures r[..|folder|] == folder && r[|folder|] == '/' && r[|folder| + 1..] == name
  {
    folder + "/" + name
  }

  /** Paths joined to one folder compare as their names do. */
  lemma JoinPreservesOrder(folder: string, a: string, b: string)
    ensures StrLe(Join(folder, a), Join(folder, b)) == StrLe(a, b)
  {
    assert Join(folder, a) == (folder + "/") + a;
    assert Join(folder, b) == (folder + "/") + b;
    StrLeCommonPrefix(folder + "/", a, b);
  }

  /** Two joins are equal only when folder and name are, provided names hold no '/'. */
  lemma JoinInjective(r1: string, f1: string, r2: string, f2: string)
    requires '/' !in f1 && '/' !in f2
    requires Join(r1, f1) == Join(r2, f2)
    ensures r1 == r2 && f1 == f2
  {
    var j1, j2 := Join(r1, f1), Join(r2, f2);
    if |r1| < |r2| {
      assert false;
    } else if |r2| < |r1| {
      assert false;
    } else {
      assert r1 == j1[..|r1|] == j2[..|r2|] == r2;
      assert f1 == j1[|r1| + 1..] == j2[|r2| + 1..] == f2;
    }
  }

  /** The characters Python's `str.isspace()` accepts, and so `str.strip()` removes. */
  predicate IsSpace(c: char)
  {
    c == ' ' || ('\t' <= c <= '\r') || ('\U{1c}' <= c <= '\U{1f}') || c == '\U{85}' || c == '\U{a0}'
    || c == '\U{1680}' || ('\U{2000}' <= c <= '\U{200a}') || c == '\U{2028}' || c == '\U{2029}'
    || c == '\U{202f}' || c == '\U{205f}' || c == '\U{3000}'
  }

  function StripLeft(s: string): (r: string)
    ensures |r| <= |s| && r == s[|s| - |r|..]
    ensures r != [] ==> !IsSpace(r[0])
    ensures forall i :: 0 <= i < |s| - |r| ==> IsSpace(s[i])
  {
    if s != [] && IsSpace(s[0]) then StripLeft(s[1..]) else s
  }

  function StripRight(s: string): (r: string)
    ensures |r| <= |s| && r == s[..|r|]
    ensures r != [] ==> !IsSpace(r[|r| - 1])
    ensures forall i :: |r| <= i < |s| ==> IsSpace(s[i])
  {
    if s != [] && IsSpace(s[|s| - 1]) then StripRight(s[..|s| - 1]) else s
  }

  /** `s.strip()`: the longest infix that neither starts nor ends with whitespace. */
  function Strip(s: string): (r: string)
  {
    StripRight(StripLeft(s))
  }

  /** Neither end of `s` is whitespace. */
  predicate Trimmed(s: string)
  {
    s != [] ==> !IsSpace(s[0]) && !IsSpace(s[|s| - 1])
  }

  lemma StripResult(s: string)
    ensures Trimmed(Strip(s))
    ensures exists i, j :: 0 <= i <= j <= |s| && Strip(s) == s[i..j]
  {
    var l := StripLeft(s);
    var r := StripRight(l);
    assert r == s[|s| - |l|..][..|r|] == s[|s| - |l|..|s| - |l| + |r|];
    if r != [] {
      assert r[0] == l[0];
    }
  }

  /** Stripping text that is already trimmed changes nothing. */
  lemma StripTrimmed(s: string)
    requires Trimmed(s)
    ensures Strip(s) == s
  {
  }

  /** `s.replace('\x00', '')`. */
  function RemoveNul(s: string): (r: string)
    ensures '\0' !in r
    ensures |r| <= |s|
    ensures forall c :: c != '\0' ==> multiset(r)[c] == multiset(s)[c]
  {
    if s == [] then []
    else
      assert s == [s[0]] + s[1..];
      if s[0] == '\0' then RemoveNul(s[1..]) else [s[0]] + RemoveNul(s[1..])
  }

  lemma {:induction false} RemoveNulNoNul(s: string)
    requires '\0' !in s
    ensures RemoveNul(s) == s
  {
    if s != [] { RemoveNulNoNul(s[1..]); }
  }

  lemma {:induction false} RemoveNulConcat(a: string, b: string)
    ensures RemoveNul(a + b) == RemoveNul(a) + RemoveNul(b)
  {
    if a != [] {
      assert (a + b)[0] == a[0];
      assert (a + b)[1..] == a[1..] + b;
      RemoveNulConcat(a[1..], b);
    } else {
      assert a + b == b;
    }
  }

  predicate IsDigit(c: char)
  {
    '0' <= c <= '9'
  }

  /** `s.split('.')[0]`: the text before the first '.', or all of `s` when it has none. */
  function BeforeFirstDot(s: string): (r: string)
    ensures '.' !in r
    ensures |r| <= |s| && r == s[..|r|]
    ensures |r| < |s| ==> s[|r|] == '.'
  {
    if s == [] || s[0] == '.' then [] else [s[0]] + BeforeFirstDot(s[1..])
  }

  /** `s.isdigit()` restricted to ASCII digits: non-empty and all digits. */
  predicate AllDigits(s: string)
  {
    s != [] && forall i :: 0 <= i < |s| ==> IsDigit(s[i])
  }

  /** `int(s)` on a string of decimal digits. */
  function DecimalValue(s: string): (n: nat)
    requires forall i :: 0 <= i < |s| ==> IsDigit(s[i])
  {
    if s == [] then 0
    else
      assert IsDigit(s[|s| - 1]);
      10 * DecimalValue(s[..|s| - 1]) + (s[|s| - 1] as int - '0' as int)
  }
}
