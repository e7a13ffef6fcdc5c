/** The Python `str` operations the service relies on: `strip()` and `sorted()` over keys. */
module Text {

  /** The characters `str.isspace()` accepts, which `str.strip()` removes. */
  predicate IsSpace(c: char) {
    || ('\t' <= c <= '\r')
    || ('\U{1C}' <= c <= ' ')
    || c == '\U{85}' || c == '\U{A0}' || c == '\U{1680}'
    || ('\U{2000}' <= c <= '\U{200A}')
    || c == '\U{2028}' || c == '\U{2029}' || c == '\U{202F}' || c == '\U{205F}' || c == '\U{3000}'
  }

  /** A string with nothing but whitespace in it (the empty string included). */
  predicate Blank(s: string) {
    forall i | 0 <= i < |s| :: IsSpace(s[i])
  }

  /** `s.lstrip()`: the longest suffix of `s` that does not start with whitespace. */
  function TrimStart(s: string): (r: string)
    ensures |r| <= |s| && r == s[|s| - |r|..]
    ensures Blank(s[..|s| - |r|])
    ensures r == [] || !IsSpace(r[0])
  {
    if |s| > 0 && IsSpace(s[0]) then
      var r := TrimStart(s[1..]);
      assert s[..|s| - |r|] == [s[0]] + s[1..][..|s| - 1 - |r|];
      r
    else s
  }

  /** `s.rstrip()`: the longest prefix of `s` that does not end with whitespace. */
  function TrimEnd(s: string): (r: string)
    ensures |r| <= |s| && r == s[..|r|]
    ensures Blank(s[|r|..])
    ensures r == [] || !IsSpace(r[|r| - 1])
  {
    if |s| > 0 && IsSpace(s[|s| - 1]) then
      var r := TrimEnd(s[..|s| - 1]);
      assert s[|r|..] == s[..|s| - 1][|r|..] + [s[|s| - 1]];
      r
    else s
  }

  /** `s.strip()`. */
  function Strip(s: string): string {
    TrimEnd(TrimStart(s))
  }

  /** `s.strip()` is empty exactly when `s` is blank. */
  lemma StripEmptyIffBlank(s: string)
    ensures Strip(s) == [] <==> Blank(s)
  {
    var t := TrimStart(s);
    if Strip(s) == [] {
      assert Blank(t[0..]);
      assert t == [];
      forall i | 0 <= i < |s|
        ensures IsSpace(s[i])
      {
        assert s[i] == s[..|s| - |t|][i];
      }
    } else {
      assert t != [];
      assert t[0] == s[|s| - |t|];
    }
  }

  /** `a <= b` for Python strings: lexicographic order on code points. */
  predicate Below(a: string, b: string)
    decreases |a|
  {
    |a| == 0 || (|b| > 0 && (a[0] < b[0] || (a[0] == b[0] && Below(a[1..], b[1..]))))
  }

  /** Every string is `<=` itself. */
  lemma {:induction false} BelowReflexive(a: string)
    ensures Below(a, a)
    decreases |a|
  {
    if |a| > 0 {
      BelowReflexive(a[1..]);
    }
  }

  /** Strings `<=` each other are equal. */
  lemma {:induction false} BelowAntisymmetric(a: string, b: string)
    requires Below(a, b) && Below(b, a)
    ensures a == b
    decreases |a|
  {
    if |a| > 0 {
      BelowAntisymmetric(a[1..], b[1..]);
      assert a == [a[0]] + a[1..];
      assert b == [b[0]] + b[1..];
    }
  }

  /** `<=` on strings is transitive. */
  lemma {:induction false} BelowTransitive(a: string, b: string, c: string)
    requires Below(a, b) && Below(b, c)
    ensures Below(a, c)
    decreases |a|
  {
    if |a| > 0 && a[0] == b[0] && b[0] == c[0] {
      BelowTransitive(a[1..], b[1..], c[1..]);
    }
  }

  /** Any two strings are comparable. */
  lemma {:induction false} BelowTotal(a: string, b: string)
    ensures Below(a, b) || Below(b, a)
    decreases |a|
  {
    if |a| > 0 && |b| > 0 && a[0] == b[0] {
      BelowTotal(a[1..], b[1..]);
    }
  }

  /** Antisymmetry, for every pair at once. */
  lemma BelowAntisymmetricAll()
    ensures forall a, b | Below(a, b) && Below(b, a) :: a == b
  {
    forall a, b | Below(a, b) && Below(b, a)
      ensures a == b
    {
      BelowAntisymmetric(a, b);
    }
  }

  /** `m` is the least element of `s`. */
  predicate IsLeastOf(m: string, s: set<string>) {
    m in s && forall y | y in s :: Below(m, y)
  }

  /** A non-empty finite set of strings has a least element. */
  lemma {:induction false} LeastExists(s: set<string>)
    requires s != {}
    ensures exists m :: IsLeastOf(m, s)
    decreases s
  {
    var x :| x in s;
    if s == {x} {
      BelowReflexive(x);
      assert IsLeastOf(x, s);
    } else {
      LeastExists(s - {x});
      var m :| IsLeastOf(m, s - {x});
      BelowTotal(m, x);
      if Below(m, x) {
        assert IsLeastOf(m, s);
      } else {
        forall y | y in s
          ensures Below(x, y)
        {
          if y == x {
            BelowReflexive(x);
          } else {
            BelowTransitive(x, m, y);
          }
        }
        assert IsLeastOf(x, s);
      }
    }
  }

  /** The least string of a non-empty set: what `sorted(...)` puts first. */
  function Least(s: set<string>): (m: string)
    requires s != {}
    ensures m in s
    ensures forall y | y in s :: Below(m, y)
  {
    LeastExists(s);
    BelowAntisymmetricAll();
    var m :| IsLeastOf(m, s);
    m
  }

  /** Putting the least key in front of the sorted others sorts all keys. */
  lemma SortedKeysStep(m: string, rest: seq<string>, keys: set<string>)
    requires IsLeastOf(m, keys)
    requires |rest| == |keys - {m}|
    requires forall i | 0 <= i < |rest| :: rest[i] in keys - {m}
    requires forall k | k in keys - {m} :: k in rest
    requires forall i, j | 0 <= i < j < |rest| :: Below(rest[i], rest[j]) && rest[i] != rest[j]
    ensures var r := [m] + rest;
      && |r| == |keys|
      && (forall i | 0 <= i < |r| :: r[i] in keys)
      && (forall k | k in keys :: k in r)
      && (forall i, j | 0 <= i < j < |r| :: Below(r[i], r[j]) && r[i] != r[j])
  {
    var r := [m] + rest;
    assert forall i | 1 <= i < |r| :: r[i] == rest[i - 1];
    forall k | k in keys
      ensures k in r
    {
      if k != m {
        assert k in rest;
      }
    }
  }

  /** `sorted(keys)`: every key once, in ascending order. */
  function SortedKeys(keys: set<string>): (r: seq<string>)
    ensures |r| == |keys|
    ensures forall i | 0 <= i < |r| :: r[i] in keys
    ensures forall k | k in keys :: k in r
    ensures forall i, j | 0 <= i < j < |r| :: Below(r[i], r[j]) && r[i] != r[j]
    decreases keys
  {
    if keys == {} then []
    else
      var m := Least(keys);
      var rest := SortedKeys(keys - {m});
      SortedKeysStep(m, rest, keys);
      [m] + rest
  }
}
