/** The few pieces of Python string handling the scripts rely on:
    `str.strip()`, `str.split(sep)`, `sep.join(parts)`, the `in` substring
    test, and `sorted()` on a set of strings (code-point order). */
module Text {

  /** Python's `str.isspace()` for a single character: the ASCII whitespace
      characters and the Unicode ones Python also strips. */
  predicate IsSpace(c: char) {
    var k := c as int;
    k == 0x20 || 0x09 <= k <= 0x0D || 0x1C <= k <= 0x1F || k == 0x85 || k == 0xA0
    || k == 0x1680 || 0x2000 <= k <= 0x200A || k == 0x2028 || k == 0x2029
    || k == 0x202F || k == 0x205F || k == 0x3000
  }

  predicate AllSpace(s: string) {
    forall i :: 0 <= i < |s| ==> IsSpace(s[i])
  }

  /** `s.lstrip()`: drops the whitespace at the start of `s`. */
  function StripLeft(s: string): (r: string)
    ensures |r| <= |s|
    ensures r == [] || !IsSpace(r[0])
    decreases |s|
  {
    if s != [] && IsSpace(s[0]) then StripLeft(s[1..]) else s
  }

  /** `s.rstrip()`: drops the whitespace at the end of `s`. */
  function StripRight(s: string): (r: string)
    ensures |r| <= |s|
    ensures r == [] || !IsSpace(r[|r| - 1])
    decreases |s|
  {
    if s != [] && IsSpace(s[|s| - 1]) then StripRight(s[..|s| - 1]) else s
  }

  lemma AllSpaceCons(c: char, w: string)
    requires IsSpace(c) && AllSpace(w)
    ensures AllSpace([c] + w)
  {
    forall i | 0 <= i < |w| + 1
      ensures IsSpace(([c] + w)[i])
    {
      if i > 0 {
        assert ([c] + w)[i] == w[i - 1];
      }
    }
  }

  /** What `lstrip` keeps is a suffix. */
  lemma {:induction false} StripLeftIsSuffix(s: string)
    ensures StripLeft(s) == s[|s| - |StripLeft(s)|..]
    decreases |s|
  {
    if s != [] && IsSpace(s[0]) {
      var t := s[1..];
      StripLeftIsSuffix(t);
      assert t[|t| - |StripLeft(t)|..] == s[|s| - |StripLeft(t)|..];
    }
  }

  /** What `lstrip` drops is whitespace. */
  lemma {:induction false} StripLeftDropsSpace(s: string)
    ensures AllSpace(s[..|s| - |StripLeft(s)|])
    decreases |s|
  {
    if s != [] && IsSpace(s[0]) {
      var t := s[1..];
      StripLeftDropsSpace(t);
      var w := t[..|t| - |StripLeft(t)|];
      assert s[..|s| - |StripLeft(s)|] == [s[0]] + w;
      AllSpaceCons(s[0], w);
    }
  }

  /** What `lstrip` drops is whitespace, and what it keeps is a suffix. */
  lemma StripLeftSuffix(s: string)
    ensures s == s[..|s| - |StripLeft(s)|] + StripLeft(s)
    ensures AllSpace(s[..|s| - |StripLeft(s)|])
  {
    StripLeftIsSuffix(s);
    StripLeftDropsSpace(s);
    var k := |s| - |StripLeft(s)|;
    assert s == s[..k] + s[k..];
  }

  /** What `rstrip` drops is whitespace, and what it keeps is a prefix. */
  lemma {:induction false} StripRightPrefix(s: string)
    ensures s == StripRight(s) + s[|StripRight(s)|..]
    ensures AllSpace(s[|StripRight(s)|..])
    decreases |s|
  {
    if s != [] && IsSpace(s[|s| - 1]) {
      var t := s[..|s| - 1];
      StripRightPrefix(t);
      var k := |StripRight(s)|;
      assert s[k..] == t[k..] + [s[|s| - 1]];
    }
  }

  /** Both strips leave nothing exactly when the text is all whitespace. */
  lemma StripEmptyIffSpace(s: string)
    ensures StripLeft(s) == [] <==> AllSpace(s)
    ensures StripRight(s) == [] <==> AllSpace(s)
  {
    StripLeftSuffix(s);
    StripRightPrefix(s);
    if StripLeft(s) != [] {
      assert StripLeft(s)[0] == s[|s| - |StripLeft(s)|];
    }
    if StripRight(s) != [] {
      assert StripRight(s)[|StripRight(s)| - 1] == s[|StripRight(s)| - 1];
    }
  }

  /** Python's `s.strip()`. */
  function Strip(s: string): (r: string)
    ensures |r| <= |s|
    ensures r == [] || (!IsSpace(r[0]) && !IsSpace(r[|r| - 1]))
  {
    var t := StripRight(s);
    StripLeftSuffix(t);
    var r := StripLeft(t);
    assert r != [] ==> r[|r| - 1] == t[|t| - 1];
    r
  }

  /** `strip()` leaves nothing exactly when the text is all whitespace, and
      keeps every character that is not whitespace. */
  lemma StripKeeps(s: string)
    ensures Strip(s) == [] <==> AllSpace(s)
    ensures forall c :: !IsSpace(c) ==> (c in Strip(s) <==> c in s)
  {
    NonSpaceKeptRight(s);
    NonSpaceKeptLeft(StripRight(s));
    StripEmptyIffSpace(s);
    StripEmptyIffSpace(StripRight(s));
  }

  /** Whitespace next to a text adds no other character to it. */
  lemma NonSpaceBesideSpace(w: string, r: string)
    requires AllSpace(w)
    ensures forall c :: !IsSpace(c) ==> (c in w + r <==> c in r)
    ensures forall c :: !IsSpace(c) ==> (c in r + w <==> c in r)
  {
    forall c | !IsSpace(c)
      ensures c !in w
    {
      forall i | 0 <= i < |w|
        ensures w[i] != c
      {
        assert IsSpace(w[i]);
      }
    }
  }

  lemma NonSpaceKeptLeft(s: string)
    ensures forall c :: !IsSpace(c) ==> (c in StripLeft(s) <==> c in s)
  {
    StripLeftSuffix(s);
    NonSpaceBesideSpace(s[..|s| - |StripLeft(s)|], StripLeft(s));
  }

  lemma NonSpaceKeptRight(s: string)
    ensures forall c :: !IsSpace(c) ==> (c in StripRight(s) <==> c in s)
  {
    StripRightPrefix(s);
    NonSpaceBesideSpace(s[|StripRight(s)|..], StripRight(s));
  }

  /** Leading whitespace is absorbed by `lstrip`. */
  lemma {:induction false} StripLeftAbsorb(w: string, x: string)
    requires AllSpace(w)
    ensures StripLeft(w + x) == StripLeft(x)
    decreases |w|
  {
    if w != [] {
      assert (w + x)[0] == w[0] && IsSpace(w[0]);
      assert (w + x)[1..] == w[1..] + x;
      assert StripLeft(w + x) == StripLeft(w[1..] + x);
      var w' := w[1..];
      assert AllSpace(w') by {
        forall i | 0 <= i < |w'| ensures IsSpace(w'[i]) { assert w'[i] == w[i + 1]; }
      }
      StripLeftAbsorb(w', x);
    } else {
      assert w + x == x;
    }
  }

  /** Trailing whitespace is absorbed by `rstrip`. */
  lemma {:induction false} StripRightAbsorb(x: string, w: string)
    requires AllSpace(w)
    ensures StripRight(x + w) == StripRight(x)
    decreases |w|
  {
    if w != [] {
      assert (x + w)[|x + w| - 1] == w[|w| - 1] && IsSpace(w[|w| - 1]);
      assert (x + w)[..|x + w| - 1] == x + w[..|w| - 1];
      assert StripRight(x + w) == StripRight(x + w[..|w| - 1]);
      var w' := w[..|w| - 1];
      assert AllSpace(w') by {
        forall i | 0 <= i < |w'| ensures IsSpace(w'[i]) { assert w'[i] == w[i]; }
      }
      StripRightAbsorb(x, w');
    } else {
      assert x + w == x;
    }
  }

  /** `lstrip` stops at the first non-space character and keeps what follows. */
  lemma {:induction false} StripLeftKeep(x: string, y: string)
    requires !AllSpace(x) || (y != [] && !IsSpace(y[0]))
    ensures StripLeft(x + y) == StripLeft(x) + y
    decreases |x|
  {
    if x == [] {
      assert x + y == y;
    } else if IsSpace(x[0]) {
      assert (x + y)[1..] == x[1..] + y;
      StripLeftKeep(x[1..], y);
    }
  }

  /** `rstrip` stops at the last non-space character and keeps what precedes it. */
  lemma {:induction false} StripRightKeep(x: string, y: string)
    requires !AllSpace(y) || (x != [] && !IsSpace(x[|x| - 1]))
    ensures StripRight(x + y) == x + StripRight(y)
    decreases |y|
  {
    if y == [] {
      assert x + y == x;
    } else if IsSpace(y[|y| - 1]) {
      assert (x + y)[..|x + y| - 1] == x + y[..|y| - 1];
      StripRightKeep(x, y[..|y| - 1]);
    }
  }

  /** Stripping the two ends can be done in either order. */
  lemma {:induction false} StripCommute(s: string)
    ensures StripRight(StripLeft(s)) == StripLeft(StripRight(s))
    decreases |s|
  {
    if s != [] && IsSpace(s[0]) && !AllSpace(s[1..]) {
      StripCommute(s[1..]);
      assert s == [s[0]] + s[1..];
      StripRightKeep([s[0]], s[1..]);
      assert ([s[0]] + StripRight(s[1..]))[1..] == StripRight(s[1..]);
    } else if s != [] && IsSpace(s[0]) {
      assert AllSpace(s) by {
        forall i | 0 <= i < |s| ensures IsSpace(s[i]) {
          if i > 0 { assert s[i] == s[1..][i - 1]; }
        }
      }
      StripEmptyIffSpace(s);
      StripEmptyIffSpace(StripLeft(s));
    } else if s != [] {
      StripEmptyIffSpace(s);
      StripRightPrefix(s);
      assert StripRight(s)[0] == s[0];
    }
  }

  lemma StripIdempotent(s: string)
    ensures Strip(Strip(s)) == Strip(s)
  {
    StripCommute(StripRight(s));
  }

  /** Whitespace around a piece of text does not survive `strip()`. */
  lemma StripSurroundingSpace(w1: string, t: string, w2: string)
    requires AllSpace(w1) && AllSpace(w2)
    ensures Strip(w1 + t + w2) == Strip(t)
  {
    StripRightAbsorb(w1 + t, w2);
    if !AllSpace(t) {
      StripRightKeep(w1, t);
      StripLeftAbsorb(w1, StripRight(t));
    } else {
      assert AllSpace(w1 + t) by {
        forall i | 0 <= i < |w1 + t| ensures IsSpace((w1 + t)[i]) {
          if i < |w1| { assert (w1 + t)[i] == w1[i]; } else { assert (w1 + t)[i] == t[i - |w1|]; }
        }
      }
      StripEmptyIffSpace(w1 + t);
      StripEmptyIffSpace(t);
    }
  }

  /** `rstrip` stops at a non-space character in the middle. */
  lemma StripRightAround(x: string, c: char, y: string)
    requires !IsSpace(c)
    ensures StripRight(x + [c] + y) == x + [c] + StripRight(y)
  {
    var xc := x + [c];
    assert xc[|xc| - 1] == c;
    StripRightKeep(xc, y);
  }

  /** `lstrip` stops at a non-space character in the middle. */
  lemma StripLeftAround(x: string, c: char, z: string)
    requires !IsSpace(c)
    ensures StripLeft(x + [c] + z) == StripLeft(x) + [c] + z
  {
    var t := [c] + z;
    assert t[0] == c;
    StripLeftKeep(x, t);
    assert x + [c] + z == x + t;
    assert StripLeft(x) + t == StripLeft(x) + [c] + z;
  }

  /** `strip()` of a text with a non-space character in the middle strips
      each side independently. */
  lemma StripAround(x: string, c: char, y: string)
    requires !IsSpace(c)
    ensures Strip(x + [c] + y) == StripLeft(x) + [c] + StripRight(y)
  {
    StripRightAround(x, c, y);
    StripLeftAround(x, c, StripRight(y));
  }

  /** A text without whitespace at its ends is left alone by `strip()`. */
  lemma StripTrimmed(s: string)
    requires s == [] || (!IsSpace(s[0]) && !IsSpace(s[|s| - 1]))
    ensures Strip(s) == s
  {
  }

  /** Python's `sep.join(parts)`. */
  function Join(parts: seq<string>, sep: string): string
  {
    if |parts| == 0 then []
    else if |parts| == 1 then parts[0]
    else parts[0] + sep + Join(parts[1..], sep)
  }

  /** Python's `s.split(sep)` for a one-character separator: the pieces
      between separators, always at least one, none containing `sep`, and
      joining them back with `sep` gives `s` again. */
  function Split(s: string, sep: char): (parts: seq<string>)
    ensures |parts| >= 1
    ensures forall i :: 0 <= i < |parts| ==> sep !in parts[i]
    ensures |parts| == 1 <==> sep !in s
    decreases |s|
  {
    if s == [] then [[]]
    else
      var rest := Split(s[1..], sep);
      if s[0] == sep then
        assert s == [sep] + s[1..];
        [[]] + rest
      else
        [[s[0]] + rest[0]] + rest[1..]
  }

  /** A character put in front of the first piece goes in front of the
      joined text. */
  lemma JoinExtendHead(c: char, parts: seq<string>, sep: string)
    requires |parts| >= 1
    ensures Join([[c] + parts[0]] + parts[1..], sep) == [c] + Join(parts, sep)
  {
    var q := [[c] + parts[0]] + parts[1..];
    if |parts| > 1 {
      assert q[1..] == parts[1..];
    }
  }

  /** Joining the pieces of a split with the separator gives back the text. */
  lemma {:induction false} JoinSplit(s: string, sep: char)
    ensures Join(Split(s, sep), [sep]) == s
    decreases |s|
  {
    if s != [] {
      var rest := Split(s[1..], sep);
      JoinSplit(s[1..], sep);
      if s[0] == sep {
        assert Join(Split(s, sep), [sep]) == [sep] + Join(rest, [sep]) by {
          assert Split(s, sep) == [[]] + rest;
          assert ([[]] + rest)[1..] == rest;
        }
      } else {
        assert Join(Split(s, sep), [sep]) == [s[0]] + Join(rest, [sep]) by {
          assert Split(s, sep) == [[s[0]] + rest[0]] + rest[1..];
          JoinExtendHead(s[0], rest, [sep]);
        }
      }
      assert s == [s[0]] + s[1..];
    }
  }

  /** A prefix without the separator becomes the start of the first piece. */
  lemma {:induction false} SplitPrefix(p: string, s: string, sep: char)
    requires sep !in p
    ensures Split(p + s, sep) == [p + Split(s, sep)[0]] + Split(s, sep)[1..]
    decreases |p|
  {
    if p != [] {
      var parts := Split(s, sep);
      assert (p + s)[0] == p[0] != sep;
      assert (p + s)[1..] == p[1..] + s;
      SplitPrefix(p[1..], s, sep);
      var rest := Split(p[1..] + s, sep);
      assert rest[0] == p[1..] + parts[0] && rest[1..] == parts[1..];
      assert Split(p + s, sep) == [[p[0]] + rest[0]] + rest[1..];
      assert [p[0]] + (p[1..] + parts[0]) == p + parts[0];
    } else {
      var parts := Split(s, sep);
      assert p + s == s;
      assert p + parts[0] == parts[0];
      assert parts == [parts[0]] + parts[1..];
    }
  }

  /** Splitting at one separator occurrence splits the two sides independently. */
  lemma {:induction false} SplitConcat(a: string, b: string, sep: char)
    ensures Split(a + [sep] + b, sep) == Split(a, sep) + Split(b, sep)
    decreases |a|
  {
    if a == [] {
      assert a + [sep] + b == [sep] + b;
      assert ([sep] + b)[1..] == b;
    } else {
      assert (a + [sep] + b)[1..] == a[1..] + [sep] + b;
      SplitConcat(a[1..], b, sep);
    }
  }

  /** Python's `sub in s` for strings. */
  predicate Contains(s: string, sub: string)
    decreases |s|
  {
    sub <= s || (s != [] && Contains(s[1..], sub))
  }

  predicate OccursAt(s: string, sub: string, i: int) {
    0 <= i <= |s| - |sub| && s[i..i + |sub|] == sub
  }

  /** An occurrence found by `in` lies at some position. */
  lemma {:induction false} ContainsOccurs(s: string, sub: string)
    requires Contains(s, sub)
    ensures exists i :: OccursAt(s, sub, i)
    decreases |s|
  {
    if sub <= s {
      assert OccursAt(s, sub, 0);
    } else {
      ContainsOccurs(s[1..], sub);
      var i :| OccursAt(s[1..], sub, i);
      assert s[i + 1..i + 1 + |sub|] == s[1..][i..i + |sub|];
      assert OccursAt(s, sub, i + 1);
    }
  }

  /** An occurrence at any position is found by `in`. */
  lemma {:induction false} OccursContains(s: string, sub: string, i: int)
    requires OccursAt(s, sub, i)
    ensures Contains(s, sub)
    decreases i
  {
    if i > 0 {
      assert s[1..][i - 1..i - 1 + |sub|] == s[i..i + |sub|];
      OccursContains(s[1..], sub, i - 1);
    } else {
      assert s[..|sub|] == sub;
    }
  }

  /** `sub in s` holds exactly when `sub` occurs at some position of `s`. */
  lemma ContainsIffOccurs(s: string, sub: string)
    ensures Contains(s, sub) <==> exists i :: OccursAt(s, sub, i)
  {
    if Contains(s, sub) {
      ContainsOccurs(s, sub);
    }
    if exists i :: OccursAt(s, sub, i) {
      var i :| OccursAt(s, sub, i);
      OccursContains(s, sub, i);
    }
  }

  /** Python's `s.startswith(prefix)`. */
  predicate StartsWith(s: string, prefix: string) {
    prefix <= s
  }

  /** Python's `<` on strings: lexicographic by code point, a proper prefix first. */
  predicate LexLess(a: string, b: string)
    decreases |a|
  {
    |b| > 0 && (|a| == 0 || a[0] < b[0] || (a[0] == b[0] && LexLess(a[1..], b[1..])))
  }

  lemma {:induction false} LexLessIrreflexive(a: string)
    ensures !LexLess(a, a)
    decreases |a|
  {
    if |a| > 0 {
      LexLessIrreflexive(a[1..]);
    }
  }

  lemma {:induction false} LexLessTransitive(a: string, b: string, c: string)
    requires LexLess(a, b) && LexLess(b, c)
    ensures LexLess(a, c)
    decreases |a|
  {
    if |a| > 0 && a[0] == b[0] && b[0] == c[0] {
      LexLessTransitive(a[1..], b[1..], c[1..]);
    }
  }

  lemma {:induction false} LexLessTotal(a: string, b: string)
    requires a != b
    ensures LexLess(a, b) || LexLess(b, a)
    decreases |a|
  {
    if |a| > 0 && |b| > 0 && a[0] == b[0] {
      assert a == [a[0]] + a[1..] && b == [b[0]] + b[1..];
      LexLessTotal(a[1..], b[1..]);
    }
  }

  predicate IsLeast(m: string, names: set<string>) {
    m in names && forall x :: x in names && x != m ==> LexLess(m, x)
  }

  lemma {:induction false} LeastExists(names: set<string>)
    requires names != {}
    ensures exists m :: IsLeast(m, names)
    decreases |names|
  {
    var x :| x in names;
    if names != {x} {
      var rest := names - {x};
      LeastExists(rest);
      var m :| IsLeast(m, rest);
      if LexLess(m, x) {
        assert IsLeast(m, names);
      } else {
        LexLessTotal(m, x);
        forall y | y in names && y != x
          ensures LexLess(x, y)
        {
          if y != m {
            LexLessTransitive(x, m, y);
          }
        }
        assert IsLeast(x, names);
      }
    } else {
      assert IsLeast(x, names);
    }
  }

  lemma LeastUnique(names: set<string>)
    ensures forall m, m' :: IsLeast(m, names) && IsLeast(m', names) ==> m == m'
  {
    forall m, m' | IsLeast(m, names) && IsLeast(m', names)
      ensures m == m'
    {
      if m != m' {
        LexLessTransitive(m, m', m);
        LexLessIrreflexive(m);
      }
    }
  }

  predicate Increasing(xs: seq<string>) {
    forall i, j :: 0 <= i < j < |xs| ==> LexLess(xs[i], xs[j])
  }

  /** A string below every element of an increasing list can go in front. */
  lemma IncreasingCons(m: string, rest: seq<string>)
    requires Increasing(rest)
    requires forall x :: x in rest ==> LexLess(m, x)
    ensures Increasing([m] + rest)
  {
    var xs := [m] + rest;
    forall i, j | 0 <= i < j < |xs|
      ensures LexLess(xs[i], xs[j])
    {
      assert xs[j] == rest[j - 1];
      if i > 0 {
        assert xs[i] == rest[i - 1];
      }
    }
  }

  /** Python's `sorted(names)` for a set of strings: every element exactly
      once, in strictly increasing order. */
  function SortedStrings(names: set<string>): (r: seq<string>)
    ensures |r| == |names|
    ensures forall x :: x in r <==> x in names
    ensures Increasing(r)
    decreases |names|
  {
    if names == {} then []
    else
      LeastExists(names);
      LeastUnique(names);
      var m :| IsLeast(m, names);
      var rest := SortedStrings(names - {m});
      IncreasingCons(m, rest);
      [m] + rest
  }
}
