/**
 * The Python string built-ins the core relies on, modelled on `string`
 * (a sequence of Unicode scalar values).
 *
 * Whitespace is Python's `str.isspace` set and line boundaries are those of
 * `str.splitlines`. Case mapping covers ASCII letters, the German umlauts and
 * `ß`; the rest of Unicode's case tables is not modelled.
 */
module Strings {

  // ---------------------------------------------------------------------
  // Character classes
  // ---------------------------------------------------------------------

  /** The characters for which Python's `str.isspace()` holds. */
  predicate IsSpace(c: char) {
    c == ' ' || ('\t' <= c <= '\r') || ('\U{1C}' <= c <= '\U{1F}')
    || c == '\U{85}' || c == '\U{A0}' || c == '\U{1680}'
    || ('\U{2000}' <= c <= '\U{200A}') || c == '\U{2028}' || c == '\U{2029}'
    || c == '\U{202F}' || c == '\U{205F}' || c == '\U{3000}'
  }

  /** The line boundaries recognised by Python's `str.splitlines()`. */
  predicate IsLineBreak(c: char) {
    ('\n' <= c <= '\r') || ('\U{1C}' <= c <= '\U{1E}')
    || c == '\U{85}' || c == '\U{2028}' || c == '\U{2029}'
  }

  predicate IsUpperChar(c: char) {
    ('A' <= c <= 'Z') || c == 'Ä' || c == 'Ö' || c == 'Ü'
  }

  predicate IsLowerChar(c: char) {
    ('a' <= c <= 'z') || c == 'ä' || c == 'ö' || c == 'ü' || c == 'ß'
  }

  predicate IsCased(c: char) {
    IsUpperChar(c) || IsLowerChar(c)
  }

  function LowerChar(c: char): char {
    if 'A' <= c <= 'Z' then (c as int + 32) as char
    else if c == 'Ä' then 'ä'
    else if c == 'Ö' then 'ö'
    else if c == 'Ü' then 'ü'
    else c
  }

  /** Upper case of one character; `ß` becomes two characters, as in Python. */
  function UpperOf(c: char): string {
    if 'a' <= c <= 'z' then [(c as int - 32) as char]
    else if c == 'ä' then "Ä"
    else if c == 'ö' then "Ö"
    else if c == 'ü' then "Ü"
    else if c == 'ß' then "SS"
    else [c]
  }

  /** Title case of one character (`ß` becomes `Ss`, as in Python). */
  function TitleOf(c: char): string {
    if c == 'ß' then "Ss" else UpperOf(c)
  }

  // ---------------------------------------------------------------------
  // Case mapping
  // ---------------------------------------------------------------------

  /** `s.lower()` */
  function Lower(s: string): string {
    seq(|s|, i requires 0 <= i < |s| => LowerChar(s[i]))
  }

  /** `s.upper()` */
  function Upper(s: string): string {
    if s == [] then [] else UpperOf(s[0]) + Upper(s[1..])
  }

  /**
   * `s.title()`: a cased character that follows a cased character is lowered,
   * any other cased character is title-cased; uncased characters pass through
   * and end the current word.
   */
  function Title(s: string): string {
    TitleFrom(s, false)
  }

  function TitleFrom(s: string, previousCased: bool): string {
    if s == [] then []
    else if IsCased(s[0]) then
      (if previousCased then [LowerChar(s[0])] else TitleOf(s[0])) + TitleFrom(s[1..], true)
    else [s[0]] + TitleFrom(s[1..], false)
  }

  /** A text with no lower-case letter is its own upper case. */
  lemma {:induction false} UpperOfUpper(s: string)
    requires forall i :: 0 <= i < |s| ==> !IsLowerChar(s[i])
    ensures Upper(s) == s
  {
    if s != [] {
      UpperOfUpper(s[1..]);
      assert [s[0]] + s[1..] == s;
    }
  }

  lemma {:induction false} LowerConcat(a: string, b: string)
    ensures Lower(a + b) == Lower(a) + Lower(b)
  {
    assert forall i | 0 <= i < |a + b| :: Lower(a + b)[i] == (Lower(a) + Lower(b))[i];
  }

  // ---------------------------------------------------------------------
  // Stripping
  // ---------------------------------------------------------------------

  /** `s.lstrip(chars)` for the characters satisfying `p`. */
  function TrimLeft(s: string, p: char -> bool): string {
    if s != [] && p(s[0]) then TrimLeft(s[1..], p) else s
  }

  /** `s.rstrip(chars)` for the characters satisfying `p`. */
  function TrimRight(s: string, p: char -> bool): string {
    if s != [] && p(s[|s| - 1]) then TrimRight(s[..|s| - 1], p) else s
  }

  /** `s.strip(chars)` for the characters satisfying `p`. */
  function StripBy(s: string, p: char -> bool): string {
    TrimRight(TrimLeft(s, p), p)
  }

  /** `IsSpace` as a value, for the trimming functions. */
  const Spaces: char -> bool := c => IsSpace(c)

  /** `s.strip()` */
  function Strip(s: string): string {
    StripBy(s, Spaces)
  }

  predicate IsStripped(s: string) {
    s == [] || (!IsSpace(s[0]) && !IsSpace(s[|s| - 1]))
  }

  lemma {:induction false} TrimLeftSplit(s: string, p: char -> bool) returns (front: string)
    ensures s == front + TrimLeft(s, p)
    ensures forall i :: 0 <= i < |front| ==> p(front[i])
    ensures TrimLeft(s, p) == [] || !p(TrimLeft(s, p)[0])
  {
    if s != [] && p(s[0]) {
      var f := TrimLeftSplit(s[1..], p);
      front := [s[0]] + f;
      assert s == [s[0]] + s[1..];
      forall i | 0 <= i < |front| ensures p(front[i]) {
        if i > 0 {
          assert front[i] == f[i - 1];
        }
      }
    } else {
      front := [];
    }
  }

  lemma {:induction false} TrimRightSplit(s: string, p: char -> bool) returns (back: string)
    ensures s == TrimRight(s, p) + back
    ensures forall i :: 0 <= i < |back| ==> p(back[i])
    ensures TrimRight(s, p) == [] || !p(TrimRight(s, p)[|TrimRight(s, p)| - 1])
  {
    if s != [] && p(s[|s| - 1]) {
      var b := TrimRightSplit(s[..|s| - 1], p);
      back := b + [s[|s| - 1]];
      assert s == s[..|s| - 1] + [s[|s| - 1]];
    } else {
      back := [];
    }
  }

  /** A string is what `strip` removes in front, the strip, and what it removes behind. */
  lemma StripBySplit(s: string, p: char -> bool) returns (front: string, back: string)
    ensures s == front + StripBy(s, p) + back
    ensures forall i :: 0 <= i < |front| ==> p(front[i])
    ensures forall i :: 0 <= i < |back| ==> p(back[i])
    ensures StripBy(s, p) == [] || (!p(StripBy(s, p)[0]) && !p(StripBy(s, p)[|StripBy(s, p)| - 1]))
  {
    var l := TrimLeft(s, p);
    front := TrimLeftSplit(s, p);
    back := TrimRightSplit(l, p);
    var r := TrimRight(l, p);
    if r != [] {
      assert r[0] == l[0];
    }
  }

  lemma StripSplit(s: string) returns (front: string, back: string)
    ensures s == front + Strip(s) + back
    ensures forall i :: 0 <= i < |front| ==> IsSpace(front[i])
    ensures forall i :: 0 <= i < |back| ==> IsSpace(back[i])
    ensures IsStripped(Strip(s))
  {
    front, back := StripBySplit(s, Spaces);
  }

  /** Every character of a strip comes from the original string. */
  lemma StripByChars(s: string, p: char -> bool)
    ensures |StripBy(s, p)| <= |s|
    ensures forall x :: x in StripBy(s, p) ==> x in s
  {
    var front, back := StripBySplit(s, p);
    var r := StripBy(s, p);
    forall x | x in r ensures x in s {
      var k :| 0 <= k < |r| && r[k] == x;
      assert s[|front| + k] == x;
    }
  }

  /** A string strips to nothing exactly when it is all whitespace. */
  lemma StripEmptyIffSpace(s: string)
    ensures Strip(s) == [] <==> forall k :: 0 <= k < |s| ==> IsSpace(s[k])
  {
    var front, back := StripSplit(s);
    var m := Strip(s);
    assert m != [] ==> m[0] == s[|front|];
    if m == [] {
      assert s == front + back;
      forall k | 0 <= k < |s| ensures IsSpace(s[k]) {
        if k < |front| {
          assert s[k] == front[k];
        } else {
          assert s[k] == back[k - |front|];
        }
      }
    }
  }

  lemma StripIsStripped(s: string)
    ensures IsStripped(Strip(s))
  {
    var front, back := StripSplit(s);
  }

  lemma {:induction false} TrimLeftOf(s: string, p: char -> bool)
    requires s == [] || !p(s[0])
    ensures TrimLeft(s, p) == s
  {
  }

  lemma {:induction false} TrimRightOf(s: string, p: char -> bool)
    requires s == [] || !p(s[|s| - 1])
    ensures TrimRight(s, p) == s
  {
  }

  /** Stripping removes exactly the outer whitespace: a stripped string is its own strip. */
  lemma StripOfStripped(s: string)
    requires IsStripped(s)
    ensures Strip(s) == s
  {
    TrimLeftOf(s, Spaces);
    TrimRightOf(s, Spaces);
  }

  lemma {:induction false} TrimLeftPrefix(w: string, s: string, p: char -> bool)
    requires forall i :: 0 <= i < |w| ==> p(w[i])
    ensures TrimLeft(w + s, p) == TrimLeft(s, p)
  {
    if w != [] {
      assert (w + s)[0] == w[0] && p(w[0]);
      assert (w + s)[1..] == w[1..] + s;
      TrimLeftPrefix(w[1..], s, p);
    } else {
      assert w + s == s;
    }
  }

  /** Leading whitespace does not survive a strip. */
  lemma StripSpacePrefix(w: string, s: string)
    requires forall i :: 0 <= i < |w| ==> IsSpace(w[i])
    ensures Strip(w + s) == Strip(s)
  {
    TrimLeftPrefix(w, s, Spaces);
  }

  // ---------------------------------------------------------------------
  // Joining and splitting
  // ---------------------------------------------------------------------

  /** `sep.join(parts)` */
  function Join(sep: string, parts: seq<string>): string {
    if |parts| == 0 then ""
    else if |parts| == 1 then parts[0]
    else parts[0] + sep + Join(sep, parts[1..])
  }

  lemma {:induction false} JoinAppend(sep: string, parts: seq<string>, x: string)
    requires parts != []
    ensures Join(sep, parts + [x]) == Join(sep, parts) + sep + x
  {
    if |parts| > 1 {
      assert (parts + [x])[1..] == parts[1..] + [x];
      JoinAppend(sep, parts[1..], x);
    }
  }

  /** `s.split(c)` for a one-character separator; never empty, as in Python. */
  function SplitOn(s: string, c: char): (r: seq<string>)
    ensures |r| >= 1
  {
    if s == [] then [""]
    else if s[0] == c then [""] + SplitOn(s[1..], c)
    else var rest := SplitOn(s[1..], c); [[s[0]] + rest[0]] + rest[1..]
  }

  lemma {:induction false} SplitOnWithout(a: string, c: char)
    requires c !in a
    ensures SplitOn(a, c) == [a]
  {
    if a != [] {
      SplitOnWithout(a[1..], c);
      assert [a[0]] + a[1..] == a;
    }
  }

  /** A separator splits the text into what precedes it and the pieces of what follows. */
  lemma {:induction false} SplitOnAt(a: string, c: char, b: string)
    requires c !in a
    ensures SplitOn(a + [c] + b, c) == [a] + SplitOn(b, c)
  {
    if a == [] {
      assert a + [c] + b == [c] + b;
      assert ([c] + b)[1..] == b;
    } else {
      assert (a + [c] + b)[1..] == a[1..] + [c] + b;
      SplitOnAt(a[1..], c, b);
      assert [a[0]] + a[1..] == a;
    }
  }

  /** Joining on a separator character the parts do not contain, then splitting on it, gives the parts. */
  lemma {:induction false} SplitJoin(parts: seq<string>, c: char)
    requires parts != []
    requires forall i :: 0 <= i < |parts| ==> c !in parts[i]
    ensures SplitOn(Join([c], parts), c) == parts
  {
    if |parts| == 1 {
      SplitOnWithout(parts[0], c);
    } else {
      SplitJoin(parts[1..], c);
      SplitOnAt(parts[0], c, Join([c], parts[1..]));
      assert parts == [parts[0]] + parts[1..];
    }
  }

  function LineLength(s: string): (n: nat)
    ensures n <= |s|
    ensures forall i :: 0 <= i < n ==> !IsLineBreak(s[i])
    ensures n < |s| ==> IsLineBreak(s[n])
  {
    if s == [] || IsLineBreak(s[0]) then 0 else 1 + LineLength(s[1..])
  }

  /** `s.splitlines()`: `\r\n` is one boundary and a final boundary adds no empty line. */
  function SplitLines(s: string): seq<string>
    decreases |s|
  {
    if s == [] then []
    else
      var n := LineLength(s);
      if n == |s| then [s]
      else
        var next := if s[n] == '\r' && n + 1 < |s| && s[n + 1] == '\n' then n + 2 else n + 1;
        [s[..n]] + SplitLines(s[next..])
  }

  // ---------------------------------------------------------------------
  // Searching and replacing
  // ---------------------------------------------------------------------

  predicate StartsWith(s: string, prefix: string) {
    |prefix| <= |s| && s[..|prefix|] == prefix
  }

  /** `sub in s` */
  predicate Contains(s: string, sub: string)
    decreases |s|
  {
    StartsWith(s, sub) || (s != [] && Contains(s[1..], sub))
  }

  lemma {:induction false} ContainsAt(s: string, sub: string, i: nat)
    requires i + |sub| <= |s| && s[i..i + |sub|] == sub
    ensures Contains(s, sub)
  {
    if i > 0 {
      assert s[1..][i - 1..i - 1 + |sub|] == s[i..i + |sub|];
      ContainsAt(s[1..], sub, i - 1);
    }
  }

  lemma {:induction false} ContainsWitness(s: string, sub: string) returns (i: nat)
    requires Contains(s, sub)
    ensures i + |sub| <= |s| && s[i..i + |sub|] == sub
  {
    if StartsWith(s, sub) {
      i := 0;
    } else {
      var j := ContainsWitness(s[1..], sub);
      assert s[1..][j..j + |sub|] == s[j + 1..j + 1 + |sub|];
      i := j + 1;
    }
  }

  lemma ContainsLeft(a: string, b: string, sub: string)
    requires Contains(a, sub)
    ensures Contains(a + b, sub)
  {
    var i := ContainsWitness(a, sub);
    assert (a + b)[i..i + |sub|] == a[i..i + |sub|];
    ContainsAt(a + b, sub, i);
  }

  lemma ContainsRight(a: string, b: string, sub: string)
    requires Contains(b, sub)
    ensures Contains(a + b, sub)
  {
    var i := ContainsWitness(b, sub);
    assert (a + b)[|a| + i..|a| + i + |sub|] == b[i..i + |sub|];
    ContainsAt(a + b, sub, |a| + i);
  }

  lemma ContainsSelf(s: string)
    ensures Contains(s, s)
  {
    ContainsAt(s, s, 0);
  }

  /** A text that contains a pattern contains each of its characters. */
  lemma ContainsHasChar(s: string, sub: string, c: char)
    requires c in sub
    ensures Contains(s, sub) ==> c in s
  {
    if Contains(s, sub) {
      var i := ContainsWitness(s, sub);
      var k :| 0 <= k < |sub| && sub[k] == c;
      assert s[i..i + |sub|][k] == c;
    }
  }

  /** `s.replace(pattern, replacement)`: non-overlapping, left to right. */
  function ReplaceAll(s: string, pattern: string, replacement: string): string
    requires pattern != []
    decreases |s|
  {
    if s == [] then []
    else if StartsWith(s, pattern) then replacement + ReplaceAll(s[|pattern|..], pattern, replacement)
    else [s[0]] + ReplaceAll(s[1..], pattern, replacement)
  }

  /** Replacing a single character distributes over concatenation. */
  lemma {:induction false} ReplaceCharConcat(a: string, b: string, pattern: string, replacement: string)
    requires |pattern| == 1
    ensures ReplaceAll(a + b, pattern, replacement)
         == ReplaceAll(a, pattern, replacement) + ReplaceAll(b, pattern, replacement)
  {
    if a != [] {
      assert (a + b)[1..] == a[1..] + b;
      assert (a + b)[..1] == a[..1];
      assert StartsWith(a + b, pattern) == StartsWith(a, pattern);
      ReplaceCharConcat(a[1..], b, pattern, replacement);
      var head := if StartsWith(a, pattern) then replacement else [a[0]];
      assert a[|pattern|..] == a[1..];
      assert (a + b)[|pattern|..] == a[1..] + b;
      assert ReplaceAll(a, pattern, replacement) == head + ReplaceAll(a[1..], pattern, replacement);
      assert ReplaceAll(a + b, pattern, replacement) == head + ReplaceAll(a[1..] + b, pattern, replacement);
      assert head + (ReplaceAll(a[1..], pattern, replacement) + ReplaceAll(b, pattern, replacement))
          == (head + ReplaceAll(a[1..], pattern, replacement)) + ReplaceAll(b, pattern, replacement);
    } else {
      assert a + b == b;
    }
  }

  /** `s.replace(c, r)` for a one-character `c`. */
  function ReplaceChar(s: string, c: char, r: char): (t: string)
    ensures |t| == |s|
  {
    seq(|s|, i requires 0 <= i < |s| => if s[i] == c then r else s[i])
  }

  lemma ReplaceCharAbsent(s: string, c: char, r: char)
    requires c !in s
    ensures ReplaceChar(s, c, r) == s
  {
  }

  // ---------------------------------------------------------------------
  // Ordering: Python compares strings code point by code point
  // ---------------------------------------------------------------------

  predicate LexLess(a: string, b: string)
    decreases |a|
  {
    if a == [] then b != []
    else if b == [] then false
    else if a[0] == b[0] then LexLess(a[1..], b[1..])
    else a[0] < b[0]
  }

  lemma {:induction false} LexIrreflexive(a: string)
    ensures !LexLess(a, a)
  {
    if a != [] { LexIrreflexive(a[1..]); }
  }

  lemma {:induction false} LexAsymmetric(a: string, b: string)
    ensures !(LexLess(a, b) && LexLess(b, a))
  {
    if a != [] && b != [] && a[0] == b[0] { LexAsymmetric(a[1..], b[1..]); }
  }

  lemma {:induction false} LexTransitive(a: string, b: string, c: string)
    requires LexLess(a, b) && LexLess(b, c)
    ensures LexLess(a, c)
  {
    if a != [] && a[0] == b[0] && b[0] == c[0] { LexTransitive(a[1..], b[1..], c[1..]); }
  }

  lemma {:induction false} LexTotal(a: string, b: string)
    requires a != b
    ensures LexLess(a, b) || LexLess(b, a)
  {
    if a != [] && b != [] && a[0] == b[0] {
      assert a == [a[0]] + a[1..] && b == [b[0]] + b[1..];
      LexTotal(a[1..], b[1..]);
    }
  }

  function Elems(xs: seq<string>): set<string> {
    set y | y in xs
  }

  predicate StrictlySorted(xs: seq<string>) {
    forall i, j :: 0 <= i < j < |xs| ==> LexLess(xs[i], xs[j])
  }

  /** Insert into a strictly sorted list, keeping it free of duplicates. */
  function InsertSorted(xs: seq<string>, x: string): seq<string> {
    if xs == [] then [x]
    else if x == xs[0] then xs
    else if LexLess(x, xs[0]) then [x] + xs
    else [xs[0]] + InsertSorted(xs[1..], x)
  }

  lemma {:induction false} InsertSortedCorrect(xs: seq<string>, x: string)
    requires StrictlySorted(xs)
    ensures StrictlySorted(InsertSorted(xs, x))
    ensures Elems(InsertSorted(xs, x)) == Elems(xs) + {x}
  {
    if xs == [] {
    } else if x == xs[0] {
    } else if LexLess(x, xs[0]) {
      var r := [x] + xs;
      forall i, j | 0 <= i < j < |r| ensures LexLess(r[i], r[j]) {
        if i == 0 && j > 1 { LexTransitive(x, xs[0], xs[j - 1]); }
      }
    } else {
      LexTotal(x, xs[0]);
      assert StrictlySorted(xs[1..]);
      InsertSortedCorrect(xs[1..], x);
      ConsSorted(xs, x, InsertSorted(xs[1..], x));
    }
  }

  /** The head of a sorted list, put before the tail with `x` inserted, keeps the list sorted. */
  lemma ConsSorted(xs: seq<string>, x: string, t: seq<string>)
    requires StrictlySorted(xs) && xs != [] && LexLess(xs[0], x)
    requires StrictlySorted(t) && Elems(t) == Elems(xs[1..]) + {x}
    ensures StrictlySorted([xs[0]] + t)
    ensures Elems([xs[0]] + t) == Elems(xs) + {x}
  {
    var r := [xs[0]] + t;
    assert xs == [xs[0]] + xs[1..];
    assert Elems(r) == {xs[0]} + Elems(t);
    HeadBelow(xs, x, t);
    forall i, j | 0 <= i < j < |r| ensures LexLess(r[i], r[j]) {
      if i > 0 {
        assert r[i] == t[i - 1] && r[j] == t[j - 1];
      } else {
        assert r[j] == t[j - 1];
      }
    }
  }

  lemma HeadBelow(xs: seq<string>, x: string, t: seq<string>)
    requires StrictlySorted(xs) && xs != [] && LexLess(xs[0], x)
    requires Elems(t) == Elems(xs[1..]) + {x}
    ensures forall j :: 0 <= j < |t| ==> LexLess(xs[0], t[j])
  {
    forall j | 0 <= j < |t| ensures LexLess(xs[0], t[j]) {
      var y := t[j];
      assert y in Elems(t);
      if y != x {
        assert y in xs[1..];
        var k :| 0 <= k < |xs| - 1 && xs[1..][k] == y;
        assert xs[k + 1] == y;
      }
    }
  }

  /** Python's `sorted(set(xs))`. */
  function SortedSet(xs: seq<string>): seq<string> {
    if xs == [] then [] else InsertSorted(SortedSet(xs[..|xs| - 1]), xs[|xs| - 1])
  }

  lemma {:induction false} SortedSetCorrect(xs: seq<string>)
    ensures StrictlySorted(SortedSet(xs))
    ensures Elems(SortedSet(xs)) == Elems(xs)
  {
    if xs != [] {
      var init := xs[..|xs| - 1];
      SortedSetCorrect(init);
      InsertSortedCorrect(SortedSet(init), xs[|xs| - 1]);
      assert xs == init + [xs[|xs| - 1]];
    }
  }

  lemma ElemsConcat(a: seq<string>, b: seq<string>)
    ensures Elems(a + b) == Elems(a) + Elems(b)
  {
    assert forall y :: y in a + b <==> y in a || y in b;
  }

  /** `sorted(s)` of a set: its elements in ascending order, each once. */
  method SortedElems(s: set<string>) returns (r: seq<string>)
    ensures StrictlySorted(r) && Elems(r) == s
  {
    r := [];
    var rest := s;
    while rest != {}
      invariant StrictlySorted(r) && Elems(r) + rest == s
      decreases rest
    {
      var x :| x in rest;
      InsertSortedCorrect(r, x);
      r := InsertSorted(r, x);
      rest := rest - {x};
    }
  }

  /** A strictly sorted list is determined by its elements. */
  lemma ElemsEmpty(xs: seq<string>)
    ensures Elems(xs) == {} ==> xs == []
  {
    if xs != [] {
      assert xs[0] in Elems(xs);
    }
  }

  lemma {:induction false} SortedUnique(a: seq<string>, b: seq<string>)
    requires StrictlySorted(a) && StrictlySorted(b)
    requires Elems(a) == Elems(b)
    ensures a == b
  {
    if a == [] {
      ElemsEmpty(b);
    } else {
      assert a[0] in Elems(a);
      assert b != [];
      assert b[0] in Elems(b);
      if a[0] != b[0] {
        var k :| 0 <= k < |b| && b[k] == a[0];
        var m :| 0 <= m < |a| && a[m] == b[0];
        assert LexLess(b[0], a[0]);
        assert LexLess(a[0], b[0]);
        LexAsymmetric(a[0], b[0]);
      }
      forall y ensures y in a[1..] <==> y in b[1..] {
        if y in a[1..] {
          var i :| 1 <= i < |a| && a[i] == y;
          LexIrreflexive(y);
          assert y != a[0];
          assert y in Elems(a);
          assert y in Elems(b);
        }
        if y in b[1..] {
          var i :| 1 <= i < |b| && b[i] == y;
          LexIrreflexive(y);
          assert y != b[0];
          assert y in Elems(b);
          assert y in Elems(a);
        }
      }
      assert Elems(a[1..]) == Elems(b[1..]);
      SortedUnique(a[1..], b[1..]);
      assert a == [a[0]] + a[1..] && b == [b[0]] + b[1..];
    }
  }

  // ---------------------------------------------------------------------
  // Case-insensitive de-duplication (a `seen` set of lower-cased forms)
  // ---------------------------------------------------------------------

  function Lowers(xs: seq<string>): set<string> {
    set x | x in xs :: Lower(x)
  }

  predicate NoCaseDuplicates(xs: seq<string>) {
    forall i, j :: 0 <= i < j < |xs| ==> Lower(xs[i]) != Lower(xs[j])
  }

  /** Keep every element whose lower-cased form is neither in `seen` nor met before. */
  function DedupFrom(xs: seq<string>, seen: set<string>): seq<string> {
    if xs == [] then []
    else if Lower(xs[0]) in seen then DedupFrom(xs[1..], seen)
    else [xs[0]] + DedupFrom(xs[1..], seen + {Lower(xs[0])})
  }

  predicate IsSubsequence(a: seq<string>, b: seq<string>)
    decreases |b|
  {
    if a == [] then true
    else if b == [] then false
    else if a[0] == b[0] then IsSubsequence(a[1..], b[1..])
    else IsSubsequence(a, b[1..])
  }

  /**
   * The de-duplicated list keeps the order of the input, has no two elements
   * equal ignoring case, avoids `seen`, and covers every lower-cased form of
   * the input outside `seen`.
   */
  lemma {:induction false} DedupCorrect(xs: seq<string>, seen: set<string>)
    ensures IsSubsequence(DedupFrom(xs, seen), xs)
    ensures NoCaseDuplicates(DedupFrom(xs, seen))
    ensures Lowers(DedupFrom(xs, seen)) !! seen
    ensures seen + Lowers(DedupFrom(xs, seen)) == seen + Lowers(xs)
  {
    if xs != [] {
      var l := Lower(xs[0]);
      assert Lowers(xs) == {l} + Lowers(xs[1..]);
      if l in seen {
        DedupCorrect(xs[1..], seen);
        SubsequenceSkip(DedupFrom(xs[1..], seen), xs);
      } else {
        var rest := DedupFrom(xs[1..], seen + {l});
        DedupCorrect(xs[1..], seen + {l});
        var r := [xs[0]] + rest;
        assert r[1..] == rest;
        assert Lowers(r) == {l} + Lowers(rest);
        forall i, j | 0 <= i < j < |r| ensures Lower(r[i]) != Lower(r[j]) {
          if i == 0 { assert Lower(r[j]) in Lowers(rest); }
        }
      }
    }
  }

  lemma {:induction false} SubsequenceSkip(a: seq<string>, b: seq<string>)
    requires b != [] && IsSubsequence(a, b[1..])
    ensures IsSubsequence(a, b)
    decreases |b|, 0
  {
    if a != [] && a[0] == b[0] {
      SubsequenceTail(a, b[1..]);
    }
  }

  lemma {:induction false} SubsequenceTail(a: seq<string>, c: seq<string>)
    requires a != [] && IsSubsequence(a, c)
    ensures IsSubsequence(a[1..], c)
    decreases |c|, 1
  {
    if c != [] {
      if a[0] == c[0] {
        if a[1..] != [] { SubsequenceSkip(a[1..], c); }
      } else {
        SubsequenceTail(a, c[1..]);
        if a[1..] != [] { SubsequenceSkip(a[1..], c); }
      }
    }
  }

  /** Every first occurrence (ignoring case) outside `seen` is kept with its own casing. */
  lemma {:induction false} DedupKeepsFirst(xs: seq<string>, seen: set<string>, i: nat)
    requires i < |xs| && Lower(xs[i]) !in seen
    requires forall j :: 0 <= j < i ==> Lower(xs[j]) != Lower(xs[i])
    ensures xs[i] in DedupFrom(xs, seen)
  {
    if i > 0 {
      var l := Lower(xs[0]);
      if l in seen {
        DedupKeepsFirst(xs[1..], seen, i - 1);
      } else {
        DedupKeepsFirst(xs[1..], seen + {l}, i - 1);
      }
    }
  }

  /** A list already free of case duplicates and disjoint from `seen` is left as it is. */
  lemma {:induction false} DedupIdentity(xs: seq<string>, seen: set<string>)
    requires NoCaseDuplicates(xs) && Lowers(xs) !! seen
    ensures DedupFrom(xs, seen) == xs
  {
    if xs != [] {
      var l := Lower(xs[0]);
      assert l in Lowers(xs);
      forall y | y in Lowers(xs[1..]) ensures y !in seen + {l} {
        var k :| 0 <= k < |xs[1..]| && Lower(xs[1..][k]) == y;
        assert Lower(xs[k + 1]) == y;
        assert y in Lowers(xs);
      }
      DedupIdentity(xs[1..], seen + {l});
      assert xs == [xs[0]] + xs[1..];
    }
  }
}
