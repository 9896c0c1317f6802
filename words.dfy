/**
 * Whitespace tokenisation (`str.split()` with no argument) and the
 * full-stop sentence splitting the writer agent applies to its drafts.
 */
module WordSplit {
  import opened Strings

  // ---------------------------------------------------------------------
  // Words
  // ---------------------------------------------------------------------

  predicate NoSpace(w: string) {
    forall i :: 0 <= i < |w| ==> !IsSpace(w[i])
  }

  /** A token of `str.split()`: a non-empty run of non-whitespace. */
  predicate IsWord(w: string) {
    w != [] && NoSpace(w)
  }

  predicate AllWords(ws: seq<string>) {
    forall i :: 0 <= i < |ws| ==> IsWord(ws[i])
  }

  predicate AllSpace(s: string) {
    forall i :: 0 <= i < |s| ==> IsSpace(s[i])
  }

  /** Length of the leading run of non-whitespace characters. */
  function WordLen(s: string): (n: nat)
    ensures n <= |s|
    ensures NoSpace(s[..n])
    ensures n < |s| ==> IsSpace(s[n])
  {
    if s == [] || IsSpace(s[0]) then 0
    else
      var m := WordLen(s[1..]);
      assert s[..m + 1] == [s[0]] + s[1..][..m];
      1 + m
  }

  /** `s.split()`: the maximal runs of non-whitespace, in order. */
  function Words(s: string): seq<string>
    decreases |s|
  {
    if s == [] then []
    else if IsSpace(s[0]) then Words(s[1..])
    else var n := WordLen(s); [s[..n]] + Words(s[n..])
  }

  /** The number of words, `len(text.split())`. */
  function CountWords(s: string): nat {
    |Words(s)|
  }

  /** Every token is a word, and is its own strip, so filtering on `token.strip()` keeps them all. */
  lemma {:induction false} WordsAreWords(s: string)
    ensures AllWords(Words(s))
    ensures forall i :: 0 <= i < |Words(s)| ==> Strip(Words(s)[i]) == Words(s)[i]
    decreases |s|
  {
    if s != [] {
      if IsSpace(s[0]) {
        WordsAreWords(s[1..]);
      } else {
        var n := WordLen(s);
        WordsAreWords(s[n..]);
        assert IsWord(s[..n]);
        StripOfStripped(s[..n]);
      }
    }
  }

  lemma {:induction false} WordLenConcat(a: string, b: string)
    ensures WordLen(a) < |a| ==> WordLen(a + b) == WordLen(a)
    ensures WordLen(a) == |a| ==> WordLen(a + b) == |a| + WordLen(b)
  {
    if a != [] {
      assert (a + b)[0] == a[0];
      if !IsSpace(a[0]) {
        assert (a + b)[1..] == a[1..] + b;
        WordLenConcat(a[1..], b);
      }
    } else {
      assert a + b == b;
    }
  }

  lemma {:induction false} WordsSpacePrefix(w: string, s: string)
    requires AllSpace(w)
    ensures Words(w + s) == Words(s)
  {
    if w != [] {
      assert (w + s)[1..] == w[1..] + s;
      WordsSpacePrefix(w[1..], s);
    } else {
      assert w + s == s;
    }
  }

  lemma WordsOfSpace(w: string)
    requires AllSpace(w)
    ensures Words(w) == []
  {
    WordsSpacePrefix(w, "");
    assert w + "" == w;
  }

  lemma {:induction false} WordLenOfNoSpace(w: string)
    requires NoSpace(w)
    ensures WordLen(w) == |w|
  {
    if w != [] {
      WordLenOfNoSpace(w[1..]);
    }
  }

  /** A word followed by nothing or by whitespace is the first token. */
  lemma WordsCons(w: string, t: string)
    requires IsWord(w)
    requires t == [] || IsSpace(t[0])
    ensures Words(w + t) == [w] + Words(t)
  {
    WordLenOfNoSpace(w);
    WordLenConcat(w, t);
    assert WordLen(t) == 0;
    assert (w + t)[0] == w[0];
    assert (w + t)[..|w|] == w && (w + t)[|w|..] == t;
  }

  lemma WordsOfWord(w: string)
    requires IsWord(w)
    ensures Words(w) == [w]
  {
    WordsCons(w, "");
    assert w + "" == w;
  }

  /** Whitespace separates: the words of `a c b` are those of `a` then those of `b`. */
  lemma {:induction false} WordsSplit(a: string, c: char, b: string)
    requires IsSpace(c)
    ensures Words(a + [c] + b) == Words(a) + Words(b)
    decreases |a|
  {
    if a == [] {
      WordsSplitEmpty(a, c, b);
    } else if IsSpace(a[0]) {
      WordsSplitSpace(a, c, b);
      WordsSplit(a[1..], c, b);
    } else if WordLen(a) == |a| {
      WordsSplitLast(a, c, b);
    } else {
      var n := WordLen(a);
      WordsSplitStep(a, c, b);
      WordsSplit(a[n..], c, b);
      PrependAssoc(a[..n], Words(a[n..]), Words(b));
    }
  }

  lemma PrependAssoc(w: string, p: seq<string>, q: seq<string>)
    ensures [w] + (p + q) == [w] + p + q
  {
  }

  lemma WordsSplitEmpty(a: string, c: char, b: string)
    requires a == [] && IsSpace(c)
    ensures Words(a + [c] + b) == Words(a) + Words(b)
  {
    var s := a + [c] + b;
    assert s == [c] + b && s[1..] == b;
  }

  /** Leading whitespace of `a` is dropped on both sides. */
  lemma WordsSplitSpace(a: string, c: char, b: string)
    requires a != [] && IsSpace(a[0])
    ensures Words(a + [c] + b) == Words(a[1..] + [c] + b) && Words(a) == Words(a[1..])
  {
    var s := a + [c] + b;
    assert s[0] == a[0];
    assert s[1..] == a[1..] + [c] + b;
  }

  /** A last word `a` before the separator is one token. */
  lemma WordsSplitLast(a: string, c: char, b: string)
    requires a != [] && WordLen(a) == |a| && IsSpace(c)
    ensures Words(a + [c] + b) == [a] + Words(b) && Words(a) == [a]
  {
    NoSpaceOfWordLen(a);
    var t := [c] + b;
    WordsSpaceHead(t);
    WordsCons(a, t);
    StringAssoc(a, [c], b);
    WordsOfWord(a);
  }

  lemma NoSpaceOfWordLen(a: string)
    requires WordLen(a) == |a|
    ensures NoSpace(a)
  {
    assert a[..|a|] == a;
  }

  lemma StringAssoc(x: string, y: string, z: string)
    ensures x + y + z == x + (y + z)
  {
  }

  lemma WordsSpaceHead(t: string)
    requires t != [] && IsSpace(t[0])
    ensures Words(t) == Words(t[1..])
  {
  }

  /** A first word of `a` that ends inside `a` is split off before the separator is reached. */
  lemma WordsSplitStep(a: string, c: char, b: string)
    requires a != [] && !IsSpace(a[0]) && WordLen(a) < |a|
    ensures var n := WordLen(a); Words(a + [c] + b) == [a[..n]] + Words(a[n..] + [c] + b)
    ensures Words(a) == [a[..WordLen(a)]] + Words(a[WordLen(a)..])
  {
    var s := a + [c] + b;
    var n := WordLen(a);
    WordLenConcat(a, [c] + b);
    assert s == a + ([c] + b);
    assert s[0] == a[0];
    assert s[..n] == a[..n];
    assert s[n..] == a[n..] + [c] + b;
  }

  /** Joining words with single spaces and splitting again gives the words back. */
  lemma {:induction false} WordsOfJoin(ws: seq<string>)
    requires AllWords(ws)
    ensures Words(Join(" ", ws)) == ws
  {
    if |ws| == 1 {
      WordsOfWord(ws[0]);
    } else if |ws| > 1 {
      WordsOfJoin(ws[1..]);
      assert Join(" ", ws) == ws[0] + [' '] + Join(" ", ws[1..]);
      WordsSplit(ws[0], ' ', Join(" ", ws[1..]));
      WordsOfWord(ws[0]);
      assert ws == [ws[0]] + ws[1..];
    }
  }

  lemma WordsSpaceSuffix(s: string, w: string)
    requires AllSpace(w)
    ensures Words(s + w) == Words(s)
  {
    if w != [] {
      assert s + w == s + [w[0]] + w[1..];
      WordsSplit(s, w[0], w[1..]);
      WordsOfSpace(w[1..]);
    } else {
      assert s + w == s;
    }
  }

  /** Stripping never changes the words. */
  lemma WordsOfStrip(s: string)
    ensures Words(Strip(s)) == Words(s)
  {
    var front, back := StripSplit(s);
    WordsSpacePrefix(front, Strip(s) + back);
    WordsSpaceSuffix(Strip(s), back);
    assert s == front + (Strip(s) + back);
  }

  /** A text whose first character is not whitespace has at least one word. */
  lemma WordsNonEmpty(s: string)
    requires s != [] && !IsSpace(s[0])
    ensures CountWords(s) >= 1
  {
  }

  /** A text without words is all whitespace, and conversely. */
  lemma {:induction false} NoWordsIffBlank(s: string)
    ensures Words(s) == [] <==> AllSpace(s)
  {
    if AllSpace(s) {
      WordsOfSpace(s);
    } else if s != [] && IsSpace(s[0]) {
      NoWordsIffBlank(s[1..]);
      assert !AllSpace(s[1..]);
    }
  }

  /** The words of a string joined with a space: word counts add up. */
  lemma CountWordsJoin(a: string, b: string)
    ensures CountWords(a + " " + b) == CountWords(a) + CountWords(b)
  {
    WordsSplit(a, ' ', b);
  }

  // ---------------------------------------------------------------------
  // Replacing a non-whitespace character by a non-whitespace text
  // ---------------------------------------------------------------------

  function ReplaceEach(ws: seq<string>, c: char, r: string): (out: seq<string>)
    ensures |out| == |ws|
  {
    seq(|ws|, i requires 0 <= i < |ws| => ReplaceAll(ws[i], [c], r))
  }

  lemma {:induction false} ReplaceKeepsWord(w: string, c: char, r: string)
    requires IsWord(r) && NoSpace(w)
    ensures NoSpace(ReplaceAll(w, [c], r))
    ensures w != [] ==> ReplaceAll(w, [c], r) != []
  {
    if w != [] {
      ReplaceKeepsWord(w[1..], c, r);
      assert [c][..] == [c];
      assert w[|[c]|..] == w[1..];
    }
  }

  lemma ReplaceHead(x: char, s: string, c: char, r: string)
    requires x != c
    ensures ReplaceAll([x] + s, [c], r) == [x] + ReplaceAll(s, [c], r)
  {
    assert ([x] + s)[1..] == s;
    assert ([x] + s)[..1] == [x];
    assert [x] != [c] by { assert [x][0] != [c][0]; }
    assert !StartsWith([x] + s, [c]);
  }

  lemma ReplaceAfterSpace(s: string, c: char, r: string)
    requires s != [] && IsSpace(s[0]) && !IsSpace(c)
    ensures Words(ReplaceAll(s, [c], r)) == Words(ReplaceAll(s[1..], [c], r))
  {
    var t := ReplaceAll(s[1..], [c], r);
    assert s == [s[0]] + s[1..];
    ReplaceHead(s[0], s[1..], c, r);
    assert ([s[0]] + t)[1..] == t;
  }

  lemma ReplaceBeforeSpace(t: string, c: char, r: string)
    requires t == [] || IsSpace(t[0])
    requires !IsSpace(c)
    ensures var u := ReplaceAll(t, [c], r); u == [] || IsSpace(u[0])
  {
    if t != [] {
      assert t == [t[0]] + t[1..];
      ReplaceHead(t[0], t[1..], c, r);
    }
  }

  lemma ReplaceAfterWord(s: string, c: char, r: string)
    requires s != [] && !IsSpace(s[0]) && !IsSpace(c) && IsWord(r)
    ensures var n := WordLen(s);
      Words(ReplaceAll(s, [c], r)) == [ReplaceAll(s[..n], [c], r)] + Words(ReplaceAll(s[n..], [c], r))
  {
    var n := WordLen(s);
    assert s == s[..n] + s[n..];
    ReplaceCharConcat(s[..n], s[n..], [c], r);
    ReplaceKeepsWord(s[..n], c, r);
    ReplaceBeforeSpace(s[n..], c, r);
    WordsCons(ReplaceAll(s[..n], [c], r), ReplaceAll(s[n..], [c], r));
  }

  /**
   * Replacing a non-whitespace character with a word maps each word and
   * neither merges nor splits words, so word counts are preserved.
   */
  lemma {:induction false} WordsOfReplace(s: string, c: char, r: string)
    requires !IsSpace(c) && IsWord(r)
    ensures Words(ReplaceAll(s, [c], r)) == ReplaceEach(Words(s), c, r)
    decreases |s|
  {
    if s != [] {
      if IsSpace(s[0]) {
        ReplaceAfterSpace(s, c, r);
        WordsOfReplace(s[1..], c, r);
      } else {
        var n := WordLen(s);
        ReplaceAfterWord(s, c, r);
        WordsOfReplace(s[n..], c, r);
        WordsOfWordHead(s);
        ReplaceEachCons(s[..n], Words(s[n..]), c, r);
      }
    }
  }

  lemma WordsOfWordHead(s: string)
    requires s != [] && !IsSpace(s[0])
    ensures Words(s) == [s[..WordLen(s)]] + Words(s[WordLen(s)..])
  {
  }

  lemma ReplaceEachCons(w: string, ws: seq<string>, c: char, r: string)
    ensures ReplaceEach([w] + ws, c, r) == [ReplaceAll(w, [c], r)] + ReplaceEach(ws, c, r)
  {
    var a, b := ReplaceEach([w] + ws, c, r), [ReplaceAll(w, [c], r)] + ReplaceEach(ws, c, r);
    forall i | 0 <= i < |a|
      ensures a[i] == b[i]
    {
      if i > 0 {
        assert ([w] + ws)[i] == ws[i - 1];
      }
    }
  }

  // ---------------------------------------------------------------------
  // Sentences: text split at full stops, newlines read as spaces
  // ---------------------------------------------------------------------

  /** Strip every piece and keep the non-empty ones. */
  function NonBlankStrips(pieces: seq<string>): seq<string> {
    if pieces == [] then []
    else
      var rest := NonBlankStrips(pieces[1..]);
      var c := Strip(pieces[0]);
      if c == [] then rest else [c] + rest
  }

  /** One more piece adds its strip at the end, unless the strip is blank. */
  lemma {:induction false} NonBlankStripsAppend(a: seq<string>, x: string)
    ensures NonBlankStrips(a + [x]) == NonBlankStrips(a) + (if Strip(x) == [] then [] else [Strip(x)])
  {
    if a != [] {
      assert (a + [x])[1..] == a[1..] + [x];
      NonBlankStripsAppend(a[1..], x);
    }
  }

  /**
   * The kept pieces are non-empty and stripped, and a character that no
   * piece contains is in none of them.
   */
  lemma {:induction false} NonBlankStripsShape(pieces: seq<string>, x: char)
    requires forall i :: 0 <= i < |pieces| ==> x !in pieces[i]
    ensures forall i :: 0 <= i < |NonBlankStrips(pieces)| ==>
      var p := NonBlankStrips(pieces)[i];
      p != [] && IsStripped(p) && x !in p
  {
    if pieces != [] {
      NonBlankStripsShape(pieces[1..], x);
      var c := Strip(pieces[0]);
      StripIsStripped(pieces[0]);
      StripByChars(pieces[0], Spaces);
      var rest := NonBlankStrips(pieces[1..]);
      if c != [] {
        assert NonBlankStrips(pieces) == [c] + rest;
      } else {
        assert NonBlankStrips(pieces) == rest;
      }
    }
  }

  /** The stripped, non-empty pieces between full stops (`_split_content_into_sentences`). */
  function SentencePieces(text: string): seq<string> {
    NonBlankStrips(SplitOn(ReplaceChar(text, '\n', ' '), '.'))
  }

  function AddStops(pieces: seq<string>): (r: seq<string>)
    ensures |r| == |pieces|
  {
    seq(|pieces|, i requires 0 <= i < |pieces| => pieces[i] + ".")
  }

  /** Each piece followed by a full stop (`_split_sentences`). */
  function SplitSentences(text: string): seq<string> {
    AddStops(SentencePieces(text))
  }

  /** Everything of a sentence but its final character. */
  function Body(s: string): string {
    if s == [] then [] else s[..|s| - 1]
  }

  /** A sentence: a non-empty stripped body without full stop or newline, then one ".". */
  predicate IsSentence(s: string) {
    |s| >= 2 && s[|s| - 1] == '.'
    && IsStripped(Body(s)) && '.' !in Body(s) && '\n' !in Body(s)
  }

  /** Splitting at `c` leaves no `c` in any piece, nor any character absent from the input. */
  lemma {:induction false} SplitOnAvoids(s: string, c: char, x: char)
    requires x == c || x !in s
    ensures forall i :: 0 <= i < |SplitOn(s, c)| ==> x !in SplitOn(s, c)[i]
  {
    if s != [] {
      SplitOnAvoids(s[1..], c, x);
    }
  }

  /** Every piece is non-empty and stripped, and holds neither a full stop nor a newline. */
  lemma SentencePiecesShape(text: string)
    ensures forall i :: 0 <= i < |SentencePieces(text)| ==>
      var p := SentencePieces(text)[i];
      p != [] && IsStripped(p) && '.' !in p && '\n' !in p
  {
    var flat := ReplaceChar(text, '\n', ' ');
    assert '\n' !in flat;
    var pieces := SplitOn(flat, '.');
    SplitOnAvoids(flat, '.', '.');
    SplitOnAvoids(flat, '.', '\n');
    NonBlankStripsShape(pieces, '.');
    NonBlankStripsShape(pieces, '\n');
  }

  /** Every sentence of `_split_sentences` is non-empty, newline-free and ends with its only ".". */
  lemma SplitSentencesShape(text: string)
    ensures forall i :: 0 <= i < |SplitSentences(text)| ==> IsSentence(SplitSentences(text)[i])
  {
    SentencePiecesShape(text);
    var ps := SentencePieces(text);
    forall i | 0 <= i < |ps| ensures IsSentence(ps[i] + ".") {
      assert Body(ps[i] + ".") == ps[i];
    }
  }

  function Bodies(ss: seq<string>): (r: seq<string>)
    ensures |r| == |ss|
  {
    seq(|ss|, i requires 0 <= i < |ss| => Body(ss[i]))
  }

  lemma {:induction false} JoinWithout(sep: string, parts: seq<string>, c: char)
    requires c !in sep
    requires forall i :: 0 <= i < |parts| ==> c !in parts[i]
    ensures c !in Join(sep, parts)
  {
    if |parts| > 1 {
      JoinWithout(sep, parts[1..], c);
    }
  }

  lemma SpaceHasNoStop(w: string)
    requires AllSpace(w)
    ensures '.' !in w
  {
    assert forall i :: 0 <= i < |w| ==> w[i] != '.';
  }

  /** The first piece after leading whitespace `w` strips to the first sentence's body. */
  lemma FirstPiece(w: string, s: string, rest: string)
    requires AllSpace(w) && IsSentence(s)
    ensures SplitOn(w + s + rest, '.') == [w + Body(s)] + SplitOn(rest, '.')
    ensures Strip(w + Body(s)) == Body(s)
  {
    var body := Body(s);
    assert s == body + ".";
    SpaceHasNoStop(w);
    assert '.' !in w + body;
    assert w + s + rest == (w + body) + ['.'] + rest;
    SplitOnAt(w + body, '.', rest);
    StripSpacePrefix(w, body);
    StripOfStripped(body);
  }

  lemma {:induction false} PiecesAfter(w: string, ss: seq<string>)
    requires AllSpace(w)
    requires forall i :: 0 <= i < |ss| ==> IsSentence(ss[i])
    ensures NonBlankStrips(SplitOn(w + Join(" ", ss), '.')) == Bodies(ss)
    decreases |ss|
  {
    if ss == [] {
      assert w + Join(" ", ss) == w;
      PiecesOfSpace(w);
    } else {
      var rest := if |ss| == 1 then "" else " " + Join(" ", ss[1..]);
      assert w + Join(" ", ss) == w + ss[0] + rest;
      PiecesCons(w, ss[0], rest);
      BodiesCons(ss);
      if |ss| == 1 {
        PiecesOfSpace("");
      } else {
        PiecesAfter(" ", ss[1..]);
      }
    }
  }

  lemma BodiesCons(ss: seq<string>)
    requires ss != []
    ensures Bodies(ss) == [Body(ss[0])] + Bodies(ss[1..])
  {
  }

  /** Whitespace alone holds no sentence. */
  lemma PiecesOfSpace(w: string)
    requires AllSpace(w)
    ensures NonBlankStrips(SplitOn(w, '.')) == []
  {
    SpaceHasNoStop(w);
    SplitOnWithout(w, '.');
    StripSpacePrefix(w, "");
    assert w + "" == w;
  }

  /** The first sentence after whitespace contributes its body, and the scan goes on after its full stop. */
  lemma PiecesCons(w: string, s: string, rest: string)
    requires AllSpace(w) && IsSentence(s)
    ensures NonBlankStrips(SplitOn(w + s + rest, '.')) == [Body(s)] + NonBlankStrips(SplitOn(rest, '.'))
  {
    FirstPiece(w, s, rest);
    var pieces := SplitOn(w + s + rest, '.');
    assert pieces[1..] == SplitOn(rest, '.');
    assert Body(s) != [];
  }

  lemma StopsOfBodies(ss: seq<string>)
    requires forall i :: 0 <= i < |ss| ==> IsSentence(ss[i])
    ensures AddStops(Bodies(ss)) == ss
  {
    forall i | 0 <= i < |ss| ensures AddStops(Bodies(ss))[i] == ss[i] {
      assert ss[i] == Body(ss[i]) + ".";
    }
  }

  lemma SentenceHasNoNewline(s: string)
    requires IsSentence(s)
    ensures '\n' !in s
  {
    var b := Body(s);
    forall k | 0 <= k < |s| ensures s[k] != '\n' {
      if k < |s| - 1 {
        assert s[k] == b[k];
      }
    }
  }

  lemma SentencesHaveNoNewline(ss: seq<string>)
    requires forall i :: 0 <= i < |ss| ==> IsSentence(ss[i])
    ensures '\n' !in Join(" ", ss)
  {
    forall i | 0 <= i < |ss| ensures '\n' !in ss[i] {
      SentenceHasNoNewline(ss[i]);
    }
    JoinWithout(" ", ss, '\n');
  }

  /** Sentences joined with spaces split back into the same sentences. */
  lemma SentencesRoundTrip(ss: seq<string>)
    requires forall i :: 0 <= i < |ss| ==> IsSentence(ss[i])
    ensures SplitSentences(Join(" ", ss)) == ss
  {
    var text := Join(" ", ss);
    SentencesHaveNoNewline(ss);
    ReplaceCharAbsent(text, '\n', ' ');
    PiecesAfter("", ss);
    assert "" + text == text;
    StopsOfBodies(ss);
  }
}
