/**
 * Python's argument-less `str.split()`: the text is cut at runs of
 * whitespace, and leading and trailing whitespace yields no empty token.
 */
module Tokens {

  /** The characters for which Python's `str.isspace()` holds. */
  predicate IsSpace(c: char) {
    || c == ' ' || c == '\t' || c == '\n' || c == '\r'
    || c == '\U{000B}' || c == '\U{000C}'
    || ('\U{001C}' <= c <= '\U{001F}')
    || c == '\U{0085}' || c == '\U{00A0}' || c == '\U{1680}'
    || ('\U{2000}' <= c <= '\U{200A}')
    || c == '\U{2028}' || c == '\U{2029}' || c == '\U{202F}'
    || c == '\U{205F}' || c == '\U{3000}'
  }

  /** A token `split()` can produce: non-empty and free of whitespace. */
  predicate IsWord(w: string) {
    |w| > 0 && forall i :: 0 <= i < |w| ==> !IsSpace(w[i])
  }

  /** The characters of `s` that are not whitespace, in order. */
  function NonSpace(s: string): string {
    if |s| == 0 then []
    else if IsSpace(s[0]) then NonSpace(s[1..])
    else [s[0]] + NonSpace(s[1..])
  }

  /** All tokens glued together with nothing between them. */
  function Concat(ws: seq<string>): string {
    if |ws| == 0 then [] else ws[0] + Concat(ws[1..])
  }

  /** The tokens separated by single spaces: `" ".join(ws)`. */
  function Join(ws: seq<string>): string {
    if |ws| == 0 then []
    else if |ws| == 1 then ws[0]
    else ws[0] + " " + Join(ws[1..])
  }

  /** Length of the longest whitespace-free prefix of `s`. */
  function WordLen(s: string): (n: nat)
    ensures n <= |s|
    ensures forall i :: 0 <= i < n ==> !IsSpace(s[i])
    ensures n < |s| ==> IsSpace(s[n])
  {
    if |s| == 0 || IsSpace(s[0]) then 0 else 1 + WordLen(s[1..])
  }

  lemma {:induction false} NonSpaceAppend(a: string, b: string)
    ensures NonSpace(a + b) == NonSpace(a) + NonSpace(b)
    decreases |a|
  {
    if |a| == 0 {
      assert a + b == b;
    } else {
      assert (a + b)[1..] == a[1..] + b;
      NonSpaceAppend(a[1..], b);
    }
  }

  lemma {:induction false} NonSpaceOfWord(w: string)
    requires forall i :: 0 <= i < |w| ==> !IsSpace(w[i])
    ensures NonSpace(w) == w
    decreases |w|
  {
    if |w| > 0 {
      NonSpaceOfWord(w[1..]);
    }
  }

  /** A stretch of text made of whitespace only (possibly empty). */
  predicate Blank(g: string) {
    forall i :: 0 <= i < |g| ==> IsSpace(g[i])
  }

  /** The text `gaps[0] + ws[0] + gaps[1] + ... + ws[n-1] + gaps[n]`. */
  function Layout(gaps: seq<string>, ws: seq<string>): string
    requires |gaps| == |ws| + 1
    decreases |ws|
  {
    if |ws| == 0 then gaps[0] else gaps[0] + ws[0] + Layout(gaps[1..], ws[1..])
  }

  /** `gaps` can sit around `ws`: one more gap than tokens, all of them
      whitespace, and every gap between two tokens non-empty. */
  predicate Separates(gaps: seq<string>, ws: seq<string>) {
    && |gaps| == |ws| + 1
    && (forall i :: 0 <= i < |gaps| ==> Blank(gaps[i]))
    && (forall i :: 0 < i < |ws| ==> |gaps[i]| > 0)
  }

  /** `s` is the tokens `ws` with whitespace gaps `gaps` around and between them. */
  predicate LaidOut(s: string, gaps: seq<string>, ws: seq<string>) {
    Separates(gaps, ws) && Layout(gaps, ws) == s
  }

  lemma LayoutPrepend(c: char, gaps: seq<string>, ws: seq<string>)
    requires |gaps| == |ws| + 1
    ensures Layout([[c] + gaps[0]] + gaps[1..], ws) == [c] + Layout(gaps, ws)
  {
  }

  lemma GapsAfterSpace(c: char, t: string, ws: seq<string>)
    requires IsSpace(c)
    requires exists g :: LaidOut(t, g, ws)
    ensures exists g :: LaidOut([c] + t, g, ws)
  {
    var g :| LaidOut(t, g, ws);
    var g' := [[c] + g[0]] + g[1..];
    LayoutPrepend(c, g, ws);
    assert forall i :: 0 < i < |g'| ==> g'[i] == g[i];
    assert Separates(g', ws);
    assert LaidOut([c] + t, g', ws);
  }

  lemma GapsAfterWord(w: string, t: string, ws: seq<string>)
    requires IsWord(w)
    requires |t| == 0 || IsSpace(t[0])
    requires forall i :: 0 <= i < |ws| ==> IsWord(ws[i])
    requires exists g :: LaidOut(t, g, ws)
    ensures exists g :: LaidOut(w + t, g, [w] + ws)
  {
    var g :| LaidOut(t, g, ws);
    var g' := [""] + g;
    var ws' := [w] + ws;
    assert g'[1..] == g && ws'[1..] == ws;
    assert Layout(g', ws') == "" + w + t;
    assert forall i :: 0 < i < |g'| ==> g'[i] == g[i - 1];
    assert Separates(g', ws');
    assert "" + w + t == w + t;
    assert LaidOut(w + t, g', ws');
  }

  /**
   * `split()`: every token is a word, the tokens hold exactly the
   * non-whitespace characters of the input, in order, and the input is the
   * tokens with whitespace around them and at least one whitespace character
   * between any two, so every token is a maximal whitespace-free run.
   */
  function Split(s: string): (ws: seq<string>)
    ensures forall i :: 0 <= i < |ws| ==> IsWord(ws[i])
    ensures Concat(ws) == NonSpace(s)
    ensures exists gaps :: LaidOut(s, gaps, ws)
    decreases |s|
  {
    if |s| == 0 then
      assert LaidOut(s, [""], []);
      []
    else if IsSpace(s[0]) then
      var rest := Split(s[1..]);
      assert s == [s[0]] + s[1..];
      GapsAfterSpace(s[0], s[1..], rest);
      rest
    else
      var n := WordLen(s);
      var rest := Split(s[n..]);
      assert s == s[..n] + s[n..];
      NonSpaceAppend(s[..n], s[n..]);
      NonSpaceOfWord(s[..n]);
      GapsAfterWord(s[..n], s[n..], rest);
      [s[..n]] + rest
  }

  lemma {:induction false} SplitSpaceThenRest(c: char, rest: string)
    requires IsSpace(c)
    ensures Split([c] + rest) == Split(rest)
  {
  }

  /** Splitting a word followed by a separator and more text peels the word off. */
  lemma {:induction false} SplitWordThenRest(w: string, rest: string)
    requires IsWord(w)
    requires |rest| == 0 || IsSpace(rest[0])
    ensures Split(w + rest) == [w] + Split(rest)
  {
    var s := w + rest;
    WordLenOfWord(w, rest);
    assert s[..|w|] == w;
    assert s[|w|..] == rest;
  }

  lemma {:induction false} WordLenOfWord(w: string, rest: string)
    requires forall i :: 0 <= i < |w| ==> !IsSpace(w[i])
    requires |rest| == 0 || IsSpace(rest[0])
    ensures WordLen(w + rest) == |w|
    decreases |w|
  {
    if |w| > 0 {
      assert (w + rest)[1..] == w[1..] + rest;
      WordLenOfWord(w[1..], rest);
    } else {
      assert w + rest == rest;
    }
  }

  /** Round trip: splitting words joined by single spaces gives the words back. */
  lemma {:induction false} SplitJoin(ws: seq<string>)
    requires forall i :: 0 <= i < |ws| ==> IsWord(ws[i])
    ensures Split(Join(ws)) == ws
    decreases |ws|
  {
    if |ws| == 0 {
    } else if |ws| == 1 {
      SplitWordThenRest(ws[0], []);
      assert ws[0] + [] == ws[0];
    } else {
      var tail := Join(ws[1..]);
      assert Join(ws) == ws[0] + (" " + tail);
      SplitWordThenRest(ws[0], " " + tail);
      SplitSpaceThenRest(' ', tail);
      SplitJoin(ws[1..]);
      assert ws == [ws[0]] + ws[1..];
    }
  }

  /** A reading that starts with whitespace: drop that one character. */
  lemma DropLeadingSpace(gaps: seq<string>, ws: seq<string>) returns (g': seq<string>)
    requires Separates(gaps, ws) && |gaps[0]| > 0
    ensures IsSpace(gaps[0][0])
    ensures Separates(g', ws)
    ensures Layout(gaps, ws) == [gaps[0][0]] + Layout(g', ws)
  {
    var c := gaps[0][0];
    g' := [gaps[0][1..]] + gaps[1..];
    LayoutPrepend(c, g', ws);
    assert gaps[0] == [c] + gaps[0][1..];
    assert [[c] + g'[0]] + g'[1..] == gaps;
    assert forall i :: 0 < i < |g'| ==> g'[i] == gaps[i];
  }

  /** A reading that starts with a token: the rest is again a reading, and it
      is empty or starts with whitespace. */
  lemma PeelWord(gaps: seq<string>, ws: seq<string>)
    requires Separates(gaps, ws) && |gaps[0]| == 0 && |ws| > 0
    ensures Separates(gaps[1..], ws[1..])
    ensures Layout(gaps, ws) == ws[0] + Layout(gaps[1..], ws[1..])
    ensures var t := Layout(gaps[1..], ws[1..]); |t| == 0 || IsSpace(t[0])
  {
  }

  /**
   * `split()` is the only way to read the text as words separated by
   * whitespace: any such reading of `s` is `Split(s)`.
   */
  lemma {:induction false} SplitUnique(s: string, gaps: seq<string>, ws: seq<string>)
    requires forall i :: 0 <= i < |ws| ==> IsWord(ws[i])
    requires LaidOut(s, gaps, ws)
    ensures Split(s) == ws
    decreases |s|
  {
    if |gaps[0]| > 0 {
      var g' := DropLeadingSpace(gaps, ws);
      assert s[1..] == Layout(g', ws);
      SplitUnique(s[1..], g', ws);
    } else if |ws| > 0 {
      PeelWord(gaps, ws);
      var t := Layout(gaps[1..], ws[1..]);
      SplitWordThenRest(ws[0], t);
      SplitUnique(t, gaps[1..], ws[1..]);
      assert ws == [ws[0]] + ws[1..];
    }
  }
}
