/**
 * The transcript normaliser of the dictation tool (`clean_text`) and the string
 * primitives it is built from: `re.sub(r'\s+', ' ', …)`, `str.strip`,
 * `str.split()`, `' '.join`, and the per-character case maps behind
 * `str.upper` / `str.lower`.
 *
 * `CleanText` is the normaliser as written, and the one the processing
 * pipeline applies. `NormalizeText` is the same pipeline with the
 * capitalisation moved after the filler removal, the corrected form of the
 * defect listed in README, "Findings".
 */
module Text {

  // ------------------------------------------------------------------
  // Characters
  // ------------------------------------------------------------------

  /** Python's `str.isspace` on one code point; `\s`, `split()` and `strip()` use the same set. */
  predicate IsSpace(c: char) {
    var n := c as int;
    (9 <= n <= 13) || (0x1C <= n <= 0x20) || n == 0x85 || n == 0xA0 || n == 0x1680
    || (0x2000 <= n <= 0x200A) || n == 0x2028 || n == 0x2029 || n == 0x202F
    || n == 0x205F || n == 0x3000
  }

  /**
   * Upper-casing of one character: 'a'..'z' and U+00E0..U+00FE except U+00F7
   * are mapped to their capitals; every other character, 'ÿ', 'µ' and all
   * letters beyond Latin-1 included, is left unchanged.
   */
  function Upper(c: char): char {
    var n := c as int;
    if ('a' as int <= n <= 'z' as int) || (0xE0 <= n <= 0xFE && n != 0xF7) then (n - 32) as char
    else c
  }

  /**
   * Lower-casing of one character: 'A'..'Z' and U+00C0..U+00DE except U+00D7
   * are mapped to their small letters, the Kelvin sign U+212A to 'k' and the
   * capital sharp s U+1E9E to 'ß'; every other character is left unchanged.
   */
  function Lower(c: char): char {
    var n := c as int;
    if ('A' as int <= n <= 'Z' as int) || (0xC0 <= n <= 0xDE && n != 0xD7) then (n + 32) as char
    else if n == 0x212A then 'k'
    else if n == 0x1E9E then 'ß'
    else c
  }

  /** The case maps never create or destroy whitespace, and upper-casing is stable. */
  lemma CaseMaps(c: char)
    ensures IsSpace(Upper(c)) == IsSpace(c)
    ensures Upper(Upper(c)) == Upper(c)
    ensures Lower(Upper(c)) == Lower(c)
  {
  }

  // ------------------------------------------------------------------
  // Whitespace handling
  // ------------------------------------------------------------------

  /** `str.lstrip()`: drops the leading whitespace. */
  function LStrip(s: string): (r: string)
    ensures |r| <= |s|
    ensures r == [] || !IsSpace(r[0])
  {
    if s == [] || !IsSpace(s[0]) then s else LStrip(s[1..])
  }

  /** `str.rstrip()`: drops the trailing whitespace. */
  function RStrip(s: string): (r: string)
    ensures r <= s
    ensures r == [] || !IsSpace(r[|r| - 1])
  {
    if s == [] || !IsSpace(s[|s| - 1]) then s else RStrip(s[..|s| - 1])
  }

  /** `str.strip()` */
  function Strip(s: string): (r: string)
    ensures r == [] || (!IsSpace(r[0]) && !IsSpace(r[|r| - 1]))
  {
    RStrip(LStrip(s))
  }

  /** `re.sub(r'\s+', ' ', s)`: every maximal run of whitespace becomes a single space. */
  function Collapse(s: string): (r: string)
    ensures |r| <= |s|
    ensures r == [] <==> s == []
    ensures forall i :: 0 <= i < |r| && IsSpace(r[i]) ==> r[i] == ' '
    decreases |s|
  {
    if s == [] then []
    else if IsSpace(s[0]) then " " + Collapse(LStrip(s))
    else [s[0]] + Collapse(s[1..])
  }

  /** The length of the run of non-whitespace that starts `s`. */
  function WordLen(s: string): (n: nat)
    ensures n <= |s|
    ensures n > 0 ==> IsWord(s[..n])
    ensures n < |s| ==> IsSpace(s[n])
  {
    if s == [] || IsSpace(s[0]) then 0 else 1 + WordLen(s[1..])
  }

  /** A token of `str.split()`: non-empty, no whitespace. */
  predicate IsWord(w: string) {
    w != [] && forall i :: 0 <= i < |w| ==> !IsSpace(w[i])
  }

  predicate AllWords(ws: seq<string>) {
    forall i :: 0 <= i < |ws| ==> IsWord(ws[i])
  }

  /** `str.split()` without a separator: the maximal runs of non-whitespace, in order. */
  function Split(s: string): (ws: seq<string>)
    ensures AllWords(ws)
    decreases |s|
  {
    var t := LStrip(s);
    if t == [] then []
    else
      var n := WordLen(t);
      [t[..n]] + Split(t[n..])
  }

  /** `' '.join(ws)` */
  function Join(ws: seq<string>): (r: string)
    ensures ws != [] ==> ws[0] <= r
    ensures |r| + 1 >= |ws|
  {
    if ws == [] then [] else if |ws| == 1 then ws[0] else ws[0] + " " + Join(ws[1..])
  }

  /**
   * The shape `clean_text` promises: no leading or trailing whitespace, and the
   * only whitespace is a single ' ' between two non-whitespace characters.
   */
  ghost predicate SingleSpaced(s: string) {
    && (s == [] || (!IsSpace(s[0]) && !IsSpace(s[|s| - 1])))
    && (forall i :: 0 <= i < |s| && IsSpace(s[i]) ==> s[i] == ' ')
    && (forall i, j :: 0 <= i < j < |s| && j == i + 1 && IsSpace(s[i]) ==> !IsSpace(s[j]))
  }

  // ------------------------------------------------------------------
  // Filler words
  // ------------------------------------------------------------------

  /** The fixed filler vocabulary (German hesitation markers and hedges). */
  const FillerWords: seq<string> :=
    ["ähm", "äh", "hm", "also", "sozusagen", "quasi", "gewissermaßen",
     "eigentlich", "praktisch", "halt", "irgendwie", "wohl", "mal"]

  /** The character class `[.,!?;:\-]`. */
  predicate IsPunct(c: char) {
    c == '.' || c == ',' || c == '!' || c == '?' || c == ';' || c == ':' || c == '-'
  }

  function LowerWord(w: string): string {
    seq(|w|, i requires 0 <= i < |w| => Lower(w[i]))
  }

  function DropPunct(w: string): string {
    if w == [] then [] else (if IsPunct(w[0]) then [] else [w[0]]) + DropPunct(w[1..])
  }

  /** `re.sub(r'[.,!?;:\-]', '', word.lower())`: the form the filler test looks at. */
  function Bare(w: string): string {
    DropPunct(LowerWord(w))
  }

  /** A token survives the filler filter when its bare form is non-empty and not a filler word. */
  predicate Keep(w: string) {
    var b := Bare(w);
    b != [] && b !in FillerWords
  }

  /** `xs` is `ys` with some elements left out, order kept. */
  predicate IsSubsequence(xs: seq<string>, ys: seq<string>)
    decreases |ys|
  {
    if xs == [] then true
    else if ys == [] then false
    else if xs[0] == ys[0] then IsSubsequence(xs[1..], ys[1..])
    else IsSubsequence(xs, ys[1..])
  }

  /** The filter loop of `clean_text`: keeps the surviving tokens, unmodified and in order. */
  function KeepWords(ws: seq<string>): (r: seq<string>)
    ensures IsSubsequence(r, ws)
    ensures forall i :: 0 <= i < |r| ==> Keep(r[i])
    ensures AllWords(ws) ==> AllWords(r)
  {
    if ws == [] then []
    else
      var rest := KeepWords(ws[1..]);
      if Keep(ws[0]) then [ws[0]] + rest else rest
  }

  // ------------------------------------------------------------------
  // Sentence casing and punctuation
  // ------------------------------------------------------------------

  /** `text[0].upper() + text[1:]`, with `str.upper` taken one character to one character. */
  function Capitalize(s: string): string {
    if s == [] then [] else [Upper(s[0])] + s[1..]
  }

  function CapitalizeFirst(ws: seq<string>): seq<string> {
    if ws == [] then [] else [Capitalize(ws[0])] + ws[1..]
  }

  predicate EndsSentence(s: string) {
    s != [] && (s[|s| - 1] == '.' || s[|s| - 1] == '!' || s[|s| - 1] == '?')
  }

  /** Appends '.' to a non-empty text that does not already end in '.', '!' or '?'. */
  function Terminate(s: string): (r: string)
    ensures r == [] <==> s == []
    ensures r != [] ==> EndsSentence(r)
    ensures s <= r && |r| <= |s| + 1
    ensures EndsSentence(s) ==> r == s
    ensures |r| == |s| + 1 ==> r[|s|] == '.'
  {
    if s != [] && !EndsSentence(s) then s + "." else s
  }

  // ------------------------------------------------------------------
  // The normaliser
  // ------------------------------------------------------------------

  /** `clean_text` as written: capitalise, then drop fillers, then terminate. */
  function CleanText(text: string): (r: string)
    ensures text == [] ==> r == []
    ensures r == [] || EndsSentence(r)
  {
    if text == [] then []
    else
      var t := Strip(Collapse(text));
      var t' := if t != [] then Capitalize(t) else t;
      Terminate(Join(KeepWords(Split(t'))))
  }

  /** The tokens the filter loop of `CleanText` walks over. */
  function SentenceWords(text: string): seq<string> {
    var t := Strip(Collapse(text));
    Split(if t != [] then Capitalize(t) else t)
  }

  /** The normaliser with the capitalisation applied to what survives the filter. */
  function NormalizeText(text: string): (r: string)
    ensures text == [] ==> r == []
    ensures r == [] || EndsSentence(r)
  {
    if text == [] then []
    else Terminate(Capitalize(Join(KeepWords(Split(Strip(Collapse(text)))))))
  }

  // ------------------------------------------------------------------
  // Lemmas: the string primitives
  // ------------------------------------------------------------------

  /** `lstrip` removes a prefix, and that prefix is all whitespace. */
  lemma {:induction false} LStripBounds(s: string) returns (i: nat)
    ensures i <= |s| && LStrip(s) == s[i..]
    ensures forall k :: 0 <= k < i ==> IsSpace(s[k])
  {
    if s == [] || !IsSpace(s[0]) {
      i := 0;
    } else {
      var i' := LStripBounds(s[1..]);
      i := i' + 1;
      assert s[1..][i'..] == s[i..];
      forall k | 0 <= k < i
        ensures IsSpace(s[k])
      {
        if k > 0 {
          assert s[k] == s[1..][k - 1];
        }
      }
    }
  }

  /** `rstrip` removes a suffix, and that suffix is all whitespace. */
  lemma {:induction false} RStripBounds(s: string) returns (j: nat)
    ensures j <= |s| && RStrip(s) == s[..j]
    ensures forall k :: j <= k < |s| ==> IsSpace(s[k])
  {
    if s == [] || !IsSpace(s[|s| - 1]) {
      j := |s|;
    } else {
      var t := s[..|s| - 1];
      j := RStripBounds(t);
      assert t[..j] == s[..j];
      forall k | j <= k < |s|
        ensures IsSpace(s[k])
      {
        if k < |s| - 1 {
          assert s[k] == t[k];
        }
      }
    }
  }

  /**
   * `strip` returns the slice of its input between the leading and the trailing
   * whitespace: it removes nothing else, and what it returns is empty exactly
   * when the input is all whitespace.
   */
  lemma StripBounds(s: string) returns (i: nat, j: nat)
    ensures i <= j <= |s| && Strip(s) == s[i..j]
    ensures forall k :: 0 <= k < i ==> IsSpace(s[k])
    ensures forall k :: j <= k < |s| ==> IsSpace(s[k])
    ensures Strip(s) == [] || (!IsSpace(s[i]) && !IsSpace(s[j - 1]))
    ensures Strip(s) == [] <==> forall k :: 0 <= k < |s| ==> IsSpace(s[k])
  {
    i := LStripBounds(s);
    var t := s[i..];
    var j' := RStripBounds(t);
    j := i + j';
    assert t[..j'] == s[i..j];
    forall k | j <= k < |s|
      ensures IsSpace(s[k])
    {
      assert s[k] == t[k - i];
    }
    if Strip(s) != [] {
      assert Strip(s)[0] == s[i] && Strip(s)[|Strip(s)| - 1] == s[j - 1];
    }
  }

  lemma LStripIdempotent(s: string)
    ensures LStrip(LStrip(s)) == LStrip(s)
  {
  }

  /** `split()` ignores leading whitespace. */
  lemma SplitLStrip(s: string)
    ensures Split(LStrip(s)) == Split(s)
  {
    LStripIdempotent(s);
  }

  /** A word followed by whitespace (or nothing) is exactly the first run `WordLen` measures. */
  lemma {:induction false} WordLenOfWord(w: string, rest: string)
    requires IsWord(w)
    requires rest == [] || IsSpace(rest[0])
    ensures WordLen(w + rest) == |w|
    decreases |w|
  {
    var s := w + rest;
    assert s[0] == w[0];
    if |w| == 1 {
      assert s[1..] == rest;
    } else {
      var w' := w[1..];
      assert forall i :: 0 <= i < |w'| ==> w'[i] == w[i + 1];
      assert s[1..] == w' + rest;
      WordLenOfWord(w', rest);
    }
  }

  /** Joined words are single-spaced, and start and end with the first and last word's characters. */
  lemma {:induction false} JoinShape(ws: seq<string>)
    requires AllWords(ws)
    ensures SingleSpaced(Join(ws))
    ensures Join(ws) == [] <==> ws == []
    ensures ws != [] ==> Join(ws)[0] == ws[0][0]
    ensures ws != [] ==> Join(ws)[|Join(ws)| - 1] == ws[|ws| - 1][|ws[|ws| - 1]| - 1]
  {
    if |ws| > 1 {
      JoinShape(ws[1..]);
      var w, j := ws[0], Join(ws[1..]);
      var s := w + " " + j;
      assert Join(ws) == s;
      assert IsWord(w);
      assert forall i :: 0 <= i < |w| ==> s[i] == w[i];
      assert s[|w|] == ' ';
      assert forall i :: |w| < i < |s| ==> s[i] == j[i - |w| - 1];
    }
  }

  /** `split()` ignores a leading space. */
  lemma SplitLeadingSpace(x: string)
    ensures Split(" " + x) == Split(x)
  {
    assert (" " + x)[1..] == x;
    assert LStrip(" " + x) == LStrip(x);
  }

  /** A word followed by whitespace (or nothing) is the first token. */
  lemma SplitWord(w: string, rest: string)
    requires IsWord(w)
    requires rest == [] || IsSpace(rest[0])
    ensures Split(w + rest) == [w] + Split(rest)
  {
    var s := w + rest;
    assert s[0] == w[0];
    assert LStrip(s) == s;
    WordLenOfWord(w, rest);
    assert s[..|w|] == w && s[|w|..] == rest;
  }

  /** Splitting joined words gives the words back. */
  lemma {:induction false} SplitJoin(ws: seq<string>)
    requires AllWords(ws)
    ensures Split(Join(ws)) == ws
  {
    if |ws| == 1 {
      SplitWord(ws[0], []);
      assert ws[0] + [] == ws[0];
    } else if |ws| > 1 {
      var j := Join(ws[1..]);
      assert Join(ws) == ws[0] + (" " + j);
      SplitWord(ws[0], " " + j);
      SplitLeadingSpace(j);
      SplitJoin(ws[1..]);
      calc {
        Split(Join(ws));
        Split(ws[0] + (" " + j));
        [ws[0]] + Split(" " + j);
        [ws[0]] + Split(j);
        [ws[0]] + ws[1..];
        ws;
      }
    }
  }

  /** Dropping the first character of a word shortens it by one. */
  lemma WordLenTail(s: string)
    requires WordLen(s) > 0
    ensures WordLen(s[1..]) == WordLen(s) - 1
    ensures Collapse(s) == [s[0]] + Collapse(s[1..])
  {
  }

  lemma SliceShift(s: string, n: nat)
    requires 0 < n <= |s|
    ensures s[1..][n - 1..] == s[n..]
    ensures [s[0]] + s[1..][..n - 1] == s[..n]
  {
  }

  /** Collapsing a text that starts with a word copies the word unchanged. */
  lemma {:induction false} CollapseWord(s: string)
    ensures Collapse(s) == s[..WordLen(s)] + Collapse(s[WordLen(s)..])
    decreases |s|
  {
    var n := WordLen(s);
    if n == 0 {
      assert s[..0] == [] && s[0..] == s;
    } else {
      var t := s[1..];
      WordLenTail(s);
      CollapseWord(t);
      SliceShift(s, n);
    }
  }

  lemma LStripCollapse(s: string)
    ensures LStrip(Collapse(s)) == Collapse(LStrip(s))
  {
    if s != [] && IsSpace(s[0]) {
      var c := Collapse(LStrip(s));
      assert (" " + c)[1..] == c;
    }
  }

  /** Trailing whitespace is stripped from the end only, as long as `y` holds a non-space. */
  lemma {:induction false} RStripAppend(x: string, y: string)
    requires y != [] && !IsSpace(y[0])
    ensures RStrip(x + y) == x + RStrip(y)
    decreases |y|
  {
    if IsSpace(y[|y| - 1]) {
      var y' := y[..|y| - 1];
      assert (x + y)[..|x + y| - 1] == x + y';
      RStripAppend(x, y');
    }
  }

  lemma RStripWordSpace(w: string)
    requires IsWord(w)
    ensures RStrip(w + " ") == w
  {
    assert (w + " ")[..|w|] == w;
  }

  lemma CollapseLeadingSpace(r: string)
    requires r != [] && IsSpace(r[0])
    ensures Collapse(r) == " " + Collapse(LStrip(r))
  {
  }

  lemma {:induction false} RStripCollapse(t: string)
    requires t == [] || !IsSpace(t[0])
    ensures RStrip(Collapse(t)) == Join(Split(t))
    decreases |t|
  {
    if t != [] {
      var n := WordLen(t);
      var w, r := t[..n], t[n..];
      assert t == w + r;
      CollapseWord(t);
      SplitWord(w, r);
      if r == [] {
        assert Collapse(t) == w;
      } else {
        var r' := LStrip(r);
        CollapseLeadingSpace(r);
        SplitLStrip(r);
        if r' == [] {
          assert Collapse(t) == w + " ";
          RStripWordSpace(w);
        } else {
          RStripCollapse(r');
          assert Collapse(t) == (w + " ") + Collapse(r');
          RStripAppend(w + " ", Collapse(r'));
          assert Split(r') != [];
        }
      }
    }
  }

  /** Collapsing the whitespace runs and stripping gives the tokens joined by single spaces. */
  lemma StripCollapse(s: string)
    ensures Strip(Collapse(s)) == Join(Split(s))
  {
    LStripCollapse(s);
    RStripCollapse(LStrip(s));
    SplitLStrip(s);
  }

  // ------------------------------------------------------------------
  // Lemmas: capitalisation, filler filter and final punctuation
  // ------------------------------------------------------------------

  /** Capitalising a token keeps it a token and does not change the filler test. */
  lemma CapitalizeWord(w: string)
    requires IsWord(w)
    ensures IsWord(Capitalize(w))
    ensures Keep(Capitalize(w)) == Keep(w)
  {
    CaseMaps(w[0]);
    assert LowerWord(Capitalize(w)) == LowerWord(w);
  }

  lemma CapitalizeFirstWords(ws: seq<string>)
    requires AllWords(ws)
    ensures AllWords(CapitalizeFirst(ws))
    ensures |CapitalizeFirst(ws)| == |ws|
    ensures forall i :: 0 <= i < |ws| ==> Keep(CapitalizeFirst(ws)[i]) == Keep(ws[i])
  {
    if ws != [] {
      CapitalizeWord(ws[0]);
      var cs := CapitalizeFirst(ws);
      assert forall i :: 0 < i < |ws| ==> cs[i] == ws[i];
    }
  }

  /** Capitalising the joined text capitalises the first token. */
  lemma {:induction false} CapitalizeJoin(ws: seq<string>)
    requires AllWords(ws)
    ensures Capitalize(Join(ws)) == Join(CapitalizeFirst(ws))
  {
    var cs := CapitalizeFirst(ws);
    if ws == [] {
      assert cs == [];
    } else if |ws| == 1 {
      assert cs == [Capitalize(ws[0])];
    } else {
      var j := Join(ws[1..]);
      assert Join(cs) == Capitalize(ws[0]) + (" " + j) by {
        assert |cs| == |ws| && cs[0] == Capitalize(ws[0]) && cs[1..] == ws[1..];
      }
      assert Join(ws) == ws[0] + (" " + j);
      assert ws[0] != [];
      CapitalizeAppend(ws[0], " " + j);
    }
  }

  lemma CapitalizeAppend(x: string, y: string)
    requires x != []
    ensures Capitalize(x + y) == Capitalize(x) + y
  {
    assert (x + y)[1..] == x[1..] + y;
  }

  lemma {:induction false} DropPunctDot(x: string)
    ensures DropPunct(x + ".") == DropPunct(x)
  {
    if x == [] {
      assert DropPunct(".") == [] + DropPunct([]);
    } else {
      assert (x + ".")[1..] == x[1..] + ".";
      DropPunctDot(x[1..]);
    }
  }

  /** A trailing '.' does not change the filler test. */
  lemma DotWord(w: string)
    requires IsWord(w)
    ensures IsWord(w + ".")
    ensures Keep(w + ".") == Keep(w)
  {
    assert LowerWord(w + ".") == LowerWord(w) + ".";
    DropPunctDot(LowerWord(w));
  }

  /** The tokens of `Terminate`d text: the last token gets the '.' when one is appended. */
  function TerminateLast(ws: seq<string>): seq<string> {
    if ws == [] || EndsSentence(ws[|ws| - 1]) then ws
    else ws[..|ws| - 1] + [ws[|ws| - 1] + "."]
  }

  lemma {:induction false} JoinAppendDot(ws: seq<string>)
    requires ws != []
    ensures Join(ws[..|ws| - 1] + [ws[|ws| - 1] + "."]) == Join(ws) + "."
  {
    var ws' := ws[..|ws| - 1] + [ws[|ws| - 1] + "."];
    if |ws| == 1 {
      assert ws' == [ws[0] + "."];
    } else {
      var tail := ws[1..];
      assert ws'[1..] == tail[..|tail| - 1] + [tail[|tail| - 1] + "."];
      JoinAppendDot(tail);
      assert Join(ws') == ws[0] + " " + Join(ws'[1..]);
    }
  }

  lemma TerminateJoin(ws: seq<string>)
    requires AllWords(ws)
    ensures Terminate(Join(ws)) == Join(TerminateLast(ws))
  {
    JoinShape(ws);
    if ws != [] && !EndsSentence(ws[|ws| - 1]) {
      JoinAppendDot(ws);
    }
  }

  /** Terminating keeps the tokens tokens, keeps the filler test, and keeps the first character. */
  lemma TerminateLastWords(ws: seq<string>)
    requires AllWords(ws)
    ensures AllWords(TerminateLast(ws))
    ensures |TerminateLast(ws)| == |ws|
    ensures forall i :: 0 <= i < |ws| ==> Keep(TerminateLast(ws)[i]) == Keep(ws[i])
    ensures ws != [] ==> TerminateLast(ws)[0][0] == ws[0][0]
    ensures ws != [] ==> EndsSentence(Join(TerminateLast(ws)))
  {
    if ws != [] {
      var ts := TerminateLast(ws);
      if !EndsSentence(ws[|ws| - 1]) {
        var n := |ws| - 1;
        DotWord(ws[n]);
        assert ts[n] == ws[n] + ".";
        assert forall i :: 0 <= i < n ==> ts[i] == ws[i];
        assert ts[0][0] == ws[0][0] by {
          if n == 0 {
            assert ts[0] == ws[0] + ".";
          }
        }
      }
      assert EndsSentence(Join(ts)) by {
        TerminateJoin(ws);
        JoinShape(ws);
      }
    }
  }

  lemma SingleSpacedTerminate(s: string)
    requires SingleSpaced(s)
    ensures SingleSpaced(Terminate(s))
  {
    if s != [] && !EndsSentence(s) {
      var t := s + ".";
      assert forall i :: 0 <= i < |s| ==> t[i] == s[i];
    }
  }

  /** The filter drops exactly the tokens that fail the test: every kept token comes from the input, every passing input token is kept. */
  lemma {:induction false} KeepWordsMembers(ws: seq<string>)
    ensures forall i :: 0 <= i < |KeepWords(ws)| ==> KeepWords(ws)[i] in ws
    ensures forall i :: 0 <= i < |ws| && Keep(ws[i]) ==> ws[i] in KeepWords(ws)
  {
    if ws != [] {
      var rest := KeepWords(ws[1..]);
      KeepWordsMembers(ws[1..]);
      assert forall i :: 0 < i < |ws| ==> ws[i] == ws[1..][i - 1];
      if Keep(ws[0]) {
        var r := KeepWords(ws);
        assert r == [ws[0]] + rest;
        assert forall i :: 0 < i < |r| ==> r[i] == rest[i - 1];
      }
    }
  }

  /** The filter on a token followed by more tokens. */
  lemma KeepWordsCons(w: string, ws: seq<string>)
    ensures KeepWords([w] + ws) == (if Keep(w) then [w] else []) + KeepWords(ws)
  {
    var v := [w] + ws;
    assert v[0] == w && v[1..] == ws;
  }

  /** The filter works token by token: filtering a concatenation filters each part. */
  lemma {:induction false} KeepWordsAppend(a: seq<string>, b: seq<string>)
    ensures KeepWords(a + b) == KeepWords(a) + KeepWords(b)
  {
    if a == [] {
      assert a + b == b && KeepWords(a) == [];
      assert KeepWords(a) + KeepWords(b) == KeepWords(b);
    } else {
      var head := if Keep(a[0]) then [a[0]] else [];
      var tail := a[1..];
      assert a == [a[0]] + tail;
      assert a + b == [a[0]] + (tail + b);
      KeepWordsCons(a[0], tail);
      KeepWordsCons(a[0], tail + b);
      KeepWordsAppend(tail, b);
      Regroup(head, KeepWords(tail), KeepWords(b));
    }
  }

  lemma Regroup<T>(x: seq<T>, y: seq<T>, z: seq<T>)
    ensures x + (y + z) == (x + y) + z
  {
  }

  /** One token is kept exactly when it passes the test. */
  lemma KeepWordsOne(w: string)
    ensures KeepWords([w]) == if Keep(w) then [w] else []
  {
    assert [w][1..] == [];
  }

  lemma {:induction false} KeepAll(ws: seq<string>)
    requires forall i :: 0 <= i < |ws| ==> Keep(ws[i])
    ensures KeepWords(ws) == ws
  {
    if ws != [] {
      KeepAll(ws[1..]);
      assert [ws[0]] + ws[1..] == ws;
    }
  }

  // ------------------------------------------------------------------
  // Lemmas: what `clean_text` returns
  // ------------------------------------------------------------------

  /** The tokens the filter sees are the input's tokens with the first one capitalised. */
  lemma SentenceWordsOfInput(text: string)
    ensures SentenceWords(text) == CapitalizeFirst(Split(text))
  {
    var ws := Split(text);
    StripCollapse(text);
    JoinShape(ws);
    if ws != [] {
      CapitalizeJoin(ws);
      CapitalizeFirstWords(ws);
      SplitJoin(CapitalizeFirst(ws));
    }
  }

  /** `CleanText` in terms of the input's tokens. */
  lemma CleanTextWords(text: string)
    ensures CleanText(text) == Terminate(Join(KeepWords(CapitalizeFirst(Split(text)))))
  {
    SentenceWordsOfInput(text);
  }

  /**
   * The result is "" exactly when every input token is a filler word or pure
   * punctuation (the empty input included).
   */
  lemma CleanTextEmpty(text: string)
    ensures CleanText(text) == [] <==> forall i :: 0 <= i < |Split(text)| ==> !Keep(Split(text)[i])
  {
    var ws := Split(text);
    var cs := CapitalizeFirst(ws);
    CleanTextWords(text);
    CapitalizeFirstWords(ws);
    var ks := KeepWords(cs);
    JoinShape(ks);
    KeepWordsMembers(cs);
    if ks != [] {
      var k := ks[0];
      assert k in cs && Keep(k);
    }
  }

  /**
   * The result is single-spaced with no outer whitespace, and a non-empty
   * result ends in '.', '!' or '?'.
   */
  lemma CleanTextShape(text: string)
    ensures SingleSpaced(CleanText(text))
    ensures CleanText(text) != [] ==> EndsSentence(CleanText(text))
  {
    var cs := CapitalizeFirst(Split(text));
    CleanTextWords(text);
    CapitalizeFirstWords(Split(text));
    JoinShape(KeepWords(cs));
    SingleSpacedTerminate(Join(KeepWords(cs)));
  }

  /**
   * The output's tokens are the surviving tokens (an order-preserving
   * subsequence of the capitalised input tokens, each unmodified and each
   * passing the filler test), the last one followed by the appended '.'.
   */
  lemma CleanTextTokens(text: string)
    ensures var ks := KeepWords(CapitalizeFirst(Split(text)));
      && Split(CleanText(text)) == TerminateLast(ks)
      && IsSubsequence(ks, CapitalizeFirst(Split(text)))
      && (forall i :: 0 <= i < |ks| ==> Keep(ks[i]))
  {
    var cs := CapitalizeFirst(Split(text));
    var ks := KeepWords(cs);
    CleanTextWords(text);
    CapitalizeFirstWords(Split(text));
    TerminateJoin(ks);
    TerminateLastWords(ks);
    SplitJoin(TerminateLast(ks));
  }

  lemma SplitTwo(a: string, b: string)
    requires IsWord(a) && IsWord(b)
    ensures Split(a + " " + b) == [a, b]
  {
    assert Join([a, b]) == a + " " + b;
    SplitJoin([a, b]);
  }

  lemma SplitOne(a: string)
    requires IsWord(a)
    ensures Split(a) == [a]
  {
    assert Join([a]) == a;
    SplitJoin([a]);
  }

  /** The filler test looks through upper case ... */
  lemma FillerCapitalised()
    ensures !Keep("Ähm")
  {
    assert LowerWord("Ähm") == "ähm";
    assert Bare("Ähm") == "ähm" == FillerWords[0];
  }

  /** A word without punctuation is its own bare form's input: dropping punctuation keeps it. */
  lemma {:induction false} DropPunctNone(w: string)
    requires forall i :: 0 <= i < |w| ==> !IsPunct(w[i])
    ensures DropPunct(w) == w
  {
    if w != [] {
      DropPunctNone(w[1..]);
      assert w == [w[0]] + w[1..];
    }
  }

  /** ... and through the Kelvin sign, which `str.lower` maps to 'k' ... */
  lemma KelvinFiller()
    ensures !Keep("PRA\U{212A}TISCH")
  {
    var w, b := "PRA\U{212A}TISCH", "praktisch";
    assert Bare(w) == b by {
      assert LowerWord(w) == b;
      DropPunctNone(b);
    }
    assert b in FillerWords;
  }

  /** ... and through the capital sharp s, which `str.lower` maps to 'ß'. */
  lemma SharpSFiller()
    ensures !Keep("GEWISSERMA\U{1E9E}EN")
  {
    var w, b := "GEWISSERMA\U{1E9E}EN", "gewissermaßen";
    assert Bare(w) == b by {
      assert LowerWord(w) == b;
      DropPunctNone(b);
    }
    assert b in FillerWords;
  }

  /** No filler word starts with 'd'. */
  lemma NotFiller(w: string)
    requires w != [] && w[0] == 'd'
    ensures w !in FillerWords
  {
    assert forall i :: 0 <= i < |FillerWords| ==> FillerWords[i][0] != 'd';
  }

  /** ... and through punctuation. */
  lemma KeptWords()
    ensures Keep("das") && Keep("Das.")
  {
    var w := "das";
    assert LowerWord("das") == w;
    assert LowerWord("Das.") == w + ".";
    DropPunctDot(w);
    assert Bare("das") == Bare("Das.") == w;
    NotFiller(w);
  }

  lemma CapitalizeExamples()
    ensures Capitalize("ähm") == "Ähm" && Capitalize("das.") == "Das."
  {
    var a, b := "ähm", "das.";
    assert Upper(a[0]) == 'Ä' && Upper(b[0]) == 'D';
    assert [Upper(a[0])] + a[1..] == "Ähm";
    assert [Upper(b[0])] + b[1..] == "Das.";
  }

  /** Two words of which the filter drops the capitalised first one. */
  lemma CleanTextDropsFirst(a: string, b: string)
    requires IsWord(a) && IsWord(b) && !Keep(Capitalize(a)) && Keep(b)
    ensures CleanText(a + " " + b) == Terminate(b)
  {
    SplitTwo(a, b);
    CleanTextWords(a + " " + b);
    assert CapitalizeFirst([a, b]) == [Capitalize(a), b];
    assert KeepWords([Capitalize(a), b]) == [b];
  }

  /** One word that the filter keeps once capitalised. */
  lemma CleanTextKeepsOne(a: string)
    requires IsWord(a) && Keep(Capitalize(a))
    ensures CleanText(a) == Terminate(Capitalize(a))
  {
    SplitOne(a);
    CleanTextWords(a);
    assert CapitalizeFirst([a]) == [Capitalize(a)];
    assert KeepWords([Capitalize(a)]) == [Capitalize(a)];
  }

  lemma ExampleSentence()
    ensures "ähm das" == "ähm" + " " + "das"
  {
  }

  lemma ExampleWords()
    ensures IsWord("ähm") && IsWord("das") && IsWord("das.")
  {
  }

  lemma FirstPassFilter()
    ensures !Keep(Capitalize("ähm")) && Keep("das")
  {
    CapitalizeExamples();
    FillerCapitalised();
    KeptWords();
  }

  lemma SecondPassFilter()
    ensures Keep(Capitalize("das.")) && Capitalize("das.") == "Das."
  {
    CapitalizeExamples();
    FillerCapitalised();
    KeptWords();
  }

  /** As written, a leading filler word takes the capital letter with it ... */
  lemma CleanTextDropsCapital(text: string)
    requires text == "ähm das"
    ensures CleanText(text) == "das."
  {
    var a, b := "ähm", "das";
    ExampleSentence();
    assert Terminate(b) == "das.";
    assert CleanText(a + " " + b) == Terminate(b) by {
      ExampleWords();
      FirstPassFilter();
      CleanTextDropsFirst(a, b);
    }
  }

  /** ... so that a second pass changes the text again. */
  lemma CleanTextNotIdempotent(text: string)
    requires text == "ähm das"
    ensures CleanText(CleanText(text)) == "Das." != CleanText(text)
  {
    CleanTextDropsCapital(text);
    ExampleWords();
    SecondPassFilter();
    CleanTextKeepsOne("das.");
    assert Terminate("Das.") == "Das.";
  }

  // ------------------------------------------------------------------
  // Lemmas: the corrected normaliser
  // ------------------------------------------------------------------

  /** `NormalizeText` in terms of the input's tokens. */
  lemma NormalizeWords(text: string)
    ensures NormalizeText(text) == Terminate(Join(CapitalizeFirst(KeepWords(Split(text)))))
  {
    var ws := Split(text);
    StripCollapse(text);
    SplitJoin(ws);
    CapitalizeJoin(KeepWords(ws));
  }

  /** The corrected normaliser agrees with `clean_text` whenever the first token survives. */
  lemma NormalizeAgreesWhenFirstKept(text: string)
    requires Split(text) == [] || Keep(Split(text)[0])
    ensures NormalizeText(text) == CleanText(text)
  {
    var ws := Split(text);
    NormalizeWords(text);
    CleanTextWords(text);
    if ws != [] {
      CapitalizeWord(ws[0]);
      assert CapitalizeFirst(ws) == [Capitalize(ws[0])] + ws[1..];
      assert ws == [ws[0]] + ws[1..];
    }
  }

  /** The tokens of a normalised text: the survivors, first capitalised, last terminated. */
  function NormalWords(text: string): seq<string> {
    TerminateLast(CapitalizeFirst(KeepWords(Split(text))))
  }

  /** What a second pass needs of a token sequence to leave its join unchanged. */
  predicate Normal(ts: seq<string>) {
    && AllWords(ts)
    && (forall i :: 0 <= i < |ts| ==> Keep(ts[i]))
    && (ts != [] ==> Upper(ts[0][0]) == ts[0][0] && EndsSentence(Join(ts)))
  }

  lemma NormalizeJoin(text: string)
    ensures NormalizeText(text) == Join(NormalWords(text))
    ensures Normal(NormalWords(text))
  {
    var ks := KeepWords(Split(text));
    var cs := CapitalizeFirst(ks);
    CapitalizeFirstWords(ks);
    NormalizeWords(text);
    TerminateJoin(cs);
    TerminateLastWords(cs);
    if ks != [] {
      CaseMaps(ks[0][0]);
    }
  }

  lemma CapitalizeFirstFixed(ts: seq<string>)
    requires ts != [] && ts[0] != [] && Upper(ts[0][0]) == ts[0][0]
    ensures CapitalizeFirst(ts) == ts
  {
    assert Capitalize(ts[0]) == ts[0];
  }

  lemma NormalFixed(ts: seq<string>)
    requires Normal(ts)
    ensures NormalizeText(Join(ts)) == Join(ts)
  {
    var r := Join(ts);
    JoinShape(ts);
    if r != [] {
      NormalizeWords(r);
      SplitJoin(ts);
      KeepAll(ts);
      CapitalizeFirstFixed(ts);
      calc {
        NormalizeText(r);
        Terminate(Join(CapitalizeFirst(KeepWords(ts))));
        Terminate(Join(CapitalizeFirst(ts)));
        Terminate(r);
        r;
      }
    }
  }

  /**
   * The corrected normaliser: the result starts with an upper-case-stable
   * character, keeps the single-spaced shape, and a second pass changes nothing.
   */
  lemma NormalizeIdempotent(text: string)
    ensures var r := NormalizeText(text);
      && NormalizeText(r) == r
      && (r != [] ==> Upper(r[0]) == r[0] && EndsSentence(r))
      && SingleSpaced(r)
  {
    NormalizeJoin(text);
    var ts := NormalWords(text);
    JoinShape(ts);
    NormalFixed(ts);
  }
}
