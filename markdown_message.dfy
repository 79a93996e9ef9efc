/** The text normalisation `MarkdownMessage` applies before rendering
    (app/components/chat/markdown-message.tsx): CR-LF pairs become LF, then
    the two-character escape backslash-`n` becomes LF. Each `replace` is one
    left-to-right pass with a global regular expression: matches are leftmost,
    do not overlap, and the text a replacement produces is not scanned again. */
module MarkdownMessage {

  const CR := '\r'
  const LF := '\n'
  const Backslash := '\\'

  /** `s.replace(/ab/g, c)` for a two-character pattern `ab`. */
  function ReplacePair(s: string, a: char, b: char, c: char): (r: string)
    decreases |s|
  {
    if |s| >= 2 && s[0] == a && s[1] == b then [c] + ReplacePair(s[2..], a, b, c)
    else if s == [] then []
    else [s[0]] + ReplacePair(s[1..], a, b, c)
  }

  /** A pass never lengthens the text: each match of two characters becomes
      one, and every other character is kept. */
  lemma {:induction false} ReplacePairNotLonger(s: string, a: char, b: char, c: char)
    ensures |ReplacePair(s, a, b, c)| <= |s|
    decreases |s|
  {
    if |s| >= 2 && s[0] == a && s[1] == b {
      ReplacePairNotLonger(s[2..], a, b, c);
    } else if s != [] {
      ReplacePairNotLonger(s[1..], a, b, c);
    }
  }

  /** The text holds `a` immediately followed by `b` somewhere. */
  predicate HasPair(s: string, a: char, b: char)
  {
    exists i :: 0 <= i < |s| - 1 && s[i] == a && s[i + 1] == b
  }

  /** The `normalized` memo: the empty text stays empty; otherwise CR-LF is
      replaced first and the escaped newline second. */
  function Normalize(content: string): string
  {
    if content == "" then ""
    else ReplacePair(ReplacePair(content, CR, LF, LF), Backslash, 'n', LF)
  }

  // ---------------------------------------------------------------------------
  // One replacement pass

  /** A pass shortens the text exactly when the pattern occurs, and otherwise
      returns it unchanged. */
  lemma {:induction false} ReplacePairChanges(s: string, a: char, b: char, c: char)
    ensures HasPair(s, a, b) ==> |ReplacePair(s, a, b, c)| < |s|
    ensures !HasPair(s, a, b) ==> ReplacePair(s, a, b, c) == s
    decreases |s|
  {
    if |s| >= 2 && s[0] == a && s[1] == b {
      // the pattern is present, and the first step already shortens the text
      ReplacePairNotLonger(s[2..], a, b, c);
    } else if s != [] {
      var t := s[1..];
      ReplacePairChanges(t, a, b, c);
      if HasPair(s, a, b) {
        var i :| 0 <= i < |s| - 1 && s[i] == a && s[i + 1] == b;
        assert i > 0;
        assert t[i - 1] == a && t[i] == b;
      } else {
        assert s == [s[0]] + t;
      }
    }
  }

  /** A pass over a concatenation is the concatenation of the passes, unless
      a match straddles the seam. */
  lemma {:induction false} ReplacePairAppend(x: string, y: string, a: char, b: char, c: char)
    requires !(x != [] && x[|x| - 1] == a && y != [] && y[0] == b)
    ensures ReplacePair(x + y, a, b, c) == ReplacePair(x, a, b, c) + ReplacePair(y, a, b, c)
    decreases |x|
  {
    if x == [] {
      assert x + y == y;
    } else if |x| >= 2 && x[0] == a && x[1] == b {
      var t := x[2..];
      assert x == [a, b] + t;
      ReplacePairAppend(t, y, a, b, c);
      AppendAfterMatch(t, y, a, b, c);
    } else {
      var t := x[1..];
      assert x == [x[0]] + t;
      ReplacePairAppend(t, y, a, b, c);
      AppendAfterKept(x[0], t, y, a, b, c);
    }
  }

  /** The inductive step of `ReplacePairAppend` for a text that starts with a
      match. */
  lemma {:induction false} AppendAfterMatch(t: string, y: string, a: char, b: char, c: char)
    requires ReplacePair(t + y, a, b, c) == ReplacePair(t, a, b, c) + ReplacePair(y, a, b, c)
    ensures ReplacePair([a, b] + t + y, a, b, c) == ReplacePair([a, b] + t, a, b, c) + ReplacePair(y, a, b, c)
  {
    assert [a, b] + t + y == [a, b] + (t + y);
    ReplaceMatch(t, a, b, c);
    ReplaceMatch(t + y, a, b, c);
  }

  /** The inductive step of `ReplacePairAppend` for a text whose first
      character does not start a match. */
  lemma {:induction false} AppendAfterKept(first: char, t: string, y: string, a: char, b: char, c: char)
    requires !(first == a && |t| >= 1 && t[0] == b)
    requires !(t == [] && first == a && y != [] && y[0] == b)
    requires ReplacePair(t + y, a, b, c) == ReplacePair(t, a, b, c) + ReplacePair(y, a, b, c)
    ensures ReplacePair([first] + t + y, a, b, c) == ReplacePair([first] + t, a, b, c) + ReplacePair(y, a, b, c)
  {
    assert [first] + t + y == [first] + (t + y);
    if t != [] {
      assert (t + y)[0] == t[0];
    } else {
      assert t + y == y;
    }
    ReplaceNoMatch(first, t, a, b, c);
    ReplaceNoMatch(first, t + y, a, b, c);
  }

  /** A match at the front becomes `c`. */
  lemma {:induction false} ReplaceMatch(t: string, a: char, b: char, c: char)
    ensures ReplacePair([a, b] + t, a, b, c) == [c] + ReplacePair(t, a, b, c)
  {
    assert ([a, b] + t)[2..] == t;
  }

  /** A first character that does not start a match is kept. */
  lemma {:induction false} ReplaceNoMatch(first: char, t: string, a: char, b: char, c: char)
    requires !(first == a && t != [] && t[0] == b)
    ensures ReplacePair([first] + t, a, b, c) == [first] + ReplacePair(t, a, b, c)
  {
    assert ([first] + t)[1..] == t;
  }

  /** With `a` different from `b`, every occurrence of the pattern becomes `c`
      and the text on each side is processed on its own. */
  lemma {:induction false} ReplacePairAt(x: string, y: string, a: char, b: char, c: char)
    requires a != b
    ensures ReplacePair(x + [a, b] + y, a, b, c)
         == ReplacePair(x, a, b, c) + [c] + ReplacePair(y, a, b, c)
  {
    assert x + [a, b] + y == x + ([a, b] + y);
    ReplacePairAppend(x, [a, b] + y, a, b, c);
    assert ([a, b] + y)[2..] == y;
  }

  // ---------------------------------------------------------------------------
  // The normalisation

  lemma {:induction false} NormalizeEmpty()
    ensures Normalize("") == ""
  {
  }

  /** The output is never longer than the input; it is strictly shorter exactly
      when the input holds CR-LF or backslash-`n`, and otherwise it is the input. */
  lemma {:induction false} NormalizeLength(s: string)
    ensures |Normalize(s)| <= |s|
    ensures |Normalize(s)| < |s| <==> HasPair(s, CR, LF) || HasPair(s, Backslash, 'n')
    ensures Normalize(s) == s <==> !HasPair(s, CR, LF) && !HasPair(s, Backslash, 'n')
  {
    if s != "" {
      var once := ReplacePair(s, CR, LF, LF);
      ReplacePairChanges(s, CR, LF, LF);
      ReplacePairChanges(once, Backslash, 'n', LF);
    }
  }

  /** The empty-text guard changes nothing: both passes leave "" alone. */
  lemma {:induction false} NormalizeIsTwoPasses(s: string)
    ensures Normalize(s) == ReplacePair(ReplacePair(s, CR, LF, LF), Backslash, 'n', LF)
  {
  }

  /** Every CR-LF pair becomes one LF; the text before and after it is
      normalised as if it stood alone. */
  lemma {:induction false} NormalizeCrLf(x: string, y: string)
    ensures Normalize(x + "\r\n" + y) == Normalize(x) + "\n" + Normalize(y)
  {
    var x1, y1 := ReplacePair(x, CR, LF, LF), ReplacePair(y, CR, LF, LF);
    var s := x + "\r\n" + y;
    assert s == x + [CR, LF] + y;
    ReplacePairAt(x, y, CR, LF, LF);
    var s1 := ReplacePair(s, CR, LF, LF);
    assert s1 == x1 + ([LF] + y1);
    ReplacePairAppend(x1, [LF] + y1, Backslash, 'n', LF);
    ReplaceNoMatch(LF, y1, Backslash, 'n', LF);
    NormalizeIsTwoPasses(s);
    NormalizeIsTwoPasses(x);
    NormalizeIsTwoPasses(y);
  }

  /** Every backslash-`n` becomes one LF; the text before and after it is
      normalised as if it stood alone. */
  lemma {:induction false} NormalizeEscapedNewline(x: string, y: string)
    ensures Normalize(x + "\\n" + y) == Normalize(x) + "\n" + Normalize(y)
  {
    var x1, y1 := ReplacePair(x, CR, LF, LF), ReplacePair(y, CR, LF, LF);
    var s := x + "\\n" + y;
    var tail := [Backslash] + (['n'] + y);
    assert s == x + tail;
    ReplacePairAppend(x, tail, CR, LF, LF);
    ReplaceNoMatch('n', y, CR, LF, LF);
    ReplaceNoMatch(Backslash, ['n'] + y, CR, LF, LF);
    var s1 := ReplacePair(s, CR, LF, LF);
    assert s1 == x1 + ([Backslash] + (['n'] + y1));
    assert s1 == x1 + [Backslash, 'n'] + y1;
    ReplacePairAt(x1, y1, Backslash, 'n', LF);
    NormalizeIsTwoPasses(s);
    NormalizeIsTwoPasses(x);
    NormalizeIsTwoPasses(y);
  }

  /** A CR in front of an escaped newline comes out as CR-LF: the output may
      hold CR-LF, and normalising twice differs from normalising once. */
  lemma {:induction false} NormalizeMayYieldCrLf()
    ensures Normalize("\r\\n") == "\r\n"
    ensures Normalize(Normalize("\r\\n")) == "\n"
  {
    var s := "\r\\n";
    assert s == [CR] + ([Backslash] + ['n']);
    assert ReplacePair(['n'], CR, LF, LF) == ['n'];
    assert ReplacePair([Backslash] + ['n'], CR, LF, LF) == [Backslash] + ['n'];
    assert ReplacePair(s, CR, LF, LF) == s;
    assert ReplacePair([Backslash, 'n'], Backslash, 'n', LF) == [LF];
    assert ReplacePair(s, Backslash, 'n', LF) == [CR, LF];
    assert ReplacePair([CR, LF], CR, LF, LF) == [LF];
    assert ReplacePair([LF], Backslash, 'n', LF) == [LF];
  }
}
