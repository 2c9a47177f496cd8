/** The few Python `str` and slicing primitives the pipeline depends on:
    `isspace`/`strip`, ASCII `lower`, `splitlines`, `find`/`rfind`,
    `s[:n]`, `s[a:b]` with Python's index normalisation, and `str(n)`. */
module Text {

  /** Python's `str.isspace()` on one character (the Unicode White_Space
      characters plus the four ASCII separators U+001C..U+001F). */
  predicate IsSpace(c: char) {
    || c == ' '
    || ('\t' <= c <= '\r')
    || ('\U{1C}' <= c <= '\U{1F}')
    || c == '\U{85}' || c == '\U{A0}' || c == '\U{1680}'
    || ('\U{2000}' <= c <= '\U{200A}')
    || c == '\U{2028}' || c == '\U{2029}' || c == '\U{202F}'
    || c == '\U{205F}' || c == '\U{3000}'
  }

  /** A string made only of whitespace (the empty string included): exactly
      the strings Python's `s.strip()` turns into the falsy "". */
  predicate IsBlank(s: string) {
    forall i :: 0 <= i < |s| ==> IsSpace(s[i])
  }

  /** The first position at or after `i` that does not hold whitespace, or |s|. */
  function SkipSpaces(s: string, i: nat): (k: nat)
    requires i <= |s|
    ensures i <= k <= |s|
    ensures forall p :: i <= p < k ==> IsSpace(s[p])
    ensures k < |s| ==> !IsSpace(s[k])
    decreases |s| - i
  {
    if i < |s| && IsSpace(s[i]) then SkipSpaces(s, i + 1) else i
  }

  /** The last position at or before `j` preceded by a non-whitespace
      character, or 0. */
  function BackSpaces(s: string, j: nat): (k: nat)
    requires j <= |s|
    ensures k <= j
    ensures forall p :: k <= p < j ==> IsSpace(s[p])
    ensures k > 0 ==> !IsSpace(s[k - 1])
  {
    if j > 0 && IsSpace(s[j - 1]) then BackSpaces(s, j - 1) else j
  }

  /** `s.lstrip()`: drops the leading whitespace. */
  function LStrip(s: string): (r: string)
    ensures |r| <= |s| && r == s[|s| - |r|..]
    ensures r == [] || !IsSpace(r[0])
    ensures IsBlank(s[..|s| - |r|])
    ensures r == [] <==> IsBlank(s)
  {
    var k := SkipSpaces(s, 0);
    assert forall p :: 0 <= p < |s[..k]| ==> s[..k][p] == s[p];
    s[k..]
  }

  /** `s.rstrip()`: drops the trailing whitespace. */
  function RStrip(s: string): (r: string)
    ensures |r| <= |s| && r == s[..|r|]
    ensures r == [] || !IsSpace(r[|r| - 1])
    ensures IsBlank(s[|r|..])
    ensures r == [] <==> IsBlank(s)
  {
    var k := BackSpaces(s, |s|);
    assert forall p :: 0 <= p < |s[k..]| ==> s[k..][p] == s[k + p];
    s[..k]
  }

  /** `s.strip()`; the result is falsy ("") exactly when `s` is blank. */
  function Strip(s: string): (r: string)
    ensures r == [] <==> IsBlank(s)
  {
    RStrip(LStrip(s))
  }

  /** `strip` keeps one contiguous piece of its input, cuts only whitespace
      off either end, and leaves no whitespace at either end. */
  lemma StripIsTrimmedInfix(s: string)
    ensures exists i, j :: 0 <= i <= j <= |s| && Strip(s) == s[i..j]
                           && IsBlank(s[..i]) && IsBlank(s[j..])
    ensures Strip(s) == [] || (!IsSpace(Strip(s)[0]) && !IsSpace(Strip(s)[|Strip(s)| - 1]))
  {
    var l := LStrip(s);
    var r := RStrip(l);
    var i := |s| - |l|;
    var j := i + |r|;
    assert r == s[i..j];
    assert s[j..] == l[|r|..];
    if r != [] {
      assert r[0] == l[0];
    }
  }

  /** `str.lower()` on one character, for the ASCII letters. */
  function LowerChar(c: char): char {
    if 'A' <= c <= 'Z' then (c as int - 'A' as int + 'a' as int) as char else c
  }

  /** `str.lower()` over ASCII: the same length, each upper-case letter
      replaced by its lower-case partner 32 code points up, and every other
      character kept where it was. */
  function Lower(s: string): (r: string)
    ensures |r| == |s|
    ensures forall i :: 0 <= i < |r| ==> !('A' <= r[i] <= 'Z')
    ensures forall i :: 0 <= i < |s| && 'A' <= s[i] <= 'Z' ==> r[i] as int == s[i] as int + 32
    ensures forall i :: 0 <= i < |s| && !('A' <= s[i] <= 'Z') ==> r[i] == s[i]
  {
    if s == [] then [] else [LowerChar(s[0])] + Lower(s[1..])
  }

  /** Lowering twice is lowering once. */
  lemma LowerIdempotent(s: string)
    ensures Lower(Lower(s)) == Lower(s)
  {
    var l := Lower(s);
    assert forall i :: 0 <= i < |l| ==> Lower(l)[i] == l[i];
  }

  /** The line boundaries of Python's `str.splitlines()` ("\r\n" counts as one). */
  predicate IsLineBreak(c: char) {
    || c == '\n' || c == '\r' || c == '\U{0B}' || c == '\U{0C}'
    || ('\U{1C}' <= c <= '\U{1E}')
    || c == '\U{85}' || c == '\U{2028}' || c == '\U{2029}'
  }

  /** Index of the first line boundary in `s`, or |s| when there is none. */
  function FirstBreak(s: string): (k: nat)
    ensures k <= |s|
    ensures k < |s| ==> IsLineBreak(s[k])
    ensures forall i :: 0 <= i < k ==> !IsLineBreak(s[i])
  {
    if s == [] || IsLineBreak(s[0]) then 0 else 1 + FirstBreak(s[1..])
  }

  /** A line terminator of `splitlines`: "\r\n", or one boundary character. */
  predicate IsTerminator(t: string) {
    t == "\r\n" || (|t| == 1 && IsLineBreak(t[0]))
  }

  /** No character of `s` is a line boundary. */
  predicate NoBreak(s: string) {
    forall i :: 0 <= i < |s| ==> !IsLineBreak(s[i])
  }

  /** The first piece of `splitlines(keepends=True)`: the text up to its
      first boundary, then "\r\n" or that one boundary character, then
      what follows; text without a boundary is one line with no terminator
      and nothing after it. */
  function Cut(s: string): (c: (string, string, string))
    ensures c.0 + c.1 + c.2 == s
    ensures NoBreak(c.0)
    ensures IsTerminator(c.1) || (c.1 == "" && c.2 == "")
    ensures c.1 == "\r" ==> c.2 == [] || c.2[0] != '\n'
    ensures s != [] ==> |c.2| < |s|
  {
    var k := FirstBreak(s);
    NoBreakBefore(s, k);
    if k == |s| then
      assert s[..k] == s;
      (s, "", "")
    else
      var w := TerminatorWidth(s, k);
      SplitThree(s, k, k + w);
      TerminatorAt(s, k);
      (s[..k], s[k..k + w], s[k + w..])
  }

  /** `str.splitlines(keepends=True)`, each line paired with its terminator:
      the first piece `Cut` finds, then the pieces of what follows it. */
  function LineEnds(s: string): (ps: seq<(string, string)>)
    ensures ps == [] <==> s == []
    decreases |s|
  {
    if s == [] then []
    else
      var c := Cut(s);
      [(c.0, c.1)] + LineEnds(c.2)
  }

  /** No line holds a boundary, every terminator is "\r\n" or one boundary
      character except that the last line may have none, no piece is empty,
      a "\r" is never split from a "\n" right after it, and the first piece
      is where the text starts. */
  lemma {:induction false} LineEndsShape(s: string)
    ensures var ps := LineEnds(s);
      && (forall n :: 0 <= n < |ps| ==> NoBreak(ps[n].0))
      && (forall n :: 0 <= n < |ps| ==> IsTerminator(ps[n].1) || (n == |ps| - 1 && ps[n].1 == ""))
      && (forall n :: 0 <= n < |ps| ==> ps[n].0 + ps[n].1 != "")
      && (forall n :: 0 <= n < |ps| - 1 && ps[n].1 == "\r" ==> ps[n + 1] != ("", "\n"))
      && (ps != [] ==> ps[0].0 + ps[0].1 <= s)
    decreases |s|
  {
    if s != [] {
      var c := Cut(s);
      LineEndsShape(c.2);
      LineEndsCons(s, LineEnds(c.2));
    }
  }

  /** The properties `LineEndsShape` states of the pieces `ps` of the text `s`. */
  predicate Pieces(ps: seq<(string, string)>, s: string) {
    && (ps == [] <==> s == [])
    && (forall n :: 0 <= n < |ps| ==> NoBreak(ps[n].0))
    && (forall n :: 0 <= n < |ps| ==> IsTerminator(ps[n].1) || (n == |ps| - 1 && ps[n].1 == ""))
    && (forall n :: 0 <= n < |ps| ==> ps[n].0 + ps[n].1 != "")
    && (forall n :: 0 <= n < |ps| - 1 && ps[n].1 == "\r" ==> ps[n + 1] != ("", "\n"))
    && (ps != [] ==> ps[0].0 + ps[0].1 <= s)
  }

  /** Putting the first piece in front keeps the properties of the pieces
      of the rest. */
  lemma LineEndsCons(s: string, rest: seq<(string, string)>)
    requires s != [] && Pieces(rest, Cut(s).2)
    ensures Pieces([(Cut(s).0, Cut(s).1)] + rest, s)
  {
    var c := Cut(s);
    var ps := [(c.0, c.1)] + rest;
    assert c.0 + c.1 <= s by {
      assert s == (c.0 + c.1) + c.2;
    }
    if rest != [] && rest[0] == ("", "\n") {
      assert "\n" <= c.2;
      assert c.2[0] == '\n';
    }
    forall n | 0 <= n < |ps|
      ensures NoBreak(ps[n].0)
      ensures IsTerminator(ps[n].1) || (n == |ps| - 1 && ps[n].1 == "")
      ensures ps[n].0 + ps[n].1 != ""
    {
      if n > 0 {
        assert ps[n] == rest[n - 1];
      } else if c.1 == "" {
        assert c.0 == s;
      }
    }
    forall n | 0 <= n < |ps| - 1 && ps[n].1 == "\r"
      ensures ps[n + 1] != ("", "\n")
    {
      if n > 0 {
        assert ps[n] == rest[n - 1] && ps[n + 1] == rest[n];
      }
    }
  }

  /** The width of the terminator at a boundary `k`: 2 for "\r\n", else 1. */
  function TerminatorWidth(s: string, k: nat): (w: nat)
    requires k < |s|
    ensures 1 <= w <= 2 && k + w <= |s|
  {
    if s[k] == '\r' && k + 1 < |s| && s[k + 1] == '\n' then 2 else 1
  }

  /** The pieces of `LineEnds`, each line followed by its terminator. */
  function JoinPieces(ps: seq<(string, string)>): string {
    if ps == [] then [] else ps[0].0 + ps[0].1 + JoinPieces(ps[1..])
  }

  /** `str.splitlines()`: the lines of `LineEnds` without their terminators,
      so no line holds a boundary and "" has no lines. */
  function SplitLines(s: string): (lines: seq<string>)
    ensures |lines| == |LineEnds(s)|
    ensures forall n :: 0 <= n < |lines| ==> lines[n] == LineEnds(s)[n].0
    ensures forall n, i :: 0 <= n < |lines| && 0 <= i < |lines[n]| ==> !IsLineBreak(lines[n][i])
    ensures lines == [] <==> s == []
  {
    var ps := LineEnds(s);
    LineEndsShape(s);
    seq(|ps|, n requires 0 <= n < |ps| => ps[n].0)
  }

  /** `splitlines` loses nothing but the terminators: the lines, each
      followed by the terminator `LineEnds` gives it, rebuild the text, for
      every line boundary Python knows and with "\r\n" as one. */
  lemma {:induction false} SplitLinesRoundTrip(s: string)
    ensures JoinPieces(LineEnds(s)) == s
    decreases |s|
  {
    if s != [] {
      var c := Cut(s);
      SplitLinesRoundTrip(c.2);
      JoinPiecesCons((c.0, c.1), LineEnds(c.2));
    }
  }

  /** "\r\n" ends one line. */
  lemma SplitLinesCrLf()
    ensures SplitLines("a\r\nb") == ["a", "b"]
  {
    var s := "a\r\nb";
    assert s[1..] == "\r\nb" && s[3..] == "b";
    assert !IsLineBreak('a') && IsLineBreak('\r') && !IsLineBreak('b');
    assert FirstBreak("b"[1..]) == 0;
    assert FirstBreak("b") == 1;
    assert Cut("b") == ("b", "", "");
    assert LineEnds("b") == [("b", "")];
    assert FirstBreak(s) == 1;
    assert TerminatorWidth(s, 1) == 2;
    assert s[..1] == "a" && s[1..3] == "\r\n";
    assert Cut(s) == ("a", "\r\n", "b");
    var ps := LineEnds(s);
    assert ps == [("a", "\r\n"), ("b", "")];
    var lines := SplitLines(s);
    assert |lines| == 2 && lines[0] == "a" && lines[1] == "b";
  }

  /** The text before the first boundary holds none. */
  lemma NoBreakBefore(s: string, k: nat)
    requires k == FirstBreak(s)
    ensures NoBreak(s[..k])
  {
  }

  /** The terminator at a boundary is "\r\n" or that one character. */
  lemma TerminatorAt(s: string, k: nat)
    requires k < |s| && IsLineBreak(s[k])
    ensures IsTerminator(s[k..k + TerminatorWidth(s, k)])
    ensures s[k..k + TerminatorWidth(s, k)] == "\r" ==> k + 1 == |s| || s[k + 1] != '\n'
  {
    if TerminatorWidth(s, k) == 2 {
      assert s[k..k + 2] == [s[k], s[k + 1]];
    } else {
      assert s[k..k + 1] == [s[k]];
    }
  }

  lemma SplitThree(s: string, i: nat, j: nat)
    requires i <= j <= |s|
    ensures s == s[..i] + s[i..j] + s[j..]
  {
    assert s[..j] == s[..i] + s[i..j];
  }

  lemma JoinPiecesCons(p: (string, string), ps: seq<(string, string)>)
    ensures JoinPieces([p] + ps) == p.0 + p.1 + JoinPieces(ps)
  {
    assert ([p] + ps)[1..] == ps;
  }

  /** Python's `s[:n]` for n >= 0. */
  function Prefix(s: string, n: nat): (r: string)
    ensures r <= s && |r| == if n < |s| then n else |s|
  {
    if n < |s| then s[..n] else s
  }

  /** How Python normalises one slice bound against a length: a negative
      bound counts from the end, then it is clamped into [0, n]. */
  function SliceIndex(i: int, n: nat): (k: nat)
    ensures k <= n
    ensures 0 <= i <= n ==> k == i
    ensures i > n ==> k == n
    ensures i < 0 ==> k == if i + n < 0 then 0 else i + n
  {
    if i < 0 then (if i + n < 0 then 0 else i + n)
    else if i > n then n
    else i
  }

  /** Python's `s[lo:hi]`: always a contiguous piece of `s`, empty when the
      normalised bounds cross. */
  function Slice<T>(s: seq<T>, lo: int, hi: int): (r: seq<T>)
    ensures var a, b := SliceIndex(lo, |s|), SliceIndex(hi, |s|);
            r == if a < b then s[a..b] else []
  {
    var a, b := SliceIndex(lo, |s|), SliceIndex(hi, |s|);
    if a < b then s[a..b] else []
  }

  /** `s.find(c)`: the first index holding `c`, or -1. */
  function Find(s: string, c: char): (r: int)
    ensures r == -1 <==> c !in s
    ensures r != -1 ==> 0 <= r < |s| && s[r] == c && c !in s[..r]
  {
    if s == [] then -1
    else if s[0] == c then 0
    else
      var k := Find(s[1..], c);
      assert s[1..][..if k == -1 then 0 else k] == s[1..1 + if k == -1 then 0 else k];
      if k == -1 then -1 else k + 1
  }

  /** `s.rfind(c)`: the last index holding `c`, or -1. */
  function RFind(s: string, c: char): (r: int)
    ensures r == -1 <==> c !in s
    ensures r != -1 ==> 0 <= r < |s| && s[r] == c && c !in s[r + 1..]
  {
    if s == [] then -1
    else if s[|s| - 1] == c then |s| - 1
    else
      var k := RFind(s[..|s| - 1], c);
      assert s == s[..|s| - 1] + [s[|s| - 1]];
      k
  }

  function DigitChar(d: nat): char
    requires d < 10
  {
    ('0' as int + d) as char
  }

  /** Python's `str(n)` for n >= 0: decimal digits, no leading zero. */
  function NatToString(n: nat): (r: string)
    ensures |r| > 0 && forall i :: 0 <= i < |r| ==> '0' <= r[i] <= '9'
    ensures r[0] == '0' ==> n == 0
    decreases n
  {
    if n < 10 then [DigitChar(n)] else NatToString(n / 10) + [DigitChar(n % 10)]
  }

  /** The number a string of decimal digits denotes (Python's `int(s)`). */
  function DecimalValue(s: string): nat
    requires forall i :: 0 <= i < |s| ==> '0' <= s[i] <= '9'
  {
    if s == [] then 0 else 10 * DecimalValue(s[..|s| - 1]) + (s[|s| - 1] as int - '0' as int)
  }

  /** `int(str(n)) == n`; so `str` never gives two numbers the same text. */
  lemma {:induction false} NatToStringRoundTrip(n: nat)
    ensures DecimalValue(NatToString(n)) == n
    decreases n
  {
    if n >= 10 {
      NatToStringRoundTrip(n / 10);
      var r := NatToString(n);
      assert r[..|r| - 1] == NatToString(n / 10);
    }
  }

  lemma NatToStringInjective(m: nat, n: nat)
    ensures NatToString(m) == NatToString(n) ==> m == n
  {
    NatToStringRoundTrip(m);
    NatToStringRoundTrip(n);
  }
}
