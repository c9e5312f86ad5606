/** The string operations the source relies on: `str.lower()`, the `in`
    substring test, `str.split()` with no separator, and the decimal
    rendering of integers in f-strings. */
module Text {

  /** ASCII case folding; Python's `str.lower` also folds non-ASCII letters. */
  function LowerChar(c: char): char
  {
    if 'A' <= c <= 'Z' then (c as int + 32) as char else c
  }

  function Lower(s: string): (r: string)
    ensures |r| == |s|
    ensures forall i :: 0 <= i < |s| ==> r[i] == LowerChar(s[i])
  {
    if s == [] then [] else [LowerChar(s[0])] + Lower(s[1..])
  }

  /** Python's `sub in s`. */
  predicate Contains(s: string, sub: string)
  {
    exists i | 0 <= i <= |s| - |sub| :: OccursAt(s, sub, i)
  }

  predicate OccursAt(s: string, sub: string, i: int)
  {
    0 <= i <= |s| - |sub| && s[i..i + |sub|] == sub
  }

  /** The empty string is contained in every string. */
  lemma ContainsEmpty(s: string)
    ensures Contains(s, "")
  {
    assert OccursAt(s, "", 0);
  }

  /** Every string containing "airport" contains "port". */
  lemma AirportContainsPort(s: string)
    requires Contains(s, "airport")
    ensures Contains(s, "port")
  {
    var i :| 0 <= i <= |s| - 7 && OccursAt(s, "airport", i);
    assert s[i + 3..i + 7] == s[i..i + 7][3..7] == "port";
    assert OccursAt(s, "port", i + 3);
  }

  /** The characters `str.split()` treats as separators (the ASCII and
      Latin-1 part of Python's whitespace class). */
  predicate IsSpace(c: char)
  {
    c == ' ' || '\t' <= c <= '\r' || '\U{1C}' <= c <= '\U{1F}' || c == '\U{85}' || c == '\U{A0}'
  }

  predicate AllSpace(s: string)
  {
    forall i :: 0 <= i < |s| ==> IsSpace(s[i])
  }

  /** Length of the run of non-separator characters at the head of `s`. */
  function WordLength(s: string): (n: nat)
    ensures n <= |s|
    ensures forall i :: 0 <= i < n ==> !IsSpace(s[i])
    ensures n < |s| ==> IsSpace(s[n])
  {
    if s == [] || IsSpace(s[0]) then 0 else 1 + WordLength(s[1..])
  }

  /** A non-empty run of non-separators. */
  predicate IsWord(w: string)
  {
    w != [] && forall i :: 0 <= i < |w| ==> !IsSpace(w[i])
  }

  /** Python's `s.split()`: the maximal runs of non-separators, in order.
      `WordsCollapse` ties them to the text. */
  function Words(s: string): (ws: seq<string>)
    ensures forall k :: 0 <= k < |ws| ==> IsWord(ws[k])
    decreases |s|
  {
    if s == [] then []
    else if IsSpace(s[0]) then Words(s[1..])
    else
      var n := WordLength(s);
      [s[..n]] + Words(s[n..])
  }

  /** The words joined by single spaces, as `" ".join(ws)`. */
  function JoinWords(ws: seq<string>): string
  {
    if ws == [] then [] else if |ws| == 1 then ws[0] else ws[0] + " " + JoinWords(ws[1..])
  }

  /** The text with leading and trailing separators dropped and every
      inner run of separators replaced by one space, read character by
      character: `started` says a non-separator has been kept, `pending`
      that separators followed it. */
  function Squeeze(s: string, started: bool, pending: bool): string
  {
    if s == [] then []
    else if IsSpace(s[0]) then Squeeze(s[1..], started, started)
    else (if pending then " " else "") + [s[0]] + Squeeze(s[1..], true, false)
  }

  function Collapse(s: string): string
  {
    Squeeze(s, false, false)
  }

  /** `" ".join(s.split())` is `s` with its separator runs collapsed: the
      words are the whole of the text between separators, nothing lost,
      nothing split inside a word. */
  lemma {:induction false} WordsCollapse(s: string)
    ensures JoinWords(Words(s)) == Collapse(s)
    decreases |s|
  {
    if s != [] {
      if IsSpace(s[0]) {
        WordsCollapse(s[1..]);
      } else {
        InWord(s);
        FirstWord(s);
      }
    }
  }

  /** The text a word-separated tail adds after an earlier word. */
  function SpacedWords(ws: seq<string>): string
  {
    if ws == [] then [] else " " + JoinWords(ws)
  }

  /** A text starting inside a word: that word, then the rest spaced. */
  lemma FirstWord(s: string)
    requires s != [] && !IsSpace(s[0])
    ensures Words(s) != []
    ensures JoinWords(Words(s)) == s[..WordLength(s)] + SpacedWords(Words(s[WordLength(s)..]))
  {
    var n := WordLength(s);
    var ws := Words(s[n..]);
    assert Words(s) == [s[..n]] + ws;
    assert ([s[..n]] + ws)[1..] == ws;
  }

  /** A word after a separator is the same text with one space before it. */
  lemma ResumeWord(s: string)
    requires s != [] && !IsSpace(s[0])
    ensures Squeeze(s, true, true) == " " + Squeeze(s, true, false)
  {
    var rest := Squeeze(s[1..], true, false);
    assert Squeeze(s, true, true) == " " + [s[0]] + rest;
    assert Squeeze(s, true, false) == [s[0]] + rest;
  }

  /** One character into a word: the word loses its first character and
      what follows it stays the same. */
  lemma WordTail(s: string)
    requires s != [] && !IsSpace(s[0])
    ensures WordLength(s) == 1 + WordLength(s[1..])
    ensures s[1..][WordLength(s[1..])..] == s[WordLength(s)..]
    ensures s[..WordLength(s)] == [s[0]] + s[1..][..WordLength(s[1..])]
  {
    var m := WordLength(s[1..]);
    assert WordLength(s) == 1 + m;
    assert s[1..][m..] == s[1 + m..];
  }

  /** Inside a word: the rest of the word is kept as it is, then the words
      after it follow with a space each. */
  lemma {:induction false} InWord(s: string)
    ensures Squeeze(s, true, false) == s[..WordLength(s)] + SpacedWords(Words(s[WordLength(s)..]))
    decreases |s|, 0
  {
    if s != [] {
      if IsSpace(s[0]) {
        AfterWord(s[1..]);
        assert WordLength(s) == 0 && s[..0] == [] && s[0..] == s;
      } else {
        InWord(s[1..]);
        var m := WordLength(s[1..]);
        WordTail(s);
        var w, t := s[1..][..m], SpacedWords(Words(s[1..][m..]));
        assert Squeeze(s, true, false) == [s[0]] + (w + t);
        assert [s[0]] + (w + t) == ([s[0]] + w) + t;
      }
    }
  }

  /** After a word and a separator: the words that follow, each with one
      space before it. */
  lemma {:induction false} AfterWord(s: string)
    ensures Squeeze(s, true, true) == SpacedWords(Words(s))
    decreases |s|, 1
  {
    if s != [] {
      if IsSpace(s[0]) {
        AfterWord(s[1..]);
      } else {
        InWord(s);
        FirstWord(s);
        ResumeWord(s);
      }
    }
  }

  /** A string splits into no words exactly when it is all separators. */
  lemma {:induction false} WordsEmpty(s: string)
    ensures Words(s) == [] <==> AllSpace(s)
    decreases |s|
  {
    if s != [] {
      if IsSpace(s[0]) {
        WordsEmpty(s[1..]);
        assert AllSpace(s) <==> AllSpace(s[1..]) by {
          if AllSpace(s[1..]) {
            forall i | 0 < i < |s| ensures IsSpace(s[i]) { assert s[i] == s[1..][i - 1]; }
          }
        }
      } else {
        assert !AllSpace(s);
      }
    }
  }

  function DigitChar(d: nat): char
    requires d < 10
  {
    "0123456789"[d]
  }

  predicate IsDigit(c: char)
  {
    '0' <= c <= '9'
  }

  /** Decimal rendering of a natural number, as `str(n)` or `f"{n}"`. */
  function NatToString(n: nat): (s: string)
    ensures |s| > 0
    ensures forall i :: 0 <= i < |s| ==> IsDigit(s[i])
    ensures |s| > 1 ==> s[0] != '0'
  {
    if n < 10 then [DigitChar(n)] else NatToString(n / 10) + [DigitChar(n % 10)]
  }

  /** Value of a string of decimal digits (the reading `int(s)` performs). */
  function DecimalValue(s: string): nat
    requires forall i :: 0 <= i < |s| ==> IsDigit(s[i])
  {
    if s == [] then 0
    else
      assert IsDigit(s[|s| - 1]);
      10 * DecimalValue(s[..|s| - 1]) + (s[|s| - 1] as int - '0' as int)
  }

  /** Reading back the rendering gives the number. */
  lemma {:induction false} NatToStringRoundTrip(n: nat)
    ensures DecimalValue(NatToString(n)) == n
  {
    var s := NatToString(n);
    if n >= 10 {
      NatToStringRoundTrip(n / 10);
      assert s[..|s| - 1] == NatToString(n / 10);
    }
  }

  /** `str(i)` for any Python int: a minus sign before negative numbers. */
  function IntToString(i: int): (s: string)
    ensures |s| > 0
    ensures (s[0] == '-') <==> i < 0
  {
    if i < 0 then "-" + NatToString(-i) else NatToString(i)
  }
}
