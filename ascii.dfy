/**
 * ASCII text primitives used throughout the matching services: the
 * character classes of Python's str methods (restricted to ASCII),
 * lower-casing, strip(), split() with no separator, and str.join().
 */
module Ascii {

  predicate IsUpper(c: char) { 'A' <= c <= 'Z' }
  predicate IsLower(c: char) { 'a' <= c <= 'z' }
  predicate IsDigit(c: char) { '0' <= c <= '9' }
  predicate IsAlnum(c: char) { IsUpper(c) || IsLower(c) || IsDigit(c) }

  /** Python's str.isspace() on ASCII: tab to carriage return, the four
      information separators 0x1C-0x1F, and the space itself. */
  predicate IsSpace(c: char) {
    c == ' ' || '\t' <= c <= '\r' || '\U{1C}' <= c <= '\U{1F}'
  }

  /** Lower-case ASCII letters and digits: the alphabet of normalised tokens. */
  predicate IsTokenChar(c: char) { IsLower(c) || IsDigit(c) }

  predicate AllAlnum(s: string) { forall i :: 0 <= i < |s| ==> IsAlnum(s[i]) }
  predicate AllTokenChars(s: string) { forall i :: 0 <= i < |s| ==> IsTokenChar(s[i]) }
  predicate NoSpace(s: string) { forall i :: 0 <= i < |s| ==> !IsSpace(s[i]) }

  function LowerChar(c: char): (d: char)
    ensures !IsUpper(d)
    ensures IsUpper(c) ==> IsLower(d)
    ensures !IsUpper(c) ==> d == c
  {
    if IsUpper(c) then (c as int + 32) as char else c
  }

  /** str.lower() restricted to ASCII. */
  function Lower(s: string): (r: string)
    ensures |r| == |s|
    ensures forall i :: 0 <= i < |s| ==> r[i] == LowerChar(s[i])
  {
    seq(|s|, i requires 0 <= i < |s| => LowerChar(s[i]))
  }

  /** Lower-casing leaves a string without upper-case letters unchanged. */
  lemma LowerKeeps(s: string)
    requires forall i :: 0 <= i < |s| ==> !IsUpper(s[i])
    ensures Lower(s) == s
  {
  }

  predicate StartsWith(s: string, p: string) { |p| <= |s| && s[..|p|] == p }
  predicate EndsWith(s: string, p: string) { |p| <= |s| && s[|s| - |p|..] == p }

  /** Python's `t in s` for strings. */
  predicate Contains(s: string, t: string)
    decreases |s|
  {
    StartsWith(s, t) || (s != [] && Contains(s[1..], t))
  }

  function TrimLeft(s: string): (r: string)
    ensures |r| <= |s| && r == s[|s| - |r|..]
    ensures r == [] || !IsSpace(r[0])
  {
    if s != [] && IsSpace(s[0]) then TrimLeft(s[1..]) else s
  }

  function TrimRight(s: string): (r: string)
    ensures |r| <= |s| && r == s[..|r|]
    ensures r == [] || !IsSpace(r[|r| - 1])
  {
    if s != [] && IsSpace(s[|s| - 1]) then TrimRight(s[..|s| - 1]) else s
  }

  /** str.strip() with no argument. */
  function Strip(s: string): (r: string)
    ensures Stripped(r)
  {
    TrimRight(TrimLeft(s))
  }

  /** Neither end of s is whitespace. */
  predicate Stripped(s: string) {
    s == [] || (!IsSpace(s[0]) && !IsSpace(s[|s| - 1]))
  }

  /** strip() leaves a stripped string unchanged. */
  lemma StripKeeps(s: string)
    requires Stripped(s)
    ensures Strip(s) == s
  {
  }

  /** What TrimLeft removes is whitespace. */
  lemma {:induction false} TrimLeftSpace(s: string)
    ensures forall k :: 0 <= k < |s| - |TrimLeft(s)| ==> IsSpace(s[k])
  {
    if s != [] && IsSpace(s[0]) {
      TrimLeftSpace(s[1..]);
      assert forall k :: 1 <= k < |s| ==> s[k] == s[1..][k - 1];
    }
  }

  /** What TrimRight removes is whitespace. */
  lemma {:induction false} TrimRightSpace(s: string)
    ensures forall k :: |TrimRight(s)| <= k < |s| ==> IsSpace(s[k])
  {
    if s != [] && IsSpace(s[|s| - 1]) {
      TrimRightSpace(s[..|s| - 1]);
      assert forall k :: 0 <= k < |s| - 1 ==> s[k] == s[..|s| - 1][k];
    }
  }

  /** strip() keeps one contiguous slice of s and removes only whitespace,
      on both sides of it; together with Stripped, the slice is the longest
      one whose ends are not whitespace. */
  lemma StripSpec(s: string)
    ensures var a := |s| - |TrimLeft(s)|; var r := Strip(s);
            && a + |r| <= |s|
            && r == s[a..a + |r|]
            && (forall k :: 0 <= k < a ==> IsSpace(s[k]))
            && (forall k :: a + |r| <= k < |s| ==> IsSpace(s[k]))
  {
    var t := TrimLeft(s);
    var a := |s| - |t|;
    var r := Strip(s);
    TrimLeftSpace(s);
    TrimRightSpace(t);
    assert t == s[a..];
    assert r == t[..|r|];
    forall k | a + |r| <= k < |s| ensures IsSpace(s[k]) {
      assert s[k] == t[k - a];
    }
  }

  /** The longest prefix of s without whitespace. */
  function WordPrefix(s: string): (w: string)
    ensures |w| <= |s| && w == s[..|w|]
    ensures NoSpace(w)
    ensures |w| == |s| || IsSpace(s[|w|])
  {
    if s == [] || IsSpace(s[0]) then [] else [s[0]] + WordPrefix(s[1..])
  }

  /** str.split() with no separator: the maximal runs of non-whitespace. */
  function Words(s: string): (ws: seq<string>)
    ensures forall k :: 0 <= k < |ws| ==> ws[k] != [] && NoSpace(ws[k])
    decreases |s|
  {
    var t := TrimLeft(s);
    if t == [] then []
    else
      var w := WordPrefix(t);
      assert !IsSpace(t[0]) && w == [t[0]] + WordPrefix(t[1..]);
      var rest := t[|w|..];
      assert |rest| < |s|;
      var ws := Words(rest);
      assert forall k :: 0 < k <= |ws| ==> ([w] + ws)[k] == ws[k - 1];
      [w] + ws
  }

  /** Every character is whitespace or a token character. */
  predicate TokenText(s: string) {
    forall i :: 0 <= i < |s| ==> IsSpace(s[i]) || IsTokenChar(s[i])
  }

  /** The first word and the text after it, when s has a word. */
  lemma WordsUnfold(s: string)
    requires TrimLeft(s) != []
    ensures var t := TrimLeft(s); var w := WordPrefix(t);
      Words(s) == [w] + Words(t[|w|..])
  {
  }

  lemma TokenTextSlice(s: string, i: nat, j: nat)
    requires TokenText(s) && i <= j <= |s|
    ensures TokenText(s[i..j])
  {
    assert forall k :: 0 <= k < j - i ==> s[i..j][k] == s[i + k];
  }

  /** The first word of a token text is a token, and the text after it is
      again a token text. */
  lemma FirstWordTokens(s: string)
    requires TokenText(s) && TrimLeft(s) != []
    ensures var t := TrimLeft(s); var w := WordPrefix(t);
      AllTokenChars(w) && TokenText(t[|w|..])
  {
    var t := TrimLeft(s);
    var w := WordPrefix(t);
    TokenTextSlice(s, |s| - |t|, |s|);
    TokenTextSlice(t, |w|, |t|);
    TokenTextSlice(t, 0, |w|);
    assert t[0..|w|] == w;
    forall i | 0 <= i < |w| ensures IsTokenChar(w[i]) {
      assert IsSpace(w[i]) || IsTokenChar(w[i]);
    }
  }

  /** All the words of ws are tokens, and so is w. */
  predicate AllTokens(ws: seq<string>) {
    forall k :: 0 <= k < |ws| ==> AllTokenChars(ws[k])
  }

  lemma AllTokensCons(w: string, ws: seq<string>)
    requires AllTokenChars(w) && AllTokens(ws)
    ensures AllTokens([w] + ws)
  {
    assert forall k :: 0 < k <= |ws| ==> ([w] + ws)[k] == ws[k - 1];
  }

  /** When every non-whitespace character of s is a token character, so is
      every character of every word. */
  lemma {:induction false} WordsOfTokenText(s: string)
    requires TokenText(s)
    ensures AllTokens(Words(s))
    decreases |s|
  {
    var t := TrimLeft(s);
    if t != [] {
      var w := WordPrefix(t);
      var rest := t[|w|..];
      FirstWordTokens(s);
      WordsOfTokenText(rest);
      AllTokensCons(w, Words(rest));
      WordsUnfold(s);
    } else {
      assert Words(s) == [];
    }
  }

  /** A non-empty string without whitespace is a single word. */
  lemma {:induction false} WordsOfWord(s: string)
    requires s != [] && NoSpace(s)
    ensures Words(s) == [s]
  {
    WordPrefixOfWord(s);
    assert s[|s|..] == [];
  }

  lemma {:induction false} WordPrefixOfWord(s: string)
    requires NoSpace(s)
    ensures WordPrefix(s) == s
  {
    if s != [] {
      WordPrefixOfWord(s[1..]);
    }
  }

  /** A word followed by whitespace or by nothing is the first word. */
  lemma WordsCons(a: string, rest: string)
    requires a != [] && NoSpace(a) && (rest == [] || IsSpace(rest[0]))
    ensures Words(a + rest) == [a] + Words(rest)
  {
    var s := a + rest;
    assert s[0] == a[0];
    assert TrimLeft(s) == s;
    WordPrefixUpTo(a, rest);
    assert s[|a|..] == rest;
  }

  lemma WordsFirst(a: string, b: string)
    requires a != [] && NoSpace(a)
    ensures Words(a + " " + b) == [a] + Words(" " + b)
  {
    assert a + " " + b == a + (" " + b);
    WordsCons(a, " " + b);
  }

  lemma WordsAfterSpace(b: string)
    requires b != [] && !IsSpace(b[0])
    ensures Words(" " + b) == Words(b)
  {
    assert (" " + b)[1..] == b;
    assert TrimLeft(" " + b) == b;
  }

  lemma {:induction false} WordPrefixUpTo(a: string, t: string)
    requires NoSpace(a) && (t == [] || IsSpace(t[0]))
    ensures WordPrefix(a + t) == a
  {
    if a == [] {
      assert a + t == t;
    } else {
      assert (a + t)[0] == a[0];
      assert (a + t)[1..] == a[1..] + t;
      WordPrefixUpTo(a[1..], t);
    }
  }


  /** str.join(parts) with separator sep. */
  function Join(sep: string, parts: seq<string>): string
    decreases |parts|
  {
    if |parts| == 0 then ""
    else if |parts| == 1 then parts[0]
    else parts[0] + sep + Join(sep, parts[1..])
  }

  /** Words joined by a space start with the first word. */
  lemma JoinHead(ws: seq<string>)
    requires |ws| >= 1 && ws[0] != []
    ensures Join(" ", ws) != [] && Join(" ", ws)[0] == ws[0][0]
  {
    if |ws| > 1 {
      assert (ws[0] + " " + Join(" ", ws[1..]))[0] == ws[0][0];
    }
  }

  /** A word, a space and a text that starts with a word split into that
      word and the words of the text. */
  lemma WordsSpaceWord(a: string, tail: string)
    requires a != [] && NoSpace(a) && tail != [] && !IsSpace(tail[0])
    ensures Words(a + " " + tail) == [a] + Words(tail)
  {
    WordsFirst(a, tail);
    WordsAfterSpace(tail);
  }

  /** split() undoes " ".join() on non-empty words without whitespace. */
  lemma {:induction false} WordsJoin(ws: seq<string>)
    requires forall k :: 0 <= k < |ws| ==> ws[k] != [] && NoSpace(ws[k])
    ensures Words(Join(" ", ws)) == ws
    decreases |ws|
  {
    if |ws| == 0 {
      assert Join(" ", ws) == [];
    } else if |ws| == 1 {
      WordsOfWord(ws[0]);
    } else {
      var rest := ws[1..];
      assert ws == [ws[0]] + rest;
      assert forall k :: 0 <= k < |rest| ==> rest[k] == ws[k + 1];
      WordsJoin(rest);
      JoinHead(rest);
      WordsSpaceWord(ws[0], Join(" ", rest));
    }
  }

  /** The characters of s that are not whitespace, in order. */
  function NonSpaceChars(s: string): (r: string)
    ensures NoSpace(r)
  {
    if s == [] then []
    else if IsSpace(s[0]) then NonSpaceChars(s[1..])
    else [s[0]] + NonSpaceChars(s[1..])
  }

  /** The concatenation of the strings of ws. */
  function Concat(ws: seq<string>): string {
    if ws == [] then [] else ws[0] + Concat(ws[1..])
  }

  lemma {:induction false} NonSpaceCharsAppend(a: string, b: string)
    ensures NonSpaceChars(a + b) == NonSpaceChars(a) + NonSpaceChars(b)
  {
    if a == [] {
      assert a + b == b;
    } else {
      var ab := a + b;
      assert ab[0] == a[0];
      assert ab[1..] == a[1..] + b;
      NonSpaceCharsAppend(a[1..], b);
      if IsSpace(a[0]) {
        assert NonSpaceChars(ab) == NonSpaceChars(a[1..] + b);
      } else {
        assert NonSpaceChars(ab) == [a[0]] + NonSpaceChars(a[1..] + b);
        assert NonSpaceChars(a) == [a[0]] + NonSpaceChars(a[1..]);
      }
    }
  }

  lemma {:induction false} NonSpaceCharsOfSpaces(s: string)
    requires forall k :: 0 <= k < |s| ==> IsSpace(s[k])
    ensures NonSpaceChars(s) == []
  {
    if s != [] {
      NonSpaceCharsOfSpaces(s[1..]);
    }
  }

  lemma {:induction false} NonSpaceCharsOfWord(s: string)
    requires NoSpace(s)
    ensures NonSpaceChars(s) == s
  {
    if s != [] {
      NonSpaceCharsOfWord(s[1..]);
    }
  }

  /** Leading whitespace holds no character that is not whitespace. */
  lemma NonSpaceCharsTrimLeft(s: string)
    ensures NonSpaceChars(s) == NonSpaceChars(TrimLeft(s))
  {
    var t := TrimLeft(s);
    var a := |s| - |t|;
    TrimLeftSpace(s);
    assert s == s[..a] + t;
    NonSpaceCharsAppend(s[..a], t);
    NonSpaceCharsOfSpaces(s[..a]);
  }

  /** The non-whitespace characters of a text are its first word's, then the rest's. */
  lemma NonSpaceCharsFirstWord(t: string)
    ensures var w := WordPrefix(t); NonSpaceChars(t) == w + NonSpaceChars(t[|w|..])
  {
    var w := WordPrefix(t);
    assert t == w + t[|w|..];
    NonSpaceCharsAppend(w, t[|w|..]);
    NonSpaceCharsOfWord(w);
  }

  /** split() loses no character but whitespace: its words, put back
      together, are exactly the non-whitespace characters of s. */
  lemma {:induction false} WordsConcat(s: string)
    ensures Concat(Words(s)) == NonSpaceChars(s)
    decreases |s|
  {
    var t := TrimLeft(s);
    NonSpaceCharsTrimLeft(s);
    if t == [] {
      assert Words(s) == [];
    } else {
      var w := WordPrefix(t);
      var rest := t[|w|..];
      assert w != [];
      NonSpaceCharsFirstWord(t);
      WordsConcat(rest);
      WordsUnfold(s);
      assert ([w] + Words(rest))[1..] == Words(rest);
    }
  }

  /** Lower-case alphanumeric tokens joined by single spaces, with no
      leading, trailing or doubled space. */
  predicate SingleSpaced(r: string) {
    && (forall i :: 0 <= i < |r| ==> IsTokenChar(r[i]) || r[i] == ' ')
    && (r == [] || (r[0] != ' ' && r[|r| - 1] != ' '))
    && (forall i :: 0 <= i < |r| - 1 ==> r[i] != ' ' || r[i + 1] != ' ')
  }

  lemma {:induction false} JoinTokensSingleSpaced(ws: seq<string>)
    requires forall k :: 0 <= k < |ws| ==> ws[k] != [] && AllTokenChars(ws[k])
    ensures SingleSpaced(Join(" ", ws))
    decreases |ws|
  {
    if |ws| > 1 {
      JoinTokensSingleSpaced(ws[1..]);
      var tail := Join(" ", ws[1..]);
      var r := ws[0] + " " + tail;
      assert Join(" ", ws) == r;
      forall i | 0 <= i < |r| - 1 ensures r[i] != ' ' || r[i + 1] != ' ' {
        if i < |ws[0]| {
          assert r[i] == ws[0][i];
        } else if i > |ws[0]| {
          assert r[i] == tail[i - |ws[0]| - 1];
          assert r[i + 1] == tail[i - |ws[0]|];
        } else {
          assert r[i + 1] == tail[0];
        }
      }
      forall i | 0 <= i < |r| ensures IsTokenChar(r[i]) || r[i] == ' ' {
        if i < |ws[0]| {
          assert r[i] == ws[0][i];
        } else if i > |ws[0]| {
          assert r[i] == tail[i - |ws[0]| - 1];
        }
      }
    }
  }

  function DigitChar(d: nat): (c: char)
    requires d < 10
    ensures IsDigit(c)
  {
    ('0' as int + d) as char
  }

  /** str(n) for a natural number: its decimal digits. */
  function NatToString(n: nat): (r: string)
    ensures r != [] && forall i :: 0 <= i < |r| ==> IsDigit(r[i])
  {
    if n < 10 then [DigitChar(n)] else NatToString(n / 10) + [DigitChar(n % 10)]
  }

  /** int(s) for a string of decimal digits. */
  function DecimalValue(s: string): nat
    requires forall i :: 0 <= i < |s| ==> IsDigit(s[i])
  {
    if s == [] then 0
    else
      assert IsDigit(s[|s| - 1]);
      DecimalValue(s[..|s| - 1]) * 10 + (s[|s| - 1] as int - '0' as int)
  }

  /** str(n) reads back as n and has no leading zero, so distinct numbers
      have distinct texts. */
  lemma {:induction false} NatToStringValue(n: nat)
    ensures DecimalValue(NatToString(n)) == n
    ensures |NatToString(n)| == 1 || NatToString(n)[0] != '0'
  {
    if n >= 10 {
      var p := NatToString(n / 10);
      var r := NatToString(n);
      NatToStringValue(n / 10);
      assert r == p + [DigitChar(n % 10)];
      assert r[..|r| - 1] == p;
      assert r[0] == p[0];
      if n / 10 >= 10 {
        assert |p| >= 2;
      }
    }
  }
}
