/**
 * String helpers the converter relies on from Python: `str.strip()` with no
 * argument (applied to every line the converter prints) and the decimal
 * rendering `f"{n}"` of a non-negative integer (used for the bitrates).
 */
module Text {
  import opened Seqs

  /** Python's `str.isspace` for one character: the characters that
      `str.strip()` with no argument removes. */
  predicate IsSpace(c: char)
  {
    || ('\U{0009}' <= c <= '\U{000D}')
    || ('\U{001C}' <= c <= '\U{0020}')
    || c == '\U{0085}' || c == '\U{00A0}' || c == '\U{1680}'
    || ('\U{2000}' <= c <= '\U{200A}')
    || c == '\U{2028}' || c == '\U{2029}' || c == '\U{202F}'
    || c == '\U{205F}' || c == '\U{3000}'
  }

  predicate AllSpace(s: string)
  {
    forall j :: 0 <= j < |s| ==> IsSpace(s[j])
  }

  /** Length of the longest all-space prefix of `s`. */
  function LeadingSpace(s: string): (k: nat)
    ensures k <= |s|
    ensures AllSpace(s[..k])
    ensures k < |s| ==> !IsSpace(s[k])
  {
    if s == [] || !IsSpace(s[0]) then 0
    else
      var k := 1 + LeadingSpace(s[1..]);
      assert s[..k] == [s[0]] + s[1..][..k - 1];
      k
  }

  /** Length of the longest all-space suffix of `s`. */
  function TrailingSpace(s: string): (k: nat)
    ensures k <= |s|
    ensures AllSpace(s[|s| - k..])
    ensures k < |s| ==> !IsSpace(s[|s| - 1 - k])
  {
    if s == [] || !IsSpace(s[|s| - 1]) then 0
    else
      var t := s[..|s| - 1];
      var k := 1 + TrailingSpace(t);
      assert s[|s| - k..] == t[|t| - (k - 1)..] + [s[|s| - 1]];
      k
  }

  /** `s.strip()`: `s` without its leading and trailing white space. */
  function Strip(s: string): (r: string)
  {
    var t := s[LeadingSpace(s)..];
    t[..|t| - TrailingSpace(t)]
  }

  /** What `strip` promises: `s` is some white space, then `r`, then some
      white space, and `r` neither begins nor ends with white space. These
      facts determine `r` uniquely. */
  lemma StripSpec(s: string)
    ensures var r := Strip(s);
      && (r == [] || (!IsSpace(r[0]) && !IsSpace(r[|r| - 1])))
      && exists a :: 0 <= a <= |s| - |r| && s[a..a + |r|] == r
                     && AllSpace(s[..a]) && AllSpace(s[a + |r|..])
  {
    var a := LeadingSpace(s);
    var t := s[a..];
    var b := TrailingSpace(t);
    var r := Strip(s);
    assert r == s[a..a + |r|];
    assert s[a + |r|..] == t[|t| - b..];
    if r != [] {
      assert r[0] == s[a];
      assert r[|r| - 1] == t[|t| - 1 - b];
    }
  }

  /** Stripping twice removes nothing more. */
  lemma StripIdempotent(s: string)
    ensures Strip(Strip(s)) == Strip(s)
  {
    StripSpec(s);
    var r := Strip(s);
    if r != [] {
      assert LeadingSpace(r) == 0;
      assert TrailingSpace(r) == 0;
      assert r[0..] == r;
      assert r[..|r|] == r;
    }
  }

  /** A string that neither begins nor ends with white space is its own
      `strip()`. */
  lemma StripUnchanged(s: string)
    requires s != [] && !IsSpace(s[0]) && !IsSpace(s[|s| - 1])
    ensures Strip(s) == s
  {
    assert s[0..] == s;
    assert s[..|s|] == s;
  }

  /** Stripping `s + " "`, where `s` is non-empty and neither begins nor ends
      with white space, gives `s`. */
  lemma StripBlankEnd(s: string)
    requires s != [] && !IsSpace(s[0]) && !IsSpace(s[|s| - 1])
    ensures Strip(s + " ") == s
  {
    var t := s + " ";
    assert t[0..] == t;
    assert t[..|t| - 1] == s;
    assert TrailingSpace(t) == 1;
  }

  /** `" ".join(words)`: the words with one space between neighbours. */
  function JoinWords(words: seq<string>): string
  {
    if words == [] then ""
    else if |words| == 1 then words[0]
    else JoinWords(words[..|words| - 1]) + " " + words[|words| - 1]
  }

  /** `s.split(" ")`: the pieces between single spaces, at least one. */
  function SplitWords(s: string): (r: seq<string>)
    ensures |r| >= 1
  {
    if s == [] then [""]
    else
      var init := SplitWords(s[..|s| - 1]);
      var c := s[|s| - 1];
      if c == ' ' then init + [""]
      else init[..|init| - 1] + [init[|init| - 1] + [c]]
  }

  /** Appending characters other than a space extends the last piece. */
  lemma {:induction false} SplitWordsAppend(p: string, w: string)
    requires ' ' !in w
    ensures var r := SplitWords(p);
            SplitWords(p + w) == r[..|r| - 1] + [r[|r| - 1] + w]
  {
    var r := SplitWords(p);
    var last := r[|r| - 1];
    if w == [] {
      AppendEmpty(p);
      AppendEmpty(last);
      SplitLast(r);
    } else {
      var v := w[..|w| - 1];
      var c := w[|w| - 1];
      SplitLast(w);
      assert ' ' !in v by {
        assert forall x :: x in v ==> x in w;
      }
      assert c != ' ' by {
        assert c in w;
      }
      SplitWordsAppend(p, v);
      var q := SplitWords(p + v);
      AppendLast(r[..|r| - 1], last + v);
      AppendAssoc(p, v, [c]);
      AppendLast(p + v, c);
      AppendAssoc(last, v, [c]);
      assert SplitWords(p + w) == q[..|q| - 1] + [q[|q| - 1] + [c]];
    }
  }

  lemma SplitWordsSpace(a: string)
    ensures SplitWords(a + " ") == SplitWords(a) + [""]
  {
    AppendLast(a, ' ');
  }

  lemma SplitJoinStep(init: seq<string>, w: string)
    requires |init| >= 1 && ' ' !in w
    requires SplitWords(JoinWords(init)) == init
    ensures SplitWords(JoinWords(init + [w])) == init + [w]
  {
    var words := init + [w];
    AppendLast(init, w);
    var a := JoinWords(init);
    assert JoinWords(words) == (a + " ") + w;
    SplitWordsSpace(a);
    SplitWordsAppend(a + " ", w);
    AppendLast(init, "");
    AppendEmpty(w);
  }

  /** Splitting a line joined from words without spaces gives the words back. */
  lemma {:induction false} SplitJoinWords(words: seq<string>)
    requires |words| >= 1
    requires forall j :: 0 <= j < |words| ==> ' ' !in words[j]
    ensures SplitWords(JoinWords(words)) == words
  {
    var w := words[|words| - 1];
    if |words| == 1 {
      SplitWordsAppend("", w);
      AppendEmpty(w);
      SplitLast(words);
    } else {
      var init := words[..|words| - 1];
      SplitJoinWords(init);
      SplitJoinStep(init, w);
      SplitLast(words);
    }
  }

  predicate IsDigit(c: char)
  {
    '0' <= c <= '9'
  }

  /** A canonical decimal numeral: non-empty, digits only, no leading zero
      unless it is "0" itself. */
  predicate IsCanonicalDecimal(s: string)
  {
    && |s| >= 1
    && (forall j :: 0 <= j < |s| ==> IsDigit(s[j]))
    && (|s| > 1 ==> s[0] != '0')
  }

  function DigitChar(d: nat): (c: char)
    requires d < 10
    ensures IsDigit(c)
  {
    ('0' as int + d) as char
  }

  function DigitValue(c: char): (d: nat)
    requires IsDigit(c)
    ensures d < 10 && DigitChar(d) == c
  {
    (c as int - '0' as int) as nat
  }

  /** Python's `f"{n}"` for a non-negative integer. */
  function Decimal(n: nat): (s: string)
    ensures IsCanonicalDecimal(s)
  {
    if n < 10 then [DigitChar(n)]
    else
      var s := Decimal(n / 10) + [DigitChar(n % 10)];
      assert s[0] == Decimal(n / 10)[0];
      s
  }

  /** The value of a string of decimal digits (0 for the empty string). */
  function ParseDecimal(s: string): nat
    requires forall j :: 0 <= j < |s| ==> IsDigit(s[j])
  {
    if s == [] then 0
    else ParseDecimal(s[..|s| - 1]) * 10 + DigitValue(s[|s| - 1])
  }

  /** Reading a rendered number back gives the number. */
  lemma {:induction false} ParseDecimalOfDecimal(n: nat)
    ensures ParseDecimal(Decimal(n)) == n
  {
    var s := Decimal(n);
    if n >= 10 {
      assert s[..|s| - 1] == Decimal(n / 10);
      ParseDecimalOfDecimal(n / 10);
    }
  }

  /** A numeral of two or more digits without a leading zero is at least 10. */
  lemma {:induction false} ParseDecimalAtLeastTen(s: string)
    requires IsCanonicalDecimal(s) && |s| >= 2
    ensures ParseDecimal(s) >= 10
  {
    var p := s[..|s| - 1];
    if |p| >= 2 {
      ParseDecimalAtLeastTen(p);
    } else {
      assert p == [s[0]];
      assert ParseDecimal(p[..0]) == 0;
      assert DigitValue(s[0]) >= 1;
    }
  }

  /** Rendering a parsed canonical numeral gives the numeral back: together
      with ParseDecimalOfDecimal, Decimal is a bijection between the naturals
      and the canonical numerals. */
  lemma {:induction false} DecimalOfParseDecimal(s: string)
    requires IsCanonicalDecimal(s)
    ensures Decimal(ParseDecimal(s)) == s
  {
    var n := ParseDecimal(s);
    if |s| == 1 {
      assert s[..0] == [];
    } else {
      var p := s[..|s| - 1];
      assert IsCanonicalDecimal(p);
      ParseDecimalAtLeastTen(s);
      DecimalOfParseDecimal(p);
      assert n / 10 == ParseDecimal(p);
      assert n % 10 == DigitValue(s[|s| - 1]);
      assert s == p + [s[|s| - 1]];
    }
  }
}
