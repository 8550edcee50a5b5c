/** Decoding of object keys as they arrive in storage notifications:
    `urllib.parse.unquote_plus`, which is the application/x-www-form-urlencoded
    reading of section 5.1 of the WHATWG URL Standard (`+` is a space, then
    the percent-decoding of section 2.1 of RFC 3986), together with its
    encoder `quote_plus` for ASCII text. */
module UrlDecode {
  import opened Text

  predicate IsHexDigit(c: char)
  {
    IsDigit(c) || 'a' <= c <= 'f' || 'A' <= c <= 'F'
  }

  function HexValue(c: char): (v: nat)
    requires IsHexDigit(c)
    ensures v < 16
  {
    if IsDigit(c) then c as int - 48
    else if 'a' <= c <= 'f' then c as int - 87
    else c as int - 55
  }

  /** The upper-case hexadecimal digit for `v`, as `quote` writes it. */
  function HexDigit(v: nat): (c: char)
    requires v < 16
    ensures IsHexDigit(c) && HexValue(c) == v
  {
    if v < 10 then (48 + v) as char else (55 + v) as char
  }

  /** `%` followed by two hexadecimal digits. A `%` without them is kept as
      it is, as Python does. */
  predicate StartsWithEscape(s: string)
  {
    |s| >= 3 && s[0] == '%' && IsHexDigit(s[1]) && IsHexDigit(s[2])
  }

  /** `urllib.parse.unquote`: each escape becomes the character whose code is
      the escaped octet, everything else is copied. */
  function Unquote(s: string): (r: string)
    ensures |r| <= |s|
    ensures '%' !in s ==> r == s
    decreases |s|
  {
    if s == [] then []
    else if StartsWithEscape(s) then
      [(16 * HexValue(s[1]) + HexValue(s[2])) as char] + Unquote(s[3..])
    else
      [s[0]] + Unquote(s[1..])
  }

  /** `urllib.parse.unquote_plus`: every `+` becomes a space first, then the
      escapes are decoded, so `%2B` still yields a `+`. */
  function UnquotePlus(s: string): (r: string)
    ensures |r| <= |s|
    ensures '%' !in s ==> r == ReplaceChar(s, '+', ' ')
    ensures '%' !in s && '+' !in s ==> r == s
  {
    var t := ReplaceChar(s, '+', ' ');
    assert '%' !in s ==> '%' !in t;
    Unquote(t)
  }

  /** Characters `quote` never escapes. */
  predicate IsUnreserved(c: char)
  {
    IsAsciiUpper(c) || IsAsciiLower(c) || IsDigit(c) || c == '_' || c == '.' || c == '-' || c == '~'
  }

  predicate AllAscii(s: string)
  {
    forall i :: 0 <= i < |s| ==> IsAscii(s[i])
  }

  /** How `quote_plus` writes one ASCII character. */
  function QuoteChar(c: char): string
    requires IsAscii(c)
  {
    if c == ' ' then "+"
    else if IsUnreserved(c) then [c]
    else ['%', HexDigit(c as int / 16), HexDigit(c as int % 16)]
  }

  /** `urllib.parse.quote_plus` on ASCII text: the encoder whose output
      `UnquotePlus` must undo. */
  function QuotePlus(s: string): (r: string)
    requires AllAscii(s)
    ensures ' ' !in r
    decreases |s|
  {
    if s == [] then [] else QuoteChar(s[0]) + QuotePlus(s[1..])
  }

  lemma UnquoteQuotedChar(c: char, t: string)
    requires IsAscii(c)
    ensures Unquote(ReplaceChar(QuoteChar(c), '+', ' ') + t) == [c] + Unquote(t)
  {
    var e := ReplaceChar(QuoteChar(c), '+', ' ');
    if c == ' ' {
      assert e == " ";
      assert (e + t)[1..] == t;
    } else if IsUnreserved(c) {
      assert e == [c];
      assert (e + t)[1..] == t;
    } else {
      var hi, lo := HexDigit(c as int / 16), HexDigit(c as int % 16);
      assert e == ['%', hi, lo];
      assert StartsWithEscape(e + t);
      assert (e + t)[3..] == t;
      assert (16 * HexValue(hi) + HexValue(lo)) as char == c;
    }
  }

  /** Decoding what `quote_plus` encoded gives the original ASCII text back. */
  lemma {:induction false} UnquotePlusQuotePlus(s: string)
    requires AllAscii(s)
    ensures UnquotePlus(QuotePlus(s)) == s
    decreases |s|
  {
    if s != [] {
      var e := QuoteChar(s[0]);
      var rest := QuotePlus(s[1..]);
      assert QuotePlus(s) == e + rest;
      ReplaceCharConcat(e, rest, '+', ' ');
      UnquoteQuotedChar(s[0], ReplaceChar(rest, '+', ' '));
      UnquotePlusQuotePlus(s[1..]);
    }
  }

  /** Text without a `%` is copied through unchanged in front of the rest. */
  lemma {:induction false} UnquotePlain(a: string, b: string)
    requires '%' !in a
    ensures Unquote(a + b) == a + Unquote(b)
    decreases |a|
  {
    if a != [] {
      assert (a + b)[0] == a[0] != '%';
      assert (a + b)[1..] == a[1..] + b;
      assert '%' !in a[1..];
      UnquotePlain(a[1..], b);
      assert a == [a[0]] + a[1..];
    } else {
      assert a + b == b;
    }
  }

  lemma UnquoteEscape(x: string, b: string)
    requires |x| == 3 && StartsWithEscape(x)
    ensures Unquote(x + b) == [(16 * HexValue(x[1]) + HexValue(x[2])) as char] + Unquote(b)
  {
    assert StartsWithEscape(x + b);
    assert (x + b)[3..] == b;
  }

  lemma SpaceEscape()
    ensures |"%20"| == 3 && StartsWithEscape("%20")
    ensures (16 * HexValue("%20"[1]) + HexValue("%20"[2])) as char == ' '
    ensures ReplaceChar("%20", '+', ' ') == "%20"
  {
  }

  /** Both `+` and `%20` decode to a space: in a key `a%20b` whose first part
      holds no escape, `a` has its pluses turned into spaces, `%20` becomes a
      space and `b` is decoded on its own. */
  lemma DecodeSpaces(a: string, b: string)
    requires '%' !in a
    ensures UnquotePlus(a + "%20" + b) == ReplaceChar(a, '+', ' ') + " " + UnquotePlus(b)
  {
    var e := "%20";
    SpaceEscape();
    var a', b' := ReplaceChar(a, '+', ' '), ReplaceChar(b, '+', ' ');
    calc {
      UnquotePlus(a + e + b);
      Unquote(ReplaceChar(a + e + b, '+', ' '));
      { ReplaceCharConcat(a + e, b, '+', ' '); ReplaceCharConcat(a, e, '+', ' '); }
      Unquote(a' + e + b');
      { assert a' + e + b' == a' + (e + b'); assert '%' !in a'; UnquotePlain(a', e + b'); }
      a' + Unquote(e + b');
      { UnquoteEscape(e, b'); }
      a' + " " + Unquote(b');
    }
  }
}
