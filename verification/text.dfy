/**
 * The string operations the two screens apply to what the user types or to
 * what is stored: JavaScript's `trim`, `replace` with a one-character
 * pattern, and `parseInt(_, 10)`.
 */
module Text {

  import opened Options

  /** The characters ECMAScript's `trim` and `parseInt` skip: WhiteSpace
      (tab, vertical tab, form feed, BOM, and the Zs space separators) and
      LineTerminator (LF, CR, LS, PS). */
  predicate IsWhitespace(c: char) {
    || '\t' <= c <= '\r'               // tab, LF, vertical tab, form feed, CR
    || c == ' ' || c == '\U{00A0}' || c == '\U{1680}'
    || '\U{2000}' <= c <= '\U{200A}'   // en quad .. hair space
    || c == '\U{2028}' || c == '\U{2029}' // line and paragraph separators
    || c == '\U{202F}' || c == '\U{205F}' || c == '\U{3000}' || c == '\U{FEFF}'
  }

  /** Drops the longest all-whitespace prefix. */
  function TrimStart(s: string): (r: string)
    ensures |r| <= |s| && r == s[|s| - |r|..]
    ensures forall i :: 0 <= i < |s| - |r| ==> IsWhitespace(s[i])
    ensures r != [] ==> !IsWhitespace(r[0])
  {
    if s != [] && IsWhitespace(s[0]) then TrimStart(s[1..]) else s
  }

  /** Drops the longest all-whitespace suffix. */
  function TrimEnd(s: string): (r: string)
    ensures |r| <= |s| && r == s[..|r|]
    ensures forall i :: |r| <= i < |s| ==> IsWhitespace(s[i])
    ensures r != [] ==> !IsWhitespace(r[|r| - 1])
  {
    if s != [] && IsWhitespace(s[|s| - 1]) then TrimEnd(s[..|s| - 1]) else s
  }

  /** `s.trim()` */
  function Trim(s: string): string {
    TrimEnd(TrimStart(s))
  }

  /** `s.trim() === ''`, the test both screens use to reject a name. */
  predicate IsBlank(s: string) {
    Trim(s) == ""
  }

  /** A name is blank exactly when every character of it is whitespace. */
  lemma BlankIffAllWhitespace(s: string)
    ensures IsBlank(s) <==> forall i :: 0 <= i < |s| ==> IsWhitespace(s[i])
  {
    var t := TrimStart(s);
    assert IsBlank(s) ==> t == [];
    assert t != [] ==> t[0] == s[|s| - |t|];
  }

  /** `s.replace(from, to)` for a one-character string pattern. */
  function ReplaceFirst(s: string, from: char, to: char): string {
    if s == [] then []
    else if s[0] == from then [to] + s[1..]
    else [s[0]] + ReplaceFirst(s[1..], from, to)
  }

  /** `replace` changes the first occurrence of the pattern, and only that
      one: every other character stays where it was. */
  lemma {:induction false} ReplaceFirstSpec(s: string, from: char, to: char)
    ensures |ReplaceFirst(s, from, to)| == |s|
    ensures forall i :: 0 <= i < |s| ==>
      ReplaceFirst(s, from, to)[i] == if s[i] == from && from !in s[..i] then to else s[i]
  {
    if s != [] && s[0] != from {
      ReplaceFirstSpec(s[1..], from, to);
      assert forall i :: 1 <= i <= |s| ==> s[..i] == [s[0]] + s[1..][..i - 1];
    }
  }

  lemma ReplaceFirstAbsent(s: string, from: char, to: char)
    requires from !in s
    ensures ReplaceFirst(s, from, to) == s
  {
    ReplaceFirstSpec(s, from, to);
    var r := ReplaceFirst(s, from, to);
    forall i | 0 <= i < |s| ensures r[i] == s[i] {
      assert s[i] in s;
    }
  }

  /** Only the first occurrence is replaced. */
  lemma ReplaceFirstAt(p: string, q: string, from: char, to: char)
    requires from !in p
    ensures ReplaceFirst(p + [from] + q, from, to) == p + [to] + q
  {
    var s, r := p + [from] + q, ReplaceFirst(p + [from] + q, from, to);
    ReplaceFirstSpec(s, from, to);
    forall i | 0 <= i < |s| ensures r[i] == (p + [to] + q)[i] {
      if i < |p| {
        assert s[i] in p;
      } else if i == |p| {
        assert s[..i] == p;
      } else {
        assert s[|p|] in s[..i];
      }
    }
  }

  predicate IsDigit(c: char) {
    '0' <= c <= '9'
  }

  function DigitValue(c: char): nat
    requires IsDigit(c)
  {
    c as nat - '0' as nat
  }

  /** The longest prefix of `s` made of decimal digits. */
  function DigitPrefix(s: string): (r: string)
    ensures |r| <= |s| && r == s[..|r|]
    ensures forall i :: 0 <= i < |r| ==> IsDigit(r[i])
    ensures |r| < |s| ==> !IsDigit(s[|r|])
  {
    if s != [] && IsDigit(s[0]) then [s[0]] + DigitPrefix(s[1..]) else []
  }

  /** The value of a digit string, read most significant digit first. */
  function DigitsValue(d: string): nat
    requires forall i :: 0 <= i < |d| ==> IsDigit(d[i])
  {
    if d == [] then 0 else 10 * DigitsValue(d[..|d| - 1]) + DigitValue(d[|d| - 1])
  }

  /** `parseInt(s, 10)`, with `None` for NaN: leading whitespace is skipped,
      one optional sign is read, then the longest run of decimal digits; no
      digit at all gives NaN. */
  function ParseInt(s: string): (r: Option<int>)
  {
    var t := TrimStart(s);
    var negative := t != [] && t[0] == '-';
    var body := if t != [] && (t[0] == '-' || t[0] == '+') then t[1..] else t;
    var digits := DigitPrefix(body);
    if digits == [] then None
    else if negative then Some(-(DigitsValue(digits) as int))
    else Some(DigitsValue(digits))
  }

  /** The decimal representation of a natural number, without leading zeros. */
  function Decimal(n: nat): (r: string)
    ensures r != [] && forall i :: 0 <= i < |r| ==> IsDigit(r[i])
  {
    if n < 10 then [('0' as int + n) as char]
    else Decimal(n / 10) + [('0' as int + n % 10) as char]
  }

  /** `parseInt` reads back the number a decimal string was made from. */
  lemma {:induction false} ParseIntDecimal(n: nat)
    ensures ParseInt(Decimal(n)) == Some(n)
  {
    var d := Decimal(n);
    assert !IsWhitespace(d[0]) && d[0] != '-' && d[0] != '+';
    assert TrimStart(d) == d;
    assert DigitPrefix(d) == d;
    DecimalValue(n);
  }

  /** Text that starts with anything but whitespace, a sign or a digit is
      NaN to `parseInt`. */
  lemma ParseIntRejects(s: string)
    requires s != [] && !IsWhitespace(s[0]) && !IsDigit(s[0]) && s[0] != '-' && s[0] != '+'
    ensures ParseInt(s) == None
  {
    assert TrimStart(s) == s;
  }

  lemma {:induction false} DecimalValue(n: nat)
    ensures DigitsValue(Decimal(n)) == n
  {
    if n >= 10 {
      DecimalValue(n / 10);
      var d := Decimal(n);
      assert d[..|d| - 1] == Decimal(n / 10);
    }
  }
}
