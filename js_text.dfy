/** The string operations the rate calculator uses: `String.prototype.split`
    on a one-character separator, the global `parseInt` with no radix, and the
    conversion of an integer-valued number to its decimal text (what a
    template literal `${n}` produces). */
module JsText {
  import opened JsValues

  // ---------------------------------------------------------------------
  // Characters

  predicate IsDecimalDigit(c: char)
  {
    '0' <= c <= '9'
  }

  /** A digit in radix 10 or 16 (either case for the letters). */
  predicate IsRadixDigit(c: char, radix: nat)
  {
    IsDecimalDigit(c) || (radix == 16 && ('a' <= c <= 'f' || 'A' <= c <= 'F'))
  }

  function DigitValue(c: char): nat
  {
    if IsDecimalDigit(c) then c as int - '0' as int
    else if 'a' <= c <= 'f' then c as int - 'a' as int + 10
    else if 'A' <= c <= 'F' then c as int - 'A' as int + 10
    else 0
  }

  /** The characters `parseInt` skips before the number: the white space and
      line terminators of the ECMAScript grammar (tab, vertical tab, form
      feed, space, no-break space, byte order mark, the other space
      separators of category Zs, LF, CR, line and paragraph separators). */
  predicate IsStrWhiteSpace(c: char)
  {
    var k := c as int;
    k == 0x09 || k == 0x0B || k == 0x0C || k == 0x20 || k == 0xA0 || k == 0xFEFF
    || k == 0x1680 || 0x2000 <= k <= 0x200A || k == 0x202F || k == 0x205F || k == 0x3000
    || k == 0x0A || k == 0x0D || k == 0x2028 || k == 0x2029
  }

  predicate IsNumeral(s: string)
  {
    |s| >= 1 && forall i :: 0 <= i < |s| ==> IsDecimalDigit(s[i])
  }

  // ---------------------------------------------------------------------
  // split and join

  /** The pieces joined back with the separator between them. */
  function Join(pieces: seq<string>, sep: char): string
    requires |pieces| >= 1
  {
    if |pieces| == 1 then pieces[0] else pieces[0] + [sep] + Join(pieces[1..], sep)
  }

  /** `s.split(sep)`: the maximal separator-free runs of `s`, in order; the
      empty string gives one empty piece. */
  function Split(s: string, sep: char): (pieces: seq<string>)
    ensures |pieces| >= 1
  {
    if s == [] then [""]
    else
      var rest := Split(s[1..], sep);
      if s[0] == sep then [""] + rest
      else [[s[0]] + rest[0]] + rest[1..]
  }

  /** Split cuts at every separator and only there: no piece holds the
      separator, and joining the pieces with it gives back the input. */
  lemma {:induction false} SplitSpec(s: string, sep: char)
    ensures forall i :: 0 <= i < |Split(s, sep)| ==> sep !in Split(s, sep)[i]
    ensures Join(Split(s, sep), sep) == s
  {
    if s != [] {
      SplitSpec(s[1..], sep);
      var rest := Split(s[1..], sep);
      if s[0] == sep {
        assert ([""] + rest)[1..] == rest;
      } else {
        var pieces := [[s[0]] + rest[0]] + rest[1..];
        assert pieces[1..] == rest[1..];
        assert [s[0]] + s[1..] == s;
      }
    }
  }

  /** A string without the separator is a single piece. */
  lemma {:induction false} SplitWithoutSeparator(p: string, sep: char)
    requires sep !in p
    ensures Split(p, sep) == [p]
  {
    if p != [] {
      SplitWithoutSeparator(p[1..], sep);
      assert [p[0]] + p[1..] == p;
    }
  }

  /** A separator-free first piece is split off whole. */
  lemma {:induction false} SplitAfterPiece(p: string, t: string, sep: char)
    requires sep !in p
    ensures Split(p + [sep] + t, sep) == [p] + Split(t, sep)
  {
    var s := p + [sep] + t;
    if p == [] {
      assert s[1..] == t;
    } else {
      assert s[1..] == p[1..] + [sep] + t;
      SplitAfterPiece(p[1..], t, sep);
      assert [p[0]] + p[1..] == p;
    }
  }

  /** Splitting undoes joining separator-free pieces. */
  lemma {:induction false} SplitJoin(pieces: seq<string>, sep: char)
    requires |pieces| >= 1
    requires forall i :: 0 <= i < |pieces| ==> sep !in pieces[i]
    ensures Split(Join(pieces, sep), sep) == pieces
  {
    if |pieces| == 1 {
      SplitWithoutSeparator(pieces[0], sep);
    } else {
      SplitJoin(pieces[1..], sep);
      SplitAfterPiece(pieces[0], Join(pieces[1..], sep), sep);
      assert [pieces[0]] + pieces[1..] == pieces;
    }
  }

  // ---------------------------------------------------------------------
  // Decimal text of an integer

  function DigitChar(d: nat): char
    requires d < 10
  {
    ('0' as int + d) as char
  }

  /** The value of a run of digits, most significant first. */
  function DigitsValue(z: string, radix: nat): nat
  {
    if z == [] then 0 else DigitsValue(z[..|z| - 1], radix) * radix + DigitValue(z[|z| - 1])
  }

  /** The decimal text of a natural number: digits only, no leading zero,
      and it reads back as the number. */
  function ShowNat(n: nat): (s: string)
    ensures IsNumeral(s)
    ensures |s| > 1 ==> s[0] != '0'
    ensures DigitsValue(s, 10) == n
  {
    if n < 10 then [DigitChar(n)]
    else
      var s := ShowNat(n / 10) + [DigitChar(n % 10)];
      assert s[..|s| - 1] == ShowNat(n / 10);
      s
  }

  /** `${n}` for an integer-valued number. */
  function ShowInt(n: int): string
  {
    if n < 0 then "-" + ShowNat(-n) else ShowNat(n)
  }

  /** `${x}` for a number that may be NaN. */
  function ShowNum(x: JsNum): string
  {
    match x
    case NaN => "NaN"
    case Num(n) => ShowInt(n)
  }

  // ---------------------------------------------------------------------
  // parseInt

  /** The input with its leading white space removed. */
  function TrimStart(s: string): string
  {
    if s != [] && IsStrWhiteSpace(s[0]) then TrimStart(s[1..]) else s
  }

  /** TrimStart removes exactly the leading white space: what it drops is all
      white space, and what it keeps is a suffix that does not start with any. */
  lemma {:induction false} TrimStartSpec(s: string)
    ensures |TrimStart(s)| <= |s| && TrimStart(s) == s[|s| - |TrimStart(s)|..]
    ensures forall i :: 0 <= i < |s| - |TrimStart(s)| ==> IsStrWhiteSpace(s[i])
    ensures TrimStart(s) == [] || !IsStrWhiteSpace(TrimStart(s)[0])
  {
    if s != [] && IsStrWhiteSpace(s[0]) {
      TrimStartSpec(s[1..]);
    }
  }

  /** The longest prefix of `s` made of radix digits. */
  function LeadingDigits(s: string, radix: nat): string
  {
    if s == [] || !IsRadixDigit(s[0], radix) then []
    else [s[0]] + LeadingDigits(s[1..], radix)
  }

  /** LeadingDigits is the longest prefix of digits: a prefix, all digits,
      and the character after it (if any) is not a digit. */
  lemma {:induction false} LeadingDigitsSpec(s: string, radix: nat)
    ensures |LeadingDigits(s, radix)| <= |s| && LeadingDigits(s, radix) == s[..|LeadingDigits(s, radix)|]
    ensures forall i :: 0 <= i < |LeadingDigits(s, radix)| ==> IsRadixDigit(LeadingDigits(s, radix)[i], radix)
    ensures |LeadingDigits(s, radix)| < |s| ==> !IsRadixDigit(s[|LeadingDigits(s, radix)|], radix)
  {
    if s != [] && IsRadixDigit(s[0], radix) {
      LeadingDigitsSpec(s[1..], radix);
      assert s == [s[0]] + s[1..];
    }
  }

  predicate HasHexPrefix(u: string)
  {
    |u| >= 2 && u[0] == '0' && (u[1] == 'x' || u[1] == 'X')
  }

  /** `parseInt(s)` with no radix: skip leading white space, take one optional
      sign, then read the digits of what is left; NaN when there are none. */
  function ParseInt(s: string): JsNum
  {
    ParseSigned(TrimStart(s))
  }

  /** One optional sign, then the unsigned number. */
  function ParseSigned(t: string): JsNum
  {
    if t != [] && t[0] == '-' then Negate(ParseUnsigned(t[1..]))
    else if t != [] && t[0] == '+' then ParseUnsigned(t[1..])
    else ParseUnsigned(t)
  }

  function Negate(x: JsNum): JsNum
  {
    match x
    case NaN => NaN
    case Num(v) => Num(-v)
  }

  /** A `0x`/`0X` prefix selects radix 16, otherwise radix 10; then the
      longest run of digits of that radix, NaN when it is empty. */
  function ParseUnsigned(u: string): JsNum
  {
    var radix := if HasHexPrefix(u) then 16 else 10;
    var digits := LeadingDigits(if HasHexPrefix(u) then u[2..] else u, radix);
    if digits == [] then NaN else Num(DigitsValue(digits, radix))
  }

  /** A numeral followed by anything that is not a digit is its own longest
      digit prefix. */
  lemma {:induction false} LeadingDigitsOfNumeral(a: string, rest: string)
    requires forall i :: 0 <= i < |a| ==> IsDecimalDigit(a[i])
    requires rest == [] || !IsDecimalDigit(rest[0])
    ensures LeadingDigits(a + rest, 10) == a
  {
    if a != [] {
      assert (a + rest)[1..] == a[1..] + rest;
      LeadingDigitsOfNumeral(a[1..], rest);
      assert [a[0]] + a[1..] == a;
    } else {
      assert a + rest == rest;
    }
  }

  /** parseInt reads the leading decimal digits of a piece that starts with a
      digit (and is not a `0x` hexadecimal literal) and ignores what follows
      them. */
  lemma ParseIntLeadingDecimal(s: string)
    requires s != [] && IsDecimalDigit(s[0]) && !HasHexPrefix(s)
    ensures ParseInt(s) == Num(DigitsValue(LeadingDigits(s, 10), 10))
    ensures LeadingDigits(s, 10) != []
  {
  }

  /** parseInt reads back the decimal text of an integer, whatever non-digit
      text follows it. */
  lemma ParseIntShowNat(n: nat, rest: string)
    requires rest == [] || !IsDecimalDigit(rest[0])
    requires n == 0 ==> rest == [] || (rest[0] != 'x' && rest[0] != 'X')
    ensures ParseInt(ShowNat(n) + rest) == Num(n)
  {
    var a := ShowNat(n);
    var s := a + rest;
    assert IsDecimalDigit(a[0]);
    assert s[0] == a[0];
    TrimStartAtDigit(s);
    assert !HasHexPrefix(s) by {
      if |a| > 1 {
        assert IsDecimalDigit(a[1]);
        assert s[1] == a[1];
      }
    }
    LeadingDigitsOfNumeral(a, rest);
    assert ParseUnsigned(s) == Num(n);
  }

  /** Trimming stops at once at a digit. */
  lemma TrimStartAtDigit(s: string)
    requires s != [] && IsDecimalDigit(s[0])
    ensures TrimStart(s) == s
    ensures ParseInt(s) == ParseUnsigned(s)
  {
  }

  /** parseInt inverts the conversion of an integer to text. */
  lemma ParseIntShowInt(n: int)
    ensures ParseInt(ShowInt(n)) == Num(n)
  {
    if n < 0 {
      var a := ShowNat(-n);
      var s := "-" + a;
      assert TrimStart(s) == s;
      assert s[1..] == a;
      assert a[0] != '-';
      assert !HasHexPrefix(a) by {
        if |a| > 1 { assert IsDecimalDigit(a[1]); }
      }
      LeadingDigitsOfNumeral(a, []);
      assert a + [] == a;
    } else {
      ParseIntShowNat(n, []);
      assert ShowNat(n) + [] == ShowNat(n);
    }
  }

  /** A piece with no digit after its white space and sign is NaN. */
  lemma ParseIntNoDigits(s: string)
    requires forall i :: 0 <= i < |s| ==> !IsDecimalDigit(s[i])
    ensures ParseInt(s) == NaN
  {
    TrimStartSpec(s);
    var t := TrimStart(s);
    var u := if t != [] && (t[0] == '-' || t[0] == '+') then t[1..] else t;
    assert forall i :: 0 <= i < |u| ==> u[i] == s[|s| - |u| + i];
  }
}
