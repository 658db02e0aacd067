/** `Number.parseInt(s)` with no radix argument, as the admin and dashboard
    pages apply it to booking budgets: skip leading white space, read an
    optional sign, read a `0x`/`0X` prefix as radix 16 (else radix 10), then
    the longest run of digits of that radix. No digits at all is `NaN`,
    modelled as `None`. */
module NumberParse {
  import opened Common

  /** The white-space and line-terminator characters JavaScript skips before
      a number. */
  predicate IsSpace(c: char) {
    c == '\t' || c == '\n' || c == '\U{0B}' || c == '\U{0C}' || c == '\r' || c == ' ' ||
    c == '\U{A0}' || c == '\U{1680}' || ('\U{2000}' <= c <= '\U{200A}') || c == '\U{2028}' ||
    c == '\U{2029}' || c == '\U{202F}' || c == '\U{205F}' || c == '\U{3000}' || c == '\U{FEFF}'
  }

  /** The value of `c` as a digit of any radix up to 36, or 36 when `c` is no
      digit at all. */
  function DigitValue(c: char): (v: nat)
    ensures v <= 36
    ensures v < 10 <==> '0' <= c <= '9'
  {
    if '0' <= c <= '9' then (c as int) - ('0' as int)
    else if 'a' <= c <= 'z' then (c as int) - ('a' as int) + 10
    else if 'A' <= c <= 'Z' then (c as int) - ('A' as int) + 10
    else 36
  }

  predicate IsDigit(c: char, radix: nat) {
    DigitValue(c) < radix
  }

  /** The input after its leading white space. */
  function TrimStart(s: string): (r: string)
    ensures |r| <= |s| && r == s[|s| - |r|..]
    ensures forall i :: 0 <= i < |s| - |r| ==> IsSpace(s[i])
    ensures r == [] || !IsSpace(r[0])
  {
    if s != [] && IsSpace(s[0]) then TrimStart(s[1..]) else s
  }

  /** The longest prefix of `s` made of digits of `radix`. */
  function DigitPrefix(s: string, radix: nat): (r: string)
    ensures |r| <= |s| && r == s[..|r|]
    ensures forall i :: 0 <= i < |r| ==> IsDigit(r[i], radix)
    ensures |r| == |s| || !IsDigit(s[|r|], radix)
  {
    if s != [] && IsDigit(s[0], radix) then [s[0]] + DigitPrefix(s[1..], radix) else []
  }

  /** The number a run of digits denotes, most significant digit first. */
  function DigitsValue(ds: string, radix: nat): nat
    requires forall i :: 0 <= i < |ds| ==> IsDigit(ds[i], radix)
  {
    if ds == [] then 0
    else
      var high := DigitsValue(ds[..|ds| - 1], radix);
      ProductNat(high, radix);
      high * radix + DigitValue(ds[|ds| - 1])
  }

  lemma ProductNat(a: nat, b: nat)
    ensures a * b >= 0
  {
  }

  predicate HasHexPrefix(s: string) {
    |s| >= 2 && s[0] == '0' && (s[1] == 'x' || s[1] == 'X')
  }

  /** The digits after the sign: radix 16 behind a `0x`/`0X` prefix, else
      radix 10; `None` when no digit of that radix follows. */
  function ParseUnsigned(u: string): (r: Option<int>)
    ensures r.Some? ==> r.value >= 0
  {
    var radix := if HasHexPrefix(u) then 16 else 10;
    var ds := DigitPrefix(if radix == 16 then u[2..] else u, radix);
    if ds == [] then None else Some(DigitsValue(ds, radix))
  }

  /** `Number.parseInt(s)`; `None` stands for `NaN`. */
  function ParseInt(s: string): (r: Option<int>)
  {
    ParseSigned(TrimStart(s))
  }

  /** An optional sign and the digits after it. */
  function ParseSigned(t: string): (r: Option<int>)
  {
    var signed := t != [] && (t[0] == '-' || t[0] == '+');
    var negative := signed && t[0] == '-';
    match ParseUnsigned(if signed then t[1..] else t)
    case Some(v) => Some(if negative then -v else v)
    case None => None
  }

  /** The decimal numeral of `n`, as a number's `toString()` writes it. */
  function Decimal(n: nat): (r: string)
    ensures r != []
    ensures forall i :: 0 <= i < |r| ==> IsDigit(r[i], 10)
  {
    var d := ['0' + (n % 10) as char];
    if n < 10 then d else Decimal(n / 10) + d
  }

  lemma {:induction false} DecimalValue(n: nat)
    ensures DigitsValue(Decimal(n), 10) == n
  {
    var r := Decimal(n);
    if n >= 10 {
      DecimalValue(n / 10);
      assert r[..|r| - 1] == Decimal(n / 10);
    }
  }

  lemma {:induction false} DigitPrefixOfDigits(ds: string, rest: string, radix: nat)
    requires forall i :: 0 <= i < |ds| ==> IsDigit(ds[i], radix)
    requires rest == [] || !IsDigit(rest[0], radix)
    ensures DigitPrefix(ds + rest, radix) == ds
  {
    if ds != [] {
      assert (ds + rest)[1..] == ds[1..] + rest;
      DigitPrefixOfDigits(ds[1..], rest, radix);
    }
  }

  lemma TrimStartNoSpace(s: string)
    requires s == [] || !IsSpace(s[0])
    ensures TrimStart(s) == s
  {
  }

  lemma ParseUnsignedDecimal(n: nat, rest: string)
    requires rest == [] || !IsDigit(rest[0], 10)
    requires n == 0 && rest != [] ==> rest[0] != 'x' && rest[0] != 'X'
    ensures ParseUnsigned(Decimal(n) + rest) == Some(n)
  {
    var d := Decimal(n);
    DigitPrefixOfDigits(d, rest, 10);
    DecimalValue(n);
    assert !HasHexPrefix(d + rest) by {
      if |d + rest| >= 2 && d[0] == '0' {
        if |d| >= 2 {
          assert IsDigit(d[1], 10);
        } else {
          assert n == 0;
        }
      }
    }
  }

  /** Text that starts with neither white space nor a sign is read as
      unsigned digits. */
  lemma ParseIntUnsigned(s: string)
    requires s == [] || (!IsSpace(s[0]) && s[0] != '-' && s[0] != '+')
    ensures ParseInt(s) == ParseUnsigned(s)
  {
    TrimStartNoSpace(s);
  }

  /** A leading minus sign negates what the digits after it denote. */
  lemma ParseIntMinus(u: string)
    ensures ParseInt("-" + u) == (if ParseUnsigned(u).Some? then Some(-ParseUnsigned(u).value) else None)
  {
    var s := "-" + u;
    calc {
      ParseInt(s);
      { TrimStartNoSpace(s); }
      ParseSigned(s);
      { assert s[0] == '-' && s[1..] == u; }
      if ParseUnsigned(u).Some? then Some(-ParseUnsigned(u).value) else None;
    }
  }

  /** One leading white-space character is skipped. */
  lemma ParseIntSkipSpace(c: char, s: string)
    requires IsSpace(c)
    ensures ParseInt([c] + s) == ParseInt(s)
  {
    assert TrimStart([c] + s) == TrimStart(s) by {
      assert ([c] + s)[1..] == s;
    }
  }

  /** A decimal numeral followed by anything that is not a further digit
      parses back to its value: the round trip `parseInt(String(n)) == n`,
      and the reason a budget like "5000 USD" counts as 5000. The one
      exception is a lone "0" followed by "x", which switches to radix 16. */
  lemma ParseIntDecimal(n: nat, rest: string)
    requires rest == [] || !IsDigit(rest[0], 10)
    requires n == 0 && rest != [] ==> rest[0] != 'x' && rest[0] != 'X'
    ensures ParseInt(Decimal(n) + rest) == Some(n)
  {
    var s := Decimal(n) + rest;
    ParseUnsignedDecimal(n, rest);
    assert IsDigit(s[0], 10);
    ParseIntUnsigned(s);
  }

  /** The same with a minus sign in front: the negated value. */
  lemma ParseIntNegativeDecimal(n: nat, rest: string)
    requires rest == [] || !IsDigit(rest[0], 10)
    requires n == 0 && rest != [] ==> rest[0] != 'x' && rest[0] != 'X'
    ensures ParseInt("-" + Decimal(n) + rest) == Some(-(n as int))
  {
    var d := Decimal(n);
    var u := d + rest;
    calc {
      ParseInt("-" + d + rest);
      { ConcatAssoc("-", d, rest); }
      ParseInt("-" + u);
      { ParseIntMinus(u); }
      if ParseUnsigned(u).Some? then Some(-ParseUnsigned(u).value) else None;
      { ParseUnsignedDecimal(n, rest); }
      Some(-(n as int));
    }
  }

  lemma ConcatAssoc(a: string, b: string, c: string)
    ensures a + b + c == a + (b + c)
  {
  }

  /** White space before the numeral is skipped. */
  lemma ParseIntLeadingSpace(n: nat)
    ensures ParseInt(" " + Decimal(n)) == Some(n)
  {
    ParseIntDecimal(n, []);
    assert Decimal(n) + [] == Decimal(n);
    ParseIntSkipSpace(' ', Decimal(n));
    assert " " + Decimal(n) == [' '] + Decimal(n);
  }

  /** Text whose first character after the white space and an optional
      sign is no decimal digit is NaN (no such text can start with "0x"). */
  lemma ParseIntNoDigits(s: string)
    requires var t := TrimStart(s);
             var u := if t != [] && (t[0] == '-' || t[0] == '+') then t[1..] else t;
             u == [] || !IsDigit(u[0], 10)
    ensures ParseInt(s) == None
  {
    var t := TrimStart(s);
    var u := if t != [] && (t[0] == '-' || t[0] == '+') then t[1..] else t;
    ParseUnsignedNoDigit(u);
    assert ParseInt(s) == ParseSigned(t);
  }

  lemma ParseUnsignedNoDigit(u: string)
    requires u == [] || !IsDigit(u[0], 10)
    ensures ParseUnsigned(u) == None
  {
    assert !HasHexPrefix(u) by {
      if |u| >= 2 {
        assert !IsDigit(u[0], 10);
      }
    }
    assert DigitPrefix(u, 10) == [];
  }

  /** A "0x" or "0X" prefix switches to radix 16: the hex digits after it
      are read up to the first character that is no hex digit, and no
      digit at all is NaN. */
  lemma ParseIntHex(x: char, ds: string, rest: string)
    requires x == 'x' || x == 'X'
    requires forall i :: 0 <= i < |ds| ==> IsDigit(ds[i], 16)
    requires rest == [] || !IsDigit(rest[0], 16)
    ensures ParseInt(['0', x] + ds + rest) == if ds == [] then None else Some(DigitsValue(ds, 16))
  {
    var s := ['0', x] + ds + rest;
    assert s[0] == '0';
    ParseIntUnsigned(s);
    ParseUnsignedHex(x, ds, rest);
  }

  lemma ParseUnsignedHex(x: char, ds: string, rest: string)
    requires x == 'x' || x == 'X'
    requires forall i :: 0 <= i < |ds| ==> IsDigit(ds[i], 16)
    requires rest == [] || !IsDigit(rest[0], 16)
    ensures ParseUnsigned(['0', x] + ds + rest) == if ds == [] then None else Some(DigitsValue(ds, 16))
  {
    var s := ['0', x] + ds + rest;
    assert s[2..] == ds + rest;
    DigitPrefixOfDigits(ds, rest, 16);
    calc {
      ParseUnsigned(s);
      { assert HasHexPrefix(s); }
      var d := DigitPrefix(s[2..], 16); if d == [] then None else Some(DigitsValue(d, 16));
      if ds == [] then None else Some(DigitsValue(ds, 16));
    }
  }
}
