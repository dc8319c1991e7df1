/** `BigInt(text)` on a string, after the ECMAScript StringToBigInt
    operation: surrounding whitespace is ignored, an empty (or blank) text is
    0, a decimal literal may carry one sign, a 0x/0o/0b literal may not, and
    anything else (fractions, exponents, separators, stray characters) makes
    BigInt throw a SyntaxError, which is `None` here. */
module JsBigInt {
  import opened Optional
  import opened JsString

  /** The value of a digit character in any radix up to 16. */
  function DigitOf(c: char): Option<nat> {
    if '0' <= c <= '9' then Some(c as int - '0' as int)
    else if 'a' <= c <= 'f' then Some(c as int - 'a' as int + 10)
    else if 'A' <= c <= 'F' then Some(c as int - 'A' as int + 10)
    else None
  }

  predicate IsDigitIn(c: char, radix: nat) {
    DigitOf(c).Some? && DigitOf(c).value < radix
  }

  /** Positional value of a digit string, most significant digit first. */
  function DigitsValue(ds: string, radix: nat): nat {
    if ds == [] then 0
    else DigitsValue(ds[..|ds| - 1], radix) * radix + DigitOf(ds[|ds| - 1]).GetOr(0)
  }

  /** A non-empty run of digits of the radix, or nothing. */
  function ParseDigits(ds: string, radix: nat): Option<nat> {
    if ds != [] && forall i :: 0 <= i < |ds| ==> IsDigitIn(ds[i], radix)
    then Some(DigitsValue(ds, radix))
    else None
  }

  /** `BigInt(s)`: `None` where BigInt throws. */
  function ParseBigInt(s: string): (r: Option<int>)
    ensures r.Some? && r.value < 0 ==> Trim(s) != [] && Trim(s)[0] == '-'
  {
    var t := Trim(s);
    if t == [] then Some(0) else ParseLiteral(t)
  }

  /** A blank text (the empty one included) reads as zero. */
  lemma BlankIsZero(s: string)
    requires AllWhitespace(s)
    ensures ParseBigInt(s) == Some(0)
  {
    TrimEmptyIffAllWhitespace(s);
  }

  /** How a literal is read: its sign, its radix and where its digits
      start. */
  datatype Shape = Shape(negative: bool, radix: nat, start: nat)

  /** StrIntLiteral: an unsigned 0x/0o/0b literal, or a decimal one with an
      optional sign. */
  function LiteralShape(t: string): (sh: Shape)
    requires t != []
    ensures sh.start <= |t|
    ensures sh.negative ==> t[0] == '-'
  {
    if |t| >= 2 && t[0] == '0' && (t[1] == 'x' || t[1] == 'X') then Shape(false, 16, 2)
    else if |t| >= 2 && t[0] == '0' && (t[1] == 'o' || t[1] == 'O') then Shape(false, 8, 2)
    else if |t| >= 2 && t[0] == '0' && (t[1] == 'b' || t[1] == 'B') then Shape(false, 2, 2)
    else if t[0] == '+' then Shape(false, 10, 1)
    else if t[0] == '-' then Shape(true, 10, 1)
    else Shape(false, 10, 0)
  }

  function ParseLiteral(t: string): Option<int>
    requires t != []
  {
    var sh := LiteralShape(t);
    match ParseDigits(t[sh.start..], sh.radix)
    case Some(n) => Some(if sh.negative then -(n as int) else n)
    case None => None
  }

  /** Decimal numeral of `n`, without sign or leading zeros. */
  function DecimalString(n: nat): (s: string)
    ensures s != [] && forall i :: 0 <= i < |s| ==> '0' <= s[i] <= '9'
    ensures n > 0 ==> s[0] != '0'
    ensures |s| == 1 <==> n < 10
  {
    if n < 10 then [('0' as int + n) as char]
    else DecimalString(n / 10) + [('0' as int + n % 10) as char]
  }

  lemma {:induction false} DecimalDigitsValue(n: nat)
    ensures DigitsValue(DecimalString(n), 10) == n
  {
    var s := DecimalString(n);
    if n >= 10 {
      DecimalDigitsValue(n / 10);
      assert s[..|s| - 1] == DecimalString(n / 10);
    }
  }

  predicate IsDecimalDigits(ds: string) {
    ds != [] && forall i :: 0 <= i < |ds| ==> '0' <= ds[i] <= '9'
  }

  lemma DigitsAreDigits(ds: string)
    requires IsDecimalDigits(ds)
    ensures ParseDigits(ds, 10) == Some(DigitsValue(ds, 10))
  {
    forall i | 0 <= i < |ds| ensures IsDigitIn(ds[i], 10) { }
  }

  lemma TrimmedLiteral(t: string)
    requires t != [] && Trim(t) == t
    ensures ParseBigInt(t) == ParseLiteral(t)
  {
  }

  /** A run of decimal digits, leading zeros allowed, parses to its value. */
  lemma UnsignedDigits(ds: string, v: nat)
    requires IsDecimalDigits(ds) && DigitsValue(ds, 10) == v
    ensures ParseBigInt(ds) == Some(v)
  {
    assert Trim(ds) == ds by {
      TrimNoop(ds);
    }
    assert ParseLiteral(ds) == Some(DigitsValue(ds, 10) as int) by {
      assert |ds| >= 2 ==> '0' <= ds[1] <= '9';
      assert LiteralShape(ds) == Shape(false, 10, 0);
      DigitsAreDigits(ds);
      assert ds[0..] == ds;
    }
    TrimmedLiteral(ds);
  }

  /** With a minus sign in front, the same run parses to the negated value. */
  lemma NegatedDigits(ds: string, v: nat)
    requires IsDecimalDigits(ds) && DigitsValue(ds, 10) == v
    ensures ParseBigInt("-" + ds) == Some(-(v as int))
  {
    var t := "-" + ds;
    assert Trim(t) == t by {
      assert t[0] == '-' && t[|t| - 1] == ds[|ds| - 1];
      TrimNoop(t);
    }
    assert ParseLiteral(t) == Some(-(DigitsValue(ds, 10) as int)) by {
      assert LiteralShape(t) == Shape(true, 10, 1);
      DigitsAreDigits(ds);
      assert t[1..] == ds;
    }
    TrimmedLiteral(t);
  }

  /** Every decimal numeral parses back to its value. */
  lemma DecimalRoundTrip(n: nat)
    ensures ParseBigInt(DecimalString(n)) == Some(n)
    ensures ParseBigInt("-" + DecimalString(n)) == Some(-(n as int))
  {
    var ds := DecimalString(n);
    assert IsDecimalDigits(ds) && DigitsValue(ds, 10) == n by {
      DecimalDigitsValue(n);
    }
    UnsignedDigits(ds, n);
    NegatedDigits(ds, n);
  }

  /** Trimming first, as the lot form does, never changes the parse. */
  lemma ParseIgnoresTrim(s: string)
    ensures ParseBigInt(Trim(s)) == ParseBigInt(s)
  {
    TrimIdempotent(s);
  }

  lemma FractionTrimmed(da: string, db: string)
    requires IsDecimalDigits(da) && IsDecimalDigits(db)
    ensures Trim(da + "." + db) == da + "." + db
  {
    var s := da + "." + db;
    assert s[0] == da[0] && s[|s| - 1] == db[|db| - 1];
    TrimNoop(s);
  }

  lemma FractionShape(da: string, db: string)
    requires IsDecimalDigits(da) && IsDecimalDigits(db)
    ensures LiteralShape(da + "." + db) == Shape(false, 10, 0)
  {
    var s := da + "." + db;
    assert '0' <= s[0] <= '9';
    assert |da| == 1 ==> s[1] == '.';
    assert |da| > 1 ==> s[1] == da[1];
  }

  /** A decimal point is enough to make BigInt throw: "12.5", "0.5" and
      "007.0" are all rejected. */
  lemma FractionRejected(da: string, db: string)
    requires IsDecimalDigits(da) && IsDecimalDigits(db)
    ensures ParseBigInt(da + "." + db) == None
  {
    var s := da + "." + db;
    FractionTrimmed(da, db);
    FractionShape(da, db);
    assert s[0..] == s;
    assert s[|da|] == '.' && !IsDigitIn(s[|da|], 10);
  }
}
