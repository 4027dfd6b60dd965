/**
 * Locale-aware money parsing of backend/src/extract.ts: `parseNumber` and `parseMoney`,
 * with `parseFloat` read as "the longest decimal prefix".
 */
module Money {
  import opened Wrappers
  import opened Strings
  import opened Json

  /** The characters `[\d.,\-]` that `parseMoney` keeps. */
  predicate IsMoneyChar(c: char) {
    IsDigit(c) || c == '.' || c == ',' || c == '-'
  }

  predicate AllDigits(s: string) {
    forall i :: 0 <= i < |s| ==> IsDigit(s[i])
  }

  /** The longest run of digits at the start of `s`. */
  function LeadingDigits(s: string): (r: string)
    ensures |r| <= |s| && r == s[..|r|] && AllDigits(r)
    ensures |r| < |s| ==> !IsDigit(s[|r|])
  {
    if s != [] && IsDigit(s[0]) then [s[0]] + LeadingDigits(s[1..]) else []
  }

  /** The digits before a `.` and the digits right after it, at the start of `body`. */
  function NumberParts(body: string): (r: (string, string))
    ensures AllDigits(r.0) && AllDigits(r.1)
  {
    var intPart := LeadingDigits(body);
    var rest := body[|intPart|..];
    (intPart, if |rest| > 0 && rest[0] == '.' then LeadingDigits(rest[1..]) else "")
  }

  /**
   * `parseFloat` as far as the alphabet `parseMoney` leaves can reach: an
   * optional `-`, digits, optionally `.` and more digits; NaN (here `None`)
   * when no digit is read. Exponents, `+` and `Infinity` cannot occur in text
   * reduced to `[\d.,-]`, so they are not modelled.
   */
  function ParseFloat(s: string): (r: Option<Decimal>)
  {
    var neg := |s| > 0 && s[0] == '-';
    var parts := NumberParts(if neg then s[1..] else s);
    if |parts.0| + |parts.1| == 0 then None
    else
      var magnitude: int := DigitsValue(parts.0 + parts.1);
      Some(Decimal(if neg then -magnitude else magnitude, -|parts.1|))
  }

  /** `parseMoney`: strip to `[\d.,-]`, pick the decimal separator, then `parseFloat`. */
  function ParseMoney(input: string): Option<Decimal>
  {
    var s := KeepChars(Trim(input), IsMoneyChar);
    if s == "" then None
    else ParseFloat(Separate(s))
  }

  /**
   * The separator rule: with both `.` and `,` present every `.` is dropped as a
   * thousands mark and the FIRST `,` becomes the decimal point; with only `,`
   * the first `,` becomes the decimal point; otherwise nothing changes.
   */
  function Separate(s: string): string
  {
    var hasComma := ',' in s;
    var hasDot := '.' in s;
    if hasComma && hasDot then ReplaceFirst(RemoveChar(s, '.'), ',', '.')
    else if hasComma then ReplaceFirst(s, ',', '.')
    else s
  }

  /** `parseNumber`: numbers pass through, strings go to `parseMoney`, everything else is null. */
  function ParseNumber(v: Value): (r: Option<Decimal>)
    ensures v.Num? ==> r == Some(v.n)
    ensures v.Str? ==> r == ParseMoney(v.s)
    ensures !v.Num? && !v.Str? ==> r == None
  {
    match v
    case Num(d) => Some(d)
    case Str(s) => ParseMoney(s)
    case _ => None
  }

  // ----- lemmas about the character-level rewrites -----


  lemma KeepCharsAll(s: string, keep: char -> bool)
    requires forall i :: 0 <= i < |s| ==> keep(s[i])
    ensures KeepChars(s, keep) == s
  {
  }

  lemma {:induction false} RemoveCharAppend(a: string, b: string, c: char)
    ensures RemoveChar(a + b, c) == RemoveChar(a, c) + RemoveChar(b, c)
  {
    if a != [] {
      assert (a + b)[0] == a[0];
      assert (a + b)[1..] == a[1..] + b;
      RemoveCharAppend(a[1..], b, c);
      var h := if a[0] == c then [] else [a[0]];
      assert RemoveChar(a + b, c) == h + RemoveChar(a[1..] + b, c);
      assert RemoveChar(a, c) == h + RemoveChar(a[1..], c);
    } else {
      assert a + b == b;
    }
  }

  lemma RemoveCharAbsent(s: string, c: char)
    requires c !in s
    ensures RemoveChar(s, c) == s
  {
  }

  lemma RemoveCharKeepsDigits(s: string, c: char)
    requires !IsDigit(c)
    requires forall i :: 0 <= i < |s| ==> IsDigit(s[i]) || s[i] == c
    ensures AllDigits(RemoveChar(s, c))
  {
    if s != [] {
      RemoveCharKeepsDigits(s[1..], c);
    }
  }

  lemma LeadingDigitsAppend(d: string, r: string)
    requires AllDigits(d)
    requires r == [] || !IsDigit(r[0])
    ensures LeadingDigits(d + r) == d
  {
    if d != [] {
      assert (d + r)[1..] == d[1..] + r;
      LeadingDigitsAppend(d[1..], r);
    }
  }

  lemma NumberPartsDecimal(intPart: string, fracPart: string)
    requires AllDigits(intPart) && AllDigits(fracPart)
    ensures NumberParts(intPart + "." + fracPart) == (intPart, fracPart)
  {
    var s := intPart + "." + fracPart;
    LeadingDigitsAppend(intPart, "." + fracPart);
    assert s == intPart + ("." + fracPart);
    assert s[|intPart|..] == "." + fracPart;
    assert ("." + fracPart)[1..] == fracPart;
    LeadingDigitsAppend(fracPart, "");
    assert fracPart + "" == fracPart;
  }

  /** `parseFloat` on `intPart.fracPart` yields exactly that decimal. */
  lemma ParseFloatDecimal(intPart: string, fracPart: string)
    requires AllDigits(intPart) && AllDigits(fracPart) && |intPart| > 0
    ensures ParseFloat(intPart + "." + fracPart) == Some(Decimal(DigitsValue(intPart + fracPart), -|fracPart|))
  {
    var s := intPart + "." + fracPart;
    assert s[0] == intPart[0];
    NumberPartsDecimal(intPart, fracPart);
  }

  /** `parseFloat` on a plain digit string yields that integer. */
  lemma ParseFloatInteger(intPart: string)
    requires AllDigits(intPart) && |intPart| > 0
    ensures ParseFloat(intPart) == Some(Decimal(DigitsValue(intPart), 0))
  {
    LeadingDigitsAppend(intPart, "");
    assert intPart + "" == intPart;
    assert intPart[|intPart|..] == "";
  }

  /** Digit strings hold neither separator. */
  lemma DigitsNoSeparator(x: string)
    requires AllDigits(x)
    ensures ',' !in x && '.' !in x
  {
  }

  /** Text already reduced to the money alphabet goes straight to the separator rule. */
  lemma MoneyClean(s: string)
    requires s != [] && forall i :: 0 <= i < |s| ==> IsMoneyChar(s[i])
    ensures ParseMoney(s) == ParseFloat(Separate(s))
  {
    forall i | 0 <= i < |s| ensures !IsSpace(s[i]) {
      assert IsMoneyChar(s[i]);
    }
    TrimNoSpace(s);
    KeepCharsAll(s, IsMoneyChar);
  }

  /** `intPart + [sep] + fracPart` is in the money alphabet for either separator. */
  lemma JoinedMoneyChars(intPart: string, sep: char, fracPart: string)
    requires forall i :: 0 <= i < |intPart| ==> IsMoneyChar(intPart[i])
    requires AllDigits(fracPart) && (sep == '.' || sep == ',')
    ensures forall i :: 0 <= i < |intPart + [sep] + fracPart| ==> IsMoneyChar((intPart + [sep] + fracPart)[i])
  {
    var s := intPart + [sep] + fracPart;
    forall i | 0 <= i < |s| ensures IsMoneyChar(s[i]) {
      if i < |intPart| { assert s[i] == intPart[i]; }
      else if i > |intPart| { assert s[i] == fracPart[i - |intPart| - 1]; }
    }
  }

  // ----- the promised conversions -----

  /** Without a comma the separator rule changes nothing. */
  lemma {:induction false} PlainSeparated(intPart: string, fracPart: string)
    requires AllDigits(intPart) && AllDigits(fracPart)
    ensures ParseMoney(intPart + "." + fracPart) == ParseFloat(intPart + "." + fracPart)
  {
    JoinedMoneyChars(intPart, '.', fracPart);
    MoneyClean(intPart + "." + fracPart);
    DigitsNoSeparator(intPart);
    DigitsNoSeparator(fracPart);
  }

  /** Plain ASCII decimals round-trip: `"1234.56"` is 1234.56. */
  lemma {:induction false} MoneyPlainDecimal(intPart: string, fracPart: string)
    requires AllDigits(intPart) && AllDigits(fracPart) && |intPart| > 0
    ensures ParseMoney(intPart + "." + fracPart) == Some(Decimal(DigitsValue(intPart + fracPart), -|fracPart|))
  {
    PlainSeparated(intPart, fracPart);
    ParseFloatDecimal(intPart, fracPart);
  }

  /** A comma alone becomes the decimal point. */
  lemma {:induction false} CommaSeparated(intPart: string, fracPart: string)
    requires AllDigits(intPart) && AllDigits(fracPart)
    ensures ParseMoney(intPart + "," + fracPart) == ParseFloat(intPart + "." + fracPart)
  {
    JoinedMoneyChars(intPart, ',', fracPart);
    MoneyClean(intPart + "," + fracPart);
    DigitsNoSeparator(intPart);
    DigitsNoSeparator(fracPart);
    ReplaceFirstAt(intPart, ',', '.', fracPart);
  }

  /** A comma alone is the decimal point: `"100,00"` is 100. */
  lemma {:induction false} MoneyCommaDecimal(intPart: string, fracPart: string)
    requires AllDigits(intPart) && AllDigits(fracPart) && |intPart| > 0
    ensures ParseMoney(intPart + "," + fracPart) == Some(Decimal(DigitsValue(intPart + fracPart), -|fracPart|))
  {
    CommaSeparated(intPart, fracPart);
    ParseFloatDecimal(intPart, fracPart);
  }

  /** Dropping the dots of `grouped + "," + fracPart` touches only `grouped`. */
  lemma RemoveDotsBeforeComma(grouped: string, fracPart: string)
    requires AllDigits(fracPart)
    ensures RemoveChar(grouped + "," + fracPart, '.') == RemoveChar(grouped, '.') + "," + fracPart
  {
    DigitsNoSeparator(fracPart);
    RemoveCharAppend(grouped + ",", fracPart, '.');
    RemoveCharAppend(grouped, ",", '.');
    RemoveCharAbsent(fracPart, '.');
  }

  /** A grouped amount that starts with a digit keeps that digit. */
  lemma RemoveDotsNonEmpty(grouped: string)
    requires |grouped| > 0 && IsDigit(grouped[0])
    ensures |RemoveChar(grouped, '.')| > 0
  {
    assert RemoveChar(grouped, '.') == [grouped[0]] + RemoveChar(grouped[1..], '.');
  }

  /**
   * European notation: with thousands dots in `grouped` (digits and dots, at least one dot)
   * and a decimal comma, `"1.234,56"` is 1234.56.
   */
  lemma MoneyEuropean(grouped: string, fracPart: string)
    requires forall i :: 0 <= i < |grouped| ==> IsDigit(grouped[i]) || grouped[i] == '.'
    requires |grouped| > 0 && IsDigit(grouped[0]) && '.' in grouped
    requires AllDigits(fracPart)
    ensures ParseMoney(grouped + "," + fracPart)
         == Some(Decimal(DigitsValue(RemoveChar(grouped, '.') + fracPart), -|fracPart|))
  {
    var s := grouped + "," + fracPart;
    JoinedMoneyChars(grouped, ',', fracPart);
    MoneyClean(s);
    assert ',' in s && '.' in s;
    var intPart := RemoveChar(grouped, '.');
    RemoveCharKeepsDigits(grouped, '.');
    DigitsNoSeparator(intPart);
    RemoveDotsBeforeComma(grouped, fracPart);
    RemoveDotsNonEmpty(grouped);
    ReplaceFirstAt(intPart, ',', '.', fracPart);
    ParseFloatDecimal(intPart, fracPart);
  }

  /** `x + [c] + y` without `c` anywhere else loses exactly that one character. */
  lemma {:induction false} RemoveCharSingle(x: string, c: char, y: string)
    requires c !in x && c !in y
    ensures RemoveChar(x + [c] + y, c) == x + y
  {
    RemoveCharAbsent(x, c);
    RemoveCharAbsent(y, c);
    RemoveCharMiddle(x, c, y);
  }

  lemma {:induction false} RemoveCharMiddle(x: string, c: char, y: string)
    ensures RemoveChar(x + [c] + y, c) == RemoveChar(x, c) + RemoveChar(y, c)
  {
    RemoveCharAppend(x + [c], y, c);
    RemoveCharAppend(x, [c], c);
    assert RemoveChar([c], c) == [];
  }

  lemma {:induction false} DigitsAppend(a: string, b: string)
    requires AllDigits(a) && AllDigits(b)
    ensures AllDigits(a + b)
  {
    forall i | 0 <= i < |a + b| ensures IsDigit((a + b)[i]) {
      if i < |a| { assert (a + b)[i] == a[i]; } else { assert (a + b)[i] == b[i - |a|]; }
    }
  }

  /** The separator rule on `intPart,grouped.fracPart`. */
  lemma {:induction false} SeparateUs(intPart: string, grouped: string, fracPart: string)
    requires AllDigits(intPart) && AllDigits(grouped) && AllDigits(fracPart)
    ensures Separate(intPart + "," + grouped + "." + fracPart) == intPart + "." + (grouped + fracPart)
  {
    var x := intPart + "," + grouped;
    var s := x + "." + fracPart;
    DigitsNoSeparator(intPart);
    DigitsNoSeparator(grouped);
    DigitsNoSeparator(fracPart);
    assert s[|intPart|] == ',' && s[|x|] == '.';
    RemoveCharSingle(x, '.', fracPart);
    assert x + fracPart == intPart + "," + (grouped + fracPart);
    ReplaceFirstAt(intPart, ',', '.', grouped + fracPart);
  }

  lemma {:induction false} ParseFloatJoined(intPart: string, grouped: string, fracPart: string)
    requires AllDigits(intPart) && AllDigits(grouped) && AllDigits(fracPart) && |intPart| > 0
    ensures ParseFloat(intPart + "." + (grouped + fracPart))
         == Some(Decimal(DigitsValue(intPart + (grouped + fracPart)), -|grouped + fracPart|))
  {
    DigitsAppend(grouped, fracPart);
    ParseFloatDecimal(intPart, grouped + fracPart);
  }

  lemma {:induction false} UsSeparated(intPart: string, grouped: string, fracPart: string)
    requires AllDigits(intPart) && AllDigits(grouped) && AllDigits(fracPart)
    ensures ParseMoney(intPart + "," + grouped + "." + fracPart) == ParseFloat(intPart + "." + (grouped + fracPart))
  {
    var x := intPart + "," + grouped;
    JoinedMoneyChars(intPart, ',', grouped);
    JoinedMoneyChars(x, '.', fracPart);
    MoneyClean(x + "." + fracPart);
    SeparateUs(intPart, grouped, fracPart);
  }

  /**
   * US notation is not understood: in `intPart,grouped.fracPart` the dot is
   * dropped as a thousands mark and the comma becomes the point, so the value is
   * `intPart` followed by all later digits as the fraction.
   */
  lemma {:induction false} MoneyUsNotation(intPart: string, grouped: string, fracPart: string)
    requires AllDigits(intPart) && AllDigits(grouped) && AllDigits(fracPart) && |intPart| > 0
    ensures ParseMoney(intPart + "," + grouped + "." + fracPart)
         == Some(Decimal(DigitsValue(intPart + (grouped + fracPart)), -|grouped + fracPart|))
  {
    UsSeparated(intPart, grouped, fracPart);
    ParseFloatJoined(intPart, grouped, fracPart);
  }
}

/**
 * The concrete conversions the normaliser is documented with. Each text is
 * written as the concatenation of its pieces, which denotes the same string.
 */
module MoneyExamples {
  import opened Wrappers
  import opened Strings
  import opened Json
  import opened Money

  lemma Digits123456()
    ensures DigitsValue("123456") == 123456
  {
    assert DigitsValue("1") == 1;
    DigitsValueSnoc("1", '2'); assert "1" + ['2'] == "12";
    DigitsValueSnoc("12", '3'); assert "12" + ['3'] == "123";
    DigitsValueSnoc("123", '4'); assert "123" + ['4'] == "1234";
    DigitsValueSnoc("1234", '5'); assert "1234" + ['5'] == "12345";
    DigitsValueSnoc("12345", '6'); assert "12345" + ['6'] == "123456";
  }

  lemma Digits10000()
    ensures DigitsValue("10000") == 10000
  {
    assert DigitsValue("1") == 1;
    DigitsValueSnoc("1", '0'); assert "1" + ['0'] == "10";
    DigitsValueSnoc("10", '0'); assert "10" + ['0'] == "100";
    DigitsValueSnoc("100", '0'); assert "100" + ['0'] == "1000";
    DigitsValueSnoc("1000", '0'); assert "1000" + ['0'] == "10000";
  }

  lemma Hundredths(m: int)
    ensures RealOf(Decimal(m, -2)) == m as real / 100.0
  {
    assert Pow10Nat(2) == 100;
  }

  lemma HundredThousandths()
    ensures RealOf(Decimal(123456, -5)) == 1.23456
  {
    assert Pow10Nat(5) == 100000;
  }

  lemma EuropeanPieces()
    ensures '.' in "1.234" && RemoveChar("1.234", '.') + "56" == "123456"
  {
    assert "1.234"[1] == '.';
    assert RemoveChar("1.234", '.') == "1234";
  }

  lemma PlainPieces()
    ensures "1234" + "56" == "123456" && |"56"| == 2
  {
  }

  lemma CommaPieces()
    ensures "100" + "00" == "10000" && |"00"| == 2
  {
  }

  lemma UsPieces()
    ensures "1" + ("234" + "56") == "123456" && |"234" + "56"| == 5
  {
  }

  /** `"1.234,56"` is 1234.56. */
  lemma EuropeanExample()
    ensures ParseMoney("1.234" + "," + "56") == Some(Decimal(123456, -2))
    ensures RealOf(Decimal(123456, -2)) == 1234.56
  {
    EuropeanPieces();
    MoneyEuropean("1.234", "56");
    Digits123456();
    Hundredths(123456);
  }

  /** `"1234.56"` is 1234.56. */
  lemma PlainExample()
    ensures ParseMoney("1234" + "." + "56") == Some(Decimal(123456, -2))
  {
    MoneyPlainDecimal("1234", "56");
    PlainPieces();
    Digits123456();
  }

  /** `"100,00"` is 100. */
  lemma CommaExample()
    ensures ParseMoney("100" + "," + "00") == Some(Decimal(10000, -2))
    ensures RealOf(Decimal(10000, -2)) == 100.0
  {
    MoneyCommaDecimal("100", "00");
    CommaPieces();
    Digits10000();
    Hundredths(10000);
  }

  /** `"1,234.56"` is 1.23456, not 1234.56. */
  lemma UsNotationExample()
    ensures ParseMoney("1" + "," + "234" + "." + "56") == Some(Decimal(123456, -5))
    ensures RealOf(Decimal(123456, -5)) == 1.23456
  {
    MoneyUsNotation("1", "234", "56");
    UsPieces();
    Digits123456();
    HundredThousandths();
  }
}
