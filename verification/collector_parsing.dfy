/**
 * The two cell parsers of the trading-data collector (`DataCollectorService.parse_date` and
 * `DataCollectorService.parse_number`), with the texts the quotation pages show as their
 * partners: dotted dates and numbers with thousands separators and a sign.
 */
module CollectorParsing {

  import opened Wrappers
  import opened PyText
  import opened Dates

  /**
   * `parse_date`: the stripped cell read with `%Y.%m.%d` and written back with `%Y-%m-%d`;
   * `None` when `strptime` raises.
   */
  function ParseDate(dateStr: string): (r: Option<string>)
  {
    match Strptime(Strip(dateStr), '.')
    case Some(d) => Some(FormatIso(d))
    case None => None
  }

  /** A dotted date as the quotation pages print it is turned into the same date in ISO form. */
  lemma ParseDateOfDotted(d: Date)
    requires ValidDate(d)
    ensures ParseDate(FormatWith(d, '.')) == Some(FormatIso(d))
  {
    var s := FormatWith(d, '.');
    assert IsAsciiDigit(s[0]) && IsAsciiDigit(s[9]) by {
      assert s[0] == s[..4][0] && s[9] == s[8..][1];
    }
    StripNoSpaceEnds(s);
    StrptimeFormatWith(d, '.');
  }

  /**
   * Whatever `parse_date` returns is a real calendar date in zero-padded ISO form, and reading
   * it back with `%Y-%m-%d` (as the crawl does next) gives the date it came from.
   */
  lemma ParseDateOutput(dateStr: string)
    requires ParseDate(dateStr).Some?
    ensures var d := Strptime(Strip(dateStr), '.');
      d.Some? && ParseDate(dateStr).value == FormatIso(d.value)
      && Strptime(ParseDate(dateStr).value, '-') == d
  {
    var d := Strptime(Strip(dateStr), '.');
    StrptimeFormatIso(d.value);
  }

  /** Any other separator in the fifth position is refused. */
  lemma ParseDateNeedsDots(dateStr: string)
    requires |Strip(dateStr)| > 4 && Strip(dateStr)[4] != '.'
    ensures ParseDate(dateStr) == None
  {
  }

  /** Worked example: a zero-padded date. */
  lemma ParseDatePadded()
    ensures ParseDate("2024.01.15") == Some("2024-01-15")
  {
    var d := Date(2024, 1, 15);
    Pad2024();
    PadTwo(1, "01");
    PadTwo(15, "15");
    assert FormatWith(d, '.') == "2024.01.15";
    assert FormatIso(d) == "2024-01-15";
    ParseDateOfDotted(d);
  }

  lemma Pad2024()
    ensures PadDigits(2024, 4) == "2024"
  {
    assert PadDigits(2, 1) == "2";
    assert PadDigits(20, 2) == "20";
    assert PadDigits(202, 3) == "202";
  }

  lemma PadTwo(n: nat, t: string)
    requires n < 100 && t == [DigitChar(n / 10), DigitChar(n % 10)]
    ensures PadDigits(n, 2) == t
  {
    assert PadDigits(n / 10, 1) == [DigitChar(n / 10)];
  }

  /** Worked example: unpadded month and day and surrounding spaces. */
  lemma ParseDateUnpadded()
    ensures ParseDate(" 2024.1.5 ") == Some("2024-01-05")
  {
    var s := "2024.1.5";
    assert Strip(" 2024.1.5 ") == s by {
      assert TrimStart(" 2024.1.5 ") == "2024.1.5 ";
      assert TrimEnd("2024.1.5 ") == s;
    }
    StrptimeUnpadded();
    IsoOf20240105();
  }

  lemma StrptimeUnpadded()
    ensures Strptime("2024.1.5", '.') == Some(Date(2024, 1, 5))
  {
    var s := "2024.1.5";
    var rest := s[5..];
    assert rest == "1.5";
    assert FirstIndexOf(rest, '.') == 1 by {
      assert FirstIndexOf(rest[1..], '.') == 0;
    }
    assert rest[..1] == "1" && rest[2..] == "5";
    assert DigitsValue(s[..4]) == 2024 by {
      assert s[..4] == "2024";
      assert "2024"[..3] == "202" && "202"[..2] == "20" && "20"[..1] == "2";
    }
  }

  lemma IsoOf20240105()
    ensures FormatIso(Date(2024, 1, 5)) == "2024-01-05"
  {
    Pad2024();
    PadTwo(1, "01");
    PadTwo(5, "05");
  }

  /** Worked example: a date that is not on the calendar is refused. */
  lemma ParseDateNotOnCalendar()
    ensures ParseDate("2023.02.29") == None
  {
    var s := "2023.02.29";
    assert IsAsciiDigit(s[0]) && IsAsciiDigit(s[9]);
    StripNoSpaceEnds(s);
    StrptimeLeapDay();
  }

  lemma StrptimeLeapDay()
    ensures Strptime("2023.02.29", '.') == None
  {
    var s := "2023.02.29";
    var rest := s[5..];
    assert rest == "02.29";
    assert FirstIndexOf(rest, '.') == 2 by {
      assert FirstIndexOf(rest[2..], '.') == 0;
      assert FirstIndexOf(rest[1..], '.') == 1 + FirstIndexOf(rest[1..][1..], '.');
      assert rest[1..][1..] == rest[2..];
    }
    assert rest[..2] == "02" && rest[3..] == "29";
    assert s[..4] == "2023";
    DigitsOf2023();
    assert DigitsValue("02") == 2 by {
      assert "02"[..1] == "0";
    }
    assert DigitsValue("29") == 29 by {
      assert "29"[..1] == "2";
    }
    assert !ValidDate(Date(2023, 2, 29));
  }

  lemma DigitsOf2023()
    ensures DigitsValue("2023") == 2023
  {
    assert "2023"[..3] == "202" && "202"[..2] == "20" && "20"[..1] == "2";
  }

  /**
   * `parse_number`: strip, drop every `,` and `+`, then `int()`; an empty remainder or a lone
   * `-` is 0, and `None` stands for the `ValueError` that `int()` raises.
   */
  function ParseNumber(numberStr: string): (r: Option<int>)
  {
    var cleaned := RemoveChar(RemoveChar(Strip(numberStr), ','), '+');
    if cleaned == [] || cleaned == "-" then Some(0) else PyInt(cleaned)
  }

  /** The decimal digits of `n` without leading zeros. */
  function NatDigits(n: nat): (r: string)
    ensures IsDigitString(r) && DigitsValue(r) == n
  {
    if n < 10 then [DigitChar(n)]
    else
      var r := NatDigits(n / 10) + [DigitChar(n % 10)];
      assert r[..|r| - 1] == NatDigits(n / 10);
      r
  }

  /** Digits with a `,` between every group of three, counted from the right. */
  function GroupThousands(ds: string): (r: string)
    requires IsDigitString(ds)
    ensures r != [] && IsAsciiDigit(r[0]) && IsAsciiDigit(r[|r| - 1])
  {
    if |ds| <= 3 then ds
    else GroupThousands(ds[..|ds| - 3]) + "," + ds[|ds| - 3..]
  }

  /** How a quotation page prints a number: optional sign, then grouped digits. */
  function ShowNumber(n: int, plusSign: bool): (r: string)
  {
    var sign := if n < 0 then "-" else if plusSign then "+" else "";
    sign + GroupThousands(NatDigits(if n < 0 then -n else n))
  }

  lemma {:induction false} UngroupThousands(ds: string)
    requires IsDigitString(ds)
    ensures RemoveChar(GroupThousands(ds), ',') == ds
  {
    if |ds| > 3 {
      var head, tail := ds[..|ds| - 3], ds[|ds| - 3..];
      LastThree(ds);
      UngroupThousands(head);
      var g := GroupThousands(head);
      assert GroupThousands(ds) == (g + ",") + tail;
      RemoveCharAppend(g + ",", tail, ',');
      RemoveCharAppend(g, ",", ',');
      assert RemoveChar(",", ',') == [];
      assert head + [] + tail == ds;
    }
  }

  /** Splitting off the last three digits leaves digits on both sides and no separator. */
  lemma LastThree(ds: string)
    requires IsDigitString(ds) && |ds| > 3
    ensures IsDigitString(ds[..|ds| - 3]) && ',' !in ds[|ds| - 3..]
  {
    var head, tail := ds[..|ds| - 3], ds[|ds| - 3..];
    assert forall i | 0 <= i < |tail| :: tail[i] == ds[|ds| - 3 + i];
    assert forall i | 0 <= i < |head| :: head[i] == ds[i];
    DigitsHaveNo(tail, ',');
  }

  lemma DigitsHaveNo(ds: string, c: char)
    requires AllDigits(ds) && !IsAsciiDigit(c)
    ensures c !in ds
  {
    forall i | 0 <= i < |ds| ensures ds[i] != c {
      assert IsAsciiDigit(ds[i]);
    }
  }

  /** Stripping and dropping separators and plus signs leaves the sign (if negative) and digits. */
  lemma CleanShown(n: int, plusSign: bool)
    ensures var ds := NatDigits(if n < 0 then -n else n);
      RemoveChar(RemoveChar(Strip(ShowNumber(n, plusSign)), ','), '+') == (if n < 0 then "-" + ds else ds)
  {
    var ds := NatDigits(if n < 0 then -n else n);
    var sign := if n < 0 then "-" else if plusSign then "+" else "";
    var g := GroupThousands(ds);
    var s := sign + g;
    assert s == ShowNumber(n, plusSign);
    assert s[|s| - 1] == g[|g| - 1];
    assert s[0] == (if sign == [] then g[0] else sign[0]);
    StripNoSpaceEnds(s);
    RemoveCharAppend(sign, g, ',');
    UngroupThousands(ds);
    assert RemoveChar(sign, ',') == sign;
    DigitsHaveNo(ds, '+');
    RemoveCharAppend(sign, ds, '+');
    if n < 0 {
      assert RemoveChar(sign, '+') == "-";
    } else {
      assert RemoveChar(sign, '+') == [];
      assert [] + ds == ds;
    }
  }

  /** `parse_number` reads back every number as the quotation pages print it. */
  lemma ParseNumberOfShown(n: int, plusSign: bool)
    ensures ParseNumber(ShowNumber(n, plusSign)) == Some(n)
  {
    var ds := NatDigits(if n < 0 then -n else n);
    CleanShown(n, plusSign);
    if n < 0 {
      assert "-" + ds != [] && "-" + ds != "-";
      PyIntOfNegatedDigits(ds);
    } else {
      PyIntOfDigits(ds);
    }
  }

  /** A cell that is blank after strip reads as 0. */
  lemma ParseNumberOfBlank(numberStr: string)
    requires AllSpace(numberStr)
    ensures ParseNumber(numberStr) == Some(0)
  {
    StripEmptyIffAllSpace(numberStr);
  }

  /** Worked example: a thousands separator. */
  lemma ParseNumberGrouped()
    ensures ParseNumber("70,000") == Some(70000)
  {
    var g := GroupThousands(NatDigits(70000));
    assert g == "70,000" by {
      NatDigitsSnoc(7, 0, "7");
      NatDigitsSnoc(70, 0, "70");
      NatDigitsSnoc(700, 0, "700");
      NatDigitsSnoc(7000, 0, "7000");
      assert NatDigits(70000) == "70" + "000";
      GroupOnce("70", "000");
    }
    assert ShowNumber(70000, false) == g;
    ParseNumberOfShown(70000, false);
  }

  /** Worked example: a plus sign and a thousands separator. */
  lemma ParseNumberPlusSign()
    ensures ParseNumber("+1,234") == Some(1234)
  {
    var g := GroupThousands(NatDigits(1234));
    assert g == "1,234" by {
      NatDigitsSnoc(1, 2, "1");
      NatDigitsSnoc(12, 3, "12");
      NatDigitsSnoc(123, 4, "123");
      assert NatDigits(1234) == "1" + "234";
      GroupOnce("1", "234");
    }
    assert ShowNumber(1234, true) == "+" + g == "+1,234";
    ParseNumberOfShown(1234, true);
  }

  /** One more digit on the right of the digits of `n / 10`. */
  lemma NatDigitsSnoc(n: nat, k: nat, ds: string)
    requires 1 <= n && k < 10 && NatDigits(n) == ds
    ensures NatDigits(n * 10 + k) == ds + [DigitChar(k)]
  {
    assert (n * 10 + k) / 10 == n && (n * 10 + k) % 10 == k;
  }

  /** One separator in front of the last three digits, when the head needs none. */
  lemma GroupOnce(head: string, tail: string)
    requires 1 <= |head| <= 3 && |tail| == 3 && IsDigitString(head + tail)
    ensures GroupThousands(head + tail) == head + "," + tail
  {
    var ds := head + tail;
    assert ds[..|ds| - 3] == head && ds[|ds| - 3..] == tail;
    assert IsDigitString(head) by {
      assert forall i | 0 <= i < |head| :: head[i] == ds[i];
    }
  }

  /** Worked example: a minus sign is kept. */
  lemma ParseNumberMinusSign()
    ensures ParseNumber("-567") == Some(-567)
  {
    var g := GroupThousands(NatDigits(567));
    assert g == "567" by {
      NatDigitsSnoc(5, 6, "5");
      NatDigitsSnoc(56, 7, "56");
    }
    assert ShowNumber(-567, false) == "-" + g == "-567";
    ParseNumberOfShown(-567, false);
  }

  /** Worked examples: a lone minus sign is 0, and text that is no number is refused. */
  lemma ParseNumberOddCells()
    ensures ParseNumber("-") == Some(0)
    ensures ParseNumber("N/A") == None
  {
    assert Strip("-") == "-";
    assert Strip("N/A") == "N/A";
    assert RemoveChar("N/A", ',') == "N/A";
    assert RemoveChar("N/A", '+') == "N/A";
  }
}
