/**
 * Worked examples: concrete inputs of the repository's own test suite
 * (test/aba.test.js) run through the model.
 */
module Examples {
  import opened Results
  import opened Values
  import opened Codec
  import opened Schemas
  import opened Lines
  import opened Totals
  import opened Generator

  /** The two-field "date" of the test that gives only a date: 18 June 2007 stamps as DDMMYY "180607". */
  lemma DateOnlyStamp()
    ensures DateStamp(Moment(18, 5, 2007, 0, 0)) == "180607"
  {
    Pad2TwoDigits(18);
    Pad2TwoDigits(6);
    Pad2TwoDigits(7);
  }

  /** 00:08 stamps as HHmm "0008". */
  lemma EightPastMidnightStamp()
    ensures TimeStamp(Moment(5, 6, 2014, 0, 8)) == "0008"
  {
    Pad2TwoDigits(0);
    Pad2TwoDigits(8);
  }

  /** An invalid date stamps "NaNaNa" and "NaNa": `pad2(NaN)` is "Na". */
  lemma InvalidDateStamp()
    ensures DateStamp(InvalidDate) == "NaNaNa"
    ensures TimeStamp(InvalidDate) == "NaNa"
  {
  }

  lemma NetDigits()
    ensures Digits(670) == "670" && Digits(67076) == "67076"
  {
    assert Digits(6) == "6";
    assert Digits(67) == Digits(6) + "7";
    assert Digits(670) == Digits(67) + "0";
    assert Digits(6707) == Digits(670) + "7";
  }

  /** 670.76 printed with `toFixed(2)`. */
  lemma NetText()
    ensures FixedTwo(67076) == "670.76"
  {
    NetDigits();
    assert 67076 / 100 == 670 && 67076 % 100 == 76;
    assert UnsignedFixedTwo(67076) == Digits(670) + "." + [DigitChar(7), DigitChar(6)];
  }

  /** "670.76" reads back as 67076 hundredths. */
  lemma NetReadsBack()
    ensures ParseNumber("670.76") == Some(67076)
  {
    NetText();
    FixedTwoRoundTrip(67076);
  }

  /** "670.76" in a ten-character money field. */
  lemma NetField()
    ensures RenderField(Str("670.76"), Field("netTotal", 20, 30, MoneyType, Unspecified)) == "0000067076"
  {
    var f := Field("netTotal", 20, 30, MoneyType, Unspecified);
    NetReadsBack();
    MoneyTextAsNumber("670.76", 67076, f);
    NetDigits();
    ZeroFill("67076", 10);
    assert RenderField(Num(67076), f) == Repeat('0', 5) + "67076";
    ZeroPaddedNet();
  }

  lemma ZeroPaddedNet()
    ensures Repeat('0', 5) + "67076" == "0000067076"
  {
    assert Repeat('0', 5) == "00000";
  }

  /**
   * The printed credit total 666.66 against the printed debit total 1337.42:
   * the net is printed positive, 670.76, and renders as "0000067076".
   */
  lemma NegativeNetPrintedPositive()
    ensures Difference(FixedTwo(66666), FixedTwo(133742)) == "670.76"
    ensures RenderField(Str(Difference(FixedTwo(66666), FixedTwo(133742))), Field("netTotal", 20, 30, MoneyType, Unspecified))
            == "0000067076"
  {
    NetIsAbsoluteDifference(66666, 133742);
    NetText();
    NetField();
  }

  // ---- The payments of "must return a negative net as positive" ----

  /** A CREDIT of 111.11, a PAY of 555.55 and a DEBIT of 1337.42, in that order. */
  predicate NegativeNetPayments(txs: seq<Payment>) {
    && |txs| == 3
    && Get(txs[0], "transactionCode") == CreditCode && Get(txs[0], "amount") == Num(11111)
    && Get(txs[1], "transactionCode") == PayCode && Get(txs[1], "amount") == Num(55555)
    && Get(txs[2], "transactionCode") == DebitCode && Get(txs[2], "amount") == Num(133742)
  }

  /** PAY (53) falls in the credit range 50..57, so the credit bucket holds 111.11 + 555.55. */
  lemma NegativeNetBuckets(txs: seq<Payment>)
    requires NegativeNetPayments(txs)
    ensures NumericBucket(txs, CreditBucket) && NumericBucket(txs, DebitBucket)
    ensures BucketCents(txs, CreditBucket) == 66666 && BucketCents(txs, DebitBucket) == 133742
  {
    assert InBucket(txs[0], CreditBucket) && !InBucket(txs[0], DebitBucket);
    assert InBucket(txs[1], CreditBucket) && !InBucket(txs[1], DebitBucket);
    assert !InBucket(txs[2], CreditBucket) && InBucket(txs[2], DebitBucket);
    assert txs[..2][..1] == txs[..1] && txs[..1][..0] == [] && txs[..3] == txs;
    assert BucketCents(txs[..1], CreditBucket) == 11111 && BucketCents(txs[..1], DebitBucket) == 0;
    assert BucketCents(txs[..2], CreditBucket) == 66666 && BucketCents(txs[..2], DebitBucket) == 0;
  }

  lemma CreditAndDebitTexts()
    ensures FixedTwo(66666) == "666.66" && FixedTwo(133742) == "1337.42"
  {
    assert Digits(6) == "6" && Digits(66) == Digits(6) + "6" && Digits(666) == Digits(66) + "6";
    assert Digits(1) == "1" && Digits(13) == Digits(1) + "3" && Digits(133) == Digits(13) + "3";
    assert Digits(1337) == Digits(133) + "7";
    assert 66666 / 100 == 666 && 66666 % 100 == 66 && 133742 / 100 == 1337 && 133742 % 100 == 42;
  }

  /**
   * The footer record `formatFooter` builds for those payments: credit total
   * "666.66", debit total "1337.42", and the net, printed positive, "670.76".
   */
  lemma NegativeNetFooter(txs: seq<Payment>, footerOptions: Record)
    requires NegativeNetPayments(txs)
    ensures FooterRecord(txs, footerOptions) == Ok(ComputedTotals("666.66", "1337.42", 3) + footerOptions)
    ensures Difference("666.66", "1337.42") == "670.76"
  {
    NegativeNetBuckets(txs);
    FooterTotals(txs, footerOptions);
    CreditAndDebitTexts();
    NegativeNetPrintedPositive();
  }

  /** A numeric text in a money field: its cents digits, zero-filled on the left. */
  lemma MoneyText(text: string, c: nat, f: Field)
    requires f.kind == MoneyType && ParseNumber(text) == Some(c) && |Digits(c)| <= Width(f)
    ensures RenderField(Str(text), f) == Repeat('0', Width(f) - |Digits(c)|) + Digits(c)
  {
    MoneyTextAsNumber(text, c, f);
    MoneyFieldDigits(c, f);
  }

  /** The credit total in its ten-column money field, as the test expects. */
  lemma CreditTotalField()
    ensures RenderField(Str("666.66"), Field("creditTotal", 30, 40, MoneyType, Unspecified)) == "0000066666"
  {
    assert ParseNumber("666.66") == Some(66666) by {
      CreditAndDebitTexts();
      FixedTwoRoundTrip(66666);
    }
    CreditTotalPadding();
    MoneyText("666.66", 66666, Field("creditTotal", 30, 40, MoneyType, Unspecified));
  }

  /** The debit total in its ten-column money field, as the test expects. */
  lemma DebitTotalField()
    ensures RenderField(Str("1337.42"), Field("debitTotal", 40, 50, MoneyType, Unspecified)) == "0000133742"
  {
    assert ParseNumber("1337.42") == Some(133742) by {
      CreditAndDebitTexts();
      FixedTwoRoundTrip(133742);
    }
    DebitTotalPadding();
    MoneyText("1337.42", 133742, Field("debitTotal", 40, 50, MoneyType, Unspecified));
  }

  lemma CreditTotalPadding()
    ensures |Digits(66666)| == 5 && Repeat('0', 10 - |Digits(66666)|) + Digits(66666) == "0000066666"
  {
    TotalDigits();
    assert Repeat('0', 5) == "00000";
  }

  lemma DebitTotalPadding()
    ensures |Digits(133742)| == 6 && Repeat('0', 10 - |Digits(133742)|) + Digits(133742) == "0000133742"
  {
    TotalDigits();
    assert Repeat('0', 4) == "0000";
  }

  lemma TotalDigits()
    ensures Digits(66666) == "66666" && Digits(133742) == "133742"
  {
    assert Digits(6) == "6" && Digits(66) == Digits(6) + "6" && Digits(666) == Digits(66) + "6";
    assert Digits(6666) == Digits(666) + "6";
    assert Digits(1) == "1" && Digits(13) == Digits(1) + "3" && Digits(133) == Digits(13) + "3";
    assert Digits(1337) == Digits(133) + "7" && Digits(13374) == Digits(1337) + "4";
  }

  // ---- The detail line of "must use given tax and tax amount" ----

  lemma TaxAmountDigits()
    ensures Digits(66613) == "66613"
  {
    assert Digits(6) == "6" && Digits(66) == Digits(6) + "6" && Digits(666) == Digits(66) + "6";
    assert Digits(6661) == Digits(666) + "1";
  }

  /** `tax: "X"` and `taxAmount: 666.13` give "X" in column 17 and "00066613" in columns 112..119. */
  lemma GivenTaxColumns(schemas: map<string, Schema>, p: Payment)
    requires PaymentKey(p) in schemas && schemas[PaymentKey(p)] == TransactionSchema
    requires Get(p, "tax") == Str("X") && Get(p, "taxAmount") == Num(66613)
    ensures PaymentLine(schemas, p).Ok?
    ensures var s := PaymentLine(schemas, p).value;
            |s| == 120 && s[17..18] == "X" && s[112..120] == "00066613"
  {
    TaxAmountPadding();
    TransactionTaxLayout();
    PaymentTaxColumns(schemas, p, 'X', 66613);
  }

  lemma TaxAmountPadding()
    ensures |Digits(66613)| == 5 && Repeat('0', 8 - |Digits(66613)|) + Digits(66613) == "00066613"
  {
    TaxAmountDigits();
    assert Repeat('0', 3) == "000";
  }

  // ---- The BSB normalisation of `formatBsb` ----

  /**
   * A BSB `a + run + b` whose first separator run is `run`, and whose
   * remaining characters `v` need no trimming, comes out as `v`'s slices.
   */
  lemma BsbOf(s: string, a: string, run: string, b: string, v: string)
    requires s == a + run + b && a + b == v
    requires NoSeparator(a) && SeparatorRun(run) && RunStops(b)
    requires v != [] && !IsWhiteSpace(v[0]) && !IsWhiteSpace(v[|v| - 1])
    ensures FormatBsb(s) == BsbSlices(v)
  {
    FormatBsbSplit(a, run, b);
    TrimKeeps(v);
  }

  /** "013 999": the space is the first run of separators, and goes. */
  lemma BsbWithSpace()
    ensures FormatBsb("013 999") == "013-999"
  {
    BsbOf("013 999", "013", " ", "999", "013999");
    assert BsbSlices("013999") == "013-999";
  }

  /** "01-3-999": only the first hyphen goes, so the second lands in the slices. */
  lemma BsbWithTwoHyphens()
    ensures FormatBsb("01-3-999") == "013--99"
  {
    BsbOf("01-3-999", "01", "-", "3-999", "013-999");
    assert BsbSlices("013-999") == "013--99";
  }

  /** " 013-999": the leading space is the first run, so the hyphen stays and shifts the slices. */
  lemma BsbWithLeadingSpace()
    ensures FormatBsb(" 013-999") == "013--99"
  {
    BsbOf(" 013-999", "", " ", "013-999", "013-999");
    assert BsbSlices("013-999") == "013--99";
  }

  // ---- The custom schema of "generate file with custom data" ----

  /**
   * The caller's schema under key "2" of that test: six fields with gaps
   * between some of them, the fifth right-aligned ("right" padding) and the
   * last left-aligned.
   */
  predicate CustomShape(fs: seq<Field>) {
    && |fs| == 6
    && fs[0] == Field("transactionType", 0, 1, StringType, Unspecified)
    && fs[1] == Field("account", 8, 17, StringType, Unspecified)
    && fs[2] == Field("transactionCode", 18, 20, IntegerType, Unspecified)
    && fs[3] == Field("amount", 20, 30, MoneyType, Unspecified)
    && fs[4] == Field("customRight", 40, 70, StringType, Unspecified)
    && fs[5] == Field("customLeft", 70, 120, StringType, Left)
  }

  /** The test's payment: the values those six fields find in it. */
  predicate CustomPayment(rec: Record) {
    && Get(rec, "transactionType") == Str("2")
    && Get(rec, "account") == Str("123456")
    && Get(rec, "transactionCode") == DebitCode
    && Get(rec, "amount") == Num(1200)
    && Get(rec, "customRight") == Str("right padding test")
    && Get(rec, "customLeft") == Str("left padding test")
  }

  lemma CustomShapeOrdered(fs: seq<Field>)
    requires CustomShape(fs)
    ensures Proper(fs) && InGrowOrder(fs, 0) && EndOf(fs, 0) == 120
  {
    assert PrevEnd(fs, 1, 0) == 1 && PrevEnd(fs, 2, 0) == 17 && PrevEnd(fs, 3, 0) == 20;
    assert PrevEnd(fs, 4, 0) == 30 && PrevEnd(fs, 5, 0) == 70;
  }

  lemma TypePiece()
    ensures RenderField(Str("2"), Field("transactionType", 0, 1, StringType, Unspecified)) == "2"
  {
  }

  lemma AccountPiece()
    ensures RenderField(Str("123456"), Field("account", 8, 17, StringType, Unspecified)) == "   123456"
  {
  }

  lemma CodePiece()
    ensures RenderField(Num(1300), Field("transactionCode", 18, 20, IntegerType, Unspecified)) == "13"
  {
  }

  lemma AmountPiece()
    ensures RenderField(Num(1200), Field("amount", 20, 30, MoneyType, Unspecified)) == "0000001200"
  {
    AmountDigits();
    assert ToCents(Num(1200)) == "1200";
    ZeroFill("1200", 10);
    ZeroPaddedAmount();
  }

  lemma AmountDigits()
    ensures Digits(1200) == "1200"
  {
    assert Digits(1) == "1";
    assert Digits(12) == Digits(1) + "2";
    assert Digits(120) == Digits(12) + "0";
  }

  lemma ZeroPaddedAmount()
    ensures Repeat('0', 6) + "1200" == "0000001200"
  {
    assert Repeat('0', 6) == "000000";
  }

  lemma RightPiece()
    ensures RenderField(Str("right padding test"), Field("customRight", 40, 70, StringType, Unspecified))
            == Repeat(' ', 12) + "right padding test"
  {
  }

  lemma LeftPiece()
    ensures RenderField(Str("left padding test"), Field("customLeft", 70, 120, StringType, Left))
            == "left padding test" + Repeat(' ', 33)
  {
  }

  /** The line is 120 characters with spaces in the gaps the schema leaves. */
  lemma CustomLineGaps(rec: Record, fs: seq<Field>)
    requires CustomShape(fs)
    ensures RenderLine(rec, fs).Ok?
    ensures var s := RenderLine(rec, fs).value;
            |s| == 120 && s[1..8] == Repeat(' ', 7) && s[17..18] == " " && s[30..40] == Repeat(' ', 10)
  {
    CustomShapeOrdered(fs);
    RenderLineOutcome(rec, fs);
    var s := RenderLine(rec, fs).value;
    FillerPlacement(rec, fs, 0, s);
    assert PrevEnd(fs, 1, 0) == 1 && PrevEnd(fs, 2, 0) == 17 && PrevEnd(fs, 4, 0) == 30;
  }

  lemma TypeColumn(rec: Record, fs: seq<Field>, s: string)
    requires CustomShape(fs) && CustomPayment(rec) && RenderLine(rec, fs) == Ok(s)
    ensures 1 <= |s| && s[0..1] == "2"
  {
    assert Proper(fs) by {
      CustomShapeOrdered(fs);
    }
    assert RenderField(Str("2"), fs[0]) == "2" by {
      TypePiece();
    }
    ColumnOf(rec, fs, s, 0, Str("2"), "2");
  }

  lemma AccountColumn(rec: Record, fs: seq<Field>, s: string)
    requires CustomShape(fs) && CustomPayment(rec) && RenderLine(rec, fs) == Ok(s)
    ensures 17 <= |s| && s[8..17] == "   123456"
  {
    assert Proper(fs) by {
      CustomShapeOrdered(fs);
    }
    assert RenderField(Str("123456"), fs[1]) == "   123456" by {
      AccountPiece();
    }
    ColumnOf(rec, fs, s, 1, Str("123456"), "   123456");
  }

  lemma CodeColumn(rec: Record, fs: seq<Field>, s: string)
    requires CustomShape(fs) && CustomPayment(rec) && RenderLine(rec, fs) == Ok(s)
    ensures 20 <= |s| && s[18..20] == "13"
  {
    assert Proper(fs) by {
      CustomShapeOrdered(fs);
    }
    assert RenderField(Num(1300), fs[2]) == "13" by {
      CodePiece();
    }
    ColumnOf(rec, fs, s, 2, Num(1300), "13");
  }

  lemma AmountColumn(rec: Record, fs: seq<Field>, s: string)
    requires CustomShape(fs) && CustomPayment(rec) && RenderLine(rec, fs) == Ok(s)
    ensures 30 <= |s| && s[20..30] == "0000001200"
  {
    assert Proper(fs) by {
      CustomShapeOrdered(fs);
    }
    assert RenderField(Num(1200), fs[3]) == "0000001200" by {
      AmountPiece();
    }
    ColumnOf(rec, fs, s, 3, Num(1200), "0000001200");
  }

  lemma RightColumn(rec: Record, fs: seq<Field>, s: string)
    requires CustomShape(fs) && CustomPayment(rec) && RenderLine(rec, fs) == Ok(s)
    ensures 70 <= |s| && s[40..70] == Repeat(' ', 12) + "right padding test"
  {
    assert Proper(fs) by {
      CustomShapeOrdered(fs);
    }
    assert RenderField(Str("right padding test"), fs[4]) == Repeat(' ', 12) + "right padding test" by {
      RightPiece();
    }
    ColumnOf(rec, fs, s, 4, Str("right padding test"), Repeat(' ', 12) + "right padding test");
  }

  lemma LeftColumn(rec: Record, fs: seq<Field>, s: string)
    requires CustomShape(fs) && CustomPayment(rec) && RenderLine(rec, fs) == Ok(s)
    ensures 120 <= |s| && s[70..120] == "left padding test" + Repeat(' ', 33)
  {
    assert Proper(fs) by {
      CustomShapeOrdered(fs);
    }
    assert RenderField(Str("left padding test"), fs[5]) == "left padding test" + Repeat(' ', 33) by {
      LeftPiece();
    }
    ColumnOf(rec, fs, s, 5, Str("left padding test"), "left padding test" + Repeat(' ', 33));
  }

  /**
   * The detail line of "generate file with custom data": each field's
   * rendering at its columns, spaces in the gaps, 120 characters in all.
   */
  lemma CustomLine(rec: Record, fs: seq<Field>)
    requires CustomShape(fs) && CustomPayment(rec)
    ensures RenderLine(rec, fs).Ok?
    ensures var s := RenderLine(rec, fs).value;
            && |s| == 120
            && s[0..1] == "2" && s[1..8] == Repeat(' ', 7) && s[8..17] == "   123456"
            && s[17..18] == " " && s[18..20] == "13" && s[20..30] == "0000001200"
            && s[30..40] == Repeat(' ', 10)
            && s[40..70] == Repeat(' ', 12) + "right padding test"
            && s[70..120] == "left padding test" + Repeat(' ', 33)
  {
    CustomLineGaps(rec, fs);
    var s := RenderLine(rec, fs).value;
    TypeColumn(rec, fs, s);
    AccountColumn(rec, fs, s);
    CodeColumn(rec, fs, s);
    AmountColumn(rec, fs, s);
    RightColumn(rec, fs, s);
    LeftColumn(rec, fs, s);
  }

  /** A payment of type "2" is rendered with the caller's schema under "2". */
  lemma CustomSchemaSelected(schemas: map<string, Schema>, p: Payment)
    requires "2" in schemas && Get(p, "transactionType") == Str("2")
    ensures PaymentLine(schemas, p) == RenderLine(PaymentDefaults + p, schemas["2"].fields)
  {
  }
}
