/**
 * The `ABA` formatter object: its settings (schemas, header options, footer
 * options) fixed by the constructor, and the operations that turn a list of
 * payments into an ABA file: one descriptive record, one detail record per
 * payment and one file total record, separated by CR LF.
 */
module Generator {
  import opened Results
  import opened Values
  import opened Codec
  import opened Schemas
  import opened Lines
  import opened Totals

  /** `ABA.PAYMENT_DEFAULTS`. */
  const PaymentDefaults: Record := map["tax" := Str(""), "taxAmount" := Num(0), "transactionType" := Str("1")]

  /** `ABA.HEADER_DEFAULTS`. */
  const HeaderDefaults: Record := map[
    "type" := Str("0"),
    "sequenceNumber" := Num(100),
    "bsb" := Str(""),
    "account" := Str(""),
    "description" := Str(""),
    "time" := Str("")
  ]

  /** `ABA.FOOTER_DEFAULTS`. */
  const FooterDefaults: Record := map["type" := Str("7"), "bsb" := Str("999999")]

  /** The record separator of the file. */
  const Crlf: string := "\r\n"

  /**
   * The calendar fields of `new Date(time || date || new Date())` as read in
   * the host's time zone (`getDate`, `getMonth` counting from 0,
   * `getFullYear`, `getHours`, `getMinutes`), or `InvalidDate` when that date
   * is invalid and every getter returns NaN.
   */
  datatype Clock = InvalidDate | Moment(day: int, month: int, year: int, hours: int, minutes: int)

  /** JavaScript's `a % b`: the remainder takes the sign of `a`. */
  function TruncatedRemainder(a: int, b: int): (r: int)
    requires b > 0
    ensures a >= 0 ==> 0 <= r < b && r == a % b
    ensures a < 0 ==> -b < r <= 0
    ensures a == b * TruncatedQuotient(a, b) + r
  {
    if a >= 0 then a % b else -((-a) % b)
  }

  /** JavaScript's `Math.trunc(a / b)`: the quotient rounded toward zero. */
  function TruncatedQuotient(a: int, b: int): int
    requires b > 0
  {
    if a >= 0 then a / b else -((-a) / b)
  }

  /** `pad2(NaN)`: "NaN" cut to two characters. */
  const NaNPad2: string := Take(PadStart("NaN", 2, '0'), 2)

  /** `pad2(getDate()) + pad2(getMonth() + 1) + pad2(getFullYear() % 100)`: DDMMYY. */
  function DateStamp(clock: Clock): (r: string)
    ensures |r| == 6
  {
    match clock
    case InvalidDate => NaNPad2 + NaNPad2 + NaNPad2
    case Moment(day, month, year, _, _) => Pad2(day) + Pad2(month + 1) + Pad2(TruncatedRemainder(year, 100))
  }

  /** `pad2(getHours()) + pad2(getMinutes())`: HHmm. */
  function TimeStamp(clock: Clock): (r: string)
    ensures |r| == 4
  {
    match clock
    case InvalidDate => NaNPad2 + NaNPad2
    case Moment(_, _, _, hours, minutes) => Pad2(hours) + Pad2(minutes)
  }

  /** A header `date` the constructor keeps: a string of exactly six characters. */
  predicate KeepsDate(date: Value) {
    date.Str? && |date.s| == 6
  }

  /** A header `time` the constructor keeps: a falsy one, or a string of exactly four characters. */
  predicate KeepsTime(time: Value) {
    Falsy(time) || (time.Str? && |time.s| == 4)
  }

  /** A value below 100 printed by `pad2` reads back as that value. */
  lemma Pad2ReadsBack(n: int)
    requires 0 <= n < 100
    ensures AllDigits(Pad2(n)) && ParseNumber(Pad2(n)) == Some(n * 100)
  {
    Pad2TwoDigits(n);
    TwoDigitsParse(n / 10, n % 10);
  }

  /** Two-character fields side by side each read back as their own number. */
  lemma PairFields(a: string, b: string, x: int, y: int)
    requires |a| == 2 && AllDigits(a) && ParseNumber(a) == Some(x)
    requires |b| == 2 && AllDigits(b) && ParseNumber(b) == Some(y)
    ensures AllDigits(a + b)
    ensures ParseNumber((a + b)[0..2]) == Some(x) && ParseNumber((a + b)[2..4]) == Some(y)
  {
    assert (a + b)[0..2] == a && (a + b)[2..4] == b;
  }

  lemma TripleFields(a: string, b: string, c: string, x: int, y: int, z: int)
    requires |a| == 2 && AllDigits(a) && ParseNumber(a) == Some(x)
    requires |b| == 2 && AllDigits(b) && ParseNumber(b) == Some(y)
    requires |c| == 2 && AllDigits(c) && ParseNumber(c) == Some(z)
    ensures AllDigits(a + b + c)
    ensures ParseNumber((a + b + c)[0..2]) == Some(x)
    ensures ParseNumber((a + b + c)[2..4]) == Some(y)
    ensures ParseNumber((a + b + c)[4..6]) == Some(z)
  {
    assert (a + b + c)[0..2] == a && (a + b + c)[2..4] == b && (a + b + c)[4..6] == c;
  }

  /**
   * A valid calendar date prints as six digits whose pairs read back as the
   * day, the month counted from 1 and the year of the century.
   */
  lemma DateStampReadsBack(day: int, month: int, year: int, hours: int, minutes: int)
    requires 1 <= day <= 31 && 0 <= month <= 11 && 0 <= year
    ensures var r := DateStamp(Moment(day, month, year, hours, minutes));
            && AllDigits(r)
            && ParseNumber(r[0..2]) == Some(day * 100)
            && ParseNumber(r[2..4]) == Some((month + 1) * 100)
            && ParseNumber(r[4..6]) == Some(year % 100 * 100)
  {
    var y := TruncatedRemainder(year, 100);
    Pad2ReadsBack(day);
    Pad2ReadsBack(month + 1);
    Pad2ReadsBack(y);
    TripleFields(Pad2(day), Pad2(month + 1), Pad2(y), day * 100, (month + 1) * 100, y * 100);
  }

  /** A valid time of day prints as four digits whose pairs read back as hours and minutes. */
  lemma TimeStampReadsBack(day: int, month: int, year: int, hours: int, minutes: int)
    requires 0 <= hours < 24 && 0 <= minutes < 60
    ensures var r := TimeStamp(Moment(day, month, year, hours, minutes));
            && AllDigits(r)
            && ParseNumber(r[0..2]) == Some(hours * 100)
            && ParseNumber(r[2..4]) == Some(minutes * 100)
  {
    Pad2ReadsBack(hours);
    Pad2ReadsBack(minutes);
    PairFields(Pad2(hours), Pad2(minutes), hours * 100, minutes * 100);
  }

  /**
   * The constructor's header: a `date` that is not a six-character string is
   * replaced by the DDMMYY stamp `dateStamp`, and a truthy `time` that is not
   * a four-character string by the HHmm stamp `timeStamp`.
   */
  function NormalisedHeader(merged: Record, dateStamp: string, timeStamp: string): Record {
    var dated := if KeepsDate(Get(merged, "date")) then merged else merged["date" := Str(dateStamp)];
    if KeepsTime(Get(merged, "time")) then dated else dated["time" := Str(timeStamp)]
  }

  /**
   * After normalisation with a six-character date stamp and a four-character
   * time stamp, the header's date is a six-character string and its time is
   * falsy or a four-character string; a date or time already of that form is
   * kept, any other is replaced by the stamp, and no other key changes.
   */
  lemma HeaderNormalised(merged: Record, dateStamp: string, timeStamp: string)
    requires |dateStamp| == 6 && |timeStamp| == 4
    ensures var h := NormalisedHeader(merged, dateStamp, timeStamp);
            && "date" in h
            && KeepsDate(Get(h, "date"))
            && KeepsTime(Get(h, "time"))
            && Get(h, "date") == (if KeepsDate(Get(merged, "date")) then Get(merged, "date") else Str(dateStamp))
            && Get(h, "time") == (if KeepsTime(Get(merged, "time")) then Get(merged, "time") else Str(timeStamp))
            && (forall k :: k != "date" && k != "time" ==> Get(h, k) == Get(merged, k))
  {
    var h := NormalisedHeader(merged, dateStamp, timeStamp);
    assert "date" != "time";
  }

  /** Normalising a normalised header changes nothing, whatever the stamps. */
  lemma HeaderNormalisedIdempotent(merged: Record, dateStamp: string, timeStamp: string, date2: string, time2: string)
    requires |dateStamp| == 6 && |timeStamp| == 4
    ensures NormalisedHeader(NormalisedHeader(merged, dateStamp, timeStamp), date2, time2)
            == NormalisedHeader(merged, dateStamp, timeStamp)
  {
    HeaderNormalised(merged, dateStamp, timeStamp);
  }

  // ---- The file, as a function of the settings and the payments ----

  /** The line of `rec` rendered with the schema under `key`; a missing schema fails like reading `.fields` of `undefined`. */
  function RecordLine(schemas: map<string, Schema>, key: string, rec: Record): Result<string> {
    if key in schemas then RenderLine(rec, schemas[key].fields) else Err(UnknownSchema(key))
  }

  /** `formatHeader`: the header options rendered with the schema named by their `type`. */
  function HeaderLine(schemas: map<string, Schema>, header: Record): Result<string> {
    RecordLine(schemas, JsString(Get(header, "type")), header)
  }

  /** `payment.transactionType || ABA.PAYMENT_DEFAULTS.transactionType`, as a property key. */
  function PaymentKey(p: Payment): string {
    var t := Get(p, "transactionType");
    JsString(if Falsy(t) then PaymentDefaults["transactionType"] else t)
  }

  /** One detail line: the payment spread over the payment defaults, rendered with the schema its type selects. */
  function PaymentLine(schemas: map<string, Schema>, p: Payment): Result<string> {
    RecordLine(schemas, PaymentKey(p), PaymentDefaults + p)
  }

  /** The outcome of each payment's line, in input order. */
  function PaymentResults(schemas: map<string, Schema>, txs: seq<Payment>): seq<Result<string>> {
    seq(|txs|, i requires 0 <= i < |txs| => PaymentLine(schemas, txs[i]))
  }

  /** Outcomes produced left to right, as `map` does: the first failure is thrown, otherwise all values in order. */
  function Collect(rs: seq<Result<string>>): Result<seq<string>> {
    if rs == [] then Ok([])
    else
      var init :- Collect(rs[..|rs| - 1]);
      var last :- rs[|rs| - 1];
      Ok(init + [last])
  }

  /** `transactions.map(...)`: the detail lines in order; the first payment that fails decides the error. */
  function PaymentLines(schemas: map<string, Schema>, txs: seq<Payment>): Result<seq<string>> {
    Collect(PaymentResults(schemas, txs))
  }

  /** `formatFooter`: the footer record rendered with the schema named by the footer options' `type`. */
  function FooterLine(schemas: map<string, Schema>, footer: Record, txs: seq<Payment>): Result<string> {
    var rec :- FooterRecord(txs, footer);
    RecordLine(schemas, JsString(Get(footer, "type")), rec)
  }

  /** `lines.join(sep)`. */
  function Join(lines: seq<string>, sep: string): string {
    if |lines| == 0 then ""
    else if |lines| == 1 then lines[0]
    else Join(lines[..|lines| - 1], sep) + sep + lines[|lines| - 1]
  }

  /** `generate`: in the source's order, the empty check, the detail lines, the header, then the footer. */
  function GenerateFile(schemas: map<string, Schema>, header: Record, footer: Record, txs: seq<Payment>): Result<string> {
    if txs == [] then Err(NoPayments)
    else
      var lines :- PaymentLines(schemas, txs);
      var head :- HeaderLine(schemas, header);
      var foot :- FooterLine(schemas, footer, txs);
      Ok(Join([head] + lines + [foot], Crlf))
  }

  // ---- The formatter object ----

  class Aba {
    const schemas: map<string, Schema>
    var header: Record
    const footer: Record

    /**
     * Merges the built-in schemas and defaults with the caller's options, then
     * stamps the header's date and time from `clock`.
     */
    constructor(customSchemas: map<string, Schema>, headerOptions: Record, footerOptions: Record, clock: Clock)
      ensures schemas == DefaultSchemas + customSchemas
      ensures footer == FooterDefaults + footerOptions
      ensures header == NormalisedHeader(HeaderDefaults + headerOptions, DateStamp(clock), TimeStamp(clock))
    {
      schemas := DefaultSchemas + customSchemas;
      header := HeaderDefaults + headerOptions;
      footer := FooterDefaults + footerOptions;
      new;
      StampHeader(DateStamp(clock), TimeStamp(clock));
    }

    /**
     * The constructor's second half: overwrites a header `date` that is not a
     * six-character string with `dateStamp`, and a truthy header `time` that
     * is not a four-character string with `timeStamp`.
     */
    method StampHeader(dateStamp: string, timeStamp: string)
      modifies this
      ensures header == NormalisedHeader(old(header), dateStamp, timeStamp)
    {
      var date := Get(header, "date");
      var time := Get(header, "time");
      if !KeepsDate(date) {
        header := header["date" := Str(dateStamp)];
      }
      if !KeepsTime(time) {
        header := header["time" := Str(timeStamp)];
      }
    }

    /**
     * `_generateLine`: walks the fields with a write pointer, emitting filler
     * spaces up to each field's start and then the field's rendering, and
     * fails on a field that starts before the pointer.
     */
    method GenerateLine(rec: Record, fields: seq<Field>) returns (r: Result<string>)
      ensures r == RenderLine(rec, fields)
    {
      var out := "";
      var pointer: nat := 0;
      var rest := fields;
      assert RenderLine(rec, fields).Ok? ==> out + RenderLine(rec, fields).value == RenderLine(rec, fields).value;
      while rest != []
        invariant RenderLine(rec, fields) == Prepend(out, RenderFrom(rec, rest, pointer))
      {
        var f := rest[0];
        if f.start < pointer {
          return Err(FieldOrder);
        }
        var piece := Repeat(' ', f.start - pointer) + RenderField(FieldValue(rec, f), f);
        PrependTwice(out, piece, RenderFrom(rec, rest[1..], f.end));
        out := out + piece;
        pointer := f.end;
        rest := rest[1..];
      }
      assert out + "" == out;
      r := Ok(out);
    }

    /** `formatHeader`. */
    method FormatHeader() returns (r: Result<string>)
      ensures r == HeaderLine(schemas, header)
    {
      var key := JsString(Get(header, "type"));
      if key !in schemas {
        return Err(UnknownSchema(key));
      }
      r := GenerateLine(header, schemas[key].fields);
    }

    /** `formatFooter`: totals the payments into the footer record and renders it. */
    method FormatFooter(txs: seq<Payment>) returns (r: Result<string>)
      ensures r == FooterLine(schemas, footer, txs)
    {
      var rec := FooterRecord(txs, footer);
      if rec.Err? {
        return Err(rec.error);
      }
      var key := JsString(Get(footer, "type"));
      if key !in schemas {
        return Err(UnknownSchema(key));
      }
      r := GenerateLine(rec.value, schemas[key].fields);
    }

    /** `transactions.map(...)`: each payment over the payment defaults, rendered with the schema its type selects. */
    method FormatPayments(txs: seq<Payment>) returns (r: Result<seq<string>>)
      ensures r == PaymentLines(schemas, txs)
    {
      ghost var rs := PaymentResults(schemas, txs);
      var lines: seq<string> := [];
      var i := 0;
      while i < |txs|
        invariant 0 <= i <= |txs|
        invariant Collect(rs[..i]) == Ok(lines)
      {
        var p := txs[i];
        var key := PaymentKey(p);
        CollectSnoc(rs, i, lines);
        if key !in schemas {
          CollectPrefix(rs, i + 1);
          return Err(UnknownSchema(key));
        }
        var line := GenerateLine(PaymentDefaults + p, schemas[key].fields);
        if line.Err? {
          CollectPrefix(rs, i + 1);
          return Err(line.error);
        }
        lines := lines + [line.value];
        i := i + 1;
      }
      assert rs[..i] == rs;
      r := Ok(lines);
    }

    /** `generate`: the detail lines, then the header and the footer, joined with CR LF. */
    method Generate(txs: seq<Payment>) returns (r: Result<string>)
      ensures r == GenerateFile(schemas, header, footer, txs)
    {
      if |txs| == 0 {
        return Err(NoPayments);
      }
      var lines := FormatPayments(txs);
      if lines.Err? {
        return Err(lines.error);
      }
      var head := FormatHeader();
      if head.Err? {
        return Err(head.error);
      }
      var foot := FormatFooter(txs);
      if foot.Err? {
        return Err(foot.error);
      }
      r := Ok(Join([head.value] + lines.value + [foot.value], Crlf));
    }
  }

  // ---- Properties of the file ----

  /** One more outcome: its value is appended, or its failure is the failure of the longer prefix. */
  lemma CollectSnoc(rs: seq<Result<string>>, i: nat, values: seq<string>)
    requires i < |rs| && Collect(rs[..i]) == Ok(values)
    ensures rs[i].Err? ==> Collect(rs[..i + 1]) == Err(rs[i].error)
    ensures rs[i].Ok? ==> Collect(rs[..i + 1]) == Ok(values + [rs[i].value])
  {
    assert rs[..i + 1][..i] == rs[..i] && rs[..i + 1][i] == rs[i];
  }

  /** A failure among the first `k` outcomes is the failure of the whole list. */
  lemma {:induction false} CollectPrefix(rs: seq<Result<string>>, k: nat)
    requires k <= |rs| && Collect(rs[..k]).Err?
    ensures Collect(rs) == Err(Collect(rs[..k]).error)
    decreases |rs| - k
  {
    if k < |rs| {
      assert rs[..k + 1][..k] == rs[..k];
      CollectPrefix(rs, k + 1);
    } else {
      assert rs[..k] == rs;
    }
  }

  /** Collecting succeeds exactly when every outcome does. */
  lemma {:induction false} CollectOk(rs: seq<Result<string>>)
    ensures Collect(rs).Ok? <==> forall i :: 0 <= i < |rs| ==> rs[i].Ok?
  {
    if rs != [] {
      var init := rs[..|rs| - 1];
      CollectOk(init);
      assert forall i :: 0 <= i < |init| ==> init[i] == rs[i];
    }
  }

  /** A successful collection holds every value, in order. */
  lemma {:induction false} CollectInOrder(rs: seq<Result<string>>)
    requires Collect(rs).Ok?
    ensures |Collect(rs).value| == |rs|
    ensures forall i :: 0 <= i < |rs| ==> rs[i].Ok? && Collect(rs).value[i] == rs[i].value
  {
    if rs != [] {
      var init := rs[..|rs| - 1];
      CollectInOrder(init);
      assert forall i :: 0 <= i < |init| ==> init[i] == rs[i];
    }
  }

  /** A failed collection carries the error of the first failing outcome. */
  lemma {:induction false} CollectFirstError(rs: seq<Result<string>>)
    requires Collect(rs).Err?
    ensures exists i :: && 0 <= i < |rs| && rs[i].Err? && Collect(rs).error == rs[i].error
                        && forall j :: 0 <= j < i ==> rs[j].Ok?
  {
    var init := rs[..|rs| - 1];
    assert forall i :: 0 <= i < |init| ==> init[i] == rs[i];
    if Collect(init).Err? {
      CollectFirstError(init);
      var i :| && 0 <= i < |init| && init[i].Err? && Collect(init).error == init[i].error
               && forall j :: 0 <= j < i ==> init[j].Ok?;
      assert rs[i].Err?;
    } else {
      CollectOk(init);
      assert rs[|rs| - 1].Err?;
    }
  }

  /** The detail lines succeed exactly when every payment's line does. */
  lemma PaymentLinesOk(schemas: map<string, Schema>, txs: seq<Payment>)
    ensures PaymentLines(schemas, txs).Ok? <==> forall i :: 0 <= i < |txs| ==> PaymentLine(schemas, txs[i]).Ok?
  {
    var rs := PaymentResults(schemas, txs);
    CollectOk(rs);
    if forall i :: 0 <= i < |txs| ==> PaymentLine(schemas, txs[i]).Ok? {
      forall i | 0 <= i < |rs|
        ensures rs[i].Ok?
      {
        assert rs[i] == PaymentLine(schemas, txs[i]);
      }
    }
    if Collect(rs).Ok? {
      forall i | 0 <= i < |txs|
        ensures PaymentLine(schemas, txs[i]).Ok?
      {
        assert rs[i] == PaymentLine(schemas, txs[i]);
      }
    }
  }

  /** Successful detail lines are one line per payment, in input order. */
  lemma PaymentLinesInOrder(schemas: map<string, Schema>, txs: seq<Payment>)
    requires PaymentLines(schemas, txs).Ok?
    ensures |PaymentLines(schemas, txs).value| == |txs|
    ensures forall i :: 0 <= i < |txs| ==> PaymentLine(schemas, txs[i]).Ok?
    ensures forall i :: 0 <= i < |txs| ==> PaymentLines(schemas, txs).value[i] == PaymentLine(schemas, txs[i]).value
  {
    var rs := PaymentResults(schemas, txs);
    CollectInOrder(rs);
    forall i | 0 <= i < |txs|
      ensures PaymentLine(schemas, txs[i]).Ok?
      ensures Collect(rs).value[i] == PaymentLine(schemas, txs[i]).value
    {
      assert rs[i] == PaymentLine(schemas, txs[i]);
    }
  }

  /** A failure of the detail lines is the failure of the first payment whose line fails. */
  lemma PaymentLinesFirstError(schemas: map<string, Schema>, txs: seq<Payment>)
    requires PaymentLines(schemas, txs).Err?
    ensures exists i :: && 0 <= i < |txs| && PaymentLine(schemas, txs[i]).Err?
                        && PaymentLines(schemas, txs).error == PaymentLine(schemas, txs[i]).error
                        && forall j :: 0 <= j < i ==> PaymentLine(schemas, txs[j]).Ok?
  {
    var rs := PaymentResults(schemas, txs);
    CollectFirstError(rs);
    var i :| && 0 <= i < |rs| && rs[i].Err? && Collect(rs).error == rs[i].error
             && forall j :: 0 <= j < i ==> rs[j].Ok?;
    assert rs[i] == PaymentLine(schemas, txs[i]);
    forall j | 0 <= j < i
      ensures PaymentLine(schemas, txs[j]).Ok?
    {
      assert rs[j] == PaymentLine(schemas, txs[j]);
    }
  }

  lemma SliceOfPrefix(s: string, t: string, a: nat, b: nat)
    requires |t| <= |s| && s[..|t|] == t && a <= b <= |t|
    ensures s[a..b] == t[a..b]
  {
    forall k | 0 <= k < b - a
      ensures s[a..b][k] == t[a..b][k]
    {
      assert s[a + k] == s[..|t|][a + k];
    }
  }

  /**
   * Records of 120 characters joined by CR LF: record k occupies columns
   * [122k, 122k + 120), a CR LF follows every record but the last, and the
   * text has no terminator after the last record.
   */
  lemma {:induction false} JoinLayout(lines: seq<string>)
    requires lines != []
    requires forall i :: 0 <= i < |lines| ==> |lines[i]| == RecordWidth
    ensures |Join(lines, Crlf)| == 122 * |lines| - 2
    ensures forall k :: 0 <= k < |lines| ==> Join(lines, Crlf)[122 * k .. 122 * k + 120] == lines[k]
    ensures forall k :: 0 <= k < |lines| - 1 ==> Join(lines, Crlf)[122 * k + 120 .. 122 * k + 122] == Crlf
  {
    if |lines| > 1 {
      var init := lines[..|lines| - 1];
      var last := lines[|lines| - 1];
      JoinLayout(init);
      var j := Join(init, Crlf);
      var s := j + Crlf + last;
      assert Join(lines, Crlf) == s;
      assert s[..|j|] == j;
      assert s[|j| .. |j| + 2] == Crlf;
      assert s[|j| + 2 ..] == last;
      forall k | 0 <= k < |lines|
        ensures s[122 * k .. 122 * k + 120] == lines[k]
      {
        if k < |lines| - 1 {
          assert init[k] == lines[k];
          SliceOfPrefix(s, j, 122 * k, 122 * k + 120);
        }
      }
      forall k | 0 <= k < |lines| - 1
        ensures s[122 * k + 120 .. 122 * k + 122] == Crlf
      {
        if k < |lines| - 2 {
          SliceOfPrefix(s, j, 122 * k + 120, 122 * k + 122);
        }
      }
    }
  }

  /** With a full-width schema for its key, a record line that succeeds is 120 characters long. */
  lemma RecordLineWidth(schemas: map<string, Schema>, key: string, rec: Record)
    requires key in schemas && FullWidth(schemas[key])
    ensures RecordLine(schemas, key, rec).Ok?
    ensures |RecordLine(schemas, key, rec).value| == RecordWidth
  {
    RenderSucceedsIffGrowOrder(rec, schemas[key].fields, 0);
    RenderLength(rec, schemas[key].fields, 0);
  }

  /**
   * `PAYMENT_DEFAULTS` at work: a detail line of the built-in layout for a
   * payment with no truthy `tax` or `taxAmount` has a blank tax indicator in
   * column 17 and eight zeros as the tax amount in columns 112..119.
   */
  lemma PaymentDefaultsColumns(schemas: map<string, Schema>, p: Payment)
    requires PaymentKey(p) in schemas && schemas[PaymentKey(p)] == TransactionSchema
    requires Falsy(Get(p, "tax")) && Falsy(Get(p, "taxAmount"))
    ensures PaymentLine(schemas, p).Ok?
    ensures var s := PaymentLine(schemas, p).value;
            && |s| == RecordWidth
            && s[17..18] == " "
            && s[112..120] == "00000000"
  {
    var rec := PaymentDefaults + p;
    var fs := TransactionSchema.fields;
    TransactionFullWidth();
    RenderLineOutcome(rec, fs);
    DefaultTaxColumns(p, RenderLine(rec, fs).value);
  }

  lemma DefaultTaxColumns(p: Payment, s: string)
    requires Falsy(Get(p, "tax")) && Falsy(Get(p, "taxAmount"))
    requires RenderLine(PaymentDefaults + p, TransactionSchema.fields) == Ok(s)
    ensures 120 <= |s| && s[17..18] == " " && s[112..120] == "00000000"
  {
    var rec := PaymentDefaults + p;
    var fs := TransactionSchema.fields;
    TransactionFullWidth();
    TaxDefaults(p);
    TransactionTaxFields();
    FalsyColumns(rec, fs, s, 3);
    FalsyColumns(rec, fs, s, 11);
    BlankAndZeros();
  }

  /** The payment defaults fill in a falsy `tax` and `taxAmount`. */
  lemma TaxDefaults(p: Payment)
    requires Falsy(Get(p, "tax")) && Falsy(Get(p, "taxAmount"))
    ensures Falsy(Get(PaymentDefaults + p, "tax")) && Falsy(Get(PaymentDefaults + p, "taxAmount"))
  {
  }

  lemma BlankAndZeros()
    ensures Repeat(' ', 1) == " " && Repeat('0', 8) == "00000000"
  {
  }

  /**
   * A payment's own `tax` and `taxAmount` win over the defaults: in the
   * built-in detail layout (or any schema that keeps the tax fields where it
   * does, see `TransactionTaxLayout`) a one-character tax indicator appears as
   * itself in column 17, and a non-negative tax amount that fits eight digits
   * is printed in columns 112..119 as its cents digits zero-filled on the
   * left, which read back as that amount.
   */
  lemma PaymentTaxColumns(schemas: map<string, Schema>, p: Payment, t: char, c: nat)
    requires PaymentKey(p) in schemas && TaxLayout(schemas[PaymentKey(p)].fields)
    requires Get(p, "tax") == Str([t]) && Get(p, "taxAmount") == Num(c) && |Digits(c)| <= 8
    ensures PaymentLine(schemas, p).Ok?
    ensures var s := PaymentLine(schemas, p).value;
            && |s| == RecordWidth
            && s[17..18] == [t]
            && s[112..120] == Repeat('0', 8 - |Digits(c)|) + Digits(c)
            && AllDigits(s[112..120])
            && DigitsValue(s[112..120]) == c
  {
    var rec := PaymentDefaults + p;
    assert Get(rec, "tax") == Str([t]) && Get(rec, "taxAmount") == Num(c) by {
      OwnValueWins(p, "tax");
      OwnValueWins(p, "taxAmount");
    }
    TaxColumns(rec, schemas[PaymentKey(p)].fields, t, c);
  }

  /** A full-width field list that keeps the tax indicator and the tax amount where the detail record does. */
  predicate TaxLayout(fs: seq<Field>) {
    && Proper(fs) && InGrowOrder(fs, 0) && EndOf(fs, 0) == RecordWidth && |fs| == 12
    && fs[3] == Field("tax", 17, 18, StringType, Unspecified)
    && fs[11] == Field("taxAmount", 112, 120, MoneyType, Unspecified)
  }

  /** The built-in detail record has that layout. */
  lemma TransactionTaxLayout()
    ensures TaxLayout(TransactionSchema.fields)
  {
    TransactionFullWidth();
    TransactionTaxFields();
  }

  /** The tax indicator and the tax amount, read off a line whose schema keeps them where the detail record does. */
  lemma TaxColumns(rec: Record, fs: seq<Field>, t: char, c: nat)
    requires TaxLayout(fs)
    requires Get(rec, "tax") == Str([t]) && Get(rec, "taxAmount") == Num(c) && |Digits(c)| <= 8
    ensures RenderLine(rec, fs).Ok?
    ensures var s := RenderLine(rec, fs).value;
            && |s| == RecordWidth
            && s[17..18] == [t]
            && s[112..120] == Repeat('0', 8 - |Digits(c)|) + Digits(c)
            && AllDigits(s[112..120])
            && DigitsValue(s[112..120]) == c
  {
    RenderLineOutcome(rec, fs);
    var s := RenderLine(rec, fs).value;
    assert s[17..18] == [t] by {
      TaxIndicatorAt(rec, fs, s, t);
    }
    assert s[112..120] == Repeat('0', 8 - |Digits(c)|) + Digits(c) by {
      TaxAmountTextAt(rec, fs, s, c);
    }
    assert AllDigits(s[112..120]) && DigitsValue(s[112..120]) == c by {
      TaxAmountValueAt(rec, fs, s, c);
    }
  }

  /** The tax indicator of a line whose schema keeps it where the detail record does. */
  lemma TaxIndicatorAt(rec: Record, fs: seq<Field>, s: string, t: char)
    requires Proper(fs) && RenderLine(rec, fs) == Ok(s) && |fs| == 12
    requires fs[3] == Field("tax", 17, 18, StringType, Unspecified) && Get(rec, "tax") == Str([t])
    ensures 18 <= |s| && s[17..18] == [t]
  {
    OneCharacterColumn(rec, fs, s, 3, t);
  }

  /** The tax amount's text in a line whose schema keeps it where the detail record does. */
  lemma TaxAmountTextAt(rec: Record, fs: seq<Field>, s: string, c: nat)
    requires Proper(fs) && RenderLine(rec, fs) == Ok(s) && |fs| == 12
    requires fs[11] == Field("taxAmount", 112, 120, MoneyType, Unspecified)
    requires Get(rec, "taxAmount") == Num(c) && |Digits(c)| <= 8
    ensures 120 <= |s| && s[112..120] == Repeat('0', 8 - |Digits(c)|) + Digits(c)
  {
    MoneyColumn(rec, fs, s, 11, c);
    MoneyFieldDigits(c, fs[11]);
  }

  /** The tax amount read back from a line whose schema keeps it where the detail record does. */
  lemma TaxAmountValueAt(rec: Record, fs: seq<Field>, s: string, c: nat)
    requires Proper(fs) && RenderLine(rec, fs) == Ok(s) && |fs| == 12
    requires fs[11] == Field("taxAmount", 112, 120, MoneyType, Unspecified)
    requires Get(rec, "taxAmount") == Num(c) && |Digits(c)| <= 8
    ensures 120 <= |s| && AllDigits(s[112..120]) && DigitsValue(s[112..120]) == c
  {
    MoneyColumnReadsBack(rec, fs, s, 11, c);
  }

  /** A key the payment sets itself is read from the payment, not from the defaults. */
  lemma OwnValueWins(p: Payment, k: string)
    requires k in p
    ensures Get(PaymentDefaults + p, k) == p[k]
  {
  }

  /** Every schema in the table is ordered, free of overlaps and 120 wide, as the built-in ones are. */
  predicate AllFullWidth(schemas: map<string, Schema>) {
    forall k :: k in schemas ==> FullWidth(schemas[k])
  }

  /** A generated file is the header line, the detail lines and the footer line joined with CR LF. */
  lemma GenerateFileParts(schemas: map<string, Schema>, header: Record, footer: Record, txs: seq<Payment>)
    requires GenerateFile(schemas, header, footer, txs).Ok?
    ensures txs != []
    ensures PaymentLines(schemas, txs).Ok? && HeaderLine(schemas, header).Ok? && FooterLine(schemas, footer, txs).Ok?
    ensures GenerateFile(schemas, header, footer, txs).value
            == Join([HeaderLine(schemas, header).value] + PaymentLines(schemas, txs).value
                    + [FooterLine(schemas, footer, txs).value], Crlf)
  {
  }

  /** A header, detail lines and a footer of 120 characters each, joined with CR LF, sit at multiples of 122. */
  lemma FramedLayout(head: string, ls: seq<string>, foot: string)
    requires |head| == RecordWidth && |foot| == RecordWidth
    requires forall i :: 0 <= i < |ls| ==> |ls[i]| == RecordWidth
    ensures var file := Join([head] + ls + [foot], Crlf);
            && |file| == 122 * (|ls| + 2) - 2
            && file[..120] == head
            && (forall i :: 0 <= i < |ls| ==> file[122 * (i + 1) .. 122 * (i + 1) + 120] == ls[i])
            && file[122 * (|ls| + 1) ..] == foot
            && (forall k :: 0 <= k <= |ls| ==> file[122 * k + 120 .. 122 * k + 122] == Crlf)
  {
    var all := [head] + ls + [foot];
    forall i | 0 <= i < |all|
      ensures |all[i]| == RecordWidth
    {
      if 0 < i <= |ls| {
        assert all[i] == ls[i - 1];
      }
    }
    JoinLayout(all);
    var file := Join(all, Crlf);
    assert all[0] == head && all[|ls| + 1] == foot;
    assert file[..120] == file[122 * 0 .. 122 * 0 + 120];
    forall i | 0 <= i < |ls|
      ensures file[122 * (i + 1) .. 122 * (i + 1) + 120] == ls[i]
    {
      assert all[i + 1] == ls[i];
    }
    assert file[122 * (|ls| + 1) ..] == file[122 * (|ls| + 1) .. 122 * (|ls| + 1) + 120];
  }

  /**
   * With full-width schemas, a generated file is the header line, then one
   * detail line per payment in input order, then the footer line, each 120
   * characters and separated by CR LF, with no terminator at the end.
   */
  lemma FileLayout(schemas: map<string, Schema>, header: Record, footer: Record, txs: seq<Payment>)
    requires AllFullWidth(schemas)
    requires GenerateFile(schemas, header, footer, txs).Ok?
    ensures HeaderLine(schemas, header).Ok? && FooterLine(schemas, footer, txs).Ok?
    ensures forall i :: 0 <= i < |txs| ==> PaymentLine(schemas, txs[i]).Ok?
    ensures |GenerateFile(schemas, header, footer, txs).value| == 122 * (|txs| + 2) - 2
    ensures GenerateFile(schemas, header, footer, txs).value[..120] == HeaderLine(schemas, header).value
    ensures forall i :: 0 <= i < |txs| ==>
              GenerateFile(schemas, header, footer, txs).value[122 * (i + 1) .. 122 * (i + 1) + 120]
              == PaymentLine(schemas, txs[i]).value
    ensures GenerateFile(schemas, header, footer, txs).value[122 * (|txs| + 1) ..] == FooterLine(schemas, footer, txs).value
    ensures forall k :: 0 <= k <= |txs| ==>
              GenerateFile(schemas, header, footer, txs).value[122 * k + 120 .. 122 * k + 122] == Crlf
  {
    GenerateFileParts(schemas, header, footer, txs);
    var ls := PaymentLines(schemas, txs).value;
    var head := HeaderLine(schemas, header).value;
    var foot := FooterLine(schemas, footer, txs).value;
    PaymentLinesInOrder(schemas, txs);
    RecordLineWidth(schemas, JsString(Get(header, "type")), header);
    RecordLineWidth(schemas, JsString(Get(footer, "type")), FooterRecord(txs, footer).value);
    forall i | 0 <= i < |ls|
      ensures |ls[i]| == RecordWidth
    {
      RecordLineWidth(schemas, PaymentKey(txs[i]), PaymentDefaults + txs[i]);
    }
    FramedLayout(head, ls, foot);
  }

  /**
   * With schemas that are all in grow order, `generate` fails exactly when the
   * list is empty, a payment's type, the header type or the footer type names
   * no schema, or a text amount reaches the credit or the debit sum; an empty
   * list is reported as such.
   */
  lemma GenerateFails(schemas: map<string, Schema>, header: Record, footer: Record, txs: seq<Payment>)
    requires forall k :: k in schemas ==> WellFormed(schemas[k])
    ensures txs == [] ==> GenerateFile(schemas, header, footer, txs) == Err(NoPayments)
    ensures GenerateFile(schemas, header, footer, txs).Err? <==>
              || txs == []
              || (exists i :: 0 <= i < |txs| && PaymentKey(txs[i]) !in schemas)
              || JsString(Get(header, "type")) !in schemas
              || HasTextAmount(txs, CreditBucket) || HasTextAmount(txs, DebitBucket)
              || JsString(Get(footer, "type")) !in schemas
  {
    PaymentLinesOk(schemas, txs);
    forall i | 0 <= i < |txs|
      ensures PaymentLine(schemas, txs[i]).Ok? <==> PaymentKey(txs[i]) in schemas
    {
      var key := PaymentKey(txs[i]);
      if key in schemas {
        RenderSucceedsIffGrowOrder(PaymentDefaults + txs[i], schemas[key].fields, 0);
      }
    }
    var hk := JsString(Get(header, "type"));
    if hk in schemas {
      RenderSucceedsIffGrowOrder(header, schemas[hk].fields, 0);
    }
    FooterRecordFails(txs, footer);
    var fk := JsString(Get(footer, "type"));
    if fk in schemas && FooterRecord(txs, footer).Ok? {
      RenderSucceedsIffGrowOrder(FooterRecord(txs, footer).value, schemas[fk].fields, 0);
    }
  }
}
