# ABA file generator — a Dafny model

This project models the core of `aba-generator`, a JavaScript library that writes
Australian Bankers' Association direct-entry files (also called Cemtext files). An ABA
file is a sequence of 120-character fixed-width records separated by CR LF:

- one descriptive record (type `0`, the header);
- one detail record (type `1`) per payment;
- one file total record (type `7`, the footer).

The model covers:

- **Values.** `values.dfy` models the JavaScript values a record holds: a missing key,
  a string, or a number kept as an exact count of hundredths. It also covers how those
  values print: `String(n)`, `toFixed(0)`, `toFixed(2)`, and `Number(text)` for the
  decimal texts the library produces.
- **Field codec.** `codec.dfy` models the field codec:
  - `reformatFieldType`, with its `money`, `string`, `integer`, `bsb` and unknown-type
    branches;
  - `toCents`;
  - `formatBsb`, which removes only the first run of white space or hyphens;
  - `pad2`.
- **Schemas.** `schemas.dfy` holds the three built-in schemas, with their field
  boundaries and padding.
- **Line rendering.** `lines.dfy` gives the meaning of `_generateLine` as a function.
  It walks the fields with a write pointer, writes filler spaces up to each field's
  start, then the field's rendering. It fails when a field starts before the pointer.
- **Totals.** `totals.dfy` models the footer totals: the credit and debit buckets, the
  `+` reduction, `sum`, `difference`, and the footer record the caller's options
  override. A text amount turns the reduction into string concatenation, and the
  `toFixed` call that follows throws.
- **The `ABA` class.** `aba.dfy` models the class as a Dafny class:
  - the constructor merges the schemas and options, then normalises the header date and
    time from a clock given as a parameter;
  - `_generateLine` is a method with a loop, proved against the rendering function;
  - `formatHeader`, `formatFooter` and `generate` are methods proved against functions
    of the settings and the payments.
  - The lemmas state the layout of the whole file and exactly when `generate` fails.
- **Test vectors.** `examples.dfy` restates some of the repository's test vectors as
  lemmas: date and time stamps, the footer totals of the negative-net test, a given tax
  indicator and tax amount, BSB normalisation, and the detail line of a custom schema.

Errors are values of `Result`. The thrown exceptions and `TypeError`s become `Err(...)`:

- `NoPayments`: `generate([])`.
- `FieldOrder`: a schema that is not in grow order.
- `UnknownSchema(key)`: reading `.fields` of a schema that is not there.
- `TotalNotNumeric`: calling `toFixed` on a concatenated sum.

## Model

| member | source | states |
|---|---|---|
| Schemas.DefaultSchemasFullWidth | index.js:1-49 | the built-in schemas are keyed "0", "1" and "7"; each is in grow order, has no field ending before it starts, and ends at column 120 |
| Schemas.TransactionFullWidth | index.js:19-35 | the detail schema is ordered and non-overlapping and ends at column 120 |
| Codec.RenderField | index.js:51-82 | every field renders to exactly `end - start` characters |
| Codec.FieldLayout | index.js:51-82 | per field type: money is the cents text right-aligned over '0'; integer is the value's text over '0'; a string field with left padding is left-aligned over spaces and any other string right-aligned; a bsb is the formatted bsb over spaces; an unknown type is the text over spaces; a text longer than the field is cut to its first characters |
| Codec.MoneyFieldReadsBack | index.js:54-57 | a non-negative amount that fits in a money field is printed as digits that read back as that amount in cents |
| Codec.MoneyFieldDigits | index.js:54-57 | a non-negative amount that fits a money field is printed as its cents digits, zero-filled on the left to the field's width |
| Codec.IntegerFieldReadsBack | index.js:71-74 | a non-negative whole number that fits in an integer field reads back from its zero-padded digits |
| Codec.MoneyTextAsNumber | index.js:84 | a money field given a numeric text renders exactly as the number it denotes (`Number(text)`) |
| Codec.FormatBsb | index.js:89-92 | the result is empty exactly when the input is blank once its first separator run is removed and it is trimmed; it is at most 7 characters |
| Codec.RemoveFirstRunSplit | index.js:90 | when the input is a separator-free prefix, then a run of white space or hyphens, then text that does not start with a separator, `replace(/(\s\|-)+/, "")` gives the prefix followed by that text: only the first run is removed |
| Codec.FirstRun | index.js:90 | any input that holds a separator splits as a separator-free prefix, its first maximal run of separators, and the rest |
| Codec.FormatBsbSplit | index.js:89-92 | for input split as prefix, first separator run and rest, the result is the `ddd-ddd` slicing of prefix and rest joined and trimmed (empty when that is empty) |
| Codec.FormatBsbNoSeparator | index.js:89-92 | input without separators is only trimmed and sliced |
| Codec.FormatBsbSixDigits | index.js:89-92 | six digits become `ddd-ddd` |
| Codec.FormatBsbCanonical | index.js:89-92 | a bsb already written `ddd-ddd` is unchanged |
| Codec.FormatBsbIdempotent | index.js:89-92 | formatting a six-digit bsb twice gives the same as once |
| Codec.Pad2 | index.js:87 | `pad2` always gives two characters |
| Codec.Pad2TwoDigits | index.js:87 | for 0..99 `pad2` gives the tens digit and the units digit |
| Values.DigitsRoundTrip | index.js:84 | the decimal digits of a natural number read back as that number |
| Values.DecimalStringRoundTrip | index.js:84 | `toFixed(0)` of a whole number reads back, by `Number`, as that number |
| Values.FixedTwoRoundTrip | index.js:85-86 | `toFixed(2)` of an amount in cents reads back, by `Number`, as the same amount, negative amounts included |
| Values.UnsignedFixedTwoRoundTrip | index.js:85-86 | the unsigned two-decimal text of a non-negative amount reads back as that amount |
| Lines.RenderSucceedsIffGrowOrder | index.js:149-152 | rendering from any pointer succeeds exactly when every field starts at or after the end of the one before; a failure is the field-order error |
| Lines.RenderLineOutcome | index.js:146-158 | a line renders exactly when its fields are in grow order; a failure is the field-order error; a rendered line is as long as the last field's end |
| Lines.RenderLength | index.js:153-157 | a rendered line's length is the last field's end less the starting pointer |
| Lines.FieldPlacement | index.js:153-155 | each field's rendering of `recordData[name] \|\| ""` sits exactly at the field's boundaries in the line |
| Lines.FillerPlacement | index.js:153 | every gap between one field's end and the next field's start is spaces |
| Lines.FalsyFieldRendering | index.js:154 | a missing, empty or zero value renders as all '0' in money and integer fields and all spaces elsewhere |
| Lines.FalsyColumns | index.js:154 | in a rendered line, the columns of a field whose value is falsy hold only '0' (money, integer) or only spaces |
| Lines.ColumnOf | index.js:153-155 | a field's columns in a rendered line hold exactly that field's rendering of the record's value |
| Lines.OneCharacterColumn | index.js:153-155 | a one-character text in a one-column string field stands as itself in the line |
| Lines.MoneyColumn | index.js:153-155 | a non-negative amount in a money field stands in the line's columns as that amount's own rendering, a zero amount (falsy, rendered from "") included |
| Lines.MoneyColumnReadsBack | index.js:153-155 | the columns of a money field holding a non-negative amount that fits are all digits and read back as that amount in cents |
| Lines.BuiltInLineWidth | index.js:1-49 | any record rendered with a built-in schema succeeds and is 120 characters long |
| Totals.Select | index.js:200-201 | a bucket never holds more payments than the input |
| Totals.Amounts | index.js:202-203 | `map((p) => p.amount)` keeps the length and takes each payment's amount |
| Totals.ReduceBucket | index.js:200-203 | the filter/map/reduce pipeline ends as a concatenated string if a bucket payment has a text amount, else NaN if one has no amount, else the exact sum of the bucket's amounts |
| Totals.BucketSumText | index.js:202-203 | `sum` fails exactly when a bucket payment has a text amount; it prints "NaN" when an amount is missing, otherwise the two-decimal text of the bucket's total |
| Totals.NetIsAbsoluteDifference | index.js:86 | the net of two printed sums is the two-decimal text of the absolute difference; it reads back as that difference and never starts with '-' |
| Totals.NetOfNaN | index.js:86 | a NaN credit or debit total makes the net "NaN" |
| Totals.TotalsOverridden | index.js:205-211 | footer options given by the caller replace the computed net, credit, debit and count; computed keys the caller did not give are kept |
| Totals.FooterTotals | index.js:199-211 | with numeric amounts, the footer record carries the credit total, the debit total, their absolute difference and the count, unless the options override them |
| Totals.FooterRecordFails | index.js:199-204 | building the footer record fails exactly when a credit or debit payment has a text amount, and the failure is the non-numeric-total error |
| Totals.BucketsDisjoint | index.js:200-201 | no payment is both a credit (code 50..57) and a debit (code 13) |
| Generator.TruncatedRemainder | index.js:132 | JavaScript's `%`, which truncates: for a non-negative year it is the usual remainder; for a negative year it lies in (-100, 0]; in every case the year is 100 times its quotient rounded toward zero plus the remainder |
| Generator.DateStamp | index.js:131-132 | the date stamp is always six characters, NaN dates included |
| Generator.TimeStamp | index.js:138 | the time stamp is always four characters |
| Generator.DateStampReadsBack | index.js:131-132 | a valid date prints as six digits whose pairs read back as the day, the month counted from 1 and the year modulo 100 |
| Generator.TimeStampReadsBack | index.js:138 | a valid time prints as four digits whose pairs read back as the hours and the minutes |
| Generator.HeaderNormalised | index.js:125-139 | after normalisation the date is a six-character string and the time is falsy or four characters; a conforming date or time is kept, any other is replaced by its stamp, and no other header key changes |
| Generator.HeaderNormalisedIdempotent | index.js:125-139 | normalising a normalised header again changes nothing |
| Generator.Aba.constructor | index.js:118-140 | the schemas are the built-ins overridden by the caller's; the footer is the footer defaults overridden by the options; the header is the header defaults overridden by the options, then normalised with the clock's stamps |
| Generator.Aba.StampHeader | index.js:125-139 | the header becomes the normalised header of its old value |
| Generator.Aba.GenerateLine | index.js:146-158 | the loop's result equals the line rendering function: the joined filler and field pieces, or the field-order error |
| Generator.Aba.FormatHeader | index.js:192-194 | the header line is the header options rendered with the schema named by their `type`, or the unknown-schema error |
| Generator.Aba.FormatFooter | index.js:199-214 | the footer line is the footer record rendered with the schema named by the footer options' `type`; a failed sum or a missing schema is the error |
| Generator.Aba.FormatPayments | index.js:180-185 | the detail lines, in order, of each payment spread over the payment defaults and rendered with the schema its type selects; the first failing payment decides the error |
| Generator.Aba.Generate | index.js:176-187 | the file is the join, with CR LF, of header, detail lines and footer, or the first error in source order (empty list, payments, header, footer) |
| Generator.PaymentLinesOk | index.js:180-185 | all detail lines are produced exactly when every payment's own line succeeds |
| Generator.PaymentLinesInOrder | index.js:180-185 | when they succeed there is one detail line per payment, in input order, each the payment's own line |
| Generator.PaymentLinesFirstError | index.js:180-185 | when the detail lines fail, some payment's own line failed with that error |
| Generator.JoinLayout | index.js:186 | joining 120-character lines with CR LF gives 122 characters per line less 2; line k sits at offset 122k, with CR LF after it |
| Generator.RecordLineWidth | index.js:146-158 | a record rendered with a full-width schema succeeds and is 120 characters |
| Generator.FileLayout | index.js:176-187 | with full-width schemas, a generated file is 122 × (payments + 2) − 2 characters: the header line first, payment i's line at offset 122(i+1), the footer line last, CR LF between them |
| Generator.GenerateFails | index.js:176-214 | with schemas in grow order, `generate` fails exactly when the list is empty, a payment's type or the header's or footer's type names no schema, or a credit or debit payment has a text amount; the empty list is reported as such |
| Generator.PaymentDefaultsColumns | index.js:217-221 | a payment without tax fields, rendered with the detail schema, has a blank tax column 17 and "00000000" in columns 112-120 |
| Generator.PaymentTaxColumns | index.js:180-185 | a payment's own `tax` and `taxAmount` override the defaults: a one-character tax indicator is printed in column 17, and a non-negative tax amount of at most eight digits in columns 112-120 as its zero-filled cents digits, which read back as that amount |
| Generator.TransactionTaxLayout | index.js:19-35 | the built-in detail schema is full width and keeps the tax indicator at column 17 and the money tax amount at columns 112-120 |
| Examples.DateOnlyStamp | test/aba.test.js:224-237 | 18 June 2007 stamps as "180607" |
| Examples.EightPastMidnightStamp | test/aba.test.js:253-268 | 00:08 stamps as "0008" |
| Examples.InvalidDateStamp | index.js:127-138 | an invalid date stamps as "NaNaNa" and "NaNa" |
| Examples.NegativeNetPrintedPositive | test/aba.test.js:363-367 | the printed credit total 666.66 against the printed debit total 1337.42 gives the net "670.76", rendered "0000067076" |
| Examples.NetField | test/aba.test.js:363-367 | the net text "670.76" in the 10-column money field is "0000067076" |
| Examples.NegativeNetBuckets | test/aba.test.js:359-361 | with CREDIT 111.11, PAY 555.55 and DEBIT 1337.42, the PAY payment (code 53) counts as a credit: the credit bucket holds 666.66 and the debit bucket 1337.42 |
| Examples.NegativeNetFooter | test/aba.test.js:348-372 | the footer record of those payments carries credit "666.66", debit "1337.42" and count 3, and its net is "670.76" |
| Examples.CreditTotalField | test/aba.test.js:365 | the credit total "666.66" in its money field is "0000066666" |
| Examples.DebitTotalField | test/aba.test.js:366 | the debit total "1337.42" in its money field is "0000133742" |
| Examples.GivenTaxColumns | test/aba.test.js:270-298 | a payment with `tax: "X"` and `taxAmount: 666.13` has "X" at column 17 and "00066613" at columns 112-120 |
| Examples.BsbWithSpace | index.js:89-92 | "013 999" becomes "013-999" |
| Examples.BsbWithTwoHyphens | index.js:89-92 | "01-3-999" becomes "013--99": only the first hyphen is removed |
| Examples.BsbWithLeadingSpace | index.js:89-92 | " 013-999" becomes "013--99": the leading space is the first run, so the hyphen stays |
| Examples.CustomLine | test/aba.test.js:57-105 | the test's custom schema "2" and payment render, column by column, to the expected 120-character line |
| Examples.CustomSchemaSelected | index.js:180-185 | a payment of type "2" is rendered with the caller's schema "2" over the payment defaults |

## Left out

- Floating point: each JavaScript number is an exact multiple of 0.01. `toFixed` rounding and binary-fraction error are not modelled.
- `Number(text)`: only "", an optional '-', digits, and an optional point with up to two fraction digits are read. Other syntaxes (exponents, '+', surrounding white space, hex, three or more decimals) are read as NaN.
- `toFixed` on numbers of 1e21 or more, which switches to exponent form, is not modelled.
- Values other than missing, strings and numbers (`null`, booleans, `NaN`, `Date` objects, nested objects) are not modelled as record values. A `Date` passed as the header date or time is always replaced by the constructor's stamp, which the model does.
- Generator.Aba.constructor: the host clock and time zone are left out. The calendar fields of `new Date(time || date || new Date())`, or an invalid date, are given as the `clock` parameter.
- Object spread and property lookup: prototype keys such as `toString` are not modelled. Records are finite maps from names to values.
- Generator.RecordLine: a missing schema key is a `TypeError` in the source, from reading `.fields` of `undefined`. It is modelled as the error `UnknownSchema(key)`.
- Strings are sequences of code points. JavaScript counts UTF-16 code units, so characters outside the Basic Multilingual Plane would give different widths.
- `index.d.ts` (type declarations only) is not part of this model.
- Examples.CustomLine states the custom-schema line column by column rather than as a single literal, and only the detail line of that test.
