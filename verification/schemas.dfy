/**
 * Record schemas: the ordered field lists the line renderer walks, and the
 * three built-in schemas of the ABA direct-entry layout (type "0" descriptive
 * record, type "1" detail record, type "7" file total record).
 */
module Schemas {
  import opened Codec

  /** `{ recordType, fields }`. Only `fields` affects the output. */
  datatype Schema = Schema(recordType: string, fields: seq<Field>)

  /** The length of every record of the built-in layout. */
  const RecordWidth: nat := 120

  /** The write position before field `i` when rendering starts at `pointer`: the previous field's end. */
  function PrevEnd(fields: seq<Field>, i: nat, pointer: nat): nat
    requires i <= |fields|
  {
    if i == 0 then pointer else fields[i - 1].end
  }

  /** Every field starts at or after the end of the one before it ("grow order"). */
  predicate InGrowOrder(fields: seq<Field>, pointer: nat) {
    forall i {:trigger PrevEnd(fields, i, pointer)} :: 0 <= i < |fields| ==> PrevEnd(fields, i, pointer) <= fields[i].start
  }

  /** Every field ends at or after its own start. */
  predicate Proper(fields: seq<Field>) {
    forall i :: 0 <= i < |fields| ==> fields[i].start <= fields[i].end
  }

  /** The write position after the last field. */
  function EndOf(fields: seq<Field>, pointer: nat): nat {
    if fields == [] then pointer else fields[|fields| - 1].end
  }

  predicate WellFormed(s: Schema) {
    InGrowOrder(s.fields, 0) && Proper(s.fields)
  }

  /** The descriptive (header) record, type "0". */
  const HeaderSchema: Schema := Schema("header", [
    Field("type", 0, 1, StringType, Unspecified),
    Field("bsb", 1, 8, BsbType, Unspecified),
    Field("account", 8, 17, StringType, Unspecified),
    Field("sequenceNumber", 18, 20, IntegerType, Unspecified),
    Field("bank", 20, 23, StringType, Unspecified),
    Field("user", 30, 56, StringType, Left),
    Field("userNumber", 56, 62, IntegerType, Unspecified),
    Field("description", 62, 74, StringType, Left),
    Field("date", 74, 80, StringType, Unspecified),
    Field("time", 80, 84, StringType, Unspecified),
    Field("filler", 84, 120, StringType, Unspecified)
  ])

  /** The detail (transaction) record, type "1". */
  const TransactionSchema: Schema := Schema("transaction", [
    Field("transactionType", 0, 1, StringType, Unspecified),
    Field("bsb", 1, 8, BsbType, Unspecified),
    Field("account", 8, 17, StringType, Unspecified),
    Field("tax", 17, 18, StringType, Unspecified),
    Field("transactionCode", 18, 20, IntegerType, Unspecified),
    Field("amount", 20, 30, MoneyType, Unspecified),
    Field("accountTitle", 30, 62, StringType, Left),
    Field("reference", 62, 80, StringType, Left),
    Field("traceBsb", 80, 87, BsbType, Unspecified),
    Field("traceAccount", 87, 96, StringType, Unspecified),
    Field("remitter", 96, 112, StringType, Left),
    Field("taxAmount", 112, 120, MoneyType, Unspecified)
  ])

  /** The file total (footer) record, type "7". */
  const FooterSchema: Schema := Schema("footer", [
    Field("type", 0, 1, StringType, Unspecified),
    Field("bsb", 1, 8, BsbType, Unspecified),
    Field("netTotal", 20, 30, MoneyType, Unspecified),
    Field("creditTotal", 30, 40, MoneyType, Unspecified),
    Field("debitTotal", 40, 50, MoneyType, Unspecified),
    Field("numberOfTransactions", 74, 80, IntegerType, Unspecified),
    Field("filler", 80, 120, StringType, Unspecified)
  ])

  /** `defaultAbaSchemas`, keyed by record type. */
  const DefaultSchemas: map<string, Schema> :=
    map["0" := HeaderSchema, "1" := TransactionSchema, "7" := FooterSchema]

  /** A schema whose fields are ordered, do not overlap and end at column 120. */
  predicate FullWidth(s: Schema) {
    WellFormed(s) && EndOf(s.fields, 0) == RecordWidth
  }

  lemma HeaderFullWidth()
    ensures FullWidth(HeaderSchema)
  {
  }

  lemma TransactionFullWidth()
    ensures FullWidth(TransactionSchema)
    ensures InGrowOrder(TransactionSchema.fields, 0) && Proper(TransactionSchema.fields)
    ensures EndOf(TransactionSchema.fields, 0) == RecordWidth
  {
  }

  lemma FooterFullWidth()
    ensures FullWidth(FooterSchema)
  {
  }

  /** Where the detail record keeps the tax indicator and the tax amount. */
  lemma TransactionTaxFields()
    ensures |TransactionSchema.fields| == 12
    ensures TransactionSchema.fields[3] == Field("tax", 17, 18, StringType, Unspecified)
    ensures TransactionSchema.fields[11] == Field("taxAmount", 112, 120, MoneyType, Unspecified)
  {
  }

  /** Each built-in schema is ordered, free of overlaps and 120 characters wide. */
  lemma DefaultSchemasFullWidth()
    ensures DefaultSchemas.Keys == {"0", "1", "7"}
    ensures forall k :: k in DefaultSchemas ==> FullWidth(DefaultSchemas[k])
  {
    HeaderFullWidth();
    TransactionFullWidth();
    FooterFullWidth();
  }
}
