/**
 * The totals aggregator behind the file total record (`ABA.formatFooter`):
 * payments are put into a credit bucket (transaction code 50..57) and a debit
 * bucket (code 13), each bucket's amounts are summed with JavaScript's `+`
 * and printed with two decimals (`sum`), and the net total is the absolute
 * difference of the two printed sums (`difference`).
 */
module Totals {
  import opened Results
  import opened Values

  /** `ABA.CREDIT`, `ABA.DEBIT` and `ABA.PAY`, as numbers (in hundredths). */
  const CreditCode: Value := Num(5000)
  const DebitCode: Value := Num(1300)
  const PayCode: Value := Num(5300)

  /** A payment, as given to `generate`. */
  type Payment = Record

  datatype Bucket = CreditBucket | DebitBucket

  /**
   * `p.transactionCode >= 50 && p.transactionCode <= 57`: a string code is
   * compared by its numeric value, and `undefined` or NaN compare false.
   */
  predicate IsCredit(p: Payment) {
    match Get(p, "transactionCode")
    case Missing => false
    case Num(h) => 5000 <= h <= 5700
    case Str(s) => ParseNumber(s).Some? && 5000 <= ParseNumber(s).value <= 5700
  }

  /** `p.transactionCode === ABA.DEBIT`: strict equality, so only the number 13 qualifies. */
  predicate IsDebit(p: Payment) {
    Get(p, "transactionCode") == DebitCode
  }

  predicate InBucket(p: Payment, b: Bucket) {
    match b
    case CreditBucket => IsCredit(p)
    case DebitBucket => IsDebit(p)
  }

  /** `payments.filter(...)` for one bucket, keeping the input order. */
  function Select(txs: seq<Payment>, b: Bucket): (r: seq<Payment>)
    ensures |r| <= |txs|
  {
    if txs == [] then []
    else
      var init := Select(txs[..|txs| - 1], b);
      if InBucket(txs[|txs| - 1], b) then init + [txs[|txs| - 1]] else init
  }

  /** `.map((p) => p.amount)`. */
  function Amounts(ps: seq<Payment>): (r: seq<Value>)
    ensures |r| == |ps|
    ensures forall i :: 0 <= i < |ps| ==> r[i] == Get(ps[i], "amount")
  {
    seq(|ps|, i requires 0 <= i < |ps| => Get(ps[i], "amount"))
  }

  /**
   * The value of a JavaScript `+` chain started at 0: a finite number, NaN
   * (after adding `undefined`), or a string (after adding a string, which
   * concatenates from then on).
   */
  datatype Sum = Finite(hundredths: int) | NotANumber | Concatenated

  /** `acc + v`. */
  function Plus(acc: Sum, v: Value): Sum {
    match v
    case Str(_) => Concatenated
    case Missing => if acc.Concatenated? then Concatenated else NotANumber
    case Num(h) =>
      match acc
      case Finite(c) => Finite(c + h)
      case _ => acc
  }

  /** `values.reduce((p, v) => p + v, 0)`, left to right. */
  function Reduce(vs: seq<Value>): Sum {
    if vs == [] then Finite(0) else Plus(Reduce(vs[..|vs| - 1]), vs[|vs| - 1])
  }

  /** `sum`: the reduction printed by `.toFixed(2)`; a string has no `toFixed`, so that case throws. */
  function SumText(vs: seq<Value>): Result<string> {
    match Reduce(vs)
    case Finite(c) => Ok(FixedTwo(c))
    case NotANumber => Ok("NaN")
    case Concatenated => Err(TotalNotNumeric)
  }

  /** `difference`: `Math.abs(credit - debit).toFixed(2)`, where both texts are read as numbers. */
  function Difference(credit: string, debit: string): string {
    var c := ParseNumber(credit);
    var d := ParseNumber(debit);
    if c.Some? && d.Some? then FixedTwo(Abs(c.value - d.value)) else "NaN"
  }

  /** `sum(bucket.map((p) => p.amount))` for the payments of one bucket. */
  function BucketSum(txs: seq<Payment>, b: Bucket): Result<string> {
    SumText(Amounts(Select(txs, b)))
  }

  /** The computed totals of the footer record, from the two printed sums and the payment count. */
  function ComputedTotals(credit: string, debit: string, count: nat): Record {
    map[
      "netTotal" := Str(Difference(credit, debit)),
      "creditTotal" := Str(credit),
      "debitTotal" := Str(debit),
      "numberOfTransactions" := Num(count * 100)
    ]
  }

  /** The footer record `formatFooter` builds before rendering, with the caller's footer options spread last. */
  function FooterRecord(txs: seq<Payment>, footerOptions: Record): Result<Record> {
    var credit :- BucketSum(txs, CreditBucket);
    var debit :- BucketSum(txs, DebitBucket);
    Ok(ComputedTotals(credit, debit, |txs|) + footerOptions)
  }

  // ---- An independent reading of the bucket totals, straight over the payments ----

  /** Some payment in the bucket has a text amount. */
  predicate HasTextAmount(txs: seq<Payment>, b: Bucket) {
    exists i :: 0 <= i < |txs| && InBucket(txs[i], b) && Get(txs[i], "amount").Str?
  }

  /** Some payment in the bucket has no amount. */
  predicate HasMissingAmount(txs: seq<Payment>, b: Bucket) {
    exists i :: 0 <= i < |txs| && InBucket(txs[i], b) && Get(txs[i], "amount").Missing?
  }

  /** The sum, in hundredths, of the numeric amounts of the payments in the bucket. */
  function BucketCents(txs: seq<Payment>, b: Bucket): int {
    if txs == [] then 0
    else
      var p := txs[|txs| - 1];
      BucketCents(txs[..|txs| - 1], b) + (if InBucket(p, b) && Get(p, "amount").Num? then Get(p, "amount").hundredths else 0)
  }

  /** A bucket whose amounts are all numbers. */
  predicate NumericBucket(txs: seq<Payment>, b: Bucket) {
    forall i :: 0 <= i < |txs| && InBucket(txs[i], b) ==> Get(txs[i], "amount").Num?
  }

  /** The value the filter/map/reduce pipeline ends with, told without the pipeline. */
  function ExpectedSum(txs: seq<Payment>, b: Bucket): Sum {
    if HasTextAmount(txs, b) then Concatenated
    else if HasMissingAmount(txs, b) then NotANumber
    else Finite(BucketCents(txs, b))
  }

  lemma PrefixText(txs: seq<Payment>, b: Bucket)
    requires txs != []
    ensures HasTextAmount(txs, b) <==>
              HasTextAmount(txs[..|txs| - 1], b) || (InBucket(txs[|txs| - 1], b) && Get(txs[|txs| - 1], "amount").Str?)
  {
    var init := txs[..|txs| - 1];
    if HasTextAmount(init, b) {
      var i :| 0 <= i < |init| && InBucket(init[i], b) && Get(init[i], "amount").Str?;
      assert txs[i] == init[i];
    }
    if HasTextAmount(txs, b) {
      var i :| 0 <= i < |txs| && InBucket(txs[i], b) && Get(txs[i], "amount").Str?;
      if i < |init| {
        assert init[i] == txs[i];
      }
    }
  }

  lemma PrefixMissing(txs: seq<Payment>, b: Bucket)
    requires txs != []
    ensures HasMissingAmount(txs, b) <==>
              HasMissingAmount(txs[..|txs| - 1], b) || (InBucket(txs[|txs| - 1], b) && Get(txs[|txs| - 1], "amount").Missing?)
  {
    var init := txs[..|txs| - 1];
    if HasMissingAmount(init, b) {
      var i :| 0 <= i < |init| && InBucket(init[i], b) && Get(init[i], "amount").Missing?;
      assert txs[i] == init[i];
    }
    if HasMissingAmount(txs, b) {
      var i :| 0 <= i < |txs| && InBucket(txs[i], b) && Get(txs[i], "amount").Missing?;
      if i < |init| {
        assert init[i] == txs[i];
      }
    }
  }

  /**
   * Filtering a bucket, taking the amounts and reducing with `+` gives: a
   * string when any amount in the bucket is text, otherwise NaN when any is
   * missing, otherwise the exact sum of the bucket's amounts.
   */
  lemma ReduceSnoc(a: seq<Value>, v: Value)
    ensures Reduce(a + [v]) == Plus(Reduce(a), v)
  {
    assert (a + [v])[..|a|] == a;
  }

  /** The reference reading grows the way `+` does when one more payment joins the bucket. */
  lemma ExpectedSumSnoc(txs: seq<Payment>, b: Bucket)
    requires txs != []
    ensures var p := txs[|txs| - 1];
            ExpectedSum(txs, b) ==
              if InBucket(p, b) then Plus(ExpectedSum(txs[..|txs| - 1], b), Get(p, "amount"))
              else ExpectedSum(txs[..|txs| - 1], b)
  {
    PrefixText(txs, b);
    PrefixMissing(txs, b);
  }

  lemma {:induction false} ReduceBucket(txs: seq<Payment>, b: Bucket)
    ensures Reduce(Amounts(Select(txs, b))) == ExpectedSum(txs, b)
  {
    if txs != [] {
      var init := txs[..|txs| - 1];
      var p := txs[|txs| - 1];
      ReduceBucket(init, b);
      ExpectedSumSnoc(txs, b);
      var a := Amounts(Select(init, b));
      if InBucket(p, b) {
        assert Amounts(Select(txs, b)) == a + [Get(p, "amount")];
        ReduceSnoc(a, Get(p, "amount"));
      }
    }
  }

  /** `sum` over a bucket: it throws exactly when a text amount is in the bucket, prints NaN for a missing one, and otherwise prints the bucket's exact total. */
  lemma BucketSumText(txs: seq<Payment>, b: Bucket)
    ensures BucketSum(txs, b).Err? <==> HasTextAmount(txs, b)
    ensures !HasTextAmount(txs, b) && HasMissingAmount(txs, b) ==>
              BucketSum(txs, b) == Ok("NaN")
    ensures NumericBucket(txs, b) ==> BucketSum(txs, b) == Ok(FixedTwo(BucketCents(txs, b)))
  {
    ReduceBucket(txs, b);
  }

  /**
   * The net total is |credit - debit|: computed from two printed sums it is
   * the printed absolute difference, it reads back as that number, and it
   * never carries a minus sign.
   */
  lemma {:induction false} NetIsAbsoluteDifference(c: int, d: int)
    ensures Difference(FixedTwo(c), FixedTwo(d)) == FixedTwo(Abs(c - d))
    ensures ParseNumber(Difference(FixedTwo(c), FixedTwo(d))) == Some(Abs(c - d))
    ensures Difference(FixedTwo(c), FixedTwo(d))[0] != '-'
  {
    FixedTwoRoundTrip(c);
    FixedTwoRoundTrip(d);
    DifferenceOfNumbers(FixedTwo(c), FixedTwo(d), c, d);
    FixedTwoRoundTrip(Abs(c - d));
    assert FixedTwo(Abs(c - d)) == UnsignedFixedTwo(Abs(c - d));
  }

  /** Two texts that read as numbers give the printed absolute difference of those numbers. */
  lemma DifferenceOfNumbers(credit: string, debit: string, c: int, d: int)
    requires ParseNumber(credit) == Some(c) && ParseNumber(debit) == Some(d)
    ensures Difference(credit, debit) == FixedTwo(Abs(c - d))
  {
  }

  /** When either printed sum is NaN, so is the net total. */
  lemma NetOfNaN(t: string)
    ensures Difference("NaN", t) == "NaN" && Difference(t, "NaN") == "NaN"
  {
    assert DotIndex("NaN") == 3;
    assert ParseNumber("NaN") == None;
  }

  /** Caller footer options win over the computed totals; a key they leave out keeps its computed value. */
  lemma TotalsOverridden(credit: string, debit: string, n: nat, footerOptions: Record)
    ensures var r := ComputedTotals(credit, debit, n) + footerOptions;
            && (forall k :: k in footerOptions ==> r[k] == footerOptions[k])
            && ("creditTotal" !in footerOptions ==> r["creditTotal"] == Str(credit))
            && ("debitTotal" !in footerOptions ==> r["debitTotal"] == Str(debit))
            && ("netTotal" !in footerOptions ==> r["netTotal"] == Str(Difference(credit, debit)))
            && ("numberOfTransactions" !in footerOptions ==> r["numberOfTransactions"] == Num(n * 100))
  {
  }

  /** When both bucket sums print, the footer record is the computed totals with the caller's options over them. */
  lemma FooterFromSums(txs: seq<Payment>, footerOptions: Record, credit: string, debit: string)
    requires BucketSum(txs, CreditBucket) == Ok(credit)
    requires BucketSum(txs, DebitBucket) == Ok(debit)
    ensures FooterRecord(txs, footerOptions) == Ok(ComputedTotals(credit, debit, |txs|) + footerOptions)
  {
  }

  /**
   * With numeric amounts in both buckets, the footer record is the credit
   * total, the debit total (each the exact sum of its bucket, printed with two
   * decimals), their net and the count of all payments, with the caller's
   * footer options spread over them. `TotalsOverridden` says which key wins;
   * `NetIsAbsoluteDifference` says the net is |credit - debit|.
   */
  lemma FooterTotals(txs: seq<Payment>, footerOptions: Record)
    requires NumericBucket(txs, CreditBucket) && NumericBucket(txs, DebitBucket)
    ensures var c, d := BucketCents(txs, CreditBucket), BucketCents(txs, DebitBucket);
            FooterRecord(txs, footerOptions)
            == Ok(ComputedTotals(FixedTwo(c), FixedTwo(d), |txs|) + footerOptions)
  {
    var c, d := BucketCents(txs, CreditBucket), BucketCents(txs, DebitBucket);
    BucketSumText(txs, CreditBucket);
    BucketSumText(txs, DebitBucket);
    FooterFromSums(txs, footerOptions, FixedTwo(c), FixedTwo(d));
  }

  /** Building the footer record fails exactly when a text amount sits in the credit or the debit bucket. */
  lemma FooterRecordFails(txs: seq<Payment>, footerOptions: Record)
    ensures FooterRecord(txs, footerOptions).Err? <==>
              HasTextAmount(txs, CreditBucket) || HasTextAmount(txs, DebitBucket)
    ensures FooterRecord(txs, footerOptions).Err? ==> FooterRecord(txs, footerOptions).error == TotalNotNumeric
  {
    BucketSumText(txs, CreditBucket);
    BucketSumText(txs, DebitBucket);
  }

  /** A payment is never in both buckets. */
  lemma BucketsDisjoint(p: Payment)
    ensures !(InBucket(p, CreditBucket) && InBucket(p, DebitBucket))
  {
  }
}
