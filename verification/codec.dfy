/**
 * The field codec: renders one value into a fixed-width slice of a record
 * (`reformatFieldType` and its helpers `toCents`, `formatBsb` and `pad2`).
 */
module Codec {
  import opened Results
  import opened Values

  /** The `type` of a schema field; any other tag falls through to the last branch of the codec. */
  datatype FieldType = StringType | IntegerType | MoneyType | BsbType | UnknownType(tag: string)

  /**
   * A string field's `padding`: "left" keeps the text at the left and appends
   * spaces; anything else (absent, "right") prepends the spaces.
   */
  datatype Padding = Left | Unspecified

  /** One schema field: its name in the record, `boundaries: [start, end]`, type and padding. */
  datatype Field = Field(name: string, start: nat, end: nat, kind: FieldType, padding: Padding)

  /**
   * `boundaries[1] - boundaries[0]`. A negative length pads nothing and
   * `substring(0, negative)` keeps nothing, so it behaves as 0.
   */
  function Width(f: Field): nat {
    if f.start <= f.end then f.end - f.start else 0
  }

  function Min(a: int, b: int): int {
    if a <= b then a else b
  }

  /** `c.repeat(n)`. */
  function Repeat(c: char, n: nat): (r: string)
    ensures |r| == n
    ensures forall i :: 0 <= i < n ==> r[i] == c
  {
    if n == 0 then "" else [c] + Repeat(c, n - 1)
  }

  /** `s.padStart(w, c)`: `c` in front until the length is `w`; never shortens. */
  function PadStart(s: string, w: nat, c: char): (r: string)
    ensures |r| == if |s| < w then w else |s|
    ensures r[|r| - |s|..] == s
    ensures forall i :: 0 <= i < |r| - |s| ==> r[i] == c
  {
    if |s| < w then Repeat(c, w - |s|) + s else s
  }

  /** `s.padEnd(w, c)`: `c` behind until the length is `w`; never shortens. */
  function PadEnd(s: string, w: nat, c: char): (r: string)
    ensures |r| == if |s| < w then w else |s|
    ensures r[..|s|] == s
    ensures forall i :: |s| <= i < |r| ==> r[i] == c
  {
    if |s| < w then s + Repeat(c, w - |s|) else s
  }

  /** `s.substring(0, w)`: the first `w` characters, or all of a shorter string. */
  function Take(s: string, w: nat): (r: string)
    ensures |r| == Min(w, |s|)
    ensures r == s[..|r|]
  {
    if |s| <= w then s else s[..w]
  }

  /** `toCents`: `(Number(v) * 100).toFixed(0)`, where NaN renders as "NaN". */
  function ToCents(v: Value): string {
    match v
    case Missing => "0"  // the parameter default `number = 0`
    case Num(h) => DecimalString(h)
    case Str(s) =>
      match ParseNumber(s)
      case Some(h) => DecimalString(h)
      case None => "NaN"
  }

  /** The characters JavaScript's `\s` and `trim` treat as white space. */
  predicate IsWhiteSpace(c: char) {
    var n := c as int;
    n == 0x09 || n == 0x0A || n == 0x0B || n == 0x0C || n == 0x0D || n == 0x20 ||
    n == 0xA0 || n == 0x1680 || (0x2000 <= n <= 0x200A) || n == 0x2028 || n == 0x2029 ||
    n == 0x202F || n == 0x205F || n == 0x3000 || n == 0xFEFF
  }

  /** A character of the pattern `(\s|-)`. */
  predicate IsBsbSeparator(c: char) {
    IsWhiteSpace(c) || c == '-'
  }

  /** Drops the separators at the front of `s`. */
  function DropSeparators(s: string): (r: string)
    ensures |r| <= |s|
  {
    if s != [] && IsBsbSeparator(s[0]) then DropSeparators(s[1..]) else s
  }

  /** `s.replace(/(\s|-)+/, "")`: deletes the first maximal run of separators. */
  function RemoveFirstRun(s: string): (r: string)
    ensures |r| <= |s|
  {
    if s == [] then []
    else if IsBsbSeparator(s[0]) then DropSeparators(s)
    else [s[0]] + RemoveFirstRun(s[1..])
  }

  function TrimStart(s: string): (r: string)
    ensures |r| <= |s|
  {
    if s != [] && IsWhiteSpace(s[0]) then TrimStart(s[1..]) else s
  }

  function TrimEnd(s: string): (r: string)
    ensures |r| <= |s|
  {
    if s != [] && IsWhiteSpace(s[|s| - 1]) then TrimEnd(s[..|s| - 1]) else s
  }

  /** `s.trim()`. */
  function Trim(s: string): (r: string)
    ensures |r| <= |s|
  {
    TrimEnd(TrimStart(s))
  }

  /**
   * `formatBsb`: remove the first run of separators and trim; an empty
   * result stays empty, otherwise characters 0..3, a hyphen, characters 3..6.
   */
  function FormatBsb(s: string): (r: string)
    ensures |r| <= 7
    ensures r == "" <==> Trim(RemoveFirstRun(s)) == ""
  {
    BsbSlices(Trim(RemoveFirstRun(s)))
  }

  /** `value ? `${value.slice(0, 3)}-${value.slice(3, 6)}` : ""`. */
  function BsbSlices(v: string): (r: string)
    ensures |r| <= 7
    ensures r == "" <==> v == ""
  {
    if v == "" then "" else v[..Min(3, |v|)] + "-" + v[Min(3, |v|)..Min(6, |v|)]
  }

  /** `reformatFieldType`: one value rendered into a slice of exactly the field's width. */
  function RenderField(v: Value, f: Field): (r: string)
    ensures |r| == Width(f)
  {
    var w := Width(f);
    match f.kind
    case MoneyType => Take(PadStart(ToCents(v), w, '0'), w)
    case StringType =>
      if f.padding == Left then Take(PadEnd(JsString(v), w, ' '), w)
      else Take(PadStart(JsString(v), w, ' '), w)
    case IntegerType => Take(PadStart(JsString(v), w, '0'), w)
    case BsbType => Take(PadStart(FormatBsb(JsString(v)), w, ' '), w)
    case UnknownType(_) => Take(PadStart(JsString(v), w, ' '), w)
  }

  /** `r` holds `t` at its right end over `fill`, or only `t`'s first `w` characters when `t` is longer. */
  predicate RightAligned(r: string, t: string, w: nat, fill: char) {
    && |r| == w
    && (|t| <= w ==> r[w - |t|..] == t && forall i :: 0 <= i < w - |t| ==> r[i] == fill)
    && (|t| > w ==> r == t[..w])
  }

  /** `r` holds `t` at its left end followed by `fill`, or only `t`'s first `w` characters when `t` is longer. */
  predicate LeftAligned(r: string, t: string, w: nat, fill: char) {
    && |r| == w
    && (|t| <= w ==> r[..|t|] == t && forall i :: |t| <= i < w ==> r[i] == fill)
    && (|t| > w ==> r == t[..w])
  }

  lemma PadStartTake(t: string, w: nat, c: char)
    ensures RightAligned(Take(PadStart(t, w, c), w), t, w, c)
  {
    var p := PadStart(t, w, c);
    if |t| <= w {
      assert Take(p, w) == p;
    } else {
      assert p == t;
    }
  }

  lemma PadEndTake(t: string, w: nat, c: char)
    ensures LeftAligned(Take(PadEnd(t, w, c), w), t, w, c)
  {
    var p := PadEnd(t, w, c);
    if |t| <= w {
      assert Take(p, w) == p;
    } else {
      assert p == t;
    }
  }

  /**
   * The layout of every field type: money and integer text zero-filled on the
   * left, strings space-filled on the side their padding names, BSBs
   * normalised and space-filled on the left, other types as unpadded strings;
   * text longer than the field keeps its first `Width(f)` characters.
   */
  lemma {:induction false} FieldLayout(v: Value, f: Field)
    ensures f.kind == MoneyType ==> RightAligned(RenderField(v, f), ToCents(v), Width(f), '0')
    ensures f.kind == IntegerType ==> RightAligned(RenderField(v, f), JsString(v), Width(f), '0')
    ensures f.kind == StringType && f.padding == Left ==>
              LeftAligned(RenderField(v, f), JsString(v), Width(f), ' ')
    ensures f.kind == StringType && f.padding != Left ==>
              RightAligned(RenderField(v, f), JsString(v), Width(f), ' ')
    ensures f.kind == BsbType ==> RightAligned(RenderField(v, f), FormatBsb(JsString(v)), Width(f), ' ')
    ensures f.kind.UnknownType? ==> RightAligned(RenderField(v, f), JsString(v), Width(f), ' ')
  {
    var w := Width(f);
    match f.kind
    case MoneyType => PadStartTake(ToCents(v), w, '0');
    case IntegerType => PadStartTake(JsString(v), w, '0');
    case StringType =>
      if f.padding == Left {
        PadEndTake(JsString(v), w, ' ');
      } else {
        PadStartTake(JsString(v), w, ' ');
      }
    case BsbType => PadStartTake(FormatBsb(JsString(v)), w, ' ');
    case UnknownType(_) => PadStartTake(JsString(v), w, ' ');
  }

  /** Leading zeros do not change the number a digit string denotes. */
  lemma {:induction false} LeadingZeros(k: nat, d: string)
    requires AllDigits(d)
    ensures AllDigits(Repeat('0', k) + d)
    ensures DigitsValue(Repeat('0', k) + d) == DigitsValue(d)
    decreases |d|
  {
    var z := Repeat('0', k) + d;
    if d == [] {
      assert z == Repeat('0', k);
      ZerosValue(k);
    } else {
      assert z[..|z| - 1] == Repeat('0', k) + d[..|d| - 1];
      LeadingZeros(k, d[..|d| - 1]);
    }
  }

  lemma {:induction false} ZerosValue(k: nat)
    ensures AllDigits(Repeat('0', k))
    ensures DigitsValue(Repeat('0', k)) == 0
  {
    if k > 0 {
      var z := Repeat('0', k);
      assert z[..k - 1] == Repeat('0', k - 1);
      ZerosValue(k - 1);
    }
  }

  /**
   * A non-negative amount of `c` cents that fits its money field is rendered as
   * digits that read back as `c`: the field encodes the amount exactly.
   */
  lemma {:induction false} MoneyFieldReadsBack(c: nat, f: Field)
    requires f.kind == MoneyType
    requires |Digits(c)| <= Width(f)
    ensures AllDigits(RenderField(Num(c), f))
    ensures DigitsValue(RenderField(Num(c), f)) == c
  {
    var w := Width(f);
    var d := Digits(c);
    assert ToCents(Num(c)) == d;
    var r := RenderField(Num(c), f);
    assert r == Take(PadStart(d, w, '0'), w);
    ZeroFill(d, w);
    LeadingZeros(w - |d|, d);
    DigitsRoundTrip(c);
  }

  /**
   * A non-negative whole number `n` that fits its integer field is rendered as
   * digits that read back as `n`.
   */
  lemma {:induction false} IntegerFieldReadsBack(n: nat, f: Field)
    requires f.kind == IntegerType
    requires |Digits(n)| <= Width(f)
    ensures AllDigits(RenderField(Num(n * 100), f))
    ensures DigitsValue(RenderField(Num(n * 100), f)) == n
  {
    var w := Width(f);
    var d := Digits(n);
    assert (n * 100) % 100 == 0 && (n * 100) / 100 == n;
    assert JsString(Num(n * 100)) == d;
    var r := RenderField(Num(n * 100), f);
    assert r == Take(PadStart(d, w, '0'), w);
    ZeroFill(d, w);
    LeadingZeros(w - |d|, d);
    DigitsRoundTrip(n);
  }

  /** A money field renders a text amount exactly as the number the text reads as. */
  lemma MoneyTextAsNumber(s: string, c: int, f: Field)
    requires f.kind == MoneyType && ParseNumber(s) == Some(c)
    ensures RenderField(Str(s), f) == RenderField(Num(c), f)
  {
  }

  /** One character fills a one-column string field as it is. */
  lemma OneCharacterField(t: char, f: Field)
    requires f.kind == StringType && Width(f) == 1
    ensures RenderField(Str([t]), f) == [t]
  {
    assert PadStart([t], 1, ' ') == [t] && PadEnd([t], 1, ' ') == [t];
  }

  /** A non-negative amount that fits its money field is its cents digits zero-filled on the left. */
  lemma MoneyFieldDigits(c: nat, f: Field)
    requires f.kind == MoneyType && |Digits(c)| <= Width(f)
    ensures RenderField(Num(c), f) == Repeat('0', Width(f) - |Digits(c)|) + Digits(c)
  {
    assert ToCents(Num(c)) == Digits(c);
    ZeroFill(Digits(c), Width(f));
  }

  lemma ZeroFill(d: string, w: nat)
    requires |d| <= w
    ensures Take(PadStart(d, w, '0'), w) == Repeat('0', w - |d|) + d
  {
    if |d| == w {
      assert Repeat('0', 0) == "";
    }
  }

  lemma {:induction false} RemoveFirstRunNoSeparator(s: string)
    requires forall i :: 0 <= i < |s| ==> !IsBsbSeparator(s[i])
    ensures RemoveFirstRun(s) == s
  {
    if s != [] {
      RemoveFirstRunNoSeparator(s[1..]);
    }
  }

  lemma {:induction false} RemoveFirstRunHyphen(a: string, b: string)
    requires AllDigits(a) && AllDigits(b) && b != []
    ensures RemoveFirstRun(a + "-" + b) == a + b
  {
    var s := a + "-" + b;
    if a == [] {
      assert s == "-" + b;
      assert s[1..] == b;
      assert DropSeparators(b) == b;
      assert DropSeparators(s) == b;
    } else {
      assert s[1..] == a[1..] + "-" + b;
      RemoveFirstRunHyphen(a[1..], b);
      assert a + b == [a[0]] + (a[1..] + b);
    }
  }

  /** No character of `s` is white space or a hyphen. */
  predicate NoSeparator(s: string) {
    forall i :: 0 <= i < |s| ==> !IsBsbSeparator(s[i])
  }

  /** A non-empty run of white space and hyphens. */
  predicate SeparatorRun(run: string) {
    run != [] && forall i :: 0 <= i < |run| ==> IsBsbSeparator(run[i])
  }

  /** `b` does not continue a run that precedes it. */
  predicate RunStops(b: string) {
    b == [] || !IsBsbSeparator(b[0])
  }

  lemma {:induction false} DropSeparatorsRun(run: string, b: string)
    requires forall i :: 0 <= i < |run| ==> IsBsbSeparator(run[i])
    requires RunStops(b)
    ensures DropSeparators(run + b) == b
  {
    if run == [] {
      assert run + b == b;
    } else {
      assert (run + b)[1..] == run[1..] + b;
      DropSeparatorsRun(run[1..], b);
    }
  }

  /**
   * The regular expression `/(\s|-)+/` without the `g` flag: in `a + run + b`,
   * where `a` has no separator and `run` is a maximal run, only `run` is
   * deleted; any later separators in `b` stay.
   */
  lemma {:induction false} RemoveFirstRunSplit(a: string, run: string, b: string)
    requires NoSeparator(a) && SeparatorRun(run) && RunStops(b)
    ensures RemoveFirstRun(a + run + b) == a + b
  {
    if a == [] {
      assert a + run + b == run + b;
      DropSeparatorsRun(run, b);
    } else {
      assert (a + run + b)[1..] == a[1..] + run + b;
      RemoveFirstRunSplit(a[1..], run, b);
      assert a + b == [a[0]] + (a[1..] + b);
    }
  }

  /** A string that starts with a separator splits into its leading maximal run and the rest. */
  lemma {:induction false} LeadingRun(s: string) returns (run: string, b: string)
    requires s != [] && IsBsbSeparator(s[0])
    ensures s == run + b && SeparatorRun(run) && RunStops(b)
  {
    if |s| == 1 || !IsBsbSeparator(s[1]) {
      run, b := [s[0]], s[1..];
    } else {
      var run', b' := LeadingRun(s[1..]);
      run, b := [s[0]] + run', b';
    }
  }

  /** Every string with a separator is separator-free text, then its first maximal run, then the rest. */
  lemma {:induction false} FirstRun(s: string) returns (a: string, run: string, b: string)
    requires !NoSeparator(s)
    ensures s == a + run + b && NoSeparator(a) && SeparatorRun(run) && RunStops(b)
  {
    if IsBsbSeparator(s[0]) {
      a := [];
      run, b := LeadingRun(s);
    } else {
      var a', run', b' := FirstRun(s[1..]);
      a, run, b := [s[0]] + a', run', b';
    }
  }

  /**
   * `formatBsb` on any input: without a separator the trimmed text is sliced;
   * otherwise the first maximal run of white space and hyphens is removed and
   * the rest, later separators included, is trimmed and sliced.
   */
  lemma FormatBsbSplit(a: string, run: string, b: string)
    requires NoSeparator(a) && SeparatorRun(run) && RunStops(b)
    ensures FormatBsb(a + run + b) == BsbSlices(Trim(a + b))
  {
    RemoveFirstRunSplit(a, run, b);
  }

  lemma FormatBsbNoSeparator(s: string)
    requires NoSeparator(s)
    ensures FormatBsb(s) == BsbSlices(Trim(s))
  {
    RemoveFirstRunNoSeparator(s);
  }

  /** Trimming keeps a string that neither starts nor ends with white space. */
  lemma TrimKeeps(s: string)
    requires s != [] && !IsWhiteSpace(s[0]) && !IsWhiteSpace(s[|s| - 1])
    ensures Trim(s) == s
  {
    assert TrimStart(s) == s;
  }

  lemma TrimDigits(d: string)
    requires AllDigits(d) && d != []
    ensures Trim(d) == d
  {
    assert TrimStart(d) == d;
  }

  /** Six digits normalise to `NNN-NNN`. */
  lemma {:induction false} FormatBsbSixDigits(d: string)
    requires |d| == 6 && AllDigits(d)
    ensures FormatBsb(d) == d[..3] + "-" + d[3..]
  {
    RemoveFirstRunNoSeparator(d);
    TrimDigits(d);
  }

  /** A BSB already in `NNN-NNN` form is left as it is. */
  lemma {:induction false} FormatBsbCanonical(d: string)
    requires |d| == 6 && AllDigits(d)
    ensures FormatBsb(d[..3] + "-" + d[3..]) == d[..3] + "-" + d[3..]
  {
    RemoveFirstRunHyphen(d[..3], d[3..]);
    assert d[..3] + d[3..] == d;
    FormatBsbSixDigits(d);
  }

  /** `formatBsb` is idempotent on its six-digit results. */
  lemma {:induction false} FormatBsbIdempotent(d: string)
    requires |d| == 6 && AllDigits(d)
    ensures FormatBsb(FormatBsb(d)) == FormatBsb(d)
  {
    FormatBsbSixDigits(d);
    FormatBsbCanonical(d);
  }

  /** `pad2`: `String(n).padStart(2, "0").substring(0, 2)`. */
  function Pad2(n: int): (r: string)
    ensures |r| == 2
  {
    Take(PadStart(DecimalString(n), 2, '0'), 2)
  }

  /** A value below 100 becomes its two decimal digits, with a leading zero below 10. */
  lemma Pad2TwoDigits(n: int)
    requires 0 <= n < 100
    ensures Pad2(n) == [DigitChar(n / 10), DigitChar(n % 10)]
  {
    var t := DecimalString(n);
    if n >= 10 {
      assert t == Digits(n / 10) + [DigitChar(n % 10)];
      assert Digits(n / 10) == [DigitChar(n / 10)];
      assert PadStart(t, 2, '0') == t;
    } else {
      assert t == [DigitChar(n)];
      assert PadStart(t, 2, '0') == Repeat('0', 1) + t;
      assert Repeat('0', 1) == ['0'] == [DigitChar(0)];
    }
  }
}
