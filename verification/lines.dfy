/**
 * The line renderer (`ABA._generateLine`) as a specification: walk a schema's
 * fields in order with a write pointer, emit space filler up to each field's
 * start, then the field's rendering, and move the pointer to the field's end.
 * The method that runs this loop is `Generator.Aba.GenerateLine`.
 */
module Lines {
  import opened Results
  import opened Values
  import opened Codec
  import opened Schemas

  /** `recordData[field.name] || ""`: falsy values are replaced by the empty string. */
  function FieldValue(rec: Record, f: Field): Value {
    var v := Get(rec, f.name);
    if Falsy(v) then Str("") else v
  }

  /** The rendering of `fields` starting at write position `pointer`. */
  function RenderFrom(rec: Record, fields: seq<Field>, pointer: nat): Result<string>
    decreases |fields|
  {
    if fields == [] then Ok("")
    else if fields[0].start < pointer then Err(FieldOrder)
    else
      match RenderFrom(rec, fields[1..], fields[0].end)
      case Err(e) => Err(e)
      case Ok(rest) =>
        Ok(Repeat(' ', fields[0].start - pointer) + RenderField(FieldValue(rec, fields[0]), fields[0]) + rest)
  }

  /** `prefix` put in front of a rendering; an error stays as it is. */
  function Prepend(prefix: string, r: Result<string>): Result<string> {
    if r.Ok? then Ok(prefix + r.value) else r
  }

  lemma PrependTwice(a: string, b: string, r: Result<string>)
    ensures Prepend(a, Prepend(b, r)) == Prepend(a + b, r)
  {
    if r.Ok? {
      assert a + (b + r.value) == (a + b) + r.value;
    }
  }

  /** One record rendered with one schema's fields. */
  function RenderLine(rec: Record, fields: seq<Field>): Result<string> {
    RenderFrom(rec, fields, 0)
  }

  lemma GrowOrderSplit(fields: seq<Field>, pointer: nat)
    requires fields != []
    ensures InGrowOrder(fields, pointer) <==>
              pointer <= fields[0].start && InGrowOrder(fields[1..], fields[0].end)
  {
    var rest := fields[1..];
    forall i | 0 <= i < |rest|
      ensures PrevEnd(rest, i, fields[0].end) == PrevEnd(fields, i + 1, pointer)
      ensures rest[i] == fields[i + 1]
    {
    }
    if InGrowOrder(fields, pointer) {
      assert PrevEnd(fields, 0, pointer) <= fields[0].start;
    }
    if pointer <= fields[0].start && InGrowOrder(rest, fields[0].end) {
      forall i | 0 <= i < |fields|
        ensures PrevEnd(fields, i, pointer) <= fields[i].start
      {
        if i > 0 {
          assert PrevEnd(rest, i - 1, fields[0].end) <= rest[i - 1].start;
        }
      }
    }
  }

  lemma ProperSplit(fields: seq<Field>)
    requires fields != []
    ensures Proper(fields) <==> fields[0].start <= fields[0].end && Proper(fields[1..])
  {
    var rest := fields[1..];
    if Proper(rest) && fields[0].start <= fields[0].end {
      forall i | 0 <= i < |fields|
        ensures fields[i].start <= fields[i].end
      {
        if i > 0 {
          assert rest[i - 1].start <= rest[i - 1].end;
        }
      }
    }
  }

  /**
   * Rendering fails exactly when some field starts before the end of the
   * field before it (or before the starting pointer), and the failure is the
   * schema-order error.
   */
  lemma {:induction false} RenderSucceedsIffGrowOrder(rec: Record, fields: seq<Field>, pointer: nat)
    ensures RenderFrom(rec, fields, pointer).Ok? <==> InGrowOrder(fields, pointer)
    ensures RenderFrom(rec, fields, pointer).Err? ==> RenderFrom(rec, fields, pointer).error == FieldOrder
    decreases |fields|
  {
    if fields != [] {
      GrowOrderSplit(fields, pointer);
      RenderSucceedsIffGrowOrder(rec, fields[1..], fields[0].end);
    }
  }

  // ---- Placement of already rendered pieces ----

  /**
   * The walk of `RenderFrom` with each field's rendering given in advance:
   * `pieces[i]` is what field `i` renders to.
   */
  function Layout(pieces: seq<string>, fields: seq<Field>, pointer: nat): Result<string>
    requires |pieces| == |fields|
    decreases |fields|
  {
    if fields == [] then Ok("")
    else if fields[0].start < pointer then Err(FieldOrder)
    else
      match Layout(pieces[1..], fields[1..], fields[0].end)
      case Err(e) => Err(e)
      case Ok(rest) => Ok(Repeat(' ', fields[0].start - pointer) + pieces[0] + rest)
  }

  /** Each field's rendering, in schema order. */
  function Pieces(rec: Record, fields: seq<Field>): seq<string> {
    seq(|fields|, i requires 0 <= i < |fields| => RenderField(FieldValue(rec, fields[i]), fields[i]))
  }

  /** Every piece is exactly as wide as its field. */
  predicate Fits(pieces: seq<string>, fields: seq<Field>) {
    |pieces| == |fields| && forall i :: 0 <= i < |fields| ==> |pieces[i]| == Width(fields[i])
  }

  lemma FitsTail(pieces: seq<string>, fields: seq<Field>)
    requires fields != [] && Fits(pieces, fields)
    ensures Fits(pieces[1..], fields[1..]) && |pieces[0]| == Width(fields[0])
  {
    forall i | 0 <= i < |fields| - 1
      ensures |pieces[1..][i]| == Width(fields[1..][i])
    {
      assert pieces[1..][i] == pieces[i + 1] && fields[1..][i] == fields[i + 1];
    }
  }

  /** The renderer is the walk over the pieces it renders. */
  lemma {:induction false} RenderIsLayout(rec: Record, fields: seq<Field>, pointer: nat)
    ensures Fits(Pieces(rec, fields), fields)
    ensures RenderFrom(rec, fields, pointer) == Layout(Pieces(rec, fields), fields, pointer)
    decreases |fields|
  {
    var ps := Pieces(rec, fields);
    forall i | 0 <= i < |fields|
      ensures |ps[i]| == Width(fields[i])
    {
    }
    if fields != [] {
      assert ps[1..] == Pieces(rec, fields[1..]);
      assert ps[0] == RenderField(FieldValue(rec, fields[0]), fields[0]);
      RenderIsLayout(rec, fields[1..], fields[0].end);
    }
  }

  /** One step of the walk: filler, the first piece, then the rest from the first field's end. */
  lemma LayoutUnfold(pieces: seq<string>, fields: seq<Field>, pointer: nat, s: string)
    requires |pieces| == |fields| && fields != [] && Layout(pieces, fields, pointer) == Ok(s)
    ensures pointer <= fields[0].start
    ensures Layout(pieces[1..], fields[1..], fields[0].end).Ok?
    ensures s == Repeat(' ', fields[0].start - pointer) + pieces[0] + Layout(pieces[1..], fields[1..], fields[0].end).value
  {
  }

  /** Where the first step of a layout puts its filler and its piece, by column. */
  lemma LayoutHead(pieces: seq<string>, fields: seq<Field>, pointer: nat, s: string)
    requires Fits(pieces, fields) && fields != [] && fields[0].start <= fields[0].end
    requires Layout(pieces, fields, pointer) == Ok(s)
    ensures pointer <= fields[0].start
    ensures fields[0].end - pointer <= |s|
    ensures s[..fields[0].start - pointer] == Repeat(' ', fields[0].start - pointer)
    ensures s[fields[0].start - pointer .. fields[0].end - pointer] == pieces[0]
  {
    LayoutUnfold(pieces, fields, pointer, s);
    LayoutSplit(s, Repeat(' ', fields[0].start - pointer), pieces[0], Layout(pieces[1..], fields[1..], fields[0].end).value);
  }

  /** After the first step of a layout, the rest of the text is the layout of the other fields. */
  lemma LayoutRest(pieces: seq<string>, fields: seq<Field>, pointer: nat, s: string)
    requires Fits(pieces, fields) && fields != [] && fields[0].start <= fields[0].end
    requires Layout(pieces, fields, pointer) == Ok(s)
    ensures pointer <= fields[0].start
    ensures Layout(pieces[1..], fields[1..], fields[0].end).Ok?
    ensures fields[0].end - pointer <= |s|
    ensures s[fields[0].end - pointer ..] == Layout(pieces[1..], fields[1..], fields[0].end).value
  {
    LayoutUnfold(pieces, fields, pointer, s);
    LayoutSplit(s, Repeat(' ', fields[0].start - pointer), pieces[0], Layout(pieces[1..], fields[1..], fields[0].end).value);
  }

  lemma {:induction false} LayoutLength(pieces: seq<string>, fields: seq<Field>, pointer: nat)
    requires Fits(pieces, fields) && Proper(fields)
    requires Layout(pieces, fields, pointer).Ok?
    ensures pointer <= EndOf(fields, pointer)
    ensures |Layout(pieces, fields, pointer).value| == EndOf(fields, pointer) - pointer
    decreases |fields|
  {
    if fields != [] {
      ProperSplit(fields);
      FitsTail(pieces, fields);
      LayoutUnfold(pieces, fields, pointer, Layout(pieces, fields, pointer).value);
      LayoutLength(pieces[1..], fields[1..], fields[0].end);
      if |fields| > 1 {
        assert EndOf(fields[1..], fields[0].end) == EndOf(fields, pointer);
      }
    }
  }

  /** When every field ends at or after its start, the rendering reaches exactly the last field's end. */
  lemma RenderLength(rec: Record, fields: seq<Field>, pointer: nat)
    requires Proper(fields)
    requires RenderFrom(rec, fields, pointer).Ok?
    ensures pointer <= EndOf(fields, pointer)
    ensures |RenderFrom(rec, fields, pointer).value| == EndOf(fields, pointer) - pointer
  {
    RenderIsLayout(rec, fields, pointer);
    LayoutLength(Pieces(rec, fields), fields, pointer);
  }

  /**
   * A line renders exactly when its fields are in grow order, a failure is the
   * schema-order error, and a line of proper fields ends at the last field's end.
   */
  lemma RenderLineOutcome(rec: Record, fields: seq<Field>)
    ensures RenderLine(rec, fields).Ok? <==> InGrowOrder(fields, 0)
    ensures RenderLine(rec, fields).Err? ==> RenderLine(rec, fields).error == FieldOrder
    ensures RenderLine(rec, fields).Ok? && Proper(fields) ==> |RenderLine(rec, fields).value| == EndOf(fields, 0)
  {
    RenderSucceedsIffGrowOrder(rec, fields, 0);
    if RenderLine(rec, fields).Ok? && Proper(fields) {
      RenderLength(rec, fields, 0);
    }
  }

  lemma SliceOfSuffix(s: string, m: nat, t: string, a: nat, b: nat)
    requires m <= |s| && s[m..] == t && a <= b <= |t|
    ensures s[m + a .. m + b] == t[a..b]
  {
    forall k | 0 <= k < b - a
      ensures s[m + a .. m + b][k] == t[a..b][k]
    {
      assert s[m + a + k] == s[m..][a + k];
    }
  }

  /** The text after the first field, and the first field's own piece, inside a one-step layout. */
  lemma LayoutSplit(s: string, filler: string, piece: string, t: string)
    requires s == filler + piece + t
    ensures s[..|filler|] == filler
    ensures s[|filler| .. |filler| + |piece|] == piece
    ensures s[|filler| + |piece| ..] == t
  {
    assert s == filler + (piece + t);
  }

  /** In a successful layout of proper fields, piece `i` sits at columns [start, end) of its field, shifted left by the pointer. */
  lemma {:induction false} LayoutPlacement(pieces: seq<string>, fields: seq<Field>, pointer: nat, s: string, i: nat)
    requires Fits(pieces, fields) && Proper(fields)
    requires Layout(pieces, fields, pointer) == Ok(s)
    requires i < |fields|
    ensures pointer <= fields[i].start
    ensures fields[i].end - pointer <= |s|
    ensures s[fields[i].start - pointer .. fields[i].end - pointer] == pieces[i]
    decreases i, 1
  {
    ProperSplit(fields);
    if i == 0 {
      LayoutHead(pieces, fields, pointer, s);
    } else {
      FitsTail(pieces, fields);
      LayoutRest(pieces, fields, pointer, s);
      var rest, rp := fields[1..], pieces[1..];
      TailPlacement(rp, rest, fields[0].end, Layout(rp, rest, fields[0].end).value, s, pointer, i - 1);
      assert rest[i - 1] == fields[i] && rp[i - 1] == pieces[i];
    }
  }

  /** Piece `j` of a layout `t` that starts at column `e` of `s`, located in `s`. */
  lemma {:induction false} TailPlacement(pieces: seq<string>, fields: seq<Field>, e: nat, t: string, s: string, pointer: nat, j: nat)
    requires Fits(pieces, fields) && Proper(fields)
    requires Layout(pieces, fields, e) == Ok(t)
    requires pointer <= e && e - pointer <= |s| && s[e - pointer..] == t
    requires j < |fields|
    ensures pointer <= fields[j].start
    ensures fields[j].end - pointer <= |s|
    ensures s[fields[j].start - pointer .. fields[j].end - pointer] == pieces[j]
    decreases j + 1, 0
  {
    LayoutPlacement(pieces, fields, e, t, j);
    PieceInTail(s, pointer, e, t, fields[j].start, fields[j].end, pieces[j]);
  }

  /**
   * A piece at columns [x, y) of the text `t` that starts at column `e` is at
   * the same columns of the text `s` that starts at column `pointer`.
   */
  lemma PieceInTail(s: string, pointer: nat, e: nat, t: string, x: nat, y: nat, piece: string)
    requires pointer <= e <= x <= y && e - pointer <= |s| && s[e - pointer..] == t
    requires y - e <= |t| && t[x - e .. y - e] == piece
    ensures y - pointer <= |s| && s[x - pointer .. y - pointer] == piece
  {
    SliceOfSuffix(s, e - pointer, t, x - e, y - e);
  }

  /**
   * In a successful rendering of proper fields, each field's rendering sits
   * at columns [start, end), shifted left by the starting pointer.
   */
  lemma FieldPlacement(rec: Record, fields: seq<Field>, pointer: nat, s: string)
    requires Proper(fields)
    requires RenderFrom(rec, fields, pointer) == Ok(s)
    ensures forall i :: 0 <= i < |fields| ==>
              && pointer <= fields[i].start
              && fields[i].end - pointer <= |s|
              && s[fields[i].start - pointer .. fields[i].end - pointer] == RenderField(FieldValue(rec, fields[i]), fields[i])
  {
    var ps := Pieces(rec, fields);
    RenderIsLayout(rec, fields, pointer);
    forall i | 0 <= i < |fields|
      ensures pointer <= fields[i].start
      ensures fields[i].end - pointer <= |s|
      ensures s[fields[i].start - pointer .. fields[i].end - pointer] == RenderField(FieldValue(rec, fields[i]), fields[i])
    {
      LayoutPlacement(ps, fields, pointer, s, i);
      assert ps[i] == RenderField(FieldValue(rec, fields[i]), fields[i]);
    }
  }

  /** The columns between the previous end (or `pointer`) and each field's start are spaces in `s`. */
  predicate GapsBlank(s: string, fields: seq<Field>, pointer: nat) {
    forall i {:trigger PrevEnd(fields, i, pointer)} :: 0 <= i < |fields| ==>
      && pointer <= PrevEnd(fields, i, pointer) <= fields[i].start
      && fields[i].start - pointer <= |s|
      && s[PrevEnd(fields, i, pointer) - pointer .. fields[i].start - pointer]
         == Repeat(' ', fields[i].start - PrevEnd(fields, i, pointer))
  }

  /** The gap in front of field `i`. */
  lemma GapAt(s: string, fields: seq<Field>, pointer: nat, i: nat)
    requires GapsBlank(s, fields, pointer) && i < |fields|
    ensures pointer <= PrevEnd(fields, i, pointer) <= fields[i].start
    ensures fields[i].start - pointer <= |s|
    ensures s[PrevEnd(fields, i, pointer) - pointer .. fields[i].start - pointer]
            == Repeat(' ', fields[i].start - PrevEnd(fields, i, pointer))
  {
  }

  /** The gap in front of field `i` of `fields`, read in the text after the first field. */
  lemma GapOfTail(s: string, fields: seq<Field>, pointer: nat, t: string, i: nat)
    requires 0 < i < |fields| && pointer <= fields[0].start <= fields[0].end
    requires fields[0].end - pointer <= |s| && s[fields[0].end - pointer..] == t
    requires GapsBlank(t, fields[1..], fields[0].end)
    ensures pointer <= PrevEnd(fields, i, pointer) <= fields[i].start
    ensures fields[i].start - pointer <= |s|
    ensures s[PrevEnd(fields, i, pointer) - pointer .. fields[i].start - pointer]
            == Repeat(' ', fields[i].start - PrevEnd(fields, i, pointer))
  {
    var f, rest := fields[0], fields[1..];
    assert rest[i - 1] == fields[i];
    assert PrevEnd(rest, i - 1, f.end) == PrevEnd(fields, i, pointer);
    GapAt(t, rest, f.end, i - 1);
    var pe := PrevEnd(fields, i, pointer);
    PieceInTail(s, pointer, f.end, t, pe, fields[i].start, Repeat(' ', fields[i].start - pe));
  }

  /** Prefixing blank filler and the first field to a text whose gaps are blank keeps the gaps blank. */
  lemma GapsBlankStep(s: string, fields: seq<Field>, pointer: nat, t: string)
    requires fields != [] && pointer <= fields[0].start <= fields[0].end
    requires fields[0].end - pointer <= |s| && s[fields[0].end - pointer..] == t
    requires s[..fields[0].start - pointer] == Repeat(' ', fields[0].start - pointer)
    requires GapsBlank(t, fields[1..], fields[0].end)
    ensures GapsBlank(s, fields, pointer)
  {
    forall i | 0 <= i < |fields|
      ensures pointer <= PrevEnd(fields, i, pointer) <= fields[i].start
      ensures fields[i].start - pointer <= |s|
      ensures s[PrevEnd(fields, i, pointer) - pointer .. fields[i].start - pointer]
              == Repeat(' ', fields[i].start - PrevEnd(fields, i, pointer))
    {
      if i == 0 {
        assert s[0 .. fields[0].start - pointer] == s[..fields[0].start - pointer];
      } else {
        GapOfTail(s, fields, pointer, t, i);
      }
    }
  }

  /** In a successful layout of proper fields, the columns between one field's end and the next field's start are spaces. */
  lemma {:induction false} LayoutGaps(pieces: seq<string>, fields: seq<Field>, pointer: nat, s: string)
    requires Fits(pieces, fields) && Proper(fields)
    requires Layout(pieces, fields, pointer) == Ok(s)
    ensures GapsBlank(s, fields, pointer)
    decreases |fields|
  {
    if fields != [] {
      var f := fields[0];
      var rest, rp := fields[1..], pieces[1..];
      ProperSplit(fields);
      FitsTail(pieces, fields);
      LayoutHead(pieces, fields, pointer, s);
      LayoutRest(pieces, fields, pointer, s);
      var t := Layout(rp, rest, f.end).value;
      LayoutGaps(rp, rest, f.end, t);
      GapsBlankStep(s, fields, pointer, t);
    }
  }

  /**
   * In a successful rendering of proper fields, the columns between one
   * field's end (or the starting pointer) and the next field's start are spaces.
   */
  lemma FillerPlacement(rec: Record, fields: seq<Field>, pointer: nat, s: string)
    requires Proper(fields)
    requires RenderFrom(rec, fields, pointer) == Ok(s)
    ensures GapsBlank(s, fields, pointer)
  {
    RenderIsLayout(rec, fields, pointer);
    LayoutGaps(Pieces(rec, fields), fields, pointer, s);
  }

  /** A falsy or missing value renders as zeros in money and integer fields and as spaces elsewhere. */
  lemma {:induction false} FalsyFieldRendering(rec: Record, f: Field)
    requires Falsy(Get(rec, f.name))
    ensures f.kind == MoneyType || f.kind == IntegerType ==>
              RenderField(FieldValue(rec, f), f) == Repeat('0', Width(f))
    ensures f.kind != MoneyType && f.kind != IntegerType ==>
              RenderField(FieldValue(rec, f), f) == Repeat(' ', Width(f))
  {
    var w := Width(f);
    var r := RenderField(Str(""), f);
    assert FieldValue(rec, f) == Str("");
    FieldLayout(Str(""), f);
    if f.kind == MoneyType {
      assert ToCents(Str("")) == "0";
      if w > 0 {
        assert r[w - 1..] == "0";
        assert r[w - 1] == '0';
      }
    } else if f.kind == BsbType {
      assert FormatBsb("") == "" by {
        assert RemoveFirstRun("") == "";
      }
    }
    assert r == Repeat(if f.kind == MoneyType || f.kind == IntegerType then '0' else ' ', w);
  }

  /** One field of a rendered line, read off at its columns. */
  lemma ColumnOf(rec: Record, fields: seq<Field>, s: string, i: nat, v: Value, piece: string)
    requires Proper(fields) && RenderLine(rec, fields) == Ok(s) && i < |fields|
    requires FieldValue(rec, fields[i]) == v && RenderField(v, fields[i]) == piece
    ensures fields[i].end <= |s| && s[fields[i].start .. fields[i].end] == piece
  {
    FieldPlacement(rec, fields, 0, s);
  }

  /** A one-character text in a one-column string field stands as itself in the line. */
  lemma OneCharacterColumn(rec: Record, fields: seq<Field>, s: string, i: nat, t: char)
    requires Proper(fields) && RenderLine(rec, fields) == Ok(s) && i < |fields|
    requires fields[i].kind == StringType && Width(fields[i]) == 1 && Get(rec, fields[i].name) == Str([t])
    ensures fields[i].end <= |s| && s[fields[i].start .. fields[i].end] == [t]
  {
    assert FieldValue(rec, fields[i]) == Str([t]);
    OneCharacterField(t, fields[i]);
    ColumnOf(rec, fields, s, i, Str([t]), [t]);
  }

  /**
   * A non-negative amount in a money field stands in the line's columns as
   * that amount's own rendering, a zero amount included (it is falsy, and
   * rendered from "").
   */
  lemma MoneyColumn(rec: Record, fields: seq<Field>, s: string, i: nat, c: nat)
    requires Proper(fields) && RenderLine(rec, fields) == Ok(s) && i < |fields|
    requires fields[i].kind == MoneyType && Get(rec, fields[i].name) == Num(c)
    ensures fields[i].end <= |s|
    ensures s[fields[i].start .. fields[i].end] == RenderField(Num(c), fields[i])
  {
    var f := fields[i];
    MoneyValueRendering(rec, f, c);
    ColumnOf(rec, fields, s, i, FieldValue(rec, f), RenderField(Num(c), f));
  }

  /** ... and those columns read back as the amount. */
  lemma MoneyColumnReadsBack(rec: Record, fields: seq<Field>, s: string, i: nat, c: nat)
    requires Proper(fields) && RenderLine(rec, fields) == Ok(s) && i < |fields|
    requires fields[i].kind == MoneyType && Get(rec, fields[i].name) == Num(c) && |Digits(c)| <= Width(fields[i])
    ensures fields[i].end <= |s|
    ensures AllDigits(s[fields[i].start .. fields[i].end]) && DigitsValue(s[fields[i].start .. fields[i].end]) == c
  {
    var f := fields[i];
    MoneyValueRendering(rec, f, c);
    ColumnOf(rec, fields, s, i, FieldValue(rec, f), RenderField(Num(c), f));
    MoneyFieldReadsBack(c, f);
  }

  /** A zero amount is falsy and is rendered from "", which `Number` reads as 0: the same money text. */
  lemma MoneyValueRendering(rec: Record, f: Field, c: nat)
    requires f.kind == MoneyType && Get(rec, f.name) == Num(c)
    ensures RenderField(FieldValue(rec, f), f) == RenderField(Num(c), f)
  {
    if c == 0 {
      assert ParseNumber("") == Some(0);
      MoneyTextAsNumber("", 0, f);
    }
  }

  /** In a rendered line, a field whose value is falsy or missing holds zeros or spaces at its columns. */
  lemma FalsyColumns(rec: Record, fields: seq<Field>, s: string, i: nat)
    requires Proper(fields) && RenderLine(rec, fields) == Ok(s)
    requires i < |fields| && Falsy(Get(rec, fields[i].name))
    ensures fields[i].end <= |s|
    ensures s[fields[i].start .. fields[i].end]
            == Repeat(if fields[i].kind == MoneyType || fields[i].kind == IntegerType then '0' else ' ', Width(fields[i]))
  {
    FieldPlacement(rec, fields, 0, s);
    FalsyFieldRendering(rec, fields[i]);
  }

  /** Every record rendered with a built-in schema is exactly 120 characters long; none is rejected. */
  lemma BuiltInLineWidth(rec: Record, key: string)
    requires key in DefaultSchemas
    ensures RenderLine(rec, DefaultSchemas[key].fields).Ok?
    ensures |RenderLine(rec, DefaultSchemas[key].fields).value| == RecordWidth
  {
    var fields := DefaultSchemas[key].fields;
    DefaultSchemasFullWidth();
    RenderSucceedsIffGrowOrder(rec, fields, 0);
    RenderLength(rec, fields, 0);
  }
}
