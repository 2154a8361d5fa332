/**
 * Reading back what the writer wrote: every slot comes back as it was, except `DiffRhythm` and
 * `DiffBassGHL`, which the writer never writes, provided the strings are already trimmed and not
 * blank and the preview is not empty.
 */
module RoundTrip {
  import opened Wrappers
  import opened Text
  import opened Numbers
  import Enums
  import opened Ini
  import opened SongIniRecord
  import opened SongIniReading
  import opened SongIniWriting
  import opened ReadingProperties
  import opened WritingProperties
  import opened WrittenKeys

  /** A value the reader gets back from its own text: a string that is already trimmed and not
      blank, or a non-empty array. */
  predicate Survives(v: Value) {
    (v.TextValue? ==> Trim(v.text) == v.text && !IsBlank(v.text))
    && (v.LongArrayValue? ==> |v.numbers| > 0)
  }

  /** A record whose file reads back as the record. */
  predicate Writable(m: Record) {
    WellTyped(m) && forall f | f in m :: Survives(m[f])
  }

  /** Slot `f` of `m`, if present, has its slot's type and reads back from its own text. */
  predicate SlotWritable(m: Record, f: FieldId) {
    f in m ==> HasKind(m[f], KindOf(f)) && Survives(m[f])
  }

  /** Text without white space at either end is its own trim and not blank. */
  lemma Unpadded(s: string)
    requires |s| > 0 && !IsWhiteSpace(s[0]) && !IsWhiteSpace(s[|s| - 1])
    ensures Trim(s) == s && !IsBlank(s)
  {
    TrimOfTrimmed(s);
  }

  /** Each number of a preview is written as digits after an optional minus sign. */
  lemma PreviewPiecesPlain(xs: seq<Long>)
    ensures forall p | p in LongStrings(xs) :: ' ' !in p && |p| > 0 && !IsWhiteSpace(p[0]) && !IsWhiteSpace(p[|p| - 1])
  {
    var parts := LongStrings(xs);
    forall p | p in parts
      ensures ' ' !in p && |p| > 0 && !IsWhiteSpace(p[0]) && !IsWhiteSpace(p[|p| - 1])
    {
      var i :| 0 <= i < |parts| && parts[i] == p;
      LongToStringPlain(xs[i]);
    }
  }

  /** The written preview has no white space at either end. */
  lemma PreviewUnpadded(xs: seq<Long>)
    requires |xs| > 0
    ensures Trim(Render(LongArrayValue(xs))) == Render(LongArrayValue(xs))
    ensures !IsBlank(Render(LongArrayValue(xs)))
  {
    var parts := LongStrings(xs);
    PreviewPiecesPlain(xs);
    assert parts[0] in parts && parts[|parts| - 1] in parts;
    JoinFirst(' ', parts);
    JoinLast(' ', parts);
    Unpadded(Join(' ', parts));
  }

  /** The written preview splits back into the written numbers. */
  lemma PreviewReadsBack(xs: seq<Long>)
    requires |xs| > 0
    ensures ReadPreview(Render(LongArrayValue(xs))) == xs
  {
    var parts := LongStrings(xs);
    PreviewPiecesPlain(xs);
    SplitJoin(' ', parts);
    forall i | 0 <= i < |xs|
      ensures ReadLong(Some(parts[i])).GetOr(-1) == xs[i]
    {
      ParseOfLongToString(xs[i]);
    }
  }

  /** What the writer writes for a value, the reader turns back into that value. */
  lemma ValueReadsBack(f: FieldId, v: Value)
    requires HasKind(v, KindOf(f)) && Survives(v)
    ensures Trim(Render(v)) == Render(v) && !IsBlank(Render(v))
    ensures Coerce(f, Render(v)) == Some(v)
  {
    match v
    case TextValue(s) =>
    case BoolValue(b) =>
      var t := Render(v);
      Unpadded(t);
      assert ToLowerInvariant(t) == if b then "true" else "false";
    case LongValue(n) =>
      LongToStringPlain(n);
      Unpadded(LongToString(n));
      ParseOfLongToString(n);
    case LongArrayValue(xs) =>
      PreviewUnpadded(xs);
      PreviewReadsBack(xs);
  }

  /** One written pair, read back, offers its own field the value it was written from and no
      other field anything. */
  lemma PairReadsBack(m: Record, e: Emission, f: FieldId)
    requires e.field in m && KeyReads(e.key, e.field) && SlotWritable(m, f)
    ensures RowOffer(RowOf(PairLine(e.key, Render(m[e.field]))), f) == if f == e.field then Some(m[f]) else None
  {
    PlainKey(e.key, e.field);
    if f == e.field {
      ValueReadsBack(e.field, m[e.field]);
    }
  }

  lemma RowsOfConcat(a: seq<IniLine>, b: seq<IniLine>)
    ensures RowsOf(a + b) == RowsOf(a) + RowsOf(b)
  {
  }

  /** The line one table entry writes, read back. */
  lemma LineReadsBack(m: Record, e: Emission, f: FieldId)
    requires KeyReads(e.key, e.field) && SlotWritable(m, f)
    ensures FirstOffer(RowsOf(LineFor(m, e)), f) == if f in m && e.field == f then Some(m[f]) else None
  {
    if e.field in m {
      var row := RowOf(PairLine(e.key, Render(m[e.field])));
      assert RowsOf(LineFor(m, e)) == [row];
      FirstOfferSingle(row, f);
      PairReadsBack(m, e, f);
    } else {
      assert RowsOf(LineFor(m, e)) == [];
    }
  }

  lemma InTableSnoc(table: seq<Emission>, e: Emission, f: FieldId)
    ensures InTable(table + [e], f) <==> InTable(table, f) || e.field == f
  {
    InTableGrow(table, [e], f);
    assert [e][0].field == e.field;
    if InTable(table + [e], f) && e.field != f {
      var i :| 0 <= i < |table + [e]| && (table + [e])[i].field == f;
      assert table[i] == (table + [e])[i];
    }
  }

  /** Reading back the lines of a table: a slot gets its value exactly when it is present and
      some line of the table names it. */
  lemma {:induction false} TableReadsBack(m: Record, table: seq<Emission>, f: FieldId)
    requires SlotWritable(m, f) && TableReads(table)
    ensures FirstOffer(RowsOf(Lines(m, table)), f) == if f in m && InTable(table, f) then Some(m[f]) else None
  {
    if table == [] {
      assert RowsOf([]) == [];
    } else {
      var init, e := table[..|table| - 1], table[|table| - 1];
      assert table == init + [e];
      assert forall i | 0 <= i < |init| :: init[i] == table[i];
      TableReadsBack(m, init, f);
      RowsOfConcat(Lines(m, init), LineFor(m, e));
      FirstOfferConcat(RowsOf(Lines(m, init)), RowsOf(LineFor(m, e)), f);
      LineReadsBack(m, e, f);
      InTableSnoc(init, e, f);
    }
  }

  /** The file the writer produces holds no section other than `song`. */
  lemma WrittenFileHasOnlySong(m: Record)
    ensures Parse(RowsOf(Serialize(m))).Some?
  {
    var lines := Serialize(m);
    var rows := RowsOf(lines);
    HeaderOnlyFirst(m);
    assert ToLowerInvariant("song") == "song";
    assert forall i | 0 <= i < |rows| :: !IsForeignSection(rows[i]) by {
      forall i | 0 <= i < |rows|
        ensures !IsForeignSection(rows[i])
      {
        if i > 0 {
          assert lines[i].PairLine?;
        }
      }
    }
    SectionGuard(rows);
  }

  /** The header of the written file offers nothing. */
  lemma HeaderOffersNothing(f: FieldId)
    ensures FirstOffer(RowsOf([SectionLine("song")]), f).None?
  {
    assert RowsOf([SectionLine("song")]) == [RowOf(SectionLine("song"))];
    FirstOfferSingle(RowOf(SectionLine("song")), f);
  }

  /** The slots the written pairs fill: those that are present and named by some writer line,
      which is every present slot but `DiffRhythm` and `DiffBassGHL`. */
  lemma WrittenSlots(m: Record, f: FieldId)
    ensures (if f in m && InTable(EmitOrder, f) then Some(m[f]) else None) == Lookup(m - {DiffRhythm, DiffBassGHL}, f)
  {
    if f != DiffRhythm && f != DiffBassGHL {
      EveryOtherFieldWritten(f);
    } else {
      RhythmAndBassGHLNotInTable(f);
    }
  }

  /** Dropping the two unwritten slots leaves every other slot alone. */
  lemma LookupWithoutUnwritten(m: Record, f: FieldId)
    requires f != DiffRhythm && f != DiffBassGHL
    ensures Lookup(m - {DiffRhythm, DiffBassGHL}, f) == Lookup(m, f)
  {
  }

  /** The pairs of the written file offer each slot the value it had, unless the slot is
      `DiffRhythm` or `DiffBassGHL`; only the slot itself has to survive the trip. */
  lemma PairsReadBack(m: Record, f: FieldId)
    requires SlotWritable(m, f)
    ensures FirstOffer(RowsOf(Lines(m, EmitOrder)), f) == Lookup(m - {DiffRhythm, DiffBassGHL}, f)
  {
    EmitOrderReads();
    TableReadsBack(m, EmitOrder, f);
    WrittenSlots(m, f);
  }

  /** The first pass over the written file offers each slot the value it had, unless the slot
      is `DiffRhythm` or `DiffBassGHL`. */
  lemma FirstOfferOfWrittenFile(m: Record, f: FieldId)
    requires SlotWritable(m, f)
    ensures FirstOffer(RowsOf(Serialize(m)), f) == Lookup(m - {DiffRhythm, DiffBassGHL}, f)
  {
    var header := [SectionLine("song")];
    RowsOfConcat(header, Lines(m, EmitOrder));
    FirstOfferConcat(RowsOf(header), RowsOf(Lines(m, EmitOrder)), f);
    HeaderOffersNothing(f);
    PairsReadBack(m, f);
  }

  /** Rows whose values carry no white space at either end, as in a file the writer wrote. */
  predicate TrimmedValues(rows: seq<IniRow>) {
    forall i | 0 <= i < |rows| :: rows[i].value.Some? ==> Trim(rows[i].value.value) == rows[i].value.value
  }

  /** Every value of a written file is trimmed. */
  lemma WrittenRowsTrimmed(lines: seq<IniLine>)
    ensures TrimmedValues(RowsOf(lines))
  {
    forall i | 0 <= i < |lines| && lines[i].PairLine?
      ensures Trim(Trim(lines[i].value)) == Trim(lines[i].value)
    {
      TrimBlank(lines[i].value);
    }
  }

  /** A trimmed, non-blank value converts to one that survives the trip. */
  lemma CoerceSurvives(f: FieldId, value: string)
    requires Trim(value) == value && !IsBlank(value)
    ensures Coerce(f, value).Some? ==> Survives(Coerce(f, value).value)
  {
  }

  /** Offering a trimmed, non-blank value keeps a record writable. */
  lemma OfferWritable(m: Record, key: string, value: string)
    requires Writable(m) && Trim(value) == value && !IsBlank(value)
    ensures Writable(Offer(m, key, value))
  {
    match FieldForKey(key)
    case Unknown =>
    case Fills(f) =>
      CoerceSurvives(f, value);
  }

  /** A file whose values are trimmed reads as a writable record: the reader skips blank values,
      and a preview always has at least one entry. */
  lemma {:induction false} ReadRecordWritable(rows: seq<IniRow>)
    requires TrimmedValues(rows)
    ensures Parse(rows).Some? ==> Writable(Parse(rows).value)
  {
    if rows != [] {
      var init, row := rows[..|rows| - 1], rows[|rows| - 1];
      assert forall i | 0 <= i < |init| :: init[i] == rows[i];
      ReadRecordWritable(init);
      if Parse(init).Some? && row.rowType == Enums.KeyValue {
        var key := RowKey(row);
        if !IsNullOrWhiteSpace(key) && !IsNullOrWhiteSpace(row.value) {
          OfferWritable(Parse(init).value, key.value, row.value.value);
        }
      }
    }
  }

  /** Reading back what the writer wrote gives the record again, without `DiffRhythm` and
      `DiffBassGHL`. */
  lemma WriteThenRead(m: Record)
    requires Writable(m)
    ensures Parse(RowsOf(Serialize(m))) == Some(m - {DiffRhythm, DiffBassGHL})
  {
    var rows := RowsOf(Serialize(m));
    WrittenFileHasOnlySong(m);
    var r := Parse(rows).value;
    forall f
      ensures Lookup(r, f) == Lookup(m - {DiffRhythm, DiffBassGHL}, f)
    {
      SlotHoldsFirstOffer(rows, f);
      FirstOfferOfWrittenFile(m, f);
    }
    RecordsAgree(r, m - {DiffRhythm, DiffBassGHL});
  }
}
