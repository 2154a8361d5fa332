/**
 * What the reading loop promises: the section guard, first write wins, and the rows it skips.
 */
module ReadingProperties {
  import opened Wrappers
  import opened Text
  import opened Numbers
  import Enums
  import opened Ini
  import opened SongIniRecord
  import opened SongIniReading

  /** `ReadBool` ignores letter case. */
  lemma ReadBoolIgnoresCase(value: string)
    ensures ReadBool(Some(value)) == ReadBool(Some(ToLowerInvariant(value)))
  {
    LowerIdempotent(value);
    assert IsBlank(ToLowerInvariant(value)) <==> IsBlank(value) by {
      assert forall i | 0 <= i < |value| :: IsWhiteSpace(ToLowerInvariant(value)[i]) <==> IsWhiteSpace(value[i]);
    }
  }

  /** `ReadBool` reads back what `bool.ToString()` writes, and the digits `1` and `0`. */
  lemma ReadBoolSpellings()
    ensures ReadBool(Some("True")) == Some(true) && ReadBool(Some("False")) == Some(false)
    ensures ReadBool(Some("1")) == Some(true) && ReadBool(Some("0")) == Some(false)
    ensures ReadBool(Some("yes")) == None && ReadBool(Some(" ")) == None && ReadBool(None) == None
  {
    assert ToLowerInvariant("True") == "true";
    assert ToLowerInvariant("False") == "false";
    assert ToLowerInvariant("1") == "1";
    assert ToLowerInvariant("0") == "0";
    assert ToLowerInvariant("yes") == "yes";
    assert !IsWhiteSpace("yes"[0]) && !IsWhiteSpace("1"[0]) && !IsWhiteSpace("0"[0]);
    assert !IsWhiteSpace("True"[0]) && !IsWhiteSpace("False"[0]);
  }

  /** `ReadLong` reads back what `long.ToString()` writes. */
  lemma ReadLongOfToString(n: Long)
    ensures ReadLong(Some(LongToString(n))) == Some(n)
  {
    LongToStringPlain(n);
    ParseOfLongToString(n);
  }

  /** A sign is allowed; a fraction is no number. */
  lemma ReadLongExamples()
    ensures ReadLong(Some("-12")) == Some(-12)
    ensures ReadLong(Some("1.5")) == None
  {
    assert DigitsValue("12") == 12 by {
      assert "12"[..1] == "1";
    }
    assert "-12"[1..] == "12";
    assert !IsDigit("1.5"[1]);
    assert !IsWhiteSpace("-12"[0]) && !IsWhiteSpace("1.5"[0]);
  }

  /** White space around a number, as `NumberStyles.Integer` allows it, is skipped. */
  lemma ReadLongSkipsPadding(lead: string, n: Long, trail: string)
    requires forall i | 0 <= i < |lead| :: IsIntegerWhite(lead[i])
    requires forall i | 0 <= i < |trail| :: IsIntegerWhite(trail[i])
    ensures ReadLong(Some(lead + LongToString(n) + trail)) == Some(n)
  {
    var d := LongToString(n);
    LongToStringPlain(n);
    assert !IsIntegerWhite(d[0]) && !IsIntegerWhite(d[|d| - 1]) && d[|d| - 1] != '\0';
    assert (lead + d + trail)[|lead|] == d[0];
    TryParseIgnoresPadding(lead, d, trail, []);
    assert lead + d + trail + [] == lead + d + trail;
    ParseOfLongToString(n);
  }

  /** Every record the reader builds is well typed. */
  lemma {:induction false} ParseWellTyped(rows: seq<IniRow>)
    ensures Parse(rows).Some? ==> WellTyped(Parse(rows).value)
  {
    if rows != [] {
      ParseWellTyped(rows[..|rows| - 1]);
    }
  }

  /** A header row that aborts the read: its name, lower-cased, is not `song`. */
  predicate IsForeignSection(row: IniRow) {
    row.rowType == Enums.SectionHeader && (row.section.None? || ToLowerInvariant(row.section.value) != "song")
  }

  /** The section guard: the read yields no record exactly when some header names a section
      other than `song`, wherever that header stands and whatever came before it. */
  lemma {:induction false} SectionGuard(rows: seq<IniRow>)
    ensures Parse(rows).None? <==> exists i | 0 <= i < |rows| :: IsForeignSection(rows[i])
  {
    if rows != [] {
      var init := rows[..|rows| - 1];
      SectionGuard(init);
      if exists i | 0 <= i < |init| :: IsForeignSection(init[i]) {
        var i :| 0 <= i < |init| && IsForeignSection(init[i]);
        assert rows[i] == init[i];
      }
      if exists i | 0 <= i < |rows| :: IsForeignSection(rows[i]) {
        var i :| 0 <= i < |rows| && IsForeignSection(rows[i]);
        if i < |init| {
          assert init[i] == rows[i];
        }
      }
    }
  }

  /** The value a single row offers slot `f`: a key/value row with a non-blank key naming `f`
      (under any of its aliases, in any letter case), a non-blank value, and a value that
      converts to the slot's type. */
  function RowOffer(row: IniRow, f: FieldId): Option<Value> {
    if row.rowType == Enums.KeyValue && !IsNullOrWhiteSpace(RowKey(row)) && !IsNullOrWhiteSpace(row.value)
       && FieldForKey(RowKey(row).value) == Fills(f)
    then Coerce(f, row.value.value)
    else None
  }

  /** The first `Some` of a sequence, searching from the front. */
  function FirstSome<T>(xs: seq<Option<T>>): (r: Option<T>)
    ensures r.Some? <==> exists i | 0 <= i < |xs| :: xs[i].Some?
    ensures r.Some? ==> r in xs
  {
    if xs == [] then None
    else if xs[0].Some? then xs[0]
    else
      assert forall i | 1 <= i < |xs| :: xs[i] == xs[1..][i - 1];
      FirstSome(xs[1..])
  }

  lemma {:induction false} FirstSomeConcat<T>(xs: seq<Option<T>>, ys: seq<Option<T>>)
    ensures FirstSome(xs + ys) == if FirstSome(xs).Some? then FirstSome(xs) else FirstSome(ys)
  {
    if xs != [] {
      assert (xs + ys)[1..] == xs[1..] + ys;
      FirstSomeConcat(xs[1..], ys);
    } else {
      assert xs + ys == ys;
    }
  }

  /** What each row offers slot `f`, row by row. */
  function Offers(rows: seq<IniRow>, f: FieldId): (r: seq<Option<Value>>)
    ensures |r| == |rows| && forall i | 0 <= i < |rows| :: r[i] == RowOffer(rows[i], f)
  {
    seq(|rows|, i requires 0 <= i < |rows| => RowOffer(rows[i], f))
  }

  /** The first value any row offers slot `f`, searching from the front. */
  function FirstOffer(rows: seq<IniRow>, f: FieldId): Option<Value> {
    FirstSome(Offers(rows, f))
  }

  lemma FirstOfferConcat(rows: seq<IniRow>, more: seq<IniRow>, f: FieldId)
    ensures FirstOffer(rows + more, f) == if FirstOffer(rows, f).Some? then FirstOffer(rows, f) else FirstOffer(more, f)
  {
    assert Offers(rows + more, f) == Offers(rows, f) + Offers(more, f);
    FirstSomeConcat(Offers(rows, f), Offers(more, f));
  }

  lemma FirstOfferSingle(row: IniRow, f: FieldId)
    ensures FirstOffer([row], f) == RowOffer(row, f)
  {
    assert Offers([row], f) == [RowOffer(row, f)];
  }

  /** One row fills an empty slot with the value it offers and leaves a filled slot alone. */
  lemma StepSlot(m: Record, row: IniRow, f: FieldId)
    requires Step(m, row).Some?
    ensures Lookup(Step(m, row).value, f) == if Lookup(m, f).Some? then Lookup(m, f) else RowOffer(row, f)
  {
  }

  /** First write wins: every slot of the record holds the value of the first row that offered
      it one, whichever alias that row used; a slot no row offered a convertible value stays
      empty, and a failed conversion leaves the slot open for a later row. */
  lemma {:induction false} SlotHoldsFirstOffer(rows: seq<IniRow>, f: FieldId)
    requires Parse(rows).Some?
    ensures Lookup(Parse(rows).value, f) == FirstOffer(rows, f)
  {
    if rows != [] {
      var init := rows[..|rows| - 1];
      var last := rows[|rows| - 1];
      assert rows == init + [last];
      SlotHoldsFirstOffer(init, f);
      FirstOfferConcat(init, [last], f);
      FirstOfferSingle(last, f);
      StepSlot(Parse(init).value, last, f);
    }
  }

  /** Once a slot is filled, later rows never change it (unless a foreign section aborts the
      whole read). */
  lemma LaterRowsKeepFilledSlots(rows: seq<IniRow>, more: seq<IniRow>, f: FieldId)
    requires Parse(rows).Some? && Parse(rows + more).Some? && f in Parse(rows).value
    ensures f in Parse(rows + more).value && Parse(rows + more).value[f] == Parse(rows).value[f]
  {
    SlotHoldsFirstOffer(rows, f);
    SlotHoldsFirstOffer(rows + more, f);
    FirstOfferConcat(rows, more, f);
  }

  /** The rows the loop skips: blank, comment and invalid rows, `[song]` in any letter case, and
      key/value rows with a blank or `null` key or value or a key outside the switch. */
  predicate IsSkipped(row: IniRow) {
    row.rowType == Enums.None || row.rowType == Enums.Comment || row.rowType == Enums.Invalid
    || (row.rowType == Enums.SectionHeader && !IsForeignSection(row))
    || (row.rowType == Enums.KeyValue
        && (IsNullOrWhiteSpace(RowKey(row)) || IsNullOrWhiteSpace(row.value) || FieldForKey(RowKey(row).value).Unknown?))
  }

  /** A skipped row leaves the record (or the abort) as it was. */
  lemma SkippedRowChangesNothing(rows: seq<IniRow>, row: IniRow)
    requires IsSkipped(row)
    ensures Parse(rows + [row]) == Parse(rows)
  {
    assert (rows + [row])[..|rows|] == rows;
  }

  /** Keys are matched case-insensitively; the value is used as it stands. */
  lemma KeyCaseIgnored(m: Record, row: IniRow)
    requires row.rowType == Enums.KeyValue && RowKey(row).Some?
    ensures Step(m, row) == Step(m, row.(key := RowKey(row)))
  {
    LowerIdempotent(row.key.value);
  }

  function Pair(key: string, value: string): IniRow {
    IniRow(Enums.KeyValue, None, Some(key), Some(value))
  }

  function Header(name: string): IniRow {
    IniRow(Enums.SectionHeader, Some(name), None, None)
  }

  /** A string without upper-case ASCII letters is its own lower-casing. */
  lemma LowerOfLowerCase(s: string)
    requires forall i | 0 <= i < |s| :: !('A' <= s[i] <= 'Z')
    ensures ToLowerInvariant(s) == s
  {
  }

  /** A pair whose key is already lower case and whose key and value are not blank goes
      straight to the key switch. */
  lemma PairStep(m: Record, key: string, value: string)
    requires |key| > 0 && !IsWhiteSpace(key[0]) && |value| > 0 && !IsWhiteSpace(value[0])
    requires forall i | 0 <= i < |key| :: !('A' <= key[i] <= 'Z')
    ensures Step(m, Pair(key, value)) == Some(Offer(m, key, value))
  {
    LowerOfLowerCase(key);
  }

  /** Two rows read in order. */
  lemma ParseTwo(a: IniRow, b: IniRow)
    ensures Parse([a, b]) == if Step(map[], a).None? then None else Step(Step(map[], a).value, b)
  {
    assert [a, b][..1] == [a];
    assert [a][..0] == [];
    assert Parse([a]) == Step(map[], a);
  }

  /** The two spellings of the album track slot. */
  lemma AlbumTrackKeys()
    ensures FieldForKey("track") == Fills(AlbumTrack) && FieldForKey("album_track") == Fills(AlbumTrack)
  {
  }

  /** A row offering a value to an empty slot fills it; a row offering one to a filled slot, or one
      that fails to convert, changes nothing. */
  lemma AlbumTrackOffers()
    ensures Offer(map[], "track", "5") == map[AlbumTrack := LongValue(5)]
    ensures Offer(map[AlbumTrack := LongValue(5)], "album_track", "7") == map[AlbumTrack := LongValue(5)]
    ensures Offer(map[], "track", "abc") == map[]
    ensures Offer(map[], "album_track", "7") == map[AlbumTrack := LongValue(7)]
  {
    AlbumTrackFills();
    AlbumTrackKept();
  }

  lemma AlbumTrackFills()
    ensures Offer(map[], "track", "5") == map[AlbumTrack := LongValue(5)]
    ensures Offer(map[], "album_track", "7") == map[AlbumTrack := LongValue(7)]
  {
    AlbumTrackKeys();
    TrackCoercions();
    OfferInto(map[], "track", "5", AlbumTrack);
    OfferInto(map[], "album_track", "7", AlbumTrack);
  }

  lemma AlbumTrackKept()
    ensures Offer(map[AlbumTrack := LongValue(5)], "album_track", "7") == map[AlbumTrack := LongValue(5)]
    ensures Offer(map[], "track", "abc") == map[]
  {
    AlbumTrackKeys();
    TrackCoercions();
    OfferInto(map[AlbumTrack := LongValue(5)], "album_track", "7", AlbumTrack);
    OfferInto(map[], "track", "abc", AlbumTrack);
  }

  /** What a key the switch sends to `f` does to a record. */
  lemma OfferInto(m: Record, key: string, value: string, f: FieldId)
    requires FieldForKey(key) == Fills(f)
    ensures Offer(m, key, value) == if f in m || Coerce(f, value).None? then m else m[f := Coerce(f, value).value]
  {
  }

  /** The number texts of the album-track examples. */
  lemma TrackNumberTexts()
    ensures ReadLong(Some("5")) == Some(5) && ReadLong(Some("7")) == Some(7)
    ensures ReadLong(Some("abc")) == None
  {
    ReadLongOfToString(5);
    ReadLongOfToString(7);
    assert LongToString(5) == "5" && LongToString(7) == "7";
    assert !IsDigit("abc"[0]);
    assert !IsWhiteSpace("abc"[0]);
  }

  /** What the album track slot makes of the example values. */
  lemma TrackCoercions()
    ensures Coerce(AlbumTrack, "5") == Some(LongValue(5)) && Coerce(AlbumTrack, "7") == Some(LongValue(7))
    ensures Coerce(AlbumTrack, "abc") == None
  {
    TrackNumberTexts();
  }

  /** `track=5` before `album_track=7`: the album track is 5. */
  lemma AliasConvergenceExample()
    ensures Parse([Pair("track", "5"), Pair("album_track", "7")]) == Some(map[AlbumTrack := LongValue(5)])
  {
    var first, second := Pair("track", "5"), Pair("album_track", "7");
    var filled := map[AlbumTrack := LongValue(5)];
    ParseTwo(first, second);
    assert Step(map[], first) == Some(filled) by {
      PairStep(map[], "track", "5");
      AlbumTrackOffers();
    }
    assert Step(filled, second) == Some(filled) by {
      PairStep(filled, "album_track", "7");
      AlbumTrackOffers();
    }
  }

  /** `track=abc` fails to convert, so `album_track=7` still fills the slot. */
  lemma FailedConversionExample()
    ensures Parse([Pair("track", "abc"), Pair("album_track", "7")]) == Some(map[AlbumTrack := LongValue(7)])
  {
    var first, second := Pair("track", "abc"), Pair("album_track", "7");
    ParseTwo(first, second);
    assert Step(map[], first) == Some(map[]) by {
      PairStep(map[], "track", "abc");
      AlbumTrackOffers();
    }
    assert Step(map[], second) == Some(map[AlbumTrack := LongValue(7)]) by {
      PairStep(map[], "album_track", "7");
      AlbumTrackOffers();
    }
  }

  /** `[song]`, then `name=Test`, then `[other]`: no record at all. */
  lemma ForeignSectionExample()
    ensures Parse([Header("song"), Pair("name", "Test"), Header("other")]).None?
  {
  }

  /** A pair before any header counts, `[Song]` is accepted, and the key's case is ignored
      while the value's case is kept. */
  lemma HeaderlessPairExample()
    ensures Parse([Pair("NAME", "Test"), Header("Song")]) == Some(map[Name := TextValue("Test")])
  {
    var rows := [Pair("NAME", "Test"), Header("Song")];
    assert ToLowerInvariant("NAME") == "name";
    assert ToLowerInvariant("Song") == "song";
    assert !IsWhiteSpace("name"[0]) && !IsWhiteSpace("Test"[0]);
    assert rows[..1][..0] == [] && rows[..1] == [rows[0]];
    assert Parse(rows[..1]) == Some(map[Name := TextValue("Test")]);
  }
}
