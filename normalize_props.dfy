/**
 * What `Normalize` promises: each clearing line, in the source's own terms; the fields it leaves
 * alone; the order in which the overrides win; and that a second run changes nothing.
 */
module NormalizeProperties {
  import opened Wrappers
  import opened Text
  import opened SongIniRecord
  import opened Setters
  import opened SongIniNormalize

  /** The fields whose clearing line is `if (songIni.F < 0) songIni.F = null;`. */
  predicate ClearedWhenNegative(f: FieldId) {
    f == Version || f == SongLength || f == PreviewStartTime || f == PreviewEndTime ||
    f == DiffBand || f == DiffGuitar || f == DiffGuitarGHL || f == DiffGuitarCoop ||
    f == DiffGuitarCoopGHL || f == DiffGuitarReal || f == DiffGuitarReal22 || f == DiffRhythm ||
    f == DiffRhythmGHL || f == DiffBass || f == DiffBassGHL || f == DiffBassReal ||
    f == DiffBassReal22 || f == DiffDrums || f == DiffDrumsReal || f == DiffDrumsRealPS ||
    f == DiffKeys || f == DiffKeysReal || f == DiffKeysRealPS || f == DiffVocals ||
    f == DiffVocalsHarm || f == DiffDance || f == VideoEndTime
  }

  /** The fields whose clearing line is `if (songIni.F == 0) songIni.F = null;`. */
  predicate ClearedWhenZero(f: FieldId) {
    f == Delay || f == VideoStartTime || f == Count || f == Rating
  }

  /** The fields `Normalize` has a clearing line for. */
  predicate HasClearingLine(f: FieldId) {
    ClearedWhenNegative(f) || ClearedWhenZero(f) || f == AlbumTrack || f == PlaylistTrack ||
    f == Tags || f == Preview || f == VocalGender || f == MultiplierNote || f == EarlyHitWindowSize
  }

  /** The rule table covers exactly the fields that have a clearing line. */
  lemma RulesMatchClearingLines(f: FieldId)
    ensures HasClearingLine(f) <==> RuleOf(f) != Keep
  {
  }

  lemma NegativeRule(f: FieldId)
    requires ClearedWhenNegative(f)
    ensures RuleOf(f) == NonNegative
  {
  }

  /** A negative number is cleared; anything else stays. */
  lemma NegativeNumbersCleared(m: Record, s: Setter, f: FieldId)
    requires ClearedWhenNegative(f)
    ensures Lookup(Normalized(m, s), f) ==
      if f in m && m[f].LongValue? && m[f].number < 0 then None else Lookup(m, f)
  {
    NegativeRule(f);
    assert f != PlaylistTrack && f != Playlist && f != SubPlaylist;
    LookupNormalized(m, s, f);
  }

  /** A zero is cleared; anything else stays. */
  lemma ZeroNumbersCleared(m: Record, s: Setter, f: FieldId)
    requires ClearedWhenZero(f)
    ensures Lookup(Normalized(m, s), f) ==
      if f in m && m[f].LongValue? && m[f].number == 0 then None else Lookup(m, f)
  {
    LookupNormalized(m, s, f);
  }

  /** The album track loses a negative number and the placeholder 16000; so does the playlist
      track, unless the playlist comes from the album. */
  lemma TrackNumbersCleared(m: Record, s: Setter, f: FieldId)
    requires f == AlbumTrack || (f == PlaylistTrack && !s.playlistFromAlbum)
    ensures Lookup(Normalized(m, s), f) ==
      if f in m && m[f].LongValue? && (m[f].number < 0 || m[f].number == 16000) then None else Lookup(m, f)
  {
    LookupNormalized(m, s, f);
  }

  /** The text fields with a fixed vocabulary keep exactly the listed words, case-sensitively. */
  lemma WordsKept(m: Record, s: Setter)
    ensures Tags in Normalized(m, s) <==> Lookup(m, Tags) == Some(TextValue("cover"))
    ensures VocalGender in Normalized(m, s) <==>
      Lookup(m, VocalGender) == Some(TextValue("male")) || Lookup(m, VocalGender) == Some(TextValue("female"))
    ensures EarlyHitWindowSize in Normalized(m, s) <==>
      Lookup(m, EarlyHitWindowSize) == Some(TextValue("none")) || Lookup(m, EarlyHitWindowSize) == Some(TextValue("half"))
      || Lookup(m, EarlyHitWindowSize) == Some(TextValue("full"))
  {
    LookupNormalized(m, s, Tags);
    LookupNormalized(m, s, VocalGender);
    LookupNormalized(m, s, EarlyHitWindowSize);
  }

  /** The star-power note is kept only when it is 103 or 116. */
  lemma MultiplierNoteKept(m: Record, s: Setter)
    ensures MultiplierNote in Normalized(m, s) <==>
      Lookup(m, MultiplierNote) == Some(LongValue(103)) || Lookup(m, MultiplierNote) == Some(LongValue(116))
  {
    LookupNormalized(m, s, MultiplierNote);
  }

  /** The preview is kept only as a pair of non-negative numbers. */
  lemma PreviewKept(m: Record, s: Setter)
    ensures Preview in Normalized(m, s) <==>
      Preview in m && m[Preview].LongArrayValue? && |m[Preview].numbers| == 2
      && m[Preview].numbers[0] >= 0 && m[Preview].numbers[1] >= 0
  {
    LookupNormalized(m, s, Preview);
  }

  /** A slot that survives its clearing line keeps its value: the only changes the clearing
      lines make are to empty slots. */
  lemma SurvivorsUnchanged(m: Record, s: Setter, f: FieldId)
    requires f != PlaylistTrack && f != Playlist && f != SubPlaylist
    requires f in Normalized(m, s)
    ensures f in m && Normalized(m, s)[f] == m[f]
  {
    LookupNormalized(m, s, f);
  }

  /** Every field without a clearing line, other than the two playlist fields, is untouched. */
  lemma FieldsWithoutClearingLineUntouched(m: Record, s: Setter, f: FieldId)
    requires !HasClearingLine(f) && f != Playlist && f != SubPlaylist
    ensures Lookup(Normalized(m, s), f) == Lookup(m, f)
  {
    RulesMatchClearingLines(f);
    LookupNormalized(m, s, f);
  }

  /** The unlock fields are left as read, whatever unlock strings the setter carries. */
  lemma UnlockFieldsUntouched(m: Record, s: Setter)
    ensures Lookup(Normalized(m, s), UnlockId) == Lookup(m, UnlockId)
    ensures Lookup(Normalized(m, s), UnlockRequire) == Lookup(m, UnlockRequire)
    ensures Lookup(Normalized(m, s), UnlockText) == Lookup(m, UnlockText)
  {
    FieldsWithoutClearingLineUntouched(m, s, UnlockId);
    FieldsWithoutClearingLineUntouched(m, s, UnlockRequire);
    FieldsWithoutClearingLineUntouched(m, s, UnlockText);
  }

  /** When the playlist comes from the album, the playlist track is the album track after the
      album track's own clearing line. */
  lemma PlaylistTrackFromAlbum(m: Record, s: Setter)
    requires s.playlistFromAlbum
    ensures Lookup(Normalized(m, s), PlaylistTrack) == Lookup(Normalized(m, s), AlbumTrack)
    ensures Lookup(Normalized(m, s), PlaylistTrack) ==
      if AlbumTrack in m && m[AlbumTrack].LongValue? && (m[AlbumTrack].number < 0 || m[AlbumTrack].number == 16000)
      then None else Lookup(m, AlbumTrack)
  {
    LookupNormalized(m, s, PlaylistTrack);
    TrackNumbersCleared(m, s, AlbumTrack);
  }

  /** The playlist: a non-blank explicit one wins, otherwise the album-derived one, otherwise the
      one read. */
  lemma PlaylistPrecedence(m: Record, s: Setter)
    ensures !IsNullOrWhiteSpace(s.playlist) ==> Lookup(Normalized(m, s), Playlist) == Some(TextValue(s.playlist.value))
    ensures IsNullOrWhiteSpace(s.playlist) && s.playlistFromAlbum ==>
      Lookup(Normalized(m, s), Playlist) == Some(TextValue(AlbumPlaylist(m)))
    ensures IsNullOrWhiteSpace(s.playlist) && !s.playlistFromAlbum ==>
      Lookup(Normalized(m, s), Playlist) == Lookup(m, Playlist)
  {
    LookupNormalized(m, s, Playlist);
  }

  /** The sub-playlist: a non-blank explicit one wins, otherwise the one read. */
  lemma SubPlaylistPrecedence(m: Record, s: Setter)
    ensures Lookup(Normalized(m, s), SubPlaylist) ==
      if !IsNullOrWhiteSpace(s.subPlaylist) then Some(TextValue(s.subPlaylist.value)) else Lookup(m, SubPlaylist)
  {
    LookupNormalized(m, s, SubPlaylist);
  }

  /** The album-derived playlist shows an absent artist, album or year as empty text. */
  lemma AlbumPlaylistOfEmptyRecord()
    ensures AlbumPlaylist(map[]) == " -  ()"
  {
  }

  /** Every slot of a normalized record passes its field's clearing line. */
  lemma NormalizedPassesEveryLine(m: Record, s: Setter, f: FieldId)
    requires f in Normalized(m, s)
    ensures !Violates(RuleOf(f), Normalized(m, s)[f])
  {
    LookupNormalized(m, s, f);
  }

  /** Normalization keeps every slot at its declared type. */
  lemma NormalizedWellTyped(m: Record, s: Setter)
    requires WellTyped(m)
    ensures WellTyped(Normalized(m, s))
  {
    forall f | f in Normalized(m, s) ensures HasKind(Normalized(m, s)[f], KindOf(f)) {
      NormalizedSlotTyped(m, s, f);
    }
  }

  lemma NormalizedSlotTyped(m: Record, s: Setter, f: FieldId)
    requires WellTyped(m) && f in Normalized(m, s)
    ensures HasKind(Normalized(m, s)[f], KindOf(f))
  {
    LookupNormalized(m, s, f);
    if f == PlaylistTrack && s.playlistFromAlbum {
      assert HasKind(m[AlbumTrack], KindOf(AlbumTrack));
    } else if f == Playlist || f == SubPlaylist {
      assert KindOf(f) == TextKind;
    } else {
      assert HasKind(m[f], KindOf(f));
    }
  }

  /** One slot of the idempotence proof. */
  lemma NormalizedSlotStable(m: Record, s: Setter, f: FieldId)
    ensures NormalizedSlot(Normalized(m, s), s, f) == NormalizedSlot(m, s, f)
  {
    var n := Normalized(m, s);
    LookupNormalized(m, s, f);
    LookupNormalized(m, s, AlbumTrack);
    if f == Playlist && IsNullOrWhiteSpace(s.playlist) && s.playlistFromAlbum {
      LookupNormalized(m, s, Artist);
      LookupNormalized(m, s, Album);
      LookupNormalized(m, s, Year);
      assert AlbumPlaylist(n) == AlbumPlaylist(m);
    } else {
      if f in n {
        NormalizedPassesEveryLine(m, s, f);
      }
      if AlbumTrack in n {
        NormalizedPassesEveryLine(m, s, AlbumTrack);
      }
    }
  }

  /** Normalizing twice with the same setter is normalizing once. */
  lemma NormalizeIdempotent(m: Record, s: Setter)
    ensures Normalized(Normalized(m, s), s) == Normalized(m, s)
  {
    var n := Normalized(m, s);
    forall f ensures Lookup(Normalized(n, s), f) == Lookup(n, f) {
      LookupNormalized(n, s, f);
      LookupNormalized(m, s, f);
      NormalizedSlotStable(m, s, f);
    }
    RecordsAgree(Normalized(n, s), n);
  }

  /** The slots of the record read that slot `f` of the normalized record is computed from: none
      for an override, the album track for the playlist track, artist, album and year for the
      album playlist, and otherwise the slot itself. */
  function SlotInputs(s: Setter, f: FieldId): set<FieldId> {
    if f == PlaylistTrack && s.playlistFromAlbum then {AlbumTrack}
    else if f == Playlist && !IsNullOrWhiteSpace(s.playlist) then {}
    else if f == Playlist && s.playlistFromAlbum then {Artist, Album, Year}
    else if f == SubPlaylist && !IsNullOrWhiteSpace(s.subPlaylist) then {}
    else {f}
  }

  /** Two records that agree on the inputs of slot `f` normalize to the same slot `f`. */
  lemma NormalizedSlotInputs(a: Record, b: Record, s: Setter, f: FieldId)
    requires forall g | g in SlotInputs(s, f) :: Lookup(a, g) == Lookup(b, g)
    ensures NormalizedSlot(a, s, f) == NormalizedSlot(b, s, f)
  {
    if f == Playlist && IsNullOrWhiteSpace(s.playlist) && s.playlistFromAlbum {
      assert Lookup(a, Artist) == Lookup(b, Artist) && Lookup(a, Album) == Lookup(b, Album) && Lookup(a, Year) == Lookup(b, Year);
    } else if f == PlaylistTrack && s.playlistFromAlbum {
      assert Lookup(a, AlbumTrack) == Lookup(b, AlbumTrack);
    } else if f in SlotInputs(s, f) {
      assert Lookup(a, f) == Lookup(b, f);
    }
  }

  /** A record that agrees with the normalized record on the inputs of slot `f` normalizes to
      the same slot `f`. */
  lemma SlotFromInputs(m: Record, r: Record, s: Setter, f: FieldId)
    requires forall g | g in SlotInputs(s, f) :: Lookup(r, g) == Lookup(Normalized(m, s), g)
    ensures Lookup(Normalized(r, s), f) == Lookup(Normalized(m, s), f)
  {
    var n := Normalized(m, s);
    NormalizedSlotInputs(r, n, s, f);
    LookupNormalized(r, s, f);
    LookupNormalized(n, s, f);
    NormalizeIdempotent(m, s);
  }

  /** An input of any slot is itself a slot that normalization only clears. */
  lemma InputOnlyCleared(m: Record, s: Setter, f: FieldId, g: FieldId)
    requires g in SlotInputs(s, f)
    ensures NormalizedSlot(m, s, g) == Cleared(m, g)
  {
  }

  /** The two slots the writer drops feed no other slot. */
  lemma InputsOfWrittenSlot(s: Setter, f: FieldId, g: FieldId)
    requires g in SlotInputs(s, f) && f != DiffRhythm && f != DiffBassGHL
    ensures g != DiffRhythm && g != DiffBassGHL
  {
  }

  /** Clearing keeps a slot's value or drops it. */
  lemma ClearedKeeps(m: Record, f: FieldId)
    ensures Cleared(m, f).Some? ==> f in m && Cleared(m, f).value == m[f]
  {
  }

  /** With no override set, normalizing only clears: the result is part of the record read. */
  lemma NoOverridesOnlyClears(m: Record)
    ensures forall f | f in Normalized(m, NoOverrides) :: f in m && Normalized(m, NoOverrides)[f] == m[f]
  {
    forall f | f in Normalized(m, NoOverrides) ensures f in m && Normalized(m, NoOverrides)[f] == m[f] {
      LookupNormalized(m, NoOverrides, f);
    }
  }

  /** `name=Test`, `album_track=16000`, `vocal_gender=other` and `delay=0`: only the name is
      left. */
  lemma SentinelsClearedExample()
    ensures Normalized(map[Name := TextValue("Test"), AlbumTrack := LongValue(16000),
                           VocalGender := TextValue("other"), Delay := LongValue(0)], NoOverrides)
            == map[Name := TextValue("Test")]
  {
    var m := map[Name := TextValue("Test"), AlbumTrack := LongValue(16000),
                 VocalGender := TextValue("other"), Delay := LongValue(0)];
    forall f ensures Lookup(Normalized(m, NoOverrides), f) == Lookup(map[Name := TextValue("Test")], f) {
      LookupNormalized(m, NoOverrides, f);
    }
    RecordsAgree(Normalized(m, NoOverrides), map[Name := TextValue("Test")]);
  }
}
