/**
 * `SongIniWrapper.Normalize`: clears sentinel and out-of-domain values in place, then applies the
 * playlist overrides of a `Setter`.
 */
module SongIniNormalize {
  import opened Wrappers
  import opened Text
  import opened SongIniRecord
  import opened Setters

  /** The placeholder track number that stands for "no track". */
  const TrackPlaceholder: int := 16000

  /** What a field's clearing line accepts. */
  datatype Rule =
    | Keep                            // no clearing line
    | NonNegative                     // cleared when negative
    | TrackNumber                     // cleared when negative or the placeholder
    | NonZero                         // cleared when exactly zero
    | TextIn(allowed: set<string>)    // cleared unless exactly one of these strings
    | LongIn(accepted: set<int>)      // cleared unless exactly one of these numbers
    | PreviewPair                     // cleared unless two entries, both non-negative

  /** Number of clearing lines in `Normalize`; they clear fields `0` to `ClearingLines - 1`,
      one each, in that order. */
  const ClearingLines: nat := 38

  /** What each field's clearing line accepts; `Keep` for a field without one. */
  function RuleOf(f: FieldId): (r: Rule)
    ensures r != Keep <==> f as int < ClearingLines
  {
    if f == AlbumTrack || f == PlaylistTrack then TrackNumber
    else if f == Tags then TextIn({"cover"})
    else if f == Preview then PreviewPair
    else if f == VocalGender then TextIn({"male", "female"})
    else if f == MultiplierNote then LongIn({103, 116})
    else if f == EarlyHitWindowSize then TextIn({"none", "half", "full"})
    else if f == Delay || f == VideoStartTime || f == Count || f == Rating then NonZero
    else if f as int < ClearingLines then NonNegative
    else Keep
  }

  /** A present value its field's clearing line sets to `null`. */
  predicate Violates(rule: Rule, v: Value) {
    match rule
    case Keep => false
    case NonNegative => v.LongValue? && v.number < 0
    case TrackNumber => v.LongValue? && (v.number < 0 || v.number == TrackPlaceholder)
    case NonZero => v.LongValue? && v.number == 0
    case TextIn(allowed) => !(v.TextValue? && v.text in allowed)
    case LongIn(accepted) => !(v.LongValue? && v.number in accepted)
    case PreviewPair => !(v.LongArrayValue? && |v.numbers| == 2 && v.numbers[0] >= 0 && v.numbers[1] >= 0)
  }

  /** Slot `f` after the clearing lines alone. */
  function Cleared(m: Record, f: FieldId): Option<Value> {
    if f in m && !Violates(RuleOf(f), m[f]) then Some(m[f]) else None
  }

  /** A string property as C# interpolation shows it: `null` is empty. */
  function Shown(m: Record, f: FieldId): string {
    if f in m && m[f].TextValue? then m[f].text else ""
  }

  /** `$"{Artist} - {Album} ({Year})"`. */
  function AlbumPlaylist(m: Record): string {
    Shown(m, Artist) + " - " + Shown(m, Album) + " (" + Shown(m, Year) + ")"
  }

  /** Slot `f` once normalization is over, field by field: an explicit non-blank playlist or
      sub-playlist wins, then the album-derived playlist and playlist track, and every other
      slot keeps its value unless its clearing line rejects it. */
  function NormalizedSlot(m: Record, s: Setter, f: FieldId): Option<Value> {
    if f == PlaylistTrack && s.playlistFromAlbum then Cleared(m, AlbumTrack)
    else if f == Playlist && !IsNullOrWhiteSpace(s.playlist) then Some(TextValue(s.playlist.value))
    else if f == Playlist && s.playlistFromAlbum then Some(TextValue(AlbumPlaylist(m)))
    else if f == SubPlaylist && !IsNullOrWhiteSpace(s.subPlaylist) then Some(TextValue(s.subPlaylist.value))
    else Cleared(m, f)
  }

  /** The whole record after normalization. */
  function Normalized(m: Record, s: Setter): Record {
    map f | f in m.Keys + {PlaylistTrack, Playlist, SubPlaylist} && NormalizedSlot(m, s, f).Some? ::
      NormalizedSlot(m, s, f).value
  }

  lemma LookupNormalized(m: Record, s: Setter, f: FieldId)
    ensures Lookup(Normalized(m, s), f) == NormalizedSlot(m, s, f)
  {
  }

  /** C#'s lifted `songIni.F < k`: false when the property is `null`. */
  predicate LongBelow(m: Record, f: FieldId, k: int) {
    f in m && m[f].LongValue? && m[f].number < k
  }

  /** C#'s lifted `songIni.F == k`. */
  predicate LongEquals(m: Record, f: FieldId, k: int) {
    f in m && m[f].LongValue? && m[f].number == k
  }

  /** C#'s `songIni.F != "text"`: true when the property is `null`. */
  predicate TextDiffers(m: Record, f: FieldId, text: string) {
    !(f in m && m[f].TextValue? && m[f].text == text)
  }

  /** `songIni.Preview?.Length != 2 || songIni.Preview?.Any(l => l < 0) == true`. */
  predicate PreviewRejected(m: Record) {
    !(Preview in m && m[Preview].LongArrayValue? && |m[Preview].numbers| == 2)
    || (Preview in m && m[Preview].LongArrayValue? && exists i | 0 <= i < |m[Preview].numbers| :: m[Preview].numbers[i] < 0)
  }

  /** The slots the playlist-track override gives their final value. */
  function TrackSlot(s: Setter): set<FieldId> {
    if s.playlistFromAlbum then {PlaylistTrack} else {}
  }

  /** The slots the overrides give their final value. */
  function FinalSlots(s: Setter): set<FieldId> {
    TrackSlot(s) + {Playlist, SubPlaylist}
  }

  /** Normalization part-way: the slots in `final` hold their final value, those whose clearing
      line comes before line `n` have been through it, and the others are as read. */
  ghost predicate Progress(m: Record, s: Setter, cur: Record, n: nat, final: set<FieldId>) {
    forall f {:trigger Lookup(cur, f)} :: Lookup(cur, f) ==
      if f in final then NormalizedSlot(m, s, f)
      else if f as int < n then Cleared(m, f)
      else Lookup(m, f)
  }

  /** The clearing line of field `f` takes normalization one line further. */
  lemma ClearStep(m: Record, s: Setter, before: Record, after: Record, f: FieldId, reject: bool, final: set<FieldId>)
    requires Progress(m, s, before, f as int, final)
    requires f as int < ClearingLines && f !in final
    requires f in before ==> (reject <==> Violates(RuleOf(f), before[f]))
    requires after == if reject then before - {f} else before
    ensures Progress(m, s, after, f as int + 1, final)
  {
    forall g ensures Lookup(after, g) ==
      if g in final then NormalizedSlot(m, s, g)
      else if g <= f then Cleared(m, g)
      else Lookup(m, g)
    {
      assert Lookup(before, g) ==
        if g in final then NormalizedSlot(m, s, g)
        else if g < f then Cleared(m, g)
        else Lookup(m, g);
      if g == f {
        assert Lookup(before, f) == Lookup(m, f);
      } else {
        assert Lookup(after, g) == Lookup(before, g);
      }
    }
  }

  /** `songIni.PlaylistTrack = songIni.AlbumTrack` when the playlist comes from the album. */
  lemma TrackOverride(m: Record, s: Setter, before: Record, after: Record)
    requires Progress(m, s, before, Tags as int, {})
    requires after == if !s.playlistFromAlbum then before
                      else if AlbumTrack in before then before[PlaylistTrack := before[AlbumTrack]]
                      else before - {PlaylistTrack}
    ensures Progress(m, s, after, Tags as int, TrackSlot(s))
  {
    forall g ensures Lookup(after, g) ==
      if g in TrackSlot(s) then NormalizedSlot(m, s, g)
      else if g as int < Tags as int then Cleared(m, g)
      else Lookup(m, g)
    {
      assert Lookup(before, g) ==
        if g as int < Tags as int then Cleared(m, g) else Lookup(m, g);
      if s.playlistFromAlbum && g == PlaylistTrack {
        assert Lookup(before, AlbumTrack) == Cleared(m, AlbumTrack);
      }
    }
  }

  /** The playlist and sub-playlist overrides. */
  lemma PlaylistOverrides(m: Record, s: Setter, before: Record, after: Record)
    requires Progress(m, s, before, DiffBand as int, TrackSlot(s))
    requires Lookup(after, Playlist) ==
      if !IsNullOrWhiteSpace(s.playlist) then Some(TextValue(s.playlist.value))
      else if s.playlistFromAlbum then Some(TextValue(AlbumPlaylist(before)))
      else Lookup(before, Playlist)
    requires Lookup(after, SubPlaylist) ==
      if !IsNullOrWhiteSpace(s.subPlaylist) then Some(TextValue(s.subPlaylist.value))
      else Lookup(before, SubPlaylist)
    requires forall g | g != Playlist && g != SubPlaylist :: Lookup(after, g) == Lookup(before, g)
    ensures Progress(m, s, after, DiffBand as int, FinalSlots(s))
  {
    assert Lookup(before, Artist) == Lookup(m, Artist);
    assert Lookup(before, Album) == Lookup(m, Album);
    assert Lookup(before, Year) == Lookup(m, Year);
    assert AlbumPlaylist(before) == AlbumPlaylist(m);
    assert Lookup(before, Playlist) == Lookup(m, Playlist);
    assert Lookup(before, SubPlaylist) == Lookup(m, SubPlaylist);
    forall g ensures Lookup(after, g) ==
      if g in FinalSlots(s) then NormalizedSlot(m, s, g)
      else if g as int < DiffBand as int then Cleared(m, g)
      else Lookup(m, g)
    {
      if g != Playlist && g != SubPlaylist {
        assert Lookup(before, g) ==
          if g in TrackSlot(s) then NormalizedSlot(m, s, g)
          else if g as int < DiffBand as int then Cleared(m, g)
          else Lookup(m, g);
      }
    }
  }

  /** Once every line has run, the record is the normalized one. */
  lemma Finish(m: Record, s: Setter, cur: Record)
    requires Progress(m, s, cur, ClearingLines, FinalSlots(s))
    ensures cur == Normalized(m, s)
  {
    forall f ensures Lookup(cur, f) == Lookup(Normalized(m, s), f) {
      LookupNormalized(m, s, f);
    }
    RecordsAgree(cur, Normalized(m, s));
  }

  /** One clearing line: `if (reject) songIni.F = null;`, taking normalization one line further. */
  method ClearLine(songIni: SongIni, f: FieldId, reject: bool,
                   ghost m: Record, ghost s: Setter, ghost final: set<FieldId>)
    requires Progress(m, s, songIni.fields, f as int, final)
    requires f as int < ClearingLines && f !in final
    requires f in songIni.fields ==> (reject <==> Violates(RuleOf(f), songIni.fields[f]))
    modifies songIni
    ensures Progress(m, s, songIni.fields, f as int + 1, final)
  {
    ghost var before := songIni.fields;
    if reject {
      songIni.Assign(f, None);
    }
    ClearStep(m, s, before, songIni.fields, f, reject, final);
  }

  /** Region "Song/Chart Metadata": the track and time clearing lines, then the album playlist track. */
  method NormalizeSongMetadata(songIni: SongIni, setter: Setter, ghost m: Record)
    requires Progress(m, setter, songIni.fields, Version as int, {})
    modifies songIni
    ensures Progress(m, setter, songIni.fields, Tags as int, TrackSlot(setter))
  {
    ClearLine(songIni, Version, LongBelow(songIni.fields, Version, 0),
      m, setter, {});
    ClearLine(songIni, AlbumTrack, LongBelow(songIni.fields, AlbumTrack, 0) || LongEquals(songIni.fields, AlbumTrack, TrackPlaceholder),
      m, setter, {});
    ClearLine(songIni, PlaylistTrack, LongBelow(songIni.fields, PlaylistTrack, 0) || LongEquals(songIni.fields, PlaylistTrack, TrackPlaceholder),
      m, setter, {});
    ClearLine(songIni, SongLength, LongBelow(songIni.fields, SongLength, 0),
      m, setter, {});
    ClearLine(songIni, PreviewStartTime, LongBelow(songIni.fields, PreviewStartTime, 0),
      m, setter, {});
    ClearLine(songIni, PreviewEndTime, LongBelow(songIni.fields, PreviewEndTime, 0),
      m, setter, {});
    ghost var before := songIni.fields;
    if setter.playlistFromAlbum { songIni.Assign(PlaylistTrack, Lookup(songIni.fields, AlbumTrack)); }
    TrackOverride(m, setter, before, songIni.fields);
  }

  /** Region "Song/Chart Metadata (Game-Specific)": tags and preview, then the playlist overrides. */
  method NormalizeGameMetadata(songIni: SongIni, setter: Setter, ghost m: Record)
    requires Progress(m, setter, songIni.fields, Tags as int, TrackSlot(setter))
    modifies songIni
    ensures Progress(m, setter, songIni.fields, DiffBand as int, FinalSlots(setter))
  {
    ClearLine(songIni, Tags, TextDiffers(songIni.fields, Tags, "cover"),
      m, setter, TrackSlot(setter));
    ClearLine(songIni, Preview, PreviewRejected(songIni.fields),
      m, setter, TrackSlot(setter));
    ghost var before := songIni.fields;
    if setter.playlistFromAlbum { songIni.Assign(Playlist, Some(TextValue(AlbumPlaylist(songIni.fields)))); }
    if !IsNullOrWhiteSpace(setter.playlist) { songIni.Assign(Playlist, Some(TextValue(setter.playlist.value))); }
    if !IsNullOrWhiteSpace(setter.subPlaylist) { songIni.Assign(SubPlaylist, Some(TextValue(setter.subPlaylist.value))); }
    PlaylistOverrides(m, setter, before, songIni.fields);
  }

  /** Region "Track Difficulties", band and guitar lines. */
  method NormalizeGuitarDifficulties(songIni: SongIni, setter: Setter, ghost m: Record)
    requires Progress(m, setter, songIni.fields, DiffBand as int, FinalSlots(setter))
    modifies songIni
    ensures Progress(m, setter, songIni.fields, DiffRhythm as int, FinalSlots(setter))
  {
    ClearLine(songIni, DiffBand, LongBelow(songIni.fields, DiffBand, 0),
      m, setter, FinalSlots(setter));
    ClearLine(songIni, DiffGuitar, LongBelow(songIni.fields, DiffGuitar, 0),
      m, setter, FinalSlots(setter));
    ClearLine(songIni, DiffGuitarGHL, LongBelow(songIni.fields, DiffGuitarGHL, 0),
      m, setter, FinalSlots(setter));
    ClearLine(songIni, DiffGuitarCoop, LongBelow(songIni.fields, DiffGuitarCoop, 0),
      m, setter, FinalSlots(setter));
    ClearLine(songIni, DiffGuitarCoopGHL, LongBelow(songIni.fields, DiffGuitarCoopGHL, 0),
      m, setter, FinalSlots(setter));
    ClearLine(songIni, DiffGuitarReal, LongBelow(songIni.fields, DiffGuitarReal, 0),
      m, setter, FinalSlots(setter));
    ClearLine(songIni, DiffGuitarReal22, LongBelow(songIni.fields, DiffGuitarReal22, 0),
      m, setter, FinalSlots(setter));
  }

  /** Region "Track Difficulties", rhythm and bass lines. */
  method NormalizeBassDifficulties(songIni: SongIni, setter: Setter, ghost m: Record)
    requires Progress(m, setter, songIni.fields, DiffRhythm as int, FinalSlots(setter))
    modifies songIni
    ensures Progress(m, setter, songIni.fields, DiffDrums as int, FinalSlots(setter))
  {
    ClearLine(songIni, DiffRhythm, LongBelow(songIni.fields, DiffRhythm, 0),
      m, setter, FinalSlots(setter));
    ClearLine(songIni, DiffRhythmGHL, LongBelow(songIni.fields, DiffRhythmGHL, 0),
      m, setter, FinalSlots(setter));
    ClearLine(songIni, DiffBass, LongBelow(songIni.fields, DiffBass, 0),
      m, setter, FinalSlots(setter));
    ClearLine(songIni, DiffBassGHL, LongBelow(songIni.fields, DiffBassGHL, 0),
      m, setter, FinalSlots(setter));
    ClearLine(songIni, DiffBassReal, LongBelow(songIni.fields, DiffBassReal, 0),
      m, setter, FinalSlots(setter));
    ClearLine(songIni, DiffBassReal22, LongBelow(songIni.fields, DiffBassReal22, 0),
      m, setter, FinalSlots(setter));
  }

  /** Region "Track Difficulties", drums lines. */
  method NormalizeDrumDifficulties(songIni: SongIni, setter: Setter, ghost m: Record)
    requires Progress(m, setter, songIni.fields, DiffDrums as int, FinalSlots(setter))
    modifies songIni
    ensures Progress(m, setter, songIni.fields, DiffKeys as int, FinalSlots(setter))
  {
    ClearLine(songIni, DiffDrums, LongBelow(songIni.fields, DiffDrums, 0),
      m, setter, FinalSlots(setter));
    ClearLine(songIni, DiffDrumsReal, LongBelow(songIni.fields, DiffDrumsReal, 0),
      m, setter, FinalSlots(setter));
    ClearLine(songIni, DiffDrumsRealPS, LongBelow(songIni.fields, DiffDrumsRealPS, 0),
      m, setter, FinalSlots(setter));
  }

  /** Region "Track Difficulties", keys, vocals and dance lines. */
  method NormalizeKeysVocalsDanceDifficulties(songIni: SongIni, setter: Setter, ghost m: Record)
    requires Progress(m, setter, songIni.fields, DiffKeys as int, FinalSlots(setter))
    modifies songIni
    ensures Progress(m, setter, songIni.fields, VocalGender as int, FinalSlots(setter))
  {
    ClearLine(songIni, DiffKeys, LongBelow(songIni.fields, DiffKeys, 0),
      m, setter, FinalSlots(setter));
    ClearLine(songIni, DiffKeysReal, LongBelow(songIni.fields, DiffKeysReal, 0),
      m, setter, FinalSlots(setter));
    ClearLine(songIni, DiffKeysRealPS, LongBelow(songIni.fields, DiffKeysRealPS, 0),
      m, setter, FinalSlots(setter));
    ClearLine(songIni, DiffVocals, LongBelow(songIni.fields, DiffVocals, 0),
      m, setter, FinalSlots(setter));
    ClearLine(songIni, DiffVocalsHarm, LongBelow(songIni.fields, DiffVocalsHarm, 0),
      m, setter, FinalSlots(setter));
    ClearLine(songIni, DiffDance, LongBelow(songIni.fields, DiffDance, 0),
      m, setter, FinalSlots(setter));
  }


  /** Regions "Chart Properties" and "Chart Properties (Game-Specific)": vocal gender, delay, star-power note and hit window. */
  method NormalizeChartProperties(songIni: SongIni, setter: Setter, ghost m: Record)
    requires Progress(m, setter, songIni.fields, VocalGender as int, FinalSlots(setter))
    modifies songIni
    ensures Progress(m, setter, songIni.fields, VideoStartTime as int, FinalSlots(setter))
  {
    // Chart Properties
    ClearLine(songIni, VocalGender, TextDiffers(songIni.fields, VocalGender, "male") && TextDiffers(songIni.fields, VocalGender, "female"),
      m, setter, FinalSlots(setter));
    ClearLine(songIni, Delay, LongEquals(songIni.fields, Delay, 0),
      m, setter, FinalSlots(setter));
    ClearLine(songIni, MultiplierNote, !LongEquals(songIni.fields, MultiplierNote, 103) && !LongEquals(songIni.fields, MultiplierNote, 116),
      m, setter, FinalSlots(setter));

    // Chart Properties (Game-Specific)
    ClearLine(songIni, EarlyHitWindowSize, TextDiffers(songIni.fields, EarlyHitWindowSize, "none") && TextDiffers(songIni.fields, EarlyHitWindowSize, "half") && TextDiffers(songIni.fields, EarlyHitWindowSize, "full"),
      m, setter, FinalSlots(setter));
  }

  /** Regions "Images and Other Resources" and "Miscellaneous (Game-Specific)": video times, count and rating. */
  method NormalizeResourcesAndMiscellaneous(songIni: SongIni, setter: Setter, ghost m: Record)
    requires Progress(m, setter, songIni.fields, VideoStartTime as int, FinalSlots(setter))
    modifies songIni
    ensures Progress(m, setter, songIni.fields, ClearingLines, FinalSlots(setter))
  {
    // Images and Other Resources
    ClearLine(songIni, VideoStartTime, LongEquals(songIni.fields, VideoStartTime, 0),
      m, setter, FinalSlots(setter));
    ClearLine(songIni, VideoEndTime, LongBelow(songIni.fields, VideoEndTime, 0),
      m, setter, FinalSlots(setter));

    // Miscellaneous (Game-Specific)
    ClearLine(songIni, Count, LongEquals(songIni.fields, Count, 0),
      m, setter, FinalSlots(setter));
    ClearLine(songIni, Rating, LongEquals(songIni.fields, Rating, 0),
      m, setter, FinalSlots(setter));
  }


  /** `Normalize`: the regions in source order. */
  method Normalize(songIni: SongIni?, setter: Setter)
    modifies songIni
    ensures songIni != null ==> songIni.fields == Normalized(old(songIni.fields), setter)
  {
    if songIni == null {
      return;
    }
    ghost var m := songIni.fields;
    NormalizeSongMetadata(songIni, setter, m);
    NormalizeGameMetadata(songIni, setter, m);
    NormalizeGuitarDifficulties(songIni, setter, m);
    NormalizeBassDifficulties(songIni, setter, m);
    NormalizeDrumDifficulties(songIni, setter, m);
    NormalizeKeysVocalsDanceDifficulties(songIni, setter, m);
    NormalizeChartProperties(songIni, setter, m);
    NormalizeResourcesAndMiscellaneous(songIni, setter, m);
    Finish(m, setter, songIni.fields);
  }
}
