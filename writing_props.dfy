/**
 * What the writer promises: the header first and only there, a line for each present field in
 * the order of the table, two keys for four fields, and no line at all for two.
 */
module WritingProperties {
  import opened Wrappers
  import opened Text
  import opened Numbers
  import opened Ini
  import opened SongIniRecord
  import opened SongIniWriting

  lemma {:induction false} LinesConcat(m: Record, a: seq<Emission>, b: seq<Emission>)
    ensures Lines(m, a + b) == Lines(m, a) + Lines(m, b)
  {
    if b == [] {
      assert a + b == a;
    } else {
      assert (a + b)[..|a + b| - 1] == a + b[..|b| - 1];
      LinesConcat(m, a, b[..|b| - 1]);
    }
  }

  /** A pair is written exactly when some line of the table has that key, its field is present,
      and the field's text is that value. */
  lemma {:induction false} PairWritten(m: Record, table: seq<Emission>, key: string, value: string)
    ensures PairLine(key, value) in Lines(m, table) <==>
      exists i | 0 <= i < |table| :: table[i].key == key && table[i].field in m && Render(m[table[i].field]) == value
  {
    if table != [] {
      var init := table[..|table| - 1];
      PairWritten(m, init, key, value);
      if exists i | 0 <= i < |init| :: init[i].key == key && init[i].field in m && Render(m[init[i].field]) == value {
        var i :| 0 <= i < |init| && init[i].key == key && init[i].field in m && Render(m[init[i].field]) == value;
        assert table[i] == init[i];
      }
      if exists i | 0 <= i < |table| :: table[i].key == key && table[i].field in m && Render(m[table[i].field]) == value {
        var i :| 0 <= i < |table| && table[i].key == key && table[i].field in m && Render(m[table[i].field]) == value;
        if i < |init| {
          assert init[i] == table[i];
        }
      }
    }
  }

  /** Every written line is a pair. */
  lemma {:induction false} LinesArePairs(m: Record, table: seq<Emission>)
    ensures |Lines(m, table)| <= |table|
    ensures forall l | l in Lines(m, table) :: l.PairLine?
  {
    if table != [] {
      LinesArePairs(m, table[..|table| - 1]);
    }
  }

  /** When every field of the table is present, the writer writes one line per table line, in the
      table's order and under the table's keys. */
  lemma {:induction false} FullRecordLines(m: Record, table: seq<Emission>)
    requires forall i | 0 <= i < |table| :: table[i].field in m
    ensures |Lines(m, table)| == |table|
    ensures forall i | 0 <= i < |table| :: Lines(m, table)[i] == PairLine(table[i].key, Render(m[table[i].field]))
  {
    if table != [] {
      var init := table[..|table| - 1];
      FullRecordLines(m, init);
      assert forall i | 0 <= i < |init| :: init[i] == table[i];
    }
  }

  /** The `song` header comes first and no other header follows. */
  lemma HeaderOnlyFirst(m: Record)
    ensures |Serialize(m)| >= 1 && Serialize(m)[0] == SectionLine("song")
    ensures forall i | 1 <= i < |Serialize(m)| :: Serialize(m)[i].PairLine?
  {
    LinesArePairs(m, EmitOrder);
    assert forall i | 1 <= i < |Serialize(m)| :: Serialize(m)[i] == Lines(m, EmitOrder)[i - 1];
  }

  /** An empty record writes the header alone. */
  lemma {:induction false} NothingToWrite(table: seq<Emission>)
    ensures Lines(map[], table) == []
  {
    if table != [] {
      NothingToWrite(table[..|table| - 1]);
    }
  }

  /** The lines of `table` depend only on the slots the table names. */
  lemma {:induction false} LinesDependOnTableFields(m1: Record, m2: Record, table: seq<Emission>)
    requires forall i | 0 <= i < |table| :: Lookup(m1, table[i].field) == Lookup(m2, table[i].field)
    ensures Lines(m1, table) == Lines(m2, table)
  {
    if table != [] {
      var init := table[..|table| - 1];
      assert forall i | 0 <= i < |init| :: init[i] == table[i];
      LinesDependOnTableFields(m1, m2, init);
      var f := table[|table| - 1].field;
      assert Lookup(m1, f) == Lookup(m2, f);
    }
  }

  /** No line of `table` names `DiffRhythm` or `DiffBassGHL`. */
  predicate OmitsRhythmAndBassGHL(table: seq<Emission>) {
    forall i | 0 <= i < |table| :: table[i].field != DiffRhythm && table[i].field != DiffBassGHL
  }

  lemma OmitsConcat(a: seq<Emission>, b: seq<Emission>)
    requires OmitsRhythmAndBassGHL(a) && OmitsRhythmAndBassGHL(b)
    ensures OmitsRhythmAndBassGHL(a + b)
  {
    assert forall i | |a| <= i < |a + b| :: (a + b)[i] == b[i - |a|];
  }

  /** No writer line names `DiffRhythm` or `DiffBassGHL`. */
  lemma NoLineForRhythmOrBassGHL()
    ensures OmitsRhythmAndBassGHL(EmitOrder)
  {
    assert OmitsRhythmAndBassGHL(SongChartMetadata);
    assert OmitsRhythmAndBassGHL(SongChartMetadataGameSpecific);
    assert OmitsRhythmAndBassGHL(TrackDifficulties);
    assert OmitsRhythmAndBassGHL(ChartProperties);
    assert OmitsRhythmAndBassGHL(ChartPropertiesGameSpecific);
    assert OmitsRhythmAndBassGHL(ImagesAndOtherResources);
    assert OmitsRhythmAndBassGHL(ImagesAndOtherResourcesGameSpecific);
    assert OmitsRhythmAndBassGHL(MiscellaneousGameSpecific);
    OmitsConcat(SongChartMetadata, SongChartMetadataGameSpecific);
    OmitsConcat(SongChartMetadata + SongChartMetadataGameSpecific, TrackDifficulties);
    OmitsConcat(SongChartMetadata + SongChartMetadataGameSpecific + TrackDifficulties, ChartProperties);
    OmitsConcat(SongChartMetadata + SongChartMetadataGameSpecific + TrackDifficulties + ChartProperties, ChartPropertiesGameSpecific);
    OmitsConcat(SongChartMetadata + SongChartMetadataGameSpecific + TrackDifficulties + ChartProperties + ChartPropertiesGameSpecific, ImagesAndOtherResources);
    OmitsConcat(SongChartMetadata + SongChartMetadataGameSpecific + TrackDifficulties + ChartProperties + ChartPropertiesGameSpecific + ImagesAndOtherResources, ImagesAndOtherResourcesGameSpecific);
    OmitsConcat(SongChartMetadata + SongChartMetadataGameSpecific + TrackDifficulties + ChartProperties + ChartPropertiesGameSpecific + ImagesAndOtherResources + ImagesAndOtherResourcesGameSpecific, MiscellaneousGameSpecific);
  }

  /** `diff_rhythm` and `diff_bassghl` are never written: the file is the same whatever those
      two slots hold. */
  lemma RhythmAndBassGHLNeverWritten(m: Record)
    ensures Serialize(m) == Serialize(m - {DiffRhythm, DiffBassGHL})
  {
    NoLineForRhythmOrBassGHL();
    LinesDependOnTableFields(m, m - {DiffRhythm, DiffBassGHL}, EmitOrder);
  }

  /** A line a table writes is still written when more table lines come before or after. */
  lemma LinesGrow(m: Record, a: seq<Emission>, b: seq<Emission>)
    ensures forall l | l in Lines(m, a) :: l in Lines(m, a + b)
    ensures forall l | l in Lines(m, b) :: l in Lines(m, a + b)
  {
    LinesConcat(m, a, b);
  }

  /** The line of a present field is written. */
  lemma EntryWritten(m: Record, table: seq<Emission>, i: nat)
    requires i < |table| && table[i].field in m
    ensures PairLine(table[i].key, Render(m[table[i].field])) in Lines(m, table)
  {
    PairWritten(m, table, table[i].key, Render(m[table[i].field]));
  }

  /** What the region of a table writes, the whole file writes. */
  lemma RegionLinesWritten(m: Record)
    ensures forall l | l in Lines(m, SongChartMetadata) :: l in Serialize(m)
    ensures forall l | l in Lines(m, ChartProperties) :: l in Serialize(m)
  {
    LinesGrow(m, SongChartMetadata, SongChartMetadataGameSpecific);
    LinesGrow(m, SongChartMetadata + SongChartMetadataGameSpecific, TrackDifficulties);
    LinesGrow(m, SongChartMetadata + SongChartMetadataGameSpecific + TrackDifficulties, ChartProperties);
    LinesGrow(m, SongChartMetadata + SongChartMetadataGameSpecific + TrackDifficulties + ChartProperties, ChartPropertiesGameSpecific);
    LinesGrow(m, SongChartMetadata + SongChartMetadataGameSpecific + TrackDifficulties + ChartProperties + ChartPropertiesGameSpecific, ImagesAndOtherResources);
    LinesGrow(m, SongChartMetadata + SongChartMetadataGameSpecific + TrackDifficulties + ChartProperties + ChartPropertiesGameSpecific + ImagesAndOtherResources, ImagesAndOtherResourcesGameSpecific);
    LinesGrow(m, SongChartMetadata + SongChartMetadataGameSpecific + TrackDifficulties + ChartProperties + ChartPropertiesGameSpecific + ImagesAndOtherResources + ImagesAndOtherResourcesGameSpecific, MiscellaneousGameSpecific);
  }

  /** Charter, AlbumTrack, ProDrums and MultiplierNote are written under both of their keys, with
      one and the same text. */
  lemma AliasesWrittenTwice(m: Record)
    ensures Charter in m ==> PairLine("charter", Render(m[Charter])) in Serialize(m) && PairLine("frets", Render(m[Charter])) in Serialize(m)
    ensures AlbumTrack in m ==> PairLine("album_track", Render(m[AlbumTrack])) in Serialize(m) && PairLine("track", Render(m[AlbumTrack])) in Serialize(m)
    ensures ProDrums in m ==> PairLine("pro_drums", Render(m[ProDrums])) in Serialize(m) && PairLine("pro_drum", Render(m[ProDrums])) in Serialize(m)
    ensures MultiplierNote in m ==> PairLine("multiplier_note", Render(m[MultiplierNote])) in Serialize(m) && PairLine("star_power_note", Render(m[MultiplierNote])) in Serialize(m)
  {
    RegionLinesWritten(m);
    var meta, props := SongChartMetadata, ChartProperties;
    assert meta[6] == Emission("charter", Charter) && meta[7] == Emission("frets", Charter);
    assert meta[9] == Emission("album_track", AlbumTrack) && meta[10] == Emission("track", AlbumTrack);
    assert props[0] == Emission("pro_drums", ProDrums) && props[1] == Emission("pro_drum", ProDrums);
    assert props[14] == Emission("multiplier_note", MultiplierNote) && props[15] == Emission("star_power_note", MultiplierNote);
    if Charter in m {
      EntryWritten(m, meta, 6);
      EntryWritten(m, meta, 7);
    }
    if AlbumTrack in m {
      EntryWritten(m, meta, 9);
      EntryWritten(m, meta, 10);
    }
    if ProDrums in m {
      EntryWritten(m, props, 0);
      EntryWritten(m, props, 1);
    }
    if MultiplierNote in m {
      EntryWritten(m, props, 14);
      EntryWritten(m, props, 15);
    }
  }

  /** Some line of `table` names field `f`. */
  predicate InTable(table: seq<Emission>, f: FieldId) {
    exists i | 0 <= i < |table| :: table[i].field == f
  }

  lemma InTableGrow(a: seq<Emission>, b: seq<Emission>, f: FieldId)
    ensures InTable(a, f) || InTable(b, f) ==> InTable(a + b, f)
  {
    if InTable(a, f) {
      var i :| 0 <= i < |a| && a[i].field == f;
      assert (a + b)[i] == a[i];
    } else if InTable(b, f) {
      var i :| 0 <= i < |b| && b[i].field == f;
      assert (a + b)[|a| + i] == b[i];
    }
  }

  lemma SongChartMetadataCovers(f: FieldId)
    requires f in {Name, Artist, Album, Genre, SubGenre, Year, Charter, Version, AlbumTrack, PlaylistTrack, SongLength, PreviewStartTime, PreviewEndTime, LoadingPhrase}
    ensures InTable(SongChartMetadata, f)
  {
    var t := SongChartMetadata;
    if f == Name {
      assert t[0].field == Name;
    } else if f == Artist {
      assert t[1].field == Artist;
    } else if f == Album {
      assert t[2].field == Album;
    } else if f == Genre {
      assert t[3].field == Genre;
    } else if f == SubGenre {
      assert t[4].field == SubGenre;
    } else if f == Year {
      assert t[5].field == Year;
    } else if f == Charter {
      assert t[6].field == Charter;
    } else if f == Version {
      assert t[8].field == Version;
    } else if f == AlbumTrack {
      assert t[9].field == AlbumTrack;
    } else if f == PlaylistTrack {
      assert t[11].field == PlaylistTrack;
    } else if f == SongLength {
      assert t[12].field == SongLength;
    } else if f == PreviewStartTime {
      assert t[13].field == PreviewStartTime;
    } else if f == PreviewEndTime {
      assert t[14].field == PreviewEndTime;
    } else {
      assert t[15].field == LoadingPhrase;
    }
  }

  lemma SongChartMetadataGameSpecificCovers(f: FieldId)
    requires f in {CassetteColor, Tags, Preview, Playlist, SubPlaylist, Modchart, Lyrics}
    ensures InTable(SongChartMetadataGameSpecific, f)
  {
    var t := SongChartMetadataGameSpecific;
    if f == CassetteColor {
      assert t[0].field == CassetteColor;
    } else if f == Tags {
      assert t[1].field == Tags;
    } else if f == Preview {
      assert t[2].field == Preview;
    } else if f == Playlist {
      assert t[3].field == Playlist;
    } else if f == SubPlaylist {
      assert t[4].field == SubPlaylist;
    } else if f == Modchart {
      assert t[5].field == Modchart;
    } else {
      assert t[6].field == Lyrics;
    }
  }

  lemma TrackDifficultiesCovers(f: FieldId)
    requires f in {DiffBand, DiffGuitar, DiffGuitarGHL, DiffGuitarCoop, DiffGuitarCoopGHL, DiffGuitarReal, DiffGuitarReal22, DiffRhythmGHL, DiffBass, DiffBassReal, DiffBassReal22, DiffDrums, DiffDrumsReal, DiffDrumsRealPS, DiffKeys, DiffKeysReal, DiffKeysRealPS, DiffVocals, DiffVocalsHarm, DiffDance}
    ensures InTable(TrackDifficulties, f)
  {
    var t := TrackDifficulties;
    if f == DiffBand {
      assert t[0].field == DiffBand;
    } else if f == DiffGuitar {
      assert t[1].field == DiffGuitar;
    } else if f == DiffGuitarGHL {
      assert t[2].field == DiffGuitarGHL;
    } else if f == DiffGuitarCoop {
      assert t[3].field == DiffGuitarCoop;
    } else if f == DiffGuitarCoopGHL {
      assert t[4].field == DiffGuitarCoopGHL;
    } else if f == DiffGuitarReal {
      assert t[5].field == DiffGuitarReal;
    } else if f == DiffGuitarReal22 {
      assert t[6].field == DiffGuitarReal22;
    } else if f == DiffRhythmGHL {
      assert t[7].field == DiffRhythmGHL;
    } else if f == DiffBass {
      assert t[8].field == DiffBass;
    } else if f == DiffBassReal {
      assert t[9].field == DiffBassReal;
    } else if f == DiffBassReal22 {
      assert t[10].field == DiffBassReal22;
    } else if f == DiffDrums {
      assert t[11].field == DiffDrums;
    } else if f == DiffDrumsReal {
      assert t[12].field == DiffDrumsReal;
    } else if f == DiffDrumsRealPS {
      assert t[13].field == DiffDrumsRealPS;
    } else if f == DiffKeys {
      assert t[14].field == DiffKeys;
    } else if f == DiffKeysReal {
      assert t[15].field == DiffKeysReal;
    } else if f == DiffKeysRealPS {
      assert t[16].field == DiffKeysRealPS;
    } else if f == DiffVocals {
      assert t[17].field == DiffVocals;
    } else if f == DiffVocalsHarm {
      assert t[18].field == DiffVocalsHarm;
    } else {
      assert t[19].field == DiffDance;
    }
  }

  lemma ChartPropertiesCovers(f: FieldId)
    requires f in {ProDrums, FiveLaneDrums, VocalGender, RealGuitarTuning, RealGuitar22Tuning, RealBassTuning, RealBass22Tuning, RealKeysLaneCountRight, RealKeysLaneCountLeft, Delay, SustainCutoffThreshold, HopoFrequency, EighthNoteHopo, MultiplierNote}
    ensures InTable(ChartProperties, f)
  {
    var t := ChartProperties;
    if f == ProDrums {
      assert t[0].field == ProDrums;
    } else if f == FiveLaneDrums {
      assert t[2].field == FiveLaneDrums;
    } else if f == VocalGender {
      assert t[3].field == VocalGender;
    } else if f == RealGuitarTuning {
      assert t[4].field == RealGuitarTuning;
    } else if f == RealGuitar22Tuning {
      assert t[5].field == RealGuitar22Tuning;
    } else if f == RealBassTuning {
      assert t[6].field == RealBassTuning;
    } else if f == RealBass22Tuning {
      assert t[7].field == RealBass22Tuning;
    } else if f == RealKeysLaneCountRight {
      assert t[8].field == RealKeysLaneCountRight;
    } else if f == RealKeysLaneCountLeft {
      assert t[9].field == RealKeysLaneCountLeft;
    } else if f == Delay {
      assert t[10].field == Delay;
    } else if f == SustainCutoffThreshold {
      assert t[11].field == SustainCutoffThreshold;
    } else if f == HopoFrequency {
      assert t[12].field == HopoFrequency;
    } else if f == EighthNoteHopo {
      assert t[13].field == EighthNoteHopo;
    } else {
      assert t[14].field == MultiplierNote;
    }
  }

  lemma ChartPropertiesGameSpecificCovers(f: FieldId)
    requires f in {DrumFallbackBlue, Tutorial, BossBattle, HopoFreq, EarlyHitWindowSize, EndEvents, SysExSlider, SysExHighHatCtrl, SysExRimshot, SysExOpenBass, SysExProSlide, GuitarType, BassType, KitType, KeysType, DanceType}
    ensures InTable(ChartPropertiesGameSpecific, f)
  {
    var t := ChartPropertiesGameSpecific;
    if f == DrumFallbackBlue {
      assert t[0].field == DrumFallbackBlue;
    } else if f == Tutorial {
      assert t[1].field == Tutorial;
    } else if f == BossBattle {
      assert t[2].field == BossBattle;
    } else if f == HopoFreq {
      assert t[3].field == HopoFreq;
    } else if f == EarlyHitWindowSize {
      assert t[4].field == EarlyHitWindowSize;
    } else if f == EndEvents {
      assert t[5].field == EndEvents;
    } else if f == SysExSlider {
      assert t[6].field == SysExSlider;
    } else if f == SysExHighHatCtrl {
      assert t[7].field == SysExHighHatCtrl;
    } else if f == SysExRimshot {
      assert t[8].field == SysExRimshot;
    } else if f == SysExOpenBass {
      assert t[9].field == SysExOpenBass;
    } else if f == SysExProSlide {
      assert t[10].field == SysExProSlide;
    } else if f == GuitarType {
      assert t[11].field == GuitarType;
    } else if f == BassType {
      assert t[12].field == BassType;
    } else if f == KitType {
      assert t[13].field == KitType;
    } else if f == KeysType {
      assert t[14].field == KeysType;
    } else {
      assert t[15].field == DanceType;
    }
  }

  lemma ImagesAndOtherResourcesCovers(f: FieldId)
    requires f in {Icon, Background, Video, VideoLoop, VideoStartTime, VideoEndTime, Cover}
    ensures InTable(ImagesAndOtherResources, f)
  {
    var t := ImagesAndOtherResources;
    if f == Icon {
      assert t[0].field == Icon;
    } else if f == Background {
      assert t[1].field == Background;
    } else if f == Video {
      assert t[2].field == Video;
    } else if f == VideoLoop {
      assert t[3].field == VideoLoop;
    } else if f == VideoStartTime {
      assert t[4].field == VideoStartTime;
    } else if f == VideoEndTime {
      assert t[5].field == VideoEndTime;
    } else {
      assert t[6].field == Cover;
    }
  }

  lemma ImagesAndOtherResourcesGameSpecificCovers(f: FieldId)
    requires f in {LinkNameA, LinkNameB, BannerLinkA, BannerLinkB}
    ensures InTable(ImagesAndOtherResourcesGameSpecific, f)
  {
    var t := ImagesAndOtherResourcesGameSpecific;
    if f == LinkNameA {
      assert t[0].field == LinkNameA;
    } else if f == LinkNameB {
      assert t[1].field == LinkNameB;
    } else if f == BannerLinkA {
      assert t[2].field == BannerLinkA;
    } else {
      assert t[3].field == BannerLinkB;
    }
  }

  lemma MiscellaneousGameSpecificCovers(f: FieldId)
    requires f in {Scores, ScoresExt, Count, Rating, UnlockId, UnlockRequire, UnlockText, UnlockCompleted, EoFMidiImportDrumAccentVelocity, EoFMidiImportDrumGhostVelocity}
    ensures InTable(MiscellaneousGameSpecific, f)
  {
    var t := MiscellaneousGameSpecific;
    if f == Scores {
      assert t[0].field == Scores;
    } else if f == ScoresExt {
      assert t[1].field == ScoresExt;
    } else if f == Count {
      assert t[2].field == Count;
    } else if f == Rating {
      assert t[3].field == Rating;
    } else if f == UnlockId {
      assert t[4].field == UnlockId;
    } else if f == UnlockRequire {
      assert t[5].field == UnlockRequire;
    } else if f == UnlockText {
      assert t[6].field == UnlockText;
    } else if f == UnlockCompleted {
      assert t[7].field == UnlockCompleted;
    } else if f == EoFMidiImportDrumAccentVelocity {
      assert t[8].field == EoFMidiImportDrumAccentVelocity;
    } else {
      assert t[9].field == EoFMidiImportDrumGhostVelocity;
    }
  }

  lemma RhythmAndBassGHLNotInTable(f: FieldId)
    requires f == DiffRhythm || f == DiffBassGHL
    ensures !InTable(EmitOrder, f)
  {
    NoLineForRhythmOrBassGHL();
  }

  /** Every field except `DiffRhythm` and `DiffBassGHL` has a line in the writer. */
  lemma EveryOtherFieldWritten(f: FieldId)
    requires f != DiffRhythm && f != DiffBassGHL
    ensures InTable(EmitOrder, f)
  {
    InTableGrow(SongChartMetadata, SongChartMetadataGameSpecific, f);
    InTableGrow(SongChartMetadata + SongChartMetadataGameSpecific, TrackDifficulties, f);
    InTableGrow(SongChartMetadata + SongChartMetadataGameSpecific + TrackDifficulties, ChartProperties, f);
    InTableGrow(SongChartMetadata + SongChartMetadataGameSpecific + TrackDifficulties + ChartProperties, ChartPropertiesGameSpecific, f);
    InTableGrow(SongChartMetadata + SongChartMetadataGameSpecific + TrackDifficulties + ChartProperties + ChartPropertiesGameSpecific, ImagesAndOtherResources, f);
    InTableGrow(SongChartMetadata + SongChartMetadataGameSpecific + TrackDifficulties + ChartProperties + ChartPropertiesGameSpecific + ImagesAndOtherResources, ImagesAndOtherResourcesGameSpecific, f);
    InTableGrow(SongChartMetadata + SongChartMetadataGameSpecific + TrackDifficulties + ChartProperties + ChartPropertiesGameSpecific + ImagesAndOtherResources + ImagesAndOtherResourcesGameSpecific, MiscellaneousGameSpecific, f);
    if f in {Name, Artist, Album, Genre, SubGenre, Year, Charter, Version, AlbumTrack, PlaylistTrack, SongLength, PreviewStartTime, PreviewEndTime, LoadingPhrase} {
      SongChartMetadataCovers(f);
    } else if f in {CassetteColor, Tags, Preview, Playlist, SubPlaylist, Modchart, Lyrics} {
      SongChartMetadataGameSpecificCovers(f);
    } else if f in {DiffBand, DiffGuitar, DiffGuitarGHL, DiffGuitarCoop, DiffGuitarCoopGHL, DiffGuitarReal, DiffGuitarReal22, DiffRhythmGHL, DiffBass, DiffBassReal, DiffBassReal22, DiffDrums, DiffDrumsReal, DiffDrumsRealPS, DiffKeys, DiffKeysReal, DiffKeysRealPS, DiffVocals, DiffVocalsHarm, DiffDance} {
      TrackDifficultiesCovers(f);
    } else if f in {ProDrums, FiveLaneDrums, VocalGender, RealGuitarTuning, RealGuitar22Tuning, RealBassTuning, RealBass22Tuning, RealKeysLaneCountRight, RealKeysLaneCountLeft, Delay, SustainCutoffThreshold, HopoFrequency, EighthNoteHopo, MultiplierNote} {
      ChartPropertiesCovers(f);
    } else if f in {DrumFallbackBlue, Tutorial, BossBattle, HopoFreq, EarlyHitWindowSize, EndEvents, SysExSlider, SysExHighHatCtrl, SysExRimshot, SysExOpenBass, SysExProSlide, GuitarType, BassType, KitType, KeysType, DanceType} {
      ChartPropertiesGameSpecificCovers(f);
    } else if f in {Icon, Background, Video, VideoLoop, VideoStartTime, VideoEndTime, Cover} {
      ImagesAndOtherResourcesCovers(f);
    } else if f in {LinkNameA, LinkNameB, BannerLinkA, BannerLinkB} {
      ImagesAndOtherResourcesGameSpecificCovers(f);
    } else {
      MiscellaneousGameSpecificCovers(f);
    }
  }
}
