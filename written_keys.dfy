/**
 * The link between the writer's keys and the reader's key switch: every key the writer uses is
 * plain (lower-case ASCII letters, digits and `_`), so reading it back trims and lower-cases it
 * to itself, and the switch sends it to the very field the writer took the value from.
 */
module WrittenKeys {
  import opened Text
  import opened SongIniRecord
  import opened SongIniReading
  import opened SongIniWriting

  /** A character a written key is made of. */
  predicate KeyChar(c: char) {
    'a' <= c <= 'z' || '0' <= c <= '9' || c == '_'
  }

  /** `key`, read back, fills `f`. */
  predicate KeyReads(key: string, f: FieldId) {
    |key| > 0 && (forall i | 0 <= i < |key| :: KeyChar(key[i])) && FieldForKey(key) == Fills(f)
  }

  /** Every line of `table` writes a key that reads back as the line's own field. */
  predicate TableReads(table: seq<Emission>) {
    forall i | 0 <= i < |table| :: KeyReads(table[i].key, table[i].field)
  }

  /** A plain key survives trimming and lower-casing and is not blank. */
  lemma PlainKey(key: string, f: FieldId)
    requires KeyReads(key, f)
    ensures Trim(key) == key && ToLowerInvariant(key) == key && !IsBlank(key)
  {
    TrimOfTrimmed(key);
  }

  lemma TableReadsConcat(a: seq<Emission>, b: seq<Emission>)
    requires TableReads(a) && TableReads(b)
    ensures TableReads(a + b)
  {
    assert forall i | |a| <= i < |a + b| :: (a + b)[i] == b[i - |a|];
  }

  lemma KeyName() ensures KeyReads("name", Name) {}
  lemma KeyArtist() ensures KeyReads("artist", Artist) {}
  lemma KeyAlbum() ensures KeyReads("album", Album) {}
  lemma KeyGenre() ensures KeyReads("genre", Genre) {}
  lemma KeySubGenre() ensures KeyReads("sub_genre", SubGenre) {}
  lemma KeyYear() ensures KeyReads("year", Year) {}
  lemma KeyCharter() ensures KeyReads("charter", Charter) {}
  lemma KeyFrets() ensures KeyReads("frets", Charter) {}
  lemma KeyVersion() ensures KeyReads("version", Version) {}
  lemma KeyAlbumTrack() ensures KeyReads("album_track", AlbumTrack) {}
  lemma KeyTrack() ensures KeyReads("track", AlbumTrack) {}
  lemma KeyPlaylistTrack() ensures KeyReads("playlist_track", PlaylistTrack) {}
  lemma KeySongLength() ensures KeyReads("song_length", SongLength) {}
  lemma KeyPreviewStartTime() ensures KeyReads("preview_start_time", PreviewStartTime) {}
  lemma KeyPreviewEndTime() ensures KeyReads("preview_end_time", PreviewEndTime) {}
  lemma KeyLoadingPhrase() ensures KeyReads("loading_phrase", LoadingPhrase) {}
  lemma KeyCassettecolor() ensures KeyReads("cassettecolor", CassetteColor) {}
  lemma KeyTags() ensures KeyReads("tags", Tags) {}
  lemma KeyPreview() ensures KeyReads("preview", Preview) {}
  lemma KeyPlaylist() ensures KeyReads("playlist", Playlist) {}
  lemma KeySubPlaylist() ensures KeyReads("sub_playlist", SubPlaylist) {}
  lemma KeyModchart() ensures KeyReads("modchart", Modchart) {}
  lemma KeyLyrics() ensures KeyReads("lyrics", Lyrics) {}
  lemma KeyDiffBand() ensures KeyReads("diff_band", DiffBand) {}
  lemma KeyDiffGuitar() ensures KeyReads("diff_guitar", DiffGuitar) {}
  lemma KeyDiffGuitarghl() ensures KeyReads("diff_guitarghl", DiffGuitarGHL) {}
  lemma KeyDiffGuitarCoop() ensures KeyReads("diff_guitar_coop", DiffGuitarCoop) {}
  lemma KeyDiffGuitarCoopGhl() ensures KeyReads("diff_guitar_coop_ghl", DiffGuitarCoopGHL) {}
  lemma KeyDiffGuitarReal() ensures KeyReads("diff_guitar_real", DiffGuitarReal) {}
  lemma KeyDiffGuitarReal22() ensures KeyReads("diff_guitar_real_22", DiffGuitarReal22) {}
  lemma KeyDiffRhythmGhl() ensures KeyReads("diff_rhythm_ghl", DiffRhythmGHL) {}
  lemma KeyDiffBass() ensures KeyReads("diff_bass", DiffBass) {}
  lemma KeyDiffBassReal() ensures KeyReads("diff_bass_real", DiffBassReal) {}
  lemma KeyDiffBassReal22() ensures KeyReads("diff_bass_real_22", DiffBassReal22) {}
  lemma KeyDiffDrums() ensures KeyReads("diff_drums", DiffDrums) {}
  lemma KeyDiffDrumsReal() ensures KeyReads("diff_drums_real", DiffDrumsReal) {}
  lemma KeyDiffDrumsRealPs() ensures KeyReads("diff_drums_real_ps", DiffDrumsRealPS) {}
  lemma KeyDiffKeys() ensures KeyReads("diff_keys", DiffKeys) {}
  lemma KeyDiffKeysReal() ensures KeyReads("diff_keys_real", DiffKeysReal) {}
  lemma KeyDiffKeysRealPs() ensures KeyReads("diff_keys_real_ps", DiffKeysRealPS) {}
  lemma KeyDiffVocals() ensures KeyReads("diff_vocals", DiffVocals) {}
  lemma KeyDiffVocalsHarm() ensures KeyReads("diff_vocals_harm", DiffVocalsHarm) {}
  lemma KeyDiffDance() ensures KeyReads("diff_dance", DiffDance) {}
  lemma KeyProDrums() ensures KeyReads("pro_drums", ProDrums) {}
  lemma KeyProDrum() ensures KeyReads("pro_drum", ProDrums) {}
  lemma KeyFiveLaneDrums() ensures KeyReads("five_lane_drums", FiveLaneDrums) {}
  lemma KeyVocalGender() ensures KeyReads("vocal_gender", VocalGender) {}
  lemma KeyRealGuitarTuning() ensures KeyReads("real_guitar_tuning", RealGuitarTuning) {}
  lemma KeyRealGuitar22Tuning() ensures KeyReads("real_guitar_22_tuning", RealGuitar22Tuning) {}
  lemma KeyRealBassTuning() ensures KeyReads("real_bass_tuning", RealBassTuning) {}
  lemma KeyRealBass22Tuning() ensures KeyReads("real_bass_22_tuning", RealBass22Tuning) {}
  lemma KeyRealKeysLaneCountRight() ensures KeyReads("real_keys_lane_count_right", RealKeysLaneCountRight) {}
  lemma KeyRealKeysLaneCountLeft() ensures KeyReads("real_keys_lane_count_left", RealKeysLaneCountLeft) {}
  lemma KeyDelay() ensures KeyReads("delay", Delay) {}
  lemma KeySustainCutoffThreshold() ensures KeyReads("sustain_cutoff_threshold", SustainCutoffThreshold) {}
  lemma KeyHopoFrequency() ensures KeyReads("hopo_frequency", HopoFrequency) {}
  lemma KeyEighthnoteHopo() ensures KeyReads("eighthnote_hopo", EighthNoteHopo) {}
  lemma KeyMultiplierNote() ensures KeyReads("multiplier_note", MultiplierNote) {}
  lemma KeyStarPowerNote() ensures KeyReads("star_power_note", MultiplierNote) {}
  lemma KeyDrumFallbackBlue() ensures KeyReads("drum_fallback_blue", DrumFallbackBlue) {}
  lemma KeyTutorial() ensures KeyReads("tutorial", Tutorial) {}
  lemma KeyBossBattle() ensures KeyReads("boss_battle", BossBattle) {}
  lemma KeyHopofreq() ensures KeyReads("hopofreq", HopoFreq) {}
  lemma KeyEarlyHitWindowSize() ensures KeyReads("early_hit_window_size", EarlyHitWindowSize) {}
  lemma KeyEndEvents() ensures KeyReads("end_events", EndEvents) {}
  lemma KeySysexSlider() ensures KeyReads("sysex_slider", SysExSlider) {}
  lemma KeySysexHighHatCtrl() ensures KeyReads("sysex_high_hat_ctrl", SysExHighHatCtrl) {}
  lemma KeySysexRimshot() ensures KeyReads("sysex_rimshot", SysExRimshot) {}
  lemma KeySysexOpenBass() ensures KeyReads("sysex_open_bass", SysExOpenBass) {}
  lemma KeySysexProSlide() ensures KeyReads("sysex_pro_slide", SysExProSlide) {}
  lemma KeyGuitarType() ensures KeyReads("guitar_type", GuitarType) {}
  lemma KeyBassType() ensures KeyReads("bass_type", BassType) {}
  lemma KeyKitType() ensures KeyReads("kit_type", KitType) {}
  lemma KeyKeysType() ensures KeyReads("keys_type", KeysType) {}
  lemma KeyDanceType() ensures KeyReads("dance_type", DanceType) {}
  lemma KeyIcon() ensures KeyReads("icon", Icon) {}
  lemma KeyBackground() ensures KeyReads("background", Background) {}
  lemma KeyVideo() ensures KeyReads("video", Video) {}
  lemma KeyVideoLoop() ensures KeyReads("video_loop", VideoLoop) {}
  lemma KeyVideoStartTime() ensures KeyReads("video_start_time", VideoStartTime) {}
  lemma KeyVideoEndTime() ensures KeyReads("video_end_time", VideoEndTime) {}
  lemma KeyCover() ensures KeyReads("cover", Cover) {}
  lemma KeyLinkNameA() ensures KeyReads("link_name_a", LinkNameA) {}
  lemma KeyLinkNameB() ensures KeyReads("link_name_b", LinkNameB) {}
  lemma KeyBannerLinkA() ensures KeyReads("banner_link_a", BannerLinkA) {}
  lemma KeyBannerLinkB() ensures KeyReads("banner_link_b", BannerLinkB) {}
  lemma KeyScores() ensures KeyReads("scores", Scores) {}
  lemma KeyScoresExt() ensures KeyReads("scores_ext", ScoresExt) {}
  lemma KeyCount() ensures KeyReads("count", Count) {}
  lemma KeyRating() ensures KeyReads("rating", Rating) {}
  lemma KeyUnlockId() ensures KeyReads("unlock_id", UnlockId) {}
  lemma KeyUnlockRequire() ensures KeyReads("unlock_require", UnlockRequire) {}
  lemma KeyUnlockText() ensures KeyReads("unlock_text", UnlockText) {}
  lemma KeyUnlockCompleted() ensures KeyReads("unlock_completed", UnlockCompleted) {}
  lemma KeyEofMidiImportDrumAccentVelocity() ensures KeyReads("eof_midi_import_drum_accent_velocity", EoFMidiImportDrumAccentVelocity) {}
  lemma KeyEofMidiImportDrumGhostVelocity() ensures KeyReads("eof_midi_import_drum_ghost_velocity", EoFMidiImportDrumGhostVelocity) {}

  lemma SongChartMetadataReads()
    ensures TableReads(SongChartMetadata)
  {
    KeyName(); KeyArtist(); KeyAlbum(); KeyGenre(); KeySubGenre(); KeyYear(); KeyCharter();
    KeyFrets(); KeyVersion(); KeyAlbumTrack(); KeyTrack(); KeyPlaylistTrack(); KeySongLength();
    KeyPreviewStartTime(); KeyPreviewEndTime(); KeyLoadingPhrase();
  }

  lemma SongChartMetadataGameSpecificReads()
    ensures TableReads(SongChartMetadataGameSpecific)
  {
    KeyCassettecolor(); KeyTags(); KeyPreview(); KeyPlaylist(); KeySubPlaylist(); KeyModchart();
    KeyLyrics();
  }

  lemma GuitarAndBassDifficultiesRead(i: nat)
    requires i < 10
    ensures KeyReads(TrackDifficulties[i].key, TrackDifficulties[i].field)
  {
    KeyDiffBand(); KeyDiffGuitar(); KeyDiffGuitarghl(); KeyDiffGuitarCoop(); KeyDiffGuitarCoopGhl();
    KeyDiffGuitarReal(); KeyDiffGuitarReal22(); KeyDiffRhythmGhl(); KeyDiffBass(); KeyDiffBassReal();
  }

  lemma DrumsKeysVocalsDanceDifficultiesRead(i: nat)
    requires 10 <= i < 20
    ensures KeyReads(TrackDifficulties[i].key, TrackDifficulties[i].field)
  {
    KeyDiffBassReal22(); KeyDiffDrums(); KeyDiffDrumsReal(); KeyDiffDrumsRealPs(); KeyDiffKeys();
    KeyDiffKeysReal(); KeyDiffKeysRealPs(); KeyDiffVocals(); KeyDiffVocalsHarm(); KeyDiffDance();
  }

  lemma TrackDifficultiesReads()
    ensures TableReads(TrackDifficulties)
  {
    forall i | 0 <= i < |TrackDifficulties|
      ensures KeyReads(TrackDifficulties[i].key, TrackDifficulties[i].field)
    {
      if i < 10 {
        GuitarAndBassDifficultiesRead(i);
      } else {
        DrumsKeysVocalsDanceDifficultiesRead(i);
      }
    }
  }

  lemma ChartPropertiesReads()
    ensures TableReads(ChartProperties)
  {
    KeyProDrums(); KeyProDrum(); KeyFiveLaneDrums(); KeyVocalGender(); KeyRealGuitarTuning();
    KeyRealGuitar22Tuning(); KeyRealBassTuning(); KeyRealBass22Tuning();
    KeyRealKeysLaneCountRight(); KeyRealKeysLaneCountLeft(); KeyDelay();
    KeySustainCutoffThreshold(); KeyHopoFrequency(); KeyEighthnoteHopo(); KeyMultiplierNote();
    KeyStarPowerNote();
  }

  lemma ChartPropertiesGameSpecificReads()
    ensures TableReads(ChartPropertiesGameSpecific)
  {
    KeyDrumFallbackBlue(); KeyTutorial(); KeyBossBattle(); KeyHopofreq(); KeyEarlyHitWindowSize();
    KeyEndEvents(); KeySysexSlider(); KeySysexHighHatCtrl(); KeySysexRimshot(); KeySysexOpenBass();
    KeySysexProSlide(); KeyGuitarType(); KeyBassType(); KeyKitType(); KeyKeysType(); KeyDanceType();
  }

  lemma ImagesAndOtherResourcesReads()
    ensures TableReads(ImagesAndOtherResources)
  {
    KeyIcon(); KeyBackground(); KeyVideo(); KeyVideoLoop(); KeyVideoStartTime(); KeyVideoEndTime();
    KeyCover();
  }

  lemma ImagesAndOtherResourcesGameSpecificReads()
    ensures TableReads(ImagesAndOtherResourcesGameSpecific)
  {
    KeyLinkNameA(); KeyLinkNameB(); KeyBannerLinkA(); KeyBannerLinkB();
  }

  lemma MiscellaneousGameSpecificReads()
    ensures TableReads(MiscellaneousGameSpecific)
  {
    KeyScores(); KeyScoresExt(); KeyCount(); KeyRating(); KeyUnlockId(); KeyUnlockRequire();
    KeyUnlockText(); KeyUnlockCompleted(); KeyEofMidiImportDrumAccentVelocity();
    KeyEofMidiImportDrumGhostVelocity();
  }

  /** Every key the writer uses reads back as its own field. */
  lemma EmitOrderReads()
    ensures TableReads(EmitOrder)
  {
    SongChartMetadataReads();
    SongChartMetadataGameSpecificReads();
    TrackDifficultiesReads();
    ChartPropertiesReads();
    ChartPropertiesGameSpecificReads();
    ImagesAndOtherResourcesReads();
    ImagesAndOtherResourcesGameSpecificReads();
    MiscellaneousGameSpecificReads();
    TableReadsConcat(SongChartMetadata, SongChartMetadataGameSpecific);
    TableReadsConcat(SongChartMetadata + SongChartMetadataGameSpecific, TrackDifficulties);
    TableReadsConcat(SongChartMetadata + SongChartMetadataGameSpecific + TrackDifficulties, ChartProperties);
    TableReadsConcat(SongChartMetadata + SongChartMetadataGameSpecific + TrackDifficulties + ChartProperties, ChartPropertiesGameSpecific);
    TableReadsConcat(SongChartMetadata + SongChartMetadataGameSpecific + TrackDifficulties + ChartProperties + ChartPropertiesGameSpecific, ImagesAndOtherResources);
    TableReadsConcat(SongChartMetadata + SongChartMetadataGameSpecific + TrackDifficulties + ChartProperties + ChartPropertiesGameSpecific + ImagesAndOtherResources, ImagesAndOtherResourcesGameSpecific);
    TableReadsConcat(SongChartMetadata + SongChartMetadataGameSpecific + TrackDifficulties + ChartProperties + ChartPropertiesGameSpecific + ImagesAndOtherResources + ImagesAndOtherResourcesGameSpecific, MiscellaneousGameSpecific);
  }
}
