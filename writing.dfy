/**
 * `SongIniWrapper.WriteToFile`: the `[song]` header, then one `key=value` line for every
 * present field, in a fixed order, through `IniWriter`.
 */
module SongIniWriting {
  import opened Wrappers
  import opened Text
  import opened Numbers
  import opened Ini
  import opened SongIniRecord

  /** One line of the writer: `if (songIni.F != null) iniWriter.WriteKeyValuePair(key, ...)`. */
  datatype Emission = Emission(key: string, field: FieldId)

  /** Region "Song/Chart Metadata". */
  const SongChartMetadata: seq<Emission> := [
    Emission("name", Name),
    Emission("artist", Artist),
    Emission("album", Album),
    Emission("genre", Genre),
    Emission("sub_genre", SubGenre),
    Emission("year", Year),
    Emission("charter", Charter),
    Emission("frets", Charter),
    Emission("version", Version),
    Emission("album_track", AlbumTrack),
    Emission("track", AlbumTrack),
    Emission("playlist_track", PlaylistTrack),
    Emission("song_length", SongLength),
    Emission("preview_start_time", PreviewStartTime),
    Emission("preview_end_time", PreviewEndTime),
    Emission("loading_phrase", LoadingPhrase)]

  /** Region "Song/Chart Metadata (Game-Specific)". */
  const SongChartMetadataGameSpecific: seq<Emission> := [
    Emission("cassettecolor", CassetteColor),
    Emission("tags", Tags),
    Emission("preview", Preview),
    Emission("playlist", Playlist),
    Emission("sub_playlist", SubPlaylist),
    Emission("modchart", Modchart),
    Emission("lyrics", Lyrics)]

  /** Region "Track Difficulties". */
  const TrackDifficulties: seq<Emission> := [
    Emission("diff_band", DiffBand),
    Emission("diff_guitar", DiffGuitar),
    Emission("diff_guitarghl", DiffGuitarGHL),
    Emission("diff_guitar_coop", DiffGuitarCoop),
    Emission("diff_guitar_coop_ghl", DiffGuitarCoopGHL),
    Emission("diff_guitar_real", DiffGuitarReal),
    Emission("diff_guitar_real_22", DiffGuitarReal22),
    Emission("diff_rhythm_ghl", DiffRhythmGHL),
    Emission("diff_bass", DiffBass),
    Emission("diff_bass_real", DiffBassReal),
    Emission("diff_bass_real_22", DiffBassReal22),
    Emission("diff_drums", DiffDrums),
    Emission("diff_drums_real", DiffDrumsReal),
    Emission("diff_drums_real_ps", DiffDrumsRealPS),
    Emission("diff_keys", DiffKeys),
    Emission("diff_keys_real", DiffKeysReal),
    Emission("diff_keys_real_ps", DiffKeysRealPS),
    Emission("diff_vocals", DiffVocals),
    Emission("diff_vocals_harm", DiffVocalsHarm),
    Emission("diff_dance", DiffDance)]

  /** Region "Chart Properties". */
  const ChartProperties: seq<Emission> := [
    Emission("pro_drums", ProDrums),
    Emission("pro_drum", ProDrums),
    Emission("five_lane_drums", FiveLaneDrums),
    Emission("vocal_gender", VocalGender),
    Emission("real_guitar_tuning", RealGuitarTuning),
    Emission("real_guitar_22_tuning", RealGuitar22Tuning),
    Emission("real_bass_tuning", RealBassTuning),
    Emission("real_bass_22_tuning", RealBass22Tuning),
    Emission("real_keys_lane_count_right", RealKeysLaneCountRight),
    Emission("real_keys_lane_count_left", RealKeysLaneCountLeft),
    Emission("delay", Delay),
    Emission("sustain_cutoff_threshold", SustainCutoffThreshold),
    Emission("hopo_frequency", HopoFrequency),
    Emission("eighthnote_hopo", EighthNoteHopo),
    Emission("multiplier_note", MultiplierNote),
    Emission("star_power_note", MultiplierNote)]

  /** Region "Chart Properties (Game-Specific)". */
  const ChartPropertiesGameSpecific: seq<Emission> := [
    Emission("drum_fallback_blue", DrumFallbackBlue),
    Emission("tutorial", Tutorial),
    Emission("boss_battle", BossBattle),
    Emission("hopofreq", HopoFreq),
    Emission("early_hit_window_size", EarlyHitWindowSize),
    Emission("end_events", EndEvents),
    Emission("sysex_slider", SysExSlider),
    Emission("sysex_high_hat_ctrl", SysExHighHatCtrl),
    Emission("sysex_rimshot", SysExRimshot),
    Emission("sysex_open_bass", SysExOpenBass),
    Emission("sysex_pro_slide", SysExProSlide),
    Emission("guitar_type", GuitarType),
    Emission("bass_type", BassType),
    Emission("kit_type", KitType),
    Emission("keys_type", KeysType),
    Emission("dance_type", DanceType)]

  /** Region "Images and Other Resources". */
  const ImagesAndOtherResources: seq<Emission> := [
    Emission("icon", Icon),
    Emission("background", Background),
    Emission("video", Video),
    Emission("video_loop", VideoLoop),
    Emission("video_start_time", VideoStartTime),
    Emission("video_end_time", VideoEndTime),
    Emission("cover", Cover)]

  /** Region "Images and Other Resources (Game-Specific)". */
  const ImagesAndOtherResourcesGameSpecific: seq<Emission> := [
    Emission("link_name_a", LinkNameA),
    Emission("link_name_b", LinkNameB),
    Emission("banner_link_a", BannerLinkA),
    Emission("banner_link_b", BannerLinkB)]

  /** Region "Miscellaneous (Game-Specific)". */
  const MiscellaneousGameSpecific: seq<Emission> := [
    Emission("scores", Scores),
    Emission("scores_ext", ScoresExt),
    Emission("count", Count),
    Emission("rating", Rating),
    Emission("unlock_id", UnlockId),
    Emission("unlock_require", UnlockRequire),
    Emission("unlock_text", UnlockText),
    Emission("unlock_completed", UnlockCompleted),
    Emission("eof_midi_import_drum_accent_velocity", EoFMidiImportDrumAccentVelocity),
    Emission("eof_midi_import_drum_ghost_velocity", EoFMidiImportDrumGhostVelocity)]

  /** Every line of the writer, region after region, in the order they stand. */
  const EmitOrder: seq<Emission> :=
    SongChartMetadata + SongChartMetadataGameSpecific + TrackDifficulties + ChartProperties
    + ChartPropertiesGameSpecific + ImagesAndOtherResources + ImagesAndOtherResourcesGameSpecific
    + MiscellaneousGameSpecific

  /** `long.ToString()` of each entry. */
  function LongStrings(xs: seq<Long>): (r: seq<string>)
    ensures |r| == |xs| && forall i | 0 <= i < |xs| :: r[i] == LongToString(xs[i])
  {
    seq(|xs|, i requires 0 <= i < |xs| => LongToString(xs[i]))
  }

  /** The text the writer gives a value: a string as it is, `bool.ToString()` (`True` or
      `False`), `long.ToString()`, and for `preview` the numbers joined by single spaces. */
  function Render(v: Value): string {
    match v
    case TextValue(s) => s
    case BoolValue(b) => if b then "True" else "False"
    case LongValue(n) => LongToString(n)
    case LongArrayValue(xs) => Join(' ', LongStrings(xs))
  }

  /** What one line of the writer writes: nothing when the property is `null`. */
  function LineFor(m: Record, e: Emission): seq<IniLine> {
    if e.field in m then [PairLine(e.key, Render(m[e.field]))] else []
  }

  /** What the lines of `table` write, one after the other. */
  function Lines(m: Record, table: seq<Emission>): seq<IniLine> {
    if table == [] then [] else Lines(m, table[..|table| - 1]) + LineFor(m, table[|table| - 1])
  }

  /** The whole file the writer produces for a record. */
  function Serialize(m: Record): seq<IniLine> {
    [SectionLine("song")] + Lines(m, EmitOrder)
  }

  /** `WriteToFile`. `writable` says whether `IniWriter` can open and write the file; when it
      cannot, the exception handler returns `false`. `lines` is what reaches the file. */
  method WriteToFile(songIni: SongIni?, path: string, writable: bool) returns (ok: bool, lines: seq<IniLine>)
    ensures ok <==> songIni != null && !IsBlank(path) && writable
    ensures ok ==> lines == Serialize(songIni.fields)
    ensures !ok ==> lines == []
  {
    if songIni == null {
      return false, [];
    }
    if IsBlank(path) || !writable {
      return false, [];
    }
    var pairs := WriteLines(songIni.fields, EmitOrder);
    lines := [SectionLine("song")] + pairs;
    ok := true;
  }

  /** The writer's `if` lines over `table`, one after the other. */
  method WriteLines(m: Record, table: seq<Emission>) returns (lines: seq<IniLine>)
    ensures lines == Lines(m, table)
  {
    lines := [];
    for i := 0 to |table|
      invariant lines == Lines(m, table[..i])
    {
      var e := table[i];
      assert table[..i + 1][..i] == table[..i];
      if e.field in m {
        lines := lines + [PairLine(e.key, Render(m[e.field]))];
      }
    }
    assert table[..|table|] == table;
  }
}
