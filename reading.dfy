/**
 * `SongIniWrapper.ReadFromFile` and its helpers `ReadBool` and `ReadLong`: one forward pass over
 * the rows of a `song.ini`, filling each canonical slot from the first row that offers it a value.
 */
module SongIniReading {
  import opened Wrappers
  import opened Text
  import opened Numbers
  import Enums
  import opened Ini
  import opened SongIniRecord

  /** `ReadBool`: `true` or `1` is true, `false` or `0` is false, in any letter case; anything
      else, and a blank or `null` string, is `null`. */
  function ReadBool(value: Option<string>): Option<bool> {
    if IsNullOrWhiteSpace(value) then None
    else match ToLowerInvariant(value.value)
      case "true" => Some(true)
      case "1" => Some(true)
      case "false" => Some(false)
      case "0" => Some(false)
      case _ => None
  }

  /** `ReadLong`: the whole string as a signed 64-bit decimal, or `null`. */
  function ReadLong(value: Option<string>): Option<Long> {
    if IsNullOrWhiteSpace(value) then None else TryParseLong(value.value)
  }

  /** The `preview` conversion: split on single spaces, one entry per piece, `-1` for a piece
      that is not a number. */
  function ReadPreview(value: string): seq<Long> {
    var tokens := Split(value, ' ');
    seq(|tokens|, i requires 0 <= i < |tokens| => ReadLong(Some(tokens[i])).GetOr(-1))
  }

  /** What the key switch does with a lower-cased key: nothing, or fill one slot. */
  datatype KeyCase = Unknown | Fills(field: FieldId)

  /** The key switch of the reading loop: the slot each lower-cased key fills. Several keys
      (`charter`/`frets`, `album_track`/`track`, `pro_drums`/`pro_drum`,
      `multiplier_note`/`star_power_note`) share one slot. The 98 cases are grouped by the
      length of the key, which decides nothing (no two cases share a key) but spares the
      verifier most string comparisons; within a group they keep the order of the switch. */
  function FieldForKey(key: string): KeyCase {
    match |key|
    case 4 => KeysOfLength4(key)
    case 5 => KeysOfLength5(key)
    case 6 => KeysOfLength6(key)
    case 7 => KeysOfLength7(key)
    case 8 => KeysOfLength8(key)
    case 9 => KeysOfLength9(key)
    case 10 => KeysOfLength10(key)
    case 11 => KeysOfLength11(key)
    case 12 => KeysOfLength12(key)
    case 13 => KeysOfLength13(key)
    case 14 => KeysOfLength14(key)
    case 15 => KeysOfLength15(key)
    case 16 => KeysOfLength16(key)
    case 17 => KeysOfLength17(key)
    case 18 => KeysOfLength18(key)
    case 19 => KeysOfLength19(key)
    case 20 => KeysOfLength20(key)
    case 21 => KeysOfLength21(key)
    case 24 => KeysOfLength24(key)
    case 25 => KeysOfLength25(key)
    case 26 => KeysOfLength26(key)
    case 35 => KeysOfLength35(key)
    case 36 => KeysOfLength36(key)
    case _ => Unknown
  }

  function KeysOfLength4(key: string): KeyCase {
    match key
    case "name" => Fills(Name)
    case "year" => Fills(Year)
    case "tags" => Fills(Tags)
    case "icon" => Fills(Icon)
    case _ => Unknown
  }

  function KeysOfLength5(key: string): KeyCase {
    match key
    case "album" => Fills(Album)
    case "genre" => Fills(Genre)
    case "frets" => Fills(Charter)
    case "track" => Fills(AlbumTrack)
    case "delay" => Fills(Delay)
    case "video" => Fills(Video)
    case "cover" => Fills(Cover)
    case "count" => Fills(Count)
    case _ => Unknown
  }

  function KeysOfLength6(key: string): KeyCase {
    match key
    case "artist" => Fills(Artist)
    case "lyrics" => Fills(Lyrics)
    case "scores" => Fills(Scores)
    case "rating" => Fills(Rating)
    case _ => Unknown
  }

  function KeysOfLength7(key: string): KeyCase {
    match key
    case "charter" => Fills(Charter)
    case "version" => Fills(Version)
    case "preview" => Fills(Preview)
    case _ => Unknown
  }

  function KeysOfLength8(key: string): KeyCase {
    match key
    case "playlist" => Fills(Playlist)
    case "modchart" => Fills(Modchart)
    case "pro_drum" => Fills(ProDrums)
    case "tutorial" => Fills(Tutorial)
    case "hopofreq" => Fills(HopoFreq)
    case "kit_type" => Fills(KitType)
    case _ => Unknown
  }

  function KeysOfLength9(key: string): KeyCase {
    match key
    case "sub_genre" => Fills(SubGenre)
    case "diff_band" => Fills(DiffBand)
    case "diff_bass" => Fills(DiffBass)
    case "diff_keys" => Fills(DiffKeys)
    case "pro_drums" => Fills(ProDrums)
    case "bass_type" => Fills(BassType)
    case "keys_type" => Fills(KeysType)
    case "unlock_id" => Fills(UnlockId)
    case _ => Unknown
  }

  function KeysOfLength10(key: string): KeyCase {
    match key
    case "diff_drums" => Fills(DiffDrums)
    case "diff_dance" => Fills(DiffDance)
    case "end_events" => Fills(EndEvents)
    case "dance_type" => Fills(DanceType)
    case "background" => Fills(Background)
    case "video_loop" => Fills(VideoLoop)
    case "scores_ext" => Fills(ScoresExt)
    case _ => Unknown
  }

  function KeysOfLength11(key: string): KeyCase {
    match key
    case "album_track" => Fills(AlbumTrack)
    case "song_length" => Fills(SongLength)
    case "diff_guitar" => Fills(DiffGuitar)
    case "diff_rhythm" => Fills(DiffRhythm)
    case "diff_vocals" => Fills(DiffVocals)
    case "boss_battle" => Fills(BossBattle)
    case "guitar_type" => Fills(GuitarType)
    case "link_name_a" => Fills(LinkNameA)
    case "link_name_b" => Fills(LinkNameB)
    case "unlock_text" => Fills(UnlockText)
    case _ => Unknown
  }

  function KeysOfLength12(key: string): KeyCase {
    match key
    case "sub_playlist" => Fills(SubPlaylist)
    case "diff_bassghl" => Fills(DiffBassGHL)
    case "vocal_gender" => Fills(VocalGender)
    case "sysex_slider" => Fills(SysExSlider)
    case _ => Unknown
  }

  function KeysOfLength13(key: string): KeyCase {
    match key
    case "cassettecolor" => Fills(CassetteColor)
    case "sysex_rimshot" => Fills(SysExRimshot)
    case "banner_link_a" => Fills(BannerLinkA)
    case "banner_link_b" => Fills(BannerLinkB)
    case _ => Unknown
  }

  function KeysOfLength14(key: string): KeyCase {
    match key
    case "playlist_track" => Fills(PlaylistTrack)
    case "loading_phrase" => Fills(LoadingPhrase)
    case "diff_guitarghl" => Fills(DiffGuitarGHL)
    case "diff_bass_real" => Fills(DiffBassReal)
    case "diff_keys_real" => Fills(DiffKeysReal)
    case "hopo_frequency" => Fills(HopoFrequency)
    case "video_end_time" => Fills(VideoEndTime)
    case "unlock_require" => Fills(UnlockRequire)
    case _ => Unknown
  }

  function KeysOfLength15(key: string): KeyCase {
    match key
    case "diff_rhythm_ghl" => Fills(DiffRhythmGHL)
    case "diff_drums_real" => Fills(DiffDrumsReal)
    case "five_lane_drums" => Fills(FiveLaneDrums)
    case "eighthnote_hopo" => Fills(EighthNoteHopo)
    case "multiplier_note" => Fills(MultiplierNote)
    case "star_power_note" => Fills(MultiplierNote)
    case "sysex_open_bass" => Fills(SysExOpenBass)
    case "sysex_pro_slide" => Fills(SysExProSlide)
    case _ => Unknown
  }

  function KeysOfLength16(key: string): KeyCase {
    match key
    case "preview_end_time" => Fills(PreviewEndTime)
    case "diff_guitar_coop" => Fills(DiffGuitarCoop)
    case "diff_guitar_real" => Fills(DiffGuitarReal)
    case "diff_vocals_harm" => Fills(DiffVocalsHarm)
    case "real_bass_tuning" => Fills(RealBassTuning)
    case "video_start_time" => Fills(VideoStartTime)
    case "unlock_completed" => Fills(UnlockCompleted)
    case _ => Unknown
  }

  function KeysOfLength17(key: string): KeyCase {
    match key
    case "diff_bass_real_22" => Fills(DiffBassReal22)
    case "diff_keys_real_ps" => Fills(DiffKeysRealPS)
    case _ => Unknown
  }

  function KeysOfLength18(key: string): KeyCase {
    match key
    case "preview_start_time" => Fills(PreviewStartTime)
    case "diff_drums_real_ps" => Fills(DiffDrumsRealPS)
    case "real_guitar_tuning" => Fills(RealGuitarTuning)
    case "drum_fallback_blue" => Fills(DrumFallbackBlue)
    case _ => Unknown
  }

  function KeysOfLength19(key: string): KeyCase {
    match key
    case "diff_guitar_real_22" => Fills(DiffGuitarReal22)
    case "real_bass_22_tuning" => Fills(RealBass22Tuning)
    case "sysex_high_hat_ctrl" => Fills(SysExHighHatCtrl)
    case _ => Unknown
  }

  function KeysOfLength20(key: string): KeyCase {
    match key
    case "diff_guitar_coop_ghl" => Fills(DiffGuitarCoopGHL)
    case _ => Unknown
  }

  function KeysOfLength21(key: string): KeyCase {
    match key
    case "real_guitar_22_tuning" => Fills(RealGuitar22Tuning)
    case "early_hit_window_size" => Fills(EarlyHitWindowSize)
    case _ => Unknown
  }

  function KeysOfLength24(key: string): KeyCase {
    match key
    case "sustain_cutoff_threshold" => Fills(SustainCutoffThreshold)
    case _ => Unknown
  }

  function KeysOfLength25(key: string): KeyCase {
    match key
    case "real_keys_lane_count_left" => Fills(RealKeysLaneCountLeft)
    case _ => Unknown
  }

  function KeysOfLength26(key: string): KeyCase {
    match key
    case "real_keys_lane_count_right" => Fills(RealKeysLaneCountRight)
    case _ => Unknown
  }

  function KeysOfLength35(key: string): KeyCase {
    match key
    case "eof_midi_import_drum_ghost_velocity" => Fills(EoFMidiImportDrumGhostVelocity)
    case _ => Unknown
  }

  function KeysOfLength36(key: string): KeyCase {
    match key
    case "eof_midi_import_drum_accent_velocity" => Fills(EoFMidiImportDrumAccentVelocity)
    case _ => Unknown
  }

  /** The right-hand side of a `??=`: the value a row's text gives field `f`, converted as the
      field's type demands, or `None` when the conversion fails. */
  function Coerce(f: FieldId, value: string): (r: Option<Value>)
    ensures r.Some? ==> HasKind(r.value, KindOf(f))
    ensures KindOf(f) == TextKind ==> r == Some(TextValue(value))
    ensures KindOf(f) == LongArrayKind ==> r.Some?
  {
    match KindOf(f)
    case TextKind => Some(TextValue(value))
    case BoolKind => (match ReadBool(Some(value)) case Some(b) => Some(BoolValue(b)) case None => None)
    case LongKind => (match ReadLong(Some(value)) case Some(n) => Some(LongValue(n)) case None => None)
    case LongArrayKind => Some(LongArrayValue(ReadPreview(value)))
  }

  /** `reader.KeyValuePair?.Key?.ToLowerInvariant()`. */
  function RowKey(row: IniRow): Option<string> {
    if row.key.Some? then Some(ToLowerInvariant(row.key.value)) else None
  }

  /** One key/value row handed to the key switch: a known key fills its slot unless the slot is
      already filled or the conversion fails. */
  function Offer(m: Record, key: string, value: string): Record {
    match FieldForKey(key)
    case Unknown => m
    case Fills(f) =>
      if f in m then m
      else match Coerce(f, value)
        case None => m
        case Some(v) => m[f := v]
  }

  /** One pass of the reading loop; `None` is the `return null` of a foreign section. */
  function Step(m: Record, row: IniRow): Option<Record> {
    match row.rowType
    case None | Comment | Invalid => Some(m)
    case SectionHeader =>
      if row.section.Some? && ToLowerInvariant(row.section.value) == "song" then Some(m) else None
    case KeyValue =>
      var key := RowKey(row);
      if IsNullOrWhiteSpace(key) || IsNullOrWhiteSpace(row.value) then Some(m)
      else Some(Offer(m, key.value, row.value.value))
  }

  /** The whole reading loop over `rows`, from an empty record. */
  function Parse(rows: seq<IniRow>): Option<Record> {
    if rows == [] then Some(map[])
    else match Parse(rows[..|rows| - 1])
      case None => None
      case Some(m) => Step(m, rows[|rows| - 1])
  }

  /** What `ReadFromFile` returns. `file` is what the reader delivers: `None` when the file does
      not exist or reading it raised an exception. */
  function ReadResult(path: string, file: Option<seq<IniRow>>): Option<Record> {
    if IsBlank(path) || file.None? then None else Parse(file.value)
  }

  /** `ReadFromFile`. */
  method ReadFromFile(path: string, file: Option<seq<IniRow>>) returns (songIni: SongIni?)
    ensures songIni == null <==> ReadResult(path, file).None?
    ensures songIni != null ==> fresh(songIni) && songIni.fields == ReadResult(path, file).value
  {
    if IsBlank(path) || file.None? {
      return null;
    }
    var rows := file.value;
    songIni := new SongIni();
    var i := 0;
    while i < |rows|
      invariant 0 <= i <= |rows|
      invariant fresh(songIni)
      invariant Parse(rows[..i]) == Some(songIni.fields)
    {
      var row := rows[i];
      assert rows[..i + 1][..i] == rows[..i];
      match row.rowType {
        case None | Comment | Invalid =>
        case SectionHeader =>
          var sectionName := if row.section.Some? then Some(ToLowerInvariant(row.section.value)) else None;
          if sectionName != Some("song") {
            AbortIsFinal(rows, i + 1);
            return null;
          }
        case KeyValue =>
          var key := RowKey(row);
          var value := row.value;
          if !IsNullOrWhiteSpace(key) && !IsNullOrWhiteSpace(value) {
            ReadPair(songIni, key.value, value.value);
          }
      }
      i := i + 1;
    }
    assert rows[..|rows|] == rows;
  }

  /** The body of the key switch for one row whose key and value are not blank. */
  method ReadPair(songIni: SongIni, key: string, value: string)
    modifies songIni
    ensures songIni.fields == Offer(old(songIni.fields), key, value)
  {
    var field := FieldForKey(key);
    if field.Fills? {
      songIni.AssignIfNull(field.field, Coerce(field.field, value));
    }
  }

  /** Once a row has aborted the read, no later row brings it back. */
  lemma {:induction false} AbortIsFinal(rows: seq<IniRow>, k: nat)
    requires k <= |rows| && Parse(rows[..k]).None?
    ensures Parse(rows).None?
  {
    if k < |rows| {
      assert rows[..|rows| - 1][..k] == rows[..k];
      AbortIsFinal(rows[..|rows| - 1], k);
    } else {
      assert rows[..k] == rows;
    }
  }
}
