/**
 * The `SongIni` record: one optional slot per `song.ini` field. A slot is either absent (the C#
 * property is `null`) or holds a value of the field's own type: a string, a `bool`, a `long`,
 * or (for `Preview` alone) an array of `long`.
 */
module SongIniRecord {
  import opened Wrappers
  import opened Numbers

  /** Number of canonical fields. */
  const FieldCount := 94

  /** The canonical fields, one per property of the C# `SongIni` class. They are numbered so
      that the fields `Normalize` clears come first, in the order it clears them; the others
      follow in the order the reader's `switch` first names them. */
  newtype FieldId = x: int | 0 <= x < FieldCount

  const Version: FieldId := 0
  const AlbumTrack: FieldId := 1
  const PlaylistTrack: FieldId := 2
  const SongLength: FieldId := 3
  const PreviewStartTime: FieldId := 4
  const PreviewEndTime: FieldId := 5
  const Tags: FieldId := 6
  const Preview: FieldId := 7
  const DiffBand: FieldId := 8
  const DiffGuitar: FieldId := 9
  const DiffGuitarGHL: FieldId := 10
  const DiffGuitarCoop: FieldId := 11
  const DiffGuitarCoopGHL: FieldId := 12
  const DiffGuitarReal: FieldId := 13
  const DiffGuitarReal22: FieldId := 14
  const DiffRhythm: FieldId := 15
  const DiffRhythmGHL: FieldId := 16
  const DiffBass: FieldId := 17
  const DiffBassGHL: FieldId := 18
  const DiffBassReal: FieldId := 19
  const DiffBassReal22: FieldId := 20
  const DiffDrums: FieldId := 21
  const DiffDrumsReal: FieldId := 22
  const DiffDrumsRealPS: FieldId := 23
  const DiffKeys: FieldId := 24
  const DiffKeysReal: FieldId := 25
  const DiffKeysRealPS: FieldId := 26
  const DiffVocals: FieldId := 27
  const DiffVocalsHarm: FieldId := 28
  const DiffDance: FieldId := 29
  const VocalGender: FieldId := 30
  const Delay: FieldId := 31
  const MultiplierNote: FieldId := 32
  const EarlyHitWindowSize: FieldId := 33
  const VideoStartTime: FieldId := 34
  const VideoEndTime: FieldId := 35
  const Count: FieldId := 36
  const Rating: FieldId := 37
  const Name: FieldId := 38
  const Artist: FieldId := 39
  const Album: FieldId := 40
  const Genre: FieldId := 41
  const SubGenre: FieldId := 42
  const Year: FieldId := 43
  const Charter: FieldId := 44
  const LoadingPhrase: FieldId := 45
  const CassetteColor: FieldId := 46
  const Playlist: FieldId := 47
  const SubPlaylist: FieldId := 48
  const Modchart: FieldId := 49
  const Lyrics: FieldId := 50
  const ProDrums: FieldId := 51
  const FiveLaneDrums: FieldId := 52
  const RealGuitarTuning: FieldId := 53
  const RealGuitar22Tuning: FieldId := 54
  const RealBassTuning: FieldId := 55
  const RealBass22Tuning: FieldId := 56
  const RealKeysLaneCountRight: FieldId := 57
  const RealKeysLaneCountLeft: FieldId := 58
  const SustainCutoffThreshold: FieldId := 59
  const HopoFrequency: FieldId := 60
  const EighthNoteHopo: FieldId := 61
  const DrumFallbackBlue: FieldId := 62
  const Tutorial: FieldId := 63
  const BossBattle: FieldId := 64
  const HopoFreq: FieldId := 65
  const EndEvents: FieldId := 66
  const SysExSlider: FieldId := 67
  const SysExHighHatCtrl: FieldId := 68
  const SysExRimshot: FieldId := 69
  const SysExOpenBass: FieldId := 70
  const SysExProSlide: FieldId := 71
  const GuitarType: FieldId := 72
  const BassType: FieldId := 73
  const KitType: FieldId := 74
  const KeysType: FieldId := 75
  const DanceType: FieldId := 76
  const Icon: FieldId := 77
  const Background: FieldId := 78
  const Video: FieldId := 79
  const VideoLoop: FieldId := 80
  const Cover: FieldId := 81
  const LinkNameA: FieldId := 82
  const LinkNameB: FieldId := 83
  const BannerLinkA: FieldId := 84
  const BannerLinkB: FieldId := 85
  const Scores: FieldId := 86
  const ScoresExt: FieldId := 87
  const UnlockId: FieldId := 88
  const UnlockRequire: FieldId := 89
  const UnlockText: FieldId := 90
  const UnlockCompleted: FieldId := 91
  const EoFMidiImportDrumAccentVelocity: FieldId := 92
  const EoFMidiImportDrumGhostVelocity: FieldId := 93

  datatype Kind = TextKind | BoolKind | LongKind | LongArrayKind

  /** The `string` properties. */
  predicate IsTextField(f: FieldId) {
    f == Name || f == Artist || f == Album || f == Genre || f == SubGenre || f == Year ||
    f == Charter || f == LoadingPhrase || f == CassetteColor || f == Tags || f == Playlist ||
    f == SubPlaylist || f == VocalGender || f == RealGuitarTuning || f == RealGuitar22Tuning ||
    f == RealBassTuning || f == RealBass22Tuning || f == EarlyHitWindowSize || f == Icon ||
    f == Background || f == Video || f == Cover || f == LinkNameA || f == LinkNameB ||
    f == BannerLinkA || f == BannerLinkB || f == Scores || f == ScoresExt || f == UnlockId ||
    f == UnlockRequire || f == UnlockText
  }

  /** The `bool` properties. */
  predicate IsBoolField(f: FieldId) {
    f == Modchart || f == Lyrics || f == ProDrums || f == FiveLaneDrums || f == EighthNoteHopo ||
    f == DrumFallbackBlue || f == Tutorial || f == BossBattle || f == EndEvents ||
    f == SysExSlider || f == SysExHighHatCtrl || f == SysExRimshot || f == SysExOpenBass ||
    f == SysExProSlide || f == VideoLoop
  }

  /** The declared type of each property: `long` unless listed above, `long[]` for `Preview`. */
  function KindOf(f: FieldId): Kind {
    if IsTextField(f) then TextKind
    else if IsBoolField(f) then BoolKind
    else if f == Preview then LongArrayKind
    else LongKind
  }

  datatype Value =
    | TextValue(text: string)
    | BoolValue(flag: bool)
    | LongValue(number: Long)
    | LongArrayValue(numbers: seq<Long>)

  predicate HasKind(v: Value, k: Kind) {
    match k
    case TextKind => v.TextValue?
    case BoolKind => v.BoolValue?
    case LongKind => v.LongValue?
    case LongArrayKind => v.LongArrayValue?
  }

  /** The present slots of a record; a field missing from the map is `null`. */
  type Record = map<FieldId, Value>

  /** Every present slot holds a value of its field's type. */
  predicate WellTyped(m: Record) {
    forall f | f in m :: HasKind(m[f], KindOf(f))
  }

  /** Reading a slot: `None` when the property is `null`. */
  function Lookup(m: Record, f: FieldId): Option<Value> {
    if f in m then Some(m[f]) else None
  }

  /** Two records that agree on every slot are equal. */
  lemma RecordsAgree(a: Record, b: Record)
    requires forall f :: Lookup(a, f) == Lookup(b, f)
    ensures a == b
  {
    forall f | f in a ensures f in b && a[f] == b[f] {
      assert Lookup(a, f) == Lookup(b, f);
    }
    forall f | f in b ensures f in a {
      assert Lookup(a, f) == Lookup(b, f);
    }
  }

  /** The mutable C# object. Its properties are the slots of `fields`. */
  class SongIni {
    var fields: Record

    /** `new SongIni()`: every property `null`. */
    constructor ()
      ensures fields == map[]
    {
      fields := map[];
    }

    /** `songIni.F ??= v`: fills the slot only when it is empty and `v` is not `null`. */
    method AssignIfNull(f: FieldId, v: Option<Value>)
      modifies this
      ensures fields == if f in old(fields) || v.None? then old(fields) else old(fields)[f := v.value]
    {
      if f !in fields && v.Some? {
        fields := fields[f := v.value];
      }
    }

    /** `songIni.F = v`, where `v` may be `null`. */
    method Assign(f: FieldId, v: Option<Value>)
      modifies this
      ensures fields == if v.None? then old(fields) - {f} else old(fields)[f := v.value]
    {
      if v.Some? {
        fields := fields[f := v.value];
      } else {
        fields := fields - {f};
      }
    }
  }
}
