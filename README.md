# ChartSanitizer, modelled in Dafny

ChartSanitizer reads the `song.ini` metadata file of a rhythm-game chart and drops sentinel and
out-of-domain values. It can also fill in the playlist fields, and it writes the file back in
one canonical form. This project models the core of that pipeline and proves its rules:

- **Reading** (`SongIniWrapper.ReadFromFile`, `ReadBool`, `ReadLong`). One forward pass is made
  over the rows the INI reader classifies. A foreign section aborts the whole read. Each key is
  lower-cased and sent through the key switch. Some fields are reachable under two keys. For
  every field, the first row whose value converts fills it.
- **Normalizing** (`SongIniWrapper.Normalize`). This is straight-line code on a mutable
  `SongIni`:
  - 38 clearing lines;
  - the album-derived playlist track and playlist;
  - the explicit playlist and sub-playlist overrides of a `Setter`.

  It is proved equal to a field-by-field description, `Normalized`. The properties are then
  proved about that description: each clearing rule in both directions, the fields it leaves
  alone, override precedence, well-typedness and idempotence.
- **Writing** (`SongIniWrapper.WriteToFile`). The writer emits the `[song]` header, then one line
  per present field, in the fixed order of the writer's 96 `if` lines. Four fields go out under
  both of their keys. `DiffRhythm` and `DiffBassGHL` are never written. The round trip is proved:
  reading back what the writer wrote gives the record minus those two fields, provided every
  text value is already trimmed and non-blank.
- **The command line** (`Program.Main`'s argument loop and `Program.Sanitize`). Flags are taken
  only as a leading run, and a repeated flag overwrites the earlier one. Every later argument is
  a path, sanitized in order with one and the same `Setter`. `Sanitize` reads, gives up when
  there is no record, and otherwise normalizes and writes. The file `Sanitize` writes is a fixed
  point of the next run: that run changes nothing on disk, whatever the file first held, once
  the values the INI reader hands over are trimmed (always so for a file the sanitizer wrote).

I/O is reduced to values:
- The reader's rows for a path are a parameter. `None` stands for a missing file or a read that
  threw.
- Whether a file can be written is a flag.
- The program's file system is a `map` from path to rows, handed in and handed back.

`SongIni` is a class whose one field holds a `map` from field identifiers to values. Its methods
make the C# `??=` and `= null` assignments. `ReadFromFile`, `Normalize`, `WriteToFile` and the
argument loop are methods over that object and those values. Each is proved against a
specification function, and the properties are proved about those functions.

Modules: `Wrappers`, `Text` (the .NET string operations used), `Numbers` (`long.TryParse` and
`long.ToString()`), `Enums` and `Ini` (the reader's rows and the writer's lines), `SongIniRecord`,
`Setters`, `SongIniReading` and `ReadingProperties`, `SongIniNormalize` and
`NormalizeProperties`, `SongIniWriting`, `WritingProperties`, `WrittenKeys` and `RoundTrip`,
`ChartSanitizerProgram` and `ProgramProperties`.

## Model

Two behaviours of the reader shape the model:
- The `preview` value is split on single spaces (`Split(' ')`), not on any white space. Two
  spaces in a row give an empty piece, which becomes `-1`.
- A file without any section header still yields a record: key/value rows before or without a
  `[song]` header are read.

| member | source | states |
|---|---|---|
| SongIniRecord.SongIni.constructor | SongIniWrapper.cs:23 | a new `SongIni` has every property `null` |
| SongIniRecord.SongIni.AssignIfNull | SongIniWrapper.cs:68-200 | `F ??= v` fills a slot only when it is empty and `v` is not `null`, and changes no other slot |
| SongIniRecord.SongIni.Assign | SongIniWrapper.cs:231-308 | `F = v` sets the slot to `v`, or empties it when `v` is `null`, and changes no other slot |
| Numbers.ParseSigned | SongIniWrapper.cs:515 | a number is read only from text that ends in a digit, and only within the `long` range |
| Numbers.ParsedIsNotBlank | SongIniWrapper.cs:515 | `long.TryParse` accepts no empty or blank string |
| Numbers.TryParseIgnoresPadding | SongIniWrapper.cs:515 | white space (U+0009 to U+000D, U+0020) before and after a number, and NUL characters at the very end, do not change what `long.TryParse` reads |
| Numbers.ParseOfLongToString | SongIniWrapper.cs:346-468 | parsing what `long.ToString()` writes gives the same number back |
| Numbers.LongToStringPlain | SongIniWrapper.cs:346-468 | `long.ToString()` writes a non-empty string without white space or `=` |
| Text.Split | Program.cs:30 | `Split('=')` gives at least one piece; it gives exactly one when the separator is absent; no piece holds the separator |
| Text.SplitJoin | SongIniWrapper.cs:91 | splitting a space-joined list gives the pieces back when no piece holds a space |
| Text.TrimBlank | SongIniWrapper.cs:61 | trimming keeps blank strings blank and non-blank ones non-blank, and is idempotent |
| SongIniReading.Coerce | SongIniWrapper.cs:68-200 | a converted value has its field's declared type; text is taken verbatim; `preview` always converts |
| SongIniReading.ReadFromFile | SongIniWrapper.cs:14-216 | returns `null` exactly when the path is blank, the file is missing or a foreign section aborts; otherwise returns a fresh object holding the record of the whole row loop |
| SongIniReading.ReadPair | SongIniWrapper.cs:64-203 | the key switch for one row: the named slot is filled only when empty and only when the value converts |
| SongIniReading.AbortIsFinal | SongIniWrapper.cs:52-53 | once a foreign section has aborted the read, no later row brings a record back |
| ReadingProperties.ReadBoolIgnoresCase | SongIniWrapper.cs:494 | `ReadBool` gives the same answer for a string and for its lower-casing |
| ReadingProperties.ReadBoolSpellings | SongIniWrapper.cs:488-502 | `True`/`1` read as true and `False`/`0` as false; `yes`, a blank string and `null` read as `null` |
| ReadingProperties.ReadLongOfToString | SongIniWrapper.cs:509-519 | `ReadLong` reads back every number `long.ToString()` writes |
| ReadingProperties.ReadLongSkipsPadding | SongIniWrapper.cs:509-519 | `ReadLong` reads a number written by `long.ToString()` with white space on either side as that number |
| ReadingProperties.ReadLongExamples | SongIniWrapper.cs:509-519 | `-12` reads as -12; `1.5` reads as `null` |
| ReadingProperties.ParseWellTyped | SongIniWrapper.cs:68-200 | every record the reader builds holds values of each field's declared type |
| ReadingProperties.SectionGuard | SongIniWrapper.cs:44-55 | the read yields no record exactly when some header, lower-cased, is not `song`, wherever it stands |
| ReadingProperties.SlotHoldsFirstOffer | SongIniWrapper.cs:64-203 | every slot holds the value of the first row that offered it a convertible value under any alias; a slot no row filled stays empty |
| ReadingProperties.LaterRowsKeepFilledSlots | SongIniWrapper.cs:68-200 | once a slot is filled, later rows never change it |
| ReadingProperties.SkippedRowChangesNothing | SongIniWrapper.cs:39-62 | blank, comment and invalid rows, `[song]` in any case, rows with a blank key or value, and unknown keys leave the record as it was |
| ReadingProperties.KeyCaseIgnored | SongIniWrapper.cs:59-60 | a row is read the same whatever the letter case of its key |
| ReadingProperties.AliasConvergenceExample | SongIniWrapper.cs:77-78 | `track=5` then `album_track=7` gives album track 5 |
| ReadingProperties.FailedConversionExample | SongIniWrapper.cs:77-78 | `track=abc` then `album_track=7` gives album track 7: a failed conversion leaves the slot open |
| ReadingProperties.ForeignSectionExample | SongIniWrapper.cs:45-53 | `[song]`, `name=Test`, `[other]` yields no record at all |
| ReadingProperties.HeaderlessPairExample | SongIniWrapper.cs:44-68 | a pair before any header is read, `[Song]` is accepted, and the key's case is ignored while the value's is kept |
| SongIniNormalize.RuleOf | SongIniWrapper.cs:231-308 | exactly the fields that come first in the clearing order have a clearing rule |
| SongIniNormalize.LookupNormalized | SongIniWrapper.cs:223-311 | each slot of the normalized record is the field-by-field rule for that slot |
| SongIniNormalize.ClearLine | SongIniWrapper.cs:231-308 | one `if (reject) F = null;` line takes normalization one line further |
| SongIniNormalize.NormalizeSongMetadata | SongIniWrapper.cs:229-241 | the track and time lines, then the album playlist track, reach the state the rules describe |
| SongIniNormalize.NormalizeGameMetadata | SongIniWrapper.cs:243-255 | tags, preview, then the derived and explicit playlist overrides, in that order |
| SongIniNormalize.NormalizeGuitarDifficulties | SongIniWrapper.cs:259-265 | the band and guitar difficulty lines |
| SongIniNormalize.NormalizeBassDifficulties | SongIniWrapper.cs:266-271 | the rhythm and bass difficulty lines |
| SongIniNormalize.NormalizeDrumDifficulties | SongIniWrapper.cs:272-274 | the drums difficulty lines |
| SongIniNormalize.NormalizeKeysVocalsDanceDifficulties | SongIniWrapper.cs:275-280 | the keys, vocals and dance difficulty lines |
| SongIniNormalize.NormalizeChartProperties | SongIniWrapper.cs:283-293 | the vocal gender, delay, star-power note and hit-window lines |
| SongIniNormalize.NormalizeResourcesAndMiscellaneous | SongIniWrapper.cs:297-310 | the video time, count and rating lines |
| SongIniNormalize.Normalize | SongIniWrapper.cs:223-311 | does nothing for `null`; otherwise leaves exactly the normalized record in the object |
| NormalizeProperties.RulesMatchClearingLines | SongIniWrapper.cs:231-308 | the rule table covers exactly the 38 fields that have a clearing line |
| NormalizeProperties.NegativeNumbersCleared | SongIniWrapper.cs:231-301 | Version, SongLength, both preview times, every difficulty and VideoEndTime are cleared exactly when negative, and otherwise kept |
| NormalizeProperties.ZeroNumbersCleared | SongIniWrapper.cs:285-308 | Delay, VideoStartTime, Count and Rating are cleared exactly when zero |
| NormalizeProperties.TrackNumbersCleared | SongIniWrapper.cs:232-233 | AlbumTrack, and PlaylistTrack unless it comes from the album, are cleared exactly when negative or 16000 |
| NormalizeProperties.WordsKept | SongIniWrapper.cs:245-290 | Tags survives only as `cover`, VocalGender only as `male`/`female`, and EarlyHitWindowSize only as `none`/`half`/`full`, all case-sensitive |
| NormalizeProperties.MultiplierNoteKept | SongIniWrapper.cs:286 | the star-power note survives only as 103 or 116 |
| NormalizeProperties.PreviewKept | SongIniWrapper.cs:246 | the preview survives only as two non-negative numbers |
| NormalizeProperties.SurvivorsUnchanged | SongIniWrapper.cs:231-308 | a slot that survives its clearing line keeps its value |
| NormalizeProperties.FieldsWithoutClearingLineUntouched | SongIniWrapper.cs:223-311 | every field without a clearing line, other than the two playlist fields, is left as read |
| NormalizeProperties.UnlockFieldsUntouched | SongIniWrapper.cs:248-253 | UnlockId, UnlockRequire and UnlockText are left as read, whatever the setter's unlock strings |
| NormalizeProperties.PlaylistTrackFromAlbum | SongIniWrapper.cs:232-239 | with the album flag, the playlist track is the album track after the album track's own clearing |
| NormalizeProperties.PlaylistPrecedence | SongIniWrapper.cs:248-251 | a non-blank explicit playlist wins; otherwise the album flag gives `Artist - Album (Year)`; otherwise the playlist read stays |
| NormalizeProperties.SubPlaylistPrecedence | SongIniWrapper.cs:252-253 | a non-blank explicit sub-playlist wins; otherwise the one read stays |
| NormalizeProperties.AlbumPlaylistOfEmptyRecord | SongIniWrapper.cs:249 | an absent artist, album or year shows as empty text in the derived playlist |
| NormalizeProperties.NormalizedPassesEveryLine | SongIniWrapper.cs:231-308 | every slot of a normalized record passes its field's clearing line |
| NormalizeProperties.NormalizedWellTyped | SongIniWrapper.cs:223-311 | normalization keeps every slot at its declared type |
| NormalizeProperties.NormalizeIdempotent | SongIniWrapper.cs:223-311 | normalizing twice with the same setter is normalizing once |
| NormalizeProperties.NormalizedSlotInputs | SongIniWrapper.cs:223-311 | each slot of the normalized record depends only on its inputs: none for an explicit override, the album track for the derived playlist track, artist, album and year for the derived playlist, and otherwise the slot itself |
| NormalizeProperties.SlotFromInputs | SongIniWrapper.cs:223-311 | a record that agrees with a normalized record on the inputs of a slot normalizes to the same value in that slot |
| NormalizeProperties.NoOverridesOnlyClears | SongIniWrapper.cs:223-311 | with a default setter, the result is part of the record read |
| NormalizeProperties.SentinelsClearedExample | SongIniWrapper.cs:232-285 | `name=Test`, album track 16000, vocal gender `other` and delay 0 normalize to the name alone |
| SongIniWriting.LongStrings | SongIniWrapper.cs:361 | one `long.ToString()` per preview entry, in order |
| SongIniWriting.WriteToFile | SongIniWrapper.cs:319-481 | succeeds exactly when there is a record, the path is not blank and the file can be written; then writes the `[song]` header and the record's lines, and nothing otherwise |
| SongIniWriting.WriteLines | SongIniWrapper.cs:338-468 | the writer's `if` lines, in order, write the lines of the table |
| WritingProperties.PairWritten | SongIniWrapper.cs:338-468 | a `key=value` line is written exactly when a writer line has that key and its field is present with that text |
| WritingProperties.LinesArePairs | SongIniWrapper.cs:338-468 | at most one line per writer line, each a key/value pair |
| WritingProperties.FullRecordLines | SongIniWrapper.cs:338-468 | with every field present, one line per writer line in writer order |
| WritingProperties.HeaderOnlyFirst | SongIniWrapper.cs:334 | the `[song]` header comes first and no other header follows |
| WritingProperties.NothingToWrite | SongIniWrapper.cs:338-468 | an empty record writes no key/value line |
| WritingProperties.LinesDependOnTableFields | SongIniWrapper.cs:338-468 | what is written depends only on the fields the writer names |
| WritingProperties.NoLineForRhythmOrBassGHL | SongIniWrapper.cs:371-390 | no writer line names DiffRhythm or DiffBassGHL |
| WritingProperties.RhythmAndBassGHLNeverWritten | SongIniWrapper.cs:371-390 | the file written is the same whatever DiffRhythm and DiffBassGHL hold |
| WritingProperties.AliasesWrittenTwice | SongIniWrapper.cs:344-411 | Charter, AlbumTrack, ProDrums and MultiplierNote are written under both keys with the same text |
| WritingProperties.EveryOtherFieldWritten | SongIniWrapper.cs:338-468 | every field other than DiffRhythm and DiffBassGHL has a writer line |
| WrittenKeys.EmitOrderReads | SongIniWrapper.cs:64-203 | every key the writer uses is lower case, trimmed, and sent by the reader's switch to the very field it was written from |
| RoundTrip.PreviewReadsBack | SongIniWrapper.cs:91 | the space-joined preview reads back as the same numbers |
| RoundTrip.ValueReadsBack | SongIniWrapper.cs:68-200 | the text written for a value is trimmed and non-blank, and converts back to the same value |
| RoundTrip.TableReadsBack | SongIniWrapper.cs:338-468 | reading the lines of a table, the first offer to a field is its value when the table names it and it is present, else nothing |
| RoundTrip.WrittenFileHasOnlySong | SongIniWrapper.cs:334 | reading a written file never aborts |
| RoundTrip.FirstOfferOfWrittenFile | SongIniWrapper.cs:319-468 | in a written file, the first row offering a slot offers the value the slot had (nothing for DiffRhythm and DiffBassGHL), when that one value is trimmed and non-blank |
| RoundTrip.WriteThenRead | SongIniWrapper.cs:319-468 | reading back what the writer wrote gives the record without DiffRhythm and DiffBassGHL, when every text value is trimmed and non-blank |
| RoundTrip.WrittenRowsTrimmed | SongIniWrapper.cs:319-468 | every value read from a written file carries no white space at either end |
| RoundTrip.ReadRecordWritable | SongIniWrapper.cs:39-68 | a file whose values are trimmed reads as a record whose every value is trimmed and non-blank, with a non-empty preview |
| ChartSanitizerProgram.OptionHasEquals | Program.cs:28-57 | an argument starting with an option prefix splits into at least two pieces at `=`, so `Split('=')[1]` exists |
| ChartSanitizerProgram.OptionValueUpToNextEquals | Program.cs:30 | an option's value is the text after its prefix up to the next `=` |
| ChartSanitizerProgram.OptionCount | Program.cs:18-64 | the options run is the longest prefix of flags: all before it are flags, and the argument after it is none |
| ChartSanitizerProgram.SanitizeAll | Program.cs:66-71 | one report per path, in argument order, every one with the same setter, whatever earlier paths returned |
| ChartSanitizerProgram.Sanitize | Program.cs:106-118 | the result and file system of read, then normalize, then write |
| ChartSanitizerProgram.TakeFlag | Program.cs:23-57 | while options last, a flag is taken exactly when it is one, and it updates the setter as that flag does |
| ChartSanitizerProgram.SanitizeNext | Program.cs:66-71 | one more path is sanitized and reported |
| ChartSanitizerProgram.SetterAfterStep | Program.cs:19-57 | each flag updates the setter built by the flags before it |
| ChartSanitizerProgram.RunStep | Program.cs:21-71 | one turn of the loop: while the options last a flag extends the setter; the first other argument ends the options, and it and every later argument are sanitized with that setter |
| ChartSanitizerProgram.ScanArguments | Program.cs:16-72 | the flag prefix builds the setter and every later argument, even a flag-like one, is sanitized with it, in order |
| ChartSanitizerProgram.Run | Program.cs:7-73 | no argument shows help and does nothing else; otherwise the argument loop runs |
| ProgramProperties.PrefixesExclusive | Program.cs:23-57 | no argument carries two option prefixes; `-pfa` carries none |
| ProgramProperties.ApplyFlagOption | Program.cs:28-57 | a flag sets its own option and leaves the others alone |
| ProgramProperties.LastOccurrenceWins | Program.cs:28-57 | the last occurrence of an option gives its value |
| ProgramProperties.OptionNeverGiven | Program.cs:17 | an option no flag names stays `null` |
| ProgramProperties.PlaylistFromAlbumFlag | Program.cs:23-27 | the playlist comes from the album exactly when `-pfa` itself is among the flags |
| ProgramProperties.FlagsEndAtFirstPath | Program.cs:23-64 | `-pfa=yes` is no flag and ends the options, so a later `-pfa` is a path |
| ProgramProperties.FlagValueExample | Program.cs:30 | `-pl=a=b` gives the playlist `a` |
| ProgramProperties.RepeatedFlagExample | Program.cs:28-32 | a second `-pl=` replaces the first |
| ProgramProperties.SanitizeSucceeds | Program.cs:106-118 | `Sanitize` succeeds exactly when the file reads as a record and can be written; on failure nothing changes on disk, on success only that path's file |
| ProgramProperties.SanitizedFileReadsBack | Program.cs:106-118 | the file a successful `Sanitize` leaves reads back as the normalized record without DiffRhythm and DiffBassGHL |
| ProgramProperties.RewrittenSlot | SongIniWrapper.cs:14-481 | slot by slot, the normalized record written, read back and normalized again is the normalized record, but for DiffRhythm and DiffBassGHL, when the record read has trimmed, non-blank values; the overrides may hold anything |
| ProgramProperties.RewriteIsSame | SongIniWrapper.cs:14-481 | the normalized record, written, read back and normalized again with the same setter, writes the same lines, under the same condition |
| ProgramProperties.SanitizeTwiceChangesNothing | Program.cs:106-118 | sanitizing the file a successful `Sanitize` left, with the same setter, succeeds and changes nothing on disk, when the record first read has trimmed values |
| ProgramProperties.SanitizedFileWritable | Program.cs:106-118 | the file a successful `Sanitize` wrote reads as a record with trimmed, non-blank values, so a second `Sanitize` succeeds |
| ProgramProperties.SanitizedFileIsFixed | Program.cs:106-118 | whatever the file first held, after a successful `Sanitize` a second one succeeds and a third leaves the disk as the second did |

## Left out

- Console output: the progress and result lines of the argument loop, `DisplayHelp`'s text, and
  the exception messages. `Run` only says whether help was shown.
- File I/O:
  - `File.Exists`, the reader's and writer's exceptions, and the file contents are parameters.
    Reading gets `Option<seq<IniRow>>`; writing gets a `writable` flag, or the program's
    `FileSystem` value.
  - Paths are compared as exact strings, with no path normalization.
  - `Sanitize` never reads a file halfway, and a failed write leaves the old file in place.
- `IniReader` and `IniWriter` internals are not modelled: how text lines are classified,
  trimmed and escaped.
  - The reader's output is a sequence of classified rows.
  - The writer's output is a sequence of header and key/value lines.
  - `Ini.RowsOf` stands for reading a written file back: each key and value is trimmed. Values
    that hold line breaks or comment characters are outside the model.
- .NET library details:
  - `ToLowerInvariant` lowers only ASCII letters.
  - `char.IsWhiteSpace` uses the fixed list of .NET white-space characters.
  - The culture-specific signs of `long.TryParse` and the internals of `bool.ToString()` are
    left out.
- `long.TryParse`: the model skips U+0009 to U+000D and U+0020 around the number and NUL
  characters at its end, as `NumberStyles.Integer` does; the culture's own sign symbols are
  left out (see above).
- `args == null`: a Dafny sequence cannot be null, so only the empty argument list is modelled.
- The writer's 96 straight-line `if` lines are modelled as a table of (key, field) entries, one
  per line, in source order, region by region. `WriteLines` walks the table with a loop.
- `Normalize`'s straight-line body is split across eight methods, by source region, so that each
  stays small for the verifier. The lines inside run in source order.
- The key switch `FieldForKey` groups its 98 cases by key length. No two cases share a key, so
  the grouping changes nothing in what it returns.
- `TakeFlag` holds the loop's chain of flag tests, in the source's order and with its
  `options &&` guards; the `continue` stays in the loop.
- ChartSanitizerProgram.HasOption: compares prefixes ordinally, character by character. C#'s
  `StartsWith(string)` compares with the current culture, which ignores characters such as the
  soft hyphen U+00AD, so an argument like `-` U+00AD `pl=x` may count as a `-pl=` flag there and
  not here.
- RoundTrip.WriteThenRead: assumes every text value is trimmed and non-blank and the preview is
  non-empty; `FirstOfferOfWrittenFile` needs this only of the slot read back. The writer
  writes other values faithfully, but the reader sees them trimmed.
- ProgramProperties.SanitizeTwiceChangesNothing: assumes the record first read has trimmed text
  values (the reader already gives non-blank values and a non-empty preview); the override
  values may be anything. Without it the second run can differ: with `-pfa`, artist `A`, album
  ` B` (if the INI reader keeps the space) and year `Y`, the first run writes the playlist
  `A -  B (Y)` and the second `A - B (Y)`. `SanitizedFileIsFixed` has no such condition,
  because a file the sanitizer wrote meets it.
- TitlesIni.cs is not part of this model: it holds data and no behaviour.
