/**
 * What the command line promises: which flag wins, which arguments are paths, and what one
 * `Sanitize` call leaves on disk.
 */
module ProgramProperties {
  import opened Wrappers
  import opened Text
  import opened Ini
  import opened SongIniRecord
  import opened Setters
  import opened SongIniReading
  import opened SongIniNormalize
  import opened SongIniWriting
  import opened NormalizeProperties
  import opened WritingProperties
  import opened ReadingProperties
  import opened RoundTrip
  import opened ChartSanitizerProgram

  /** No argument carries two option prefixes, and `-pfa` carries none. */
  lemma PrefixesExclusive(arg: string, o: TextOption, o': TextOption)
    ensures HasOption(arg, o) && HasOption(arg, o') ==> o == o'
    ensures !HasOption("-pfa", o)
  {
    if HasOption(arg, o) && HasOption(arg, o') {
      assert arg[1] == PrefixOf(o)[1] == PrefixOf(o')[1];
      assert arg[2] == PrefixOf(o)[2] == PrefixOf(o')[2];
    }
    assert "-pfa"[2] == 'f';
  }

  /** A flag sets its own option and leaves the other options alone. */
  lemma ApplyFlagOption(s: Setter, arg: string, o: TextOption)
    ensures ValueOf(ApplyFlag(s, arg), o) == if HasOption(arg, o) then Some(OptionValue(arg, o)) else ValueOf(s, o)
  {
    PrefixesExclusive(arg, o, PlaylistOption);
    PrefixesExclusive(arg, o, SubPlaylistOption);
    PrefixesExclusive(arg, o, UnlockIdOption);
    PrefixesExclusive(arg, o, UnlockRequireOption);
    PrefixesExclusive(arg, o, UnlockTextOption);
  }

  /** The last occurrence of an option wins. */
  lemma {:induction false} LastOccurrenceWins(flags: seq<string>, o: TextOption, j: nat)
    requires j < |flags| && HasOption(flags[j], o)
    requires forall k | j < k < |flags| :: !HasOption(flags[k], o)
    ensures ValueOf(SetterAfter(flags), o) == Some(OptionValue(flags[j], o))
  {
    var init := flags[..|flags| - 1];
    ApplyFlagOption(SetterAfter(init), flags[|flags| - 1], o);
    if j < |flags| - 1 {
      LastOccurrenceWins(init, o, j);
    }
  }

  /** An option no flag names stays `null`. */
  lemma {:induction false} OptionNeverGiven(flags: seq<string>, o: TextOption)
    requires forall k | 0 <= k < |flags| :: !HasOption(flags[k], o)
    ensures ValueOf(SetterAfter(flags), o) == None
  {
    if flags != [] {
      var init := flags[..|flags| - 1];
      ApplyFlagOption(SetterAfter(init), flags[|flags| - 1], o);
      OptionNeverGiven(init, o);
    }
  }

  /** The playlist comes from the album exactly when one of the flags is `-pfa` itself. */
  lemma {:induction false} PlaylistFromAlbumFlag(flags: seq<string>)
    ensures SetterAfter(flags).playlistFromAlbum <==> "-pfa" in flags
  {
    if flags != [] {
      var init := flags[..|flags| - 1];
      PlaylistFromAlbumFlag(init);
      assert flags == init + [flags[|flags| - 1]];
    }
  }

  /** `-pfa=yes` is no flag, so it ends the options; a later `-pfa` is a path. */
  lemma FlagsEndAtFirstPath()
    ensures OptionCount(["-pl=Rock", "-pfa=yes", "-pfa"]) == 1
  {
    var args := ["-pl=Rock", "-pfa=yes", "-pfa"];
    assert StartsWith(args[0], "-pl=");
    assert args[1] != "-pfa";
    assert !IsFlag(args[1]) by {
      assert args[1][1] == 'p' && args[1][2] == 'f';
    }
  }

  /** `-pl=a=b` gives the playlist `a`: the value stops at the next `=`. */
  lemma FlagValueExample()
    ensures HasOption("-pl=a=b", PlaylistOption) && OptionValue("-pl=a=b", PlaylistOption) == "a"
  {
    OptionValueUpToNextEquals(PlaylistOption, "a=b");
    assert PrefixOf(PlaylistOption) + "a=b" == "-pl=a=b";
    assert IndexOf("a=b", '=') == 1;
  }

  /** `-pl=a -pl=c`: the second occurrence replaces the first. */
  lemma RepeatedFlagExample()
    ensures SetterAfter(["-pl=a", "-pl=c"]).playlist == Some("c")
  {
    var flags := ["-pl=a", "-pl=c"];
    assert HasOption(flags[1], PlaylistOption);
    LastOccurrenceWins(flags, PlaylistOption, 1);
    OptionValueUpToNextEquals(PlaylistOption, "c");
    assert PrefixOf(PlaylistOption) + "c" == flags[1];
  }

  /** `Sanitize` succeeds exactly when the file reads as a record and may be written. */
  lemma SanitizeSucceeds(path: string, s: Setter, fs: FileSystem)
    ensures Sanitized(path, s, fs).0 <==> ReadResult(path, FileAt(fs, path)).Some? && path in fs.writable
    ensures !Sanitized(path, s, fs).0 ==> Sanitized(path, s, fs).1 == fs
    ensures Sanitized(path, s, fs).0 ==>
      Sanitized(path, s, fs).1.writable == fs.writable
      && Sanitized(path, s, fs).1.files.Keys == fs.files.Keys
      && forall p | p in fs.files && p != path :: Sanitized(path, s, fs).1.files[p] == fs.files[p]
  {
    if ReadResult(path, FileAt(fs, path)).Some? {
      assert !IsBlank(path);
    }
  }

  /** Dropping the two fields the writer never emits commutes with normalization. */
  lemma NormalizedWithoutUnwritten(m: Record, s: Setter)
    ensures Normalized(m - {DiffRhythm, DiffBassGHL}, s) == Normalized(m, s) - {DiffRhythm, DiffBassGHL}
  {
    var r := m - {DiffRhythm, DiffBassGHL};
    forall f ensures Lookup(Normalized(r, s), f) == Lookup(Normalized(m, s) - {DiffRhythm, DiffBassGHL}, f) {
      LookupNormalized(r, s, f);
      LookupNormalized(m, s, f);
      assert AlbumPlaylist(r) == AlbumPlaylist(m) by {
        assert Shown(r, Artist) == Shown(m, Artist);
        assert Shown(r, Album) == Shown(m, Album);
        assert Shown(r, Year) == Shown(m, Year);
      }
    }
    RecordsAgree(Normalized(r, s), Normalized(m, s) - {DiffRhythm, DiffBassGHL});
  }

  /** The inputs of every slot of the normalized record survive the trip through the file,
      whatever the overrides hold. */
  lemma InputsSurvive(m: Record, s: Setter, f: FieldId, g: FieldId)
    requires Writable(m) && g in SlotInputs(s, f)
    ensures SlotWritable(Normalized(m, s), g)
  {
    LookupNormalized(m, s, g);
    InputOnlyCleared(m, s, f, g);
    ClearedKeeps(m, g);
  }

  /** The inputs of slot `f` read back from the written file as they were. */
  lemma InputReadsBack(m: Record, s: Setter, f: FieldId, g: FieldId)
    requires Writable(m) && g in SlotInputs(s, f) && f != DiffRhythm && f != DiffBassGHL
    ensures Parse(RowsOf(Serialize(Normalized(m, s)))).Some?
    ensures Lookup(Parse(RowsOf(Serialize(Normalized(m, s)))).value, g) == Lookup(Normalized(m, s), g)
  {
    var n := Normalized(m, s);
    var rows := RowsOf(Serialize(n));
    WrittenFileHasOnlySong(n);
    InputsSurvive(m, s, f, g);
    SlotHoldsFirstOffer(rows, g);
    FirstOfferOfWrittenFile(n, g);
    InputsOfWrittenSlot(s, f, g);
    LookupWithoutUnwritten(n, g);
  }

  /** Slot by slot: the normalized record, written, re-read and normalized again, is the
      normalized record, but for the two slots the writer drops. */
  lemma RewrittenSlot(m: Record, s: Setter, f: FieldId)
    requires Writable(m) && f != DiffRhythm && f != DiffBassGHL
    ensures Parse(RowsOf(Serialize(Normalized(m, s)))).Some?
    ensures Lookup(Normalized(Parse(RowsOf(Serialize(Normalized(m, s)))).value, s), f) == Lookup(Normalized(m, s), f)
  {
    var n := Normalized(m, s);
    WrittenFileHasOnlySong(n);
    var r := Parse(RowsOf(Serialize(n))).value;
    forall g | g in SlotInputs(s, f)
      ensures Lookup(r, g) == Lookup(n, g)
    {
      InputReadsBack(m, s, f, g);
    }
    SlotFromInputs(m, r, s, f);
  }

  /** The normalized record, written, re-read and normalized again, writes the same lines. */
  lemma RewriteIsSame(m: Record, s: Setter)
    requires Writable(m)
    ensures Parse(RowsOf(Serialize(Normalized(m, s)))).Some?
    ensures Serialize(Normalized(Parse(RowsOf(Serialize(Normalized(m, s)))).value, s)) == Serialize(Normalized(m, s))
  {
    var n := Normalized(m, s);
    WrittenFileHasOnlySong(n);
    var n' := Normalized(Parse(RowsOf(Serialize(n))).value, s);
    forall f
      ensures Lookup(n' - {DiffRhythm, DiffBassGHL}, f) == Lookup(n - {DiffRhythm, DiffBassGHL}, f)
    {
      if f != DiffRhythm && f != DiffBassGHL {
        RewrittenSlot(m, s, f);
      }
    }
    RecordsAgree(n' - {DiffRhythm, DiffBassGHL}, n - {DiffRhythm, DiffBassGHL});
    RhythmAndBassGHLNeverWritten(n);
    RhythmAndBassGHLNeverWritten(n');
  }

  /** What a successful `Sanitize` leaves at `path` reads back as the normalized record, without
      the two fields the writer drops, provided its values survive the trip. */
  lemma SanitizedFileReadsBack(path: string, s: Setter, fs: FileSystem)
    requires Sanitized(path, s, fs).0
    requires Writable(Normalized(ReadResult(path, FileAt(fs, path)).value, s))
    ensures ReadResult(path, FileAt(Sanitized(path, s, fs).1, path)) ==
      Some(Normalized(ReadResult(path, FileAt(fs, path)).value, s) - {DiffRhythm, DiffBassGHL})
  {
    SanitizeSucceeds(path, s, fs);
    WriteThenRead(Normalized(ReadResult(path, FileAt(fs, path)).value, s));
  }

  /** Sanitizing a sanitized file again changes nothing on disk, when the record first read
      survives the trip through the file; the overrides may hold anything. */
  lemma SanitizeTwiceChangesNothing(path: string, s: Setter, fs: FileSystem)
    requires Sanitized(path, s, fs).0
    requires Writable(ReadResult(path, FileAt(fs, path)).value)
    ensures Sanitized(path, s, Sanitized(path, s, fs).1) == (true, Sanitized(path, s, fs).1)
  {
    var m := ReadResult(path, FileAt(fs, path)).value;
    var n := Normalized(m, s);
    var after := Sanitized(path, s, fs).1;
    SanitizeSucceeds(path, s, fs);
    assert FileAt(after, path) == Some(RowsOf(Serialize(n)));
    RewriteIsSame(m, s);
    var again := Parse(RowsOf(Serialize(n))).value;
    assert ReadResult(path, FileAt(after, path)) == Some(again);
    assert Sanitized(path, s, after).1 == after.(files := after.files[path := RowsOf(Serialize(Normalized(again, s)))]);
    assert after.files[path := RowsOf(Serialize(n))] == after.files;
  }

  /** The file a successful `Sanitize` wrote reads as a writable record, so a second
      `Sanitize` succeeds too. */
  lemma SanitizedFileWritable(path: string, s: Setter, fs: FileSystem)
    requires Sanitized(path, s, fs).0
    ensures Sanitized(path, s, Sanitized(path, s, fs).1).0
    ensures Writable(ReadResult(path, FileAt(Sanitized(path, s, fs).1, path)).value)
  {
    var n := Normalized(ReadResult(path, FileAt(fs, path)).value, s);
    var after := Sanitized(path, s, fs).1;
    SanitizeSucceeds(path, s, fs);
    assert FileAt(after, path) == Some(RowsOf(Serialize(n)));
    WrittenFileHasOnlySong(n);
    SanitizeSucceeds(path, s, after);
    WrittenRowsTrimmed(Serialize(n));
    ReadRecordWritable(RowsOf(Serialize(n)));
  }

  /** A file the sanitizer wrote is a fixed point: sanitizing it once more changes nothing,
      whatever the file first held. */
  lemma SanitizedFileIsFixed(path: string, s: Setter, fs: FileSystem)
    requires Sanitized(path, s, fs).0
    ensures Sanitized(path, s, Sanitized(path, s, fs).1).0
    ensures var after := Sanitized(path, s, Sanitized(path, s, fs).1).1;
      Sanitized(path, s, after) == (true, after)
  {
    SanitizedFileWritable(path, s, fs);
    SanitizeTwiceChangesNothing(path, s, Sanitized(path, s, fs).1);
  }
}
