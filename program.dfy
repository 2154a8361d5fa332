/**
 * The command line (`Program.Main` and `Program.Sanitize`): a prefix of option flags fills one
 * `Setter`, and every later argument is a path that is read, normalized and written back with it.
 * The file system is a value passed in and handed back; console output is not modelled.
 */
module ChartSanitizerProgram {
  import opened Wrappers
  import opened Text
  import opened Ini
  import opened SongIniRecord
  import opened Setters
  import opened SongIniReading
  import opened SongIniNormalize
  import opened SongIniWriting

  /** The `.ini` files the program can see, as the reader classifies their rows, and the paths
      it may write. */
  datatype FileSystem = FileSystem(files: map<string, seq<IniRow>>, writable: set<string>)

  /** What the reader delivers for `path`: `None` when there is no such file. */
  function FileAt(fs: FileSystem, path: string): Option<seq<IniRow>> {
    if path in fs.files then Some(fs.files[path]) else None
  }

  /** The five options that carry a string, each introduced by its own prefix. */
  datatype TextOption = PlaylistOption | SubPlaylistOption | UnlockIdOption | UnlockRequireOption | UnlockTextOption

  function PrefixOf(o: TextOption): string {
    match o
    case PlaylistOption => "-pl="
    case SubPlaylistOption => "-spl="
    case UnlockIdOption => "-uid="
    case UnlockRequireOption => "-ur="
    case UnlockTextOption => "-ut="
  }

  /** The `Setter` property an option sets. */
  function ValueOf(s: Setter, o: TextOption): Option<string> {
    match o
    case PlaylistOption => s.playlist
    case SubPlaylistOption => s.subPlaylist
    case UnlockIdOption => s.unlockId
    case UnlockRequireOption => s.unlockRequire
    case UnlockTextOption => s.unlockText
  }

  predicate HasOption(arg: string, o: TextOption) {
    StartsWith(arg, PrefixOf(o))
  }

  /** Every prefix ends in `=`, so an argument with a prefix splits into at least two pieces. */
  lemma OptionHasEquals(arg: string, o: TextOption)
    requires HasOption(arg, o)
    ensures '=' in arg && |Split(arg, '=')| >= 2
  {
    var k := |PrefixOf(o)| - 1;
    assert arg[k] == PrefixOf(o)[k] == '=';
  }

  /** `arg.Split('=')[1]`. */
  function OptionValue(arg: string, o: TextOption): string
    requires HasOption(arg, o)
  {
    OptionHasEquals(arg, o);
    Split(arg, '=')[1]
  }

  /** The value of an option is the text after its prefix, up to the next `=` if there is one. */
  lemma OptionValueUpToNextEquals(o: TextOption, v: string)
    ensures HasOption(PrefixOf(o) + v, o)
    ensures OptionValue(PrefixOf(o) + v, o) == v[..IndexOf(v, '=')]
  {
    var p := PrefixOf(o);
    var name := p[..|p| - 1];
    assert p == name + ['='];
    assert p + v == name + ['='] + v;
    assert (p + v)[..|p|] == p;
    SplitSecond(name, '=', v);
  }

  /** An argument the options loop takes as a flag. */
  predicate IsFlag(arg: string) {
    arg == "-pfa" || HasOption(arg, PlaylistOption) || HasOption(arg, SubPlaylistOption)
    || HasOption(arg, UnlockIdOption) || HasOption(arg, UnlockRequireOption) || HasOption(arg, UnlockTextOption)
  }

  /** What one flag does to the setter, in the order the loop tests the flags. */
  function ApplyFlag(s: Setter, arg: string): Setter {
    if arg == "-pfa" then s.(playlistFromAlbum := true)
    else if HasOption(arg, PlaylistOption) then s.(playlist := Some(OptionValue(arg, PlaylistOption)))
    else if HasOption(arg, SubPlaylistOption) then s.(subPlaylist := Some(OptionValue(arg, SubPlaylistOption)))
    else if HasOption(arg, UnlockIdOption) then s.(unlockId := Some(OptionValue(arg, UnlockIdOption)))
    else if HasOption(arg, UnlockRequireOption) then s.(unlockRequire := Some(OptionValue(arg, UnlockRequireOption)))
    else if HasOption(arg, UnlockTextOption) then s.(unlockText := Some(OptionValue(arg, UnlockTextOption)))
    else s
  }

  /** The setter after a run of flags, starting from `new Setter()`. */
  function SetterAfter(flags: seq<string>): Setter {
    if flags == [] then NoOverrides
    else ApplyFlag(SetterAfter(flags[..|flags| - 1]), flags[|flags| - 1])
  }

  /** How many arguments the options loop consumes: the longest prefix made of flags. */
  function OptionCount(args: seq<string>): (n: nat)
    ensures n <= |args|
    ensures forall i | 0 <= i < n :: IsFlag(args[i])
    ensures n < |args| ==> !IsFlag(args[n])
  {
    if args == [] || !IsFlag(args[0]) then 0
    else
      assert forall i | 1 <= i < |args| :: args[i] == args[1..][i - 1];
      1 + OptionCount(args[1..])
  }

  /** One call of `Sanitize`: the path, the setter it was given, and what it returned. */
  datatype Report = Report(path: string, setter: Setter, ok: bool)

  /** What `Sanitize(path, setter)` returns, and the file system after it. */
  function Sanitized(path: string, setter: Setter, fs: FileSystem): (bool, FileSystem) {
    match ReadResult(path, FileAt(fs, path))
    case None => (false, fs)
    case Some(m) =>
      if !IsBlank(path) && path in fs.writable
      then (true, fs.(files := fs.files[path := RowsOf(Serialize(Normalized(m, setter)))]))
      else (false, fs)
  }

  /** The paths sanitized one after another with one setter: a report per path, in argument
      order, whatever earlier paths returned. */
  function SanitizeAll(paths: seq<string>, setter: Setter, fs: FileSystem): (r: (seq<Report>, FileSystem))
    ensures |r.0| == |paths|
    ensures forall i | 0 <= i < |paths| :: r.0[i].path == paths[i] && r.0[i].setter == setter
  {
    if paths == [] then ([], fs)
    else
      var (reports, mid) := SanitizeAll(paths[..|paths| - 1], setter, fs);
      var (ok, next) := Sanitized(paths[|paths| - 1], setter, mid);
      (reports + [Report(paths[|paths| - 1], setter, ok)], next)
  }

  /** `Program.Sanitize`: read, give up when there is no record, then normalize and write. */
  method Sanitize(path: string, setter: Setter, fs: FileSystem) returns (ok: bool, after: FileSystem)
    ensures (ok, after) == Sanitized(path, setter, fs)
  {
    var songIni := ReadFromFile(path, FileAt(fs, path));
    if songIni == null {
      return false, fs;
    }
    Normalize(songIni, setter);
    var lines;
    ok, lines := WriteToFile(songIni, path, path in fs.writable);
    after := if ok then fs.(files := fs.files[path := RowsOf(lines)]) else fs;
  }

  /** The flag tests at the top of the loop body; `taken` when one of them matched, after which
      the loop moves on to the next argument. */
  method TakeFlag(options: bool, setter: Setter, arg: string) returns (taken: bool, next: Setter)
    ensures taken <==> options && IsFlag(arg)
    ensures next == if taken then ApplyFlag(setter, arg) else setter
  {
    taken, next := true, setter;
    if options && arg == "-pfa" {
      next := setter.(playlistFromAlbum := true);
    } else if options && StartsWith(arg, "-pl=") {
      next := setter.(playlist := Some(OptionValue(arg, PlaylistOption)));
    } else if options && StartsWith(arg, "-spl=") {
      next := setter.(subPlaylist := Some(OptionValue(arg, SubPlaylistOption)));
    } else if options && StartsWith(arg, "-uid=") {
      next := setter.(unlockId := Some(OptionValue(arg, UnlockIdOption)));
    } else if options && StartsWith(arg, "-ur=") {
      next := setter.(unlockRequire := Some(OptionValue(arg, UnlockRequireOption)));
    } else if options && StartsWith(arg, "-ut=") {
      next := setter.(unlockText := Some(OptionValue(arg, UnlockTextOption)));
    } else {
      taken := false;
    }
  }

  /** One turn of the path loop: sanitize `args[i]` and add its report. */
  method SanitizeNext(ghost args: seq<string>, ghost n: nat, i: nat, path: string, setter: Setter, ghost fs: FileSystem,
                      reports: seq<Report>, current: FileSystem) returns (reports': seq<Report>, after: FileSystem)
    requires n <= i < |args| && path == args[i]
    requires (reports, current) == SanitizeAll(args[n..i], setter, fs)
    ensures (reports', after) == SanitizeAll(args[n..i + 1], setter, fs)
  {
    assert args[n..i + 1][..i - n] == args[n..i];
    var ok;
    ok, after := Sanitize(path, setter, current);
    reports' := reports + [Report(path, setter, ok)];
  }

  /** One more flag. */
  lemma SetterAfterStep(args: seq<string>, i: nat)
    requires i < |args|
    ensures SetterAfter(args[..i + 1]) == ApplyFlag(SetterAfter(args[..i]), args[i])
  {
    assert args[..i + 1][..i] == args[..i];
  }

  /** The first argument that is no flag is where the options end. */
  lemma FirstPath(args: seq<string>, i: nat)
    requires i < |args| && i <= OptionCount(args) && !IsFlag(args[i])
    ensures i == OptionCount(args)
  {
  }

  /** No path, no report, nothing changed. */
  lemma SanitizeNone(paths: seq<string>, setter: Setter, fs: FileSystem)
    requires paths == []
    ensures SanitizeAll(paths, setter, fs) == ([], fs)
  {
  }

  /** The state of the argument loop: whether options are still read, the setter so far, and
      the reports and the disk after the paths so far. */
  datatype Scan = Scan(options: bool, setter: Setter, reports: seq<Report>, after: FileSystem)

  /** Where the argument loop stands after `i` arguments: still reading options, with the
      setter those flags give and nothing sanitized, or past them, with the reports of the
      paths so far. */
  ghost predicate Scanned(args: seq<string>, fs: FileSystem, i: nat, st: Scan) {
    i <= |args| &&
    if st.options then
      i <= OptionCount(args) && st.setter == SetterAfter(args[..i]) && st.reports == [] && st.after == fs
    else
      OptionCount(args) < i && st.setter == SetterAfter(args[..OptionCount(args)])
      && (st.reports, st.after) == SanitizeAll(args[OptionCount(args)..i], st.setter, fs)
  }

  /** Before the first argument: reading options, with a fresh setter. */
  lemma ScannedNothing(args: seq<string>, fs: FileSystem)
    ensures Scanned(args, fs, 0, Scan(true, NoOverrides, [], fs))
  {
    assert args[..0] == [];
  }

  /** After the last argument: the reports and the disk are those of sanitizing the paths in
      order, with the setter the flags gave. */
  lemma ScannedAll(args: seq<string>, fs: FileSystem, st: Scan)
    requires Scanned(args, fs, |args|, st)
    ensures (st.reports, st.after) == SanitizeAll(args[OptionCount(args)..], SetterAfter(args[..OptionCount(args)]), fs)
  {
    assert args[..|args|] == args && args[OptionCount(args)..|args|] == args[OptionCount(args)..];
    if st.options {
      SanitizeNone(args[|args|..], st.setter, fs);
    }
  }

  /** One turn of the argument loop: a flag while the options last, otherwise a path. */
  method RunStep(args: seq<string>, ghost fs: FileSystem, i: nat, st: Scan) returns (st': Scan)
    requires i < |args| && Scanned(args, fs, i, st)
    ensures Scanned(args, fs, i + 1, st')
  {
    var arg := args[i];
    SetterAfterStep(args, i);
    var taken, setter := TakeFlag(st.options, st.setter, arg);
    if taken {
      return st.(setter := setter);
    }
    ghost var n := OptionCount(args);
    if st.options {
      FirstPath(args, i);
      SanitizeNone(args[n..i], setter, fs);
    }
    var reports, after := SanitizeNext(args, n, i, arg, setter, fs, st.reports, st.after);
    st' := Scan(false, setter, reports, after);
  }

  /** The argument loop of `Program.Main`: flags while they last, then every remaining
      argument, flag-like or not, is a path. */
  method ScanArguments(args: seq<string>, fs: FileSystem) returns (reports: seq<Report>, after: FileSystem)
    ensures (reports, after) == SanitizeAll(args[OptionCount(args)..], SetterAfter(args[..OptionCount(args)]), fs)
  {
    var st := Scan(true, NoOverrides, [], fs);
    ScannedNothing(args, fs);
    for i := 0 to |args|
      invariant Scanned(args, fs, i, st)
    {
      st := RunStep(args, fs, i, st);
    }
    ScannedAll(args, fs, st);
    return st.reports, st.after;
  }

  /** `Program.Main`: with no argument, help and nothing else; otherwise the argument loop. */
  method Run(args: seq<string>, fs: FileSystem) returns (helpShown: bool, reports: seq<Report>, after: FileSystem)
    ensures helpShown <==> |args| == 0
    ensures helpShown ==> reports == [] && after == fs
    ensures !helpShown ==>
      (reports, after) == SanitizeAll(args[OptionCount(args)..], SetterAfter(args[..OptionCount(args)]), fs)
  {
    if |args| == 0 {
      return true, [], fs;
    }
    helpShown := false;
    reports, after := ScanArguments(args, fs);
  }
}
