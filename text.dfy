/**
 * The handful of .NET string operations the sanitizer relies on, over `string` (= `seq<char>`):
 * `char.IsWhiteSpace`, `string.IsNullOrWhiteSpace`, `ToLowerInvariant`, `Trim`, `StartsWith`,
 * `Split(char)` and `string.Join(char, ...)`.
 */
module Text {
  import opened Wrappers

  /** `char.IsWhiteSpace`: U+0009..U+000D, U+0020, U+0085, U+00A0 and the Unicode space,
      line and paragraph separators. */
  predicate IsWhiteSpace(c: char) {
    c == ' ' || '\t' <= c <= '\r' || c == '\U{0085}' || c == '\U{00A0}' || c == '\U{1680}'
    || '\U{2000}' <= c <= '\U{200A}' || c == '\U{2028}' || c == '\U{2029}' || c == '\U{202F}'
    || c == '\U{205F}' || c == '\U{3000}'
  }

  /** Empty or made only of white space. */
  predicate IsBlank(s: string) {
    forall i | 0 <= i < |s| :: IsWhiteSpace(s[i])
  }

  /** `string.IsNullOrWhiteSpace`, with `None` standing for `null`. */
  predicate IsNullOrWhiteSpace(s: Option<string>) {
    s.None? || IsBlank(s.value)
  }

  /** Invariant lower-casing, restricted to the ASCII letters. */
  function LowerChar(c: char): char {
    if 'A' <= c <= 'Z' then (c as int + 32) as char else c
  }

  /** `ToLowerInvariant`, character by character. */
  function ToLowerInvariant(s: string): string {
    seq(|s|, i requires 0 <= i < |s| => LowerChar(s[i]))
  }

  /** Lower-casing twice is lower-casing once. */
  lemma LowerIdempotent(s: string)
    ensures ToLowerInvariant(ToLowerInvariant(s)) == ToLowerInvariant(s)
  {
  }

  predicate StartsWith(s: string, prefix: string) {
    |prefix| <= |s| && s[..|prefix|] == prefix
  }

  /** `TrimStart()`: drops the leading white space, and only that. */
  function TrimStart(s: string): (r: string)
    ensures |r| <= |s| && r == s[|s| - |r|..]
    ensures r == [] || !IsWhiteSpace(r[0])
    ensures forall i | 0 <= i < |s| - |r| :: IsWhiteSpace(s[i])
  {
    if |s| > 0 && IsWhiteSpace(s[0]) then TrimStart(s[1..]) else s
  }

  /** `TrimEnd()`: drops the trailing white space, and only that. */
  function TrimEnd(s: string): (r: string)
    ensures |r| <= |s| && r == s[..|r|]
    ensures r == [] || !IsWhiteSpace(r[|r| - 1])
    ensures forall i | |r| <= i < |s| :: IsWhiteSpace(s[i])
  {
    if |s| > 0 && IsWhiteSpace(s[|s| - 1]) then TrimEnd(s[..|s| - 1]) else s
  }

  /** `Trim()`: both ends. */
  function Trim(s: string): string {
    TrimEnd(TrimStart(s))
  }

  /** A string that begins and ends with a non-space character is its own trim. */
  lemma TrimOfTrimmed(s: string)
    requires |s| > 0 && !IsWhiteSpace(s[0]) && !IsWhiteSpace(s[|s| - 1])
    ensures Trim(s) == s
  {
  }

  /** Trimming keeps exactly the non-blank strings non-blank, and a trimmed string stays put. */
  lemma TrimBlank(s: string)
    ensures IsBlank(Trim(s)) <==> IsBlank(s)
    ensures Trim(Trim(s)) == Trim(s)
  {
    if !IsBlank(s) {
      var k :| 0 <= k < |s| && !IsWhiteSpace(s[k]);
      TrimKeepsNonWhite(s, k);
    } else {
      TrimOfBlank(s);
    }
    TrimTwice(s);
  }

  /** A character that is no white space survives trimming. */
  lemma TrimKeepsNonWhite(s: string, k: nat)
    requires k < |s| && !IsWhiteSpace(s[k])
    ensures !IsBlank(Trim(s))
  {
    var t := TrimStart(s);
    var d := |s| - |t|;
    assert d <= k;
    assert t[k - d] == s[k];
    var u := TrimEnd(t);
    assert k - d < |u|;
    assert u[k - d] == t[k - d];
  }

  /** A blank string trims to nothing. */
  lemma TrimOfBlank(s: string)
    requires IsBlank(s)
    ensures Trim(s) == []
  {
    TrimStartOfBlank(s);
  }

  lemma {:induction false} TrimStartOfBlank(s: string)
    requires IsBlank(s)
    ensures TrimStart(s) == []
  {
    if |s| > 0 {
      var rest := s[1..];
      assert forall i | 0 <= i < |rest| :: rest[i] == s[i + 1];
      TrimStartOfBlank(rest);
      assert IsWhiteSpace(s[0]);
    }
  }

  /** Trimming twice trims once. */
  lemma TrimTwice(s: string)
    ensures Trim(Trim(s)) == Trim(s)
  {
    var u := Trim(s);
    if u != [] {
      TrimmedEnds(s);
      TrimOfTrimmed(u);
    } else {
      assert TrimStart(u) == [];
    }
  }

  /** What trimming leaves begins and ends with a character that is no white space. */
  lemma TrimmedEnds(s: string)
    requires Trim(s) != []
    ensures !IsWhiteSpace(Trim(s)[0]) && !IsWhiteSpace(Trim(s)[|Trim(s)| - 1])
  {
    var t := TrimStart(s);
    assert Trim(s)[0] == t[0];
  }

  /** Position of the first `c` in `s`, or `|s|` when there is none. */
  function IndexOf(s: string, c: char): (r: nat)
    ensures r <= |s|
    ensures r < |s| ==> s[r] == c
    ensures forall i | 0 <= i < r :: s[i] != c
  {
    if |s| == 0 then 0 else if s[0] == c then 0 else 1 + IndexOf(s[1..], c)
  }

  /** `s.Split(sep)`: the pieces between consecutive separators, empty pieces included. */
  function Split(s: string, sep: char): (parts: seq<string>)
    ensures |parts| >= 1
    ensures |parts| == 1 <==> sep !in s
    ensures forall p | p in parts :: sep !in p
    decreases |s|
  {
    var i := IndexOf(s, sep);
    if i == |s| then [s] else [s[..i]] + Split(s[i + 1..], sep)
  }

  /** `string.Join(sep, parts)`. */
  function Join(sep: char, parts: seq<string>): string {
    if |parts| == 0 then ""
    else if |parts| == 1 then parts[0]
    else parts[0] + [sep] + Join(sep, parts[1..])
  }

  /** The first separator of `a + [sep] + b` is the one after `a`, so the split starts with `a`. */
  lemma SplitAfterHead(a: string, sep: char, b: string)
    requires sep !in a
    ensures Split(a + [sep] + b, sep) == [a] + Split(b, sep)
  {
    var s := a + [sep] + b;
    assert IndexOf(s, sep) == |a| by {
      assert s[|a|] == sep;
      assert forall i | 0 <= i < |a| :: s[i] == a[i];
    }
    assert s[..|a|] == a;
    assert s[|a| + 1..] == b;
  }

  /** Splitting a join gives the pieces back, as long as no piece holds the separator. */
  lemma {:induction false} SplitJoin(sep: char, parts: seq<string>)
    requires |parts| >= 1
    requires forall p | p in parts :: sep !in p
    ensures Split(Join(sep, parts), sep) == parts
  {
    if |parts| > 1 {
      assert parts[0] in parts;
      assert forall p | p in parts[1..] :: p in parts;
      assert Join(sep, parts) == parts[0] + [sep] + Join(sep, parts[1..]);
      SplitAfterHead(parts[0], sep, Join(sep, parts[1..]));
      SplitJoin(sep, parts[1..]);
      assert parts == [parts[0]] + parts[1..];
    }
  }

  /** Joining keeps the last character of the last piece. */
  lemma {:induction false} JoinLast(sep: char, parts: seq<string>)
    requires |parts| >= 1 && |parts[|parts| - 1]| > 0
    ensures |Join(sep, parts)| > 0
    ensures Join(sep, parts)[|Join(sep, parts)| - 1] == parts[|parts| - 1][|parts[|parts| - 1]| - 1]
  {
    if |parts| > 1 {
      JoinLast(sep, parts[1..]);
    }
  }

  /** Joining keeps the first character of the first piece. */
  lemma JoinFirst(sep: char, parts: seq<string>)
    requires |parts| >= 1 && |parts[0]| > 0
    ensures |Join(sep, parts)| > 0 && Join(sep, parts)[0] == parts[0][0]
  {
  }

  /** The second piece of a split is the text between the first separator and the next one. */
  lemma SplitSecond(a: string, sep: char, b: string)
    requires sep !in a
    ensures |Split(a + [sep] + b, sep)| >= 2
    ensures Split(a + [sep] + b, sep)[1] == b[..IndexOf(b, sep)]
  {
    var s := a + [sep] + b;
    assert IndexOf(s, sep) == |a| by {
      assert s[|a|] == sep;
    }
    assert s[|a| + 1..] == b;
  }
}
