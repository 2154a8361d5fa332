/** The row kinds of Enums.cs. */
module Enums {

  /** What kind of line `IniReader` has just read. `None` is a blank line. */
  datatype IniRowType = None | SectionHeader | KeyValue | Comment | Invalid
}

/**
 * The interface to the INI library, which is not part of this model: the rows `IniReader`
 * delivers to the reading loop, and the calls the writer makes on `IniWriter`.
 */
module Ini {
  import opened Wrappers
  import opened Text
  import Enums

  /** One row as `IniReader` reports it: `RowType`, and, on a header row, `Section`; on a
      key/value row, the key and value of `KeyValuePair`. A `None` string is a C# `null`. The
      reading loop looks at `Section` only on header rows and at the pair only on key/value
      rows, so the row carries nothing else. */
  datatype IniRow = IniRow(rowType: Enums.IniRowType, section: Option<string>, key: Option<string>, value: Option<string>)

  /** One call made on `IniWriter`: `WriteSection(name)` or `WriteKeyValuePair(key, value)`. */
  datatype IniLine = SectionLine(name: string) | PairLine(key: string, value: string)

  /** The row `IniReader` reports when it reads back a line `IniWriter` wrote: `[name]` is a
      header, `key=value` is a key/value row with both sides trimmed. */
  function RowOf(line: IniLine): IniRow {
    match line
    case SectionLine(name) => IniRow(Enums.SectionHeader, Some(name), None, None)
    case PairLine(k, v) => IniRow(Enums.KeyValue, None, Some(Trim(k)), Some(Trim(v)))
  }

  /** Reading back a whole written file, line by line. */
  function RowsOf(lines: seq<IniLine>): seq<IniRow> {
    seq(|lines|, i requires 0 <= i < |lines| => RowOf(lines[i]))
  }
}
