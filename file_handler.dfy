/** Turning an uploaded file into a table: dispatch on the exact,
    case-sensitive filename suffix, and collapse every failure to None. */
module FileHandler {
  import opened Types

  /** What a format reader does with the bytes: a table, or an exception
      carrying its message. */
  datatype ReadOutcome = Read(table: Table) | Raised(detail: string)

  /** The two format readers (delimited text and Office Open XML workbook),
      whose parsing is outside this model. */
  datatype Readers = Readers(readCsv: Bytes -> ReadOutcome, readExcel: Bytes -> ReadOutcome)

  datatype Format = Csv | Xlsx | Unsupported

  /** Exact suffix test, as str.endswith. */
  predicate EndsWith(s: string, suffix: string): (b: bool)
    ensures b <==> |suffix| <= |s| && forall k :: 0 <= k < |suffix| ==> s[|s| - |suffix| + k] == suffix[k]
  {
    |suffix| <= |s| && s[|s| - |suffix|..] == suffix
  }

  /** The format chosen from the name: ".csv" is checked first, then ".xlsx". */
  function FormatOf(name: string): (f: Format)
    ensures f == Csv <==> EndsWith(name, ".csv")
    ensures f == Xlsx <==> !EndsWith(name, ".csv") && EndsWith(name, ".xlsx")
    ensures f == Unsupported <==> !EndsWith(name, ".csv") && !EndsWith(name, ".xlsx")
  {
    if EndsWith(name, ".csv") then Csv
    else if EndsWith(name, ".xlsx") then Xlsx
    else Unsupported
  }

  /** A reader's exception becomes None; a parsed table is kept as it is. */
  function Collapse(o: ReadOutcome): (r: Option<Table>)
    ensures r.Some? <==> o.Read?
    ensures r.Some? ==> r.value == o.table
  {
    match o
    case Read(t) => Some(t)
    case Raised(_) => None
  }

  /** The loader: None for an unsupported name or a reader failure,
      otherwise the chosen reader's table unchanged. */
  function ParseSpreadsheet(file: UploadedFile, readers: Readers): (r: Option<Table>)
    ensures EndsWith(file.name, ".csv") ==>
      (r.Some? <==> readers.readCsv(file.data).Read?) &&
      (r.Some? ==> r.value == readers.readCsv(file.data).table)
    ensures !EndsWith(file.name, ".csv") && EndsWith(file.name, ".xlsx") ==>
      (r.Some? <==> readers.readExcel(file.data).Read?) &&
      (r.Some? ==> r.value == readers.readExcel(file.data).table)
    ensures !EndsWith(file.name, ".csv") && !EndsWith(file.name, ".xlsx") ==> r == None
  {
    match FormatOf(file.name)
    case Csv => Collapse(readers.readCsv(file.data))
    case Xlsx => Collapse(readers.readExcel(file.data))
    case Unsupported => None
  }

  /** An unsupported name is rejected without consulting either reader:
      the result is the same whatever readers are supplied. */
  lemma UnsupportedIgnoresReaders(file: UploadedFile, a: Readers, b: Readers)
    requires FormatOf(file.name) == Unsupported
    ensures ParseSpreadsheet(file, a) == None
    ensures ParseSpreadsheet(file, a) == ParseSpreadsheet(file, b)
  {
  }

  /** A name matched as ".csv" is read by the delimited-text reader alone:
      swapping the workbook reader changes nothing, and vice versa. */
  lemma DispatchUsesOneReader(file: UploadedFile, a: Readers, b: Readers)
    ensures FormatOf(file.name) == Csv && a.readCsv(file.data) == b.readCsv(file.data) ==>
      ParseSpreadsheet(file, a) == ParseSpreadsheet(file, b)
    ensures FormatOf(file.name) == Xlsx && a.readExcel(file.data) == b.readExcel(file.data) ==>
      ParseSpreadsheet(file, a) == ParseSpreadsheet(file, b)
  {
  }

  /** No name carries both suffixes, so the order of the two tests only
      matters in principle. */
  lemma SuffixesExclusive(name: string)
    ensures !(EndsWith(name, ".csv") && EndsWith(name, ".xlsx"))
  {
    if EndsWith(name, ".csv") && |name| >= 5 {
      assert name[|name| - 1] == name[|name| - 4..][3] == 'v';
      assert name[|name| - 5..][4] == name[|name| - 1];
    }
  }

  /** Matching is case-sensitive: upper-case suffixes are unsupported. */
  lemma UpperCaseSuffixUnsupported()
    ensures FormatOf("DATA.CSV") == Unsupported
    ensures FormatOf("report.XLSX") == Unsupported
    ensures FormatOf("sales.csv") == Csv
    ensures FormatOf("book.xlsx") == Xlsx
    ensures FormatOf("data.txt") == Unsupported
  {
    assert "DATA.CSV"[4..] != ".csv" by { assert "DATA.CSV"[4..][1] == 'C'; }
    assert "report.XLSX"[6..] != ".xlsx" by { assert "report.XLSX"[6..][1] == 'X'; }
    assert "report.XLSX"[7..] != ".csv" by { assert "report.XLSX"[7..][1] == 'L'; }
    assert "sales.csv"[5..] == ".csv";
    assert "book.xlsx"[4..] == ".xlsx";
    assert "book.xlsx"[5..] != ".csv" by { assert "book.xlsx"[5..][1] == 'l'; }
    assert "data.txt"[4..] != ".csv" by { assert "data.txt"[4..][1] == 't'; }
    assert "data.txt"[3..] != ".xlsx" by { assert "data.txt"[3..][0] == 'a'; }
  }
}
