/** Building the message list sent to the chat-completion endpoint: one
    freshly made system message that describes the table, followed by the
    whole transcript verbatim. */
module LlmHandler {
  import opened Types

  /** Number of leading rows in the preview (the default of head()). */
  const PreviewRows: nat := 5

  // The fixed prose around the two data-dependent parts of the system
  // message, with the indentation of the triple-quoted template kept.
  const Opening: string := "\n        You are a world-class data analyst AI. Your task is to help a user\n        understand their uploaded spreadsheet.\n\n        The data has the following columns: "
  const BeforePreview: string := ".\n        Here is a preview of the first 5 rows:\n        ---\n        "
  const Closing: string := "\n        ---\n        \n        Analyze the data based on the user's questions. Provide clear, concise,\n        and helpful answers. When providing explanations, be direct and easy to\n        understand.\n        "

  // ---------------------------------------------------------------------
  // Joining text with a separator
  // ---------------------------------------------------------------------

  /** The parts in order with sep between neighbours, as str.join. */
  function Join(parts: seq<string>, sep: string): (r: string)
    ensures |parts| == 0 ==> r == ""
    ensures |parts| > 0 ==> |r| == TotalLength(parts) + |sep| * (|parts| - 1)
    decreases |parts|
  {
    if |parts| == 0 then ""
    else if |parts| == 1 then parts[0]
    else parts[0] + sep + Join(parts[1..], sep)
  }

  function TotalLength(parts: seq<string>): nat
    decreases |parts|
  {
    if |parts| == 0 then 0 else |parts[0]| + TotalLength(parts[1..])
  }

  /** Where parts[i] starts in Join(parts, sep). */
  function Offset(parts: seq<string>, sep: string, i: nat): nat
    requires i < |parts|
    decreases i
  {
    if i == 0 then 0 else |parts[0]| + |sep| + Offset(parts[1..], sep, i - 1)
  }

  /** A slice that lies wholly after a prefix is a slice of the rest. */
  lemma SliceAfterPrefix(a: string, b: string, lo: nat, hi: nat)
    requires |a| <= lo <= hi <= |a| + |b|
    ensures (a + b)[lo..hi] == b[lo - |a|..hi - |a|]
  {
    assert forall k :: 0 <= k < hi - lo ==> (a + b)[lo..hi][k] == b[lo - |a|..hi - |a|][k];
  }

  /** Every part can be read back from the joined text at its offset. */
  lemma {:induction false} JoinAt(parts: seq<string>, sep: string, i: nat)
    requires i < |parts|
    ensures Offset(parts, sep, i) + |parts[i]| <= |Join(parts, sep)|
    ensures Join(parts, sep)[Offset(parts, sep, i)..Offset(parts, sep, i) + |parts[i]|] == parts[i]
    decreases i
  {
    if |parts| == 1 {
      assert Join(parts, sep) == parts[0];
    } else {
      var head := parts[0] + sep;
      var rest := Join(parts[1..], sep);
      assert Join(parts, sep) == parts[0] + (sep + rest);
      if i == 0 {
        assert (parts[0] + (sep + rest))[..|parts[0]|] == parts[0];
      } else {
        assert Join(parts, sep) == head + rest;
        JoinAt(parts[1..], sep, i - 1);
        var o := Offset(parts[1..], sep, i - 1);
        assert Offset(parts, sep, i) == |head| + o;
        assert parts[1..][i - 1] == parts[i];
        SliceAfterPrefix(head, rest, |head| + o, |head| + o + |parts[i]|);
      }
    }
  }

  /** The separator lies between each part and the next, and the next
      part's offset follows: offsets grow in the order of the parts. */
  lemma {:induction false} JoinSepAt(parts: seq<string>, sep: string, i: nat)
    requires i + 1 < |parts|
    ensures Offset(parts, sep, i + 1) == Offset(parts, sep, i) + |parts[i]| + |sep|
    ensures Offset(parts, sep, i + 1) <= |Join(parts, sep)|
    ensures Join(parts, sep)[Offset(parts, sep, i) + |parts[i]|..Offset(parts, sep, i + 1)] == sep
    decreases i
  {
    var head := parts[0] + sep;
    var rest := Join(parts[1..], sep);
    assert Join(parts, sep) == head + rest;
    if i == 0 {
      assert Offset(parts[1..], sep, 0) == 0;
    } else {
      JoinSepAt(parts[1..], sep, i - 1);
      var o := Offset(parts[1..], sep, i - 1);
      var o' := Offset(parts[1..], sep, i);
      assert parts[1..][i - 1] == parts[i];
      SliceAfterPrefix(head, rest, |head| + o + |parts[i]|, |head| + o');
    }
  }

  // ---------------------------------------------------------------------
  // Coercing column labels to text, as str()
  // ---------------------------------------------------------------------

  predicate IsDigit(c: char)
  {
    '0' <= c <= '9'
  }

  predicate AllDigits(s: string)
  {
    forall k :: 0 <= k < |s| ==> IsDigit(s[k])
  }

  function DigitChar(d: nat): (c: char)
    requires d < 10
    ensures IsDigit(c)
  {
    (48 + d) as char
  }

  function DigitValue(c: char): (d: nat)
    requires IsDigit(c)
    ensures d < 10
  {
    c as int - 48
  }

  /** Decimal digits of n, most significant first, no leading zero. */
  function NatToDecimal(n: nat): (r: string)
    ensures |r| >= 1 && AllDigits(r)
    ensures n > 0 ==> r[0] != '0'
    ensures n == 0 ==> r == "0"
    decreases n
  {
    if n < 10 then [DigitChar(n)] else NatToDecimal(n / 10) + [DigitChar(n % 10)]
  }

  /** The value of a string of decimal digits. */
  function DecimalValue(s: string): nat
    requires AllDigits(s)
    decreases |s|
  {
    if |s| == 0 then 0 else 10 * DecimalValue(s[..|s| - 1]) + DigitValue(s[|s| - 1])
  }

  /** str() of an integer: a minus sign for negatives, then the digits. */
  function IntToText(n: int): (r: string)
    ensures |r| >= 1
    ensures n < 0 <==> r[0] == '-'
  {
    if n < 0 then "-" + NatToDecimal(-n) else NatToDecimal(n)
  }

  predicate IsIntText(s: string)
  {
    |s| >= 1 && (if s[0] == '-' then |s| >= 2 && AllDigits(s[1..]) else AllDigits(s))
  }

  /** Reads an integer back from its text, the inverse of IntToText. */
  function IntFromText(s: string): int
    requires IsIntText(s)
  {
    if s[0] == '-' then -(DecimalValue(s[1..]) as int) else DecimalValue(s)
  }

  lemma {:induction false} DecimalRoundTrip(n: nat)
    ensures DecimalValue(NatToDecimal(n)) == n
    decreases n
  {
    var r := NatToDecimal(n);
    if n < 10 {
      assert r[..0] == [];
    } else {
      DecimalRoundTrip(n / 10);
      assert r[..|r| - 1] == NatToDecimal(n / 10);
    }
  }

  /** The text of an integer label determines the integer. */
  lemma IntTextRoundTrip(n: int)
    ensures IsIntText(IntToText(n))
    ensures IntFromText(IntToText(n)) == n
  {
    var s := IntToText(n);
    if n < 0 {
      var d := NatToDecimal(-n);
      assert s == "-" + d;
      assert s[1..] == d;
      DecimalRoundTrip(-n);
    } else {
      assert s == NatToDecimal(n);
      assert IsDigit(s[0]);
      DecimalRoundTrip(n);
    }
  }

  function LabelText(l: Label): (r: string)
    ensures l.TextLabel? ==> r == l.text
    ensures l.IntLabel? ==> r == IntToText(l.n) && IsIntText(r) && IntFromText(r) == l.n
  {
    match l
    case TextLabel(t) => t
    case IntLabel(n) => IntTextRoundTrip(n); IntToText(n)
  }

  function LabelTexts(columns: seq<Label>): (r: seq<string>)
    ensures |r| == |columns|
    ensures forall i :: 0 <= i < |columns| ==> r[i] == LabelText(columns[i])
  {
    seq(|columns|, i requires 0 <= i < |columns| => LabelText(columns[i]))
  }

  /** The column text of the system message: every label as text, in
      column order, joined by ", ". */
  function ColumnText(columns: seq<Label>): (r: string)
    ensures |columns| == 0 ==> r == ""
    ensures |columns| == 1 ==> r == LabelText(columns[0])
    ensures |columns| > 0 ==> |r| == TotalLength(LabelTexts(columns)) + 2 * (|columns| - 1)
  {
    Join(LabelTexts(columns), ", ")
  }

  /** Column i's text is found in the column text at its offset, followed by
      ", " unless it is the last column; offsets follow column order. */
  lemma ColumnTextAt(columns: seq<Label>, i: nat)
    requires i < |columns|
    ensures var o := Offset(LabelTexts(columns), ", ", i);
      var t := LabelText(columns[i]);
      o + |t| <= |ColumnText(columns)| &&
      ColumnText(columns)[o..o + |t|] == t &&
      (i + 1 < |columns| ==>
        Offset(LabelTexts(columns), ", ", i + 1) == o + |t| + 2 &&
        o + |t| + 2 <= |ColumnText(columns)| &&
        ColumnText(columns)[o + |t|..o + |t| + 2] == ", ")
  {
    var parts := LabelTexts(columns);
    assert ColumnText(columns) == Join(parts, ", ");
    assert parts[i] == LabelText(columns[i]);
    JoinAt(parts, ", ", i);
    if i + 1 < |columns| {
      JoinSepAt(parts, ", ", i);
    }
  }

  // ---------------------------------------------------------------------
  // The prompt
  // ---------------------------------------------------------------------

  /** head(): the same columns and the first min(5, row count) rows. */
  function Head(df: Table): (h: Table)
    ensures h.columns == df.columns
    ensures |h.rows| == Min(PreviewRows, |df.rows|)
    ensures forall i :: 0 <= i < |h.rows| ==> h.rows[i] == df.rows[i]
  {
    Table(df.columns, df.rows[..Min(PreviewRows, |df.rows|)])
  }

  /** The system message text around the column text and the preview; both
      can be read back at fixed offsets. */
  function SystemContent(columnText: string, preview: string): (c: string)
    ensures |c| == |Opening| + |columnText| + |BeforePreview| + |preview| + |Closing|
    ensures c[|Opening|..|Opening| + |columnText|] == columnText
    ensures c[|Opening| + |columnText| + |BeforePreview|..|Opening| + |columnText| + |BeforePreview| + |preview|] == preview
  {
    var c := Opening + columnText + BeforePreview + preview + Closing;
    assert c == (Opening + columnText) + BeforePreview + preview + Closing;
    c
  }

  /** construct_prompt: the system message for the table, then every
      transcript message in its order. The preview is the rendering of the
      head of the table; `render` stands for the table-to-text formatter.
      The question argument is not used. */
  function ConstructPrompt(df: Table, userQuestion: string, transcript: seq<Message>, render: Table -> string): (r: seq<Message>)
    ensures |r| == 1 + |transcript|
    ensures r[0].role == System
    ensures r[1..] == transcript
  {
    [Message(System, SystemContent(ColumnText(df.columns), render(Head(df))))] + transcript
  }

  /** The system message holds the column text and the rendered preview of
      only the first min(5, row count) rows. */
  lemma PromptDescribesTable(df: Table, q: string, transcript: seq<Message>, render: Table -> string)
    ensures var c := ConstructPrompt(df, q, transcript, render)[0].content;
      var cols := ColumnText(df.columns);
      var preview := render(Table(df.columns, df.rows[..Min(PreviewRows, |df.rows|)]));
      var p := |Opening| + |cols| + |BeforePreview|;
      |c| >= p + |preview| &&
      c[|Opening|..|Opening| + |cols|] == cols &&
      c[p..p + |preview|] == preview
  {
    var h := Head(df);
    assert h == Table(df.columns, df.rows[..Min(PreviewRows, |df.rows|)]);
  }

  /** Messages 1.. are the transcript, one for one and in order: nothing is
      dropped, reordered or rewritten, the welcome message included. */
  lemma PromptKeepsTranscript(df: Table, q: string, transcript: seq<Message>, render: Table -> string, i: nat)
    requires i < |transcript|
    ensures ConstructPrompt(df, q, transcript, render)[i + 1] == transcript[i]
  {
    var r := ConstructPrompt(df, q, transcript, render);
    assert r[1..][i] == transcript[i];
  }

  /** The result depends only on the table and the transcript. */
  lemma PromptIgnoresQuestion(df: Table, q1: string, q2: string, transcript: seq<Message>, render: Table -> string)
    ensures ConstructPrompt(df, q1, transcript, render) == ConstructPrompt(df, q2, transcript, render)
  {
  }
}
