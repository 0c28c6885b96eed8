/** Values shared by the loader, the prompt builder and the session:
    the table a spreadsheet parses into, chat messages, uploaded files and
    the language-model client handle. */
module Types {

  datatype Option<+T> = None | Some(value: T)

  /** Raw bytes of an uploaded file. */
  type Bytes = seq<bv8>

  /** A column label. Parsed tables mostly carry text labels; a numeric
      header cell of a workbook yields an integer label. */
  datatype Label = TextLabel(text: string) | IntLabel(n: int)

  /** One dynamically typed cell: text, number, boolean or missing. */
  datatype Cell = TextCell(text: string) | NumberCell(number: real) | BoolCell(flag: bool) | MissingCell

  type Row = seq<Cell>

  /** An in-memory table: ordered column labels and a sequence of rows. */
  datatype Table = Table(columns: seq<Label>, rows: seq<Row>)

  /** A file handed over by the upload widget: its declared name and contents. */
  datatype UploadedFile = UploadedFile(name: string, data: Bytes)

  datatype Role = System | User | Assistant

  /** One chat message, a role paired with its text. */
  datatype Message = Message(role: Role, content: string)

  /** Handle of the chat-completion client, created from an API key. */
  datatype Client = Client(apiKey: string)

  function Min(a: int, b: int): int
  {
    if a <= b then a else b
  }

  /** Python truthiness of an optional string: present and non-empty. */
  predicate Truthy(s: Option<string>)
  {
    s.Some? && s.value != ""
  }
}
