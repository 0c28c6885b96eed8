# Spreadsheet chat assistant — a Dafny model of its core

The assistant is a single-page script. The user uploads a CSV or XLSX
spreadsheet, the script parses it into a table and then answers questions
about the table through a chat-completion model. This project models the
three pieces of logic in that script, with the libraries around them
(spreadsheet parsing, table formatting, the model client and the code
executor) passed in as functions:

- **Loader** (`file_handler.dfy`, module `FileHandler`). `parse_spreadsheet`
  picks a reader from the exact, case-sensitive filename suffix: `.csv`
  first, then `.xlsx`. Any other name is rejected. A reader exception
  collapses to `None`, and a parsed table is returned unchanged.
- **Prompt builder** (`llm_handler.dfy`, module `LlmHandler`).
  `construct_prompt` returns one system message followed by the whole
  transcript, verbatim and in order. The system message embeds the column
  labels, each turned into text and joined by `", "`, and a rendering of the
  first min(5, row count) rows. The label-to-text step (`str`) is defined
  concretely for text and integer labels. The join is defined concretely and
  proved recoverable part by part.
- **Session** (`app.dfy`, module `App`). The script keeps four fields
  between runs: the transcript `messages`, the `dataframe`, the `client` and
  `currentFileName`. Each run sets up the client, then handles the upload,
  then handles a question. These transitions are pure functions on a
  `State` value (`WithClient`, `WithUpload`, `Answer`, `ScriptRun`), and the
  lemmas are proved about them. The `Session` class updates the four fields
  in place. Each of its methods is proved to leave exactly the state the
  corresponding function gives.

Shared values (table, cell, label, message, uploaded file, client handle)
are in `types.dfy`, module `Types`.

Facts about the code that the model follows:
- The script sends the full transcript, including the welcome message,
  with every question. The system message carries only the column list and
  a five-row preview; it states no row count and no per-column summary.
- `parse_spreadsheet` returns `None` both for an unsupported name and for a
  file that fails to parse; only the displayed banner differs. The model
  therefore returns `Option<Table>`.
- `construct_prompt` reads the transcript from the global session store.
  The model passes it as an explicit argument. `App.Answer` passes the
  session's transcript after the question has been appended, as the script
  does.

## Model

| member | source | states |
|---|---|---|
| `FileHandler.EndsWith` | file_handler.py:24-27 | a name ends with a suffix exactly when the suffix is no longer than the name and matches its last characters one by one, as `str.endswith` |
| `FileHandler.FormatOf` | file_handler.py:24-33 | a name ending in `.csv` is CSV; otherwise one ending in `.xlsx` is XLSX; every other name is unsupported (each case as an if-and-only-if) |
| `FileHandler.Collapse` | file_handler.py:35-41 | a reader's table comes back unchanged; a reader exception becomes None |
| `FileHandler.ParseSpreadsheet` | file_handler.py:22-41 | `.csv` gives the CSV reader's result; a non-`.csv` name ending in `.xlsx` gives the workbook reader's result; a failure of the chosen reader gives None; any other name gives None |
| `FileHandler.UnsupportedIgnoresReaders` | file_handler.py:30-33 | for an unsupported name the result is None whatever readers are supplied, so no reader is consulted |
| `FileHandler.DispatchUsesOneReader` | file_handler.py:24-29 | a CSV name's result depends only on the CSV reader, and an XLSX name's only on the workbook reader |
| `FileHandler.SuffixesExclusive` | file_handler.py:24-29 | no name ends in both `.csv` and `.xlsx` |
| `FileHandler.UpperCaseSuffixUnsupported` | file_handler.py:24-27 | matching is case-sensitive: `DATA.CSV` and `report.XLSX` are unsupported, `sales.csv` is CSV, `book.xlsx` is XLSX, `data.txt` is unsupported |
| `LlmHandler.Join` | llm_handler.py:38 | `str.join`: the join of no parts is empty; otherwise it is as long as its parts plus one separator between each pair of neighbours |
| `LlmHandler.JoinAt` | llm_handler.py:38 | each part can be read back from the join at its offset |
| `LlmHandler.JoinSepAt` | llm_handler.py:38 | the separator lies between each part and the next, and the next part starts right after it, so offsets follow the order of the parts |
| `LlmHandler.NatToDecimal` | llm_handler.py:38 | the decimal text of a natural number is non-empty and all digits; it is "0" for zero and otherwise starts with a non-zero digit, as `str` gives |
| `LlmHandler.DecimalRoundTrip` | llm_handler.py:38 | reading the decimal text of n back gives n |
| `LlmHandler.IntToText` | llm_handler.py:38 | the text of an integer is non-empty and starts with `-` exactly when the integer is negative |
| `LlmHandler.IntTextRoundTrip` | llm_handler.py:38 | the text of an integer is well formed and reads back as that integer |
| `LlmHandler.LabelText` | llm_handler.py:38 | a text label is used as it is; an integer label becomes its canonical decimal text, which reads back as the integer |
| `LlmHandler.LabelTexts` | llm_handler.py:38 | one text per column label, in column order |
| `LlmHandler.ColumnTextAt` | llm_handler.py:38 | column i's text sits in the column text at its offset and is followed by `", "` unless it is the last column |
| `LlmHandler.ColumnText` | llm_handler.py:38 | no columns give empty text, one column gives its label text, and otherwise the text is as long as the label texts plus two characters per separator (positions: `ColumnTextAt`) |
| `LlmHandler.Head` | llm_handler.py:37 | the preview table keeps the columns and exactly the first min(5, row count) rows, in order |
| `LlmHandler.SystemContent` | llm_handler.py:40-56 | the column text and the preview can be read back from the system text at fixed offsets |
| `LlmHandler.ConstructPrompt` | llm_handler.py:58-61 | the result has 1 + transcript-length messages; the first has role system; the rest are the transcript |
| `LlmHandler.PromptDescribesTable` | llm_handler.py:37-49 | the system message holds the column text and the rendering of only the first min(5, row count) rows |
| `LlmHandler.PromptKeepsTranscript` | llm_handler.py:59 | message i + 1 of the prompt is transcript message i, with nothing dropped or reordered |
| `LlmHandler.PromptIgnoresQuestion` | llm_handler.py:25-61 | two calls that differ only in the question give equal prompts |
| `App.Welcome` | main.py:59-62 | the welcome message has role assistant and names the file at a fixed offset |
| `App.WelcomeNamesFile` | main.py:61 | equal welcome messages name the same file |
| `App.Initial` | main.py:32-39 | a new session has an empty transcript, no table, no client and no file name |
| `App.WithClient` | main.py:43-44 | a client is built only for a non-empty key with no client present; an existing client is kept; the other fields are untouched |
| `App.WithUpload` | main.py:50-65 | no file, or the loaded name again, changes nothing; a new name that parses sets the table and the name and makes the transcript exactly the welcome message; a new name that fails clears the table and the name and keeps the transcript; the client is untouched |
| `App.Answer` | main.py:71-106 | no question, no client (checked first) or no table: state unchanged and no request; otherwise the transcript grows by exactly the question then the reply, the earlier messages are kept, the request is exactly `ConstructPrompt` of the session's table and the transcript ending with the question (so `PromptDescribesTable` applies to it), and the reply is the executed result of the model's code |
| `App.RunAll` | main.py:10-106 | successive runs of the script, each on the state the previous one leaves; no runs leave the state as it is |
| `App.RunAllLast` | main.py:10-106 | the last run of a sequence works on the state the earlier runs leave |
| `App.ScriptRun` | main.py:43-106 | a client present before a run is the client after it |
| `App.InitialConsistent` | main.py:32-39 | a new session satisfies the session invariant |
| `App.UploadConsistent` | main.py:50-65 | upload handling keeps the invariant: a table is loaded exactly when a name is recorded, and then the transcript opens with that file's welcome message |
| `App.AppendPairValid` | main.py:78-106 | appending a question and its reply keeps the transcript in question/reply pairs after the welcome message |
| `App.AnswerConsistent` | main.py:71-106 | answering a question keeps the session invariant |
| `App.ScriptRunConsistent` | main.py:43-106 | a whole run of the script keeps the session invariant |
| `App.RunAllConsistent` | main.py:10-106 | every sequence of runs from a consistent session ends consistent |
| `App.ClientNeverReplaced` | main.py:43-44 | once a client exists, every later sequence of runs leaves it unchanged |
| `App.SameNameKeepsConversation` | main.py:51 | after a successful upload, uploading the same name again changes nothing, even with different bytes |
| `App.FailedUploadRetried` | main.py:63-65 | a failed upload clears the table and the name, so the same name is parsed again next time and loads when it parses |
| `App.UploadThenAsk` | main.py:50-106 | uploading `sales.csv` then asking gives the transcript [welcome, question, reply], and the request was [system, welcome, question] |
| `App.InitializeAsWritten` | llm_handler.py:14-23 | the client constructor as written returns None for every key |
| `App.AsWrittenNeverAnswers` | llm_handler.py:19 | with that constructor the client stays unset over any runs, and a question is met with the missing-key warning |
| `App.CorrectedInitAnswers` | main.py:43-76 | with a constructor that returns a client, a run with a key, a loaded table and a question answers it |
| `App.AnswerAsWritten` | main.py:78-97 | as written, rejections are as in `Answer`; an accepted question is appended, the `ConstructPrompt` request is made, then the run fails before a reply is appended, with the table, client and file name unchanged |
| `App.AsWrittenLeavesQuestionUnanswered` | main.py:97-106 | as written the transcript grows by one and breaks the invariant; the intended version grows by two and keeps it |
| `App.Session.constructor` | main.py:32-39 | the fields start as the initial state |
| `App.Session.InitClient` | main.py:43-44 | the fields afterwards are `WithClient` of the fields before |
| `App.Session.Upload` | main.py:50-65 | the in-place update, which records the name before parsing and clears it on failure, leaves `WithUpload` of the fields before |
| `App.Session.Ask` | main.py:71-106 | the fields, outcome and request are those of `Answer` on the fields before |
| `App.Session.Run` | main.py:10-106 | one run leaves the state of `ScriptRun` and keeps the session invariant |

## Findings

| source | as written | input that shows it | evidently intended | confidence | as-written member | corrected member |
|---|---|---|---|---|---|---|
| llm_handler.py:19 | the client is built with `http_client=http_client`, a name bound nowhere. The NameError is caught, so `initialize_client` returns None | any non-empty API key | build and return the client for the key | high; not executed | `App.AsWrittenNeverAnswers` | `App.CorrectedInitAnswers` |
| main.py:97 | `code_executor.safe_execute_code` is called, but `code_executor` is never imported. The run fails after the question was appended and the request sent | any non-empty question with a client and a table present | run the returned code and append its result as the assistant reply | high; not executed | `App.AsWrittenLeavesQuestionUnanswered` | `App.Answer` |

As written, the first defect hides the second. No client is ever set, so
every question stops at the missing-key warning and never reaches the
executor call.

The rest of the model uses the intended behaviour. The client constructor
is a parameter that may return a client (`Services.initialize`), and
`App.Answer` runs the returned code through the executor parameter
(`Services.execute`).

## Left out

- Rendering: the page configuration, title, sidebar, spinners, chat
  bubbles, code expander and banners. The two question warnings are the
  `MissingClient` and `MissingTable` outcomes. The rest of `ui_components.py`
  only draws, and it is not part of this model.
- The upload widget's own extension filter (`ui_components.py`) is not
  modelled. The loader is given any name.
- The environment lookup of the API key becomes the `apiKey` field of each
  `Event`.
- CSV and workbook parsing, and the table-to-text formatting of the preview,
  are parameters (`FileHandler.Readers`, `Services.render`). Their behaviour
  is not modelled.
- The OpenAI client and the completion request are the parameters
  `Services.initialize` and `Services.complete`. On failure the request
  returns an error text, which is a string like any reply, so this needs no
  separate case. Network behaviour is not modelled.
- The code executor is the parameter `Services.execute`. Its sandboxing is
  not modelled.
- The text of error banners, including a reader exception's detail, is
  displayed only. `Raised(detail)` is therefore dropped by `Collapse`.
- Column labels other than text and integers, such as floating-point or
  date labels, are not modelled.
- "The prompt is a fresh list and the transcript is not mutated" holds by
  construction: Dafny sequences are values. It has no separate lemma.
- "No parser is called" and "no request is made" cannot be observed of pure
  functions. They are stated as independence of the result from the readers
  (`UnsupportedIgnoresReaders`) and as `sent == None` on rejected questions
  (`Answer`).
- Cell values and their types are not modelled. `Types.Cell` is carried
  through the table unread, and only the rendering parameter
  `Services.render` sees it. In particular `NumberCell` does not tell the
  integer cells of a table from its floating-point cells, which the
  table's own text rendering prints differently ("1" against "1.0").
