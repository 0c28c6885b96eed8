/** The page script's session: the transcript, the loaded table, the
    completion client and the name of the loaded file, and how one run of
    the script changes them (client set-up, upload handling, a question).

    The transitions are given twice: as functions on a `State` value, about
    which the lemmas below are proved, and as the `Session` class whose
    methods update the four fields in place and are proved to agree with
    those functions. */
module App {
  import opened Types
  import FileHandler
  import LlmHandler

  /** The collaborators outside the model: the client constructor, the two
      format readers, the table-to-text formatter, the completion request
      and the executor of the returned code. */
  datatype Services = Services(
    initialize: string -> Option<Client>,
    readers: FileHandler.Readers,
    render: Table -> string,
    complete: (Client, seq<Message>) -> string,
    execute: (string, Table) -> string)

  /** The four session fields. */
  datatype State = State(
    messages: seq<Message>,
    dataframe: Option<Table>,
    client: Option<Client>,
    currentFileName: Option<string>)

  /** What a question leads to: nothing asked, one of the two warnings, an
      answer (the code the model returned and the result of running it),
      or, in the script as written, an exception after the request. */
  datatype AskOutcome = NoQuestion | MissingClient | MissingTable | Answered(code: string, result: string) | Crashed(code: string)

  /** The new state, the outcome, and the message list sent to the
      completion endpoint (None when no request is made). */
  datatype Turn = Turn(state: State, outcome: AskOutcome, sent: Option<seq<Message>>)

  /** The inputs one run of the script reads: the API key from the
      environment, the file in the upload widget and the submitted question. */
  datatype Event = Event(apiKey: Option<string>, upload: Option<UploadedFile>, question: Option<string>)

  const WelcomePrefix: string := "I've loaded the file '"
  const WelcomeSuffix: string := "'. What would you like to know?"

  /** The assistant message that opens the transcript of a new file. */
  function Welcome(name: string): (m: Message)
    ensures m.role == Assistant
    ensures |m.content| == |WelcomePrefix| + |name| + |WelcomeSuffix|
    ensures m.content[|WelcomePrefix|..|WelcomePrefix| + |name|] == name
  {
    var c := WelcomePrefix + name + WelcomeSuffix;
    assert c == WelcomePrefix + (name + WelcomeSuffix);
    Message(Assistant, c)
  }

  /** The welcome message names its file: different files, different
      messages. */
  lemma WelcomeNamesFile(a: string, b: string)
    requires Welcome(a) == Welcome(b)
    ensures a == b
  {
    var ca, cb := Welcome(a).content, Welcome(b).content;
    assert |a| == |b|;
    assert a == ca[|WelcomePrefix|..|WelcomePrefix| + |a|] == cb[|WelcomePrefix|..|WelcomePrefix| + |b|] == b;
  }

  /** The state a fresh session starts in. */
  function Initial(): (s: State)
    ensures s.messages == [] && s.dataframe.None? && s.client.None? && s.currentFileName.None?
  {
    State([], None, None, None)
  }

  /** Client set-up: a client is built only when the key is non-empty and
      there is no client yet; an existing client is never replaced. */
  function WithClient(s: State, apiKey: Option<string>, initialize: string -> Option<Client>): (r: State)
    ensures r.messages == s.messages && r.dataframe == s.dataframe && r.currentFileName == s.currentFileName
    ensures s.client.Some? ==> r.client == s.client
    ensures !Truthy(apiKey) ==> r.client == s.client
    ensures Truthy(apiKey) && s.client.None? ==> r.client == initialize(apiKey.value)
  {
    if Truthy(apiKey) && s.client.None? then s.(client := initialize(apiKey.value)) else s
  }

  /** Upload handling: no file, or the name of the loaded file, changes
      nothing; a new name that parses replaces the table and restarts the
      transcript with the welcome message; a new name that does not parse
      clears the table and the name and keeps the transcript. */
  function WithUpload(s: State, upload: Option<UploadedFile>, readers: FileHandler.Readers): (r: State)
    ensures r.client == s.client
    ensures upload.None? ==> r == s
    ensures upload.Some? && s.currentFileName == Some(upload.value.name) ==> r == s
    ensures upload.Some? && s.currentFileName != Some(upload.value.name) ==>
      var parsed := FileHandler.ParseSpreadsheet(upload.value, readers);
      (parsed.Some? ==>
        r.dataframe == parsed && r.currentFileName == Some(upload.value.name) &&
        r.messages == [Welcome(upload.value.name)]) &&
      (parsed.None? ==>
        r.dataframe.None? && r.currentFileName.None? && r.messages == s.messages)
  {
    if upload.None? || s.currentFileName == Some(upload.value.name) then s
    else
      var file := upload.value;
      match FileHandler.ParseSpreadsheet(file, readers)
      case Some(df) => s.(dataframe := Some(df), currentFileName := Some(file.name), messages := [Welcome(file.name)])
      case None => s.(dataframe := None, currentFileName := None)
  }

  /** A question: rejected without any change when nothing is asked, when
      there is no client (checked first) or when there is no table;
      otherwise the question is appended, the prompt is built from the
      table and the transcript that now ends with the question, the model's
      code is executed against the table and its result appended. */
  function Answer(s: State, question: Option<string>, sv: Services): (t: Turn)
    ensures t.state.dataframe == s.dataframe && t.state.client == s.client && t.state.currentFileName == s.currentFileName
    ensures t.outcome == NoQuestion <==> !Truthy(question)
    ensures t.outcome == MissingClient <==> Truthy(question) && s.client.None?
    ensures t.outcome == MissingTable <==> Truthy(question) && s.client.Some? && s.dataframe.None?
    ensures t.outcome.Answered? <==> Truthy(question) && s.client.Some? && s.dataframe.Some?
    ensures !t.outcome.Answered? ==> t.state == s && t.sent.None?
    ensures t.outcome.Answered? ==>
      |t.state.messages| == |s.messages| + 2 &&
      t.state.messages[..|s.messages|] == s.messages &&
      t.state.messages[|s.messages|] == Message(User, question.value) &&
      t.state.messages[|s.messages| + 1] == Message(Assistant, t.outcome.result)
    ensures t.outcome.Answered? ==>
      t.sent.Some? && |t.sent.value| == |s.messages| + 2 && t.sent.value[0].role == System &&
      t.sent.value[1..] == s.messages + [Message(User, question.value)] &&
      t.outcome.code == sv.complete(s.client.value, t.sent.value) &&
      t.outcome.result == sv.execute(t.outcome.code, s.dataframe.value)
    ensures t.outcome.Answered? ==>
      t.sent == Some(LlmHandler.ConstructPrompt(s.dataframe.value, question.value, s.messages + [Message(User, question.value)], sv.render))
  {
    if !Truthy(question) then Turn(s, NoQuestion, None)
    else if s.client.None? then Turn(s, MissingClient, None)
    else if s.dataframe.None? then Turn(s, MissingTable, None)
    else
      var q, df := question.value, s.dataframe.value;
      var asked := s.messages + [Message(User, q)];
      var prompt := LlmHandler.ConstructPrompt(df, q, asked, sv.render);
      var code := sv.complete(s.client.value, prompt);
      var result := sv.execute(code, df);
      Turn(s.(messages := asked + [Message(Assistant, result)]), Answered(code, result), Some(prompt))
  }

  /** One run of the script: client set-up, then the upload, then the
      question. */
  function ScriptRun(s: State, e: Event, sv: Services): (t: Turn)
    ensures s.client.Some? ==> t.state.client == s.client
  {
    Answer(WithUpload(WithClient(s, e.apiKey, sv.initialize), e.upload, sv.readers), e.question, sv)
  }

  /** The state after a sequence of runs. */
  function RunAll(s: State, events: seq<Event>, sv: Services): (r: State)
    ensures |events| == 0 ==> r == s
    decreases |events|
  {
    if |events| == 0 then s else RunAll(ScriptRun(s, events[0], sv).state, events[1..], sv)
  }

  /** The last run of a sequence works on the state the earlier runs leave. */
  lemma {:induction false} RunAllLast(s: State, events: seq<Event>, sv: Services)
    requires |events| > 0
    ensures RunAll(s, events, sv) == ScriptRun(RunAll(s, events[..|events| - 1], sv), events[|events| - 1], sv).state
    decreases |events|
  {
    var n := |events|;
    var next := ScriptRun(s, events[0], sv).state;
    if n == 1 {
      assert events[..0] == [];
    } else {
      RunAllLast(next, events[1..], sv);
      assert events[1..][..n - 2] == events[..n - 1][1..];
      assert events[1..][n - 2] == events[n - 1];
      assert RunAll(s, events[..n - 1], sv) == RunAll(next, events[..n - 1][1..], sv);
    }
  }

  // ---------------------------------------------------------------------
  // The session invariant
  // ---------------------------------------------------------------------

  /** A transcript is empty, or an assistant message followed by pairs of a
      user question and an assistant reply. */
  predicate ValidTranscript(msgs: seq<Message>)
  {
    msgs == [] ||
    (msgs[0].role == Assistant && |msgs| % 2 == 1 &&
     forall k :: 1 <= k < |msgs| ==> msgs[k].role == (if k % 2 == 1 then User else Assistant))
  }

  /** A table is loaded exactly when a file name is recorded, and then the
      transcript opens with that file's welcome message. */
  predicate Consistent(s: State)
  {
    ValidTranscript(s.messages) &&
    (s.dataframe.Some? <==> s.currentFileName.Some?) &&
    (s.currentFileName.Some? ==> |s.messages| >= 1 && s.messages[0] == Welcome(s.currentFileName.value))
  }

  lemma InitialConsistent()
    ensures Consistent(Initial())
  {
  }

  lemma UploadConsistent(s: State, upload: Option<UploadedFile>, readers: FileHandler.Readers)
    requires Consistent(s)
    ensures Consistent(WithUpload(s, upload, readers))
  {
    if upload.Some? && s.currentFileName != Some(upload.value.name) {
      var r := WithUpload(s, upload, readers);
      if FileHandler.ParseSpreadsheet(upload.value, readers).Some? {
        assert r.messages == [Welcome(upload.value.name)];
      } else {
        assert r.messages == s.messages && r.currentFileName.None?;
      }
    }
  }

  /** Appending a question and its reply to a non-empty transcript keeps
      the pairing: the question lands at an odd index, the reply at the
      next, even, one. */
  lemma AppendPairValid(msgs: seq<Message>, question: Message, reply: Message)
    requires ValidTranscript(msgs) && msgs != []
    requires question.role == User && reply.role == Assistant
    ensures ValidTranscript(msgs + [question] + [reply])
  {
    var m, n := msgs + [question] + [reply], |msgs|;
    forall k | 1 <= k < |m|
      ensures m[k].role == (if k % 2 == 1 then User else Assistant)
    {
      if k < n {
        assert m[k] == msgs[k];
      }
    }
  }

  lemma AnswerConsistent(s: State, question: Option<string>, sv: Services)
    requires Consistent(s)
    ensures Consistent(Answer(s, question, sv).state)
  {
    var t := Answer(s, question, sv);
    if t.outcome.Answered? {
      var u, a := Message(User, question.value), Message(Assistant, t.outcome.result);
      assert t.state.messages == s.messages + [u] + [a];
      AppendPairValid(s.messages, u, a);
      assert t.state.messages[0] == s.messages[0];
    }
  }

  /** Each run of the script keeps the session invariant. */
  lemma ScriptRunConsistent(s: State, e: Event, sv: Services)
    requires Consistent(s)
    ensures Consistent(ScriptRun(s, e, sv).state)
  {
    var s1 := WithClient(s, e.apiKey, sv.initialize);
    UploadConsistent(s1, e.upload, sv.readers);
    AnswerConsistent(WithUpload(s1, e.upload, sv.readers), e.question, sv);
  }

  lemma {:induction false} RunAllConsistent(s: State, events: seq<Event>, sv: Services)
    requires Consistent(s)
    ensures Consistent(RunAll(s, events, sv))
    decreases |events|
  {
    if |events| > 0 {
      ScriptRunConsistent(s, events[0], sv);
      RunAllConsistent(ScriptRun(s, events[0], sv).state, events[1..], sv);
    }
  }

  /** Once a client exists it survives every later run unchanged. */
  lemma {:induction false} ClientNeverReplaced(s: State, events: seq<Event>, sv: Services)
    requires s.client.Some?
    ensures RunAll(s, events, sv).client == s.client
    decreases |events|
  {
    if |events| > 0 {
      ClientNeverReplaced(ScriptRun(s, events[0], sv).state, events[1..], sv);
    }
  }

  /** Re-uploading the loaded file's name keeps the table and the
      conversation, even when the bytes differ. */
  lemma SameNameKeepsConversation(s: State, first: UploadedFile, second: UploadedFile, readers: FileHandler.Readers)
    requires first.name == second.name
    requires FileHandler.ParseSpreadsheet(first, readers).Some?
    ensures var loaded := WithUpload(s, Some(first), readers);
      loaded.currentFileName == Some(first.name) &&
      WithUpload(loaded, Some(second), readers) == loaded
  {
    var loaded := WithUpload(s, Some(first), readers);
    if s.currentFileName != Some(first.name) {
      assert loaded.currentFileName == Some(first.name);
    }
  }

  /** A failed upload forgets the name, so the same name is parsed again on
      the next upload, which then succeeds when the new bytes parse. */
  lemma FailedUploadRetried(s: State, first: UploadedFile, second: UploadedFile, readers: FileHandler.Readers)
    requires first.name == second.name
    requires s.currentFileName != Some(first.name)
    requires FileHandler.ParseSpreadsheet(first, readers).None?
    requires FileHandler.ParseSpreadsheet(second, readers).Some?
    ensures var failed := WithUpload(s, Some(first), readers);
      failed.dataframe.None? && failed.currentFileName.None? &&
      WithUpload(failed, Some(second), readers) ==
        failed.(dataframe := FileHandler.ParseSpreadsheet(second, readers),
                currentFileName := Some(second.name),
                messages := [Welcome(second.name)])
  {
  }

  /** The upload-then-ask walk-through: after a run that loads "sales.csv"
      and a run that asks a question, the transcript is the welcome message,
      the question and the answer, and the request carried the system
      message, the welcome message and the question. */
  lemma UploadThenAsk(sv: Services, key: string, data: Bytes, table: Table, question: string, reply: string)
    requires key != "" && question != ""
    requires sv.initialize(key).Some?
    requires sv.readers.readCsv(data) == FileHandler.Read(table)
    requires forall c, msgs :: sv.execute(sv.complete(c, msgs), table) == reply
    ensures var file := UploadedFile("sales.csv", data);
      var s1 := ScriptRun(Initial(), Event(Some(key), Some(file), None), sv).state;
      var t := ScriptRun(s1, Event(Some(key), Some(file), Some(question)), sv);
      t.outcome.Answered? && t.outcome.result == reply &&
      t.state.messages == [Welcome("sales.csv"), Message(User, question), Message(Assistant, reply)] &&
      t.sent.Some? && |t.sent.value| == 3 && t.sent.value[0].role == System &&
      t.sent.value[1..] == [Welcome("sales.csv"), Message(User, question)]
  {
    var file := UploadedFile("sales.csv", data);
    assert FileHandler.EndsWith(file.name, ".csv") by {
      assert file.name[5..] == ".csv";
    }
    var s1 := ScriptRun(Initial(), Event(Some(key), Some(file), None), sv).state;
    assert s1.dataframe == Some(table) && s1.client.Some?;
    assert s1.messages == [Welcome("sales.csv")];
  }

  // ---------------------------------------------------------------------
  // The script as written
  // ---------------------------------------------------------------------

  /** The client constructor as written: the name of the proxy-free HTTP
      client it passes is never bound, the resulting exception is caught,
      and None is returned for every key. */
  function InitializeAsWritten(apiKey: string): (c: Option<Client>)
    ensures c.None?
  {
    None
  }

  /** With the constructor as written the client is never set, so no
      question is ever answered: each is met with the missing-key warning. */
  lemma {:induction false} AsWrittenNeverAnswers(s: State, events: seq<Event>, sv: Services)
    requires s.client.None?
    requires forall k :: sv.initialize(k) == InitializeAsWritten(k)
    ensures RunAll(s, events, sv).client.None?
    ensures |events| > 0 && Truthy(events[0].question) ==> ScriptRun(s, events[0], sv).outcome == MissingClient
    decreases |events|
  {
    if |events| > 0 {
      var e := events[0];
      assert WithClient(s, e.apiKey, sv.initialize).client.None?;
      AsWrittenNeverAnswers(ScriptRun(s, e, sv).state, events[1..], sv);
    }
  }

  /** With a constructor that returns a client, a run with a key, a loaded
      table and a question answers it. */
  lemma CorrectedInitAnswers(s: State, e: Event, sv: Services)
    requires Truthy(e.apiKey) && Truthy(e.question) && e.upload.None?
    requires s.client.Some? || sv.initialize(e.apiKey.value).Some?
    requires s.dataframe.Some?
    ensures ScriptRun(s, e, sv).outcome.Answered?
    ensures s.client.None? ==> ScriptRun(s, e, sv).state.client == sv.initialize(e.apiKey.value)
  {
  }

  /** A question as the script is written: the executor module is never
      imported, so after the question is appended and the request is made,
      the run stops with an exception and no reply is appended. */
  function AnswerAsWritten(s: State, question: Option<string>, sv: Services): (t: Turn)
    ensures !Truthy(question) || s.client.None? || s.dataframe.None? ==> t == Answer(s, question, sv)
    ensures Truthy(question) && s.client.Some? && s.dataframe.Some? ==>
      var asked := s.messages + [Message(User, question.value)];
      var prompt := LlmHandler.ConstructPrompt(s.dataframe.value, question.value, asked, sv.render);
      t.state == s.(messages := asked) &&
      t.sent == Some(prompt) &&
      t.outcome == Crashed(sv.complete(s.client.value, prompt))
  {
    if !Truthy(question) || s.client.None? || s.dataframe.None? then Answer(s, question, sv)
    else
      var q, df := question.value, s.dataframe.value;
      var asked := s.messages + [Message(User, q)];
      var prompt := LlmHandler.ConstructPrompt(df, q, asked, sv.render);
      var code := sv.complete(s.client.value, prompt);
      Turn(s.(messages := asked), Crashed(code), Some(prompt))
  }

  /** As written, an answered question leaves the transcript one message
      longer, ending with the unanswered question, which breaks the
      question/reply pairing that the corrected Answer keeps. */
  lemma AsWrittenLeavesQuestionUnanswered(s: State, question: Option<string>, sv: Services)
    requires Consistent(s)
    requires Truthy(question) && s.client.Some? && s.dataframe.Some?
    ensures |AnswerAsWritten(s, question, sv).state.messages| == |s.messages| + 1
    ensures !Consistent(AnswerAsWritten(s, question, sv).state)
    ensures |Answer(s, question, sv).state.messages| == |s.messages| + 2
    ensures Consistent(Answer(s, question, sv).state)
  {
    assert |s.messages| % 2 == 1;
    AnswerConsistent(s, question, sv);
  }

  // ---------------------------------------------------------------------
  // The session object
  // ---------------------------------------------------------------------

  /** The per-session store the script reads and updates in place. */
  class Session {
    var messages: seq<Message>
    var dataframe: Option<Table>
    var client: Option<Client>
    var currentFileName: Option<string>

    function Snapshot(): State
      reads this
    {
      State(messages, dataframe, client, currentFileName)
    }

    /** The fields a new session gets when they are first missing. */
    constructor ()
      ensures Snapshot() == Initial()
    {
      messages := [];
      dataframe := None;
      client := None;
      currentFileName := None;
    }

    method InitClient(apiKey: Option<string>, initialize: string -> Option<Client>)
      modifies this
      ensures Snapshot() == WithClient(old(Snapshot()), apiKey, initialize)
    {
      if Truthy(apiKey) && client.None? {
        client := initialize(apiKey.value);
      }
    }

    method Upload(upload: Option<UploadedFile>, readers: FileHandler.Readers)
      modifies this
      ensures Snapshot() == WithUpload(old(Snapshot()), upload, readers)
    {
      if upload.Some? {
        var file := upload.value;
        if Some(file.name) != currentFileName {
          currentFileName := Some(file.name);
          var df := FileHandler.ParseSpreadsheet(file, readers);
          if df.Some? {
            dataframe := df;
            messages := [];
            messages := messages + [Welcome(file.name)];
          } else {
            dataframe := None;
            currentFileName := None;
          }
        }
      }
    }

    method Ask(question: Option<string>, sv: Services) returns (outcome: AskOutcome, sent: Option<seq<Message>>)
      modifies this
      ensures var t := Answer(old(Snapshot()), question, sv);
        Snapshot() == t.state && outcome == t.outcome && sent == t.sent
    {
      sent := None;
      if !Truthy(question) {
        outcome := NoQuestion;
      } else if client.None? {
        outcome := MissingClient;
      } else if dataframe.None? {
        outcome := MissingTable;
      } else {
        var q := question.value;
        messages := messages + [Message(User, q)];
        var prompt := LlmHandler.ConstructPrompt(dataframe.value, q, messages, sv.render);
        var code := sv.complete(client.value, prompt);
        var result := sv.execute(code, dataframe.value);
        messages := messages + [Message(Assistant, result)];
        outcome := Answered(code, result);
        sent := Some(prompt);
      }
    }

    /** One run of the script against this session. */
    method Run(e: Event, sv: Services) returns (outcome: AskOutcome, sent: Option<seq<Message>>)
      modifies this
      ensures var t := ScriptRun(old(Snapshot()), e, sv);
        Snapshot() == t.state && outcome == t.outcome && sent == t.sent
      ensures Consistent(old(Snapshot())) ==> Consistent(Snapshot())
    {
      ghost var before := Snapshot();
      InitClient(e.apiKey, sv.initialize);
      Upload(e.upload, sv.readers);
      outcome, sent := Ask(e.question, sv);
      if Consistent(before) {
        ScriptRunConsistent(before, e, sv);
      }
    }
  }
}
