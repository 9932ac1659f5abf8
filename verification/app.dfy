/**
  The React session (App.js): seven pieces of state and the handlers that
  each make one request to the backend and then commit some of the state.

  Every remote call is an input: the `Outcome` carries the one field of
  the response the handler reads, or the failure (a network error or an
  error status). Handlers run one at a time, each from its request to its
  commit.
 */
module App {
  import opened Wrappers
  import opened Backend

  /** One value of a result row, as the backend's JSON hands it over. */
  datatype Cell = Null | Integer(i: int) | Float(x: real) | Text(t: string)

  /** One result row: column name to value. */
  type Row = map<string, Cell>

  /** The file the user picked. */
  datatype FileHandle = FileHandle(name: string, content: string)

  /** What a remote call produced: the part of the response the handler reads, or the error it rejected with. */
  datatype Outcome<T> = Ok(value: T) | Failed(error: string)

  /**
    A request to the backend, with what it carries. The result rows of
    `FormatResponse` travel as `JSON.stringify` of those rows.
   */
  datatype Request =
    | UploadCsv(file: Option<FileHandle>)
    | ExtractSchema
    | GenerateQueryReq(question: string)
    | ReGenerate(question: string, previousResponse: string, userDescription: string)
    | RunQueryReq(query: string)
    | FormatResponse(question: string, result: seq<Row>)

  /** What the user is told besides the rendered state. */
  datatype Notice =
    | Alert(message: string)
    | ConsoleError(prefix: string, detail: string)
    | Unhandled(error: string)  // a rejected promise nobody catches

  /** The seven state variables at one moment. */
  datatype SessionState = SessionState(
    file: Option<FileHandle>,
    question: string,
    description: string,
    schema: seq<ColumnDescriptor>,
    sqlQuery: string,
    queryResult: seq<Row>,
    formattedAnswer: string)

  /** The state the component starts in. */
  const Initial := SessionState(None, "", "", [], "", [], "")

  /** The names of the state variables. */
  datatype Field = File | Question | Description | Schema | SqlQuery | QueryResult | FormattedAnswer

  /** The state variables whose values differ between `s` and `t`. */
  function Changed(s: SessionState, t: SessionState): (fs: set<Field>)
    ensures fs == {} <==> s == t
  {
    (if s.file != t.file then {File} else {})
    + (if s.question != t.question then {Question} else {})
    + (if s.description != t.description then {Description} else {})
    + (if s.schema != t.schema then {Schema} else {})
    + (if s.sqlQuery != t.sqlQuery then {SqlQuery} else {})
    + (if s.queryResult != t.queryResult then {QueryResult} else {})
    + (if s.formattedAnswer != t.formattedAnswer then {FormattedAnswer} else {})
  }

  /** `s` and `t` hold the same values in the variables `fs`. */
  predicate Agree(s: SessionState, t: SessionState, fs: set<Field>) {
    && (File in fs ==> s.file == t.file)
    && (Question in fs ==> s.question == t.question)
    && (Description in fs ==> s.description == t.description)
    && (Schema in fs ==> s.schema == t.schema)
    && (SqlQuery in fs ==> s.sqlQuery == t.sqlQuery)
    && (QueryResult in fs ==> s.queryResult == t.queryResult)
    && (FormattedAnswer in fs ==> s.formattedAnswer == t.formattedAnswer)
  }

  /**
    One step of the session: a change in an input, or a handler run
    together with the outcomes of the remote calls it makes. All but
    `Fetch` are started by a button; `Fetch` is the schema fetch on its
    own, which only the upload handler starts. An upload that succeeds
    goes on to fetch the schema, whose outcome is `fetch`.
   */
  datatype Action =
    | PickFile(picked: Option<FileHandle>)
    | TypeQuestion(newQuestion: string)
    | TypeDescription(newDescription: string)
    | Upload(upload: Outcome<string>, fetch: Outcome<seq<ColumnDescriptor>>)
    | Fetch(columns: Outcome<seq<ColumnDescriptor>>)
    | Generate(generated: Outcome<string>)
    | Regenerate(regenerated: Outcome<string>)
    | Run(rows: Outcome<seq<Row>>)
    | Format(answer: Outcome<string>)

  /** A remote call the action depends on failed, so the handler stopped before committing. */
  predicate Fails(a: Action) {
    match a
    case Upload(upload, fetch) => upload.Failed? || fetch.Failed?
    case Fetch(columns) => columns.Failed?
    case Generate(generated) => generated.Failed?
    case Regenerate(regenerated) => regenerated.Failed?
    case Run(rows) => rows.Failed?
    case Format(answer) => answer.Failed?
    case _ => false
  }

  /** The state variables each action writes. */
  function Writes(a: Action): set<Field> {
    match a
    case PickFile(_) => {File}
    case TypeQuestion(_) => {Question}
    case TypeDescription(_) => {Description}
    case Upload(_, _) => {Schema}
    case Fetch(_) => {Schema}
    case Generate(_) => {SqlQuery}
    case Regenerate(_) => {SqlQuery, QueryResult, FormattedAnswer}
    case Run(_) => {QueryResult}
    case Format(_) => {FormattedAnswer}
  }

  /** The state variables each action puts into its requests. */
  function Reads(a: Action): set<Field> {
    match a
    case Upload(_, _) => {File}
    case Generate(_) => {Question}
    case Regenerate(_) => {Question, SqlQuery, Description}
    case Run(_) => {SqlQuery}
    case Format(_) => {Question, QueryResult}
    case _ => {}
  }

  /** The state after action `a`: it writes at most `Writes(a)`, and a failed call writes nothing. */
  function Next(s: SessionState, a: Action): (t: SessionState)
    ensures Changed(s, t) <= Writes(a)
    ensures Fails(a) ==> t == s
  {
    match a
    case PickFile(f) => s.(file := f)
    case TypeQuestion(q) => s.(question := q)
    case TypeDescription(d) => s.(description := d)
    case Upload(upload, fetch) =>
      if upload.Ok? && fetch.Ok? then s.(schema := fetch.value) else s
    case Fetch(columns) =>
      if columns.Ok? then s.(schema := columns.value) else s
    case Generate(generated) =>
      if generated.Ok? then s.(sqlQuery := generated.value) else s
    case Regenerate(regenerated) =>
      if regenerated.Ok? then s.(sqlQuery := regenerated.value, queryResult := [], formattedAnswer := "") else s
    case Run(rows) =>
      if rows.Ok? then s.(queryResult := rows.value) else s
    case Format(answer) =>
      if answer.Ok? then s.(formattedAnswer := answer.value) else s
  }

  /** The requests action `a` sends from state `s`, in order. */
  function Sent(s: SessionState, a: Action): (r: seq<Request>)
    ensures r == [] <==> a.PickFile? || a.TypeQuestion? || a.TypeDescription?
    ensures |r| == 2 <==> a.Upload? && a.upload.Ok?
    ensures a.Upload? && a.upload.Ok? ==> r[1] == ExtractSchema
    ensures |r| <= 2
  {
    match a
    case Upload(upload, _) => [UploadCsv(s.file)] + (if upload.Ok? then [ExtractSchema] else [])
    case Fetch(_) => [ExtractSchema]
    case Generate(_) => [GenerateQueryReq(s.question)]
    case Regenerate(_) => [ReGenerate(s.question, s.sqlQuery, s.description)]
    case Run(_) => [RunQueryReq(s.sqlQuery)]
    case Format(_) => [FormatResponse(s.question, s.queryResult)]
    case _ => []
  }

  /** The message shown when a regeneration fails. */
  const RegenerateFailedMessage := "Failed to regenerate query. Check console for details."

  /**
    What the user is told during action `a`: nothing but alerts while calls
    succeed; a failure ends in an uncaught rejection, except in a
    regeneration, which catches it and alerts.
   */
  function Notices(a: Action): (ns: seq<Notice>)
    ensures !Fails(a) ==> forall i :: 0 <= i < |ns| ==> ns[i].Alert?
    ensures Fails(a) && !a.Regenerate? ==> ns != [] && ns[|ns| - 1].Unhandled?
    ensures Fails(a) && a.Regenerate? ==> ns != [] && ns[|ns| - 1] == Alert(RegenerateFailedMessage)
    ensures Fails(a) && a.Regenerate? ==> ns[0].ConsoleError?
    ensures forall i :: 0 <= i < |ns| && ns[i].Unhandled? ==> i == |ns| - 1 && Fails(a)
  {
    match a
    case Upload(upload, fetch) =>
      if upload.Failed? then [Unhandled(upload.error)]
      else [Alert(upload.value)] + (if fetch.Failed? then [Unhandled(fetch.error)] else [])
    case Fetch(columns) => if columns.Failed? then [Unhandled(columns.error)] else []
    case Generate(generated) => if generated.Failed? then [Unhandled(generated.error)] else []
    case Regenerate(regenerated) =>
      if regenerated.Failed?
      then [ConsoleError("Error regenerating query:", regenerated.error), Alert(RegenerateFailedMessage)]
      else []
    case Run(rows) => if rows.Failed? then [Unhandled(rows.error)] else []
    case Format(answer) => if answer.Failed? then [Unhandled(answer.error)] else []
    case _ => []
  }

  /** What an action sends depends on the variables in `Reads(a)` and on nothing else of the state. */
  lemma SentReadsOnly(s: SessionState, t: SessionState, a: Action)
    requires Agree(s, t, Reads(a))
    ensures Sent(s, a) == Sent(t, a)
  {
    match a
    case Regenerate(_) =>
      assert s.question == t.question && s.sqlQuery == t.sqlQuery && s.description == t.description;
    case Format(_) =>
      assert s.question == t.question && s.queryResult == t.queryResult;
    case _ =>
  }

  /**
    A successful regeneration replaces the query and empties the result and
    the answer in one commit; a failed one changes nothing and is reported.
   */
  lemma RegenerateOutcome(s: SessionState, reply: Outcome<string>)
    ensures reply.Ok? ==> Next(s, Regenerate(reply)) == s.(sqlQuery := reply.value, queryResult := [], formattedAnswer := "")
    ensures reply.Failed? ==> Next(s, Regenerate(reply)) == s && Notices(Regenerate(reply))[1] == Alert(RegenerateFailedMessage)
    ensures Sent(s, Regenerate(reply)) == [ReGenerate(s.question, s.sqlQuery, s.description)]
  {
  }

  /** The state after a sequence of actions. */
  function Replay(s: SessionState, trace: seq<Action>): SessionState
    decreases |trace|
  {
    if trace == [] then s else Replay(Next(s, trace[0]), trace[1..])
  }

  /**
    Where a result can come from: after any sequence of actions the result
    is the one before, the empty one a regeneration leaves, or the rows of
    a successful run within the sequence.
   */
  lemma {:induction false} ResultProvenance(s: SessionState, trace: seq<Action>)
    ensures var r := Replay(s, trace).queryResult;
      r == s.queryResult || r == [] || exists i :: 0 <= i < |trace| && trace[i] == Run(Ok(r))
    decreases |trace|
  {
    if trace != [] {
      var t := Next(s, trace[0]);
      var r := Replay(s, trace).queryResult;
      assert t.queryResult == s.queryResult || t.queryResult == [] || trace[0] == Run(Ok(t.queryResult)) by {
        assert Changed(s, t) <= Writes(trace[0]);
      }
      ResultProvenance(t, trace[1..]);
      if r != t.queryResult && r != [] {
        var i :| 0 <= i < |trace[1..]| && trace[1..][i] == Run(Ok(r));
        assert trace[i + 1] == Run(Ok(r));
      }
    }
  }

  /**
    After a successful regeneration, the result stays empty until a run
    succeeds, and the answer stays empty until a formatting succeeds.
   */
  lemma {:induction false} RegenerateClearsUntilRerun(s: SessionState, query: string, trace: seq<Action>)
    ensures (forall i :: 0 <= i < |trace| ==> !(trace[i].Run? && trace[i].rows.Ok?))
              ==> Replay(s, [Regenerate(Ok(query))] + trace).queryResult == []
    ensures (forall i :: 0 <= i < |trace| ==> !(trace[i].Format? && trace[i].answer.Ok?))
              ==> Replay(s, [Regenerate(Ok(query))] + trace).formattedAnswer == ""
  {
    var t := Next(s, Regenerate(Ok(query)));
    assert ([Regenerate(Ok(query))] + trace)[1..] == trace;
    if forall i :: 0 <= i < |trace| ==> !(trace[i].Run? && trace[i].rows.Ok?) {
      ResultKeptUntilRun(t, trace);
    }
    if forall i :: 0 <= i < |trace| ==> !(trace[i].Format? && trace[i].answer.Ok?) {
      AnswerKeptUntilFormat(t, trace);
    }
  }

  /** Without a successful run the result is only ever kept or emptied. */
  lemma {:induction false} ResultKeptUntilRun(s: SessionState, trace: seq<Action>)
    requires forall i :: 0 <= i < |trace| ==> !(trace[i].Run? && trace[i].rows.Ok?)
    ensures Replay(s, trace).queryResult == s.queryResult || Replay(s, trace).queryResult == []
    decreases |trace|
  {
    if trace != [] {
      var t := Next(s, trace[0]);
      assert t.queryResult == s.queryResult || t.queryResult == [] by {
        assert Changed(s, t) <= Writes(trace[0]);
      }
      assert forall i :: 0 <= i < |trace[1..]| ==> trace[1..][i] == trace[i + 1];
      ResultKeptUntilRun(t, trace[1..]);
    }
  }

  /** Without a successful formatting the answer is only ever kept or emptied. */
  lemma {:induction false} AnswerKeptUntilFormat(s: SessionState, trace: seq<Action>)
    requires forall i :: 0 <= i < |trace| ==> !(trace[i].Format? && trace[i].answer.Ok?)
    ensures Replay(s, trace).formattedAnswer == s.formattedAnswer || Replay(s, trace).formattedAnswer == ""
    decreases |trace|
  {
    if trace != [] {
      var t := Next(s, trace[0]);
      assert t.formattedAnswer == s.formattedAnswer || t.formattedAnswer == "" by {
        assert Changed(s, t) <= Writes(trace[0]);
      }
      assert forall i :: 0 <= i < |trace[1..]| ==> trace[1..][i] == trace[i + 1];
      AnswerKeptUntilFormat(t, trace[1..]);
    }
  }

  /**
    Generating a query keeps the result of the previous query: after a run
    and a new generation, the rows on screen belong to the old query.
   */
  lemma GenerateKeepsStaleResult(s: SessionState, rows: seq<Row>, query: string)
    ensures Replay(s, [Run(Ok(rows)), Generate(Ok(query))]).sqlQuery == query
    ensures Replay(s, [Run(Ok(rows)), Generate(Ok(query))]).queryResult == rows
    ensures Sent(s, Run(Ok(rows))) == [RunQueryReq(s.sqlQuery)]
  {
    var t := Next(s, Run(Ok(rows)));
    assert [Run(Ok(rows)), Generate(Ok(query))][1..] == [Generate(Ok(query))];
    assert Replay(s, [Run(Ok(rows)), Generate(Ok(query))]) == Replay(t, [Generate(Ok(query))]);
  }

  /** The component: the seven state variables and one method per handler. */
  class Session {
    var file: Option<FileHandle>
    var question: string
    var description: string
    var schema: seq<ColumnDescriptor>
    var sqlQuery: string
    var queryResult: seq<Row>
    var formattedAnswer: string

    /** The current values of the state variables. */
    function State(): SessionState
      reads this
    {
      SessionState(file, question, description, schema, sqlQuery, queryResult, formattedAnswer)
    }

    /** Nothing picked, empty texts, no schema, no result. */
    constructor()
      ensures State() == Initial
    {
      file := None;
      question := "";
      description := "";
      schema := [];
      sqlQuery := "";
      queryResult := [];
      formattedAnswer := "";
    }

    /** The file input's change handler. */
    method SetFile(picked: Option<FileHandle>)
      modifies this
      ensures State() == Next(old(State()), PickFile(picked))
    {
      file := picked;
    }

    /** The question input's change handler. */
    method SetQuestion(newQuestion: string)
      modifies this
      ensures State() == Next(old(State()), TypeQuestion(newQuestion))
    {
      question := newQuestion;
    }

    /** The description input's change handler. */
    method SetDescription(newDescription: string)
      modifies this
      ensures State() == Next(old(State()), TypeDescription(newDescription))
    {
      description := newDescription;
    }

    /** Fetches the schema and replaces it wholesale. */
    method FetchSchema(columns: Outcome<seq<ColumnDescriptor>>) returns (sent: seq<Request>, notices: seq<Notice>)
      modifies this
      ensures State() == Next(old(State()), Fetch(columns))
      ensures sent == Sent(old(State()), Fetch(columns))
      ensures notices == Notices(Fetch(columns))
    {
      sent := [ExtractSchema];
      if columns.Failed? {
        notices := [Unhandled(columns.error)];
        return;
      }
      schema := columns.value;
      notices := [];
    }

    /** Uploads the picked file, shows the backend's message, then fetches the schema. */
    method HandleFileUpload(upload: Outcome<string>, fetch: Outcome<seq<ColumnDescriptor>>)
      returns (sent: seq<Request>, notices: seq<Notice>)
      modifies this
      ensures State() == Next(old(State()), Upload(upload, fetch))
      ensures sent == Sent(old(State()), Upload(upload, fetch))
      ensures notices == Notices(Upload(upload, fetch))
    {
      sent := [UploadCsv(file)];
      if upload.Failed? {
        notices := [Unhandled(upload.error)];
        return;
      }
      notices := [Alert(upload.value)];
      var fetchSent, fetchNotices := FetchSchema(fetch);
      sent := sent + fetchSent;
      notices := notices + fetchNotices;
    }

    /** Asks for a query answering the question and shows it. */
    method GenerateQuery(generated: Outcome<string>) returns (sent: seq<Request>, notices: seq<Notice>)
      modifies this
      ensures State() == Next(old(State()), Generate(generated))
      ensures sent == Sent(old(State()), Generate(generated))
      ensures notices == Notices(Generate(generated))
    {
      sent := [GenerateQueryReq(question)];
      if generated.Failed? {
        notices := [Unhandled(generated.error)];
        return;
      }
      sqlQuery := generated.value;
      notices := [];
    }

    /**
      Asks for a refined query from the question, the current query and the
      description; on success shows it and clears the result and the answer,
      on failure logs the error and alerts.
     */
    method RegenerateQuery(regenerated: Outcome<string>) returns (sent: seq<Request>, notices: seq<Notice>)
      modifies this
      ensures State() == Next(old(State()), Regenerate(regenerated))
      ensures sent == Sent(old(State()), Regenerate(regenerated))
      ensures notices == Notices(Regenerate(regenerated))
    {
      sent := [ReGenerate(question, sqlQuery, description)];
      if regenerated.Failed? {
        notices := [ConsoleError("Error regenerating query:", regenerated.error), Alert(RegenerateFailedMessage)];
        return;
      }
      sqlQuery := regenerated.value;
      queryResult := [];
      formattedAnswer := "";
      notices := [];
    }

    /** Runs the current query and shows its rows. */
    method RunQuery(rows: Outcome<seq<Row>>) returns (sent: seq<Request>, notices: seq<Notice>)
      modifies this
      ensures State() == Next(old(State()), Run(rows))
      ensures sent == Sent(old(State()), Run(rows))
      ensures notices == Notices(Run(rows))
    {
      sent := [RunQueryReq(sqlQuery)];
      if rows.Failed? {
        notices := [Unhandled(rows.error)];
        return;
      }
      queryResult := rows.value;
      notices := [];
    }

    /** Asks for the current result in words and shows the answer. */
    method FormatAnswer(answer: Outcome<string>) returns (sent: seq<Request>, notices: seq<Notice>)
      modifies this
      ensures State() == Next(old(State()), Format(answer))
      ensures sent == Sent(old(State()), Format(answer))
      ensures notices == Notices(Format(answer))
    {
      sent := [FormatResponse(question, queryResult)];
      if answer.Failed? {
        notices := [Unhandled(answer.error)];
        return;
      }
      formattedAnswer := answer.value;
      notices := [];
    }
  }
}
