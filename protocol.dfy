/**
 * The values exchanged between the SQL language server and its client
 * (Language Server Protocol over JSON-RPC 2.0) and between the server and its
 * collaborators: the database abstraction and the completion engine.
 * Parameters arrive already decoded from JSON.
 */
module Protocol {
  import opened Wrappers

  // Method names the dispatcher recognises (handler.go:48-75).
  const Initialize: string := "initialize"
  const Initialized: string := "initialized"
  const Shutdown: string := "shutdown"
  const DidOpen: string := "textDocument/didOpen"
  const DidChange: string := "textDocument/didChange"
  const DidSave: string := "textDocument/didSave"
  const DidClose: string := "textDocument/didClose"
  const Completion: string := "textDocument/completion"
  const CodeAction: string := "textDocument/codeAction"
  const ExecuteCommand: string := "workspace/executeCommand"
  const DidChangeConfiguration: string := "workspace/didChangeConfiguration"

  /** Every method name that has a case in the dispatcher's switch. */
  const KnownMethods: set<string> :=
    {Initialize, Initialized, Shutdown, DidOpen, DidChange, DidSave, DidClose,
     Completion, CodeAction, ExecuteCommand, DidChangeConfiguration}

  /** The methods whose handler answers InvalidParams when the request has no params. */
  const ParamMethods: set<string> :=
    {Initialize, Shutdown, DidOpen, DidChange, DidSave, DidClose,
     Completion, CodeAction, ExecuteCommand}

  /** The one workspace command the server implements. */
  const ExecuteQueryCommand: string := "executeQuery"

  datatype Position = Position(line: nat, character: nat)

  /** An element of a command's untyped argument list: a JSON string or any other JSON value. */
  datatype Argument = StringArg(str: string) | OtherArg

  /** A command advertised to the client. */
  datatype Command = Command(title: string, command: string, arguments: seq<Argument>)

  /** What the completion engine proposes; only its name is modelled. */
  datatype CompletionItem = CompletionItem(name: string)

  /**
   * A request's params after JSON decoding. Each method expects one shape;
   * `Undecodable` is a payload the JSON decoder rejects.
   * DidChangeParams keeps the text of every entry of ContentChanges.
   */
  datatype Params =
    | InitializeParams
    | DidOpenParams(uri: string, languageID: string, text: string)
    | DidChangeParams(uri: string, changes: seq<string>)
    | DidSaveParams(uri: string, text: string)
    | DidCloseParams(uri: string)
    | CompletionParams(uri: string, position: Position)
    | CodeActionParams(uri: string)
    | ExecuteCommandParams(command: string, arguments: seq<Argument>)
    | DidChangeConfigurationParams(driver: string, dataSourceName: string)
    | Undecodable(detail: string)

  /** A JSON-RPC request: a method name and params that may be absent (a nil Params). */
  datatype Request = Request(name: string, params: Option<Params>)

  /** A database handle, identified by the driver and data source it was opened with. */
  datatype Handle = Handle(driver: string, dataSourceName: string)

  /** The completion engine, built for the database handle current at the time. */
  datatype Completer = Completer(db: Handle)

  /** One step of `rows.Next()`/`rows.Scan`: either a scan error or the row's nullable values. */
  datatype Row = ScanFailed(err: Error) | Scanned(values: seq<Option<string>>)

  /**
   * What the database returns for a query, as the query handler's type
   * assertion `v.(sql.Rows)` sees it. `RowSet` is a value whose dynamic type is
   * the struct `sql.Rows`, and its column fetch may itself fail. `NoRows` is any
   * other value, including a pointer `*sql.Rows`, which fails that assertion.
   */
  datatype QueryResult = NoRows | RowSet(columns: Result<seq<string>, Error>, rows: seq<Row>)

  /** The header and the data rows handed to the table writer. */
  datatype Table = Table(header: seq<string>, body: seq<seq<string>>)

  datatype SyncKind = SyncNone | SyncFull | SyncIncremental

  /** The server capabilities announced by `initialize`. */
  datatype Capabilities = Capabilities(
    textDocumentSync: SyncKind,
    hoverProvider: bool,
    codeActionProvider: bool,
    completionTriggers: Option<seq<string>>,
    definitionProvider: bool,
    documentFormattingProvider: bool,
    documentRangeFormattingProvider: bool)

  /** What a successful request returns. `NoResult` is Go's `nil, nil`. */
  datatype Reply =
    | NoResult
    | InitializeResult(capabilities: Capabilities)
    | Completions(items: seq<CompletionItem>)
    | Commands(commands: seq<Command>)
    | Rendered(table: Table)

  /** Every error a handler can return. */
  datatype Error =
    | InvalidParams
    | MethodNotFound(name: string)
    | DecodeFailed(detail: string)
    | DocumentNotFound(uri: string)
    | ConnectionClosed
    | InvalidArguments(command: string)
    | UnsupportedCommand(command: string)
    | ConnectionInitFailed(cause: Error)
    | ScanArity(rowWidth: nat, destinations: nat)
    | Upstream(detail: string)

  /** A call into a collaborator, recorded in the order the server makes it. */
  datatype Effect =
    | CloseCall(handle: Handle)
    | OpenCall(driver: string, dataSourceName: string)
    | InitCall(completer: Completer)
    | QueryCall(handle: Handle, text: string)
    | CompleteCall(engine: Option<Completer>, text: string, uri: string, position: Position)

  /**
   * The collaborators' answers: `openDb` is the error database.Open reports
   * (None when it succeeds), `initCompleter` the error Completer.Init reports,
   * `execute` what ExecuteQuery returns and `complete` what the completion
   * engine returns.
   */
  datatype Env = Env(
    openDb: (string, string) -> Option<Error>,
    initCompleter: Completer -> Option<Error>,
    execute: (Handle, string) -> Result<QueryResult, Error>,
    complete: (Option<Completer>, string, string, Position) -> Result<seq<CompletionItem>, Error>)

  /** The wire value of a sync kind (handler.go:16-20). */
  function SyncCode(k: SyncKind): nat
  {
    match k
    case SyncNone => 0
    case SyncFull => 1
    case SyncIncremental => 2
  }

  /** The capability set `initialize` returns. */
  const ServerCapabilities: Capabilities := Capabilities(
    textDocumentSync := SyncFull,
    hoverProvider := false,
    codeActionProvider := true,
    completionTriggers := Some(["."]),
    definitionProvider := false,
    documentFormattingProvider := false,
    documentRangeFormattingProvider := false)

  /** The JSON-RPC error code an error carries (section 5.1 of JSON-RPC 2.0); plain Go errors carry none. */
  function Code(e: Error): (c: Option<int>)
    ensures c.Some? <==> e.InvalidParams? || e.MethodNotFound?
    ensures e.InvalidParams? ==> c == Some(-32602)
    ensures e.MethodNotFound? ==> c == Some(-32601)
  {
    match e
    case InvalidParams => Some(-32602)
    case MethodNotFound(_) => Some(-32601)
    case _ => None
  }

  /** The number a string of decimal digits denotes, most significant digit first. */
  function DigitsValue(s: string): nat
  {
    if s == [] then 0
    else
      var d := s[|s| - 1] as int - '0' as int;
      DigitsValue(s[..|s| - 1]) * 10 + (if 0 <= d then d else 0)
  }

  /** The decimal digits of `n`, as `%d` prints them: no leading zero, and they denote `n`. */
  function Decimal(n: nat): (s: string)
    ensures |s| > 0
    ensures forall i :: 0 <= i < |s| ==> '0' <= s[i] <= '9'
    ensures s[0] == '0' ==> n == 0
    ensures DigitsValue(s) == n
  {
    var digit := ['0' + (n % 10) as char];
    if n < 10 then digit
    else
      var high := Decimal(n / 10);
      assert (high + digit)[..|high|] == high;
      high + digit
  }

  /** The text of an error as the client sees it. */
  function Message(e: Error): (r: string)
    ensures e.InvalidParams? ==> r == ""
    ensures e.MethodNotFound? ==> r == "method not supported: " + e.name
    ensures e.DocumentNotFound? ==> r == "document not found: " + e.uri
    ensures e.ConnectionClosed? ==> r == "connection is closed"
    ensures e.InvalidArguments? ==> r == "invalid arguments for " + e.command
    ensures e.UnsupportedCommand? ==> r == "unsupported command: " + e.command
    ensures e.ConnectionInitFailed? ==> r == "sqls: failed database connection: " + Message(e.cause)
    ensures e.DecodeFailed? || e.Upstream? ==> r == e.detail
  {
    match e
    case InvalidParams => ""
    case MethodNotFound(m) => "method not supported: " + m
    case DecodeFailed(d) => d
    case DocumentNotFound(uri) => "document not found: " + uri
    case ConnectionClosed => "connection is closed"
    case InvalidArguments(c) => "invalid arguments for " + c
    case UnsupportedCommand(c) => "unsupported command: " + c
    case ConnectionInitFailed(cause) => "sqls: failed database connection: " + Message(cause)
    case ScanArity(w, d) =>
      "sql: expected " + Decimal(w) + " destination arguments in Scan, not " + Decimal(d)
    case Upstream(d) => d
  }

  /** `s` occurs in `text` ending at its last character. */
  predicate EndsWith(text: string, s: string)
  {
    |s| <= |text| && text[|text| - |s|..] == s
  }

  /** The errors that name the offending method, command or document end their message with that name. */
  lemma MessageNamesCulprit(e: Error)
    ensures e.MethodNotFound? ==> EndsWith(Message(e), e.name)
    ensures e.DocumentNotFound? ==> EndsWith(Message(e), e.uri)
    ensures e.InvalidArguments? ==> EndsWith(Message(e), e.command)
    ensures e.UnsupportedCommand? ==> EndsWith(Message(e), e.command)
    ensures e.ConnectionInitFailed? ==> EndsWith(Message(e), Message(e.cause))
  {
  }
}
