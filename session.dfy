/**
 * What each request does to the server's state, as pure functions: the
 * specification the imperative `Server` class is proved against, and the
 * place where properties spanning several requests are stated.
 */
module Session {
  import opened Wrappers
  import opened Protocol
  import opened DocumentStore
  import opened ResultTable

  /** The server's state: open documents, the database handle, the completion engine. */
  datatype State = State(files: Files, db: Option<Handle>, completer: Option<Completer>)

  /** A new server: no documents, no database, no completer. */
  const Initial: State := State(map[], None, None)

  /** Handling one request: the new state, the reply, and the collaborator calls made, in order. */
  datatype Outcome = Outcome(state: State, reply: Result<Reply, Error>, effects: seq<Effect>)

  /** An error reply that leaves everything as it was. */
  function Refuse(st: State, e: Error): Outcome
  {
    Outcome(st, Failure(e), [])
  }

  /** An empty success reply with the new state and no collaborator call. */
  function Ack(st: State): Outcome
  {
    Outcome(st, Success(NoResult), [])
  }

  /** The outcome of a step that returns only an error or nil: refused with that error, or acknowledged. */
  function Settle(st: State, err: Option<Error>): Outcome
  {
    match err
    case None => Ack(st)
    case Some(e) => Refuse(st, e)
  }

  /** The error for params that do not decode into the shape method `name` expects. */
  function DecodeError(name: string, p: Params): Error
  {
    if p.Undecodable? then DecodeFailed(p.detail) else DecodeFailed("cannot decode params of " + name)
  }

  /** The handles a sequence of collaborator calls closes, in order. */
  function Closed(effects: seq<Effect>): seq<Handle>
  {
    if effects == [] then []
    else
      var last := effects[|effects| - 1];
      Closed(effects[..|effects| - 1]) + (if last.CloseCall? then [last.handle] else [])
  }

  /** The handle held, as a sequence of zero or one handle. */
  function Held(db: Option<Handle>): seq<Handle>
  {
    if db.Some? then [db.value] else []
  }

  /** Closing whatever is held: Close is called exactly when a handle is present. */
  function CloseHeld(db: Option<Handle>): (calls: seq<Effect>)
    ensures Closed(calls) == Held(db)
    ensures forall i :: 0 <= i < |calls| ==> calls[i].CloseCall?
  {
    if db.Some? then [CloseCall(db.value)] else []
  }

  /** A request the source can handle without panicking: didChange carries at least one change, didChangeConfiguration carries params. */
  predicate Dispatchable(req: Request)
  {
    && (req.name == DidChange && req.params.Some? && req.params.value.DidChangeParams? ==>
          |req.params.value.changes| > 0)
    && (req.name == DidChangeConfiguration ==> req.params.Some?)
  }

  function HandleInitialize(st: State, params: Option<Params>): (o: Outcome)
    ensures o.state == st && o.effects == []
    ensures params.None? ==> o.reply == Failure(InvalidParams)
    ensures o.reply.Success? <==> params == Some(InitializeParams)
    ensures o.reply.Success? ==> o.reply.value == InitializeResult(ServerCapabilities)
    ensures params.Some? && o.reply.Failure? ==> o.reply.error.DecodeFailed?
  {
    match params
    case None => Refuse(st, InvalidParams)
    case Some(InitializeParams) => Outcome(st, Success(InitializeResult(ServerCapabilities)), [])
    case Some(p) => Refuse(st, DecodeError(Initialize, p))
  }

  /** Shutdown closes the handle if one is held; it does not forget the handle or any document. */
  function HandleShutdown(st: State, params: Option<Params>): (o: Outcome)
    ensures o.state == st
    ensures params.None? ==> o == Refuse(st, InvalidParams)
    ensures params.Some? ==> o.reply == Success(NoResult) && Closed(o.effects) == Held(st.db)
    ensures forall i :: 0 <= i < |o.effects| ==> o.effects[i].CloseCall?
  {
    match params
    case None => Refuse(st, InvalidParams)
    case Some(_) => Outcome(st, Success(NoResult), CloseHeld(st.db))
  }

  /** didOpen: open the document with an empty text, then seed it with the sent text. */
  function HandleDidOpen(st: State, params: Option<Params>): (o: Outcome)
    ensures o.effects == [] && o.state.db == st.db && o.state.completer == st.completer
    ensures params.None? ==> o == Refuse(st, InvalidParams)
    ensures params.Some? && params.value.DidOpenParams? ==>
      var p := params.value;
      o == Ack(st.(files := st.files[p.uri := File(p.languageID, p.text)]))
    ensures params.Some? && !params.value.DidOpenParams? ==>
      o.state == st && o.reply.Failure? && o.reply.error.DecodeFailed?
  {
    match params
    case None => Refuse(st, InvalidParams)
    case Some(DidOpenParams(uri, languageID, text)) =>
      var seeded := Open(st.files, uri, languageID);
      OpenThenUpdate(st.files, uri, languageID, text);
      (match Update(seeded, uri, text)
       case Failure(e) => Outcome(st.(files := seeded), Failure(e), [])
       case Success(files) => Ack(st.(files := files)))
    case Some(p) => Refuse(st, DecodeError(DidOpen, p))
  }

  /** Replacing a document's text as updateFile does, turned into a reply. */
  function ApplyUpdate(st: State, uri: string, text: string): (o: Outcome)
    ensures o.effects == []
    ensures uri in st.files ==>
      o == Ack(st.(files := st.files[uri := File(st.files[uri].languageID, text)]))
    ensures uri !in st.files ==> o == Refuse(st, DocumentNotFound(uri))
  {
    match Update(st.files, uri, text)
    case Failure(e) => Refuse(st, e)
    case Success(files) =>
      assert files == st.files[uri := File(st.files[uri].languageID, text)];
      Ack(st.(files := files))
  }

  /** didChange: the first content change's text becomes the whole new text. */
  function HandleDidChange(st: State, params: Option<Params>): (o: Outcome)
    requires params.Some? && params.value.DidChangeParams? ==> |params.value.changes| > 0
    ensures o.effects == [] && o.state.db == st.db && o.state.completer == st.completer
    ensures params.None? ==> o == Refuse(st, InvalidParams)
    ensures params.Some? && params.value.DidChangeParams? ==>
      var p := params.value;
      && (p.uri in st.files ==>
            o == Ack(st.(files := st.files[p.uri := File(st.files[p.uri].languageID, p.changes[0])])))
      && (p.uri !in st.files ==> o == Refuse(st, DocumentNotFound(p.uri)))
    ensures params.Some? && !params.value.DidChangeParams? ==>
      o.state == st && o.reply.Failure? && o.reply.error.DecodeFailed?
  {
    match params
    case None => Refuse(st, InvalidParams)
    case Some(DidChangeParams(uri, changes)) => ApplyUpdate(st, uri, changes[0])
    case Some(p) => Refuse(st, DecodeError(DidChange, p))
  }

  /** didSave: a non-empty text is applied exactly as didChange would; an empty one changes nothing. */
  function HandleDidSave(st: State, params: Option<Params>): (o: Outcome)
    ensures o.effects == [] && o.state.db == st.db && o.state.completer == st.completer
    ensures params.None? ==> o == Refuse(st, InvalidParams)
    ensures params.Some? && params.value.DidSaveParams? ==>
      var p := params.value;
      && (p.text == "" ==> o == Ack(st))
      && (p.text != "" ==> o == HandleDidChange(st, Some(DidChangeParams(p.uri, [p.text]))))
    ensures params.Some? && !params.value.DidSaveParams? ==>
      o.state == st && o.reply.Failure? && o.reply.error.DecodeFailed?
  {
    match params
    case None => Refuse(st, InvalidParams)
    case Some(DidSaveParams(uri, text)) =>
      if text != "" then ApplyUpdate(st, uri, text)
      else Ack(st)
    case Some(p) => Refuse(st, DecodeError(DidSave, p))
  }

  /** didClose: forget the document, whether or not it was open; never an error. */
  function HandleDidClose(st: State, params: Option<Params>): (o: Outcome)
    ensures o.effects == [] && o.state.db == st.db && o.state.completer == st.completer
    ensures params.None? ==> o == Refuse(st, InvalidParams)
    ensures params.Some? && params.value.DidCloseParams? ==>
      && o.reply == Success(NoResult)
      && o.state.files.Keys == st.files.Keys - {params.value.uri}
      && forall u :: u in o.state.files ==> o.state.files[u] == st.files[u]
    ensures params.Some? && !params.value.DidCloseParams? ==>
      o.state == st && o.reply.Failure? && o.reply.error.DecodeFailed?
  {
    match params
    case None => Refuse(st, InvalidParams)
    case Some(DidCloseParams(uri)) => Ack(st.(files := Close(st.files, uri)))
    case Some(p) => Refuse(st, DecodeError(DidClose, p))
  }

  /**
   * completion: ask the completion engine about the document's current text;
   * an unknown document is an error and the engine is not called.
   */
  function HandleCompletion(st: State, params: Option<Params>, env: Env): (o: Outcome)
    ensures o.state == st
    ensures params.None? ==> o == Refuse(st, InvalidParams)
    ensures params.Some? && params.value.CompletionParams? ==>
      var p := params.value;
      && (p.uri !in st.files ==> o == Refuse(st, DocumentNotFound(p.uri)))
      && (p.uri in st.files ==>
            var text := st.files[p.uri].text;
            var answer := env.complete(st.completer, text, p.uri, p.position);
            && o.effects == [CompleteCall(st.completer, text, p.uri, p.position)]
            && (answer.Success? ==> o.reply == Success(Completions(answer.value)))
            && (answer.Failure? ==> o.reply == Failure(answer.error)))
    ensures params.Some? && !params.value.CompletionParams? ==>
      o == Refuse(st, DecodeError(Completion, params.value))
  {
    match params
    case None => Refuse(st, InvalidParams)
    case Some(CompletionParams(uri, position)) =>
      if uri !in st.files then Refuse(st, DocumentNotFound(uri))
      else
        var text := st.files[uri].text;
        var call := CompleteCall(st.completer, text, uri, position);
        (match env.complete(st.completer, text, uri, position)
         case Failure(e) => Outcome(st, Failure(e), [call])
         case Success(items) => Outcome(st, Success(Completions(items)), [call]))
    case Some(p) => Refuse(st, DecodeError(Completion, p))
  }

  /** The one command a code action offers: run the document as a query. */
  function QueryCommand(uri: string): Command
  {
    Command("Execute Query", ExecuteQueryCommand, [StringArg(uri)])
  }

  /** codeAction: always exactly one command, whatever the documents hold; no state is read or changed. */
  function HandleCodeAction(st: State, params: Option<Params>): (o: Outcome)
    ensures o.state == st && o.effects == []
    ensures params.None? ==> o.reply == Failure(InvalidParams)
    ensures params.Some? && params.value.CodeActionParams? ==>
      && o.reply.Success? && o.reply.value.Commands?
      && |o.reply.value.commands| == 1
      && o.reply.value.commands[0].title == "Execute Query"
      && o.reply.value.commands[0].command == ExecuteQueryCommand
      && o.reply.value.commands[0].arguments == [StringArg(params.value.uri)]
    ensures params.Some? && !params.value.CodeActionParams? ==> o.reply.Failure?
  {
    match params
    case None => Refuse(st, InvalidParams)
    case Some(CodeActionParams(uri)) => Outcome(st, Success(Commands([QueryCommand(uri)])), [])
    case Some(p) => Refuse(st, DecodeError(CodeAction, p))
  }

  /** The argument list names exactly one document, as a string. */
  predicate SingleUri(arguments: seq<Argument>)
  {
    |arguments| == 1 && arguments[0].StringArg?
  }

  /** The reply for what the database returned. */
  function QueryReply(q: Result<QueryResult, Error>): (r: Result<Reply, Error>)
    ensures q.Failure? ==> r == Failure(q.error)
    ensures q.Success? && q.value.NoRows? ==> r == Success(NoResult)
    ensures q.Success? && q.value.RowSet? && q.value.columns.Failure? ==> r == Failure(q.value.columns.error)
    ensures q.Success? && q.value.RowSet? && q.value.columns.Success? ==>
      var rendered := Render(q.value.columns.value, q.value.rows);
      && (r.Success? <==> rendered.Success?)
      && (r.Success? ==> r.value == Rendered(rendered.value))
      && (r.Failure? ==> r.error == rendered.error)
  {
    match q
    case Failure(e) => Failure(e)
    case Success(NoRows) => Success(NoResult)
    case Success(RowSet(Failure(e), _)) => Failure(e)
    case Success(RowSet(Success(columns), rows)) =>
      match Render(columns, rows)
      case Failure(e) => Failure(e)
      case Success(table) => Success(Rendered(table))
  }

  /**
   * executeQuery: a connection, then exactly one string argument, then an
   * open document, checked in that order; only then is the document's text
   * sent to the database. Nothing in the state changes.
   */
  function ExecuteQuery(st: State, command: string, arguments: seq<Argument>, env: Env): (o: Outcome)
    ensures o.state == st
    ensures st.db.None? ==> o == Refuse(st, ConnectionClosed)
    ensures st.db.Some? && !SingleUri(arguments) ==> o == Refuse(st, InvalidArguments(command))
    ensures st.db.Some? && SingleUri(arguments) && arguments[0].str !in st.files ==>
      o == Refuse(st, DocumentNotFound(arguments[0].str))
    ensures st.db.Some? && SingleUri(arguments) && arguments[0].str in st.files ==>
      var text := st.files[arguments[0].str].text;
      && o.effects == [QueryCall(st.db.value, text)]
      && o.reply == QueryReply(env.execute(st.db.value, text))
    ensures o.effects != [] <==> st.db.Some? && SingleUri(arguments) && arguments[0].str in st.files
  {
    if st.db.None? then Refuse(st, ConnectionClosed)
    else if |arguments| != 1 then Refuse(st, InvalidArguments(command))
    else if !arguments[0].StringArg? then Refuse(st, InvalidArguments(command))
    else
      var uri := arguments[0].str;
      if uri !in st.files then Refuse(st, DocumentNotFound(uri))
      else
        var text := st.files[uri].text;
        Outcome(st, QueryReply(env.execute(st.db.value, text)), [QueryCall(st.db.value, text)])
  }

  /** executeCommand: only executeQuery is supported; no command changes the state. */
  function HandleExecuteCommand(st: State, params: Option<Params>, env: Env): (o: Outcome)
    ensures o.state == st
    ensures params.None? ==> o == Refuse(st, InvalidParams)
    ensures params.Some? && params.value.ExecuteCommandParams? ==>
      var p := params.value;
      && (p.command != ExecuteQueryCommand ==> o == Refuse(st, UnsupportedCommand(p.command)))
      && (p.command == ExecuteQueryCommand ==> o == ExecuteQuery(st, p.command, p.arguments, env))
    ensures params.Some? && !params.value.ExecuteCommandParams? ==> o.reply.Failure? && o.effects == []
  {
    match params
    case None => Refuse(st, InvalidParams)
    case Some(ExecuteCommandParams(command, arguments)) =>
      if command == ExecuteQueryCommand then ExecuteQuery(st, command, arguments, env)
      else Refuse(st, UnsupportedCommand(command))
    case Some(p) => Refuse(st, DecodeError(ExecuteCommand, p))
  }

  /**
   * The part of didChangeConfiguration after the close: open the new handle,
   * then build and initialise its completion engine. A failed open stops
   * there, leaving no handle and the old engine.
   */
  function Connect(st: State, driver: string, dataSourceName: string, env: Env): (o: Outcome)
    ensures o.state.files == st.files
    ensures forall i :: 0 <= i < |o.effects| ==> !o.effects[i].CloseCall?
    ensures env.openDb(driver, dataSourceName).Some? ==>
      o == Outcome(st.(db := None), Failure(env.openDb(driver, dataSourceName).value), [OpenCall(driver, dataSourceName)])
    ensures env.openDb(driver, dataSourceName).None? ==>
      var engine := Completer(Handle(driver, dataSourceName));
      && o.state == st.(db := Some(Handle(driver, dataSourceName)), completer := Some(engine))
      && o.effects == [OpenCall(driver, dataSourceName), InitCall(engine)]
      && (o.reply.Success? <==> env.initCompleter(engine).None?)
      && (o.reply.Success? ==> o.reply.value == NoResult)
      && (o.reply.Failure? ==> o.reply.error == ConnectionInitFailed(env.initCompleter(engine).value))
  {
    match env.openDb(driver, dataSourceName)
    case Some(e) => Outcome(st.(db := None), Failure(e), [OpenCall(driver, dataSourceName)])
    case None =>
      var h := Handle(driver, dataSourceName);
      var engine := Completer(h);
      var calls := [OpenCall(driver, dataSourceName), InitCall(engine)];
      var st' := st.(db := Some(h), completer := Some(engine));
      match env.initCompleter(engine)
      case Some(e) => Outcome(st', Failure(ConnectionInitFailed(e)), calls)
      case None => Outcome(st', Success(NoResult), calls)
  }

  /**
   * didChangeConfiguration: close the held handle, open the new one and
   * rebuild the completion engine for it. A failed open leaves no handle;
   * a failed Init keeps the new handle and engine and reports the error
   * as a failed database connection.
   */
  function HandleDidChangeConfiguration(st: State, params: Option<Params>, env: Env): (o: Outcome)
    requires params.Some?
    ensures o.state.files == st.files
    ensures !params.value.DidChangeConfigurationParams? ==>
      o == Refuse(st, DecodeError(DidChangeConfiguration, params.value))
    ensures params.value.DidChangeConfigurationParams? ==>
      var p := params.value;
      var h := Handle(p.driver, p.dataSourceName);
      && Closed(o.effects) == Held(st.db)
      && (st.db.Some? ==> o.effects[0] == CloseCall(st.db.value))
      && OpenCall(p.driver, p.dataSourceName) in o.effects
      && (env.openDb(p.driver, p.dataSourceName).Some? ==>
            && o.state == st.(db := None)
            && o.reply == Failure(env.openDb(p.driver, p.dataSourceName).value))
      && (env.openDb(p.driver, p.dataSourceName).None? ==>
            && o.state == st.(db := Some(h), completer := Some(Completer(h)))
            && o.effects[|o.effects| - 1] == InitCall(Completer(h))
            && (o.reply.Success? <==> env.initCompleter(Completer(h)).None?)
            && (o.reply.Failure? ==>
                  o.reply.error == ConnectionInitFailed(env.initCompleter(Completer(h)).value)))
  {
    match params.value
    case DidChangeConfigurationParams(driver, dataSourceName) =>
      var c := Connect(st, driver, dataSourceName, env);
      ClosedAppend(CloseHeld(st.db), c.effects);
      NothingClosed(c.effects);
      Outcome(c.state, c.reply, CloseHeld(st.db) + c.effects)
    case p => Refuse(st, DecodeError(DidChangeConfiguration, p))
  }

  /** A failed open ends the reconfiguration: the close (if any) and the open are the only calls, so Init is never reached. */
  lemma FailedOpenSkipsInit(st: State, driver: string, dataSourceName: string, env: Env)
    requires env.openDb(driver, dataSourceName).Some?
    ensures HandleDidChangeConfiguration(st, Some(DidChangeConfigurationParams(driver, dataSourceName)), env).effects
      == CloseHeld(st.db) + [OpenCall(driver, dataSourceName)]
  {
  }

  /**
   * The dispatcher: route by method name. Unknown methods are refused with
   * MethodNotFound; `initialized` does nothing.
   */
  function Step(st: State, req: Request, env: Env): (o: Outcome)
    requires Dispatchable(req)
    ensures req.name !in KnownMethods ==> o == Refuse(st, MethodNotFound(req.name))
    ensures req.name in ParamMethods && req.params.None? ==> o == Refuse(st, InvalidParams)
    ensures req.name == Initialized ==> o == Ack(st)
    ensures o.state.files != st.files ==> req.name in {DidOpen, DidChange, DidSave, DidClose}
    ensures o.state.db != st.db || o.state.completer != st.completer ==> req.name == DidChangeConfiguration
    ensures o.reply.Failure? && req.name != DidChangeConfiguration ==> o.state == st
  {
    var m := req.name;
    if m == Initialize then HandleInitialize(st, req.params)
    else if m == Initialized then Ack(st)
    else if m == Shutdown then HandleShutdown(st, req.params)
    else if m == DidOpen then HandleDidOpen(st, req.params)
    else if m == DidChange then HandleDidChange(st, req.params)
    else if m == DidSave then HandleDidSave(st, req.params)
    else if m == DidClose then HandleDidClose(st, req.params)
    else if m == Completion then HandleCompletion(st, req.params, env)
    else if m == CodeAction then HandleCodeAction(st, req.params)
    else if m == ExecuteCommand then HandleExecuteCommand(st, req.params, env)
    else if m == DidChangeConfiguration then HandleDidChangeConfiguration(st, req.params, env)
    else Refuse(st, MethodNotFound(m))
  }

  /** Calls that include no Close close nothing. */
  lemma {:induction false} NothingClosed(effects: seq<Effect>)
    requires forall i :: 0 <= i < |effects| ==> !effects[i].CloseCall?
    ensures Closed(effects) == []
  {
    if effects != [] {
      NothingClosed(effects[..|effects| - 1]);
    }
  }

  lemma {:induction false} ClosedAppend(a: seq<Effect>, b: seq<Effect>)
    ensures Closed(a + b) == Closed(a) + Closed(b)
    decreases |b|
  {
    if b == [] {
      assert a + b == a;
    } else {
      var init := b[..|b| - 1];
      assert (a + b)[..|a + b| - 1] == a + init;
      ClosedAppend(a, init);
    }
  }
}
