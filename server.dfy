/**
 * The language server's session object: the open documents, the database
 * handle and the completion engine, updated in place by the request
 * handlers. Every handler is proved to do exactly what the matching
 * function of `Session` says; `trace` records the calls into collaborators.
 */
module LanguageServer {
  import opened Wrappers
  import opened Protocol
  import opened DocumentStore
  import opened ResultTable
  import Session

  class Server {
    var files: Files
    var db: Option<Handle>
    var completer: Option<Completer>
    /** Every call the server has made into the database or the completion engine, in order. */
    ghost var trace: seq<Effect>

    /** The server's state as a value. */
    function State(): Session.State
      reads this
    {
      Session.State(files, db, completer)
    }

    constructor ()
      ensures State() == Session.Initial && trace == []
    {
      files := map[];
      db := None;
      completer := None;
      trace := [];
    }

    /** Build the completion engine for the current handle and initialise it. */
    method Init(env: Env) returns (err: Option<Error>)
      requires db.Some?
      modifies this`completer, this`trace
      ensures completer == Some(Completer(db.value))
      ensures err == env.initCompleter(Completer(db.value))
      ensures trace == old(trace) + [InitCall(Completer(db.value))]
    {
      completer := Some(Completer(db.value));
      err := env.initCompleter(completer.value);
      trace := trace + [InitCall(completer.value)];
    }

    method OpenFile(uri: string, languageID: string) returns (err: Option<Error>)
      modifies this`files
      ensures files == Open(old(files), uri, languageID)
      ensures err == None
    {
      files := files[uri := File(languageID, "")];
      err := None;
    }

    method CloseFile(uri: string) returns (err: Option<Error>)
      modifies this`files
      ensures files == Close(old(files), uri)
      ensures err == None
    {
      files := files - {uri};
      err := None;
    }

    method UpdateFile(uri: string, text: string) returns (err: Option<Error>)
      modifies this`files
      ensures Update(old(files), uri, text).Success? ==> files == Update(old(files), uri, text).value && err == None
      ensures Update(old(files), uri, text).Failure? ==> files == old(files) && err == Some(Update(old(files), uri, text).error)
    {
      if uri !in files {
        return Some(DocumentNotFound(uri));
      }
      files := files[uri := files[uri].(text := text)];
      err := None;
    }

    /** Saving persists nothing and always succeeds. */
    method SaveFile(uri: string) returns (err: Option<Error>)
      ensures err == None
    {
      err := None;
    }

    method HandleInitialize(params: Option<Params>) returns (r: Result<Reply, Error>)
      ensures r == Session.HandleInitialize(State(), params).reply
    {
      if params.None? {
        return Failure(InvalidParams);
      }
      if params.value != InitializeParams {
        return Failure(Session.DecodeError(Initialize, params.value));
      }
      r := Success(InitializeResult(ServerCapabilities));
    }

    method HandleShutdown(params: Option<Params>) returns (r: Result<Reply, Error>)
      modifies this`trace
      ensures var o := Session.HandleShutdown(old(State()), params);
        State() == o.state && r == o.reply && trace == old(trace) + o.effects
    {
      if params.None? {
        return Failure(InvalidParams);
      }
      if db.Some? {
        trace := trace + [CloseCall(db.value)];
      }
      r := Success(NoResult);
    }

    method HandleDidOpen(params: Option<Params>) returns (r: Result<Reply, Error>)
      modifies this`files
      ensures var o := Session.HandleDidOpen(old(State()), params);
        State() == o.state && r == o.reply && trace == old(trace) + o.effects
    {
      if params.None? {
        return Failure(InvalidParams);
      }
      if !params.value.DidOpenParams? {
        return Failure(Session.DecodeError(DidOpen, params.value));
      }
      var p := params.value;
      var err := OpenFile(p.uri, p.languageID);
      if err.None? {
        err := UpdateFile(p.uri, p.text);
      }
      r := Session.Settle(State(), err).reply;
    }

    method HandleDidChange(params: Option<Params>) returns (r: Result<Reply, Error>)
      requires params.Some? && params.value.DidChangeParams? ==> |params.value.changes| > 0
      modifies this`files
      ensures var o := Session.HandleDidChange(old(State()), params);
        State() == o.state && r == o.reply && trace == old(trace) + o.effects
    {
      if params.None? {
        return Failure(InvalidParams);
      }
      if !params.value.DidChangeParams? {
        return Failure(Session.DecodeError(DidChange, params.value));
      }
      var p := params.value;
      var err := UpdateFile(p.uri, p.changes[0]);
      r := Session.Settle(State(), err).reply;
    }

    method HandleDidSave(params: Option<Params>) returns (r: Result<Reply, Error>)
      modifies this`files
      ensures var o := Session.HandleDidSave(old(State()), params);
        State() == o.state && r == o.reply && trace == old(trace) + o.effects
    {
      if params.None? {
        return Failure(InvalidParams);
      }
      if !params.value.DidSaveParams? {
        return Failure(Session.DecodeError(DidSave, params.value));
      }
      var p := params.value;
      var err;
      if p.text != "" {
        err := UpdateFile(p.uri, p.text);
      } else {
        err := SaveFile(p.uri);
      }
      r := Session.Settle(State(), err).reply;
    }

    method HandleDidClose(params: Option<Params>) returns (r: Result<Reply, Error>)
      modifies this`files
      ensures var o := Session.HandleDidClose(old(State()), params);
        State() == o.state && r == o.reply && trace == old(trace) + o.effects
    {
      if params.None? {
        return Failure(InvalidParams);
      }
      if !params.value.DidCloseParams? {
        return Failure(Session.DecodeError(DidClose, params.value));
      }
      var err := CloseFile(params.value.uri);
      r := Session.Settle(State(), err).reply;
    }

    method HandleCompletion(params: Option<Params>, env: Env) returns (r: Result<Reply, Error>)
      modifies this`trace
      ensures var o := Session.HandleCompletion(old(State()), params, env);
        State() == o.state && r == o.reply && trace == old(trace) + o.effects
    {
      if params.None? {
        return Failure(InvalidParams);
      }
      if !params.value.CompletionParams? {
        return Failure(Session.DecodeError(Completion, params.value));
      }
      var p := params.value;
      if p.uri !in files {
        return Failure(DocumentNotFound(p.uri));
      }
      var f := files[p.uri];
      var items := env.complete(completer, f.text, p.uri, p.position);
      trace := trace + [CompleteCall(completer, f.text, p.uri, p.position)];
      if items.Failure? {
        return Failure(items.error);
      }
      r := Success(Completions(items.value));
    }

    method HandleCodeAction(params: Option<Params>) returns (r: Result<Reply, Error>)
      ensures r == Session.HandleCodeAction(State(), params).reply
    {
      if params.None? {
        return Failure(InvalidParams);
      }
      if !params.value.CodeActionParams? {
        return Failure(Session.DecodeError(CodeAction, params.value));
      }
      var commands := [Session.QueryCommand(params.value.uri)];
      r := Success(Commands(commands));
    }

    method HandleDidChangeConfiguration(params: Option<Params>, env: Env) returns (r: Result<Reply, Error>)
      requires params.Some?
      modifies this
      ensures var o := Session.HandleDidChangeConfiguration(old(State()), params, env);
        State() == o.state && r == o.reply && trace == old(trace) + o.effects
    {
      if !params.value.DidChangeConfigurationParams? {
        return Failure(Session.DecodeError(DidChangeConfiguration, params.value));
      }
      var p := params.value;
      ghost var st := State();
      ghost var c := Session.Connect(st, p.driver, p.dataSourceName, env);
      assert Session.HandleDidChangeConfiguration(st, params, env) ==
        Session.Outcome(c.state, c.reply, Session.CloseHeld(st.db) + c.effects);
      if db.Some? {
        trace := trace + [CloseCall(db.value)];
      }
      assert trace == old(trace) + Session.CloseHeld(st.db);
      r := Connect(p.driver, p.dataSourceName, env);
    }

    /** Open the new handle, then build and initialise its engine. */
    method Connect(driver: string, dataSourceName: string, env: Env) returns (r: Result<Reply, Error>)
      modifies this`db, this`completer, this`trace
      ensures var o := Session.Connect(old(State()), driver, dataSourceName, env);
        State() == o.state && r == o.reply && trace == old(trace) + o.effects
    {
      trace := trace + [OpenCall(driver, dataSourceName)];
      var openErr := env.openDb(driver, dataSourceName);
      if openErr.Some? {
        db := None;
        return Failure(openErr.value);
      }
      db := Some(Protocol.Handle(driver, dataSourceName));
      var err := Init(env);
      if err.Some? {
        return Failure(ConnectionInitFailed(err.value));
      }
      r := Success(NoResult);
    }

    method ExecuteQuery(command: string, arguments: seq<Argument>, env: Env) returns (r: Result<Reply, Error>)
      modifies this`trace
      ensures var o := Session.ExecuteQuery(old(State()), command, arguments, env);
        State() == o.state && r == o.reply && trace == old(trace) + o.effects
    {
      if db.None? {
        return Failure(ConnectionClosed);
      }
      if |arguments| != 1 {
        return Failure(InvalidArguments(command));
      }
      if !arguments[0].StringArg? {
        return Failure(InvalidArguments(command));
      }
      var uri := arguments[0].str;
      if uri !in files {
        return Failure(DocumentNotFound(uri));
      }
      var f := files[uri];
      var v := env.execute(db.value, f.text);
      trace := trace + [QueryCall(db.value, f.text)];
      if v.Failure? {
        return Failure(v.error);
      }
      if v.value.NoRows? {
        return Success(NoResult);
      }
      if v.value.columns.Failure? {
        return Failure(v.value.columns.error);
      }
      var table := BuildTable(v.value.columns.value, v.value.rows);
      if table.Failure? {
        return Failure(table.error);
      }
      r := Success(Rendered(table.value));
    }

    method HandleExecuteCommand(params: Option<Params>, env: Env) returns (r: Result<Reply, Error>)
      modifies this`trace
      ensures var o := Session.HandleExecuteCommand(old(State()), params, env);
        State() == o.state && r == o.reply && trace == old(trace) + o.effects
    {
      if params.None? {
        return Failure(InvalidParams);
      }
      if !params.value.ExecuteCommandParams? {
        return Failure(Session.DecodeError(ExecuteCommand, params.value));
      }
      var p := params.value;
      if p.command == ExecuteQueryCommand {
        r := ExecuteQuery(p.command, p.arguments, env);
        return;
      }
      r := Failure(UnsupportedCommand(p.command));
    }

    /** The dispatcher: route the request to its handler by method name. */
    method Handle(req: Request, env: Env) returns (r: Result<Reply, Error>)
      requires Session.Dispatchable(req)
      modifies this
      ensures var o := Session.Step(old(State()), req, env);
        State() == o.state && r == o.reply && trace == old(trace) + o.effects
    {
      var m := req.name;
      if m == Initialize {
        r := HandleInitialize(req.params);
      } else if m == Initialized {
        r := Success(NoResult);
      } else if m == Shutdown {
        r := HandleShutdown(req.params);
      } else if m == DidOpen {
        r := HandleDidOpen(req.params);
      } else if m == DidChange {
        r := HandleDidChange(req.params);
      } else if m == DidSave {
        r := HandleDidSave(req.params);
      } else if m == DidClose {
        r := HandleDidClose(req.params);
      } else if m == Completion {
        r := HandleCompletion(req.params, env);
      } else if m == CodeAction {
        r := HandleCodeAction(req.params);
      } else if m == ExecuteCommand {
        r := HandleExecuteCommand(req.params, env);
      } else if m == DidChangeConfiguration {
        r := HandleDidChangeConfiguration(req.params, env);
      } else {
        r := Failure(MethodNotFound(m));
      }
    }
  }
}
