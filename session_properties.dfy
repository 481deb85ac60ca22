/**
 * Properties of the server that span several requests: how document
 * notifications compose, that an advertised command or capability is
 * actually served, and how reconfiguration swaps the database handle.
 */
module SessionProperties {
  import opened Wrappers
  import opened Protocol
  import opened DocumentStore
  import opened Session

  function Change(uri: string, text: string): Request
  {
    Request(DidChange, Some(DidChangeParams(uri, [text])))
  }

  function Configure(driver: string, dataSourceName: string): Request
  {
    Request(DidChangeConfiguration, Some(DidChangeConfigurationParams(driver, dataSourceName)))
  }

  function RunQuery(uri: string): Request
  {
    Request(ExecuteCommand, Some(ExecuteCommandParams(ExecuteQueryCommand, [StringArg(uri)])))
  }

  /** Two changes in a row leave exactly what the second alone would: full replacement, not merge. */
  lemma ChangeTwiceKeepsLast(st: State, uri: string, t1: string, t2: string, env: Env)
    ensures var first := Step(st, Change(uri, t1), env);
      Step(first.state, Change(uri, t2), env).state == Step(st, Change(uri, t2), env).state
  {
    if uri in st.files {
      UpdateTwiceKeepsLast(st.files, uri, t1, t2);
    }
  }

  /** open, change to t1, change to t2: the document holds t2 under the language it was opened with. */
  lemma OpenChangeChange(st: State, uri: string, lang: string, t0: string, t1: string, t2: string, env: Env)
    ensures
      var seeded := Step(st, Request(DidOpen, Some(DidOpenParams(uri, lang, t0))), env);
      var changed := Step(seeded.state, Change(uri, t1), env);
      var last := Step(changed.state, Change(uri, t2), env);
      && seeded.reply.Success? && changed.reply.Success? && last.reply.Success?
      && last.state.files == st.files[uri := File(lang, t2)]
  {
    var seeded := Step(st, Request(DidOpen, Some(DidOpenParams(uri, lang, t0))), env);
    assert seeded.state.files == st.files[uri := File(lang, t0)];
    var changed := Step(seeded.state, Change(uri, t1), env);
    assert changed.state.files == st.files[uri := File(lang, t1)];
  }

  /** Closing twice, or closing what was never opened, never fails; the second close changes nothing. */
  lemma CloseTwice(st: State, uri: string, env: Env)
    ensures
      var close := Request(DidClose, Some(DidCloseParams(uri)));
      var once := Step(st, close, env);
      var twice := Step(once.state, close, env);
      && once.reply.Success? && twice.reply.Success?
      && twice.state == once.state
      && uri !in once.state.files
  {
    var close := Request(DidClose, Some(DidCloseParams(uri)));
    var once := Step(st, close, env);
    var twice := Step(once.state, close, env);
    assert twice.state.files == once.state.files;
  }

  /**
   * The command a code action offers is one the server executes: sent back
   * through executeCommand on an open document with a connection, it reaches
   * the database with that document's text.
   */
  lemma CodeActionCommandRuns(st: State, uri: string, env: Env)
    requires st.db.Some? && uri in st.files
    ensures
      var offered := Step(st, Request(CodeAction, Some(CodeActionParams(uri))), env);
      && offered.reply.Success?
      && var cmd := offered.reply.value.commands[0];
      var run := Step(st, Request(ExecuteCommand, Some(ExecuteCommandParams(cmd.command, cmd.arguments))), env);
      && run.effects == [QueryCall(st.db.value, st.files[uri].text)]
      && run.reply == QueryReply(env.execute(st.db.value, st.files[uri].text))
  {
  }

  /**
   * The capability set matches the dispatcher: what it advertises is
   * handled, and what it declines (hover, definition, formatting) is refused
   * as an unknown method.
   */
  lemma CapabilitiesMatchHandlers(st: State, params: Option<Params>, uri: string, pos: Position, env: Env)
    ensures SyncCode(ServerCapabilities.textDocumentSync) == 1
    ensures ServerCapabilities.completionTriggers.Some?
    ensures Step(st, Request(Completion, Some(CompletionParams(uri, pos))), env) ==
      HandleCompletion(st, Some(CompletionParams(uri, pos)), env)
    ensures ServerCapabilities.codeActionProvider
    ensures Step(st, Request(CodeAction, Some(CodeActionParams(uri))), env).reply ==
      Success(Commands([QueryCommand(uri)]))
    ensures !ServerCapabilities.hoverProvider &&
      Step(st, Request("textDocument/hover", params), env).reply == Failure(MethodNotFound("textDocument/hover"))
    ensures !ServerCapabilities.definitionProvider &&
      Step(st, Request("textDocument/definition", params), env).reply == Failure(MethodNotFound("textDocument/definition"))
    ensures !ServerCapabilities.documentFormattingProvider &&
      Step(st, Request("textDocument/formatting", params), env).reply == Failure(MethodNotFound("textDocument/formatting"))
    ensures !ServerCapabilities.documentRangeFormattingProvider &&
      Step(st, Request("textDocument/rangeFormatting", params), env).reply == Failure(MethodNotFound("textDocument/rangeFormatting"))
  {
  }

  /**
   * Every method name reaches its own handler; a name outside the switch is
   * refused as an unknown method.
   */
  lemma StepRoutes(st: State, ps: Option<Params>, env: Env)
    ensures Step(st, Request(Initialize, ps), env) == HandleInitialize(st, ps)
    ensures Step(st, Request(Initialized, ps), env) == Ack(st)
    ensures Step(st, Request(Shutdown, ps), env) == HandleShutdown(st, ps)
    ensures Step(st, Request(DidOpen, ps), env) == HandleDidOpen(st, ps)
    ensures Dispatchable(Request(DidChange, ps)) ==>
      Step(st, Request(DidChange, ps), env) == HandleDidChange(st, ps)
    ensures Step(st, Request(DidSave, ps), env) == HandleDidSave(st, ps)
    ensures Step(st, Request(DidClose, ps), env) == HandleDidClose(st, ps)
    ensures Step(st, Request(Completion, ps), env) == HandleCompletion(st, ps, env)
    ensures Step(st, Request(CodeAction, ps), env) == HandleCodeAction(st, ps)
    ensures Step(st, Request(ExecuteCommand, ps), env) == HandleExecuteCommand(st, ps, env)
    ensures ps.Some? ==>
      Step(st, Request(DidChangeConfiguration, ps), env) == HandleDidChangeConfiguration(st, ps, env)
  {
  }

  /** `initialize` with its params answers the fixed capability set and changes nothing. */
  lemma InitializeAnswersCapabilities(st: State, env: Env)
    ensures Step(st, Request(Initialize, Some(InitializeParams)), env) ==
      Outcome(st, Success(InitializeResult(ServerCapabilities)), [])
  {
  }

  /** `didSave` with a non-empty text on an open document makes that text the document's text. */
  lemma SaveSetsText(st: State, uri: string, text: string, env: Env)
    requires uri in st.files && text != ""
    ensures var o := Step(st, Request(DidSave, Some(DidSaveParams(uri, text))), env);
      && o.reply == Success(NoResult)
      && o.state == st.(files := st.files[uri := File(st.files[uri].languageID, text)])
      && o.effects == []
  {
  }

  /** `textDocument/completion` is answered by the completion handler. */
  lemma CompletionRoutesToEngine(st: State, uri: string, pos: Position, env: Env)
    requires uri in st.files
    ensures var o := Step(st, Request(Completion, Some(CompletionParams(uri, pos))), env);
      var answer := env.complete(st.completer, st.files[uri].text, uri, pos);
      && o.effects == [CompleteCall(st.completer, st.files[uri].text, uri, pos)]
      && o.state == st
      && (answer.Success? ==> o.reply == Success(Completions(answer.value)))
      && (answer.Failure? ==> o.reply == Failure(answer.error))
  {
  }

  /** Before any configuration a query fails with "connection is closed" and reaches no database. */
  lemma QueryBeforeConfiguration(uri: string, env: Env)
    ensures Step(Initial, RunQuery(uri), env) == Refuse(Initial, ConnectionClosed)
  {
  }

  /**
   * Configure D1/L1, then D2/L2, then run a query: the query goes to the
   * D2/L2 handle, and among all calls made the D1/L1 handle is closed
   * exactly once (and nothing else is, on a fresh server).
   */
  lemma ReconfigureThenQuery(uri: string, text: string, d1: string, l1: string, d2: string, l2: string, env: Env)
    requires env.openDb(d1, l1).None? && env.openDb(d2, l2).None?
    requires env.initCompleter(Completer(Handle(d1, l1))).None?
    requires env.initCompleter(Completer(Handle(d2, l2))).None?
    ensures
      var st := Initial.(files := map[uri := File("sql", text)]);
      var first := Step(st, Configure(d1, l1), env);
      var second := Step(first.state, Configure(d2, l2), env);
      var query := Step(second.state, RunQuery(uri), env);
      && first.reply.Success? && second.reply.Success?
      && second.state.db == Some(Handle(d2, l2))
      && query.effects == [QueryCall(Handle(d2, l2), text)]
      && Closed(first.effects + second.effects + query.effects) == [Handle(d1, l1)]
  {
    var st := Initial.(files := map[uri := File("sql", text)]);
    var first := Step(st, Configure(d1, l1), env);
    var second := Step(first.state, Configure(d2, l2), env);
    var query := Step(second.state, RunQuery(uri), env);
    assert Closed(query.effects) == [] by {
      assert query.effects == [QueryCall(Handle(d2, l2), text)];
      assert Closed(query.effects) == Closed([]) + [];
    }
    ClosedAppend(first.effects, second.effects);
    ClosedAppend(first.effects + second.effects, query.effects);
  }

  /** Shutdown keeps every document and the handle it closes; a second shutdown closes that handle again. */
  lemma ShutdownTwice(st: State, p: Params, env: Env)
    ensures
      var down := Request(Shutdown, Some(p));
      var once := Step(st, down, env);
      var twice := Step(once.state, down, env);
      && once.state == st && twice.state == st
      && Closed(once.effects + twice.effects) == Held(st.db) + Held(st.db)
  {
    var down := Request(Shutdown, Some(p));
    ClosedAppend(Step(st, down, env).effects, Step(st, down, env).effects);
  }
}
