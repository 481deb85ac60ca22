# sqls session layer in Dafny

This project models the session layer of `sqls`, a SQL language server that talks to
an editor over the Language Server Protocol (JSON-RPC 2.0). The model covers the
`Server` object of `handler.go`:
- the documents the editor has open: a map from URI to language identifier and full text;
- the optional database handle;
- the completion engine built for that handle;
- the request handlers that read and update these three.

Layout, one module per concern:

- `Wrappers` (`wrappers.dfy`): `Option` and `Result`.
- `Protocol` (`protocol.dfy`): requests with already-decoded params, replies, errors
  and their messages and JSON-RPC codes, the capability set, the query-result shape
  `NoRows | RowSet(columns, rows)`, and `Env`. `Env` holds the collaborators'
  answers as functions: `database.Open`, `Completer.Init`, `ExecuteQuery` and
  `complete`. `Effect` records one call into a collaborator.
- `DocumentStore` (`document_store.dfy`): `openFile`, `updateFile` and `closeFile`
  as functions on the document map.
- `ResultTable` (`result_table.dfy`): how a row set becomes the header plus the cell
  rows handed to the table writer. `NULL` stands for an absent value, and a scan
  error aborts the whole table. The two loops of `executeQuery` are methods
  (`RenderCells`, `BuildTable`), each proved against the function that specifies it.
- `Session` (`session.dfy`): every handler and the dispatcher `handle` as pure
  functions from a state value to an `Outcome`. An outcome holds the new state, the
  reply and the collaborator calls made, in order.
- `SessionProperties` (`session_properties.dfy`): properties that span several requests.
- `LanguageServer` (`server.dfy`): the class `Server`. Its fields are `files`, `db`
  and `completer`, plus a ghost `trace` of collaborator calls. Each handler updates
  the fields in place, as the Go code does, and is proved to produce exactly the
  outcome that the matching `Session` function gives.

The database is modelled as a value: a `Handle` is the driver and data source it was
opened with. A `Close` call appears as a `CloseCall` in the trace, and `Env.openDb`
and `Env.initCompleter` give the outcomes of opening and initialising.

Behaviour of `handler.go` worth knowing, which the model keeps:
- `didSave` compares the text with `""`. The Language Server Protocol makes the saved
  text optional, so a save without text, or with an empty text, is a no-op
  (handler.go:161).
- The Language Server Protocol defines `shutdown` without params, but `handler.go`
  answers `InvalidParams` when the request has none (handler.go:106).
- `shutdown` closes the handle but does not clear `db`. A query after shutdown passes
  the "connection is closed" check, and a second shutdown closes the same handle again
  (`ShutdownTwice`).
- When `database.Open` fails, `db` takes whatever `Open` returned (the model takes
  that to be no handle, see "Left out"), but `completer` stays the engine built for
  the closed handle (handler.go:266-272).
- When `Init` fails, the new handle and its engine stay installed (handler.go:274-276).
- `executeQuery` renders a table only when `ExecuteQuery` returns the struct `sql.Rows`
  by value (handler.go:299-302). A `*sql.Rows` fails the type assertion `v.(sql.Rows)`,
  and the handler then answers with an empty result. `database/sql`'s query calls
  return `*sql.Rows`, so whether the rendering path is ever reached depends on
  `ExecuteQuery`, which is not part of this model. The rendering properties
  (`ResultTable`, `Session.QueryReply`) hold for `RowSet` results, whatever produces them.

## Model

| member | source | states |
|---|---|---|
| Protocol.Code | handler.go:77-82 | only InvalidParams and MethodNotFound carry a JSON-RPC code, -32602 and -32601 (section 5.1 of JSON-RPC 2.0) |
| Protocol.MessageNamesCulprit | handler.go:275-293 | the failed-connection, invalid-arguments and document-not-found messages end with the wrapped message, command or URI they are about (so do the method-not-found and unsupported-command messages of lines 77 and 351) |
| Protocol.Message | handler.go:270-295 | the text of each error is the source's format string with its culprit (method, URI, command) filled in; a failed connection wraps the cause's own text; InvalidParams carries no text |
| DocumentStore.Open | handler.go:210-217 | opening creates or overwrites exactly the one entry, with the language and an empty text; other entries are untouched |
| DocumentStore.Update | handler.go:224-231 | fails with document-not-found exactly when the URI is not open; otherwise replaces only that entry's text, keeping its language and every other entry |
| DocumentStore.Close | handler.go:219-222 | removes only the given URI, never fails, keeps every other entry |
| DocumentStore.UpdateTwiceKeepsLast | handler.go:224-231 | two updates equal the second alone (full replacement, not merge) |
| DocumentStore.OpenThenUpdate | handler.go:126-131 | an update right after an open always succeeds and leaves (language, text) |
| DocumentStore.CloseIdempotent | handler.go:219-222 | closing twice equals closing once |
| DocumentStore.UpdateAfterClose | handler.go:219-231 | after a close, an update of that URI fails with document-not-found |
| ResultTable.Cell | handler.go:324-328 | an absent value is written as NULL, a present one as its raw text |
| ResultTable.Scan | handler.go:312-321 | a row scans into one value per column exactly when it has one value per column; a failed row yields its own scan error; a row of the wrong width yields the arity error naming its width and the column count |
| ResultTable.Cells | handler.go:322-329 | one cell per value, in order, each NULL for an absent value and the raw text otherwise |
| ResultTable.Tabulate | handler.go:317-331 | succeeds iff every row scans, then with one row of one-cell-per-column per data row; otherwise fails with the error of the first failing row |
| ResultTable.Render | handler.go:308-331 | the table exists iff every row scans; its header is the column list and it has one `Cells` row per data row; otherwise the error of the first failing row |
| ResultTable.RenderCells | handler.go:322-329 | the inner append loop produces exactly `Cells` of the scanned values |
| ResultTable.BuildTable | handler.go:308-333 | the outer `rows.Next()` loop produces exactly the header plus `Tabulate`'s rows, or the first scan error and no table |
| ResultTable.TabulateAbortsOnPrefix | handler.go:317-321 | once a prefix of the rows fails, consuming more rows does not change the error |
| ResultTable.RenderedCells | handler.go:310-330 | the header is the column list; every data row has one cell per column, NULL for absent values, the raw text otherwise |
| ResultTable.RenderAborts | handler.go:317-321 | a scan failure on any row yields no table, with the first failing row's error |
| ResultTable.ExampleTable | handler.go:303-331 | columns [id, name] with rows (1, a), (2, NULL) render as header id, name and rows [1, a], [2, NULL] |
| Session.CloseHeld | handler.go:263-265 | Close is called once exactly when a handle is held, and nothing else is called |
| Session.HandleInitialize | handler.go:80-103 | no params gives InvalidParams; success iff params decode, answering the fixed capability set; nothing changes |
| Session.HandleShutdown | handler.go:105-114 | no params gives InvalidParams; otherwise the held handle (if any) is closed and the state (documents, handle) is unchanged |
| Session.HandleDidOpen | handler.go:116-133 | with params, the document becomes (language, text) whatever was there, and the notification never fails |
| Session.ApplyUpdate | handler.go:145-148 | an open document gets the new text under its old language; an unknown one gives document-not-found and no change |
| Session.HandleDidChange | handler.go:135-149 | the first content change's text replaces the whole text of an open document; unknown URI gives document-not-found and no change |
| Session.HandleDidSave | handler.go:151-170 | a non-empty text behaves exactly like didChange with that text; an empty text changes nothing and succeeds |
| Session.HandleDidClose | handler.go:172-186 | removes only that URI, never fails, even when the URI was not open |
| Session.HandleCompletion | handler.go:188-208 | unknown document gives document-not-found with no engine call; otherwise one engine call on the current text, the URI and the position, whose answer or error is returned as is; state unchanged |
| Session.HandleCodeAction | handler.go:237-255 | exactly one command ("Execute Query", executeQuery, [uri]); no state read or changed |
| Session.QueryReply | handler.go:295-306 | a database error and a column-fetch error propagate as is; a result whose dynamic type is not the struct `sql.Rows` (including a `*sql.Rows`, modelled as `NoRows`) gives an empty reply; a `sql.Rows` value (`RowSet`) gives the rendered table or the first scan error |
| Session.ExecuteQuery | handler.go:280-335 | checks no connection, then argument count/type, then document, in that order; only then one query on the held handle with the document text; never changes state |
| Session.HandleExecuteCommand | handler.go:337-352 | any command other than executeQuery gives unsupported-command; no command changes state |
| Session.Connect | handler.go:266-277 | the open is called first; a failed open stops there with its error, no handle and the old engine; otherwise Init is called on the engine for the new handle, whose error is wrapped as a failed database connection; no Close is called and documents never change |
| Session.HandleDidChangeConfiguration | handler.go:257-278 | the held handle is closed exactly once and before the open; a failed open is returned as is and leaves no handle; a failed Init is wrapped as a failed database connection; on success the new handle and its engine are installed; documents never change |
| Session.FailedOpenSkipsInit | handler.go:266-272 | when the open fails, the only calls made are the close of the held handle (if any) and the open: the engine's Init is never reached |
| Session.NothingClosed | handler.go:266-277 | calls that contain no Close close no handle, so the open-and-init half of reconfiguration adds nothing to the closed handles |
| Session.Step | handler.go:47-78 | unknown method gives MethodNotFound with that name; absent params give InvalidParams for every parameter-taking method with no state change; `initialized` does nothing; only document notifications change documents, only reconfiguration changes handle or engine, and no other failing request changes state |
| SessionProperties.ChangeTwiceKeepsLast | handler.go:135-149 | two didChange notifications leave the state the second alone would |
| SessionProperties.OpenChangeChange | handler.go:116-149 | open, change to t1, change to t2 all succeed and leave (language, t2) |
| SessionProperties.CloseTwice | handler.go:172-186 | closing twice never fails and the second close changes nothing |
| SessionProperties.CodeActionCommandRuns | handler.go:247-295 | the command a code action offers passes executeCommand's checks and queries the document's text on the held handle |
| SessionProperties.CapabilitiesMatchHandlers | handler.go:90-102 | full sync (wire value 1), completion and code actions are advertised; a completion request reaches the completion handler and a code action request is answered with the executeQuery command; hover, definition and formatting are declined and answered MethodNotFound |
| SessionProperties.StepRoutes | handler.go:48-75 | each of the eleven method names reaches its own handler with the request's params |
| SessionProperties.InitializeAnswersCapabilities | handler.go:49-50 | initialize with its params answers the fixed capability set, changes nothing and calls nothing |
| SessionProperties.SaveSetsText | handler.go:59-60 | didSave with a non-empty text on an open document succeeds and makes that text the document's text under its old language, calling nothing |
| SessionProperties.CompletionRoutesToEngine | handler.go:63-64 | completion on an open document makes exactly one engine call on the document's text, URI and position and answers with the engine's items or error |
| SessionProperties.QueryBeforeConfiguration | handler.go:281-283 | on a new server a query fails with connection-is-closed and reaches no database |
| SessionProperties.ReconfigureThenQuery | handler.go:257-295 | after configuring D1/L1 then D2/L2, a query runs on the D2/L2 handle and the D1/L1 handle has been closed exactly once |
| SessionProperties.ShutdownTwice | handler.go:105-114 | shutdown keeps all state; two shutdowns close the held handle twice |
| LanguageServer.Server.constructor | handler.go:33-37 | a new server has no documents, no handle, no engine |
| LanguageServer.Server.Init | handler.go:39-45 | builds the engine for the current handle, then returns Init's error |
| LanguageServer.Server.OpenFile | handler.go:210-217 | updates `files` in place as `DocumentStore.Open`, returns no error |
| LanguageServer.Server.CloseFile | handler.go:219-222 | updates `files` in place as `DocumentStore.Close`, returns no error |
| LanguageServer.Server.UpdateFile | handler.go:224-231 | updates `files` in place as `DocumentStore.Update`, or returns its error and leaves `files` unchanged |
| LanguageServer.Server.SaveFile | handler.go:233-235 | always succeeds and changes nothing |
| LanguageServer.Server.HandleInitialize | handler.go:80-103 | replies as `Session.HandleInitialize` without changing anything |
| LanguageServer.Server.HandleShutdown | handler.go:105-114 | new state, reply and calls are those of `Session.HandleShutdown` |
| LanguageServer.Server.HandleDidOpen | handler.go:116-133 | new state, reply and calls are those of `Session.HandleDidOpen` |
| LanguageServer.Server.HandleDidChange | handler.go:135-149 | new state, reply and calls are those of `Session.HandleDidChange` |
| LanguageServer.Server.HandleDidSave | handler.go:151-170 | new state, reply and calls are those of `Session.HandleDidSave` |
| LanguageServer.Server.HandleDidClose | handler.go:172-186 | new state, reply and calls are those of `Session.HandleDidClose` |
| LanguageServer.Server.HandleCompletion | handler.go:188-208 | new state, reply and calls are those of `Session.HandleCompletion` |
| LanguageServer.Server.HandleCodeAction | handler.go:237-255 | replies as `Session.HandleCodeAction` without changing anything |
| LanguageServer.Server.HandleDidChangeConfiguration | handler.go:257-278 | new state, reply and calls are those of `Session.HandleDidChangeConfiguration` |
| LanguageServer.Server.Connect | handler.go:266-277 | the in-place open, handle update and Init produce exactly the state, reply and calls of `Session.Connect` |
| LanguageServer.Server.ExecuteQuery | handler.go:280-335 | new state, reply and calls are those of `Session.ExecuteQuery` |
| LanguageServer.Server.HandleExecuteCommand | handler.go:337-352 | new state, reply and calls are those of `Session.HandleExecuteCommand` |
| LanguageServer.Server.Handle | handler.go:47-78 | new state, reply and calls are those of `Session.Step` |

## Left out

- JSON decoding and the `jsonrpc2` transport and `Conn`: params arrive as an already-decoded `Params` variant. `Undecodable` stands for a payload the decoder rejects. A payload of another method's shape is also treated as undecodable, whereas Go's decoder would fill the missing fields with zero values.
- The text of a decode error is not known: `DecodeFailed` carries the decoder's detail, or a placeholder for a payload of the wrong shape.
- `tablewriter` alignment, borders and `Render` (handler.go:308-310, 333): the reply carries the header and cell rows handed to the writer, not the rendered string.
- `database.Open`, `ExecuteQuery`, `sql.Rows` and the completer's `Init` and `complete` are foreign code: `Env` gives their answers. A handle is identified by its driver and data source, so two opens with the same arguments are not told apart.
- Scanning a row whose width differs from the column count is modelled as the arity error that `database/sql` reports. The source never checks `rows.Err()` after its loop, and neither does the model.
- Completion items are modelled by their name only. The engine receives the whole `CompletionParams` (handler.go:203). The model passes it the document URI and the position and drops any other field; the type's definition is not part of this model.
- `context.Context` and concurrency: the handlers use no locking, and the model is sequential.
- The Go panics on an empty `ContentChanges` (handler.go:145) and on nil params for `didChangeConfiguration` (handler.go:259) are preconditions (`Session.Dispatchable`), not error results.
- `database.Open` is taken to return no handle when it returns an error (handler.go:266-272 assigns whatever it returns); that is an assumption about foreign code.
- The return value of `Close` is ignored by the source and is not modelled.
