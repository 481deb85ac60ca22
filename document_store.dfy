/**
 * The server's in-memory copy of the documents the editor has open: a map
 * from URI to language identifier and full text. Every change replaces the
 * whole text; nothing is persisted.
 */
module DocumentStore {
  import opened Wrappers
  import opened Protocol

  datatype File = File(languageID: string, text: string)

  type Files = map<string, File>

  /** Opening (re)creates the entry with an empty text, whatever was there before. */
  function Open(files: Files, uri: string, languageID: string): (r: Files)
    ensures r.Keys == files.Keys + {uri}
    ensures r[uri] == File(languageID, "")
    ensures forall u :: u in files && u != uri ==> r[u] == files[u]
  {
    files[uri := File(languageID, "")]
  }

  /**
   * Updating replaces the text of an open document and keeps its language;
   * a document that is not open is an error and nothing changes.
   */
  function Update(files: Files, uri: string, text: string): (r: Result<Files, Error>)
    ensures r.Failure? <==> uri !in files
    ensures r.Failure? ==> r.error == DocumentNotFound(uri)
    ensures r.Success? ==> r.value.Keys == files.Keys
    ensures r.Success? ==> r.value[uri] == File(files[uri].languageID, text)
    ensures r.Success? ==> forall u :: u in files && u != uri ==> r.value[u] == files[u]
  {
    if uri in files then Success(files[uri := files[uri].(text := text)])
    else Failure(DocumentNotFound(uri))
  }

  /** Closing forgets the document if it is open and never fails. */
  function Close(files: Files, uri: string): (r: Files)
    ensures r.Keys == files.Keys - {uri}
    ensures forall u :: u in r ==> r[u] == files[u]
  {
    files - {uri}
  }

  /** A second update overrides the first: texts are replaced, never merged. */
  lemma UpdateTwiceKeepsLast(files: Files, uri: string, t1: string, t2: string)
    requires uri in files
    ensures Update(files, uri, t1).Success?
    ensures Update(Update(files, uri, t1).value, uri, t2) == Update(files, uri, t2)
  {
    var once := Update(files, uri, t1).value;
    assert Update(once, uri, t2).value == Update(files, uri, t2).value;
  }

  /** An update right after an open always finds the document. */
  lemma OpenThenUpdate(files: Files, uri: string, languageID: string, text: string)
    ensures Update(Open(files, uri, languageID), uri, text) == Success(files[uri := File(languageID, text)])
  {
    var seeded := Open(files, uri, languageID);
    assert Update(seeded, uri, text).value == files[uri := File(languageID, text)];
  }

  /** Closing twice is closing once. */
  lemma CloseIdempotent(files: Files, uri: string)
    ensures Close(Close(files, uri), uri) == Close(files, uri)
  {
  }

  /** After a close the document is gone: an update fails with "document not found". */
  lemma UpdateAfterClose(files: Files, uri: string, text: string)
    ensures Update(Close(files, uri), uri, text) == Failure(DocumentNotFound(uri))
  {
  }
}
