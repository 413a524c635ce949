/**
  The persistence hook (`useYjsPersistence`): loading the stored state of a
  document into the replica and saving the replica's full state back, with
  the save status the editor shows. The two asynchronous operations are
  split at their `await`: the part before the query runs in `Begin…`, the
  part after it, given what the query returned, in `Finish…`.
*/
module YjsPersistence {
  import opened Wrappers
  import opened Crdt
  import opened ByteaHex

  datatype SaveStatus = Idle | Loading | Saving | Saved | Error

  /** What the `documents` select by id returned: an error, no row, or a row whose `content` may be null. */
  datatype LoadResponse = QueryFailed | NoRow | Row(content: Option<string>)

  /** The row `saveDocument` upserts. */
  datatype Upsert = Upsert(id: string, content: string)

  /** What the end of `loadDocument` does: the update applied with origin `db-load`, if any, and the final status. */
  datatype LoadOutcome = LoadOutcome(applied: Option<Bytes>, status: SaveStatus)

  /** `data?.content` is truthy: there is a row and its content is a non-empty string. */
  predicate HasContent(response: LoadResponse) {
    response.Row? && response.content.Some? && response.content.value != ""
  }

  /**
    The end of `loadDocument`, given the replica's verdict on which bytes are
    an update: a query error, stored text that is not hex, or decoded bytes
    that `Y.applyUpdate` rejects end in `error`; otherwise the status is
    `saved`, and the decoded bytes are applied only when there are some.
  */
  function FinishLoadOutcome(response: LoadResponse, accepts: Bytes -> bool): (r: LoadOutcome)
    ensures r.status == Saved || r.status == Error
    ensures r.status == Error <==>
      response.QueryFailed?
      || (HasContent(response) && ParsePostgresHex(response.content.value).Failure?)
      || (HasContent(response) && ParsePostgresHex(response.content.value).Success?
          && ParsePostgresHex(response.content.value).value != []
          && !accepts(ParsePostgresHex(response.content.value).value))
    ensures r.applied.Some? <==>
      HasContent(response) && ParsePostgresHex(response.content.value).Success?
      && ParsePostgresHex(response.content.value).value != []
      && accepts(ParsePostgresHex(response.content.value).value)
    ensures r.applied.Some? ==>
      ParsePostgresHex(response.content.value) == Success(r.applied.value) && r.status == Saved
  {
    match response
    case QueryFailed => LoadOutcome(None, Error)
    case NoRow => LoadOutcome(None, Saved)
    case Row(content) =>
      if content.None? || content.value == "" then LoadOutcome(None, Saved)
      else
        match ParsePostgresHex(content.value)
        case Failure(_) => LoadOutcome(None, Error)
        case Success(update) =>
          if |update| == 0 then LoadOutcome(None, Saved)
          else if accepts(update) then LoadOutcome(Some(update), Saved)
          else LoadOutcome(None, Error)
  }

  /**
    Loading back the text that a save stored gives the saved bytes to the
    replica and ends in `saved` (nothing is applied when the state was empty);
    it ends in `error`, applying nothing, only if the replica rejects them.
  */
  lemma LoadAfterSave(state: Bytes, accepts: Bytes -> bool)
    ensures FinishLoadOutcome(Row(Some(EncodeBytea(state))), accepts) ==
      if state == [] then LoadOutcome(None, Saved)
      else if accepts(state) then LoadOutcome(Some(state), Saved)
      else LoadOutcome(None, Error)
  {
    ParseEncodeRoundTrip(state);
    assert EncodeBytea(state) != "" by {
      assert EncodeBytea(state)[..2] == Prefix;
    }
  }

  /** A new document (no row, or a null or empty content) loads as `saved` and applies nothing. */
  lemma NewDocumentLoads(response: LoadResponse, accepts: Bytes -> bool)
    requires !response.QueryFailed? && !HasContent(response)
    ensures FinishLoadOutcome(response, accepts) == LoadOutcome(None, Saved)
  {
  }

  class Persistence {
    var status: SaveStatus
    /** `lastSaved`: the time of the last successful save. */
    var lastSaved: Option<int>
    /** Every upsert sent to the `documents` table, in order. */
    var upserts: seq<Upsert>
    const doc: Doc

    constructor (doc: Doc)
      ensures status == Idle && lastSaved == None && upserts == [] && this.doc == doc
    {
      status := Idle;
      lastSaved := None;
      upserts := [];
      this.doc := doc;
    }

    /** `loadDocument` up to its query: the status becomes `loading`. */
    method BeginLoad()
      modifies this`status
      ensures status == Loading
    {
      status := Loading;
    }

    /** `loadDocument` after its query: apply the stored state with origin `db-load` and settle the status. */
    method FinishLoad(response: LoadResponse)
      modifies this`status, doc`history
      ensures var outcome := FinishLoadOutcome(response, doc.accepts);
        status == outcome.status
        && doc.history == old(doc.history) + (if outcome.applied.Some? then [Applied(outcome.applied.value, DbLoadOrigin)] else [])
    {
      if response.QueryFailed? {
        status := Error;
        return;
      }
      if HasContent(response) {
        var parsed := ParsePostgresHex(response.content.value);
        if parsed.Failure? {
          status := Error;
          return;
        }
        var update := parsed.value;
        if |update| > 0 {
          var applied := doc.ApplyUpdate(update, DbLoadOrigin);
          if !applied {
            status := Error;
            return;
          }
        }
      }
      status := Saved;
    }

    /**
      `saveDocument` up to its query, run when the debounce fires: the status
      becomes `saving` and the full state of the replica, hex-encoded, is
      upserted under the document's id.
    */
    method BeginSave(documentId: string)
      modifies this`status, this`upserts
      ensures status == Saving
      ensures upserts == old(upserts) + [Upsert(documentId, EncodeBytea(doc.EncodeStateAsUpdate()))]
    {
      status := Saving;
      var state := doc.EncodeStateAsUpdate();
      var payload := EncodeBytea(state);
      upserts := upserts + [Upsert(documentId, payload)];
    }

    /** `saveDocument` after its query: record the time and `saved` on success, `error` on failure. */
    method FinishSave(succeeded: bool, now: int)
      modifies this`status, this`lastSaved
      ensures succeeded ==> status == Saved && lastSaved == Some(now)
      ensures !succeeded ==> status == Error && lastSaved == old(lastSaved)
    {
      if succeeded {
        lastSaved := Some(now);
        status := Saved;
      } else {
        status := Error;
      }
    }
  }

  /**
    A save followed by a load of the row it wrote hands the replica that
    loads it exactly the state that was saved, with origin `db-load`, unless
    that replica rejects the bytes, which ends its load in `error`.
  */
  method SaveThenLoad(writer: Persistence, reader: Persistence, documentId: string, now: int)
    requires reader.doc != writer.doc
    modifies writer, reader, reader.doc
    ensures writer.status == Saved
    ensures |writer.upserts| > 0 && writer.upserts[|writer.upserts| - 1].id == documentId
    ensures var state := writer.doc.EncodeStateAsUpdate();
      var rejected := state != [] && !reader.doc.accepts(state);
      reader.status == (if rejected then Error else Saved)
      && reader.doc.history == old(reader.doc.history) + (if state == [] || rejected then [] else [Applied(state, DbLoadOrigin)])
  {
    writer.BeginSave(documentId);
    writer.FinishSave(true, now);
    var stored := writer.upserts[|writer.upserts| - 1].content;
    reader.BeginLoad();
    LoadAfterSave(writer.doc.EncodeStateAsUpdate(), reader.doc.accepts);
    reader.FinishLoad(Row(Some(stored)));
  }
}
