/**
 * The document store both flows use: the "apiclients" collection of
 * Firestore documents keyed by client id, reduced to the outcomes the flows
 * branch on. Whether connecting, reading and writing succeed is part of the
 * store's state; what a document holds is a map from field names to values.
 */
module Store {
  import opened GoBase

  /** A field of a stored document, as `doc.Data()` hands it back. */
  datatype FieldValue =
    | BytesValue(bytes: Bytes)
    | StringValue(text: Bytes)
    | OtherValue

  type Record = map<string, FieldValue>

  /** The state of the store: connect, read and write outcomes, and the documents. */
  datatype StoreView = StoreView(online: bool, readable: bool, writable: bool, docs: map<Bytes, Record>)

  /** The outcome of `ref.Get`: the document, `codes.NotFound`, or any other error. */
  datatype Lookup = Found(record: Record) | NotFound | ReadFailed

  /** Why `ref.Create` refused: the id is taken, or the write itself failed. */
  datatype StoreError = AlreadyExists | WriteFailed

  /** `ref.Get` on document `id`. */
  function Fetch(view: StoreView, id: Bytes): (r: Lookup)
    ensures r.Found? <==> view.readable && id in view.docs
    ensures r.Found? ==> r.record == view.docs[id]
    ensures r.NotFound? <==> view.readable && id !in view.docs
  {
    if !view.readable then ReadFailed
    else if id in view.docs then Found(view.docs[id])
    else NotFound
  }

  /**
   * `ref.Create` on document `id`: create-if-absent. It succeeds only when
   * the write goes through and the id is new, and it never replaces a
   * document that is already there.
   */
  function Insert(view: StoreView, id: Bytes, rec: Record): (r: (Option<StoreError>, map<Bytes, Record>))
    ensures r.0.None? <==> view.writable && id !in view.docs
    ensures r.0.None? ==> r.1 == view.docs[id := rec]
    ensures r.0.Some? ==> r.1 == view.docs
    ensures view.writable && id in view.docs ==> r.0 == Some(AlreadyExists)
    ensures forall k :: k in view.docs ==> k in r.1 && r.1[k] == view.docs[k]
  {
    if !view.writable then (Some(WriteFailed), view.docs)
    else if id in view.docs then (Some(AlreadyExists), view.docs)
    else (None, view.docs[id := rec])
  }

  /** The store as an object the creation flow writes to. */
  class RecordStore {
    var online: bool
    var readable: bool
    var writable: bool
    var docs: map<Bytes, Record>

    function View(): StoreView
      reads this
    {
      StoreView(online, readable, writable, docs)
    }

    constructor (v: StoreView)
      ensures View() == v
    {
      online, readable, writable, docs := v.online, v.readable, v.writable, v.docs;
    }

    /** `ref.Create(ctx, rec)`. */
    method Create(id: Bytes, rec: Record) returns (err: Option<StoreError>)
      modifies this
      ensures (err, docs) == Insert(old(View()), id, rec)
      ensures online == old(online) && readable == old(readable) && writable == old(writable)
    {
      if !writable {
        return Some(WriteFailed);
      }
      if id in docs {
        return Some(AlreadyExists);
      }
      docs := docs[id := rec];
      return None;
    }
  }
}
