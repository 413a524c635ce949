/**
  The parts of the Yjs CRDT document that the replication code touches.
  The merge algorithm and the binary update format are foreign library code:
  a document is modelled as the sequence of updates it has applied. The
  full-state encoder, and the decoder's verdict on whether some bytes are an
  update at all, are foreign functions fixed when the document is made.
*/
module Crdt {

  /** One element of a `Uint8Array`. */
  type Byte = b: int | 0 <= b < 256

  type Bytes = seq<Byte>

  /**
    The origin Yjs passes along with a change. It may be any JavaScript
    value; the replication code only ever compares it with strings.
  */
  datatype Origin = Named(name: string) | Unnamed

  /** Origin of updates received from a peer over the channel. */
  const RemoteOrigin: Origin := Named("remote")

  /** Origin of the state read back from the database. */
  const DbLoadOrigin: Origin := Named("db-load")

  datatype Applied = Applied(update: Bytes, origin: Origin)

  class Doc {
    /** Every update this replica has applied, with its origin, in order. */
    var history: seq<Applied>

    /** `Y.encodeStateAsUpdate`: the full state as one update (foreign). */
    const encodeState: seq<Applied> -> Bytes

    /**
      Whether Yjs decodes the bytes as an update (foreign). `Y.applyUpdate`
      throws on any other bytes, leaving the replica as it was.
    */
    const accepts: Bytes -> bool

    constructor (encode: seq<Applied> -> Bytes, accepts: Bytes -> bool)
      ensures history == [] && encodeState == encode && this.accepts == accepts
    {
      history := [];
      encodeState := encode;
      this.accepts := accepts;
    }

    /** The full encoded state of the replica as it is now. */
    function EncodeStateAsUpdate(): Bytes
      reads this
    {
      encodeState(history)
    }

    /** `Y.applyUpdate(doc, update, origin)`: `applied` is false where it throws. */
    method ApplyUpdate(update: Bytes, origin: Origin) returns (applied: bool)
      modifies this`history
      ensures applied == accepts(update)
      ensures history == old(history) + (if applied then [Applied(update, origin)] else [])
    {
      applied := accepts(update);
      if applied {
        history := history + [Applied(update, origin)];
      }
    }

    /** A change this process makes to the replica (an edit in a transaction with `origin`), which cannot be rejected. */
    method Transact(update: Bytes, origin: Origin)
      modifies this`history
      ensures history == old(history) + [Applied(update, origin)]
    {
      history := history + [Applied(update, origin)];
    }
  }
}
