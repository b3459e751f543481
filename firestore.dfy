/**
  The Firestore values that DataRepresentable.swift inspects, reduced to the
  parts its logic depends on. The database itself, its tiers and its decoder
  are not modelled: reads and decodes reach the model as inputs.
 */
module Firestore {
  import opened Wrappers

  /** A document's location: the path of its collection and its id. */
  datatype DocumentReference = DocumentReference(collectionPath: string, id: string)

  /** A collection; `document(id)` names one of its documents. */
  datatype CollectionReference = CollectionReference(path: string) {
    function Document(id: string): DocumentReference {
      DocumentReference(path, id)
    }
  }

  /** Firestore's Timestamp: seconds since the epoch and a nanosecond part. */
  datatype Timestamp = Timestamp(seconds: int, nanoseconds: nat)

  /** A field of a raw payload; the only distinction used here is whether it holds a Timestamp. */
  datatype Value = TimestampValue(timestamp: Timestamp) | OtherValue(description: string)

  /** The `[String: Any]` form of a document. */
  type Payload = map<string, Value>

  /** A DocumentSnapshot: its reference and `data()`, which is nil exactly when the document does not exist. */
  datatype Snapshot = Snapshot(reference: DocumentReference, data: Option<Payload>) {
    predicate Exists() {
      data.Some?
    }
  }

  /** An error reported by the Firestore SDK (network, permission, offline cache miss, ...). */
  datatype TransportError = TransportError(description: string)

  /** The two arguments Firestore passes to a `getDocument` or snapshot-listener callback. */
  datatype SnapshotResult = SnapshotResult(snapshot: Option<Snapshot>, error: Option<TransportError>)

  /** The tier a `getDocument` call reads: unqualified, `FirestoreSource.cache` or `FirestoreSource.server`. */
  datatype Source = DefaultSource | CacheSource | ServerSource

  /** `Firestore.Decoder().decode(Model.self, from:)`: None where it throws. */
  type Decoder<M> = Payload -> Option<M>

  /** What a read of one tier for one reference answers; the database stands behind it. */
  type Database = (DocumentReference, Source) -> SnapshotResult
}
