/**
  Ballcap's Document as DataRepresentable.swift builds and writes it: the
  initialisers (init(id:), init?(id:from:), init?(snapshot:)) and the
  single-intent writes save, update and delete.

  A document is a class whose fields the initialisers assign one by one;
  DocState is its value, and the pure functions FromData and FromSnapshot say
  what each failable initialiser produces.
 */
module Documents {
  import opened Wrappers
  import opened Firestore
  import opened Batches

  const CreatedAtKey: string := "createdAt"
  const UpdatedAtKey: string := "updatedAt"

  /**
    The clock readings one construction takes. `baseCreatedAt` and
    `baseUpdatedAt` are what the designated initialiser
    `init(documentReference:)` leaves in the timestamps; `createdAtNow` and
    `updatedAtNow` are the two separate `Timestamp(date: Date())` fallbacks.
   */
  datatype Clock = Clock(baseCreatedAt: Timestamp, baseUpdatedAt: Timestamp,
                         createdAtNow: Timestamp, updatedAtNow: Timestamp)

  /** The value of a Document: its reference, decoded model, last snapshot and timestamps. */
  datatype DocState<M> = DocState(reference: DocumentReference, data: Option<M>, snapshot: Option<Snapshot>,
                                  createdAt: Timestamp, updatedAt: Timestamp)

  /** True when `data[key] as? Timestamp` succeeds. */
  predicate HasTimestamp(data: Payload, key: string) {
    key in data && data[key].TimestampValue?
  }

  /** `data[key] as? Timestamp ?? now`. */
  function TimestampOr(data: Payload, key: string, now: Timestamp): Timestamp {
    if HasTimestamp(data, key) then data[key].timestamp else now
  }

  /** What `init(documentReference:)` leaves: no model, no snapshot, the base timestamps. */
  function Base<M>(reference: DocumentReference, clock: Clock): DocState<M> {
    DocState(reference, None, None, clock.baseCreatedAt, clock.baseUpdatedAt)
  }

  /**
    The `do` block shared by both failable initialisers: decode the model,
    then take each timestamp from the payload or from its own clock reading.
    None is the `catch` that makes the initialiser return nil.
   */
  function Decoded<M>(base: DocState<M>, data: Payload, decode: Decoder<M>, clock: Clock): (r: Option<DocState<M>>)
    ensures r.None? <==> decode(data).None?
    ensures r.Some? ==> r.value.reference == base.reference && r.value.snapshot == base.snapshot
    ensures r.Some? ==> r.value.data == decode(data)
    ensures r.Some? && HasTimestamp(data, CreatedAtKey) ==> r.value.createdAt == data[CreatedAtKey].timestamp
    ensures r.Some? && !HasTimestamp(data, CreatedAtKey) ==> r.value.createdAt == clock.createdAtNow
    ensures r.Some? && HasTimestamp(data, UpdatedAtKey) ==> r.value.updatedAt == data[UpdatedAtKey].timestamp
    ensures r.Some? && !HasTimestamp(data, UpdatedAtKey) ==> r.value.updatedAt == clock.updatedAtNow
  {
    match decode(data)
    case None => None
    case Some(model) =>
      Some(base.(data := Some(model),
                 createdAt := TimestampOr(data, CreatedAtKey, clock.createdAtNow),
                 updatedAt := TimestampOr(data, UpdatedAtKey, clock.updatedAtNow)))
  }

  /** What `init?(id:from:collectionReference:)` yields; `collection` nil means `Document.collectionReference` (`defaultCollection`). */
  function FromData<M>(id: string, data: Payload, collection: Option<CollectionReference>,
                       defaultCollection: CollectionReference, decode: Decoder<M>, clock: Clock): (r: Option<DocState<M>>)
    ensures r.None? <==> decode(data).None?
    ensures r.Some? ==> r.value.reference == DocumentReference(collection.GetOr(defaultCollection).path, id)
    ensures r.Some? ==> r.value.data.Some? && r.value.data == decode(data) && r.value.snapshot.None?
    ensures r.Some? ==> r.value.createdAt == TimestampOr(data, CreatedAtKey, clock.createdAtNow)
    ensures r.Some? ==> r.value.updatedAt == TimestampOr(data, UpdatedAtKey, clock.updatedAtNow)
  {
    Decoded(Base(collection.GetOr(defaultCollection).Document(id), clock), data, decode, clock)
  }

  /**
    What `init?(snapshot:)` yields. A snapshot without data gives a document
    without a model; only a failing decode gives nil.
   */
  function FromSnapshot<M>(snapshot: Snapshot, decode: Decoder<M>, clock: Clock): (r: Option<DocState<M>>)
    ensures r.None? <==> snapshot.data.Some? && decode(snapshot.data.value).None?
    ensures r.Some? ==> r.value.reference == snapshot.reference && r.value.snapshot == Some(snapshot)
    ensures r.Some? ==> (r.value.data.Some? <==> snapshot.Exists())
    ensures !snapshot.Exists() ==>
              r == Some(DocState(snapshot.reference, None, Some(snapshot), clock.baseCreatedAt, clock.baseUpdatedAt))
    ensures snapshot.Exists() && r.Some? ==>
              r.value.data == decode(snapshot.data.value) &&
              r.value.createdAt == TimestampOr(snapshot.data.value, CreatedAtKey, clock.createdAtNow) &&
              r.value.updatedAt == TimestampOr(snapshot.data.value, UpdatedAtKey, clock.updatedAtNow)
  {
    var base := Base(snapshot.reference, clock).(snapshot := Some(snapshot));
    match snapshot.data
    case None => Some(base)
    case Some(data) => Decoded(base, data, decode, clock)
  }

  /**
    A FromData success and a FromSnapshot success on the same payload agree on
    everything but the snapshot, which only the snapshot initialiser records.
   */
  lemma FromDataAgreesWithFromSnapshot<M>(snapshot: Snapshot, decode: Decoder<M>, clock: Clock)
    requires snapshot.Exists()
    ensures var byData := FromData(snapshot.reference.id, snapshot.data.value,
                                   Some(CollectionReference(snapshot.reference.collectionPath)),
                                   CollectionReference(snapshot.reference.collectionPath), decode, clock);
            var bySnapshot := FromSnapshot(snapshot, decode, clock);
            byData.None? == bySnapshot.None? &&
            (byData.Some? ==> bySnapshot.value == byData.value.(snapshot := Some(snapshot)))
  {
  }

  class Document<M> {
    var documentReference: DocumentReference
    var data: Option<M>
    var snapshot: Option<Snapshot>
    var createdAt: Timestamp
    var updatedAt: Timestamp

    function State(): DocState<M>
      reads this
    {
      DocState(documentReference, data, snapshot, createdAt, updatedAt)
    }

    /** The designated initialiser `init(documentReference:)`, whose body is in Document.swift. */
    constructor (reference: DocumentReference, clock: Clock)
      ensures State() == Base(reference, clock)
    {
      documentReference := reference;
      data := None;
      snapshot := None;
      createdAt := clock.baseCreatedAt;
      updatedAt := clock.baseUpdatedAt;
    }

    /** `init(id:collectionReference:)`: a document with a default-constructed model. */
    constructor WithId(id: string, collection: Option<CollectionReference>, defaultCollection: CollectionReference,
                       model: M, clock: Clock)
      ensures State() == Base(collection.GetOr(defaultCollection).Document(id), clock).(data := Some(model))
    {
      documentReference := collection.GetOr(defaultCollection).Document(id);
      snapshot := None;
      createdAt := clock.baseCreatedAt;
      updatedAt := clock.baseUpdatedAt;
      data := Some(model);
    }

    /** Stages one intent of `kind` for this document in a fresh batch and commits it. */
    method CommitOne(kind: WriteKind, remote: Option<TransportError>)
      returns (write: seq<WriteIntent<DocState<M>>>, reported: Option<TransportError>)
      ensures write == [WriteIntent(kind, State())] && reported == remote
    {
      var batch := new Batch<DocState<M>>();
      match kind {
        case SaveWrite => batch.Save(State());
        case UpdateWrite => batch.Update(State());
        case DeleteWrite => batch.Delete(State());
      }
      write, reported := batch.Commit(remote);
    }

    /**
      `save(reference:completion:)`: one save intent for this document, committed
      at once; `reference` is ignored and Firestore's answer `remote` reaches the
      completion unchanged.
     */
    method Save(reference: Option<DocumentReference>, remote: Option<TransportError>)
      returns (write: seq<WriteIntent<DocState<M>>>, reported: Option<TransportError>)
      ensures |write| == 1 && write[0].kind == SaveWrite && write[0].document == State()
      ensures reported == remote
    {
      write, reported := CommitOne(SaveWrite, remote);
    }

    /** `update(reference:completion:)`, as Save with an update intent. */
    method Update(reference: Option<DocumentReference>, remote: Option<TransportError>)
      returns (write: seq<WriteIntent<DocState<M>>>, reported: Option<TransportError>)
      ensures |write| == 1 && write[0].kind == UpdateWrite && write[0].document == State()
      ensures reported == remote
    {
      write, reported := CommitOne(UpdateWrite, remote);
    }

    /** `delete(reference:completion:)`, as Save with a delete intent. */
    method Delete(reference: Option<DocumentReference>, remote: Option<TransportError>)
      returns (write: seq<WriteIntent<DocState<M>>>, reported: Option<TransportError>)
      ensures |write| == 1 && write[0].kind == DeleteWrite && write[0].document == State()
      ensures reported == remote
    {
      write, reported := CommitOne(DeleteWrite, remote);
    }
  }

  /**
    `init?(id:from:collectionReference:)`: build the document, then assign the
    decoded model and the two timestamps; nil when the decoder throws.
   */
  method InitFromData<M>(id: string, data: Payload, collection: Option<CollectionReference>,
                         defaultCollection: CollectionReference, decode: Decoder<M>, clock: Clock)
    returns (document: Option<Document<M>>)
    ensures document.None? <==> FromData(id, data, collection, defaultCollection, decode, clock).None?
    ensures document.Some? ==> fresh(document.value)
    ensures document.Some? ==> document.value.State() == FromData(id, data, collection, defaultCollection, decode, clock).value
  {
    var doc := new Document(collection.GetOr(defaultCollection).Document(id), clock);
    var model := decode(data);
    if model.None? {
      return None;
    }
    doc.data := model;
    doc.createdAt := TimestampOr(data, CreatedAtKey, clock.createdAtNow);
    doc.updatedAt := TimestampOr(data, UpdatedAtKey, clock.updatedAtNow);
    return Some(doc);
  }

  /**
    `init?(snapshot:)`: build the document for the snapshot's reference and
    record the snapshot; without data it stops there, otherwise it decodes as
    InitFromData does.
   */
  method InitFromSnapshot<M>(snapshot: Snapshot, decode: Decoder<M>, clock: Clock)
    returns (document: Option<Document<M>>)
    ensures document.None? <==> FromSnapshot(snapshot, decode, clock).None?
    ensures document.Some? ==> fresh(document.value)
    ensures document.Some? ==> document.value.State() == FromSnapshot(snapshot, decode, clock).value
  {
    var doc := new Document(snapshot.reference, clock);
    doc.snapshot := Some(snapshot);
    if snapshot.data.None? {
      return Some(doc);
    }
    var data := snapshot.data.value;
    var model := decode(data);
    if model.None? {
      return None;
    }
    doc.data := model;
    doc.createdAt := TimestampOr(data, CreatedAtKey, clock.createdAtNow);
    doc.updatedAt := TimestampOr(data, UpdatedAtKey, clock.updatedAtNow);
    return Some(doc);
  }
}
