/**
  `listen(id:includeMetadataChanges:completion:)` of DataRepresentable.swift:
  the snapshot listener's handler, and the completions a subscription makes
  for the notifications Firestore delivers before it is disposed.
 */
module Listen {
  import opened Wrappers
  import opened Firestore
  import opened Documents
  import opened Fetch

  /**
    What the handler does with one notification: invoke the completion, or
    trap on `snapshot!` when Firestore passes neither a snapshot nor an error.
   */
  datatype Notification<M> = Notify(completion: Completion<M>) | Trap

  /**
    The listener's handler: an error passes through; otherwise the snapshot
    goes to `init?(snapshot:)`, whose nil is `invalidData`. Unlike `get`, a
    snapshot of a document that does not exist is not rejected: it yields a
    document without a model.
   */
  function Handler<M>(result: SnapshotResult, decode: Decoder<M>, clock: Clock): (n: Notification<M>)
    ensures n.Trap? <==> result.error.None? && result.snapshot.None?
    ensures result.error.Some? ==> n == Notify(Completion(None, Some(Transport(result.error.value))))
    ensures n.Notify? ==> WellFormed(n.completion)
    ensures n == Notify(Completion(None, Some(InvalidData))) <==>
              result.error.None? && result.snapshot.Some? &&
              result.snapshot.value.Exists() && decode(result.snapshot.value.data.value).None?
    ensures n.Notify? && n.completion.document.Some? ==>
              result.error.None? && result.snapshot.Some? &&
              FromSnapshot(result.snapshot.value, decode, clock) == Some(n.completion.document.value)
    ensures result.error.None? && result.snapshot.Some? && FromSnapshot(result.snapshot.value, decode, clock).Some? ==>
              n == Notify(Completion(FromSnapshot(result.snapshot.value, decode, clock), None))
  {
    if result.error.Some? then
      Notify(Completion(None, Some(Transport(result.error.value))))
    else if result.snapshot.None? then
      Trap
    else
      match FromSnapshot(result.snapshot.value, decode, clock)
      case None => Notify(Completion(None, Some(InvalidData)))
      case Some(document) => Notify(Completion(Some(document), None))
  }

  /**
    Where `listen` and `get` part: for a snapshot of a document that does not
    exist, `get`'s read completes with `invalidData` while the listener
    delivers a document with no model and the snapshot recorded.
   */
  lemma ListenDiffersFromGetOnMissingDocument<M>(snapshot: Snapshot, decode: Decoder<M>, clock: Clock)
    requires !snapshot.Exists()
    ensures RemoteLeg(SnapshotResult(Some(snapshot), None), decode, clock) == Completion(None, Some(InvalidData))
    ensures Handler(SnapshotResult(Some(snapshot), None), decode, clock) ==
              Notify(Completion(Some(DocState(snapshot.reference, None, Some(snapshot),
                                              clock.baseCreatedAt, clock.baseUpdatedAt)), None))
  {
  }

  /** On every other notification that carries a snapshot or an error, the two classify alike. */
  lemma ListenAgreesWithGetOtherwise<M>(result: SnapshotResult, decode: Decoder<M>, clock: Clock)
    requires result.error.Some? || (result.snapshot.Some? && result.snapshot.value.Exists())
    ensures Handler(result, decode, clock) == Notify(RemoteLeg(result, decode, clock))
  {
  }

  /** One notification from Firestore, and the clock readings its decode takes. */
  datatype Arrival = Arrival(result: SnapshotResult, clock: Clock)

  /**
    The handler applied to each notification in order; a trap ends the
    process, so nothing after it is delivered.
   */
  function Deliveries<M>(arrivals: seq<Arrival>, decode: Decoder<M>): (r: seq<Notification<M>>)
    ensures |r| <= |arrivals|
    ensures forall i :: 0 <= i < |r| ==> r[i] == Handler(arrivals[i].result, decode, arrivals[i].clock)
    ensures forall i :: 0 <= i < |r| - 1 ==> r[i].Notify?
    ensures |r| < |arrivals| ==> 0 < |r| && r[|r| - 1].Trap?
  {
    if arrivals == [] then []
    else
      var n := Handler(arrivals[0].result, decode, arrivals[0].clock);
      if n.Trap? then [n] else [n] + Deliveries(arrivals[1..], decode)
  }

  /** The subscription `listen` opens, and what its completion receives while it is open. */
  datatype Subscription<M> = Subscription(reference: DocumentReference, includeMetadataChanges: bool,
                                          deliveries: seq<Notification<M>>)

  /**
    `listen`: a listener on document `id` of `Self.collectionReference`
    (`selfCollection`), with
    `includeMetadataChanges` passed on to Firestore. When Firestore sends,
    as it promises, a snapshot or an error each time, every notification
    yields exactly one completion, in order.
   */
  function Listen<M>(id: string, includeMetadataChanges: bool, selfCollection: CollectionReference,
                     arrivals: seq<Arrival>, decode: Decoder<M>): (s: Subscription<M>)
    ensures s.reference == DocumentReference(selfCollection.path, id)
    ensures s.includeMetadataChanges == includeMetadataChanges
    ensures |s.deliveries| <= |arrivals|
    ensures forall i :: 0 <= i < |s.deliveries| ==>
              s.deliveries[i] == Handler(arrivals[i].result, decode, arrivals[i].clock)
    ensures (forall a :: a in arrivals ==> a.result.error.Some? || a.result.snapshot.Some?) ==>
              |s.deliveries| == |arrivals| &&
              forall i :: 0 <= i < |s.deliveries| ==> s.deliveries[i].Notify? && WellFormed(s.deliveries[i].completion)
  {
    Subscription(selfCollection.Document(id), includeMetadataChanges, Deliveries(arrivals, decode))
  }
}
