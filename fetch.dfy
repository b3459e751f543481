/**
  The three `get` overloads of DataRepresentable.swift: how a CachePolicy
  decides whether the process-wide Store is consulted, which Firestore tier is
  read, and which completions fire, in which order.

  A call to `get` is modelled as the trace of what it does: look the reference
  up in the Store, complete with a cached document, issue a read, complete with
  the read's outcome. The asynchronous read reaches the model as the answer
  `database(reference, source)`; every `Complete` event is one invocation of
  the caller's completion.
 */
module Fetch {
  import opened Wrappers
  import opened Firestore
  import opened Documents

  datatype CachePolicy = Default | CacheOnly | NetworkOnly

  /** The error argument of a completion: `DocumentError.invalidData`, or Firestore's error passed through. */
  datatype Error = InvalidData | Transport(cause: TransportError)

  /** The two arguments `(Self?, Error?)` of one completion invocation. */
  datatype Completion<M> = Completion(document: Option<DocState<M>>, error: Option<Error>)

  /** Exactly one of the two arguments is present. */
  predicate WellFormed<M>(c: Completion<M>) {
    c.document.Some? != c.error.Some?
  }

  datatype Event<M> =
    | LookUpStore(reference: DocumentReference)
    | IssueRead(reference: DocumentReference, source: Source)
    | Complete(result: Completion<M>)

  /** `Store.shared` as this file sees it: the cached document, if any, of each reference. */
  type Store<M> = map<DocumentReference, DocState<M>>

  /** The tier each policy reads, as the switch in `get` picks it. */
  function Tier(policy: CachePolicy): Source {
    match policy
    case Default => DefaultSource
    case CacheOnly => CacheSource
    case NetworkOnly => ServerSource
  }

  /** Whether a policy looks in the Store before reading. */
  predicate ConsultsStore(policy: CachePolicy) {
    policy != NetworkOnly
  }

  /** `get(documentReference:) -> Self?`: the Store's document for the reference, nil when it holds none. */
  function Cached<M>(store: Store<M>, reference: DocumentReference): (r: Option<DocState<M>>)
    ensures r.None? <==> reference !in store
    ensures r.Some? ==> r.value == store[reference]
  {
    if reference in store then Some(store[reference]) else None
  }

  /**
    The closure given to `getDocument`: Firestore's error passes through;
    a missing or non-existent snapshot, and a snapshot the initialiser cannot
    decode, give `invalidData`; otherwise the decoded document.
   */
  function RemoteLeg<M>(result: SnapshotResult, decode: Decoder<M>, clock: Clock): (c: Completion<M>)
    ensures WellFormed(c)
    ensures result.error.Some? ==> c == Completion(None, Some(Transport(result.error.value)))
    ensures c.error == Some(InvalidData) <==>
              result.error.None? &&
              (result.snapshot.None? || !result.snapshot.value.Exists() ||
               decode(result.snapshot.value.data.value).None?)
    ensures c.document.Some? ==>
              result.error.None? && result.snapshot.Some? && result.snapshot.value.Exists() &&
              FromSnapshot(result.snapshot.value, decode, clock) == Some(c.document.value)
    ensures c.document.Some? ==> c.document.value.data.Some?
    ensures result.error.None? && result.snapshot.Some? && result.snapshot.value.Exists() &&
            decode(result.snapshot.value.data.value).Some? ==>
              c == Completion(FromSnapshot(result.snapshot.value, decode, clock), None)
  {
    if result.error.Some? then
      Completion(None, Some(Transport(result.error.value)))
    else if result.snapshot.None? || !result.snapshot.value.Exists() then
      Completion(None, Some(InvalidData))
    else
      match FromSnapshot(result.snapshot.value, decode, clock)
      case None => Completion(None, Some(InvalidData))
      case Some(document) => Completion(Some(document), None)
  }

  /** The synchronous part of `.default` and `.cacheOnly`: look up, and complete on a hit. */
  function StoreLeg<M>(reference: DocumentReference, store: Store<M>): seq<Event<M>> {
    [LookUpStore(reference)] +
    match Cached(store, reference)
    case Some(document) => [Complete(Completion(Some(document), None))]
    case None => []
  }

  /** One `getDocument` call on `source`, and the one completion its callback makes. */
  function ReadLeg<M>(reference: DocumentReference, source: Source, database: Database,
                      decode: Decoder<M>, clock: Clock): seq<Event<M>> {
    [IssueRead(reference, source), Complete(RemoteLeg(database(reference, source), decode, clock))]
  }

  /** `get(documentReference:cachePolicy:completion:)`. */
  function Get<M>(reference: DocumentReference, policy: CachePolicy, store: Store<M>, database: Database,
                  decode: Decoder<M>, clock: Clock): (trace: seq<Event<M>>)
    ensures 2 <= |trace| <= 4
  {
    match policy
    case Default => StoreLeg(reference, store) + ReadLeg(reference, DefaultSource, database, decode, clock)
    case CacheOnly => StoreLeg(reference, store) + ReadLeg(reference, CacheSource, database, decode, clock)
    case NetworkOnly => ReadLeg(reference, ServerSource, database, decode, clock)
  }

  /**
    `get(id:cachePolicy:completion:)`: the reference comes from `init(id:)`,
    so it is `id` in `Document.collectionReference` (`defaultCollection`),
    and `get` runs on it.
   */
  function GetById<M>(id: string, policy: CachePolicy, defaultCollection: CollectionReference, store: Store<M>,
                      database: Database, decode: Decoder<M>, clock: Clock): (trace: seq<Event<M>>)
    ensures trace == Get(defaultCollection.Document(id), policy, store, database, decode, clock)
  {
    Get(defaultCollection.Document(id), policy, store, database, decode, clock)
  }

  /** The completions of a trace, in order. */
  function Completions<M>(trace: seq<Event<M>>): (r: seq<Completion<M>>)
    ensures |r| <= |trace|
    ensures forall c :: c in r ==> Complete(c) in trace
  {
    if trace == [] then []
    else (if trace[0].Complete? then [trace[0].result] else []) + Completions(trace[1..])
  }

  lemma {:induction false} CompletionsAppend<M>(a: seq<Event<M>>, b: seq<Event<M>>)
    ensures Completions(a + b) == Completions(a) + Completions(b)
  {
    if a == [] {
      assert a + b == b;
    } else {
      assert (a + b)[0] == a[0];
      assert (a + b)[1..] == a[1..] + b;
      assert Completions(a + b) == (if a[0].Complete? then [a[0].result] else []) + Completions((a + b)[1..]);
      CompletionsAppend(a[1..], b);
    }
  }

  /** The completions of each leg, and of the whole trace. */
  lemma GetCompletions<M>(reference: DocumentReference, policy: CachePolicy, store: Store<M>, database: Database,
                          decode: Decoder<M>, clock: Clock)
    ensures var remote := RemoteLeg(database(reference, Tier(policy)), decode, clock);
            Completions(Get(reference, policy, store, database, decode, clock)) ==
              (if ConsultsStore(policy) && reference in store then [Completion(Some(store[reference]), None)] else [])
              + [remote]
  {
    var read := ReadLeg(reference, Tier(policy), database, decode, clock);
    assert Completions(read) == [RemoteLeg(database(reference, Tier(policy)), decode, clock)] by {
      assert read[1..][1..] == [];
    }
    if ConsultsStore(policy) {
      var store' := StoreLeg(reference, store);
      if reference in store {
        assert store'[1..][1..] == [];
      } else {
        assert store'[1..] == [];
      }
      CompletionsAppend(store', read);
    }
  }

  /**
    Call count: at most two completions; exactly one on a Store miss and under
    `.networkOnly`; two exactly when `.default` or `.cacheOnly` finds the Store
    holding the document.
   */
  lemma GetCompletionCount<M>(reference: DocumentReference, policy: CachePolicy, store: Store<M>, database: Database,
                              decode: Decoder<M>, clock: Clock)
    ensures var n := |Completions(Get(reference, policy, store, database, decode, clock))|;
            1 <= n <= 2 &&
            (reference !in store ==> n == 1) &&
            (policy == NetworkOnly ==> n == 1) &&
            (n == 2 <==> (policy == Default || policy == CacheOnly) && reference in store)
  {
    GetCompletions(reference, policy, store, database, decode, clock);
  }

  /**
    Ordering: under `.default` and `.cacheOnly` a Store hit completes with the
    cached document before the read is issued, so it is the first completion.
   */
  lemma GetStoreHitFirst<M>(reference: DocumentReference, policy: CachePolicy, store: Store<M>, database: Database,
                            decode: Decoder<M>, clock: Clock)
    requires policy != NetworkOnly && reference in store
    ensures var trace := Get(reference, policy, store, database, decode, clock);
            trace[..3] == [LookUpStore(reference), Complete(Completion(Some(store[reference]), None)),
                           IssueRead(reference, Tier(policy))] &&
            0 < |Completions(trace)| && Completions(trace)[0] == Completion(Some(store[reference]), None)
  {
    GetCompletions(reference, policy, store, database, decode, clock);
  }

  /**
    Every call issues exactly one read, on the tier its policy fixes
    (`.default` unqualified, `.cacheOnly` the cache, `.networkOnly` the
    server), and that read's callback makes the call's last completion.
   */
  lemma GetIssuesOneRead<M>(reference: DocumentReference, policy: CachePolicy, store: Store<M>, database: Database,
                            decode: Decoder<M>, clock: Clock)
    ensures var trace := Get(reference, policy, store, database, decode, clock);
            var remote := RemoteLeg(database(reference, Tier(policy)), decode, clock);
            trace[|trace| - 2..] == [IssueRead(reference, Tier(policy)), Complete(remote)] &&
            (forall i :: 0 <= i < |trace| - 2 ==> !trace[i].IssueRead?) &&
            0 < |Completions(trace)| && Completions(trace)[|Completions(trace)| - 1] == remote
  {
    GetCompletions(reference, policy, store, database, decode, clock);
  }

  /**
    The Store is consulted exactly under `.default` and `.cacheOnly`; under
    `.networkOnly` the trace does not depend on the Store at all.
   */
  lemma GetConsultsStore<M>(reference: DocumentReference, policy: CachePolicy, store: Store<M>, other: Store<M>,
                            database: Database, decode: Decoder<M>, clock: Clock)
    ensures LookUpStore(reference) in Get(reference, policy, store, database, decode, clock) <==> ConsultsStore(policy)
    ensures policy == NetworkOnly ==>
              Get(reference, policy, store, database, decode, clock) ==
              [IssueRead(reference, ServerSource), Complete(RemoteLeg(database(reference, ServerSource), decode, clock))]
    ensures policy == NetworkOnly ==>
              Get(reference, policy, store, database, decode, clock) == Get(reference, policy, other, database, decode, clock)
  {
    if policy == NetworkOnly {
      var trace := Get(reference, policy, store, database, decode, clock);
      assert forall e :: e in trace ==> !e.LookUpStore?;
    } else {
      assert Get(reference, policy, store, database, decode, clock)[0] == LookUpStore(reference);
    }
  }

  /** The answer of any other tier, or of any other reference, does not affect the call. */
  lemma GetReadsOnlyItsTier<M>(reference: DocumentReference, policy: CachePolicy, store: Store<M>,
                               database: Database, other: Database, decode: Decoder<M>, clock: Clock)
    requires database(reference, Tier(policy)) == other(reference, Tier(policy))
    ensures Get(reference, policy, store, database, decode, clock) == Get(reference, policy, store, other, decode, clock)
  {
  }

  /** Every completion carries a document or an error, never both and never neither. */
  lemma GetCompletionsWellFormed<M>(reference: DocumentReference, policy: CachePolicy, store: Store<M>,
                                    database: Database, decode: Decoder<M>, clock: Clock)
    ensures forall c :: c in Completions(Get(reference, policy, store, database, decode, clock)) ==> WellFormed(c)
  {
    GetCompletions(reference, policy, store, database, decode, clock);
  }

  /** A document that does not exist at the read tier ends the call with `(nil, invalidData)`. */
  lemma GetMissingDocumentIsInvalidData<M>(reference: DocumentReference, policy: CachePolicy, store: Store<M>,
                                           database: Database, decode: Decoder<M>, clock: Clock)
    requires database(reference, Tier(policy)).error.None?
    requires database(reference, Tier(policy)).snapshot.None? || !database(reference, Tier(policy)).snapshot.value.Exists()
    ensures var cs := Completions(Get(reference, policy, store, database, decode, clock));
            0 < |cs| && cs[|cs| - 1] == Completion(None, Some(InvalidData))
  {
    GetCompletions(reference, policy, store, database, decode, clock);
  }

  /**
    A read with no error, of an existing snapshot that decodes, ends the call
    with `(document, nil)`, the document `init?(snapshot:)` builds, under every
    policy.
   */
  lemma GetDeliversDecodedDocument<M>(reference: DocumentReference, policy: CachePolicy, store: Store<M>,
                                      database: Database, decode: Decoder<M>, clock: Clock)
    requires database(reference, Tier(policy)).error.None?
    requires database(reference, Tier(policy)).snapshot.Some?
    requires database(reference, Tier(policy)).snapshot.value.Exists()
    requires decode(database(reference, Tier(policy)).snapshot.value.data.value).Some?
    ensures var snapshot := database(reference, Tier(policy)).snapshot.value;
            var cs := Completions(Get(reference, policy, store, database, decode, clock));
            0 < |cs| && cs[|cs| - 1] == Completion(FromSnapshot(snapshot, decode, clock), None) &&
            cs[|cs| - 1].document.value.data == decode(snapshot.data.value)
  {
    GetCompletions(reference, policy, store, database, decode, clock);
  }
}
