# Ballcap DataRepresentable, modelled in Dafny

Ballcap maps typed Swift models onto Firestore documents. This project models
the logic in `Ballcap/DataRepresentable.swift` that belongs to Ballcap itself.
The rest of that file only calls into Firestore.

- **Fetch-policy resolution.** `get(documentReference:cachePolicy:completion:)`
  turns a `CachePolicy` (`.default`, `.cacheOnly`, `.networkOnly`) into three
  things:
  - whether the process-wide `Store` is consulted;
  - which Firestore tier is read (unqualified, `FirestoreSource.cache` or
    `FirestoreSource.server`);
  - the ordered completions the caller receives.
- **The initialisers.**
  - `init(id:)` gives a document with a default model.
  - `init?(id:from:)` fails exactly when the decoder throws.
  - `init?(snapshot:)` records the snapshot. Without data it gives a document
    with no model.
  - `createdAt` and `updatedAt` fall back, each on its own, to a separate
    reading of the clock.
- **`listen`.** Its handler classifies each notification. It differs from
  `get` on a snapshot of a document that does not exist.
- **`save`, `update`, `delete`.** Each stages exactly one intent in a fresh
  `Batch` and commits it.

Firestore appears only as inputs:
- the Store's contents: a map from reference to document value;
- the answer of each tier's read: a function `(reference, source) -> (snapshot?, error?)`;
- the decoder: a partial function `payload -> model?`;
- the clock readings a construction takes.

Modules:
- `Wrappers`: `Option`.
- `Firestore`: references, timestamps, payloads, snapshots, sources, the decoder and database types.
- `Batches`: the `Batch` interface used by the writes.
- `Documents`: the `Document` class, its initialisers, and `save`/`update`/`delete`.
- `Fetch`: the `get` overloads and their lemmas.
- `Listen`: the `listen` handler and subscription.

A call to `get` is modelled as a trace of events, in order:
1. `LookUpStore(reference)`;
2. `Complete(cached)`, on a Store hit;
3. `IssueRead(reference, source)`;
4. `Complete(outcome of the read)`.

Each `Complete` is one invocation of the completion. This makes call counts
and "before the read is issued" statable.

Behaviour a reader may not expect:
- Under `.cacheOnly`, a Store hit does not end the call. The code goes on to
  issue the cache-tier read, so two completions are possible (lines 114-132).
- `listen` does not report `invalidData` for a snapshot of a document that
  does not exist. `init?(snapshot:)` accepts it and yields a document with no
  model (lines 50-56 and 167).
- Updating the Store after a read, a commit or a notification does not happen
  in this file. It is not modelled.

`Document.swift`, `Batch.swift`, `Store.swift` and `Disposer.swift` are not
part of this model. The designated initialiser `init(documentReference:)` is
taken to leave no model, no snapshot, and the timestamps given as
`Clock.baseCreatedAt` and `Clock.baseUpdatedAt`.

The initialisers and `get(id:)` build references from
`Document.collectionReference` (lines 21, 26, 32, 38 and 153). `listen` builds
its reference from `Self.collectionReference` (line 162). Both are static
properties declared outside this file. The model takes each one as its own
parameter: `defaultCollection` for the first, `selfCollection` for `listen`.
It does not assume they are the same collection.

## Model

| member | source | states |
|---|---|---|
| `Documents.Decoded` | Ballcap/DataRepresentable.swift:40-47 | Fails exactly when the decoder fails. Otherwise it keeps reference and snapshot and stores the decoded model. `createdAt` is the payload's `createdAt` Timestamp, else the `createdAt` clock reading. `updatedAt` is decided the same way from its own field and reading, independently. |
| `Documents.FromData` | Ballcap/DataRepresentable.swift:37-48 | `init?(id:from:)` is nil exactly when decoding fails. On success the reference is `id` in the given collection, or in `Document.collectionReference` when none is given. The model is present and the snapshot is absent. Each timestamp is the payload's own Timestamp under its key, else its own clock reading. |
| `Documents.FromSnapshot` | Ballcap/DataRepresentable.swift:50-65 | `init?(snapshot:)` is nil exactly when the snapshot has data that fails to decode. A document always records its snapshot and reference. Its model is present exactly when the snapshot exists. A snapshot without data gives the base document with no model. A snapshot with data that decodes carries the decoded model. Each of its timestamps is the payload's own Timestamp, else its own clock reading. |
| `Documents.FromDataAgreesWithFromSnapshot` | Ballcap/DataRepresentable.swift:37-65 | On the same payload and reference, both failable initialisers fail together. When they succeed they differ only in the recorded snapshot. |
| `Documents.InitFromData` | Ballcap/DataRepresentable.swift:37-48 | The field-by-field initialiser returns nil exactly when `FromData` does. Otherwise it returns a fresh document whose state is `FromData`'s. |
| `Documents.InitFromSnapshot` | Ballcap/DataRepresentable.swift:50-65 | The field-by-field initialiser returns nil exactly when `FromSnapshot` does. Otherwise it returns a fresh document whose state is `FromSnapshot`'s. |
| `Documents.Document.WithId` | Ballcap/DataRepresentable.swift:31-35 | `init(id:)` references `id` in the given collection, or in `Document.collectionReference` when none is given. It holds the default model and no snapshot. |
| `Documents.Document.Save` | Ballcap/DataRepresentable.swift:70-74 | Commits exactly one intent: a save of this document. Firestore's answer reaches the completion unchanged. The `reference` argument plays no part. |
| `Documents.Document.Update` | Ballcap/DataRepresentable.swift:76-80 | Commits exactly one intent: an update of this document. Firestore's answer reaches the completion unchanged. The `reference` argument plays no part. |
| `Documents.Document.Delete` | Ballcap/DataRepresentable.swift:82-86 | Commits exactly one intent: a delete of this document. Firestore's answer reaches the completion unchanged. The `reference` argument plays no part. |
| `Fetch.Cached` | Ballcap/DataRepresentable.swift:157-159 | `get(documentReference:)` is nil exactly when the Store holds no document for the reference. Otherwise it is the Store's entry. |
| `Fetch.RemoteLeg` | Ballcap/DataRepresentable.swift:99-113 | A read's callback completes with exactly one of a document or an error. A transport error passes through unchanged. `invalidData` comes exactly when there is no error and the snapshot is missing, does not exist or fails to decode. A document comes only from an existing snapshot and holds a model. No error, an existing snapshot and a successful decode give `(document, nil)`, with the document `init?(snapshot:)` builds. |
| `Fetch.Get` | Ballcap/DataRepresentable.swift:93-150 | A call makes between two and four events. |
| `Fetch.GetById` | Ballcap/DataRepresentable.swift:152-155 | The trace is `get`'s, on `id` in `Document.collectionReference` (line 153, through `init(id:)`), so every lemma about `get` carries over. Every lookup and read targets that reference. |
| `Fetch.GetCompletions` | Ballcap/DataRepresentable.swift:93-150 | The completions are the Store hit first (only for `.default`/`.cacheOnly` with a hit), then exactly one read outcome for the policy's tier. |
| `Fetch.GetCompletionCount` | Ballcap/DataRepresentable.swift:93-150 | The completion fires once or twice. It fires once on a Store miss and always under `.networkOnly`. It fires twice exactly for `.default` or `.cacheOnly` with a Store hit. |
| `Fetch.GetStoreHitFirst` | Ballcap/DataRepresentable.swift:95-118 | Under `.default`/`.cacheOnly` with a Store hit, the trace begins with lookup, then completion with the cached document, then the read. The hit is the first completion. |
| `Fetch.GetIssuesOneRead` | Ballcap/DataRepresentable.swift:99-148 | Exactly one read is issued, on the policy's tier: unqualified for `.default`, cache for `.cacheOnly`, server for `.networkOnly`. It is followed by exactly one completion, which is the last. |
| `Fetch.GetConsultsStore` | Ballcap/DataRepresentable.swift:94-134 | The Store is looked up exactly under `.default` and `.cacheOnly`. Under `.networkOnly` the trace is exactly the server read followed by its one completion, so it does not depend on the Store. |
| `Fetch.GetReadsOnlyItsTier` | Ballcap/DataRepresentable.swift:99-134 | Two databases that answer the same on the policy's tier, for this reference, give the same trace. |
| `Fetch.GetCompletionsWellFormed` | Ballcap/DataRepresentable.swift:96-148 | Every completion carries a document or an error, never both or neither. |
| `Fetch.GetDeliversDecodedDocument` | Ballcap/DataRepresentable.swift:108-112 | Suppose the read returns no error and an existing snapshot that decodes. Then, under every policy, the last completion is `(document, nil)`, and the document carries the decoded model. |
| `Fetch.GetMissingDocumentIsInvalidData` | Ballcap/DataRepresentable.swift:104-107 | Suppose the read returns no error and the document is missing or does not exist. Then the last completion is `(nil, invalidData)` under every policy. |
| `Listen.Handler` | Ballcap/DataRepresentable.swift:162-172 | An error passes through. Neither snapshot nor error traps on `snapshot!`. `invalidData` comes exactly when an existing snapshot fails to decode. A delivered document is what `init?(snapshot:)` makes of the snapshot. Whenever `init?(snapshot:)` succeeds, including on a non-existent snapshot, the handler delivers `(document, nil)`. |
| `Listen.ListenDiffersFromGetOnMissingDocument` | Ballcap/DataRepresentable.swift:161-172 | For a non-existent snapshot, `get` completes with `invalidData`. `listen` delivers a document with no model and the snapshot recorded. |
| `Listen.ListenAgreesWithGetOtherwise` | Ballcap/DataRepresentable.swift:161-172 | For an error or an existing snapshot, `listen` and `get` give the same completion. |
| `Listen.Deliveries` | Ballcap/DataRepresentable.swift:162-172 | Notifications are handled one by one, in order. Everything before the last delivery completes. Fewer deliveries than notifications means the last one trapped. |
| `Listen.Listen` | Ballcap/DataRepresentable.swift:161-174 | The listener is on `id` in `Self.collectionReference` (line 162) and passes `includeMetadataChanges` on. If Firestore sends a snapshot or an error every time, each notification yields exactly one well-formed completion, in order. |

## Left out

- Firestore I/O (`getDocument`, `addSnapshotListener`, reference construction): foreign calls. Their answers are inputs.
- `Firestore.Decoder().decode`: a library with its own schema logic. It is a given partial function.
- `Timestamp(date: Date())`: a clock. Its readings are inputs.
- `init()` and `init(collectionReference:)`: these differ from `init(id:)` only by Firestore's auto-generated id, which is foreign.
- Object identity and aliasing of Store documents. The Store is a map to document values, so "the same instance as the Store's" is not captured.
- Store, Batch and Disposer internals: their files are not part of this model.
  - `Batch` is modelled only as staging intents and one commit.
  - Store updates after a commit or a read are left out.
  - Disposal is left out: the notifications given to `Listen` are those that arrive before disposal.
- Asynchronous scheduling: a trace gives the order of events, not the threads they run on.
- Default arguments: `cachePolicy = .default` (lines 93 and 152) and `includeMetadataChanges = true` (line 161). Every model function takes these explicitly; a caller omitting them is the call with those values.
- Document.Save, Document.Update, Document.Delete: the completion is optional (lines 70, 76 and 82). When it is nil nothing is reported, but the model always returns `reported`, which is then the answer no one receives.
- `print` logging, and the Swift generics and `associatedtype` machinery: a type parameter `M` stands for `Model`.
