/**
  The interface of Ballcap's Batch as DataRepresentable.swift uses it: stage
  write intents, then commit them to Firestore as one atomic write.
  Batch.swift is not part of this model; its encoding of documents and its
  updates of the Store after a commit are left out.
 */
module Batches {
  import opened Wrappers
  import opened Firestore

  datatype WriteKind = SaveWrite | UpdateWrite | DeleteWrite

  /** One staged write: what to do, and the document (as a value) it was staged for. */
  datatype WriteIntent<D> = WriteIntent(kind: WriteKind, document: D)

  class Batch<D> {
    var staged: seq<WriteIntent<D>>
    var committed: bool

    constructor ()
      ensures staged == [] && !committed
    {
      staged := [];
      committed := false;
    }

    method Save(document: D)
      requires !committed
      modifies this
      ensures staged == old(staged) + [WriteIntent(SaveWrite, document)] && !committed
    {
      staged := staged + [WriteIntent(SaveWrite, document)];
    }

    method Update(document: D)
      requires !committed
      modifies this
      ensures staged == old(staged) + [WriteIntent(UpdateWrite, document)] && !committed
    {
      staged := staged + [WriteIntent(UpdateWrite, document)];
    }

    method Delete(document: D)
      requires !committed
      modifies this
      ensures staged == old(staged) + [WriteIntent(DeleteWrite, document)] && !committed
    {
      staged := staged + [WriteIntent(DeleteWrite, document)];
    }

    /**
      Sends every staged intent as one atomic write and hands Firestore's
      answer (`remote`, nil on success) to the completion unchanged.
      A batch is committed once.
     */
    method Commit(remote: Option<TransportError>) returns (write: seq<WriteIntent<D>>, reported: Option<TransportError>)
      requires !committed
      modifies this
      ensures committed && staged == old(staged)
      ensures write == old(staged) && reported == remote
    {
      write := staged;
      reported := remote;
      committed := true;
    }
  }
}
