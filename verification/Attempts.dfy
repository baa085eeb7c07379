/** One customer contact in a queue: the lock-guarded fields the runs, timers and reports of
    other goroutines race over. Each method is one section under the attempt's lock. */
module Attempts {
  import opened Options
  import opened ImTransfer

  /** A result reported for an attempt, by an agent, by a schema or by a timeout. */
  datatype Callback = Callback(status: string, description: string)

  class Attempt {
    const id: int
    var result: string
    var draft: Option<Callback>
    var canceled: bool
    var cancelClosed: bool
    var imTransferPending: bool
    var imTransferTo: int
    var imTransferredClosed: bool
    ghost var cancelCloses: nat
    ghost var transferCloses: nat

    /** A channel is closed at most once, and exactly when its flag says so. */
    ghost predicate Valid()
      reads this
    {
      && cancelClosed == canceled && cancelCloses == (if canceled then 1 else 0)
      && transferCloses == (if imTransferredClosed then 1 else 0)
    }

    ghost function TransferFlags(): Flags
      reads this
    {
      Flags(imTransferPending, imTransferTo, imTransferredClosed, transferCloses)
    }

    constructor (id: int)
      ensures Valid() && this.id == id && result == "" && draft == None && !canceled && TransferFlags() == FRESH
    {
      this.id := id;
      result := "";
      draft := None;
      canceled := false;
      cancelClosed := false;
      imTransferPending := false;
      imTransferTo := 0;
      imTransferredClosed := false;
      cancelCloses := 0;
      transferCloses := 0;
    }

    /** Closing a closed channel would panic: the flag is tested under the same lock. */
    method SetCancel()
      requires Valid()
      modifies this`canceled, this`cancelClosed, this`cancelCloses
      ensures Valid() && canceled
      ensures cancelCloses == 1
    {
      if !canceled {
        canceled := true;
        assert !cancelClosed;
        cancelClosed := true;
        cancelCloses := cancelCloses + 1;
      }
    }

    method UseDraft(callback: Callback)
      modifies this`draft
      ensures draft == Some(callback)
    {
      draft := Some(callback);
    }

    method DropDraftResult()
      modifies this`draft
      ensures draft == None
    {
      draft := None;
    }

    method ReserveIMTransfer() returns (ok: bool)
      requires Valid()
      modifies this`imTransferPending
      ensures Valid() && ok == CanReserve(old(TransferFlags()))
      ensures TransferFlags() == Reserve(old(TransferFlags()))
      ensures ok <==> !old(imTransferPending) && !imTransferredClosed
      ensures imTransferPending <==> ok || old(imTransferPending)
    {
      if imTransferPending || imTransferredClosed {
        return false;
      }
      imTransferPending := true;
      return true;
    }

    method SetIMTransferTo(toId: int)
      requires Valid()
      modifies this`imTransferTo
      ensures Valid() && TransferFlags() == Record(old(TransferFlags()), toId)
      ensures imTransferTo == toId
    {
      imTransferTo := toId;
    }

    method ReleaseIMTransfer(toId: int)
      requires Valid()
      modifies this`imTransferPending, this`imTransferTo
      ensures Valid() && TransferFlags() == Release(old(TransferFlags()), toId)
      ensures old(imTransferTo) in {0, toId} ==> !imTransferPending && imTransferTo == 0
      ensures old(imTransferTo) !in {0, toId} ==>
                imTransferPending == old(imTransferPending) && imTransferTo == old(imTransferTo)
    {
      if imTransferTo == 0 || imTransferTo == toId {
        imTransferPending := false;
        imTransferTo := 0;
      }
    }

    method CompleteIMTransfer()
      requires Valid()
      modifies this`imTransferPending, this`imTransferredClosed, this`transferCloses
      ensures Valid() && TransferFlags() == Complete(old(TransferFlags()))
      ensures imTransferredClosed && transferCloses == 1
      ensures imTransferPending <==> old(imTransferredClosed) && old(imTransferPending)
    {
      if imTransferredClosed {
        return;
      }
      imTransferPending := false;
      imTransferredClosed := true;
      transferCloses := transferCloses + 1;
    }
  }
}
