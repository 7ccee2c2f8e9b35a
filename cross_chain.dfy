/** Cross-chain transfers: a form (chains, asset, amount) whose transfer is
    validated, priced at a 1% fee, confirmed into a history list, and
    deletable from that list by transaction ID. */
module CrossChain {
  import opened Seqs
  import opened Numbers

  /** A completed transfer in the history. `amount` is the parsed amount to
      cents (`NaN` if the field was empty); `fees` the fee shown when it was
      initiated. */
  datatype TransferRecord = TransferRecord(
    asset: string,
    amount: JsNumber,
    sourceChain: string,
    destinationChain: string,
    fees: real,
    status: string,
    date: string,
    transactionId: string,
    explorerLink: string)

  const ExplorerLink := "https://explorer.example.com"

  /** The estimated fee: 1% of the amount, to cents. */
  function TransferFee(amount: real): (r: real)
    ensures WholeHundredths(r)
    ensures -0.005 <= r - amount * 0.01 <= 0.005
    ensures amount >= 0.0 ==> r >= 0.0
  {
    Round2(amount * 0.01)
  }

  /** `parseFloat(amount).toFixed(2)`. */
  function RecordedAmount(amount: Field): (r: JsNumber)
    ensures r.NaN? <==> amount.Blank?
    ensures amount.Num? ==> -0.005 <= r.value - amount.value <= 0.005
    ensures r.Finite? ==> WholeHundredths(r.value)
  {
    match ParseFloat(amount)
    case NaN => NaN
    case Finite(v) => Finite(Round2(v))
  }

  /** The record `handleConfirmTransfer` appends. */
  function NewRecord(asset: string, amount: Field, source: string, destination: string,
                     fees: real, date: string, id: string): TransferRecord
  {
    TransferRecord(asset, RecordedAmount(amount), source, destination, fees, "Completed", date, id, ExplorerLink)
  }

  /** A transfer confirmed after its amount was accepted records a number,
      not `NaN`, that is non-negative, and a fee within a cent of 1% of it. */
  lemma AcceptedTransferRecord(asset: string, amount: Field, source: string, destination: string,
                               date: string, id: string)
    requires IsPositiveAmount(amount)
    ensures var rec := NewRecord(asset, amount, source, destination, TransferFee(amount.value), date, id);
            && rec.amount.Finite? && rec.amount.value >= 0.0
            && -0.01 <= rec.fees - rec.amount.value * 0.01 <= 0.01
            && rec.status == "Completed" && rec.transactionId == id
  {
  }

  function OtherId(id: string): TransferRecord -> bool {
    (tx: TransferRecord) => tx.transactionId != id
  }

  /** `handleDeleteTransaction`: drop every record with that ID. */
  function DeleteTransaction(history: seq<TransferRecord>, id: string): seq<TransferRecord> {
    Filter(history, OtherId(id))
  }

  /** Deleting keeps exactly the records with another ID, in order. */
  lemma DeleteSpec(history: seq<TransferRecord>, id: string)
    ensures IsSubsequence(DeleteTransaction(history, id), history)
    ensures forall tx :: tx in DeleteTransaction(history, id) <==> tx in history && tx.transactionId != id
  {
    FilterIsSubsequence(history, OtherId(id));
  }

  /** Deleting an ID that is not in the history changes nothing, and
      deleting twice is deleting once. */
  lemma DeleteAbsentAndTwice(history: seq<TransferRecord>, id: string)
    ensures (forall i :: 0 <= i < |history| ==> history[i].transactionId != id) ==> DeleteTransaction(history, id) == history
    ensures DeleteTransaction(DeleteTransaction(history, id), id) == DeleteTransaction(history, id)
  {
    if forall i :: 0 <= i < |history| ==> history[i].transactionId != id {
      FilterKeepsAll(history, OtherId(id));
    }
    FilterIdempotent(history, OtherId(id));
  }

  /** Deleting a just-confirmed transfer by its fresh ID restores the
      history. */
  lemma {:induction false} DeleteUndoesConfirm(history: seq<TransferRecord>, rec: TransferRecord)
    requires forall i :: 0 <= i < |history| ==> history[i].transactionId != rec.transactionId
    ensures DeleteTransaction(history + [rec], rec.transactionId) == history
  {
    FilterAppend(history, [rec], OtherId(rec.transactionId));
    FilterKeepsAll(history, OtherId(rec.transactionId));
    assert Filter([rec], OtherId(rec.transactionId)) == [];
  }

  /** The state of the `CrossChainTransfer` component. */
  class TransferView {
    var sourceChain: string
    var destinationChain: string
    var asset: string
    var amount: Field
    var estimatedFees: real
    var transactionTime: string
    var transactionHistory: seq<TransferRecord>
    var isLoading: bool
    var isOpen: bool

    constructor ()
      ensures sourceChain == "Ethereum" && destinationChain == "Binance Smart Chain"
      ensures asset == "BIMA Stablecoin" && amount == Blank && estimatedFees == 0.0
      ensures transactionTime == "5-10 minutes" && transactionHistory == []
      ensures !isLoading && !isOpen
    {
      sourceChain := "Ethereum";
      destinationChain := "Binance Smart Chain";
      asset := "BIMA Stablecoin";
      amount := Blank;
      estimatedFees := 0.0;
      transactionTime := "5-10 minutes";
      transactionHistory := [];
      isLoading := false;
      isOpen := false;
    }

    method SetSourceChain(chain: string)
      modifies this`sourceChain
      ensures sourceChain == chain
    {
      sourceChain := chain;
    }

    method SetDestinationChain(chain: string)
      modifies this`destinationChain
      ensures destinationChain == chain
    {
      destinationChain := chain;
    }

    method SetAsset(a: string)
      modifies this`asset
      ensures asset == a
    {
      asset := a;
    }

    method SetAmount(a: Field)
      modifies this`amount
      ensures amount == a
    {
      amount := a;
    }

    /** `handleTransfer`: an invalid amount is refused and nothing changes;
        a valid one sets the fee and the time and opens the confirmation. */
    method Transfer() returns (accepted: bool)
      modifies this`estimatedFees, this`transactionTime, this`isOpen
      ensures accepted <==> IsPositiveAmount(amount)
      ensures !accepted ==> estimatedFees == old(estimatedFees) && transactionTime == old(transactionTime) && isOpen == old(isOpen)
      ensures accepted ==> estimatedFees == TransferFee(amount.value) && transactionTime == "5 minutes" && isOpen
    {
      if !IsPositiveAmount(amount) {
        return false;
      }
      estimatedFees := TransferFee(amount.value);
      transactionTime := "5 minutes";
      isOpen := true;
      return true;
    }

    /** The modal's Cancel button. */
    method CancelTransfer()
      modifies this`isOpen
      ensures !isOpen
    {
      isOpen := false;
    }

    /** `handleConfirmTransfer`, taken as one step (the delayed callback
        runs to completion); `date` and `id` stand for the clock and the
        random ID. The form's amount and fee reset, the time does not. */
    method ConfirmTransfer(date: string, id: string)
      modifies this`transactionHistory, this`amount, this`estimatedFees, this`isLoading, this`isOpen
      ensures transactionHistory == old(transactionHistory) +
                [NewRecord(asset, old(amount), sourceChain, destinationChain, old(estimatedFees), date, id)]
      ensures amount == Blank && estimatedFees == 0.0 && !isLoading && !isOpen
    {
      isLoading := true;
      var tx := NewRecord(asset, amount, sourceChain, destinationChain, estimatedFees, date, id);
      transactionHistory := transactionHistory + [tx];
      amount := Blank;
      estimatedFees := 0.0;
      isLoading := false;
      isOpen := false;
    }

    method Delete(id: string)
      modifies this`transactionHistory
      ensures transactionHistory == DeleteTransaction(old(transactionHistory), id)
    {
      transactionHistory := DeleteTransaction(transactionHistory, id);
    }
  }
}
