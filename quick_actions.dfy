/** The quick-actions card: five buttons that open one modal; only
    "Transfer Assets" has a form (asset, amount, recipient), whose asset
    sets a fee and whose submit is a delayed fake request. */
module QuickActions {
  import opened Numbers

  const TransferAction := "Transfer Assets"

  /** The five buttons. */
  const Actions: seq<string> := ["Deposit", "Withdraw", "Switch Strategy", TransferAction, "Start Yield Farming"]

  /** `assetData[value]?.fee || 0`: the fee of a listed asset, 0 for any
      other value, including the placeholder's "". */
  function AssetFee(asset: string): (r: real)
    ensures r > 0.0 <==> asset in {"usdc", "eth", "btc"}
    ensures r >= 0.0
  {
    if asset == "usdc" then 0.01
    else if asset == "eth" then 0.02
    else if asset == "btc" then 0.003
    else 0.0
  }

  /** The state of the `QuickActions` card. */
  class QuickActionsView {
    var isOpen: bool
    var currentAction: string
    var selectedAsset: string
    var amount: Field
    var recipientAddress: string
    var loading: bool
    var fee: real

    /** Only the transfer form can fill the fields, and a chosen asset shows
        its own fee. */
    ghost predicate Valid()
      reads this
    {
      && (currentAction != TransferAction ==> selectedAsset == "" && amount == Blank && recipientAddress == "")
      && (selectedAsset != "" ==> fee == AssetFee(selectedAsset))
    }

    constructor ()
      ensures Valid()
      ensures !isOpen && currentAction == "" && selectedAsset == "" && amount == Blank
      ensures recipientAddress == "" && !loading && fee == 0.0
    {
      isOpen := false;
      currentAction := "";
      selectedAsset := "";
      amount := Blank;
      recipientAddress := "";
      loading := false;
      fee := 0.0;
    }

    /** The Submit button's enabled state. */
    predicate SubmitEnabled()
      reads this
    {
      !loading && selectedAsset != "" && amount != Blank && recipientAddress != ""
    }

    /** Only the transfer form can ever be submitted: the other actions
        render no fields, so their Submit stays disabled. */
    lemma OnlyTransferSubmits()
      requires Valid()
      ensures SubmitEnabled() ==> currentAction == TransferAction && fee == AssetFee(selectedAsset)
    {
    }

    /** `handleOpen`: a fresh form for the action, fee back to 0. */
    method Open(action: string)
      requires Valid()
      modifies this`currentAction, this`selectedAsset, this`amount, this`recipientAddress, this`fee, this`isOpen
      ensures Valid()
      ensures currentAction == action && selectedAsset == "" && amount == Blank && recipientAddress == ""
      ensures fee == 0.0 && isOpen
      ensures !SubmitEnabled()
    {
      currentAction := action;
      selectedAsset := "";
      amount := Blank;
      recipientAddress := "";
      fee := 0.0;
      isOpen := true;
    }

    /** `handleAssetChange`; the select is on screen only in the transfer
        form, and not while the request runs. */
    method AssetChange(value: string)
      requires Valid() && currentAction == TransferAction && !loading
      modifies this`selectedAsset, this`fee
      ensures Valid()
      ensures selectedAsset == value && fee == AssetFee(value)
    {
      selectedAsset := value;
      fee := AssetFee(value);
    }

    method SetAmount(a: Field)
      requires Valid() && currentAction == TransferAction && !loading
      modifies this`amount
      ensures Valid() && amount == a
    {
      amount := a;
    }

    method SetRecipient(address: string)
      requires Valid() && currentAction == TransferAction && !loading
      modifies this`recipientAddress
      ensures Valid() && recipientAddress == address
    {
      recipientAddress := address;
    }

    /** `handleSubmit`, first half: the button starts the request. */
    method BeginSubmit()
      requires Valid() && SubmitEnabled()
      modifies this`loading
      ensures Valid() && loading && !SubmitEnabled()
    {
      loading := true;
    }

    /** `handleSubmit`, second half: the delayed callback closes the modal
        and clears the form. The fee and the action are left as they were. */
    method FinishSubmit()
      requires Valid()
      modifies this`loading, this`isOpen, this`selectedAsset, this`amount, this`recipientAddress
      ensures Valid()
      ensures !loading && !isOpen && selectedAsset == "" && amount == Blank && recipientAddress == ""
      ensures fee == old(fee) && currentAction == old(currentAction)
    {
      loading := false;
      isOpen := false;
      selectedAsset := "";
      amount := Blank;
      recipientAddress := "";
    }

    /** The Close button and the close icon. */
    method Close()
      modifies this`isOpen
      ensures !isOpen
    {
      isOpen := false;
    }
  }
}
