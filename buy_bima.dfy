/** Buying BIMA stablecoins: a purchase flow (amount, payment method,
    confirmation that may fail) with a record list, and a converter from a
    crypto amount to BIMA at fixed rates less a 2% fee. */
module BuyBima {
  import opened Options
  import opened Numbers

  datatype PurchaseRecord = PurchaseRecord(amount: Field, paymentMethod: string, status: string)

  const TransactionFeeRate := 0.02

  /** The fixed table `rates[selectedCrypto]`: BIMA per unit of the crypto. */
  function RateOf(crypto: string): Option<real> {
    if crypto == "BTC" then Some(0.005)
    else if crypto == "ETH" then Some(0.1)
    else if crypto == "USDC" then Some(0.25)
    else if crypto == "DAI" then Some(0.25)
    else if crypto == "BSC" then Some(0.5)
    else if crypto == "MATIC" then Some(1.0)
    else if crypto == "AVALANCHE" then Some(0.3)
    else None
  }

  /** The select's options, all of which have a rate. */
  const CryptoOptions: seq<string> := ["BTC", "ETH", "USDC", "DAI", "BSC", "MATIC", "AVALANCHE"]

  /** `rate * conversionAmount`: the field's text converts with `Number`, so
      an empty field gives 0; a crypto without a rate gives `NaN`. */
  function Convert(crypto: string, amount: Field): (r: JsNumber)
    ensures r.NaN? <==> RateOf(crypto).None?
    ensures r.Finite? ==> r.value == RateOf(crypto).value * ToNumber(amount)
    ensures r.Finite? && amount.Blank? ==> r.value == 0.0
  {
    match RateOf(crypto)
    case None => NaN
    case Some(rate) => Finite(rate * ToNumber(amount))
  }

  /** `result - result * transactionFeeRate`. */
  function AfterFee(result: JsNumber): (r: JsNumber)
    ensures r.NaN? <==> result.NaN?
    ensures r.Finite? ==> r.value == 0.98 * result.value
  {
    match result
    case NaN => NaN
    case Finite(x) => Finite(x - x * TransactionFeeRate)
  }

  /** Every offered crypto converts to a number, never `NaN`. */
  lemma OfferedCryptosConvert(crypto: string, amount: Field)
    requires crypto in CryptoOptions
    ensures Convert(crypto, amount).Finite?
  {
  }

  /** The fee never adds: the adjusted amount lies between 0 and the result
      for a non-negative result, and dividing by 0.98 recovers the result. */
  lemma AfterFeeBounds(x: real)
    ensures x >= 0.0 ==> 0.0 <= AfterFee(Finite(x)).value <= x
    ensures AfterFee(Finite(x)).value / 0.98 == x
  {
  }

  /** 10 ETH give 1 BIMA before the fee and 0.98 after. */
  lemma TenEthExample()
    ensures Convert("ETH", Num(10.0)) == Finite(1.0)
    ensures AfterFee(Convert("ETH", Num(10.0))) == Finite(0.98)
  {
  }

  // ---- The purchase flow as a sequence of events ------------------------

  /** What the timer callback of one confirmation captured: the amount and
      the method of the render in which Confirm was clicked. */
  datatype PendingPurchase = PendingPurchase(amount: Field, paymentMethod: string)

  /** The purchase part of the component's state. `pending` holds the
      confirmations whose 2-second timers have not fired yet, oldest first. */
  datatype PurchaseFlow = PurchaseFlow(
    amount: Field,
    loading: bool,
    paymentMethod: string,
    showModal: bool,
    pending: seq<PendingPurchase>,
    records: seq<PurchaseRecord>)

  function InitialFlow(): PurchaseFlow {
    PurchaseFlow(Blank, false, "", false, [], [])
  }

  /** What the user and the timers can do. `TimerFires` runs the oldest
      pending callback with the outcome of its random draw. */
  datatype Event =
    | EnterAmount(a: Field)
    | ClickPurchase(payment: string)
    | Confirm
    | Cancel
    | TimerFires(success: bool)

  /** Whether the page lets the event happen. The confirmation's overlay
      covers the page while it is open; the amount inputs are disabled while
      loading; a purchase button is disabled while it shows the spinner,
      which it does only for the method being processed; Confirm and Cancel
      exist only in the open confirmation; a timer fires only if pending. */
  predicate Enabled(s: PurchaseFlow, e: Event) {
    match e
    case EnterAmount(_) => !s.showModal && !s.loading
    case ClickPurchase(payment) => !s.showModal && !(s.loading && s.paymentMethod == payment)
    case Confirm => s.showModal
    case Cancel => s.showModal
    case TimerFires(_) => |s.pending| > 0
  }

  /** One event as the handlers are written: `handlePurchase`,
      `confirmPurchase` (which only starts the timer) and the timer's
      callback, which records the captured pair and clears the current
      amount. */
  function Step(s: PurchaseFlow, e: Event): (r: PurchaseFlow)
    requires Enabled(s, e)
    ensures e.TimerFires? ==> r.pending == s.pending[1..] && !r.loading
    ensures e.TimerFires? && e.success ==>
              r.records == s.records + [PurchaseRecord(s.pending[0].amount, s.pending[0].paymentMethod, "Completed")]
              && r.amount == Blank
    ensures !(e.TimerFires? && e.success) ==> r.records == s.records
  {
    match e
    case EnterAmount(a) => s.(amount := a)
    case ClickPurchase(payment) =>
      if !IsPositiveAmount(s.amount) then s
      else s.(paymentMethod := payment, showModal := true)
    case Confirm =>
      s.(loading := true, showModal := false,
         pending := s.pending + [PendingPurchase(s.amount, s.paymentMethod)])
    case Cancel => s.(showModal := false)
    case TimerFires(success) =>
      var p := s.pending[0];
      if success then
        s.(loading := false, pending := s.pending[1..],
           records := s.records + [PurchaseRecord(p.amount, p.paymentMethod, "Completed")],
           amount := Blank)
      else s.(loading := false, pending := s.pending[1..])
  }

  /** A sequence of events as written; an event the page does not allow at
      that moment does nothing. */
  function Run(s: PurchaseFlow, events: seq<Event>): PurchaseFlow
    decreases |events|
  {
    if events == [] then s
    else Run(if Enabled(s, events[0]) then Step(s, events[0]) else s, events[1..])
  }

  /** Every event of the list is allowed when it comes. */
  predicate AllEnabled(s: PurchaseFlow, events: seq<Event>)
    decreases |events|
  {
    events == [] || (Enabled(s, events[0]) && AllEnabled(Step(s, events[0]), events[1..]))
  }

  /** The purchase of 5 by credit card is confirmed; during its 2 seconds the
      bank-transfer button, which shows no spinner, reopens the confirmation;
      the first callback records 5 and clears the amount; Confirm then
      captures the empty amount, and its callback records a completed
      purchase of nothing. */
  const BlankPurchaseTrace: seq<Event> := [
    EnterAmount(Num(5.0)), ClickPurchase("Credit Card"), Confirm,
    ClickPurchase("Bank Transfer"), TimerFires(true), Confirm, TimerFires(true)]

  lemma BlankRecordAsWritten()
    ensures AllEnabled(InitialFlow(), BlankPurchaseTrace)
    ensures Run(InitialFlow(), BlankPurchaseTrace).records ==
            [PurchaseRecord(Num(5.0), "Credit Card", "Completed"),
             PurchaseRecord(Blank, "Bank Transfer", "Completed")]
  {
    var s0 := InitialFlow();
    var s1 := Step(s0, EnterAmount(Num(5.0)));
    var s2 := Step(s1, ClickPurchase("Credit Card"));
    var s3 := Step(s2, Confirm);
    var s4 := Step(s3, ClickPurchase("Bank Transfer"));
    var s5 := Step(s4, TimerFires(true));
    var s6 := Step(s5, Confirm);
    assert s6.pending == [PendingPurchase(Blank, "Bank Transfer")];
    var s7 := Step(s6, TimerFires(true));
    var t := BlankPurchaseTrace;
    assert t[1..][1..][1..][1..][1..][1..][1..] == [];
    assert Run(s7, []) == s7;
    assert AllEnabled(s7, []);
  }

  /** The evidently intended handler: `handlePurchase` also refuses while a
      purchase is being processed, as the spinner on its button suggests. */
  function CorrectedStep(s: PurchaseFlow, e: Event): PurchaseFlow
    requires Enabled(s, e)
  {
    if e.ClickPurchase? && s.loading then s else Step(s, e)
  }

  function CorrectedRun(s: PurchaseFlow, events: seq<Event>): PurchaseFlow
    decreases |events|
  {
    if events == [] then s
    else CorrectedRun(if Enabled(s, events[0]) then CorrectedStep(s, events[0]) else s, events[1..])
  }

  /** The corrected flow's invariant: at most one purchase is in flight,
      exactly while loading; the confirmation is only open, for a positive
      amount, when nothing is; every captured and every recorded amount is
      positive. */
  ghost predicate Settled(s: PurchaseFlow) {
    && |s.pending| == (if s.loading then 1 else 0)
    && (s.showModal ==> !s.loading && IsPositiveAmount(s.amount))
    && (forall i :: 0 <= i < |s.pending| ==> IsPositiveAmount(s.pending[i].amount))
    && (forall i :: 0 <= i < |s.records| ==>
          IsPositiveAmount(s.records[i].amount) && s.records[i].status == "Completed")
  }

  lemma CorrectedStepSettled(s: PurchaseFlow, e: Event)
    requires Settled(s) && Enabled(s, e)
    ensures Settled(CorrectedStep(s, e))
  {
  }

  lemma {:induction false} CorrectedRunSettled(s: PurchaseFlow, events: seq<Event>)
    requires Settled(s)
    ensures Settled(CorrectedRun(s, events))
    decreases |events|
  {
    if events != [] {
      var next := if Enabled(s, events[0]) then CorrectedStep(s, events[0]) else s;
      if Enabled(s, events[0]) {
        CorrectedStepSettled(s, events[0]);
      }
      CorrectedRunSettled(next, events[1..]);
    }
  }

  /** With the corrected handler, whatever the user does and however the
      timers turn out, every record is a completed purchase of a positive
      amount. */
  lemma CorrectedRecordsPositive(events: seq<Event>)
    ensures var r := CorrectedRun(InitialFlow(), events).records;
            forall i :: 0 <= i < |r| ==> IsPositiveAmount(r[i].amount) && r[i].status == "Completed"
  {
    CorrectedRunSettled(InitialFlow(), events);
  }

  /** The state of the `BuyBIMA` component. */
  class BuyView {
    var amount: Field
    var loading: bool
    var paymentMethod: string
    var showModal: bool
    var conversionAmount: Field
    var selectedCrypto: string
    var conversionResult: Option<JsNumber>
    var adjustedBima: Option<JsNumber>
    var purchaseRecords: seq<PurchaseRecord>
    /** The callbacks of the running timers, oldest first. */
    var pending: seq<PendingPurchase>

    /** The purchase part of the state. */
    function Flow(): PurchaseFlow
      reads this
    {
      PurchaseFlow(amount, loading, paymentMethod, showModal, pending, purchaseRecords)
    }

    /** Every record is a completed purchase. */
    ghost predicate Valid()
      reads this
    {
      forall i :: 0 <= i < |purchaseRecords| ==> purchaseRecords[i].status == "Completed"
    }

    constructor ()
      ensures Valid() && Flow() == InitialFlow()
      ensures amount == Blank && !loading && paymentMethod == "" && !showModal
      ensures conversionAmount == Blank && selectedCrypto == "ETH"
      ensures conversionResult == None && adjustedBima == None && purchaseRecords == [] && pending == []
    {
      amount := Blank;
      loading := false;
      paymentMethod := "";
      showModal := false;
      conversionAmount := Blank;
      selectedCrypto := "ETH";
      conversionResult := None;
      adjustedBima := None;
      purchaseRecords := [];
      pending := [];
    }

    /** The purchase amount inputs; the confirmation's overlay covers them
        while it is open, and they are disabled while loading. */
    method SetAmount(a: Field)
      requires Valid() && Enabled(Flow(), EnterAmount(a))
      modifies this`amount
      ensures Valid() && amount == a
      ensures Flow() == Step(old(Flow()), EnterAmount(a))
    {
      amount := a;
    }

    /** `handlePurchase`: an empty or non-positive amount is refused and
        nothing changes; otherwise the method is kept and the confirmation
        opens, whether or not another purchase is being processed. */
    method Purchase(payment: string) returns (accepted: bool)
      requires Valid() && Enabled(Flow(), ClickPurchase(payment))
      modifies this`paymentMethod, this`showModal
      ensures Valid()
      ensures accepted <==> IsPositiveAmount(amount)
      ensures accepted ==> paymentMethod == payment && showModal
      ensures !accepted ==> paymentMethod == old(paymentMethod) && showModal == old(showModal)
      ensures Flow() == Step(old(Flow()), ClickPurchase(payment))
    {
      if amount.Blank? || amount.value <= 0.0 {
        return false;
      }
      paymentMethod := payment;
      showModal := true;
      return true;
    }

    /** The confirmation's Cancel, and its `onClose`. */
    method CancelPurchase()
      requires Valid() && Enabled(Flow(), Cancel)
      modifies this`showModal
      ensures Valid() && !showModal
      ensures Flow() == Step(old(Flow()), Cancel)
    {
      showModal := false;
    }

    /** `confirmPurchase`: loading starts, the confirmation closes and a
        timer starts whose callback captured the current amount and method. */
    method ConfirmPurchase()
      requires Valid() && Enabled(Flow(), Confirm)
      modifies this`loading, this`showModal, this`pending
      ensures Valid() && loading && !showModal
      ensures pending == old(pending) + [PendingPurchase(amount, paymentMethod)]
      ensures Flow() == Step(old(Flow()), Confirm)
    {
      loading := true;
      showModal := false;
      pending := pending + [PendingPurchase(amount, paymentMethod)];
    }

    /** The oldest timer's callback; `success` is its random draw. Loading
        stops; a success records the captured amount and method and clears
        the current amount, a failure changes neither. */
    method FinishConfirm(success: bool)
      requires Valid() && Enabled(Flow(), TimerFires(success))
      modifies this`loading, this`pending, this`purchaseRecords, this`amount
      ensures Valid() && !loading && pending == old(pending)[1..]
      ensures success ==> purchaseRecords == old(purchaseRecords) +
                            [PurchaseRecord(old(pending)[0].amount, old(pending)[0].paymentMethod, "Completed")]
                          && amount == Blank
      ensures !success ==> purchaseRecords == old(purchaseRecords) && amount == old(amount)
      ensures Flow() == Step(old(Flow()), TimerFires(success))
    {
      var p := pending[0];
      loading := false;
      pending := pending[1..];
      if success {
        purchaseRecords := purchaseRecords + [PurchaseRecord(p.amount, p.paymentMethod, "Completed")];
        amount := Blank;
      }
    }

    method SetConversionAmount(a: Field)
      modifies this`conversionAmount
      ensures conversionAmount == a
    {
      conversionAmount := a;
    }

    method SetSelectedCrypto(crypto: string)
      modifies this`selectedCrypto
      ensures selectedCrypto == crypto
    {
      selectedCrypto := crypto;
    }

    /** `handleConversion`: the result and the amount after the fee. */
    method Conversion()
      modifies this`conversionResult, this`adjustedBima
      ensures conversionResult == Some(Convert(selectedCrypto, conversionAmount))
      ensures adjustedBima == Some(AfterFee(Convert(selectedCrypto, conversionAmount)))
    {
      var result := Convert(selectedCrypto, conversionAmount);
      conversionResult := Some(result);
      adjustedBima := Some(AfterFee(result));
    }
  }
}
