/** The "My Investments" ledger: a table of investment records keyed by
    strategy name, four fund actions submitted through one modal, and a
    per-record auto-rebalance switch. */
module Investments {
  import opened Options

  datatype TxType = Investment | Withdrawal

  /** One entry of a record's transaction history; `date` is the caller's
      rendering of the current day. */
  datatype Transaction = Transaction(date: string, amount: real, txType: TxType)

  /** One line of a record's history ("Added $…", "Withdrew $…", …). */
  datatype HistoryEntry = Added(amount: real) | Withdrew(amount: real) | Reallocated(amount: real) | SwitchedTo(strategy: string)

  datatype InvestmentRecord = InvestmentRecord(
    strategyName: string,
    strategyType: string,
    amountInvested: real,
    currentValue: real,
    realizedEarnings: real,
    unrealizedEarnings: real,
    apy: string,
    riskLevel: string,
    history: seq<HistoryEntry>,
    autoRebalance: bool,
    transactionHistory: seq<Transaction>)

  /** The action the modal was opened for; `NoAction` is the initial ''. */
  datatype Action = NoAction | AddFunds | WithdrawFunds | ReallocateFunds | SwitchStrategy

  const AmountAlert := "Amount must be greater than 0."
  const WithdrawalAlert := "Invalid withdrawal amount."
  const AddedAlert := "Funds added successfully!"
  const WithdrawnAlert := "Funds withdrawn successfully!"
  const ReallocatedAlert := "Funds reallocated successfully!"
  const SwitchedAlert := "Strategy switched successfully!"

  function InitialInvestments(): seq<InvestmentRecord> {
    [ InvestmentRecord("Yield Farming - ETH", "Yield Farming", 10000.0, 12000.0, 1500.0, 500.0, "10%", "Medium", [], false,
                       [Transaction("2024-01-01", 10000.0, Investment), Transaction("2024-02-01", 2000.0, Withdrawal)]),
      InvestmentRecord("Liquidity Pool - BSC", "Liquidity Pool", 5000.0, 5200.0, 200.0, 100.0, "8%", "Low", [], false, []),
      InvestmentRecord("Staking - MATIC", "Staking", 2000.0, 2100.0, 50.0, 50.0, "12%", "High", [], false, []) ]
  }

  // ---- The per-record rewrites -------------------------------------------

  /** `investments.map(i => i.strategyName === name ? f(i) : i)`. */
  function RewriteMatching(invs: seq<InvestmentRecord>, name: string, f: InvestmentRecord -> InvestmentRecord): seq<InvestmentRecord> {
    seq(|invs|, i requires 0 <= i < |invs| => if invs[i].strategyName == name then f(invs[i]) else invs[i])
  }

  function WithFundsAdded(rec: InvestmentRecord, amount: real, date: string): InvestmentRecord {
    rec.(amountInvested := rec.amountInvested + amount,
         currentValue := rec.currentValue + amount,
         history := rec.history + [Added(amount)],
         transactionHistory := rec.transactionHistory + [Transaction(date, amount, Investment)])
  }

  function WithFundsWithdrawn(rec: InvestmentRecord, amount: real, date: string): InvestmentRecord {
    rec.(amountInvested := rec.amountInvested - amount,
         currentValue := rec.currentValue - amount,
         history := rec.history + [Withdrew(amount)],
         transactionHistory := rec.transactionHistory + [Transaction(date, amount, Withdrawal)])
  }

  function WithFundsReallocated(rec: InvestmentRecord, amount: real): InvestmentRecord {
    rec.(amountInvested := rec.amountInvested + amount,
         history := rec.history + [Reallocated(amount)])
  }

  function WithStrategy(rec: InvestmentRecord, newStrategy: string): InvestmentRecord {
    rec.(strategyName := newStrategy,
         history := rec.history + [SwitchedTo(newStrategy)])
  }

  function ApplyAddFunds(invs: seq<InvestmentRecord>, name: string, amount: real, date: string): seq<InvestmentRecord> {
    RewriteMatching(invs, name, rec => WithFundsAdded(rec, amount, date))
  }

  function ApplyWithdraw(invs: seq<InvestmentRecord>, name: string, amount: real, date: string): seq<InvestmentRecord> {
    RewriteMatching(invs, name, rec => WithFundsWithdrawn(rec, amount, date))
  }

  function ApplyReallocate(invs: seq<InvestmentRecord>, name: string, amount: real): seq<InvestmentRecord> {
    RewriteMatching(invs, name, rec => WithFundsReallocated(rec, amount))
  }

  function ApplySwitch(invs: seq<InvestmentRecord>, name: string, newStrategy: string): seq<InvestmentRecord> {
    RewriteMatching(invs, name, rec => WithStrategy(rec, newStrategy))
  }

  /** The auto-rebalance switch's `onChange`. */
  function ToggleAutoRebalance(invs: seq<InvestmentRecord>, name: string): seq<InvestmentRecord> {
    RewriteMatching(invs, name, (rec: InvestmentRecord) => rec.(autoRebalance := !rec.autoRebalance))
  }

  // ---- The withdrawal guard ----------------------------------------------

  /** The guard as the source writes it: it compares the amount with the
      record that was selected when the modal opened, although the rewrite
      then applies to every record with that strategy name. */
  predicate WithdrawalAllowedAsWritten(selected: InvestmentRecord, amount: real) {
    !(amount <= 0.0 || amount > selected.amountInvested)
  }

  /** The guard the rewrite needs: a positive amount that no record it
      rewrites holds less of. */
  predicate WithdrawalAllowed(invs: seq<InvestmentRecord>, name: string, amount: real) {
    amount > 0.0 && forall i :: 0 <= i < |invs| && invs[i].strategyName == name ==> amount <= invs[i].amountInvested
  }

  predicate UniqueNames(invs: seq<InvestmentRecord>) {
    forall i, j :: 0 <= i < j < |invs| ==> invs[i].strategyName != invs[j].strategyName
  }

  predicate NonNegativeInvested(invs: seq<InvestmentRecord>) {
    forall i :: 0 <= i < |invs| ==> invs[i].amountInvested >= 0.0
  }

  // ---- handleSubmit as a function of the component state -----------------

  /** What a submit produces: the new table, the alert it sets (`None`: left
      as it was) and whether the modal closes. */
  datatype Outcome = Outcome(investments: seq<InvestmentRecord>, alert: Option<string>, closes: bool)

  /** The submit handler as written: a rejected amount sets an alert and
      returns before the modal closes; every other path rewrites the selected
      strategy's records and closes the modal. The withdrawal guard reads the
      record `selected` when the modal opened. */
  function SubmitOutcome(invs: seq<InvestmentRecord>, selected: InvestmentRecord, action: Action,
                         amount: real, newStrategy: string, date: string): Outcome
  {
    var name := selected.strategyName;
    match action
    case NoAction => Outcome(invs, None, true)
    case AddFunds =>
      if amount <= 0.0 then Outcome(invs, Some(AmountAlert), false)
      else Outcome(ApplyAddFunds(invs, name, amount, date), Some(AddedAlert), true)
    case WithdrawFunds =>
      if !WithdrawalAllowedAsWritten(selected, amount) then Outcome(invs, Some(WithdrawalAlert), false)
      else Outcome(ApplyWithdraw(invs, name, amount, date), Some(WithdrawnAlert), true)
    case ReallocateFunds => Outcome(ApplyReallocate(invs, name, amount), Some(ReallocatedAlert), true)
    case SwitchStrategy => Outcome(ApplySwitch(invs, name, newStrategy), Some(SwitchedAlert), true)
  }

  /** A submit is rejected exactly for a non-positive deposit or a withdrawal
      the guard refuses; a rejected submit leaves the table alone and the
      modal open, and says why. */
  lemma SubmitRejection(invs: seq<InvestmentRecord>, selected: InvestmentRecord, action: Action,
                        amount: real, newStrategy: string, date: string)
    ensures var o := SubmitOutcome(invs, selected, action, amount, newStrategy, date);
            && (!o.closes <==> (action == AddFunds && amount <= 0.0)
                               || (action == WithdrawFunds && (amount <= 0.0 || amount > selected.amountInvested)))
            && (!o.closes ==> o.investments == invs && o.alert.Some?)
            && (action == AddFunds && amount <= 0.0 ==> o.alert == Some(AmountAlert))
            && (!o.closes && action == WithdrawFunds ==> o.alert == Some(WithdrawalAlert))
  {
  }

  /** Every action is a map over the table: the length stays, and records of
      other strategies are untouched. */
  lemma {:induction false} SubmitTouchesOnlySelected(invs: seq<InvestmentRecord>, selected: InvestmentRecord, action: Action,
                                  amount: real, newStrategy: string, date: string)
    ensures var o := SubmitOutcome(invs, selected, action, amount, newStrategy, date);
            && |o.investments| == |invs|
            && forall i :: 0 <= i < |invs| && invs[i].strategyName != selected.strategyName ==> o.investments[i] == invs[i]
  {
  }

  /** A deposit raises the invested amount and the current value of each
      matching record by the amount, appends one history line and one
      'Investment' transaction, and changes nothing else. */
  lemma AddFundsEffect(invs: seq<InvestmentRecord>, name: string, amount: real, date: string, i: int)
    requires 0 <= i < |invs| && invs[i].strategyName == name
    ensures var r := ApplyAddFunds(invs, name, amount, date)[i];
            && r.amountInvested == invs[i].amountInvested + amount
            && r.currentValue == invs[i].currentValue + amount
            && r.history == invs[i].history + [Added(amount)]
            && r.transactionHistory == invs[i].transactionHistory + [Transaction(date, amount, Investment)]
            && r.(amountInvested := invs[i].amountInvested, currentValue := invs[i].currentValue,
                  history := invs[i].history, transactionHistory := invs[i].transactionHistory) == invs[i]
  {
  }

  /** A withdrawal lowers the invested amount and the current value by the
      same amount and appends one 'Withdrawal' transaction. */
  lemma WithdrawEffect(invs: seq<InvestmentRecord>, name: string, amount: real, date: string, i: int)
    requires 0 <= i < |invs| && invs[i].strategyName == name
    ensures var r := ApplyWithdraw(invs, name, amount, date)[i];
            && r.amountInvested == invs[i].amountInvested - amount
            && r.currentValue == invs[i].currentValue - amount
            && r.amountInvested - r.currentValue == invs[i].amountInvested - invs[i].currentValue
            && r.history == invs[i].history + [Withdrew(amount)]
            && r.transactionHistory == invs[i].transactionHistory + [Transaction(date, amount, Withdrawal)]
            && r.strategyName == invs[i].strategyName && r.autoRebalance == invs[i].autoRebalance
  {
  }

  /** Reallocation has no guard and records no transaction: only the invested
      amount and the history change. */
  lemma ReallocateEffect(invs: seq<InvestmentRecord>, name: string, amount: real, i: int)
    requires 0 <= i < |invs| && invs[i].strategyName == name
    ensures var r := ApplyReallocate(invs, name, amount)[i];
            && r.amountInvested == invs[i].amountInvested + amount
            && r.history == invs[i].history + [Reallocated(amount)]
            && r.(amountInvested := invs[i].amountInvested, history := invs[i].history) == invs[i]
  {
  }

  /** Switching renames the record and logs it, leaving every amount alone. */
  lemma SwitchEffect(invs: seq<InvestmentRecord>, name: string, newStrategy: string, i: int)
    requires 0 <= i < |invs| && invs[i].strategyName == name
    ensures var r := ApplySwitch(invs, name, newStrategy)[i];
            && r.strategyName == newStrategy
            && r.history == invs[i].history + [SwitchedTo(newStrategy)]
            && r.(strategyName := invs[i].strategyName, history := invs[i].history) == invs[i]
  {
  }

  /** Depositing an amount and then withdrawing it restores both balances. */
  lemma {:induction false} DepositThenWithdrawRestoresBalances(invs: seq<InvestmentRecord>, name: string, amount: real, date: string)
    ensures var r := ApplyWithdraw(ApplyAddFunds(invs, name, amount, date), name, amount, date);
            && |r| == |invs|
            && forall i :: 0 <= i < |invs| ==>
                 r[i].amountInvested == invs[i].amountInvested && r[i].currentValue == invs[i].currentValue
  {
    var a := ApplyAddFunds(invs, name, amount, date);
    assert forall i :: 0 <= i < |invs| ==> a[i].strategyName == invs[i].strategyName;
  }

  /** A withdrawal the guard admits never drives an invested amount below
      zero. */
  lemma {:induction false} WithdrawKeepsNonNegative(invs: seq<InvestmentRecord>, name: string, amount: real, date: string)
    requires NonNegativeInvested(invs)
    requires WithdrawalAllowed(invs, name, amount)
    ensures NonNegativeInvested(ApplyWithdraw(invs, name, amount, date))
  {
    var r := ApplyWithdraw(invs, name, amount, date);
    forall i | 0 <= i < |r| ensures r[i].amountInvested >= 0.0 {
      if invs[i].strategyName == name {
        assert r[i] == WithFundsWithdrawn(invs[i], amount, date);
      }
    }
  }

  /** While strategy names are unique, the source's guard on the selected
      record and the guard over all rewritten records agree. */
  lemma {:induction false} GuardsAgreeOnUniqueNames(invs: seq<InvestmentRecord>, k: int, amount: real)
    requires UniqueNames(invs) && 0 <= k < |invs|
    ensures WithdrawalAllowedAsWritten(invs[k], amount) <==> WithdrawalAllowed(invs, invs[k].strategyName, amount)
  {
    if WithdrawalAllowedAsWritten(invs[k], amount) {
      forall i | 0 <= i < |invs| && invs[i].strategyName == invs[k].strategyName
        ensures amount <= invs[i].amountInvested
      {
        if i != k {
          assert false;
        }
      }
    }
  }

  /** While strategy names are unique, a withdrawal the handler accepts from
      an up-to-date selection keeps every invested amount non-negative: on
      such tables the guard as written is the corrected guard. */
  lemma {:induction false} SubmitWithdrawKeepsNonNegative(invs: seq<InvestmentRecord>, k: int, amount: real, date: string)
    requires UniqueNames(invs) && NonNegativeInvested(invs) && 0 <= k < |invs|
    ensures NonNegativeInvested(SubmitOutcome(invs, invs[k], WithdrawFunds, amount, "", date).investments)
  {
    GuardsAgreeOnUniqueNames(invs, k, amount);
    if WithdrawalAllowed(invs, invs[k].strategyName, amount) {
      WithdrawKeepsNonNegative(invs, invs[k].strategyName, amount, date);
    }
  }

  /** Switch Strategy can give two records the same name: switching the
      MATIC staking record to "Yield Farming - ETH". A withdrawal of 5000
      from the ETH record then passes the source's guard (10000 are invested
      there), but also rewrites the renamed record, which holds only 2000. */
  lemma WithdrawAsWrittenOverdraws()
    ensures var invs := ApplySwitch(InitialInvestments(), "Staking - MATIC", "Yield Farming - ETH");
            var o := SubmitOutcome(invs, invs[0], WithdrawFunds, 5000.0, "", "2024-03-01");
            && NonNegativeInvested(invs)
            && o.closes && o.alert == Some(WithdrawnAlert)
            && o.investments[2].amountInvested == -3000.0
            && !NonNegativeInvested(o.investments)
            && !WithdrawalAllowed(invs, invs[0].strategyName, 5000.0)
  {
    var invs := ApplySwitch(InitialInvestments(), "Staking - MATIC", "Yield Farming - ETH");
    assert invs[2].strategyName == "Yield Farming - ETH";
    assert invs[0].strategyName == "Yield Farming - ETH";
  }

  /** Toggling auto-rebalance flips the flag on the matching records only. */
  lemma ToggleFlipsMatching(invs: seq<InvestmentRecord>, name: string, i: int)
    requires 0 <= i < |invs|
    ensures var r := ToggleAutoRebalance(invs, name);
            && |r| == |invs|
            && (invs[i].strategyName == name ==> r[i].autoRebalance == !invs[i].autoRebalance && r[i].(autoRebalance := invs[i].autoRebalance) == invs[i])
            && (invs[i].strategyName != name ==> r[i] == invs[i])
  {
  }

  /** Toggling the same strategy twice restores the table. */
  lemma {:induction false} ToggleTwiceRestores(invs: seq<InvestmentRecord>, name: string)
    ensures ToggleAutoRebalance(ToggleAutoRebalance(invs, name), name) == invs
  {
    var once := ToggleAutoRebalance(invs, name);
    var twice := ToggleAutoRebalance(once, name);
    assert |twice| == |invs|;
    forall i | 0 <= i < |invs| ensures twice[i] == invs[i] {
      assert once[i].strategyName == invs[i].strategyName;
    }
  }

  // ---- The component's state ---------------------------------------------

  /** The state of the `MyInvestments` component that its handlers update. */
  class InvestmentsView {
    var investments: seq<InvestmentRecord>
    var selected: Option<InvestmentRecord>
    var adjustmentAmount: real
    var actionType: Action
    var newStrategy: string
    var alert: string
    var isOpen: bool

    constructor ()
      ensures investments == InitialInvestments() && selected == None && adjustmentAmount == 0.0
      ensures actionType == NoAction && newStrategy == "" && alert == "" && !isOpen
    {
      investments := InitialInvestments();
      selected := None;
      adjustmentAmount := 0.0;
      actionType := NoAction;
      newStrategy := "";
      alert := "";
      isOpen := false;
    }

    /** `handleActionClick`: remember the record and the action, clear the
        amount and the strategy choice, open the modal. */
    method ActionClick(action: Action, investment: InvestmentRecord)
      modifies this
      ensures selected == Some(investment) && actionType == action
      ensures adjustmentAmount == 0.0 && newStrategy == "" && isOpen
      ensures investments == old(investments) && alert == old(alert)
    {
      selected := Some(investment);
      actionType := action;
      adjustmentAmount := 0.0;
      newStrategy := "";
      isOpen := true;
    }

    /** The amount input's `onChange`. */
    method SetAdjustmentAmount(amount: real)
      modifies this`adjustmentAmount
      ensures adjustmentAmount == amount
    {
      adjustmentAmount := amount;
    }

    /** The strategy select's `onChange`. */
    method SetNewStrategy(strategy: string)
      modifies this`newStrategy
      ensures newStrategy == strategy
    {
      newStrategy := strategy;
    }

    /** The modal's Cancel button. */
    method Cancel()
      modifies this`isOpen
      ensures !isOpen
    {
      isOpen := false;
    }

    /** `handleSubmit`; `date` is the day the caller's clock shows. */
    method Submit(date: string)
      requires selected.Some?
      modifies this`investments, this`alert, this`isOpen
      ensures var o := SubmitOutcome(old(investments), selected.value, actionType, adjustmentAmount, newStrategy, date);
              && investments == o.investments
              && alert == o.alert.GetOr(old(alert))
              && isOpen == (old(isOpen) && !o.closes)
    {
      var name := selected.value.strategyName;
      if actionType == AddFunds {
        if adjustmentAmount <= 0.0 {
          alert := AmountAlert;
          return;
        }
        investments := ApplyAddFunds(investments, name, adjustmentAmount, date);
        alert := AddedAlert;
      } else if actionType == WithdrawFunds {
        if !WithdrawalAllowedAsWritten(selected.value, adjustmentAmount) {
          alert := WithdrawalAlert;
          return;
        }
        investments := ApplyWithdraw(investments, name, adjustmentAmount, date);
        alert := WithdrawnAlert;
      } else if actionType == ReallocateFunds {
        investments := ApplyReallocate(investments, name, adjustmentAmount);
        alert := ReallocatedAlert;
      } else if actionType == SwitchStrategy {
        investments := ApplySwitch(investments, name, newStrategy);
        alert := SwitchedAlert;
      }
      isOpen := false;
    }

    /** The auto-rebalance switch of the card showing strategy `name`. */
    method ToggleRebalance(name: string)
      modifies this`investments
      ensures investments == ToggleAutoRebalance(old(investments), name)
    {
      investments := ToggleAutoRebalance(investments, name);
    }
  }
}
