/** The recent-activity card: fixed transactions and notifications, a
    search box and a date-range select. */
module RecentActivity {
  import opened Options
  import opened Seqs
  import opened Text

  /** A transaction entry; the strategy change has details instead of an
      asset and an amount. */
  datatype Transaction = Transaction(
    id: int, txType: string, asset: Option<string>, amount: Option<string>,
    details: Option<string>, date: string, status: string)

  datatype Notification = Notification(id: int, message: string, date: string)

  function Transactions(): seq<Transaction> {
    [ Transaction(1, "Deposit", Some("USDC"), Some("$500"), None, "2023-09-20", "Completed"),
      Transaction(2, "Withdrawal", Some("ETH"), Some("$200"), None, "2023-09-21", "Completed"),
      Transaction(3, "Strategy Change", None, None, Some("Switched to Balanced Growth Strategy"), "2023-09-22", "Completed"),
      Transaction(4, "Deposit", Some("BTC"), Some("$300"), None, "2023-09-23", "Pending"),
      Transaction(5, "Withdrawal", Some("USDC"), Some("$100"), None, "2023-09-24", "Completed") ]
  }

  function Notifications(): seq<Notification> {
    [ Notification(1, "Deposit of $500 completed successfully.", "2023-09-20"),
      Notification(2, "Withdrawal of $200 completed successfully.", "2023-09-21"),
      Notification(3, "You have switched to Balanced Growth Strategy.", "2023-09-22"),
      Notification(4, "Your deposit of $300 is pending approval.", "2023-09-23"),
      Notification(5, "New yield farming opportunity available!", "2023-09-24") ]
  }

  /** The fixed cut-off of "Last Week". */
  const LastWeekStart := "2023-09-17"

  /** The date test: "All" passes everything, "Last Week" dates on or after
      the cut-off, and any other value ("Last Month", the placeholder's "")
      nothing. */
  predicate MatchesDate(date: string, dateFilter: string) {
    dateFilter == "All" || (dateFilter == "Last Week" && LexLessOrEqual(LastWeekStart, date))
  }

  predicate TransactionMatches(t: Transaction, searchTerm: string, dateFilter: string) {
    IncludesIgnoringCase(t.txType, searchTerm) && MatchesDate(t.date, dateFilter)
  }

  function TransactionMatcher(searchTerm: string, dateFilter: string): Transaction -> bool {
    (t: Transaction) => TransactionMatches(t, searchTerm, dateFilter)
  }

  /** `filteredTransactions`: the search looks at the type only. */
  function FilterTransactions(txs: seq<Transaction>, searchTerm: string, dateFilter: string): seq<Transaction> {
    Filter(txs, TransactionMatcher(searchTerm, dateFilter))
  }

  function NotificationMatcher(searchTerm: string): Notification -> bool {
    (n: Notification) => IncludesIgnoringCase(n.message, searchTerm)
  }

  /** `filteredNotifications`: the search looks at the message; the date
      filter does not apply. */
  function FilterNotifications(ns: seq<Notification>, searchTerm: string): seq<Notification> {
    Filter(ns, NotificationMatcher(searchTerm))
  }

  /** The list keeps exactly the transactions whose type contains the term
      (ignoring case) and whose date passes, in order. */
  lemma FilterTransactionsSpec(txs: seq<Transaction>, searchTerm: string, dateFilter: string)
    ensures IsSubsequence(FilterTransactions(txs, searchTerm, dateFilter), txs)
    ensures forall t :: t in FilterTransactions(txs, searchTerm, dateFilter) <==>
              t in txs && IncludesIgnoringCase(t.txType, searchTerm) && MatchesDate(t.date, dateFilter)
  {
    FilterIsSubsequence(txs, TransactionMatcher(searchTerm, dateFilter));
  }

  /** The notification list keeps exactly the messages containing the term. */
  lemma FilterNotificationsSpec(ns: seq<Notification>, searchTerm: string)
    ensures IsSubsequence(FilterNotifications(ns, searchTerm), ns)
    ensures forall n :: n in FilterNotifications(ns, searchTerm) <==>
              n in ns && IncludesIgnoringCase(n.message, searchTerm)
  {
    FilterIsSubsequence(ns, NotificationMatcher(searchTerm));
  }

  /** An empty search over all time shows every entry of both lists. */
  lemma {:induction false} EmptySearchShowsAll(txs: seq<Transaction>, ns: seq<Notification>)
    ensures FilterTransactions(txs, "", "All") == txs
    ensures FilterNotifications(ns, "") == ns
  {
    forall i | 0 <= i < |txs| ensures TransactionMatcher("", "All")(txs[i]) {
      IncludesEmptyIgnoringCase(txs[i].txType);
    }
    FilterKeepsAll(txs, TransactionMatcher("", "All"));
    forall i | 0 <= i < |ns| ensures NotificationMatcher("")(ns[i]) {
      IncludesEmptyIgnoringCase(ns[i].message);
    }
    FilterKeepsAll(ns, NotificationMatcher(""));
  }

  /** "Last Month" and the placeholder show no transactions at all. */
  lemma OtherDateFilterShowsNothing(txs: seq<Transaction>, searchTerm: string, dateFilter: string)
    requires dateFilter != "All" && dateFilter != "Last Week"
    ensures FilterTransactions(txs, searchTerm, dateFilter) == []
  {
    FilterKeepsNone(txs, TransactionMatcher(searchTerm, dateFilter));
  }

  /** The search ignores case: a term and its lower-case form show the same
      entries. */
  lemma SearchIgnoresCase(txs: seq<Transaction>, ns: seq<Notification>, searchTerm: string, dateFilter: string)
    ensures FilterTransactions(txs, ToLower(searchTerm), dateFilter) == FilterTransactions(txs, searchTerm, dateFilter)
    ensures FilterNotifications(ns, ToLower(searchTerm)) == FilterNotifications(ns, searchTerm)
  {
    ToLowerIdempotent(searchTerm);
    FilterAgreeing(txs, TransactionMatcher(ToLower(searchTerm), dateFilter), TransactionMatcher(searchTerm, dateFilter));
    FilterAgreeing(ns, NotificationMatcher(ToLower(searchTerm)), NotificationMatcher(searchTerm));
  }

  /** Every sample transaction falls in "Last Week", so the two ranges show
      the same list. */
  lemma {:induction false} LastWeekKeepsSamples(searchTerm: string)
    ensures FilterTransactions(Transactions(), searchTerm, "Last Week") == FilterTransactions(Transactions(), searchTerm, "All")
  {
    var txs := Transactions();
    var prefix := "2023-09-";
    forall i | 0 <= i < |txs| ensures LexLessOrEqual(LastWeekStart, txs[i].date) {
      var day := txs[i].date[8..];
      assert txs[i].date == prefix + day;
      assert LastWeekStart == prefix + "17";
      assert LexLessOrEqual("17", day);
      LexCommonPrefix(prefix, "17", day);
    }
    FilterAgreeing(txs, TransactionMatcher(searchTerm, "Last Week"), TransactionMatcher(searchTerm, "All"));
  }

  /** The state of the `RecentActivity` card. */
  class ActivityView {
    var selectedTab: string
    var searchTerm: string
    var dateFilter: string
    var detailsOpen: bool

    constructor ()
      ensures selectedTab == "Transactions" && searchTerm == "" && dateFilter == "All" && !detailsOpen
    {
      selectedTab := "Transactions";
      searchTerm := "";
      dateFilter := "All";
      detailsOpen := false;
    }

    function ShownTransactions(): seq<Transaction>
      reads this
    {
      FilterTransactions(Transactions(), searchTerm, dateFilter)
    }

    function ShownNotifications(): seq<Notification>
      reads this
    {
      FilterNotifications(Notifications(), searchTerm)
    }

    method SetSearchTerm(term: string)
      modifies this`searchTerm
      ensures searchTerm == term
    {
      searchTerm := term;
    }

    method SetDateFilter(range: string)
      modifies this`dateFilter
      ensures dateFilter == range
    {
      dateFilter := range;
    }

    method SelectTab(tab: string)
      modifies this`selectedTab
      ensures selectedTab == tab
    {
      selectedTab := tab;
    }

    /** "View Details", shown only for an entry with details. */
    method OpenDetails()
      modifies this`detailsOpen
      ensures detailsOpen
    {
      detailsOpen := true;
    }

    method CloseDetails()
      modifies this`detailsOpen
      ensures !detailsOpen
    {
      detailsOpen := false;
    }
  }
}
