/**
  The dashboard: the live feed of transactions and alerts, reconciled against messages from
  the live service, the transaction search and risk filters, the stat cards, and the switch
  between the dashboard and the review screen.
*/
module Dashboard {
  import opened Wrappers
  import opened Seqs
  import opened Text
  import opened MockData
  import TransactionTable
  import LiveAlertFeed
  import VideoPlaybackView

  // ---------------------------------------------------------------------------
  // Messages from the live service

  /** A WebSocket frame after `JSON.parse`; a frame the handler's try/catch drops is `Unparseable`.
      `status` and `notes` of an update are absent when the payload leaves them out. */
  datatype Message =
    | NewTransaction(txn: Transaction)
    | NewAlert(alert: Alert)
    | TransactionUpdate(id: string, status: Option<string>, notes: Option<string>)
    | OtherKind(kind: string)
    | Unparseable

  /** The two collections the messages change. */
  datatype Feed = Feed(transactions: seq<Transaction>, alerts: seq<Alert>)

  /** `prev.map(t => t.id === id ? { ...t, status, notes } : t)`. */
  function UpdateTransactions(ts: seq<Transaction>, id: string, status: Option<string>, notes: Option<string>)
    : (r: seq<Transaction>)
    ensures |r| == |ts|
    ensures forall i :: 0 <= i < |ts| && ts[i].id == id ==> r[i] == ts[i].(status := status, notes := notes)
    ensures forall i :: 0 <= i < |ts| && ts[i].id != id ==> r[i] == ts[i]
  {
    if ts == [] then []
    else
      var head := if ts[0].id == id then ts[0].(status := status, notes := notes) else ts[0];
      [head] + UpdateTransactions(ts[1..], id, status, notes)
  }

  /** `prev.map(alert => alert.transaction_id === id ? { ...alert, status: 'resolved' } : alert)`. */
  function ResolveAlerts(alerts: seq<Alert>, id: string): (r: seq<Alert>)
    ensures |r| == |alerts|
    ensures forall i :: 0 <= i < |alerts| && alerts[i].transactionId == id ==> r[i] == alerts[i].(status := "resolved")
    ensures forall i :: 0 <= i < |alerts| && alerts[i].transactionId != id ==> r[i] == alerts[i]
  {
    if alerts == [] then []
    else
      var head := if alerts[0].transactionId == id then alerts[0].(status := "resolved") else alerts[0];
      [head] + ResolveAlerts(alerts[1..], id)
  }

  /** `ws.onmessage`: what one frame does to the feed. */
  function Receive(f: Feed, m: Message): (r: Feed)
    ensures m.NewTransaction? ==> r.transactions == [m.txn] + f.transactions && r.alerts == f.alerts
    ensures m.NewAlert? ==> r.alerts == [m.alert] + f.alerts && r.transactions == f.transactions
    ensures m.TransactionUpdate? ==>
      r.transactions == UpdateTransactions(f.transactions, m.id, m.status, m.notes)
      && r.alerts == ResolveAlerts(f.alerts, m.id)
    ensures (m.OtherKind? || m.Unparseable?) ==> r == f
  {
    match m
    case NewTransaction(txn) => f.(transactions := [txn] + f.transactions)
    case NewAlert(alert) => f.(alerts := [alert] + f.alerts)
    case TransactionUpdate(id, status, notes) =>
      Feed(UpdateTransactions(f.transactions, id, status, notes), ResolveAlerts(f.alerts, id))
    case OtherKind(_) => f
    case Unparseable => f
  }

  /** `handleDismissAlert`: every alert carrying that id goes, the others stay in order. */
  function RemoveAlert(alerts: seq<Alert>, alertId: string): (r: seq<Alert>)
    ensures IsSubsequence(r, alerts)
    ensures forall a :: multiset(r)[a] == if a.id != alertId then multiset(alerts)[a] else 0
    ensures forall i :: 0 <= i < |r| ==> r[i].id != alertId
  {
    var r := Filter(alerts, (a: Alert) => a.id != alertId);
    assert forall i :: 0 <= i < |r| ==> r[i] in multiset(r);
    r
  }

  /** `transactions.find(t => t.id === transactionId)`. */
  function FindTransaction(ts: seq<Transaction>, id: string): (r: Option<Transaction>)
    ensures r.None? <==> forall i :: 0 <= i < |ts| ==> ts[i].id != id
    ensures r.Some? ==> exists i :: 0 <= i < |ts| && ts[i] == r.value
                                  && r.value.id == id && forall k :: 0 <= k < i ==> ts[k].id != id
  {
    if ts == [] then None
    else if ts[0].id == id then Some(ts[0])
    else
      var r := FindTransaction(ts[1..], id);
      assert forall i :: 1 <= i < |ts| ==> ts[i] == ts[1..][i - 1];
      if r.Some? then
        var i :| 0 <= i < |ts[1..]| && ts[1..][i] == r.value && r.value.id == id
                 && forall k :: 0 <= k < i ==> ts[1..][k].id != id;
        assert ts[i + 1] == r.value;
        r
      else r
  }

  // ---------------------------------------------------------------------------
  // Reconciling: what the messages keep and what they promise

  /** An update rewrites the chosen transactions only in status and notes, so ids never change. */
  lemma UpdateKeepsIds(ts: seq<Transaction>, id: string, status: Option<string>, notes: Option<string>)
    ensures forall i :: 0 <= i < |ts| ==> UpdateTransactions(ts, id, status, notes)[i].id == ts[i].id
    ensures DistinctTransactionIds(ts) ==> DistinctTransactionIds(UpdateTransactions(ts, id, status, notes))
  {
  }

  /** Replaying the same update changes nothing more. */
  lemma UpdateIdempotent(f: Feed, id: string, status: Option<string>, notes: Option<string>)
    ensures Receive(Receive(f, TransactionUpdate(id, status, notes)), TransactionUpdate(id, status, notes))
         == Receive(f, TransactionUpdate(id, status, notes))
  {
    var m := TransactionUpdate(id, status, notes);
    var once := Receive(f, m);
    var twice := Receive(once, m);
    assert twice.transactions == once.transactions;
    assert twice.alerts == once.alerts;
  }

  /** After an update the transaction is found with the new status and notes. */
  lemma UpdateThenFind(ts: seq<Transaction>, id: string, status: Option<string>, notes: Option<string>)
    ensures FindTransaction(UpdateTransactions(ts, id, status, notes), id)
         == match FindTransaction(ts, id)
            case None => None
            case Some(t) => Some(t.(status := status, notes := notes))
  {
    if ts != [] {
      assert UpdateTransactions(ts, id, status, notes)[1..] == UpdateTransactions(ts[1..], id, status, notes);
      UpdateThenFind(ts[1..], id, status, notes);
    }
  }

  /** After an update no active alert is left for that transaction, so it drops out of the live feed. */
  lemma {:induction false} UpdateSilencesAlerts(f: Feed, id: string, status: Option<string>, notes: Option<string>)
    ensures forall a :: a in LiveAlertFeed.ActiveAlerts(Receive(f, TransactionUpdate(id, status, notes)).alerts)
                        ==> a.transactionId != id
  {
    var alerts := Receive(f, TransactionUpdate(id, status, notes)).alerts;
    var active := LiveAlertFeed.ActiveAlerts(alerts);
    forall a | a in active ensures a.transactionId != id {
      assert multiset(active)[a] > 0;
      assert a.status == "new" && a in alerts;
      var i :| 0 <= i < |alerts| && alerts[i] == a;
    }
  }

  /** Two pending transactions and an alert on the first: adjudicating the first as genuine
      rewrites it, leaves the second alone and resolves the alert. */
  lemma UpdateScenario(t1: Transaction, t2: Transaction, a: Alert)
    requires t1.id != t2.id && a.transactionId == t1.id
    ensures Receive(Feed([t1, t2], [a]), TransactionUpdate(t1.id, Some("genuine"), Some("ok")))
         == Feed([t1.(status := Some("genuine"), notes := Some("ok")), t2], [a.(status := "resolved")])
  {
    var r := Receive(Feed([t1, t2], [a]), TransactionUpdate(t1.id, Some("genuine"), Some("ok")));
    assert r.transactions == [t1.(status := Some("genuine"), notes := Some("ok")), t2];
    assert r.alerts == [a.(status := "resolved")];
  }

  /** An alert names a transaction in the feed. */
  ghost predicate Refers(a: Alert, ts: seq<Transaction>)
  {
    exists j :: 0 <= j < |ts| && a.transactionId == ts[j].id
  }

  /** Every message keeps every alert pointing at a transaction in the feed, provided a new
      alert names one. */
  lemma ReceiveKeepsReferences(f: Feed, m: Message)
    requires AlertsReferenceTransactions(f.alerts, f.transactions)
    requires m.NewAlert? ==> Refers(m.alert, f.transactions)
    ensures AlertsReferenceTransactions(Receive(f, m).alerts, Receive(f, m).transactions)
  {
    match m
    case NewTransaction(txn) => PrependTransactionKeepsReferences(f.alerts, f.transactions, txn);
    case NewAlert(alert) => PrependAlertKeepsReferences(f.alerts, f.transactions, alert);
    case TransactionUpdate(id, status, notes) => UpdateKeepsReferences(f, id, status, notes);
    case OtherKind(_) =>
    case Unparseable =>
  }

  lemma PrependTransactionKeepsReferences(alerts: seq<Alert>, ts: seq<Transaction>, txn: Transaction)
    requires AlertsReferenceTransactions(alerts, ts)
    ensures AlertsReferenceTransactions(alerts, [txn] + ts)
  {
    var ts' := [txn] + ts;
    forall i | 0 <= i < |alerts|
      ensures exists j :: 0 <= j < |ts'| && alerts[i].transactionId == ts'[j].id
    {
      var j :| 0 <= j < |ts| && alerts[i].transactionId == ts[j].id;
      assert ts'[j + 1] == ts[j];
    }
    assert forall i :: 0 <= i < |alerts| ==> exists j :: 0 <= j < |ts'| && alerts[i].transactionId == ts'[j].id;
  }

  lemma PrependAlertKeepsReferences(alerts: seq<Alert>, ts: seq<Transaction>, alert: Alert)
    requires AlertsReferenceTransactions(alerts, ts)
    requires Refers(alert, ts)
    ensures AlertsReferenceTransactions([alert] + alerts, ts)
  {
    var alerts' := [alert] + alerts;
    forall i | 0 <= i < |alerts'| ensures Refers(alerts'[i], ts) {
      if i > 0 {
        assert alerts'[i] == alerts[i - 1];
        assert Refers(alerts[i - 1], ts);
      }
    }
  }

  lemma UpdateKeepsReferences(f: Feed, id: string, status: Option<string>, notes: Option<string>)
    requires AlertsReferenceTransactions(f.alerts, f.transactions)
    ensures AlertsReferenceTransactions(ResolveAlerts(f.alerts, id), UpdateTransactions(f.transactions, id, status, notes))
  {
    var alerts', ts' := ResolveAlerts(f.alerts, id), UpdateTransactions(f.transactions, id, status, notes);
    UpdateKeepsIds(f.transactions, id, status, notes);
    forall i | 0 <= i < |alerts'| ensures Refers(alerts'[i], ts') {
      var j :| 0 <= j < |f.transactions| && f.alerts[i].transactionId == f.transactions[j].id;
      assert alerts'[i].transactionId == f.alerts[i].transactionId;
      assert ts'[j].id == f.transactions[j].id;
    }
  }

  /** Dismissing alerts never leaves one pointing nowhere. */
  lemma DismissKeepsReferences(alerts: seq<Alert>, ts: seq<Transaction>, alertId: string)
    requires AlertsReferenceTransactions(alerts, ts)
    ensures AlertsReferenceTransactions(RemoveAlert(alerts, alertId), ts)
  {
    var r := RemoveAlert(alerts, alertId);
    forall i | 0 <= i < |r| ensures Refers(r[i], ts) {
      assert multiset(r)[r[i]] > 0;
      assert r[i] in alerts;
      var k :| 0 <= k < |alerts| && alerts[k] == r[i];
    }
  }

  /** Dismissal keeps every alert with another id and no alert with this one. */
  lemma DismissRemovesExactly(alerts: seq<Alert>, alertId: string, a: Alert)
    ensures a in RemoveAlert(alerts, alertId) <==> a in alerts && a.id != alertId
  {
    var r := RemoveAlert(alerts, alertId);
    assert a in r <==> multiset(r)[a] > 0;
  }

  // ---------------------------------------------------------------------------
  // Search and filters

  /** The case-insensitive search over transaction id, cashier and shop. */
  predicate MatchesSearch(t: Transaction, term: string)
  {
    ContainsIgnoringCase(t.id, term) || ContainsIgnoringCase(t.cashierName, term)
    || ContainsIgnoringCase(t.shopId, term)
  }

  datatype TxnFilter = FilterAll | FilterHigh | FilterMedium | FilterPending

  /** `!t.status || t.status === 'pending'`: the pending filter accepts exactly the transactions
      that the table badges "Pending Review". */
  function IsPending(t: Transaction): (b: bool)
    ensures b <==> TransactionTable.StatusBadge(t.status) == Some(TransactionTable.PendingReview)
  {
    t.status.None? || t.status == Some("") || t.status == Some("pending")
  }

  /** The active filter's test. A transaction without `risk_level` passes neither risk filter. */
  function PassesFilter(t: Transaction, f: TxnFilter): (b: bool)
    ensures t.riskLevel.None? ==> (b <==> f == FilterAll || (f == FilterPending && IsPending(t)))
  {
    match f
    case FilterAll => true
    case FilterHigh => t.riskLevel == Some("High")
    case FilterMedium => t.riskLevel == Some("Medium")
    case FilterPending => IsPending(t)
  }

  function SearchTransactions(ts: seq<Transaction>, term: string): seq<Transaction>
  {
    Filter(ts, (t: Transaction) => MatchesSearch(t, term))
  }

  /** `getFilteredTransactions`: the search, then the active filter, in feed order. */
  function FilterTransactions(ts: seq<Transaction>, term: string, f: TxnFilter): (r: seq<Transaction>)
    ensures |r| <= |ts|
    ensures IsSubsequence(r, ts)
    ensures forall t :: multiset(r)[t] == if MatchesSearch(t, term) && PassesFilter(t, f) then multiset(ts)[t] else 0
  {
    var searched := SearchTransactions(ts, term);
    if f == FilterAll then searched
    else
      var r := Filter(searched, (t: Transaction) => PassesFilter(t, f));
      SubsequenceTransitive(r, searched, ts);
      r
  }

  /** With an empty search term and no filter every transaction is shown. */
  lemma EmptySearchShowsAll(ts: seq<Transaction>)
    ensures FilterTransactions(ts, "", FilterAll) == ts
  {
    EmptySearchMatches(ts);
  }

  lemma EmptySearchMatches(ts: seq<Transaction>)
    ensures SearchTransactions(ts, "") == ts
  {
    forall i | 0 <= i < |ts| ensures MatchesSearch(ts[i], "") {
      ContainsEmpty(Lower(ts[i].id));
    }
    FilterKeepsAll(ts, (t: Transaction) => MatchesSearch(t, ""));
  }

  /** A new transaction, when it passes the search and filter, heads the filtered list: nothing
      is re-sorted. */
  lemma NewTransactionListedFirst(t: Transaction, ts: seq<Transaction>, term: string, f: TxnFilter)
    ensures FilterTransactions([t] + ts, term, f)
         == (if MatchesSearch(t, term) && PassesFilter(t, f) then [t] else []) + FilterTransactions(ts, term, f)
  {
    assert ([t] + ts)[1..] == ts;
    var searched := SearchTransactions(ts, term);
    if MatchesSearch(t, term) {
      assert SearchTransactions([t] + ts, term) == [t] + searched;
      if f != FilterAll {
        assert ([t] + searched)[1..] == searched;
      }
    }
  }

  // ---------------------------------------------------------------------------
  // Stat cards

  /** The number on the High Risk, Medium Risk and Pending Review cards. */
  function CardCount(ts: seq<Transaction>, f: TxnFilter): (n: nat)
    ensures n <= |ts|
    ensures n == 0 <==> forall i :: 0 <= i < |ts| ==> !PassesFilter(ts[i], f)
  {
    var p := (t: Transaction) => PassesFilter(t, f);
    FilterEmptyIff(ts, p);
    |Filter(ts, p)|
  }

  /** A card counts the whole feed, whatever the search says: it is the size of the list the card's
      filter shows under an empty search. */
  lemma CardCountIsUnsearchedList(ts: seq<Transaction>, f: TxnFilter)
    ensures CardCount(ts, f) == |FilterTransactions(ts, "", f)|
  {
    EmptySearchMatches(ts);
    if f == FilterAll {
      FilterKeepsAll(ts, (t: Transaction) => PassesFilter(t, f));
    }
  }

  /** A search can only hide transactions the card counts. */
  lemma SearchNeverExceedsCard(ts: seq<Transaction>, term: string, f: TxnFilter)
    ensures |FilterTransactions(ts, term, f)| <= CardCount(ts, f)
  {
    var r := FilterTransactions(ts, term, f);
    var p := (t: Transaction) => PassesFilter(t, f);
    SubsequenceCountsNoMore(r, ts, p);
    FilterKeepsAllMembers(r, f);
  }

  lemma FilterKeepsAllMembers(r: seq<Transaction>, f: TxnFilter)
    requires forall t :: multiset(r)[t] > 0 ==> PassesFilter(t, f)
    ensures Filter(r, (t: Transaction) => PassesFilter(t, f)) == r
  {
    forall i | 0 <= i < |r| ensures PassesFilter(r[i], f) {
      assert multiset(r)[r[i]] > 0;
    }
    FilterKeepsAll(r, (t: Transaction) => PassesFilter(t, f));
  }

  /** The seed transactions carry no risk level, so the High and Medium cards read zero. */
  lemma SeedRiskCardsEmpty(now: Timestamp)
    ensures CardCount(MockTransactions(now), FilterHigh) == 0
    ensures CardCount(MockTransactions(now), FilterMedium) == 0
  {
    var ts := MockTransactions(now);
    assert forall i :: 0 <= i < |ts| ==> ts[i].riskLevel.None?;
  }

  // ---------------------------------------------------------------------------
  // The decision request

  /** The three arguments `handleSubmitDecision(transactionId, status, notes)` builds its request from. */
  datatype ValidateRequest = ValidateRequest(transactionId: string, decision: string, notes: string)

  /** The review screen calls `onSubmitDecision(id, status, fraudCategory, notes)` but the handler
      takes three parameters: the category lands in the notes slot and the notes are dropped. */
  function ForwardDecision(d: VideoPlaybackView.Decision): (r: ValidateRequest)
    ensures r.transactionId == d.transactionId && r.decision == d.status
    ensures r.notes == d.category
  {
    ValidateRequest(d.transactionId, d.status, d.category)
  }

  /** So the reviewer's notes reach the request only when they happen to equal the category. */
  lemma ForwardKeepsNotesIff(d: VideoPlaybackView.Decision)
    ensures ForwardDecision(d).notes == d.notes <==> d.category == d.notes
  {
  }

  // ---------------------------------------------------------------------------
  // The screen state

  datatype View = DashboardView | VideoView

  class DashboardState {
    var activeView: View
    var selectedTransaction: Option<Transaction>
    var transactions: seq<Transaction>
    var alerts: seq<Alert>
    var searchTerm: string
    var activeFilter: TxnFilter

    /** The review screen is only ever the active view for a chosen transaction. */
    ghost predicate Valid()
      reads this
    {
      activeView == VideoView ==> selectedTransaction.Some?
    }

    constructor (now: Timestamp)
      ensures Valid()
      ensures activeView == DashboardView && selectedTransaction == None
      ensures transactions == MockTransactions(now) && alerts == MockAlerts(now)
      ensures searchTerm == "" && activeFilter == FilterAll
    {
      activeView := DashboardView;
      selectedTransaction := None;
      transactions := MockTransactions(now);
      alerts := MockAlerts(now);
      searchTerm := "";
      activeFilter := FilterAll;
    }

    function CurrentFeed(): Feed
      reads this
    {
      Feed(transactions, alerts)
    }

    /** One frame from the live service. */
    method OnMessage(m: Message)
      modifies this`transactions, this`alerts
      ensures CurrentFeed() == Receive(old(CurrentFeed()), m)
    {
      var next := Receive(Feed(transactions, alerts), m);
      transactions := next.transactions;
      alerts := next.alerts;
    }

    /** `handleWatchFootage`: open the review screen if the transaction is in the feed. */
    method WatchFootage(transactionId: string)
      requires Valid()
      modifies this`selectedTransaction, this`activeView
      ensures Valid()
      ensures FindTransaction(transactions, transactionId).Some? ==>
        selectedTransaction == FindTransaction(transactions, transactionId) && activeView == VideoView
      ensures FindTransaction(transactions, transactionId).None? ==>
        selectedTransaction == old(selectedTransaction) && activeView == old(activeView)
    {
      var found := FindTransaction(transactions, transactionId);
      if found.Some? {
        selectedTransaction := found;
        activeView := VideoView;
      }
    }

    /** `handleViewAlert`, the alert card's button, which names the alert's transaction. */
    method ViewAlert(transactionId: string)
      requires Valid()
      modifies this`selectedTransaction, this`activeView
      ensures Valid()
      ensures FindTransaction(transactions, transactionId).Some? ==>
        selectedTransaction == FindTransaction(transactions, transactionId) && activeView == VideoView
      ensures FindTransaction(transactions, transactionId).None? ==>
        selectedTransaction == old(selectedTransaction) && activeView == old(activeView)
    {
      WatchFootage(transactionId);
    }

    method DismissAlert(alertId: string)
      modifies this`alerts
      ensures alerts == RemoveAlert(old(alerts), alertId)
    {
      alerts := RemoveAlert(alerts, alertId);
    }

    /** `handleSubmitDecision` up to its `await`: the request it sends. The view does not change
        while the request is in flight. */
    method SubmitDecision(transactionId: string, status: string, notes: string)
      returns (request: ValidateRequest)
      ensures request == ValidateRequest(transactionId, status, notes)
    {
      request := ValidateRequest(transactionId, status, notes);
    }

    /** The `await` of the decision request settles: the dashboard comes back iff the request
        went through; on a rejected request the review screen stays. */
    method DecisionSettled(reachedServer: bool)
      requires Valid()
      modifies this`activeView
      ensures Valid()
      ensures activeView == if reachedServer then DashboardView else old(activeView)
    {
      if reachedServer {
        activeView := DashboardView;
      }
    }

    /** `onBack` of the review screen. */
    method Back()
      modifies this`activeView
      ensures Valid()
      ensures activeView == DashboardView
    {
      activeView := DashboardView;
    }

    method ChangeFilter(f: TxnFilter)
      modifies this`activeFilter
      ensures activeFilter == f
    {
      activeFilter := f;
    }

    method SetSearchTerm(term: string)
      modifies this`searchTerm
      ensures searchTerm == term
    {
      searchTerm := term;
    }

    /** The list the table shows: the matching transactions, in feed order. */
    function FilteredTransactions(): (r: seq<Transaction>)
      reads this
      ensures IsSubsequence(r, transactions)
      ensures forall t ::
        multiset(r)[t] == if MatchesSearch(t, searchTerm) && PassesFilter(t, activeFilter) then multiset(transactions)[t] else 0
    {
      FilterTransactions(transactions, searchTerm, activeFilter)
    }

    /** The review screen replaces the dashboard when it is the active view and a transaction
        is selected; under `Valid()` the second test never fails. */
    function ShowsReview(): (b: bool)
      reads this
      ensures b ==> selectedTransaction.Some?
      ensures Valid() ==> (b <==> activeView == VideoView)
    {
      activeView == VideoView && selectedTransaction.Some?
    }

    /** The review screen, opened on the selected transaction with the seed receipt and markers. */
    method OpenReview() returns (screen: VideoPlaybackView.PlaybackState)
      requires Valid() && activeView == VideoView
      ensures fresh(screen) && screen.Valid()
      ensures screen.transaction == selectedTransaction.value
      ensures screen.receiptItems == MockReceiptItems && screen.videoMarkers == MockVideoMarkers
      ensures screen.currentTime == 0 && !screen.isPlaying
      ensures screen.status == "" && screen.fraudCategory == "" && screen.notes == ""
    {
      screen := new VideoPlaybackView.PlaybackState(selectedTransaction.value, MockReceiptItems, MockVideoMarkers);
    }
  }
}
