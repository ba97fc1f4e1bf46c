/**
  The entities of the dashboard and the compiled-in seed data it starts from.
  `Date.now()` is a clock, so every seed that depends on it takes `now` as a parameter.
*/
module MockData {
  import opened Wrappers

  /** Milliseconds since the epoch; only stored, copied and displayed. */
  type Timestamp = int

  /** A point-of-sale transaction. `riskLevel` is read by the dashboard's high and medium
      filters although the declared interface has no such field, so it is optional here. */
  datatype Transaction = Transaction(
    id: string,
    shopId: string,
    camId: string,
    posId: string,
    cashierName: string,
    timestamp: Timestamp,
    transactionTotal: real,
    fraudProbabilityScore: real,
    status: Option<string>,
    fraudCategory: Option<string>,
    notes: Option<string>,
    riskLevel: Option<string>)

  /** One line of a receipt; `timestampOffset` is in whole seconds from the start of the footage. */
  datatype ReceiptItem = ReceiptItem(
    id: string,
    name: string,
    quantity: int,
    price: real,
    timestampOffset: int,
    scanned: bool)

  /** An alert raised for a transaction, with a copy of its shop, cashier and score. */
  datatype Alert = Alert(
    id: string,
    transactionId: string,
    shopId: string,
    cashierName: string,
    fraudProbabilityScore: real,
    timestamp: Timestamp,
    status: string)

  datatype EmployeeScorecard = EmployeeScorecard(
    id: string,
    name: string,
    shopId: string,
    totalTransactions: int,
    flaggedTransactions: int,
    fraudRate: real,
    averageFraudScore: real,
    lastIncident: Timestamp)

  datatype HeatmapData = HeatmapData(
    cameraId: string,
    lane: string,
    x: int,
    y: int,
    flaggedCount: int)

  /** A labelled point on the review timeline, `time` in whole seconds; `kind` is `normal` or `fraud`. */
  datatype VideoMarker = VideoMarker(time: int, title: string, kind: string)

  /** `new Date(Date.now() - 1000 * 60 * minutes)`. */
  function MinutesAgo(now: Timestamp, minutes: int): Timestamp
  {
    now - 1000 * 60 * minutes
  }

  /** A seed transaction: no notes and no risk level. */
  function Seed(id: string, shopId: string, camId: string, posId: string, cashierName: string,
                timestamp: Timestamp, total: real, score: real, status: string,
                fraudCategory: Option<string>): Transaction
  {
    Transaction(id, shopId, camId, posId, cashierName, timestamp, total, score,
                Some(status), fraudCategory, None, None)
  }

  /** `mockTransactions`: eight transactions from the last three hours, none with notes or a
      risk level. */
  function MockTransactions(now: Timestamp): (r: seq<Transaction>)
    ensures |r| == 8
    ensures forall i :: 0 <= i < |r| ==> now - 180 * 60000 <= r[i].timestamp < now
    ensures forall i :: 0 <= i < |r| ==> r[i].notes.None? && r[i].riskLevel.None?
  {
    [ Seed("TXN-001", "SHOP-01", "CAM-01-A", "POS-01", "Sarah Johnson", MinutesAgo(now, 15), 87.45, 92.0, "pending", None),
      Seed("TXN-002", "SHOP-01", "CAM-01-B", "POS-02", "Michael Chen", MinutesAgo(now, 25), 156.78, 78.0, "pending", None),
      Seed("TXN-003", "SHOP-02", "CAM-02-A", "POS-03", "Emily Rodriguez", MinutesAgo(now, 45), 234.99, 88.0, "pending", None),
      Seed("TXN-004", "SHOP-01", "CAM-01-C", "POS-04", "James Williams", MinutesAgo(now, 60), 45.20, 65.0, "pending", None),
      Seed("TXN-005", "SHOP-03", "CAM-03-A", "POS-05", "Amanda Foster", MinutesAgo(now, 90), 312.50, 94.0, "pending", None),
      Seed("TXN-006", "SHOP-02", "CAM-02-B", "POS-06", "David Kim", MinutesAgo(now, 120), 67.89, 71.0, "genuine", None),
      Seed("TXN-007", "SHOP-01", "CAM-01-A", "POS-01", "Sarah Johnson", MinutesAgo(now, 150), 189.99, 85.0, "fraudulent", Some("Under-scanning")),
      Seed("TXN-008", "SHOP-03", "CAM-03-B", "POS-07", "Lisa Martinez", MinutesAgo(now, 180), 523.45, 42.0, "genuine", None) ]
  }

  const MockReceiptItems: seq<ReceiptItem> :=
    [ ReceiptItem("ITEM-001", "Organic Bananas (2 lbs)", 1, 3.99, 5, true),
      ReceiptItem("ITEM-002", "Whole Milk (1 Gallon)", 1, 4.29, 12, true),
      ReceiptItem("ITEM-003", "Premium Steak (1.5 lbs)", 1, 24.99, 18, false),
      ReceiptItem("ITEM-004", "Bread Loaf", 2, 5.98, 25, true),
      ReceiptItem("ITEM-005", "Fresh Lettuce", 1, 2.49, 32, true),
      ReceiptItem("ITEM-006", "Orange Juice (64 oz)", 1, 6.79, 38, true),
      ReceiptItem("ITEM-007", "Cheese Block (8 oz)", 1, 7.99, 45, true),
      ReceiptItem("ITEM-008", "Pasta Package", 3, 8.97, 52, true) ]

  /** `mockAlerts`: three alerts from the last ninety minutes, two new and one under review. */
  function MockAlerts(now: Timestamp): (r: seq<Alert>)
    ensures |r| == 3
    ensures forall i :: 0 <= i < |r| ==> now - 90 * 60000 <= r[i].timestamp < now
    ensures forall i :: 0 <= i < |r| ==> (r[i].status == "new" <==> i < 2)
  {
    [ Alert("ALERT-001", "TXN-005", "SHOP-03", "Amanda Foster", 94.0, MinutesAgo(now, 90), "new"),
      Alert("ALERT-002", "TXN-001", "SHOP-01", "Sarah Johnson", 92.0, MinutesAgo(now, 15), "new"),
      Alert("ALERT-003", "TXN-003", "SHOP-02", "Emily Rodriguez", 88.0, MinutesAgo(now, 45), "reviewing") ]
  }

  /** `mockEmployeeScorecard`: six employees, each with an incident within the last week. */
  function MockEmployeeScorecard(now: Timestamp): (r: seq<EmployeeScorecard>)
    ensures |r| == 6
    ensures forall i :: 0 <= i < |r| ==> now - 7 * 24 * 60 * 60000 <= r[i].lastIncident < now
  {
    [ EmployeeScorecard("EMP-001", "Sarah Johnson", "SHOP-01", 247, 18, 7.29, 76.5, MinutesAgo(now, 15)),
      EmployeeScorecard("EMP-002", "Michael Chen", "SHOP-01", 312, 8, 2.56, 52.3, MinutesAgo(now, 60 * 24 * 3)),
      EmployeeScorecard("EMP-003", "Emily Rodriguez", "SHOP-02", 189, 14, 7.41, 71.2, MinutesAgo(now, 45)),
      EmployeeScorecard("EMP-004", "James Williams", "SHOP-01", 298, 5, 1.68, 48.9, MinutesAgo(now, 60 * 24 * 7)),
      EmployeeScorecard("EMP-005", "Amanda Foster", "SHOP-03", 156, 22, 14.10, 82.1, MinutesAgo(now, 90)),
      EmployeeScorecard("EMP-006", "David Kim", "SHOP-02", 278, 9, 3.24, 55.7, MinutesAgo(now, 60 * 24 * 2)) ]
  }

  const MockHeatmapData: seq<HeatmapData> :=
    [ HeatmapData("CAM-01-A", "Lane 1", 10, 15, 28),
      HeatmapData("CAM-01-B", "Lane 2", 30, 15, 12),
      HeatmapData("CAM-01-C", "Lane 3", 50, 15, 8),
      HeatmapData("CAM-01-D", "Lane 4", 70, 15, 15),
      HeatmapData("CAM-02-A", "Lane 1", 10, 50, 19),
      HeatmapData("CAM-02-B", "Lane 2", 30, 50, 24),
      HeatmapData("CAM-02-C", "Lane 3", 50, 50, 6),
      HeatmapData("CAM-03-A", "Lane 1", 10, 85, 31),
      HeatmapData("CAM-03-B", "Lane 2", 30, 85, 11),
      HeatmapData("CAM-03-C", "Lane 3", 50, 85, 9) ]

  const MockVideoMarkers: seq<VideoMarker> :=
    [ VideoMarker(5, "Item 1 Scanned", "normal"),
      VideoMarker(12, "Item 2 Scanned", "normal"),
      VideoMarker(18, "SUSPICIOUS: Item Bypassed", "fraud"),
      VideoMarker(25, "Item 4 Scanned", "normal"),
      VideoMarker(32, "Item 5 Scanned", "normal"),
      VideoMarker(38, "Item 6 Scanned", "normal"),
      VideoMarker(45, "Item 7 Scanned", "normal"),
      VideoMarker(52, "Item 8 Scanned", "normal"),
      VideoMarker(60, "Payment Complete", "normal") ]

  // ---------------------------------------------------------------------------
  // Invariants the seed data is meant to satisfy

  ghost predicate DistinctTransactionIds(ts: seq<Transaction>)
  {
    forall i, j :: 0 <= i < j < |ts| ==> ts[i].id != ts[j].id
  }

  /** The alert names the transaction and carries that transaction's own shop, cashier,
      score and time. */
  ghost predicate Denormalises(a: Alert, t: Transaction)
  {
    a.transactionId == t.id && a.shopId == t.shopId && a.cashierName == t.cashierName
    && a.fraudProbabilityScore == t.fraudProbabilityScore && a.timestamp == t.timestamp
  }

  ghost predicate AlertsReferenceTransactions(alerts: seq<Alert>, ts: seq<Transaction>)
  {
    forall i :: 0 <= i < |alerts| ==> exists j :: 0 <= j < |ts| && alerts[i].transactionId == ts[j].id
  }

  ghost predicate ScoresInRange(ts: seq<Transaction>)
  {
    forall i :: 0 <= i < |ts| ==> 0.0 <= ts[i].fraudProbabilityScore <= 100.0
  }

  ghost predicate CategoryOnlyWhenFraudulent(ts: seq<Transaction>)
  {
    forall i :: 0 <= i < |ts| ==> (ts[i].fraudCategory.Some? <==> ts[i].status == Some("fraudulent"))
  }

  /** Each receipt item starts more than five seconds after the one before it. */
  ghost predicate OffsetsSpaced(items: seq<ReceiptItem>)
  {
    forall i :: 0 < i < |items| ==> items[i - 1].timestampOffset + 5 < items[i].timestampOffset
  }

  ghost predicate FlaggedWithinTotal(emps: seq<EmployeeScorecard>)
  {
    forall i :: 0 <= i < |emps| ==> 0 <= emps[i].flaggedTransactions <= emps[i].totalTransactions
  }

  /** Marker times increase strictly and lie on a timeline of `seconds` seconds. */
  ghost predicate MarkersOnTimeline(markers: seq<VideoMarker>, seconds: int)
  {
    (forall i :: 0 <= i < |markers| ==> 0 <= markers[i].time <= seconds)
    && (forall i :: 0 < i < |markers| ==> markers[i - 1].time < markers[i].time)
  }

  lemma SeedTransactionIdsDistinct(now: Timestamp)
    ensures DistinctTransactionIds(MockTransactions(now))
  {
  }

  lemma SeedAlertsDenormaliseTransactions(now: Timestamp)
    ensures forall i :: 0 <= i < |MockAlerts(now)| ==>
      exists j :: 0 <= j < |MockTransactions(now)| && Denormalises(MockAlerts(now)[i], MockTransactions(now)[j])
    ensures AlertsReferenceTransactions(MockAlerts(now), MockTransactions(now))
  {
    var ts, alerts := MockTransactions(now), MockAlerts(now);
    assert Denormalises(alerts[0], ts[4]);
    assert Denormalises(alerts[1], ts[0]);
    assert Denormalises(alerts[2], ts[2]);
  }

  lemma SeedTransactionsWellFormed(now: Timestamp)
    ensures ScoresInRange(MockTransactions(now))
    ensures CategoryOnlyWhenFraudulent(MockTransactions(now))
  {
  }

  lemma SeedReceiptOffsetsSpaced()
    ensures OffsetsSpaced(MockReceiptItems)
  {
  }

  lemma SeedScorecardsConsistent(now: Timestamp)
    ensures FlaggedWithinTotal(MockEmployeeScorecard(now))
  {
  }

  lemma SeedMarkersOnTimeline()
    ensures MarkersOnTimeline(MockVideoMarkers, 90)
  {
  }
}
