/** The live alert sidebar: which alerts count as active, and how each card is coloured. */
module LiveAlertFeed {
  import opened Seqs
  import opened MockData
  import opened Palette
  import TransactionTable

  predicate IsActive(a: Alert)
  {
    a.status == "new"
  }

  /** `alerts.filter(alert => alert.status === 'new')`. */
  function ActiveAlerts(alerts: seq<Alert>): (r: seq<Alert>)
    ensures |r| <= |alerts|
    ensures IsSubsequence(r, alerts)
    ensures forall a :: multiset(r)[a] == if a.status == "new" then multiset(alerts)[a] else 0
  {
    Filter(alerts, IsActive)
  }

  /** The "N New" badge and the pulsing dot are drawn exactly when some alert is new. */
  function ShowsNewIndicator(alerts: seq<Alert>): (shown: bool)
    ensures shown <==> exists i :: 0 <= i < |alerts| && alerts[i].status == "new"
  {
    FilterEmptyIff(alerts, IsActive);
    |ActiveAlerts(alerts)| > 0
  }

  /** "No active alerts" is drawn when the list itself is empty, whatever the statuses are. */
  function ShowsEmptyState(alerts: seq<Alert>): (b: bool)
    ensures b <==> alerts == []
    ensures b ==> !ShowsNewIndicator(alerts)
  {
    |alerts| == 0
  }

  /** The empty state and the new-alert indicator never appear together, but both can be absent:
      a list of resolved alerts shows neither. */
  lemma EmptyStateIgnoresStatus(resolved: Alert)
    requires resolved.status == "resolved"
    ensures ShowsEmptyState([]) && !ShowsNewIndicator([])
    ensures !ShowsEmptyState([resolved]) && !ShowsNewIndicator([resolved])
    ensures forall alerts: seq<Alert> :: ShowsEmptyState(alerts) ==> !ShowsNewIndicator(alerts)
  {
  }

  /** The card colour: red for `new`, amber for `reviewing`, grey for anything else. */
  function CardTone(status: string): (t: Tone)
    ensures t == Red <==> status == "new"
    ensures t == Amber <==> status == "reviewing"
    ensures t == Grey <==> status != "new" && status != "reviewing"
  {
    if status == "new" then Red else if status == "reviewing" then Amber else Grey
  }

  /** The warning icon repeats the same three-way choice as the card. */
  function IconTone(status: string): (t: Tone)
    ensures t == Red <==> status == "new"
    ensures t == Amber <==> status == "reviewing"
    ensures t == Grey <==> status != "new" && status != "reviewing"
  {
    if status == "new" then Red else if status == "reviewing" then Amber else Grey
  }

  lemma IconMatchesCard(status: string)
    ensures IconTone(status) == CardTone(status)
  {
  }

  /** The score badge on an alert card: red from 85, amber below. */
  function ScoreBadge(score: real): (t: Tone)
    ensures t == Red <==> score >= 85.0
    ensures t == Amber <==> score < 85.0
  {
    if score >= 85.0 then Red else Amber
  }

  /** A red alert badge always sits on a HIGH transaction score, but the converse fails:
      a score of 82 is HIGH in the table and amber in the sidebar. */
  lemma ScoreBadgeStricterThanTable(score: real)
    ensures ScoreBadge(score) == Red ==> TransactionTable.FraudScoreBadge(score) == TransactionTable.High
    ensures ScoreBadge(82.0) == Amber && TransactionTable.FraudScoreBadge(82.0) == TransactionTable.High
  {
  }
}
