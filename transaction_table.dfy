/** The two classifiers of the transaction table: the fraud-score badge and the status badge. */
module TransactionTable {
  import opened Wrappers

  datatype ScoreBand = Low | Medium | High

  /** Orders the bands from least to most severe. */
  function Severity(b: ScoreBand): nat
  {
    match b
    case Low => 0
    case Medium => 1
    case High => 2
  }

  /** `getFraudScoreBadge`: HIGH from 80, MEDIUM from 60, LOW below. */
  function FraudScoreBadge(score: real): (b: ScoreBand)
    ensures b == High <==> score >= 80.0
    ensures b == Medium <==> 60.0 <= score < 80.0
    ensures b == Low <==> score < 60.0
  {
    if score >= 80.0 then High
    else if score >= 60.0 then Medium
    else Low
  }

  /** A higher score never falls into a less severe band. */
  lemma FraudScoreBadgeMonotone(lower: real, higher: real)
    requires lower <= higher
    ensures Severity(FraudScoreBadge(lower)) <= Severity(FraudScoreBadge(higher))
  {
  }

  datatype StatusLabel = PendingReview | Genuine | Fraudulent | Suspicious

  /** JavaScript's `!status || status === 'pending'`: `undefined`, the empty string and `pending`. */
  predicate AwaitsReview(status: Option<string>)
  {
    status.None? || status.value == "" || status.value == "pending"
  }

  /** `getStatusBadge`: no badge at all (`undefined`) for a status it does not know. */
  function StatusBadge(status: Option<string>): (r: Option<StatusLabel>)
    ensures r == Some(PendingReview) <==> AwaitsReview(status)
    ensures r == Some(Genuine) <==> status == Some("genuine")
    ensures r == Some(Fraudulent) <==> status == Some("fraudulent")
    ensures r == Some(Suspicious) <==> status == Some("suspicious")
    ensures r.None? <==>
      status.Some? && status.value !in {"", "pending", "genuine", "fraudulent", "suspicious"}
  {
    if status.None? || status.value == "" || status.value == "pending" then Some(PendingReview)
    else if status.value == "genuine" then Some(Genuine)
    else if status.value == "fraudulent" then Some(Fraudulent)
    else if status.value == "suspicious" then Some(Suspicious)
    else None
  }
}
