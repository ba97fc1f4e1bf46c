# Retail fraud dashboard: live-feed reconciler and classifiers

This project models the client side of a retail loss-prevention dashboard in Dafny. The dashboard
starts from seed data. It holds a feed of point-of-sale transactions and the fraud alerts raised
against them, and it reconciles that feed against messages from a live service:

- a new transaction or a new alert is put at the top of its list;
- an update rewrites one transaction's status and notes by id and resolves every alert on that
  transaction.

An operator can dismiss alerts, search and filter the transaction list, and open a review screen
for one transaction. The review screen has a mock playback clock, a receipt line and fraud markers
that follow the clock, and a decision form with its validation. Around these sit small pure
classifiers:

- the fraud-score and status badges of the transaction table;
- the alert sidebar's banding;
- the employee scorecard's search, sort by fraud rate and rate bands;
- the heatmap's colour and opacity bands.

Layout, one module per source file:

- `wrappers.dfy` (`Option`), `palette.dfy` (badge colours), `seqs.dfy` (`Array.prototype.filter`
  as an order-preserving subsequence) and `text.dfy` (ASCII `toLowerCase`, `includes`,
  `toString`, `padStart`) are shared helpers.
- `mock_data.dfy` holds the entities, the seed arrays and the invariants the seeds satisfy.
- `transaction_table.dfy`, `live_alert_feed.dfy`, `employee_scorecard_view.dfy` and
  `heatmap_view.dfy` are the pure views.
- `video_playback_view.dfy` is the review screen: a `PlaybackState` class whose methods change
  the clock and the form, plus the pure functions they use.
- `dashboard.dfy` is the reconciler (`Receive` and the list transforms), the transaction filter,
  the stat cards, and a `DashboardState` class whose methods are the message and click handlers.

Representation choices:

- Scores, fraud rates, totals and heat intensities are `real`, because every comparison against
  them is exact (`>= 80`, `>= 10`, `>= 0.7`).
- Playback time is a whole number of tenths of a second, the clock's step.
- Timestamps are opaque millisecond integers. Seed data that reads the clock takes `now` as a
  parameter.
- JavaScript's falsy test on an optional string (`!status`) is "absent or empty".

Two behaviours of the code are easy to miss:

- Dismissal removes every alert carrying the dismissed id, not just one alert
  (src/app/components/dashboard.tsx:104).
- The high and medium filters apply after the search, so they do depend on the search term
  (src/app/components/dashboard.tsx:145-161).

One quirk of the code is kept as written: the review screen calls
`onSubmitDecision(id, status, fraudCategory, notes)`, but the dashboard's handler takes
`(transactionId, status, notes)`. The category therefore lands in the request's notes slot and
the reviewer's notes are dropped (`Dashboard.ForwardDecision`).

Another is not kept: the dashboard passes `mockReceiptItems` to the review screen without
importing it (src/app/components/dashboard.tsx:19-25, 173), so rendering the review screen as
written fails with a reference error. The model supplies the missing import (see
`Dashboard.DashboardState.OpenReview` under "Left out").

The transaction record has an optional `riskLevel` because the dashboard's high and medium
filters read `risk_level`, which the declared interface lacks. The seed transactions carry none,
so those filters and their stat cards show nothing on seed data (`Dashboard.SeedRiskCardsEmpty`).

## Model

| member | source | states |
|---|---|---|
| Seqs.Filter | src/app/components/live-alert-feed.tsx:26 | `Array.prototype.filter`: the result is no longer than the input, is an order-preserving subsequence of it, and holds each element as often as the input does if the predicate accepts it, otherwise never |
| Seqs.SubsequenceTransitive | src/app/components/dashboard.tsx:145-161 | a filter of a filter is still a subsequence of the original list |
| Seqs.SubsequenceCountsNoMore | src/app/components/dashboard.tsx:145-161 | a subsequence has no more elements satisfying a predicate than the list it came from |
| Seqs.FilterEmptyIff | src/app/components/live-alert-feed.tsx:34 | a filter is empty exactly when no element satisfies the predicate |
| Seqs.FilterKeepsAll | src/app/components/dashboard.tsx:145-150 | when every element satisfies the predicate, the filter returns the list unchanged |
| Text.Lower | src/app/components/dashboard.tsx:147-149 | `toLowerCase` on ASCII: same length, each character lowered |
| Text.LowerIdempotent | src/app/components/dashboard.tsx:147-149 | lowering twice is lowering once |
| Text.Contains | src/app/components/dashboard.tsx:147-149 | `includes`: never true for a needle longer than the haystack, always true for the empty needle (its full meaning is `ContainsIff`) |
| Text.ContainsIff | src/app/components/dashboard.tsx:147-149 | `includes` holds exactly when the needle occurs at some position of the haystack |
| Text.ContainsEmpty | src/app/components/dashboard.tsx:147-149 | every string includes the empty string |
| Text.NatToString | src/app/components/video-playback-view.tsx:93 | `toString` of a whole number is a non-empty string of digits, exactly one digit below ten |
| Text.ParseNatToString | src/app/components/video-playback-view.tsx:93 | reading the digits back gives the number |
| Text.PadStart | src/app/components/video-playback-view.tsx:93 | `padStart`: length is the larger of the string's and the width, the string is the suffix and the prefix is fill |
| MockData.MockTransactions | src/lib/mock-data.ts:56-146 | eight transactions stamped within the three hours before the clock reading, none with notes or a risk level |
| MockData.MockAlerts | src/lib/mock-data.ts:217-245 | three alerts stamped within the ninety minutes before the clock reading; the first two are new |
| MockData.MockEmployeeScorecard | src/lib/mock-data.ts:248-309 | six employees, each with a last incident within the week before the clock reading |
| MockData.SeedTransactionIdsDistinct | src/lib/mock-data.ts:56-146 | the seed transaction ids are pairwise distinct |
| MockData.SeedAlertsDenormaliseTransactions | src/lib/mock-data.ts:217-245 | every seed alert names a seed transaction and carries its shop, cashier, score and time |
| MockData.SeedTransactionsWellFormed | src/lib/mock-data.ts:56-146 | seed scores lie in [0, 100]; only the fraudulent transaction has a category |
| MockData.SeedReceiptOffsetsSpaced | src/lib/mock-data.ts:149-214 | each receipt offset is more than five seconds after the previous one |
| MockData.SeedScorecardsConsistent | src/lib/mock-data.ts:248-309 | flagged transactions never exceed total transactions |
| MockData.SeedMarkersOnTimeline | src/lib/mock-data.ts:326-336 | marker times increase strictly and lie within the 90-second recording |
| TransactionTable.FraudScoreBadge | src/app/components/transaction-table.tsx:21-41 | HIGH iff score >= 80, MEDIUM iff 60 <= score < 80, LOW iff score < 60 |
| TransactionTable.FraudScoreBadgeMonotone | src/app/components/transaction-table.tsx:21-41 | a higher score never gets a lower band |
| TransactionTable.StatusBadge | src/app/components/transaction-table.tsx:43-69 | Pending Review iff status absent, empty or `pending`; genuine, fraudulent and suspicious each map to their own label; every other string gets no badge |
| LiveAlertFeed.ActiveAlerts | src/app/components/live-alert-feed.tsx:26 | exactly the alerts with status `new`, in order, never more than there are alerts |
| LiveAlertFeed.ShowsNewIndicator | src/app/components/live-alert-feed.tsx:34-47 | the dot and the "N New" badge show iff some alert has status `new` |
| LiveAlertFeed.ShowsEmptyState | src/app/components/live-alert-feed.tsx:53 | "No active alerts" shows iff the list is empty, and then the new-alert indicator does not |
| LiveAlertFeed.EmptyStateIgnoresStatus | src/app/components/live-alert-feed.tsx:53-57 | "No active alerts" shows for the empty list only; a list of resolved alerts shows neither it nor the indicator |
| LiveAlertFeed.CardTone | src/app/components/live-alert-feed.tsx:62-68 | red iff `new`, amber iff `reviewing`, grey for every other status |
| LiveAlertFeed.IconTone | src/app/components/live-alert-feed.tsx:72-79 | the icon is red iff `new`, amber iff `reviewing`, grey for every other status |
| LiveAlertFeed.IconMatchesCard | src/app/components/live-alert-feed.tsx:72-79 | the icon uses the card's three-way split |
| LiveAlertFeed.ScoreBadge | src/app/components/live-alert-feed.tsx:99-103 | red iff score >= 85 |
| LiveAlertFeed.ScoreBadgeStricterThanTable | src/app/components/live-alert-feed.tsx:99-103 | a red sidebar score is HIGH in the table, but 82 is HIGH in the table and amber in the sidebar |
| EmployeeScorecardView.FilterEmployees | src/app/components/employee-scorecard-view.tsx:25-29 | exactly the employees whose lowered name or shop id includes the lowered term, in order |
| EmployeeScorecardView.EmptySearchKeepsAll | src/app/components/employee-scorecard-view.tsx:25-29 | the empty term keeps every employee |
| EmployeeScorecardView.Insert | src/app/components/employee-scorecard-view.tsx:31-33 | inserting adds exactly one copy of the employee |
| EmployeeScorecardView.PrependKeepsOrder | src/app/components/employee-scorecard-view.tsx:31-33 | an employee rated at least as high as the whole sorted list may go first |
| EmployeeScorecardView.InsertKeepsOrder | src/app/components/employee-scorecard-view.tsx:31-33 | insertion keeps the list non-increasing in fraud rate |
| EmployeeScorecardView.InsertWithRate | src/app/components/employee-scorecard-view.tsx:31-33 | insertion puts the employee ahead of the equal-rate employees already placed |
| EmployeeScorecardView.InsertWithEveryRate | src/app/components/employee-scorecard-view.tsx:31-33 | the same, for every rate at once |
| EmployeeScorecardView.SortByFraudRate | src/app/components/employee-scorecard-view.tsx:31-33 | a permutation of the filtered list, non-increasing in fraud rate, with ties in their original order (a stable sort) |
| EmployeeScorecardView.FraudRateBadge | src/app/components/employee-scorecard-view.tsx:35-55 | red iff rate >= 10, amber iff 5 <= rate < 10, green iff rate < 5 |
| EmployeeScorecardView.RiskLevelColumn | src/app/components/employee-scorecard-view.tsx:164-179 | High Risk iff rate >= 10, Medium Risk iff 5 <= rate < 10, Low Risk iff rate < 5 |
| EmployeeScorecardView.RiskColumnMatchesBadge | src/app/components/employee-scorecard-view.tsx:164-179 | the Risk Level column uses the badge's thresholds |
| EmployeeScorecardView.SortedBadgesNonIncreasing | src/app/components/employee-scorecard-view.tsx:31-55 | down the sorted table the badges never get more severe |
| EmployeeScorecardView.HighRiskCount | src/app/components/employee-scorecard-view.tsx:96 | at most the number of employees, and zero iff every rate is below 10 |
| EmployeeScorecardView.HighRiskCountIgnoresSearch | src/app/components/employee-scorecard-view.tsx:96 | the count is over all employees, so no search yields more high-risk rows |
| EmployeeScorecardView.SeedHighRiskCount | src/app/components/employee-scorecard-view.tsx:96 | one seed employee is high-risk |
| HeatmapView.MaxFlagged | src/app/components/heatmap-view.tsx:10 | an upper bound on every count, attained by some lane |
| HeatmapView.Intensity | src/app/components/heatmap-view.tsx:13 | the ratio lies in [0, 1] for a count between 0 and the maximum, and is 1 at the maximum |
| HeatmapView.HeatColorOf | src/app/components/heatmap-view.tsx:12-18 | red iff intensity >= 0.7, orange iff in [0.5, 0.7), yellow iff in [0.3, 0.5), green iff below 0.3 |
| HeatmapView.HeatOpacity | src/app/components/heatmap-view.tsx:20-26 | opacity 90 iff intensity >= 0.7, 70 iff in [0.5, 0.7), 50 iff in [0.3, 0.5), 30 iff below 0.3 |
| HeatmapView.ColorAndOpacityPaired | src/app/components/heatmap-view.tsx:20-26 | opacity always pairs with colour as 90/70/50/30 |
| HeatmapView.IntensityInUnitRange | src/app/components/heatmap-view.tsx:10-13 | with non-negative counts, every intensity lies in [0, 1] |
| HeatmapView.HeatMonotone | src/app/components/heatmap-view.tsx:12-18 | a larger count never gets a cooler colour |
| HeatmapView.MaximumIsRed | src/app/components/heatmap-view.tsx:12-18 | the maximum count itself is red |
| HeatmapView.BusiestLaneIsRed | src/app/components/heatmap-view.tsx:10-18 | some lane is always red |
| HeatmapView.SeedHeatmap | src/lib/mock-data.ts:312-323 | on the seed data the maximum is 31, lanes with 31 and 28 are red and one with 6 is green |
| VideoPlaybackView.TickTarget | src/app/components/video-playback-view.tsx:69 | `min(t + 0.1, duration)`: one step forward, never past the end |
| VideoPlaybackView.SkipTarget | src/app/components/video-playback-view.tsx:86-88 | the clamped target: in [0, duration], equal to the target when it is in range, 0 below and duration above |
| VideoPlaybackView.FormatTime | src/app/components/video-playback-view.tsx:90-94 | the label ends in a colon and two digits |
| VideoPlaybackView.FormatClock | src/app/components/video-playback-view.tsx:286 | the label for a clock in tenths reads back as its whole seconds |
| VideoPlaybackView.FormatTimeShape | src/app/components/video-playback-view.tsx:90-94 | the label is the minutes, a colon and exactly two digits, the tens and units of `seconds % 60` |
| VideoPlaybackView.FormatTimeRoundTrip | src/app/components/video-playback-view.tsx:90-94 | reading the label back gives the seconds, so `mins * 60 + secs` is the input |
| VideoPlaybackView.FormatTimeInjective | src/app/components/video-playback-view.tsx:90-94 | different times get different labels |
| VideoPlaybackView.FindReceiptItem | src/app/components/video-playback-view.tsx:114-120 | the first item whose five-second window holds the time, or none iff no window holds it |
| VideoPlaybackView.AtMostOneWindow | src/app/components/video-playback-view.tsx:117-118 | on spaced offsets, no two windows hold the same time |
| VideoPlaybackView.FindReceiptItemUnique | src/app/components/video-playback-view.tsx:114-120 | on spaced offsets, the lookup returns the one item whose window holds the time |
| VideoPlaybackView.SeedCurrentItem | src/app/components/video-playback-view.tsx:114-120 | at 18 s on the seed receipt the unscanned steak is current; at 0 s nothing is |
| VideoPlaybackView.OverlayMarkers | src/app/components/video-playback-view.tsx:205-210 | exactly the `fraud` markers less than two seconds from the clock, in marker order |
| VideoPlaybackView.HeaderBadge | src/app/components/video-playback-view.tsx:151-156 | red iff score >= 80, amber otherwise |
| VideoPlaybackView.HeaderBadgeMatchesTable | src/app/components/video-playback-view.tsx:151-156 | the header is red exactly when the table calls the score HIGH |
| VideoPlaybackView.CheckSubmission | src/app/components/video-playback-view.tsx:96-107 | refuses an empty status, and a fraudulent status without a category; otherwise submits exactly (id, status, category, notes) |
| VideoPlaybackView.PlaybackState.constructor | src/app/components/video-playback-view.tsx:54-62 | paused at 0 with an empty form |
| VideoPlaybackView.PlaybackState.SettlePlayback | src/app/components/video-playback-view.tsx:71-73 | playback stops once the clock has reached the end |
| VideoPlaybackView.PlaybackState.PlayPause | src/app/components/video-playback-view.tsx:77-79 | toggles playing, which cannot stay on at the end |
| VideoPlaybackView.PlaybackState.Tick | src/app/components/video-playback-view.tsx:65-75 | while playing the clock advances one tenth and never passes the end; playing stops at the end |
| VideoPlaybackView.PlaybackState.Seek | src/app/components/video-playback-view.tsx:81-84 | the clock jumps to the given second |
| VideoPlaybackView.PlaybackState.Skip | src/app/components/video-playback-view.tsx:86-88 | the clock lands on the clamped target, always in [0, duration] |
| VideoPlaybackView.PlaybackState.SetStatus | src/app/components/video-playback-view.tsx:60 | the form holds the chosen status |
| VideoPlaybackView.PlaybackState.SetFraudCategory | src/app/components/video-playback-view.tsx:61 | the form holds the chosen category |
| VideoPlaybackView.PlaybackState.SetNotes | src/app/components/video-playback-view.tsx:62 | the form holds the notes |
| VideoPlaybackView.PlaybackState.CurrentItem | src/app/components/video-playback-view.tsx:114-122 | the first receipt item whose window holds the clock, or none iff no window holds it |
| VideoPlaybackView.PlaybackState.VisibleFraudMarkers | src/app/components/video-playback-view.tsx:205-210 | exactly the `fraud` markers less than two seconds from the clock, in marker order |
| VideoPlaybackView.PlaybackState.TimeLabel | src/app/components/video-playback-view.tsx:286 | the clock's label, " / " and the duration's label; each label reads back as its whole seconds |
| VideoPlaybackView.PlaybackState.Submit | src/app/components/video-playback-view.tsx:96-107 | submits iff a status is chosen and a fraudulent status has a category, handing over exactly the form's values |
| Dashboard.UpdateTransactions | src/app/components/dashboard.tsx:62-68 | same length and order; a transaction with the id gets exactly the given status and notes (absent ones too), keeping every other field; every other transaction is unchanged |
| Dashboard.ResolveAlerts | src/app/components/dashboard.tsx:69-74 | same length and order; every alert on the transaction becomes `resolved`; the others are unchanged |
| Dashboard.Receive | src/app/components/dashboard.tsx:47-79 | a new transaction or alert is prepended with the other list untouched; an update rewrites both lists as above; an unknown type or an unparseable frame changes nothing |
| Dashboard.RemoveAlert | src/app/components/dashboard.tsx:103-106 | removes every alert with the id and keeps the others, in order |
| Dashboard.FindTransaction | src/app/components/dashboard.tsx:92 | the first transaction with the id, or none iff no transaction has it |
| Dashboard.UpdateKeepsIds | src/app/components/dashboard.tsx:62-68 | an update never changes an id, so distinct ids stay distinct |
| Dashboard.UpdateIdempotent | src/app/components/dashboard.tsx:62-74 | replaying an update changes nothing further |
| Dashboard.UpdateThenFind | src/app/components/dashboard.tsx:62-68 | after an update the transaction is found with the new status and notes |
| Dashboard.UpdateSilencesAlerts | src/app/components/dashboard.tsx:69-74 | after an update no active alert remains for that transaction |
| Dashboard.UpdateScenario | src/app/components/dashboard.tsx:62-74 | for two transactions and an alert on the first, an update to genuine rewrites the first, keeps the second and resolves the alert |
| Dashboard.ReceiveKeepsReferences | src/app/components/dashboard.tsx:47-79 | every message keeps all alerts pointing at transactions in the feed, given that a new alert does |
| Dashboard.DismissKeepsReferences | src/app/components/dashboard.tsx:103-106 | dismissal keeps all alerts pointing at transactions in the feed |
| Dashboard.DismissRemovesExactly | src/app/components/dashboard.tsx:103-106 | an alert survives dismissal iff it was there and has another id |
| Dashboard.FilterTransactions | src/app/components/dashboard.tsx:144-165 | a subsequence in feed order, holding exactly the transactions that match the search and pass the active filter |
| Dashboard.EmptySearchShowsAll | src/app/components/dashboard.tsx:144-165 | an empty term under `all` shows the whole feed |
| Dashboard.EmptySearchMatches | src/app/components/dashboard.tsx:145-150 | the empty term matches every transaction |
| Dashboard.IsPending | src/app/components/dashboard.tsx:160 | the pending filter accepts exactly the transactions the table badges "Pending Review" |
| Dashboard.PassesFilter | src/app/components/dashboard.tsx:153-161 | a transaction without a risk level passes `all`, passes `pending` iff it is pending, and never passes `high` or `medium` |
| Dashboard.NewTransactionListedFirst | src/app/components/dashboard.tsx:144-165 | a new transaction that passes the search and filter heads the filtered list, with nothing re-sorted |
| Dashboard.CardCount | src/app/components/dashboard.tsx:229-259 | a card's count is at most the feed's size and zero iff no transaction passes its filter |
| Dashboard.CardCountIsUnsearchedList | src/app/components/dashboard.tsx:221-259 | each card counts the list its filter shows under an empty search |
| Dashboard.SearchNeverExceedsCard | src/app/components/dashboard.tsx:144-165 | a search shows no more transactions than the card for that filter counts |
| Dashboard.FilterKeepsAllMembers | src/app/components/dashboard.tsx:153-161 | re-applying a filter to a list it already passed keeps the list |
| Dashboard.SeedRiskCardsEmpty | src/app/components/dashboard.tsx:229-245 | on the seed data the High Risk and Medium Risk cards read zero |
| Dashboard.ForwardDecision | src/app/components/dashboard.tsx:108-114 | the request carries the id and status, and the category in the notes slot |
| Dashboard.ForwardKeepsNotesIff | src/app/components/dashboard.tsx:108-114 | the reviewer's notes reach the request iff they equal the category |
| Dashboard.DashboardState.constructor | src/app/components/dashboard.tsx:29-35 | the dashboard view, nothing selected, the seed feed, an empty search and the `all` filter |
| Dashboard.DashboardState.OnMessage | src/app/components/dashboard.tsx:47-79 | the feed becomes `Receive` of the old feed and the message |
| Dashboard.DashboardState.WatchFootage | src/app/components/dashboard.tsx:91-97 | selects the transaction and switches to the review screen iff the id is found; otherwise nothing changes |
| Dashboard.DashboardState.ViewAlert | src/app/components/dashboard.tsx:99-101 | the same as watching that transaction's footage |
| Dashboard.DashboardState.DismissAlert | src/app/components/dashboard.tsx:103-106 | the alerts become `RemoveAlert` of the old alerts |
| Dashboard.DashboardState.SubmitDecision | src/app/components/dashboard.tsx:108-116 | sends exactly (id, status, notes) and changes no state while the request is in flight |
| Dashboard.DashboardState.DecisionSettled | src/app/components/dashboard.tsx:113-122 | once the request settles, back to the dashboard iff it went through; on a failure the review screen stays |
| Dashboard.DashboardState.Back | src/app/components/dashboard.tsx:175 | back to the dashboard view |
| Dashboard.DashboardState.ChangeFilter | src/app/components/dashboard.tsx:129-141 | the active filter becomes the chosen one |
| Dashboard.DashboardState.SetSearchTerm | src/app/components/dashboard.tsx:291 | the search term becomes the typed text |
| Dashboard.DashboardState.FilteredTransactions | src/app/components/dashboard.tsx:167 | the table's list: a subsequence of the feed holding exactly the transactions that match the search and pass the active filter |
| Dashboard.DashboardState.ShowsReview | src/app/components/dashboard.tsx:169 | the review screen shows only with a selection, and under the screen invariant exactly when the review view is active |
| Dashboard.DashboardState.OpenReview | src/app/components/dashboard.tsx:169-178 | on the review view, a fresh review screen on the selected transaction with the seed receipt and markers, paused at 0, with an empty status, category and notes |

## Left out

- The WebSocket lifecycle (open, close, `isConnected`, the cleanup) is I/O. A frame enters the model
  already parsed, as a `Message`, with `Unparseable` for a frame the handler's try/catch drops (one that `JSON.parse`
  rejects, or one whose payload is missing).
- `new Date(...)` on incoming timestamps is date parsing; the model takes timestamps as given.
- The decision POST is a network call. `SubmitDecision` sends it and `DecisionSettled` is the
  settling of its `await`, taking whether the request went through as a parameter. A fetch that
  resolves with an HTTP error status still counts as gone through, as in the code.
- Toast notifications, `handleRefresh` (a toast only) and all JSX rendering are presentation.
- `activeTab` only switches which panel is rendered.
- The `setInterval` timers are left out. The 100 ms playback interval is modelled as the `Tick`
  method, and the sidebar's 2-second pulse toggle is left out.
- Playback adds 0.1 as a floating-point number; the model counts whole tenths, so it has no rounding drift.
- VideoPlaybackView.PlaybackState.Seek: takes a whole number of seconds, because its only callers
  pass a marker time or a receipt offset, both whole seconds in the seed data.
- `toFixed`, percentage positions and widths on the timeline, and the average fraud rate card
  (a floating-point division) are display arithmetic.
- Heatmap inputs with no lanes (`Math.max()` is `-Infinity`) or a zero maximum (`NaN` intensities):
  `MaxFlagged` and the bands require non-empty data and a positive maximum.
- `toLowerCase` and `includes` are modelled on ASCII only, without Unicode case folding.
- Dashboard.DashboardState.OpenReview: supplies the seed receipt items that the dashboard passes
  without importing (src/app/components/dashboard.tsx:19-25, 173); as written, rendering the review
  screen fails with a reference error, which the model does not capture.
- MockData.SeedAlertsDenormaliseTransactions: the seed functions read the clock once, as `now`;
  the seed data reads `Date.now()` afresh for each entry, so an alert's time equals its
  transaction's only when both readings fall in the same millisecond. The same single reading
  underlies the time bounds of `MockTransactions`, `MockAlerts` and `MockEmployeeScorecard`.
- The date formatting (`date-fns` `format`) is a foreign library.
- `src/app/components/stream-viewer.tsx` (HTTP polling that copies server payloads into state) is
  not part of this model.
- `src/app/App.tsx` (it toggles a DOM class and mounts components) is not part of this model.
