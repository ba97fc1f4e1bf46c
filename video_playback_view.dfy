/**
  The review screen: a mock playback clock over a 90-second recording, the receipt line and
  fraud markers that follow the clock, the time label and the decision form's guard.
  Time is kept in whole tenths of a second, the step of the playback clock.
*/
module VideoPlaybackView {
  import opened Wrappers
  import opened Seqs
  import opened Text
  import opened MockData
  import opened Palette
  import TransactionTable

  /** Tenths of a second per second. */
  const Tenths := 10

  /** `useState(90)`: the mock recording lasts 90 seconds. */
  const Duration: int := 90 * Tenths

  /** A receipt item is "currently scanning" for five seconds from its offset. */
  const ReceiptWindow: int := 5 * Tenths

  /** A fraud marker is shown while the clock is less than two seconds away from it. */
  const MarkerRadius: int := 2 * Tenths

  // ---------------------------------------------------------------------------
  // Clock arithmetic

  /** The interval callback's `Math.min(prev + 0.1, duration)`. */
  function TickTarget(t: int): (r: int)
    ensures t < Duration ==> r == t + 1
    ensures t >= Duration ==> r == Duration
  {
    if t + 1 <= Duration then t + 1 else Duration
  }

  /** `handleSkip`'s `Math.max(0, Math.min(currentTime + seconds, duration))`. */
  function SkipTarget(t: int, seconds: int): (r: int)
    ensures 0 <= r <= Duration
    ensures 0 <= t + seconds * Tenths <= Duration ==> r == t + seconds * Tenths
    ensures t + seconds * Tenths < 0 ==> r == 0
    ensures t + seconds * Tenths > Duration ==> r == Duration
  {
    var target := t + seconds * Tenths;
    if target < 0 then 0 else if target > Duration then Duration else target
  }

  // ---------------------------------------------------------------------------
  // Time label

  /** `formatTime` on a whole number of seconds: minutes, a colon, and the seconds padded to two digits. */
  function FormatTime(seconds: nat): (r: string)
    ensures |r| >= 4 && r[|r| - 3] == ':' && AllDigits(r[|r| - 2..])
  {
    var mins, secs := NatToString(seconds / 60), PadStart(NatToString(seconds % 60), 2, '0');
    SecondsDigits(seconds % 60);
    LabelEnds(mins, secs);
    mins + ":" + secs
  }

  lemma SecondsDigits(secs: nat)
    requires secs < 60
    ensures |PadStart(NatToString(secs), 2, '0')| == 2 && AllDigits(PadStart(NatToString(secs), 2, '0'))
  {
    SecondsField(secs);
  }

  lemma LabelEnds(mins: string, secs: string)
    requires |mins| > 0 && |secs| == 2 && AllDigits(secs)
    ensures var r := mins + ":" + secs; |r| >= 4 && r[|r| - 3] == ':' && AllDigits(r[|r| - 2..])
  {
    var r := mins + ":" + secs;
    assert r[|r| - 3] == ':';
    assert r[|r| - 2..] == secs;
  }

  /** The pieces of a label joined around a separator, read back by position. */
  lemma LabelFields(left: string, sep: string, right: string)
    ensures var r := left + sep + right;
      |r| == |left| + |sep| + |right| && r[..|left|] == left && r[|left|..|left| + |sep|] == sep
      && r[|left| + |sep|..] == right && r[|r| - |right|..] == right
  {
  }

  /** `formatTime(currentTime)`: on a clock at `t` tenths, `Math.floor` of minutes and of
      seconds both see only the whole seconds `t / 10`. */
  function FormatClock(t: nat): (r: string)
    ensures ParseTime(r) == Some(t / Tenths)
  {
    FormatTimeRoundTrip(t / Tenths);
    FormatTime(t / Tenths)
  }

  /** The seconds field is always exactly two digits: the tens and the units of `seconds % 60`. */
  lemma FormatTimeShape(seconds: nat)
    ensures FormatTime(seconds)
         == NatToString(seconds / 60) + ":" + [DigitChar(seconds % 60 / 10), DigitChar(seconds % 60 % 10)]
  {
    SecondsField(seconds % 60);
  }

  /** `secs.toString().padStart(2, '0')` for a second count below 60. */
  lemma SecondsField(secs: nat)
    requires secs < 60
    ensures PadStart(NatToString(secs), 2, '0') == [DigitChar(secs / 10), DigitChar(secs % 10)]
  {
    if secs < 10 {
      OneDigitSeconds(secs);
    } else {
      TwoDigitSeconds(secs);
    }
  }

  lemma OneDigitSeconds(secs: nat)
    requires secs < 10
    ensures PadStart(NatToString(secs), 2, '0') == [DigitChar(secs / 10), DigitChar(secs % 10)]
  {
    assert secs / 10 == 0 && secs % 10 == secs;
    assert NatToString(secs) == [DigitChar(secs)];
    PadOneDigit(secs);
  }

  lemma TwoDigitSeconds(secs: nat)
    requires 10 <= secs < 60
    ensures PadStart(NatToString(secs), 2, '0') == [DigitChar(secs / 10), DigitChar(secs % 10)]
  {
    TwoDigits(secs);
    assert |NatToString(secs)| == 2;
  }

  lemma PadOneDigit(d: nat)
    requires d < 10
    ensures PadStart([DigitChar(d)], 2, '0') == [DigitChar(0), DigitChar(d)]
  {
    var one := [DigitChar(d)];
    assert PadStart(one, 2, '0') == PadStart(['0'] + one, 2, '0');
    assert ['0'] + one == [DigitChar(0), DigitChar(d)];
  }

  lemma TwoDigits(n: nat)
    requires 10 <= n < 100
    ensures NatToString(n) == [DigitChar(n / 10), DigitChar(n % 10)]
  {
    assert n / 10 < 10;
    assert NatToString(n / 10) == [DigitChar(n / 10)];
  }

  /** Reads a label of the form FormatTime writes back into seconds: the reference the label
      format is checked against, not an operation of the screen. */
  function ParseTime(text: string): Option<nat>
  {
    match IndexOf(text, ':')
    case None => None
    case Some(k) => ParseFields(text[..k], text[k + 1..])
  }

  /** The minutes and seconds fields on either side of the colon. */
  function ParseFields(mins: string, secs: string): Option<nat>
  {
    if |mins| > 0 && AllDigits(mins) && |secs| == 2 && AllDigits(secs) && ParseDigits(secs) < 60
    then Some(ParseDigits(mins) * 60 + ParseDigits(secs))
    else None
  }

  lemma ColonFollowsDigits(m: string, rest: string)
    requires AllDigits(m)
    ensures IndexOf(m + ":" + rest, ':') == Some(|m|)
  {
    var text := m + ":" + rest;
    assert text[|m|] == ':';
    assert forall k :: 0 <= k < |m| ==> text[k] == m[k];
  }

  /** Two digits read back as the number below 100 they came from. */
  lemma ParseTwoDigits(secs: nat)
    requires secs < 100
    ensures ParseDigits([DigitChar(secs / 10), DigitChar(secs % 10)]) == secs
  {
    var first := [DigitChar(secs / 10)];
    var ss := first + [DigitChar(secs % 10)];
    assert ss[..|ss| - 1] == first && first[..|first| - 1] == [];
    assert ParseDigits(first) == secs / 10;
    assert ParseDigits(ss) == ParseDigits(first) * 10 + secs % 10;
  }

  /** A minutes field, a colon and a two-digit seconds field below 60 parse back to their value. */
  lemma ParseTimeOfFields(m: string, ss: string, seconds: nat)
    requires |m| > 0 && AllDigits(m) && |ss| == 2 && AllDigits(ss) && ParseDigits(ss) < 60
    requires seconds == ParseDigits(m) * 60 + ParseDigits(ss)
    ensures ParseTime(m + ":" + ss) == Some(seconds)
  {
    var text := m + ":" + ss;
    ColonFollowsDigits(m, ss);
    ParseTimeAtColon(text, |m|);
    assert text[..|m|] == m;
    assert text[|m| + 1..] == ss;
    ParseFieldsOfDigits(m, ss);
  }

  /** The label determines the time: minutes times sixty plus the seconds field gives back `seconds`. */
  lemma FormatTimeRoundTrip(seconds: nat)
    ensures ParseTime(FormatTime(seconds)) == Some(seconds)
  {
    var m, ss := FormatTimeFields(seconds);
    ParseTimeOfFields(m, ss, seconds);
  }

  /** The two fields of the label and the values they read back as. */
  lemma FormatTimeFields(seconds: nat) returns (m: string, ss: string)
    ensures FormatTime(seconds) == m + ":" + ss
    ensures |m| > 0 && AllDigits(m) && |ss| == 2 && AllDigits(ss) && ParseDigits(ss) < 60
    ensures seconds == ParseDigits(m) * 60 + ParseDigits(ss)
  {
    var mins, secs := seconds / 60, seconds % 60;
    assert seconds == mins * 60 + secs && secs < 60;
    m := NatToString(mins);
    ss := [DigitChar(secs / 10), DigitChar(secs % 10)];
    assert FormatTime(seconds) == m + ":" + ss by { FormatTimeShape(seconds); }
    assert ParseDigits(m) == mins by { ParseNatToString(mins); }
    assert ParseDigits(ss) == secs by { ParseTwoDigits(secs); }
  }

  lemma ParseFieldsOfDigits(mins: string, secs: string)
    requires |mins| > 0 && AllDigits(mins) && |secs| == 2 && AllDigits(secs) && ParseDigits(secs) < 60
    ensures ParseFields(mins, secs) == Some(ParseDigits(mins) * 60 + ParseDigits(secs))
  {
  }

  lemma ParseTimeAtColon(text: string, k: nat)
    requires IndexOf(text, ':') == Some(k)
    ensures ParseTime(text) == ParseFields(text[..k], text[k + 1..])
  {
  }

  lemma FormatTimeInjective(a: nat, b: nat)
    requires FormatTime(a) == FormatTime(b)
    ensures a == b
  {
    FormatTimeRoundTrip(a);
    FormatTimeRoundTrip(b);
  }

  // ---------------------------------------------------------------------------
  // What follows the clock

  predicate InWindow(item: ReceiptItem, t: int)
  {
    item.timestampOffset * Tenths <= t < item.timestampOffset * Tenths + ReceiptWindow
  }

  /** `getCurrentReceiptItem`: the first item, in list order, whose five-second window holds `t`. */
  function FindReceiptItem(items: seq<ReceiptItem>, t: int): (r: Option<ReceiptItem>)
    ensures r.None? <==> forall i :: 0 <= i < |items| ==> !InWindow(items[i], t)
    ensures r.Some? ==> exists i :: 0 <= i < |items| && items[i] == r.value && InWindow(items[i], t)
                                    && forall j :: 0 <= j < i ==> !InWindow(items[j], t)
  {
    if items == [] then None
    else if InWindow(items[0], t) then Some(items[0])
    else
      var r := FindReceiptItem(items[1..], t);
      assert forall i :: 1 <= i < |items| ==> items[i] == items[1..][i - 1];
      if r.Some? then
        var i :| 0 <= i < |items[1..]| && items[1..][i] == r.value && InWindow(items[1..][i], t)
                 && forall j :: 0 <= j < i ==> !InWindow(items[1..][j], t);
        assert items[i + 1] == r.value;
        r
      else r
  }

  lemma {:induction false} SpacedOffsetsIncrease(items: seq<ReceiptItem>, i: int, j: int)
    requires OffsetsSpaced(items) && 0 <= i < j < |items|
    ensures items[i].timestampOffset + 5 < items[j].timestampOffset
    decreases j - i
  {
    if j > i + 1 {
      SpacedOffsetsIncrease(items, i, j - 1);
    }
  }

  /** With spaced offsets, no two receipt windows overlap. */
  lemma AtMostOneWindow(items: seq<ReceiptItem>, t: int, i: int, j: int)
    requires OffsetsSpaced(items)
    requires 0 <= i < |items| && 0 <= j < |items|
    requires InWindow(items[i], t) && InWindow(items[j], t)
    ensures i == j
  {
    if i < j {
      SpacedOffsetsIncrease(items, i, j);
    } else if j < i {
      SpacedOffsetsIncrease(items, j, i);
    }
  }

  /** So on spaced items the lookup returns the one item whose window holds the time. */
  lemma FindReceiptItemUnique(items: seq<ReceiptItem>, t: int, i: int)
    requires OffsetsSpaced(items) && 0 <= i < |items| && InWindow(items[i], t)
    ensures FindReceiptItem(items, t) == Some(items[i])
  {
    var r := FindReceiptItem(items, t);
    var k :| 0 <= k < |items| && items[k] == r.value && InWindow(items[k], t);
    AtMostOneWindow(items, t, i, k);
  }

  lemma SeedCurrentItem()
    ensures FindReceiptItem(MockReceiptItems, 18 * Tenths) == Some(MockReceiptItems[2])
    ensures !MockReceiptItems[2].scanned
    ensures FindReceiptItem(MockReceiptItems, 0) == None
  {
    SeedReceiptOffsetsSpaced();
    FindReceiptItemUnique(MockReceiptItems, 18 * Tenths, 2);
  }

  function Abs(x: int): nat { if x < 0 then -x else x }

  predicate IsFraudNear(m: VideoMarker, t: int)
  {
    Abs(m.time * Tenths - t) < MarkerRadius && m.kind == "fraud"
  }

  /** The alert overlay: the `fraud` markers less than two seconds from the clock, in marker order. */
  function OverlayMarkers(markers: seq<VideoMarker>, t: int): (r: seq<VideoMarker>)
    ensures IsSubsequence(r, markers)
    ensures forall m :: multiset(r)[m] == (if m.kind == "fraud" && Abs(m.time * Tenths - t) < MarkerRadius then multiset(markers)[m] else 0)
  {
    Filter(markers, NearTo(t))
  }

  function NearTo(t: int): VideoMarker -> bool
  {
    (m: VideoMarker) => IsFraudNear(m, t)
  }

  /** The header badge: red from a score of 80, amber below. */
  function HeaderBadge(score: real): (t: Tone)
    ensures t == Red <==> score >= 80.0
    ensures t == Amber <==> score < 80.0
  {
    if score >= 80.0 then Red else Amber
  }

  /** The header badge is red exactly when the transaction table calls the score HIGH. */
  lemma HeaderBadgeMatchesTable(score: real)
    ensures HeaderBadge(score) == Red <==> TransactionTable.FraudScoreBadge(score) == TransactionTable.High
  {
  }

  // ---------------------------------------------------------------------------
  // The decision form

  /** The four arguments of `onSubmitDecision(transaction.id, status, fraudCategory, notes)`. */
  datatype Decision = Decision(transactionId: string, status: string, category: string, notes: string)

  datatype SubmitOutcome = MissingStatus | MissingCategory | Submitted(decision: Decision)

  /** `handleSubmit`: a status is required, and a category too when the status is `fraudulent`. */
  function CheckSubmission(transactionId: string, status: string, category: string, notes: string): (r: SubmitOutcome)
    ensures r == MissingStatus <==> status == ""
    ensures r == MissingCategory <==> status == "fraudulent" && category == ""
    ensures r.Submitted? <==> status != "" && (status == "fraudulent" ==> category != "")
    ensures r.Submitted? ==> r.decision == Decision(transactionId, status, category, notes)
  {
    if status == "" then MissingStatus
    else if status == "fraudulent" && category == "" then MissingCategory
    else Submitted(Decision(transactionId, status, category, notes))
  }

  // ---------------------------------------------------------------------------
  // The screen's state

  class PlaybackState {
    const transaction: Transaction
    const receiptItems: seq<ReceiptItem>
    const videoMarkers: seq<VideoMarker>
    var isPlaying: bool
    /** In tenths of a second. */
    var currentTime: int
    var status: string
    var fraudCategory: string
    var notes: string

    /** The clock never runs backwards past zero, and it only plays while short of the end. */
    ghost predicate Valid()
      reads this
    {
      0 <= currentTime && (isPlaying ==> currentTime < Duration)
    }

    constructor (transaction: Transaction, receiptItems: seq<ReceiptItem>, videoMarkers: seq<VideoMarker>)
      ensures Valid()
      ensures this.transaction == transaction && this.receiptItems == receiptItems
      ensures this.videoMarkers == videoMarkers
      ensures !isPlaying && currentTime == 0
      ensures status == "" && fraudCategory == "" && notes == ""
    {
      this.transaction := transaction;
      this.receiptItems := receiptItems;
      this.videoMarkers := videoMarkers;
      isPlaying := false;
      currentTime := 0;
      status := "";
      fraudCategory := "";
      notes := "";
    }

    /** The playback effect, which runs again after every change of the clock or of the playing
        flag: once the clock has reached the end, playback stops. */
    method SettlePlayback()
      modifies this`isPlaying
      ensures isPlaying == (old(isPlaying) && currentTime < Duration)
    {
      if currentTime >= Duration {
        isPlaying := false;
      }
    }

    method PlayPause()
      requires Valid()
      modifies this`isPlaying
      ensures Valid()
      ensures isPlaying == (!old(isPlaying) && currentTime < Duration)
    {
      isPlaying := !isPlaying;
      SettlePlayback();
    }

    /** One firing of the 100 ms interval, which exists only while playing short of the end. */
    method Tick()
      requires Valid()
      modifies this`currentTime, this`isPlaying
      ensures Valid()
      ensures currentTime == if old(isPlaying) then TickTarget(old(currentTime)) else old(currentTime)
      ensures old(isPlaying) ==> currentTime == old(currentTime) + 1 && currentTime <= Duration
      ensures isPlaying == (old(isPlaying) && currentTime < Duration)
    {
      if isPlaying && currentTime < Duration {
        currentTime := TickTarget(currentTime);
      }
      SettlePlayback();
    }

    /** `handleSeek`, called with a marker's time or a receipt item's offset. */
    method Seek(seconds: nat)
      requires Valid()
      modifies this`currentTime, this`isPlaying
      ensures Valid()
      ensures currentTime == seconds * Tenths
      ensures isPlaying == (old(isPlaying) && currentTime < Duration)
    {
      currentTime := seconds * Tenths;
      SettlePlayback();
    }

    /** `handleSkip(-10)` and `handleSkip(10)`. */
    method Skip(seconds: int)
      requires Valid()
      modifies this`currentTime, this`isPlaying
      ensures Valid()
      ensures currentTime == SkipTarget(old(currentTime), seconds) && 0 <= currentTime <= Duration
      ensures isPlaying == (old(isPlaying) && currentTime < Duration)
    {
      currentTime := SkipTarget(currentTime, seconds);
      SettlePlayback();
    }

    method SetStatus(value: string)
      modifies this`status
      ensures status == value
    {
      status := value;
    }

    method SetFraudCategory(value: string)
      modifies this`fraudCategory
      ensures fraudCategory == value
    {
      fraudCategory := value;
    }

    method SetNotes(value: string)
      modifies this`notes
      ensures notes == value
    {
      notes := value;
    }

    /** `handleSubmit`: either a validation message, or the decision handed to `onSubmitDecision`. */
    method Submit() returns (outcome: SubmitOutcome)
      ensures outcome.Submitted? <==> status != "" && (status == "fraudulent" ==> fraudCategory != "")
      ensures outcome.Submitted? ==>
        outcome.decision == Decision(transaction.id, status, fraudCategory, notes)
      ensures outcome == MissingStatus <==> status == ""
    {
      outcome := CheckSubmission(transaction.id, status, fraudCategory, notes);
    }

    /** The receipt line highlighted under the video. */
    function CurrentItem(): (r: Option<ReceiptItem>)
      reads this
      ensures r.None? <==> forall i :: 0 <= i < |receiptItems| ==> !InWindow(receiptItems[i], currentTime)
      ensures r.Some? ==>
        exists i :: 0 <= i < |receiptItems| && receiptItems[i] == r.value && InWindow(receiptItems[i], currentTime)
          && forall j :: 0 <= j < i ==> !InWindow(receiptItems[j], currentTime)
    {
      FindReceiptItem(receiptItems, currentTime)
    }

    /** The alert overlay on the video. */
    function VisibleFraudMarkers(): (r: seq<VideoMarker>)
      reads this
      ensures IsSubsequence(r, videoMarkers)
      ensures forall i :: 0 <= i < |r| ==> r[i].kind == "fraud" && Abs(r[i].time * Tenths - currentTime) < MarkerRadius
      ensures forall m :: multiset(r)[m]
                          == (if m.kind == "fraud" && Abs(m.time * Tenths - currentTime) < MarkerRadius then multiset(videoMarkers)[m] else 0)
    {
      var r := OverlayMarkers(videoMarkers, currentTime);
      assert forall i :: 0 <= i < |r| ==> multiset(r)[r[i]] > 0;
      r
    }

    /** The label under the timeline, `formatTime(currentTime) / formatTime(duration)`. */
    function TimeLabel(): (r: string)
      reads this
      requires Valid()
      ensures var k := |FormatClock(currentTime)|;
        k + 3 <= |r| && ParseTime(r[..k]) == Some(currentTime / Tenths) && r[k..k + 3] == " / "
        && ParseTime(r[k + 3..]) == Some(Duration / Tenths)
    {
      var now, total := FormatClock(currentTime), FormatClock(Duration);
      LabelFields(now, " / ", total);
      now + " / " + total
    }
  }
}
