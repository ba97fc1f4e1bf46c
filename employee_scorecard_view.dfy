/**
  The employee scorecard tab: a search over name and shop, a stable sort by fraud rate
  (highest first) on a copy of the filtered list, the rate bands and the high-risk count.
*/
module EmployeeScorecardView {
  import opened Seqs
  import opened Text
  import opened MockData
  import opened Palette

  predicate MatchesSearch(e: EmployeeScorecard, term: string)
  {
    ContainsIgnoringCase(e.name, term) || ContainsIgnoringCase(e.shopId, term)
  }

  /** `filteredEmployees`: the employees whose lower-cased name or shop id includes the lower-cased term. */
  function FilterEmployees(employees: seq<EmployeeScorecard>, term: string): (r: seq<EmployeeScorecard>)
    ensures IsSubsequence(r, employees)
    ensures forall e :: multiset(r)[e] == if MatchesSearch(e, term) then multiset(employees)[e] else 0
  {
    Filter(employees, (e: EmployeeScorecard) => MatchesSearch(e, term))
  }

  /** The empty search term keeps every employee. */
  lemma EmptySearchKeepsAll(employees: seq<EmployeeScorecard>)
    ensures FilterEmployees(employees, "") == employees
  {
    forall i | 0 <= i < |employees| ensures MatchesSearch(employees[i], "") {
      ContainsEmpty(Lower(employees[i].name));
    }
    FilterKeepsAll(employees, (e: EmployeeScorecard) => MatchesSearch(e, ""));
  }

  /** Highest fraud rate first. */
  ghost predicate RateNonIncreasing(s: seq<EmployeeScorecard>)
  {
    forall i, j :: 0 <= i < j < |s| ==> s[i].fraudRate >= s[j].fraudRate
  }

  /** The employees of `s` whose fraud rate is exactly `rate`, in the order of `s`. */
  function WithRate(s: seq<EmployeeScorecard>, rate: real): seq<EmployeeScorecard>
  {
    Filter(s, (e: EmployeeScorecard) => e.fraudRate == rate)
  }

  /** Places `e` before the first employee of `sorted` whose rate is not higher than its own. */
  function Insert(e: EmployeeScorecard, sorted: seq<EmployeeScorecard>): (r: seq<EmployeeScorecard>)
    ensures multiset(r) == multiset(sorted) + multiset{e}
  {
    if sorted == [] then [e]
    else if e.fraudRate >= sorted[0].fraudRate then [e] + sorted
    else
      assert sorted == [sorted[0]] + sorted[1..];
      [sorted[0]] + Insert(e, sorted[1..])
  }

  /** Prepending an employee whose rate is at least every rate in `s` keeps the order. */
  lemma PrependKeepsOrder(e: EmployeeScorecard, s: seq<EmployeeScorecard>)
    requires RateNonIncreasing(s)
    requires forall k :: 0 <= k < |s| ==> s[k].fraudRate <= e.fraudRate
    ensures RateNonIncreasing([e] + s)
  {
    var r := [e] + s;
    forall i, j | 0 <= i < j < |r| ensures r[i].fraudRate >= r[j].fraudRate {
      assert r[j] == s[j - 1];
      if i > 0 {
        assert r[i] == s[i - 1];
      }
    }
  }

  lemma {:induction false} InsertKeepsOrder(e: EmployeeScorecard, sorted: seq<EmployeeScorecard>)
    requires RateNonIncreasing(sorted)
    ensures RateNonIncreasing(Insert(e, sorted))
  {
    if sorted == [] {
    } else if e.fraudRate >= sorted[0].fraudRate {
      PrependKeepsOrder(e, sorted);
    } else {
      var rest := Insert(e, sorted[1..]);
      InsertKeepsOrder(e, sorted[1..]);
      forall k | 0 <= k < |rest| ensures rest[k].fraudRate <= sorted[0].fraudRate {
        var x := rest[k];
        assert x in multiset(rest);
        if x != e {
          assert x in multiset(sorted[1..]);
          var m :| 0 <= m < |sorted[1..]| && sorted[1..][m] == x;
          assert sorted[m + 1] == x;
        }
      }
      PrependKeepsOrder(sorted[0], rest);
    }
  }

  /** Inserting `e` puts it in front of every employee that shares its rate, and leaves the
      employees of every other rate in their order. */
  lemma {:induction false} InsertWithRate(e: EmployeeScorecard, sorted: seq<EmployeeScorecard>, rate: real)
    requires RateNonIncreasing(sorted)
    ensures WithRate(Insert(e, sorted), rate) == (if e.fraudRate == rate then [e] else []) + WithRate(sorted, rate)
  {
    if sorted == [] {
      assert [e] + sorted == [e];
      WithRatePrepend(e, sorted, rate);
    } else if e.fraudRate >= sorted[0].fraudRate {
      WithRatePrepend(e, sorted, rate);
    } else {
      var head, tail := sorted[0], sorted[1..];
      var rest := Insert(e, tail);
      assert Insert(e, sorted) == [head] + rest;
      assert sorted == [head] + tail;
      InsertWithRate(e, tail, rate);
      InsertBehindHead(e, head, tail, rest, rate);
    }
  }

  /** `e` goes behind a head of higher rate; the two rates differ, so at most one is kept. */
  lemma InsertBehindHead(e: EmployeeScorecard, head: EmployeeScorecard, tail: seq<EmployeeScorecard>,
                         rest: seq<EmployeeScorecard>, rate: real)
    requires e.fraudRate < head.fraudRate
    requires WithRate(rest, rate) == (if e.fraudRate == rate then [e] else []) + WithRate(tail, rate)
    ensures WithRate([head] + rest, rate) == (if e.fraudRate == rate then [e] else []) + WithRate([head] + tail, rate)
  {
    WithRatePrepend(head, rest, rate);
    WithRatePrepend(head, tail, rate);
  }

  lemma WithRatePrepend(x: EmployeeScorecard, s: seq<EmployeeScorecard>, rate: real)
    ensures WithRate([x] + s, rate) == (if x.fraudRate == rate then [x] else []) + WithRate(s, rate)
  {
    assert ([x] + s)[1..] == s;
  }

  lemma InsertWithEveryRate(e: EmployeeScorecard, sorted: seq<EmployeeScorecard>)
    requires RateNonIncreasing(sorted)
    ensures forall rate :: WithRate(Insert(e, sorted), rate) == (if e.fraudRate == rate then [e] else []) + WithRate(sorted, rate)
  {
    forall rate {
      InsertWithRate(e, sorted, rate);
    }
  }

  /** `[...filteredEmployees].sort((a, b) => b.fraud_rate - a.fraud_rate)`. The comparator is a
      consistent order and `Array.prototype.sort` is stable (ECMA-262, 10th edition, section
      22.1.3.27), so the result is the stable descending sort, built here by insertion. */
  function SortByFraudRate(s: seq<EmployeeScorecard>): (r: seq<EmployeeScorecard>)
    ensures multiset(r) == multiset(s)
    ensures RateNonIncreasing(r)
    ensures forall rate :: WithRate(r, rate) == WithRate(s, rate)
  {
    if s == [] then []
    else
      assert s == [s[0]] + s[1..];
      var rest := SortByFraudRate(s[1..]);
      InsertKeepsOrder(s[0], rest);
      InsertWithEveryRate(s[0], rest);
      Insert(s[0], rest)
  }

  /** `getFraudRateBadge`: red from 10 %, amber from 5 %, green below. */
  function FraudRateBadge(rate: real): (t: Tone)
    ensures t == Red <==> rate >= 10.0
    ensures t == Amber <==> 5.0 <= rate < 10.0
    ensures t == Green <==> rate < 5.0
  {
    if rate >= 10.0 then Red else if rate >= 5.0 then Amber else Green
  }

  datatype RiskLevel = LowRisk | MediumRisk | HighRisk

  /** The Risk Level column, written out separately in the table row. */
  function RiskLevelColumn(rate: real): (l: RiskLevel)
    ensures l == HighRisk <==> rate >= 10.0
    ensures l == MediumRisk <==> 5.0 <= rate < 10.0
    ensures l == LowRisk <==> rate < 5.0
  {
    if rate >= 10.0 then HighRisk else if rate >= 5.0 then MediumRisk else LowRisk
  }

  function ToneOf(level: RiskLevel): Tone
  {
    match level
    case HighRisk => Red
    case MediumRisk => Amber
    case LowRisk => Green
  }

  function ToneSeverity(t: Tone): nat
  {
    match t
    case Red => 2
    case Amber => 1
    case _ => 0
  }

  /** The column and the badge use the same thresholds. */
  lemma RiskColumnMatchesBadge(rate: real)
    ensures ToneOf(RiskLevelColumn(rate)) == FraudRateBadge(rate)
  {
  }

  /** In the sorted table the badges never get less severe going down: all red rows come
      first, then the amber ones, then the green ones. */
  lemma SortedBadgesNonIncreasing(s: seq<EmployeeScorecard>, i: int, j: int)
    requires 0 <= i < j < |SortByFraudRate(s)|
    ensures ToneSeverity(FraudRateBadge(SortByFraudRate(s)[i].fraudRate))
         >= ToneSeverity(FraudRateBadge(SortByFraudRate(s)[j].fraudRate))
  {
  }

  predicate IsHighRisk(e: EmployeeScorecard)
  {
    e.fraudRate >= 10.0
  }

  /** "High Risk Employees": counted over all employees, not over the search result. */
  function HighRiskCount(employees: seq<EmployeeScorecard>): (n: nat)
    ensures n <= |employees|
    ensures n == 0 <==> forall i :: 0 <= i < |employees| ==> employees[i].fraudRate < 10.0
  {
    FilterEmptyIff(employees, IsHighRisk);
    |Filter(employees, IsHighRisk)|
  }

  /** Searching can hide high-risk employees from the table, never from the count. */
  lemma HighRiskCountIgnoresSearch(employees: seq<EmployeeScorecard>, term: string)
    ensures |Filter(FilterEmployees(employees, term), IsHighRisk)| <= HighRiskCount(employees)
  {
    SubsequenceCountsNoMore(FilterEmployees(employees, term), employees, IsHighRisk);
  }

  lemma SeedHighRiskCount(now: Timestamp)
    ensures HighRiskCount(MockEmployeeScorecard(now)) == 1
  {
    var emps := MockEmployeeScorecard(now);
    assert Filter(emps[5..], IsHighRisk) == [];
    assert Filter(emps[4..], IsHighRisk) == [emps[4]];
    assert Filter(emps[2..], IsHighRisk) == [emps[4]];
    assert Filter(emps, IsHighRisk) == [emps[4]];
  }
}
