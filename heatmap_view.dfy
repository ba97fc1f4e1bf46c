/** The store heatmap: each lane's flagged count relative to the busiest lane picks a colour and an opacity. */
module HeatmapView {
  import opened MockData

  /** `Math.max(...data.map(d => d.flagged_count))`, defined on non-empty data only. */
  function MaxFlagged(data: seq<HeatmapData>): (m: int)
    requires |data| > 0
    ensures forall i :: 0 <= i < |data| ==> data[i].flaggedCount <= m
    ensures exists i :: 0 <= i < |data| && data[i].flaggedCount == m
  {
    if |data| == 1 then data[0].flaggedCount
    else
      var rest := MaxFlagged(data[1..]);
      assert forall i :: 1 <= i < |data| ==> data[i] == data[1..][i - 1];
      if data[0].flaggedCount >= rest then data[0].flaggedCount else rest
  }

  function Intensity(count: int, maxFlagged: int): (r: real)
    requires maxFlagged > 0
    ensures 0 <= count <= maxFlagged ==> 0.0 <= r <= 1.0
    ensures count == maxFlagged ==> r == 1.0
  {
    count as real / maxFlagged as real
  }

  datatype HeatColor = Green600 | Yellow600 | Orange600 | Red600

  function Heat(c: HeatColor): nat
  {
    match c
    case Green600 => 0
    case Yellow600 => 1
    case Orange600 => 2
    case Red600 => 3
  }

  /** `getHeatColor`: red from 0.7, orange from 0.5, yellow from 0.3, green below. */
  function HeatColorOf(count: int, maxFlagged: int): (c: HeatColor)
    requires maxFlagged > 0
    ensures c == Red600 <==> Intensity(count, maxFlagged) >= 0.7
    ensures c == Orange600 <==> 0.5 <= Intensity(count, maxFlagged) < 0.7
    ensures c == Yellow600 <==> 0.3 <= Intensity(count, maxFlagged) < 0.5
    ensures c == Green600 <==> Intensity(count, maxFlagged) < 0.3
  {
    var intensity := count as real / maxFlagged as real;
    if intensity >= 0.7 then Red600
    else if intensity >= 0.5 then Orange600
    else if intensity >= 0.3 then Yellow600
    else Green600
  }

  /** `getHeatOpacity`, as a percentage; it repeats the colour's thresholds. */
  function HeatOpacity(count: int, maxFlagged: int): (r: nat)
    requires maxFlagged > 0
    ensures r == 90 <==> Intensity(count, maxFlagged) >= 0.7
    ensures r == 70 <==> 0.5 <= Intensity(count, maxFlagged) < 0.7
    ensures r == 50 <==> 0.3 <= Intensity(count, maxFlagged) < 0.5
    ensures r == 30 <==> Intensity(count, maxFlagged) < 0.3
  {
    var intensity := count as real / maxFlagged as real;
    if intensity >= 0.7 then 90
    else if intensity >= 0.5 then 70
    else if intensity >= 0.3 then 50
    else 30
  }

  function OpacityFor(c: HeatColor): nat
  {
    match c
    case Red600 => 90
    case Orange600 => 70
    case Yellow600 => 50
    case Green600 => 30
  }

  /** Colour and opacity always pair as red/90, orange/70, yellow/50 and green/30. */
  lemma ColorAndOpacityPaired(count: int, maxFlagged: int)
    requires maxFlagged > 0
    ensures HeatOpacity(count, maxFlagged) == OpacityFor(HeatColorOf(count, maxFlagged))
  {
  }

  /** With non-negative counts, every lane's intensity lies in [0, 1]. */
  lemma IntensityInUnitRange(data: seq<HeatmapData>, i: int)
    requires |data| > 0 && MaxFlagged(data) > 0
    requires 0 <= i < |data| && data[i].flaggedCount >= 0
    ensures 0.0 <= Intensity(data[i].flaggedCount, MaxFlagged(data)) <= 1.0
  {
    var m := MaxFlagged(data);
    RatioInUnitRange(data[i].flaggedCount as real, m as real);
  }

  lemma RatioInUnitRange(c: real, m: real)
    requires 0.0 <= c <= m && m > 0.0
    ensures 0.0 <= c / m <= 1.0
  {
    DivideMonotone(0.0, c, m);
    DivideMonotone(c, m, m);
  }

  lemma DivideMonotone(a: real, b: real, d: real)
    requires a <= b && d > 0.0
    ensures a / d <= b / d
  {
    assert b / d - a / d == (b - a) / d;
  }

  /** Heat never decreases as the count grows. */
  lemma HeatMonotone(lower: int, higher: int, maxFlagged: int)
    requires maxFlagged > 0 && lower <= higher
    ensures Heat(HeatColorOf(lower, maxFlagged)) <= Heat(HeatColorOf(higher, maxFlagged))
  {
    DivideMonotone(lower as real, higher as real, maxFlagged as real);
  }

  lemma MaximumIsRed(m: int)
    requires m > 0
    ensures HeatColorOf(m, m) == Red600
  {
    var r := m as real;
    assert r / r == 1.0;
  }

  /** The busiest lane is always drawn red. */
  lemma BusiestLaneIsRed(data: seq<HeatmapData>)
    requires |data| > 0 && MaxFlagged(data) > 0
    ensures exists i :: 0 <= i < |data| && HeatColorOf(data[i].flaggedCount, MaxFlagged(data)) == Red600
  {
    var m := MaxFlagged(data);
    var i :| 0 <= i < |data| && data[i].flaggedCount == m;
    MaximumIsRed(m);
    assert HeatColorOf(data[i].flaggedCount, m) == Red600;
  }

  lemma SeedHeatmap()
    ensures MaxFlagged(MockHeatmapData) == 31
    ensures HeatColorOf(MockHeatmapData[7].flaggedCount, 31) == Red600
    ensures HeatColorOf(MockHeatmapData[0].flaggedCount, 31) == Red600
    ensures HeatColorOf(MockHeatmapData[6].flaggedCount, 31) == Green600
  {
    var d := MockHeatmapData;
    assert forall i :: 0 <= i < |d| ==> d[i].flaggedCount <= d[7].flaggedCount;
    assert Intensity(31, 31) == 1.0;
    assert Intensity(28, 31) == 28.0 / 31.0;
    assert Intensity(6, 31) == 6.0 / 31.0;
  }
}
