/**
 * `calculate_ice_amount` and `calculate_cost`: raise every section below 30
 * feet by one foot a day for 30 days, count the feet raised each day, and turn
 * ice into gold.
 */
module Services {
  import opened Records
  import opened Progress

  /** Height after `days` passes of the daily loop over a section starting at `h`. */
  function Raised(h: int, days: nat): int {
    if days == 0 then h
    else
      var x := Raised(h, days - 1);
      if x < FullHeight then x + 1 else x
  }

  /** A section climbs one foot a day until it reaches 30; one at or above 30 never moves. */
  lemma {:induction false} RaisedClosedForm(h: int, days: nat)
    ensures Raised(h, days) == if h >= FullHeight then h else if h + days >= FullHeight then FullHeight else h + days
  {
    if days > 0 {
      RaisedClosedForm(h, days - 1);
    }
  }

  /** After the 30 passes every section that started in `[0, 30]` stands at exactly 30. */
  lemma RaisedCompletes(h: int)
    requires 0 <= h <= FullHeight
    ensures Raised(h, SimulatedDays) == FullHeight
  {
    RaisedClosedForm(h, SimulatedDays);
  }

  /** The loop never lowers a section and never raises one above 30. */
  lemma RaisedBounds(h: int, days: nat)
    ensures h <= Raised(h, days)
    ensures h <= FullHeight ==> Raised(h, days) <= FullHeight
    ensures h > FullHeight ==> Raised(h, days) == h
  {
    RaisedClosedForm(h, days);
  }

  /** On pass `days + 1` a section is raised exactly when its deficit is at least `days + 1`. */
  lemma RaisedOnPass(h: int, days: nat)
    ensures (Raised(h, days) < FullHeight) == (FullHeight - h >= days + 1)
  {
    RaisedClosedForm(h, days);
  }

  /** The feet built on days 1 to `days`, one entry per day, for deficits `ds`. */
  function Daily(ds: seq<int>, days: nat): (r: seq<int>)
    ensures |r| == days
  {
    seq(days, k requires 0 <= k < days => CurrentWork(ds, k + 1))
  }

  /** The list `return_amount` that the 30 passes build: the feet raised on each day. */
  function DailyIce(heights: seq<int>): seq<int> {
    Daily(Deficits(heights), SimulatedDays)
  }

  /** Each day raises at most one foot per section, and no day raises more than the day before. */
  lemma DailyIceShape(heights: seq<int>, j: nat, k: nat)
    requires j <= k < SimulatedDays
    ensures |DailyIce(heights)| == SimulatedDays
    ensures 0 <= DailyIce(heights)[k] <= DailyIce(heights)[j] <= |heights|
  {
    CurrentWorkNonIncreasing(Deficits(heights), j + 1, k + 1);
  }

  lemma {:induction false} DailySum(ds: seq<int>, days: nat)
    ensures Sum(Daily(ds, days)) == TotalWork(ds, days)
  {
    if days > 0 {
      assert Daily(ds, days)[..days - 1] == Daily(ds, days - 1);
      DailySum(ds, days - 1);
    }
  }

  /**
   * The 30 daily amounts add up to the feet missing from the sections: the sum
   * of `30 - h` over initial heights `h` in `[0, 30]`.
   */
  lemma DailyIceSum(heights: seq<int>)
    requires InRange(heights)
    ensures Sum(DailyIce(heights)) == Sum(Deficits(heights))
  {
    var ds := Deficits(heights);
    DailySum(ds, SimulatedDays);
    assert InRange(ds) by {
      forall i | 0 <= i < |ds| ensures 0 <= ds[i] <= 30 {
        assert ds[i] == 30 - heights[i];
      }
    }
    TotalWorkAtFull(ds);
  }

  /** Lines 9-13: one pass over the sections, raising in place each one still below 30. */
  method RaiseOnce(sections: array<int>, ghost init: seq<int>, day: nat) returns (amtPerDay: nat)
    requires |init| == sections.Length
    requires forall k :: 0 <= k < sections.Length ==> sections[k] == Raised(init[k], day)
    modifies sections
    ensures forall k :: 0 <= k < sections.Length ==> sections[k] == Raised(init[k], day + 1)
    ensures amtPerDay == CurrentWork(Deficits(init), day + 1)
  {
    ghost var ds := Deficits(init);
    amtPerDay := 0;
    for i := 0 to sections.Length
      invariant forall k :: 0 <= k < i ==> sections[k] == Raised(init[k], day + 1)
      invariant forall k :: i <= k < sections.Length ==> sections[k] == Raised(init[k], day)
      invariant amtPerDay == CurrentWork(ds[..i], day + 1)
    {
      RaisedOnPass(init[i], day);
      assert ds[..i + 1][..i] == ds[..i];
      if sections[i] < FullHeight {
        sections[i] := sections[i] + 1;
        amtPerDay := amtPerDay + 1;
      }
    }
    assert ds[..sections.Length] == ds;
  }

  /** Lines 8-14: 30 passes over the sections, collecting the feet raised on each. */
  method BuildUp(sections: array<int>) returns (amounts: seq<int>)
    modifies sections
    ensures forall i :: 0 <= i < sections.Length ==> sections[i] == Raised(old(sections[i]), SimulatedDays)
    ensures amounts == DailyIce(old(sections[..]))
  {
    ghost var init := sections[..];
    ghost var ds := Deficits(init);
    amounts := [];
    for day := 0 to SimulatedDays
      invariant forall i :: 0 <= i < sections.Length ==> sections[i] == Raised(init[i], day)
      invariant amounts == Daily(ds, day)
    {
      var amtPerDay := RaiseOnce(sections, init, day);
      assert amounts + [amtPerDay] == Daily(ds, day + 1);
      amounts := amounts + [amtPerDay];
    }
  }

  /** Python's `s * n` on a list: `n` copies of `s`, one after the other. */
  function Repeat(s: seq<int>, n: nat): (r: seq<int>)
    ensures |r| == n * |s|
  {
    if n == 0 then [] else s + Repeat(s, n - 1)
  }

  /** Entry `j` of copy `q` of a repetition is entry `j` of the repeated list. */
  lemma {:induction false} RepeatAt(s: seq<int>, n: nat, q: nat, j: nat)
    requires q < n && j < |s|
    ensures q * |s| + j < |Repeat(s, n)| && Repeat(s, n)[q * |s| + j] == s[j]
  {
    if q > 0 {
      RepeatAt(s, n - 1, q - 1, j);
      assert q * |s| + j == |s| + ((q - 1) * |s| + j);
    }
  }

  /**
   * `calculate_ice_amount`, with the sections held in a list. Line 15 repeats the
   * 30-entry daily list 195 times: the result has 5850 entries, and entry `i` is
   * the feet raised on day `i mod 30 + 1`.
   */
  method CalculateIceAmount(heights: seq<int>) returns (r: seq<int>)
    ensures |r| == SimulatedDays * YardsIcePerFoot
    ensures forall i :: 0 <= i < |r| ==> r[i] == DailyIce(heights)[i % SimulatedDays]
  {
    var sections := new int[|heights|](i requires 0 <= i < |heights| => heights[i]);
    assert sections[..] == heights;
    var returnAmount := BuildUp(sections);
    r := Repeat(returnAmount, YardsIcePerFoot);
    forall i | 0 <= i < |r| ensures r[i] == DailyIce(heights)[i % SimulatedDays] {
      RepeatAt(returnAmount, YardsIcePerFoot, i / SimulatedDays, i % SimulatedDays);
    }
  }

  /** What line 15 evidently means: the daily feet scaled to cubic yards of ice. */
  function ScaledIceAmount(heights: seq<int>): (r: seq<int>)
    ensures |r| == SimulatedDays
  {
    seq(SimulatedDays, k requires 0 <= k < SimulatedDays => YardsIcePerFoot * DailyIce(heights)[k])
  }

  lemma {:induction false} SumScaled(s: seq<int>, c: int)
    ensures Sum(seq(|s|, k requires 0 <= k < |s| => c * s[k])) == c * Sum(s)
  {
    if |s| > 0 {
      var init := s[..|s| - 1];
      assert seq(|s|, k requires 0 <= k < |s| => c * s[k])[..|s| - 1]
          == seq(|init|, k requires 0 <= k < |init| => c * init[k]);
      SumScaled(init, c);
    }
  }

  /**
   * The scaled list has one entry per day and totals 195 cubic yards for every
   * foot missing from the sections.
   */
  lemma ScaledIceTotal(heights: seq<int>)
    requires InRange(heights)
    ensures Sum(ScaledIceAmount(heights)) == YardsIcePerFoot * Sum(Deficits(heights))
  {
    var daily := DailyIce(heights);
    assert ScaledIceAmount(heights) == seq(|daily|, k requires 0 <= k < |daily| => YardsIcePerFoot * daily[k]);
    SumScaled(daily, YardsIcePerFoot);
    DailyIceSum(heights);
  }

  /**
   * Line 15 as written does not scale: for one section of height 29 the
   * repeated list has 5850 entries and starts with 1 foot, where the scaled
   * list has 30 entries and starts with 195 cubic yards.
   */
  lemma RepetitionIsNotScaling()
    ensures var repeated := Repeat(DailyIce([29]), YardsIcePerFoot);
      |repeated| == 5850 && repeated[0] == 1 && repeated[30] == 1
    ensures |ScaledIceAmount([29])| == 30 && ScaledIceAmount([29])[0] == 195
  {
    var daily := DailyIce([29]);
    assert Deficits([29]) == [1];
    assert daily[0] == CurrentWork([1], 1) == 1;
    RepeatAt(daily, YardsIcePerFoot, 0, 0);
    RepeatAt(daily, YardsIcePerFoot, 1, 0);
  }

  /** `calculate_cost`: gold for an amount of ice; the amount is recovered by dividing by 1900. */
  function CalculateCost(ice: int): (r: int)
    ensures r % GoldPerYardIce == 0 && r / GoldPerYardIce == ice
  {
    ice * GoldPerYardIce
  }
}
