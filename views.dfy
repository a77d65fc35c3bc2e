/**
 * The read side of the API: per-profile, per-day ice and cost, and the cost
 * over all profiles, computed from the rows of the `Day` table.
 */
module Views {
  import opened Wrappers
  import opened Records

  /** Why a query gives no answer. */
  datatype QueryError =
    | NotFound                 // `get_object_or_404` found no row: HTTP 404
    | MultipleObjectsReturned  // `get_object_or_404` found more than one row
    | NoProfiles               // empty table: `profile_no__max` is None and `range(1, None + 1)` raises

  /** The body of an ice answer, as `IceSerializer` carries it. */
  datatype IceReply = IceReply(day: nat, iceAmount: nat)

  /** The body of a cost answer, as `CostSerializer` carries it; `day` may be null. */
  datatype CostReply = CostReply(day: Option<nat>, cost: nat)

  predicate Matches(x: Day, day: nat, profile: nat) {
    x.dayNo == day && x.profileNo == profile
  }

  /** `Day.objects.filter(day_no=day, profile_no=profile)`: the matching rows, in table order. */
  function Matching(rows: seq<Day>, day: nat, profile: nat): (m: seq<Day>)
    ensures |m| <= |rows|
  {
    if |rows| == 0 then []
    else
      var last := rows[|rows| - 1];
      Matching(rows[..|rows| - 1], day, profile) + (if Matches(last, day, profile) then [last] else [])
  }

  /** The filter keeps exactly the rows for that day and profile. */
  lemma {:induction false} MatchingMeaning(rows: seq<Day>, day: nat, profile: nat)
    ensures forall x :: x in Matching(rows, day, profile) <==> x in rows && Matches(x, day, profile)
  {
    if |rows| > 0 {
      var init, last := rows[..|rows| - 1], rows[|rows| - 1];
      assert rows == init + [last];
      MatchingMeaning(init, day, profile);
    }
  }

  /** `get_object_or_404(queryset)`: the one row the filter matches. */
  function Lookup(rows: seq<Day>, day: nat, profile: nat): Result<Day, QueryError> {
    var m := Matching(rows, day, profile);
    if |m| == 0 then Err(NotFound)
    else if |m| > 1 then Err(MultipleObjectsReturned)
    else Ok(m[0])
  }

  /**
   * Not found exactly when no row has that day and profile; several found
   * exactly when more than one has; otherwise the answer is that one row.
   */
  lemma LookupMeaning(rows: seq<Day>, day: nat, profile: nat)
    ensures var r := Lookup(rows, day, profile);
      && (r == Err(NotFound) <==> forall x :: x in rows ==> !Matches(x, day, profile))
      && (r == Err(MultipleObjectsReturned) <==> |Matching(rows, day, profile)| > 1)
      && (r.Ok? ==> Matching(rows, day, profile) == [r.value] && r.value in rows && Matches(r.value, day, profile))
  {
    var m := Matching(rows, day, profile);
    MatchingMeaning(rows, day, profile);
    if |m| > 0 {
      assert m[0] in m;
    }
  }

  /**
   * `IceProfileDay.get`: the ice for one profile on one day is the feet built
   * that day times 195; the answer echoes the requested day.
   */
  function IceProfileDay(rows: seq<Day>, dayId: nat, profileId: nat): (r: Result<IceReply, QueryError>)
    ensures r.Ok? <==> |Matching(rows, dayId, profileId)| == 1
    ensures r.Ok? ==>
      r.value == IceReply(dayId, Matching(rows, dayId, profileId)[0].currentFeetDone * YardsIcePerFoot)
    ensures r.Err? ==>
      r.error == if Matching(rows, dayId, profileId) == [] then NotFound else MultipleObjectsReturned
  {
    LookupMeaning(rows, dayId, profileId);
    match Lookup(rows, dayId, profileId)
    case Err(e) => Err(e)
    case Ok(item) => Ok(IceReply(item.dayNo, item.currentFeetDone * YardsIcePerFoot))
  }

  /** The gold for a number of feet: 195 cubic yards of ice per foot, 1900 gold per cubic yard. */
  function FeetCost(feet: nat): nat {
    feet * YardsIcePerFoot * GoldPerYardIce
  }

  /**
   * `CostProfileDay.get`: the cost for one profile up to one day is the feet
   * built so far priced by FeetCost; the answer echoes the requested day.
   */
  function CostProfileDay(rows: seq<Day>, dayId: nat, profileId: nat): (r: Result<CostReply, QueryError>)
    ensures r.Ok? <==> |Matching(rows, dayId, profileId)| == 1
    ensures r.Ok? ==>
      r.value == CostReply(Some(dayId), FeetCost(Matching(rows, dayId, profileId)[0].totalFeetDone))
    ensures r.Err? ==>
      r.error == if Matching(rows, dayId, profileId) == [] then NotFound else MultipleObjectsReturned
  {
    LookupMeaning(rows, dayId, profileId);
    match Lookup(rows, dayId, profileId)
    case Err(e) => Err(e)
    case Ok(item) => Ok(CostReply(Some(item.dayNo), FeetCost(item.totalFeetDone)))
  }

  /** `Day.objects.aggregate(Max("profile_no"))`: None on an empty table. */
  function MaxProfile(rows: seq<Day>): Option<nat> {
    if |rows| == 0 then None
    else
      var m, last := MaxProfile(rows[..|rows| - 1]), rows[|rows| - 1];
      if m.None? || last.profileNo > m.value then Some(last.profileNo) else m
  }

  /** The aggregate is None only on an empty table, and otherwise the largest profile number present. */
  lemma {:induction false} MaxProfileMeaning(rows: seq<Day>)
    ensures var r := MaxProfile(rows);
      && (r.None? <==> |rows| == 0)
      && (r.Some? ==> (exists x :: x in rows && x.profileNo == r.value)
                      && forall x :: x in rows ==> x.profileNo <= r.value)
  {
    if |rows| > 0 {
      var init, last := rows[..|rows| - 1], rows[|rows| - 1];
      assert rows == init + [last];
      MaxProfileMeaning(init);
      var m, r := MaxProfile(init), MaxProfile(rows).value;
      if m.None? || last.profileNo > m.value {
        assert last in rows && last.profileNo == r;
      } else {
        var x :| x in init && x.profileNo == r;
        assert x in rows;
      }
      forall x | x in rows
        ensures x.profileNo <= r
      {
        if x != last {
          assert x in init;
        }
      }
    }
  }

  /** `Max("day_no", filter=Q(profile_no=profile))`: None when the profile has no row. */
  function MaxDay(rows: seq<Day>, profile: nat): Option<nat> {
    if |rows| == 0 then None
    else
      var m, last := MaxDay(rows[..|rows| - 1], profile), rows[|rows| - 1];
      if last.profileNo != profile then m
      else if m.None? || last.dayNo > m.value then Some(last.dayNo) else m
  }

  /** The aggregate is None exactly when the profile has no row, and otherwise its latest day. */
  lemma {:induction false} MaxDayMeaning(rows: seq<Day>, profile: nat)
    ensures var r := MaxDay(rows, profile);
      && (r.None? <==> forall x :: x in rows ==> x.profileNo != profile)
      && (r.Some? ==> (exists x :: x in rows && x.profileNo == profile && x.dayNo == r.value)
                      && forall x :: x in rows && x.profileNo == profile ==> x.dayNo <= r.value)
  {
    if |rows| > 0 {
      var init, last := rows[..|rows| - 1], rows[|rows| - 1];
      assert rows == init + [last];
      MaxDayMeaning(init, profile);
      var m, r := MaxDay(init, profile), MaxDay(rows, profile);
      if r.Some? {
        if last.profileNo == profile && (m.None? || last.dayNo > m.value) {
          assert last in rows && last.dayNo == r.value;
        } else {
          var x :| x in init && x.profileNo == profile && x.dayNo == r.value;
          assert x in rows;
        }
      }
      forall x | x in rows && x.profileNo == profile
        ensures r.Some? && x.dayNo <= r.value
      {
        if x != last {
          assert x in init;
        }
      }
    }
  }

  /** Python truthiness of the optional day: both a missing day and day 0 are false. */
  predicate DayGiven(dayId: Option<nat>) {
    dayId.Some? && dayId.value != 0
  }

  /** The day looked up for a profile: the requested one, or else the profile's latest. */
  function QueriedDay(rows: seq<Day>, dayId: Option<nat>, profile: nat): Option<nat> {
    if DayGiven(dayId) then dayId else MaxDay(rows, profile)
  }

  /**
   * Lines 104-113 for one profile: the accumulated feet of its row for the
   * queried day. Filtering on a missing latest day (None) matches no row.
   */
  function ProfileTotal(rows: seq<Day>, dayId: Option<nat>, profile: nat): Result<nat, QueryError> {
    match QueriedDay(rows, dayId, profile)
    case None => Err(NotFound)
    case Some(d) =>
      match Lookup(rows, d, profile)
      case Err(e) => Err(e)
      case Ok(item) => Ok(item.totalFeetDone)
  }

  /** The loop of lines 103-113 over profiles 1 to `n`; the first failing profile stops it. */
  function SumTotals(rows: seq<Day>, dayId: Option<nat>, n: nat): Result<nat, QueryError> {
    if n == 0 then Ok(0)
    else
      match SumTotals(rows, dayId, n - 1)
      case Err(e) => Err(e)
      case Ok(s) =>
        match ProfileTotal(rows, dayId, n)
        case Err(e) => Err(e)
        case Ok(t) => Ok(s + t)
  }

  /** `CostProfile.get` as a value: the cost of all profiles 1 to the largest profile number. */
  function Overview(rows: seq<Day>, dayId: Option<nat>): Result<CostReply, QueryError> {
    match MaxProfile(rows)
    case None => Err(NoProfiles)
    case Some(m) =>
      match SumTotals(rows, dayId, m)
      case Err(e) => Err(e)
      case Ok(t) => Ok(CostReply(dayId, FeetCost(t)))
  }

  /**
   * The loop succeeds exactly when every profile 1 to `n` has its row; otherwise
   * it stops with the error of the first profile that has none (or several).
   */
  lemma {:induction false} SumTotalsMeaning(rows: seq<Day>, dayId: Option<nat>, n: nat)
    ensures var r := SumTotals(rows, dayId, n);
      && (r.Ok? <==> forall p :: 1 <= p <= n ==> ProfileTotal(rows, dayId, p).Ok?)
      && (r.Err? ==>
            exists p :: 1 <= p <= n && ProfileTotal(rows, dayId, p) == Err(r.error)
                        && forall q :: 1 <= q < p ==> ProfileTotal(rows, dayId, q).Ok?)
  {
    if n > 0 {
      SumTotalsMeaning(rows, dayId, n - 1);
    }
  }

  /** Once a profile fails, the loop's error stays the final answer. */
  lemma {:induction false} SumTotalsStopsAtError(rows: seq<Day>, dayId: Option<nat>, p: nat, n: nat)
    requires p <= n && SumTotals(rows, dayId, p).Err?
    ensures SumTotals(rows, dayId, n) == SumTotals(rows, dayId, p)
  {
    if p < n {
      SumTotalsStopsAtError(rows, dayId, p, n - 1);
    }
  }

  /** One more profile: the loop adds the accumulated feet of that profile's row, or stops. */
  lemma SumTotalsStep(rows: seq<Day>, dayId: Option<nat>, n: nat, m: nat, s: nat)
    requires 1 <= n <= m && SumTotals(rows, dayId, n - 1) == Ok(s)
    ensures var queried := QueriedDay(rows, dayId, n);
      && (queried.None? ==> SumTotals(rows, dayId, m) == Err(NotFound))
      && (queried.Some? && Lookup(rows, queried.value, n).Err? ==>
            SumTotals(rows, dayId, m) == Err(Lookup(rows, queried.value, n).error))
      && (queried.Some? && Lookup(rows, queried.value, n).Ok? ==>
            SumTotals(rows, dayId, n) == Ok(s + Lookup(rows, queried.value, n).value.totalFeetDone))
  {
    if SumTotals(rows, dayId, n).Err? {
      SumTotalsStopsAtError(rows, dayId, n, m);
    }
  }

  /**
   * If some profile up to the largest profile number has no row for the
   * requested day, the overview gives no answer.
   */
  lemma OverviewNeedsEveryProfile(rows: seq<Day>, day: nat, profile: nat)
    requires day != 0 && MaxProfile(rows).Some? && 1 <= profile <= MaxProfile(rows).value
    requires forall x :: x in rows ==> !Matches(x, day, profile)
    ensures Overview(rows, Some(day)).Err?
  {
    SumTotalsMeaning(rows, Some(day), MaxProfile(rows).value);
    LookupMeaning(rows, day, profile);
    assert ProfileTotal(rows, Some(day), profile) == Err(NotFound);
  }

  /**
   * `CostProfile.get`: add up, over profile numbers 1 to the largest one, the
   * accumulated feet on the requested day (or each profile's latest day), and
   * price the sum.
   */
  method CostProfile(rows: seq<Day>, dayId: Option<nat>) returns (r: Result<CostReply, QueryError>)
    ensures r == Overview(rows, dayId)
  {
    var totalFeetDone := 0;
    var profileCount := MaxProfile(rows);
    if profileCount.None? {
      return Err(NoProfiles);
    }
    for profileNo := 1 to profileCount.value + 1
      invariant SumTotals(rows, dayId, profileNo - 1) == Ok(totalFeetDone)
    {
      var dayMax: Option<nat> := None;
      if !DayGiven(dayId) {
        dayMax := MaxDay(rows, profileNo);
      }
      var queried := if DayGiven(dayId) then dayId else dayMax;
      assert queried == QueriedDay(rows, dayId, profileNo);
      SumTotalsStep(rows, dayId, profileNo, profileCount.value, totalFeetDone);
      if queried.None? {
        return Err(NotFound);
      }
      var item := Lookup(rows, queried.value, profileNo);
      if item.Err? {
        return Err(item.error);
      }
      totalFeetDone := totalFeetDone + item.value.totalFeetDone;
    }
    r := Ok(CostReply(dayId, FeetCost(totalFeetDone)));
  }
}
