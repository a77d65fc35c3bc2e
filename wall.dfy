/**
 * What the query endpoints answer on the table an upload leaves behind: the
 * upload's records, looked up the way the views look them up.
 */
module Wall {
  import opened Wrappers
  import opened Records
  import opened Progress
  import opened Upload
  import opened Views
  import Services

  /** Filtering a concatenation of tables filters each part, in order. */
  lemma {:induction false} MatchingAppend(a: seq<Day>, b: seq<Day>, day: nat, profile: nat)
    ensures Matching(a + b, day, profile) == Matching(a, day, profile) + Matching(b, day, profile)
  {
    if |b| == 0 {
      assert a + b == a;
    } else {
      var init := b[..|b| - 1];
      assert (a + b)[..|a + b| - 1] == a + init;
      assert (a + b)[|a + b| - 1] == b[|b| - 1];
      MatchingAppend(a, init, day, profile);
    }
  }

  /** Profile `profile` (from 1) and day `day` are among those the upload stored. */
  predicate Stored(ps: seq<seq<int>>, day: nat, profile: nat) {
    1 <= profile <= |ps| && 1 <= day <= SimulatedDays
  }

  /** The record the simulation stores for one profile and day. */
  function Record(ps: seq<seq<int>>, day: nat, profile: nat): Day
    requires 1 <= profile <= |ps|
  {
    Day(day, profile, CurrentWork(ps[profile - 1], day), TotalWork(ps[profile - 1], day))
  }

  /** One profile's records hold exactly one row per simulated day. */
  lemma {:induction false} MatchingProfileDays(profileNo: nat, profile: seq<int>, days: nat, day: nat, p: nat)
    ensures Matching(ProfileDays(profileNo, profile, days), day, p)
         == if p == profileNo && 1 <= day <= days
            then [Day(day, profileNo, CurrentWork(profile, day), TotalWork(profile, day))]
            else []
  {
    if days > 0 {
      var init := ProfileDays(profileNo, profile, days - 1);
      assert ProfileDays(profileNo, profile, days)[..days - 1] == init;
      MatchingProfileDays(profileNo, profile, days - 1, day, p);
    }
  }

  /**
   * After an upload the filter on a day and a profile finds exactly one row
   * when the pair was stored, and none otherwise: never several.
   */
  lemma {:induction false} MatchingDayRecords(ps: seq<seq<int>>, day: nat, profile: nat)
    ensures Matching(DayRecords(ps), day, profile)
         == if Stored(ps, day, profile) then [Record(ps, day, profile)] else []
  {
    if |ps| > 0 {
      var init, last := ps[..|ps| - 1], ps[|ps| - 1];
      var head, tail := DayRecords(init), ProfileDays(|ps|, last, SimulatedDays);
      assert DayRecords(ps) == head + tail;
      MatchingAppend(head, tail, day, profile);
      MatchingDayRecords(init, day, profile);
      MatchingProfileDays(|ps|, last, SimulatedDays, day, profile);
      if Stored(init, day, profile) {
        assert Record(init, day, profile) == Record(ps, day, profile) by {
          assert ps[profile - 1] == init[profile - 1];
        }
      }
    }
  }

  /**
   * After an upload, the ice for a profile on a day is found exactly when
   * both were stored, and is 195 cubic yards for every foot built that day.
   */
  lemma UploadedIce(ps: seq<seq<int>>, day: nat, profile: nat)
    ensures IceProfileDay(DayRecords(ps), day, profile)
         == if Stored(ps, day, profile)
            then Ok(IceReply(day, CurrentWork(ps[profile - 1], day) * YardsIcePerFoot))
            else Err(NotFound)
  {
    MatchingDayRecords(ps, day, profile);
  }

  /**
   * The same ice, read for the raw heights of the profile: entry `day - 1` of
   * the daily list `calculate_ice_amount` evidently means, in cubic yards.
   */
  lemma IceIsScaledDaily(ps: seq<seq<int>>, heights: seq<int>, day: nat, profile: nat)
    requires Stored(ps, day, profile) && ps[profile - 1] == Deficits(heights)
    ensures var r := IceProfileDay(DayRecords(ps), day, profile);
      r.Ok? && r.value.day == day && r.value.iceAmount == Services.ScaledIceAmount(heights)[day - 1]
  {
    UploadedIce(ps, day, profile);
    assert Services.DailyIce(heights)[day - 1] == CurrentWork(ps[profile - 1], day);
  }

  /**
   * After an upload, the cost for a profile up to a day is found exactly when
   * both were stored, and is `calculate_cost` of the ice in the feet built so far.
   */
  lemma UploadedCost(ps: seq<seq<int>>, day: nat, profile: nat)
    ensures CostProfileDay(DayRecords(ps), day, profile)
         == if Stored(ps, day, profile)
            then Ok(CostReply(Some(day), Services.CalculateCost(YardsIcePerFoot * TotalWork(ps[profile - 1], day))))
            else Err(NotFound)
  {
    MatchingDayRecords(ps, day, profile);
  }

  /** Every uploaded row belongs to an uploaded profile and a simulated day. */
  lemma UploadedRowsBounds(ps: seq<seq<int>>)
    ensures forall x :: x in DayRecords(ps) ==> 1 <= x.profileNo <= |ps| && 1 <= x.dayNo <= SimulatedDays
  {
    var rows := DayRecords(ps);
    forall x | x in rows
      ensures 1 <= x.profileNo <= |ps| && 1 <= x.dayNo <= SimulatedDays
    {
      var i :| 0 <= i < |rows| && rows[i] == x;
      DayRecordsAt(ps, i);
      assert i / SimulatedDays < |ps|;
    }
  }

  /** The row of day `day` of profile `profile` sits at position `30 * (profile - 1) + day - 1`. */
  lemma UploadedRowAt(ps: seq<seq<int>>, day: nat, profile: nat)
    requires Stored(ps, day, profile)
    ensures Record(ps, day, profile) in DayRecords(ps)
  {
    var i := SimulatedDays * (profile - 1) + day - 1;
    DayRecordsAt(ps, i);
    assert i / SimulatedDays == profile - 1 && i % SimulatedDays == day - 1;
    assert DayRecords(ps)[i] == Record(ps, day, profile);
  }

  /** A profile number that is present and bounds all others is the aggregate's answer. */
  lemma MaxProfileIs(rows: seq<Day>, w: Day)
    requires w in rows && forall x :: x in rows ==> x.profileNo <= w.profileNo
    ensures MaxProfile(rows) == Some(w.profileNo)
  {
    MaxProfileMeaning(rows);
  }

  /** A day of the profile that is present and bounds its other days is the aggregate's answer. */
  lemma MaxDayIs(rows: seq<Day>, profile: nat, w: Day)
    requires w in rows && w.profileNo == profile
    requires forall x :: x in rows && x.profileNo == profile ==> x.dayNo <= w.dayNo
    ensures MaxDay(rows, profile) == Some(w.dayNo)
  {
    MaxDayMeaning(rows, profile);
  }

  /** The largest profile number after an upload is the number of profiles uploaded. */
  lemma UploadedMaxProfile(ps: seq<seq<int>>)
    ensures MaxProfile(DayRecords(ps)) == if |ps| == 0 then None else Some(|ps|)
  {
    if |ps| > 0 {
      UploadedRowsBounds(ps);
      UploadedRowAt(ps, 1, |ps|);
      MaxProfileIs(DayRecords(ps), Record(ps, 1, |ps|));
    }
  }

  /** The latest day of an uploaded profile is day 30; a profile not uploaded has none. */
  lemma UploadedMaxDay(ps: seq<seq<int>>, profile: nat)
    ensures MaxDay(DayRecords(ps), profile) == if 1 <= profile <= |ps| then Some(SimulatedDays) else None
  {
    UploadedRowsBounds(ps);
    if 1 <= profile <= |ps| {
      UploadedRowAt(ps, SimulatedDays, profile);
      MaxDayIs(DayRecords(ps), profile, Record(ps, SimulatedDays, profile));
    } else {
      MaxDayMeaning(DayRecords(ps), profile);
    }
  }

  /** The feet all profiles accumulated after `day` days of work. */
  function WallTotal(ps: seq<seq<int>>, day: nat): nat {
    if |ps| == 0 then 0 else WallTotal(ps[..|ps| - 1], day) + TotalWork(ps[|ps| - 1], day)
  }

  /** Every foot missing from the uploaded profiles. */
  function Missing(ps: seq<seq<int>>): int {
    if |ps| == 0 then 0 else Missing(ps[..|ps| - 1]) + Sum(ps[|ps| - 1])
  }

  /** By day 30 every missing foot of every profile has been built. */
  lemma {:induction false} WallTotalAtFull(ps: seq<seq<int>>)
    requires forall i :: 0 <= i < |ps| ==> InRange(ps[i])
    ensures WallTotal(ps, SimulatedDays) == Missing(ps)
  {
    if |ps| > 0 {
      WallTotalAtFull(ps[..|ps| - 1]);
      TotalWorkAtFull(ps[|ps| - 1]);
    }
  }

  /** After an upload, one profile's part of the overview: its feet by the queried day. */
  lemma UploadedProfileTotal(ps: seq<seq<int>>, dayId: Option<nat>, day: nat, n: nat)
    requires 1 <= n <= |ps| && 1 <= day <= SimulatedDays
    requires if DayGiven(dayId) then dayId.value == day else day == SimulatedDays
    ensures ProfileTotal(DayRecords(ps), dayId, n) == Ok(TotalWork(ps[n - 1], day))
  {
    UploadedMaxDay(ps, n);
    assert QueriedDay(DayRecords(ps), dayId, n) == Some(day);
    MatchingDayRecords(ps, day, n);
  }

  /**
   * After an upload the overview loop adds, profile by profile, the feet each
   * accumulated by the queried day: the requested one, or else day 30.
   */
  lemma {:induction false} UploadedSumTotals(ps: seq<seq<int>>, dayId: Option<nat>, day: nat, n: nat)
    requires n <= |ps| && 1 <= day <= SimulatedDays
    requires if DayGiven(dayId) then dayId.value == day else day == SimulatedDays
    ensures SumTotals(DayRecords(ps), dayId, n) == Ok(WallTotal(ps[..n], day))
  {
    if n > 0 {
      UploadedSumTotals(ps, dayId, day, n - 1);
      UploadedProfileTotal(ps, dayId, day, n);
      assert ps[..n][..n - 1] == ps[..n - 1];
      assert ps[..n][n - 1] == ps[n - 1];
    }
  }

  /** A requested day after the 30 simulated ones stops the overview loop at profile 1. */
  lemma {:induction false} LateSumTotals(ps: seq<seq<int>>, day: nat, n: nat)
    requires day > SimulatedDays && n >= 1
    ensures SumTotals(DayRecords(ps), Some(day), n) == Err(NotFound)
  {
    MatchingDayRecords(ps, day, 1);
    if n > 1 {
      LateSumTotals(ps, day, n - 1);
    }
  }

  /**
   * After an upload, the overview prices the feet all profiles accumulated by
   * the requested day, or by day 30 when no day (or day 0) is given; a day
   * past the simulation finds no row. Before any upload there is no answer.
   */
  lemma UploadedOverview(ps: seq<seq<int>>, dayId: Option<nat>)
    ensures var day := if DayGiven(dayId) then dayId.value else SimulatedDays;
      Overview(DayRecords(ps), dayId)
        == if |ps| == 0 then Err(NoProfiles)
           else if day <= SimulatedDays then Ok(CostReply(dayId, FeetCost(WallTotal(ps, day))))
           else Err(NotFound)
  {
    UploadedMaxProfile(ps);
    if |ps| > 0 {
      var day := if DayGiven(dayId) then dayId.value else SimulatedDays;
      if day <= SimulatedDays {
        UploadedSumTotals(ps, dayId, day, |ps|);
        assert ps[..|ps|] == ps;
      } else {
        LateSumTotals(ps, day, |ps|);
      }
    }
  }

  /**
   * Upload a text, then ask for the overall cost with no day: the answer
   * prices every foot missing from the uploaded wall, 195 cubic yards of ice
   * per foot and 1900 gold per cubic yard.
   */
  lemma UploadThenTotalCost(text: string, ps: seq<seq<int>>)
    requires Parse(text) == Ok(ps)
    ensures var r := Overview(DayRecords(ps), None);
      r.Ok? && r.value.day == None && r.value.cost == Missing(ps) * YardsIcePerFoot * GoldPerYardIce
  {
    ParsedProfiles(text);
    UploadedOverview(ps, None);
    WallTotalAtFull(ps);
  }
}
