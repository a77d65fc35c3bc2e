/**
 * The counting behind single-thread construction: on day `d` every section whose
 * remaining deficit is at least `d` gets one more foot, so a profile's daily
 * work is a count of sections and its accumulated work a sum of such counts.
 */
module Progress {
  import opened Records

  function Sum(s: seq<int>): int {
    if |s| == 0 then 0 else Sum(s[..|s| - 1]) + s[|s| - 1]
  }

  /** Remaining deficit of each section: `FullHeight - h` for an initial height `h`. */
  function Deficits(heights: seq<int>): seq<int> {
    seq(|heights|, i requires 0 <= i < |heights| => FullHeight - heights[i])
  }

  /** Feet built on day `day`: the number of sections whose deficit is at least `day`. */
  function CurrentWork(sections: seq<int>, day: int): (n: nat)
    ensures n <= |sections|
  {
    if |sections| == 0 then 0
    else CurrentWork(sections[..|sections| - 1], day) + (if sections[|sections| - 1] >= day then 1 else 0)
  }

  /** Feet built on days 1 to `days` together. */
  function TotalWork(sections: seq<int>, days: nat): nat {
    if days == 0 then 0 else TotalWork(sections, days - 1) + CurrentWork(sections, days)
  }

  /** The part of a deficit that `days` days of work can build: the deficit cut to `[0, days]`. */
  function Clamp(x: int, days: nat): nat {
    if x < 0 then 0 else if x > days then days else x
  }

  /** The independent reference for TotalWork: what each section alone gets done, summed. */
  function ClampedSum(sections: seq<int>, days: nat): nat {
    if |sections| == 0 then 0
    else ClampedSum(sections[..|sections| - 1], days) + Clamp(sections[|sections| - 1], days)
  }

  predicate InRange(sections: seq<int>) {
    forall i :: 0 <= i < |sections| ==> 0 <= sections[i] <= FullHeight
  }

  /** Every section still needing work on day `day` also needed it on any earlier day. */
  lemma {:induction false} CurrentWorkNonIncreasing(sections: seq<int>, d1: int, d2: int)
    requires d1 <= d2
    ensures CurrentWork(sections, d2) <= CurrentWork(sections, d1)
  {
    if |sections| > 0 {
      CurrentWorkNonIncreasing(sections[..|sections| - 1], d1, d2);
    }
  }

  /** All sections are worked on day `day` exactly when none has a smaller deficit. */
  lemma {:induction false} CurrentWorkAll(sections: seq<int>, day: int)
    ensures CurrentWork(sections, day) == |sections| <==> forall i :: 0 <= i < |sections| ==> sections[i] >= day
  {
    if |sections| > 0 {
      var init := sections[..|sections| - 1];
      CurrentWorkAll(init, day);
      assert forall i :: 0 <= i < |init| ==> init[i] == sections[i];
    }
  }

  /** No section is worked on day `day` exactly when every deficit is below `day`. */
  lemma {:induction false} CurrentWorkNone(sections: seq<int>, day: int)
    ensures CurrentWork(sections, day) == 0 <==> forall i :: 0 <= i < |sections| ==> sections[i] < day
  {
    if |sections| > 0 {
      var init := sections[..|sections| - 1];
      CurrentWorkNone(init, day);
      assert forall i :: 0 <= i < |init| ==> init[i] == sections[i];
    }
  }

  /** Accumulated work never goes down from one day to a later one. */
  lemma {:induction false} TotalWorkNonDecreasing(sections: seq<int>, d1: nat, d2: nat)
    requires d1 <= d2
    ensures TotalWork(sections, d1) <= TotalWork(sections, d2)
  {
    if d1 < d2 {
      TotalWorkNonDecreasing(sections, d1, d2 - 1);
    }
  }

  /** Accumulated work is at most one foot per section per day. */
  lemma {:induction false} TotalWorkBound(sections: seq<int>, days: nat)
    ensures TotalWork(sections, days) <= days * |sections|
  {
    if days > 0 {
      TotalWorkBound(sections, days - 1);
      assert (days - 1) * |sections| + |sections| == days * |sections|;
    }
  }

  lemma {:induction false} ClampedSumZero(sections: seq<int>)
    ensures ClampedSum(sections, 0) == 0
  {
    if |sections| > 0 {
      ClampedSumZero(sections[..|sections| - 1]);
    }
  }

  /** One more day adds exactly the sections whose deficit reaches that day. */
  lemma {:induction false} ClampedSumStep(sections: seq<int>, days: nat)
    requires days >= 1
    ensures ClampedSum(sections, days) == ClampedSum(sections, days - 1) + CurrentWork(sections, days)
  {
    if |sections| > 0 {
      ClampedSumStep(sections[..|sections| - 1], days);
    }
  }

  /** Counting by days equals counting by sections. */
  lemma {:induction false} TotalWorkIsClampedSum(sections: seq<int>, days: nat)
    ensures TotalWork(sections, days) == ClampedSum(sections, days)
  {
    if days == 0 {
      ClampedSumZero(sections);
    } else {
      TotalWorkIsClampedSum(sections, days - 1);
      ClampedSumStep(sections, days);
    }
  }

  lemma {:induction false} ClampedSumFull(sections: seq<int>)
    requires InRange(sections)
    ensures ClampedSum(sections, SimulatedDays) == Sum(sections)
  {
    if |sections| > 0 {
      var init := sections[..|sections| - 1];
      assert InRange(init) by {
        assert forall i :: 0 <= i < |init| ==> init[i] == sections[i];
      }
      ClampedSumFull(init);
    }
  }

  /** After `SimulatedDays` days every deficit in `[0, FullHeight]` has been built: the total is the sum of deficits. */
  lemma TotalWorkAtFull(sections: seq<int>)
    requires InRange(sections)
    ensures TotalWork(sections, SimulatedDays) == Sum(sections)
  {
    TotalWorkIsClampedSum(sections, SimulatedDays);
    ClampedSumFull(sections);
  }

  /** Past the largest deficit nothing is left to do: the total stays where it is. */
  lemma {:induction false} TotalWorkSettles(sections: seq<int>, days: nat)
    requires InRange(sections) && days >= SimulatedDays
    ensures TotalWork(sections, days) == Sum(sections)
  {
    if days == SimulatedDays {
      TotalWorkAtFull(sections);
    } else {
      TotalWorkSettles(sections, days - 1);
      CurrentWorkNone(sections, days);
    }
  }
}
