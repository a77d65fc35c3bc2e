/**
 * The repository's sample upload: three profiles, with the answers its
 * tests expect after a single-thread build.
 */
module Scenario {
  import opened Wrappers
  import opened Records
  import opened Text
  import opened Progress
  import opened Upload
  import opened Views
  import opened Wall

  const SampleLines: seq<string> := ["21 25 28", "17", "17 22 17 19 17"]
  const Sample: string := "21 25 28\n17\n17 22 17 19 17"
  /** The sample's deficits, profile by profile. */
  const SampleProfiles: seq<seq<int>> := [[9, 5, 2], [13], [13, 8, 13, 11, 13]]

  /** The sample's initial heights, profile by profile. */
  const SampleHeights: seq<seq<int>> := [[21, 25, 28], [17], [17, 22, 17, 19, 17]]

  lemma SampleFirstLine()
    ensures Render([21, 25, 28]) == "21 25 28"
  {
    assert Show(21) == "21" && Show(25) == "25" && Show(28) == "28";
    assert seq(3, i requires 0 <= i < 3 => Show([21, 25, 28][i])) == ["21", "25", "28"];
    assert ["21", "25", "28"][1..] == ["25", "28"];
    assert ["25", "28"][1..] == ["28"];
  }

  lemma SampleSecondLine()
    ensures Render([17]) == "17"
  {
    assert Show(17) == "17";
    assert seq(1, i requires 0 <= i < 1 => Show([17][i])) == ["17"];
  }

  lemma SampleThirdTokens()
    ensures seq(5, i requires 0 <= i < 5 => Show([17, 22, 17, 19, 17][i])) == ["17", "22", "17", "19", "17"]
  {
    assert Show(17) == "17" && Show(22) == "22" && Show(19) == "19";
  }

  lemma SampleThirdJoined()
    ensures Join(["17", "22", "17", "19", "17"], ' ') == "17 22 17 19 17"
  {
    var tokens: seq<string> := ["17", "22", "17", "19", "17"];
    var last: seq<string> := ["17", "19", "17"];
    JoinThree("17", "19", "17", ' ');
    assert tokens[1..] == ["22"] + last;
    assert (["22"] + last)[1..] == last;
    assert Join(tokens[1..], ' ') == "22 17 19 17";
  }

  lemma SampleThirdLine()
    ensures Render([17, 22, 17, 19, 17]) == "17 22 17 19 17"
  {
    SampleThirdTokens();
    SampleThirdJoined();
  }

  lemma JoinThree(a: string, b: string, c: string, sep: char)
    ensures Join([a, b, c], sep) == a + [sep] + b + [sep] + c
  {
    assert [a, b, c][1..] == [b, c];
    assert [b, c][1..] == [c];
    assert Join([b, c], sep) == b + [sep] + c;
    assert a + [sep] + (b + [sep] + c) == a + [sep] + b + [sep] + c;
  }

  lemma SampleJoined()
    ensures Join(SampleLines, '\n') == Sample
  {
    JoinThree("21 25 28", "17", "17 22 17 19 17", '\n');
  }

  /** The sample text is the sample wall rendered in the upload format. */
  lemma SampleRendered()
    ensures RenderWall(SampleHeights) == Sample
  {
    SampleFirstLine();
    SampleSecondLine();
    SampleThirdLine();
    assert SampleHeights == [[21, 25, 28], [17], [17, 22, 17, 19, 17]];
    assert seq(3, i requires 0 <= i < 3 => Render(SampleHeights[i])) == SampleLines;
    SampleJoined();
  }

  lemma SampleInRange()
    ensures forall i :: 0 <= i < |SampleHeights| ==> 1 <= |SampleHeights[i]| <= MaxSections && InRange(SampleHeights[i])
  {
    assert InRange([21, 25, 28]);
    assert InRange([17]);
    assert InRange([17, 22, 17, 19, 17]);
  }

  lemma SampleDeficits()
    ensures seq(3, i requires 0 <= i < 3 => Deficits(SampleHeights[i])) == SampleProfiles
  {
    assert Deficits([21, 25, 28]) == [9, 5, 2];
    assert Deficits([17]) == [13];
    assert Deficits([17, 22, 17, 19, 17]) == [13, 8, 13, 11, 13];
  }

  /** The sample upload is accepted, and its profiles are the deficits of its lines. */
  lemma SampleParses()
    ensures Parse(Sample) == Ok(SampleProfiles)
  {
    SampleRendered();
    SampleInRange();
    SampleDeficits();
    ParseRenderWall(SampleHeights);
  }

  /** Profile 1 on day 1: three sections are raised, 585 cubic yards of ice. */
  lemma SampleIceDayOne()
    ensures IceProfileDay(DayRecords(SampleProfiles), 1, 1) == Ok(IceReply(1, 585))
  {
    UploadedIce(SampleProfiles, 1, 1);
    CurrentWorkAll([9, 5, 2], 1);
  }

  /** Profile 1 up to day 1: 3 feet, 1111500 gold. */
  lemma SampleCostDayOne()
    ensures CostProfileDay(DayRecords(SampleProfiles), 1, 1) == Ok(CostReply(Some(1), 1111500))
  {
    UploadedCost(SampleProfiles, 1, 1);
    CurrentWorkAll([9, 5, 2], 1);
    assert TotalWork([9, 5, 2], 1) == 3;
  }

  lemma SampleDayOneWork()
    ensures WallTotal(SampleProfiles, 1) == 9
  {
    var p0: seq<int>, p1: seq<int>, p2: seq<int> := [9, 5, 2], [13], [13, 8, 13, 11, 13];
    CurrentWorkAll(p0, 1);
    CurrentWorkAll(p1, 1);
    CurrentWorkAll(p2, 1);
    assert TotalWork(p0, 1) == 3 && TotalWork(p1, 1) == 1 && TotalWork(p2, 1) == 5;
    assert [p0][..0] == [];
    assert WallTotal([p0], 1) == 3;
    assert [p0, p1][..1] == [p0];
    assert WallTotal([p0, p1], 1) == 4;
    assert SampleProfiles == [p0, p1, p2];
    assert [p0, p1, p2][..2] == [p0, p1];
  }

  /** All profiles up to day 1: 3 + 1 + 5 feet, 3334500 gold. */
  lemma SampleOverviewDayOne()
    ensures Overview(DayRecords(SampleProfiles), Some(1)) == Ok(CostReply(Some(1), 3334500))
  {
    UploadedOverview(SampleProfiles, Some(1));
    SampleDayOneWork();
  }

  lemma SampleMissing()
    ensures Missing(SampleProfiles) == 87
  {
    var p0: seq<int>, p1: seq<int>, p2: seq<int> := [9, 5, 2], [13], [13, 8, 13, 11, 13];
    assert Sum(p0) == 16 by {
      assert p0[..2] == [9, 5];
      assert [9, 5][..1] == [9];
    }
    assert Sum(p1) == 13;
    assert Sum(p2) == 58 by {
      assert p2[..4] == [13, 8, 13, 11];
      assert [13, 8, 13, 11][..3] == [13, 8, 13];
      assert [13, 8, 13][..2] == [13, 8];
      assert [13, 8][..1] == [13];
    }
    assert [p0][..0] == [];
    assert Missing([p0]) == 16;
    assert [p0, p1][..1] == [p0];
    assert Missing([p0, p1]) == 29;
    assert SampleProfiles == [p0, p1, p2];
    assert [p0, p1, p2][..2] == [p0, p1];
  }

  /** The whole wall: 16 + 13 + 58 missing feet, 32233500 gold. */
  lemma SampleOverviewTotal()
    ensures Overview(DayRecords(SampleProfiles), None) == Ok(CostReply(None, 32233500))
  {
    SampleParses();
    SampleMissing();
    UploadThenTotalCost(Sample, SampleProfiles);
  }
}
