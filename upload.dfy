/**
 * The upload path: parse the uploaded text into profiles of remaining
 * deficits, simulate 30 days of single-thread construction per profile, and
 * replace the contents of the `Day` table with the resulting records.
 */
module Upload {
  import opened Wrappers
  import opened Records
  import opened Text
  import opened Progress

  /**
   * Why an upload is refused. The first two are the validation errors the
   * upload raises on purpose; `Malformed` is the `ValueError` that `int` raises
   * on a token that is not an integer (an empty token included).
   */
  datatype UploadError = TooManySections | SectionOutOfRange | Malformed

  /** Python's `max` on a non-empty list. */
  function Max(s: seq<int>): (m: int)
    requires |s| > 0
    ensures m in s
    ensures forall i :: 0 <= i < |s| ==> s[i] <= m
  {
    if |s| == 1 then s[0] else var m := Max(s[1..]); if s[0] >= m then s[0] else m
  }

  /** Python's `min` on a non-empty list. */
  function Min(s: seq<int>): (m: int)
    requires |s| > 0
    ensures m in s
    ensures forall i :: 0 <= i < |s| ==> m <= s[i]
  {
    if |s| == 1 then s[0] else var m := Min(s[1..]); if s[0] <= m then s[0] else m
  }

  /** `int(x)` for every token, in order; `None` when `int` raises on some token. */
  function ParseInts(tokens: seq<string>): Option<seq<int>> {
    if |tokens| == 0 then Some([])
    else
      match ParseInts(tokens[..|tokens| - 1])
      case None => None
      case Some(vs) =>
        match ParseInt(tokens[|tokens| - 1])
        case None => None
        case Some(v) => Some(vs + [v])
  }

  /** The conversion succeeds exactly when every token is an integer, and keeps their order. */
  lemma {:induction false} ParseIntsMeaning(tokens: seq<string>)
    ensures var r := ParseInts(tokens);
      && (r.Some? <==> forall i :: 0 <= i < |tokens| ==> ParseInt(tokens[i]).Some?)
      && (r.Some? ==>
            |r.value| == |tokens| && forall i :: 0 <= i < |tokens| ==> ParseInt(tokens[i]) == Some(r.value[i]))
  {
    if |tokens| > 0 {
      var init := tokens[..|tokens| - 1];
      ParseIntsMeaning(init);
      assert forall i :: 0 <= i < |init| ==> init[i] == tokens[i];
    }
  }

  /**
   * One line of the upload: split on single spaces, refuse more than 2000
   * sections, turn each initial height `x` into its deficit `30 - x`, refuse
   * any deficit outside `[0, 30]`.
   */
  function ParseLine(line: string): Result<seq<int>, UploadError> {
    var elem := Split(line, ' ');
    if |elem| > MaxSections then Err(TooManySections)
    else
      match ParseInts(elem)
      case None => Err(Malformed)
      case Some(heights) =>
        var ds := Deficits(heights);
        if Max(ds) > FullHeight || Min(ds) < 0 then Err(SectionOutOfRange) else Ok(ds)
  }

  /** A line is refused as too long exactly when it splits into more than 2000 tokens. */
  lemma ParseLineTooMany(line: string)
    ensures ParseLine(line) == Err(TooManySections) <==> |Split(line, ' ')| > MaxSections
  {
  }

  /** A line within the limit is refused as malformed exactly when some token is not an integer. */
  lemma ParseLineMalformed(line: string)
    ensures var tokens := Split(line, ' ');
      ParseLine(line) == Err(Malformed) <==>
        |tokens| <= MaxSections && exists i :: 0 <= i < |tokens| && ParseInt(tokens[i]).None?
  {
    ParseIntsMeaning(Split(line, ' '));
  }

  /** A token ending in the separator `\x1c` makes `int()` raise, so `21\x1c 25` is refused. */
  lemma SeparatorCharRefused()
    ensures ParseLine(['2', '1', 28 as char, ' ', '2', '5']) == Err(Malformed)
  {
    var first: string := ['2', '1', 28 as char];
    var line: string := ['2', '1', 28 as char, ' ', '2', '5'];
    assert line == first + [' '] + "25";
    SplitAround(first, "25", ' ');
    SplitNoSeparator("25", ' ');
    assert Split(line, ' ')[0] == first;
    assert ParseInt(first) == None by {
      assert LeadingSpace(IntSpaces, first) == 0 && TrailingSpace(IntSpaces, first) == 0;
      assert StripWith(IntSpaces, first) == first;
    }
    ParseLineMalformed(line);
  }

  /**
   * A line within the limit whose tokens are all integers is refused as out of
   * range exactly when some initial height lies outside `[0, 30]`.
   */
  lemma ParseLineOutOfRange(line: string)
    requires |Split(line, ' ')| <= MaxSections && ParseInts(Split(line, ' ')).Some?
    ensures var heights := ParseInts(Split(line, ' ')).value;
      ParseLine(line) == Err(SectionOutOfRange) <==>
        exists i :: 0 <= i < |heights| && !(0 <= heights[i] <= FullHeight)
  {
    var heights := ParseInts(Split(line, ' ')).value;
    ParseIntsMeaning(Split(line, ' '));
    var ds := Deficits(heights);
    assert |ds| > 0;
    assert ParseLine(line) == if Max(ds) > FullHeight || Min(ds) < 0 then Err(SectionOutOfRange) else Ok(ds);
    if Max(ds) > FullHeight || Min(ds) < 0 {
      var i :| 0 <= i < |ds| && (ds[i] == Max(ds) || ds[i] == Min(ds)) && !(0 <= ds[i] <= FullHeight);
      assert !(0 <= heights[i] <= FullHeight);
    } else {
      forall i | 0 <= i < |heights| ensures 0 <= heights[i] <= FullHeight {
        assert Min(ds) <= ds[i] <= Max(ds);
      }
    }
  }

  /** Token `i` converts to the height `x` whose deficit `30 - x` is `ds[i]`, for every token. */
  predicate TokensGive(tokens: seq<string>, ds: seq<int>) {
    |ds| == |tokens| && forall i :: 0 <= i < |tokens| ==> ParseInt(tokens[i]) == Some(30 - ds[i])
  }

  lemma TokensGiveDeficits(tokens: seq<string>, heights: seq<int>)
    requires |heights| == |tokens|
    requires forall i :: 0 <= i < |tokens| ==> ParseInt(tokens[i]) == Some(heights[i])
    ensures TokensGive(tokens, Deficits(heights))
  {
  }

  /**
   * An accepted line holds, in order, the deficit `30 - x` of every token `x`;
   * its initial heights and deficits all lie in `[0, 30]`.
   */
  lemma ParseLineAccepted(line: string)
    requires ParseLine(line).Ok?
    ensures var tokens, ds := Split(line, ' '), ParseLine(line).value;
      && 1 <= |ds| == |tokens| <= MaxSections
      && ParseInts(tokens).Some?
      && ds == Deficits(ParseInts(tokens).value)
      && InRange(ParseInts(tokens).value)
      && InRange(ds)
    ensures TokensGive(Split(line, ' '), ParseLine(line).value)
  {
    var tokens := Split(line, ' ');
    ParseIntsMeaning(tokens);
    var heights := ParseInts(tokens).value;
    var ds := Deficits(heights);
    assert ParseLine(line) == Ok(ds);
    assert |ds| == |heights| == |tokens| > 0;
    assert Max(ds) <= FullHeight && Min(ds) >= 0;
    forall i | 0 <= i < |ds| ensures 0 <= ds[i] <= FullHeight && 0 <= heights[i] <= FullHeight {
      assert Min(ds) <= ds[i] <= Max(ds);
    }
    TokensGiveDeficits(tokens, heights);
  }

  /** All lines in order; the first line that fails decides the error. */
  function ParseLines(lines: seq<string>): Result<seq<seq<int>>, UploadError> {
    if |lines| == 0 then Ok([])
    else
      match ParseLine(lines[0])
      case Err(e) => Err(e)
      case Ok(p) =>
        match ParseLines(lines[1..])
        case Err(e) => Err(e)
        case Ok(ps) => Ok([p] + ps)
  }

  /** Accepted lines give one profile per line, in input order: each line's own deficits. */
  lemma {:induction false} ParseLinesMeaning(lines: seq<string>)
    requires ParseLines(lines).Ok?
    ensures var ps := ParseLines(lines).value;
      |ps| == |lines| && forall k :: 0 <= k < |lines| ==> ParseLine(lines[k]) == Ok(ps[k])
  {
    if |lines| > 0 {
      var rest := lines[1..];
      ParseLinesMeaning(rest);
      assert forall k :: 0 <= k < |rest| ==> rest[k] == lines[k + 1];
    }
  }

  /** Refused lines are refused with the error of the first line that fails. */
  lemma {:induction false} ParseLinesRefused(lines: seq<string>)
    requires ParseLines(lines).Err?
    ensures exists k :: 0 <= k < |lines| && ParseLine(lines[k]) == Err(ParseLines(lines).error)
                        && forall j :: 0 <= j < k ==> ParseLine(lines[j]).Ok?
  {
    if ParseLine(lines[0]).Ok? {
      var rest := lines[1..];
      ParseLinesRefused(rest);
      var e := ParseLines(rest).error;
      var k :| 0 <= k < |rest| && ParseLine(rest[k]) == Err(e)
               && forall j :: 0 <= j < k ==> ParseLine(rest[j]).Ok?;
      forall j | 1 <= j < k + 1
        ensures ParseLine(lines[j]).Ok?
      {
        assert lines[j] == rest[j - 1];
      }
      assert ParseLine(lines[k + 1]) == Err(e);
    }
  }

  lemma {:induction false} ParseLinesFirstError(lines: seq<string>, i: nat)
    requires i < |lines|
    requires forall k :: 0 <= k < i ==> ParseLine(lines[k]).Ok?
    requires ParseLine(lines[i]).Err?
    ensures ParseLines(lines) == Err(ParseLine(lines[i]).error)
  {
    if i > 0 {
      var rest := lines[1..];
      assert forall k :: 0 <= k < i - 1 ==> rest[k] == lines[k + 1];
      ParseLinesFirstError(rest, i - 1);
    }
  }

  /** When every line is accepted, the profiles are the lines' deficits in input order. */
  lemma {:induction false} ParseLinesAccepted(lines: seq<string>, ps: seq<seq<int>>)
    requires |ps| == |lines|
    requires forall k :: 0 <= k < |lines| ==> ParseLine(lines[k]) == Ok(ps[k])
    ensures ParseLines(lines) == Ok(ps)
  {
    if |lines| > 0 {
      var rest := lines[1..];
      assert forall k :: 0 <= k < |rest| ==> rest[k] == lines[k + 1];
      ParseLinesAccepted(rest, ps[1..]);
      assert ps == [ps[0]] + ps[1..];
    }
  }

  /** The whole upload: strip the text, one profile per line. */
  function Parse(text: string): Result<seq<seq<int>>, UploadError> {
    ParseLines(Split(Strip(text), '\n'))
  }

  /**
   * An empty or all-whitespace upload is refused: its one line is empty, and
   * `int('')` raises.
   */
  lemma BlankUpload(text: string)
    requires AllSpace(text)
    ensures Parse(text) == Err(Malformed)
  {
    StripMeaning(text);
    assert Split(Strip(text), '\n') == [""];
    assert Split("", ' ') == [""];
    assert ParseInts([""]) == None by {
      assert [""][..0] == [];
      assert ParseInt("") == None;
    }
  }

  /**
   * An accepted upload has one profile per line of the stripped text, each
   * with 1 to 2000 sections whose deficits lie in `[0, 30]`.
   */
  lemma ParsedProfiles(text: string)
    requires Parse(text).Ok?
    ensures var lines, ps := Split(Strip(text), '\n'), Parse(text).value;
      |ps| == |lines| >= 1
      && forall k :: 0 <= k < |ps| ==> 1 <= |ps[k]| <= MaxSections && InRange(ps[k])
  {
    var lines, ps := Split(Strip(text), '\n'), Parse(text).value;
    ParseLinesMeaning(lines);
    forall k | 0 <= k < |ps|
      ensures 1 <= |ps[k]| <= MaxSections && InRange(ps[k])
    {
      assert ParseLine(lines[k]) == Ok(ps[k]);
      ParseLineAccepted(lines[k]);
    }
  }

  /** The upload line for some initial heights: the numbers, separated by single spaces. */
  function Render(heights: seq<int>): string
    requires |heights| >= 1
  {
    Join(seq(|heights|, i requires 0 <= i < |heights| => Show(heights[i])), ' ')
  }

  /** The upload text for a wall: one rendered line per profile, separated by newlines. */
  function RenderWall(wall: seq<seq<int>>): string
    requires |wall| >= 1 && forall i :: 0 <= i < |wall| ==> |wall[i]| >= 1
  {
    Join(seq(|wall|, i requires 0 <= i < |wall| => Render(wall[i])), '\n')
  }

  /** A rendered line has no newline and no whitespace at either end. */
  lemma RenderShape(heights: seq<int>)
    requires |heights| >= 1
    ensures var line := Render(heights);
      |line| > 0 && !IsSpace(line[0]) && !IsSpace(line[|line| - 1]) && '\n' !in line
  {
    var tokens := seq(|heights|, i requires 0 <= i < |heights| => Show(heights[i]));
    forall i | 0 <= i < |tokens|
      ensures '\n' !in tokens[i] && tokens[i] != []
    {
      ShowChars(heights[i]);
    }
    ShowChars(heights[0]);
    ShowChars(heights[|heights| - 1]);
    JoinFree(tokens, ' ', '\n');
    JoinEnds(tokens, ' ');
  }

  /**
   * A line rendered from at most 2000 heights parses back to their deficits
   * when every height lies in `[0, 30]`, and is refused as out of range otherwise.
   */
  lemma ParseRender(heights: seq<int>)
    requires 1 <= |heights| <= MaxSections
    ensures ParseLine(Render(heights))
         == if InRange(heights) then Ok(Deficits(heights)) else Err(SectionOutOfRange)
  {
    var tokens := seq(|heights|, i requires 0 <= i < |heights| => Show(heights[i]));
    forall i | 0 <= i < |tokens|
      ensures ' ' !in tokens[i] && ParseInt(tokens[i]) == Some(heights[i])
    {
      ShowChars(heights[i]);
      ParseShow(heights[i]);
    }
    SplitJoin(tokens, ' ');
    ParseIntsMeaning(tokens);
    assert ParseInts(tokens).value == heights;
    ParseLineOutOfRange(Render(heights));
  }

  /** The lines of a rendered wall are the rendered profiles. */
  lemma RenderWallLines(wall: seq<seq<int>>)
    requires |wall| >= 1 && forall i :: 0 <= i < |wall| ==> |wall[i]| >= 1
    ensures Split(Strip(RenderWall(wall)), '\n') == seq(|wall|, i requires 0 <= i < |wall| => Render(wall[i]))
  {
    var lines := seq(|wall|, i requires 0 <= i < |wall| => Render(wall[i]));
    var text := Join(lines, '\n');
    assert RenderWall(wall) == text;
    forall i | 0 <= i < |lines|
      ensures '\n' !in lines[i] && lines[i] != []
    {
      RenderShape(wall[i]);
    }
    TextUnpadded(lines, wall[0], wall[|wall| - 1]);
    SplitJoin(lines, '\n');
  }

  /** A join of rendered lines starts and ends with a digit or sign, so stripping keeps it whole. */
  lemma TextUnpadded(lines: seq<string>, first: seq<int>, last: seq<int>)
    requires |lines| >= 1 && |first| >= 1 && |last| >= 1
    requires forall i :: 0 <= i < |lines| ==> lines[i] != []
    requires lines[0] == Render(first) && lines[|lines| - 1] == Render(last)
    ensures Strip(Join(lines, '\n')) == Join(lines, '\n')
  {
    var text := Join(lines, '\n');
    RenderShape(first);
    RenderShape(last);
    JoinEnds(lines, '\n');
    assert !IsSpace(text[0]) && !IsSpace(text[|text| - 1]);
    StripUnpadded(StripSpaces, text);
  }

  /**
   * A wall of profiles with 1 to 2000 heights in `[0, 30]` each, rendered in
   * the upload format, is accepted and gives back every profile's deficits.
   */
  lemma ParseRenderWall(wall: seq<seq<int>>)
    requires |wall| >= 1
    requires forall i :: 0 <= i < |wall| ==> 1 <= |wall[i]| <= MaxSections && InRange(wall[i])
    ensures Parse(RenderWall(wall)) == Ok(seq(|wall|, i requires 0 <= i < |wall| => Deficits(wall[i])))
  {
    var lines := seq(|wall|, i requires 0 <= i < |wall| => Render(wall[i]));
    var ps := seq(|wall|, i requires 0 <= i < |wall| => Deficits(wall[i]));
    RenderWallLines(wall);
    forall i | 0 <= i < |lines|
      ensures ParseLine(lines[i]) == Ok(ps[i])
    {
      ParseRender(wall[i]);
    }
    ParseLinesAccepted(lines, ps);
  }

  /** The records of the profile numbered `profileNo` for days 1 to `days`. */
  function ProfileDays(profileNo: nat, profile: seq<int>, days: nat): (r: seq<Day>)
    ensures |r| == days
  {
    if days == 0 then [] else
      ProfileDays(profileNo, profile, days - 1)
      + [Day(days, profileNo, CurrentWork(profile, days), TotalWork(profile, days))]
  }

  /** The records the upload stores: profile by profile, numbered from 1, days 1 to 30 each. */
  function DayRecords(profiles: seq<seq<int>>): (r: seq<Day>)
    ensures |r| == SimulatedDays * |profiles|
  {
    if |profiles| == 0 then [] else
      DayRecords(profiles[..|profiles| - 1])
      + ProfileDays(|profiles|, profiles[|profiles| - 1], SimulatedDays)
  }

  lemma {:induction false} ProfileDaysAt(profileNo: nat, profile: seq<int>, days: nat, k: nat)
    requires k < days
    ensures ProfileDays(profileNo, profile, days)[k]
         == Day(k + 1, profileNo, CurrentWork(profile, k + 1), TotalWork(profile, k + 1))
  {
    if k < days - 1 {
      ProfileDaysAt(profileNo, profile, days - 1, k);
    }
  }

  /**
   * Record `i` of the upload belongs to profile `i / 30 + 1` (input order,
   * from 1) and day `i % 30 + 1`, and carries that day's work and the work
   * accumulated so far.
   */
  lemma {:induction false} DayRecordsAt(profiles: seq<seq<int>>, i: nat)
    requires i < SimulatedDays * |profiles|
    ensures var p, d := i / SimulatedDays, i % SimulatedDays + 1;
      DayRecords(profiles)[i]
        == Day(d, p + 1, CurrentWork(profiles[p], d), TotalWork(profiles[p], d))
  {
    var n := |profiles|;
    var init := profiles[..n - 1];
    if i < SimulatedDays * (n - 1) {
      DayRecordsAt(init, i);
      assert profiles[i / SimulatedDays] == init[i / SimulatedDays];
    } else {
      var k := i - SimulatedDays * (n - 1);
      assert i / SimulatedDays == n - 1 && i % SimulatedDays == k;
      ProfileDaysAt(n, profiles[n - 1], SimulatedDays, k);
    }
  }

  /**
   * On day 30 a profile's accumulated work is the sum of its deficits: every
   * foot the profile was missing has been built exactly once.
   */
  lemma DayThirtyTotal(profiles: seq<seq<int>>, p: nat)
    requires p < |profiles| && InRange(profiles[p])
    ensures var d := DayRecords(profiles)[SimulatedDays * p + SimulatedDays - 1];
      d.dayNo == 30 && d.profileNo == p + 1 && d.totalFeetDone == Sum(profiles[p])
  {
    var i := SimulatedDays * p + SimulatedDays - 1;
    DayRecordsAt(profiles, i);
    assert i / SimulatedDays == p && i % SimulatedDays == SimulatedDays - 1;
    TotalWorkAtFull(profiles[p]);
  }

  /**
   * Lines 8-15 of the upload: validate every line in order, storing each line's
   * deficits at its index; the first failing line ends the loop.
   */
  method Validate(lines: seq<string>) returns (r: Result<seq<seq<int>>, UploadError>)
    ensures r == ParseLines(lines)
  {
    var fhand := new seq<int>[|lines|];
    for i := 0 to |lines|
      invariant forall k :: 0 <= k < i ==> ParseLine(lines[k]) == Ok(fhand[k])
    {
      var elem := ParseLine(lines[i]);
      if elem.Err? {
        ParseLinesFirstError(lines, i);
        return Err(elem.error);
      }
      fhand[i] := elem.value;
    }
    r := Ok(fhand[..]);
    ParseLinesAccepted(lines, fhand[..]);
  }

  /**
   * Lines 17-32 of the upload: for every profile and every day 1 to 30, count
   * the sections still needing work and keep the running total.
   */
  method Simulate(profiles: seq<seq<int>>) returns (data: seq<Day>)
    ensures data == DayRecords(profiles)
  {
    data := [];
    for profNo := 1 to |profiles| + 1
      invariant data == DayRecords(profiles[..profNo - 1])
    {
      var profile := profiles[profNo - 1];
      var totalWork: nat := 0;
      for day := 1 to SimulatedDays + 1
        invariant totalWork == TotalWork(profile, day - 1)
        invariant data == DayRecords(profiles[..profNo - 1]) + ProfileDays(profNo, profile, day - 1)
      {
        var currentWork: nat := 0;
        for j := 0 to |profile|
          invariant currentWork == CurrentWork(profile[..j], day)
        {
          assert profile[..j + 1][..j] == profile[..j];
          if profile[j] >= day {
            currentWork := currentWork + 1;
          }
        }
        assert profile[..|profile|] == profile;
        totalWork := totalWork + currentWork;
        data := data + [Day(day, profNo, currentWork, totalWork)];
      }
      assert profiles[..profNo][..profNo - 1] == profiles[..profNo - 1];
    }
    assert profiles[..|profiles|] == profiles;
  }

  /** The `Day` table: its rows in insertion order. */
  class DayTable {
    var rows: seq<Day>

    constructor ()
      ensures rows == []
    {
      rows := [];
    }

    /** `Day.objects.all().delete()`. */
    method DeleteAll()
      modifies this
      ensures rows == []
    {
      rows := [];
    }

    /** `d.save()` for a record not yet in the table: it is added at the end. */
    method Save(d: Day)
      modifies this
      ensures rows == old(rows) + [d]
    {
      rows := rows + [d];
    }

    /** Lines 34-36 of the upload: delete every row, then save the new records in order. */
    method ReplaceAll(data: seq<Day>)
      modifies this
      ensures rows == data
    {
      DeleteAll();
      for k := 0 to |data|
        invariant rows == data[..k]
      {
        assert data[..k + 1] == data[..k] + [data[k]];
        Save(data[k]);
      }
      assert data[..|data|] == data;
    }
  }

  /** How an upload ends: the records were stored, or the upload raised. */
  datatype Outcome = Success | Failure(error: UploadError)

  /**
   * `handle_upload_data`: nothing is deleted or saved unless every line is
   * valid; then the table holds exactly the simulated records.
   */
  method HandleUploadData(text: string, table: DayTable) returns (outcome: Outcome)
    modifies table
    ensures Parse(text).Err? ==> outcome == Failure(Parse(text).error) && table.rows == old(table.rows)
    ensures Parse(text).Ok? ==> outcome == Success && table.rows == DayRecords(Parse(text).value)
  {
    var fhand := Split(Strip(text), '\n');
    var parsed := Validate(fhand);
    if parsed.Err? {
      return Failure(parsed.error);
    }
    var data := Simulate(parsed.value);
    table.ReplaceAll(data);
    outcome := Success;
  }
}
