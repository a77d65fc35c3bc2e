# The Wall: upload, simulation and cost queries

A Dafny model of the computing core of "The Wall", a small Django REST
service. A wall is built from profiles, and each profile is a line of
section heights in feet. Every section must reach 30 feet. One crew works
on each section that is not yet finished and raises it by one foot per day.
One foot of wall takes 195 cubic yards of ice, and one cubic yard costs 1900
gold.

The model covers three pieces of the repository:

- `handle_upload_data` (`thewall/upload.py`).
  - It strips the uploaded text and splits it into lines. Each line is split on single spaces.
  - Each token becomes a deficit `30 - int(x)`.
  - It refuses a line of more than 2000 tokens, and any deficit outside `[0, 30]`.
  - It then simulates 30 days of single-crew work per profile and replaces the `Day` table with one record per profile and day.
- `calculate_ice_amount` and `calculate_cost` (`thewall/services.py`).
  - The first is a 30-pass loop that raises every section below 30 feet by one, in place, and counts the raises day by day.
  - The second prices ice in gold.
- The query arithmetic of `IceProfileDay.get`, `CostProfileDay.get` and `CostProfile.get` (`thewall/views.py`), with the constants at lines 15-16.

Files, one module each:

- `wrappers.dfy` (`Wrappers`): Option and Result.
- `records.dfy` (`Records`): the `Day` record of `thewall/models.py` and the constants: height 30, 30 days, 2000 sections, 195 yards of ice per foot, 1900 gold per yard.
- `text.dfy` (`Text`): the Python string operations the upload relies on.
  - `str.strip` on ASCII whitespace.
  - `str.split` on one character, keeping empty pieces.
  - `int()` on an optional sign followed by ASCII digits. Around them it skips only space, tab, line feed, vertical tab, form feed and carriage return, not the separators `\x1c`–`\x1f` that `strip` also removes.
  - `str` of an integer, as the partner of `int()`.
- `progress.dfy` (`Progress`): the counting behind the simulation.
  - Feet built on day `d` = the number of sections with deficit `>= d`.
  - The running total of those counts.
  - An independent reference: the sum of each deficit clamped to `[0, d]`.
- `upload.dfy` (`Upload`): parsing as a `Result`, the validation loop, the nested simulation loops, and the `Day` table as a class.
  - Also `Render`, the upload format written out, as the partner of parsing.
- `services.dfy` (`Services`): the in-place height loop over an `array<int>`, list repetition, and the cost.
- `views.dfy` (`Views`): how the queries look rows up (filter, `get_object_or_404`, `Max` aggregates) and the three answers.
  - The overview loop is a method proved against a function.
- `wall.dfy` (`Wall`): what the queries answer on the table an upload leaves behind.
- `scenario.dfy` (`Scenario`): the sample wall and the answers `thewall/tests.py` expects for it after a single-thread upload.
  - The sample file (`sample_input.txt`) is not part of this model. Its three profiles are taken to be `21 25 28`, `17` and `17 22 17 19 17`: these match every single-thread value the tests expect.

What the code does, as modelled:

- Every profile is simulated for exactly 30 days (`range(1, 31)`), not up to its own largest deficit.
- Tokens are separated by single spaces, not by any whitespace, so two spaces in a row make an empty token.
- There is no separate error for an empty upload. An empty or blank text has one empty line, `int('')` raises, and the model reports `Malformed` (`Upload.BlankUpload`).

## Model

| member | source | states |
|---|---|---|
| Text.StripMeaning | thewall/upload.py:6 | the stripped text is empty exactly when the input is all ASCII whitespace; otherwise it neither starts nor ends with whitespace |
| Text.StripPadded | thewall/upload.py:6 | whitespace around a text that has no whitespace at its ends is removed, leaving exactly that text |
| Text.StripUnpadded | thewall/upload.py:6 | a text with no whitespace at either end is left unchanged by stripping, for `strip`'s whitespace and for `int()`'s |
| Text.IntSpaceOnly | thewall/upload.py:12 | `int()` skips a space and a line feed around `5`, but refuses `5\x1c`, which `strip` would reduce to `5` |
| Text.Split | thewall/upload.py:7 | a split has one more piece than the text has separators |
| Text.SplitPiecesFree | thewall/upload.py:9 | no piece of a split contains the separator |
| Text.JoinSplit | thewall/upload.py:7 | joining the pieces of a split with the separator gives the text back |
| Text.SplitJoin | thewall/upload.py:9 | splitting a join of separator-free pieces gives the pieces back |
| Text.SplitNoSeparator | thewall/upload.py:9 | a text without the separator splits into itself alone |
| Text.SplitAround | thewall/upload.py:9 | a separator after a separator-free prefix ends the first piece there |
| Text.ParseShow | thewall/upload.py:12 | `int(str(n)) == n` for every integer, negative ones included |
| Progress.CurrentWork | thewall/upload.py:21-24 | the feet built on a day never exceed the number of sections |
| Progress.CurrentWorkNonIncreasing | thewall/upload.py:21-24 | the feet built on a later day are at most those built on an earlier day |
| Progress.CurrentWorkAll | thewall/upload.py:22-24 | every section is worked on a day exactly when every deficit is at least that day |
| Progress.CurrentWorkNone | thewall/upload.py:22-24 | no section is worked on a day exactly when every deficit is below that day |
| Progress.TotalWorkNonDecreasing | thewall/upload.py:25 | the running total never decreases from day to day |
| Progress.TotalWorkBound | thewall/upload.py:25 | after `d` days at most `d` feet per section have been built |
| Progress.TotalWorkIsClampedSum | thewall/upload.py:20-25 | the running total after `d` days equals the sum over sections of the deficit clamped to `[0, d]` |
| Progress.ClampedSumFull | thewall/upload.py:20-25 | with deficits in `[0, 30]`, clamping to 30 days changes nothing, so the clamped sum is the sum of deficits |
| Progress.TotalWorkAtFull | thewall/upload.py:20-25 | with deficits in `[0, 30]`, the day-30 total is the sum of the deficits |
| Progress.TotalWorkSettles | thewall/upload.py:20-25 | from day 30 on, the total stays at the sum of the deficits |
| Upload.Max | thewall/upload.py:13 | `max` of a non-empty list is one of its entries and bounds all of them |
| Upload.Min | thewall/upload.py:13 | `min` of a non-empty list is one of its entries and is bounded by all of them |
| Upload.ParseIntsMeaning | thewall/upload.py:12 | converting the tokens succeeds exactly when every token is an integer, keeping their number and order |
| Upload.ParseLineTooMany | thewall/upload.py:10-11 | a line is refused as too long exactly when it has more than 2000 tokens |
| Upload.ParseLineMalformed | thewall/upload.py:12 | a line within the limit is refused as malformed exactly when some token is not an integer |
| Upload.SeparatorCharRefused | thewall/upload.py:12 | the line `21\x1c 25` is refused as malformed, because its first token has a separator character that `int()` does not skip |
| Upload.ParseLineOutOfRange | thewall/upload.py:13-14 | a line of integers within the limit is refused as out of range exactly when some height lies outside `[0, 30]` |
| Upload.ParseLineAccepted | thewall/upload.py:9-15 | an accepted line has 1 to 2000 tokens, and its profile is the deficits of its heights in order, all heights and deficits in `[0, 30]`; token `i` converts to the integer `30 - d` where `d` is deficit `i` |
| Upload.ParseLinesMeaning | thewall/upload.py:8-15 | accepted lines give one profile per line, in order, each that line's own result |
| Upload.ParseLinesRefused | thewall/upload.py:8-14 | refused lines are refused with the error of a line that fails, and every line before it is valid |
| Upload.ParseLinesFirstError | thewall/upload.py:8-14 | when the first failing line is line `i`, the upload is refused with line `i`'s error |
| Upload.ParseLinesAccepted | thewall/upload.py:8-15 | when every line gives its profile, the lines are accepted with exactly those profiles |
| Upload.BlankUpload | thewall/upload.py:6-12 | an empty or all-whitespace upload is refused as malformed |
| Upload.ParsedProfiles | thewall/upload.py:6-15 | an accepted upload has one profile per line of the stripped text; each has 1 to 2000 deficits in `[0, 30]` |
| Upload.ParseRender | thewall/upload.py:9-14 | a line written from 1 to 2000 heights parses back to their deficits when every height is in `[0, 30]`, and is refused as out of range otherwise |
| Upload.ParseRenderWall | thewall/upload.py:6-15 | a wall of valid profiles written in the upload format is accepted and gives back each profile's deficits |
| Upload.ProfileDays | thewall/upload.py:20-32 | a profile gets exactly one record per simulated day |
| Upload.DayRecords | thewall/upload.py:17-32 | the upload produces exactly 30 records per profile |
| Upload.ProfileDaysAt | thewall/upload.py:20-31 | the `k`-th record of a profile is for day `k + 1`, with the feet built that day and the running total |
| Upload.DayRecordsAt | thewall/upload.py:18-31 | record `i` is profile `i / 30 + 1` (input order, from 1) on day `i mod 30 + 1`, with that day's feet and the running total |
| Upload.DayThirtyTotal | thewall/upload.py:25 | each profile's day-30 record carries the sum of its deficits as its total |
| Upload.Validate | thewall/upload.py:8-15 | the validation loop returns exactly what parsing the lines gives: the first line's error, or all profiles |
| Upload.Simulate | thewall/upload.py:17-32 | the nested loops build exactly the records of `DayRecords` |
| Upload.DayTable.constructor | thewall/models.py:4-8 | a new table has no rows |
| Upload.DayTable.DeleteAll | thewall/upload.py:34 | deleting all rows leaves the table empty |
| Upload.DayTable.Save | thewall/upload.py:36 | saving a new record appends it to the rows |
| Upload.DayTable.ReplaceAll | thewall/upload.py:34-36 | after deleting everything and saving the records in order, the table holds exactly those records |
| Upload.HandleUploadData | thewall/upload.py:5-36 | a refused upload reports its error and leaves the table untouched; an accepted one replaces the table with exactly the simulated records |
| Services.RaisedClosedForm | thewall/services.py:10-12 | after `d` passes a height below 30 has risen by `d`, capped at 30; a height of 30 or more is unchanged |
| Services.RaisedCompletes | thewall/services.py:8-12 | after 30 passes every height that started in `[0, 30]` is exactly 30 |
| Services.RaisedBounds | thewall/services.py:11-12 | passes never lower a height and never raise one above 30 |
| Services.RaisedOnPass | thewall/services.py:11 | after `d` passes a section is still below 30 exactly when its deficit was at least `d + 1`, so pass `d + 1` raises it |
| Services.Daily | thewall/services.py:14 | the per-day list has one entry per pass (what each entry is, DailyIceShape, DailySum and BuildUp state) |
| Services.DailyIceShape | thewall/services.py:10-13 | each day's amount is between 0 and the number of sections, and never grows from day to day |
| Services.DailySum | thewall/services.py:8-14 | the per-day amounts sum to the total work of the upload's simulation |
| Services.DailyIceSum | thewall/services.py:14 | for heights in `[0, 30]` the 30 amounts sum to the total of `30 - h` |
| Services.RaiseOnce | thewall/services.py:9-13 | one pass raises every section below 30 by one, in place, and counts the sections with deficit at least the pass number |
| Services.BuildUp | thewall/services.py:7-14 | after 30 passes each section holds its 30-pass height and the result is the per-day list |
| Services.Repeat | thewall/services.py:15 | `s * n` has `n` times as many entries as `s` |
| Services.RepeatAt | thewall/services.py:15 | entry `j` of copy `q` of a repetition is entry `j` of the list |
| Services.CalculateIceAmount | thewall/services.py:5-15 | the result has 5850 entries; entry `i` is the feet raised on day `i mod 30 + 1` |
| Services.ScaledIceAmount | thewall/services.py:15 | the evidently intended result has one entry per day (its values are what ScaledIceTotal and Wall.IceIsScaledDaily state) |
| Services.ScaledIceTotal | thewall/services.py:15 | the intended list totals 195 cubic yards per missing foot |
| Services.RepetitionIsNotScaling | thewall/services.py:15 | for one section of height 29 the repeated list has 5850 entries and starts with 1; the scaled list has 30 entries and starts with 195 |
| Services.CalculateCost | thewall/services.py:18-19 | the gold is a multiple of 1900, and dividing by 1900 gives the ice back |
| Views.Matching | thewall/views.py:71 | the filter gives at most as many rows as the table has |
| Views.MatchingMeaning | thewall/views.py:71 | the filter keeps exactly the rows with that day and profile |
| Views.LookupMeaning | thewall/views.py:72 | no row for the pair gives not-found; more than one gives multiple-objects; otherwise the lookup returns the one matching row |
| Views.IceProfileDay | thewall/views.py:70-81 | answered exactly when one row matches: the day and 195 times that row's feet of the day; otherwise not-found or multiple-objects |
| Views.CostProfileDay | thewall/views.py:85-96 | answered exactly when one row matches: the day and 195 × 1900 times that row's running total; otherwise not-found or multiple-objects |
| Views.MaxProfileMeaning | thewall/views.py:102 | the largest profile number is None only on an empty table, and is otherwise a present profile number bounding all others |
| Views.MaxDayMeaning | thewall/views.py:105-108 | a profile's latest day is None exactly when it has no row, and is otherwise one of its days bounding all the others |
| Views.SumTotalsMeaning | thewall/views.py:103-113 | the loop over profiles 1 to `n` succeeds exactly when each profile's lookup does; otherwise it fails with the error of the first profile that fails |
| Views.SumTotalsStopsAtError | thewall/views.py:112 | once one profile fails, the overview's answer is that failure |
| Views.SumTotalsStep | thewall/views.py:104-113 | one loop step adds the running total of the profile's row on the queried day, or ends with that profile's lookup error |
| Views.OverviewNeedsEveryProfile | thewall/views.py:112 | if some profile up to the largest number has no row for the requested day, the overview gives no answer |
| Views.CostProfile | thewall/views.py:100-122 | the loop returns exactly the overview: no profiles, the first failing lookup, or the requested day (or none) with 195 × 1900 times the summed running totals |
| Wall.MatchingAppend | thewall/views.py:71 | filtering two tables one after the other filters each in turn |
| Wall.MatchingProfileDays | thewall/upload.py:20-32 | one profile's records hold exactly one row per simulated day and none for other profiles |
| Wall.MatchingDayRecords | thewall/upload.py:18-32 | after an upload each stored (profile, day) pair has exactly one row and every other pair none, never several |
| Wall.UploadedRowsBounds | thewall/upload.py:18-31 | every uploaded row is for a profile 1 to the number of profiles and a day from 1 to 30 |
| Wall.UploadedRowAt | thewall/upload.py:18-32 | every stored (profile, day) pair's record is in the table |
| Wall.MaxProfileIs | thewall/views.py:102 | a present profile number that bounds all others is the aggregate's answer |
| Wall.MaxDayIs | thewall/views.py:105-108 | a present day of the profile that bounds its other days is the aggregate's answer |
| Wall.UploadedIce | thewall/views.py:70-81 | after an upload, the ice of a stored pair is 195 times the feet built that day, and any other pair is not found |
| Wall.IceIsScaledDaily | thewall/views.py:77 | the ice the query reports for a day is that day's entry of the evidently intended `calculate_ice_amount` result for the same heights |
| Wall.UploadedCost | thewall/views.py:85-96 | after an upload, the cost of a stored pair is `calculate_cost` of 195 times the running total, and any other pair is not found |
| Wall.UploadedMaxProfile | thewall/views.py:102 | after an upload the largest profile number is the number of profiles, or None when there are none |
| Wall.UploadedMaxDay | thewall/views.py:105-108 | after an upload each profile's latest day is 30, and a profile that was not uploaded has none |
| Wall.WallTotalAtFull | thewall/upload.py:25 | by day 30 all profiles together have built every missing foot |
| Wall.UploadedProfileTotal | thewall/views.py:104-113 | after an upload, one profile's part of the overview is its running total on the requested day, or on day 30 when no day is given |
| Wall.UploadedSumTotals | thewall/views.py:103-113 | after an upload the loop adds the running totals of profiles 1 to `n` on the queried day |
| Wall.LateSumTotals | thewall/views.py:112 | a requested day after day 30 makes the overview loop fail with not-found |
| Wall.UploadedOverview | thewall/views.py:100-122 | after an upload the overview prices the feet built by the requested day, or by day 30 when no day (or day 0) is given, echoing the request. A later day is not found, and an empty table has no profiles |
| Wall.UploadThenTotalCost | thewall/views.py:100-122 | after an accepted upload, the overview with no day echoes None and costs 195 × 1900 per missing foot |
| Scenario.SampleParses | thewall/tests.py:72-81 | the sample upload is accepted with deficits `9 5 2`, `13` and `13 8 13 11 13` |
| Scenario.SampleIceDayOne | thewall/tests.py:107-113 | profile 1 on day 1: 585 cubic yards of ice |
| Scenario.SampleCostDayOne | thewall/tests.py:99-105 | profile 1 up to day 1: 1111500 gold |
| Scenario.SampleOverviewDayOne | thewall/tests.py:91-97 | all profiles up to day 1: 3334500 gold |
| Scenario.SampleOverviewTotal | thewall/tests.py:83-89 | the whole wall with no day: 32233500 gold (87 feet) |

## Left out

- Reading the uploaded file and decoding it as UTF-8 (`thewall/upload.py:6`): the model starts from the decoded text.
- Text.ParseInt: has no limit on the number of digits. Python's `int()` raises `ValueError` on a decimal string of more than 4300 digits, the default of `sys.int_max_str_digits` since Python 3.11 (and 3.10.7, 3.9.14, 3.8.14); the limit depends on the interpreter's version and settings. A token such as 4300 zeros followed by `5` is therefore an integer in the model while that interpreter refuses the upload; the same holds for `Upload.ParseLineMalformed` and `Upload.HandleUploadData`, and `Text.ParseShow` is the round trip for every integer, not only those of at most 4300 digits.
- Upload.ParseLineMalformed: "not an integer" means not an integer in the sense of `Text.ParseInt`, so tokens longer than 4300 digits count as integers here (see the line above).
- Python's full `int()`. Underscores between digits and non-ASCII digits are not modelled, and neither is non-ASCII (Unicode) whitespace in `strip` or `int`. Such tokens or text are modelled as `Malformed`, or are not stripped.
- The distinction between `ValidationError` and other exceptions in the upload view (`thewall/views.py:45-61`). `Malformed` stands for any exception `int()` raises. The response texts, HTTP status codes and logging are not modelled.
- Services.CalculateIceAmount: models the sections as a list of integers, as if `list(...)` were applied. Line 6 as written builds a `map` object, and `len` and indexing on it raise in Python 3. The `sections_string` argument is taken as already split into integers.
- Upload.Validate: writes the deficits into a fresh array instead of over the list of lines, because a Dafny array holds a single element type. The order and contents are those of the source.
- Upload.DayTable.Save: models saving a new record as appending. Database ids, and the storage range of `PositiveSmallIntegerField`, are not modelled. The limit is 32767; a 2000-section profile's running total can reach 60000.
- Views.IceProfileDay: does not model a failing `serializer.is_valid()` (the view would then return None). The same holds for CostProfileDay and CostProfile.
- The ORM itself: the table is a sequence of `Day` records, and filters, `get_object_or_404` and `Max` aggregates are functions over it.
- The bounded-worker, multi-threaded simulator that the tests exercise with `workers: 5`. No function with a worker count appears in the modelled files; `create` passes only the file.
- The welcome message, the `list` endpoints and `DayView`. They are constant strings or framework glue.
- URL routing, serializers and redirects (`thewall/urls.py`, `thewall/serializers.py`).

## Findings

| source | as written | input that shows it | evidently intended | confidence | as-written member | corrected member |
|---|---|---|---|---|---|---|
| thewall/services.py:15 | `return_amount * YARDS_ICE_PER_FOOT` repeats the 30-entry list of daily feet 195 times | one section of height 29: 5850 entries, the first being 1 | 30 entries, each day's feet times 195 cubic yards (the first being 195), totalling 195 per missing foot | not executed | Services.RepetitionIsNotScaling | Services.ScaledIceTotal |
