# Advent of Code 2023, days 1 to 16, in Dafny

This project models the puzzle solvers of a Rust Advent of Code 2023
repository, one Dafny module per day (`Day01` to `Day16`), and proves what
each solver computes. Each solver reads the puzzle input as text and
returns a number. The model follows the code's own shape:

- Pure iterator pipelines and matches become functions, with lemmas about them.
- Loops that update local state, buffers or boards become methods. Each
  method's `ensures` ties its result or new state to a specification
  function, and the lemmas beside it prove what that function means.
- Three entities whose fields the source updates in place become classes:
  - the day 10 `Gameboard`;
  - the day 15 boxes;
  - the day 16 `Board`.
- Integers are unbounded. The spots where the source's width shows are
  written out:
  - the `u32` and `u128` parse bounds;
  - the `u64::MAX` of day 5;
  - the 16-bit ids of day 8;
  - the `u32` cast of day 11.
- Where the source panics, the model returns `None` or an error outcome.
  The exception is a handful of callers' obligations, stated as
  preconditions.

Shared modules:

- `Wrappers` holds `Option`.
- `Text` models the standard string operations the solvers use:
  `lines`, `split`, `split_whitespace`, `replace` and `parse` for unsigned integers.
- `Sorting` is a stable insertion sort. It stands for `sort` and
  itertools' `sorted`.

Main results, by day:

1. Calibration values. The scans find the first and the last digit, spelled
   or not.
2. Cube games. Possible games are filtered by the caps 12, 13 and 14, and
   the per-colour maxima give the power.
3. Gear ratios. The scanner is proved to match the adjacency definition,
   up to the carried-over number listed under Findings.
4. Scratchcards. The matches are the multiset intersection, and the copy
   counts are propagated.
5. Seed almanac. The mappers are composed; part two covers the seed ranges.
6. Boat races. The winning hold times are counted, and they are symmetric.
7. Camel cards with jokers. Kinds depend only on the multiset of cards, the
   ordering is total, and the stable sort keeps equal hands in input order.
8. Network walk:
   - the walk by name;
   - the 15-bit packing of ids;
   - the bit test that stands for "all ids end in Z";
   - the lockstep walk.
9. Difference pyramid. Next and previous values are sums of last elements
   and alternating sums of first elements.
10. Pipe maze:
    - the tile algebra;
    - the loop walk;
    - the polygon trace;
    - the PNPOLY crossing test, proved to agree with an exact parity count on
      rectilinear polygons.
11. Cosmic expansion. The expanded distance is the original distance plus k
    per empty line crossed.
12. Hot springs:
    - the recursive counter, proved equal to a brute-force count for positive group lengths;
    - the unfolding;
    - the chunk-based counter, modelled as written and as corrected.
13. Mirrors. The split found is the least exact (or one-smudge) reflection.
14. Rock tilting:
    - the imperative passes, proved equal to a per-stretch tilt;
    - the load;
    - cycle detection.
15. Lens library:
    - the hash;
    - the boxes updated in place, keeping labels unique;
    - the focusing power.
16. Beam propagation:
    - the recursive `take_step` over a board of energized flags and taken
      directions, proved to energize exactly the cells that beams from the
      start reach;
    - the edge-start maximum.

## Model

| member | source | states |
|---|---|---|
| Day01.Numerics | day1/src/main.rs:5 | the characters kept by the numeric filter are all ASCII digits and no more than the line |
| Day01.NumericsEnds | day1/src/main.rs:5-6 | on a line with a digit, the first and last kept characters are the line's first and last digits |
| Day01.NumericsFirst | day1/src/main.rs:6 | the first kept character is the line's first digit |
| Day01.NumericsLast | day1/src/main.rs:6 | the last kept character is the digit at the line's last digit position |
| Day01.NoNumerics | day1/src/main.rs:5-6 | a line whose filter keeps nothing holds no digit (where the source's `unwrap` panics) |
| Day01.LineValueOne | day1/src/main.rs:4-9 | the two-character number formed from the first and last digit is below 100 |
| Day01.LineValueOneDigits | day1/src/main.rs:4-9 | a line's part-one value is ten times its first digit plus its last digit |
| Day01.TwoDigits | day1/src/main.rs:55 | the two digit characters written side by side read as ten times the first digit plus the second |
| Day01.PartOne | day1/src/main.rs:1-11 | the sum of the line values is at most 99 per line |
| Day01.ReplacementsSpellDigits | day1/src/main.rs:13-23 | the table has nine words and word `r` stands for the digit `r + 1` |
| Day01.WordPrefix | day1/src/main.rs:35-39 | a digit is found exactly when some word of the table (from position `r` on) starts the text, and it is a digit |
| Day01.WordSuffix | day1/src/main.rs:48-52 | a digit is found exactly when some word of the table (from position `r` on) ends the text, and it is a digit |
| Day01.DigitStartingAt | day1/src/main.rs:31-39 | what the forward scan reads at one index is a digit character when it finds one |
| Day01.DigitEndingAt | day1/src/main.rs:44-52 | what the backward scan reads at one index is a digit character when it finds one |
| Day01.EndsSomewhere | day1/src/main.rs:42-54 | if the forward scan finds a digit, so does the backward scan (its loop ends) |
| Day01.MatchPrefix | day1/src/main.rs:35-39 | the loop over the table finds the same digit as the first matching word |
| Day01.MatchSuffix | day1/src/main.rs:48-52 | the loop over the table finds the same digit as the first matching word |
| Day01.FirstExists | day1/src/main.rs:30-41 | a line where the scan finds something has a first index where it does |
| Day01.LastExists | day1/src/main.rs:43-54 | a line where the backward scan finds something has a last index where it does |
| Day01.FirstUnique | day1/src/main.rs:30-41 | that first index is unique |
| Day01.LastUnique | day1/src/main.rs:43-54 | that last index is unique |
| Day01.CalibrationTwo | day1/src/main.rs:28-56 | the part-two value of a line is a two-digit number below 100 |
| Day01.CalibrationTwoAt | day1/src/main.rs:28-56 | the part-two value is ten times the digit at the first hit plus the digit at the last hit |
| Day01.ScanForward | day1/src/main.rs:29-41 | the forward loop stops at the first index where a digit or a digit word starts, returning that digit |
| Day01.ReadStartingAt | day1/src/main.rs:31-39 | one turn of the forward loop reads exactly the specified digit at the index |
| Day01.ScanBackward | day1/src/main.rs:42-54 | the backward loop stops at the last index where a digit or a digit word ends, returning that digit |
| Day01.NoneBelow | day1/src/main.rs:42-54 | from the last hit on, no later index holds a hit |
| Day01.ReadEndingAt | day1/src/main.rs:44-52 | one turn of the backward loop reads exactly the specified digit at the index |
| Day01.LineValueTwo | day1/src/main.rs:28-56 | the two scans together compute the specified part-two value of the line |
| Day01.SumTwo | day1/src/main.rs:25-58 | the part-two sum is at most 99 per line |
| Day01.PartTwo | day1/src/main.rs:25-58 | the summing loop computes the specified part-two sum |
| Day01.WordsAreLetters | day1/src/main.rs:13-23 | every word of the table has at least three letters and begins and ends with a lower-case letter |
| Day01.NoWordsAgree | day1/src/main.rs:1-58 | on a line with a digit and no lower-case letter, part two gives the same value as part one |
| Day01.NoWordAt | day1/src/main.rs:31-52 | at an index not holding a lower-case letter, each scan finds something exactly when the character is a digit, and then that digit |
| Day01.NoWordHere | day1/src/main.rs:36-49 | no word of the table starts or ends at a character that is not a lower-case letter |
| Day02.ColorName | day2/src/main.rs:11-18 | each colour's name is a non-empty word free of spaces and of the separators `,`, `;` and `:` |
| Day02.ParseColor | day2/src/main.rs:11-18 | a colour is read exactly from "red", "green" or "blue" (every other word panics, here `None`), and it is the colour of that name |
| Day02.ParseColorName | day2/src/main.rs:11-18 | reading a colour's name gives the colour back |
| Day02.ParseEntries | day2/src/main.rs:29-37 | the comma-separated entries of a handful parse exactly when each piece parses, one entry per piece |
| Day02.ParseSets | day2/src/main.rs:54-59 | the handfuls parse to one handful per `;`-separated piece |
| Day02.FormatEntries | day2/src/main.rs:29-37 | writing the entries gives one text per entry |
| Day02.FormatSets | day2/src/main.rs:54-59 | writing the handfuls gives one text per handful |
| Day02.ParseFormatEntry | day2/src/main.rs:31-36 | reading back a written entry "count colour" gives the entry |
| Day02.ParseFormatEntries | day2/src/main.rs:29-37 | reading back written entries gives the entries |
| Day02.ParseFormatSet | day2/src/main.rs:27-39 | reading back a written handful gives the handful |
| Day02.ParseSetsOf | day2/src/main.rs:54-59 | handfuls whose pieces each read back parse to those handfuls |
| Day02.ParseFormatSets | day2/src/main.rs:54-59 | reading back written handfuls gives the handfuls |
| Day02.ParseFormatGame | day2/src/main.rs:49-61 | reading back the line "Game id: handfuls" of a game with 32-bit numbers and non-empty handfuls gives the game |
| Day02.GameSplits | day2/src/main.rs:50-57 | after "Game ", a written game splits at ':' into the id's digits and the handfuls' text |
| Day02.SetsSplit | day2/src/main.rs:57 | splitting the written handfuls at ';' gives each handful's text back |
| Day02.ExceedsIffOverCap | day2/src/main.rs:64-83 | the scan of the cap table flags an entry exactly when its amount is above 12 red, 13 green or 14 blue for its colour |
| Day02.PartOne | day2/src/main.rs:70-88 | the sum of the ids of the possible games is at most the sum of all ids, and equal to it when every game is possible |
| Day02.MaxInSetIsMax | day2/src/main.rs:105-109 | the largest amount of a colour in a handful bounds each of its entries and is one of them, or 0 |
| Day02.MaxOfIsMax | day2/src/main.rs:95-112 | the fewest cubes of a colour a game needs bound every amount of that colour and are one of them, or 0 |
| Day02.PossibleIffWithinCaps | day2/src/main.rs:74-85 | a game is possible exactly when the fewest cubes it needs of each colour are within that colour's cap |
| Day02.PossibleWithinCap | day2/src/main.rs:74-85 | a possible game needs no more of any colour than its cap |
| Day02.ImpossibleOverCap | day2/src/main.rs:74-85 | an impossible game needs more than the cap of some colour |
| Day02.RaiseBySet | day2/src/main.rs:103-111 | the fold's step over one handful leaves each colour at the larger of its old value and the handful's largest amount of it |
| Day02.RaiseByEntry | day2/src/main.rs:105-109 | one entry raises its colour's value to its amount when that is larger and leaves the other colours alone |
| Day02.MinimumSet | day2/src/main.rs:95-112 | the fold from 0 maps each colour exactly to the fewest cubes of it the game needs |
| Day02.PowerZero | day2/src/main.rs:114 | a game's power is 0 exactly when it needs no cube of some colour |
| Day02.MaxOfZero | day2/src/main.rs:95-112 | the fewest cubes of a colour is 0 exactly when every amount shown for it is 0 |
| Day02.GamePower | day2/src/main.rs:94-114 | the product of the fold's three values is the game's power |
| Day02.PartTwo | day2/src/main.rs:90-116 | the summing loop computes the sum of the games' powers |
| Day03.MaskIsDigitValue | day3/src/main.rs:8-17 | masking an ASCII digit's code with 0x0F gives the digit's value |
| Day03.Classify | day3/src/main.rs:15-22 | a character becomes a digit cell (with its value) exactly when it is a digit, a dot cell exactly when it is '.', a symbol otherwise |
| Day03.ClassifyLine | day3/src/main.rs:14-24 | a line becomes a row of the same length, cell by cell |
| Day03.ParseInputPart1 | day3/src/main.rs:10-27 | the grid has one row per line, each cell classified from its character |
| Day03.AnyNearIff | day3/src/main.rs:42-45 | a symbol is above or below one column of a range exactly when some column in the range has one above or below |
| Day03.Start | day3/src/main.rs:34-68 | the start found for a digit is the first column of its run: every column from there on to it is a digit and the column before is not |
| Day03.RunEnd | day3/src/main.rs:34-85 | the end found for a digit is the last column of its run |
| Day03.RunEndSame | day3/src/main.rs:34-85 | every column of a run has the same end |
| Day03.PartIsAdjacent | day3/src/main.rs:42-79 | the cells the scan looks at for a run hold a symbol exactly when the 3-row box around the run holds one |
| Day03.StepKeepsRowInv | day3/src/main.rs:36-86 | one cell of the scan keeps the row invariant: the number being read, whether a symbol was seen next to it, and the total plus what is left equal to the part numbers of the row |
| Day03.RowScanInv | day3/src/main.rs:35-87 | the invariant holds after any number of cells of a row that starts with no number pending |
| Day03.RowSettles | day3/src/main.rs:35-87 | settling the pending number at the end of a row adds exactly the row's part numbers |
| Day03.SettledCountsParts | day3/src/main.rs:34-88 | the scan with each row settled at its end counts every part number once |
| Day03.CarriedIsSettled | day3/src/main.rs:34-88 | when no number reaches the right edge, the scan as written equals the settled scan |
| Day03.SettledAnswer | day3/src/main.rs:29-90 | the corrected answer of part one is the sum of the numbers touching a symbol |
| Day03.PartOneCountsParts | day3/src/main.rs:29-90 | when no number reaches a row's end, the source's answer is the sum of the numbers touching a symbol |
| Day03.CarriedAcrossRows | day3/src/main.rs:34-88 | on ".1" over "2*" the source reads 1 and 2 as the one number 12, where the part numbers sum to 3 |
| Day03.ScanCell | day3/src/main.rs:36-86 | the loop body on cell (i, j) makes the specified scan step |
| Day03.PartOne | day3/src/main.rs:29-90 | the loop computes the scan as written, and on a grid where no number reaches a row's end, the sum of the part numbers |
| Day03.ScanGrid | day3/src/main.rs:31-89 | the two nested loops over rows and cells end with the total that the row-by-row scan of the schematic gives |
| Day03.ClassifyGear | day3/src/main.rs:155-163 | a character becomes a digit (with its value) exactly when it is a digit, a star exactly when it is '*', anything else otherwise |
| Day03.ClassifyGearLine | day3/src/main.rs:154-164 | a line becomes a row of the same length, cell by cell |
| Day03.ParseInputPart2 | day3/src/main.rs:150-167 | the grid has one row per line, each cell classified from its character |
| Day03.RowStart | day3/src/main.rs:170-173 | the first column of the run through a digit: a run start, and every column from it to the digit is a digit |
| Day03.RowEnd | day3/src/main.rs:174-177 | the last column of the run through a digit |
| Day03.RowEndSame | day3/src/main.rs:174-177 | every column of a run has the same last column |
| Day03.RowStartSame | day3/src/main.rs:170-173 | every column of a run has the same first column |
| Day03.FindCompleteNumber | day3/src/main.rs:169-185 | the two loops find the first and last column of the digit's run, and the fold reads its decimal value |
| Day03.StartsIn | day3/src/main.rs:197-206 | the run starts listed for a range of columns lie in it and are run starts |
| Day03.StartsInIff | day3/src/main.rs:197-206 | a column is listed exactly when it is a run start inside the range |
| Day03.StartsInIncreasing | day3/src/main.rs:197-206 | the run starts are listed left to right, each once |
| Day03.TouchingIff | day3/src/main.rs:196-206 | the runs listed for a window are exactly those that meet it |
| Day03.TouchingIncreasing | day3/src/main.rs:196-206 | and each is listed once, left to right |
| Day03.StartsInSplit | day3/src/main.rs:199-206 | the run starts of two adjacent ranges are those of their union |
| Day03.NoStartsInRun | day3/src/main.rs:199-206 | no run starts inside a run |
| Day03.RunPastWindow | day3/src/main.rs:199-206 | a run that reaches past the window is the last one met |
| Day03.RunInWindow | day3/src/main.rs:199-206 | after a run that ends inside the window the scan goes on from the column past it |
| Day03.SkipNonStart | day3/src/main.rs:199-206 | a column that is not a run start adds nothing |
| Day03.TouchingGap | day3/src/main.rs:199-206 | from a non-digit the runs met are the run starts after it |
| Day03.GapInWindow | day3/src/main.rs:199-206 | a non-digit column adds no run and the scan moves one column on |
| Day03.JumpIsTouching | day3/src/main.rs:198-206 | jumping past each number as the loop does meets exactly the runs touching the window, each once |
| Day03.JumpRunCase | day3/src/main.rs:200-204 | the jump at a digit agrees with the runs touching the window |
| Day03.JumpAtRun | day3/src/main.rs:200-205 | at a digit the jump takes its run and goes on past its end |
| Day03.JumpGapCase | day3/src/main.rs:205 | the jump at a non-digit agrees with the runs touching the window |
| Day03.PotentialGear.constructor | day3/src/main.rs:120-126 | a new potential gear has been offered nothing |
| Day03.PotentialGear.Ratio | day3/src/main.rs:128-134 | the ratio is the product of the two numbers offered when exactly two were, else 0 |
| Day03.PotentialGear.AddAdjacentNumber | day3/src/main.rs:136-147 | the fields keep the first two numbers offered and whether at most two were offered |
| Day03.AddRowNumbers | day3/src/main.rs:198-206 | the while loop offers the gear exactly the numbers of the row touching columns [lo, hi], left to right |
| Day03.ScanStep | day3/src/main.rs:200-205 | one turn moves right and keeps what was offered plus what is left to offer |
| Day03.OfferRun | day3/src/main.rs:200-203 | a digit offers the whole number of its run and the scan resumes at the run's last column |
| Day03.JumpOverRun | day3/src/main.rs:200-205 | the numbers the loop offers from a digit are its run's number and those after the run |
| Day03.GearAt | day3/src/main.rs:194-208 | the gear ratio of a '*' is the product of the two numbers touching its 3-by-3 box, or 0 when there are not exactly two |
| Day03.PartTwo | day3/src/main.rs:187-216 | the loops sum the gear ratios of every '*' of the grid |
| Day04.NatLeTotal | day4/src/main.rs:36-37 | the order the numbers are sorted by is a total preorder |
| Day04.IntersectionBound | day4/src/main.rs:29-58 | the common numbers of two lists are no more than either list |
| Day04.IntersectCons | day4/src/main.rs:44-48 | equal heads make one common number, and the rest is the common numbers of the tails |
| Day04.IntersectAbsent | day4/src/main.rs:49-54 | a head missing from the other list adds nothing in common |
| Day04.BelowHead | day4/src/main.rs:49-54 | a value below the head of a sorted suffix does not occur in it |
| Day04.MergeStep | day4/src/main.rs:43-55 | each comparison of the merge keeps what is still in common: equal heads count one and advance both, otherwise the smaller head is skipped |
| Day04.NumberOfWins | day4/src/main.rs:29-58 | the merge of the sorted copies counts the size of the multiset intersection of the two lists, at most either length, and leaves the card unchanged |
| Day04.PointsDouble | day4/src/main.rs:67 | each match after the first doubles a card's points |
| Day04.PartOne | day4/src/main.rs:61-69 | the total of 2^(n-1) over cards with n > 0 matches is 0 exactly when no card matches |
| Day04.NoPoints | day4/src/main.rs:66-68 | the sum of the points is 0 exactly when every card has no match |
| Day04.Copies | day4/src/main.rs:74-84 | every card ends with at least its original instance |
| Day04.MatchesOf | day4/src/main.rs:80 | the matches of every card in order |
| Day04.TotalCopies | day4/src/main.rs:78-85 | the total of the instances of the first n cards is at least n |
| Day04.PartTwo | day4/src/main.rs:71-88 | the while loop sums each card's final instance count, the original plus one per instance of each earlier card whose matches reach it; the total is at least the number of cards |
| Day04.AddCopies | day4/src/main.rs:81-83 | the inner loop adds card idx's count to the next `wins` cards, clipped at the last card; every later card then counts the instances won from the cards up to idx, and the cards up to idx are unchanged |
| Day04.WonStep | day4/src/main.rs:81-83 | card idx adds its instances to card k exactly when k is within its matches |
| Day05.MappingFromFields | day5/src/main.rs:11-17 | the three numbers of a mapping line are read as destination start, source start and length, in that order |
| Day05.MapIfInRange | day5/src/main.rs:20-26 | a value is mapped exactly when it lies in the source interval, and then lands in the destination interval |
| Day05.Unmap | day5/src/main.rs:20-26 | the inverse shift is defined exactly on the destination interval |
| Day05.MapUnmap | day5/src/main.rs:20-26 | a mapping is a bijection from its source interval onto its destination interval |
| Day05.MapInjective | day5/src/main.rs:20-26 | two values a mapping maps to the same value are equal |
| Day05.MapValue | day5/src/main.rs:40-45 | a mapper applies the first mapping in list order whose source interval holds the value, and is the identity when none does |
| Day05.ComposeAppend | day5/src/main.rs:59-65 | applying two chains of mappers in turn is applying the joined chain |
| Day05.MapSeedToLocation | day5/src/main.rs:59-65 | the loop over the mappers computes their left-to-right composition (the identity for none) |
| Day05.MinLocation | day5/src/main.rs:84 | the fold keeps a value no greater than its start and every seed's location, and equal to the start or to one of them |
| Day05.PartOne | day5/src/main.rs:68-85 | the result is the lowest location of the listed seeds, or `u64::MAX` when there are none |
| Day05.Pairs | day5/src/main.rs:96-98 | the seed line read two numbers at a time, in order |
| Day05.Range | day5/src/main.rs:105 | the half-open range from a of b values, in order |
| Day05.Expand | day5/src/main.rs:105 | a seed is expanded exactly when it lies in some range [a, a + b) |
| Day05.PartTwo | day5/src/main.rs:87-108 | the result is the lowest location of the seeds in the ranges, or `u64::MAX` |
| Day05.EmptyRange | day5/src/main.rs:105 | a range of length 0 contributes no seed |
| Day06.CountBelow | day6/src/main.rs:21-23 | counting the winning hold times below n gives at most n |
| Day06.CountIsCardinality | day6/src/main.rs:21-23 | the count below n is the number of winning hold times t < n |
| Day06.WaysToWinIsCardinality | day6/src/main.rs:21-23 | a race's count is the number of hold times t in [0, T) with (T - t) * t > D |
| Day06.Symmetric | day6/src/main.rs:22 | for 0 < t < T, holding t wins exactly when holding T - t does |
| Day06.NeverAtZero | day6/src/main.rs:21-22 | holding for zero time never wins, so at most n - 1 of the first n hold times win |
| Day06.MonotoneInRecord | day6/src/main.rs:22 | a higher record never admits more winning hold times |
| Day06.ZipProduct | day6/src/main.rs:18-25 | the product over the zipped races is 0 exactly when some paired race cannot be won |
| Day06.ZipStep | day6/src/main.rs:18-25 | some paired race cannot be won exactly when the first cannot or some later pair cannot |
| Day06.PartOne | day6/src/main.rs:1-26 | the product of the counts of the races paired by `zip` (extra entries dropped) is 0 exactly when some paired race cannot be won |
| Day06.ReadKerned | day6/src/main.rs:30-45 | a line reads, with its spaces removed, exactly as a `u128` parse does: one optional `+`, then digits whose value is below 2^128, and that value |
| Day06.PartTwo | day6/src/main.rs:28-50 | `part_two` panics exactly when a line does not read; otherwise the result is the number of winning hold times of the time and record read, at most the time |
| Day06.KernedConcat | day6/src/main.rs:35-43 | removing the space between two numbers reads their digits as one number |
| Day06.SignedKerned | day6/src/main.rs:35-36 | a `+` before the first number reads the same as the line without it |
| Day07.Rank | day7/src/part_two.rs:4-18 | every card's rank lies in 1..14 and is never 11, and only the joker ranks 1 |
| Day07.RankInjective | day7/src/part_two.rs:4-18 | no two cards share a rank, so comparing ranks orders the cards strictly |
| Day07.CardOf | day7/src/part_two.rs:21-38 | a character reads as a card exactly when it is one of `AKQJT98765432`, and every other character is the panic |
| Day07.CardOfChar | day7/src/part_two.rs:21-38 | every card's character reads back as that card and is not whitespace |
| Day07.KindRank | day7/src/part_two.rs:42-50 | the kinds rank 1 (high card) to 7 (five of a kind) |
| Day07.Occurrences | day7/src/part_two.rs:54-64 | a card occurs at most as often as the hand is long |
| Day07.OccurrencesMultiset | day7/src/part_two.rs:54-64 | the occurrence count of a card is its multiplicity in the hand |
| Day07.NonJokersComplete | day7/src/part_two.rs:56 | the filtered cards are exactly those other than the joker |
| Day07.NonJokersDistinct | day7/src/part_two.rs:56-58 | each non-joker card is counted once |
| Day07.RankFalls | day7/src/part_two.rs:4-18 | along a run of strictly falling ranks every later card ranks lower |
| Day07.DescTotal | day7/src/part_two.rs:59-60 | sorting from largest is a total preorder on counts |
| Day07.Tally | day7/src/part_two.rs:54-69 | the counts branched on are never empty, `[0]` standing in for a hand of jokers |
| Day07.JokersAdded | day7/src/part_two.rs:66-69 | after the push of 0 on an empty list, the first count exists to receive the jokers |
| Day07.MaxSeqIs | day7/src/part_two.rs:59-60 | the largest entry bounds every entry and, for a non-empty list, is one of them |
| Day07.MaxOverCounts | day7/src/part_two.rs:54-62 | the largest of the non-zero counts is the largest occurrence count of any listed card |
| Day07.SortedHead | day7/src/part_two.rs:59-62 | the head of a list sorted from largest is the maximum of any permutation of it |
| Day07.TallyTop | day7/src/part_two.rs:54-69 | the first count branched on is the largest count of a non-joker card plus the number of jokers |
| Day07.TallyRest | day7/src/part_two.rs:66-69 | the counts after the first are the sorted non-joker counts after the first, untouched by the jokers |
| Day07.AllJokers | day7/src/part_two.rs:64-72 | a hand of jokers only tallies to its length, and five jokers are five of a kind |
| Day07.JokerCount | day7/src/part_two.rs:64 | in a hand of jokers the joker count is the length and every other card occurs zero times |
| Day07.NoCounts | day7/src/part_two.rs:54-62 | cards that do not occur contribute no counts |
| Day07.SumSnoc | day7/src/part_two.rs:54-69 | the sum of counts grows by the appended count |
| Day07.SumInsert | day7/src/part_two.rs:59 | inserting into a sorted list adds the inserted count to the sum |
| Day07.SumSort | day7/src/part_two.rs:59-60 | sorting keeps the sum of counts |
| Day07.AmongSnoc | day7/src/part_two.rs:54-62 | adding a new card to the counted set adds its occurrences |
| Day07.SumCounts | day7/src/part_two.rs:54-62 | over distinct cards the counts add up to the number of the hand's cards among them |
| Day07.AmongNone | day7/src/part_two.rs:54-62 | no card of the hand is among the empty set |
| Day07.JokersAndOthers | day7/src/part_two.rs:56-64 | the non-joker cards and the jokers together are the whole hand |
| Day07.TallySum | day7/src/part_two.rs:54-64 | the sorted non-joker counts and the jokers add up to the hand's length |
| Day07.TallyShape | day7/src/part_two.rs:66-79 | a tally with a single count holds the whole hand |
| Day07.FiveCardsHaveKind | day7/src/part_two.rs:71-85 | for a hand of five cards `counts[1]` exists whenever it is read, so every such hand gets a kind |
| Day07.KindIgnoresOrder | day7/src/part_two.rs:53-86 | the kind depends only on the multiset of cards, not on their order |
| Day07.SameTally | day7/src/part_two.rs:54-69 | hands with the same non-joker counts and the same jokers get the same tally |
| Day07.SameOccurrences | day7/src/part_two.rs:54-64 | hands that are permutations of one another have the same occurrence counts |
| Day07.SameCounts | day7/src/part_two.rs:54-62 | hands with equal occurrence counts have equal count lists |
| Day07.ParseCards | day7/src/part_two.rs:99-104 | a word that reads as cards gives one card per character |
| Day07.CardsString | day7/src/part_two.rs:99-104 | writing cards gives one character per card, each that card's character |
| Day07.ParseCardsString | day7/src/part_two.rs:99-104 | reading written cards gives back the same cards |
| Day07.ParseCardsStringSnoc | day7/src/part_two.rs:99-104 | the round trip extends by one card |
| Day07.ParseCardsSnoc | day7/src/part_two.rs:99-104 | reading a word whose front and last character read as cards gives the front's cards and the last card |
| Day07.ParseFormatHand | day7/src/part_two.rs:97-110 | a line of five cards and a bid below 2^32 reads back as that hand, with its bid and the kind `from_hand` gives it |
| Day07.PartialCmp | day7/src/part_two.rs:114-126 | the loop returns the kind comparison when the kinds differ, otherwise the first differing card decides; `None` where the other hand runs out |
| Day07.CompareFirstDifference | day7/src/part_two.rs:119-124 | the first position at which two card lists differ decides their order by rank |
| Day07.CompareCardsEqual | day7/src/part_two.rs:119-125 | card lists of one length always compare, and compare Equal exactly when they are the same |
| Day07.CompareCardsFlip | day7/src/part_two.rs:119-125 | swapping card lists of one length flips the order |
| Day07.CompareCardsTrans | day7/src/part_two.rs:119-125 | not-greater is transitive on card lists of one length |
| Day07.CompareEqual | day7/src/part_two.rs:114-126 | hands of five cards always compare, and compare Equal exactly when their kinds and cards agree |
| Day07.CompareFlip | day7/src/part_two.rs:114-126 | swapping two hands of five cards flips the order |
| Day07.AtMostTotal | day7/src/part_two.rs:129-133 | on hands of five cards the ordering that `sorted` uses is a total preorder |
| Day07.Ranked | day7/src/part_two.rs:139 | the ranked hands are a permutation of the input, sorted from weakest to strongest, with hands of equal strength in input order |
| Day07.HandsOf | day7/src/part_two.rs:137-138 | one hand per line, each the one its line parses to |
| Day07.SumPrizes | day7/src/part_two.rs:140-142 | the loop sums rank (from 1) times bid over the ranked hands |
| Day07.PartTwo | day7/src/part_two.rs:135-143 | the answer is the winnings of the permutation of the parsed hands sorted by the hand order |
| Day08.ParseNodeLine | day8/src/main.rs:15-17 | the three fixed slices of a node line are three-character ASCII names |
| Day08.ParseFormatNodeLine | day8/src/main.rs:15-17 | a line written as `AAA = (BBB, CCC)` is a node line, and its slices give back the three names |
| Day08.GraphOf | day8/src/main.rs:13-19 | every key and successor in the map is a three-character ASCII name |
| Day08.GraphOfHas | day8/src/main.rs:14-19 | a name is in the map exactly when some node line has it as its source |
| Day08.GraphOfLast | day8/src/main.rs:18 | a name maps to the node of the last line that defines it; no later line defines it |
| Day08.BuildGraph | day8/src/main.rs:13-19 | the `for_each` builds the map of the node lines, later lines replacing earlier ones |
| Day08.Step | day8/src/main.rs:27-32 | a step is defined only from a node in the map with a non-empty instruction line, and goes to its left or its right successor |
| Day08.WalkToZZZ | day8/src/main.rs:21-35 | when the walk reaches ZZZ, the step count is the least one at which the walk stands on ZZZ; on a panic every earlier position exists and is not ZZZ, and the next step is undefined; when out of fuel, ZZZ was not reached within the fuel |
| Day08.PartOne | day8/src/main.rs:8-36 | the same three outcomes for the map of the lines after the second and the instructions of the first line |
| Day08.Mask5 | day8/src/main.rs:52 | masking a byte with 0b11111 leaves at most 31 |
| Day08.PackedValue | day8/src/main.rs:49-55 | a packed id is the first character's low five bits, plus 32 times the second's, plus 1024 times the third's, and so is below 2^15 |
| Day08.Low5 | day8/src/main.rs:52 | masking a byte with 0b11111 keeps a value of at most 31 |
| Day08.OrIsAdd | day8/src/main.rs:52 | OR-ing disjoint five-bit fields is adding them |
| Day08.AddIsInt | day8/src/main.rs:52 | the packed sum does not wrap in 16 bits |
| Day08.IdToU16 | day8/src/main.rs:49-55 | the loop of `id_to_u16` computes the packed id, which lies below 2^15 |
| Day08.PackedPrefixAll | day8/src/main.rs:51-53 | three rounds of the loop give the packed id |
| Day08.ChunksAsShifts | day8/src/main.rs:52 | round i shifts the low five bits of byte i by 5 i |
| Day08.Unpack | day8/src/main.rs:49-55 | each five-bit field of a packed id can be read back |
| Day08.Mask5Injective | day8/src/main.rs:52 | the bytes of upper-case letters have distinct low five bits |
| Day08.Low5Injective | day8/src/main.rs:52 | upper-case letters have distinct low five bits |
| Day08.PackedInjective | day8/src/main.rs:49-55 | two names over A–Z pack alike only when their first three characters agree |
| Day08.DigitsCollide | day8/src/main.rs:49-55 | outside A–Z the packing is not injective: `0AA` and `PAA` pack alike |
| Day08.HighBits | day8/src/main.rs:105 | bits 10 to 14 of a packed id are the third field |
| Day08.ZByte | day8/src/main.rs:105 | among letter and digit bytes, only that of 'Z' has the bits of 0b11010 in its low five |
| Day08.ZBits | day8/src/main.rs:105 | among letters and digits, only 'Z' packs into the third field with the bits of 0b11010 set |
| Day08.ThirdBits | day8/src/main.rs:105 | a packed id over letters and digits has those bits set exactly when its name ends in 'Z', and then bits 10 to 14 read 0b11010 exactly |
| Day08.AndAllBelow | day8/src/main.rs:93-97 | the AND of a list of ids has no bit that one of its ids lacks |
| Day08.AndAllSame | day8/src/main.rs:93-97 | bits that every id of a non-empty list has under a mask, the AND has too |
| Day08.AndSuperset | day8/src/main.rs:105 | an id above an AND that passes the stop test has the bits of 0b11010 |
| Day08.PackedAll | day8/src/main.rs:76-79 | one packed id per name, in order |
| Day08.AllAtZIff | day8/src/main.rs:93-107 | for a non-empty list of names over A–Z and 0–9, the stop test on the AND of their ids holds exactly when every name ends in 'Z' |
| Day08.NoStartsNeverStop | day8/src/main.rs:93-105 | with no start nodes the AND stays `u16::MAX` and the stop test never holds |
| Day08.ParseDirections | day8/src/main.rs:59-68 | the instruction line reads exactly when every character is L or R, giving one direction per character, Left exactly for L |
| Day08.PackedId | day8/src/main.rs:49-55 | a packed name is an id below 2^15 |
| Day08.Entry | day8/src/main.rs:75-84 | a node line writes a slot below 2^15 |
| Day08.EntriesOf | day8/src/main.rs:74-85 | one entry per node line, in order |
| Day08.Fill | day8/src/main.rs:71-84 | the table always has `u16::MAX` entries of ids below 2^15 |
| Day08.TableOf | day8/src/main.rs:71-85 | the table of the node lines has `u16::MAX` entries of ids below 2^15 |
| Day08.FillUnset | day8/src/main.rs:71 | a slot that no entry writes keeps `(0, 0)` |
| Day08.FillLast | day8/src/main.rs:84 | a written slot holds the last entry written to it |
| Day08.TableOfUnset | day8/src/main.rs:71-84 | a slot that no line's source packs to keeps `(0, 0)` |
| Day08.TableOfLast | day8/src/main.rs:84 | a slot holds the successors of the last line whose source packs to it |
| Day08.SlotInjective | day8/src/main.rs:76-84 | distinct upper-case names use distinct slots |
| Day08.SameSlot | day8/src/main.rs:76-84 | two node lines with upper-case sources write the same slot only when their sources agree |
| Day08.TableAgreesWithGraph | day8/src/main.rs:71-85 | when every source is upper-case, the table holds at each named node's packed id the packed successors that the map of part one holds for it |
| Day08.StartsOf | day8/src/main.rs:73-80 | the start ids are table indices, at most one per line |
| Day08.AddNode | day8/src/main.rs:75-84 | one line writes exactly its entry at its packed source, returns that id, and marks it a start exactly when the source ends in 'A' |
| Day08.TablePrefix | day8/src/main.rs:74-85 | one more line writes one more entry and pushes one more start when it ends in 'A' |
| Day08.NewTable | day8/src/main.rs:71 | the fresh table is that of no lines |
| Day08.BuildTable | day8/src/main.rs:71-85 | the `for_each` builds the table of the node lines and pushes the start ids in line order |
| Day08.AddLine | day8/src/main.rs:74-85 | one call of the `for_each` closure stores the line's node in the table and pushes its id when it is a start, so table and starts are those of the lines read so far |
| Day08.Next | day8/src/main.rs:98-102 | a successor is again a table index |
| Day08.Advance | day8/src/main.rs:96-103 | every node moves to its successor in the given direction |
| Day08.NodesAfter | day8/src/main.rs:90-110 | the nodes after k steps are as many as the starts, all table indices |
| Day08.StepAll | day8/src/main.rs:93-103 | the inner loop returns the AND of the current ids and moves every node by one instruction |
| Day08.Lockstep | day8/src/main.rs:87-111 | the walk panics exactly when there are no instructions; when it stops, the count is the least k at which the nodes after k steps pass the stop test; when out of fuel, none passed it within the fuel |
| Day08.NoneBeforeStep | day8/src/main.rs:90-110 | a step that does not pass the test extends the steps that did not, and moves the nodes by the next instruction |
| Day08.PartTwo | day8/src/main.rs:57-112 | an instruction line with a character other than L and R panics; otherwise the outcome of the lockstep walk over the table and the starts of the node lines |
| Day09.Diff | day9/src/main.rs:21-24 | the differences of a level are one shorter, entry i being the next value minus value i |
| Day09.Pyramid | day9/src/main.rs:17-32 | the pyramid starts with the history and has at least two and at most one more level than the history has values |
| Day09.PyramidShape | day9/src/main.rs:17-32 | every level but the last is non-empty with the next level its differences; the last level, and no level between the first and the last, is all zero |
| Day09.Differences | day9/src/main.rs:21-24 | the inner loop of `create_tree` pushes the differences of the level |
| Day09.CreateTree | day9/src/main.rs:17-32 | `create_tree` builds the pyramid of the history, stopping at the first all-zero level |
| Day09.PushLevel | day9/src/main.rs:19-31 | one round adds the next level, and the pyramid still to be built is that of the new level unless it is all zero |
| Day09.DiffAllZero | day9/src/main.rs:28 | the differences of an all-zero level are all zero |
| Day09.NextContinues | day9/src/main.rs:6-14 | appending the forward extrapolation to a history appends the extrapolation of its differences to the differences, so the pyramid stays a pyramid |
| Day09.PrevContinues | day9/src/main.rs:51-58 | prepending the backward extrapolation prepends the differences' backward extrapolation to the differences |
| Day09.Reverse | day9/src/main.rs:61-71 | reversal keeps the length and mirrors the positions |
| Day09.Negate | day9/src/main.rs:61-71 | negation keeps the length and negates every value |
| Day09.NextNegate | day9/src/main.rs:1-15 | the forward extrapolation of a negated history is the negated extrapolation |
| Day09.DiffNegate | day9/src/main.rs:21-24 | the differences of a negated history are the negated differences |
| Day09.DiffReverse | day9/src/main.rs:21-24 | the differences of a reversed history are the reversed differences negated |
| Day09.DiffReverseAt | day9/src/main.rs:21-24 | the same fact at one position |
| Day09.PrevIsReversedNext | day9/src/main.rs:46-59 | extrapolating backward is extrapolating the reversed history forward |
| Day09.ReplaceLast | day9/src/main.rs:11 | overwriting a pushed value replaces the last element |
| Day09.ReplaceFirst | day9/src/main.rs:55 | overwriting an inserted value replaces the first element |
| Day09.PyramidNext | day9/src/main.rs:6-14 | the sum of the last values over the pyramid of a history is its forward extrapolation |
| Day09.PyramidPrev | day9/src/main.rs:51-58 | the alternating sum of the first values over the pyramid is its backward extrapolation |
| Day09.FlatPyramid | day9/src/main.rs:6-58 | a history whose differences are all zero extrapolates to its last value forward and its first value backward |
| Day09.RaisedPyramid | day9/src/main.rs:6-58 | for a history whose differences are not all zero, the pyramid sums unfold by one level into the differences' |
| Day09.ConsSums | day9/src/main.rs:6-58 | a level on top of a pyramid adds its last value to the forward sum and subtracts the backward sum from its first value |
| Day09.PyramidCons | day9/src/main.rs:17-32 | when the differences are not all zero, the pyramid is the history on top of the differences' pyramid |
| Day09.NotFlat | day9/src/main.rs:28 | a history whose differences are not all zero is not all zero |
| Day09.DiffAllZeroValues | day9/src/main.rs:6-58 | an all-zero level extrapolates to 0 in both directions |
| Day09.ShiftSums | day9/src/main.rs:8-56 | the sums from level k + 1 of a pyramid with a level on top are the sums from level k of the rest |
| Day09.NextRound | day9/src/main.rs:8-12 | one round of the upward loop writes at level idx its sum of the last values, leaving the levels above at their appended 0 |
| Day09.PrevRound | day9/src/main.rs:53-56 | one round of the backward loop writes at level idx its alternating sum of the first values |
| Day09.AppendZeros | day9/src/main.rs:6 | every level gets a 0 pushed at its end |
| Day09.PrependZeros | day9/src/main.rs:51 | every level gets a 0 inserted in front |
| Day09.LastOfExtended | day9/src/main.rs:14 | the last value of a level with a value appended is that value |
| Day09.PyramidGraded | day9/src/main.rs:17-32 | every level of a pyramid is one shorter than the one above |
| Day09.FillLasts | day9/src/main.rs:6-14 | over a graded pyramid, the fill-in loop of `estimate_next` returns the sum of the last values |
| Day09.FillFirsts | day9/src/main.rs:51-58 | over a graded pyramid, the fill-in loop of `estimate_prev` returns the alternating sum of the first values |
| Day09.EstimateNext | day9/src/main.rs:1-15 | `estimate_next` returns the forward extrapolation of a non-empty history |
| Day09.EstimatePrev | day9/src/main.rs:46-59 | `estimate_prev` returns the backward extrapolation |
| Day09.Reversals | day9/src/main.rs:61-71 | every history reversed, in order |
| Day09.PartTwoIsReversedPartOne | day9/src/main.rs:34-71 | the part two answer over the histories is the part one answer over the reversed histories |
| Day10.OppositeReverses | day10/src/main.rs:12-28 | turning round twice is the identity, never a fixed point, and it reverses the step offset |
| Day10.TileFromChar | day10/src/main.rs:49-61 | a character reads as a tile exactly when it is one of `\|-LJ7F.S`, with S the start and `.` the ground; every other character is the panic |
| Day10.AllowedIncomingConnects | day10/src/main.rs:44-70 | a step in a direction may enter exactly the three tiles that open back towards where it came from |
| Day10.RemainingDirection | day10/src/main.rs:72-118 | the remaining direction is undefined (the panic) exactly on the ground and the start |
| Day10.RemainingIsOther | day10/src/main.rs:72-118 | a pipe entered through one of its openings is left through the other one, and those two are its openings |
| Day10.CornersTurn | day10/src/main.rs:72-118 | exactly the four corner tiles turn the walk; straight pipes keep its heading |
| Day10.Lookup | day10/src/main.rs:152-162 | `get` is off the board exactly outside the rows and the first row's width, the index panic exactly inside that width but past the end of a shorter row, and otherwise the tile there |
| Day10.TileAt | day10/src/main.rs:152-162 | `get(pos).unwrap()` gives a tile exactly inside the rows, the first row's width and the position's own row, and then the tile there |
| Day10.UnwrapLookup | day10/src/main.rs:152-162 | unwrapping `get` gives a tile exactly where `get` finds one, and the same tile |
| Day10.ParseRow | day10/src/main.rs:130 | a line reads exactly when every character is a tile, one tile per character |
| Day10.ParseTiles | day10/src/main.rs:127-131 | the board reads exactly when every line does, one row per line |
| Day10.FindInRow | day10/src/main.rs:138-144 | the first start of a row, or none when the row has no start |
| Day10.FindStart | day10/src/main.rs:133-147 | the start coordinates are those of the first start in the first row holding one; none (the panic) when the board has no start |
| Day10.Gameboard.constructor | day10/src/main.rs:132-149 | given the start that the search finds, the board holds the parsed tiles and those start coordinates |
| Day10.FromTiles | day10/src/main.rs:127-150 | building the board fails (the `unwrap` panic) exactly when the tiles hold no start, and otherwise holds the tiles and their first start |
| Day10.Gameboard.Get | day10/src/main.rs:152-162 | `get` on the current board: off it, the index panic of a shorter row, or the tile there |
| Day10.Gameboard.Set | day10/src/main.rs:164-166 | `set` changes the one tile and nothing else |
| Day10.FirstMove | day10/src/main.rs:176-187 | the walk begins at the first neighbour of the start, in the order North, East, South, West, that `get` finds and that opens back towards the start; none when no neighbour does or when an earlier probe runs past the end of a short row, both of which panic |
| Day10.FindFirstMove | day10/src/main.rs:176-241 | the loop over the cardinals finds that first move |
| Day10.PartOne | day10/src/main.rs:173-204 | `part_one` on a board gives the outcome of the walk: half the number of moves back to a start tile, or the panic off the board, past the end of a short row or at a tile with no way on |
| Day10.Advance | day10/src/main.rs:196-200 | the end of one round of the loop steps through the pipe, counts one move and leaves the outcome of the rest of the walk unchanged |
| Day10.MoreFuelSameAnswer | day10/src/main.rs:189-201 | a walk that finishes within some fuel finishes the same way with more |
| Day10.LengthUsesFuel | day10/src/main.rs:189-201 | a finished walk counted between its starting length and that plus the fuel it had |
| Day10.Mark | day10/src/main.rs:260 | marking keeps the board's shape and puts a start tile at the one position only |
| Day10.MarkRowCounts | day10/src/main.rs:260 | marking a tile of a row takes one off the row's non-start tiles unless it was a start already |
| Day10.MarkCounts | day10/src/main.rs:260 | marking a tile of the board takes one off its non-start tiles unless it was a start already |
| Day10.MarkLastRow | day10/src/main.rs:260 | marking leaves the rows above untouched and changes one tile of its row |
| Day10.MarkEarlierRow | day10/src/main.rs:260 | marking in an earlier row leaves the last row untouched |
| Day10.Trace | day10/src/main.rs:246-265 | when part two's walk ends it ends at a start tile, on a board of the same shape with no more non-start tiles, with as many row as column coordinates |
| Day10.TraceFrom | day10/src/main.rs:229-265 | part two's walk can only end when the start has a first move |
| Day10.TraceMove | day10/src/main.rs:252-264 | one move records a corner when the tile is one, marks the tile and goes on from the tile it leads to |
| Day10.QuotTruncates | day10/src/main.rs:213-215 | Rust's integer division leaves a remainder of the dividend's sign, smaller than the divisor |
| Day10.IsInPolygon | day10/src/main.rs:207-224 | the loop of `is_in_polygon` computes the parity of the edges crossing the ray from the point, with the truncating division |
| Day10.AxisEdgeExact | day10/src/main.rs:212-216 | on a horizontal or vertical edge the truncating division is exact |
| Day10.RectilinearExact | day10/src/main.rs:207-224 | on a polygon with only horizontal and vertical edges `is_in_polygon` gives the exact point-in-polygon answer |
| Day10.CountRowBound | day10/src/main.rs:272-281 | a row counts no more tiles than it has non-start tiles |
| Day10.CountInsideBound | day10/src/main.rs:267-283 | the count of enclosed tiles is at most the number of non-start tiles, so no marked loop tile is counted |
| Day10.PartTwo | day10/src/main.rs:226-284 | `part_two` gives the count of unmarked tiles inside the recorded polygon, or the panic, and leaves the board with the loop marked |
| Day10.ClosedPolygon | day10/src/main.rs:243-265 | the corrected polygon extends the recorded corners by the start exactly when the walk turns there |
| Day10.MarkKeepsJoined | day10/src/main.rs:260 | marking a tile keeps the board well joined |
| Day10.BoardStep | day10/src/main.rs:251-264 | on a well-joined board a move leaves a pipe through its other opening, turning only at a corner, and enters a tile that fits |
| Day10.GeometryStep | day10/src/main.rs:252-264 | a move that records a corner or goes straight on keeps consecutive corners on one row or column |
| Day10.WalkEnds | day10/src/main.rs:246-265 | on a well-joined board part two's walk never panics, and the corner geometry holds where it ends |
| Day10.WalkBegins | day10/src/main.rs:229-241 | the first move establishes the walk invariant |
| Day10.FirstMoveFits | day10/src/main.rs:176-241 | the first move leaves the start and enters a tile that fits |
| Day10.WellJoinedWalkEnds | day10/src/main.rs:229-265 | on a well-joined board with a first move, part two's walk ends at a start tile |
| Day10.CorrectedPolygonExact | day10/src/main.rs:207-265 | when the walk closes at the start, the corrected polygon has only horizontal and vertical edges, so `is_in_polygon` is exact on it |
| Day10.ClosingGeometry | day10/src/main.rs:243-265 | back at the start, the corners together with the start where it turns close into a polygon with horizontal and vertical edges |
| Day10.AsWrittenExactWhenStartStraight | day10/src/main.rs:207-265 | when the start is a straight pipe, the recorded polygon is already exact |
| Day10.RingIsLoop | day10/src/main.rs:127-150 | the 4 by 4 loop with its start in a corner is well joined and has its start at (0, 0) |
| Day10.RingTrace | day10/src/main.rs:229-265 | on that loop part two's walk records the corners (0, 3), (3, 3) and (3, 0) and returns to the start |
| Day10.RingPartOne | day10/src/main.rs:173-204 | on that loop part one gives 6, half of its 12 moves |
| Day10.JaggedPartOne | day10/src/main.rs:173-204 | on a board whose last row is shorter than the first, part one still walks its loop of eight moves and gives 4 |
| Day10.StubPanics | day10/src/main.rs:152-162 | a walk that turns into a row too short for the first row's width ends in the index panic of `get` |
| Day10.TriangleCount | day10/src/main.rs:207-283 | three of the four enclosed tiles lie inside the triangle of the recorded corners |
| Day10.SquareCount | day10/src/main.rs:207-283 | all four lie inside the square that has the start as a corner |
| Day10.CorrectedFromTrace | day10/src/main.rs:226-284 | the corrected part two counts the enclosed tiles of the corrected polygon |
| Day10.StartCornerDropped | day10/src/main.rs:246-259 | as written, part two gives 3 on the ring, where four tiles are enclosed |
| Day10.StartCornerCounted | day10/src/main.rs:246-259 | with the start recorded as a corner, part two gives 4 on the ring |
| Day11.Shift | day11/src/main.rs:22-33 | moving a galaxy along one axis adds to that coordinate and keeps the other |
| Day11.LineGalaxies | day11/src/main.rs:8-9 | a position is collected from a line exactly when it holds '#', and the positions come left to right on that row |
| Day11.GalaxiesFrom | day11/src/main.rs:4-11 | a position is collected exactly when it holds '#' in a line from row i on, in row-major order |
| Day11.JoinRows | day11/src/main.rs:7-10 | the galaxies of one row followed by those of later rows stay in row-major order |
| Day11.EmptyBelow | day11/src/main.rs:17-36 | there are at most n empty lines below n |
| Day11.EmptyBelowMonotone | day11/src/main.rs:17-36 | the count of empty lines below n never falls as n grows |
| Day11.TimesIsProduct | day11/src/main.rs:22-23 | adding the factor once per empty line is multiplying by the factor |
| Day11.MulMonotone | day11/src/main.rs:22-23 | that product is monotone in the number of lines |
| Day11.TimesAdd | day11/src/main.rs:22-23 | that product distributes over sums |
| Day11.Target | day11/src/main.rs:17-25 | expanding one axis keeps a galaxy's other coordinate |
| Day11.Expanded | day11/src/main.rs:17-36 | the expansion of one axis keeps the number of galaxies and their other coordinates |
| Day11.ShiftedOne | day11/src/main.rs:18-29 | after the lines below x are expanded, a galaxy sits at x plus the offset exactly when it was on line x |
| Day11.OccupiedShifted | day11/src/main.rs:18-29 | the shifted test sees a galaxy exactly when line x held one before the expansion |
| Day11.BumpOne | day11/src/main.rs:19-33 | shifting past an empty line x moves a galaxy to where it goes once line x is expanded |
| Day11.KeepOne | day11/src/main.rs:18-29 | an occupied line moves nobody |
| Day11.ShiftBeyond | day11/src/main.rs:19-33 | the `filter(..).for_each(..)` moves by the factor exactly the galaxies beyond the bound, and no others |
| Day11.ExpandAxis | day11/src/main.rs:16-36 | each expansion loop moves every galaxy by the factor per empty line before it |
| Day11.ExpandLine | day11/src/main.rs:18-25 | one round of an expansion loop: when no galaxy sits on the line, every galaxy beyond it moves by the factor and the offset grows by it, so the galaxies and the offset are those for the empty lines up to and including this one |
| Day11.BumpAll | day11/src/main.rs:18-35 | an empty line moves everything beyond it and grows the offset by the factor |
| Day11.KeepAll | day11/src/main.rs:18-35 | an occupied line leaves the galaxies and the offset alone |
| Day11.OtherAxisKept | day11/src/main.rs:16-36 | expanding the columns does not change which rows are empty |
| Day11.DistSymmetric | day11/src/main.rs:41-45 | the Manhattan distance does not depend on the order within a pair |
| Day11.ExpandedGalaxies | day11/src/main.rs:4-36 | both passes keep the number of galaxies |
| Day11.GetDistances | day11/src/main.rs:3-47 | `get_distances` sums the Manhattan distances over every unordered pair of the expanded galaxies |
| Day11.ExpandedCoords | day11/src/main.rs:16-36 | each expanded coordinate is the original one plus the factor per empty line of the original grid before it |
| Day11.MovedMonotone | day11/src/main.rs:16-36 | the expansion keeps the order of lines |
| Day11.OrderKept | day11/src/main.rs:16-36 | the expansion keeps the relative order of any two galaxies on each axis |
| Day11.EmptyBelowSplit | day11/src/main.rs:17-36 | the empty lines below hi are those below lo plus those between |
| Day11.MovedGap | day11/src/main.rs:16-36 | two lines inside the grid, the lower one occupied, end up their original distance apart plus the factor per empty line between them |
| Day11.PairDistance | day11/src/main.rs:3-47 | on a rectangular grid, a pair's distance after the expansion is its original distance plus the factor for every empty row and every empty column between the two |
| Day11.GapsOfPair | day11/src/main.rs:41-45 | the same for two galaxies on occupied lines moved along both axes |
| Day11.GalaxyInGrid | day11/src/main.rs:4-14 | on a rectangular grid every galaxy lies inside it, on an occupied row and an occupied column |
| Day11.AxisGap | day11/src/main.rs:16-36 | two occupied lines, in either order, end up apart by their distance plus the factor per empty line between them |
| Day11.PartOne | day11/src/main.rs:49-51 | expansion by 1, the sum cast to 32 bits |
| Day11.PartTwo | day11/src/main.rs:53-55 | every empty line becomes a million lines |
| Day12.FromChar | day12/src/main.rs:13-20 | `.` is working, `#` broken and `?` unknown, and every other character is the panic |
| Day12.ParseSprings | day12/src/main.rs:33-39 | the springs read exactly when every character is a condition, one per character |
| Day12.ParseGroups | day12/src/main.rs:40-46 | the groups read exactly when every comma-separated part is a number, one per part |
| Day12.FromString | day12/src/main.rs:30-48 | a row reads only from a line of at least two words, whose first gives the springs and whose second the groups |
| Day12.Runs | day12/src/main.rs:51-100 | every run of broken springs is positive, and a row ending in a broken spring has a run |
| Day12.WaysAgree | day12/src/main.rs:51-100 | two counts agree when their conditions agree on every filled-in row |
| Day12.MeetsShift | day12/src/main.rs:57 | moving the next spring into the tail keeps the condition |
| Day12.WaysNone | day12/src/main.rs:51-100 | when no filled-in row meets the condition the count is 0 |
| Day12.RunsWorking | day12/src/main.rs:78-90 | a working spring at the end adds no run |
| Day12.RunsWorkingBroken | day12/src/main.rs:78-90 | a broken spring after a working one opens a run of 1 |
| Day12.LongerInjective | day12/src/main.rs:75 | lengthening the last group is injective |
| Day12.RunsBrokenBroken | day12/src/main.rs:66-77 | two broken springs in a row lengthen the last run |
| Day12.WeightSnoc | day12/src/main.rs:57-65 | an unknown weighs twice a known spring, so filling one in lowers the measure |
| Day12.WaysSnoc | day12/src/main.rs:57-65 | the count is the broken choice plus the working choice for the last spring, where those are allowed |
| Day12.BrokenWithoutGroup | day12/src/main.rs:67-68 | a broken spring with no group left has no arrangement |
| Day12.RunTooLong | day12/src/main.rs:69-72 | a broken spring beyond a group read down to 0 has no arrangement |
| Day12.RunGrows | day12/src/main.rs:75-76 | a broken spring before an open run lengthens it |
| Day12.RunCloses | day12/src/main.rs:82-84 | a working spring closes an open run of exactly the group's length |
| Day12.RunCutShort | day12/src/main.rs:87-88 | a working spring cannot close a run that is still too short |
| Day12.WorkingOutsideRun | day12/src/main.rs:80-86 | a working spring outside a run changes nothing |
| Day12.ArrangementsCount | day12/src/main.rs:51-100 | for positive groups, `get_number_of_arrangements` counts the fillings whose runs are the groups, or with a run open the fillings that close it at the last group's length |
| Day12.CountUnknown | day12/src/main.rs:59-65 | the unknown branch adds the counts of its two fillings |
| Day12.CountBroken | day12/src/main.rs:66-77 | the broken branch counts correctly |
| Day12.CountWorking | day12/src/main.rs:78-90 | the working branch counts correctly |
| Day12.ArrangementsAreWays | day12/src/main.rs:51-100 | with positive groups, the count of `get_number_of_arrangements(row, None)` is the number of fillings of the unknowns whose runs of broken springs are the groups |
| Day12.BrokenBeforeZero | day12/src/main.rs:69-72 | a broken spring with the last group at 0 and no run open has no arrangement |
| Day12.ChunkStart | day12/src/main.rs:180-188 | the first spring that is not working opens the first chunk |
| Day12.ChunksOf | day12/src/main.rs:177-188 | no chunk holds a working spring, and there are chunks exactly when there are springs |
| Day12.JoinGrowLast | day12/src/main.rs:184-186 | growing the last chunk grows the joined springs |
| Day12.JoinStep | day12/src/main.rs:180-188 | one step of the fold adds its spring to the joined springs |
| Day12.ChunksJoin | day12/src/main.rs:177-188 | the chunks joined by working springs are the springs, less one leading working spring |
| Day12.ChunksOfSnoc | day12/src/main.rs:180-188 | the fold over one more spring is one more step |
| Day12.LongerSuffix | day12/src/main.rs:164 | lengthening the last group commutes with taking a suffix |
| Day12.FillCounts | day12/src/main.rs:110-174 | `get_ways_to_fill_chunk` lists each leftover as often as there are ways to fill the chunk with the groups beyond it |
| Day12.FillBase | day12/src/main.rs:118-128 | the empty chunk lists its leftover correctly |
| Day12.FillUnknown | day12/src/main.rs:131-156 | the unknown branch lists its leftovers correctly |
| Day12.FillBroken | day12/src/main.rs:157-167 | the broken branch lists its leftovers correctly |
| Day12.TallyAppend | day12/src/main.rs:201-232 | a key's total over two lists is the sum of its totals |
| Day12.TallyTag | day12/src/main.rs:219-221 | tagging fills with a count gives each key that count per fill |
| Day12.Find | day12/src/main.rs:227-230 | a key found in the list is at the reported place; a key not found is nowhere in it |
| Day12.TallyAbsent | day12/src/main.rs:227-230 | a key that is nowhere has total 0 |
| Day12.TallyUpdate | day12/src/main.rs:229 | adding to an entry adds to its key's total only |
| Day12.AccumulateTally | day12/src/main.rs:227-230 | entry, modify or insert adds the count to its key's total and changes no other |
| Day12.MergeTally | day12/src/main.rs:225-232 | merging into the map keeps every key's total |
| Day12.MergeDistinct | day12/src/main.rs:225-232 | merging leaves each key once |
| Day12.AccumulateDistinct | day12/src/main.rs:227-230 | one insertion keeps the keys distinct |
| Day12.TallyAtLeast | day12/src/main.rs:225-232 | a key's total is at least each of its counts |
| Day12.CombineTally | day12/src/main.rs:235-240 | with each key once, the product over used-up states is the count of the used-up state, or 1 when there is none |
| Day12.RightToLeft | day12/src/main.rs:189-191 | the chunks are visited right to left |
| Day12.Schedule | day12/src/main.rs:177-191 | no scheduled chunk holds a working spring |
| Day12.CountsSupported | day12/src/main.rs:198-233 | only prefixes of the groups carry a count |
| Day12.StageTally | day12/src/main.rs:199-233 | a corrected stage gives each key each state's count times the ways its fills leave that key |
| Day12.ConvCounts | day12/src/main.rs:199-233 | filling a chunk, a working spring and the rest is a sum over where the chunk's groups end |
| Day12.RunsSplit | day12/src/main.rs:177-188 | a working spring between two parts splits their runs |
| Day12.SplitAtWorking | day12/src/main.rs:177-188 | a working spring splits the groups between the chunk and what follows |
| Day12.StageKeyCount | day12/src/main.rs:199-233 | after one corrected stage each key carries the ways to fill the springs seen so far with the groups after it |
| Day12.CorrectedStatesCount | day12/src/main.rs:198-233 | every corrected stage keeps that invariant for the springs seen so far |
| Day12.ProcessedTail | day12/src/main.rs:189-199 | the chunks processed so far are the last ones joined, with a working spring after |
| Day12.LeadingWorking | day12/src/main.rs:177-188 | a leading working spring changes no count |
| Day12.TrailingWorking | day12/src/main.rs:177-188 | a trailing working spring changes no count |
| Day12.JoinFillsLikeSprings | day12/src/main.rs:177-188 | the joined chunks fill like the springs |
| Day12.ProcessedIsSprings | day12/src/main.rs:177-199 | all the scheduled chunks, each followed by a working spring, fill like the springs |
| Day12.FasterCorrectedCounts | day12/src/main.rs:176-243 | the corrected faster counter gives the number of fillings whose runs are the groups, for any groups |
| Day12.FasterAgreesWithArrangements | day12/src/main.rs:176-243 | with positive groups, the corrected faster counter and the straightforward one agree |
| Day12.CutChunks | day12/src/main.rs:177-188 | the fold cuts the springs into chunks at each working spring |
| Day12.StageStates | day12/src/main.rs:201-222 | one pass over the previous states, as written: used-up states dropped, a chunk as long as the last group taking it whole, otherwise every fill pushed with the state's count |
| Day12.PushFills | day12/src/main.rs:219-221 | the inner loop pushes every fill tagged with the state's count |
| Day12.MergeStates | day12/src/main.rs:224-232 | the HashMap loop sums the counts of equal groups |
| Day12.CombineStates | day12/src/main.rs:235-240 | the closing loop takes the product of the counts of used-up states |
| Day12.NumberOfArrangementsFaster | day12/src/main.rs:176-243 | `get_number_of_arrangements_faster` as written computes the stages from right to left and their product |
| Day12.AsWrittenCombines | day12/src/main.rs:235-242 | as written, the answer is the count of the used-up state after the last chunk, or 1 when there is none |
| Day12.DroppedStateLosesWays | day12/src/main.rs:203-206 | on `?.?? 1` the faster counter as written gives 1, while there are 3 arrangements |
| Day12.DropIsTheLoss | day12/src/main.rs:203-206 | at `?` a state with no groups left is dropped, where filling would carry it on with its count |
| Day12.DroppedSecondStage | day12/src/main.rs:198-233 | the second stage of `?.?? 1` drops the used-up state and closes the open one whole |
| Day12.ShortcutLosesWays | day12/src/main.rs:207-212 | on `??.?? 2` the faster counter as written gives 1, while there are 2 arrangements |
| Day12.ShortcutIsTheLoss | day12/src/main.rs:207-212 | at `??` with the group 2 the shortcut keeps only the used-up state, where filling also keeps the group open; carried on, the used-up state still counts once |
| Day12.ShortcutStages | day12/src/main.rs:198-233 | as written, the first stage of `??.?? 2` holds only the used-up state and the second drops it |
| Day12.OneChunk | day12/src/main.rs:177-188 | a non-empty stretch without a working spring is a single chunk |
| Day12.ChunkAfterWorking | day12/src/main.rs:177-188 | a working spring after a non-empty row starts a new chunk, filled by the springs after it |
| Day12.TwoChunks | day12/src/main.rs:177-191 | two chunks separated by a working spring are visited right chunk first |
| Day12.CorrectedDropSample | day12/src/main.rs:198-233 | the corrected counter gives 3 on `?.?? 1`, its number of arrangements |
| Day12.CorrectedShortcutSample | day12/src/main.rs:198-233 | the corrected counter gives 2 on `??.?? 2`, its number of arrangements |
| Day12.EmptyProductCountsOne | day12/src/main.rs:235-242 | on `# 2` no state uses up its groups, yet the product gives 1 where there is no arrangement |
| Day12.Copies | day12/src/main.rs:250-263 | k copies of u are k times as long |
| Day12.CopiesFive | day12/src/main.rs:250-263 | five copies are u five times |
| Day12.UnfoldCopies | day12/src/main.rs:249-264 | the unfolded springs are five copies joined by unknown springs, and the groups five copies |
| Day12.ParseRows | day12/src/main.rs:103-105 | the rows read exactly when every line does, one row per line |
| Day12.PartOneCounts | day12/src/main.rs:102-108 | with positive groups, part one sums the arrangements of every row |
| Day12.Unfolded | day12/src/main.rs:249-264 | every row unfolded, in order |
| Day12.PartTwo | day12/src/main.rs:245-270 | part two as written sums the faster counter over every unfolded row |
| Day12.PartTwoCorrectedCounts | day12/src/main.rs:245-270 | with the corrected counter, part two sums the arrangements of every unfolded row |
| Day13.Line | day13/src/main.rs:15-31 | a line is as long as the other axis and holds the cells of that row or column in order |
| Day13.MinCheck | day13/src/main.rs:11-28 | the first line checked for a split is 2 split - len when the mirror reaches the far edge, and 0 otherwise |
| Day13.Partner | day13/src/main.rs:14-31 | a checked line is compared with its mirror image 2 split - 1 - i |
| Day13.PartnerInRange | day13/src/main.rs:11-15 | the lines checked are exactly those whose mirror image lies on the board, and every image lies beyond the split |
| Day13.Mismatches | day13/src/main.rs:60-62 | two lines differ in at most as many cells as they have |
| Day13.NoMismatches | day13/src/main.rs:15-62 | two lines have no mismatch exactly when they agree cell by cell |
| Day13.NoSmudgesFrom | day13/src/main.rs:57-65 | the part-two sum from a line on is zero exactly when every such line matches its image |
| Day13.MirroredIffNoSmudges | day13/src/main.rs:13-65 | the part-one mirror test holds exactly when the part-two sum is zero |
| Day13.MirroredIffReflection | day13/src/main.rs:10-21 | a perfect mirror folds the board onto itself: every line whose image lies on the board equals it |
| Day13.LineEq | day13/src/main.rs:15-31 | two lines are equal exactly when they agree cell by cell |
| Day13.FirstSplitLeast | day13/src/main.rs:10-37 | the split found is the least that passes the test, and none found means none passes |
| Day13.FindSplit | day13/src/main.rs:10-71 | the `for` loop with its `break` returns the first split that passes |
| Day13.BoardValue | day13/src/main.rs:4-40 | a board adds 100 times its first row split, otherwise its first column split, otherwise nothing |
| Day13.Boards | day13/src/main.rs:3-4 | one board per part of the input split at `\r\n\r\n` |
| Day13.OneBoardWithoutCrlf | day13/src/main.rs:3 | an input without `\r\n\r\n` reads as a single board |
| Day13.Solve | day13/src/main.rs:1-99 | the total is the sum over the boards of what each adds |
| Day13.PartOne | day13/src/main.rs:1-43 | part one sums the boards' perfect mirrors |
| Day13.PartTwo | day13/src/main.rs:45-99 | part two sums the boards' mirrors off by exactly one cell |
| Day14.CellOf | day14/src/main.rs:13-17 | a character reads as a cell exactly when it is `O`, `#` or `.`; every other character is the unreachable panic |
| Day14.ParseLine | day14/src/main.rs:12-19 | a line parses exactly when every character is a cell, and then cell k is the reading of character k |
| Day14.ParseBoard | day14/src/main.rs:9-21 | the board parses exactly when every line does, and then row i is the parse of line i |
| Day14.ParseFormatLine | day14/src/main.rs:12-19 | writing a row out as characters and reading it back gives the row again |
| Day14.ParseFormatBoard | day14/src/main.rs:9-21 | writing a board out line by line and reading it back gives the board again |
| Day14.CountRounds | day14/src/main.rs:30-34 | the round rocks counted in a range are no more than the cells in it |
| Day14.CountSplit | day14/src/main.rs:30-44 | the round-rock count of a range is the sum of the counts of its two halves |
| Day14.StretchStart | day14/src/main.rs:35-39 | a stretch of free cells starts at the line's start or just after a cube rock |
| Day14.StretchEnd | day14/src/main.rs:35-39 | a stretch of free cells ends at the line's end or at a cube rock |
| Day14.StartClear | day14/src/main.rs:30-44 | no cube rock lies between the start of a cell's stretch and the cell |
| Day14.EndClear | day14/src/main.rs:30-44 | no cube rock lies between a cell and the end of its stretch |
| Day14.StretchStarts | day14/src/main.rs:30-44 | every cell of a stretch without cube rocks has the same stretch start |
| Day14.StretchEnds | day14/src/main.rs:30-44 | every cell of a stretch without cube rocks has the same stretch end |
| Day14.Tilt | day14/src/main.rs:61-79 | tilting keeps the line's length |
| Day14.TiltCubes | day14/src/main.rs:66-67 | tilting leaves every cube rock where it is and puts none anywhere else |
| Day14.StretchCells | day14/src/main.rs:61-79 | after a tilt each stretch holds its own count of round rocks packed against the tilted side and empty cells after them |
| Day14.StretchAfter | day14/src/main.rs:66-73 | the stretch starting just after a cube rock is packed with that stretch's round rocks on the tilted side |
| Day14.StretchBefore | day14/src/main.rs:66-73 | the stretch ending at a cube rock is packed with that stretch's round rocks on the tilted side |
| Day14.RunAtStartCount | day14/src/main.rs:68-70 | a stretch packed with c round rocks at its start holds c round rocks |
| Day14.RunAtEndCount | day14/src/main.rs:158-160 | a stretch packed with c round rocks at its end holds c round rocks |
| Day14.StretchRounds | day14/src/main.rs:61-79 | a tilt keeps the number of round rocks in every stretch |
| Day14.TiltRoundsFrom | day14/src/main.rs:61-79 | a tilt keeps the number of round rocks from any stretch start to the line's end |
| Day14.CubeSplit | day14/src/main.rs:66-73 | the round rocks past a stretch start are those up to the next cube rock plus those after it |
| Day14.TiltRounds | day14/src/main.rs:61-79 | a tilt keeps the number of round rocks in the line |
| Day14.FillRound | day14/src/main.rs:68-79 | the fill loop sets exactly the cells of its range to round rocks and leaves the others |
| Day14.PackToStart | day14/src/main.rs:59-79 | the scan from the start packs the line exactly as the tilt towards the start does |
| Day14.StartCube | day14/src/main.rs:66-72 | after a cube rock is met the output agrees with the tilt up to that rock and is empty after it |
| Day14.PackToEnd | day14/src/main.rs:149-169 | the scan from the end, started at the line's length, packs the line exactly as the tilt towards the end does |
| Day14.EndCube | day14/src/main.rs:156-162 | after a cube rock is met the output agrees with the tilt from that rock on and is empty before it |
| Day14.PackLine | day14/src/main.rs:59-79 | one line packed either way is the tilt of that line that way |
| Day14.TiltColumns | day14/src/main.rs:56-80 | tilting every column keeps the board's height and width |
| Day14.TiltRows | day14/src/main.rs:86-110 | tilting every row keeps the board's height and width |
| Day14.Cycle | day14/src/main.rs:52-184 | a spin cycle keeps the board's height and width |
| Day14.ColumnOfTilt | day14/src/main.rs:56-80 | every column of the tilted board is the tilt of that column |
| Day14.CycleCubes | day14/src/main.rs:52-184 | a spin cycle leaves every cube rock where it is and adds none |
| Day14.CycleKeepsRounds | day14/src/main.rs:52-184 | a spin cycle keeps the number of round rocks on the board |
| Day14.ColumnsKeepRounds | day14/src/main.rs:56-80 | a north or south pass keeps the number of round rocks on the board |
| Day14.RowsKeepRounds | day14/src/main.rs:86-110 | a west or east pass keeps the number of round rocks on the board |
| Day14.StoreColumn | day14/src/main.rs:67-69 | writing a packed column into the output board changes that column alone |
| Day14.ColumnPass | day14/src/main.rs:53-80 | the north or south pass over a fresh empty board gives every column tilted |
| Day14.RowPass | day14/src/main.rs:83-110 | the west or east pass over a fresh empty board, each row scanned from its own width, gives every row tilted |
| Day14.CycleBoard | day14/src/main.rs:52-184 | the four passes in turn, north, west, south and east, give the spin cycle |
| Day14.Exchange | day14/src/main.rs:186-199 | summing the load row by row is summing it column by column |
| Day14.ByColumnsAgree | day14/src/main.rs:186-199 | boards that agree on the first columns have the same load over them |
| Day14.RoundsInByRows | day14/src/main.rs:186-199 | with every weight one the load counts the round rocks |
| Day14.LoadByRows | day14/src/main.rs:186-199 | the load with row i weighted height - i is the weighed row-by-row sum |
| Day14.PackedLoad | day14/src/main.rs:36-46 | c round rocks packed north from row s weigh the sum of h - s - c + 1 through h - s |
| Day14.StretchLoad | day14/src/main.rs:36-46 | a tilted stretch adds exactly that range sum to the load, and its cube rock adds nothing |
| Day14.AddColumnLoad | day14/src/main.rs:28-46 | the per-column loop adds the load of the column tilted north |
| Day14.PartOne | day14/src/main.rs:8-50 | the part-one total is the load of the board after the north tilt |
| Day14.NorthColumn | day14/src/main.rs:25-47 | each column adds the load of its north tilt to the running total |
| Day14.NorthLoad | day14/src/main.rs:25-47 | summing the tilted columns' loads gives the load of the board tilted north |
| Day14.IterShift | day14/src/main.rs:220-231 | once the value after e steps equals the one after s, the two agree at every further step |
| Day14.IterLoops | day14/src/main.rs:230-231 | going round the loop q more times returns to the same value |
| Day14.IterPeriodic | day14/src/main.rs:230-231 | the value after n steps is the one after s + (n - s) mod (e - s) |
| Day14.IterateShaped | day14/src/main.rs:220-222 | repeated spin cycles keep the board's height and width |
| Day14.IterateNext | day14/src/main.rs:222 | one more spin cycle is the cycle of the board reached so far |
| Day14.Position | day14/src/main.rs:223 | the search finds the first earlier board equal to the new one, or -1 when no earlier board equals it |
| Day14.FirstRepeat | day14/src/main.rs:216-231 | the loop returns nothing exactly when no board repeats within the steps, and otherwise the board after them all |
| Day14.Repeated | day14/src/main.rs:223-231 | at the first repeat the index computed from the loop start and length lies in the history and holds the final board |
| Day14.NoRepeatYet | day14/src/main.rs:223-227 | when the new board is not in the history the boards so far are all distinct |
| Day14.PartTwo | day14/src/main.rs:201-234 | the answer is the load after a billion spin cycles, and it is missing exactly when no board repeats, where the source divides by zero |
| Day14.FillAsWritten | day14/src/main.rs:158-169 | the east pass's fill keeps the row's length when it does not underflow |
| Day14.TiltOne | day14/src/main.rs:61-79 | a one-cell line is its own tilt |
| Day14.EastPassUsesRowCount | day14/src/main.rs:149 | on the one-row board `O.` the cycle as written leaves the rock west, while the cycle moves it east |
| Day14.EastPassStays | day14/src/main.rs:146-170 | the east pass as written leaves `O.` unchanged |
| Day14.ColumnsStay | day14/src/main.rs:56-80 | a north or south pass leaves the one-row board unchanged |
| Day14.EastRowStays | day14/src/main.rs:149-169 | the east scan started at 1 packs the rock of `O.` against cell 1, leaving it where it is |
| Day14.RowStaysWest | day14/src/main.rs:86-110 | the west tilt leaves `O.` unchanged |
| Day14.RowGoesEast | day14/src/main.rs:146-170 | the east tilt turns `O.` into `.O` |
| Day14.EastScanFits | day14/src/main.rs:149-169 | the east scan as written, started at the row's width, gives the east tilt |
| Day14.EastRowFits | day14/src/main.rs:149-169 | a row whose width is the row count is tilted east correctly by the pass as written |
| Day14.SquareCycleAgrees | day14/src/main.rs:52-184 | on a square board the cycle as written is the spin cycle |
| Day15.HashFrom | day15/src/main.rs:3-11 | the hash of a non-empty string, or from a start below 256, is below 256 |
| Day15.Hash | day15/src/main.rs:3-11 | the accumulator loop computes the left fold of add, times 17, modulo 256, and stays below 256 |
| Day15.HashAppend | day15/src/main.rs:3-11 | hashing a concatenation continues the fold from the hash of the first part |
| Day15.SumHashes | day15/src/main.rs:14 | the sum of the tokens' hashes is at most 255 per token |
| Day15.PartOne | day15/src/main.rs:13-15 | the part-one answer, the sum of the token hashes, is at most 255 per token |
| Day15.TokensNoLineBreaks | day15/src/main.rs:14-19 | no token holds a line break or a comma, and joining the tokens with commas gives the input without its line breaks |
| Day15.JoinContains | day15/src/main.rs:14-19 | every character of a token occurs in the joined string |
| Day15.ParseOp | day15/src/main.rs:20-37 | a token ending in `-` removes the label before it; any other token sets the focal length of its last character, a single digit, for the label before the `=`; the panicking tokens give nothing |
| Day15.ParseFormat | day15/src/main.rs:20-37 | writing an operation out as a token and reading it back gives the operation again |
| Day15.Removed | day15/src/main.rs:26-29 | removing a label keeps exactly the lenses with other labels and never lengthens the box |
| Day15.RemovedAppend | day15/src/main.rs:29 | removing from a concatenation removes from each part |
| Day15.RemovedKeepsOrder | day15/src/main.rs:29 | the lenses kept by a removal stay in their relative order |
| Day15.RemovedUnique | day15/src/main.rs:29 | after a removal the labels stay unique and the removed label is gone |
| Day15.RemovedAvoids | day15/src/main.rs:29 | after a removal no lens carries a label that was not in the box |
| Day15.Placed | day15/src/main.rs:38-47 | placing a lens keeps the box's length when the label is present and adds one lens when it is not |
| Day15.PlacedUnique | day15/src/main.rs:38-47 | placing a lens keeps the labels unique and adds no lens other than the placed one |
| Day15.PlacedContents | day15/src/main.rs:38-47 | after placing, the lens is in the box, and the other lenses are those that were there |
| Day15.PlacedAt | day15/src/main.rs:38-47 | placing replaces the lens at the first matching slot in place, or appends the lens when no slot matches |
| Day15.Apply | day15/src/main.rs:19-48 | one operation keeps the 256 boxes |
| Day15.ApplyAll | day15/src/main.rs:19-49 | a list of operations keeps the 256 boxes |
| Day15.ApplyFrame | day15/src/main.rs:25-36 | an operation changes only the box its label hashes to, and every box keeps unique labels |
| Day15.ApplyAllUnique | day15/src/main.rs:19-49 | labels stay unique within every box through any list of operations |
| Day15.EmptyBoxes | day15/src/main.rs:18 | the fresh boxes are 256 empty boxes |
| Day15.Boxes.constructor | day15/src/main.rs:18 | the boxes start as 256 empty boxes |
| Day15.Boxes.RemoveLens | day15/src/main.rs:20-29 | a removal updates the boxes in place to the effect of the remove operation and keeps labels unique |
| Day15.Boxes.PutLens | day15/src/main.rs:30-47 | the search then the in-place update or the push updates the boxes to the effect of the put operation and keeps labels unique |
| Day15.Boxes.FocusingPower | day15/src/main.rs:51-59 | the double loop sums box number times slot number times focal length, both numbered from 1 |
| Day15.AddBoxPower | day15/src/main.rs:54-56 | the inner loop adds box b + 1 times the box's slot power |
| Day15.ParseAll | day15/src/main.rs:19-37 | every token becomes its operation, in order |
| Day15.ApplyAllStep | day15/src/main.rs:19 | applying the operations from i on is applying operation i and then the rest |
| Day15.PartTwo | day15/src/main.rs:17-60 | the part-two answer is the focusing power after every operation, in order, on fresh boxes |
| Day16.SymbolOf | day16/src/main.rs:11-20 | the character a cell type is written as reads back as that cell type |
| Day16.KindOf | day16/src/main.rs:11-20 | a character reads as a cell type exactly when it is one of `.\|-/\`; every other character is the panic |
| Day16.SymbolOfKind | day16/src/main.rs:11-20 | a character that reads as a cell type is that type's symbol |
| Day16.ParseRow | day16/src/main.rs:46-53 | a line parses exactly when every character is a cell type, and then cell k is written as character k |
| Day16.ParseGrid | day16/src/main.rs:46-53 | the board parses exactly when every line does, and then row i is the parse of line i |
| Day16.Offsets | day16/src/main.rs:136-143 | every direction moves exactly one step along exactly one axis |
| Day16.Opposite | day16/src/main.rs:136-143 | the opposite direction steps by the negated offset |
| Day16.OffsetsInjective | day16/src/main.rs:136-143 | different directions step to different cells |
| Day16.Outgoing | day16/src/main.rs:70-106 | a cell sends a beam on in one or two directions, never straight back; two directions are opposite and both turn the beam; an empty cell passes the beam straight on |
| Day16.MirrorReverses | day16/src/main.rs:90-105 | a mirror turns every beam, and a beam sent back the way it left comes out the way it came in |
| Day16.SplitterPasses | day16/src/main.rs:74-89 | a splitter lets a beam through only straight on, and it lets a beam through exactly when it lets the opposite beam through |
| Day16.RouteExtend | day16/src/main.rs:117-123 | a route followed by a beam that leaves its last cell is still a route from the same start |
| Day16.GrownTrans | day16/src/main.rs:68-115 | the board's state only grows, and growth composes |
| Day16.CoveredGrows | day16/src/main.rs:68-115 | a beam that has been followed stays followed as the state grows |
| Day16.Missing | day16/src/main.rs:27 | a cell is missing at most four directions |
| Day16.NoDupsBound | day16/src/main.rs:108-115 | a cell's taken directions without repeats and its missing directions add up to four |
| Day16.MissingAdd | day16/src/main.rs:113-115 | taking a direction not taken before leaves one fewer missing |
| Day16.RowRoomUpdate | day16/src/main.rs:113-115 | updating one cell of a row changes the row's missing count by that cell's change |
| Day16.RoomUpdate | day16/src/main.rs:113-115 | updating one cell of the board changes the board's missing count by that cell's change |
| Day16.Unseen | day16/src/main.rs:108-111 | the directions kept are exactly the outgoing ones not taken before, without repeats when there were none |
| Day16.MissingShrinks | day16/src/main.rs:113-115 | adding directions never raises a cell's missing count, and a new direction lowers it |
| Day16.NoDupsAppend | day16/src/main.rs:108-115 | appending directions not taken before to the taken ones keeps them free of repeats |
| Day16.SoundMark | day16/src/main.rs:68 | energizing the cell at the end of a route from the start keeps every energized cell one the beam passes through |
| Day16.ClosedEnter | day16/src/main.rs:68-115 | after entering a cell, every direction taken out of it is either followed already or still to be followed |
| Day16.Release | day16/src/main.rs:117-123 | once a beam has been followed it no longer needs to be pending |
| Day16.AfterFollow | day16/src/main.rs:117-123 | after following direction k the state has grown, the entered beam stays followed, and only the directions after k are pending |
| Day16.AtStep | day16/src/main.rs:117 | the beams still pending from direction k on are those from k + 1 on and direction k |
| Day16.EnterState | day16/src/main.rs:68-115 | entering a cell energizes it soundly, grows the state, marks the entered beam followed, leaves its new directions pending and lowers the missing count when any are new |
| Day16.Board.constructor | day16/src/main.rs:30-53 | a parsed board starts with no cell energized and no direction taken |
| Day16.Board.Clone | day16/src/main.rs:162-195 | a clone is a fresh board with the same cells, flags and directions |
| Day16.Board.Enter | day16/src/main.rs:60-115 | entering a cell on the board sets its energized flag and adds exactly the outgoing directions not taken before, and nothing else changes |
| Day16.Board.TakeStep | day16/src/main.rs:55-124 | a step follows the beam: off the board nothing changes; otherwise the state grows, stays sound, and every direction out of a reached cell is followed or left to the callers |
| Day16.Board.Follow | day16/src/main.rs:117-123 | one turn of the loop follows the beam into the neighbouring cell in that direction |
| Day16.ClosedCovers | day16/src/main.rs:55-124 | when nothing is pending, every route from a followed beam ends at a followed beam |
| Day16.LitExactly | day16/src/main.rs:55-149 | after the beam from the start has been followed, the energized cells are exactly the cells its routes pass through |
| Day16.RowCount | day16/src/main.rs:151 | a row has no more energized cells than cells |
| Day16.Count | day16/src/main.rs:151 | the board has no more energized cells than cells |
| Day16.CellsAlike | day16/src/main.rs:151 | grids of the same shape have the same number of cells |
| Day16.CellsRect | day16/src/main.rs:158-159 | a board of h rows of w cells has h times w cells |
| Day16.LitMarks | day16/src/main.rs:151 | the marks of the lit cells have the board's shape |
| Day16.LitCount | day16/src/main.rs:151 | no more cells are lit than the board has |
| Day16.Energize | day16/src/main.rs:147-151 | sending a beam into an unenergized board energizes exactly the cells the beam passes through and counts them, and leaves no direction taken unfollowed |
| Day16.PartOne | day16/src/main.rs:146-152 | the part-one answer is the number of cells lit by a beam entering the top left cell heading east, at most the cells of the board |
| Day16.RowStarts | day16/src/main.rs:161-182 | the row loop tries two starts per row |
| Day16.ColumnStarts | day16/src/main.rs:184-205 | the column loop tries two starts per column |
| Day16.EdgeStartsOnBoard | day16/src/main.rs:161-205 | every start tried lies on the board at the edge its direction enters from |
| Day16.RowStartsOnBoard | day16/src/main.rs:161-182 | every row start enters from the west edge heading east or the east edge heading west |
| Day16.ColumnStartsOnBoard | day16/src/main.rs:184-205 | every column start enters from the north edge heading south or the south edge heading north |
| Day16.BestPair | day16/src/main.rs:164-181 | two more starts raise the running maximum to the larger of it and their scores |
| Day16.BestIsMax | day16/src/main.rs:157-207 | the running maximum is at least every start's score and, over any starts, is one of them |
| Day16.BestBounded | day16/src/main.rs:157-207 | a bound on every score bounds the maximum |
| Day16.Trial | day16/src/main.rs:162-171 | one start on a fresh clone counts the cells that start lights |
| Day16.BestColumn | day16/src/main.rs:185-204 | one turn of the column loop adds the top and bottom starts of that column |
| Day16.RowTrials | day16/src/main.rs:161-182 | the row loop's maximum is the best score over the row starts |
| Day16.ColumnTrials | day16/src/main.rs:184-205 | the column loop's maximum is the best score over the row starts and the column starts |
| Day16.PartTwo | day16/src/main.rs:154-208 | the part-two answer is the best score over every edge start, and it is missing exactly when the board has no rows or an empty first row, where the source panics |
| Day16.PartTwoBound | day16/src/main.rs:154-208 | on a rectangular board the part-two answer is at most rows times columns |
| Text.Split | day15/src/main.rs:14 | splitting at a character gives at least one piece, and no piece holds the separator |
| Text.JoinSplit | day15/src/main.rs:14-19 | gluing the pieces of a split back with the separator gives the string again |
| Text.SplitJoin | day2/src/main.rs:30-57 | splitting pieces that hold no separator after gluing them gives the pieces again |
| Text.JoinChars | day15/src/main.rs:14 | every character of a glued string is the separator or comes from a piece |
| Text.SplitOn | day13/src/main.rs:3-47 | splitting at a string gives at least one piece |
| Text.JoinSplitOn | day13/src/main.rs:3-47 | gluing the pieces of a split at a string back with it gives the string again |
| Text.SplitOnAbsent | day13/src/main.rs:3-47 | a string without the separator is its own single piece |
| Text.Lines | day14/src/main.rs:10 | no line holds a line feed |
| Text.StripCr | day13/src/main.rs:4 | dropping a carriage return adds no line feed |
| Text.Word | day2/src/main.rs:32-33 | a word is the longest prefix without Unicode whitespace |
| Text.Words | day4/src/main.rs:14-20 | splitting at Unicode whitespace gives non-empty pieces without whitespace |
| Text.WordOf | day2/src/main.rs:32-33 | a string starting with a word followed by whitespace starts with that word |
| Text.WordsOfJoin | day4/src/main.rs:14-20 | the words of words joined by single spaces are those words |
| Text.Without | day15/src/main.rs:14 | deleting characters never lengthens the string and leaves none of them |
| Text.WithoutAppend | day15/src/main.rs:14 | deleting characters from a concatenation deletes them from each part |
| Text.WithoutNoop | day6/src/main.rs:35-43 | deleting characters a string does not hold leaves it unchanged |
| Text.DigitChar | day1/src/main.rs:7 | the digit character for d is a digit whose value is d |
| Text.ToDecimal | day1/src/main.rs:55 | the decimal spelling of a number is a non-empty string of digits |
| Text.DecimalToDecimal | day1/src/main.rs:55 | reading the decimal spelling of a number gives the number |
| Text.DecimalAppend | day1/src/main.rs:55 | reading a concatenation of digit strings shifts the first part's value by the second's length |
| Text.Unsigned | day2/src/main.rs:33 | the digits of a token are the token itself or what follows one leading `+` |
| Text.ParseUnsigned | day2/src/main.rs:33 | an unsigned parse succeeds exactly on one optional `+` then a non-empty digit string whose value is below the bound, and gives that value |
| Text.ParseU32 | day2/src/main.rs:33 | a token parses as a u32 exactly when it is one optional `+` then a non-empty digit string whose value is below 2^32, and then to that value |
| Text.ParseSigned | day2/src/main.rs:33 | a leading `+` reads the same number as the bare digits, while a lone `+` or a second sign is refused |
| Text.ParseU32ToDecimal | day2/src/main.rs:33 | the decimal spelling of a u32 parses back to it |
| Sorting.Insert | day4/src/main.rs:36-37 | inserting adds exactly the one element |
| Sorting.Sort | day4/src/main.rs:36-37 | sorting is a permutation |
| Sorting.InsertSorted | day7/src/part_two.rs:59 | inserting into an ordered sequence under a total preorder keeps it ordered |
| Sorting.SortSorted | day4/src/main.rs:36-37 | sorting under a total preorder gives an ordered sequence |
| Sorting.TiesAppend | day7/src/part_two.rs:139 | the elements equivalent to a key in a concatenation are those of each part, in order |
| Sorting.InsertTies | day7/src/part_two.rs:139 | inserting puts the new element behind every element equivalent to it |
| Sorting.SortStable | day7/src/part_two.rs:139 | the sort is stable: the elements equivalent to any key keep their input order |

## Left out

- `main`, `include_str!`, `println!` and the test modules are left out. They are I/O and drivers. The test inputs are not part of this model, so the sample answers the tests quote are not evaluated. day7/src/main.rs is only a driver, and the day 7 `part_one` module is not part of this model.
- Integer widths are left out: `u32`, `u64`, `u128`, `usize` and `i32` arithmetic is done on unbounded integers. Overflow is not modelled, with these exceptions:
  - the bounds of `parse::<u32>` and of the `u128` parse of day 6 part two;
  - the `u64::MAX` start of day 5;
  - the 16-bit ids of day 8;
  - the final `u32` cast of day 11 part one.
- The reachable debug-mode underflow panics are modelled, either as an error result or as a precondition:
  - Day10.PartTwoAnswer gives `Panics` when a tile is tested against an empty polygon, where `polygon_x.len() - 1` underflows.
  - Day14.FillAsWritten gives `None` where the east pass as written subtracts below zero.
  - Day15.ParseOp gives `None` on an empty token (`operation.len() - 1`), and on a one-character token that does not end in `-` (`operation.len() - 2`).
  - Day16.PartTwo gives `None` on an empty first row, where `board_width - 1` underflows. It also gives `None` on a board with no rows, where `board[0]` panics.
  - Two are excluded by preconditions, listed below: the `i - 1` of day 3 part two and the `len() - 1` of day 9.
- Unicode is left out where the source tests for digits: `char::is_numeric` is restricted to the ASCII digits. `split_whitespace` does split on the whole Unicode White_Space set (Text.IsSpace). `str::len` is taken as the character count, which agrees with the byte count on ASCII input.
- Rust library internals are modelled by their results, not their algorithms. This covers itertools' `counts`, `sorted`, `combinations` and `chunks`, `HashMap` and its entry API, `retain` and `iter_mut().any`: they become multisets, maps, sequences and a stable insertion sort.
- Parsing is skipped where the parsed values are simply given to the solver:
  - the card lines of day 4 (`Game::from_string`);
  - the almanac text of day 5, apart from the field order of a mapping line;
  - the number lines of day 6 part one;
  - the history lines of day 9.
- Some callers' obligations that the source only meets by panicking are stated as preconditions:
  - Day01.PartOne and Day01.PartTwo: every line has a digit.
  - Day03.PartOne and Day03.PartTwo: the schematic is rectangular, and for part two no `*` sits in row 0 or column 0, where `i - 1` underflows.
  - Day05.PartTwo: the seed line has an even count, because `chunks(2)` is followed by `unwrap`.
  - Day07.PartTwo: every line is a hand of five cards and a bid.
  - Day08.PartOne and Day08.PartTwo: the input has a first line, and the node lines have the fixed layout that the slices `[0..3]`, `[7..10]` and `[12..15]` need.
  - Day09.PartOne and Day09.PartTwo: every history is non-empty, because of `len() - 1`.
  - Day11.PartOne and Day11.PartTwo: the input has a first line.
  - Day13.PartOne and Day13.PartTwo: the model requires every board to have a row, and every row of a board to have the first row's width.
  - Day14.PartOne and Day14.PartTwo: the board has a first row, and no row is shorter than it, since every pass reads the first row's width.
  - Day15.PartTwo: every token is an operation.
  - Day10.Gameboard.constructor: it is given the start that the search found. The panic of the search's `unwrap` on a board without a start is modelled by Day10.FromTiles, which returns null there.
  - Day10.Gameboard.Set: the position is inside its own row. `set` indexes without a check, and both parts only set a tile that `get` has just read.
  The other panics of the solvers are modelled as `None`, null or a `Panics`/`Panicked` outcome.
- Day08.PartOne and Day08.PartTwo take a `fuel` bound on the number of steps, because the source's walks need not terminate. On running out they give `OutOfFuel`, together with a proof that no earlier step reached the goal.
- Day10.PartOne takes a `fuel` bound on the number of moves for the same reason. Day10.MoreFuelSameAnswer shows that the bound never changes an answer that was found.
- Day12.ArrangementsAreWays and Day12.PartOneCounts are stated for positive group lengths only. The source uses a trailing 0 as its "run closed" marker, so a 0 in the input groups is not given its meaning.
- The day 12 `par_lines` (rayon) is modelled as a sequential sum over the rows, and the `dbg!` call is left out.
- The day 12 `HashMap` of states is an association list in insertion order. Its iteration order is not modelled. Both the as-written and the corrected counters only sum over it or multiply along it.
- Day14.PartTwo spins the board with the function Day14.Cycle. The imperative passes are in Day14.CycleBoard, which is proved equal to it. Day14.Cycle is the corrected cycle: its east pass scans each row from the row's width, where the source scans from the row count (day14/src/main.rs:149). So on boards that are not square, Day14.PartTwo departs from the source. Day14.CycleAsWritten models the source's pass, and Day14.SquareCycleAgrees shows the two agree on square boards.
- The day 16 `Cell` becomes three grids in the board class: the cell types, the energized flags and the directions taken. Clone therefore duplicates those three values, and the aliasing of the `Vec<Vec<Cell>>` is not modelled. Points are unbounded integers, not `i32`.
- Day13.Solve splits the input only on `"\r\n\r\n"`, as the source does. Input with bare `\n` line ends is one board (Day13.OneBoardWithoutCrlf).

## Findings

| source | as written | input that shows it | evidently intended | confidence | as-written member | corrected member |
|---|---|---|---|---|---|---|
| day3/src/main.rs:34-88 | `current_number` and `is_part_number` are not reset at the end of a row, so a number that ends a row joins the digits that start the next row | the rows `.1` and `2*` give 12, where the part numbers 1 and 2 sum to 3 | every number ends at the end of its row | not executed | Day03.CarriedAcrossRows | Day03.SettledAnswer |
| day12/src/main.rs:203-206 | a state with no groups left is dropped from the next stage, so the ways in which the remaining chunks hold no broken spring are lost | `?.?? 1` gives 1, where there are 3 arrangements | states with no groups left are carried into the following stages | not executed | Day12.DroppedStateLosesWays | Day12.FasterCorrectedCounts |
| day12/src/main.rs:207-212 | a chunk exactly as long as the last group only ever takes that group whole, so the fillings that leave the chunk working and place the group further left are lost | `??.?? 2` gives 1, where there are 2 arrangements; with states carried on and the product fixed it still gives 1 | a chunk as long as the last group is filled like any other | not executed | Day12.ShortcutLosesWays | Day12.FasterCorrectedCounts |
| day12/src/main.rs:235-242 | `combined` starts at 1 and is multiplied only by states with no groups left, so a row where no state finishes counts 1 | `# 2` gives 1, where there are 0 arrangements | the answer is the multiplicity of the final state with no groups left, or 0 without one | not executed | Day12.EmptyProductCountsOne | Day12.FasterCorrectedCounts |
| day10/src/main.rs:246-259 | the start tile is never recorded as a polygon vertex, so a loop whose start is a corner loses that corner | the 4 by 4 ring `S--7`, `\|..\|`, `\|..\|`, `L--J` gives 3 enclosed tiles, where there are 4 | the start tile is recorded as a vertex when the loop turns there | not executed | Day10.StartCornerDropped | Day10.StartCornerCounted |
| day14/src/main.rs:149 | the east pass starts each row's scan at `board.len()`, the number of rows, where the row's width is meant | the one-row board `O.` is left as it is, where the cycle moves the rock east to `.O` | the scan starts at the width of the row | not executed | Day14.EastPassUsesRowCount | Day14.CycleBoard |
