# Player progression, economy and daily counters

This project models the core of a community bot's game layer and proves
properties of it:

- **Static** (`static.dfy`): the role numbers and their labels. It also
  holds the experience curve. That is the cost of each of the levels
  1..100, which starts at 10 and grows by the ceiling of 1.3 each level,
  and the running total of those costs. The start-up loop that fills both
  tables is a method proved to produce exactly the tables of the recursive
  `Cost` / `Total` definitions.
- **Players** (`players.dfy`): the `Player` class. It has one exclusive task
  slot, a guarded map of currency balances and the level derived from the
  cumulative experience. `UpdateLevel` is the forward scan over the level
  thresholds with its early exit. It is proved against `Completed(e)`, the
  number of levels that experience `e` completes. The whole new state of
  every method is stated. A player can be saved to an attribute record and
  loaded back from one.
- **Counters** (`counters.dfy`): the `UserDailyCounter` class. It holds a
  text tally and a voice tally for the day, the user's ids and the time of
  the last daily reset. Each method changes only the fields it names.
- **ProfileText** (`profile_text.dfy`): the two text helpers of the profile
  card, as pure functions. `TrimText` trims a display name, using Python's
  slice rules. `FindRankName` finds the first rank range that covers a
  level.
- **Options** (`options.dfy`): the nullable values (`string | null`,
  `Date | null`).

The clock is a parameter: the counter's constructor and `ResetDaily` take
`now`, in milliseconds. The rank table is a parameter of `FindRankName`,
given as an ordered list of `(start, end, name)` entries.

Two behaviours of the source are kept as written:

- `updateLevel` leaves `level` alone when `exp` completes no level, that is
  when `exp` is below 10. A player whose experience falls under 10, through
  a negative `updateExp` or a low-experience record, keeps a stale level.
  The model states this as `LevelFor(oldLevel, e)`. The invariant `Valid()`
  therefore ties the level to `exp` only where some level is completed.
  `Consistent()` is the stronger "level is exactly `Completed(exp) + 1`".
  New players satisfy it; non-negative experience gains and store round
  trips keep it.
- `decrementTextChatCounter` has no floor, so the text tally can go
  negative.

## Model

| member | source | states |
|---|---|---|
| Static.RoleIDToText | src/models/Static.ts:19-24 | a label exists exactly for the four role ordinals 0..3 |
| Static.RoleLabelsDistinct | src/models/Static.ts:19-24 | two known roles have the same label only when they are the same role |
| Static.CeilGrowthIsCeiling | src/models/Static.ts:60 | the growth step is the least integer r with 10r >= 13c, i.e. the ceiling of 1.3c |
| Static.CeilGrowth | src/models/Static.ts:60 | the growth step, `Math.ceil(c * 1.3)` in integers; no contract of its own, `CeilGrowthIsCeiling` states that it is the ceiling |
| Static.Cost | src/models/Static.ts:59-60 | every level costs at least 10 |
| Static.Total | src/models/Static.ts:51-61 | the `ExpTotalMapping` entry of level i (0 before level 1); no contract of its own, `TotalIsPrefixSum`, `TotalStrictlyIncreasing` and `CurveStart` state its properties |
| Static.TotalIsPrefixSum | src/models/Static.ts:59-62 | the total at level i is the sum of the costs of levels 1..i |
| Static.CurveStart | src/models/Static.ts:43-62 | costs 10, 13, 17, 23 and totals 10, 23, 40, 63 for levels 1..4 |
| Static.CostStrictlyIncreasing | src/models/Static.ts:59-60 | each level costs strictly more than the previous one |
| Static.TotalStrictlyIncreasing | src/models/Static.ts:59-62 | totals strictly increase with the level, which justifies the scan's early exit |
| Static.TotalMonotone | src/models/Static.ts:59-62 | totals never decrease with the level |
| Static.BuildExpMappings | src/models/Static.ts:43-62 | the filling loop yields exactly the cost and total tables of levels 1..100 |
| Players.CompletedFrom | src/models/Player.ts:128-135 | a scan resumed at level i ends between i and 100 |
| Players.CompletedFromBrackets | src/models/Player.ts:128-135 | a scan resumed at a reached level stops where e reaches that level's total and misses the next one |
| Players.Completed | src/models/Player.ts:128-135 | at most 100 levels are completed |
| Players.CompletedBrackets | src/models/Player.ts:128-135 | Completed(e) levels are reached and level Completed(e) + 1 is not (or the table ends) |
| Players.ThresholdsOrder | src/models/Player.ts:129 | a reached level is never above a level whose next threshold is missed |
| Players.CompletedUnique | src/models/Player.ts:128-135 | any level that the thresholds bracket around e equals Completed(e) |
| Players.ScanStop | src/models/Player.ts:128-135 | where the scan stops fixes the completed levels, the new level and the in-level experience |
| Players.CompletedMonotone | src/models/Player.ts:142-145 | more experience never completes fewer levels |
| Players.ExpInLevelBounds | src/models/Player.ts:126-136 | inside the table, 0 <= in-level experience < cost of the next level; below 10 the level stays as it was |
| Players.LevelCapBeyondTable | src/models/Player.ts:126-136 | at or past the last total the level is 101 and the in-level experience is exp minus that total |
| Players.LevelFor | src/models/Player.ts:126-136 | the level `updateLevel` leaves: one past the completed levels, or the old level when none is completed; no contract of its own, `ScanStop`, `ExpInLevelBounds` and `LevelCapBeyondTable` state its properties |
| Players.ExpInLevel | src/models/Player.ts:127-131 | the `expCurrentLevel` that `updateLevel` leaves: exp minus the total of the completed levels; no contract of its own, `ExpInLevelBounds` bounds it |
| Players.LevelFromFirst | src/models/Player.ts:126-136 | recomputed from level 1, the level is one past the completed levels |
| Players.FirstLevelCompleted | src/models/Player.ts:126-136 | experience 10 gives level 2 with 0 in level; 13 gives level 2 with 3 in level |
| Players.ApplyCurrency | src/models/Player.ts:102-113 | accepted exactly for a known code with a non-negative new balance; then only that balance changes, by the amount |
| Players.ApplyCurrencyKeepsNonNegative | src/models/Player.ts:107-111 | an accepted update keeps every balance non-negative |
| Players.ApplyCurrencyUndo | src/models/Player.ts:107-111 | an accepted update followed by the opposite amount restores the balances |
| Players.Player.constructor | src/models/Player.ts:26-43 | ids, tag and role as given (Member by default), level 1, exp 0, no task, silver coin and royal point at 0 |
| Players.Player.HasTask | src/models/Player.ts:49-51 | whether the task slot is held; no contract of its own, `AcceptTask`'s contract uses it |
| Players.Player.AcceptTask | src/models/Player.ts:49-64 | accepted exactly when no task is held; a held task is kept; afterwards a task is held |
| Players.Player.UpdateLevel | src/models/Player.ts:126-136 | the scan sets the level to LevelFor(old level, exp) and the in-level experience to exp minus the completed total |
| Players.Player.UpdateExp | src/models/Player.ts:142-145 | exp grows by the delta and the level is recomputed; a non-negative delta keeps the level consistent |
| Players.Player.UpdateCurrency | src/models/Player.ts:102-113 | true exactly for a known code whose balance stays non-negative; on false nothing changes |
| Players.Player.UpdateRole | src/models/Player.ts:119-121 | the role becomes the given one, unchecked |
| Players.Player.ReturnAttributeToStore | src/models/Player.ts:82-94 | the level is brought up to date and the record carries every attribute |
| Players.Player.UpdateAttributeFromStore | src/models/Player.ts:70-76 | role, exp, task and currencies come from the record; the level is recomputed, not read |
| Players.StoreRoundTrip | src/models/Player.ts:70-94 | a new player created with the same ids and tag and loaded from the saved record gets back the role, exp, in-level experience, task and currencies; the level too when it was consistent with exp; the new player is consistent |
| Players.SilverCoinScenario | src/models/Player.ts:102-113 | on a new player: -5 rejected, +5 and -5 accepted, ending at 0 |
| Players.RoyalPointScenario | src/models/Player.ts:102-113 | +100 accepted, -150 and an unknown code rejected with no change |
| Players.LevelingScenario | src/models/Player.ts:142-145 | a new player gaining 10 reaches level 2 with 0 in level; 3 more make 3 in level |
| Players.TaskScenario | src/models/Player.ts:58-64 | a second acceptance fails and the first task stays |
| Counters.LoadTime | src/models/Counters.ts:120 | a missing or zero stored time loads as null, any other as that time |
| Counters.StoreTime | src/models/Counters.ts:133 | null is saved as missing and a time as a date object, never a bare number |
| Counters.LoadStoreTime | src/models/Counters.ts:120-133 | loading a saved time gives it back, the epoch included |
| Counters.StoreTimeInjective | src/models/Counters.ts:133 | distinct times are saved differently |
| Counters.EpochAsNumberIsLost | src/models/Counters.ts:120 | the epoch stored as a number loads as null, as a date object it survives |
| Counters.UserDailyCounter.constructor | src/models/Counters.ts:17-24 | no ids, both tallies 0, reset time now |
| Counters.UserDailyCounter.SetDcId | src/models/Counters.ts:30-32 | only the id changes |
| Counters.UserDailyCounter.SetDcTag | src/models/Counters.ts:38-40 | only the tag changes |
| Counters.UserDailyCounter.ResetDaily | src/models/Counters.ts:45-48 | reset time now and both tallies 0, whatever came before |
| Counters.UserDailyCounter.IncrementTextChatCounter | src/models/Counters.ts:54-56 | only the text tally changes, by the amount |
| Counters.UserDailyCounter.IncrementVoiceChatCounter | src/models/Counters.ts:62-64 | only the voice tally changes, by the amount |
| Counters.UserDailyCounter.DecrementTextChatCounter | src/models/Counters.ts:69-71 | the text tally drops by exactly one, with no floor |
| Counters.UserDailyCounter.ResetTextChatCounter | src/models/Counters.ts:76-78 | only the text tally changes, to 0 |
| Counters.UserDailyCounter.ResetVoiceChatCounter | src/models/Counters.ts:83-85 | only the voice tally changes, to 0 |
| Counters.UserDailyCounter.ResetAllCounters | src/models/Counters.ts:90-93 | both tallies 0; ids and reset time untouched |
| Counters.UserDailyCounter.GetTextChatDailyCounter | src/models/Counters.ts:99-101 | the text tally; no contract of its own, `DailyScenario` reads it |
| Counters.UserDailyCounter.GetVoiceChatDailyCounter | src/models/Counters.ts:107-109 | the voice tally; no contract of its own, `DailyScenario` reads it |
| Counters.UserDailyCounter.UpdateAttributeFromStore | src/models/Counters.ts:115-121 | every attribute comes from the record, the reset time by the falsy-to-null rule |
| Counters.UserDailyCounter.ReturnAttributeToStore | src/models/Counters.ts:127-135 | the record carries every attribute, the reset time as the date object itself (or missing), and nothing changes |
| Counters.CounterStoreRoundTrip | src/models/Counters.ts:115-135 | save then load into a new counter restores ids, both tallies and the reset time |
| Counters.ResetDailyTwice | src/models/Counters.ts:45-48 | a second reset leaves both tallies at 0 and moves only the reset time |
| Counters.IncrementThenDecrement | src/models/Counters.ts:54-71 | counting a text message and withdrawing it restores the tallies and the reset time |
| Counters.DailyScenario | src/models/Counters.ts:45-109 | 10 + 5 - 1 text and 30 voice are read back, and the next reset brings both back to 0 and moves the reset time |
| ProfileText.TrimText | python/profile_image.py:46-54 | fitting text is unchanged; otherwise a prefix plus "...", one character shorter exactly when the kept part is longer than one character and ends non-ASCII |
| ProfileText.TrimTextLength | python/profile_image.py:47-53 | for a limit n >= 0: at most n + 3 characters; `text[:n] + "..."` or `text[:n-1] + "..."`; starts with `text[:n-1]` when n >= 1 |
| ProfileText.TrimTextAsciiIdempotent | python/profile_image.py:46-54 | for ASCII text and a limit of at least 1, trimming twice equals trimming once |
| ProfileText.TrimTextTwiceOnWideText | python/profile_image.py:46-54 | a 13-character Chinese name is cut to 11 characters plus "..."; trimming again adds a fourth dot |
| ProfileText.FindRankName | python/profile_image.py:36-42 | the result is the default name or the name of an entry covering the level |
| ProfileText.FindRankNameFirstMatch | python/profile_image.py:38-41 | the first entry in table order that covers the level names it |
| ProfileText.FindRankNameDefault | python/profile_image.py:42 | with no covering entry the name is the default one |
| ProfileText.FindRankNameDisjoint | python/profile_image.py:38-41 | with disjoint ranges any covering entry names the level, whatever the order |
| ProfileText.RankTableExample | python/profile_image.py:36-42 | a two-entry table holding ranges 1-4 and 5-9: level 5 takes the second name; level 0 takes the default |

## Left out

- `QuestExpRewardCoefficient` (src/models/Static.ts:30-37): floating-point
  coefficients that the modelled code does not use.
- The cost step uses the exact integer ceiling `(13c + 9) div 10`. The
  source uses the double product `Math.ceil(c * 1.3)`. Floating-point
  rounding is not modelled. All table values stay far below 2^53.
- The tables are returned by `BuildExpMappings`. `UpdateLevel` reads the
  matching `Cost` / `Total` functions rather than module-level dictionaries.
  `BuildExpMappings` is proved equal to those functions, so the values are
  the same.
- Experience, amounts and counters are integers. JavaScript numbers may be
  fractional; that is not modelled.
- The `currencies` object is shared by reference between a player and its
  store record (src/models/Player.ts:75, 92). The model copies it as a value
  `map`, so later mutation through the record is not modelled.
- The store's untyped attribute maps are typed records (`PlayerRecord`,
  `CounterRecord`). Missing or mistyped attributes are not modelled.
- `new Date()` (src/models/Counters.ts:46) is the `now` parameter. A time is
  an integer count of milliseconds.
- Date parsing of a stored string (src/models/Counters.ts:120) is not
  modelled. `StoredTime` covers a missing value, a number and a date object,
  and keeps the falsy-to-null rule for them.
- The rank table is a parameter. Reading `rank_names` from the environment
  and JSON (python/profile_image.py:13-14) is not modelled. Splitting each
  key at "-" and converting both parts with `int()` is not modelled either.
  The entries arrive already parsed, so the exception a malformed key
  raises is not modelled.
- The rest of python/profile_image.py is not modelled. That covers avatar
  download, image drawing and fonts. The JavaScript event, command and
  embed files and python/main.py are not part of this model either.
