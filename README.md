# Number-click game: session and progression model

A model of the game logic of the home screen of a number-click game
(`app/index.tsx`). A tier (Easy 10, Medium 20 or Hard 30 tiles, or the
synthetic Daily tier) deals the tiles 1..size in shuffled order. A daily start
made while a tier of another size is selected is the exception: as written
it deals that tier's tiles (see "Findings"). The tiles must be pressed in ascending order while
a clock counts tenths of a second. A three-tick countdown comes before
each session. Winning records four things in this order:

- the best time of the tier, replaced only by a strictly faster time;
- a leaderboard of the five best times;
- three badges, checked after every win;
- for a daily session, a day streak.

The daily challenge is derived from today's date. The date is written as
`"{year}-{month}-{day}"` without padding, hashed, and the hash picks a goal
time and a grid size.

Modules, one file each:

- `Wrappers` (`wrappers.dfy`): the `Option` type for the nullable state.
- `Scores` (`scores.dfy`): the leaderboard update (insertion sort, then the
  first five) and the high-score rule.
- `Badges` (`badges.dfy`): the badge rules and `checkBadges`, as a method
  with a loop-free copy-and-push body. The three stored names ("First Win",
  "Under 10 Seconds", "5 Games Played") are the three values of an
  enumeration.
- `DailyChallenge` (`daily.dfy`): the date key, reading it back, the hash
  loop, the goal and the grid size.
- `Streak` (`streak.dfy`): proleptic Gregorian day numbers, the day gap
  between two keys, and the streak rule.
- `Persisted` (`progress.dfy`): the class `Progress`. It holds the stored
  results: best times, leaderboards, badges, games played, streak and last
  daily date. Its methods are the steps of a win.
- `Session` (`session.dfy`): the class `Game` with the session state. It
  covers the countdown intervals, the clock, pressing, stopping and
  winning. The module also holds worked sessions: a first Easy win, the
  daily start as written and as corrected, and a double tap on the Daily
  button.

Modelling choices:

- **Time.** Time is a natural count of 0.1-second ticks. "under 10 seconds"
  is `ticks < 100`.
- **Storage.** Storage is in-memory fields. Each stored key is a field;
  per-tier keys are maps keyed by the tier label. The constructors model a
  first launch with nothing stored.
- **Shuffle.** The shuffle is a parameter `dealt`. The only requirement is
  that it is a permutation of 1..n (`IsDealOf`).
- **Dates.** The mount date and the win date are parameters. The streak's
  day gap reads the stored key back as a date and counts days in the
  proleptic Gregorian calendar.
- **Countdown intervals.** Each call of `startCountdown` starts its own
  1-second interval. The interval has its own counter, and its closure holds
  the `actuallyStartGame` of the render that started it, which deals
  that render's tier size. `Game.pending` lists the intervals not
  yet cleared, each as a counter and the size it will deal. `CountdownTick(k, …)`
  is one tick of interval `k`; ticks of different intervals may come in any
  order. An interval that reaches 0 deals its tiles over whatever board is
  there. `stopGame` clears only the clock, so it leaves intervals running.
- **What the overlay covers.** The countdown overlay (zIndex 10, lines
  977-987) lies over the scroll view, with the tiles, Start and Stop, and
  over the difficulty row. The navigation bar with the Daily button
  (zIndex 20, lines 518-605 and 997-1008) is above it. So:
  - Stop is offered only while the timer runs and no overlay is up;
  - Start and the difficulty row are offered only while the timer is off
    and no overlay is up;
  - the Daily button can be tapped at any time, and each tap starts one
    more interval (`Session.DoubleDailyTap`, with the Daily tier already
    selected).

  The press handler's own guards stay as code paths that return `Ignored`:
  the timer check, and the tile callback's countdown check (line 657). A
  press is always of a tile on the board (`num in numbers`), because only
  those tiles are rendered.
- **`isDaily` never goes back to false.** The source never clears it, and
  the model keeps that: once a daily session has started, every later win
  runs the streak block.
- **Bound on `currentNumber`.** The bound `1 <= currentNumber <= size + 1`
  does not survive a tier change. After a Medium win `currentNumber` is 21,
  and picking Easy leaves it at 21. A board dealt by a stale interval
  keeps that bound but breaks `|numbers| == size`. The invariant kept
  instead has three parts:
  - `1 <= currentNumber <= |numbers| + 1`;
  - while the timer runs, the board is a permutation of 1..|numbers|;
  - while a session runs and no countdown is up, `currentNumber` is at
    most the tier size.
- **`won` history.** Each tier keeps a ghost multiset of every time it was
  won. The invariant says the best time is the head of the leaderboard and
  no won time beats it.

## Model

| member | source | states |
|---|---|---|
| Session.Deal | app/index.tsx:234 | the list handed to the shuffle has length n and holds exactly 1..n |
| Session.IsDealOf | app/index.tsx:234-235 | a shuffled deal of n has length n and holds exactly the tiles 1..n |
| Session.DailyTier | app/index.tsx:375 | the Daily tier has today's grid size and a label none of the fixed tiers has, so its results are kept apart |
| Session.Game.constructor | app/index.tsx:40-70 | first mount: no session, no countdown, Medium selected, empty results, and today's goal and grid are those of `ChallengeFor(DateKey(mount))` |
| Session.Game.SelectDifficulty | app/index.tsx:891-903 | between sessions, with no overlay up, the tier becomes the chosen one and the invariant holds |
| Session.Game.StartCountdown | app/index.tsx:215-229 | the overlay shows 3 and one more interval, with counter 3 and its render's tier size, joins those already running |
| Session.Game.StartGame | app/index.tsx:242-244 | from an idle screen, a countdown that deals the selected tier |
| Session.Game.StartDaily | app/index.tsx:373-377 | accepted at any time: marks the session daily, switches to the Daily tier of today's grid, and adds a countdown that deals that grid |
| Session.Game.StartDailyAsWritten | app/index.tsx:373-377 | as written: the same switch, but the countdown added deals the tier size in force when the button was tapped |
| Session.Game.CountdownTick | app/index.tsx:219-229 | one tick of interval k: above 0 its counter drops and the overlay shows it, the session untouched; at 0 it is removed, the overlay closes, and its size is dealt as a new session over any running one |
| Session.Game.ActuallyStartGame | app/index.tsx:233-239 | tiles are the dealt permutation of the closure's size, expected number 1, clock 0 and running |
| Session.Game.ClockTick | app/index.tsx:111-128 | the clock advances by one tick exactly while the timer is active |
| Session.Game.Stop | app/index.tsx:247-259 | timer off, tiles empty, expected number 1, clock 0, aborted, no last time; stored results and countdown intervals untouched |
| Session.Game.Press | app/index.tsx:380-429 | ignored without a running session; a wrong number changes nothing; the right one raises the expected number by exactly 1 (also on the winning press) and leaves the board, clock, tier, countdown display and intervals as they were; on the tier-size tile the win is recorded as in `RecordWin`; a board without that tile is never won |
| Session.Game.GoHome | app/index.tsx:794-798 | the summary's Home button clears the aborted mark and keeps the invariant |
| Session.Game.RecordWin | app/index.tsx:386-423 | timer off, last time = elapsed, not aborted; best time, leaderboard, badges and (daily only) streak updated as their own functions say; the stored results stay consistent |
| Session.RunCountdown | app/index.tsx:219-239 | the three ticks of a lone countdown deal its tiles and start the session |
| Session.StartFreshEasy | app/index.tsx:215-244 | fresh install, Easy, three countdown ticks: a running session on the dealt tiles with nothing stored |
| Session.PressInOrder | app/index.tsx:380-428 | pressing 1..upTo-1 in order reaches tile `upTo`, keeps the board and stores nothing |
| Session.FirstEasySession | app/index.tsx:380-429 | a first Easy session won in 0 ticks: new best 0, leaderboard [0], one game, First Win then Under 10 Seconds |
| Session.StaleDailySession | app/index.tsx:215-239 | as written, the daily start from a smaller tier deals that tier's tiles; once they are pressed every tile is a wrong press, the session is never won and nothing is stored |
| Session.OversizedDailySession | app/index.tsx:215-239 | as written, the daily start from a larger tier deals its tiles; the win comes at the grid-size tile with the higher tiles still on the board |
| Session.CorrectedDailySession | app/index.tsx:373-377 | corrected, the daily start deals exactly today's grid from any tier and pressing it in order wins |
| Session.DailyTappedTwice | app/index.tsx:215-229 | with the Daily tier selected, two Daily taps as written start two intervals dealing today's grid; when the first ends the session runs while the second has one tick left |
| Session.DoubleDailyTap | app/index.tsx:215-239 | a tile pressed before the second interval ends is lost: the board is dealt again and the expected number is back at 1 |
| Persisted.Progress.constructor | app/index.tsx:45-66 | the defaults of lines 45, 48, 57, 59 and 65-66, nothing stored: no best times, no leaderboards, no badges, 0 games, no streak |
| Persisted.Progress.UpdateHighScore | app/index.tsx:392-399 | the best of the tier becomes the time exactly when there was none or the time is strictly smaller; the flag says which |
| Persisted.Progress.UpdateLeaderboard | app/index.tsx:167-174 | only the list of the given tier changes, to `Record(old list, time)` |
| Persisted.Progress.SaveTime | app/index.tsx:392-408 | best time then leaderboard updated, and every tier's best, board and winning times stay consistent |
| Persisted.Progress.CheckBadges | app/index.tsx:309-339 | games played +1, badges = old + the newly qualifying ones, no duplicates, First Win held exactly when the count is at least 1 and 5 Games Played exactly when it is at least 5 |
| Persisted.Progress.CreditStreak | app/index.tsx:410-422 | the streak and last daily date become `Credit` of the old ones; a streak is counted exactly when a last daily date is stored |
| Persisted.Progress.Win | app/index.tsx:392-423 | the three updates in source order, the streak only for a daily session |
| Persisted.RecordKeepsInvariant | app/index.tsx:392-399 | after a win of t the board is ascending, at most five long, headed by the improved best, and no time won beats that best |
| Persisted.BoardsStep | app/index.tsx:167-174 | a win on one tier keeps best/board/history consistent on every tier |
| Persisted.BadgesStep | app/index.tsx:317-331 | a win keeps the badge list free of duplicates and consistent with the games-played count |
| Scores.Insert | app/index.tsx:170 | inserting into an ascending list gives an ascending permutation of the list plus the element |
| Scores.Sort | app/index.tsx:170 | `sort((a, b) => a - b)` gives an ascending permutation of its input |
| Scores.Record | app/index.tsx:170 | the new leaderboard has length min(old+1, 5), is ascending, and is a sub-multiset of old + [t] |
| Scores.RecordShape | app/index.tsx:170 | while the old board had fewer than 5 times, nothing is dropped: the new board holds all of old + [t] |
| Scores.RecordKeepsFastest | app/index.tsx:170 | every time dropped from the leaderboard is at least every time kept |
| Scores.RecordHead | app/index.tsx:170 | on an ascending board the new head is min(old head, t), or t on an empty board |
| Scores.ImprovedBest | app/index.tsx:392-399 | the new best is t when there was no best or t is strictly smaller, else the old best: min(old, t) |
| Badges.Unlocks | app/index.tsx:321-331 | at most the three badges, appended in the order the rules are checked |
| Badges.UnlocksShape | app/index.tsx:321-331 | a badge is appended exactly when it qualifies and is not held |
| Badges.AppendUnlocks | app/index.tsx:318-331 | appending keeps the old list as a prefix, adds exactly the qualifying badges, and never duplicates one |
| Badges.Evaluate | app/index.tsx:317-339 | games played +1 on every call, badges only appended, membership iff held or qualifying, no duplicates introduced, `unlocked` iff something was appended |
| DailyChallenge.Digits | app/index.tsx:344 | the decimal form of n is a numeral without a leading zero that reads back as n |
| DailyChallenge.DateKey | app/index.tsx:342-345 | the key splits at '-' into exactly the unpadded year, one-based month and day |
| DailyChallenge.DateKeyRoundTrip | app/index.tsx:342-345 | the key of a date reads back as that date |
| DailyChallenge.DateKeyInjective | app/index.tsx:342-345 | two dates have the same key iff they are equal |
| DailyChallenge.HashOf | app/index.tsx:357 | the fold `(h * 31 + c) % 100000` stays in 0..99999 |
| DailyChallenge.DailyHash | app/index.tsx:356-357 | the loop computes `HashOf(key)`, below 100000 |
| DailyChallenge.Goal | app/index.tsx:358 | the goal is in 12..20 seconds |
| DailyChallenge.Grid | app/index.tsx:359 | the grid size is in 15..30 |
| DailyChallenge.ChallengeFor | app/index.tsx:353-359 | the challenge is a function of the key alone, with goal and grid in range |
| Streak.NextDay | app/index.tsx:414-417 | the following calendar date is valid and its day number is one more |
| Streak.DayNumberInjective | app/index.tsx:414-416 | distinct valid dates have distinct day numbers, so a gap of 0 days means the same date |
| Streak.NextDayUnique | app/index.tsx:414-417 | a valid date one day number after `d` is `NextDay(d)`: a gap of exactly 1 means the next calendar day |
| Streak.GapBetweenKeys | app/index.tsx:414-416 | the gap read from two keys is the difference of their dates' day numbers |
| Streak.Credit | app/index.tsx:410-421 | no change when today is already credited; otherwise the last date becomes today and the streak is between 1 and old + 1 |
| Streak.CreditIdempotent | app/index.tsx:411 | crediting the same day twice is crediting it once |
| Streak.CreditNextDay | app/index.tsx:413-417 | a win on the day after the last credited day gives old + 1 |
| Streak.CreditAfterGap | app/index.tsx:413-417 | a win on any other valid day (neither the last credited day nor the day after it) restarts at 1 |
| Streak.CreditFirst | app/index.tsx:418-419 | the first daily win ever starts a streak of 1 |
| Streak.StreakContinues | app/index.tsx:409-422 | a streak of 3 last credited on 2024-1-1 becomes 4 on 2024-1-2 |
| Streak.StreakRestarts | app/index.tsx:409-422 | a streak of 3 last credited on 2024-1-1 becomes 1 on 2024-1-4 |

## Left out

- Device storage I/O is left out: the `AsyncStorage` reads and writes, their load effects at mount and on a tier change, and the races between them. JSON and number formatting (`toFixed(1)`, `parseFloat`) are left out too. Stored values are typed fields, and a first launch starts empty.
- `Persisted.Progress.CheckBadges`: the source writes the badge list to storage only when something was unlocked. The in-memory result is the same either way, so only the `unlocked` flag of `Badges.Evaluate` records the difference.
- `handleNumberPress` awaits between reading and writing state. Two presses landing in one await window (a double tap on a tile) can both see the same `currentNumber`. The model treats each press as atomic.
- The timing of the intervals is left out. `setInterval` fires every second or every 100 ms; the model lets the ticks of different countdown intervals come in any order. It also treats the clock as a whole count of ticks (`prev + 0.1` in floating point), so float drift, which could make 100 ticks compare as below 10, is not modelled.
- JavaScript `Date` parsing of the unpadded key and the millisecond difference are left out. The gap is a whole number of proleptic Gregorian days, with no daylight-saving effects. Keys that do not read as dates give no gap, as NaN does in the source.
- `charCodeAt` returns UTF-16 code units. The model uses Dafny's character codes, which agree for the ASCII digits and `-` that a date key consists of.
- Audio, haptics, animations, confetti, the summary modal (apart from its Home button clearing `aborted`, `Session.Game.GoHome`), the navigation of that button, sharing, clipboard and file export are foreign effects. A press reports `Wrong`, `Advanced` or `Won(newBest)` instead of playing feedback.
- Rendering, styles, grid width and chaos-mode shapes are presentation only. The stacking order of the overlay and the navigation bar is read off the styles to decide which buttons a countdown covers.
- Settings (button colour, nickname, chaos mode), the theme toggle in the navigation bar, and the random fun fact (`getRandomFact`) have no game logic.
- `hooks/useColorScheme.ts` is UI theme state, and `utils/shuffle.ts` is not part of this model. Its only assumed contract is that it returns a permutation.

## Findings

| source | as written | input that shows it | evidently intended | confidence | as-written member | corrected member |
|---|---|---|---|---|---|---|
| app/index.tsx:373-377 | `startDailyChallenge` queues the switch to the Daily tier and then calls `startCountdown` from the same render. That render's interval later runs its own `actuallyStartGame`, which still sees the tier selected before the tap (lines 219-234). So every daily start made while a tier of another size is selected is dealt 1..(that size), while the win check waits for tile `dailyGrid` | Medium selected, today's grid 25: tiles 1..20 are dealt, and once they are pressed every tile is wrong, so the session is never won. Hard selected, today's grid 25: tiles 1..30 are dealt and the win comes at tile 25, with 26..30 left unpressed | the daily session is dealt 1..`dailyGrid` | not executed | Session.Game.StartDailyAsWritten, Session.StaleDailySession, Session.OversizedDailySession | Session.Game.StartDaily, Session.CorrectedDailySession |
