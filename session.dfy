/**
 * The session state machine of the home screen (app/index.tsx:40-70,
 * 111-128, 215-259, 372-429): a three-tick countdown, an active session in
 * which the tiles must be pressed in ascending order while a 0.1-second
 * clock runs, and on the winning press the high score, the leaderboard, the
 * badges and (for a daily session) the streak are updated in that order.
 */
module Session {
  import opened Wrappers
  import opened Scores
  import opened Badges
  import opened DailyChallenge
  import opened Streak
  import opened Persisted

  /** A difficulty tier: its label keys the high score and the leaderboard, its size is the number of tiles. */
  datatype Tier = Tier(name: string, size: nat)

  const Easy: Tier := Tier("Easy", 10)
  const Medium: Tier := Tier("Medium", 20)
  const Hard: Tier := Tier("Hard", 30)

  /** `DIFFICULTIES` (app/index.tsx:17-21). */
  const Difficulties: seq<Tier> := [Easy, Medium, Hard]

  /** The synthetic tier of a daily session (app/index.tsx:375); its label is none of the fixed tiers', so daily results are kept apart. */
  function DailyTier(grid: nat): (t: Tier)
    ensures t.size == grid
    ensures forall d :: d in Difficulties ==> d.name != t.name
  {
    Tier("Daily", grid)
  }

  /** The list handed to the shuffle: `Array.from({length: n}, (_, i) => i + 1)` (app/index.tsx:234). */
  function Deal(n: nat): (r: seq<int>)
    ensures |r| == n
    ensures forall k :: k in r <==> 1 <= k <= n
  {
    var r := seq(n, i => i + 1);
    forall k | 1 <= k <= n ensures k in r {
      assert r[k - 1] == k;
    }
    r
  }

  /** `dealt` is a permutation of the numbers 1..n: the only promise made of the shuffle. */
  predicate IsDealOf(dealt: seq<int>, n: nat): (b: bool)
    ensures b ==> |dealt| == n
    ensures b ==> forall k :: k in dealt <==> 1 <= k <= n
  {
    var b := multiset(dealt) == multiset(Deal(n));
    if b then
      assert |dealt| == |multiset(dealt)| == |multiset(Deal(n))| == n;
      forall k ensures k in dealt <==> 1 <= k <= n {
        assert k in dealt <==> k in multiset(dealt);
        assert k in Deal(n) <==> k in multiset(Deal(n));
      }
      b
    else b
  }

  /** Ticks of the start countdown (app/index.tsx:216-218). */
  const CountdownStart: nat := 3

  /**
   * One running countdown interval (app/index.tsx:219-229): its own counter
   * and the number of tiles the `actuallyStartGame` it closes over deals,
   * which is the tier size of the render that called `startCountdown`.
   */
  datatype Countdown = Countdown(count: nat, dealSize: nat)

  /** What a press did: nothing, a wrong tile, the next tile, or the winning tile (with whether it set a new best). */
  datatype PressOutcome = Ignored | Wrong | Advanced | Won(newBest: bool)

  class Game {
    // session state
    var numbers: seq<int>
    var currentNumber: int
    var elapsed: nat              // 0.1-second ticks
    var timerActive: bool
    var tier: Tier
    var lastGameTime: Option<nat>
    var aborted: bool
    var isCountingDown: bool
    var countdown: Option<nat>    // the number the overlay shows
    var pending: seq<Countdown>   // countdown intervals not yet cleared, oldest first
    var isDaily: bool
    // today's challenge, computed when the screen mounts
    const dailyGoal: nat
    const dailyGrid: nat
    // the stored results
    const progress: Progress

    ghost predicate Valid()
      reads this, progress
    {
      ValidTiles() && ValidCountdown() && ValidRest()
    }

    /**
     * The tiles on the board are a shuffled 1..n while the timer runs, and
     * the expected number is one of them or one past the last; while a
     * session runs and no countdown is up it is at most the tier size.
     */
    ghost predicate ValidTiles()
      reads this`currentNumber, this`numbers, this`timerActive, this`isCountingDown, this`tier
    {
      && 1 <= currentNumber <= |numbers| + 1
      && (timerActive ==> IsDealOf(numbers, |numbers|))
      && (timerActive && !isCountingDown ==> currentNumber <= tier.size)
    }

    /** While the overlay is up some interval is still running, and every interval's counter is in 1..3. */
    ghost predicate ValidCountdown()
      reads this`isCountingDown, this`countdown, this`pending
    {
      && (isCountingDown ==> |pending| >= 1 && countdown.Some?)
      && forall i :: 0 <= i < |pending| ==> 1 <= pending[i].count <= CountdownStart
    }

    ghost predicate ValidRest()
      reads this`tier, this`aborted, this`lastGameTime, progress
    {
      && (tier in Difficulties || tier == DailyTier(dailyGrid))
      && (aborted ==> lastGameTime.None?)
      && 12 <= dailyGoal <= 20 && 15 <= dailyGrid <= 30
      && progress.Valid()
    }

    /** The best time of the current tier (`highScore`), None when there is none yet. */
    function HighScore(): Option<nat>
      reads this`tier, progress
    {
      BestOf(progress.highScores, tier.name)
    }

    /** The leaderboard of the current tier (`leaderboard`). */
    function Leaderboard(): seq<nat>
      reads this`tier, progress
    {
      BoardOf(progress.leaderboards, tier.name)
    }

    /**
     * The screen as first mounted with nothing stored yet: Medium selected,
     * no session, no countdown, and today's challenge derived from the date
     * of `mount` (app/index.tsx:40-70, 347-362).
     */
    constructor (mount: CalendarDate)
      ensures Valid() && fresh(progress)
      ensures numbers == [] && currentNumber == 1 && elapsed == 0 && !timerActive && tier == Medium
      ensures lastGameTime == None && !aborted && !isCountingDown && countdown == None && pending == [] && !isDaily
      ensures progress.highScores == map[] && progress.leaderboards == map[]
      ensures progress.badges == [] && progress.gamesPlayed == 0
      ensures progress.dailyStreak == 0 && progress.lastDailyDate == None
      ensures (dailyGoal, dailyGrid) == (ChallengeFor(DateKey(mount)).goalSeconds, ChallengeFor(DateKey(mount)).gridSize)
    {
      var hash := DailyHash(DateKey(mount));
      numbers, currentNumber, elapsed, timerActive, tier := [], 1, 0, false, Medium;
      lastGameTime, aborted, isCountingDown, countdown, pending, isDaily := None, false, false, None, [], false;
      dailyGoal, dailyGrid := Goal(hash), Grid(hash);
      progress := new Progress();
    }

    /**
     * Picking a difficulty (app/index.tsx:891-903). The row is shown only
     * while no session runs, and the countdown overlay (zIndex 10, lines
     * 977-987) lies over it.
     */
    method SelectDifficulty(t: Tier)
      requires Valid() && t in Difficulties && !timerActive && !isCountingDown
      modifies this`tier
      ensures Valid() && tier == t
    {
      tier := t;
    }

    /**
     * `startCountdown` of a render whose tier size is `size`
     * (app/index.tsx:215-229): the overlay shows 3 and a new interval with
     * its own counter at 3 starts; intervals already running go on.
     */
    method StartCountdown(size: nat)
      requires ValidRest() && ValidCountdown()
      requires 1 <= currentNumber <= |numbers| + 1 && (timerActive ==> IsDealOf(numbers, |numbers|))
      modifies this`isCountingDown, this`countdown, this`pending
      ensures Valid() && isCountingDown && countdown == Some(CountdownStart)
      ensures pending == old(pending) + [Countdown(CountdownStart, size)]
    {
      countdown := Some(CountdownStart);
      isCountingDown := true;
      pending := pending + [Countdown(CountdownStart, size)];
    }

    /**
     * `startGame` (app/index.tsx:242-244): a countdown dealing the selected
     * tier. The start button is shown only while no session runs and lies
     * under the countdown overlay (lines 681-686).
     */
    method StartGame()
      requires Valid() && !timerActive && !isCountingDown
      modifies this`isCountingDown, this`countdown, this`pending
      ensures Valid() && isCountingDown && countdown == Some(CountdownStart)
      ensures pending == old(pending) + [Countdown(CountdownStart, tier.size)]
    {
      StartCountdown(tier.size);
    }

    /**
     * `startDailyChallenge` (app/index.tsx:373-377) as evidently intended:
     * marks the session daily, switches to the Daily tier of today's grid
     * size and starts a countdown that deals that grid. Its button sits in
     * the navigation bar (zIndex 20, lines 997-1008) above the countdown
     * overlay, so it can be tapped at any time, also during a countdown or
     * a running session.
     */
    method StartDaily()
      requires Valid()
      modifies this`isDaily, this`tier, this`isCountingDown, this`countdown, this`pending
      ensures Valid() && isDaily && tier == DailyTier(dailyGrid)
      ensures isCountingDown && countdown == Some(CountdownStart)
      ensures pending == old(pending) + [Countdown(CountdownStart, dailyGrid)]
    {
      isDaily := true;
      tier := DailyTier(dailyGrid);
      StartCountdown(dailyGrid);
    }

    /**
     * `startDailyChallenge` as written (app/index.tsx:373-377): the tier
     * switch takes effect at the next render, but the countdown is started
     * from the current one, so its interval deals the tier size in force
     * when the button was tapped.
     */
    method StartDailyAsWritten()
      requires Valid()
      modifies this`isDaily, this`tier, this`isCountingDown, this`countdown, this`pending
      ensures Valid() && isDaily && tier == DailyTier(dailyGrid)
      ensures isCountingDown && countdown == Some(CountdownStart)
      ensures pending == old(pending) + [Countdown(CountdownStart, old(tier.size))]
    {
      var size := tier.size;
      isDaily := true;
      tier := DailyTier(dailyGrid);
      StartCountdown(size);
    }

    /**
     * `actuallyStartGame` of a render whose tier size is `size`
     * (app/index.tsx:233-239): tiles `dealt`, the shuffled 1..size, next
     * expected number 1, clock at 0 and running.
     */
    method ActuallyStartGame(size: nat, dealt: seq<int>)
      requires ValidRest() && ValidCountdown() && !isCountingDown && IsDealOf(dealt, size)
      modifies this`numbers, this`currentNumber, this`elapsed, this`timerActive
      ensures Valid()
      ensures numbers == dealt && currentNumber == 1 && elapsed == 0 && timerActive
    {
      numbers := dealt;
      currentNumber := 1;
      elapsed := 0;
      timerActive := true;
    }

    /**
     * One 1-second tick of the interval `pending[k]` (app/index.tsx:219-229):
     * its counter drops; above 0 the overlay shows it, at 0 the interval is
     * cleared, the overlay closes and its `actuallyStartGame` deals the
     * shuffled tiles `dealt`, over any session already running.
     */
    method CountdownTick(k: nat, dealt: seq<int>)
      requires Valid() && k < |pending|
      requires pending[k].count == 1 ==> IsDealOf(dealt, pending[k].dealSize)
      modifies this`pending, this`countdown, this`isCountingDown,
               this`numbers, this`currentNumber, this`elapsed, this`timerActive
      ensures Valid()
      ensures old(pending[k].count) > 1 ==>
                && pending == old(pending)[k := Countdown(old(pending[k].count) - 1, old(pending[k].dealSize))]
                && countdown == Some(old(pending[k].count) - 1) && isCountingDown == old(isCountingDown)
                && numbers == old(numbers) && currentNumber == old(currentNumber)
                && elapsed == old(elapsed) && timerActive == old(timerActive)
      ensures old(pending[k].count) == 1 ==>
                && pending == old(pending[..k] + pending[k + 1..])
                && !isCountingDown && countdown == None
                && numbers == dealt && currentNumber == 1 && elapsed == 0 && timerActive
    {
      var c := pending[k];
      if c.count > 1 {
        pending := pending[k := Countdown(c.count - 1, c.dealSize)];
        countdown := Some(c.count - 1);
      } else {
        assert forall i :: 0 <= i < |pending| - 1 ==>
          (pending[..k] + pending[k + 1..])[i] == (if i < k then pending[i] else pending[i + 1]);
        pending := pending[..k] + pending[k + 1..];
        countdown := None;
        isCountingDown := false;
        ActuallyStartGame(c.dealSize, dealt);
      }
    }

    /** One 100 ms tick of the clock, which runs only while the timer is active (app/index.tsx:111-128). */
    method ClockTick()
      requires Valid()
      modifies this`elapsed
      ensures Valid()
      ensures elapsed == if timerActive then old(elapsed) + 1 else old(elapsed)
    {
      if timerActive {
        elapsed := elapsed + 1;
      }
    }

    /**
     * `stopGame` (app/index.tsx:247-259): the session is aborted and wiped;
     * results, badges, streak and countdown intervals are untouched. The
     * stop button is shown only while the timer runs.
     */
    method Stop()
      requires Valid() && timerActive && !isCountingDown
      modifies this`timerActive, this`numbers, this`currentNumber, this`elapsed,
               this`aborted, this`lastGameTime
      ensures Valid()
      ensures !timerActive && numbers == [] && currentNumber == 1 && elapsed == 0
      ensures aborted && lastGameTime == None
    {
      timerActive := false;
      numbers := [];
      currentNumber := 1;
      elapsed := 0;
      aborted := true;
      lastGameTime := None;
    }

    /**
     * The Home button of the summary modal (app/index.tsx:794-798), shown
     * after a stop or a win: the aborted mark is cleared; the rest of the
     * screen is as the session left it.
     */
    method GoHome()
      requires Valid()
      modifies this`aborted
      ensures Valid() && !aborted
    {
      aborted := false;
    }

    /**
     * The winning branch of `handleNumberPress` (app/index.tsx:386-423):
     * the clock stops and the time is kept, then the high score, the
     * leaderboard, the badges and, for a daily session, the streak are
     * updated in that order.
     */
    method RecordWin(today: CalendarDate) returns (newHighScore: bool)
      requires ValidRest() && timerActive && !isCountingDown && currentNumber == tier.size
      modifies this`timerActive, this`lastGameTime, this`aborted, progress
      ensures ValidRest()
      ensures newHighScore == IsNewBest(old(HighScore()), elapsed)
      ensures !timerActive && lastGameTime == Some(elapsed) && !aborted
      ensures progress.highScores == old(progress.highScores)[tier.name := ImprovedBest(old(HighScore()), elapsed)]
      ensures progress.leaderboards == old(progress.leaderboards)[tier.name := Record(old(Leaderboard()), elapsed)]
      ensures progress.gamesPlayed == old(progress.gamesPlayed) + 1
      ensures progress.badges == old(progress.badges) + Unlocks(old(progress.badges), elapsed, progress.gamesPlayed)
      ensures StreakState(progress.dailyStreak, progress.lastDailyDate)
              == if isDaily then Credit(StreakState(old(progress.dailyStreak), old(progress.lastDailyDate)), DateKey(today))
                 else StreakState(old(progress.dailyStreak), old(progress.lastDailyDate))
    {
      timerActive, lastGameTime, aborted := false, Some(elapsed), false;
      newHighScore := progress.Win(tier.name, elapsed, isDaily, DateKey(today));
    }

    /**
     * `handleNumberPress(num)` for the tile `num` on the board, on the date
     * `today` (app/index.tsx:380-429). Ignored unless the timer runs and no
     * countdown covers the tiles (line 657); a wrong number changes nothing;
     * the right one advances the expected number, and when it is the tier
     * size the session is won and its time recorded. A board without the
     * tier-size tile can therefore never be won.
     */
    method Press(num: int, today: CalendarDate) returns (outcome: PressOutcome)
      requires Valid() && num in numbers
      modifies this, progress
      ensures Valid()
      ensures !old(timerActive) || old(isCountingDown) ==> outcome == Ignored && unchanged(this, progress)
      ensures old(timerActive) && !old(isCountingDown) && num != old(currentNumber) ==>
                outcome == Wrong && unchanged(this, progress)
      ensures old(timerActive) && !old(isCountingDown) && num == old(currentNumber) ==>
                currentNumber == old(currentNumber) + 1 && numbers == old(numbers) && elapsed == old(elapsed)
                && tier == old(tier) && isDaily == old(isDaily) && !isCountingDown && pending == old(pending)
                && countdown == old(countdown)
      ensures old(timerActive) && !old(isCountingDown) && num == old(currentNumber) && num != old(tier.size) ==>
                outcome == Advanced && timerActive && lastGameTime == old(lastGameTime) && aborted == old(aborted)
                && unchanged(progress)
      ensures old(timerActive) && !old(isCountingDown) && num == old(currentNumber) && num == old(tier.size) ==>
                && outcome == Won(IsNewBest(old(HighScore()), old(elapsed)))
                && !timerActive && lastGameTime == Some(old(elapsed)) && !aborted
                && progress.highScores == old(progress.highScores)[old(tier.name) := ImprovedBest(old(HighScore()), old(elapsed))]
                && progress.leaderboards == old(progress.leaderboards)[old(tier.name) := Record(old(Leaderboard()), old(elapsed))]
                && progress.gamesPlayed == old(progress.gamesPlayed) + 1
                && progress.badges == old(progress.badges) + Unlocks(old(progress.badges), old(elapsed), progress.gamesPlayed)
                && (StreakState(progress.dailyStreak, progress.lastDailyDate)
                    == if old(isDaily) then Credit(StreakState(old(progress.dailyStreak), old(progress.lastDailyDate)), DateKey(today))
                       else StreakState(old(progress.dailyStreak), old(progress.lastDailyDate)))
      ensures old(tier.size) !in old(numbers) ==> !outcome.Won?
    {
      if !timerActive || isCountingDown {
        return Ignored;
      }
      if num != currentNumber {
        return Wrong;
      }
      outcome := Advanced;
      if currentNumber == tier.size {
        var newHighScore := RecordWin(today);
        outcome := Won(newHighScore);
      }
      currentNumber := currentNumber + 1;
    }
  }

  /** After a countdown started from an idle screen, its three ticks deal `dealt` and start the session. */
  method RunCountdown(g: Game, dealt: seq<int>)
    requires g.Valid() && !g.timerActive && |g.pending| == 1 && g.pending[0] == Countdown(CountdownStart, |dealt|)
    requires IsDealOf(dealt, |dealt|)
    modifies g`pending, g`countdown, g`isCountingDown, g`numbers, g`currentNumber, g`elapsed, g`timerActive
    ensures g.Valid() && g.timerActive && !g.isCountingDown && g.pending == []
    ensures g.numbers == dealt && g.currentNumber == 1 && g.elapsed == 0
  {
    g.CountdownTick(0, dealt);
    g.CountdownTick(0, dealt);
    g.CountdownTick(0, dealt);
  }

  /** A fresh install with Easy picked, started, and the three countdown ticks passed with the tiles `dealt`. */
  method StartFreshEasy(mount: CalendarDate, dealt: seq<int>) returns (g: Game)
    requires IsDealOf(dealt, Easy.size)
    ensures fresh(g) && fresh(g.progress) && g.Valid()
    ensures g.timerActive && !g.isCountingDown && g.pending == [] && g.numbers == dealt && g.currentNumber == 1
    ensures g.tier == Easy && g.elapsed == 0 && !g.isDaily
    ensures g.progress.highScores == map[] && g.progress.leaderboards == map[]
    ensures g.progress.gamesPlayed == 0 && g.progress.badges == []
  {
    g := new Game(mount);
    g.SelectDifficulty(Easy);
    g.StartGame();
    RunCountdown(g, dealt);
  }

  /** Pressing the tiles 1 to upTo-1 in order advances the session to `upTo` and records nothing. */
  method PressInOrder(g: Game, today: CalendarDate, upTo: int)
    requires g.Valid() && g.timerActive && !g.isCountingDown && g.currentNumber == 1
    requires 1 <= upTo <= g.tier.size && upTo <= |g.numbers| + 1
    modifies g, g.progress
    ensures g.Valid() && g.timerActive && !g.isCountingDown && g.currentNumber == upTo
    ensures g.numbers == old(g.numbers) && g.pending == old(g.pending)
    ensures g.tier == old(g.tier) && g.elapsed == old(g.elapsed) && g.isDaily == old(g.isDaily)
    ensures unchanged(g.progress)
  {
    var k := 1;
    while k < upTo
      invariant 1 <= k <= upTo
      invariant g.Valid() && g.timerActive && !g.isCountingDown && g.currentNumber == k
      invariant g.numbers == old(g.numbers) && g.pending == old(g.pending)
      invariant g.tier == old(g.tier) && g.elapsed == old(g.elapsed) && g.isDaily == old(g.isDaily)
      invariant unchanged(g.progress)
    {
      var _ := g.Press(k, today);
      k := k + 1;
    }
  }

  /**
   * A first Easy session on a fresh install, with the tiles 1 to 10 pressed
   * in order before the clock ticks once. The session is won in 0 ticks,
   * which becomes Easy's best time and first leaderboard entry, and earns
   * "First Win" and "Under 10 Seconds".
   */
  method FirstEasySession(mount: CalendarDate, dealt: seq<int>, today: CalendarDate) returns (g: Game, outcome: PressOutcome)
    requires IsDealOf(dealt, Easy.size)
    ensures g.Valid() && outcome == Won(true)
    ensures !g.timerActive && g.currentNumber == Easy.size + 1 && g.lastGameTime == Some(0)
    ensures g.progress.highScores == map[Easy.name := 0] && g.progress.leaderboards == map[Easy.name := [0]]
    ensures g.progress.gamesPlayed == 1 && g.progress.badges == [FirstWin, Under10Seconds]
  {
    g := StartFreshEasy(mount, dealt);
    PressInOrder(g, today, Easy.size);
    outcome := g.Press(Easy.size, today);
    assert Record([], 0) == [0] by {
      assert Sort([] + [0]) == [0];
    }
    assert Unlocks([], 0, 1) == [FirstWin, Under10Seconds];
  }

  /**
   * As written, the daily challenge started from a smaller tier: the board
   * gets that tier's tiles only, and once they are all pressed the expected
   * number is past every tile, so every further press is wrong and the
   * session can never be won; nothing is recorded.
   */
  method StaleDailySession(g: Game, dealt: seq<int>, today: CalendarDate)
    requires g.Valid() && !g.timerActive && !g.isCountingDown && g.pending == []
    requires g.tier.size < g.dailyGrid && IsDealOf(dealt, g.tier.size)
    modifies g, g.progress
    ensures g.Valid() && g.timerActive && !g.isCountingDown && g.tier == DailyTier(g.dailyGrid)
    ensures g.numbers == dealt && |g.numbers| < g.tier.size && g.tier.size !in g.numbers
    ensures g.currentNumber == |g.numbers| + 1
    ensures forall num :: num in g.numbers ==> num != g.currentNumber
    ensures unchanged(g.progress)
  {
    g.StartDailyAsWritten();
    RunCountdown(g, dealt);
    PressInOrder(g, today, |g.numbers| + 1);
  }

  /**
   * As written, the daily challenge started from Hard on a day whose grid
   * is smaller: the board gets Hard's 30 tiles, and the session is won at
   * the tile of the daily grid size with the tiles above it still unpressed.
   */
  method OversizedDailySession(g: Game, dealt: seq<int>, today: CalendarDate) returns (outcome: PressOutcome)
    requires g.Valid() && !g.timerActive && !g.isCountingDown && g.pending == []
    requires g.dailyGrid < g.tier.size && IsDealOf(dealt, g.tier.size)
    modifies g, g.progress
    ensures g.Valid() && g.tier == DailyTier(g.dailyGrid) && outcome.Won?
    ensures g.numbers == dealt && g.currentNumber == g.dailyGrid + 1 <= |g.numbers|
    ensures forall k :: g.dailyGrid < k <= |g.numbers| ==> k in g.numbers && k >= g.currentNumber
  {
    g.StartDailyAsWritten();
    RunCountdown(g, dealt);
    PressInOrder(g, today, g.dailyGrid);
    outcome := g.Press(g.dailyGrid, today);
  }

  /** Corrected, the daily challenge deals exactly today's grid from any tier, and pressing it in order wins. */
  method CorrectedDailySession(g: Game, dealt: seq<int>, today: CalendarDate) returns (outcome: PressOutcome)
    requires g.Valid() && !g.timerActive && !g.isCountingDown && g.pending == []
    requires IsDealOf(dealt, g.dailyGrid)
    modifies g, g.progress
    ensures g.Valid() && g.tier == DailyTier(g.dailyGrid) && g.isDaily
    ensures g.numbers == dealt && |g.numbers| == g.tier.size && outcome.Won?
  {
    g.StartDaily();
    RunCountdown(g, dealt);
    PressInOrder(g, today, g.dailyGrid);
    outcome := g.Press(g.dailyGrid, today);
  }

  /**
   * Two taps on the Daily button in a row, as written, while the Daily tier
   * is already selected (so both intervals deal today's grid), start two
   * countdown intervals, which tick in turn; the first to reach 0 starts
   * the session with `first`, while the second still has one tick to go.
   */
  method DailyTappedTwice(g: Game, first: seq<int>, second: seq<int>)
    requires g.Valid() && !g.timerActive && !g.isCountingDown && g.pending == []
    requires g.tier == DailyTier(g.dailyGrid)
    requires IsDealOf(first, g.dailyGrid) && IsDealOf(second, g.dailyGrid)
    modifies g`isDaily, g`tier, g`pending, g`countdown, g`isCountingDown,
             g`numbers, g`currentNumber, g`elapsed, g`timerActive
    ensures g.Valid() && g.timerActive && !g.isCountingDown && g.tier == DailyTier(g.dailyGrid)
    ensures g.pending == [Countdown(1, g.dailyGrid)]
    ensures g.numbers == first && g.currentNumber == 1 && g.elapsed == 0
  {
    g.StartDailyAsWritten();
    g.StartDailyAsWritten();
    g.CountdownTick(0, first);
    g.CountdownTick(1, second);
    g.CountdownTick(0, first);
    g.CountdownTick(1, second);
    g.CountdownTick(0, first);
  }

  /**
   * After a double tap on the Daily button, as written and with the Daily
   * tier already selected, a tile pressed in the session
   * the first countdown started is lost when the second countdown ends: it
   * deals `second` over the board and the session starts again from tile 1.
   */
  method DoubleDailyTap(g: Game, first: seq<int>, second: seq<int>, today: CalendarDate) returns (outcome: PressOutcome)
    requires g.Valid() && !g.timerActive && !g.isCountingDown && g.pending == []
    requires g.tier == DailyTier(g.dailyGrid)
    requires IsDealOf(first, g.dailyGrid) && IsDealOf(second, g.dailyGrid)
    modifies g, g.progress
    ensures outcome == Advanced
    ensures g.Valid() && g.timerActive && g.pending == [] && g.numbers == second
    ensures g.currentNumber == 1 && g.elapsed == 0
  {
    DailyTappedTwice(g, first, second);
    outcome := g.Press(1, today);
    g.CountdownTick(0, second);
  }
}
