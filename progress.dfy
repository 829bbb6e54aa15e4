/**
 * The player's results that outlive a session and are written to device
 * storage (app/index.tsx:45, 48, 57, 59, 65-66): the best time and the
 * five-entry leaderboard of every tier, the badge list, the games-played
 * counter, the daily streak and the date of the last daily win.
 */
module Persisted {
  import opened Wrappers
  import opened Scores
  import opened Badges
  import opened Streak

  /** A tier's board, best time and winning times agree: ascending, at most five, headed by the best time, which no time won beats, and drawn from those times. */
  ghost predicate BoardInvariant(board: seq<nat>, best: nat, won: multiset<nat>)
  {
    && 1 <= |board| <= Capacity
    && Sorted(board)
    && best == board[0]
    && multiset(board) <= won
    && forall x :: x in won ==> best <= x
  }

  /** Recording a win keeps a tier's board, best and history consistent. */
  lemma RecordKeepsInvariant(board: seq<nat>, best: Option<nat>, won: multiset<nat>, t: nat)
    requires best.None? ==> board == [] && won == multiset{}
    requires best.Some? ==> BoardInvariant(board, best.value, won)
    ensures BoardInvariant(Record(board, t), ImprovedBest(best, t), won + multiset{t})
  {
    RecordShape(board, t);
    RecordHead(board, t);
    var r := Record(board, t);
    assert multiset(r) <= multiset(board) + multiset{t};
    if best.Some? {
      assert board[0] in multiset(board);
    }
  }

  /** The best time stored for tier `name`, None before its first win. */
  function BestOf(highScores: map<string, nat>, name: string): Option<nat>
  {
    if name in highScores then Some(highScores[name]) else None
  }

  /** The leaderboard stored for tier `name`, empty before its first win. */
  function BoardOf(boards: map<string, seq<nat>>, name: string): seq<nat>
  {
    if name in boards then boards[name] else []
  }

  ghost function WonOf(won: map<string, multiset<nat>>, name: string): multiset<nat>
  {
    if name in won then won[name] else multiset{}
  }

  /** Best times, leaderboards and winning times agree for every tier played. */
  ghost predicate BoardsValid(highScores: map<string, nat>, boards: map<string, seq<nat>>, won: map<string, multiset<nat>>)
  {
    && highScores.Keys == boards.Keys == won.Keys
    && forall l {:trigger EntryValid(highScores, boards, won, l)} :: l in boards ==> EntryValid(highScores, boards, won, l)
  }

  /** The tier labelled `l` has a consistent board, best time and history. */
  ghost predicate EntryValid(highScores: map<string, nat>, boards: map<string, seq<nat>>, won: map<string, multiset<nat>>, l: string)
    requires l in highScores && l in boards && l in won
  {
    BoardInvariant(boards[l], highScores[l], won[l])
  }

  /** A win of `t` ticks on tier `name` keeps every tier consistent. */
  lemma BoardsStep(highScores: map<string, nat>, boards: map<string, seq<nat>>, won: map<string, multiset<nat>>,
                   name: string, t: nat)
    requires BoardsValid(highScores, boards, won)
    ensures BoardsValid(highScores[name := ImprovedBest(BestOf(highScores, name), t)],
                        boards[name := Record(BoardOf(boards, name), t)],
                        won[name := WonOf(won, name) + multiset{t}])
  {
    if name in boards {
      assert EntryValid(highScores, boards, won, name);
    }
    RecordKeepsInvariant(BoardOf(boards, name), BestOf(highScores, name), WonOf(won, name), t);
    BoardsUpdate(highScores, boards, won, name, ImprovedBest(BestOf(highScores, name), t),
                 Record(BoardOf(boards, name), t), WonOf(won, name) + multiset{t});
  }

  /** Replacing one tier's entry by a consistent one keeps every tier consistent. */
  lemma BoardsUpdate(highScores: map<string, nat>, boards: map<string, seq<nat>>, won: map<string, multiset<nat>>,
                     name: string, best: nat, board: seq<nat>, history: multiset<nat>)
    requires BoardsValid(highScores, boards, won)
    requires BoardInvariant(board, best, history)
    ensures BoardsValid(highScores[name := best], boards[name := board], won[name := history])
  {
    var hs', bs', won' := highScores[name := best], boards[name := board], won[name := history];
    assert EntryValid(hs', bs', won', name);
    forall l | l in bs' && l != name ensures EntryValid(hs', bs', won', l) {
      assert EntryValid(highScores, boards, won, l);
    }
  }

  /** The badge list holds no badge twice and agrees with the games-played count. */
  ghost predicate BadgesValid(badges: seq<Badge>, gamesPlayed: nat)
  {
    && NoDuplicates(badges)
    && (FirstWin in badges <==> gamesPlayed >= 1)
    && (FivePlayed in badges <==> gamesPlayed >= FiveGames)
    && (Under10Seconds in badges ==> gamesPlayed >= 1)
  }

  /** One more win keeps the badge list consistent with the count. */
  lemma BadgesStep(badges: seq<Badge>, gamesPlayed: nat, time: nat)
    requires BadgesValid(badges, gamesPlayed)
    ensures BadgesValid(badges + Unlocks(badges, time, gamesPlayed + 1), gamesPlayed + 1)
  {
    AppendUnlocks(badges, time, gamesPlayed + 1);
  }

  class Progress {
    var highScores: map<string, nat>          // `highscore_<label>`
    var leaderboards: map<string, seq<nat>>   // `leaderboard_<label>`
    var badges: seq<Badge>                    // `badges`
    var gamesPlayed: nat                      // `gamesPlayed`
    var dailyStreak: nat                      // `dailyStreak`
    var lastDailyDate: Option<string>         // `lastDailyDate`
    // every winning time, per tier label
    ghost var won: map<string, multiset<nat>>

    ghost predicate Valid()
      reads this
    {
      BoardsOk() && BadgesOk() && StreakOk()
    }

    ghost predicate BoardsOk()
      reads this`highScores, this`leaderboards, this`won
    {
      BoardsValid(highScores, leaderboards, won)
    }

    ghost predicate BadgesOk()
      reads this`badges, this`gamesPlayed
    {
      BadgesValid(badges, gamesPlayed)
    }

    /** A streak is counted exactly when a daily win has been recorded. */
    ghost predicate StreakOk()
      reads this`dailyStreak, this`lastDailyDate
    {
      lastDailyDate.Some? <==> dailyStreak >= 1
    }

    /** Nothing stored yet (app/index.tsx:45, 48, 57, 59, 65-66). */
    constructor ()
      ensures Valid()
      ensures highScores == map[] && leaderboards == map[] && badges == [] && gamesPlayed == 0
      ensures dailyStreak == 0 && lastDailyDate == None
    {
      highScores, leaderboards, badges, gamesPlayed := map[], map[], [], 0;
      dailyStreak, lastDailyDate := 0, None;
      won := map[];
    }

    /** The high-score block of the winning branch (app/index.tsx:392-399): the first time, or a strictly faster one, becomes the best. */
    method UpdateHighScore(name: string, time: nat) returns (newHighScore: bool)
      modifies this`highScores
      ensures newHighScore == IsNewBest(BestOf(old(highScores), name), time)
      ensures highScores == old(highScores)[name := ImprovedBest(BestOf(old(highScores), name), time)]
    {
      var best := BestOf(highScores, name);
      newHighScore := best.None? || time < best.value;
      if newHighScore {
        highScores := highScores[name := time];
      } else {
        highScores := highScores[name := best.value];
      }
    }

    /** `updateLeaderboard(newTime)` (app/index.tsx:167-174): only the list of tier `name` changes. */
    method UpdateLeaderboard(name: string, newTime: nat)
      modifies this`leaderboards
      ensures leaderboards == old(leaderboards)[name := Record(BoardOf(old(leaderboards), name), newTime)]
    {
      leaderboards := leaderboards[name := Record(BoardOf(leaderboards, name), newTime)];
    }

    /**
     * A winning time reaches the best time and then the leaderboard of
     * tier `name` (app/index.tsx:392-408); both stay consistent with every
     * time won so far.
     */
    method SaveTime(name: string, time: nat) returns (newHighScore: bool)
      requires BoardsOk()
      modifies this`highScores, this`leaderboards, this`won
      ensures BoardsOk()
      ensures newHighScore == IsNewBest(BestOf(old(highScores), name), time)
      ensures highScores == old(highScores)[name := ImprovedBest(BestOf(old(highScores), name), time)]
      ensures leaderboards == old(leaderboards)[name := Record(BoardOf(old(leaderboards), name), time)]
    {
      newHighScore := UpdateHighScore(name, time);
      UpdateLeaderboard(name, time);
      won := won[name := WonOf(won, name) + multiset{time}];
      BoardsStep(old(highScores), old(leaderboards), old(won), name, time);
    }

    /** `checkBadges(time)` with `saveBadges` (app/index.tsx:309-339). */
    method CheckBadges(time: nat)
      requires BadgesOk()
      modifies this`badges, this`gamesPlayed
      ensures BadgesOk()
      ensures gamesPlayed == old(gamesPlayed) + 1
      ensures badges == old(badges) + Unlocks(old(badges), time, gamesPlayed)
    {
      BadgesStep(badges, gamesPlayed, time);
      var newBadges, newGamesPlayed, unlocked := Evaluate(badges, gamesPlayed, time);
      if unlocked {
        badges, gamesPlayed := newBadges, newGamesPlayed;
      } else {
        gamesPlayed := newGamesPlayed;
      }
    }

    /** The streak block of a won daily session (app/index.tsx:410-422) with `saveDaily` (365-370). */
    method CreditStreak(todayKey: string)
      requires StreakOk()
      modifies this`dailyStreak, this`lastDailyDate
      ensures StreakOk()
      ensures StreakState(dailyStreak, lastDailyDate) == Credit(StreakState(old(dailyStreak), old(lastDailyDate)), todayKey)
    {
      if lastDailyDate != Some(todayKey) {
        var credited := Credit(StreakState(dailyStreak, lastDailyDate), todayKey);
        lastDailyDate, dailyStreak := credited.lastDate, credited.length;
      }
    }

    /**
     * The results part of a win (app/index.tsx:392-423): the time reaches
     * the best time and the leaderboard of tier `name`, the badges are
     * checked, and a daily win credits the streak for `todayKey`.
     */
    method Win(name: string, time: nat, daily: bool, todayKey: string) returns (newHighScore: bool)
      requires Valid()
      modifies this
      ensures Valid()
      ensures newHighScore == IsNewBest(BestOf(old(highScores), name), time)
      ensures highScores == old(highScores)[name := ImprovedBest(BestOf(old(highScores), name), time)]
      ensures leaderboards == old(leaderboards)[name := Record(BoardOf(old(leaderboards), name), time)]
      ensures gamesPlayed == old(gamesPlayed) + 1
      ensures badges == old(badges) + Unlocks(old(badges), time, gamesPlayed)
      ensures StreakState(dailyStreak, lastDailyDate)
              == if daily then Credit(StreakState(old(dailyStreak), old(lastDailyDate)), todayKey)
                 else StreakState(old(dailyStreak), old(lastDailyDate))
    {
      newHighScore := SaveTime(name, time);
      CheckBadges(time);
      if daily {
        CreditStreak(todayKey);
      }
    }
  }
}
