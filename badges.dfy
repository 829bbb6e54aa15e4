/**
 * The badge engine run after every win (app/index.tsx:317-339): three
 * unlock rules checked in a fixed order, and a games-played counter that
 * goes up on every call.
 */
module Badges {

  datatype Badge = FirstWin | Under10Seconds | FivePlayed

  /** The order in which the rules are checked and badges appended. */
  function Rank(b: Badge): nat
  {
    match b
    case FirstWin => 0
    case Under10Seconds => 1
    case FivePlayed => 2
  }

  /** Ten seconds, in 0.1-second ticks. */
  const TenSeconds: nat := 100

  /** Games needed for "5 Games Played". */
  const FiveGames: nat := 5

  /** Whether badge `b` is earned by a win in `time` ticks that makes `games` games played. */
  predicate Qualifies(b: Badge, time: nat, games: nat)
  {
    match b
    case FirstWin => true
    case Under10Seconds => time < TenSeconds
    case FivePlayed => games >= FiveGames
  }

  predicate NoDuplicates(s: seq<Badge>)
  {
    forall i, j :: 0 <= i < j < |s| ==> s[i] != s[j]
  }

  lemma NoDuplicatesConcat(a: seq<Badge>, b: seq<Badge>)
    requires NoDuplicates(a) && InRuleOrder(b)
    requires forall x :: x in b ==> x !in a
    ensures NoDuplicates(a + b)
  {
    forall i, j | 0 <= i < j < |a + b| ensures (a + b)[i] != (a + b)[j] {
      if j >= |a| {
        assert (a + b)[j] == b[j - |a|];
        if i >= |a| {
          assert (a + b)[i] == b[i - |a|];
        } else {
          assert (a + b)[i] == a[i];
          assert b[j - |a|] in b;
        }
      }
    }
  }

  /** Strictly increasing in rule order. */
  predicate InRuleOrder(s: seq<Badge>)
  {
    forall i, j :: 0 <= i < j < |s| ==> Rank(s[i]) < Rank(s[j])
  }

  /** The badges a win in `time` ticks making `games` games played adds to `badges`, in rule order. */
  function Unlocks(badges: seq<Badge>, time: nat, games: nat): (r: seq<Badge>)
    ensures |r| <= 3 && InRuleOrder(r)
  {
    (if !Qualifies(FirstWin, time, games) || FirstWin in badges then [] else [FirstWin])
    + (if !Qualifies(Under10Seconds, time, games) || Under10Seconds in badges then [] else [Under10Seconds])
    + (if !Qualifies(FivePlayed, time, games) || FivePlayed in badges then [] else [FivePlayed])
  }

  /** Exactly the qualifying badges not yet held. */
  lemma UnlocksShape(badges: seq<Badge>, time: nat, games: nat)
    ensures forall b :: b in Unlocks(badges, time, games) <==> b !in badges && Qualifies(b, time, games)
  {
  }

  /** The list with the unlocked badges appended keeps the old list as a prefix and holds no badge twice. */
  lemma AppendUnlocks(badges: seq<Badge>, time: nat, games: nat)
    ensures var r := badges + Unlocks(badges, time, games);
      && r[..|badges|] == badges
      && r[|badges|..] == Unlocks(badges, time, games)
      && (forall b :: b in r <==> b in badges || Qualifies(b, time, games))
      && (NoDuplicates(badges) ==> NoDuplicates(r))
  {
    var added := Unlocks(badges, time, games);
    var r := badges + added;
    UnlocksShape(badges, time, games);
    assert r[..|badges|] == badges;
    assert r[|badges|..] == added;
    if NoDuplicates(badges) {
      NoDuplicatesConcat(badges, added);
    }
  }

  /**
   * `checkBadges(time)`: copies the badge list, appends each badge whose
   * rule holds and that the old list lacks, and bumps the games-played
   * count; `unlocked` tells whether the badge list has to be written back
   * (app/index.tsx:333-338).
   */
  method Evaluate(badges: seq<Badge>, gamesPlayed: nat, time: nat)
    returns (newBadges: seq<Badge>, newGamesPlayed: nat, unlocked: bool)
    ensures newGamesPlayed == gamesPlayed + 1
    ensures |newBadges| >= |badges| && newBadges[..|badges|] == badges
    ensures forall b :: b in newBadges <==> b in badges || Qualifies(b, time, newGamesPlayed)
    ensures forall b :: b in newBadges[|badges|..] ==> b !in badges
    ensures InRuleOrder(newBadges[|badges|..])
    ensures NoDuplicates(badges) ==> NoDuplicates(newBadges)
    ensures unlocked <==> |newBadges| > |badges|
    ensures newBadges == badges + Unlocks(badges, time, newGamesPlayed)
  {
    newBadges := badges;
    newGamesPlayed := gamesPlayed + 1;
    unlocked := false;
    if FirstWin !in badges {
      newBadges := newBadges + [FirstWin];
      unlocked := true;
    }
    if time < TenSeconds && Under10Seconds !in badges {
      newBadges := newBadges + [Under10Seconds];
      unlocked := true;
    }
    if newGamesPlayed >= FiveGames && FivePlayed !in badges {
      newBadges := newBadges + [FivePlayed];
      unlocked := true;
    }
    assert newBadges == badges + Unlocks(badges, time, newGamesPlayed);
    AppendUnlocks(badges, time, newGamesPlayed);
    UnlocksShape(badges, time, newGamesPlayed);
  }
}
