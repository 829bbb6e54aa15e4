/**
 * Per-tier results: the ranked leaderboard that keeps the five best times
 * (app/index.tsx:167-174) and the separately stored personal best
 * (app/index.tsx:392-399). Times are counts of 0.1-second clock ticks.
 */
module Scores {
  import opened Wrappers

  /** Number of times a tier's leaderboard keeps (`.slice(0, 5)`). */
  const Capacity: nat := 5

  function Min(a: int, b: int): int { if a <= b then a else b }

  predicate Sorted(s: seq<nat>)
  {
    forall i, j :: 0 <= i < j < |s| ==> s[i] <= s[j]
  }

  /** Inserts `x` into an ascending list. */
  function Insert(s: seq<nat>, x: nat): (r: seq<nat>)
    requires Sorted(s)
    ensures Sorted(r)
    ensures multiset(r) == multiset(s) + multiset{x}
    ensures |r| == |s| + 1
  {
    if s == [] then [x]
    else if x <= s[0] then
      ConsSorted(x, s);
      [x] + s
    else
      var tail := Insert(s[1..], x);
      assert s == [s[0]] + s[1..];
      LowerBound(s[1..], x, tail, s[0]);
      ConsSorted(s[0], tail);
      [s[0]] + tail
  }

  /** An ascending list stays ascending when an element below its first one is put in front. */
  lemma ConsSorted(h: nat, s: seq<nat>)
    requires Sorted(s)
    requires s == [] || h <= s[0]
    ensures Sorted([h] + s)
  {
    var r := [h] + s;
    forall i, j | 0 <= i < j < |r| ensures r[i] <= r[j] {
      if i > 0 {
        assert r[i] == s[i - 1] && r[j] == s[j - 1];
      } else {
        assert r[j] == s[j - 1];
      }
    }
  }

  /** A bound below every element of `s` and below `x` is below every element of a permutation of them. */
  lemma LowerBound(s: seq<nat>, x: nat, r: seq<nat>, lo: nat)
    requires multiset(r) == multiset(s) + multiset{x}
    requires lo <= x && forall k :: 0 <= k < |s| ==> lo <= s[k]
    ensures forall k :: 0 <= k < |r| ==> lo <= r[k]
  {
    forall k | 0 <= k < |r| ensures lo <= r[k] {
      assert r[k] in multiset(r);
      if r[k] != x {
        assert r[k] in multiset(s);
        var j :| 0 <= j < |s| && s[j] == r[k];
      }
    }
  }

  /** The ascending numeric sort `sort((a, b) => a - b)`. */
  function Sort(s: seq<nat>): (r: seq<nat>)
    ensures Sorted(r)
    ensures multiset(r) == multiset(s)
    ensures |r| == |s|
  {
    if s == [] then []
    else
      assert s == s[..|s| - 1] + [s[|s| - 1]];
      Insert(Sort(s[..|s| - 1]), s[|s| - 1])
  }

  /**
   * The leaderboard after a win in time `t`: the first five of the ascending
   * sort of the old list with `t` appended (app/index.tsx:170).
   */
  function Record(board: seq<nat>, t: nat): (r: seq<nat>)
    ensures |r| == Min(|board| + 1, Capacity)
    ensures Sorted(r)
    ensures multiset(r) <= multiset(board) + multiset{t}
  {
    var all := Sort(board + [t]);
    var k := Min(|all|, Capacity);
    assert all == all[..k] + all[k..];
    assert multiset(all) == multiset(all[..k]) + multiset(all[k..]);
    assert multiset(board + [t]) == multiset(board) + multiset{t};
    all[..k]
  }

  /** While the board has room, nothing is dropped: the new board holds the old times and `t`. */
  lemma RecordShape(board: seq<nat>, t: nat)
    ensures |board| < Capacity ==> multiset(Record(board, t)) == multiset(board) + multiset{t}
    ensures |board| < Capacity ==> t in Record(board, t)
  {
    var all := Sort(board + [t]);
    var k := Min(|all|, Capacity);
    assert multiset(board + [t]) == multiset(board) + multiset{t};
    if |board| < Capacity {
      assert all[..k] == all;
      assert t in multiset(all);
    }
  }

  /** Nothing dropped from the board is faster than anything kept on it. */
  lemma RecordKeepsFastest(board: seq<nat>, t: nat, kept: nat, dropped: nat)
    requires kept in Record(board, t)
    requires dropped in multiset(board) + multiset{t} - multiset(Record(board, t))
    ensures kept <= dropped
  {
    var all := Sort(board + [t]);
    var k := Min(|all|, Capacity);
    assert all == all[..k] + all[k..];
    assert multiset(board + [t]) == multiset(board) + multiset{t};
    assert multiset(all) == multiset(all[..k]) + multiset(all[k..]);
    assert dropped in multiset(all[k..]);
    var j :| 0 <= j < |all[k..]| && all[k..][j] == dropped;
    var i :| 0 <= i < k && all[i] == kept;
    assert all[k + j] == dropped;
  }

  /** The head of an ascending list is below everything in it. */
  lemma HeadIsLeast(s: seq<nat>)
    requires Sorted(s) && |s| >= 1
    ensures forall x :: x in multiset(s) ==> s[0] <= x
  {
    forall x | x in multiset(s) ensures s[0] <= x {
      var j :| 0 <= j < |s| && s[j] == x;
    }
  }

  /** On an ascending board the new head is the faster of the old head and `t`. */
  lemma RecordHead(board: seq<nat>, t: nat)
    requires Sorted(board)
    ensures |Record(board, t)| >= 1
    ensures Record(board, t)[0] == if board == [] then t else Min(board[0], t)
  {
    RecordShape(board, t);
    var all := Sort(board + [t]);
    assert multiset(board + [t]) == multiset(board) + multiset{t};
    assert Record(board, t)[0] == all[0];
    assert all[0] in multiset(all);
    HeadIsLeast(all);
    if board != [] {
      assert board[0] in multiset(board);
      HeadIsLeast(board);
    }
  }

  /**
   * Whether a win in time `t` beats the stored best: there is none yet, or
   * `t` is strictly smaller (app/index.tsx:392).
   */
  predicate IsNewBest(best: Option<nat>, t: nat)
  {
    best.None? || t < best.value
  }

  /** The stored best after a win in time `t` (app/index.tsx:392-399). */
  function ImprovedBest(best: Option<nat>, t: nat): (r: nat)
    ensures IsNewBest(best, t) ==> r == t
    ensures !IsNewBest(best, t) ==> r == best.value
    ensures r == if best.None? then t else Min(best.value, t)
  {
    if IsNewBest(best, t) then t else best.value
  }
}
