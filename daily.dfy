/**
 * The daily challenge (app/index.tsx:342-359): the calendar date is written
 * as a key `"{year}-{month}-{day}"` without zero padding, the key is folded
 * into a hash below 100000, and the hash picks the goal time and the grid
 * size that every player gets on that day.
 */
module DailyChallenge {
  import opened Wrappers

  /** A local calendar date as `Date` reports it: `getMonth()` counts months from 0. */
  datatype CalendarDate = CalendarDate(year: nat, month0: nat, day: nat)

  predicate IsDigit(c: char) { '0' <= c <= '9' }

  predicate IsNumeral(s: string)
  {
    |s| >= 1 && forall i :: 0 <= i < |s| ==> IsDigit(s[i])
  }

  function DigitChar(d: nat): char
    requires d < 10
  {
    "0123456789"[d]
  }

  function DigitOf(c: char): (d: nat)
    requires IsDigit(c)
    ensures d < 10
  {
    (c as int) - ('0' as int)
  }

  /** The decimal form JavaScript's template literal gives a non-negative integer. */
  function Digits(n: nat): (s: string)
    ensures IsNumeral(s)
    ensures s[0] == '0' ==> n == 0 && s == "0"
    ensures Value(s) == n
  {
    if n < 10 then [DigitChar(n)]
    else
      var front := Digits(n / 10);
      var s := front + [DigitChar(n % 10)];
      assert s[..|s| - 1] == front;
      s
  }

  /** The number a string of decimal digits denotes. */
  function Value(s: string): nat
    requires forall i :: 0 <= i < |s| ==> IsDigit(s[i])
  {
    if s == [] then 0
    else
      assert IsDigit(s[|s| - 1]);
      Value(s[..|s| - 1]) * 10 + DigitOf(s[|s| - 1])
  }

  /** `getTodayKey()`: year, one-based month and day joined by '-' (app/index.tsx:342-345). */
  function DateKey(d: CalendarDate): (k: string)
    ensures SplitAt(k, '-') == [Digits(d.year), Digits(d.month0 + 1), Digits(d.day)]
  {
    var y, m, dd := Digits(d.year), Digits(d.month0 + 1), Digits(d.day);
    assert '-' !in y && '-' !in m && '-' !in dd;
    SplitFirst(y, '-', m + ['-'] + dd);
    SplitFirst(m, '-', dd);
    SplitWithout(dd, '-');
    assert y + "-" + m + "-" + dd == y + ['-'] + (m + ['-'] + dd);
    y + "-" + m + "-" + dd
  }

  /** The pieces of `s` between occurrences of `sep`. */
  function SplitAt(s: string, sep: char): (r: seq<string>)
    ensures |r| >= 1
  {
    if s == [] then [""]
    else
      var rest := SplitAt(s[1..], sep);
      if s[0] == sep then [""] + rest
      else [[s[0]] + rest[0]] + rest[1..]
  }

  /**
   * Reads a date key back into a calendar date: three numerals separated by
   * '-', the month at least 1.
   */
  function ParseDateKey(key: string): Option<CalendarDate>
  {
    var parts := SplitAt(key, '-');
    if |parts| == 3 && IsNumeral(parts[0]) && IsNumeral(parts[1]) && IsNumeral(parts[2])
       && Value(parts[1]) >= 1
    then Some(CalendarDate(Value(parts[0]), Value(parts[1]) - 1, Value(parts[2])))
    else None
  }

  lemma {:induction false} SplitWithout(s: string, sep: char)
    requires sep !in s
    ensures SplitAt(s, sep) == [s]
  {
    if s != [] {
      SplitWithout(s[1..], sep);
      assert [s[0]] + s[1..] == s;
    }
  }

  lemma {:induction false} SplitFirst(a: string, sep: char, b: string)
    requires sep !in a
    ensures SplitAt(a + [sep] + b, sep) == [a] + SplitAt(b, sep)
  {
    if a == [] {
      assert (a + [sep] + b)[1..] == b;
    } else {
      assert (a + [sep] + b)[1..] == a[1..] + [sep] + b;
      SplitFirst(a[1..], sep, b);
      assert [a[0]] + a[1..] == a;
    }
  }

  /** A key reads back as the date it was made from. */
  lemma DateKeyRoundTrip(d: CalendarDate)
    ensures ParseDateKey(DateKey(d)) == Some(d)
  {
  }

  /** Two dates share a key exactly when they are the same date. */
  lemma DateKeyInjective(d: CalendarDate, e: CalendarDate)
    ensures DateKey(d) == DateKey(e) <==> d == e
  {
    DateKeyRoundTrip(d);
    DateKeyRoundTrip(e);
  }

  /** The hash's modulus. */
  const HashModulus: nat := 100000

  /** `hash = (hash * 31 + charCode) % 100000` over the key, left to right from 0. */
  function HashOf(key: string): (h: nat)
    ensures h < HashModulus
  {
    if key == [] then 0
    else (HashOf(key[..|key| - 1]) * 31 + key[|key| - 1] as int) % HashModulus
  }

  /** The hash loop of app/index.tsx:356-357. */
  method DailyHash(key: string) returns (hash: nat)
    ensures hash == HashOf(key)
    ensures hash < HashModulus
  {
    hash := 0;
    for i := 0 to |key|
      invariant hash == HashOf(key[..i])
    {
      assert key[..i + 1][..i] == key[..i];
      hash := (hash * 31 + key[i] as int) % HashModulus;
    }
    assert key[..|key|] == key;
  }

  /** Goal time in seconds, in 12..20 (app/index.tsx:358). */
  function Goal(hash: nat): (g: nat)
    ensures 12 <= g <= 20
  {
    12 + hash % 9
  }

  /** Grid size, in 15..30 (app/index.tsx:359). */
  function Grid(hash: nat): (n: nat)
    ensures 15 <= n <= 30
  {
    15 + hash % 16
  }

  datatype Challenge = Challenge(dateKey: string, goalSeconds: nat, gridSize: nat)

  /** The challenge of the day whose key is `key`: a function of the key alone. */
  function ChallengeFor(key: string): (c: Challenge)
    ensures c.dateKey == key
    ensures 12 <= c.goalSeconds <= 20 && 15 <= c.gridSize <= 30
  {
    var h := HashOf(key);
    Challenge(key, Goal(h), Grid(h))
  }
}
