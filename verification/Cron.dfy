/**
 The next time a cron expression fires (packages/core/src/cron.ts). Instants are milliseconds since
 the epoch. Only the minute and hour fields are looked at.
 */
module Cron {
  import opened Wrappers
  import opened CronText

  const MINUTE_MS: nat := 60_000
  const SEARCH_STEPS: nat := 24 * 60 + 2

  // Does the minute that starts `m` minutes after the epoch match?
  predicate MatchesMinute(words: seq<string>, m: nat, number: Reading)
    requires |words| >= 2
  {
    MatchField(words[0], m % 60, number) && MatchField(words[1], m / 60 % 24, number)
  }

  ghost predicate IsNextMinute(words: seq<string>, from: nat, m: nat, number: Reading)
    requires |words| >= 2
  {
    && m * MINUTE_MS > from
    && MatchesMinute(words, m, number)
    && forall k: nat :: k < m && k * MINUTE_MS > from ==> !MatchesMinute(words, k, number)
  }

  ghost predicate SomeMinuteOfTheDay(words: seq<string>, number: Reading)
    requires |words| >= 2
  {
    exists m: nat :: m < 24 * 60 && MatchesMinute(words, m, number)
  }

  // What the search promises, as a property of its result.
  ghost predicate IsNextCronDate(cron: string, from: nat, next: nat, number: Reading) {
    var words := Words(cron);
    if |words| < 5 || !SomeMinuteOfTheDay(words, number) then next == from + MINUTE_MS
    else next % MINUTE_MS == 0 && IsNextMinute(words, from, next / MINUTE_MS, number)
  }

  lemma MinuteOf(candidate: nat, m: nat)
    requires candidate == m * MINUTE_MS
    ensures candidate / MINUTE_MS == m && candidate % MINUTE_MS == 0
  {}

  // The whole minutes after an instant are those from the next one on.
  lemma AfterMeansFrom(from: nat)
    ensures forall k: nat :: k * MINUTE_MS > from <==> k >= from / MINUTE_MS + 1
  {}

  // The clock shows the same minute and hour every day.
  lemma SameClock(m: nat)
    ensures m % 1440 % 60 == m % 60 && m % 1440 / 60 % 24 == m / 60 % 24
  {
  }

  lemma EveryDayAlike(words: seq<string>, m: nat, number: Reading)
    requires |words| >= 2
    ensures MatchesMinute(words, m, number) <==> MatchesMinute(words, m % 1440, number)
    ensures MatchesMinute(words, m, number) ==> SomeMinuteOfTheDay(words, number)
  {
    SameClock(m);
  }

  lemma ShiftToMinute(first: nat, m: nat)
    requires m < 1440
    ensures (first + (m + 1440 - first % 1440) % 1440) % 1440 == m
  {
  }

  lemma NoneInTwoDays(words: seq<string>, first: nat, number: Reading)
    requires |words| >= 2
    requires forall k: nat :: first <= k < first + SEARCH_STEPS ==> !MatchesMinute(words, k, number)
    ensures !SomeMinuteOfTheDay(words, number)
  {
    forall m: nat | m < 24 * 60
      ensures !MatchesMinute(words, m, number)
    {
      var k := first + (m + 1440 - first % 1440) % 1440;
      assert k % 1440 == m by {
        ShiftToMinute(first, m);
      }
      EveryDayAlike(words, k, number);
    }
  }

  // The result is the least whole minute strictly after `from` that matches; the search gives up, a
  // minute later, exactly when the expression has fewer than five fields or no minute of the day matches.
  method NextCronDate(cron: string, from: nat, number: Reading) returns (next: nat)
    ensures IsNextCronDate(cron, from, next, number)
    ensures next > from
  {
    var words := Words(cron);
    if |words| < 5 {
      return from + MINUTE_MS;
    }
    var candidate := from + MINUTE_MS;
    candidate := candidate / MINUTE_MS * MINUTE_MS;
    ghost var first := from / MINUTE_MS + 1;
    assert candidate == first * MINUTE_MS;
    for i := 0 to SEARCH_STEPS
      invariant candidate == (first + i) * MINUTE_MS
      invariant forall k: nat :: first <= k < first + i ==> !MatchesMinute(words, k, number)
    {
      MinuteOf(candidate, first + i);
      if MatchField(words[0], candidate / MINUTE_MS % 60, number)
          && MatchField(words[1], candidate / MINUTE_MS / 60 % 24, number) {
        assert MatchesMinute(words, first + i, number);
        AfterMeansFrom(from);
        EveryDayAlike(words, first + i, number);
        return candidate;
      }
      candidate := candidate + MINUTE_MS;
    }
    NoneInTwoDays(words, first, number);
    next := from + MINUTE_MS;
  }

  // The promise leaves no choice.
  lemma NextCronDateIsUnique(cron: string, from: nat, a: nat, b: nat, number: Reading)
    requires IsNextCronDate(cron, from, a, number) && IsNextCronDate(cron, from, b, number)
    ensures a == b
  {
  }

  // Later starts never give earlier results.
  lemma NextCronDateAscends(cron: string, from: nat, later: nat, a: nat, b: nat, number: Reading)
    requires from <= later && IsNextCronDate(cron, from, a, number) && IsNextCronDate(cron, later, b, number)
    ensures a <= b
  {
  }

  lemma {:induction false} LeastMatch(words: seq<string>, first: nat, m: nat, number: Reading) returns (least: nat)
    requires |words| >= 2 && first <= m && MatchesMinute(words, m, number)
    ensures first <= least && MatchesMinute(words, least, number)
    ensures forall k: nat :: first <= k < least ==> !MatchesMinute(words, k, number)
    decreases m - first
  {
    if MatchesMinute(words, first, number) {
      least := first;
    } else {
      least := LeastMatch(words, first + 1, m, number);
    }
  }

  lemma NextExists(cron: string, from: nat, number: Reading)
    ensures exists next: nat :: IsNextCronDate(cron, from, next, number) && next > from
  {
    var words := Words(cron);
    if |words| < 5 || !SomeMinuteOfTheDay(words, number) {
      assert IsNextCronDate(cron, from, from + MINUTE_MS, number);
    } else {
      AfterMeansFrom(from);
      var first := from / MINUTE_MS + 1;
      if forall k: nat :: first <= k < first + SEARCH_STEPS ==> !MatchesMinute(words, k, number) {
        NoneInTwoDays(words, first, number);
      }
      var m: nat :| first <= m && MatchesMinute(words, m, number);
      var least := LeastMatch(words, first, m, number);
      MinuteOf(least * MINUTE_MS, least);
      assert IsNextCronDate(cron, from, least * MINUTE_MS, number);
    }
  }

  // The search can always promise something.
  ghost function NextAfter(cron: string, from: nat, number: Reading): (next: nat)
    ensures IsNextCronDate(cron, from, next, number) && next > from
  {
    NextExists(cron, from, number);
    var next: nat :| IsNextCronDate(cron, from, next, number) && next > from;
    next
  }
}
