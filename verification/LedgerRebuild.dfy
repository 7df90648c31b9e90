/** The rebuild at start-up: read the journal from its first entry until the stream
    has been quiet for a while, or give up. Times are integer milliseconds. */
module LedgerRebuild {
  import opened LedgerJournal
  import opened LedgerWriter

  const QUIET_PERIOD := 400
  const REBUILD_LIMIT := 30_000
  const MOST_SLEEPS := 1501

  datatype Outcome = CaughtUp(balances: Balances) | StillWriting

  /** What the clock and the stream do: the reading that starts the wait, the one the
      deadline is computed from, the readings of the `k`-th pass over the loop's
      condition and over the deadline check, how many entries were delivered before
      that pass, and the reading taken by the handler of each delivery. */
  datatype Schedule = Schedule(
    setUp: int, started: int, check: nat -> int, guard: nat -> int, seen: nat -> nat, times: seq<int>)
  {
    /** Monotone readings, sleeps of at least 20 ms, and deliveries, in order,
        only while the loop is suspended. */
    ghost predicate Valid() {
      && setUp <= started <= check(0)
      && (forall k: nat :: check(k) <= guard(k))
      && (forall j: nat, k: nat :: j < k ==> guard(j) + 20 <= check(k))
      && (forall k: nat :: seen(k) <= |times|)
      && (forall j: nat, k: nat :: j <= k ==> seen(j) <= seen(k))
      && (forall i :: 0 <= i < |times| ==> setUp <= times[i])
      && (forall i, j :: 0 <= i <= j < |times| ==> times[i] <= times[j])
      && (forall k: nat, i :: 0 <= i < seen(k) && i < |times| ==> times[i] <= check(k))
      && (forall k: nat, i :: seen(k) <= i < |times| ==> guard(k) <= times[i])
    }

    /** The reading `last_seen` holds after the first `n` deliveries. */
    function LastSeen(n: nat): int
      requires n <= |times|
    {
      if n == 0 then setUp else times[n - 1]
    }

    /** No gap before an entry, the one from set-up to the first included, reaches the quiet period. */
    ghost predicate NeverQuiet() {
      forall i :: 0 <= i < |times| ==> times[i] - LastSeen(i) < 400
    }

    /** The `k`-th pass finds the stream quiet for 400 ms. */
    predicate QuietAt(k: nat)
      requires seen(k) <= |times|
    {
      check(k) - LastSeen(seen(k)) >= 400
    }

    /** No pass up to the `n`-th finds it so. */
    ghost predicate NeverQuietBy(n: nat) {
      forall k: nat :: k <= n ==> seen(k) <= |times| && !QuietAt(k)
    }

    /** The `k`-th pass is past 30 seconds. */
    predicate LateAt(k: nat) {
      guard(k) > started + 30_000
    }
  }

  /** The deliveries handled during one await. */
  method Deliver(balances: Balances, journal: seq<Entry>, schedule: Schedule, upTo: nat) returns (lastSeen: int)
    requires |schedule.times| == |journal|
    requires balances.replayed <= upTo <= |journal|
    requires balances.accounts == Fold(journal[..balances.replayed])
    modifies balances
    ensures balances.replayed == upTo && balances.accounts == Fold(journal[..upTo])
    ensures lastSeen == schedule.LastSeen(upTo)
  {
    lastSeen := if balances.replayed == 0 then schedule.setUp else schedule.times[balances.replayed - 1];
    while balances.replayed < upTo
      invariant balances.replayed <= upTo
      invariant balances.accounts == Fold(journal[..balances.replayed])
      invariant lastSeen == schedule.LastSeen(balances.replayed)
    {
      var next := balances.replayed;
      assert journal[..next + 1] == journal[..next] + [journal[next]];
      FoldAppend(journal[..next], journal[next]);
      balances.Replay(journal[next]);
      lastSeen := schedule.times[next];
    }
  }

  /** The loop sleeps until the first pass that finds the stream quiet, or gives up at the
      first one past the limit that does not. It returns the fold of a prefix that may stop
      short, but only before an entry that came after a quiet period: a stream whose gaps
      all stay under 400 ms is read whole. */
  method RebuiltFrom(journal: seq<Entry>, schedule: Schedule) returns (outcome: Outcome, sleeps: nat)
    requires schedule.Valid() && |schedule.times| == |journal|
    ensures sleeps <= 1501
    ensures forall k :: 0 <= k < sleeps ==> schedule.seen(k) <= |journal| && !schedule.QuietAt(k) && !schedule.LateAt(k)
    ensures schedule.seen(sleeps) <= |journal|
    ensures outcome.CaughtUp? <==> schedule.QuietAt(sleeps)
    ensures outcome.CaughtUp? ==>
              && fresh(outcome.balances)
              && var n := outcome.balances.replayed;
                 && n == schedule.seen(sleeps)
                 && outcome.balances.accounts == Fold(journal[..n])
                 && (n < |journal| ==> schedule.times[n] - schedule.LastSeen(n) >= 400)
                 && (schedule.NeverQuiet() ==> n == |journal| && outcome.balances.accounts == Fold(journal))
    ensures outcome.StillWriting? ==> schedule.LateAt(sleeps)
  {
    var balances := new Balances();
    assert journal[..0] == [];
    var lastSeen := Deliver(balances, journal, schedule, schedule.seen(0));
    var deadline := schedule.started + REBUILD_LIMIT;
    sleeps := 0;
    while schedule.check(sleeps) - lastSeen < QUIET_PERIOD
      invariant balances.replayed == schedule.seen(sleeps) <= |journal|
      invariant balances.accounts == Fold(journal[..balances.replayed])
      invariant lastSeen == schedule.LastSeen(balances.replayed)
      invariant forall k :: 0 <= k < sleeps ==> schedule.seen(k) <= |journal| && !schedule.QuietAt(k) && !schedule.LateAt(k)
      invariant schedule.check(sleeps) >= schedule.started + 20 * sleeps
      invariant sleeps > 0 ==> schedule.started + 20 * (sleeps - 1) <= deadline
      decreases MOST_SLEEPS - sleeps
    {
      if schedule.guard(sleeps) > deadline {
        return StillWriting, sleeps;
      }
      lastSeen := Deliver(balances, journal, schedule, schedule.seen(sleeps + 1));
      sleeps := sleeps + 1;
    }
    assert journal[..|journal|] == journal;
    assert schedule.check(sleeps) <= schedule.guard(sleeps);
    outcome := CaughtUp(balances);
  }

  /** A writer starts from what the rebuild found; when the stream never went quiet early,
      that is the whole journal. Null is the rebuild's error. */
  method Start(journal: seq<Entry>, schedule: Schedule) returns (ledger: LedgerModule?)
    requires schedule.Valid() && |schedule.times| == |journal|
    ensures ledger != null ==>
              && fresh(ledger) && fresh(ledger.balances)
              && ledger.balances.replayed <= |journal|
              && ledger.View() == Started(journal[..ledger.balances.replayed])
              && (schedule.NeverQuiet() ==> ledger.View() == Started(journal))
    ensures ledger == null <==> exists n: nat {:trigger schedule.LateAt(n)} :: schedule.LateAt(n) && schedule.NeverQuietBy(n)
  {
    var outcome, _ := RebuiltFrom(journal, schedule);
    if outcome.StillWriting? {
      return null;
    }
    var n := outcome.balances.replayed;
    ledger := new LedgerModule(outcome.balances, journal[..n]);
    assert schedule.NeverQuiet() ==> journal[..n] == journal;
  }
}
