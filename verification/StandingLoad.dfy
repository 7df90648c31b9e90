/** A publish loop and a sampling loop over shared counters, interleaved at their awaits.
    Times are seconds of a monotone clock. */
module StandingLoad {
  import opened Wrappers
  import opened Sequences

  datatype Outcome = Confirmed | Paused | TimedOut | Raised

  /** One line: the totals, the seconds since the line before, and the rates, which are
      left off when no time passed. */
  datatype Reading = Reading(
    published: nat, confirmed: nat, consumed: nat, refused: nat, failed: nat,
    interval: real, publishRate: Option<real>, consumeRate: Option<real>)

  /** `sending` while a send is outstanding; `stopped` once the publisher is cancelled,
      with `sending` left as it was. */
  datatype Load = Load(
    published: nat, confirmed: nat, consumed: nat, refused: nat, failed: nat,
    sending: bool, stopped: bool,
    last: real, lastConfirmed: nat, lastConsumed: nat, readings: seq<Reading>)

  datatype Action = Attempt | Resolve(outcome: Outcome) | Cancel | Consume | Emit(now: real)

  function Initial(started: real): Load {
    Load(0, 0, 0, 0, 0, false, false, started, 0, 0, [])
  }

  predicate Enabled(s: Load, a: Action) {
    match a
    case Attempt => !s.sending && !s.stopped
    case Resolve(_) => s.sending && !s.stopped
    case Cancel => !s.stopped
    case Consume => true
    case Emit(now) => now >= s.last
  }

  function ReadingOf(s: Load, now: real): Reading {
    var elapsed := now - s.last;
    Reading(s.published, s.confirmed, s.consumed, s.refused, s.failed, elapsed,
            if elapsed > 0.0 then Some((s.confirmed - s.lastConfirmed) as real / elapsed) else None,
            if elapsed > 0.0 then Some((s.consumed - s.lastConsumed) as real / elapsed) else None)
  }

  function Next(s: Load, a: Action): Load
    requires Enabled(s, a)
  {
    match a
    case Attempt => s.(published := s.published + 1, sending := true)
    case Resolve(Confirmed) => s.(confirmed := s.confirmed + 1, sending := false)
    case Resolve(Paused) => s.(refused := s.refused + 1, sending := false)
    case Resolve(_) => s.(failed := s.failed + 1, sending := false)
    case Cancel => s.(stopped := true)
    case Consume => s.(consumed := s.consumed + 1)
    case Emit(now) =>
      s.(readings := s.readings + [ReadingOf(s, now)],
         last := now, lastConfirmed := s.confirmed, lastConsumed := s.consumed)
  }

  predicate Runs(s: Load, run: seq<Action>)
    decreases |run|
  {
    run == [] || (Enabled(s, run[0]) && Runs(Next(s, run[0]), run[1..]))
  }

  function End(s: Load, run: seq<Action>): Load
    requires Runs(s, run)
    decreases |run|
  {
    if run == [] then s else End(Next(s, run[0]), run[1..])
  }

  // ---- every attempt is accounted for ------------------------------------------------

  predicate AddsUp(s: Load) {
    s.published == s.confirmed + s.refused + s.failed + (if s.sending then 1 else 0)
  }

  predicate AtMost(r: Reading, p: nat, c: nat, d: nat, f: nat, x: nat) {
    r.published <= p && r.confirmed <= c && r.consumed <= d && r.refused <= f && r.failed <= x
  }

  /** Each reading is at most every later one, and the counters as they are. */
  ghost predicate Rising(s: Load) {
    && (forall i, j :: 0 <= i <= j < |s.readings| ==>
          var r := s.readings[j];
          AtMost(s.readings[i], r.published, r.confirmed, r.consumed, r.refused, r.failed))
    && (forall r :: r in s.readings ==> AtMost(r, s.published, s.confirmed, s.consumed, s.refused, s.failed))
    && (forall r :: r in s.readings ==>
          0 <= r.published - (r.confirmed + r.refused + r.failed) <= 1 && r.interval >= 0.0)
  }

  lemma AddsUpNext(s: Load, a: Action)
    requires AddsUp(s) && Rising(s) && Enabled(s, a)
    ensures AddsUp(Next(s, a)) && Rising(Next(s, a))
  {
    var s' := Next(s, a);
    if a.Emit? {
      forall i, j | 0 <= i <= j < |s'.readings|
        ensures var r := s'.readings[j];
                AtMost(s'.readings[i], r.published, r.confirmed, r.consumed, r.refused, r.failed)
      {
        if j == |s.readings| && i < j {
          assert s.readings[i] in s.readings;
        }
      }
    }
  }

  // ---- each counter counts its own kind ----------------------------------------------

  function IsAction(a: Action): Action -> int {
    (b: Action) => if b == a then 1 else 0
  }

  /** What a run adds to a counter is how often its own outcome came up in it. */
  lemma {:induction false} EveryOutcomeIsCounted(s: Load, run: seq<Action>)
    requires Runs(s, run)
    ensures var e := End(s, run);
            && e.published == s.published + Sum(IsAction(Attempt), run)
            && e.confirmed == s.confirmed + Sum(IsAction(Resolve(Confirmed)), run)
            && e.refused == s.refused + Sum(IsAction(Resolve(Paused)), run)
            && e.failed == s.failed + Sum(IsAction(Resolve(TimedOut)), run) + Sum(IsAction(Resolve(Raised)), run)
            && e.consumed == s.consumed + Sum(IsAction(Consume), run)
    decreases |run|
  {
    if run != [] {
      EveryOutcomeIsCounted(Next(s, run[0]), run[1..]);
      assert run == [run[0]] + run[1..];
      forall a: Action ensures Sum(IsAction(a), run) == IsAction(a)(run[0]) + Sum(IsAction(a), run[1..]) {
        SumConcat(IsAction(a), [run[0]], run[1..]);
        SumShort(IsAction(a), run[0], run[0]);
      }
    }
  }

  // ---- what a line says ---------------------------------------------------------------

  /** When the line before was written, or the sampling began. */
  function LastLine(started: real, run: seq<Action>): real {
    if run == [] then started else
      var a := run[|run| - 1];
      if a.Emit? then a.now else LastLine(started, run[..|run| - 1])
  }

  lemma {:induction false} RunsLast(s: Load, run: seq<Action>, a: Action)
    requires Runs(s, run + [a])
    ensures Runs(s, run) && Enabled(End(s, run), a) && End(s, run + [a]) == Next(End(s, run), a)
    decreases |run|
  {
    if run == [] {
      assert run + [a] == [a] && [a][1..] == [];
    } else {
      assert (run + [a])[1..] == run[1..] + [a] && (run + [a])[0] == run[0];
      RunsLast(Next(s, run[0]), run[1..], a);
    }
  }

  lemma {:induction false} LastIsKept(started: real, run: seq<Action>)
    requires Runs(Initial(started), run)
    ensures End(Initial(started), run).last == LastLine(started, run)
  {
    if run != [] {
      var n := |run| - 1;
      assert run == run[..n] + [run[n]];
      RunsLast(Initial(started), run[..n], run[n]);
      LastIsKept(started, run[..n]);
    }
  }

  /** A line tells how many attempts were made before it, the outstanding one included, how
      many came to each outcome, and how long it is since the line before. */
  lemma ALineTellsTheRun(started: real, before: seq<Action>, now: real)
    requires Runs(Initial(started), before + [Emit(now)])
    ensures Runs(Initial(started), before)
    ensures var lines := End(Initial(started), before + [Emit(now)]).readings;
            && |lines| > 0 && lines[..|lines| - 1] == End(Initial(started), before).readings
            && var r := lines[|lines| - 1];
               && r.published == Sum(IsAction(Attempt), before)
               && r.confirmed == Sum(IsAction(Resolve(Confirmed)), before)
               && r.refused == Sum(IsAction(Resolve(Paused)), before)
               && r.failed == Sum(IsAction(Resolve(TimedOut)), before) + Sum(IsAction(Resolve(Raised)), before)
               && r.consumed == Sum(IsAction(Consume), before)
               && r.interval == now - LastLine(started, before)
               && (r.publishRate.Some? <==> r.interval > 0.0)
               && (r.consumeRate.Some? <==> r.interval > 0.0)
  {
    RunsLast(Initial(started), before, Emit(now));
    EveryOutcomeIsCounted(Initial(started), before);
    LastIsKept(started, before);
  }

  lemma {:induction false} StoppedStays(s: Load, later: seq<Action>)
    requires Runs(s, later) && s.stopped
    ensures var e := End(s, later);
            && e.stopped && e.sending == s.sending
            && e.published == s.published && e.confirmed == s.confirmed && e.refused == s.refused && e.failed == s.failed
    decreases |later|
  {
    if later != [] {
      StoppedStays(Next(s, later[0]), later[1..]);
    }
  }

  /** Once the publisher is cancelled nothing of its own moves again, the send that was
      outstanding included. */
  lemma CancelledStaysPut(s: Load, later: seq<Action>)
    requires Enabled(s, Cancel) && Runs(Next(s, Cancel), later)
    ensures var e := End(Next(s, Cancel), later);
            && e.sending == s.sending
            && e.published == s.published && e.confirmed == s.confirmed && e.refused == s.refused && e.failed == s.failed
  {
    StoppedStays(Next(s, Cancel), later);
  }

  // ---- intervals telescope -----------------------------------------------------------

  /** The two rates a line carries. */
  datatype Rate = Publishes | Consumes

  function Total(r: Reading, k: Rate): nat {
    if k.Publishes? then r.confirmed else r.consumed
  }

  function RateOf(r: Reading, k: Rate): Option<real> {
    if k.Publishes? then r.publishRate else r.consumeRate
  }

  function Before(readings: seq<Reading>, k: Rate): nat {
    if readings == [] then 0 else Total(readings[|readings| - 1], k)
  }

  /** What the lines' rates come to over their intervals. */
  function Credited(readings: seq<Reading>, k: Rate): real {
    if readings == [] then 0.0 else
      var r := readings[|readings| - 1];
      Credited(readings[..|readings| - 1], k) + Credit(r, k)
  }

  /** What fell in an interval of no length, whose line has no rate. */
  function Uncredited(readings: seq<Reading>, k: Rate): int {
    if readings == [] then 0 else
      var n := |readings| - 1;
      Uncredited(readings[..n], k) +
      if readings[n].interval > 0.0 then 0 else Total(readings[n], k) - Before(readings[..n], k)
  }

  function Mark(s: Load, k: Rate): nat {
    if k.Publishes? then s.lastConfirmed else s.lastConsumed
  }

  /** The rates read back are everything, except what fell in intervals of no length. */
  predicate Telescopes(s: Load, k: Rate) {
    && Mark(s, k) == Before(s.readings, k)
    && Credited(s.readings, k) + Uncredited(s.readings, k) as real == Mark(s, k) as real
    && Uncredited(s.readings, k) >= 0
    && Mark(s, k) <= if k.Publishes? then s.confirmed else s.consumed
  }

  lemma RateTimesInterval(delta: real, elapsed: real)
    requires elapsed > 0.0
    ensures delta / elapsed * elapsed == delta
  {}

  lemma CreditedAppend(readings: seq<Reading>, r: Reading, k: Rate)
    ensures Credited(readings + [r], k) == Credited(readings, k) + Credit(r, k)
    ensures Uncredited(readings + [r], k) ==
      Uncredited(readings, k) + if r.interval > 0.0 then 0 else Total(r, k) - Before(readings, k)
  {
    assert (readings + [r])[..|readings|] == readings;
  }

  function Credit(r: Reading, k: Rate): real {
    if RateOf(r, k).Some? then RateOf(r, k).value * r.interval else 0.0
  }

  lemma CreditIsTheDelta(s: Load, now: real, k: Rate)
    requires now >= s.last
    ensures var r := ReadingOf(s, now);
            Credit(r, k) == if r.interval > 0.0 then (Total(r, k) - Mark(s, k)) as real else 0.0
  {
    var r := ReadingOf(s, now);
    if r.interval > 0.0 {
      RateTimesInterval((Total(r, k) - Mark(s, k)) as real, r.interval);
    }
  }

  lemma TelescopesNext(s: Load, a: Action, k: Rate)
    requires Telescopes(s, k) && Enabled(s, a)
    ensures Telescopes(Next(s, a), k)
  {
    if a.Emit? {
      CreditedAppend(s.readings, ReadingOf(s, a.now), k);
      CreditIsTheDelta(s, a.now, k);
    }
  }

  lemma {:induction false} RunKeeps(s: Load, run: seq<Action>, k: Rate)
    requires Runs(s, run) && AddsUp(s) && Rising(s) && Telescopes(s, k)
    ensures AddsUp(End(s, run)) && Rising(End(s, run)) && Telescopes(End(s, run), k)
    decreases |run|
  {
    if run != [] {
      AddsUpNext(s, run[0]);
      TelescopesNext(s, run[0], k);
      RunKeeps(Next(s, run[0]), run[1..], k);
    }
  }

  /** At every await of every run: attempts outrun their outcomes by one exactly while a
      send is outstanding, or was when the publisher was cancelled; every line is at most
      every later one and is itself out by nought or one. */
  lemma EveryAttemptIsAccountedFor(started: real, run: seq<Action>)
    requires Runs(Initial(started), run)
    ensures var s := End(Initial(started), run);
            && s.published - (s.confirmed + s.refused + s.failed) == (if s.sending then 1 else 0)
            && Rising(s)
  {
    RunKeeps(Initial(started), run, Publishes);
  }

  /** A line's rates, times their intervals, come to the last line's totals exactly when
      nothing fell in an interval of no length: always, if every interval is positive. */
  lemma RatesTelescope(started: real, run: seq<Action>, k: Rate)
    requires Runs(Initial(started), run)
    ensures var readings := End(Initial(started), run).readings;
            && (Credited(readings, k) == Before(readings, k) as real <==> Uncredited(readings, k) == 0)
            && ((forall r :: r in readings ==> r.interval > 0.0) ==> Credited(readings, k) == Before(readings, k) as real)
  {
    RunKeeps(Initial(started), run, k);
    var readings := End(Initial(started), run).readings;
    if forall r :: r in readings ==> r.interval > 0.0 {
      NothingUncredited(readings, k);
    }
  }

  lemma {:induction false} NothingUncredited(readings: seq<Reading>, k: Rate)
    requires forall r :: r in readings ==> r.interval > 0.0
    ensures Uncredited(readings, k) == 0
  {
    if readings != [] {
      NothingUncredited(readings[..|readings| - 1], k);
    }
  }

  // ---- the loops themselves --------------------------------------------------------------

  function CountOf(outcome: Outcome): Outcome -> int {
    (other: Outcome) => if other == outcome then 1 else 0
  }

  class Counters {
    var published: nat
    var confirmed: nat
    var consumed: nat
    var refused: nat
    var failed: nat

    constructor ()
      ensures published == confirmed == consumed == refused == failed == 0
    {
      published, confirmed, consumed, refused, failed := 0, 0, 0, 0, 0;
    }

    /** The publish loop, for the outcomes its sends had; `cancelled` during one more. */
    method Publish(outcomes: seq<Outcome>, cancelled: bool)
      modifies this
      ensures published == old(published) + |outcomes| + if cancelled then 1 else 0
      ensures confirmed == old(confirmed) + Sum(CountOf(Confirmed), outcomes)
      ensures refused == old(refused) + Sum(CountOf(Paused), outcomes)
      ensures failed == old(failed) + Sum(CountOf(TimedOut), outcomes) + Sum(CountOf(Raised), outcomes)
      ensures consumed == old(consumed)
    {
      var number := 0;
      assert outcomes[..0] == [];
      while number < |outcomes|
        invariant number <= |outcomes|
        invariant published == old(published) + number && consumed == old(consumed)
        invariant confirmed == old(confirmed) + Sum(CountOf(Confirmed), outcomes[..number])
        invariant refused == old(refused) + Sum(CountOf(Paused), outcomes[..number])
        invariant failed ==
          old(failed) + Sum(CountOf(TimedOut), outcomes[..number]) + Sum(CountOf(Raised), outcomes[..number])
      {
        published := published + 1;
        match outcomes[number] {
          case Confirmed => confirmed := confirmed + 1;
          case Paused => refused := refused + 1;
          case TimedOut => failed := failed + 1;
          case Raised => failed := failed + 1;
        }
        assert outcomes[..number + 1] == outcomes[..number] + [outcomes[number]];
        forall o: Outcome ensures Sum(CountOf(o), outcomes[..number + 1])
                                  == Sum(CountOf(o), outcomes[..number]) + CountOf(o)(outcomes[number]) {
          SumAppend(CountOf(o), outcomes[..number], outcomes[number]);
        }
        number := number + 1;
      }
      assert outcomes[..number] == outcomes;
      if cancelled {
        published := published + 1;
      }
    }
  }

  class Sampler {
    var last: real
    var lastConfirmed: nat
    var lastConsumed: nat

    constructor (started: real)
      ensures last == started && lastConfirmed == 0 && lastConsumed == 0
    {
      last, lastConfirmed, lastConsumed := started, 0, 0;
    }

    /** One line, and the marks the next one is measured from. `load` is the run so far. */
    method EmitReading(counters: Counters, now: real, ghost load: Load) returns (reading: Reading)
      requires last == load.last && lastConfirmed == load.lastConfirmed && lastConsumed == load.lastConsumed
      requires counters.published == load.published && counters.confirmed == load.confirmed
      requires counters.consumed == load.consumed && counters.refused == load.refused && counters.failed == load.failed
      requires now >= last
      modifies this
      ensures reading == ReadingOf(load, now)
      ensures reading.published == counters.published && reading.confirmed == counters.confirmed
      ensures reading.consumed == counters.consumed && reading.refused == counters.refused
      ensures reading.failed == counters.failed && reading.interval == now - old(last)
      ensures last == now && lastConfirmed == counters.confirmed && lastConsumed == counters.consumed
      ensures var after := Next(load, Emit(now));
              last == after.last && lastConfirmed == after.lastConfirmed && lastConsumed == after.lastConsumed
    {
      var elapsed := now - last;
      var publishRate, consumeRate := None, None;
      if elapsed > 0.0 {
        publishRate := Some((counters.confirmed - lastConfirmed) as real / elapsed);
        consumeRate := Some((counters.consumed - lastConsumed) as real / elapsed);
      }
      reading := Reading(counters.published, counters.confirmed, counters.consumed, counters.refused, counters.failed,
                         elapsed, publishRate, consumeRate);
      last, lastConfirmed, lastConsumed := now, counters.confirmed, counters.consumed;
    }
  }
}
