/** The ledger's promises, over whole runs from an empty journal. */
module LedgerTheorems {
  import opened Wrappers
  import opened Sequences
  import opened LedgerJournal
  import opened LedgerWriter
  import opened LedgerSystem
  import opened LedgerSafety

  lemma {:induction false} RunKeeps(s: System, run: seq<Action>)
    requires Runs(s, run) && Agrees(s) && Shaped(s) && Paired(s) && Counted(s) && Sourced(s)
    ensures Agrees(End(s, run)) && Shaped(End(s, run)) && Paired(End(s, run)) && Counted(End(s, run))
    ensures Sourced(End(s, run))
    decreases |run|
  {
    if run != [] {
      AgreesNext(s, run[0]);
      ShapedNext(s, run[0]);
      PairedNext(s, run[0]);
      SourcedNext(s, run[0]);
      CountedNext(s, run[0]);
      RunKeeps(Next(s, run[0]), run[1..]);
    }
  }

  /** At every await of every run: the cache, what it has yet to apply and what was taken
      in sends that raised since the writer started are the log, account by account. */
  lemma CacheAgreesWithLog(run: seq<Action>)
    requires Runs(Initial(), run) && End(Initial(), run).Up()
    ensures var s := End(Initial(), run);
            && (forall a :: Of(s.W().accounts, a) + Pending(s.W(), a) + Balance(s.unseen, a) == Balance(s.journal, a))
            && s.W().accounts.Keys + PendingAccounts(s.W()) + Accounts(s.unseen) == Accounts(s.journal)
  {
    RunKeeps(Initial(), run);
    var s := End(Initial(), run);
    forall a ensures Of(s.W().accounts, a) + Pending(s.W(), a) + Balance(s.unseen, a) == Balance(s.journal, a) {
      assert AgreesFor(s, a);
    }
  }

  /** With no send outstanding, every entry was either replayed, posted or taken unseen, once. */
  lemma EveryEntryIsCountedOnce(run: seq<Action>)
    requires Runs(Initial(), run)
    requires var s := End(Initial(), run); s.Up() && s.W().hand.Idle? && s.W().funds == []
    ensures var s := End(Initial(), run); s.W().replayed + s.W().posted + |s.unseen| == |s.journal|
  {
    RunKeeps(Initial(), run);
  }

  /** Nothing is in the journal that nobody asked for. */
  lemma EveryEntryHasASource(run: seq<Action>, e: Entry)
    requires Runs(Initial(), run) && e in End(Initial(), run).journal
    ensures HasSource(End(Initial(), run).requested, e)
  {
    RunKeeps(Initial(), run);
  }

  /** What the writer decides against: the log, less what it has yet to apply and what it
      was never told of. */
  function Known(s: System, account: string): int
    requires s.Up()
  {
    Balance(s.journal, account) - Pending(s.W(), account) - Balance(s.unseen, account)
  }

  /** A command is accepted exactly when its amount is positive and what the writer knows
      of the log covers it; a refusal for want of funds reports exactly that. */
  lemma DecidedAgainstTheLog(run: seq<Action>, t: Transfer, id: string)
    requires Runs(Initial(), run) && Enabled(End(Initial(), run), Deliver(t, id))
    ensures var s := End(Initial(), run);
            var decided := Next(s, Deliver(t, id)).W().hand;
            && (decided.Debiting? <==> 0 < t.amount <= Known(s, t.from))
            && (decided.Debiting? ==> IsDebit(decided.post.entry, t))
            && (!decided.Debiting? ==>
                  && decided.Refusing?
                  && IsRefusal(decided.refusal, t)
                  && decided.refusal.reason ==
                       if t.amount <= 0 then NotPositive else InsufficientFunds(t.from, Known(s, t.from)))
  {
    RunKeeps(Initial(), run);
    assert AgreesFor(End(Initial(), run), t.from);
  }

  /** The total is the openings less exactly the debits no credit answered, and those
      number at most one per interruption, plus one while the handler is halfway. */
  lemma MoneyIsConserved(run: seq<Action>)
    requires Runs(Initial(), run)
    ensures var s := End(Initial(), run);
            && Sum(AnyAmount(), s.journal) == Sum(OpeningAmount(), s.journal) + Sum(AnyAmount(), Losses(s.journal))
            && |Losses(s.journal)| <= s.interruptions + (if Halfway(s) then 1 else 0)
            && Sum(AnyAmount(), s.journal) <= Sum(OpeningAmount(), s.journal)
  {
    RunKeeps(Initial(), run);
    PairedTotal(End(Initial(), run).journal);
    LossesOnlyLose(Losses(End(Initial(), run).journal));
  }

  lemma {:induction false} LossesOnlyLose(losses: seq<Entry>)
    requires forall e :: e in losses ==> e.amount < 0
    ensures Sum(AnyAmount(), losses) <= 0
    ensures losses != [] ==> Sum(AnyAmount(), losses) < 0
  {
    if losses != [] {
      LossesOnlyLose(losses[..|losses| - 1]);
    }
  }

  // ---- uninterrupted runs: every command is two entries or one refusal -------------

  function NotOpening(): Entry -> bool {
    (e: Entry) => !IsOpening(e)
  }

  function EntriesOf(handled: seq<Handled>): seq<Entry> {
    if handled == [] then [] else
      var h := handled[|handled| - 1];
      EntriesOf(handled[..|handled| - 1]) + if h.Moved? then [h.debit, h.credit] else []
  }

  function RefusalsOf(handled: seq<Handled>): seq<Rejected> {
    if handled == [] then [] else
      var h := handled[|handled| - 1];
      RefusalsOf(handled[..|handled| - 1]) + if h.Refused? then [h.refusal] else []
  }

  function CommandsOf(handled: seq<Handled>): seq<Transfer> {
    if handled == [] then [] else
      CommandsOf(handled[..|handled| - 1]) + [handled[|handled| - 1].transfer]
  }

  function EntriesInHand(h: Hand): seq<Entry> {
    match h
    case Debiting(_, p) => if p.appended then [p.entry] else []
    case Crediting(_, d, p) => [d] + if p.appended then [p.entry] else []
    case _ => []
  }

  function HandOf(s: System): Hand {
    if s.Up() then s.W().hand else Idle
  }

  /** A handled command left a pair that moves its amount, or a refusal naming it. */
  predicate EndedWell(h: Handled) {
    match h
    case Moved(t, d, c) => t.amount > 0 && IsDebit(d, t) && IsCredit(c, t) && d.amount + c.amount == 0
    case Refused(t, r) => IsRefusal(r, t)
  }

  predicate Reported(s: System) {
    && (forall h :: h in s.handled ==> EndedWell(h))
    && s.noticed <= s.refusals
    && (s.interruptions == 0 ==>
      && Filter(NotOpening(), s.journal) == EntriesOf(s.handled) + EntriesInHand(HandOf(s))
      && s.refusals == RefusalsOf(s.handled)
                       + (if HandOf(s).Refusing? && HandOf(s).announced then [HandOf(s).refusal] else [])
      && (s.Up() ==> s.W().rejected == |s.refusals| + if HandOf(s).Refusing? && !HandOf(s).announced then 1 else 0)
      && (!s.Up() ==> s.refusals == [])
      && s.delivered == CommandsOf(s.handled) + (if HandOf(s).Idle? then [] else [HandOf(s).transfer]))
  }

  lemma ReportedNext(s: System, a: Action)
    requires Shaped(s) && Reported(s) && Enabled(s, a)
    ensures Reported(Next(s, a))
  {
    match a
    case Append => ReportedAppend(s);
    case FundAppend(i) => FilterAppend(NotOpening(), s.journal, s.W().funds[i].entry);
    case Returned(id) => ReportedReturned(s, id);
    case Announce => ReportedAnnounce(s);
    case AnnounceReturned => ReportedAnnounce(s);
    case _ => ReportedElse(s, a);
  }

  lemma ReportedAppend(s: System)
    requires Shaped(s) && Reported(s) && Enabled(s, Append)
    ensures Reported(Next(s, Append))
  {
    FilterAppend(NotOpening(), s.journal, s.W().hand.post.entry);
    RequestsAreNotOpenings(s.W().hand.post.entry);
  }

  lemma ReportedAnnounce(s: System)
    requires Shaped(s) && Reported(s)
    ensures Enabled(s, Announce) ==> Reported(Next(s, Announce))
    ensures Enabled(s, AnnounceReturned) ==> Reported(Next(s, AnnounceReturned))
  {
    if Enabled(s, AnnounceReturned) {
      HandledAppend(s.handled, Refused(s.W().hand.transfer, s.W().hand.refusal));
    }
  }

  lemma ReportedElse(s: System, a: Action)
    requires Reported(s) && Enabled(s, a)
    requires a.Request? || a.Notice? || a.Deliver? || a.Refuse? || a.Doubt? || a.Fund? || a.FundReturned? || a.FundRefused? || a.FundDoubt? || a.Crash? || a.Restart?
    ensures Reported(Next(s, a))
  {}

  lemma HandledAppend(handled: seq<Handled>, h: Handled)
    ensures EntriesOf(handled + [h]) == EntriesOf(handled) + if h.Moved? then [h.debit, h.credit] else []
    ensures RefusalsOf(handled + [h]) == RefusalsOf(handled) + if h.Refused? then [h.refusal] else []
    ensures CommandsOf(handled + [h]) == CommandsOf(handled) + [h.transfer]
  {
    assert (handled + [h])[..|handled|] == handled;
  }

  lemma ReportedReturned(s: System, id: string)
    requires Shaped(s) && Reported(s) && Enabled(s, Returned(id))
    ensures Reported(Next(s, Returned(id)))
  {
    if s.W().hand.Crediting? {
      HandledAppend(s.handled, Moved(s.W().hand.transfer, s.W().hand.debit, s.W().hand.post.entry));
    }
  }

  lemma {:induction false} RunKeepsReported(s: System, run: seq<Action>)
    requires Runs(s, run) && Shaped(s) && Reported(s)
    ensures Reported(End(s, run))
    decreases |run|
  {
    if run != [] {
      ShapedNext(s, run[0]);
      ReportedNext(s, run[0]);
      RunKeepsReported(Next(s, run[0]), run[1..]);
    }
  }

  /** Without an interruption, once the handler is idle: the commands delivered are the
      commands handled, in order; the transfers in the journal are exactly their pairs
      and the refusals exactly their refusals; and nothing was lost. */
  lemma EveryCommandIsHandledOnce(run: seq<Action>)
    requires Runs(Initial(), run)
    requires var s := End(Initial(), run); s.interruptions == 0 && HandOf(s).Idle?
    ensures var s := End(Initial(), run);
            && s.delivered == CommandsOf(s.handled)
            && (forall h :: h in s.handled ==> EndedWell(h))
            && Filter(NotOpening(), s.journal) == EntriesOf(s.handled)
            && s.refusals == RefusalsOf(s.handled)
            && s.noticed <= s.refusals
            && (s.Up() ==> s.W().rejected == |s.refusals|)
            && Sum(AnyAmount(), s.journal) == Sum(OpeningAmount(), s.journal)
  {
    RunKeepsReported(Initial(), run);
    RunKeeps(Initial(), run);
    MoneyIsConserved(run);
  }

  function IsNotice(): Action -> int {
    (a: Action) => if a.Notice? then 1 else 0
  }

  lemma {:induction false} RunKeepsNotices(s: System, run: seq<Action>)
    requires Runs(s, run)
    ensures |End(s, run).noticed| == |s.noticed| + Sum(IsNotice(), run)
    decreases |run|
  {
    if run != [] {
      RunKeepsNotices(Next(s, run[0]), run[1..]);
      assert run == [run[0]] + run[1..];
      SumConcat(IsNotice(), [run[0]], run[1..]);
      SumShort(IsNotice(), run[0], run[0]);
    }
  }

  /** The gateway has kept one refusal for each delivery of one, in the order they were sent. */
  lemma EveryNoticeIsKept(run: seq<Action>)
    requires Runs(Initial(), run)
    ensures var s := End(Initial(), run);
            var n := Sum(IsNotice(), run);
            0 <= n <= |s.refusals| && s.noticed == s.refusals[..n]
  {
    RunKeepsReported(Initial(), run);
    RunKeepsNotices(Initial(), run);
  }

  // ---- a restart is unobservable ----------------------------------------------------

  /** A system with the writer's counters, and the run's bookkeeping, put aside. */
  function Masked(s: System): System {
    s.(interruptions := 0,
       writer := if s.Up() then Some(s.W().(replayed := 0, posted := 0, rejected := 0)) else None)
  }

  lemma MaskedNext(s: System, t: System, a: Action)
    requires Masked(s) == Masked(t) && Enabled(s, a)
    ensures Enabled(t, a) && Masked(Next(s, a)) == Masked(Next(t, a))
  {
    assert s.Up() == t.Up();
    if s.Up() {
      assert Masked(s).W() == Masked(t).W();
      assert s.W().hand == t.W().hand && s.W().funds == t.W().funds && s.W().accounts == t.W().accounts;
    }
  }

  lemma {:induction false} MaskedRuns(s: System, t: System, run: seq<Action>)
    requires Masked(s) == Masked(t) && Runs(s, run)
    ensures Runs(t, run) && Masked(End(s, run)) == Masked(End(t, run))
    decreases |run|
  {
    if run != [] {
      MaskedNext(s, t, run[0]);
      MaskedRuns(Next(s, run[0]), Next(t, run[0]), run[1..]);
    }
  }

  /** A restart with nothing pending puts right exactly what the cache had missed. With
      nothing missed, it holds the same accounts, keys included, and every later run goes
      the same way and leaves the same journal, refusals and accounts as if the writer had
      never stopped. */
  lemma RestartIsUnobservable(before: seq<Action>, later: seq<Action>)
    requires Runs(Initial(), before)
    requires var s := End(Initial(), before); s.Up() && s.W().hand.Idle? && s.W().funds == []
    ensures var s := End(Initial(), before);
            var restarted := Next(Next(s, Crash), Restart);
            && (forall a :: Of(restarted.W().accounts, a) == Of(s.W().accounts, a) + Balance(s.unseen, a))
            && (s.unseen == [] ==>
                  && restarted.W().accounts == s.W().accounts
                  && (Runs(s, later) <==> Runs(restarted, later))
                  && (Runs(s, later) ==> Masked(End(s, later)) == Masked(End(restarted, later))))
  {
    var s := End(Initial(), before);
    RunKeeps(Initial(), before);
    FoldIsBalances(s.journal);
    var restarted := Next(Next(s, Crash), Restart);
    forall a ensures Of(restarted.W().accounts, a) == Of(s.W().accounts, a) + Balance(s.unseen, a) {
      assert AgreesFor(s, a) && Of(Fold(s.journal), a) == Balance(s.journal, a);
    }
    if s.unseen == [] {
      SameAccounts(s, restarted);
      if Runs(s, later) {
        MaskedRuns(s, restarted, later);
      }
      if Runs(restarted, later) {
        MaskedRuns(restarted, s, later);
      }
    }
  }

  lemma SameAccounts(s: System, restarted: System)
    requires Agrees(s) && s.Up() && s.W().hand.Idle? && s.W().funds == [] && s.unseen == []
    requires restarted == Next(Next(s, Crash), Restart)
    ensures restarted.W().accounts == s.W().accounts && Masked(s) == Masked(restarted)
  {
    FoldIsBalances(s.journal);
    assert AgreesInKeys(s) && PendingAccounts(s.W()) == {} && Accounts(s.unseen) == {};
    forall a | a in s.W().accounts ensures s.W().accounts[a] == Fold(s.journal)[a] {
      assert AgreesFor(s, a) && Of(Fold(s.journal), a) == Balance(s.journal, a);
    }
  }
}
