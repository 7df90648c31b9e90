/** How far below zero an account can go, and what it takes to get there. */
module LedgerSolvency {
  import opened Wrappers
  import opened Sequences
  import opened LedgerJournal
  import opened LedgerWriter
  import opened LedgerSystem
  import opened LedgerSafety
  import opened LedgerTheorems

  // ---- what can take an account below zero ----------------------------------------

  /** A negative opening of the account: `fund` does not check its amount. */
  function NegativeOpening(account: string): Entry -> int {
    (e: Entry) => if IsOpening(e) && e.account == account && e.amount < 0 then e.amount else 0
  }

  /** A transfer's debit of the account. */
  function Debit(account: string): Entry -> int {
    (e: Entry) => if !IsOpening(e) && e.account == account && e.amount < 0 then e.amount else 0
  }

  function NegativePending(account: string): Post -> int {
    (p: Post) => if p.appended then NegativeOpening(account)(p.entry) else 0
  }

  /** At no prefix is the account lower than its negative openings and `extra` put it. */
  ghost predicate Floored(journal: seq<Entry>, account: string, extra: int) {
    forall k :: 0 <= k <= |journal| ==> Balance(journal[..k], account) >= Sum(NegativeOpening(account), journal[..k]) + extra
  }

  /** What an account holds, its negative openings and the debits taken unseen put back. */
  function Worth(s: System, account: string): int {
    Balance(s.journal, account) - Sum(NegativeOpening(account), s.journal) - Sum(Debit(account), s.doubted)
  }

  /** Every negative opening in the log and every debit taken in doubt is known to the
      cache, unless it is pending or unseen; and a decided debit is worth its while. */
  ghost predicate SolventFor(s: System, account: string) {
    && Floored(s.journal, account, Sum(Debit(account), s.doubted))
    && (s.Up() ==>
      && Sum(NegativeOpening(account), s.journal)
         <= Sum(NegativePending(account), s.W().funds) + Sum(NegativeOpening(account), s.unseen)
      && Sum(Debit(account), s.doubted) <= Sum(Debit(account), s.unseen)
      && (s.W().hand.Debiting? && !s.W().hand.post.appended && s.W().hand.transfer.from == account ==>
            Worth(s, account) >= s.W().hand.transfer.amount))
  }

  lemma FlooredAppend(journal: seq<Entry>, e: Entry, account: string, extra: int)
    requires Floored(journal, account, extra)
    requires Balance(journal + [e], account) >= Sum(NegativeOpening(account), journal + [e]) + extra
    ensures Floored(journal + [e], account, extra)
  {
    var j := journal + [e];
    forall k | 0 <= k <= |j| ensures Balance(j[..k], account) >= Sum(NegativeOpening(account), j[..k]) + extra {
      if k <= |journal| {
        assert j[..k] == journal[..k];
      } else {
        assert j[..k] == j;
      }
    }
  }

  /** Nothing pending or unseen hides more from the cache than its negative openings and
      its debits: what the cache holds, the account is worth. */
  lemma CacheIsWorth(s: System, account: string)
    requires Shaped(s) && s.Up() && s.W().hand.Idle? && AgreesFor(s, account) && SolventFor(s, account)
    ensures Of(s.W().accounts, account) <= Worth(s, account)
  {
    SumAtMost(NegativePending(account), PendingFor(account), s.W().funds);
    var f := (e: Entry) => NegativeOpening(account)(e) + Debit(account)(e);
    SumAtMost(f, AmountFor(account), s.unseen);
    SumOfBoth(account, s.unseen);
  }

  lemma {:induction false} SumOfBoth(account: string, s: seq<Entry>)
    ensures Sum((e: Entry) => NegativeOpening(account)(e) + Debit(account)(e), s)
            == Sum(NegativeOpening(account), s) + Sum(Debit(account), s)
  {
    if s != [] {
      SumOfBoth(account, s[..|s| - 1]);
    }
  }

  lemma SolventNext(s: System, a: Action, account: string)
    requires Shaped(s) && Enabled(s, a) && SolventFor(s, account) && (s.Up() ==> AgreesFor(s, account))
    ensures SolventFor(Next(s, a), account)
  {
    match a
    case Deliver(t, id) => SolventDeliver(s, t, id, account);
    case Append => SolventAppend(s, account);
    case Returned(_) =>
    case Doubt => SolventDoubt(s, account);
    case Fund(acc, amount, id) =>
      SumAppend(NegativePending(account), s.W().funds, Post(OpeningEntry(acc, amount, id), false));
    case FundAppend(i) => SolventFund(s, i, account);
    case FundReturned(i) => SolventReturned(s, i, account);
    case FundRefused(i) => SumPut(NegativePending(account), s.W().funds, i, []);
    case FundDoubt(i) => SolventFundDoubt(s, i, account);
    case Restart =>
      SumNonPositive(NegativeOpening(account), s.journal);
      SumNonPositive(Debit(account), s.doubted);
    case _ => SolventElse(s, a, account);
  }

  lemma SolventDeliver(s: System, t: Transfer, id: string, account: string)
    requires Shaped(s) && Enabled(s, Deliver(t, id)) && SolventFor(s, account) && AgreesFor(s, account)
    ensures SolventFor(Next(s, Deliver(t, id)), account)
  {
    CacheIsWorth(s, account);
  }

  lemma SolventElse(s: System, a: Action, account: string)
    requires Enabled(s, a) && SolventFor(s, account)
    requires a.Request? || a.Notice? || a.Announce? || a.AnnounceReturned? || a.Refuse? || a.Crash?
    ensures SolventFor(Next(s, a), account)
  {}

  lemma SolventAppend(s: System, account: string)
    requires Shaped(s) && Enabled(s, Append) && SolventFor(s, account)
    ensures SolventFor(Next(s, Append), account)
  {
    var e := s.W().hand.post.entry;
    RequestsAreNotOpenings(e);
    BalanceAppend(s.journal, e, account);
    SumAppend(NegativeOpening(account), s.journal, e);
    assert s.journal[..|s.journal|] == s.journal;
    FlooredAppend(s.journal, e, account, Sum(Debit(account), s.doubted));
  }

  lemma SolventDoubt(s: System, account: string)
    requires Shaped(s) && Enabled(s, Doubt) && SolventFor(s, account)
    ensures SolventFor(Next(s, Doubt), account)
  {
    if HandPost(s.W().hand).Some? {
      var e := s.W().hand.post.entry;
      SumAppend(Debit(account), s.doubted, e);
      SumAppend(Debit(account), s.unseen, e);
      SumAppend(NegativeOpening(account), s.unseen, e);
      RequestsAreNotOpenings(e);
    } else {
      assert s.unseen + [] == s.unseen && s.doubted + [] == s.doubted;
    }
  }

  lemma SolventFund(s: System, i: nat, account: string)
    requires Shaped(s) && Enabled(s, FundAppend(i)) && SolventFor(s, account)
    ensures SolventFor(Next(s, FundAppend(i)), account)
  {
    var e := s.W().funds[i].entry;
    assert s.W().funds[i] in s.W().funds;
    BalanceAppend(s.journal, e, account);
    SumAppend(NegativeOpening(account), s.journal, e);
    SumPut(NegativePending(account), s.W().funds, i, [s.W().funds[i].(appended := true)]);
    assert s.journal[..|s.journal|] == s.journal;
    FlooredAppend(s.journal, e, account, Sum(Debit(account), s.doubted));
  }

  lemma SolventReturned(s: System, i: nat, account: string)
    requires Enabled(s, FundReturned(i)) && SolventFor(s, account)
    ensures SolventFor(Next(s, FundReturned(i)), account)
  {
    SumPut(NegativePending(account), s.W().funds, i, []);
  }

  lemma SolventFundDoubt(s: System, i: nat, account: string)
    requires Shaped(s) && Enabled(s, FundDoubt(i)) && SolventFor(s, account)
    ensures SolventFor(Next(s, FundDoubt(i)), account)
  {
    var e := s.W().funds[i].entry;
    assert s.W().funds[i] in s.W().funds;
    SumPut(NegativePending(account), s.W().funds, i, []);
    SumAppend(Debit(account), s.doubted, e);
    SumAppend(Debit(account), s.unseen, e);
    SumAppend(NegativeOpening(account), s.unseen, e);
  }

  // ---- over whole runs --------------------------------------------------------------

  lemma {:induction false} RunKeepsSolvent(s: System, run: seq<Action>, account: string)
    requires Runs(s, run) && Agrees(s) && Shaped(s) && SolventFor(s, account)
    ensures SolventFor(End(s, run), account)
    decreases |run|
  {
    if run != [] {
      AgreesNext(s, run[0]);
      ShapedNext(s, run[0]);
      SolventNext(s, run[0], account);
      RunKeepsSolvent(Next(s, run[0]), run[1..], account);
    }
  }

  /** In every run, at every prefix of the journal, an account is no further below zero
      than its own negative openings and the debits taken by sends that raised. */
  lemma OverdraftIsBounded(run: seq<Action>, account: string)
    requires Runs(Initial(), run)
    ensures var s := End(Initial(), run);
            forall k :: 0 <= k <= |s.journal| ==>
              Balance(s.journal[..k], account)
              >= Sum(NegativeOpening(account), s.journal[..k]) + Sum(Debit(account), s.doubted)
  {
    RunKeepsSolvent(Initial(), run, account);
  }

  predicate Unharmed(s: System, account: string) {
    && (s.Up() ==> forall p :: p in s.W().funds ==> NegativeOpening(account)(p.entry) == 0)
    && (forall e :: e in s.journal ==> NegativeOpening(account)(e) == 0)
  }

  lemma UnharmedNext(s: System, a: Action, account: string)
    requires Shaped(s) && Unharmed(s, account) && Enabled(s, a)
    requires a.Fund? && a.account == account ==> a.amount >= 0
    ensures Unharmed(Next(s, a), account)
  {
    match a
    case Append => RequestsAreNotOpenings(s.W().hand.post.entry);
    case FundAppend(i) => SpliceMembers(s.W().funds, i, [s.W().funds[i].(appended := true)]);
    case FundReturned(i) => SpliceMembers(s.W().funds, i, []);
    case FundRefused(i) => SpliceMembers(s.W().funds, i, []);
    case FundDoubt(i) => SpliceMembers(s.W().funds, i, []);
    case _ =>
  }

  lemma {:induction false} RunKeepsUnharmed(s: System, run: seq<Action>, account: string)
    requires Runs(s, run) && Shaped(s) && Unharmed(s, account)
    requires forall a :: a in run && a.Fund? && a.account == account ==> a.amount >= 0
    ensures Unharmed(End(s, run), account)
    decreases |run|
  {
    if run != [] {
      assert run[0] in run;
      ShapedNext(s, run[0]);
      UnharmedNext(s, run[0], account);
      RunKeepsUnharmed(Next(s, run[0]), run[1..], account);
    }
  }

  /** Without a negative fund of it, and with none of its debits taken by a send that raised,
      an account is never below zero, at any prefix of the journal: whatever happens to the
      other accounts, and whatever else is taken in doubt. */
  lemma NoOverdraft(run: seq<Action>, account: string)
    requires Runs(Initial(), run)
    requires forall a :: a in run && a.Fund? && a.account == account ==> a.amount >= 0
    requires forall e :: e in End(Initial(), run).doubted ==> Debit(account)(e) == 0
    ensures var j := End(Initial(), run).journal;
            forall k :: 0 <= k <= |j| ==> Balance(j[..k], account) >= 0
  {
    var s := End(Initial(), run);
    OverdraftIsBounded(run, account);
    RunKeepsUnharmed(Initial(), run, account);
    forall k | 0 <= k <= |s.journal| ensures Balance(s.journal[..k], account) >= 0 {
      SumZero(NegativeOpening(account), s.journal[..k]);
      SumZero(Debit(account), s.doubted);
    }
  }

  // ---- short runs to an overdraft --------------------------------------------------------

  /** What a send in doubt costs: the debit is in the log, the cache never heard of it, and
      the redelivered command is accepted again. */
  lemma DoubtOverdraws(t: Transfer, funded: int) returns (run: seq<Action>)
    requires "T-" <= t.transferId && 0 < t.amount <= funded < 2 * t.amount
    ensures Runs(Initial(), run) && forall a :: a in run && a.Fund? ==> a.amount >= 0
    ensures var s := End(Initial(), run);
            Balance(s.journal, t.from) == funded - 2 * t.amount < 0 && |s.doubted| == 1
  {
    var d := DebitEntry(t, "");
    run := Opened(t.from, funded);
    var start := End(Initial(), run);
    RunsAppend(Initial(), run, Request(t));
    run := run + [Request(t)];
    run := DebitDoubted(run, t);
    run := DebitTaken(run, t);
    assert End(Initial(), run).journal == start.journal + [d] + [d];
    BalanceTwice(start.journal, d, t.from);
  }

  lemma BalanceTwice(journal: seq<Entry>, e: Entry, account: string)
    ensures Balance(journal + [e] + [e], account) == Balance(journal, account) + 2 * AmountFor(account)(e)
  {
    BalanceAppend(journal, e, account);
    BalanceAppend(journal + [e], e, account);
  }

  /** A command the cache covers is delivered, and the broker takes its debit. */
  lemma DebitTaken(before: seq<Action>, t: Transfer) returns (run: seq<Action>)
    requires Runs(Initial(), before)
    requires var s := End(Initial(), before);
             s.Up() && s.W().hand.Idle? && t in s.requested && 0 < t.amount <= Of(s.W().accounts, t.from)
    ensures run == before + [Deliver(t, ""), Append] && Runs(Initial(), run)
    ensures var s := End(Initial(), before);
            var d := DebitEntry(t, "");
            End(Initial(), run) ==
              s.(journal := s.journal + [d], delivered := s.delivered + [t]).With(s.W().(hand := Debiting(t, Post(d, true))))
  {
    RunsAppend(Initial(), before, Deliver(t, ""));
    run := before + [Deliver(t, "")];
    RunsAppend(Initial(), run, Append);
    run := run + [Append];
  }

  /** And its send raises. */
  lemma DebitDoubted(before: seq<Action>, t: Transfer) returns (run: seq<Action>)
    requires Runs(Initial(), before)
    requires var s := End(Initial(), before);
             s.Up() && s.W().hand.Idle? && t in s.requested && 0 < t.amount <= Of(s.W().accounts, t.from)
    ensures run == before + [Deliver(t, ""), Append, Doubt] && Runs(Initial(), run)
    ensures var s := End(Initial(), before);
            var d := DebitEntry(t, "");
            var e := End(Initial(), run);
            && e.journal == s.journal + [d] && e.doubted == s.doubted + [d] && e.requested == s.requested
            && e.writer == s.writer
  {
    run := DebitTaken(before, t);
    RunsAppend(Initial(), run, Doubt);
    run := run + [Doubt];
  }

  /** The shortest run to a funded account. */
  lemma Opened(account: string, amount: int) returns (run: seq<Action>)
    ensures Runs(Initial(), run) && run == [Restart, Fund(account, amount, ""), FundAppend(0), LedgerSystem.FundReturned(0)]
    ensures var s := End(Initial(), run);
            && s.journal == [OpeningEntry(account, amount, "")]
            && s.Up() && s.W().hand.Idle? && s.W().funds == [] && s.W().accounts == map[account := amount]
            && s.requested == {} && s.unseen == [] && s.doubted == []
            && s.delivered == [] && s.handled == [] && s.refusals == [] && s.interruptions == 0
            && Balance(s.journal, account) == amount
  {
    var e := OpeningEntry(account, amount, "");
    run := [];
    RunsAppend(Initial(), run, Restart);
    run := run + [Restart];
    RunsAppend(Initial(), run, Fund(account, amount, ""));
    run := run + [Fund(account, amount, "")];
    assert End(Initial(), run).W().funds == [Post(e, false)];
    RunsAppend(Initial(), run, FundAppend(0));
    run := run + [FundAppend(0)];
    assert End(Initial(), run).W().funds == [Post(e, true)];
    RunsAppend(Initial(), run, LedgerSystem.FundReturned(0));
    run := run + [LedgerSystem.FundReturned(0)];
    BalanceAppend([], e, account);
    assert [] + [e] == [e];
  }
}
