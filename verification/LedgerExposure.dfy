/** Exactly when a run can go on to overdraw an account. */
module LedgerExposure {
  import opened Wrappers
  import opened Sequences
  import opened LedgerJournal
  import opened LedgerWriter
  import opened LedgerSystem
  import opened LedgerSafety
  import opened LedgerTheorems
  import opened LedgerSolvency

  // ---- what an account has to spare --------------------------------------------------------

  /** Funds of the account that the broker has and the cache has not, and that will raise it. */
  function Rising(account: string): Post -> int {
    (p: Post) => if p.appended && p.entry.account == account && p.entry.amount > 0 then p.entry.amount else 0
  }

  /** Funds of the account in flight, taken by the broker or not, that will lower it. */
  function Falling(account: string): Post -> int {
    (p: Post) => if p.entry.account == account && p.entry.amount < 0 then p.entry.amount else 0
  }

  /** The command in hand: its debit as soon as it is decided, its credit once it is taken. */
  function HandShare(h: Hand, account: string): int {
    match h
    case Debiting(_, p) => AmountFor(account)(p.entry)
    case Crediting(_, _, p) => if p.appended then AmountFor(account)(p.entry) else 0
    case _ => 0
  }

  /** What the writer will believe the account holds once its sends have returned, the
      lowering funds aside. */
  function Believed(s: System, account: string): int
    requires s.Up()
  {
    Of(s.W().accounts, account) + HandShare(s.W().hand, account) + Sum(Rising(account), s.W().funds)
  }

  function Least(x: int, y: int): int {
    if x < y then x else y
  }

  /** How low the account can be brought: transfers take what the writer believes, what it
      was never told of remains, and the lowering funds land. */
  function Slack(s: System, account: string): int
    requires s.Up()
  {
    Least(Believed(s, account), 0) + Balance(s.unseen, account) + Sum(Falling(account), s.W().funds)
  }

  function Landing(account: string): Post -> int {
    (p: Post) => Rising(account)(p) + Falling(account)(p)
  }

  lemma LandsAtMost(account: string, p: Post)
    ensures Landing(account)(p) <= PendingFor(account)(p)
  {
    assert Rising(account)(p) == if p.appended && p.entry.account == account && p.entry.amount > 0 then p.entry.amount else 0;
    assert Falling(account)(p) == if p.entry.account == account && p.entry.amount < 0 then p.entry.amount else 0;
    assert AmountFor(account)(p.entry) == if p.entry.account == account then p.entry.amount else 0;
  }

  lemma {:induction false} SumOfFunds(account: string, funds: seq<Post>)
    ensures Sum(Landing(account), funds) == Sum(Rising(account), funds) + Sum(Falling(account), funds)
  {
    if funds != [] {
      SumOfFunds(account, funds[..|funds| - 1]);
    }
  }

  lemma HoldsItsSlack(s: System, account: string)
    requires s.Up() && Shaped(s) && AgreesFor(s, account)
    ensures Balance(s.journal, account) >= Slack(s, account)
  {
    forall p | p in s.W().funds ensures Landing(account)(p) <= PendingFor(account)(p) {
      LandsAtMost(account, p);
    }
    SumAtMost(Landing(account), PendingFor(account), s.W().funds);
    SumOfFunds(account, s.W().funds);
  }

  // ---- what a step does to it ----------------------------------------------------------------

  /** No negative fund, and no debit taken by a send that raises. */
  predicate Harmless(s: System, a: Action)
    requires Enabled(s, a)
  {
    (a.Fund? ==> a.amount >= 0) && (a.Doubt? ==> !s.W().hand.Debiting?)
  }

  lemma SlackAfterFund(s: System, a: Action, account: string)
    requires s.Up() && a.Fund?
    ensures Slack(Next(s, a), account) == Slack(s, account) + if a.account == account then Least(a.amount, 0) else 0
  {
    var post := Post(OpeningEntry(a.account, a.amount, a.id), false);
    var s' := Next(s, a);
    assert s'.W().funds == s.W().funds + [post] && s'.W().hand == s.W().hand;
    assert s'.W().accounts == s.W().accounts && s'.unseen == s.unseen;
    SumAppend(Rising(account), s.W().funds, post);
    SumAppend(Falling(account), s.W().funds, post);
    assert Rising(account)(post) == 0;
    assert Falling(account)(post) == if a.account == account then Least(a.amount, 0) else 0;
  }

  /** What there is to cover a debit in hand if its send raises with the entry taken. */
  function Spare(s: System, account: string): int
    requires s.Up()
  {
    Least(Of(s.W().accounts, account) + Sum(Rising(account), s.W().funds), 0)
    + Balance(s.unseen, account) + Sum(Falling(account), s.W().funds)
  }

  lemma SlackAfterDoubt(s: System, account: string)
    requires Enabled(s, Doubt) && s.W().hand.Debiting?
    ensures Slack(Next(s, Doubt), account) == Spare(s, account) + AmountFor(account)(s.W().hand.post.entry)
  {
    BalanceAppend(s.unseen, s.W().hand.post.entry, account);
  }

  lemma SlackKept(s: System, a: Action, account: string)
    requires Enabled(s, a) && Shaped(s) && s.Up() && Next(s, a).Up() && !a.Restart?
    requires Harmless(s, a)
    ensures Slack(Next(s, a), account) >= Slack(s, account)
  {
    match a
    case Deliver(t, id) =>
      SumNonNegative(Rising(account), s.W().funds);
    case Doubt => SlackAfterCreditDoubt(s, account);
    case Fund(_, _, _) => SlackAfterFund(s, a, account);
    case FundAppend(i) => SlackFund(s, a, i, account);
    case FundReturned(i) => SlackFund(s, a, i, account);
    case FundRefused(i) => SlackFund(s, a, i, account);
    case FundDoubt(i) => SlackFund(s, a, i, account);
    case _ => SlackHand(s, a, account);
  }

  lemma SlackAfterCreditDoubt(s: System, account: string)
    requires Enabled(s, Doubt) && Shaped(s) && !s.W().hand.Debiting?
    ensures Slack(Next(s, Doubt), account) >= Slack(s, account)
  {
    if s.W().hand.Crediting? {
      BalanceAppend(s.unseen, s.W().hand.post.entry, account);
    } else {
      assert s.unseen + [] == s.unseen;
    }
  }

  lemma SlackHand(s: System, a: Action, account: string)
    requires Enabled(s, a) && Shaped(s) && s.Up()
    requires a.Request? || a.Notice? || a.Append? || a.Returned? || a.Announce? || a.AnnounceReturned? || a.Refuse?
    ensures Slack(Next(s, a), account) >= Slack(s, account)
  {}

  lemma SlackFund(s: System, a: Action, i: nat, account: string)
    requires Enabled(s, a) && a in {FundAppend(i), LedgerSystem.FundReturned(i), FundRefused(i), FundDoubt(i)}
    ensures Slack(Next(s, a), account) >= Slack(s, account)
  {
    var p := s.W().funds[i];
    if a.FundAppend? {
      SumPut(Rising(account), s.W().funds, i, [p.(appended := true)]);
      SumPut(Falling(account), s.W().funds, i, [p.(appended := true)]);
    } else {
      SumPut(Rising(account), s.W().funds, i, []);
      SumPut(Falling(account), s.W().funds, i, []);
      BalanceAppend(s.unseen, p.entry, account);
    }
  }

  // ---- slack is enough ------------------------------------------------------------------------

  ghost predicate NeverBelow(journal: seq<Entry>, account: string) {
    forall k :: 0 <= k <= |journal| ==> Balance(journal[..k], account) >= 0
  }

  ghost predicate NeverOverdrawn(journal: seq<Entry>) {
    forall a :: NeverBelow(journal, a)
  }

  ghost predicate SolidFor(s: System, account: string) {
    NeverBelow(s.journal, account) && (s.Up() ==> Slack(s, account) >= 0)
  }

  lemma NeverBelowAppend(journal: seq<Entry>, e: Entry, account: string)
    requires NeverBelow(journal, account) && Balance(journal + [e], account) >= 0
    ensures NeverBelow(journal + [e], account)
  {
    var j := journal + [e];
    forall k | 0 <= k <= |j| ensures Balance(j[..k], account) >= 0 {
      assert if k <= |journal| then j[..k] == journal[..k] else j[..k] == j;
    }
  }

  lemma SolidNext(s: System, a: Action, account: string)
    requires Agrees(s) && Shaped(s) && SolidFor(s, account) && Enabled(s, a)
    requires s.Up() && Next(s, a).Up() && !a.Restart? ==> Slack(Next(s, a), account) >= 0
    ensures SolidFor(Next(s, a), account)
  {
    var s' := Next(s, a);
    AgreesNext(s, a);
    ShapedNext(s, a);
    if a.Restart? {
      SlackAtStart(s, account);
    } else if a.Append? || a.FundAppend? {
      assert AgreesFor(s', account);
      HoldsItsSlack(s', account);
      NeverBelowAppend(s.journal, if a.Append? then s.W().hand.post.entry else s.W().funds[a.index].entry, account);
    }
  }

  lemma SlackAtStart(s: System, account: string)
    requires Enabled(s, Restart) && NeverBelow(s.journal, account)
    ensures Slack(Next(s, Restart), account) >= 0
  {
    FoldIsBalances(s.journal);
    assert Of(Fold(s.journal), account) == Balance(s.journal, account);
    assert s.journal[..|s.journal|] == s.journal;
  }

  /** Every step of the run is harmless. */
  predicate HarmlessRun(s: System, run: seq<Action>): (harmless: bool)
    ensures harmless ==> Runs(s, run)
    decreases |run|
  {
    run == [] || (Enabled(s, run[0]) && Harmless(s, run[0]) && HarmlessRun(Next(s, run[0]), run[1..]))
  }

  lemma {:induction false} HarmlessRunIsSolid(s: System, run: seq<Action>, account: string)
    requires HarmlessRun(s, run) && Agrees(s) && Shaped(s) && SolidFor(s, account)
    ensures SolidFor(End(s, run), account)
    decreases |run|
  {
    if run != [] {
      if s.Up() && Next(s, run[0]).Up() && !run[0].Restart? {
        SlackKept(s, run[0], account);
      }
      SolidNext(s, run[0], account);
      AgreesNext(s, run[0]);
      ShapedNext(s, run[0]);
      HarmlessRunIsSolid(Next(s, run[0]), run[1..], account);
    }
  }

  lemma {:induction false} HarmlessAppend(s: System, run: seq<Action>, a: Action)
    requires HarmlessRun(s, run) && Enabled(End(s, run), a) && Harmless(End(s, run), a)
    ensures HarmlessRun(s, run + [a]) && End(s, run + [a]) == Next(End(s, run), a)
    decreases |run|
  {
    if run == [] {
      assert run + [a] == [a] && [a][1..] == [];
    } else {
      assert (run + [a])[1..] == run[1..] + [a] && (run + [a])[0] == run[0];
      HarmlessAppend(Next(s, run[0]), run[1..], a);
    }
  }

  lemma {:induction false} HarmlessConcat(s: System, run: seq<Action>, later: seq<Action>)
    requires HarmlessRun(s, run) && HarmlessRun(End(s, run), later)
    ensures HarmlessRun(s, run + later) && End(s, run + later) == End(End(s, run), later)
    decreases |later|
  {
    if later == [] {
      assert run + later == run;
    } else {
      HarmlessAppend(s, run, later[0]);
      HarmlessConcat(s, run + [later[0]], later[1..]);
      assert run + [later[0]] + later[1..] == run + later;
    }
  }

  // ---- and nothing less is ----------------------------------------------------------------------

  /** However the run goes on, with nothing harmful done in it, no account goes below zero. */
  ghost predicate Safe(s: System) {
    forall later :: HarmlessRun(s, later) ==> NeverOverdrawn(End(s, later).journal)
  }

  /** What the run that overdraws starts with, and keeps on its way. */
  ghost predicate Exposed(s: System, account: string) {
    Agrees(s) && Shaped(s) && s.Up() && Slack(s, account) < 0
  }

  lemma ExposedNext(s: System, a: Action, account: string)
    requires Exposed(s, account) && Enabled(s, a) && Next(s, a).Up() && Slack(Next(s, a), account) < 0
    ensures Exposed(Next(s, a), account)
  {
    AgreesNext(s, a);
    ShapedNext(s, a);
  }

  /** The run: the handler finishes its debit and gives up its credit, the raising funds
      return, what the writer then believes is transferred away, and the lowering funds
      land. */
  lemma ExposureOverdraws(s: System, account: string)
    requires Exposed(s, account)
    ensures !Safe(s)
  {
    var s1, run1 := TakeAway(s, account);
    var s2, run2 := LandFalling(s1, account);
    HarmlessConcat(s, run1, run2);
    AllHasLanded(s2, account);
    BelowIsOverdrawn(s2.journal, account);
  }

  lemma BelowIsOverdrawn(journal: seq<Entry>, account: string)
    requires Balance(journal, account) < 0
    ensures !NeverOverdrawn(journal)
  {
    assert journal[..|journal|] == journal;
    assert !NeverBelow(journal, account);
  }

  /** Up to the landing. */
  lemma TakeAway(s: System, account: string) returns (e: System, run: seq<Action>)
    requires Exposed(s, account)
    ensures HarmlessRun(s, run) && e == End(s, run) && Exposed(e, account) && Believed(e, account) <= 0
    ensures HandPending(e.W().hand, account) == HandShare(e.W().hand, account)
    ensures forall p :: p in e.W().funds ==> Rising(account)(p) == 0
  {
    var s1, run1 := FinishHand(s, account);
    var s2, run2 := ReturnRising(s1, account);
    HarmlessConcat(s, run1, run2);
    var run3;
    e, run3 := TransferAway(s2, account);
    HarmlessConcat(s, run1 + run2, run3);
    run := run1 + run2 + run3;
  }

  lemma FinishHand(s: System, account: string) returns (e: System, run: seq<Action>)
    requires Exposed(s, account)
    ensures HarmlessRun(s, run) && e == End(s, run) && Exposed(e, account) && e.W().hand.Idle?
    decreases match s.W().hand
              case Debiting(_, p) => if p.appended then 3 else 4
              case Crediting(_, _, p) => 2
              case Refusing(_, _, _) => 1
              case Idle => 0
  {
    if s.W().hand.Idle? {
      e, run := s, [];
    } else {
      var a := HandStep(s);
      HandStepKeeps(s, account);
      ExposedNext(s, a, account);
      var rest;
      e, rest := FinishHand(Next(s, a), account);
      run := [a] + rest;
      assert run[1..] == rest;
    }
  }

  function HandStep(s: System): Action
    requires s.Up() && !s.W().hand.Idle?
  {
    match s.W().hand
    case Debiting(_, p) => if p.appended then LedgerSystem.Returned("") else Append
    case Crediting(_, _, p) => if p.appended then LedgerSystem.Returned("") else LedgerSystem.Refuse
    case Refusing(_, _, announced) => if announced then AnnounceReturned else LedgerSystem.Refuse
  }

  lemma HandStepKeeps(s: System, account: string)
    requires s.Up() && !s.W().hand.Idle?
    ensures Enabled(s, HandStep(s)) && Harmless(s, HandStep(s)) && Next(s, HandStep(s)).Up()
    ensures Slack(Next(s, HandStep(s)), account) == Slack(s, account)
  {}

  lemma ReturnRising(s: System, account: string) returns (e: System, run: seq<Action>)
    requires Exposed(s, account) && s.W().hand.Idle?
    ensures HarmlessRun(s, run) && e == End(s, run) && Exposed(e, account) && e.W().hand.Idle?
    ensures forall p :: p in e.W().funds ==> Rising(account)(p) == 0
    decreases |s.W().funds|
  {
    if p :| p in s.W().funds && Rising(account)(p) != 0 {
      var i :| 0 <= i < |s.W().funds| && s.W().funds[i] == p;
      var a := LedgerSystem.FundReturned(i);
      SumPut(Rising(account), s.W().funds, i, []);
      SumPut(Falling(account), s.W().funds, i, []);
      ExposedNext(s, a, account);
      var rest;
      e, rest := ReturnRising(Next(s, a), account);
      run := [a] + rest;
      assert run[1..] == rest;
    } else {
      e, run := s, [];
    }
  }

  /** With nothing left for the writer to believe in. */
  lemma TransferAway(s: System, account: string) returns (e: System, run: seq<Action>)
    requires Exposed(s, account) && s.W().hand.Idle? && forall p :: p in s.W().funds ==> Rising(account)(p) == 0
    ensures HarmlessRun(s, run) && e == End(s, run) && Exposed(e, account) && e.W().funds == s.W().funds
    ensures Believed(e, account) <= 0 && HandPending(e.W().hand, account) == HandShare(e.W().hand, account)
  {
    SumZero(Rising(account), s.W().funds);
    var held := Of(s.W().accounts, account);
    if held <= 0 {
      e, run := s, [];
    } else {
      var t := Transfer("T-", account, account, held, "");
      run := [];
      HarmlessAppend(s, run, Request(t));
      run := run + [Request(t)];
      HarmlessAppend(s, run, Deliver(t, ""));
      run := run + [Deliver(t, "")];
      HarmlessAppend(s, run, Append);
      run := run + [Append];
      e := End(s, run);
      assert e.W().hand == Debiting(t, Post(DebitEntry(t, ""), true)) && e.W().accounts == s.W().accounts;
      KeepsThrough(s, run);
    }
  }

  lemma {:induction false} KeepsThrough(s: System, run: seq<Action>)
    requires Runs(s, run) && Agrees(s) && Shaped(s)
    ensures Agrees(End(s, run)) && Shaped(End(s, run))
    decreases |run|
  {
    if run != [] {
      AgreesNext(s, run[0]);
      ShapedNext(s, run[0]);
      KeepsThrough(Next(s, run[0]), run[1..]);
    }
  }

  function IsOut(): Post -> int {
    (p: Post) => if p.appended then 0 else 1
  }

  lemma LandFalling(s: System, account: string) returns (e: System, run: seq<Action>)
    requires Exposed(s, account) && Believed(s, account) <= 0
    requires HandPending(s.W().hand, account) == HandShare(s.W().hand, account)
    requires forall p :: p in s.W().funds ==> Rising(account)(p) == 0
    ensures HarmlessRun(s, run) && e == End(s, run) && Exposed(e, account) && Believed(e, account) <= 0
    ensures HandPending(e.W().hand, account) == HandShare(e.W().hand, account)
    ensures forall p :: p in e.W().funds ==> PendingFor(account)(p) == Falling(account)(p)
    decreases Sum(IsOut(), s.W().funds)
  {
    SumNonNegative(IsOut(), s.W().funds);
    if p :| p in s.W().funds && !p.appended && Falling(account)(p) != 0 {
      var i :| 0 <= i < |s.W().funds| && s.W().funds[i] == p;
      var a := FundAppend(i);
      LandsOne(s, i, account);
      ExposedNext(s, a, account);
      var rest;
      e, rest := LandFalling(Next(s, a), account);
      run := [a] + rest;
      assert run[1..] == rest;
    } else {
      e, run := s, [];
      forall p | p in s.W().funds ensures PendingFor(account)(p) == Falling(account)(p) {
        assert Rising(account)(p) == 0;
      }
    }
  }

  lemma LandsOne(s: System, i: nat, account: string)
    requires Enabled(s, FundAppend(i)) && Falling(account)(s.W().funds[i]) != 0
    requires forall p :: p in s.W().funds ==> Rising(account)(p) == 0
    ensures var s' := Next(s, FundAppend(i));
            && s'.W().hand == s.W().hand && s'.W().accounts == s.W().accounts
            && Believed(s', account) == Believed(s, account) && Slack(s', account) == Slack(s, account)
            && 0 <= Sum(IsOut(), s'.W().funds) < Sum(IsOut(), s.W().funds)
            && forall p :: p in s'.W().funds ==> Rising(account)(p) == 0
  {
    var put := [s.W().funds[i].(appended := true)];
    SumPut(Rising(account), s.W().funds, i, put);
    SumPut(Falling(account), s.W().funds, i, put);
    SumPut(IsOut(), s.W().funds, i, put);
    SpliceMembers(s.W().funds, i, put);
    SumNonNegative(IsOut(), Next(s, FundAppend(i)).W().funds);
  }

  lemma AllHasLanded(s: System, account: string)
    requires Exposed(s, account) && Believed(s, account) <= 0
    requires HandPending(s.W().hand, account) == HandShare(s.W().hand, account)
    requires forall p :: p in s.W().funds ==> PendingFor(account)(p) == Falling(account)(p)
    ensures Balance(s.journal, account) < 0
  {
    assert AgreesFor(s, account);
    SumAtMost(PendingFor(account), Falling(account), s.W().funds);
    SumNonNegative(Rising(account), s.W().funds);
  }

  // ---- exactly ------------------------------------------------------------------------------------

  /** From wherever a run has come to, whatever it did, no harmless continuation overdraws
      exactly when nothing was overdrawn so far and, if the writer is up, no account's slack
      is negative. */
  lemma SafeIff(run: seq<Action>)
    requires Runs(Initial(), run)
    ensures var s := End(Initial(), run);
            Safe(s) <==> NeverOverdrawn(s.journal) && (s.Up() ==> forall a :: Slack(s, a) >= 0)
  {
    RunKeeps(Initial(), run);
    SafeWhenSolid(End(Initial(), run));
    SolidWhenSafe(End(Initial(), run));
  }

  lemma SafeWhenSolid(s: System)
    requires Agrees(s) && Shaped(s)
    ensures NeverOverdrawn(s.journal) && (s.Up() ==> forall a :: Slack(s, a) >= 0) ==> Safe(s)
  {
    if NeverOverdrawn(s.journal) && (s.Up() ==> forall a :: Slack(s, a) >= 0) {
      forall later | HarmlessRun(s, later) ensures NeverOverdrawn(End(s, later).journal) {
        forall a ensures NeverBelow(End(s, later).journal, a) {
          assert NeverBelow(s.journal, a);
          HarmlessRunIsSolid(s, later, a);
        }
      }
    }
  }

  lemma SolidWhenSafe(s: System)
    requires Agrees(s) && Shaped(s)
    ensures Safe(s) ==> NeverOverdrawn(s.journal) && (s.Up() ==> forall a :: Slack(s, a) >= 0)
  {
    if Safe(s) {
      assert HarmlessRun(s, []) && End(s, []) == s;
      if s.Up() {
        forall a ensures Slack(s, a) >= 0 {
          if Slack(s, a) < 0 {
            ExposureOverdraws(s, a);
          }
        }
      }
    }
  }

  lemma NoSlack(s: System, account: string)
    requires s.Up() && s.unseen == []
    ensures Slack(s, account) <= 0 && Spare(s, account) <= 0
  {
    SumNonPositive(Falling(account), s.W().funds);
  }

  /** A step that leaves the log alone, and every other account's slack good. */
  lemma SafeAfterIff(s: System, s': System, account: string)
    requires Agrees(s') && Shaped(s') && s'.Up() && NeverOverdrawn(s.journal) && s'.journal == s.journal
    requires forall b :: b != account ==> Slack(s', b) >= 0
    ensures Safe(s') <==> Slack(s', account) >= 0
  {
    SafeWhenSolid(s');
    SolidWhenSafe(s');
  }

  lemma FundKeepsSafeIff(s: System, a: Action)
    requires Agrees(s) && Shaped(s) && Safe(s) && Enabled(s, a) && a.Fund?
    ensures Slack(s, a.account) >= 0
    ensures Safe(Next(s, a)) <==> Slack(s, a.account) + Least(a.amount, 0) >= 0
  {
    SolidWhenSafe(s);
    AgreesNext(s, a);
    ShapedNext(s, a);
    forall b ensures Slack(Next(s, a), b) == Slack(s, b) + if a.account == b then Least(a.amount, 0) else 0 {
      SlackAfterFund(s, a, b);
    }
    SafeAfterIff(s, Next(s, a), a.account);
  }

  lemma DoubtKeepsSafeIff(s: System)
    requires Agrees(s) && Shaped(s) && Safe(s) && Enabled(s, Doubt) && s.W().hand.Debiting?
    ensures Safe(Next(s, Doubt)) <==> s.W().hand.transfer.amount <= Spare(s, s.W().hand.transfer.from)
  {
    SolidWhenSafe(s);
    AgreesNext(s, Doubt);
    ShapedNext(s, Doubt);
    var from := s.W().hand.transfer.from;
    forall b ensures Slack(Next(s, Doubt), b) == Spare(s, b) + AmountFor(b)(s.W().hand.post.entry) {
      SlackAfterDoubt(s, b);
    }
    forall b | b != from ensures Slack(Next(s, Doubt), b) >= 0 {
      assert Spare(s, b) == Slack(s, b);
    }
    SafeAfterIff(s, Next(s, Doubt), from);
  }

  lemma HarmlessKeepsSafe(s: System, a: Action)
    requires Safe(s) && Enabled(s, a) && Harmless(s, a)
    ensures Safe(Next(s, a))
  {
    forall later | HarmlessRun(Next(s, a), later) ensures NeverOverdrawn(End(Next(s, a), later).journal) {
      assert ([a] + later)[1..] == later;
      assert HarmlessRun(s, [a] + later) && End(s, [a] + later) == End(Next(s, a), later);
    }
  }

  /** `fund` can be called safely exactly when the account's slack covers a negative amount.
      When the cache has missed nothing there is no slack, whatever the balance: until the
      fund is applied the writer decides without it. */
  lemma FundIsSafeIff(run: seq<Action>, account: string, amount: int, id: string)
    requires Runs(Initial(), run) && End(Initial(), run).Up() && Safe(End(Initial(), run))
    ensures var s := End(Initial(), run);
            && (Safe(Next(s, Fund(account, amount, id))) <==> Slack(s, account) + Least(amount, 0) >= 0)
            && (s.unseen == [] ==> (Safe(Next(s, Fund(account, amount, id))) <==> amount >= 0))
  {
    var s := End(Initial(), run);
    RunKeeps(Initial(), run);
    FundKeepsSafeIff(s, Fund(account, amount, id));
    if s.unseen == [] {
      NoSlack(s, account);
    }
  }

  /** A send of the handler that raises with its entry taken is harmless unless the entry is
      a debit; a debit is covered exactly by what there is to spare, and when the cache has
      missed nothing there is nothing. */
  lemma DoubtIsSafeIff(run: seq<Action>)
    requires Runs(Initial(), run) && Enabled(End(Initial(), run), Doubt) && Safe(End(Initial(), run))
    ensures var s := End(Initial(), run);
            var h := s.W().hand;
            && (Safe(Next(s, Doubt)) <==> (h.Debiting? ==> h.transfer.amount <= Spare(s, h.transfer.from)))
            && (s.unseen == [] ==> (Safe(Next(s, Doubt)) <==> !h.Debiting?))
  {
    var s := End(Initial(), run);
    RunKeeps(Initial(), run);
    if s.W().hand.Debiting? {
      DoubtKeepsSafeIff(s);
      if s.unseen == [] {
        NoSlack(s, s.W().hand.transfer.from);
      }
    } else {
      HarmlessKeepsSafe(s, Doubt);
    }
  }

  // ---- over whole runs --------------------------------------------------------------------------------

  ghost predicate SafeThroughout(s: System, run: seq<Action>)
    requires Runs(s, run)
    decreases |run|
  {
    Safe(s) && (run == [] || SafeThroughout(Next(s, run[0]), run[1..]))
  }

  /** What a caller, or the handler, can check before each harmful step. */
  predicate Guarded(s: System, a: Action)
    requires Enabled(s, a)
  {
    && (a.Fund? ==> Slack(s, a.account) + Least(a.amount, 0) >= 0)
    && (a.Doubt? && s.W().hand.Debiting? ==> s.W().hand.transfer.amount <= Spare(s, s.W().hand.transfer.from))
  }

  predicate GuardedRun(s: System, run: seq<Action>)
    requires Runs(s, run)
    decreases |run|
  {
    run == [] || (Guarded(s, run[0]) && GuardedRun(Next(s, run[0]), run[1..]))
  }

  lemma SafeNextIff(s: System, a: Action)
    requires Agrees(s) && Shaped(s) && Safe(s) && Enabled(s, a)
    ensures Safe(Next(s, a)) <==> Guarded(s, a)
  {
    if a.Fund? {
      FundKeepsSafeIff(s, a);
    } else if a.Doubt? && s.W().hand.Debiting? {
      DoubtKeepsSafeIff(s);
    } else {
      HarmlessKeepsSafe(s, a);
    }
  }

  lemma {:induction false} SafeThroughoutIff(s: System, run: seq<Action>)
    requires Runs(s, run) && Agrees(s) && Shaped(s) && Safe(s)
    ensures SafeThroughout(s, run) <==> GuardedRun(s, run)
    decreases |run|
  {
    if run != [] {
      SafeNextIff(s, run[0]);
      AgreesNext(s, run[0]);
      ShapedNext(s, run[0]);
      if Safe(Next(s, run[0])) {
        SafeThroughoutIff(Next(s, run[0]), run[1..]);
      }
    }
  }

  lemma SafeToStart()
    ensures Safe(Initial())
  {
    SafeWhenSolid(Initial());
  }

  /** For every run, whatever it does: no continuation of it can overdraw, from any point on,
      exactly when each fund and each debit taken in doubt met its guard. */
  lemma RunIsSafeIff(run: seq<Action>)
    requires Runs(Initial(), run)
    ensures SafeThroughout(Initial(), run) <==> GuardedRun(Initial(), run)
  {
    SafeToStart();
    SafeThroughoutIff(Initial(), run);
  }

  /** No money added in a send that raised: it would leave the cache with slack. */
  predicate KeepsCredits(s: System, a: Action)
    requires Enabled(s, a)
  {
    !a.FundDoubt? && (a.Doubt? ==> !s.W().hand.Crediting?)
  }

  predicate KeepsCreditsRun(s: System, run: seq<Action>)
    requires Runs(s, run)
    decreases |run|
  {
    run == [] || (KeepsCredits(s, run[0]) && KeepsCreditsRun(Next(s, run[0]), run[1..]))
  }

  lemma {:induction false} SafeThroughoutIffHarmless(s: System, run: seq<Action>)
    requires Runs(s, run) && KeepsCreditsRun(s, run) && Agrees(s) && Shaped(s) && Safe(s) && s.unseen == []
    ensures SafeThroughout(s, run) <==> HarmlessRun(s, run)
    decreases |run|
  {
    if run != [] {
      var a := run[0];
      SafeNextIff(s, a);
      if a.Fund? {
        SolidWhenSafe(s);
        NoSlack(s, a.account);
      } else if a.Doubt? && s.W().hand.Debiting? {
        NoSlack(s, s.W().hand.transfer.from);
      }
      assert Guarded(s, a) <==> Harmless(s, a);
      if Harmless(s, a) {
        AgreesNext(s, a);
        ShapedNext(s, a);
        assert Next(s, a).unseen == [];
        SafeThroughoutIffHarmless(Next(s, a), run[1..]);
      }
    }
  }

  /** Where no credit and no fund was taken in doubt, the guards come to this: a run is safe
      throughout exactly when no fund in it was negative and no debit was taken in doubt. */
  lemma RunIsSafeIffHarmless(run: seq<Action>)
    requires Runs(Initial(), run) && KeepsCreditsRun(Initial(), run)
    ensures SafeThroughout(Initial(), run) <==> HarmlessRun(Initial(), run)
  {
    SafeToStart();
    SafeThroughoutIffHarmless(Initial(), run);
  }

  // ---- why credits matter -----------------------------------------------------------------------------

  lemma {:induction false} SafeThroughoutAppend(s: System, run: seq<Action>, a: Action)
    requires Runs(s, run) && SafeThroughout(s, run) && Enabled(End(s, run), a) && Safe(Next(End(s, run), a))
    ensures Runs(s, run + [a]) && SafeThroughout(s, run + [a]) && End(s, run + [a]) == Next(End(s, run), a)
    decreases |run|
  {
    if run == [] {
      assert run + [a] == [a] && [a][1..] == [];
      assert SafeThroughout(Next(s, a), []);
    } else {
      assert (run + [a])[1..] == run[1..] + [a] && (run + [a])[0] == run[0];
      SafeThroughoutAppend(Next(s, run[0]), run[1..], a);
    }
  }

  lemma HarmlessRunIsSafe(s: System, run: seq<Action>)
    requires Safe(s) && HarmlessRun(s, run)
    ensures SafeThroughout(s, run)
    decreases |run|
  {
    if run != [] {
      HarmlessKeepsSafe(s, run[0]);
      HarmlessRunIsSafe(Next(s, run[0]), run[1..]);
    }
  }

  /** A credit taken in doubt is money the writer never lends out, so a negative fund of as
      much, which would be harmful otherwise, is safe throughout. */
  lemma ACreditInDoubtCovers(t: Transfer, funded: int, amount: int) returns (run: seq<Action>)
    requires "T-" <= t.transferId && t.from != t.to && 0 < t.amount <= funded && -t.amount <= amount < 0
    ensures Runs(Initial(), run) && SafeThroughout(Initial(), run) && !HarmlessRun(Initial(), run)
    ensures Fund(t.to, amount, "") in run
  {
    run := CreditDoubted(t, funded);
    SafeToStart();
    HarmlessRunIsSafe(Initial(), run);
    var s := End(Initial(), run);
    var a := Fund(t.to, amount, "");
    BalanceAppend([], CreditEntry(t, ""), t.to);
    assert [] + [CreditEntry(t, "")] == [CreditEntry(t, "")];
    SafeAtTheEnd(Initial(), run);
    FundIsSafeIff(run, t.to, amount, "");
    SafeThroughoutAppend(Initial(), run, a);
    NotHarmlessAppend(Initial(), run, a);
    run := run + [a];
  }

  lemma {:induction false} SafeAtTheEnd(s: System, run: seq<Action>)
    requires Runs(s, run) && SafeThroughout(s, run)
    ensures Safe(End(s, run))
    decreases |run|
  {
    if run != [] {
      SafeAtTheEnd(Next(s, run[0]), run[1..]);
    }
  }

  lemma {:induction false} NotHarmlessAppend(s: System, run: seq<Action>, a: Action)
    requires Runs(s, run) && Enabled(End(s, run), a) && !Harmless(End(s, run), a)
    ensures !HarmlessRun(s, run + [a])
    decreases |run|
  {
    if run != [] {
      assert (run + [a])[1..] == run[1..] + [a] && (run + [a])[0] == run[0];
      NotHarmlessAppend(Next(s, run[0]), run[1..], a);
    }
  }

  lemma CreditDoubted(t: Transfer, funded: int) returns (run: seq<Action>)
    requires "T-" <= t.transferId && t.from != t.to && 0 < t.amount <= funded
    ensures HarmlessRun(Initial(), run)
    ensures var s := End(Initial(), run);
            && s.Up() && s.W().hand.Idle? && s.W().funds == [] && t.to !in s.W().accounts
            && s.unseen == [CreditEntry(t, "")]
  {
    run := HalfMoved(t, funded);
    HarmlessAppend(Initial(), run, Append);
    run := run + [Append];
    HarmlessAppend(Initial(), run, Doubt);
    run := run + [Doubt];
  }

  /** Its debit is posted, and its credit about to be. */
  lemma HalfMoved(t: Transfer, funded: int) returns (run: seq<Action>)
    requires "T-" <= t.transferId && t.from != t.to && 0 < t.amount <= funded
    ensures HarmlessRun(Initial(), run)
    ensures var s := End(Initial(), run);
            && s.Up() && s.W().hand == Crediting(t, DebitEntry(t, ""), Post(CreditEntry(t, ""), false))
            && s.W().funds == [] && t.to !in s.W().accounts && s.unseen == []
  {
    run := Opened(t.from, funded);
    HarmlessOpening(run, t.from, funded);
    HarmlessAppend(Initial(), run, Request(t));
    run := run + [Request(t)];
    HarmlessAppend(Initial(), run, Deliver(t, ""));
    run := run + [Deliver(t, "")];
    HarmlessAppend(Initial(), run, Append);
    run := run + [Append];
    HarmlessAppend(Initial(), run, LedgerSystem.Returned(""));
    run := run + [LedgerSystem.Returned("")];
  }

  lemma HarmlessOpening(run: seq<Action>, account: string, amount: int)
    requires amount >= 0 && Runs(Initial(), run)
    requires run == [Restart, Fund(account, amount, ""), FundAppend(0), LedgerSystem.FundReturned(0)]
    ensures HarmlessRun(Initial(), run)
  {
    NoDoubtIsHarmless(Initial(), run);
  }

  lemma {:induction false} NoDoubtIsHarmless(s: System, run: seq<Action>)
    requires Runs(s, run) && forall a :: a in run ==> !a.Doubt? && (a.Fund? ==> a.amount >= 0)
    ensures HarmlessRun(s, run)
    decreases |run|
  {
    if run != [] {
      assert run[0] in run;
      NoDoubtIsHarmless(Next(s, run[0]), run[1..]);
    }
  }
}
