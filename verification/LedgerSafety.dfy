/** What every run of the ledger keeps. */
module LedgerSafety {
  import opened Wrappers
  import opened Sequences
  import opened LedgerJournal
  import opened LedgerWriter
  import opened LedgerSystem

  // ---- the cache agrees with the log at every await -----------------------------

  function PendingFor(account: string): Post -> int {
    (p: Post) => if p.appended then AmountFor(account)(p.entry) else 0
  }

  function HandPending(h: Hand, account: string): int {
    if HandPost(h).Some? then PendingFor(account)(h.post) else 0
  }

  /** What the journal holds for an account and the cache has yet to apply. */
  function Pending(w: Writer, account: string): int {
    HandPending(w.hand, account) + Sum(PendingFor(account), w.funds)
  }

  function PendingAccounts(w: Writer): set<string> {
    (set p | p in w.funds && p.appended :: p.entry.account)
    + if HandPost(w.hand).Some? && w.hand.post.appended then {w.hand.post.entry.account} else {}
  }

  /** Cache, what it has yet to apply, and what it was never told of make up the log. */
  predicate AgreesFor(s: System, a: string)
    requires s.Up()
  {
    Of(s.W().accounts, a) + Pending(s.W(), a) + Balance(s.unseen, a) == Balance(s.journal, a)
  }

  predicate AgreesInKeys(s: System)
    requires s.Up()
  {
    s.W().accounts.Keys + PendingAccounts(s.W()) + Accounts(s.unseen) == Accounts(s.journal)
  }

  ghost predicate Agrees(s: System) {
    s.Up() ==> AgreesInKeys(s) && forall a :: AgreesFor(s, a)
  }

  lemma AgreesNext(s: System, a: Action)
    requires Agrees(s) && Enabled(s, a)
    ensures Agrees(Next(s, a))
  {
    var s' := Next(s, a);
    if s'.Up() {
      if a.Restart? {
        FoldIsBalances(s.journal);
        assert Accounts([]) == {};
      } else {
        AgreesKeys(s, a);
        forall acc ensures AgreesFor(s', acc) {
          AgreesOn(s, a, acc);
        }
      }
    }
  }

  lemma AgreesOn(s: System, a: Action, acc: string)
    requires Enabled(s, a) && !a.Restart? && s.Up() && Next(s, a).Up() && AgreesFor(s, acc)
    ensures AgreesFor(Next(s, a), acc)
  {
    match a
    case Append => BalanceAppend(s.journal, s.W().hand.post.entry, acc);
    case Returned(id) => AgreesOnReturned(s, id, acc);
    case Doubt => AgreesOnDoubt(s, acc);
    case Fund(account, amount, id) =>
      SumAppend(PendingFor(acc), s.W().funds, Post(OpeningEntry(account, amount, id), false));
    case FundAppend(i) => AgreesOnFund(s, a, i, acc);
    case FundReturned(i) => AgreesOnFund(s, a, i, acc);
    case FundRefused(i) => AgreesOnFund(s, a, i, acc);
    case FundDoubt(i) => AgreesOnFund(s, a, i, acc);
    case _ => AgreesOnRest(s, a, acc);
  }

  lemma AgreesOnReturned(s: System, id: string, acc: string)
    requires Enabled(s, Returned(id)) && AgreesFor(s, acc)
    ensures AgreesFor(Next(s, Returned(id)), acc)
  {
    var e, s' := s.W().hand.post.entry, Next(s, Returned(id));
    assert s'.W().accounts == ApplyEntry(s.W().accounts, e) && s'.W().funds == s.W().funds;
    assert HandPending(s.W().hand, acc) == AmountFor(acc)(e) && HandPending(s'.W().hand, acc) == 0;
  }

  lemma AgreesOnDoubt(s: System, acc: string)
    requires Enabled(s, Doubt) && AgreesFor(s, acc)
    ensures AgreesFor(Next(s, Doubt), acc)
  {
    if HandPost(s.W().hand).Some? {
      BalanceAppend(s.unseen, s.W().hand.post.entry, acc);
    } else {
      assert s.unseen + [] == s.unseen;
    }
  }

  lemma AgreesOnFund(s: System, a: Action, i: nat, acc: string)
    requires Enabled(s, a) && a in {FundAppend(i), FundReturned(i), FundRefused(i), FundDoubt(i)}
    requires AgreesFor(s, acc)
    ensures AgreesFor(Next(s, a), acc)
  {
    var e := s.W().funds[i].entry;
    if a.FundAppend? {
      BalanceAppend(s.journal, e, acc);
      SumPut(PendingFor(acc), s.W().funds, i, [s.W().funds[i].(appended := true)]);
    } else {
      BalanceAppend(s.unseen, e, acc);
      SumPut(PendingFor(acc), s.W().funds, i, []);
    }
  }

  lemma AgreesOnRest(s: System, a: Action, acc: string)
    requires Enabled(s, a) && s.Up() && AgreesFor(s, acc)
    requires a.Request? || a.Notice? || a.Deliver? || a.Announce? || a.AnnounceReturned? || a.Refuse?
    ensures AgreesFor(Next(s, a), acc)
  {}

  lemma AgreesKeys(s: System, a: Action)
    requires Enabled(s, a) && !a.Restart? && s.Up() && Next(s, a).Up() && AgreesInKeys(s)
    ensures AgreesInKeys(Next(s, a))
  {
    match a
    case Append => AccountsAppend(s.journal, s.W().hand.post.entry);
    case Doubt => AgreesKeysDoubt(s);
    case Fund(_, _, _) =>
    case FundAppend(i) => AgreesKeysFundAppend(s, i);
    case FundReturned(i) => AgreesKeysFundReturned(s, i);
    case FundRefused(i) => SpliceMembers(s.W().funds, i, []);
    case FundDoubt(i) => AgreesKeysFundDoubt(s, i);
    case _ => AgreesKeysHand(s, a);
  }

  lemma AgreesKeysHand(s: System, a: Action)
    requires Enabled(s, a) && s.Up() && AgreesInKeys(s)
    requires a.Request? || a.Notice? || a.Deliver? || a.Returned? || a.Announce? || a.AnnounceReturned? || a.Refuse?
    ensures AgreesInKeys(Next(s, a))
  {}

  lemma AgreesKeysDoubt(s: System)
    requires Enabled(s, Doubt) && AgreesInKeys(s)
    ensures AgreesInKeys(Next(s, Doubt))
  {
    if HandPost(s.W().hand).Some? {
      AccountsAppend(s.unseen, s.W().hand.post.entry);
    } else {
      assert s.unseen + [] == s.unseen;
    }
  }

  lemma AgreesKeysFundAppend(s: System, i: nat)
    requires Enabled(s, FundAppend(i)) && AgreesInKeys(s)
    ensures AgreesInKeys(Next(s, FundAppend(i)))
  {
    AccountsAppend(s.journal, s.W().funds[i].entry);
    SpliceMembers(s.W().funds, i, [s.W().funds[i].(appended := true)]);
  }

  lemma AgreesKeysFundReturned(s: System, i: nat)
    requires Enabled(s, FundReturned(i)) && AgreesInKeys(s)
    ensures AgreesInKeys(Next(s, FundReturned(i)))
  {
    SpliceMembers(s.W().funds, i, []);
  }

  lemma AgreesKeysFundDoubt(s: System, i: nat)
    requires Enabled(s, FundDoubt(i)) && AgreesInKeys(s)
    ensures AgreesInKeys(Next(s, FundDoubt(i)))
  {
    AccountsAppend(s.unseen, s.W().funds[i].entry);
    SpliceMembers(s.W().funds, i, []);
  }

  /** The cache, with what it has yet to apply, is the log. */
  ghost predicate TrueToTheLog(s: System)
    requires s.Up()
  {
    forall a :: Of(s.W().accounts, a) + Pending(s.W(), a) == Balance(s.journal, a)
  }

  /** What a failing send leaves in the stream: nothing, or the entry. */
  function TakenBy(s: System, a: Action): seq<Entry>
    requires Enabled(s, a)
  {
    match a
    case Doubt => Taken(s.W().hand)
    case FundDoubt(i) => [s.W().funds[i].entry]
    case _ => []
  }

  /** A send that raises, the handler's or a fund's, leaves the cache true to the log
      exactly when the broker did not take its entry. */
  lemma FailedSendAgrees(s: System, a: Action)
    requires Agrees(s) && Enabled(s, a) && (a.Refuse? || a.FundRefused? || a.Doubt? || a.FundDoubt?)
    requires TrueToTheLog(s) && forall e :: e in TakenBy(s, a) ==> e.amount != 0
    ensures Next(s, a).Up()
    ensures TrueToTheLog(Next(s, a)) <==> TakenBy(s, a) == []
  {
    var s' := Next(s, a);
    AgreesNext(s, a);
    assert s'.journal == s.journal;
    if TakenBy(s, a) == [] {
      assert s'.unseen == s.unseen;
      forall acc ensures Of(s'.W().accounts, acc) + Pending(s'.W(), acc) == Balance(s'.journal, acc) {
        assert AgreesFor(s, acc) && AgreesFor(s', acc);
      }
    } else {
      var e := TakenBy(s, a)[0];
      assert AgreesFor(s, e.account) && AgreesFor(s', e.account);
      assert s'.unseen == s.unseen + [e];
      BalanceAppend(s.unseen, e, e.account);
    }
  }

  // ---- the shape of what is in flight -------------------------------------------

  /** What a command asks to be taken, and given. */
  predicate IsDebit(e: Entry, t: Transfer) {
    e.transferId == t.transferId && e.account == t.from && e.amount == -t.amount && e.description == t.description
  }

  predicate IsCredit(e: Entry, t: Transfer) {
    e.transferId == t.transferId && e.account == t.to && e.amount == t.amount && e.description == t.description
  }

  /** A refusal names the command, and gives a reason that is true of it. */
  predicate IsRefusal(r: Rejected, t: Transfer) {
    && r == Rejected(t.transferId, t.from, t.to, t.amount, r.reason)
    && match r.reason
       case NotPositive => t.amount <= 0
       case InsufficientFunds(account, holds) => t.amount > 0 && account == t.from && holds < t.amount
  }

  predicate Shaped(s: System) {
    && (forall t :: t in s.requested ==> "T-" <= t.transferId)
    && (s.Up() ==>
      && (forall p :: p in s.W().funds ==> p.entry.transferId == OPENING + p.entry.account && IsOpening(p.entry))
      && match s.W().hand
         case Idle => true
         case Refusing(t, r, _) => t in s.requested && IsRefusal(r, t)
         case Debiting(t, p) => t in s.requested && t.amount > 0 && IsDebit(p.entry, t)
         case Crediting(t, d, p) =>
           t in s.requested && t.amount > 0 && IsDebit(d, t) && IsCredit(p.entry, t))
  }

  lemma ShapedNext(s: System, a: Action)
    requires Shaped(s) && Enabled(s, a)
    ensures Shaped(Next(s, a))
  {
    match a
    case FundAppend(i) => SpliceMembers(s.W().funds, i, [s.W().funds[i].(appended := true)]);
    case FundReturned(i) => SpliceMembers(s.W().funds, i, []);
    case FundRefused(i) => SpliceMembers(s.W().funds, i, []);
    case FundDoubt(i) => SpliceMembers(s.W().funds, i, []);
    case _ =>
  }

  /** Where an entry came from: an opening of its account, or half of a requested transfer. */
  predicate HasSource(requested: set<Transfer>, e: Entry) {
    || e.transferId == OPENING + e.account
    || exists t :: t in requested && t.amount > 0 && (IsDebit(e, t) || IsCredit(e, t))
  }

  ghost predicate Sourced(s: System) {
    forall e :: e in s.journal ==> HasSource(s.requested, e)
  }

  lemma SourcedNext(s: System, a: Action)
    requires Shaped(s) && Sourced(s) && Enabled(s, a)
    ensures Sourced(Next(s, a))
  {
    var s' := Next(s, a);
    forall e | e in s'.journal ensures HasSource(s'.requested, e) {
      if e in s.journal {
        if e.transferId != OPENING + e.account {
          var t :| t in s.requested && t.amount > 0 && (IsDebit(e, t) || IsCredit(e, t));
          assert t in s'.requested;
        }
      } else if a.Append? {
        assert s.W().hand.transfer in s.requested;
      }
    }
  }

  // ---- money is conserved, up to the transfers torn in half ------------------------

  /** The journal's transfers read back as pairs: a debit stays open until its credit,
      and is torn when another debit arrives first. `ok` says every credit answered
      the open debit. Openings are not part of any pair. */
  datatype Pairing = Pairing(ok: bool, open: Option<Entry>, torn: seq<Entry>)

  function Pair(journal: seq<Entry>): Pairing {
    if journal == [] then Pairing(true, None, []) else
      Extend(Pair(journal[..|journal| - 1]), journal[|journal| - 1])
  }

  function Extend(p: Pairing, e: Entry): Pairing {
    if IsOpening(e) then p
    else if e.amount < 0 then
      Pairing(p.ok, Some(e), p.torn + if p.open.Some? then [p.open.value] else [])
    else
      Pairing(p.ok && p.open.Some? && p.open.value.transferId == e.transferId && p.open.value.amount + e.amount == 0,
              None, p.torn)
  }

  /** The debits no credit ever answered. */
  function Losses(journal: seq<Entry>): seq<Entry> {
    Pair(journal).torn + if Pair(journal).open.Some? then [Pair(journal).open.value] else []
  }

  function OpeningAmount(): Entry -> int {
    (e: Entry) => if IsOpening(e) then e.amount else 0
  }

  lemma PairAppend(journal: seq<Entry>, e: Entry)
    ensures Pair(journal + [e]) == Extend(Pair(journal), e)
  {
    assert (journal + [e])[..|journal|] == journal;
  }

  lemma {:induction false} PairedTotal(journal: seq<Entry>)
    requires Pair(journal).ok
    ensures Sum(AnyAmount(), journal) == Sum(OpeningAmount(), journal) + Sum(AnyAmount(), Losses(journal))
    ensures forall e :: e in Losses(journal) ==> e.amount < 0
  {
    if journal != [] {
      var n := |journal| - 1;
      var before, e := journal[..n], journal[n];
      PairedTotal(before);
      var p := Pair(before);
      PairAppend(before, e);
      assert before + [e] == journal;
      SumAppend(AnyAmount(), before, e);
      SumAppend(OpeningAmount(), before, e);
      SumAppend(AnyAmount(), Losses(before), e);
      if p.open.Some? {
        assert Losses(before) == p.torn + [p.open.value];
        SumAppend(AnyAmount(), p.torn, p.open.value);
      } else {
        assert Losses(before) == p.torn;
      }
      if !IsOpening(e) {
        assert Losses(journal) == if e.amount < 0 then Losses(before) + [e] else p.torn;
        forall x | x in Losses(journal) ensures x.amount < 0 {
          assert x in Losses(before) || x == e;
        }
      }
    }
  }

  lemma RequestsAreNotOpenings(e: Entry)
    requires "T-" <= e.transferId
    ensures !IsOpening(e)
  {
    assert e.transferId[0] == "T-"[0] && OPENING[0] == 'O';
  }

  /** The handler is between its two halves. */
  predicate Halfway(s: System) {
    && s.Up()
    && ((s.W().hand.Debiting? && s.W().hand.post.appended) || (s.W().hand.Crediting? && !s.W().hand.post.appended))
  }

  predicate Paired(s: System) {
    && Pair(s.journal).ok
    && |Losses(s.journal)| <= s.interruptions + (if Halfway(s) then 1 else 0)
    && (Halfway(s) ==>
          Pair(s.journal).open == Some(if s.W().hand.Debiting? then s.W().hand.post.entry else s.W().hand.debit))
  }

  lemma PairedNext(s: System, a: Action)
    requires Shaped(s) && Paired(s) && Enabled(s, a)
    ensures Paired(Next(s, a))
  {
    match a
    case Append => PairedAppend(s);
    case FundAppend(i) => PairedFund(s, i);
    case Returned(id) =>
    case _ => PairedElse(s, a);
  }

  lemma PairedAppend(s: System)
    requires Shaped(s) && Paired(s) && Enabled(s, Append)
    ensures Paired(Next(s, Append))
  {
    PairAppend(s.journal, s.W().hand.post.entry);
    RequestsAreNotOpenings(s.W().hand.post.entry);
  }

  lemma PairedFund(s: System, i: nat)
    requires Shaped(s) && Paired(s) && Enabled(s, FundAppend(i))
    ensures Paired(Next(s, FundAppend(i)))
  {
    PairAppend(s.journal, s.W().funds[i].entry);
  }

  lemma PairedElse(s: System, a: Action)
    requires Shaped(s) && Paired(s) && Enabled(s, a) && !a.Append? && !a.FundAppend? && !a.Returned?
    ensures Paired(Next(s, a))
  {}

  // ---- the counters count ------------------------------------------------------------

  function IsAppended(): Post -> int {
    (p: Post) => if p.appended then 1 else 0
  }

  /** Entries read at start-up, entries posted since, entries taken unseen and entries yet
      to be applied are all the entries there are. */
  predicate Counted(s: System) {
    s.Up() ==>
      s.W().replayed + s.W().posted + |s.unseen| + Sum(IsAppended(), s.W().funds)
      + (if HandPost(s.W().hand).Some? then IsAppended()(s.W().hand.post) else 0) == |s.journal|
  }

  lemma CountedNext(s: System, a: Action)
    requires Counted(s) && Enabled(s, a)
    ensures Counted(Next(s, a))
  {
    match a
    case Fund(account, amount, id) =>
      SumAppend(IsAppended(), s.W().funds, Post(OpeningEntry(account, amount, id), false));
    case FundAppend(i) => SumPut(IsAppended(), s.W().funds, i, [s.W().funds[i].(appended := true)]);
    case FundReturned(i) => SumPut(IsAppended(), s.W().funds, i, []);
    case FundRefused(i) => SumPut(IsAppended(), s.W().funds, i, []);
    case FundDoubt(i) => SumPut(IsAppended(), s.W().funds, i, []);
    case _ =>
  }
}
