/** The ledger's event shapes, and what it means to add up a journal of entries. */
module LedgerJournal {
  import opened Sequences

  /** A signed amount on an account, in the smallest unit of the currency. */
  datatype Entry = Entry(entryId: string, transferId: string, account: string, amount: int, description: string)

  /** A command: it may be refused. */
  datatype Transfer = Transfer(transferId: string, from: string, to: string, amount: int, description: string)

  datatype Reason = NotPositive | InsufficientFunds(account: string, holds: int)

  datatype Rejected = Rejected(transferId: string, from: string, to: string, amount: int, reason: Reason)

  const OPENING := "OPENING-"

  function OpeningEntry(account: string, amount: int, entryId: string): Entry {
    Entry(entryId, OPENING + account, account, amount, "opening balance")
  }

  function DebitEntry(t: Transfer, entryId: string): Entry {
    Entry(entryId, t.transferId, t.from, -t.amount, t.description)
  }

  function CreditEntry(t: Transfer, entryId: string): Entry {
    Entry(entryId, t.transferId, t.to, t.amount, t.description)
  }

  predicate IsOpening(e: Entry) {
    OPENING <= e.transferId
  }

  // ---- a balance is the sum of the entries ------------------------------------

  function AmountFor(account: string): Entry -> int {
    (e: Entry) => if e.account == account then e.amount else 0
  }

  function Balance(journal: seq<Entry>, account: string): int {
    Sum(AmountFor(account), journal)
  }

  function AnyAmount(): Entry -> int {
    (e: Entry) => e.amount
  }

  function Accounts(journal: seq<Entry>): set<string> {
    set e | e in journal :: e.account
  }

  // ---- the in-memory map the writer keeps -------------------------------------

  function Of(accounts: map<string, int>, account: string): int {
    if account in accounts then accounts[account] else 0
  }

  function ApplyEntry(accounts: map<string, int>, e: Entry): map<string, int> {
    accounts[e.account := Of(accounts, e.account) + e.amount]
  }

  function Fold(journal: seq<Entry>): map<string, int> {
    if journal == [] then map[] else ApplyEntry(Fold(journal[..|journal| - 1]), journal[|journal| - 1])
  }

  lemma FoldAppend(journal: seq<Entry>, e: Entry)
    ensures Fold(journal + [e]) == ApplyEntry(Fold(journal), e)
  {
    assert (journal + [e])[..|journal|] == journal;
  }

  lemma BalanceAppend(journal: seq<Entry>, e: Entry, account: string)
    ensures Balance(journal + [e], account) == Balance(journal, account) + AmountFor(account)(e)
  {
    SumAppend(AmountFor(account), journal, e);
  }

  lemma AccountsAppend(journal: seq<Entry>, e: Entry)
    ensures Accounts(journal + [e]) == Accounts(journal) + {e.account}
  {
    assert e in journal + [e];
    assert forall x :: x in journal ==> x in journal + [e];
  }

  /** Replaying a journal yields exactly the accounts it names, each holding its sum. */
  lemma {:induction false} FoldIsBalances(journal: seq<Entry>)
    ensures Fold(journal).Keys == Accounts(journal)
    ensures forall a :: Of(Fold(journal), a) == Balance(journal, a)
  {
    if journal != [] {
      var n := |journal| - 1;
      FoldIsBalances(journal[..n]);
      assert journal[..n] + [journal[n]] == journal;
      AccountsAppend(journal[..n], journal[n]);
      forall a ensures Of(Fold(journal), a) == Balance(journal, a) {
        BalanceAppend(journal[..n], journal[n], a);
        assert Of(Fold(journal[..n]), a) == Balance(journal[..n], a);
      }
    }
  }
}
