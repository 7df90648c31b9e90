/** Readers of the journal that sort its entries by account. */
module LedgerProjections {
  import opened Sequences
  import opened LedgerJournal

  type Statements = map<string, seq<Entry>>

  function StatementOf(statements: Statements, account: string): seq<Entry> {
    if account in statements then statements[account] else []
  }

  function Record(statements: Statements, e: Entry): Statements {
    statements[e.account := StatementOf(statements, e.account) + [e]]
  }

  /** What a projection that started with `statements` holds after reading `entries`. */
  function Read(statements: Statements, entries: seq<Entry>): Statements {
    if entries == [] then statements else
      Record(Read(statements, entries[..|entries| - 1]), entries[|entries| - 1])
  }

  function BalanceIn(statements: Statements, account: string): int {
    Sum(AnyAmount(), StatementOf(statements, account))
  }

  /** The number of entries over all statements. */
  ghost function Entries(statements: Statements): nat {
    if statements == map[] then 0 else
      var a :| a in statements;
      |statements[a]| + Entries(statements - {a})
  }

  class StatementProjection {
    var statements: Statements

    constructor ()
      ensures statements == map[]
    {
      statements := map[];
    }

    method RecordEntry(e: Entry)
      modifies this
      ensures statements == Record(old(statements), e)
    {
      if e.account !in statements {
        statements := statements[e.account := []];
      }
      statements := statements[e.account := statements[e.account] + [e]];
    }
  }

  function On(account: string): Entry -> bool {
    (e: Entry) => e.account == account
  }

  lemma StatementAfter(statements: Statements, e: Entry, account: string)
    ensures StatementOf(Record(statements, e), account)
            == StatementOf(statements, account) + if On(account)(e) then [e] else []
  {}

  /** A statement is the subsequence of the journal for its account, in journal order,
      after whatever the projection already held. */
  lemma {:induction false} StatementIsSubsequence(statements: Statements, entries: seq<Entry>, account: string)
    ensures StatementOf(Read(statements, entries), account)
            == StatementOf(statements, account) + Filter(On(account), entries)
  {
    if entries != [] {
      var n := |entries| - 1;
      StatementIsSubsequence(statements, entries[..n], account);
      StatementAfter(Read(statements, entries[..n]), entries[n], account);
      var last := if On(account)(entries[n]) then [entries[n]] else [];
      assert Filter(On(account), entries) == Filter(On(account), entries[..n]) + last;
    }
  }

  lemma {:induction false} FilteredSum(entries: seq<Entry>, account: string)
    ensures Sum(AnyAmount(), Filter(On(account), entries)) == Balance(entries, account)
  {
    if entries != [] {
      var n := |entries| - 1;
      FilteredSum(entries[..n], account);
      SumConcat(AnyAmount(), Filter(On(account), entries[..n]), if entries[n].account == account then [entries[n]] else []);
      SumAppend(AnyAmount(), [], entries[n]);
    }
  }

  /** A projected balance is the balance the writer's own fold has at that position. */
  lemma ProjectionAgreesWithWriter(journal: seq<Entry>, position: nat, account: string)
    requires position <= |journal|
    ensures BalanceIn(Read(map[], journal[..position]), account) == Of(Fold(journal[..position]), account)
  {
    StatementIsSubsequence(map[], journal[..position], account);
    assert [] + Filter(On(account), journal[..position]) == Filter(On(account), journal[..position]);
    FilteredSum(journal[..position], account);
    FoldIsBalances(journal[..position]);
  }

  /** A reader that joined late, plus the balance at the offset it joined, is a reader
      from the first entry. */
  lemma LateReaderPlusPrefix(journal: seq<Entry>, joined: nat, account: string)
    requires joined <= |journal|
    ensures Of(Fold(journal[..joined]), account) + BalanceIn(Read(map[], journal[joined..]), account)
            == BalanceIn(Read(map[], journal), account)
  {
    assert journal[..joined] + journal[joined..] == journal == journal[..|journal|];
    SumConcat(AmountFor(account), journal[..joined], journal[joined..]);
    ProjectionAgreesWithWriter(journal, joined, account);
    ProjectionAgreesWithWriter(journal, |journal|, account);
    var late := journal[joined..];
    assert late[..|late|] == late;
    ProjectionAgreesWithWriter(late, |late|, account);
    FoldIsBalances(journal[..joined]);
    FoldIsBalances(late);
    FoldIsBalances(journal);
  }

  // ---- the statements partition what was read ----------------------------------------

  lemma {:induction false} EntriesWithout(statements: Statements, account: string)
    requires account in statements
    ensures Entries(statements) == |statements[account]| + Entries(statements - {account})
    decreases statements
  {
    var a :| a in statements && Entries(statements) == |statements[a]| + Entries(statements - {a});
    if a != account {
      EntriesWithout(statements - {a}, account);
      EntriesWithout(statements - {account}, a);
      assert statements - {a} - {account} == statements - {account} - {a};
    }
  }

  lemma EntriesRecord(statements: Statements, e: Entry)
    ensures Entries(Record(statements, e)) == Entries(statements) + 1
  {
    var after := Record(statements, e);
    EntriesWithout(after, e.account);
    if e.account in statements {
      EntriesWithout(statements, e.account);
      assert after - {e.account} == statements - {e.account};
    } else {
      assert after - {e.account} == statements;
    }
  }

  lemma {:induction false} ReadCounts(entries: seq<Entry>)
    ensures Entries(Read(map[], entries)) == |entries|
    ensures Read(map[], entries).Keys == Accounts(entries)
  {
    if entries != [] {
      var n := |entries| - 1;
      ReadCounts(entries[..n]);
      assert entries[..n] + [entries[n]] == entries;
      EntriesRecord(Read(map[], entries[..n]), entries[n]);
      AccountsAppend(entries[..n], entries[n]);
    }
  }

  /** An entry is on an account's statement exactly when it was read and is that account's;
      there is a statement for each account read, and nothing on them but what was read. */
  lemma StatementsPartition(entries: seq<Entry>, account: string, e: Entry)
    ensures Entries(Read(map[], entries)) == |entries|
    ensures Read(map[], entries).Keys == Accounts(entries)
    ensures e in StatementOf(Read(map[], entries), account) <==> e in entries && e.account == account
  {
    ReadCounts(entries);
    StatementIsSubsequence(map[], entries, account);
    assert [] + Filter(On(account), entries) == Filter(On(account), entries);
    FilterMembers(On(account), entries, e);
  }
}
