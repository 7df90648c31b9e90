/** The only writer of the journal: its cached balances and its one command handler.
    `Writer` describes the handler as the atomic segments between two awaits;
    `Balances` and `LedgerModule` are the objects that carry them out in place. */
module LedgerWriter {
  import opened Sequences
  import opened LedgerJournal

  /** A send of an entry; `appended` says whether the broker holds it yet. */
  datatype Post = Post(entry: Entry, appended: bool)

  /** The command in hand, and the await its handler is suspended at. */
  datatype Hand =
    | Idle
    | Refusing(transfer: Transfer, refusal: Rejected, announced: bool)
    | Debiting(transfer: Transfer, post: Post)
    | Crediting(transfer: Transfer, debit: Entry, post: Post)

  datatype Writer = Writer(
    accounts: map<string, int>, replayed: nat, posted: nat, rejected: nat,
    hand: Hand, funds: seq<Post>)
  {
    /** The handler from the delivery to its first await. */
    function Receive(t: Transfer, entryId: string): Writer {
      var available := Of(accounts, t.from);
      if t.amount <= 0 then
        Refuse(t, NotPositive)
      else if available < t.amount then
        Refuse(t, InsufficientFunds(t.from, available))
      else
        this.(hand := Debiting(t, Post(DebitEntry(t, entryId), false)))
    }

    function Refuse(t: Transfer, reason: Reason): Writer {
      this.(rejected := rejected + 1,
            hand := Refusing(t, Rejected(t.transferId, t.from, t.to, t.amount, reason), false))
    }

    function Applied(e: Entry): Writer {
      this.(accounts := ApplyEntry(accounts, e), posted := posted + 1)
    }

    /** The debit's send returned: apply it and send the credit. */
    function DebitReturned(entryId: string): Writer
      requires hand.Debiting?
    {
      Applied(hand.post.entry).(
        hand := Crediting(hand.transfer, hand.post.entry, Post(CreditEntry(hand.transfer, entryId), false)))
    }

    /** The credit's send returned: apply it and accept the command. */
    function CreditReturned(): Writer
      requires hand.Crediting?
    {
      Applied(hand.post.entry).(hand := Idle)
    }

    function RefusalReturned(): Writer
      requires hand.Refusing?
    {
      this.(hand := Idle)
    }

    /** A send raised: the handler stops where it is, and nothing is applied. */
    function HandFailed(): Writer {
      this.(hand := Idle)
    }

    function Fund(account: string, amount: int, entryId: string): Writer {
      this.(funds := funds + [Post(OpeningEntry(account, amount, entryId), false)])
    }

    function FundReturned(i: nat): Writer
      requires i < |funds|
    {
      Applied(funds[i].entry).(funds := Splice(funds, i, []))
    }

    function FundFailed(i: nat): Writer
      requires i < |funds|
    {
      this.(funds := Splice(funds, i, []))
    }
  }

  /** A writer that has read the whole journal and not yet taken a command. */
  function Started(journal: seq<Entry>): Writer {
    Writer(Fold(journal), |journal|, 0, 0, Idle, [])
  }

  class Balances {
    var accounts: map<string, int>
    var replayed: nat

    constructor ()
      ensures accounts == map[] && replayed == 0
    {
      accounts, replayed := map[], 0;
    }

    method Apply(entry: Entry)
      modifies this`accounts
      ensures accounts == ApplyEntry(old(accounts), entry)
      ensures var held := if entry.account in old(accounts) then old(accounts)[entry.account] else 0;
              accounts == old(accounts)[entry.account := held + entry.amount]
    {
      var held := 0;
      if entry.account in accounts {
        held := accounts[entry.account];
      }
      accounts := accounts[entry.account := held + entry.amount];
    }

    /** One delivery of the rebuild's stream reader. */
    method Replay(entry: Entry)
      modifies this
      ensures accounts == ApplyEntry(old(accounts), entry)
      ensures replayed == old(replayed) + 1
    {
      Apply(entry);
      replayed := replayed + 1;
    }
  }

  class LedgerModule {
    const balances: Balances
    var posted: nat
    var rejected: nat
    var hand: Hand
    var funds: seq<Post>

    ghost function View(): Writer
      reads this, balances
    {
      Writer(balances.accounts, balances.replayed, posted, rejected, hand, funds)
    }

    constructor (rebuilt: Balances, ghost journal: seq<Entry>)
      requires rebuilt.accounts == Fold(journal) && rebuilt.replayed == |journal|
      ensures balances == rebuilt && View() == Started(journal)
    {
      balances := rebuilt;
      posted, rejected, hand, funds := 0, 0, Idle, [];
    }

    method Receive(t: Transfer, entryId: string)
      requires hand.Idle?
      modifies this
      ensures View() == old(View()).Receive(t, entryId)
      ensures var available := if t.from in old(balances.accounts) then old(balances.accounts)[t.from] else 0;
              var refusal := if t.amount <= 0 then NotPositive else InsufficientFunds(t.from, available);
              hand == if 0 < t.amount <= available then
                        Debiting(t, Post(Entry(entryId, t.transferId, t.from, -t.amount, t.description), false))
                      else
                        Refusing(t, Rejected(t.transferId, t.from, t.to, t.amount, refusal), false)
      ensures rejected == old(rejected) + if hand.Refusing? then 1 else 0
      ensures funds == old(funds) && posted == old(posted) && balances.accounts == old(balances.accounts)
    {
      var available := if t.from in balances.accounts then balances.accounts[t.from] else 0;
      if t.amount <= 0 {
        Reject(t, NotPositive);
        return;
      }
      if available < t.amount {
        Reject(t, InsufficientFunds(t.from, available));
        return;
      }
      hand := Debiting(t, Post(DebitEntry(t, entryId), false));
    }

    method Reject(t: Transfer, reason: Reason)
      modifies this
      ensures View() == old(View()).Refuse(t, reason)
      ensures rejected == old(rejected) + 1
      ensures hand == Refusing(t, Rejected(t.transferId, t.from, t.to, t.amount, reason), false)
    {
      rejected := rejected + 1;
      hand := Refusing(t, Rejected(t.transferId, t.from, t.to, t.amount, reason), false);
    }

    /** What follows the await inside a post: the balance, then the counter. */
    method Posted(entry: Entry)
      modifies this`posted, balances
      ensures View() == old(View()).Applied(entry)
      ensures posted == old(posted) + 1 && balances.accounts == ApplyEntry(old(balances.accounts), entry)
    {
      balances.Apply(entry);
      posted := posted + 1;
    }

    method DebitReturned(entryId: string)
      requires hand.Debiting?
      modifies this, balances
      ensures View() == old(View()).DebitReturned(entryId)
      ensures posted == old(posted) + 1
      ensures balances.accounts == ApplyEntry(old(balances.accounts), old(hand).post.entry)
      ensures var t := old(hand).transfer;
              var credit := Entry(entryId, t.transferId, t.to, t.amount, t.description);
              hand == Crediting(t, old(hand).post.entry, Post(credit, false))
    {
      var debit := hand.post.entry;
      Posted(debit);
      hand := Crediting(hand.transfer, debit, Post(CreditEntry(hand.transfer, entryId), false));
    }

    method CreditReturned()
      requires hand.Crediting?
      modifies this, balances
      ensures View() == old(View()).CreditReturned()
      ensures hand == Idle && posted == old(posted) + 1
      ensures balances.accounts == ApplyEntry(old(balances.accounts), old(hand).post.entry)
    {
      Posted(hand.post.entry);
      hand := Idle;
    }

    method Fund(account: string, amount: int, entryId: string)
      modifies this
      ensures View() == old(View()).Fund(account, amount, entryId)
      ensures funds == old(funds) + [Post(Entry(entryId, "OPENING-" + account, account, amount, "opening balance"), false)]
    {
      funds := funds + [Post(OpeningEntry(account, amount, entryId), false)];
    }

    method FundReturned(i: nat)
      requires i < |funds|
      modifies this, balances
      ensures View() == old(View()).FundReturned(i)
      ensures posted == old(posted) + 1 && funds == old(funds)[..i] + old(funds)[i + 1..]
      ensures balances.accounts == ApplyEntry(old(balances.accounts), old(funds)[i].entry)
    {
      Posted(funds[i].entry);
      funds := funds[..i] + funds[i + 1..];
      assert funds == old(funds)[..i] + [] + old(funds)[i + 1..];
    }
  }
}
