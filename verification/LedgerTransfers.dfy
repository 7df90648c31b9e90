/** The requesting side of the ledger: it sends commands and keeps what was refused. */
module LedgerTransfers {
  import opened LedgerJournal

  class TransferGateway {
    var refused: seq<Rejected>

    constructor ()
      ensures refused == []
    {
      refused := [];
    }

    /** One delivery from the rejections queue. */
    method Noticed(refusal: Rejected)
      modifies this
      ensures refused == old(refused) + [refusal]
    {
      refused := refused + [refusal];
    }

    /** The command sent, under an id that can never be mistaken for an opening's. */
    method Request(from: string, to: string, amount: int, description: string, unique: string)
        returns (t: Transfer)
      ensures t.from == from && t.to == to && t.amount == amount && t.description == description
      ensures t.transferId == "T-" + unique
      ensures !(OPENING <= t.transferId)
    {
      t := Transfer("T-" + unique, from, to, amount, description);
      assert t.transferId[0] == 'T' && OPENING[0] == 'O';
    }
  }
}
