/** Every run of the ledger: requests, deliveries and redeliveries, `fund` calls
    interleaved at any await, sends the broker refuses, crashes and restarts. */
module LedgerSystem {
  import opened Wrappers
  import opened Sequences
  import opened LedgerJournal
  import opened LedgerWriter

  /** How a command ended: moved by a pair of entries, or refused. */
  datatype Handled = Moved(transfer: Transfer, debit: Entry, credit: Entry) | Refused(transfer: Transfer, refusal: Rejected)

  /** `journal`, `refusals` and `requested` are the broker's; `writer` is the process,
      if one is up. `unseen` are the entries the broker took in sends that raised since
      that process started. `doubted` (all such entries), `delivered`, `handled` and
      `interruptions` record the run. */
  datatype System = System(
    journal: seq<Entry>, refusals: seq<Rejected>, requested: set<Transfer>, noticed: seq<Rejected>,
    writer: Option<Writer>, unseen: seq<Entry>,
    doubted: seq<Entry>, delivered: seq<Transfer>, handled: seq<Handled>, interruptions: nat)
  {
    predicate Up() { writer.Some? }

    function W(): Writer
      requires Up()
    {
      writer.value
    }

    function With(w: Writer): System {
      this.(writer := Some(w))
    }
  }

  datatype Action =
    | Request(transfer: Transfer)              // the gateway sends a command
    | Notice                                   // the gateway consumes a refusal
    | Deliver(transfer: Transfer, id: string)  // first delivery or redelivery
    | Append                                   // the broker takes the handler's entry
    | Returned(id: string)                     // and its send returns
    | Announce                                 // the broker takes the refusal
    | AnnounceReturned                         // and its send returns
    | Refuse                                   // the handler's send raises, nothing taken
    | Doubt                                    // the handler's send raises, though the broker took it
    | Fund(account: string, amount: int, id: string)
    | FundAppend(index: nat)
    | FundReturned(index: nat)
    | FundRefused(index: nat)                  // a fund's send raises, nothing taken
    | FundDoubt(index: nat)                    // a fund's send raises, though the broker took it
    | Crash
    | Restart

  function HandPost(h: Hand): Option<Post> {
    if h.Debiting? || h.Crediting? then Some(h.post) else None
  }

  /** The entry of the handler that the broker has and the cache has not. */
  function Taken(h: Hand): seq<Entry> {
    if HandPost(h).Some? && h.post.appended then [h.post.entry] else []
  }

  predicate Enabled(s: System, a: Action) {
    match a
    case Request(t) => "T-" <= t.transferId
    case Notice => s.noticed < s.refusals
    case Deliver(t, _) => s.Up() && s.W().hand.Idle? && t in s.requested
    case Append => s.Up() && HandPost(s.W().hand).Some? && !s.W().hand.post.appended
    case Returned(_) => s.Up() && HandPost(s.W().hand).Some? && s.W().hand.post.appended
    case Announce => s.Up() && s.W().hand.Refusing? && !s.W().hand.announced
    case AnnounceReturned => s.Up() && s.W().hand.Refusing? && s.W().hand.announced
    case Refuse =>
      && s.Up()
      && !s.W().hand.Idle?
      && (s.W().hand.Refusing? ==> !s.W().hand.announced)
      && (HandPost(s.W().hand).Some? ==> !s.W().hand.post.appended)
    case Doubt =>
      s.Up() && if s.W().hand.Refusing? then s.W().hand.announced else Taken(s.W().hand) != []
    case Fund(_, _, _) => s.Up()
    case FundAppend(i) => s.Up() && i < |s.W().funds| && !s.W().funds[i].appended
    case FundReturned(i) => s.Up() && i < |s.W().funds| && s.W().funds[i].appended
    case FundRefused(i) => s.Up() && i < |s.W().funds| && !s.W().funds[i].appended
    case FundDoubt(i) => s.Up() && i < |s.W().funds| && s.W().funds[i].appended
    case Crash => s.Up()
    case Restart => !s.Up()
  }

  function Next(s: System, a: Action): System
    requires Enabled(s, a)
  {
    match a
    case Request(t) => s.(requested := s.requested + {t})
    case Notice => s.(noticed := s.noticed + [s.refusals[|s.noticed|]])
    case Deliver(t, id) => s.With(s.W().Receive(t, id)).(delivered := s.delivered + [t])
    case Append =>
      s.(journal := s.journal + [s.W().hand.post.entry]).With(
        s.W().(hand := s.W().hand.(post := s.W().hand.post.(appended := true))))
    case Returned(id) =>
      if s.W().hand.Debiting? then
        s.With(s.W().DebitReturned(id))
      else
        s.With(s.W().CreditReturned()).(
          handled := s.handled + [Moved(s.W().hand.transfer, s.W().hand.debit, s.W().hand.post.entry)])
    case Announce =>
      s.(refusals := s.refusals + [s.W().hand.refusal]).With(
        s.W().(hand := s.W().hand.(announced := true)))
    case AnnounceReturned =>
      s.With(s.W().RefusalReturned()).(
        handled := s.handled + [Refused(s.W().hand.transfer, s.W().hand.refusal)])
    case Refuse => Interrupted(s).With(s.W().HandFailed())
    case Doubt => Interrupted(Doubted(s, Taken(s.W().hand))).With(s.W().HandFailed())
    case Fund(account, amount, id) => s.With(s.W().Fund(account, amount, id))
    case FundAppend(i) =>
      s.(journal := s.journal + [s.W().funds[i].entry]).With(
        s.W().(funds := Splice(s.W().funds, i, [s.W().funds[i].(appended := true)])))
    case FundReturned(i) => s.With(s.W().FundReturned(i))
    case FundRefused(i) => s.With(s.W().FundFailed(i))
    case FundDoubt(i) => Doubted(s, [s.W().funds[i].entry]).With(s.W().FundFailed(i))
    case Crash => Interrupted(s).(writer := None)
    case Restart => s.With(Started(s.journal)).(unseen := [])
  }

  function Doubted(s: System, taken: seq<Entry>): System {
    s.(unseen := s.unseen + taken, doubted := s.doubted + taken)
  }

  function Interrupted(s: System): System {
    s.(interruptions := s.interruptions + 1)
  }

  function Initial(): System {
    System([], [], {}, [], None, [], [], [], [], 0)
  }

  // ---- runs ---------------------------------------------------------------------

  predicate Runs(s: System, run: seq<Action>)
    decreases |run|
  {
    run == [] || (Enabled(s, run[0]) && Runs(Next(s, run[0]), run[1..]))
  }

  function End(s: System, run: seq<Action>): System
    requires Runs(s, run)
    decreases |run|
  {
    if run == [] then s else End(Next(s, run[0]), run[1..])
  }

  lemma {:induction false} RunsAppend(s: System, run: seq<Action>, a: Action)
    requires Runs(s, run) && Enabled(End(s, run), a)
    ensures Runs(s, run + [a]) && End(s, run + [a]) == Next(End(s, run), a)
    decreases |run|
  {
    if run == [] {
      assert run + [a] == [a] && [a][1..] == [];
    } else {
      assert (run + [a])[1..] == run[1..] + [a] && (run + [a])[0] == run[0];
      RunsAppend(Next(s, run[0]), run[1..], a);
    }
  }

  lemma {:induction false} RunsConcat(s: System, run: seq<Action>, later: seq<Action>)
    requires Runs(s, run) && Runs(End(s, run), later)
    ensures Runs(s, run + later) && End(s, run + later) == End(End(s, run), later)
    decreases |later|
  {
    if later == [] {
      assert run + later == run;
    } else {
      RunsAppend(s, run, later[0]);
      RunsConcat(s, run + [later[0]], later[1..]);
      assert run + [later[0]] + later[1..] == run + later;
    }
  }

  lemma {:induction false} RunsSplit(s: System, run: seq<Action>, k: nat)
    requires Runs(s, run) && k <= |run|
    ensures Runs(s, run[..k]) && Runs(End(s, run[..k]), run[k..])
    decreases |run|
  {
    if k > 0 {
      RunsSplit(Next(s, run[0]), run[1..], k - 1);
      assert run[..k][1..] == run[1..][..k - 1] && run[1..][k - 1..] == run[k..];
    } else {
      assert run[..0] == [] && run[0..] == run;
    }
  }
}
