/** What becomes of a command that is delivered more than once. */
module LedgerRepeats {
  import opened Wrappers
  import opened Sequences
  import opened LedgerJournal
  import opened LedgerWriter
  import opened LedgerSystem
  import opened LedgerSafety
  import opened LedgerTheorems
  import opened LedgerSolvency

  // ---- how often a command is applied ------------------------------------------------

  /** The debits and the credits posted under a transfer's id. */
  function DebitUnder(id: string): Entry -> int {
    (e: Entry) => if e.transferId == id && e.amount < 0 then 1 else 0
  }

  function CreditUnder(id: string): Entry -> int {
    (e: Entry) => if e.transferId == id && e.amount > 0 then 1 else 0
  }

  /** The balance covers this delivery of a command with that id. */
  predicate CoveredUnder(s: System, a: Action, id: string)
    requires Enabled(s, a)
  {
    a.Deliver? && a.transfer.transferId == id && 0 < a.transfer.amount <= Known(s, a.transfer.from)
  }

  /** The deliveries, first and repeated, that found the balance to cover them. */
  function CoveredDeliveries(s: System, run: seq<Action>, id: string): nat
    requires Runs(s, run)
    decreases |run|
  {
    if run == [] then 0 else
      (if CoveredUnder(s, run[0], id) then 1 else 0) + CoveredDeliveries(Next(s, run[0]), run[1..], id)
  }

  /** Debits, and credits, posted or certain to be if nothing stops the handler. */
  function DebitsDue(s: System, id: string): int {
    Sum(DebitUnder(id), s.journal)
    + match HandOf(s)
      case Debiting(t, p) => if t.transferId == id && !p.appended then 1 else 0
      case _ => 0
  }

  function CreditsDue(s: System, id: string): int {
    Sum(CreditUnder(id), s.journal)
    + match HandOf(s)
      case Debiting(t, _) => if t.transferId == id then 1 else 0
      case Crediting(t, _, p) => if t.transferId == id && !p.appended then 1 else 0
      case _ => 0
  }

  lemma DueNext(s: System, a: Action, id: string)
    requires Agrees(s) && Shaped(s) && Enabled(s, a) && "T-" <= id
    requires Next(s, a).interruptions == s.interruptions
    ensures var covered := if CoveredUnder(s, a, id) then 1 else 0;
            && DebitsDue(Next(s, a), id) == DebitsDue(s, id) + covered
            && CreditsDue(Next(s, a), id) == CreditsDue(s, id) + covered
  {
    match a
    case Deliver(t, _) => assert AgreesFor(s, t.from);
    case Append => DueAppend(s, id);
    case FundAppend(i) =>
      assert s.W().funds[i] in s.W().funds;
      assert IsOpening(s.W().funds[i].entry) && OPENING[0] == 'O' && id[0] == "T-"[0];
      DueFund(s, i, id);
    case _ => DueElse(s, a, id);
  }

  lemma DueAppend(s: System, id: string)
    requires Shaped(s) && Enabled(s, Append)
    ensures DebitsDue(Next(s, Append), id) == DebitsDue(s, id)
    ensures CreditsDue(Next(s, Append), id) == CreditsDue(s, id)
  {
    var h := s.W().hand;
    var s' := Next(s, Append);
    assert h.post.entry.transferId == h.transfer.transferId;
    assert if h.Debiting? then h.post.entry.amount < 0 else h.post.entry.amount > 0;
    assert s'.journal == s.journal + [h.post.entry];
    assert HandOf(s') == h.(post := h.post.(appended := true));
    CountsAppend(s.journal, h.post.entry, id);
  }

  lemma CountsAppend(journal: seq<Entry>, e: Entry, id: string)
    ensures Sum(DebitUnder(id), journal + [e]) == Sum(DebitUnder(id), journal) + DebitUnder(id)(e)
    ensures Sum(CreditUnder(id), journal + [e]) == Sum(CreditUnder(id), journal) + CreditUnder(id)(e)
  {
    SumAppend(DebitUnder(id), journal, e);
    SumAppend(CreditUnder(id), journal, e);
  }

  lemma DueFund(s: System, i: nat, id: string)
    requires Enabled(s, FundAppend(i)) && s.W().funds[i].entry.transferId != id
    ensures DebitsDue(Next(s, FundAppend(i)), id) == DebitsDue(s, id)
    ensures CreditsDue(Next(s, FundAppend(i)), id) == CreditsDue(s, id)
  {
    var s' := Next(s, FundAppend(i));
    assert s'.journal == s.journal + [s.W().funds[i].entry] && HandOf(s') == HandOf(s);
    CountsAppend(s.journal, s.W().funds[i].entry, id);
  }

  lemma DueElse(s: System, a: Action, id: string)
    requires Shaped(s) && Enabled(s, a) && Next(s, a).interruptions == s.interruptions
    requires !a.Deliver? && !a.Append? && !a.FundAppend?
    ensures DebitsDue(Next(s, a), id) == DebitsDue(s, id) && CreditsDue(Next(s, a), id) == CreditsDue(s, id)
  {}

  lemma {:induction false} RunKeepsDue(s: System, run: seq<Action>, id: string)
    requires Runs(s, run) && Agrees(s) && Shaped(s) && "T-" <= id
    ensures End(s, run).interruptions >= s.interruptions
    ensures End(s, run).interruptions == s.interruptions ==>
              && DebitsDue(End(s, run), id) == DebitsDue(s, id) + CoveredDeliveries(s, run, id)
              && CreditsDue(End(s, run), id) == CreditsDue(s, id) + CoveredDeliveries(s, run, id)
    decreases |run|
  {
    if run != [] {
      var s1 := Next(s, run[0]);
      AgreesNext(s, run[0]);
      ShapedNext(s, run[0]);
      RunKeepsDue(s1, run[1..], id);
      if s1.interruptions == s.interruptions {
        DueNext(s, run[0], id);
      }
    }
  }

  /** In a run without interruptions, once the handler is idle, a transfer's id has one
      debit and one credit in the journal for each delivery the balance covered: a command
      is applied once exactly when one of its deliveries was covered, and not at all
      when none was. */
  lemma AppliedOncePerCoveredDelivery(run: seq<Action>, id: string)
    requires Runs(Initial(), run) && "T-" <= id
    requires var s := End(Initial(), run); s.interruptions == 0 && HandOf(s).Idle?
    ensures var s := End(Initial(), run);
            Sum(DebitUnder(id), s.journal) == Sum(CreditUnder(id), s.journal) == CoveredDeliveries(Initial(), run, id)
  {
    RunKeepsDue(Initial(), run, id);
  }

  // ---- nothing remembers a command ----------------------------------------------------

  /** One request, delivered twice without any interruption, moves the money twice. */
  lemma ACommandIsAppliedTwice(t: Transfer, funded: int) returns (run: seq<Action>)
    requires "T-" <= t.transferId && 0 < 2 * t.amount <= funded
    ensures Runs(Initial(), run)
    ensures forall i, j :: 0 <= i < j < |run| ==> !(run[i].Request? && run[j].Request?)
    ensures var s := End(Initial(), run);
            var pair := [DebitEntry(t, ""), CreditEntry(t, "")];
            && s.interruptions == 0 && s.requested == {t} && s.delivered == [t, t]
            && s.journal == [OpeningEntry(t.from, funded, "")] + pair + pair
  {
    run := Opened(t.from, funded);
    RunsAppend(Initial(), run, Request(t));
    run := run + [Request(t)];
    run := Applied(run, t);
    run := Applied(run, t);
  }

  /** A covered command is delivered and nothing stops its handler. */
  lemma Applied(before: seq<Action>, t: Transfer) returns (run: seq<Action>)
    requires Runs(Initial(), before)
    requires var s := End(Initial(), before);
             s.Up() && s.W().hand.Idle? && t in s.requested && 0 < t.amount <= Of(s.W().accounts, t.from)
    ensures Runs(Initial(), run) && before <= run
    ensures forall a :: a in run[|before|..] ==> !a.Request?
    ensures var s := End(Initial(), before);
            var e := End(Initial(), run);
            && e.Up() && e.W().hand.Idle?
            && e.journal == s.journal + [DebitEntry(t, ""), CreditEntry(t, "")]
            && e.requested == s.requested && e.delivered == s.delivered + [t] && e.interruptions == s.interruptions
            && Of(e.W().accounts, t.from) >= Of(s.W().accounts, t.from) - t.amount
  {
    run := DebitTaken(before, t);
    RunsAppend(Initial(), run, LedgerSystem.Returned(""));
    run := run + [LedgerSystem.Returned("")];
    RunsAppend(Initial(), run, Append);
    run := run + [Append];
    RunsAppend(Initial(), run, LedgerSystem.Returned(""));
    run := run + [LedgerSystem.Returned("")];
    var rest := [Deliver(t, ""), Append, LedgerSystem.Returned(""), Append, LedgerSystem.Returned("")];
    assert run == before + rest && run[|before|..] == rest;
  }
}
