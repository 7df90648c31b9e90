/** A business row and the record announcing it, written in one transaction, and the relay
    that publishes first and marks afterwards. `R` is a row; its record tells what it says. */
module Outbox {
  import opened Wrappers

  datatype Record<R> = Record(id: string, row: R, published: bool)

  /** A transaction not yet ended: its row is inserted, its record perhaps added. */
  datatype Transaction<R> = Transaction(id: string, row: R, recorded: bool)

  /** `rows` and `records` are the database; `open` and `relaying` die with the process. */
  datatype System<R> = System(
    rows: map<string, R>, records: seq<Record<R>>, open: seq<Transaction<R>>, relaying: Option<nat>,
    log: seq<(string, R)>)

  datatype Action<R> =
    | Begin(id: string, row: R)
    | Add(index: nat)
    | Commit(index: nat)
    | Rollback(index: nat)
    | Relay(record: nat)
    | Mark
    | Crash

  function Initial<R>(): System<R> {
    System(map[], [], [], None, [])
  }

  predicate Enabled<R>(s: System<R>, a: Action<R>) {
    match a
    case Begin(_, _) => true
    case Add(i) => i < |s.open| && !s.open[i].recorded
    case Commit(i) => i < |s.open| && s.open[i].recorded && s.open[i].id !in s.rows
    case Rollback(i) => i < |s.open|
    case Relay(j) => s.relaying.None? && j < |s.records| && !s.records[j].published
    case Mark => s.relaying.Some? && s.relaying.value < |s.records|
    case Crash => true
  }

  function Next<R>(s: System<R>, a: Action<R>): System<R>
    requires Enabled(s, a)
  {
    match a
    case Begin(id, row) => s.(open := s.open + [Transaction(id, row, false)])
    case Add(i) => s.(open := s.open[i := s.open[i].(recorded := true)])
    case Commit(i) =>
      s.(rows := s.rows[s.open[i].id := s.open[i].row],
         records := s.records + if s.open[i].recorded then [Record(s.open[i].id, s.open[i].row, false)] else [],
         open := s.open[..i] + s.open[i + 1..])
    case Rollback(i) => s.(open := s.open[..i] + s.open[i + 1..])
    case Relay(j) => s.(log := s.log + [(s.records[j].id, s.records[j].row)], relaying := Some(j))
    case Mark =>
      var j := s.relaying.value;
      s.(records := s.records[j := s.records[j].(published := true)], relaying := None)
    case Crash => s.(open := [], relaying := None)
  }

  predicate Runs<R>(s: System<R>, run: seq<Action<R>>)
    decreases |run|
  {
    run == [] || (Enabled(s, run[0]) && Runs(Next(s, run[0]), run[1..]))
  }

  function End<R>(s: System<R>, run: seq<Action<R>>): System<R>
    requires Runs(s, run)
    decreases |run|
  {
    if run == [] then s else End(Next(s, run[0]), run[1..])
  }

  // ---- rows and records correspond -----------------------------------------------------

  /** No two records are of one row, every record tells of a committed row, and every row
      has its record. */
  ghost predicate OneToOne<R>(s: System<R>) {
    && (forall i, j :: 0 <= i < j < |s.records| ==> s.records[i].id != s.records[j].id)
    && (forall i :: 0 <= i < |s.records| ==> s.records[i].id in s.rows && s.rows[s.records[i].id] == s.records[i].row)
    && (forall id :: id in s.rows ==> exists i :: 0 <= i < |s.records| && s.records[i].id == id)
  }

  /** What is announced is committed; what is marked, or being marked, was announced. */
  ghost predicate Announced<R>(s: System<R>) {
    && (forall e :: e in s.log ==> e.0 in s.rows && s.rows[e.0] == e.1)
    && (forall i :: 0 <= i < |s.records| && s.records[i].published ==> (s.records[i].id, s.records[i].row) in s.log)
    && (s.relaying.Some? && s.relaying.value < |s.records| ==>
          var r := s.records[s.relaying.value]; (r.id, r.row) in s.log)
    && (s.relaying.Some? ==> s.relaying.value < |s.records|)
  }

  lemma OneToOneNext<R>(s: System<R>, a: Action<R>)
    requires OneToOne(s) && Announced(s) && Enabled(s, a)
    ensures OneToOne(Next(s, a))
  {
    match a
    case Commit(i) => OneToOneCommit(s, i);
    case Mark => OneToOneMark(s);
    case _ =>
  }

  lemma OneToOneCommit<R>(s: System<R>, i: nat)
    requires OneToOne(s) && Enabled(s, Commit(i))
    ensures OneToOne(Next(s, Commit(i)))
  {
    var s' := Next(s, Commit(i));
    forall id | id in s'.rows ensures exists k :: 0 <= k < |s'.records| && s'.records[k].id == id {
      if id in s.rows {
        var k :| 0 <= k < |s.records| && s.records[k].id == id;
        assert s'.records[k].id == id;
      } else {
        assert s'.records[|s.records|].id == id;
      }
    }
  }

  lemma OneToOneMark<R>(s: System<R>)
    requires OneToOne(s) && Enabled(s, Mark)
    ensures OneToOne(Next(s, Mark))
  {
    var s' := Next(s, Mark);
    assert forall k :: 0 <= k < |s.records| ==> s'.records[k].id == s.records[k].id && s'.records[k].row == s.records[k].row;
    forall id | id in s'.rows ensures exists k :: 0 <= k < |s'.records| && s'.records[k].id == id {
      var k :| 0 <= k < |s.records| && s.records[k].id == id;
      assert s'.records[k].id == id;
    }
  }

  lemma AnnouncedNext<R>(s: System<R>, a: Action<R>)
    requires OneToOne(s) && Announced(s) && Enabled(s, a)
    ensures Announced(Next(s, a))
  {
    var s' := Next(s, a);
    if a.Relay? {
      assert s'.log[|s.log|] in s'.log;
      assert forall e :: e in s.log ==> e in s'.log;
    }
  }

  lemma {:induction false} RunKeeps<R>(s: System<R>, run: seq<Action<R>>)
    requires Runs(s, run) && OneToOne(s) && Announced(s)
    ensures OneToOne(End(s, run)) && Announced(End(s, run))
    decreases |run|
  {
    if run != [] {
      OneToOneNext(s, run[0]);
      AnnouncedNext(s, run[0]);
      RunKeeps(Next(s, run[0]), run[1..]);
    }
  }

  /** Through commits, rollbacks, crashes and duplicates: rows and records correspond one to
      one, only committed rows are announced, and with nothing pending all of them were. */
  lemma OutboxAgrees<R>(run: seq<Action<R>>)
    requires Runs(Initial(), run)
    ensures var s := End(Initial(), run);
            && OneToOne(s)
            && (forall e :: e in s.log ==> e.0 in s.rows && s.rows[e.0] == e.1)
            && ((forall i :: 0 <= i < |s.records| ==> s.records[i].published) ==>
                  forall id :: id in s.rows ==> (id, s.rows[id]) in s.log)
  {
    var s := End(Initial(), run);
    RunKeeps(Initial(), run);
    if forall i :: 0 <= i < |s.records| ==> s.records[i].published {
      forall id | id in s.rows ensures (id, s.rows[id]) in s.log {
        var i :| 0 <= i < |s.records| && s.records[i].id == id;
      }
    }
  }

  /** A transaction that is rolled back leaves nothing, and a crash takes only what was open. */
  lemma RollbackLeavesNothing<R>(s: System<R>, id: string, row: R)
    ensures Next(Next(s, Begin(id, row)), Rollback(|s.open|)) == s
    ensures Next(s, Crash) == s.(open := [], relaying := None)
  {
    assert (s.open + [Transaction(id, row, false)])[..|s.open|] == s.open;
    assert s.open + [] == s.open;
  }

  lemma {:induction false} RunsAppend<R>(s: System<R>, run: seq<Action<R>>, a: Action<R>)
    requires Runs(s, run) && Enabled(End(s, run), a)
    ensures Runs(s, run + [a]) && End(s, run + [a]) == Next(End(s, run), a)
    decreases |run|
  {
    if run == [] {
      assert run + [a] == [a] && [a][1..] == [];
    } else {
      assert (run + [a])[1..] == run[1..] + [a] && (run + [a])[0] == run[0];
      RunsAppend(Next(s, run[0]), run[1..], a);
    }
  }

  /** A committed row is announced and marked; a relay that dies between the two announces
      it again. */
  lemma AWriteIsAnnounced<R>(id: string, row: R, relayDies: bool) returns (run: seq<Action<R>>)
    ensures Runs(Initial(), run)
    ensures End(Initial(), run) ==
              System(map[id := row], [Record(id, row, true)], [], None,
                     if relayDies then [(id, row), (id, row)] else [(id, row)])
  {
    run := [];
    RunsAppend(Initial(), run, Begin(id, row));
    run := run + [Begin(id, row)];
    RunsAppend(Initial(), run, Add(0));
    run := run + [Add(0)];
    RunsAppend(Initial(), run, Commit(0));
    run := run + [Commit(0)];
    RunsAppend(Initial(), run, Relay(0));
    run := run + [Relay(0)];
    if relayDies {
      RunsAppend(Initial(), run, Crash);
      run := run + [Crash];
      RunsAppend(Initial(), run, Relay(0));
      run := run + [Relay(0)];
    }
    RunsAppend(Initial(), run, Mark);
    run := run + [Mark];
  }

  /** The gateway's and the policy module's write: a row and a record, or neither. */
  class Database<R> {
    var rows: map<string, R>
    var records: seq<Record<R>>

    constructor ()
      ensures rows == map[] && records == []
    {
      rows, records := map[], [];
    }

    /** `addFails` and `commitFails` say where the transaction raises, if it does. */
    method Write(id: string, row: R, addFails: bool, commitFails: bool) returns (committed: bool)
      modifies this
      ensures committed <==> id !in old(rows) && !addFails && !commitFails
      ensures committed ==> rows == old(rows)[id := row] && records == old(records) + [Record(id, row, false)]
      ensures !committed ==> rows == old(rows) && records == old(records)
    {
      var stagedRows, stagedRecords := rows, records;
      if id in stagedRows {
        return false;
      }
      stagedRows := stagedRows[id := row];
      if addFails {
        return false;
      }
      stagedRecords := stagedRecords + [Record(id, row, false)];
      if commitFails {
        return false;
      }
      rows, records := stagedRows, stagedRecords;
      return true;
    }
  }
}
