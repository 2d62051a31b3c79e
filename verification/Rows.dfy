/** Instance rows over whole runs: their addresses, their references, and their
    disappearance. */
module Rows {
  import opened Ipv4
  import opened Uuids
  import opened Schema
  import opened Commands
  import opened Protocol
  import opened Ledger

  /** Address invariant, over every run: a live row's address is absent or the one
      allocated when the instance was created; so is the address in every create
      command, wherever it is, in every report a goroutine is sending, and in every
      report on its way. */
  lemma AddressesAgree(steps: seq<Step>)
    requires Run(INITIAL, steps)
    ensures var s := After(INITIAL, steps);
            && (forall x | x in s.tables.instances :: AddressOf(s.book, x, s.tables.instances[x].ip))
            && (forall n, c: Command | c in Chan(s, n).history && c.CreateVm? ::
                  c.vm in s.book.births && c.ip == s.book.births[c.vm].ip)
            && (forall n, i | 0 <= i < |Chan(s, n).tasks| && Chan(s, n).tasks[i].pc.Reporting? ::
                  AddressOf(s.book, Chan(s, n).tasks[i].pc.report.vm, Chan(s, n).tasks[i].pc.report.ip))
            && (forall r | r in s.late :: AddressOf(s.book, r.vm, r.ip))
  {
    InvInitial();
    InvRun(INITIAL, steps);
    var s := After(INITIAL, steps);
    forall x | x in s.tables.instances ensures AddressOf(s.book, x, s.tables.instances[x].ip) {
      assert RowBorn(s.book, x, s.tables.instances[x]);
    }
    forall n, c: Command | c in Chan(s, n).history && c.CreateVm?
      ensures c.vm in s.book.births && c.ip == s.book.births[c.vm].ip
    {
      assert ChannelBorn(s.book, n, Chan(s, n));
      var i :| 0 <= i < |Chan(s, n).history| && Chan(s, n).history[i] == c;
      assert CommandBorn(s.book, n, Chan(s, n).history[i]);
    }
    forall n, i | 0 <= i < |Chan(s, n).tasks| && Chan(s, n).tasks[i].pc.Reporting?
      ensures AddressOf(s.book, Chan(s, n).tasks[i].pc.report.vm, Chan(s, n).tasks[i].pc.report.ip)
    {
      assert ChannelBorn(s.book, n, Chan(s, n));
      assert TaskBorn(s.book, n, Chan(s, n).tasks[i]);
    }
  }

  /** Referential integrity, over every run: every instance row refers to a node row
      and a VPC row that exist, and addresses of nodes are distinct. */
  lemma ReferencesExist(steps: seq<Step>, x: Uuid)
    requires Run(INITIAL, steps) && x in After(INITIAL, steps).tables.instances
    ensures var s := After(INITIAL, steps);
            && s.tables.instances[x].node in s.tables.nodes
            && s.tables.instances[x].vpc in s.tables.vpcs
            && x in s.book.births && s.book.births[x].node in s.book.owners
            && s.tables.nodes[s.tables.instances[x].node].info.address == s.book.owners[s.book.births[x].node]
  {
    InvInitial();
    InvRun(INITIAL, steps);
    var s := After(INITIAL, steps);
    assert RowBorn(s.book, x, s.tables.instances[x]);
  }

  lemma RowStaysGone(t: Tables, q: Statement, now: int, x: Uuid)
    requires Succeeds(t, q, now) && x !in t.instances && !(q.InsertRow? && q.id == x)
    ensures x !in Execute(t, q, now).instances
  {
  }

  lemma {:induction false} StaysGone(s: Cluster, steps: seq<Step>, x: Uuid)
    requires NodesOwned(s) && Run(s, steps) && x in s.book.births && x !in s.tables.instances
    ensures x !in After(s, steps).tables.instances
    decreases |steps|
  {
    if steps != [] {
      NodesOwnedStep(s, steps[0]);
      BookGrows(s, steps[0]);
      RowStaysGone(s.tables, StatementOf(s, steps[0]), s.now, x);
      StaysGone(Apply(s, steps[0]), steps[1..], x);
    }
  }

  /** No resurrection: an instance that was inserted at some time, and whose row is
      gone, stays gone. No late report, reconciliation, request or goroutine brings
      it back. */
  lemma NoResurrection(past: seq<Step>, future: seq<Step>, x: Uuid)
    requires Run(INITIAL, past)
    requires var s := After(INITIAL, past);
             Run(s, future) && x in s.book.births && x !in s.tables.instances
    ensures x !in After(After(INITIAL, past), future).tables.instances
  {
    InvInitial();
    InvRun(INITIAL, past);
    StaysGone(After(INITIAL, past), future, x);
  }
}
