/** Node rows as leases: the node table is a fold of the events of its history, a
    node counts as healthy for 30 seconds after its last contact, and instances are
    placed on healthy nodes only. */
module Lease {
  import opened Wrappers
  import opened Uuids
  import opened Schema
  import opened Protocol
  import opened Ledger

  /** The row of n after a history: None before its first greeting and after its
      removal. */
  function Replay(log: seq<NodeEvent>, n: Uuid): Option<NodeRow> {
    if log == [] then None
    else
      var row, e := Replay(log[..|log| - 1], n), log[|log| - 1];
      if e.node != n then row
      else
        match e
        case Greeting(_, info, at) => Some(if row.Some? then Greeted(row.value, info.name, at) else NewNode(info, at))
        case Beat(_, stats, at) =>
          if row.Some? then Some(row.value.(stats := Some(stats), lastSeen := at, status := Healthy)) else None
        case Silence(_) => if row.Some? then Some(row.value.(status := Unreachable)) else None
        case Removal(_) => None
  }

  /** The last event of n. */
  function LastWord(log: seq<NodeEvent>, n: Uuid): Option<NodeEvent> {
    if log == [] then None
    else if log[|log| - 1].node == n then Some(log[|log| - 1])
    else LastWord(log[..|log| - 1], n)
  }

  /** When n was last heard of. */
  function LastContact(log: seq<NodeEvent>, n: Uuid): Option<int> {
    if log == [] then None
    else
      var e := log[|log| - 1];
      if e.node == n && (e.Greeting? || e.Beat?) then Some(e.at) else LastContact(log[..|log| - 1], n)
  }

  /** The last statistics n sent since it was last removed. */
  function LastStats(log: seq<NodeEvent>, n: Uuid): Option<NodeStats> {
    if log == [] then None
    else
      var e := log[|log| - 1];
      if e == Removal(n) then None
      else if e.node == n && e.Beat? then Some(e.stats)
      else LastStats(log[..|log| - 1], n)
  }

  /** What a replayed row says, without replaying: it was last seen at the last
      contact, and is healthy exactly when its last event was a contact. */
  lemma {:induction false} ReplayedRow(log: seq<NodeEvent>, n: Uuid)
    requires Replay(log, n).Some?
    ensures var row := Replay(log, n).value;
            && LastContact(log, n) == Some(row.lastSeen)
            && LastWord(log, n).Some?
            && (row.status == Healthy <==> LastWord(log, n).value.Greeting? || LastWord(log, n).value.Beat?)
  {
    if log != [] {
      var front := log[..|log| - 1];
      if Replay(front, n).Some? {
        ReplayedRow(front, n);
      }
    }
  }

  /** The row of n was inserted by event k, and not removed since. */
  ghost predicate InsertedAt(log: seq<NodeEvent>, n: Uuid, k: nat) {
    && k < |log| && log[k].Greeting? && log[k].node == n && Replay(log[..k], n).None?
    && forall i | k < i < |log| :: log[i] != Removal(n)
  }

  ghost predicate BeatSince(log: seq<NodeEvent>, n: Uuid, k: nat) {
    exists i :: k < i < |log| && log[i].Beat? && log[i].node == n
  }

  /** A row has statistics exactly when there was a heartbeat since it was inserted, and
      they are those of the last heartbeat. */
  lemma {:induction false} ReplayedStats(log: seq<NodeEvent>, n: Uuid) returns (k: nat)
    requires Replay(log, n).Some?
    ensures InsertedAt(log, n, k)
    ensures var stats := Replay(log, n).value.stats;
            (stats.Some? <==> BeatSince(log, n, k)) && (stats.Some? ==> stats == LastStats(log, n))
  {
    var front, last := log[..|log| - 1], |log| - 1;
    if Replay(front, n).Some? {
      k := ReplayedStats(front, n);
      InsertedBefore(log, n, k);
      if log[last].Beat? && log[last].node == n {
        assert BeatSince(log, n, k);
      } else if BeatSince(log, n, k) {
        var i :| k < i < |log| && log[i].Beat? && log[i].node == n;
        assert front[i] == log[i];
      }
    } else {
      k := last;
    }
  }

  lemma InsertedBefore(log: seq<NodeEvent>, n: Uuid, k: nat)
    requires log != [] && InsertedAt(log[..|log| - 1], n, k) && log[|log| - 1] != Removal(n)
    ensures InsertedAt(log, n, k)
  {
    var front := log[..|log| - 1];
    assert front[..k] == log[..k];
    assert forall i | k < i < |front| :: front[i] == log[i];
  }

  /** The lease on n: its last event was a contact, less than 30 seconds ago. */
  predicate Leased(log: seq<NodeEvent>, n: Uuid, now: int) {
    && LastWord(log, n).Some? && (LastWord(log, n).value.Greeting? || LastWord(log, n).value.Beat?)
    && LastContact(log, n).Some? && LastContact(log, n).value > now - 30
  }

  /** No contact of the history is later than `at`. */
  predicate ContactsBy(log: seq<NodeEvent>, at: int) {
    forall i | 0 <= i < |log| && (log[i].Greeting? || log[i].Beat?) :: log[i].at <= at
  }

  /** The node was leased when it was chosen: in the history as it then was, and at the
      time of the choice. */
  predicate LeasedWhenChosen(log: seq<NodeEvent>, n: Uuid, choice: Choice) {
    choice.after <= |log| && Leased(log[..choice.after], n, choice.at) && ContactsBy(log[..choice.after], choice.at)
  }

  /** When it was chosen, the node had sent statistics that leave the instance its RAM: in
      the last of them, as many whole megabytes are free. */
  predicate HadRoomWhenChosen(log: seq<NodeEvent>, n: Uuid, spec: VmSpec, choice: Choice) {
    && choice.after <= |log|
    && LastStats(log[..choice.after], n).Some?
    && LastStats(log[..choice.after], n).value.ramFree / 0x10_0000 >= spec.ramMb
  }

  predicate WellChosen(log: seq<NodeEvent>, n: Uuid, spec: VmSpec, choice: Choice) {
    LeasedWhenChosen(log, n, choice) && HadRoomWhenChosen(log, n, spec, choice)
  }

  /** The node table is the fold of its history. */
  ghost predicate IsReplay(t: Tables, log: seq<NodeEvent>) {
    forall n :: (n in t.nodes <==> Replay(log, n).Some?) && (n in t.nodes ==> Replay(log, n) == Some(t.nodes[n]))
  }

  /** A request that has chosen a node, and an instance, were placed under a lease. */
  ghost predicate OpLeased(log: seq<NodeEvent>, o: Op) {
    match o
    case Chosen(req, _, node, choice) => WellChosen(log, node, req.spec, choice)
    case Counted(plan, choice) => WellChosen(log, plan.node, plan.req.spec, choice)
    case _ => true
  }

  ghost predicate BirthLeased(log: seq<NodeEvent>, e: Birth) {
    WellChosen(log, e.node, e.spec, e.choice)
  }

  ghost predicate Placed(s: Cluster) {
    && IsReplay(s.tables, s.log) && ContactsBy(s.log, s.now)
    && (forall op | op in s.ops :: OpLeased(s.log, s.ops[op]))
    && (forall x | x in s.book.births :: BirthLeased(s.log, s.book.births[x]))
  }

  /** What a statement on the node table adds to its history. */
  ghost function EventsOf(t: Tables, q: Statement, now: int): seq<NodeEvent>
    requires Succeeds(t, q, now)
  {
    match q
    case NodeUpsert(newId, info) => [Greeting(UpsertNode(t, newId, info, now).value.1, info, now)]
    case NodeBeat(n, stats) => [Beat(n, stats, now)]
    case NodeLost(n) => [Silence(n)]
    case NodeDelete(n) => if NodeInUse(t, n) then [] else [Removal(n)]
    case _ => []
  }

  lemma LogStep(s: Cluster, step: Step)
    requires Enabled(s, step)
    ensures NextLog(s, step) == s.log + EventsOf(s.tables, StatementOf(s, step), s.now)
  {
  }

  lemma ReplayAppend(log: seq<NodeEvent>, e: NodeEvent, n: Uuid)
    ensures e.node != n ==> Replay(log + [e], n) == Replay(log, n)
    ensures (log + [e])[..|log|] == log
  {
    assert (log + [e])[..|log|] == log;
  }

  lemma StatementIsReplay(t: Tables, q: Statement, now: int, log: seq<NodeEvent>)
    requires Valid(t) && Succeeds(t, q, now) && IsReplay(t, log)
    ensures IsReplay(Execute(t, q, now), log + EventsOf(t, q, now))
  {
    var t', events := Execute(t, q, now), EventsOf(t, q, now);
    if events == [] {
      assert log + events == log;
      assert t'.nodes == t.nodes;
    } else {
      forall n ensures (n in t'.nodes <==> Replay(log + events, n).Some?)
                       && (n in t'.nodes ==> Replay(log + events, n) == Some(t'.nodes[n]))
      {
        ReplayAppend(log, events[0], n);
        if q.NodeUpsert? {
          UpsertReplays(t, q, now, log, n);
        }
      }
    }
  }

  lemma UpsertReplays(t: Tables, q: Statement, now: int, log: seq<NodeEvent>, n: Uuid)
    requires Valid(t) && q.NodeUpsert? && Succeeds(t, q, now) && IsReplay(t, log)
    ensures var t', events := Execute(t, q, now), EventsOf(t, q, now);
            (n in t'.nodes <==> Replay(log + events, n).Some?)
            && (n in t'.nodes ==> Replay(log + events, n) == Some(t'.nodes[n]))
  {
    var m := UpsertNode(t, q.newId, q.info, now).value.1;
    ReplayAppend(log, Greeting(m, q.info, now), n);
    if k: Uuid :| HasAddress(t, k, q.info.address) {
      UpsertKnown(t, k, q.newId, q.info, now);
    }
  }

  /** What was true at the choice stays true of the longer history. */
  lemma LeaseGrows(log: seq<NodeEvent>, more: seq<NodeEvent>, n: Uuid, spec: VmSpec, choice: Choice)
    requires WellChosen(log, n, spec, choice)
    ensures WellChosen(log + more, n, spec, choice)
  {
    assert (log + more)[..choice.after] == log[..choice.after];
  }

  /** A choice of the scheduler is under a lease, and by statistics that were sent. */
  lemma PickIsLeased(s: Cluster, n: Uuid, req: Request)
    requires IsReplay(s.tables, s.log) && ContactsBy(s.log, s.now) && ValidRequest(req)
    requires IsPick(s.tables, n, MinRam(req), s.now)
    ensures Leased(s.log, n, s.now) && WellChosen(s.log, n, req.spec, Choice(s.now, |s.log|))
    ensures LastStats(s.log, n).Some? && LastStats(s.log, n).value.ramFree / 0x10_0000 >= req.spec.ramMb
  {
    ReplayedRow(s.log, n);
    var _ := ReplayedStats(s.log, n);
    assert s.log[..|s.log|] == s.log;
  }

  /** No other leased node has last sent statistics with more free RAM. */
  lemma PickIsRoomiest(s: Cluster, n: Uuid, req: Request)
    requires IsReplay(s.tables, s.log) && IsPick(s.tables, n, MinRam(req), s.now) && ValidRequest(req)
    ensures forall m | m in s.tables.nodes && Leased(s.log, m, s.now) && s.tables.nodes[m].stats.Some? ::
              && LastStats(s.log, m).Some? && LastStats(s.log, n).Some?
              && LastStats(s.log, m).value.ramFree <= LastStats(s.log, n).value.ramFree
  {
    var _ := ReplayedStats(s.log, n);
    forall m | m in s.tables.nodes && Leased(s.log, m, s.now) && s.tables.nodes[m].stats.Some?
      ensures && LastStats(s.log, m).Some? && LastStats(s.log, n).Some?
              && LastStats(s.log, m).value.ramFree <= LastStats(s.log, n).value.ramFree
    {
      ReplayedRow(s.log, m);
      var _ := ReplayedStats(s.log, m);
      assert Fresh(s.tables.nodes[m], s.now);
    }
  }

  lemma ContactsStep(s: Cluster, step: Step)
    requires Enabled(s, step) && ContactsBy(s.log, s.now)
    ensures ContactsBy(NextLog(s, step), s.now)
  {
    var q := StatementOf(s, step);
    LogStep(s, step);
    EventsAreNow(s.tables, q, s.now);
    ContactsAppend(s.log, EventsOf(s.tables, q, s.now), s.now);
  }

  lemma EventsAreNow(t: Tables, q: Statement, now: int)
    requires Succeeds(t, q, now)
    ensures ContactsBy(EventsOf(t, q, now), now)
  {
  }

  lemma ContactsAppend(log: seq<NodeEvent>, more: seq<NodeEvent>, at: int)
    requires ContactsBy(log, at) && ContactsBy(more, at)
    ensures ContactsBy(log + more, at)
  {
  }

  lemma OpsLeasedStep(s: Cluster, step: Step)
    requires Enabled(s, step) && Placed(s)
    ensures forall op | op in NextOps(s, step) :: OpLeased(NextLog(s, step), NextOps(s, step)[op])
  {
    LogStep(s, step);
    forall op | op in NextOps(s, step) ensures OpLeased(NextLog(s, step), NextOps(s, step)[op]) {
      if step.Choose? && step.op == op {
        PickIsLeased(s, step.node, step.req);
      } else if op in s.ops {
        assert OpLeased(s.log, s.ops[op]);
        OpLeaseGrows(s.log, EventsOf(s.tables, StatementOf(s, step), s.now), s.ops[op]);
      }
    }
  }

  lemma OpLeaseGrows(log: seq<NodeEvent>, more: seq<NodeEvent>, o: Op)
    requires OpLeased(log, o)
    ensures OpLeased(log + more, o)
  {
    match o
    case Chosen(req, _, node, choice) => LeaseGrows(log, more, node, req.spec, choice);
    case Counted(plan, choice) => LeaseGrows(log, more, plan.node, plan.req.spec, choice);
    case _ =>
  }

  lemma BirthsLeasedStep(s: Cluster, step: Step, x: Uuid)
    requires Enabled(s, step) && Placed(s) && x in NextBook(s, step).births
    ensures BirthLeased(NextLog(s, step), NextBook(s, step).births[x])
  {
    LogStep(s, step);
    var e, more := NextBook(s, step).births[x], EventsOf(s.tables, StatementOf(s, step), s.now);
    if step.Insert? && step.id == x {
      assert OpLeased(s.log, s.ops[step.op]);
    }
    LeaseGrows(s.log, more, e.node, e.spec, e.choice);
  }

  lemma PlacedStep(s: Cluster, step: Step)
    requires Enabled(s, step) && NodesOwned(s) && Placed(s)
    ensures Placed(Apply(s, step))
  {
    LogStep(s, step);
    ContactsStep(s, step);
    StatementIsReplay(s.tables, StatementOf(s, step), s.now, s.log);
    OpsLeasedStep(s, step);
    forall x | x in NextBook(s, step).births
      ensures BirthLeased(NextLog(s, step), NextBook(s, step).births[x])
    {
      BirthsLeasedStep(s, step, x);
    }
  }

  lemma {:induction false} PlacedRun(s: Cluster, steps: seq<Step>)
    requires NodesOwned(s) && Placed(s) && Run(s, steps)
    ensures Placed(After(s, steps))
    decreases |steps|
  {
    if steps != [] {
      NodesOwnedStep(s, steps[0]);
      PlacedStep(s, steps[0]);
      PlacedRun(Apply(s, steps[0]), steps[1..]);
    }
  }

  lemma RowsKeepSizes(steps: seq<Step>)
    requires Run(INITIAL, steps)
    ensures var s := After(INITIAL, steps);
            forall x | x in s.tables.instances ::
              x in s.book.births && s.tables.instances[x].spec == s.book.births[x].spec
  {
    InvInitial();
    InvRun(INITIAL, steps);
    var s := After(INITIAL, steps);
    forall x | x in s.tables.instances
      ensures x in s.book.births && s.tables.instances[x].spec == s.book.births[x].spec
    {
      assert RowBorn(s.book, x, s.tables.instances[x]);
    }
  }

  /** The lease, over every run: the rows that GetHealthy selects are those of the nodes
      whose last event was a contact, less than 30 seconds ago; and every instance was
      placed on a node that was leased when it was chosen, by the history up to the
      choice and at the time of the choice, and whose last statistics up to then have
      the instance's RAM free. Its row has the sizes it was placed by. */
  lemma PlacedUnderLease(steps: seq<Step>)
    requires Run(INITIAL, steps)
    ensures var s := After(INITIAL, steps);
            && (forall n | n in s.tables.nodes :: Fresh(s.tables.nodes[n], s.now) <==> Leased(s.log, n, s.now))
            && (forall n :: n in s.tables.nodes <==> Replay(s.log, n).Some?)
            && (forall n | n in s.tables.nodes :: Replay(s.log, n) == Some(s.tables.nodes[n]))
            && ContactsBy(s.log, s.now)
            && (forall x | x in s.book.births ::
                  var e := s.book.births[x];
                  && LeasedWhenChosen(s.log, e.node, e.choice)
                  && var stats := LastStats(s.log[..e.choice.after], e.node);
                     stats.Some? && stats.value.ramFree / 0x10_0000 >= e.spec.ramMb)
            && (forall x | x in s.tables.instances ::
                  x in s.book.births && s.tables.instances[x].spec == s.book.births[x].spec)
  {
    RowsKeepSizes(steps);
    assert forall a :: AgentAt(INITIAL, a) == Agent(None, map[], []);
    PlacedRun(INITIAL, steps);
    var s := After(INITIAL, steps);
    forall n | n in s.tables.nodes ensures Fresh(s.tables.nodes[n], s.now) <==> Leased(s.log, n, s.now) {
      ReplayedRow(s.log, n);
    }
    assert forall x | x in s.book.births :: BirthLeased(s.log, s.book.births[x]);
  }

  /** The choice itself, in any run: the node is leased by the whole history and at the
      time of the choice, has sent statistics with enough free RAM last, and no leased
      node has sent ones with more; and the request keeps the time and the history of the
      choice. */
  lemma ChosenUnderLease(steps: seq<Step>, step: Step)
    requires Run(INITIAL, steps) && step.Choose? && Enabled(After(INITIAL, steps), step)
    ensures var s := After(INITIAL, steps);
            && Leased(s.log, step.node, s.now)
            && LastStats(s.log, step.node).Some?
            && LastStats(s.log, step.node).value.ramFree / 0x10_0000 >= step.req.spec.ramMb
            && (forall m | m in s.tables.nodes && Leased(s.log, m, s.now) && s.tables.nodes[m].stats.Some? ::
                  LastStats(s.log, m).Some?
                  && LastStats(s.log, m).value.ramFree <= LastStats(s.log, step.node).value.ramFree)
            && step.op in Apply(s, step).ops && Apply(s, step).ops[step.op].Chosen?
            && Apply(s, step).ops[step.op].node == step.node
            && Apply(s, step).ops[step.op].choice == Choice(s.now, |s.log|)
  {
    assert forall a :: AgentAt(INITIAL, a) == Agent(None, map[], []);
    PlacedRun(INITIAL, steps);
    PickIsLeased(After(INITIAL, steps), step.node, step.req);
    PickIsRoomiest(After(INITIAL, steps), step.node, step.req);
  }

  /** So a silent node gets no instance: when every contact of a node so far is 30 seconds
      old or older, or its stream has broken since, no request can choose it. */
  lemma SilentIsNeverChosen(steps: seq<Step>, step: Step)
    requires Run(INITIAL, steps) && step.Choose?
    requires var s := After(INITIAL, steps);
             || LastWord(s.log, step.node) == Some(Silence(step.node))
             || forall i | 0 <= i < |s.log| && s.log[i].node == step.node && (s.log[i].Greeting? || s.log[i].Beat?)
                  :: s.log[i].at <= s.now - 30
    ensures !Enabled(After(INITIAL, steps), step)
  {
    var s := After(INITIAL, steps);
    if Enabled(s, step) {
      ChosenUnderLease(steps, step);
      ContactIsEvent(s.log, step.node);
    }
  }

  lemma {:induction false} ContactIsEvent(log: seq<NodeEvent>, n: Uuid)
    requires LastContact(log, n).Some?
    ensures exists i :: 0 <= i < |log| && log[i].node == n && (log[i].Greeting? || log[i].Beat?)
                        && log[i].at == LastContact(log, n).value
  {
    var e := log[|log| - 1];
    if !(e.node == n && (e.Greeting? || e.Beat?)) {
      ContactIsEvent(log[..|log| - 1], n);
      var i :| 0 <= i < |log| - 1 && log[i].node == n && (log[i].Greeting? || log[i].Beat?)
               && log[i].at == LastContact(log, n).value;
    }
  }
}
