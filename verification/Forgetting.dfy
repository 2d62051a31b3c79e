/** A start or stop clears the address of its row (the reports that follow carry none),
    and nothing but the create command and its report ever brings it. Once these are
    gone the row never has an address again. */
module Forgetting {
  import opened Wrappers
  import opened Ipv4
  import opened Uuids
  import opened Schema
  import opened Commands
  import C = Channels
  import opened Protocol
  import opened Ledger
  import Placement
  import Rows

  /** The goroutine will not report an address of x. */
  predicate TaskSilent(t: Task, x: Uuid) {
    Concerns(t.cmd, x) ==> (t.cmd.CreateVm? ==> t.pc == At(Finished)) && (t.pc.Reporting? ==> t.pc.report.ip.None?)
  }

  predicate ChannelSilent(c: C.Channel, x: Uuid) {
    && (forall i | 0 <= i < |c.queue| :: !Placement.Creates(c.queue[i], x))
    && (forall i | 0 <= i < |c.flight| :: !Placement.Creates(c.flight[i], x))
    && (forall i | 0 <= i < |c.tasks| :: TaskSilent(c.tasks[i], x))
  }

  ghost predicate NoneUnsent(ops: map<OpId, Op>, x: Uuid) {
    forall op | op in ops :: !Placement.Unsent(ops[op], x)
  }

  predicate NoAddress(t: Tables, x: Uuid) {
    x in t.instances ==> t.instances[x].ip.None?
  }

  /** The creation of x is over: its command is neither pending nor on its way nor being
      executed, and no report that carries the address is left. */
  ghost predicate Settled(s: Cluster, x: Uuid) {
    && x in s.book.births && NoneUnsent(s.ops, x)
    && (forall n :: ChannelSilent(Chan(s, n), x))
    && (forall r | r in s.late && r.vm == x :: r.ip.None?)
  }

  lemma UnsentStaysNone(s: Cluster, step: Step, x: Uuid)
    requires Enabled(s, step) && x in s.book.births && NoneUnsent(s.ops, x)
    ensures NoneUnsent(NextOps(s, step), x)
  {
    forall op | op in NextOps(s, step) ensures !Placement.Unsent(NextOps(s, step)[op], x) {
      if Placement.Unsent(NextOps(s, step)[op], x) {
        Placement.UnsentStep(s, step, op, x);
      }
    }
  }

  /** A goroutine that moves stays silent. */
  lemma WorkStaysSilent(t: Task, outcome: Outcome, domains: Domains, x: Uuid)
    requires t.pc.At? && t.pc.stage != Finished && TaskSilent(t, x)
    ensures TaskSilent(TaskStep(t, outcome, domains).0, x)
  {
    WorkReports(t, outcome, domains);
  }

  ghost predicate StepSilent(cs: C.ChannelStep, x: Uuid) {
    match cs
    case Push(cmd) => !Placement.Creates(cmd, x)
    case Move(_, t) => TaskSilent(t, x)
    case _ => true
  }

  lemma ChannelStepSilent(s: Cluster, step: Step, n: Uuid, x: Uuid)
    requires Enabled(s, step) && NoneUnsent(s.ops, x) && ChannelSilent(Chan(s, n), x)
    ensures var cs := OnChannel(s, step, n);
            cs.Some? ==> StepSilent(cs.value, x)
  {
    Placement.CreatePush(s, step, n, x);
    if step.SendCreate? {
      assert !Placement.Unsent(s.ops[step.op], x);
    }
    if step.Work? && step.node == n {
      WorkStaysSilent(TaskAt(s, n, step.i).value, step.outcome, AgentAt(s, HostOf(s, n)).domains, x);
    }
  }

  lemma ChannelStaysSilent(c: C.Channel, cs: C.ChannelStep, x: Uuid)
    requires C.Enabled(c, cs) && ChannelSilent(c, x) && StepSilent(cs, x)
    ensures ChannelSilent(C.Next(c, cs), x)
  {
    var d := C.Next(c, cs);
    if cs.Finish? {
      forall i | 0 <= i < |d.tasks| ensures TaskSilent(d.tasks[i], x) {
        assert d.tasks[i] == c.tasks[if i < cs.i then i else i + 1];
      }
    }
  }

  lemma LateStaysSilent(s: Cluster, step: Step, x: Uuid)
    requires Enabled(s, step) && ActorBorn(s, step) && AgentsBorn(s)
    requires forall n :: ChannelSilent(Chan(s, n), x)
    requires forall r | r in s.late && r.vm == x :: r.ip.None?
    ensures forall r | r in NextLate(s, step) && r.vm == x :: r.ip.None?
  {
    if step.FailReport? {
      assert ChannelSilent(Chan(s, step.node), x);
      ReportIsSilent(s, step.node, step.i, x);
    }
    if step.ReportNext? {
      assert AgentBorn(s.book, step.address, AgentAt(s, step.address));
      ListingIsSilent(s, step.address);
    }
  }

  /** The statement gives x no address. */
  predicate StatementSilent(q: Statement, x: Uuid) {
    match q
    case InsertRow(id, _) => id != x
    case SetStatus(id, _, ip) => id == x ==> ip.None?
    case TellStatus(r) => r.vm == x ==> r.ip.None?
    case _ => true
  }

  lemma StatementIsSilent(s: Cluster, step: Step, x: Uuid)
    requires Enabled(s, step) && ActorBorn(s, step) && AgentsBorn(s) && x in s.book.births && NoneUnsent(s.ops, x)
    requires forall n :: ChannelSilent(Chan(s, n), x)
    requires forall r | r in s.late && r.vm == x :: r.ip.None?
    ensures StatementSilent(StatementOf(s, step), x)
  {
    match step
    case SetAddress(op) => assert !Placement.Unsent(s.ops[op], x);
    case Deliver(n, i) =>
      assert ChannelSilent(Chan(s, n), x);
      ReportIsSilent(s, n, i, x);
    case ReportNext(a, _) =>
      assert AgentBorn(s.book, a, AgentAt(s, a));
      ListingIsSilent(s, a);
    case _ =>
  }

  lemma ReportIsSilent(s: Cluster, n: Uuid, i: nat, x: Uuid)
    requires ChannelSilent(Chan(s, n), x) && TaskAt(s, n, i).Some? && TaskAt(s, n, i).value.pc.Reporting?
    requires TaskBorn(s.book, n, TaskAt(s, n, i).value)
    ensures var r := TaskAt(s, n, i).value.pc.report;
            r.vm == x ==> r.ip.None?
  {
    assert TaskSilent(Chan(s, n).tasks[i], x);
  }

  lemma ListingIsSilent(s: Cluster, a: string)
    requires AgentBorn(s.book, a, AgentAt(s, a)) && AgentAt(s, a).listing != []
    ensures AgentAt(s, a).listing[0].ip.None?
  {
    assert ListedBorn(s.book, a, AgentAt(s, a).listing[0]);
  }

  /** The step is a start, stop or delete that marks the row of x. */
  ghost predicate Marks(s: Cluster, step: Step, x: Uuid)
    requires Enabled(s, step)
  {
    step.Mark? && s.ops[step.op].target.id == x
  }

  /** A mark of x was executed in the run. */
  ghost predicate Cleared(s: Cluster, steps: seq<Step>, x: Uuid)
    requires Run(s, steps)
    decreases |steps|
  {
    steps != [] && (Marks(s, steps[0], x) || Cleared(Apply(s, steps[0]), steps[1..], x))
  }

  lemma SilentEffect(t: Tables, q: Statement, now: int, x: Uuid)
    requires Succeeds(t, q, now) && StatementSilent(q, x)
    requires x in t.instances && x in Execute(t, q, now).instances
    ensures Execute(t, q, now).instances[x].ip == if q.SetStatus? && q.id == x then None else t.instances[x].ip
  {
  }

  /** The statements that set the status of x. */
  lemma MarkIsSetStatus(s: Cluster, step: Step, x: Uuid)
    requires Enabled(s, step) && NoneUnsent(s.ops, x)
    ensures Marks(s, step, x) <==> StatementOf(s, step).SetStatus? && StatementOf(s, step).id == x
  {
    if step.SetAddress? {
      assert !Placement.Unsent(s.ops[step.op], x);
    }
  }

  lemma ChannelsStaySilent(s: Cluster, step: Step, x: Uuid)
    requires Enabled(s, step) && NoneUnsent(s.ops, x) && forall n :: ChannelSilent(Chan(s, n), x)
    ensures forall n :: ChannelSilent(Chan(Apply(s, step), n), x)
  {
    forall n ensures ChannelSilent(Chan(Apply(s, step), n), x) {
      ChannelAfter(s, step, n);
      ChannelStepSilent(s, step, n, x);
      if OnChannel(s, step, n).Some? {
        ChannelStaysSilent(Chan(s, n), OnChannel(s, step, n).value, x);
      }
    }
  }

  lemma SettledStep(s: Cluster, step: Step, x: Uuid)
    requires Enabled(s, step) && Inv(s) && Settled(s, x)
    ensures Settled(Apply(s, step), x)
  {
    BookGrows(s, step);
    ActorIsBorn(s, step);
    UnsentStaysNone(s, step, x);
    LateStaysSilent(s, step, x);
    ChannelsStaySilent(s, step, x);
  }

  lemma AddressStep(s: Cluster, step: Step, x: Uuid)
    requires Enabled(s, step) && ChannelsBorn(s) && AgentsBorn(s) && Settled(s, x)
    requires x in NextTables(s, step).instances
    ensures x in s.tables.instances
    ensures NextTables(s, step).instances[x].ip == if Marks(s, step, x) then None else s.tables.instances[x].ip
  {
    ActorIsBorn(s, step);
    StatementIsSilent(s, step, x);
    MarkIsSetStatus(s, step, x);
    if x !in s.tables.instances {
      Rows.RowStaysGone(s.tables, StatementOf(s, step), s.now, x);
    }
    SilentEffect(s.tables, StatementOf(s, step), s.now, x);
  }

  /** Once the creation is over, the address is decided by marks alone: over any run after
      which the row is still there, it has no address if a start, stop or delete marked
      it, and the address it had if none did. No report or reconciliation matters. */
  lemma {:induction false} AddressOverRun(s: Cluster, steps: seq<Step>, x: Uuid)
    requires Inv(s) && Run(s, steps) && Settled(s, x) && x in After(s, steps).tables.instances
    ensures Settled(After(s, steps), x) && x in s.tables.instances
    ensures After(s, steps).tables.instances[x].ip == if Cleared(s, steps, x) then None else s.tables.instances[x].ip
    decreases |steps|
  {
    if steps != [] {
      var s' := Apply(s, steps[0]);
      InvStep(s, steps[0]);
      SettledStep(s, steps[0], x);
      AddressOverRun(s', steps[1..], x);
      AddressStep(s, steps[0], x);
    }
  }

  /** So the first start, stop or delete of an instance whose creation is over loses its
      address for good. */
  lemma MarkForgets(s: Cluster, op: OpId, steps: seq<Step>)
    requires Inv(s) && Enabled(s, Mark(op)) && Settled(s, s.ops[op].target.id)
    requires Run(Apply(s, Mark(op)), steps)
    ensures NoAddress(After(Apply(s, Mark(op)), steps).tables, s.ops[op].target.id)
  {
    var x := s.ops[op].target.id;
    if x in After(Apply(s, Mark(op)), steps).tables.instances {
      RunCons(s, Mark(op), steps);
      AddressOverRun(s, [Mark(op)] + steps, x);
    }
  }
}
