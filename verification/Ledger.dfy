/** What holds in every reachable state of the cluster: every row, request,
    command, report and domain of an instance agrees with what the insertion of its
    row fixed. */
module Ledger {
  import opened Wrappers
  import opened Ipv4
  import opened Uuids
  import Naming
  import opened Schema
  import opened Commands
  import C = Channels
  import opened Protocol

  /* ---- agreement with the book ---- */

  /** An address that is absent or the one allocated to x. */
  ghost predicate AddressOf(b: Book, x: Uuid, ip: Option<Address>) {
    ip.None? || (x in b.births && ip.value == b.births[x].ip)
  }

  ghost predicate RowBorn(b: Book, x: Uuid, row: InstanceRow) {
    && x in b.births
    && row.name == b.births[x].name && row.node == b.births[x].node && row.vpc == b.births[x].vpc
    && row.spec == b.births[x].spec
    && AddressOf(b, x, row.ip)
  }

  ghost predicate PlanBorn(b: Book, plan: Plan, x: Uuid) {
    && x in b.births && PlanFits(b, plan)
    && b.births[x].name == plan.req.name && b.births[x].node == plan.node && b.births[x].vpc == plan.req.vpc
    && b.births[x].net == plan.net && b.births[x].ip == plan.ip && b.births[x].spec == plan.req.spec
  }

  /** A request keeps the CIDR of its VPC, and the network parsed from it. */
  ghost predicate PlanFits(b: Book, plan: Plan) {
    && plan.node in b.owners
    && plan.req.vpc in b.vpcs && b.vpcs[plan.req.vpc] == plan.cidr
    && ParseCidr(plan.cidr) == Ok(plan.net)
  }

  ghost predicate TargetBorn(b: Book, t: Target) {
    && t.id in b.births
    && b.births[t.id].name == t.name && b.births[t.id].node == t.node && b.births[t.id].vpc == t.vpc
    && t.vpc in b.vpcs && b.vpcs[t.vpc] == t.cidr
  }

  ghost predicate OpBorn(b: Book, o: Op) {
    match o
    case Chosen(req, cidr, node, _) => node in b.owners && req.vpc in b.vpcs && b.vpcs[req.vpc] == cidr
    case Counted(plan, _) => PlanFits(b, plan)
    case Inserted(plan, id) => PlanBorn(b, plan, id)
    case Addressed(plan, id) => PlanBorn(b, plan, id)
    case Asked(t) => TargetBorn(b, t)
    case Marked(t) => TargetBorn(b, t)
    case Sent(id) => id in b.births
  }

  /** A command about an instance is addressed to the instance's node and names it as
      its row does. If it creates or starts the instance it carries its VPC and the CIDR
      of that; and if it creates it, its sizes and its address, and the gateway, the
      prefix and the bridge that the node's agent computes for its VPC. */
  ghost predicate CommandBorn(b: Book, n: Uuid, c: Command) {
    IsVmCommand(c) ==>
      && c.vm in b.births
      && b.births[c.vm].node == n && b.births[c.vm].name == c.name
      && (c.CreateVm? || c.StartVm? ==>
            c.vpc == b.births[c.vm].vpc && c.vpc in b.vpcs && c.cidr == b.vpcs[c.vpc])
      && (c.CreateVm? ==>
            && c.spec == b.births[c.vm].spec && c.ip == b.births[c.vm].ip
            && ParseCidr(c.cidr) == Ok(b.births[c.vm].net)
            && c.prefix == b.births[c.vm].net.prefix && c.gateway == Gateway(b.births[c.vm].net)
            && c.bridge == Naming.BridgeName(Text(c.vpc)))
  }

  /** A goroutine at work on instance x reports on x, with x's address or none. */
  ghost predicate TaskBorn(b: Book, n: Uuid, t: Task) {
    && CommandBorn(b, n, t.cmd)
    && (t.pc.Reporting? ==> Concerns(t.cmd, t.pc.report.vm) && AddressOf(b, t.pc.report.vm, t.pc.report.ip))
  }

  /** A domain was defined for an instance placed on that agent, and bears its name. */
  ghost predicate DomainBorn(b: Book, a: string, name: string, d: Domain) {
    && d.uuid in b.births
    && b.births[d.uuid].node in b.owners
    && b.owners[b.births[d.uuid].node] == a
    && b.births[d.uuid].name == name
  }

  /* ---- the invariant ---- */

  /** Node rows and sessions belong to the address that registered them. */
  ghost predicate NodesOwned(s: Cluster) {
    && Valid(s.tables)
    && (forall n | n in s.tables.nodes :: n in s.book.owners && s.tables.nodes[n].info.address == s.book.owners[n])
    && (forall a | AgentAt(s, a).session.Some? :: SessionOwned(s.book, a, AgentAt(s, a).session.value))
  }

  ghost predicate SessionOwned(b: Book, a: string, n: Uuid) {
    n in b.owners && b.owners[n] == a
  }

  ghost predicate BirthFits(b: Book, e: Birth) {
    e.node in b.owners && e.vpc in b.vpcs && ParseCidr(b.vpcs[e.vpc]) == Ok(e.net)
  }

  ghost predicate RowsBorn(b: Book, t: Tables) {
    && (forall x | x in b.births :: BirthFits(b, b.births[x]))
    && (forall v | v in t.vpcs :: v in b.vpcs && b.vpcs[v] == t.vpcs[v].cidr)
    && (forall x | x in t.instances :: RowBorn(b, x, t.instances[x]))
  }

  ghost predicate OpsBorn(b: Book, ops: map<OpId, Op>) {
    forall op | op in ops :: OpBorn(b, ops[op])
  }

  ghost predicate ChannelBorn(b: Book, n: Uuid, c: C.Channel) {
    && (forall i | 0 <= i < |c.history| :: CommandBorn(b, n, c.history[i]))
    && (forall i | 0 <= i < |c.tasks| :: TaskBorn(b, n, c.tasks[i]))
  }

  ghost predicate ChannelsSound(s: Cluster) {
    forall n :: C.Sound(Chan(s, n))
  }

  ghost predicate ChannelsBorn(s: Cluster) {
    forall n :: ChannelBorn(s.book, n, Chan(s, n))
  }

  ghost predicate AgentBorn(b: Book, a: string, agent: Agent) {
    && AllDomainsBorn(b, a, agent.domains)
    && (forall i | 0 <= i < |agent.listing| :: ListedBorn(b, a, agent.listing[i]))
  }

  /** A reconciliation reports instances of its own agent, without an address. */
  ghost predicate ListedBorn(b: Book, a: string, r: Report) {
    r.ip.None? && r.vm in b.births && b.births[r.vm].node in b.owners && b.owners[b.births[r.vm].node] == a
  }

  ghost predicate AgentsBorn(s: Cluster) {
    forall a :: AgentBorn(s.book, a, AgentAt(s, a))
  }

  ghost predicate LateBorn(b: Book, late: multiset<Report>) {
    forall r | r in late :: r.vm in b.births && AddressOf(b, r.vm, r.ip)
  }

  ghost predicate Inv(s: Cluster) {
    && NodesOwned(s) && RowsBorn(s.book, s.tables) && OpsBorn(s.book, s.ops)
    && ChannelsSound(s) && ChannelsBorn(s) && AgentsBorn(s) && LateBorn(s.book, s.late)
  }

  /* ---- the book only grows ---- */

  ghost predicate Grows(b: Book, b': Book) {
    && (forall n | n in b.owners :: n in b'.owners && b'.owners[n] == b.owners[n])
    && (forall x | x in b.births :: x in b'.births && b'.births[x] == b.births[x])
    && (forall v | v in b.vpcs :: v in b'.vpcs && b'.vpcs[v] == b.vpcs[v])
  }

  lemma BookGrows(s: Cluster, step: Step)
    requires Enabled(s, step) && NodesOwned(s)
    ensures Grows(s.book, NextBook(s, step))
  {
    if step.Register? {
      var n := UpsertNode(s.tables, step.newId, step.info, s.now).value.1;
      if n in s.book.owners {
        assert HasAddress(s.tables, n, step.address);
      }
    }
  }

  /* ---- nodes ---- */

  lemma TablesStayValid(t: Tables, q: Statement, now: int)
    requires Valid(t) && Succeeds(t, q, now)
    ensures Valid(Execute(t, q, now))
  {
    match q
    case NodeUpsert(newId, info) => UpsertKeepsValid(t, newId, info, now);
    case NodeBeat(n, stats) => NodeStatementsKeepValid(t, n, stats, now);
    case NodeLost(n) => NodeStatementsKeepValid(t, n, NodeStats(0, 0, 0, 0), now);
    case NodeDelete(n) => NodeStatementsKeepValid(t, n, NodeStats(0, 0, 0, 0), now);
    case VpcInsert(v, row) => VpcStatementsKeepValid(t, v, row);
    case _ =>
  }

  /** A statement keeps the address of every node row, unless it registers one. */
  lemma NodeAddresses(t: Tables, q: Statement, now: int, n: Uuid)
    requires Valid(t) && Succeeds(t, q, now) && n in Execute(t, q, now).nodes
    ensures var address := Execute(t, q, now).nodes[n].info.address;
            if q.NodeUpsert? && n == UpsertNode(t, q.newId, q.info, now).value.1 then address == q.info.address
            else n in t.nodes && address == t.nodes[n].info.address
  {
    if q.NodeUpsert? {
      UpsertKeepsValid(t, q.newId, q.info, now);
    }
  }

  lemma NodesOwnedStep(s: Cluster, step: Step)
    requires Enabled(s, step) && NodesOwned(s)
    ensures NodesOwned(Apply(s, step))
  {
    BookGrows(s, step);
    var s' := Apply(s, step);
    TablesStayValid(s.tables, StatementOf(s, step), s.now);
    forall n | n in s'.tables.nodes
      ensures n in s'.book.owners && s'.tables.nodes[n].info.address == s'.book.owners[n]
    {
      NodeAddresses(s.tables, StatementOf(s, step), s.now, n);
    }
    forall a | AgentAt(s', a).session.Some? ensures SessionOwned(s'.book, a, AgentAt(s', a).session.value) {
      AgentAfter(s, step, a);
      SessionOwnedAfter(s, step, a);
    }
  }

  lemma SessionOwnedAfter(s: Cluster, step: Step, a: string)
    requires Enabled(s, step) && NodesOwned(s) && Grows(s.book, NextBook(s, step))
    ensures var session := NextAgent(s, step, a).session;
            session.Some? ==> SessionOwned(NextBook(s, step), a, session.value)
  {
    assert AgentAt(s, a).session.Some? ==> SessionOwned(s.book, a, AgentAt(s, a).session.value);
  }

  /** The goroutine that a step moves agrees with the book. */
  ghost predicate ActorBorn(s: Cluster, step: Step)
    requires Enabled(s, step)
  {
    match step
    case Work(n, i, _) => TaskBorn(s.book, n, TaskAt(s, n, i).value)
    case Deliver(n, i) => TaskBorn(s.book, n, TaskAt(s, n, i).value)
    case FailReport(n, i) => TaskBorn(s.book, n, TaskAt(s, n, i).value)
    case _ => true
  }

  lemma ActorIsBorn(s: Cluster, step: Step)
    requires Enabled(s, step) && ChannelsBorn(s)
    ensures ActorBorn(s, step)
  {
    if step.Work? || step.Deliver? || step.FailReport? {
      assert ChannelBorn(s.book, step.node, Chan(s, step.node));
      assert TaskBorn(s.book, step.node, Chan(s, step.node).tasks[step.i]);
    }
  }

  lemma GrownTask(b: Book, b': Book, n: Uuid, t: Task)
    requires TaskBorn(b, n, t) && Grows(b, b')
    ensures TaskBorn(b', n, t)
  {
  }

  /* ---- instance rows ---- */

  /** The parameters of a statement that touches an instance row. */
  ghost predicate StatementBorn(b: Book, q: Statement) {
    match q
    case InsertRow(id, plan) => PlanBorn(b, plan, id)
    case SetStatus(id, _, ip) => AddressOf(b, id, ip)
    case TellStatus(r) => AddressOf(b, r.vm, r.ip)
    case _ => true
  }

  lemma StatementIsBorn(s: Cluster, step: Step)
    requires Enabled(s, step) && OpsBorn(s.book, s.ops) && ActorBorn(s, step)
    requires AgentsBorn(s) && LateBorn(s.book, s.late)
    requires Grows(s.book, NextBook(s, step))
    ensures StatementBorn(NextBook(s, step), StatementOf(s, step))
  {
    match step
    case SetAddress(op) => assert OpBorn(s.book, s.ops[op]);
    case ReportNext(a, _) =>
      assert AgentBorn(s.book, a, AgentAt(s, a));
      assert ListedBorn(s.book, a, AgentAt(s, a).listing[0]);
    case _ =>
  }

  lemma BirthsFitStep(s: Cluster, step: Step)
    requires Enabled(s, step) && RowsBorn(s.book, s.tables) && OpsBorn(s.book, s.ops)
    requires Grows(s.book, NextBook(s, step))
    ensures var b' := NextBook(s, step);
            forall x | x in b'.births :: BirthFits(b', b'.births[x])
  {
    var b' := NextBook(s, step);
    forall x | x in b'.births ensures BirthFits(b', b'.births[x]) {
      if step.Insert? && x == step.id {
        assert OpBorn(s.book, s.ops[step.op]);
      } else {
        assert BirthFits(s.book, s.book.births[x]);
      }
    }
  }

  lemma VpcRowAfter(t: Tables, q: Statement, now: int, v: Uuid)
    requires Succeeds(t, q, now) && v in Execute(t, q, now).vpcs
    ensures if q.VpcInsert? && q.id == v then Execute(t, q, now).vpcs[v] == q.row
            else v in t.vpcs && Execute(t, q, now).vpcs[v] == t.vpcs[v]
  {
  }

  lemma VpcsStep(s: Cluster, step: Step)
    requires Enabled(s, step) && RowsBorn(s.book, s.tables) && Grows(s.book, NextBook(s, step))
    ensures var b', t' := NextBook(s, step), NextTables(s, step);
            forall v | v in t'.vpcs :: v in b'.vpcs && b'.vpcs[v] == t'.vpcs[v].cidr
  {
    var b', t' := NextBook(s, step), NextTables(s, step);
    forall v | v in t'.vpcs ensures v in b'.vpcs && b'.vpcs[v] == t'.vpcs[v].cidr {
      VpcRowAfter(s.tables, StatementOf(s, step), s.now, v);
    }
  }

  lemma RowsBornStep(s: Cluster, step: Step)
    requires Enabled(s, step) && Inv(s) && Grows(s.book, NextBook(s, step))
    ensures RowsBorn(NextBook(s, step), NextTables(s, step))
  {
    ActorIsBorn(s, step);
    StatementIsBorn(s, step);
    BirthsFitStep(s, step);
    VpcsStep(s, step);
    var b', t' := NextBook(s, step), NextTables(s, step);
    forall x | x in t'.instances ensures RowBorn(b', x, t'.instances[x]) {
      assert x in s.tables.instances ==> RowBorn(s.book, x, s.tables.instances[x]);
      RowBornAfter(b', s.tables, StatementOf(s, step), s.now, x);
    }
  }

  lemma RowBornAfter(b: Book, t: Tables, q: Statement, now: int, x: Uuid)
    requires Succeeds(t, q, now) && StatementBorn(b, q) && x in Execute(t, q, now).instances
    requires x in t.instances ==> RowBorn(b, x, t.instances[x])
    ensures RowBorn(b, x, Execute(t, q, now).instances[x])
  {
  }

  /* ---- requests ---- */

  lemma OpIsBorn(s: Cluster, step: Step)
    requires Enabled(s, step) && NodesOwned(s) && RowsBorn(s.book, s.tables) && OpsBorn(s.book, s.ops)
    requires Grows(s.book, NextBook(s, step))
    ensures OnOps(s, step).SetOp? ==> OpBorn(NextBook(s, step), OnOps(s, step).to)
  {
    match step
    case Choose(op, _, _) =>
    case AskFor(op, _, id) => assert RowBorn(s.book, id, s.tables.instances[id]);
    case Count(op) => assert OpBorn(s.book, s.ops[op]);
    case Insert(op, _) =>
    case SetAddress(op) => assert OpBorn(s.book, s.ops[op]);
    case Mark(op) => assert OpBorn(s.book, s.ops[op]);
    case SkipMark(op) => assert OpBorn(s.book, s.ops[op]);
    case SendAsked(op) => assert OpBorn(s.book, s.ops[op]);
    case _ =>
  }

  lemma OpsBornStep(s: Cluster, step: Step)
    requires Enabled(s, step) && NodesOwned(s) && RowsBorn(s.book, s.tables) && OpsBorn(s.book, s.ops)
    requires Grows(s.book, NextBook(s, step))
    ensures OpsBorn(NextBook(s, step), NextOps(s, step))
  {
    OpIsBorn(s, step);
    OpsBornAfter(s.book, NextBook(s, step), s.ops, OnOps(s, step));
  }

  lemma OpsBornAfter(b: Book, b': Book, ops: map<OpId, Op>, c: OpChange)
    requires OpsBorn(b, ops) && Grows(b, b') && (c.SetOp? ==> OpBorn(b', c.to))
    ensures OpsBorn(b', ChangeOps(ops, c))
  {
    forall op | op in ChangeOps(ops, c) ensures OpBorn(b', ChangeOps(ops, c)[op]) {
      assert op in ops ==> OpBorn(b, ops[op]);
    }
  }

  /* ---- channels ---- */

  /** What a step may do to a channel: enqueue a command that agrees with the book,
      or move a goroutine to a state that does. */
  ghost predicate ChannelStepBorn(b: Book, n: Uuid, cs: C.ChannelStep) {
    match cs
    case Push(cmd) => CommandBorn(b, n, cmd)
    case Move(_, t) => TaskBorn(b, n, t)
    case _ => true
  }

  lemma ChannelStepIsBorn(s: Cluster, step: Step, n: Uuid)
    requires Enabled(s, step) && OpsBorn(s.book, s.ops) && ActorBorn(s, step)
    requires Grows(s.book, NextBook(s, step))
    ensures var cs := OnChannel(s, step, n);
            cs.Some? ==> ChannelStepBorn(NextBook(s, step), n, cs.value)
  {
    match step
    case SendCreate(op) => assert OpBorn(s.book, s.ops[op]);
    case SendAsked(op) => assert OpBorn(s.book, s.ops[op]);
    case Work(m, i, outcome) =>
      GrownTask(s.book, NextBook(s, step), m, TaskAt(s, m, i).value);
      WorkIsBorn(NextBook(s, step), m, TaskAt(s, m, i).value, outcome, AgentAt(s, HostOf(s, m)).domains);
    case _ =>
  }

  lemma WorkIsBorn(b: Book, n: Uuid, t: Task, outcome: Outcome, domains: Domains)
    requires TaskBorn(b, n, t) && t.pc.At? && t.pc.stage != Finished
    ensures TaskBorn(b, n, TaskStep(t, outcome, domains).0)
  {
    WorkReports(t, outcome, domains);
  }

  /** A goroutine keeps its command, reports on its own instance only, and reports
      an address only if its command carries it. */
  lemma WorkReports(t: Task, outcome: Outcome, domains: Domains)
    requires t.pc.At? && t.pc.stage != Finished
    ensures var t' := TaskStep(t, outcome, domains).0;
            t'.cmd == t.cmd
            && (t'.pc.Reporting? ==>
                  && Concerns(t.cmd, t'.pc.report.vm)
                  && (t'.pc.report.ip.Some? ==> t.cmd.CreateVm? && t'.pc.report.ip.value == t.cmd.ip))
  {
  }

  lemma ChannelsSoundStep(s: Cluster, step: Step)
    requires Enabled(s, step) && ChannelsSound(s)
    ensures ChannelsSound(Apply(s, step))
  {
    forall n ensures C.Sound(Chan(Apply(s, step), n)) {
      ChannelAfter(s, step, n);
      var cs := OnChannel(s, step, n);
      assert C.Sound(Chan(s, n));
      if cs.Some? {
        C.SoundStep(Chan(s, n), cs.value);
      }
    }
  }

  lemma ChannelBornStep(s: Cluster, step: Step, n: Uuid)
    requires Enabled(s, step) && OpsBorn(s.book, s.ops) && ActorBorn(s, step)
    requires C.Sound(Chan(s, n)) && ChannelBorn(s.book, n, Chan(s, n)) && Grows(s.book, NextBook(s, step))
    ensures ChannelBorn(NextBook(s, step), n, Moved(s, step, n))
  {
    ChannelStepIsBorn(s, step, n);
    GrownChannel(s.book, NextBook(s, step), n, Chan(s, n));
    var cs := OnChannel(s, step, n);
    if cs.Some? {
      ChannelBornAfter(NextBook(s, step), n, Chan(s, n), cs.value);
    }
  }

  lemma ChannelsBornStep(s: Cluster, step: Step)
    requires Enabled(s, step) && OpsBorn(s.book, s.ops) && ChannelsSound(s) && ChannelsBorn(s)
    requires Grows(s.book, NextBook(s, step))
    ensures ChannelsBorn(Apply(s, step))
  {
    ActorIsBorn(s, step);
    forall n ensures ChannelBorn(NextBook(s, step), n, Chan(Apply(s, step), n)) {
      assert C.Sound(Chan(s, n)) && ChannelBorn(s.book, n, Chan(s, n));
      ChannelBornStep(s, step, n);
      ChannelAfter(s, step, n);
    }
  }

  lemma GrownChannel(b: Book, b': Book, n: Uuid, c: C.Channel)
    requires ChannelBorn(b, n, c) && Grows(b, b')
    ensures ChannelBorn(b', n, c)
  {
    forall i | 0 <= i < |c.history| ensures CommandBorn(b', n, c.history[i]) {
      assert CommandBorn(b, n, c.history[i]);
    }
    forall i | 0 <= i < |c.tasks| ensures TaskBorn(b', n, c.tasks[i]) {
      assert TaskBorn(b, n, c.tasks[i]);
    }
  }

  lemma ChannelBornAfter(b: Book, n: Uuid, c: C.Channel, cs: C.ChannelStep)
    requires C.Sound(c) && ChannelBorn(b, n, c) && C.Enabled(c, cs) && ChannelStepBorn(b, n, cs)
    ensures ChannelBorn(b, n, C.Next(c, cs))
  {
    var d := C.Next(c, cs);
    if cs.Take? {
      InHistory(b, n, c, c.flight[0]);
    }
    if cs.Finish? {
      forall i | 0 <= i < |d.tasks| ensures TaskBorn(b, n, d.tasks[i]) {
        assert d.tasks[i] == c.tasks[if i < cs.i then i else i + 1];
      }
    }
  }

  /** Whatever is in a channel was enqueued on it. */
  lemma InHistory(b: Book, n: Uuid, ch: C.Channel, c: Command)
    requires C.Sound(ch) && ChannelBorn(b, n, ch)
    requires c in ch.queue || c in ch.flight || c in ch.handled || c in C.CmdsOf(ch.tasks)
             || c in ch.done || c in ch.killed || c in ch.lost
    ensures c in ch.history && CommandBorn(b, n, c)
  {
    C.LineContents(ch);
    if c in C.CmdsOf(ch.tasks) || c in ch.done || c in ch.killed {
      assert c in multiset(C.CmdsOf(ch.tasks)) + ch.done + ch.killed;
      assert c in multiset(ch.handled);
    }
    assert c in multiset(C.Line(ch)) + ch.lost;
    assert c in multiset(ch.history);
    var i :| 0 <= i < |ch.history| && ch.history[i] == c;
  }

  /* ---- agents and reports ---- */

  lemma AgentsBornStep(s: Cluster, step: Step)
    requires Enabled(s, step) && RowsBorn(s.book, s.tables) && ChannelsBorn(s) && AgentsBorn(s)
    requires Grows(s.book, NextBook(s, step))
    ensures AgentsBorn(Apply(s, step))
  {
    ActorIsBorn(s, step);
    forall a ensures AgentBorn(NextBook(s, step), a, AgentAt(Apply(s, step), a)) {
      AgentAfter(s, step, a);
      assert AgentBorn(s.book, a, AgentAt(s, a));
      DomainsBornAfter(s, step, a);
      ListingBornAfter(s, step, a);
    }
  }

  ghost predicate AllDomainsBorn(b: Book, a: string, domains: Domains) {
    forall name | name in domains :: DomainBorn(b, a, name, domains[name])
  }

  lemma GrownDomains(b: Book, b': Book, a: string, domains: Domains)
    requires AllDomainsBorn(b, a, domains) && Grows(b, b')
    ensures AllDomainsBorn(b', a, domains)
  {
    forall name | name in domains ensures DomainBorn(b', a, name, domains[name]) {
      assert DomainBorn(b, a, name, domains[name]);
    }
  }

  lemma WorkDomainsBorn(b: Book, a: string, n: Uuid, t: Task, outcome: Outcome, domains: Domains)
    requires AllDomainsBorn(b, a, domains) && TaskBorn(b, n, t) && t.pc.At? && t.pc.stage != Finished
    requires IsVmCommand(t.cmd) ==> n in b.owners && b.owners[n] == a
    ensures AllDomainsBorn(b, a, TaskStep(t, outcome, domains).1)
  {
    var domains' := TaskStep(t, outcome, domains).1;
    forall name | name in domains' ensures DomainBorn(b, a, name, domains'[name]) {
      assert name in domains ==> DomainBorn(b, a, name, domains[name]);
      WorkDefines(t, outcome, domains, name);
    }
  }

  lemma DomainsBornAfter(s: Cluster, step: Step, a: string)
    requires Enabled(s, step) && RowsBorn(s.book, s.tables) && ActorBorn(s, step)
    requires AllDomainsBorn(s.book, a, AgentAt(s, a).domains) && Grows(s.book, NextBook(s, step))
    ensures AllDomainsBorn(NextBook(s, step), a, NextAgent(s, step, a).domains)
  {
    GrownDomains(s.book, NextBook(s, step), a, AgentAt(s, a).domains);
    if step.Work? && a == HostOf(s, step.node) {
      assert NextBook(s, step) == s.book;
      WorkDomainsBorn(s.book, a, step.node, TaskAt(s, step.node, step.i).value, step.outcome, AgentAt(s, a).domains);
    }
  }

  lemma ListingBornAfter(s: Cluster, step: Step, a: string)
    requires Enabled(s, step) && AgentBorn(s.book, a, AgentAt(s, a)) && Grows(s.book, NextBook(s, step))
    ensures var listing := NextAgent(s, step, a).listing;
            forall i | 0 <= i < |listing| :: ListedBorn(NextBook(s, step), a, listing[i])
  {
    var agent, listing' := AgentAt(s, a), NextAgent(s, step, a).listing;
    forall i | 0 <= i < |listing'| ensures ListedBorn(NextBook(s, step), a, listing'[i]) {
      if step.ReportNext? && step.address == a {
        assert ListedBorn(s.book, a, agent.listing[i + 1]);
      } else if step.List? && step.address == a {
        assert DomainBorn(s.book, a, step.names[i], agent.domains[step.names[i]]);
      } else {
        assert ListedBorn(s.book, a, agent.listing[i]);
      }
    }
  }

  /** A goroutine adds a domain only for its own instance, under its name. */
  lemma WorkDefines(t: Task, outcome: Outcome, domains: Domains, name: string)
    requires t.pc.At? && t.pc.stage != Finished && name in TaskStep(t, outcome, domains).1
    ensures var d := TaskStep(t, outcome, domains).1[name];
            if name in domains then d.uuid == domains[name].uuid
            else t.cmd.CreateVm? && d.uuid == t.cmd.vm && name == t.cmd.name
  {
  }

  lemma LateBornStep(s: Cluster, step: Step)
    requires Enabled(s, step) && ActorBorn(s, step) && AgentsBorn(s) && LateBorn(s.book, s.late)
    requires Grows(s.book, NextBook(s, step))
    ensures LateBorn(NextBook(s, step), NextLate(s, step))
  {
    if step.ReportNext? {
      assert AgentBorn(s.book, step.address, AgentAt(s, step.address));
      assert ListedBorn(s.book, step.address, AgentAt(s, step.address).listing[0]);
    }
  }

  /* ---- every reachable state ---- */

  lemma InvInitial()
    ensures Inv(INITIAL)
  {
    C.EmptySound();
    assert forall n :: Chan(INITIAL, n) == C.UNUSED;
    assert forall a :: AgentAt(INITIAL, a) == Agent(None, map[], []);
  }

  lemma InvStep(s: Cluster, step: Step)
    requires Enabled(s, step) && Inv(s)
    ensures Inv(Apply(s, step))
    ensures Grows(s.book, Apply(s, step).book)
  {
    BookGrows(s, step);
    NodesOwnedStep(s, step);
    RowsBornStep(s, step);
    OpsBornStep(s, step);
    ChannelsSoundStep(s, step);
    ChannelsBornStep(s, step);
    AgentsBornStep(s, step);
    ActorIsBorn(s, step);
    LateBornStep(s, step);
  }

  lemma {:induction false} InvRun(s: Cluster, steps: seq<Step>)
    requires Inv(s) && Run(s, steps)
    ensures Inv(After(s, steps))
    decreases |steps|
  {
    if steps != [] {
      InvStep(s, steps[0]);
      InvRun(Apply(s, steps[0]), steps[1..]);
    }
  }
}
