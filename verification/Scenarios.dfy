/** Runs from the empty cluster: the life of an instance, and ways in which the code goes
    wrong although nothing is lost. */
module Scenarios {
  import opened Wrappers
  import opened Ipv4
  import opened Uuids
  import opened Schema
  import opened Commands
  import opened Executor
  import opened Protocol
  import opened Refinement
  import opened Goroutines
  import opened EndToEnd
  import opened Lifecycles
  import C = Channels

  /* ---- a cluster that can serve requests ---- */

  /** A node with its statistics, and a VPC whose CIDR the controller can use. */
  datatype Setup = Setup(node: Uuid, info: NodeInfo, stats: NodeStats, vpc: Uuid, row: VpcRow)

  predicate Usable(u: Setup) {
    CidrColumn(u.row.cidr) && ParseCidr(u.row.cidr).Ok?
  }

  /** The agent of the setup has just registered: it holds its stream and has no domains. */
  ghost predicate Attending(s: Cluster, u: Setup) {
    HostOf(s, u.node) == u.info.address && AgentAt(s, u.info.address) == Agent(Some(u.node), map[], [])
  }

  lemma FirstUpsert(u: Setup)
    ensures UpsertNode(EMPTY, u.node, u.info, 0)
         == Ok((Tables(map[u.node := NewNode(u.info, 0)], map[], map[]), u.node))
  {
    assert forall n: Uuid :: !HasAddress(EMPTY, n, u.info.address);
  }

  lemma Registered(c: Scope, u: Setup) returns (s: Cluster)
    ensures Reachable(c, s) && Attending(s, u)
    ensures s.now == 0 && s.ops == map[] && s.book.births == map[] && s.book.vpcs == map[]
    ensures s.tables == Tables(map[u.node := NewNode(u.info, 0)], map[], map[]) && Chan(s, u.node) == C.UNUSED
  {
    var step := Register(u.info.address, u.node, u.info);
    RegisteredTables(u);
    s := Apply(INITIAL, step);
    RegisteredAgent(u);
    StepConnects(c, INITIAL, step);
  }

  lemma RegisteredTables(u: Setup)
    ensures var step := Register(u.info.address, u.node, u.info);
            && Enabled(INITIAL, step)
            && NextTables(INITIAL, step) == Tables(map[u.node := NewNode(u.info, 0)], map[], map[])
            && NextBook(INITIAL, step).births == map[] && NextBook(INITIAL, step).vpcs == map[]
            && NextOps(INITIAL, step) == map[]
  {
    FirstUpsert(u);
  }

  lemma RegisteredAgent(u: Setup)
    ensures var step := Register(u.info.address, u.node, u.info);
            && Enabled(INITIAL, step) && Attending(Apply(INITIAL, step), u)
            && Chan(Apply(INITIAL, step), u.node) == C.UNUSED
  {
    var step := Register(u.info.address, u.node, u.info);
    FirstUpsert(u);
    AgentAfter(INITIAL, step, u.info.address);
    ChannelAfter(INITIAL, step, u.node);
  }

  lemma Beaten(c: Scope, s: Cluster, u: Setup, row: NodeRow) returns (t: Cluster)
    requires Attending(s, u) && s.tables == Tables(map[u.node := row], map[], map[])
    ensures Connected(c, s, t) && SameAgents(s, t) && t.ops == s.ops && t.book == s.book && t.now == s.now
    ensures var beaten := row.(stats := Some(u.stats), lastSeen := s.now, status := Healthy);
            t.tables == Tables(map[u.node := beaten], map[], map[])
    ensures Quiet(Chan(s, u.node)) ==> Quiet(Chan(t, u.node))
  {
    t := Flushed(c, s, u.node, u.stats);
  }

  lemma WithVpc(c: Scope, s: Cluster, u: Setup) returns (t: Cluster)
    requires u.vpc !in s.tables.vpcs && u.vpc !in s.book.vpcs && Usable(u)
    ensures Connected(c, s, t) && SameAgents(s, t) && t.ops == s.ops && t.now == s.now
    ensures t.book.births == s.book.births && t.tables == s.tables.(vpcs := s.tables.vpcs[u.vpc := u.row])
    ensures forall n :: Chan(t, n) == Chan(s, n)
  {
    var step := AddVpc(u.vpc, u.row);
    t := VpcAdded(s, u);
    VpcSparesAgents(s, step);
    VpcSparesChannels(s, step);
    StepConnects(c, s, step);
  }

  lemma VpcAdded(s: Cluster, u: Setup) returns (t: Cluster)
    requires u.vpc !in s.tables.vpcs && u.vpc !in s.book.vpcs && Usable(u)
    ensures Enabled(s, AddVpc(u.vpc, u.row)) && t == Apply(s, AddVpc(u.vpc, u.row))
    ensures t.tables == s.tables.(vpcs := s.tables.vpcs[u.vpc := u.row])
    ensures t.ops == s.ops && t.now == s.now && t.book.births == s.book.births
  {
    t := Apply(s, AddVpc(u.vpc, u.row));
  }

  lemma VpcSparesAgents(s: Cluster, step: Step)
    requires step.AddVpc? && Enabled(s, step)
    ensures SameAgents(s, Apply(s, step))
  {
    forall a ensures AgentAt(Apply(s, step), a) == AgentAt(s, a) {
      AgentAfter(s, step, a);
    }
  }

  lemma VpcSparesChannels(s: Cluster, step: Step)
    requires step.AddVpc? && Enabled(s, step)
    ensures forall n :: Chan(Apply(s, step), n) == Chan(s, n)
  {
    forall n ensures Chan(Apply(s, step), n) == Chan(s, n) {
      ChannelAfter(s, step, n);
    }
  }

  /** A request that the setup can serve. */
  predicate Serves(u: Setup, req: Request) {
    ValidRequest(req) && req.vpc == u.vpc && req.spec.ramMb <= u.stats.ramFree / 0x10_0000
  }

  /** One fresh node, whose agent holds its stream and has nothing to do, and one VPC: a
      request that fits can be served. */
  ghost predicate Ready(s: Cluster, u: Setup) {
    && s.ops == map[] && s.tables.vpcs == map[u.vpc := u.row]
    && s.tables.nodes.Keys == {u.node} && s.tables.nodes[u.node].stats == Some(u.stats)
    && Fresh(s.tables.nodes[u.node], s.now)
    && HostOf(s, u.node) == u.info.address && AgentAt(s, u.info.address).session == Some(u.node)
    && AgentAt(s, u.info.address).listing == [] && Quiet(Chan(s, u.node))
  }

  /** From the empty cluster a run leads to any usable setup. */
  lemma Opening(c: Scope, u: Setup) returns (s: Cluster)
    requires Usable(u)
    ensures Reachable(c, s) && Attending(s, u) && Ready(s, u) && s.book.births == map[] && s.tables.instances == map[]
  {
    var s1 := Registered(c, u);
    var s2 := Beaten(c, s1, u, NewNode(u.info, 0));
    s := WithVpc(c, s2, u);
    ReachableOn(c, s1, s2);
    ReachableOn(c, s2, s);
  }

  /** A request that fits may then be served, whatever new identifier it gets. */
  lemma MayServe(s: Cluster, u: Setup, req: Request, op: OpId, id: Uuid)
    requires Usable(u) && Serves(u, req) && Ready(s, u) && id !in s.book.births && id !in s.tables.instances
    ensures MayCreate(s, op, req, u.node, id)
  {
    OnlyNode(s.tables, u, req, s.now);
  }

  lemma OnlyNode(t: Tables, u: Setup, req: Request, now: int)
    requires Serves(u, req) && t.nodes.Keys == {u.node} && Fresh(t.nodes[u.node], now)
    requires t.nodes[u.node].stats == Some(u.stats)
    ensures IsPick(t, u.node, MinRam(req), now)
  {
  }

  /** The instance runs: its row says so, and its domain, the only one, is on. */
  ghost predicate Runs(s: Cluster, u: Setup, name: string, id: Uuid) {
    && id in s.tables.instances && s.tables.instances[id].name == name
    && s.tables.instances[id].node == u.node && s.tables.instances[id].status == Running
    && AgentAt(s, u.info.address).domains == map[name := Domain(id, On)]
  }

  /** And a create request can be carried through. */
  lemma Carried(c: Scope, u: Setup, req: Request, op: OpId, id: Uuid) returns (s: Cluster)
    requires Usable(u) && Serves(u, req) && id in c.ids
    ensures Reachable(c, s) && Ready(s, u) && Runs(s, u, req.name, id)
  {
    var s0 := Opening(c, u);
    MayServe(s0, u, req, op, id);
    ReachableInv(c, s0);
    s := CreateCanSucceed(c, s0, op, req, u.node, id, u.stats);
    ReachableOn(c, s0, s);
    StillReady(s0, s, u);
  }

  /** What a created instance leaves as it was. */
  lemma StillReady(s: Cluster, t: Cluster, u: Setup)
    requires Ready(s, u) && SameStreams(s, t) && Quiet(Chan(t, u.node)) && t.tables.vpcs == s.tables.vpcs
    requires t.tables.nodes == UpdateHeartbeat(s.tables, u.node, u.stats, s.now).nodes
    ensures Ready(t, u)
  {
    assert SameStream(AgentAt(s, u.info.address), AgentAt(t, u.info.address));
  }

  /** The row of x has this status, and its domain, in this state, is the only one. */
  ghost predicate Stands(s: Cluster, x: Uuid, name: string, node: Uuid, status: InstanceStatus, state: DomainState) {
    && Askable(s, 0, x) && s.tables.instances[x].name == name && s.tables.instances[x].node == node
    && s.tables.instances[x].status == status && DomainsAround(s, x) == map[name := Domain(x, state)]
  }

  lemma StillStands(s: Cluster, t: Cluster, x: Uuid, name: string, node: Uuid, d: DomainState,
                    status: InstanceStatus, state: DomainState)
    requires x in s.tables.instances && Stands(s, x, name, node, s.tables.instances[x].status, d)
    requires Undisturbed(s, t, node)
    requires t.tables.instances
          == s.tables.instances[x := s.tables.instances[x].(status := status, ip := None)]
    requires DomainsAround(t, x) == map[name := Domain(x, d)][name := Domain(x, d).(state := state)]
    ensures Stands(t, x, name, node, status, state)
  {
    assert SameStream(AgentAt(s, HostOf(s, node)), AgentAt(t, HostOf(s, node)));
    assert map[name := Domain(x, d)][name := Domain(x, state)] == map[name := Domain(x, state)];
  }

  lemma StopsIt(s: Cluster, x: Uuid, name: string, node: Uuid, stats: NodeStats) returns (t: Cluster)
    requires Stands(s, x, name, node, Running, On)
    ensures Carries(s, AskFor(0, AskStop, x), t) && Stands(t, x, name, node, Stopped, Off)
  {
    t := StopCanSucceed(s, 0, x, stats);
    StillStands(s, t, x, name, node, On, Stopped, Off);
  }

  lemma StartsIt(s: Cluster, x: Uuid, name: string, node: Uuid, stats: NodeStats) returns (t: Cluster)
    requires Stands(s, x, name, node, Stopped, Off)
    ensures Carries(s, AskFor(0, AskStart, x), t) && Stands(t, x, name, node, Running, On)
  {
    t := StartCanSucceed(s, 0, x, stats);
    StillStands(s, t, x, name, node, Off, Running, On);
  }

  lemma DeletesIt(s: Cluster, x: Uuid, name: string, node: Uuid, stats: NodeStats) returns (t: Cluster)
    requires Stands(s, x, name, node, Running, On)
    ensures Carries(s, AskFor(0, AskDelete, x), t) && x !in t.tables.instances
    ensures AgentAt(t, HostOf(t, node)).domains == map[]
  {
    t := DeleteCanSucceed(s, 0, x, stats);
    assert map[name := Domain(x, On)] - {name} == map[];
  }

  /** The whole life of an instance: created, stopped, started again and deleted, each time
      by a faultless run in which no other request is served. */
  lemma WholeLife(u: Setup, req: Request, x: Uuid) returns (s1: Cluster, s2: Cluster, s3: Cluster, s4: Cluster)
    requires Usable(u) && Serves(u, req)
    ensures Reachable(Scope({x}, false), s1) && Stands(s1, x, req.name, u.node, Running, On)
    ensures Carries(s1, AskFor(0, AskStop, x), s2) && Stands(s2, x, req.name, u.node, Stopped, Off)
    ensures Carries(s2, AskFor(0, AskStart, x), s3) && Stands(s3, x, req.name, u.node, Running, On)
    ensures Carries(s3, AskFor(0, AskDelete, x), s4)
    ensures x !in s4.tables.instances && AgentAt(s4, HostOf(s4, u.node)).domains == map[]
  {
    s1 := Carried(Scope({x}, false), u, req, 0, x);
    ReachableInv(Scope({x}, false), s1);
    s2 := StopsIt(s1, x, req.name, u.node, u.stats);
    s3 := StartsIt(s2, x, req.name, u.node, u.stats);
    s4 := DeletesIt(s3, x, req.name, u.node, u.stats);
  }

  /* ---- a report that is out of date ---- */

  /** The agent lists one domain. */
  lemma Listed(c: Scope, s: Cluster, a: string, name: string) returns (t: Cluster)
    requires name in AgentAt(s, a).domains && AgentAt(s, a).listing == [] && c.lists
    ensures Connected(c, s, t) && t.tables == s.tables && t.ops == s.ops && t.book == s.book
    ensures var d := AgentAt(s, a).domains[name];
            AgentAt(t, a) == AgentAt(s, a).(listing := [Report(d.uuid, StatusOf(d.state), None)])
  {
    var step := List(a, [name]);
    t := Apply(s, step);
    AgentAfter(s, step, a);
    StepConnects(c, s, step);
  }

  /** The next listed report is delivered. */
  lemma ListedReport(c: Scope, s: Cluster, a: string, r: Report) returns (t: Cluster)
    requires AgentAt(s, a).listing == [r]
    ensures Connected(c, s, t) && t.tables == UpdateVmStatus(s.tables, r.vm, r.status, r.ip)
    ensures t.book == s.book && AgentAt(t, a).domains == AgentAt(s, a).domains
  {
    var step := ReportNext(a, true);
    t := Apply(s, step);
    AgentAfter(s, step, a);
    StepConnects(c, s, step);
  }

  /* ---- an address that comes back ---- */

  /** The create's goroutine has booted the domain and is about to report it. */
  lemma AboutToReport(c: Scope, s: Cluster, node: Uuid, i: nat, cmd: Command) returns (t: Cluster)
    requires TaskAt(s, node, i) == Some(Task(cmd, At(Begin))) && cmd.CreateVm?
    requires var domains := AgentAt(s, HostOf(s, node)).domains;
             cmd.name !in domains && forall other | other in domains :: domains[other].uuid != cmd.vm
    ensures Connected(c, s, t) && t.ops == s.ops && t.tables == UpdateVmStatus(s.tables, cmd.vm, Pending, None)
    ensures TaskAt(t, node, i) == Some(Task(cmd, Reporting(Report(cmd.vm, Running, Some(cmd.ip)), Finished)))
  {
    var domains := AgentAt(s, HostOf(s, node)).domains;
    BootingCreate(cmd, domains);
    t := Led(c, s, node, i, s.tables, Progress(Task(cmd, At(Begin)), domains, []), BOOTING);
    var reports := [Report(cmd.vm, Pending, None)];
    assert reports[..0] == [] && Told(s.tables, []) == s.tables;
  }

  /** A start reads its instance; it has not marked it yet. */
  lemma StartRead(c: Scope, s: Cluster, op: OpId, id: Uuid, node: Uuid) returns (t: Cluster)
    requires op !in s.ops && id in s.tables.instances && s.tables.instances[id].vpc in s.tables.vpcs && id in c.ids
    ensures Connected(c, s, t) && t.tables == s.tables && Chan(t, node) == Chan(s, node)
    ensures Enabled(t, Mark(op)) && t.ops[op].target.id == id && t.ops[op].target.ask == AskStart
  {
    var step := AskFor(op, AskStart, id);
    t := Apply(s, step);
    ChannelAfter(s, step, node);
    StepConnects(c, s, step);
  }

  /** The mark clears the address, and the report that is waiting brings it back. */
  lemma MarkThenReport(c: Scope, s: Cluster, op: OpId, node: Uuid, i: nat, ip: Address) returns (t: Cluster)
    requires Enabled(s, Mark(op)) && s.ops[op].target.ask == AskStart && s.ops[op].target.id in s.tables.instances
    requires TaskAt(s, node, i).Some?
    requires TaskAt(s, node, i).value.pc == Reporting(Report(s.ops[op].target.id, Running, Some(ip)), Finished)
    ensures var marked, x := Apply(s, Mark(op)), s.ops[op].target.id;
            && Connected(c, marked, t)
            && x in marked.tables.instances && marked.tables.instances[x].ip == None
            && x in t.tables.instances && t.tables.instances[x].ip == Some(ip)
  {
    ChannelAfter(s, Mark(op), node);
    t := Reported(c, Apply(s, Mark(op)), node, i);
  }

  lemma Reported(c: Scope, s: Cluster, node: Uuid, i: nat) returns (t: Cluster)
    requires TaskAt(s, node, i).Some? && TaskAt(s, node, i).value.pc.Reporting?
    ensures Connected(c, s, t)
    ensures var r := TaskAt(s, node, i).value.pc.report;
            t.tables == UpdateVmStatus(s.tables, r.vm, r.status, r.ip)
  {
    t := Apply(s, Deliver(node, i));
    StepConnects(c, s, Deliver(node, i));
  }

  /** Why the creation must be over: a start that is asked while the create's goroutine is
      about to report clears the address, and that report brings it back. */
  lemma AddressComesBack(u: Setup, req: Request, op: OpId, id: Uuid) returns (s: Cluster, t: Cluster)
    requires Usable(u) && Serves(u, req)
    ensures var c := Scope({id}, false);
            Reachable(c, s) && Enabled(s, Mark(op)) && Connected(c, Apply(s, Mark(op)), t)
    ensures s.ops[op].target.id == id && s.ops[op].target.ask == AskStart
    ensures var marked := Apply(s, Mark(op));
            && id in marked.tables.instances && marked.tables.instances[id].ip == None
            && id in t.tables.instances && t.tables.instances[id].ip.Some?
  {
    var c := Scope({id}, false);
    var s0 := Opening(c, u);
    MayServe(s0, u, req, op, id);
    var plan := PlanOf(s0.tables, req, u.node);
    var s1, i := Arrived(c, s0, op, req, u.node, id, plan, u.stats);
    var s2 := AboutToReport(c, s1, u.node, i, CreateCommand(plan, id));
    s := StartRead(c, s2, op, id, u.node);
    t := MarkThenReport(c, s, op, u.node, i, plan.ip);
    ReachableOn(c, s0, s1);
    ReachableOn(c, s1, s2);
    ReachableOn(c, s2, s);
  }

  /* ---- two rows with one address ---- */

  /** Both requests choose and count, and then each inserts its row, stores its address
      and sends its command. */
  function InterleavedSteps(p: OpId, a: Request, node: Uuid, x: Uuid, q: OpId, b: Request, other: Uuid, y: Uuid)
    : seq<Step>
  {
    var inserts := InsertSteps(p, x) + InsertSteps(q, y);
    [Choose(p, a, node)] + ([Choose(q, b, other)] + ([Count(p)] + ([Count(q)] + inserts)))
  }

  /** The plan is the one that this state gives. */
  ghost predicate Choosable(s: Cluster, op: OpId, plan: Plan) {
    && Enabled(s, Choose(op, plan.req, plan.node)) && plan.cidr == s.tables.vpcs[plan.req.vpc].cidr
    && ParseCidr(plan.cidr) == Ok(plan.net) && plan.ip == VmAddress(plan.net, CountByVpc(s.tables, plan.req.vpc))
  }

  lemma ChosenOne(s: Cluster, op: OpId, plan: Plan) returns (t: Cluster)
    requires Choosable(s, op, plan)
    ensures t == Apply(s, Choose(op, plan.req, plan.node))
    ensures t.tables == s.tables && t.book == s.book && t.now == s.now && t.log == s.log
    ensures t.ops == s.ops[op := Chosen(plan.req, plan.cidr, plan.node, Choice(s.now, |s.log|))]
  {
    QueuesShow(s);
    t := Chose(s, op, plan, QueuesOf(s));
  }

  lemma CountedOne(s: Cluster, op: OpId, plan: Plan, choice: Choice) returns (t: Cluster)
    requires op in s.ops && s.ops[op] == Chosen(plan.req, plan.cidr, plan.node, choice)
    requires ParseCidr(plan.cidr) == Ok(plan.net) && plan.ip == VmAddress(plan.net, CountByVpc(s.tables, plan.req.vpc))
    ensures Enabled(s, Count(op)) && t == Apply(s, Count(op)) && t.tables == s.tables && t.book == s.book
    ensures t.ops == s.ops[op := Counted(plan, choice)]
  {
    QueuesShow(s);
    t := CountedIp(s, op, plan, choice, QueuesOf(s));
  }

  /** A counted request inserts its row and sends its command. */
  lemma CarriedOut(s: Cluster, op: OpId, plan: Plan, choice: Choice, id: Uuid) returns (t: Cluster)
    requires op in s.ops && s.ops[op] == Counted(plan, choice) && id !in s.book.births
    requires InsertInstance(s.tables, id, RowOf(plan)).Ok?
    ensures Takes(s, InsertSteps(op, id), t) && t.tables == Created(s.tables, id, plan) && t.ops == s.ops - {op}
    ensures t.book.births.Keys <= s.book.births.Keys + {id}
  {
    QueuesShow(s);
    InsertRuns(s, op, plan, choice, id, QueuesOf(s));
    t := After(s, InsertSteps(op, id));
    InsertStepsWithin(op, id);
    BirthsRun(Scope({id}, false), s, InsertSteps(op, id));
  }

  lemma InsertStepsWithin(op: OpId, id: Uuid)
    ensures AllWithin(Scope({id}, false), InsertSteps(op, id))
  {
  }

  /** Why creates must be serialised: from any state in which two creates in one VPC may be
      served, these steps, in which both count before either inserts, are a run, and it
      leaves two live rows of that VPC with one address. */
  lemma InterleavedCreatesRepeat(s: Cluster, p: OpId, q: OpId, a: Request, b: Request, node: Uuid, other: Uuid,
                                 x: Uuid, y: Uuid)
    requires p != q && x != y && a.vpc == b.vpc && MayCreate(s, p, a, node, x) && MayCreate(s, q, b, other, y)
    ensures Run(s, InterleavedSteps(p, a, node, x, q, b, other, y))
    ensures var rows := After(s, InterleavedSteps(p, a, node, x, q, b, other, y)).tables.instances;
            && x in rows && y in rows && rows[x].vpc == rows[y].vpc == a.vpc
            && rows[x].ip == rows[y].ip && rows[x].ip.Some?
  {
    var planA, planB := PlanOf(s.tables, a, node), PlanOf(s.tables, b, other);
    var s1, s2, s3, s4 := BothCounted(s, p, q, planA, planB);
    var t := BothCarriedOut(s4, p, planA, x, q, planB, y, Choice(s.now, |s.log|));
    Chained(s, s1, s2, s3, s4, p, a, node, x, q, b, other, y, t);
    TwoRows(s.tables, planA, x, planB, y);
  }

  lemma TwoRows(t: Tables, a: Plan, x: Uuid, b: Plan, y: Uuid)
    requires x != y
    ensures var rows := Created(Created(t, x, a), y, b).instances;
            x in rows && y in rows && rows[x] == CreatedRow(a) && rows[y] == CreatedRow(b)
  {
  }

  lemma BothCounted(s: Cluster, p: OpId, q: OpId, a: Plan, b: Plan)
    returns (s1: Cluster, s2: Cluster, s3: Cluster, s4: Cluster)
    requires p != q && Choosable(s, p, a) && Choosable(s, q, b)
    ensures s1 == Apply(s, Choose(p, a.req, a.node))
    ensures Enabled(s1, Choose(q, b.req, b.node)) && s2 == Apply(s1, Choose(q, b.req, b.node))
    ensures Enabled(s2, Count(p)) && s3 == Apply(s2, Count(p)) && Enabled(s3, Count(q)) && s4 == Apply(s3, Count(q))
    ensures s4.tables == s.tables && s4.book == s.book
    ensures p in s4.ops && s4.ops[p] == Counted(a, Choice(s.now, |s.log|))
    ensures q in s4.ops && s4.ops[q] == Counted(b, Choice(s.now, |s.log|))
  {
    s1 := ChosenOne(s, p, a);
    s2 := ChosenOne(s1, q, b);
    s3 := CountedOne(s2, p, a, Choice(s.now, |s.log|));
    s4 := CountedOne(s3, q, b, Choice(s.now, |s.log|));
  }

  lemma BothCarriedOut(s: Cluster, p: OpId, a: Plan, x: Uuid, q: OpId, b: Plan, y: Uuid, choice: Choice)
    returns (t: Cluster)
    requires p != q && x != y && p in s.ops && q in s.ops
    requires s.ops[p] == Counted(a, choice) && s.ops[q] == Counted(b, choice)
    requires x !in s.book.births && y !in s.book.births
    requires InsertInstance(s.tables, x, RowOf(a)).Ok? && InsertInstance(s.tables, y, RowOf(b)).Ok?
    ensures Takes(s, InsertSteps(p, x) + InsertSteps(q, y), t)
    ensures t.tables == Created(Created(s.tables, x, a), y, b)
  {
    var u := CarriedOut(s, p, a, choice, x);
    SecondRow(s.tables, x, a, y, b);
    t := CarriedOut(u, q, b, choice, y);
    TakesConcat(s, InsertSteps(p, x), u, InsertSteps(q, y), t);
  }

  lemma SecondRow(t: Tables, x: Uuid, a: Plan, y: Uuid, b: Plan)
    requires x != y && InsertInstance(t, y, RowOf(b)).Ok?
    ensures InsertInstance(Created(t, x, a), y, RowOf(b)).Ok?
  {
  }

  lemma Chained(s: Cluster, s1: Cluster, s2: Cluster, s3: Cluster, s4: Cluster,
                p: OpId, a: Request, node: Uuid, x: Uuid, q: OpId, b: Request, other: Uuid, y: Uuid, t: Cluster)
    requires Enabled(s, Choose(p, a, node)) && s1 == Apply(s, Choose(p, a, node))
    requires Enabled(s1, Choose(q, b, other)) && s2 == Apply(s1, Choose(q, b, other))
    requires Enabled(s2, Count(p)) && s3 == Apply(s2, Count(p)) && Enabled(s3, Count(q)) && s4 == Apply(s3, Count(q))
    requires Takes(s4, InsertSteps(p, x) + InsertSteps(q, y), t)
    ensures Takes(s, InterleavedSteps(p, a, node, x, q, b, other, y), t)
  {
    var inserts := InsertSteps(p, x) + InsertSteps(q, y);
    TakesCons(s3, Count(q), s4, inserts, t);
    TakesCons(s2, Count(p), s3, [Count(q)] + inserts, t);
    TakesCons(s1, Choose(q, b, other), s2, [Count(p)] + ([Count(q)] + inserts), t);
    TakesCons(s, Choose(p, a, node), s1, [Choose(q, b, other)] + ([Count(p)] + ([Count(q)] + inserts)), t);
  }
}
