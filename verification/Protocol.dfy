/** The cluster: the controller's database and dispatcher, the API requests being
    served, the heartbeat streams, and the agents with their goroutines and libvirt
    domains. A step is one SQL statement, one enqueue, one exchange on a stream, one
    host call of a goroutine, or one failure. Each component of the next state is
    given by its own function. */
module Protocol {
  import opened Wrappers
  import opened Ipv4
  import opened Uuids
  import Naming
  import opened Schema
  import opened Commands
  import C = Channels

  type OpId = nat

  datatype Request = Request(name: string, vpc: Uuid, spec: VmSpec, sshKey: string)

  /** When a node was chosen: the time, and the length of the node table's history. */
  datatype Choice = Choice(at: int, after: nat)

  /** What a create request has decided before it inserts its row. */
  datatype Plan = Plan(req: Request, cidr: Cidr, net: Network, node: Uuid, ip: Address)

  datatype Ask = AskStart | AskStop | AskDelete

  /** What a start, stop or delete request read of its instance. */
  datatype Target = Target(ask: Ask, id: Uuid, name: string, node: Uuid, vpc: Uuid, cidr: Cidr)

  /** An API request between two of its statements. */
  datatype Op =
    | Chosen(req: Request, cidr: Cidr, node: Uuid, choice: Choice)
    | Counted(plan: Plan, choice: Choice)
    | Inserted(plan: Plan, id: Uuid)
    | Addressed(plan: Plan, id: Uuid)
    | Asked(target: Target)
    | Marked(target: Target)
    | Sent(id: Uuid)  // delete: the command is enqueued, the row is still there

  /** `session` is the node id the agent sends in its heartbeats; `listing` the
      reports of a reconciliation that are still to be sent. */
  datatype Agent = Agent(session: Option<Uuid>, domains: Domains, listing: seq<Report>)

  datatype NodeEvent =
    | Greeting(node: Uuid, info: NodeInfo, at: int)
    | Beat(node: Uuid, stats: NodeStats, at: int)
    | Silence(node: Uuid)
    | Removal(node: Uuid)

  /** What the insertion of an instance row fixed. */
  datatype Birth =
    Birth(serial: nat, name: string, node: Uuid, vpc: Uuid, spec: VmSpec, net: Network, ip: Address, choice: Choice)

  /** A permanent record: the address of every node id ever issued, every instance
      ever inserted, and the CIDR of every VPC. */
  datatype Book = Book(owners: map<Uuid, string>, births: map<Uuid, Birth>, vpcs: map<Uuid, Cidr>)

  /** `book` and `log`, the history of the node table, only record what happened. */
  datatype Cluster = Cluster(
    now: int,
    tables: Tables,
    ops: map<OpId, Op>,
    channels: map<Uuid, C.Channel>,
    agents: map<string, Agent>,
    late: multiset<Report>,
    book: Book,
    log: seq<NodeEvent>
  )

  datatype Step =
    | Tick(seconds: nat)
    // the API
    | Choose(op: OpId, req: Request, node: Uuid)
    | Count(op: OpId)
    | Insert(op: OpId, id: Uuid)
    | SetAddress(op: OpId)
    | SendCreate(op: OpId)
    | AskFor(op: OpId, ask: Ask, id: Uuid)
    | Mark(op: OpId)
    | SkipMark(op: OpId)  // Delete ignores the failure of its update
    | SendAsked(op: OpId)
    | DropRow(op: OpId)
    | Abort(op: OpId)     // an error return at any point
    | AddVpc(id: Uuid, row: VpcRow)
    | DropVpc(id: Uuid)
    | SendNetwork(node: Uuid, cmd: Command)
    | DropNode(node: Uuid)
    // the node service
    | Register(address: string, newId: Uuid, info: NodeInfo)
    | Heartbeat(node: Uuid, stats: NodeStats, saved: bool, sent: bool)
    | LoseNode(node: Uuid)
    // the agents
    | Hand(node: Uuid)
    | BreakStream(node: Uuid)
    | Work(node: Uuid, i: nat, outcome: Outcome)
    | Deliver(node: Uuid, i: nat)
    | FailReport(node: Uuid, i: nat)
    | Return(node: Uuid, i: nat)
    | DeliverLate(report: Report)
    | DropLate(report: Report)
    | List(address: string, names: seq<string>)
    | ReportNext(address: string, delivered: bool)
    | Crash(address: string)
    | Restart
    | HostChange(address: string, name: string, state: DomainState)

  const INITIAL := Cluster(0, EMPTY, map[], map[], map[], multiset{}, Book(map[], map[], map[]), [])

  function Chan(s: Cluster, n: Uuid): C.Channel {
    if n in s.channels then s.channels[n] else C.UNUSED
  }

  function AgentAt(s: Cluster, address: string): Agent {
    if address in s.agents then s.agents[address] else Agent(None, map[], [])
  }

  /** The agent that receives the commands of node n. */
  function HostOf(s: Cluster, n: Uuid): string {
    if n in s.book.owners then s.book.owners[n] else ""
  }

  function TaskAt(s: Cluster, n: Uuid, i: nat): Option<Task> {
    if i < |Chan(s, n).tasks| then Some(Chan(s, n).tasks[i]) else None
  }

  /** InstanceService.Create's checks of a request. */
  predicate ValidRequest(req: Request) {
    req.name != "" && req.spec.vcpus >= 1 && req.spec.ramMb >= 512
  }

  function MinRam(req: Request): int {
    req.spec.ramMb * 1024 * 1024
  }

  function RowOf(plan: Plan): InstanceRow {
    InstanceRow(plan.req.name, Pending, plan.node, plan.req.vpc, plan.req.spec, None)
  }

  function CreateCommand(plan: Plan, id: Uuid): Command {
    CreateVm(id, plan.req.name, plan.req.vpc, plan.cidr, Naming.BridgeName(Text(plan.req.vpc)), plan.ip,
             plan.net.prefix, Gateway(plan.net), plan.req.spec, plan.req.sshKey)
  }

  function AskedCommand(t: Target): Command {
    match t.ask
    case AskStart => StartVm(t.id, t.name, t.vpc, t.cidr)
    case AskStop => StopVm(t.id, t.name, false)
    case AskDelete => DeleteVm(t.id, t.name)
  }

  function MarkOf(ask: Ask): InstanceStatus {
    match ask
    case AskStart => Starting
    case AskStop => Stopping
    case AskDelete => Terminating
  }

  ghost predicate Enabled(s: Cluster, step: Step) {
    match step
    case Choose(op, req, node) =>
      op !in s.ops && ValidRequest(req) && req.vpc in s.tables.vpcs && IsPick(s.tables, node, MinRam(req), s.now)
    case Count(op) => op in s.ops && s.ops[op].Chosen? && ParseCidr(s.ops[op].cidr).Ok?
    case Insert(op, id) =>
      && op in s.ops && s.ops[op].Counted? && id !in s.book.births
      && InsertInstance(s.tables, id, RowOf(s.ops[op].plan)).Ok?
    case SetAddress(op) => op in s.ops && s.ops[op].Inserted?
    case SendCreate(op) => op in s.ops && s.ops[op].Addressed?
    case AskFor(op, ask, id) =>
      op !in s.ops && id in s.tables.instances && s.tables.instances[id].vpc in s.tables.vpcs
    case Mark(op) => op in s.ops && s.ops[op].Asked?
    case SkipMark(op) => op in s.ops && s.ops[op].Asked? && s.ops[op].target.ask.AskDelete?
    case SendAsked(op) => op in s.ops && s.ops[op].Marked?
    case DropRow(op) => op in s.ops && s.ops[op].Sent?
    case AddVpc(id, row) => id !in s.book.vpcs && InsertVpc(s.tables, id, row).Ok?
    case SendNetwork(n, cmd) => !IsVmCommand(cmd)
    case Register(address, newId, info) =>
      && info.address == address
      && newId !in s.book.owners
      && UpsertNode(s.tables, newId, info, s.now).Ok?
      && (AgentAt(s, address).session.Some? ==> Chan(s, AgentAt(s, address).session.value).flight == [])
    case Heartbeat(n, stats, saved, sent) => sent ==> AgentAt(s, HostOf(s, n)).session == Some(n)
    case Hand(n) => Chan(s, n).flight != []
    case Work(n, i, outcome) =>
      TaskAt(s, n, i).Some? && TaskAt(s, n, i).value.pc.At? && !TaskAt(s, n, i).value.pc.stage.Finished?
    case Deliver(n, i) => TaskAt(s, n, i).Some? && TaskAt(s, n, i).value.pc.Reporting?
    case FailReport(n, i) => TaskAt(s, n, i).Some? && TaskAt(s, n, i).value.pc.Reporting?
    case Return(n, i) => TaskAt(s, n, i).Some? && TaskAt(s, n, i).value.pc == At(Finished)
    case DeliverLate(r) => r in s.late
    case List(a, names) =>
      && (forall k | 0 <= k < |names| :: names[k] in AgentAt(s, a).domains)
      && (forall k, l | 0 <= k < l < |names| :: names[k] != names[l])
      && AgentAt(s, a).listing == []
    case ReportNext(a, delivered) => AgentAt(s, a).listing != []
    case _ => true
  }

  /* ---- the next state, component by component ---- */

  /** The SQL statement a step executes, if any. */
  datatype Statement =
    | NoStatement
    | InsertRow(id: Uuid, plan: Plan)
    | SetStatus(id: Uuid, status: InstanceStatus, ip: Option<Address>)
    | TellStatus(report: Report)
    | DeleteRow(id: Uuid)
    | VpcInsert(id: Uuid, row: VpcRow)
    | VpcDelete(id: Uuid)
    | NodeUpsert(newId: Uuid, info: NodeInfo)
    | NodeBeat(node: Uuid, stats: NodeStats)
    | NodeLost(node: Uuid)
    | NodeDelete(node: Uuid)

  ghost function StatementOf(s: Cluster, step: Step): Statement
    requires Enabled(s, step)
  {
    match step
    case Insert(op, id) => InsertRow(id, s.ops[op].plan)
    case SetAddress(op) => SetStatus(s.ops[op].id, Pending, Some(s.ops[op].plan.ip))
    case Mark(op) => SetStatus(s.ops[op].target.id, MarkOf(s.ops[op].target.ask), None)
    case DropRow(op) => DeleteRow(s.ops[op].id)
    case AddVpc(id, row) => VpcInsert(id, row)
    case DropVpc(id) => VpcDelete(id)
    case DropNode(n) => NodeDelete(n)
    case Register(_, newId, info) => NodeUpsert(newId, info)
    case Heartbeat(n, stats, saved, _) => if saved then NodeBeat(n, stats) else NoStatement
    case LoseNode(n) => NodeLost(n)
    case Deliver(n, i) => TellStatus(TaskAt(s, n, i).value.pc.report)
    case DeliverLate(r) => TellStatus(r)
    case ReportNext(a, delivered) => if delivered then TellStatus(AgentAt(s, a).listing[0]) else NoStatement
    case _ => NoStatement
  }

  ghost predicate Succeeds(t: Tables, q: Statement, now: int) {
    match q
    case InsertRow(id, plan) => InsertInstance(t, id, RowOf(plan)).Ok?
    case VpcInsert(id, row) => InsertVpc(t, id, row).Ok?
    case NodeUpsert(newId, info) => UpsertNode(t, newId, info, now).Ok?
    case _ => true
  }

  ghost function Execute(t: Tables, q: Statement, now: int): Tables
    requires Succeeds(t, q, now)
  {
    match q
    case NoStatement => t
    case InsertRow(id, plan) => InsertInstance(t, id, RowOf(plan)).value
    case SetStatus(id, status, ip) => UpdateStatus(t, id, status, ip)
    case TellStatus(r) => UpdateVmStatus(t, r.vm, r.status, r.ip)
    case DeleteRow(id) => DeleteInstance(t, id)
    case VpcInsert(id, row) => InsertVpc(t, id, row).value
    case VpcDelete(id) => DeleteVpc(t, id)
    case NodeUpsert(newId, info) => UpsertNode(t, newId, info, now).value.0
    case NodeBeat(n, stats) => UpdateHeartbeat(t, n, stats, now)
    case NodeLost(n) => MarkUnreachable(t, n)
    case NodeDelete(n) => DeleteNode(t, n)
  }

  ghost function NextTables(s: Cluster, step: Step): Tables
    requires Enabled(s, step)
  {
    Execute(s.tables, StatementOf(s, step), s.now)
  }

  /** What a step does to the requests being served. */
  datatype OpChange = SameOps | SetOp(op: OpId, to: Op) | EndOp(op: OpId) | ClearOps

  ghost function OnOps(s: Cluster, step: Step): OpChange
    requires Enabled(s, step)
  {
    match step
    case Choose(op, req, node) => SetOp(op, Chosen(req, s.tables.vpcs[req.vpc].cidr, node, Choice(s.now, |s.log|)))
    case Count(op) =>
      var o := s.ops[op];
      var net := ParseCidr(o.cidr).value;
      var ip := VmAddress(net, CountByVpc(s.tables, o.req.vpc));
      SetOp(op, Counted(Plan(o.req, o.cidr, net, o.node, ip), o.choice))
    case Insert(op, id) => SetOp(op, Inserted(s.ops[op].plan, id))
    case SetAddress(op) => SetOp(op, Addressed(s.ops[op].plan, s.ops[op].id))
    case SendCreate(op) => EndOp(op)
    case AskFor(op, ask, id) =>
      var row := s.tables.instances[id];
      SetOp(op, Asked(Target(ask, id, row.name, row.node, row.vpc, s.tables.vpcs[row.vpc].cidr)))
    case Mark(op) => SetOp(op, Marked(s.ops[op].target))
    case SkipMark(op) => SetOp(op, Marked(s.ops[op].target))
    case SendAsked(op) => if s.ops[op].target.ask.AskDelete? then SetOp(op, Sent(s.ops[op].target.id)) else EndOp(op)
    case DropRow(op) => EndOp(op)
    case Abort(op) => EndOp(op)
    case Restart => ClearOps
    case _ => SameOps
  }

  function ChangeOps(ops: map<OpId, Op>, c: OpChange): map<OpId, Op> {
    match c
    case SameOps => ops
    case SetOp(op, to) => ops[op := to]
    case EndOp(op) => ops - {op}
    case ClearOps => map[]
  }

  ghost function NextOps(s: Cluster, step: Step): map<OpId, Op>
    requires Enabled(s, step)
  {
    ChangeOps(s.ops, OnOps(s, step))
  }

  /** Goroutine i of node n after a host call, and the domains of its host. */
  ghost function Worked(s: Cluster, n: Uuid, i: nat, outcome: Outcome): (r: (Task, Domains))
    requires Enabled(s, Work(n, i, outcome))
    ensures r.0.cmd == TaskAt(s, n, i).value.cmd
  {
    TaskStep(TaskAt(s, n, i).value, outcome, AgentAt(s, HostOf(s, n)).domains)
  }

  /** Goroutine i of node n after the answer to its report. */
  function ReportAnswered(s: Cluster, n: Uuid, i: nat): (r: Task)
    requires TaskAt(s, n, i).Some? && TaskAt(s, n, i).value.pc.Reporting?
    ensures r.cmd == TaskAt(s, n, i).value.cmd
  {
    Goto(TaskAt(s, n, i).value, TaskAt(s, n, i).value.pc.next)
  }

  /** What a step of a goroutine does to its channel. */
  ghost function OnTask(s: Cluster, step: Step): (cs: C.ChannelStep)
    requires Enabled(s, step) && (step.Work? || step.Deliver? || step.FailReport? || step.Return?)
    ensures C.Enabled(Chan(s, step.node), cs)
  {
    if step.Work? then C.Move(step.i, Worked(s, step.node, step.i, step.outcome).0)
    else if step.Return? then C.Finish(step.i)
    else C.Move(step.i, ReportAnswered(s, step.node, step.i))
  }

  /** What a step does to the channel of node n, if anything. */
  ghost function OnChannel(s: Cluster, step: Step, n: Uuid): Option<C.ChannelStep>
    requires Enabled(s, step)
    ensures OnChannel(s, step, n).Some? ==> C.Enabled(Chan(s, n), OnChannel(s, step, n).value)
  {
    match step
    case SendCreate(op) =>
      if s.ops[op].plan.node == n then Some(C.Push(CreateCommand(s.ops[op].plan, s.ops[op].id))) else None
    case SendAsked(op) => if s.ops[op].target.node == n then Some(C.Push(AskedCommand(s.ops[op].target))) else None
    case SendNetwork(m, cmd) => if m == n then Some(C.Push(cmd)) else None
    case Heartbeat(m, _, _, sent) => if m == n then Some(if sent then C.Flush else C.Discard) else None
    case Hand(m) => if m == n then Some(C.Take) else None
    case BreakStream(m) => if m == n then Some(C.Break) else None
    case Work(m, _, _) => if m == n then Some(OnTask(s, step)) else None
    case Deliver(m, _) => if m == n then Some(OnTask(s, step)) else None
    case FailReport(m, _) => if m == n then Some(OnTask(s, step)) else None
    case Return(m, _) => if m == n then Some(OnTask(s, step)) else None
    case Crash(a) => if n in s.book.owners && s.book.owners[n] == a then Some(C.Crash) else None
    case Restart => Some(C.Discard)
    case _ => None
  }

  /** The channel that a step may create. */
  ghost function Addressee(s: Cluster, step: Step): set<Uuid>
    requires Enabled(s, step)
  {
    match step
    case SendCreate(op) => {s.ops[op].plan.node}
    case SendAsked(op) => {s.ops[op].target.node}
    case SendNetwork(n, _) => {n}
    case _ => {}
  }

  ghost function Moved(s: Cluster, step: Step, n: Uuid): C.Channel
    requires Enabled(s, step)
  {
    var cs := OnChannel(s, step, n);
    if cs.None? then Chan(s, n) else C.Next(Chan(s, n), cs.value)
  }

  ghost function NextChannels(s: Cluster, step: Step): map<Uuid, C.Channel>
    requires Enabled(s, step)
  {
    map n | n in s.channels.Keys + Addressee(s, step) :: Moved(s, step, n)
  }

  ghost function NextAgent(s: Cluster, step: Step, a: string): Agent
    requires Enabled(s, step)
  {
    var agent := AgentAt(s, a);
    match step
    case Register(address, newId, info) =>
      if a == address then agent.(session := Some(UpsertNode(s.tables, newId, info, s.now).value.1)) else agent
    case Work(n, i, outcome) =>
      if a == HostOf(s, n) then agent.(domains := TaskStep(TaskAt(s, n, i).value, outcome, agent.domains).1) else agent
    case List(address, names) =>
      if a == address then agent.(listing := ListingOf(agent.domains, names)) else agent
    case ReportNext(address, _) => if a == address then agent.(listing := agent.listing[1..]) else agent
    case Crash(address) => if a == address then agent.(session := None, listing := []) else agent
    case HostChange(address, name, state) =>
      if a == address then agent.(domains := SetState(agent.domains, name, state)) else agent
    case _ => agent
  }

  function ListingOf(domains: Domains, names: seq<string>): seq<Report>
    requires forall k | 0 <= k < |names| :: names[k] in domains
  {
    seq(|names|, k requires 0 <= k < |names| => Report(domains[names[k]].uuid, StatusOf(domains[names[k]].state), None))
  }

  /** The agents a step may change. */
  function Acting(s: Cluster, step: Step): set<string> {
    match step
    case Register(a, _, _) => {a}
    case Work(n, _, _) => {HostOf(s, n)}
    case List(a, _) => {a}
    case ReportNext(a, _) => {a}
    case Crash(a) => {a}
    case HostChange(a, _, _) => {a}
    case _ => {}
  }

  ghost function NextAgents(s: Cluster, step: Step): map<string, Agent>
    requires Enabled(s, step)
  {
    map a | a in s.agents.Keys + Acting(s, step) :: NextAgent(s, step, a)
  }

  ghost function NextLate(s: Cluster, step: Step): multiset<Report>
    requires Enabled(s, step)
  {
    match step
    case FailReport(n, i) => s.late + multiset{TaskAt(s, n, i).value.pc.report}
    case ReportNext(a, delivered) =>
      if delivered then s.late else s.late + multiset{AgentAt(s, a).listing[0]}
    case DeliverLate(r) => s.late - multiset{r}
    case DropLate(r) => s.late - multiset{r}
    case _ => s.late
  }

  ghost function NextBook(s: Cluster, step: Step): Book
    requires Enabled(s, step)
  {
    match step
    case Register(address, newId, info) =>
      s.book.(owners := s.book.owners[UpsertNode(s.tables, newId, info, s.now).value.1 := address])
    case Insert(op, id) =>
      var p := s.ops[op].plan;
      var birth := Birth(|s.book.births|, p.req.name, p.node, p.req.vpc, p.req.spec, p.net, p.ip, s.ops[op].choice);
      s.book.(births := s.book.births[id := birth])
    case AddVpc(id, row) => s.book.(vpcs := s.book.vpcs[id := row.cidr])
    case _ => s.book
  }

  ghost function NextLog(s: Cluster, step: Step): seq<NodeEvent>
    requires Enabled(s, step)
  {
    match step
    case Register(address, newId, info) =>
      s.log + [Greeting(UpsertNode(s.tables, newId, info, s.now).value.1, info, s.now)]
    case Heartbeat(n, stats, saved, _) => if saved then s.log + [Beat(n, stats, s.now)] else s.log
    case LoseNode(n) => s.log + [Silence(n)]
    case DropNode(n) => if NodeInUse(s.tables, n) then s.log else s.log + [Removal(n)]
    case _ => s.log
  }

  ghost function Apply(s: Cluster, step: Step): Cluster
    requires Enabled(s, step)
  {
    Cluster(
      if step.Tick? then s.now + step.seconds else s.now,
      NextTables(s, step), NextOps(s, step), NextChannels(s, step), NextAgents(s, step), NextLate(s, step),
      NextBook(s, step), NextLog(s, step))
  }

  /** A run: every step is enabled where it is taken. */
  ghost predicate Run(s: Cluster, steps: seq<Step>)
    decreases |steps|
  {
    steps == [] || (Enabled(s, steps[0]) && Run(Apply(s, steps[0]), steps[1..]))
  }

  ghost function After(s: Cluster, steps: seq<Step>): Cluster
    requires Run(s, steps)
    decreases |steps|
  {
    if steps == [] then s else After(Apply(s, steps[0]), steps[1..])
  }

  /** A step before a run. */
  lemma RunCons(s: Cluster, step: Step, rest: seq<Step>)
    requires Enabled(s, step) && Run(Apply(s, step), rest)
    ensures Run(s, [step] + rest) && After(s, [step] + rest) == After(Apply(s, step), rest)
  {
    assert ([step] + rest)[1..] == rest;
  }

  /** The steps are a run from one cluster to the other. */
  ghost predicate Takes(s: Cluster, steps: seq<Step>, t: Cluster) {
    Run(s, steps) && After(s, steps) == t
  }

  lemma TakesCons(s: Cluster, step: Step, u: Cluster, rest: seq<Step>, t: Cluster)
    requires Enabled(s, step) && u == Apply(s, step) && Takes(u, rest, t)
    ensures Takes(s, [step] + rest, t)
  {
    RunCons(s, step, rest);
  }

  lemma TakesFirst(s: Cluster, steps: seq<Step>, t: Cluster) returns (u: Cluster)
    requires Takes(s, steps, t) && steps != []
    ensures Enabled(s, steps[0]) && u == Apply(s, steps[0]) && Takes(u, steps[1..], t)
  {
    u := Apply(s, steps[0]);
  }

  lemma {:induction false} TakesConcat(s: Cluster, xs: seq<Step>, t: Cluster, ys: seq<Step>, u: Cluster)
    requires Takes(s, xs, t) && Takes(t, ys, u)
    ensures Takes(s, xs + ys, u)
    decreases |xs|
  {
    if xs == [] {
      assert xs + ys == ys;
    } else {
      var s' := TakesFirst(s, xs, t);
      TakesConcat(s', xs[1..], t, ys, u);
      TakesCons(s, xs[0], s', xs[1..] + ys, u);
      FirstOfConcat(xs, ys);
    }
  }

  lemma FirstOfConcat(xs: seq<Step>, ys: seq<Step>)
    requires xs != []
    ensures [xs[0]] + (xs[1..] + ys) == xs + ys
  {
  }

  lemma RunTwo(s: Cluster, first: Step, second: Step)
    requires Enabled(s, first) && Enabled(Apply(s, first), second)
    ensures Run(s, [first, second]) && After(s, [first, second]) == Apply(Apply(s, first), second)
  {
    RunCons(Apply(s, first), second, []);
    RunCons(s, first, [second] + []);
    assert [first] + ([second] + []) == [first, second];
  }

  /* ---- reading off one channel or one agent ---- */

  lemma ChannelAfter(s: Cluster, step: Step, n: Uuid)
    requires Enabled(s, step)
    ensures Chan(Apply(s, step), n) == Moved(s, step, n)
  {
    if n !in s.channels.Keys + Addressee(s, step) {
      EmptyStays(s, step, n);
    }
  }

  /** A step that does not push onto a channel that was never used leaves it so. */
  lemma EmptyStays(s: Cluster, step: Step, n: Uuid)
    requires Enabled(s, step) && n !in s.channels.Keys + Addressee(s, step)
    ensures Moved(s, step, n) == C.UNUSED
  {
    var cs := OnChannel(s, step, n);
    assert Chan(s, n) == C.UNUSED;
    assert cs.Some? ==> cs.value.Discard? || cs.value.Flush? || cs.value.Break? || cs.value.Crash?;
  }

  lemma AgentAfter(s: Cluster, step: Step, a: string)
    requires Enabled(s, step)
    ensures AgentAt(Apply(s, step), a) == NextAgent(s, step, a)
  {
  }
}
