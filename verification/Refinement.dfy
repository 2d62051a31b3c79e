/** How the controller's code refines the protocol: what its tables and queues show
    of a cluster, and the runs that its requests amount to when nothing interleaves. */
module Refinement {
  import opened Wrappers
  import opened Ipv4
  import opened Uuids
  import opened Schema
  import opened Commands
  import opened Dispatching
  import C = Channels
  import opened Protocol

  /** The controller's part of a cluster. */
  ghost predicate Shows(s: Cluster, t: Tables, queues: Queues, now: int) {
    s.tables == t && s.now == now && forall n :: Chan(s, n).queue == QueueOf(queues, n)
  }

  /** A run that leads to these tables, queues and requests being served. */
  ghost predicate Reaches(s: Cluster, steps: seq<Step>, t: Tables, queues: Queues, ops: map<OpId, Op>) {
    Run(s, steps) && Shows(After(s, steps), t, queues, s.now) && After(s, steps).ops == ops
  }

  lemma ReachesCons(s: Cluster, step: Step, rest: seq<Step>, t: Tables, queues: Queues, ops: map<OpId, Op>)
    requires Enabled(s, step) && !step.Tick? && Reaches(Apply(s, step), rest, t, queues, ops)
    ensures Reaches(s, [step] + rest, t, queues, ops)
  {
    RunCons(s, step, rest);
  }

  /** A step of the controller that neither enqueues nor drains. */
  predicate LeavesQueues(step: Step) {
    step.Choose? || step.Count? || step.Insert? || step.SetAddress? || step.AskFor? || step.Mark? || step.DropRow?
    || step.AddVpc? || step.DropVpc? || step.DropNode? || step.Register? || step.LoseNode?
    || step.SkipMark? || step.Abort?
  }

  lemma QuietStep(s: Cluster, step: Step, queues: Queues, now: int)
    requires Enabled(s, step) && LeavesQueues(step) && Shows(s, s.tables, queues, now)
    ensures Shows(Apply(s, step), NextTables(s, step), queues, now)
  {
    forall n ensures Chan(Apply(s, step), n).queue == QueueOf(queues, n) {
      ChannelAfter(s, step, n);
    }
  }

  lemma PushStep(s: Cluster, step: Step, queues: Queues, now: int, m: Uuid, cmd: Command)
    requires Enabled(s, step) && Shows(s, s.tables, queues, now)
    requires forall n :: OnChannel(s, step, n) == if n == m then Some(C.Push(cmd)) else None
    requires NextTables(s, step) == s.tables && !step.Tick?
    ensures Shows(Apply(s, step), s.tables, Pushed(queues, m, cmd), now)
  {
    forall n ensures Chan(Apply(s, step), n).queue == QueueOf(Pushed(queues, m, cmd), n) {
      ChannelAfter(s, step, n);
    }
  }

  /* ---- InstanceService.Create ---- */

  function SendSteps(op: OpId): seq<Step> { [SendCreate(op)] + [] }

  function AddressSteps(op: OpId): seq<Step> { [SetAddress(op)] + SendSteps(op) }

  function InsertSteps(op: OpId, id: Uuid): seq<Step> { [Insert(op, id)] + AddressSteps(op) }

  function CountSteps(op: OpId, id: Uuid): seq<Step> { [Count(op)] + InsertSteps(op, id) }

  function CreateSteps(op: OpId, req: Request, node: Uuid, id: Uuid): seq<Step> {
    [Choose(op, req, node)] + CountSteps(op, id)
  }

  function PlanOf(t: Tables, req: Request, node: Uuid): Plan
    requires req.vpc in t.vpcs && ParseCidr(t.vpcs[req.vpc].cidr).Ok?
  {
    var cidr := t.vpcs[req.vpc].cidr;
    var net := ParseCidr(cidr).value;
    Plan(req, cidr, net, node, VmAddress(net, CountByVpc(t, req.vpc)))
  }

  /** The row that a create leaves: pending, with its address. */
  function CreatedRow(plan: Plan): InstanceRow {
    RowOf(plan).(ip := Some(plan.ip))
  }

  function Created(t: Tables, id: Uuid, plan: Plan): Tables {
    t.(instances := t.instances[id := CreatedRow(plan)])
  }

  /** What it leaves before its address is stored. */
  function Unaddressed(t: Tables, id: Uuid, plan: Plan): Tables {
    t.(instances := t.instances[id := RowOf(plan)])
  }

  ghost predicate MayCreate(s: Cluster, op: OpId, req: Request, node: Uuid, id: Uuid) {
    && op !in s.ops && id !in s.book.births && ValidRequest(req)
    && req.vpc in s.tables.vpcs && ParseCidr(s.tables.vpcs[req.vpc].cidr).Ok?
    && IsPick(s.tables, node, MinRam(req), s.now)
    && id !in s.tables.instances
  }

  /** Served without interleaving, a create is these five steps, and they leave one
      pending row with its address and one command on the chosen node's queue. */
  lemma CreateRuns(s: Cluster, op: OpId, req: Request, node: Uuid, id: Uuid, queues: Queues)
    requires Shows(s, s.tables, queues, s.now) && MayCreate(s, op, req, node, id)
    ensures var plan := PlanOf(s.tables, req, node);
            Reaches(s, CreateSteps(op, req, node, id), Created(s.tables, id, plan),
                    Pushed(queues, node, CreateCommand(plan, id)), s.ops)
  {
    var plan, step := PlanOf(s.tables, req, node), Choose(op, req, node);
    var s' := Chose(s, op, plan, queues);
    CountRuns(s', op, plan, Choice(s.now, |s.log|), id, queues);
    ReachesCons(s, step, CountSteps(op, id), Created(s.tables, id, plan),
                Pushed(queues, node, CreateCommand(plan, id)), s.ops);
  }

  lemma Chose(s: Cluster, op: OpId, plan: Plan, queues: Queues) returns (s': Cluster)
    requires Enabled(s, Choose(op, plan.req, plan.node)) && Shows(s, s.tables, queues, s.now)
    requires plan.cidr == s.tables.vpcs[plan.req.vpc].cidr
    ensures s' == Apply(s, Choose(op, plan.req, plan.node)) && Shows(s', s.tables, queues, s.now)
    ensures s'.ops == s.ops[op := Chosen(plan.req, plan.cidr, plan.node, Choice(s.now, |s.log|))]
    ensures s'.ops - {op} == s.ops
    ensures s'.book == s.book && s'.now == s.now && s'.tables == s.tables
  {
    QuietStep(s, Choose(op, plan.req, plan.node), queues, s.now);
    s' := Apply(s, Choose(op, plan.req, plan.node));
  }

  lemma CountRuns(s: Cluster, op: OpId, plan: Plan, choice: Choice, id: Uuid, queues: Queues)
    requires Shows(s, s.tables, queues, s.now) && id !in s.book.births
    requires op in s.ops && s.ops[op] == Chosen(plan.req, plan.cidr, plan.node, choice)
    requires ParseCidr(plan.cidr) == Ok(plan.net) && plan.ip == VmAddress(plan.net, CountByVpc(s.tables, plan.req.vpc))
    requires InsertInstance(s.tables, id, RowOf(plan)).Ok?
    ensures Reaches(s, CountSteps(op, id), Created(s.tables, id, plan),
                    Pushed(queues, plan.node, CreateCommand(plan, id)), s.ops - {op})
  {
    var s' := CountedIp(s, op, plan, choice, queues);
    InsertRuns(s', op, plan, choice, id, queues);
    ReachesCons(s, Count(op), InsertSteps(op, id), Created(s.tables, id, plan),
                Pushed(queues, plan.node, CreateCommand(plan, id)), s.ops - {op});
  }

  lemma CountedIp(s: Cluster, op: OpId, plan: Plan, choice: Choice, queues: Queues) returns (s': Cluster)
    requires Shows(s, s.tables, queues, s.now)
    requires op in s.ops && s.ops[op] == Chosen(plan.req, plan.cidr, plan.node, choice)
    requires ParseCidr(plan.cidr) == Ok(plan.net) && plan.ip == VmAddress(plan.net, CountByVpc(s.tables, plan.req.vpc))
    ensures Enabled(s, Count(op)) && s' == Apply(s, Count(op)) && Shows(s', s.tables, queues, s.now)
    ensures s'.ops == s.ops[op := Counted(plan, choice)] && s'.ops - {op} == s.ops - {op}
    ensures s'.book == s.book && s'.now == s.now && s'.tables == s.tables
  {
    QuietStep(s, Count(op), queues, s.now);
    s' := Apply(s, Count(op));
  }

  lemma InsertRuns(s: Cluster, op: OpId, plan: Plan, choice: Choice, id: Uuid, queues: Queues)
    requires Shows(s, s.tables, queues, s.now) && id !in s.book.births
    requires op in s.ops && s.ops[op] == Counted(plan, choice)
    requires InsertInstance(s.tables, id, RowOf(plan)).Ok?
    ensures Reaches(s, InsertSteps(op, id), Created(s.tables, id, plan),
                    Pushed(queues, plan.node, CreateCommand(plan, id)), s.ops - {op})
  {
    var s' := InsertedRow(s, op, plan, choice, id, queues);
    AddressRuns(s', op, plan, id, queues);
    ReachesCons(s, Insert(op, id), AddressSteps(op), Created(s.tables, id, plan),
                Pushed(queues, plan.node, CreateCommand(plan, id)), s.ops - {op});
  }

  lemma InsertedRow(s: Cluster, op: OpId, plan: Plan, choice: Choice, id: Uuid, queues: Queues) returns (s': Cluster)
    requires Shows(s, s.tables, queues, s.now) && id !in s.book.births
    requires op in s.ops && s.ops[op] == Counted(plan, choice)
    requires InsertInstance(s.tables, id, RowOf(plan)).Ok?
    ensures Enabled(s, Insert(op, id)) && s' == Apply(s, Insert(op, id)) && Shows(s', s'.tables, queues, s.now)
    ensures s'.ops == s.ops[op := Inserted(plan, id)] && s'.ops - {op} == s.ops - {op} && s'.now == s.now
    ensures s'.tables == Unaddressed(s.tables, id, plan)
    ensures UpdateStatus(s'.tables, id, Pending, Some(plan.ip)) == Created(s.tables, id, plan)
  {
    QuietStep(s, Insert(op, id), queues, s.now);
    s' := Apply(s, Insert(op, id));
    InsertThenAddress(s.tables, id, plan);
  }

  lemma InsertThenAddress(t: Tables, id: Uuid, plan: Plan)
    requires InsertInstance(t, id, RowOf(plan)).Ok?
    ensures UpdateStatus(InsertInstance(t, id, RowOf(plan)).value, id, Pending, Some(plan.ip)) == Created(t, id, plan)
  {
    assert t.instances[id := RowOf(plan)][id := CreatedRow(plan)] == t.instances[id := CreatedRow(plan)];
  }

  lemma AddressRuns(s: Cluster, op: OpId, plan: Plan, id: Uuid, queues: Queues)
    requires Shows(s, s.tables, queues, s.now) && op in s.ops && s.ops[op] == Inserted(plan, id)
    ensures Reaches(s, AddressSteps(op), UpdateStatus(s.tables, id, Pending, Some(plan.ip)),
                    Pushed(queues, plan.node, CreateCommand(plan, id)), s.ops - {op})
  {
    var s' := AddressedRow(s, op, plan, id, queues);
    SendRuns(s', op, plan, id, queues);
    ReachesCons(s, SetAddress(op), SendSteps(op), s'.tables, Pushed(queues, plan.node, CreateCommand(plan, id)),
                s.ops - {op});
  }

  lemma AddressedRow(s: Cluster, op: OpId, plan: Plan, id: Uuid, queues: Queues) returns (s': Cluster)
    requires Shows(s, s.tables, queues, s.now) && op in s.ops && s.ops[op] == Inserted(plan, id)
    ensures Enabled(s, SetAddress(op)) && s' == Apply(s, SetAddress(op)) && Shows(s', s'.tables, queues, s.now)
    ensures s'.ops == s.ops[op := Addressed(plan, id)] && s'.ops - {op} == s.ops - {op} && s'.now == s.now
    ensures s'.tables == UpdateStatus(s.tables, id, Pending, Some(plan.ip))
  {
    QuietStep(s, SetAddress(op), queues, s.now);
    s' := Apply(s, SetAddress(op));
  }

  lemma SendRuns(s: Cluster, op: OpId, plan: Plan, id: Uuid, queues: Queues)
    requires Shows(s, s.tables, queues, s.now) && op in s.ops && s.ops[op] == Addressed(plan, id)
    ensures Reaches(s, SendSteps(op), s.tables, Pushed(queues, plan.node, CreateCommand(plan, id)), s.ops - {op})
  {
    PushStep(s, SendCreate(op), queues, s.now, plan.node, CreateCommand(plan, id));
    ReachesCons(s, SendCreate(op), [], s.tables, Pushed(queues, plan.node, CreateCommand(plan, id)), s.ops - {op});
  }

  /** The database fails to store the address: the request ends, and the row stays. */
  function AbortSteps(op: OpId): seq<Step> { [Abort(op)] + [] }

  function StopShortSteps(op: OpId, req: Request, node: Uuid, id: Uuid): seq<Step> {
    [Choose(op, req, node)] + ([Count(op)] + ([Insert(op, id)] + AbortSteps(op)))
  }

  lemma AbortRuns(s: Cluster, op: OpId, queues: Queues)
    requires Shows(s, s.tables, queues, s.now)
    ensures Reaches(s, AbortSteps(op), s.tables, queues, s.ops - {op})
  {
    QuietStep(s, Abort(op), queues, s.now);
    ReachesCons(s, Abort(op), [], s.tables, queues, s.ops - {op});
  }

  lemma InsertAborts(s: Cluster, op: OpId, plan: Plan, choice: Choice, id: Uuid, queues: Queues)
    requires Shows(s, s.tables, queues, s.now) && id !in s.book.births
    requires op in s.ops && s.ops[op] == Counted(plan, choice)
    requires InsertInstance(s.tables, id, RowOf(plan)).Ok?
    ensures Reaches(s, [Insert(op, id)] + AbortSteps(op), Unaddressed(s.tables, id, plan), queues, s.ops - {op})
  {
    var s' := InsertedRow(s, op, plan, choice, id, queues);
    AbortRuns(s', op, queues);
    ReachesCons(s, Insert(op, id), AbortSteps(op), Unaddressed(s.tables, id, plan), queues, s.ops - {op});
  }

  /** A create that stops short leaves a pending row without an address, and sends
      nothing. */
  lemma StopShortRuns(s: Cluster, op: OpId, req: Request, node: Uuid, id: Uuid, queues: Queues)
    requires Shows(s, s.tables, queues, s.now) && MayCreate(s, op, req, node, id)
    ensures var plan := PlanOf(s.tables, req, node);
            Reaches(s, StopShortSteps(op, req, node, id), Unaddressed(s.tables, id, plan), queues, s.ops)
  {
    var plan, choice := PlanOf(s.tables, req, node), Choice(s.now, |s.log|);
    var s1 := Chose(s, op, plan, queues);
    var s2 := CountedIp(s1, op, plan, choice, queues);
    InsertAborts(s2, op, plan, choice, id, queues);
    ReachesCons(s1, Count(op), [Insert(op, id)] + AbortSteps(op), Unaddressed(s.tables, id, plan), queues, s.ops);
    ReachesCons(s, Choose(op, req, node), [Count(op)] + ([Insert(op, id)] + AbortSteps(op)),
                Unaddressed(s.tables, id, plan), queues, s.ops);
  }

  /* ---- InstanceService.Start, Stop and Delete ---- */

  /** Whether the database accepts the mark and, for a delete, the deletion. */
  datatype Saves = Saves(marked: bool, dropped: bool)

  function DropSteps(op: OpId, db: Saves): seq<Step> {
    if db.dropped then [DropRow(op)] + [] else AbortSteps(op)
  }

  function SendAskedSteps(op: OpId, ask: Ask, db: Saves): seq<Step> {
    [SendAsked(op)] + if ask.AskDelete? then DropSteps(op, db) else []
  }

  function MarkSteps(op: OpId, ask: Ask, db: Saves): seq<Step> {
    [if db.marked then Mark(op) else SkipMark(op)] + SendAskedSteps(op, ask, db)
  }

  function AskSteps(op: OpId, ask: Ask, id: Uuid, db: Saves): seq<Step> {
    [AskFor(op, ask, id)] + MarkSteps(op, ask, db)
  }

  function TargetOf(t: Tables, ask: Ask, id: Uuid): Target
    requires id in t.instances && t.instances[id].vpc in t.vpcs
  {
    var row := t.instances[id];
    Target(ask, id, row.name, row.node, row.vpc, t.vpcs[row.vpc].cidr)
  }

  function AfterMark(t: Tables, ask: Ask, id: Uuid, db: Saves): Tables {
    if db.marked then UpdateStatus(t, id, MarkOf(ask), None) else t
  }

  function AfterDrop(t: Tables, ask: Ask, id: Uuid, db: Saves): Tables {
    if ask.AskDelete? && db.dropped then DeleteInstance(t, id) else t
  }

  /** A start or stop marks the row and clears its address; a delete removes it, if it
      can. */
  function AfterAsk(t: Tables, ask: Ask, id: Uuid, db: Saves): Tables {
    AfterDrop(AfterMark(t, ask, id, db), ask, id, db)
  }

  /** Served without interleaving, a start, stop or delete leaves its mark and one
      command on the queue of the instance's node. Only a delete goes on without its
      mark. */
  lemma AskRuns(s: Cluster, op: OpId, ask: Ask, id: Uuid, db: Saves, queues: Queues)
    requires Shows(s, s.tables, queues, s.now) && op !in s.ops && (db.marked || ask.AskDelete?)
    requires id in s.tables.instances && s.tables.instances[id].vpc in s.tables.vpcs
    ensures var target := TargetOf(s.tables, ask, id);
            Reaches(s, AskSteps(op, ask, id, db), AfterAsk(s.tables, ask, id, db),
                    Pushed(queues, target.node, AskedCommand(target)), s.ops)
  {
    var target, step := TargetOf(s.tables, ask, id), AskFor(op, ask, id);
    QuietStep(s, step, queues, s.now);
    MarkRuns(Apply(s, step), op, target, db, queues);
    assert Apply(s, step).ops - {op} == s.ops;
    ReachesCons(s, step, MarkSteps(op, ask, db), AfterAsk(s.tables, ask, id, db),
                Pushed(queues, target.node, AskedCommand(target)), s.ops);
  }

  lemma MarkRuns(s: Cluster, op: OpId, target: Target, db: Saves, queues: Queues)
    requires Shows(s, s.tables, queues, s.now) && op in s.ops && s.ops[op] == Asked(target)
    requires db.marked || target.ask.AskDelete?
    ensures Reaches(s, MarkSteps(op, target.ask, db), AfterAsk(s.tables, target.ask, target.id, db),
                    Pushed(queues, target.node, AskedCommand(target)), s.ops - {op})
  {
    var step := if db.marked then Mark(op) else SkipMark(op);
    QuietStep(s, step, queues, s.now);
    SendAskedRuns(Apply(s, step), op, target, db, queues);
    assert Apply(s, step).ops - {op} == s.ops - {op};
    ReachesCons(s, step, SendAskedSteps(op, target.ask, db), AfterAsk(s.tables, target.ask, target.id, db),
                Pushed(queues, target.node, AskedCommand(target)), s.ops - {op});
  }

  lemma SendAskedRuns(s: Cluster, op: OpId, target: Target, db: Saves, queues: Queues)
    requires Shows(s, s.tables, queues, s.now) && op in s.ops && s.ops[op] == Marked(target)
    ensures Reaches(s, SendAskedSteps(op, target.ask, db), AfterDrop(s.tables, target.ask, target.id, db),
                    Pushed(queues, target.node, AskedCommand(target)), s.ops - {op})
  {
    var step, queues' := SendAsked(op), Pushed(queues, target.node, AskedCommand(target));
    PushStep(s, step, queues, s.now, target.node, AskedCommand(target));
    if target.ask.AskDelete? {
      DropRuns(Apply(s, step), op, target, db, queues');
      assert Apply(s, step).ops - {op} == s.ops - {op};
      ReachesCons(s, step, DropSteps(op, db), AfterDrop(s.tables, target.ask, target.id, db), queues', s.ops - {op});
    } else {
      ReachesCons(s, step, [], s.tables, queues', s.ops - {op});
    }
  }

  lemma DropRuns(s: Cluster, op: OpId, target: Target, db: Saves, queues: Queues)
    requires Shows(s, s.tables, queues, s.now) && op in s.ops && s.ops[op] == Sent(target.id) && target.ask.AskDelete?
    ensures Reaches(s, DropSteps(op, db), AfterDrop(s.tables, target.ask, target.id, db), queues, s.ops - {op})
  {
    if db.dropped {
      QuietStep(s, DropRow(op), queues, s.now);
      ReachesCons(s, DropRow(op), [], DeleteInstance(s.tables, target.id), queues, s.ops - {op});
    } else {
      AbortRuns(s, op, queues);
    }
  }

  /* ---- VpcService and ImageService ---- */

  /** Pushing the same command onto the queues of several nodes, in order. */
  function PushedAll(queues: Queues, nodes: seq<Uuid>, cmd: Command): Queues
    decreases |nodes|
  {
    if nodes == [] then queues else PushedAll(Pushed(queues, nodes[0], cmd), nodes[1..], cmd)
  }

  function Broadcast(nodes: seq<Uuid>, cmd: Command): seq<Step> {
    if nodes == [] then [] else [SendNetwork(nodes[0], cmd)] + Broadcast(nodes[1..], cmd)
  }

  /** Every node named gets exactly one copy, and no other queue changes. */
  lemma {:induction false} OneCopyEach(queues: Queues, nodes: seq<Uuid>, cmd: Command, n: Uuid)
    requires forall i, j | 0 <= i < j < |nodes| :: nodes[i] != nodes[j]
    ensures QueueOf(PushedAll(queues, nodes, cmd), n) == QueueOf(queues, n) + if n in nodes then [cmd] else []
    decreases |nodes|
  {
    if nodes != [] {
      OneCopyEach(Pushed(queues, nodes[0], cmd), nodes[1..], cmd, n);
    }
  }

  lemma {:induction false} BroadcastRuns(s: Cluster, nodes: seq<Uuid>, cmd: Command, queues: Queues)
    requires Shows(s, s.tables, queues, s.now) && !IsVmCommand(cmd)
    ensures Reaches(s, Broadcast(nodes, cmd), s.tables, PushedAll(queues, nodes, cmd), s.ops)
    decreases |nodes|
  {
    if nodes != [] {
      var step := SendNetwork(nodes[0], cmd);
      PushStep(s, step, queues, s.now, nodes[0], cmd);
      BroadcastRuns(Apply(s, step), nodes[1..], cmd, Pushed(queues, nodes[0], cmd));
      ReachesCons(s, step, Broadcast(nodes[1..], cmd), s.tables, PushedAll(queues, nodes, cmd), s.ops);
    }
  }

  /** A VPC is added, then the command is sent to at most one node. */
  lemma AddVpcRuns(s: Cluster, id: Uuid, row: VpcRow, to: seq<Uuid>, queues: Queues)
    requires Shows(s, s.tables, queues, s.now) && id !in s.book.vpcs && InsertVpc(s.tables, id, row).Ok?
    ensures Reaches(s, [AddVpc(id, row)] + Broadcast(to, CreateVpc(id, row.cidr)), InsertVpc(s.tables, id, row).value,
                    PushedAll(queues, to, CreateVpc(id, row.cidr)), s.ops)
  {
    var s' := AddedVpc(s, id, row, queues);
    var cmd := CreateVpc(id, row.cidr);
    BroadcastRuns(s', to, cmd, queues);
    ReachesCons(s, AddVpc(id, row), Broadcast(to, cmd), s'.tables, PushedAll(queues, to, cmd), s.ops);
  }

  lemma AddedVpc(s: Cluster, id: Uuid, row: VpcRow, queues: Queues) returns (s': Cluster)
    requires Shows(s, s.tables, queues, s.now) && id !in s.book.vpcs && InsertVpc(s.tables, id, row).Ok?
    ensures Enabled(s, AddVpc(id, row)) && s' == Apply(s, AddVpc(id, row)) && Shows(s', s'.tables, queues, s.now)
    ensures s'.tables == InsertVpc(s.tables, id, row).value && s'.ops == s.ops && s'.now == s.now
  {
    QuietStep(s, AddVpc(id, row), queues, s.now);
    s' := Apply(s, AddVpc(id, row));
  }

  function DeleteVpcSteps(to: Option<Uuid>, id: Uuid, cidr: Cidr): seq<Step> {
    var drop := [DropVpc(id)] + [];
    if to.Some? then [SendNetwork(to.value, RemoveVpc(id, cidr))] + drop else drop
  }

  /** The command goes out first, and the row may then refuse to go. */
  lemma DropVpcRuns(s: Cluster, id: Uuid, cidr: Cidr, to: Option<Uuid>, queues: Queues)
    requires Shows(s, s.tables, queues, s.now)
    ensures Reaches(s, DeleteVpcSteps(to, id, cidr), DeleteVpc(s.tables, id),
                    if to.Some? then Pushed(queues, to.value, RemoveVpc(id, cidr)) else queues, s.ops)
  {
    match to
    case None => DropVpcRun(s, id, queues);
    case Some(n) =>
      var step, cmd := SendNetwork(n, RemoveVpc(id, cidr)), RemoveVpc(id, cidr);
      PushStep(s, step, queues, s.now, n, cmd);
      DropVpcRun(Apply(s, step), id, Pushed(queues, n, cmd));
      ReachesCons(s, step, [DropVpc(id)] + [], DeleteVpc(s.tables, id), Pushed(queues, n, cmd), s.ops);
  }

  lemma DropVpcRun(s: Cluster, id: Uuid, queues: Queues)
    requires Shows(s, s.tables, queues, s.now)
    ensures Reaches(s, [DropVpc(id)] + [], DeleteVpc(s.tables, id), queues, s.ops)
  {
    QuietStep(s, DropVpc(id), queues, s.now);
    ReachesCons(s, DropVpc(id), [], DeleteVpc(s.tables, id), queues, s.ops);
  }

  /* ---- what a served request promises ---- */

  /** From every cluster with these tables and queues, a run of the protocol leads to
      the new ones. */
  ghost predicate ServedCreate(t: Tables, queues: Queues, now: int, req: Request, node: Uuid, id: Uuid,
                               t': Tables, queues': Queues) {
    forall s: Cluster, op: OpId | Shows(s, t, queues, now) && op !in s.ops && id !in s.book.births
      :: Reaches(s, CreateSteps(op, req, node, id), t', queues', s.ops)
  }

  ghost predicate ServedShort(t: Tables, queues: Queues, now: int, req: Request, node: Uuid, id: Uuid,
                              t': Tables) {
    forall s: Cluster, op: OpId | Shows(s, t, queues, now) && op !in s.ops && id !in s.book.births
      :: Reaches(s, StopShortSteps(op, req, node, id), t', queues, s.ops)
  }

  ghost predicate ServedAsk(t: Tables, queues: Queues, ask: Ask, id: Uuid, db: Saves,
                            t': Tables, queues': Queues) {
    forall s: Cluster, op: OpId | Shows(s, t, queues, s.now) && op !in s.ops
      :: Reaches(s, AskSteps(op, ask, id, db), t', queues', s.ops)
  }

  ghost predicate ServedVpc(t: Tables, queues: Queues, now: int, id: Uuid, row: VpcRow, to: seq<Uuid>,
                            t': Tables, queues': Queues) {
    forall s: Cluster | Shows(s, t, queues, now) && id !in s.book.vpcs
      :: Reaches(s, [AddVpc(id, row)] + Broadcast(to, CreateVpc(id, row.cidr)), t', queues', s.ops)
  }

  lemma AddVpcServes(t: Tables, queues: Queues, now: int, id: Uuid, row: VpcRow, to: seq<Uuid>)
    requires InsertVpc(t, id, row).Ok?
    ensures ServedVpc(t, queues, now, id, row, to, InsertVpc(t, id, row).value,
                      PushedAll(queues, to, CreateVpc(id, row.cidr)))
  {
    forall s: Cluster | Shows(s, t, queues, now) && id !in s.book.vpcs
      ensures Reaches(s, [AddVpc(id, row)] + Broadcast(to, CreateVpc(id, row.cidr)), InsertVpc(t, id, row).value,
                      PushedAll(queues, to, CreateVpc(id, row.cidr)), s.ops)
    {
      AddVpcRuns(s, id, row, to, queues);
    }
  }

  lemma CreateServes(t: Tables, queues: Queues, now: int, req: Request, node: Uuid, id: Uuid)
    requires ValidRequest(req) && req.vpc in t.vpcs && ParseCidr(t.vpcs[req.vpc].cidr).Ok?
    requires IsPick(t, node, MinRam(req), now) && id !in t.instances
    ensures var plan := PlanOf(t, req, node);
            ServedCreate(t, queues, now, req, node, id, Created(t, id, plan),
                         Pushed(queues, node, CreateCommand(plan, id)))
  {
    var plan := PlanOf(t, req, node);
    var t', queues' := Created(t, id, plan), Pushed(queues, node, CreateCommand(plan, id));
    forall s: Cluster, op: OpId | Shows(s, t, queues, now) && op !in s.ops && id !in s.book.births
      ensures Reaches(s, CreateSteps(op, req, node, id), t', queues', s.ops)
    {
      CreateRuns(s, op, req, node, id, queues);
    }
  }

  lemma StopsShort(t: Tables, queues: Queues, now: int, req: Request, node: Uuid, id: Uuid)
    requires ValidRequest(req) && req.vpc in t.vpcs && ParseCidr(t.vpcs[req.vpc].cidr).Ok?
    requires IsPick(t, node, MinRam(req), now) && id !in t.instances
    ensures ServedShort(t, queues, now, req, node, id, Unaddressed(t, id, PlanOf(t, req, node)))
  {
    forall s: Cluster, op: OpId | Shows(s, t, queues, now) && op !in s.ops && id !in s.book.births
      ensures Reaches(s, StopShortSteps(op, req, node, id), Unaddressed(t, id, PlanOf(t, req, node)), queues, s.ops)
    {
      StopShortRuns(s, op, req, node, id, queues);
    }
  }

  lemma AskServes(t: Tables, queues: Queues, ask: Ask, id: Uuid, db: Saves)
    requires id in t.instances && t.instances[id].vpc in t.vpcs && (db.marked || ask.AskDelete?)
    ensures var target := TargetOf(t, ask, id);
            ServedAsk(t, queues, ask, id, db, AfterAsk(t, ask, id, db),
                      Pushed(queues, target.node, AskedCommand(target)))
  {
    var queues' := Pushed(queues, TargetOf(t, ask, id).node, AskedCommand(TargetOf(t, ask, id)));
    forall s: Cluster, op: OpId | Shows(s, t, queues, s.now) && op !in s.ops
      ensures Reaches(s, AskSteps(op, ask, id, db), AfterAsk(t, ask, id, db), queues', s.ops)
    {
      AskRuns(s, op, ask, id, db, queues);
    }
  }

  /* ---- the heartbeat stream ---- */

  /** What the server sees of a stream: a request that arrives after a while, whose
      update may fail to be saved and whose answer may fail to be sent; the end of the
      stream; or an error. */
  datatype StreamEvent =
    | Incoming(wait: nat, node: Uuid, stats: NodeStats, saved: bool, sent: bool)
    | EndOfStream
    | Broken

  /** The steps that serving the events amounts to; `last` is the node heard last. */
  function ServeSteps(events: seq<StreamEvent>, last: Option<Uuid>): seq<Step> {
    if events == [] then []
    else
      match events[0]
      case EndOfStream => []
      case Broken => if last.Some? then [LoseNode(last.value)] + [] else []
      case Incoming(wait, n, stats, saved, sent) =>
        [Tick(wait)] + ([Heartbeat(n, stats, saved, sent)] + if sent then ServeSteps(events[1..], Some(n)) else [])
  }

  /** What serving the events leaves: the tables, the queues and the time, and the
      batches of commands sent, in order. */
  datatype Service = Service(tables: Tables, queues: Queues, now: int, batches: seq<seq<Command>>)

  function Answered(v: Service, e: StreamEvent): Service
    requires e.Incoming?
  {
    var now := v.now + e.wait;
    Service(if e.saved then UpdateHeartbeat(v.tables, e.node, e.stats, now) else v.tables,
            v.queues - {e.node}, now,
            if e.sent then v.batches + [QueueOf(v.queues, e.node)] else v.batches)
  }

  function Serve(v: Service, events: seq<StreamEvent>, last: Option<Uuid>): Service
    decreases |events|
  {
    if events == [] || events[0].EndOfStream? then v
    else if events[0].Broken? then
      if last.Some? then v.(tables := MarkUnreachable(v.tables, last.value)) else v
    else if events[0].sent then Serve(Answered(v, events[0]), events[1..], Some(events[0].node))
    else Answered(v, events[0])
  }

  /** An answer is sent only to the agent that holds the stream. */
  ghost predicate Attended(s: Cluster, events: seq<StreamEvent>) {
    forall i | 0 <= i < |events| && events[i].Incoming? && events[i].sent
      :: AgentAt(s, HostOf(s, events[i].node)).session == Some(events[i].node)
  }

  lemma TickRuns(s: Cluster, seconds: nat, queues: Queues) returns (s': Cluster)
    requires Shows(s, s.tables, queues, s.now)
    ensures s' == Apply(s, Tick(seconds)) && Shows(s', s.tables, queues, s.now + seconds)
    ensures s'.ops == s.ops && s'.book == s.book && forall a :: AgentAt(s', a) == AgentAt(s, a)
    ensures forall n :: Chan(s', n) == Chan(s, n)
  {
    s' := Apply(s, Tick(seconds));
    forall n ensures Chan(s', n) == Chan(s, n) {
      ChannelAfter(s, Tick(seconds), n);
    }
    forall a ensures AgentAt(s', a) == AgentAt(s, a) {
      AgentAfter(s, Tick(seconds), a);
    }
  }

  lemma BeatRuns(s: Cluster, step: Step, queues: Queues) returns (s': Cluster)
    requires step.Heartbeat? && Enabled(s, step) && Shows(s, s.tables, queues, s.now)
    ensures s' == Apply(s, step) && Shows(s', s'.tables, queues - {step.node}, s.now)
    ensures s'.tables == if step.saved then UpdateHeartbeat(s.tables, step.node, step.stats, s.now) else s.tables
    ensures s'.ops == s.ops && s'.book == s.book
    ensures forall a :: AgentAt(s', a) == AgentAt(s, a)
  {
    s' := Apply(s, step);
    BeatDrains(s, step, queues);
    forall a ensures AgentAt(s', a) == AgentAt(s, a) {
      AgentAfter(s, step, a);
    }
  }

  /** A heartbeat empties the node's queue onto the stream, or loses it, and touches no
      other queue. */
  lemma BeatDrains(s: Cluster, step: Step, queues: Queues)
    requires step.Heartbeat? && Enabled(s, step) && Shows(s, s.tables, queues, s.now)
    ensures forall n :: Chan(Apply(s, step), n).queue == QueueOf(queues - {step.node}, n)
    ensures Chan(Apply(s, step), step.node).flight
         == Chan(s, step.node).flight + if step.sent then QueueOf(queues, step.node) else []
  {
    forall n ensures Chan(Apply(s, step), n).queue == QueueOf(queues - {step.node}, n) {
      ChannelAfter(s, step, n);
    }
    ChannelAfter(s, step, step.node);
  }

  /** Serving a stream is a run of the protocol: a heartbeat that cannot be answered
      ends it without marking the node, and one that breaks marks the node heard last. */
  lemma {:induction false} ServeRuns(s: Cluster, v: Service, events: seq<StreamEvent>, last: Option<Uuid>)
    requires Shows(s, v.tables, v.queues, v.now) && Attended(s, events)
    ensures var w := Serve(v, events, last);
            Run(s, ServeSteps(events, last)) && Shows(After(s, ServeSteps(events, last)), w.tables, w.queues, w.now)
    decreases |events|
  {
    if events == [] || events[0].EndOfStream? {
    } else if events[0].Broken? {
      if last.Some? {
        QuietStep(s, LoseNode(last.value), v.queues, v.now);
        RunCons(s, LoseNode(last.value), []);
      }
    } else {
      var e := events[0];
      var s1, s2 := AnswerRuns(s, v, events);
      var rest := if e.sent then ServeSteps(events[1..], Some(e.node)) else [];
      if e.sent {
        ServeRuns(s2, Answered(v, e), events[1..], Some(e.node));
      }
      RunCons(s1, Heartbeat(e.node, e.stats, e.saved, e.sent), rest);
      RunCons(s, Tick(e.wait), [Heartbeat(e.node, e.stats, e.saved, e.sent)] + rest);
    }
  }

  lemma AnswerRuns(s: Cluster, v: Service, events: seq<StreamEvent>) returns (s1: Cluster, s2: Cluster)
    requires Shows(s, v.tables, v.queues, v.now) && Attended(s, events) && events != [] && events[0].Incoming?
    ensures var e := events[0];
            var beat := Heartbeat(e.node, e.stats, e.saved, e.sent);
            var w := Answered(v, e);
            && s1 == Apply(s, Tick(e.wait)) && Enabled(s1, beat) && s2 == Apply(s1, beat)
            && Shows(s2, w.tables, w.queues, w.now) && Attended(s2, events[1..])
  {
    var e := events[0];
    s1 := TickRuns(s, e.wait, v.queues);
    assert HostOf(s1, e.node) == HostOf(s, e.node);
    s2 := BeatRuns(s1, Heartbeat(e.node, e.stats, e.saved, e.sent), v.queues);
    StillAttended(s, s2, events);
  }

  lemma StillAttended(s: Cluster, s': Cluster, events: seq<StreamEvent>)
    requires events != [] && Attended(s, events) && s'.book == s.book && forall a :: AgentAt(s', a) == AgentAt(s, a)
    ensures Attended(s', events[1..])
  {
    forall i | 0 <= i < |events| - 1 && events[i + 1].Incoming? && events[i + 1].sent
      ensures AgentAt(s', HostOf(s', events[1..][i].node)).session == Some(events[1..][i].node)
    {
      assert HostOf(s', events[i + 1].node) == HostOf(s, events[i + 1].node);
    }
  }

  /* ---- the other end of the stream ---- */

  function Hands(n: Uuid, count: nat): seq<Step> {
    if count == 0 then [] else [Hand(n)] + Hands(n, count - 1)
  }

  /** Handing a whole response to the agent's handler: every command in flight is
      handled, in order, each by a goroutine of its own, and the rest of the cluster's
      channels stay. */
  lemma ResponseHanded(s: Cluster, n: Uuid, m: Uuid)
    ensures Run(s, Hands(n, |Chan(s, n).flight|))
    ensures Chan(After(s, Hands(n, |Chan(s, n).flight|)), m) == if m == n then AllTaken(Chan(s, n)) else Chan(s, m)
  {
    HandsRun(s, n, Hands(n, |Chan(s, n).flight|), AllTaken(Chan(s, n)), m, Chan(s, m));
  }

  lemma {:induction false} HandsRun(s: Cluster, n: Uuid, steps: seq<Step>, all: C.Channel, m: Uuid, other: C.Channel)
    requires steps == Hands(n, |Chan(s, n).flight|) && all == AllTaken(Chan(s, n)) && (m != n ==> other == Chan(s, m))
    ensures Run(s, steps) && Chan(After(s, steps), m) == if m == n then all else other
    decreases |steps|
  {
    var c := Chan(s, n);
    if c.flight != [] {
      var s' := HandedOne(s, n);
      TakenOne(c);
      HandsRun(s', n, steps[1..], all, m, other);
    } else {
      assert AllTaken(c) == c;
    }
  }

  lemma HandedOne(s: Cluster, n: Uuid) returns (s': Cluster)
    requires Chan(s, n).flight != []
    ensures Enabled(s, Hand(n)) && s' == Apply(s, Hand(n))
    ensures forall m :: Chan(s', m) == if m == n then C.Next(Chan(s, n), C.Take) else Chan(s, m)
  {
    s' := Apply(s, Hand(n));
    forall m ensures Chan(s', m) == if m == n then C.Next(Chan(s, n), C.Take) else Chan(s, m) {
      ChannelAfter(s, Hand(n), m);
    }
  }

  function AllTaken(c: C.Channel): C.Channel {
    c.(handled := c.handled + c.flight, tasks := c.tasks + Begun(c.flight), flight := [])
  }

  function Begun(cmds: seq<Command>): seq<Task> {
    seq(|cmds|, i requires 0 <= i < |cmds| => Task(cmds[i], At(Begin)))
  }

  lemma TakenOne(c: C.Channel)
    requires c.flight != []
    ensures AllTaken(C.Next(c, C.Take)) == AllTaken(c)
  {
    var d := C.Next(c, C.Take);
    assert d.handled + d.flight == c.handled + c.flight;
    assert d.tasks + Begun(d.flight) == c.tasks + Begun(c.flight);
  }
}
