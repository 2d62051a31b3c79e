/** A create request can always be carried through: from any state of the cluster, when
    the chosen node's agent holds its stream and the host cooperates, some run takes the
    request from the API to a running domain and a row that says so. */
module EndToEnd {
  import opened Wrappers
  import opened Ipv4
  import opened Uuids
  import opened Schema
  import opened Commands
  import opened Dispatching
  import opened Executor
  import opened Protocol
  import opened Ledger
  import opened Refinement
  import opened Goroutines
  import C = Channels

  /** The instances that the requests of a run concern, and whether agents list their
      domains. */
  datatype Scope = Scope(ids: set<Uuid>, lists: bool)

  /** Nothing fails, breaks or is lost in the step, no guest acts by itself, and no request
      is given up. */
  predicate Faultless(step: Step) {
    match step
    case Heartbeat(_, _, saved, sent) => saved && sent
    case ReportNext(_, delivered) => delivered
    case _ =>
      && !step.SkipMark? && !step.Abort? && !step.DropNode? && !step.LoseNode? && !step.BreakStream?
      && !step.FailReport? && !step.DropLate? && !step.Crash? && !step.Restart? && !step.HostChange?
  }

  predicate Within(c: Scope, step: Step) {
    && Faultless(step)
    && (step.AskFor? ==> step.id in c.ids) && (step.Insert? ==> step.id in c.ids) && (step.List? ==> c.lists)
  }

  predicate AllWithin(c: Scope, steps: seq<Step>) {
    forall i | 0 <= i < |steps| :: Within(c, steps[i])
  }

  /** Some run within the scope leads from one cluster to the other. */
  ghost predicate Connected(c: Scope, s: Cluster, t: Cluster) {
    exists steps: seq<Step> :: Takes(s, steps, t) && AllWithin(c, steps)
  }

  lemma Connects(c: Scope, s: Cluster, steps: seq<Step>)
    requires Run(s, steps) && AllWithin(c, steps)
    ensures Connected(c, s, After(s, steps))
  {
    assert Takes(s, steps, After(s, steps));
  }

  lemma StepConnects(c: Scope, s: Cluster, step: Step)
    requires Enabled(s, step) && Within(c, step)
    ensures Connected(c, s, Apply(s, step))
  {
    RunCons(s, step, []);
    Connects(c, s, [step] + []);
  }

  /** Only instances of the scope are inserted. */
  lemma BirthsStep(c: Scope, s: Cluster, step: Step)
    requires Enabled(s, step) && Within(c, step)
    ensures NextBook(s, step).births.Keys <= s.book.births.Keys + c.ids
  {
  }

  lemma {:induction false} BirthsRun(c: Scope, s: Cluster, steps: seq<Step>)
    requires Run(s, steps) && AllWithin(c, steps)
    ensures After(s, steps).book.births.Keys <= s.book.births.Keys + c.ids
    decreases |steps|
  {
    if steps != [] {
      assert Within(c, steps[0]);
      BirthsStep(c, s, steps[0]);
      assert AllWithin(c, steps[1..]);
      BirthsRun(c, Apply(s, steps[0]), steps[1..]);
    }
  }

  /** A state that some run from the empty cluster leads to. */
  ghost predicate Reachable(c: Scope, s: Cluster) {
    Connected(c, INITIAL, s)
  }

  lemma ReachableOn(c: Scope, s: Cluster, t: Cluster)
    requires Reachable(c, s) && Connected(c, s, t)
    ensures Reachable(c, t)
  {
    Transitive(c, INITIAL, s, t);
  }

  lemma ReachableInv(c: Scope, s: Cluster)
    requires Reachable(c, s)
    ensures Inv(s)
  {
    InvInitial();
    var steps: seq<Step> :| Takes(INITIAL, steps, s) && AllWithin(c, steps);
    InvRun(INITIAL, steps);
  }

  lemma Transitive(c: Scope, s: Cluster, t: Cluster, u: Cluster)
    requires Connected(c, s, t) && Connected(c, t, u)
    ensures Connected(c, s, u)
  {
    var xs: seq<Step> :| Takes(s, xs, t) && AllWithin(c, xs);
    var ys: seq<Step> :| Takes(t, ys, u) && AllWithin(c, ys);
    TakesConcat(s, xs, t, ys, u);
    assert AllWithin(c, xs + ys);
  }

  /** The queues of a cluster, as the dispatcher holds them. */
  ghost function QueuesOf(s: Cluster): Queues {
    map n | n in s.channels :: s.channels[n].queue
  }

  lemma QueuesShow(s: Cluster)
    ensures Shows(s, s.tables, QueuesOf(s), s.now)
  {
    forall n ensures Chan(s, n).queue == QueueOf(QueuesOf(s), n) {
    }
  }

  /* ---- what the steps on the way leave alone ---- */

  /** The API's steps touch no agent and only push onto channels. */
  predicate OfApi(step: Step) {
    || step.Choose? || step.Count? || step.Insert? || step.SetAddress? || step.SendCreate?
    || step.AskFor? || step.Mark? || step.SendAsked? || step.DropRow?
  }

  ghost predicate SameAgents(s: Cluster, t: Cluster) {
    t.book.owners == s.book.owners && forall a :: AgentAt(t, a) == AgentAt(s, a)
  }

  predicate SameService(s: Cluster, t: Cluster) {
    t.now == s.now && t.ops == s.ops && t.book == s.book
  }

  ghost predicate SameDelivery(c: C.Channel, d: C.Channel) {
    d.flight == c.flight && d.tasks == c.tasks
  }

  lemma ApiSpares(s: Cluster, step: Step, n: Uuid)
    requires Enabled(s, step) && OfApi(step)
    ensures SameAgents(s, Apply(s, step)) && SameDelivery(Chan(s, n), Chan(Apply(s, step), n))
  {
    ChannelAfter(s, step, n);
    forall a ensures AgentAt(Apply(s, step), a) == AgentAt(s, a) {
      AgentAfter(s, step, a);
    }
  }

  lemma {:induction false} ApiRunSpares(s: Cluster, steps: seq<Step>, n: Uuid)
    requires Run(s, steps) && forall i | 0 <= i < |steps| :: OfApi(steps[i])
    ensures SameAgents(s, After(s, steps)) && SameDelivery(Chan(s, n), Chan(After(s, steps), n))
    decreases |steps|
  {
    if steps != [] {
      ApiSpares(s, steps[0], n);
      ApiRunSpares(Apply(s, steps[0]), steps[1..], n);
    }
  }

  lemma HandSpares(s: Cluster, n: Uuid)
    requires Enabled(s, Hand(n))
    ensures SameAgents(s, Apply(s, Hand(n))) && SameService(s, Apply(s, Hand(n)))
    ensures Apply(s, Hand(n)).tables == s.tables
  {
    forall a ensures AgentAt(Apply(s, Hand(n)), a) == AgentAt(s, a) {
      AgentAfter(s, Hand(n), a);
    }
  }

  lemma {:induction false} HandsSpare(s: Cluster, n: Uuid, count: nat)
    requires Run(s, Hands(n, count))
    ensures var t := After(s, Hands(n, count));
            SameAgents(s, t) && SameService(s, t) && t.tables == s.tables
    decreases count
  {
    if count > 0 {
      assert Hands(n, count)[1..] == Hands(n, count - 1);
      HandSpares(s, n);
      HandsSpare(Apply(s, Hand(n)), n, count - 1);
    }
  }

  /* ---- the stages ---- */

  /** The request is served: the row is there, the command is queued last. */
  lemma Requested(c: Scope, s: Cluster, op: OpId, req: Request, node: Uuid, id: Uuid, plan: Plan) returns (t: Cluster)
    requires MayCreate(s, op, req, node, id) && plan == PlanOf(s.tables, req, node) && id in c.ids
    ensures Connected(c, s, t) && SameAgents(s, t) && t.tables == Created(s.tables, id, plan)
    ensures SameDelivery(Chan(s, node), Chan(t, node)) && t.ops == s.ops && t.now == s.now
    ensures Chan(t, node).queue == Chan(s, node).queue + [CreateCommand(plan, id)]
  {
    QueuesShow(s);
    var steps := CreateSteps(op, req, node, id);
    CreateRuns(s, op, req, node, id, QueuesOf(s));
    t := After(s, steps);
    CreateStepsOfApi(c, op, req, node, id);
    Connects(c, s, steps);
    ApiRunSpares(s, steps, node);
    PushedLast(s, t, node, CreateCommand(plan, id));
  }

  lemma CreateStepsOfApi(c: Scope, op: OpId, req: Request, node: Uuid, id: Uuid)
    requires id in c.ids
    ensures forall i | 0 <= i < |CreateSteps(op, req, node, id)| :: OfApi(CreateSteps(op, req, node, id)[i])
    ensures AllWithin(c, CreateSteps(op, req, node, id))
  {
  }

  lemma PushedLast(s: Cluster, t: Cluster, node: Uuid, cmd: Command)
    requires forall n :: Chan(t, n).queue == QueueOf(Pushed(QueuesOf(s), node, cmd), n)
    ensures Chan(t, node).queue == Chan(s, node).queue + [cmd]
  {
    QueuesShow(s);
  }

  /** The next heartbeat sends everything queued. */
  lemma Flushed(c: Scope, s: Cluster, node: Uuid, stats: NodeStats) returns (t: Cluster)
    requires AgentAt(s, HostOf(s, node)).session == Some(node)
    ensures Connected(c, s, t) && SameAgents(s, t) && SameService(s, t)
    ensures t.tables == UpdateHeartbeat(s.tables, node, stats, s.now)
    ensures Chan(t, node).flight == Chan(s, node).flight + Chan(s, node).queue
    ensures Chan(t, node).tasks == Chan(s, node).tasks && Chan(t, node).queue == []
  {
    var beat := Heartbeat(node, stats, true, true);
    QueuesShow(s);
    t := BeatRuns(s, beat, QueuesOf(s));
    ChannelAfter(s, beat, node);
    StepConnects(c, s, beat);
  }

  /** The agent's handler begins a goroutine for every command of the response. */
  lemma AllBegun(c: Scope, s: Cluster, node: Uuid) returns (t: Cluster)
    ensures Connected(c, s, t) && SameAgents(s, t) && SameService(s, t) && t.tables == s.tables
    ensures Chan(t, node).queue == Chan(s, node).queue && Chan(t, node).flight == []
    ensures Chan(t, node).tasks == Chan(s, node).tasks + Begun(Chan(s, node).flight)
  {
    var steps := Hands(node, |Chan(s, node).flight|);
    ResponseHanded(s, node, node);
    HandsSpare(s, node, |Chan(s, node).flight|);
    t := After(s, steps);
    HandsWithin(c, node, |Chan(s, node).flight|);
    Connects(c, s, steps);
  }

  lemma {:induction false} HandsWithin(c: Scope, n: Uuid, count: nat)
    ensures AllWithin(c, Hands(n, count))
    decreases count
  {
    if count > 0 {
      HandsWithin(c, n, count - 1);
    }
  }

  /** The goroutine's way when the host cooperates: until the domain is on, and until its
      last report is delivered. */
  const BOOTING := [Act(Success), Act(Success), Act(Success), Act(Success), Act(Success), Act(Success)]
  const SMOOTH := BOOTING + [Act(Success)]

  lemma BootingCreate(cmd: Command, domains: Domains)
    requires cmd.CreateVm? && cmd.name !in domains && forall other | other in domains :: domains[other].uuid != cmd.vm
    ensures AdvanceAll(Progress(Task(cmd, At(Begin)), domains, []), BOOTING)
         == Progress(Task(cmd, Reporting(Report(cmd.vm, Running, Some(cmd.ip)), Finished)),
                     domains[cmd.name := Domain(cmd.vm, On)], [Report(cmd.vm, Pending, None)])
  {
    var p := Progress(Task(cmd, At(Begin)), domains, []);
    var defined := domains[cmd.name := Domain(cmd.vm, Off)];
    var q := Progress(Task(cmd, At(Define)), domains, [Report(cmd.vm, Pending, None)]);
    assert AdvanceAll(p, BOOTING) == AdvanceAll(q, BOOTING[4..]) by {
      assert Advance(Advance(Advance(Advance(p, Act(Success)), Act(Success)), Act(Success)), Act(Success)) == q;
      assert BOOTING[1..][1..][1..][1..] == BOOTING[4..];
    }
    assert BOOTING[4..][1..][1..] == [];
    assert SetState(defined, cmd.name, On) == domains[cmd.name := Domain(cmd.vm, On)];
  }

  lemma SmoothCreate(cmd: Command, domains: Domains)
    requires cmd.CreateVm? && cmd.name !in domains && forall other | other in domains :: domains[other].uuid != cmd.vm
    ensures AdvanceAll(Progress(Task(cmd, At(Begin)), domains, []), SMOOTH)
         == Progress(Task(cmd, At(Finished)), domains[cmd.name := Domain(cmd.vm, On)],
                     [Report(cmd.vm, Pending, None), Report(cmd.vm, Running, Some(cmd.ip))])
  {
    BootingCreate(cmd, domains);
    AdvanceLast(Progress(Task(cmd, At(Begin)), domains, []), BOOTING, Act(Success));
  }

  lemma TwoReports(t: Tables, x: Uuid, ip: Address)
    requires x in t.instances
    ensures Told(t, [Report(x, Pending, None), Report(x, Running, Some(ip))])
         == t.(instances := t.instances[x := t.instances[x].(status := Running, ip := Some(ip))])
  {
    var first, both := [Report(x, Pending, None)], [Report(x, Pending, None), Report(x, Running, Some(ip))];
    var row := t.instances[x];
    assert Told(t, first) == UpdateVmStatus(t, x, Pending, None) by {
      assert first[..0] == [];
    }
    assert Told(t, both) == UpdateVmStatus(Told(t, first), x, Running, Some(ip)) by {
      assert both[..1] == first;
    }
    assert t.instances[x := row.(status := Pending)][x := row.(status := Running, ip := Some(ip))]
        == t.instances[x := row.(status := Running, ip := Some(ip))];
  }

  /** The goroutine of the command defines and boots the domain, and reports. */
  lemma Executed(c: Scope, s: Cluster, node: Uuid, i: nat, cmd: Command) returns (t: Cluster)
    requires TaskAt(s, node, i) == Some(Task(cmd, At(Begin))) && cmd.CreateVm? && cmd.vm in s.tables.instances
    requires var domains := AgentAt(s, HostOf(s, node)).domains;
             cmd.name !in domains && forall other | other in domains :: domains[other].uuid != cmd.vm
    ensures Connected(c, s, t)
    ensures t.tables.instances
         == s.tables.instances[cmd.vm := s.tables.instances[cmd.vm].(status := Running, ip := Some(cmd.ip))]
    ensures AgentAt(t, HostOf(t, node)).domains == AgentAt(s, HostOf(s, node)).domains[cmd.name := Domain(cmd.vm, On)]
    ensures SameStreams(s, t) && (QuietBut(Chan(s, node), i) ==> Quiet(Chan(t, node)))
    ensures t.tables.vpcs == s.tables.vpcs && t.tables.nodes == s.tables.nodes
  {
    var domains := AgentAt(s, HostOf(s, node)).domains;
    var p := Progress(Task(cmd, At(Begin)), domains, []);
    SmoothCreate(cmd, domains);
    t := Led(c, s, node, i, s.tables, p, SMOOTH);
    TwoReports(s.tables, cmd.vm, cmd.ip);
  }

  /** The goroutine goes along these host steps. */
  lemma Led(c: Scope, s: Cluster, node: Uuid, i: nat, tables: Tables, p: Progress, hs: seq<HostStep>)
    returns (t: Cluster)
    requires Mirrors(s, node, i, tables, p) && NoDrift(hs)
    ensures Connected(c, s, t) && Mirrors(t, node, i, tables, AdvanceAll(p, hs))
    ensures SameStreams(s, t) && t.book == s.book && SameElsewhere(Chan(s, node), Chan(t, node), i)
  {
    var steps;
    steps, t := AdvanceAllRuns(s, node, i, tables, p, hs);
    GoroutineWithin(c, steps, hs);
    Connects(c, s, steps);
  }

  lemma GoroutineWithin(c: Scope, steps: seq<Step>, hs: seq<HostStep>)
    requires OfGoroutine(steps, hs) && NoDrift(hs)
    ensures AllWithin(c, steps)
  {
    forall k | 0 <= k < |steps| ensures Within(c, steps[k]) {
      assert steps[k].Work? || steps[k].Deliver?;
    }
  }

  /** Nothing is on its way to the handler, and every goroutine is at its end. */
  predicate Quiet(c: C.Channel) {
    c.queue == [] && c.flight == [] && forall k | 0 <= k < |c.tasks| :: c.tasks[k].pc == At(Finished)
  }

  /** But for goroutine i. */
  predicate QuietBut(c: C.Channel, i: nat) {
    c.queue == [] && c.flight == [] && forall k | 0 <= k < |c.tasks| && k != i :: c.tasks[k].pc == At(Finished)
  }

  /** The command queued last is sent, and begun by a goroutine of its own. */
  lemma Handed(c: Scope, s: Cluster, node: Uuid, queue: seq<Command>, cmd: Command, stats: NodeStats)
    returns (t: Cluster, i: nat)
    requires Chan(s, node).queue == queue + [cmd] && AgentAt(s, HostOf(s, node)).session == Some(node)
    ensures Connected(c, s, t) && SameAgents(s, t) && SameService(s, t)
    ensures t.tables == UpdateHeartbeat(s.tables, node, stats, s.now)
    ensures TaskAt(t, node, i) == Some(Task(cmd, At(Begin)))
    ensures Quiet(Chan(s, node).(queue := queue)) ==> QuietBut(Chan(t, node), i)
  {
    var u := Flushed(c, s, node, stats);
    t := AllBegun(c, u, node);
    i := LastBegun(Chan(u, node), Chan(s, node), queue, cmd, Chan(t, node).tasks);
    Transitive(c, s, u, t);
  }

  /** From the request to its goroutine. */
  lemma Arrived(c: Scope, s: Cluster, op: OpId, req: Request, node: Uuid, id: Uuid, plan: Plan, stats: NodeStats)
    returns (t: Cluster, i: nat)
    requires MayCreate(s, op, req, node, id) && plan == PlanOf(s.tables, req, node) && id in c.ids
    requires AgentAt(s, HostOf(s, node)).session == Some(node)
    ensures Connected(c, s, t) && SameAgents(s, t) && t.ops == s.ops && t.now == s.now
    ensures t.tables == UpdateHeartbeat(Created(s.tables, id, plan), node, stats, s.now)
    ensures TaskAt(t, node, i) == Some(Task(CreateCommand(plan, id), At(Begin)))
    ensures Quiet(Chan(s, node)) ==> QuietBut(Chan(t, node), i)
  {
    var u := Requested(c, s, op, req, node, id, plan);
    t, i := Handed(c, u, node, Chan(s, node).queue, CreateCommand(plan, id), stats);
    Transitive(c, s, u, t);
  }

  lemma LastBegun(d: C.Channel, c: C.Channel, queue: seq<Command>, cmd: Command, tasks: seq<Task>) returns (i: nat)
    requires c.queue == queue + [cmd] && d.flight == c.flight + c.queue && tasks == d.tasks + Begun(d.flight)
    ensures i < |tasks| && tasks[i] == Task(cmd, At(Begin))
    ensures c.flight == [] && queue == [] ==> i == |d.tasks| && |tasks| == i + 1
  {
    i := |tasks| - 1;
    assert d.flight[|d.flight| - 1] == cmd;
  }

  /** From any state in which a request may be served: whatever else is queued, in flight
      or executing, some run ends with a running domain of that name on the chosen node's
      host, and a row that says running and has the address allocated for it. */
  lemma CreateCanSucceed(c: Scope, s: Cluster, op: OpId, req: Request, node: Uuid, id: Uuid, stats: NodeStats)
    returns (t: Cluster)
    requires AgentsBorn(s) && MayCreate(s, op, req, node, id) && id in c.ids
    requires AgentAt(s, HostOf(s, node)).session == Some(node) && req.name !in AgentAt(s, HostOf(s, node)).domains
    ensures Connected(c, s, t)
    ensures var plan := PlanOf(s.tables, req, node);
            && id in t.tables.instances
            && t.tables.instances[id] == CreatedRow(plan).(status := Running)
            && AgentAt(t, HostOf(t, node)).domains == AgentAt(s, HostOf(s, node)).domains[req.name := Domain(id, On)]
    ensures SameStreams(s, t) && (Quiet(Chan(s, node)) ==> Quiet(Chan(t, node)))
    ensures t.tables.vpcs == s.tables.vpcs && t.tables.nodes == UpdateHeartbeat(s.tables, node, stats, s.now).nodes
  {
    var plan := PlanOf(s.tables, req, node);
    Unused(s, HostOf(s, node), id);
    var s1, i := Arrived(c, s, op, req, node, id, plan, stats);
    assert HostOf(s1, node) == HostOf(s, node);
    t := Executed(c, s1, node, i, CreateCommand(plan, id));
    Transitive(c, s, s1, t);
  }

  lemma Unused(s: Cluster, a: string, id: Uuid)
    requires AgentsBorn(s) && id !in s.book.births
    ensures forall name | name in AgentAt(s, a).domains :: AgentAt(s, a).domains[name].uuid != id
  {
    assert AgentBorn(s.book, a, AgentAt(s, a));
    forall name | name in AgentAt(s, a).domains ensures AgentAt(s, a).domains[name].uuid != id {
      assert DomainBorn(s.book, a, name, AgentAt(s, a).domains[name]);
    }
  }
}
