/** A start, stop or delete can always be carried through: when the agent of the instance's
    node holds its stream and the host cooperates, some faultless run that begins with the
    request ends with the domain and the row that it asked for. */
module Lifecycles {
  import opened Wrappers
  import opened Uuids
  import opened Schema
  import opened Commands
  import opened Executor
  import opened Protocol
  import opened Refinement
  import opened Goroutines
  import opened EndToEnd
  import C = Channels

  /** No instance is inserted, none is asked for, and nothing is listed. */
  const NOTHING_ELSE := Scope({}, false)

  /** Some faultless run without another request leads from the request to this state. */
  ghost predicate Carries(s: Cluster, ask: Step, t: Cluster) {
    Enabled(s, ask) && Connected(NOTHING_ELSE, Apply(s, ask), t)
  }

  lemma Widened(c: Scope, s: Cluster, t: Cluster)
    requires Connected(NOTHING_ELSE, s, t)
    ensures Connected(c, s, t)
  {
    var steps: seq<Step> :| Takes(s, steps, t) && AllWithin(NOTHING_ELSE, steps);
    forall i | 0 <= i < |steps| ensures Within(c, steps[i]) {
      assert Within(NOTHING_ELSE, steps[i]);
    }
  }

  /* ---- the request is served ---- */

  lemma MarkStepsOfApi(op: OpId, ask: Ask)
    ensures AllWithin(NOTHING_ELSE, MarkSteps(op, ask, Saves(true, true)))
    ensures forall i | 0 <= i < |MarkSteps(op, ask, Saves(true, true))| ::
              OfApi(MarkSteps(op, ask, Saves(true, true))[i])
  {
  }

  lemma Read(s: Cluster, op: OpId, ask: Ask, id: Uuid, node: Uuid) returns (u: Cluster)
    requires op !in s.ops && id in s.tables.instances && s.tables.instances[id].vpc in s.tables.vpcs
    ensures Enabled(s, AskFor(op, ask, id)) && u == Apply(s, AskFor(op, ask, id)) && u.tables == s.tables
    ensures u.ops == s.ops[op := Asked(TargetOf(s.tables, ask, id))] && u.now == s.now
    ensures SameAgents(s, u) && Chan(u, node) == Chan(s, node)
  {
    var step := AskFor(op, ask, id);
    u := Apply(s, step);
    ApiSpares(s, step, node);
    ChannelAfter(s, step, node);
  }

  lemma MarkedAndSent(s: Cluster, op: OpId, target: Target) returns (t: Cluster)
    requires op in s.ops && s.ops[op] == Asked(target)
    ensures Connected(NOTHING_ELSE, s, t) && SameAgents(s, t) && t.ops == s.ops - {op} && t.now == s.now
    ensures t.tables == AfterAsk(s.tables, target.ask, target.id, Saves(true, true))
    ensures SameDelivery(Chan(s, target.node), Chan(t, target.node))
    ensures Chan(t, target.node).queue == Chan(s, target.node).queue + [AskedCommand(target)]
  {
    var steps := MarkSteps(op, target.ask, Saves(true, true));
    QueuesShow(s);
    MarkRuns(s, op, target, Saves(true, true), QueuesOf(s));
    t := After(s, steps);
    MarkStepsOfApi(op, target.ask);
    Connects(NOTHING_ELSE, s, steps);
    ApiRunSpares(s, steps, target.node);
    PushedLast(s, t, target.node, AskedCommand(target));
  }

  /** The row is marked, and the command is queued last. */
  lemma Served(s: Cluster, op: OpId, ask: Ask, id: Uuid) returns (t: Cluster)
    requires op !in s.ops && id in s.tables.instances && s.tables.instances[id].vpc in s.tables.vpcs
    ensures var target := TargetOf(s.tables, ask, id);
            && Carries(s, AskFor(op, ask, id), t) && SameAgents(s, t) && t.ops == s.ops && t.now == s.now
            && t.tables == AfterAsk(s.tables, ask, id, Saves(true, true))
            && SameDelivery(Chan(s, target.node), Chan(t, target.node))
            && Chan(t, target.node).queue == Chan(s, target.node).queue + [AskedCommand(target)]
  {
    var target := TargetOf(s.tables, ask, id);
    var u := Read(s, op, ask, id, target.node);
    t := MarkedAndSent(u, op, target);
    OpEnds(s.ops, op, Asked(target));
    SparesTransitive(s, u, t, target.node);
  }

  lemma OpEnds(ops: map<OpId, Op>, op: OpId, o: Op)
    requires op !in ops
    ensures ops[op := o] - {op} == ops
  {
  }

  lemma SparesTransitive(s: Cluster, u: Cluster, t: Cluster, node: Uuid)
    requires SameAgents(s, u) && SameAgents(u, t)
    requires SameDelivery(Chan(s, node), Chan(u, node)) && SameDelivery(Chan(u, node), Chan(t, node))
    ensures SameAgents(s, t) && SameDelivery(Chan(s, node), Chan(t, node))
  {
  }

  /** The same within any scope that has the instance. */
  lemma AskServed(c: Scope, s: Cluster, op: OpId, ask: Ask, id: Uuid) returns (t: Cluster)
    requires op !in s.ops && id in s.tables.instances && s.tables.instances[id].vpc in s.tables.vpcs && id in c.ids
    ensures var target := TargetOf(s.tables, ask, id);
            && Connected(c, s, t) && SameAgents(s, t) && t.ops == s.ops
            && t.tables == AfterAsk(s.tables, ask, id, Saves(true, true))
            && SameDelivery(Chan(s, target.node), Chan(t, target.node))
            && Chan(t, target.node).queue == Chan(s, target.node).queue + [AskedCommand(target)]
  {
    t := Served(s, op, ask, id);
    StepConnects(c, s, AskFor(op, ask, id));
    Widened(c, Apply(s, AskFor(op, ask, id)), t);
    Transitive(c, s, Apply(s, AskFor(op, ask, id)), t);
  }

  /** And then its goroutine begins. */
  lemma AskArrived(s: Cluster, op: OpId, ask: Ask, id: Uuid, stats: NodeStats) returns (t: Cluster, i: nat)
    requires op !in s.ops && id in s.tables.instances && s.tables.instances[id].vpc in s.tables.vpcs
    requires AgentAt(s, HostOf(s, s.tables.instances[id].node)).session == Some(s.tables.instances[id].node)
    ensures var target := TargetOf(s.tables, ask, id);
            && Carries(s, AskFor(op, ask, id), t) && SameAgents(s, t) && t.ops == s.ops && t.now == s.now
            && t.tables == UpdateHeartbeat(AfterAsk(s.tables, ask, id, Saves(true, true)), target.node, stats, s.now)
            && TaskAt(t, target.node, i) == Some(Task(AskedCommand(target), At(Begin)))
            && (Quiet(Chan(s, target.node)) ==> QuietBut(Chan(t, target.node), i))
  {
    var target := TargetOf(s.tables, ask, id);
    var u := Served(s, op, ask, id);
    t, i := Handed(NOTHING_ELSE, u, target.node, Chan(s, target.node).queue, AskedCommand(target), stats);
    Transitive(NOTHING_ELSE, Apply(s, AskFor(op, ask, id)), u, t);
  }

  /* ---- the goroutines of the three commands when the host cooperates ---- */

  const DELETING := [Act(Success), Act(Success)]
  const STOPPING := [Act(Success), Act(Success), Act(Success)]
  const STARTING := [Act(Success), Act(Success), Act(Success), Act(Success)]

  lemma SmoothDelete(cmd: Command, domains: Domains)
    requires cmd.DeleteVm?
    ensures AdvanceAll(Progress(Task(cmd, At(Begin)), domains, []), DELETING)
         == Progress(Task(cmd, At(Finished)), domains - {cmd.name}, [])
  {
    assert DELETING[1..][1..] == [];
  }

  lemma SmoothStop(cmd: Command, domains: Domains)
    requires cmd.StopVm? && Active(domains, cmd.name)
    ensures AdvanceAll(Progress(Task(cmd, At(Begin)), domains, []), STOPPING)
         == Progress(Task(cmd, At(Finished)), SetState(domains, cmd.name, Off), [Report(cmd.vm, Stopped, None)])
  {
    assert STOPPING[1..][1..][1..] == [];
  }

  lemma SmoothStart(cmd: Command, domains: Domains)
    requires cmd.StartVm? && Bootable(domains, cmd.name)
    ensures AdvanceAll(Progress(Task(cmd, At(Begin)), domains, []), STARTING)
         == Progress(Task(cmd, At(Finished)), SetState(domains, cmd.name, On), [Report(cmd.vm, Running, None)])
  {
    assert STARTING[1..][1..][1..][1..] == [];
  }

  /** A goroutine that ends with these domains and makes at most one report. */
  lemma Ended(c: Scope, s: Cluster, node: Uuid, i: nat, cmd: Command, hs: seq<HostStep>, domains': Domains,
              reports: seq<Report>) returns (t: Cluster)
    requires TaskAt(s, node, i) == Some(Task(cmd, At(Begin))) && NoDrift(hs) && |reports| <= 1
    requires AdvanceAll(Progress(Task(cmd, At(Begin)), AgentAt(s, HostOf(s, node)).domains, []), hs)
          == Progress(Task(cmd, At(Finished)), domains', reports)
    ensures Connected(c, s, t) && SameStreams(s, t) && AgentAt(t, HostOf(t, node)).domains == domains'
    ensures QuietBut(Chan(s, node), i) ==> Quiet(Chan(t, node))
    ensures t.tables == if reports == [] then s.tables
                        else UpdateVmStatus(s.tables, reports[0].vm, reports[0].status, reports[0].ip)
  {
    var p := Progress(Task(cmd, At(Begin)), AgentAt(s, HostOf(s, node)).domains, []);
    t := Led(c, s, node, i, s.tables, p, hs);
    if reports != [] {
      assert reports[..0] == [] && Told(s.tables, []) == s.tables;
    }
  }

  /** The goroutine of a stop shuts the domain down and reports it. */
  lemma Halted(c: Scope, s: Cluster, node: Uuid, i: nat, cmd: Command) returns (t: Cluster)
    requires TaskAt(s, node, i) == Some(Task(cmd, At(Begin))) && cmd.StopVm?
    requires Active(AgentAt(s, HostOf(s, node)).domains, cmd.name)
    ensures Connected(c, s, t) && SameStreams(s, t) && t.tables == UpdateVmStatus(s.tables, cmd.vm, Stopped, None)
    ensures AgentAt(t, HostOf(t, node)).domains == SetState(AgentAt(s, HostOf(s, node)).domains, cmd.name, Off)
    ensures QuietBut(Chan(s, node), i) ==> Quiet(Chan(t, node))
  {
    var domains := AgentAt(s, HostOf(s, node)).domains;
    SmoothStop(cmd, domains);
    t := Ended(c, s, node, i, cmd, STOPPING, SetState(domains, cmd.name, Off), [Report(cmd.vm, Stopped, None)]);
  }

  /** The goroutine of a start boots the domain and reports it. */
  lemma Booted(c: Scope, s: Cluster, node: Uuid, i: nat, cmd: Command) returns (t: Cluster)
    requires TaskAt(s, node, i) == Some(Task(cmd, At(Begin))) && cmd.StartVm?
    requires Bootable(AgentAt(s, HostOf(s, node)).domains, cmd.name)
    ensures Connected(c, s, t) && SameStreams(s, t) && t.tables == UpdateVmStatus(s.tables, cmd.vm, Running, None)
    ensures AgentAt(t, HostOf(t, node)).domains == SetState(AgentAt(s, HostOf(s, node)).domains, cmd.name, On)
    ensures QuietBut(Chan(s, node), i) ==> Quiet(Chan(t, node))
  {
    var domains := AgentAt(s, HostOf(s, node)).domains;
    SmoothStart(cmd, domains);
    t := Ended(c, s, node, i, cmd, STARTING, SetState(domains, cmd.name, On), [Report(cmd.vm, Running, None)]);
  }

  /* ---- the three requests ---- */

  /** The instance can be asked for, and the agent of its node holds its stream. */
  ghost predicate Askable(s: Cluster, op: OpId, x: Uuid) {
    && op !in s.ops && x in s.tables.instances && s.tables.instances[x].vpc in s.tables.vpcs
    && AgentAt(s, HostOf(s, s.tables.instances[x].node)).session == Some(s.tables.instances[x].node)
  }

  /** The domains that the host of x has. */
  ghost function DomainsAround(s: Cluster, x: Uuid): Domains
    requires x in s.tables.instances
  {
    AgentAt(s, HostOf(s, s.tables.instances[x].node)).domains
  }

  /** What else a carried-out request leaves alone. */
  ghost predicate Undisturbed(s: Cluster, t: Cluster, node: Uuid) {
    SameStreams(s, t) && (Quiet(Chan(s, node)) ==> Quiet(Chan(t, node))) && t.tables.vpcs == s.tables.vpcs
  }

  lemma CarriesOn(s: Cluster, ask: Step, u: Cluster, t: Cluster, node: Uuid, i: nat)
    requires Carries(s, ask, u) && Connected(NOTHING_ELSE, u, t)
    requires SameAgents(s, u) && u.ops == s.ops && u.now == s.now && SameStreams(u, t) && t.tables.vpcs == s.tables.vpcs
    requires Quiet(Chan(s, node)) ==> QuietBut(Chan(u, node), i)
    requires QuietBut(Chan(u, node), i) ==> Quiet(Chan(t, node))
    ensures Carries(s, ask, t) && Undisturbed(s, t, node)
  {
    Transitive(NOTHING_ELSE, Apply(s, ask), u, t);
    forall a ensures SameStream(AgentAt(s, a), AgentAt(t, a)) {
      assert AgentAt(u, a) == AgentAt(s, a) && SameStream(AgentAt(u, a), AgentAt(t, a));
    }
  }

  /** A start: from any state in which the instance's domain can be booted, some faultless
      run that begins with the request, and in which no other one is served, ends with the
      domain on and the row running, without an address. */
  lemma StartCanSucceed(s: Cluster, op: OpId, x: Uuid, stats: NodeStats) returns (t: Cluster)
    requires Askable(s, op, x) && Bootable(DomainsAround(s, x), s.tables.instances[x].name)
    ensures Carries(s, AskFor(op, AskStart, x), t) && Undisturbed(s, t, s.tables.instances[x].node)
    ensures var row, domains := s.tables.instances[x], DomainsAround(s, x);
            && t.tables.instances == s.tables.instances[x := row.(status := Running, ip := None)]
            && DomainsAround(t, x) == domains[row.name := domains[row.name].(state := On)]
  {
    var row, cmd := s.tables.instances[x], AskedCommand(TargetOf(s.tables, AskStart, x));
    var u, i := AskArrived(s, op, AskStart, x, stats);
    assert HostOf(u, row.node) == HostOf(s, row.node);
    t := Booted(NOTHING_ELSE, u, row.node, i, cmd);
    RowTold(s.tables, AskStart, x, stats, s.now, Running);
    CarriesOn(s, AskFor(op, AskStart, x), u, t, row.node, i);
  }

  /** A stop: from any state in which the instance's domain is active, some such run ends
      with the domain off and the row stopped, without an address. */
  lemma StopCanSucceed(s: Cluster, op: OpId, x: Uuid, stats: NodeStats) returns (t: Cluster)
    requires Askable(s, op, x) && Active(DomainsAround(s, x), s.tables.instances[x].name)
    ensures Carries(s, AskFor(op, AskStop, x), t) && Undisturbed(s, t, s.tables.instances[x].node)
    ensures var row, domains := s.tables.instances[x], DomainsAround(s, x);
            && t.tables.instances == s.tables.instances[x := row.(status := Stopped, ip := None)]
            && DomainsAround(t, x) == domains[row.name := domains[row.name].(state := Off)]
  {
    var row, cmd := s.tables.instances[x], AskedCommand(TargetOf(s.tables, AskStop, x));
    var u, i := AskArrived(s, op, AskStop, x, stats);
    assert HostOf(u, row.node) == HostOf(s, row.node);
    t := Halted(NOTHING_ELSE, u, row.node, i, cmd);
    RowTold(s.tables, AskStop, x, stats, s.now, Stopped);
    CarriesOn(s, AskFor(op, AskStop, x), u, t, row.node, i);
  }

  /** A delete: from any state, some such run ends with the domain and the row gone. */
  lemma DeleteCanSucceed(s: Cluster, op: OpId, x: Uuid, stats: NodeStats) returns (t: Cluster)
    requires Askable(s, op, x)
    ensures Carries(s, AskFor(op, AskDelete, x), t) && Undisturbed(s, t, s.tables.instances[x].node)
    ensures t.tables.instances == s.tables.instances - {x}
    ensures var row := s.tables.instances[x];
            AgentAt(t, HostOf(t, row.node)).domains == DomainsAround(s, x) - {row.name}
  {
    var row, cmd := s.tables.instances[x], AskedCommand(TargetOf(s.tables, AskDelete, x));
    var u, i := AskArrived(s, op, AskDelete, x, stats);
    assert HostOf(u, row.node) == HostOf(s, row.node);
    var domains := DomainsAround(s, x);
    SmoothDelete(cmd, domains);
    t := Ended(NOTHING_ELSE, u, row.node, i, cmd, DELETING, domains - {row.name}, []);
    RowDropped(s.tables, x, stats, s.now);
    CarriesOn(s, AskFor(op, AskDelete, x), u, t, row.node, i);
  }

  /** The mark of a start or stop, and then the report. */
  lemma RowTold(t: Tables, ask: Ask, x: Uuid, stats: NodeStats, now: int, status: InstanceStatus)
    requires x in t.instances && !ask.AskDelete?
    ensures var asked := UpdateHeartbeat(AfterAsk(t, ask, x, Saves(true, true)), t.instances[x].node, stats, now);
            && UpdateVmStatus(asked, x, status, None).vpcs == t.vpcs
            && UpdateVmStatus(asked, x, status, None).instances
               == t.instances[x := t.instances[x].(status := status, ip := None)]
  {
    var row := t.instances[x];
    assert t.instances[x := row.(status := MarkOf(ask), ip := None)][x := row.(status := status, ip := None)]
        == t.instances[x := row.(status := status, ip := None)];
  }

  lemma RowDropped(t: Tables, x: Uuid, stats: NodeStats, now: int)
    requires x in t.instances
    ensures var asked := UpdateHeartbeat(AfterAsk(t, AskDelete, x, Saves(true, true)), t.instances[x].node, stats, now);
            asked.vpcs == t.vpcs && asked.instances == t.instances - {x}
  {
    var row := t.instances[x];
    assert t.instances[x := row.(status := MarkOf(AskDelete), ip := None)] - {x} == t.instances - {x};
  }
}
