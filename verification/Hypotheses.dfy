/** Why Status.StatusAgrees has its hypotheses: runs from the empty cluster in which nothing
    fails and nothing is lost, all the hypotheses but one hold, and the row of an instance
    comes to say running while its domain is off. */
module Hypotheses {
  import opened Wrappers
  import opened Uuids
  import opened Schema
  import opened Commands
  import opened Executor
  import opened Protocol
  import opened Ledger
  import opened Refinement
  import opened Goroutines
  import opened EndToEnd
  import opened Lifecycles
  import opened Scenarios
  import Status
  import C = Channels

  /** The row says running and the domain is off. */
  ghost predicate Disagrees(s: Cluster, x: Uuid) {
    && x in s.tables.instances && s.tables.instances[x].status == Running
    && x in s.book.births && Status.DomainOf(s, x) == Some(Off)
  }

  /** All the hypotheses but one thing at a time, and nothing is lost either. */
  ghost predicate NamesKept(s: Cluster, steps: seq<Step>, x: Uuid)
    requires Run(s, steps)
    decreases |steps|
  {
    && (x in s.book.births ==> Status.NameOwned(s, x))
    && (steps == [] ||
         (Faultless(steps[0]) && !Status.Disturbs(s, steps[0], x) && NamesKept(Apply(s, steps[0]), steps[1..], x)))
  }

  /** All the hypotheses but the name, and nothing is lost either. */
  ghost predicate OneKept(s: Cluster, steps: seq<Step>, x: Uuid)
    requires Run(s, steps)
    decreases |steps|
  {
    && (x in s.book.births ==> Status.OneAtATime(s, x))
    && (steps == [] ||
         (Faultless(steps[0]) && !Status.Disturbs(s, steps[0], x) && OneKept(Apply(s, steps[0]), steps[1..], x)))
  }

  lemma FaultlessSpares(s: Cluster, step: Step, x: Uuid)
    requires Enabled(s, step) && Faultless(step)
    ensures !Status.Disturbs(s, step, x)
  {
  }

  /* ---- the only instance ---- */

  /** When no other instance was ever inserted, the name is owned. */
  lemma OnlyBearer(s: Cluster, x: Uuid)
    requires Inv(s) && x in s.book.births && s.book.births.Keys <= {x}
    ensures Status.NameOwned(s, x)
  {
    var name := s.book.births[x].name;
    forall n, i | HostOf(s, n) == HostOf(s, Status.Home(s, x)) && 0 <= i < |Chan(s, n).tasks|
      ensures Status.NamesOnly(Chan(s, n).tasks[i], name, x)
    {
      assert ChannelBorn(s.book, n, Chan(s, n));
      assert TaskBorn(s.book, n, Chan(s, n).tasks[i]);
    }
    var a := HostOf(s, Status.Home(s, x));
    assert AgentBorn(s.book, a, AgentAt(s, a));
    assert name in AgentAt(s, a).domains ==> DomainBorn(s.book, a, name, AgentAt(s, a).domains[name]);
  }

  lemma {:induction false} OnlyOneKeepsNames(x: Uuid, lists: bool, s: Cluster, steps: seq<Step>)
    requires Inv(s) && Run(s, steps) && AllWithin(Scope({x}, lists), steps) && s.book.births.Keys <= {x}
    ensures NamesKept(s, steps, x)
    decreases |steps|
  {
    if x in s.book.births {
      OnlyBearer(s, x);
    }
    if steps != [] {
      assert Within(Scope({x}, lists), steps[0]);
      BirthsStep(Scope({x}, lists), s, steps[0]);
      FaultlessSpares(s, steps[0], x);
      InvStep(s, steps[0]);
      assert AllWithin(Scope({x}, lists), steps[1..]);
      OnlyOneKeepsNames(x, lists, Apply(s, steps[0]), steps[1..]);
    }
  }

  /* ---- one thing at a time ---- */

  /** An agent lists its domains while x runs, x is then stopped in the ordinary way, and
      the listed report arrives last. */
  lemma StaleReconciliation(c: Scope, s: Cluster, x: Uuid, op: OpId, stats: NodeStats) returns (t: Cluster)
    requires c.lists && x in c.ids && op !in s.ops
    requires x in s.tables.instances && s.tables.instances[x].vpc in s.tables.vpcs
    requires var row := s.tables.instances[x];
             var agent := AgentAt(s, HostOf(s, row.node));
             && row.status == Running && agent.session == Some(row.node) && agent.listing == []
             && row.name in agent.domains && agent.domains[row.name] == Domain(x, On)
    ensures var row := s.tables.instances[x];
            && Connected(c, s, t) && x in t.tables.instances && t.tables.instances[x] == row.(ip := None)
            && HostOf(t, row.node) == HostOf(s, row.node)
            && AgentAt(t, HostOf(s, row.node)).domains
               == AgentAt(s, HostOf(s, row.node)).domains[row.name := Domain(x, Off)]
  {
    var row := s.tables.instances[x];
    var a, cmd := HostOf(s, row.node), StopVm(x, row.name, false);
    var s1 := Listed(c, s, a, row.name);
    var s2 := AskServed(c, s1, op, AskStop, x);
    var s3, i := Handed(c, s2, row.node, Chan(s1, row.node).queue, cmd, stats);
    assert AgentAt(s3, a) == AgentAt(s1, a) && HostOf(s3, row.node) == a;
    var s4 := Halted(c, s3, row.node, i, cmd);
    assert SameStream(AgentAt(s3, a), AgentAt(s4, a));
    t := ListedReport(c, s4, a, Report(x, Running, None));
    Transitive(c, s, s1, s2);
    Transitive(c, s, s2, s3);
    Transitive(c, s, s3, s4);
    Transitive(c, s, s4, t);
  }

  /** The row and the domain of x are those of its birth. */
  lemma ReadsDisagreement(c: Scope, t: Cluster, x: Uuid, node: Uuid, name: string)
    requires Reachable(c, t) && x in t.tables.instances && t.tables.instances[x].status == Running
    requires t.tables.instances[x].node == node && t.tables.instances[x].name == name
    requires name in AgentAt(t, HostOf(t, node)).domains && AgentAt(t, HostOf(t, node)).domains[name] == Domain(x, Off)
    ensures Disagrees(t, x)
  {
    ReachableInv(c, t);
    assert RowBorn(t.book, x, t.tables.instances[x]);
  }

  lemma VpcExists(c: Scope, s: Cluster, id: Uuid)
    requires Reachable(c, s) && id in s.tables.instances
    ensures s.tables.instances[id].vpc in s.tables.vpcs
  {
    ReachableInv(c, s);
  }

  /** Without one thing at a time: a run from the empty cluster, in which nothing fails or is
      lost, no guest acts by itself and the name is owned throughout, ends in a
      disagreement. */
  lemma OneAtATimeNeeded(u: Setup, req: Request, x: Uuid) returns (steps: seq<Step>)
    requires Usable(u) && Serves(u, req)
    ensures Run(INITIAL, steps) && NamesKept(INITIAL, steps, x) && Disagrees(After(INITIAL, steps), x)
  {
    var c := Scope({x}, true);
    var s := Carried(c, u, req, 0, x);
    VpcExists(c, s, x);
    var t := StaleReconciliation(c, s, x, 0, u.stats);
    ReachableOn(c, s, t);
    ReadsDisagreement(c, t, x, u.node, req.name);
    steps :| Takes(INITIAL, steps, t) && AllWithin(c, steps);
    InvInitial();
    OnlyOneKeepsNames(x, true, INITIAL, steps);
  }

  /* ---- the name ---- */

  /** Nothing is being done to x. */
  ghost predicate Idle(s: Cluster, x: Uuid)
    requires x in s.book.births
  {
    IdleIn(s.ops, Chan(s, Status.Home(s, x)), Status.HomeAgent(s, x).listing, x)
  }

  ghost predicate IdleIn(ops: map<OpId, Op>, c: C.Channel, listing: seq<Report>, x: Uuid) {
    && (forall op | op in ops :: !Status.Serving(ops[op], x))
    && ChannelIdle(c, x)
    && (forall i | 0 <= i < |listing| :: listing[i].vm != x)
  }

  predicate ChannelIdle(c: C.Channel, x: Uuid) {
    && (forall i | 0 <= i < |c.queue| :: !Concerns(c.queue[i], x))
    && (forall i | 0 <= i < |c.flight| :: !Concerns(c.flight[i], x))
    && (forall i | 0 <= i < |c.tasks| :: !Status.Busy(c.tasks[i], x))
  }

  lemma IdleIsOne(s: Cluster, x: Uuid)
    requires x in s.book.births && Idle(s, x)
    ensures Status.OneAtATime(s, x)
  {
  }

  lemma OpsStayIdle(c: Scope, s: Cluster, step: Step, x: Uuid)
    requires Enabled(s, step) && Within(c, step) && x !in c.ids
    requires forall op | op in s.ops :: !Status.Serving(s.ops[op], x)
    ensures forall op | op in NextOps(s, step) :: !Status.Serving(NextOps(s, step)[op], x)
  {
  }

  /** What a step does to the channel concerns x only if a request for x sent it. */
  lemma PushIsElsewhere(s: Cluster, step: Step, n: Uuid, x: Uuid)
    requires Enabled(s, step) && forall op | op in s.ops :: !Status.Serving(s.ops[op], x)
    ensures var cs := OnChannel(s, step, n);
            && (cs.Some? && cs.value.Push? ==> !Concerns(cs.value.cmd, x))
            && (cs.Some? && cs.value.Move? ==>
                  cs.value.i < |Chan(s, n).tasks| && Chan(s, n).tasks[cs.value.i].pc != At(Finished))
  {
  }

  lemma ChannelStaysIdle(c: C.Channel, cs: C.ChannelStep, x: Uuid)
    requires C.Enabled(c, cs) && ChannelIdle(c, x)
    requires cs.Push? ==> !Concerns(cs.cmd, x)
    requires cs.Move? ==> c.tasks[cs.i].pc != At(Finished)
    ensures ChannelIdle(C.Next(c, cs), x)
  {
    var d := C.Next(c, cs);
    if cs.Finish? {
      forall i | 0 <= i < |d.tasks| ensures !Status.Busy(d.tasks[i], x) {
        assert d.tasks[i] == c.tasks[if i < cs.i then i else i + 1];
      }
    }
  }

  lemma ListingStaysIdle(c: Scope, s: Cluster, step: Step, a: string, x: Uuid)
    requires Enabled(s, step) && Within(c, step) && !c.lists
    requires forall i | 0 <= i < |AgentAt(s, a).listing| :: AgentAt(s, a).listing[i].vm != x
    ensures forall i | 0 <= i < |NextAgent(s, step, a).listing| :: NextAgent(s, step, a).listing[i].vm != x
  {
  }

  lemma IdleInStep(c: Scope, s: Cluster, step: Step, n: Uuid, a: string, x: Uuid)
    requires Enabled(s, step) && Within(c, step) && x !in c.ids && !c.lists
    requires IdleIn(s.ops, Chan(s, n), AgentAt(s, a).listing, x)
    ensures IdleIn(NextOps(s, step), Moved(s, step, n), NextAgent(s, step, a).listing, x)
  {
    OpsStayIdle(c, s, step, x);
    PushIsElsewhere(s, step, n, x);
    if OnChannel(s, step, n).Some? {
      ChannelStaysIdle(Chan(s, n), OnChannel(s, step, n).value, x);
    }
    ListingStaysIdle(c, s, step, a, x);
  }

  lemma IdleStep(c: Scope, s: Cluster, step: Step, x: Uuid)
    requires Enabled(s, step) && Inv(s) && Within(c, step) && x !in c.ids && !c.lists
    requires x in s.book.births && Idle(s, x)
    ensures x in Apply(s, step).book.births && Idle(Apply(s, step), x)
  {
    Status.SameHome(s, step, x);
    IdleInStep(c, s, step, Status.Home(s, x), HostOf(s, Status.Home(s, x)), x);
  }

  /** While requests concern others, one thing at a time holds of x. */
  lemma {:induction false} OthersKeepIdle(c: Scope, s: Cluster, steps: seq<Step>, x: Uuid)
    requires Inv(s) && Run(s, steps) && AllWithin(c, steps) && x !in c.ids && !c.lists
    requires x in s.book.births && Idle(s, x)
    ensures OneKept(s, steps, x)
    decreases |steps|
  {
    IdleIsOne(s, x);
    if steps != [] {
      assert Within(c, steps[0]);
      IdleStep(c, s, steps[0], x);
      FaultlessSpares(s, steps[0], x);
      InvStep(s, steps[0]);
      assert AllWithin(c, steps[1..]);
      OthersKeepIdle(c, Apply(s, steps[0]), steps[1..], x);
    }
  }

  const FAILING := [Act(Success), Act(Success), Act(Success), Act(Success), Act(Success), Act(Success)]

  /** A create whose name belongs to another instance's domain fails at its definition. */
  lemma FailingCreate(cmd: Command, domains: Domains)
    requires cmd.CreateVm? && cmd.name in domains && domains[cmd.name].uuid != cmd.vm
    ensures AdvanceAll(Progress(Task(cmd, At(Begin)), domains, []), FAILING)
         == Progress(Task(cmd, At(Finished)), domains,
                     [Report(cmd.vm, Pending, None), Report(cmd.vm, Failed, None)])
  {
    var p := Progress(Task(cmd, At(Begin)), domains, []);
    var q := Progress(Task(cmd, At(Define)), domains, [Report(cmd.vm, Pending, None)]);
    assert AdvanceAll(p, FAILING) == AdvanceAll(q, FAILING[4..]) by {
      assert Advance(Advance(Advance(Advance(p, Act(Success)), Act(Success)), Act(Success)), Act(Success)) == q;
      assert FAILING[1..][1..][1..][1..] == FAILING[4..];
    }
    assert FAILING[4..][1..][1..] == [];
  }

  lemma FailedReports(t: Tables, y: Uuid)
    requires y in t.instances
    ensures Told(t, [Report(y, Pending, None), Report(y, Failed, None)])
         == t.(instances := t.instances[y := t.instances[y].(status := Failed)])
  {
    var first, both := [Report(y, Pending, None)], [Report(y, Pending, None), Report(y, Failed, None)];
    var row := t.instances[y];
    assert Told(t, first) == UpdateVmStatus(t, y, Pending, None) by {
      assert first[..0] == [];
    }
    assert Told(t, both) == UpdateVmStatus(Told(t, first), y, Failed, None) by {
      assert both[..1] == first;
    }
    assert t.instances[y := row.(status := Pending)][y := row.(status := Failed)]
        == t.instances[y := row.(status := Failed)];
  }

  /** The create of y ends in a failure; the domains stay. */
  lemma CreateFails(c: Scope, s: Cluster, op: OpId, req: Request, node: Uuid, y: Uuid, stats: NodeStats)
    returns (t: Cluster)
    requires MayCreate(s, op, req, node, y) && y in c.ids && AgentAt(s, HostOf(s, node)).session == Some(node)
    requires var domains := AgentAt(s, HostOf(s, node)).domains;
             req.name in domains && domains[req.name].uuid != y
    ensures Connected(c, s, t) && SameStreams(s, t)
    ensures AgentAt(t, HostOf(s, node)).domains == AgentAt(s, HostOf(s, node)).domains
    ensures var plan := PlanOf(s.tables, req, node);
            t.tables.vpcs == s.tables.vpcs
            && t.tables.instances == s.tables.instances[y := CreatedRow(plan).(status := Failed)]
  {
    var plan, a := PlanOf(s.tables, req, node), HostOf(s, node);
    var s1, i := Arrived(c, s, op, req, node, y, plan, stats);
    assert HostOf(s1, node) == a && AgentAt(s1, a) == AgentAt(s, a);
    t := FailsToDefine(c, s1, node, i, CreateCommand(plan, y));
    Transitive(c, s, s1, t);
    StreamsAfter(s, s1, t);
    FailedRow(s.tables, y, plan, node, stats, s.now);
  }

  lemma FailedRow(t: Tables, y: Uuid, plan: Plan, node: Uuid, stats: NodeStats, now: int)
    ensures var inserted := UpdateHeartbeat(Created(t, y, plan), node, stats, now);
            && y in inserted.instances && inserted.vpcs == t.vpcs
            && inserted.instances[y := inserted.instances[y].(status := Failed)]
               == t.instances[y := CreatedRow(plan).(status := Failed)]
  {
    assert t.instances[y := CreatedRow(plan)][y := CreatedRow(plan).(status := Failed)]
        == t.instances[y := CreatedRow(plan).(status := Failed)];
  }

  lemma StreamsAfter(s: Cluster, u: Cluster, t: Cluster)
    requires SameAgents(s, u) && u.ops == s.ops && u.now == s.now && SameStreams(u, t)
    ensures SameStreams(s, t)
  {
    forall a ensures SameStream(AgentAt(s, a), AgentAt(t, a)) {
      assert AgentAt(u, a) == AgentAt(s, a) && SameStream(AgentAt(u, a), AgentAt(t, a));
    }
  }

  /** The goroutine finds the name taken. */
  lemma FailsToDefine(c: Scope, s: Cluster, node: Uuid, i: nat, cmd: Command) returns (t: Cluster)
    requires TaskAt(s, node, i) == Some(Task(cmd, At(Begin))) && cmd.CreateVm? && cmd.vm in s.tables.instances
    requires var domains := AgentAt(s, HostOf(s, node)).domains;
             cmd.name in domains && domains[cmd.name].uuid != cmd.vm
    ensures Connected(c, s, t) && SameStreams(s, t)
    ensures AgentAt(t, HostOf(s, node)).domains == AgentAt(s, HostOf(s, node)).domains
    ensures t.tables
         == s.tables.(instances := s.tables.instances[cmd.vm := s.tables.instances[cmd.vm].(status := Failed)])
  {
    var domains := AgentAt(s, HostOf(s, node)).domains;
    FailingCreate(cmd, domains);
    t := Led(c, s, node, i, s.tables, Progress(Task(cmd, At(Begin)), domains, []), FAILING);
    FailedReports(s.tables, cmd.vm);
  }

  /** Another instance y of the same name and host: its creation fails, and stopping it turns
      the domain of x off. The row of x still says running. */
  lemma SharedName(c: Scope, s: Cluster, op: OpId, req: Request, node: Uuid, x: Uuid, y: Uuid, stats: NodeStats)
    returns (t: Cluster)
    requires MayCreate(s, op, req, node, y) && y in c.ids && x != y && x in s.tables.instances
    requires var agent := AgentAt(s, HostOf(s, node));
             && agent.session == Some(node) && req.name in agent.domains && agent.domains[req.name] == Domain(x, On)
    ensures Connected(c, s, t) && x in t.tables.instances && t.tables.instances[x] == s.tables.instances[x]
    ensures y in t.tables.instances && t.tables.instances[y].status == Stopped
    ensures HostOf(t, node) == HostOf(s, node)
    ensures AgentAt(t, HostOf(s, node)).domains == AgentAt(s, HostOf(s, node)).domains[req.name := Domain(x, Off)]
  {
    var a := HostOf(s, node);
    var s1 := CreateFails(c, s, op, req, node, y, stats);
    assert SameStream(AgentAt(s, a), AgentAt(s1, a)) && HostOf(s1, node) == a;
    t := StopsOther(c, s1, op, y, node, req.name, stats);
    Transitive(c, s, s1, t);
  }

  /** A stop of y turns the domain of its name off, whoever's it is. */
  lemma StopsOther(c: Scope, s: Cluster, op: OpId, y: Uuid, node: Uuid, name: string, stats: NodeStats)
    returns (t: Cluster)
    requires op !in s.ops && y in c.ids && y in s.tables.instances && s.tables.instances[y].vpc in s.tables.vpcs
    requires s.tables.instances[y].name == name && s.tables.instances[y].node == node
    requires AgentAt(s, HostOf(s, node)).session == Some(node) && Active(AgentAt(s, HostOf(s, node)).domains, name)
    ensures Connected(c, s, t) && HostOf(t, node) == HostOf(s, node)
    ensures t.tables.instances
         == s.tables.instances[y := s.tables.instances[y].(status := Stopped, ip := None)]
    ensures AgentAt(t, HostOf(s, node)).domains == SetState(AgentAt(s, HostOf(s, node)).domains, name, Off)
  {
    var a, cmd := HostOf(s, node), StopVm(y, name, false);
    var s2 := AskServed(c, s, op, AskStop, y);
    var s3, i := Handed(c, s2, node, Chan(s, node).queue, cmd, stats);
    assert AgentAt(s3, a) == AgentAt(s, a) && HostOf(s3, node) == a;
    t := Halted(c, s3, node, i, cmd);
    StoppedRow(s.tables, y, node, stats, s2.now);
    Transitive(c, s, s2, s3);
    Transitive(c, s, s3, t);
  }

  lemma StoppedRow(t: Tables, y: Uuid, node: Uuid, stats: NodeStats, now: int)
    requires y in t.instances
    ensures var asked := UpdateHeartbeat(AfterAsk(t, AskStop, y, Saves(true, true)), node, stats, now);
            UpdateVmStatus(asked, y, Stopped, None).instances
            == t.instances[y := t.instances[y].(status := Stopped, ip := None)]
  {
    var row := t.instances[y];
    assert t.instances[y := row.(status := Stopping, ip := None)][y := row.(status := Stopped, ip := None)]
        == t.instances[y := row.(status := Stopped, ip := None)];
  }

  /** The instance of a ready setup is idle. */
  lemma ReadyIsIdle(c: Scope, s: Cluster, u: Setup, name: string, x: Uuid)
    requires Reachable(c, s) && Ready(s, u) && Runs(s, u, name, x)
    ensures x in s.book.births && Idle(s, x) && Status.DomainOf(s, x) == Some(On)
  {
    BirthOf(c, s, x);
  }

  lemma BirthOf(c: Scope, s: Cluster, x: Uuid)
    requires Reachable(c, s) && x in s.tables.instances
    ensures x in s.book.births && s.book.births[x].node == s.tables.instances[x].node
    ensures s.book.births[x].name == s.tables.instances[x].name
  {
    ReachableInv(c, s);
    assert RowBorn(s.book, x, s.tables.instances[x]);
  }

  lemma Unborn(c: Scope, s: Cluster, y: Uuid)
    requires Reachable(c, s) && y !in c.ids
    ensures y !in s.book.births && y !in s.tables.instances
  {
    var steps: seq<Step> :| Takes(INITIAL, steps, s) && AllWithin(c, steps);
    BirthsRun(c, INITIAL, steps);
    ReachableInv(c, s);
    assert y in s.tables.instances ==> RowBorn(s.book, y, s.tables.instances[y]);
  }

  lemma {:induction false} NothingLate(c: Scope, s: Cluster, steps: seq<Step>)
    requires Run(s, steps) && AllWithin(c, steps) && s.late == multiset{}
    ensures After(s, steps).late == multiset{}
    decreases |steps|
  {
    if steps != [] {
      assert Within(c, steps[0]);
      assert AllWithin(c, steps[1..]);
      NothingLate(c, Apply(s, steps[0]), steps[1..]);
    }
  }

  /** All that StatusAgrees carries from state to state holds of an idle, running instance. */
  lemma IdleAgrees(c: Scope, s: Cluster, x: Uuid)
    requires Reachable(c, s) && x in s.book.births && Idle(s, x) && Status.DomainOf(s, x) == Some(On)
    requires x in s.tables.instances && s.tables.instances[x].status == Running
    ensures Status.Agrees(s, x)
  {
    var steps: seq<Step> :| Takes(INITIAL, steps, s) && AllWithin(c, steps);
    NothingLate(c, INITIAL, steps);
  }

  /** Without the name: from a reachable state in which x runs and all agrees, a run in which
      nothing fails or is lost, no guest acts by itself, and one thing at a time holds of x
      throughout, ends in a disagreement. */
  lemma NameNeeded(u: Setup, req: Request, x: Uuid, y: Uuid) returns (s: Cluster, steps: seq<Step>)
    requires Usable(u) && Serves(u, req) && x != y
    ensures Reachable(Scope({x}, false), s) && Runs(s, u, req.name, x) && Status.Agrees(s, x)
    ensures Run(s, steps) && OneKept(s, steps, x) && Disagrees(After(s, steps), x)
  {
    var c, d := Scope({x}, false), Scope({y}, false);
    s := Carried(c, u, req, 0, x);
    ReadyIsIdle(c, s, u, req.name, x);
    IdleAgrees(c, s, x);
    Unborn(c, s, y);
    MayServe(s, u, req, 0, y);
    var t := SharedName(d, s, 0, req, u.node, x, y, u.stats);
    steps :| Takes(s, steps, t) && AllWithin(d, steps);
    ReachableInv(c, s);
    OthersKeepIdle(d, s, steps, x);
    StillDisagrees(s, steps, x, u.node, req.name);
  }

  lemma StillDisagrees(s: Cluster, steps: seq<Step>, x: Uuid, node: Uuid, name: string)
    requires Inv(s) && Run(s, steps)
    requires var t := After(s, steps);
             && x in t.tables.instances && t.tables.instances[x].status == Running
             && t.tables.instances[x].node == node && t.tables.instances[x].name == name
             && name in AgentAt(t, HostOf(t, node)).domains
             && AgentAt(t, HostOf(t, node)).domains[name] == Domain(x, Off)
    ensures Disagrees(After(s, steps), x)
  {
    InvRun(s, steps);
    var t := After(s, steps);
    assert RowBorn(t.book, x, t.tables.instances[x]);
  }
}
