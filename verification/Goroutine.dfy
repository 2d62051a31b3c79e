/** What a goroutine does to the cluster: the executor's code, proved against the
    goroutines of the protocol, is a run of the protocol. */
module Goroutines {
  import opened Wrappers
  import opened Uuids
  import opened Schema
  import opened Commands
  import opened Executor
  import opened Protocol
  import C = Channels

  /** The table after these reports, in order. */
  function Told(t: Tables, reports: seq<Report>): Tables {
    if reports == [] then t
    else
      var r := reports[|reports| - 1];
      UpdateVmStatus(Told(t, reports[..|reports| - 1]), r.vm, r.status, r.ip)
  }

  /** Goroutine i of node n is where `p` is, sees its domains, and its reports have been
      written to the tables `t`. */
  ghost predicate Mirrors(s: Cluster, n: Uuid, i: nat, t: Tables, p: Progress) {
    && TaskAt(s, n, i) == Some(p.task)
    && AgentAt(s, HostOf(s, n)).domains == p.domains
    && s.tables == Told(t, p.reports)
  }

  /** The time, the requests, the owners of the nodes, sessions and listings. */
  ghost predicate SameStreams(s: Cluster, t: Cluster) {
    && t.now == s.now && t.ops == s.ops && t.book.owners == s.book.owners
    && forall a :: SameStream(AgentAt(s, a), AgentAt(t, a))
  }

  predicate SameStream(a: Agent, b: Agent) {
    b.session == a.session && b.listing == a.listing
  }

  lemma StreamsTransitive(s: Cluster, t: Cluster, u: Cluster)
    requires SameStreams(s, t) && SameStreams(t, u)
    ensures SameStreams(s, u)
  {
    forall a ensures SameStream(AgentAt(s, a), AgentAt(u, a)) {
      assert SameStream(AgentAt(s, a), AgentAt(t, a)) && SameStream(AgentAt(t, a), AgentAt(u, a));
    }
  }

  /** The channel but for goroutine i. */
  predicate SameElsewhere(c: C.Channel, d: C.Channel, i: nat) {
    && d.queue == c.queue && d.flight == c.flight && |d.tasks| == |c.tasks|
    && forall k | 0 <= k < |c.tasks| && k != i :: d.tasks[k] == c.tasks[k]
  }

  function StepFor(n: Uuid, i: nat, host: string, p: Progress, h: HostStep): Step {
    match h
    case Drift(name, state) => HostChange(host, name, state)
    case Act(outcome) => if p.task.pc.Reporting? then Deliver(n, i) else Work(n, i, outcome)
  }

  predicate Idle(p: Progress, h: HostStep) {
    h.Act? && p.task.pc == At(Finished)
  }

  lemma AdvanceRuns(s: Cluster, n: Uuid, i: nat, t: Tables, p: Progress, h: HostStep) returns (s': Cluster)
    requires Mirrors(s, n, i, t, p) && !Idle(p, h)
    ensures var step := StepFor(n, i, HostOf(s, n), p, h);
            Enabled(s, step) && s' == Apply(s, step) && HostOf(s', n) == HostOf(s, n)
    ensures Mirrors(s', n, i, t, Advance(p, h)) && SameStreams(s, s') && s'.book == s.book
    ensures SameElsewhere(Chan(s, n), Chan(s', n), i)
  {
    var step := StepFor(n, i, HostOf(s, n), p, h);
    s' := Apply(s, step);
    if h.Drift? {
      DriftMoves(s, n, i, step);
    } else if p.task.pc.Reporting? {
      DeliverMoves(s, n, i);
    } else {
      WorkMoves(s, n, i, h.outcome);
    }
    ToldAdvances(s, n, i, t, p, h);
    MovesKeepStreams(s, step);
    MovesKeepChannel(s, step, n, i);
  }

  lemma MovesKeepChannel(s: Cluster, step: Step, n: Uuid, i: nat)
    requires Enabled(s, step) && (step.Work? || step.Deliver? || step.HostChange?)
    requires !step.HostChange? ==> step.node == n && step.i == i
    ensures SameElsewhere(Chan(s, n), Chan(Apply(s, step), n), i)
  {
    ChannelAfter(s, step, n);
  }

  lemma MovesKeepStreams(s: Cluster, step: Step)
    requires Enabled(s, step) && (step.Work? || step.Deliver? || step.HostChange?)
    ensures SameStreams(s, Apply(s, step)) && Apply(s, step).book == s.book
  {
    forall a ensures SameStream(AgentAt(s, a), AgentAt(Apply(s, step), a)) {
      AgentAfter(s, step, a);
    }
  }

  lemma WorkMoves(s: Cluster, n: Uuid, i: nat, outcome: Outcome)
    requires Enabled(s, Work(n, i, outcome))
    ensures var s' := Apply(s, Work(n, i, outcome));
            var (task, domains) := TaskStep(TaskAt(s, n, i).value, outcome, AgentAt(s, HostOf(s, n)).domains);
            TaskAt(s', n, i) == Some(task) && AgentAt(s', HostOf(s, n)).domains == domains
  {
    ChannelAfter(s, Work(n, i, outcome), n);
    AgentAfter(s, Work(n, i, outcome), HostOf(s, n));
  }

  lemma DeliverMoves(s: Cluster, n: Uuid, i: nat)
    requires Enabled(s, Deliver(n, i))
    ensures var s', task := Apply(s, Deliver(n, i)), TaskAt(s, n, i).value;
            TaskAt(s', n, i) == Some(Goto(task, task.pc.next))
            && AgentAt(s', HostOf(s, n)).domains == AgentAt(s, HostOf(s, n)).domains
  {
    ChannelAfter(s, Deliver(n, i), n);
    AgentAfter(s, Deliver(n, i), HostOf(s, n));
  }

  lemma DriftMoves(s: Cluster, n: Uuid, i: nat, step: Step)
    requires step.HostChange? && step.address == HostOf(s, n)
    ensures var s' := Apply(s, step);
            TaskAt(s', n, i) == TaskAt(s, n, i)
            && AgentAt(s', HostOf(s, n)).domains == SetState(AgentAt(s, HostOf(s, n)).domains, step.name, step.state)
  {
    ChannelAfter(s, step, n);
    AgentAfter(s, step, HostOf(s, n));
  }

  lemma ToldAdvances(s: Cluster, n: Uuid, i: nat, t: Tables, p: Progress, h: HostStep)
    requires Mirrors(s, n, i, t, p) && !Idle(p, h)
    requires Enabled(s, StepFor(n, i, HostOf(s, n), p, h))
    ensures NextTables(s, StepFor(n, i, HostOf(s, n), p, h)) == Told(t, Advance(p, h).reports)
  {
    if h.Act? && p.task.pc.Reporting? {
      assert (p.reports + [p.task.pc.report])[..|p.reports|] == p.reports;
    }
  }

  predicate NoDrift(hs: seq<HostStep>) {
    forall k | 0 <= k < |hs| :: hs[k].Act?
  }

  /** The steps of one goroutine, and of guests only if some drift. */
  predicate OfGoroutine(steps: seq<Step>, hs: seq<HostStep>) {
    NoDrift(hs) ==> forall k | 0 <= k < |steps| :: steps[k].Work? || steps[k].Deliver?
  }

  /** Some run takes goroutine i along these host steps. */
  lemma {:induction false} AdvanceAllRuns(s: Cluster, n: Uuid, i: nat, t: Tables, p: Progress, hs: seq<HostStep>)
    returns (steps: seq<Step>, s': Cluster)
    requires Mirrors(s, n, i, t, p)
    ensures Takes(s, steps, s') && OfGoroutine(steps, hs)
    ensures Mirrors(s', n, i, t, AdvanceAll(p, hs)) && SameStreams(s, s') && s'.book == s.book
    ensures SameElsewhere(Chan(s, n), Chan(s', n), i)
    decreases |hs|
  {
    if hs == [] {
      steps, s' := [], s;
    } else if Idle(p, hs[0]) {
      steps, s' := AdvanceAllRuns(s, n, i, t, p, hs[1..]);
    } else {
      var u := AdvanceRuns(s, n, i, t, p, hs[0]);
      var rest;
      rest, s' := AdvanceAllRuns(u, n, i, t, Advance(p, hs[0]), hs[1..]);
      steps := [StepFor(n, i, HostOf(s, n), p, hs[0])] + rest;
      AdvanceCons(s, steps[0], u, rest, s', n, i, hs);
    }
  }

  lemma AdvanceCons(s: Cluster, step: Step, u: Cluster, rest: seq<Step>, t: Cluster, n: Uuid, i: nat,
                    hs: seq<HostStep>)
    requires Enabled(s, step) && u == Apply(s, step) && Takes(u, rest, t)
    requires hs != [] && OfGoroutine(rest, hs[1..]) && (hs[0].Act? ==> step.Work? || step.Deliver?)
    requires SameStreams(s, u) && SameStreams(u, t)
    requires SameElsewhere(Chan(s, n), Chan(u, n), i) && SameElsewhere(Chan(u, n), Chan(t, n), i)
    ensures Takes(s, [step] + rest, t) && OfGoroutine([step] + rest, hs)
    ensures SameStreams(s, t) && SameElsewhere(Chan(s, n), Chan(t, n), i)
  {
    TakesCons(s, step, u, rest, t);
    StreamsTransitive(s, u, t);
  }

  /** Some run takes goroutine i from one point to the other. */
  ghost predicate Leads(s: Cluster, n: Uuid, i: nat, t: Tables, p: Progress) {
    exists steps: seq<Step> :: Run(s, steps) && Mirrors(After(s, steps), n, i, t, p) && SameStreams(s, After(s, steps))
  }

  /** Whatever the executor's code does with a command is a run of the protocol in which
      the goroutine of that command, just handed over, comes to its end: with the same
      domains, and with the row changes that its reports, delivered in order, make. */
  lemma ExecutorRefines(s: Cluster, n: Uuid, i: nat, cmd: Command, domains': Domains, reports: seq<Report>)
    requires TaskAt(s, n, i) == Some(Task(cmd, At(Begin)))
    requires Performs(cmd, AgentAt(s, HostOf(s, n)).domains, [], domains', reports)
    ensures Leads(s, n, i, s.tables, Progress(Task(cmd, At(Finished)), domains', reports))
  {
    var p := Progress(Task(cmd, At(Begin)), AgentAt(s, HostOf(s, n)).domains, []);
    var q := Progress(Task(cmd, At(Finished)), domains', reports);
    var hs: seq<HostStep> :| AdvanceAll(p, hs) == q;
    var steps, s' := AdvanceAllRuns(s, n, i, s.tables, p, hs);
    assert Mirrors(After(s, steps), n, i, s.tables, q) && SameStreams(s, After(s, steps));
  }
}
