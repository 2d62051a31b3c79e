/** Delivery: what reaches the agent's handler, over whole runs. */
module Delivery {
  import opened Uuids
  import opened Wrappers
  import opened Schema
  import opened Commands
  import C = Channels
  import opened Protocol
  import opened Ledger

  /** The steps that drop commands of node n: a response that is not delivered or a
      restart of the controller while some are queued, a broken stream or a crash of its
      agent while some are in flight. */
  ghost predicate Drops(s: Cluster, step: Step, n: Uuid) {
    match step
    case Heartbeat(m, _, _, sent) => m == n && !sent && Chan(s, n).queue != []
    case Restart => Chan(s, n).queue != []
    case BreakStream(m) => m == n && Chan(s, n).flight != []
    case Crash(a) => n in s.book.owners && s.book.owners[n] == a && Chan(s, n).flight != []
    case _ => false
  }

  ghost predicate NeverDrops(s: Cluster, steps: seq<Step>, n: Uuid)
    requires Run(s, steps)
    decreases |steps|
  {
    steps == [] || (!Drops(s, steps[0], n) && NeverDrops(Apply(s, steps[0]), steps[1..], n))
  }

  /** Delivery, for every run and node: the commands handled are an order-preserving
      subsequence of those enqueued for that node, each used at most once, and so
      they stay when those in flight and queued follow; every enqueued command is
      handled, in flight, queued or lost; every handled one is executing, executed or
      killed. */
  lemma DeliveredInOrder(steps: seq<Step>, n: Uuid)
    requires Run(INITIAL, steps)
    ensures var c := Chan(After(INITIAL, steps), n);
            C.Subsequence(c.handled, c.history) && C.Subsequence(C.Line(c), c.history) && C.Conserved(c)
  {
    InvInitial();
    InvRun(INITIAL, steps);
    assert C.Sound(Chan(After(INITIAL, steps), n));
    C.HandledInOrder(Chan(After(INITIAL, steps), n));
  }

  lemma LossStep(s: Cluster, step: Step, n: Uuid)
    requires Enabled(s, step)
    ensures if Drops(s, step, n) then |Moved(s, step, n).lost| > |Chan(s, n).lost|
            else Moved(s, step, n).lost == Chan(s, n).lost
  {
    DropsOnChannel(s, step, n);
    var cs := OnChannel(s, step, n);
    if cs.Some? {
      C.LostStep(Chan(s, n), cs.value);
    }
  }

  lemma DropsOnChannel(s: Cluster, step: Step, n: Uuid)
    requires Enabled(s, step)
    ensures Drops(s, step, n) <==> OnChannel(s, step, n).Some? && C.Loses(Chan(s, n), OnChannel(s, step, n).value)
  {
  }

  /** What is lost stays lost, and grows exactly when something is dropped. */
  lemma {:induction false} LossOverRun(s: Cluster, steps: seq<Step>, n: Uuid)
    requires Run(s, steps)
    ensures |Chan(After(s, steps), n).lost| >= |Chan(s, n).lost|
    ensures |Chan(After(s, steps), n).lost| == |Chan(s, n).lost| <==> NeverDrops(s, steps, n)
    decreases |steps|
  {
    if steps != [] {
      LossStep(s, steps[0], n);
      ChannelAfter(s, steps[0], n);
      LossOverRun(Apply(s, steps[0]), steps[1..], n);
    }
  }

  /** Exact delivery, for every run: the commands handled, then those in flight, then
      those queued are the enqueued ones if and only if no step dropped a command. */
  lemma DeliveredExactly(steps: seq<Step>, n: Uuid)
    requires Run(INITIAL, steps)
    ensures var c := Chan(After(INITIAL, steps), n);
            c.handled + c.flight + c.queue == c.history <==> NeverDrops(INITIAL, steps, n)
  {
    InvInitial();
    InvRun(INITIAL, steps);
    LossOverRun(INITIAL, steps, n);
    assert C.Sound(Chan(After(INITIAL, steps), n));
    C.NothingLostExactly(Chan(After(INITIAL, steps), n));
  }

  /** Either way a queue is lost: the heartbeat whose answer cannot be sent, and the
      restart. */
  lemma QueueIsLost(n: Uuid, cmd: Command, stats: NodeStats)
    requires !IsVmCommand(cmd)
    ensures forall loss | loss == Restart || loss == Heartbeat(n, stats, true, false) ::
              var steps := [SendNetwork(n, cmd), loss];
              && Run(INITIAL, steps) && !NeverDrops(INITIAL, steps, n)
              && Chan(After(INITIAL, steps), n) == C.UNUSED.(history := [cmd], lost := multiset{cmd})
  {
    forall loss | loss == Restart || loss == Heartbeat(n, stats, true, false)
      ensures var steps := [SendNetwork(n, cmd), loss];
              && Run(INITIAL, steps) && !NeverDrops(INITIAL, steps, n)
              && Chan(After(INITIAL, steps), n) == C.UNUSED.(history := [cmd], lost := multiset{cmd})
    {
      LosesOne(n, cmd, loss);
    }
  }

  lemma LosesOne(n: Uuid, cmd: Command, loss: Step)
    requires !IsVmCommand(cmd) && (loss == Restart || (loss.Heartbeat? && loss.node == n && !loss.sent))
    ensures var steps := [SendNetwork(n, cmd), loss];
            && Run(INITIAL, steps) && !NeverDrops(INITIAL, steps, n)
            && Chan(After(INITIAL, steps), n) == C.UNUSED.(history := [cmd], lost := multiset{cmd})
  {
    var s := Queued(n, cmd);
    LosesQueue(s, loss, n);
    RunTwo(INITIAL, SendNetwork(n, cmd), loss);
    LossOverRun(INITIAL, [SendNetwork(n, cmd), loss], n);
  }

  lemma LosesQueue(s: Cluster, loss: Step, n: Uuid)
    requires loss == Restart || (loss.Heartbeat? && loss.node == n && !loss.sent)
    ensures Enabled(s, loss) && Chan(Apply(s, loss), n) == C.Next(Chan(s, n), C.Discard)
  {
    assert Enabled(s, loss) && OnChannel(s, loss, n) == Some(C.Discard);
    ChannelAfter(s, loss, n);
  }

  lemma Queued(n: Uuid, cmd: Command) returns (s: Cluster)
    requires !IsVmCommand(cmd)
    ensures Enabled(INITIAL, SendNetwork(n, cmd)) && s == Apply(INITIAL, SendNetwork(n, cmd))
    ensures Chan(s, n) == C.UNUSED.(history := [cmd], queue := [cmd])
  {
    s := Apply(INITIAL, SendNetwork(n, cmd));
    ChannelAfter(INITIAL, SendNetwork(n, cmd), n);
  }
}
