/** Single placement and routing: whatever is lost, crashes or restarts, an instance
    is created at most once, on one node, and every later command about it goes to
    that node. */
module Placement {
  import opened Wrappers
  import opened Uuids
  import opened Ipv4
  import opened Schema
  import opened Commands
  import C = Channels
  import opened Protocol
  import opened Ledger

  predicate Creates(c: Command, x: Uuid) {
    c.CreateVm? && c.vm == x
  }

  /** How many create commands for x a history holds. */
  function CreateCount(h: seq<Command>, x: Uuid): nat {
    if h == [] then 0
    else CreateCount(h[..|h| - 1], x) + if Creates(h[|h| - 1], x) then 1 else 0
  }

  /** A request that has yet to enqueue the create command of x. */
  predicate Unsent(o: Op, x: Uuid) {
    (o.Inserted? || o.Addressed?) && o.id == x
  }

  /** Everything enqueued for the node of x. */
  ghost function HomeHistory(s: Cluster, x: Uuid): seq<Command>
    requires x in s.book.births
  {
    Chan(s, s.book.births[x].node).history
  }

  /** The create command of x is enqueued at most once, and not before a pending
      request enqueues it. */
  ghost predicate CreatedOnce(s: Cluster, x: Uuid)
    requires x in s.book.births
  {
    && CreateCount(HomeHistory(s, x), x) <= 1
    && ((exists op :: op in s.ops && Unsent(s.ops[op], x)) ==> CreateCount(HomeHistory(s, x), x) == 0)
  }

  ghost predicate UnsentOnce(b: Book, ops: map<OpId, Op>) {
    && (forall op, x | op in ops && Unsent(ops[op], x) :: x in b.births)
    && (forall op, op', x | op in ops && op' in ops && Unsent(ops[op], x) && Unsent(ops[op'], x) :: op == op')
  }

  ghost predicate OneCreate(s: Cluster) {
    UnsentOnce(s.book, s.ops) && forall x | x in s.book.births :: CreatedOnce(s, x)
  }

  lemma {:induction false} NoCreates(h: seq<Command>, x: Uuid)
    requires forall i | 0 <= i < |h| :: !Creates(h[i], x)
    ensures CreateCount(h, x) == 0
  {
    if h != [] {
      NoCreates(h[..|h| - 1], x);
    }
  }

  lemma {:induction false} CreateAt(h: seq<Command>, x: Uuid, i: nat)
    requires i < |h| && Creates(h[i], x)
    ensures CreateCount(h, x) >= 1
  {
    if i < |h| - 1 {
      CreateAt(h[..|h| - 1], x, i);
    }
  }

  lemma {:induction false} TwoCreates(h: seq<Command>, x: Uuid, i: nat, j: nat)
    requires i < j < |h| && Creates(h[i], x) && Creates(h[j], x)
    ensures CreateCount(h, x) >= 2
  {
    if j < |h| - 1 {
      TwoCreates(h[..|h| - 1], x, i, j);
    } else {
      CreateAt(h[..|h| - 1], x, i);
    }
  }

  lemma {:induction false} CountInContents(h: seq<Command>, x: Uuid, c: Command)
    requires Creates(c, x)
    ensures multiset(h)[c] <= CreateCount(h, x)
  {
    if h != [] {
      var front := h[..|h| - 1];
      CountInContents(front, x, c);
      assert h == front + [h[|h| - 1]];
    }
  }

  /** Only an enqueue changes a history. */
  lemma HistoryStep(s: Cluster, step: Step, n: Uuid)
    requires Enabled(s, step)
    ensures var cs := OnChannel(s, step, n);
            Moved(s, step, n).history
            == if cs.Some? && cs.value.Push? then Chan(s, n).history + [cs.value.cmd] else Chan(s, n).history
  {
  }

  /** The only step that enqueues a create command. */
  lemma CreatePush(s: Cluster, step: Step, n: Uuid, x: Uuid)
    requires Enabled(s, step)
    ensures var cs := OnChannel(s, step, n);
            cs.Some? && cs.value.Push? && Creates(cs.value.cmd, x)
            <==> step.SendCreate? && s.ops[step.op].plan.node == n && s.ops[step.op].id == x
  {
  }

  lemma CountAppend(h: seq<Command>, c: Command, x: Uuid)
    ensures CreateCount(h + [c], x) == CreateCount(h, x) + if Creates(c, x) then 1 else 0
  {
    assert (h + [c])[..|h|] == h;
  }

  /** How a step changes the number of create commands for x in a channel. */
  lemma CreateCountStep(s: Cluster, step: Step, n: Uuid, x: Uuid)
    requires Enabled(s, step)
    ensures CreateCount(Moved(s, step, n).history, x)
         == CreateCount(Chan(s, n).history, x)
            + if step.SendCreate? && s.ops[step.op].plan.node == n && s.ops[step.op].id == x then 1 else 0
  {
    HistoryStep(s, step, n);
    CreatePush(s, step, n, x);
    var cs := OnChannel(s, step, n);
    if cs.Some? && cs.value.Push? {
      CountAppend(Chan(s, n).history, cs.value.cmd, x);
    }
  }

  lemma FreshHasNoCreate(s: Cluster, n: Uuid, x: Uuid)
    requires ChannelsBorn(s) && x !in s.book.births
    ensures CreateCount(Chan(s, n).history, x) == 0
  {
    assert ChannelBorn(s.book, n, Chan(s, n));
    NoCreates(Chan(s, n).history, x);
  }

  /** Which requests are pending after a step. */
  lemma UnsentStep(s: Cluster, step: Step, op: OpId, x: Uuid)
    requires Enabled(s, step) && op in NextOps(s, step) && Unsent(NextOps(s, step)[op], x)
    ensures (op in s.ops && Unsent(s.ops[op], x) && !(step.SendCreate? && step.op == op))
            || (step.Insert? && step.op == op && step.id == x)
  {
  }

  lemma UnsentOnceStep(s: Cluster, step: Step)
    requires Enabled(s, step) && NodesOwned(s) && UnsentOnce(s.book, s.ops)
    ensures UnsentOnce(NextBook(s, step), NextOps(s, step))
  {
    BookGrows(s, step);
    var ops' := NextOps(s, step);
    forall op, x | op in ops' && Unsent(ops'[op], x) ensures x in NextBook(s, step).births {
      UnsentStep(s, step, op, x);
    }
    forall op, op', x | op in ops' && op' in ops' && Unsent(ops'[op], x) && Unsent(ops'[op'], x) ensures op == op' {
      UnsentStep(s, step, op, x);
      UnsentStep(s, step, op', x);
    }
  }

  lemma CreatedOnceStep(s: Cluster, step: Step, x: Uuid)
    requires Enabled(s, step) && NodesOwned(s) && ChannelsBorn(s) && OneCreate(s) && x in NextBook(s, step).births
    ensures CreatedOnce(Apply(s, step), x)
  {
    BookGrows(s, step);
    var n := NextBook(s, step).births[x].node;
    ChannelAfter(s, step, n);
    CreateCountStep(s, step, n, x);
    if x !in s.book.births {
      FreshHasNoCreate(s, n, x);
    } else {
      assert CreatedOnce(s, x);
    }
    if step.SendCreate? && s.ops[step.op].id == x {
      assert Unsent(s.ops[step.op], x);
    }
    if op :| op in NextOps(s, step) && Unsent(NextOps(s, step)[op], x) {
      UnsentStep(s, step, op, x);
    }
  }

  lemma OneCreateStep(s: Cluster, step: Step)
    requires Enabled(s, step) && Inv(s) && OneCreate(s)
    ensures OneCreate(Apply(s, step))
  {
    UnsentOnceStep(s, step);
    forall x | x in NextBook(s, step).births ensures CreatedOnce(Apply(s, step), x) {
      CreatedOnceStep(s, step, x);
    }
  }

  /** The invariant of this module in every reachable state. */
  lemma {:induction false} OneCreateRun(s: Cluster, steps: seq<Step>)
    requires Inv(s) && OneCreate(s) && Run(s, steps)
    ensures Inv(After(s, steps)) && OneCreate(After(s, steps))
    decreases |steps|
  {
    if steps != [] {
      InvStep(s, steps[0]);
      OneCreateStep(s, steps[0]);
      OneCreateRun(Apply(s, steps[0]), steps[1..]);
    }
  }

  /** The number of places a command occupies: waiting, sent, executing, executed,
      or dropped on the way. */
  ghost function Places(c: C.Channel, cmd: Command): nat {
    multiset(c.queue)[cmd] + multiset(c.flight)[cmd] + multiset(C.CmdsOf(c.tasks))[cmd]
    + c.done[cmd] + c.killed[cmd] + c.lost[cmd]
  }

  lemma PlacesAreHistory(c: C.Channel, cmd: Command)
    requires C.Conserved(c)
    ensures Places(c, cmd) == multiset(c.history)[cmd]
  {
    C.LineContents(c);
  }

  /** Single placement, over every run of the cluster: there is at most one create
      command for an instance in the histories of all the nodes; it is in exactly one
      place; and no two agents hold a domain for the instance. */
  lemma SinglePlacement(steps: seq<Step>, x: Uuid)
    requires Run(INITIAL, steps)
    ensures var s := After(INITIAL, steps);
            && (forall m, n, i, j | 0 <= i < |Chan(s, m).history| && 0 <= j < |Chan(s, n).history|
                                    && Creates(Chan(s, m).history[i], x) && Creates(Chan(s, n).history[j], x)
                  :: m == n && i == j)
            && (forall n, i | 0 <= i < |Chan(s, n).history| && Creates(Chan(s, n).history[i], x)
                  :: Places(Chan(s, n), Chan(s, n).history[i]) == 1)
            && (forall a, b, p, q | p in AgentAt(s, a).domains && q in AgentAt(s, b).domains
                                    && AgentAt(s, a).domains[p].uuid == x && AgentAt(s, b).domains[q].uuid == x
                  :: a == b && p == q)
  {
    InvInitial();
    OneCreateRun(INITIAL, steps);
    var s := After(INITIAL, steps);
    forall m, n, i, j | 0 <= i < |Chan(s, m).history| && 0 <= j < |Chan(s, n).history|
                        && Creates(Chan(s, m).history[i], x) && Creates(Chan(s, n).history[j], x)
      ensures m == n && i == j
    {
      CreateIsHome(s, m, i, x);
      CreateIsHome(s, n, j, x);
      assert CreatedOnce(s, x);
      if i < j { TwoCreates(HomeHistory(s, x), x, i, j); }
      if j < i { TwoCreates(HomeHistory(s, x), x, j, i); }
    }
    forall n, i | 0 <= i < |Chan(s, n).history| && Creates(Chan(s, n).history[i], x)
      ensures Places(Chan(s, n), Chan(s, n).history[i]) == 1
    {
      var c := Chan(s, n).history[i];
      CreateIsHome(s, n, i, x);
      assert CreatedOnce(s, x);
      CountInContents(Chan(s, n).history, x, c);
      assert C.Sound(Chan(s, n));
      PlacesAreHistory(Chan(s, n), c);
      assert c in multiset(Chan(s, n).history);
    }
    forall a, b, p, q | p in AgentAt(s, a).domains && q in AgentAt(s, b).domains
                        && AgentAt(s, a).domains[p].uuid == x && AgentAt(s, b).domains[q].uuid == x
      ensures a == b && p == q
    {
      assert AgentBorn(s.book, a, AgentAt(s, a)) && AgentBorn(s.book, b, AgentAt(s, b));
      assert DomainBorn(s.book, a, p, AgentAt(s, a).domains[p]) && DomainBorn(s.book, b, q, AgentAt(s, b).domains[q]);
    }
  }

  lemma CreateIsHome(s: Cluster, n: Uuid, i: nat, x: Uuid)
    requires Inv(s) && i < |Chan(s, n).history| && Creates(Chan(s, n).history[i], x)
    ensures x in s.book.births && s.book.births[x].node == n
  {
    assert ChannelBorn(s.book, n, Chan(s, n));
    assert CommandBorn(s.book, n, Chan(s, n).history[i]);
  }

  /** Routing, over every run: a command about an instance, wherever it is, is on the
      channel of the node chosen when the instance was created, and that node's agent
      is the only one that ever defines the instance's domain. A create or start has the
      instance's VPC with the CIDR that it was given, and a create the instance's sizes. */
  lemma Routing(steps: seq<Step>, n: Uuid, c: Command)
    requires Run(INITIAL, steps) && IsVmCommand(c)
    requires var ch := Chan(After(INITIAL, steps), n);
             c in ch.queue || c in ch.flight || c in ch.handled || c in C.CmdsOf(ch.tasks) || c in ch.done
             || c in ch.killed || c in ch.lost
    ensures var b := After(INITIAL, steps).book;
            && c.vm in b.births && b.births[c.vm].node == n && n in b.owners && c.name == b.births[c.vm].name
            && (c.CreateVm? || c.StartVm? ==>
                  c.vpc == b.births[c.vm].vpc && c.vpc in b.vpcs && c.cidr == b.vpcs[c.vpc])
            && (c.CreateVm? ==> c.spec == b.births[c.vm].spec)
    ensures var s := After(INITIAL, steps);
            forall a, p | p in AgentAt(s, a).domains && AgentAt(s, a).domains[p].uuid == c.vm :: a == s.book.owners[n]
  {
    InvInitial();
    InvRun(INITIAL, steps);
    var s := After(INITIAL, steps);
    assert C.Sound(Chan(s, n)) && ChannelBorn(s.book, n, Chan(s, n));
    InHistory(s.book, n, Chan(s, n), c);
    forall a, p | p in AgentAt(s, a).domains && AgentAt(s, a).domains[p].uuid == c.vm ensures a == s.book.owners[n] {
      assert AgentBorn(s.book, a, AgentAt(s, a));
      assert DomainBorn(s.book, a, p, AgentAt(s, a).domains[p]);
    }
  }

  /** Nothing removes node n in this run. */
  predicate KeepsNode(steps: seq<Step>, n: Uuid) {
    forall i | 0 <= i < |steps| :: steps[i] != DropNode(n)
  }

  lemma {:induction false} NodeSurvives(s: Cluster, steps: seq<Step>, n: Uuid)
    requires NodesOwned(s) && n in s.tables.nodes && Run(s, steps) && KeepsNode(steps, n)
    ensures NodesOwned(After(s, steps)) && n in After(s, steps).tables.nodes
    ensures After(s, steps).book.owners[n] == s.book.owners[n]
    decreases |steps|
  {
    if steps != [] {
      assert steps[0] != DropNode(n);
      NodesOwnedStep(s, steps[0]);
      BookGrows(s, steps[0]);
      NodeStays(s.tables, StatementOf(s, steps[0]), s.now, n);
      NodeSurvives(Apply(s, steps[0]), steps[1..], n);
    }
  }

  /** Reconnection: as long as its row is not deleted, a node keeps its address, and
      every registration of that address answers with the same node id. Registering
      moves no command. */
  lemma ReregistrationKeepsId(s: Cluster, steps: seq<Step>, n: Uuid, step: Step)
    requires NodesOwned(s) && n in s.tables.nodes && Run(s, steps) && KeepsNode(steps, n)
    requires Enabled(After(s, steps), step) && step.Register? && step.address == s.book.owners[n]
    ensures var s' := Apply(After(s, steps), step);
            && AgentAt(s', step.address).session == Some(n)
            && forall m :: Chan(s', m) == Chan(After(s, steps), m)
  {
    NodeSurvives(s, steps, n);
    RegisterAgain(After(s, steps), n, step);
  }

  lemma RegisterAgain(s: Cluster, n: Uuid, step: Step)
    requires NodesOwned(s) && n in s.tables.nodes
    requires Enabled(s, step) && step.Register? && step.address == s.book.owners[n]
    ensures var s' := Apply(s, step);
            && AgentAt(s', step.address).session == Some(n)
            && s'.book.owners[n] == s.book.owners[n]
            && forall m :: Chan(s', m) == Chan(s, m)
  {
    AgentAfter(s, step, step.address);
    assert HasAddress(s.tables, n, step.address);
    UpsertKnown(s.tables, n, step.newId, step.info, s.now);
    forall m ensures Chan(Apply(s, step), m) == Chan(s, m) {
      ChannelAfter(s, step, m);
    }
  }

  lemma NodeStays(t: Tables, q: Statement, now: int, n: Uuid)
    requires Succeeds(t, q, now) && n in t.nodes && q != NodeDelete(n)
    ensures n in Execute(t, q, now).nodes
  {
  }
}
