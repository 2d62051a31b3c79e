/** The path of the commands of one node: the dispatcher's queue, the response on
    the heartbeat stream, and the goroutines of the agent. `history`, `handled`,
    `lost` and `done` only record what happened. */
module Channels {
  import opened Commands

  datatype Channel = Channel(
    history: seq<Command>,    // everything enqueued, in order
    queue: seq<Command>,      // waiting in the dispatcher
    flight: seq<Command>,     // sent, not yet handed to the agent's handler
    handled: seq<Command>,    // handed to the handler, in order
    tasks: seq<Task>,         // running goroutines, in no particular order
    done: multiset<Command>,  // executed to the end
    lost: multiset<Command>,  // dropped before reaching the handler
    killed: multiset<Command> // dropped while executing
  )

  const UNUSED := Channel([], [], [], [], [], multiset{}, multiset{}, multiset{})

  datatype ChannelStep =
    | Push(cmd: Command)
    | Flush                    // drain; the response is sent
    | Discard                  // drain and lose the response, or lose the queue in a restart
    | Take                     // hand the next command of the response to the handler
    | Break                    // the stream breaks: the rest of the response is lost
    | Move(i: nat, task: Task) // goroutine i takes a step
    | Finish(i: nat)           // goroutine i returns
    | Crash                    // the agent stops

  function CmdsOf(tasks: seq<Task>): seq<Command> {
    seq(|tasks|, i requires 0 <= i < |tasks| => tasks[i].cmd)
  }

  predicate Enabled(c: Channel, step: ChannelStep) {
    match step
    case Take => c.flight != []
    case Move(i, task) => i < |c.tasks| && task.cmd == c.tasks[i].cmd
    case Finish(i) => i < |c.tasks|
    case _ => true
  }

  function Next(c: Channel, step: ChannelStep): Channel
    requires Enabled(c, step)
  {
    match step
    case Push(cmd) => c.(history := c.history + [cmd], queue := c.queue + [cmd])
    case Flush => c.(flight := c.flight + c.queue, queue := [])
    case Discard => c.(lost := c.lost + multiset(c.queue), queue := [])
    case Take => c.(handled := c.handled + [c.flight[0]], tasks := c.tasks + [Task(c.flight[0], At(Begin))],
                    flight := c.flight[1..])
    case Break => c.(lost := c.lost + multiset(c.flight), flight := [])
    case Move(i, task) => c.(tasks := c.tasks[i := task])
    case Finish(i) => c.(tasks := c.tasks[..i] + c.tasks[i + 1..], done := c.done + multiset{c.tasks[i].cmd})
    case Crash => c.(lost := c.lost + multiset(c.flight), flight := [],
                     killed := c.killed + multiset(CmdsOf(c.tasks)), tasks := [])
  }

  /** The surviving commands, in the order in which they were and will be handled. */
  function Line(c: Channel): seq<Command> {
    c.handled + c.flight + c.queue
  }

  /** The positions `at` are strictly increasing and pick `sub` out of `all`. */
  ghost predicate Embeds(sub: seq<Command>, at: seq<nat>, all: seq<Command>) {
    && |at| == |sub|
    && (forall i, j | 0 <= i < j < |at| :: at[i] < at[j])
    && (forall i | 0 <= i < |at| :: at[i] < |all| && all[at[i]] == sub[i])
  }

  /** `sub` is an order-preserving subsequence of `all`, each element of `all` used
      at most once. */
  ghost predicate Subsequence(sub: seq<Command>, all: seq<Command>) {
    exists at: seq<nat> :: Embeds(sub, at, all)
  }

  /** Conservation: every enqueued command is in exactly one place. */
  ghost predicate Conserved(c: Channel) {
    && multiset(c.history) == multiset(Line(c)) + c.lost
    && multiset(c.handled) == multiset(CmdsOf(c.tasks)) + c.done + c.killed
  }

  ghost predicate Sound(c: Channel) {
    Conserved(c) && Subsequence(Line(c), c.history)
  }

  lemma RemoveTask(tasks: seq<Task>, i: nat)
    requires i < |tasks|
    ensures multiset(CmdsOf(tasks)) == multiset(CmdsOf(tasks[..i] + tasks[i + 1..])) + multiset{tasks[i].cmd}
  {
    var cmds := CmdsOf(tasks);
    assert cmds == cmds[..i] + [cmds[i]] + cmds[i + 1..];
    assert CmdsOf(tasks[..i] + tasks[i + 1..]) == cmds[..i] + cmds[i + 1..];
  }

  /** How each step changes the line. */
  lemma LineStep(c: Channel, step: ChannelStep)
    requires Enabled(c, step)
    ensures Line(Next(c, step)) == match step
                                   case Push(cmd) => Line(c) + [cmd]
                                   case Discard => c.handled + c.flight
                                   case Break => c.handled + c.queue
                                   case Crash => c.handled + c.queue
                                   case _ => Line(c)
  {
    if step.Take? {
      assert c.flight == [c.flight[0]] + c.flight[1..];
    }
  }

  lemma TasksStep(c: Channel, step: ChannelStep)
    requires Enabled(c, step)
    ensures var cmds := multiset(CmdsOf(Next(c, step).tasks));
            match step
            case Take => cmds == multiset(CmdsOf(c.tasks)) + multiset{c.flight[0]}
            case Finish(i) => multiset(CmdsOf(c.tasks)) == cmds + multiset{c.tasks[i].cmd}
            case Crash => cmds == multiset{}
            case _ => cmds == multiset(CmdsOf(c.tasks))
  {
    var d := Next(c, step);
    match step
    case Take => assert CmdsOf(d.tasks) == CmdsOf(c.tasks) + [c.flight[0]];
    case Finish(i) => RemoveTask(c.tasks, i);
    case Crash => assert CmdsOf(d.tasks) == [];
    case _ => assert CmdsOf(d.tasks) == CmdsOf(c.tasks);
  }

  lemma ConservedLine(c: Channel, step: ChannelStep)
    requires Enabled(c, step) && multiset(c.history) == multiset(Line(c)) + c.lost
    ensures var d := Next(c, step);
            multiset(d.history) == multiset(Line(d)) + d.lost
  {
    LineStep(c, step);
    LineContents(c);
    LineContents(Next(c, step));
  }

  lemma ConservedTasks(c: Channel, step: ChannelStep)
    requires Enabled(c, step) && multiset(c.handled) == multiset(CmdsOf(c.tasks)) + c.done + c.killed
    ensures var d := Next(c, step);
            multiset(d.handled) == multiset(CmdsOf(d.tasks)) + d.done + d.killed
  {
    TasksStep(c, step);
  }

  lemma ConservedStep(c: Channel, step: ChannelStep)
    requires Conserved(c) && Enabled(c, step)
    ensures Conserved(Next(c, step))
  {
    ConservedLine(c, step);
    ConservedTasks(c, step);
  }

  lemma LineContents(c: Channel)
    ensures multiset(Line(c)) == multiset(c.handled) + multiset(c.flight) + multiset(c.queue)
  {
  }

  /** Cutting a stretch out of a subsequence leaves a subsequence. */
  lemma CutSubsequence(a: seq<Command>, b: seq<Command>, c: seq<Command>, all: seq<Command>)
    requires Subsequence(a + b + c, all)
    ensures Subsequence(a + c, all)
  {
    var at: seq<nat> :| Embeds(a + b + c, at, all);
    var at' := at[..|a|] + at[|a| + |b|..];
    forall i | 0 <= i < |at'| ensures at'[i] < |all| && all[at'[i]] == (a + c)[i] {
      var k := if i < |a| then i else i + |b|;
      assert at'[i] == at[k] && (a + b + c)[k] == (a + c)[i];
    }
    assert Embeds(a + c, at', all);
  }

  lemma GrowSubsequence(sub: seq<Command>, all: seq<Command>, cmd: Command)
    requires Subsequence(sub, all)
    ensures Subsequence(sub + [cmd], all + [cmd])
  {
    var at: seq<nat> :| Embeds(sub, at, all);
    assert Embeds(sub + [cmd], at + [|all|], all + [cmd]);
  }

  lemma SoundStep(c: Channel, step: ChannelStep)
    requires Sound(c) && Enabled(c, step)
    ensures Sound(Next(c, step))
  {
    ConservedStep(c, step);
    LineStep(c, step);
    match step
    case Push(cmd) =>
      GrowSubsequence(Line(c), c.history, cmd);
    case Discard =>
      assert c.handled + c.flight + c.queue + [] == Line(c) && c.handled + c.flight + [] == c.handled + c.flight;
      CutSubsequence(c.handled + c.flight, c.queue, [], c.history);
    case Break =>
      CutSubsequence(c.handled, c.flight, c.queue, c.history);
    case Crash =>
      CutSubsequence(c.handled, c.flight, c.queue, c.history);
    case _ =>
  }

  lemma EmptySound()
    ensures Sound(UNUSED)
  {
    assert Embeds(Line(UNUSED), [], UNUSED.history);
    assert CmdsOf([]) == [];
  }

  /** A strictly increasing sequence of n positions below n counts 0, 1, 2, ... */
  lemma {:induction false} IncreasingIsIdentity(at: seq<nat>, n: nat)
    requires |at| == n && (forall i, j | 0 <= i < j < n :: at[i] < at[j]) && (forall i | 0 <= i < n :: at[i] < n)
    ensures forall i | 0 <= i < n :: at[i] == i
  {
    if n > 0 {
      var front := at[..n - 1];
      assert forall i | 0 <= i < n - 1 :: front[i] == at[i] && at[i] < at[n - 1];
      IncreasingIsIdentity(front, n - 1);
      assert forall i | 0 <= i < n - 1 :: at[i] == front[i];
      if n >= 2 {
        assert at[n - 2] == n - 2;
      }
    }
  }

  /** When nothing was lost, the commands handled, in flight and queued are the
      enqueued ones exactly, in order. */
  lemma NothingLost(c: Channel)
    requires Sound(c) && c.lost == multiset{}
    ensures c.handled + c.flight + c.queue == c.history
  {
    var at: seq<nat> :| Embeds(Line(c), at, c.history);
    assert |multiset(c.history)| == |multiset(Line(c))|;
    IncreasingIsIdentity(at, |c.history|);
  }

  /** A step that loses a command before it reaches the handler. */
  predicate Loses(c: Channel, step: ChannelStep) {
    (step.Discard? && c.queue != []) || ((step.Break? || step.Crash?) && c.flight != [])
  }

  lemma LostStep(c: Channel, step: ChannelStep)
    requires Enabled(c, step)
    ensures if Loses(c, step) then |Next(c, step).lost| > |c.lost| else Next(c, step).lost == c.lost
  {
  }

  lemma NothingLostExactly(c: Channel)
    requires Sound(c)
    ensures c.handled + c.flight + c.queue == c.history <==> |c.lost| == 0
  {
    if |c.lost| == 0 {
      NothingLost(c);
    }
    if Line(c) == c.history {
      assert |multiset(c.history)| == |multiset(Line(c))| + |c.lost|;
    }
  }

  /** What was handled is in order on its own. */
  lemma HandledInOrder(c: Channel)
    requires Sound(c)
    ensures Subsequence(c.handled, c.history)
  {
    assert c.handled + (c.flight + c.queue) + [] == Line(c) && c.handled + [] == c.handled;
    CutSubsequence(c.handled, c.flight + c.queue, [], c.history);
  }
}
