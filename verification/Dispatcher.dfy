/** The dispatcher: one queue of pending commands for each node. */
module Dispatching {
  import opened Uuids
  import opened Commands

  type Queues = map<Uuid, seq<Command>>

  function QueueOf(queues: Queues, n: Uuid): seq<Command> {
    if n in queues then queues[n] else []
  }

  /** Appending a command to one queue. */
  function Pushed(queues: Queues, n: Uuid, cmd: Command): Queues {
    queues[n := QueueOf(queues, n) + [cmd]]
  }

  class Dispatcher {
    var queues: Queues

    /** Everything enqueued and everything drained, by node, in order. */
    ghost var enqueued: Queues
    ghost var drained: Queues

    /** Nothing is dropped, duplicated or reordered between Enqueue and Drain. */
    ghost predicate Valid()
      reads this
    {
      forall n :: QueueOf(enqueued, n) == QueueOf(drained, n) + QueueOf(queues, n)
    }

    constructor ()
      ensures Valid() && queues == map[] && enqueued == map[] && drained == map[]
    {
      queues, enqueued, drained := map[], map[], map[];
    }

    method Enqueue(n: Uuid, cmd: Command)
      requires Valid()
      modifies this
      ensures Valid() && drained == old(drained)
      ensures queues == Pushed(old(queues), n, cmd)
      ensures enqueued == Pushed(old(enqueued), n, cmd)
    {
      queues := queues[n := QueueOf(queues, n) + [cmd]];
      enqueued := Pushed(enqueued, n, cmd);
    }

    method Drain(n: Uuid) returns (cmds: seq<Command>)
      requires Valid()
      modifies this
      ensures Valid() && enqueued == old(enqueued)
      ensures cmds == QueueOf(old(queues), n)
      ensures queues == old(queues) - {n}
      ensures QueueOf(drained, n) == QueueOf(old(drained), n) + cmds
    {
      cmds := QueueOf(queues, n);
      queues := queues - {n};
      drained := drained[n := QueueOf(drained, n) + cmds];
    }
  }
}
