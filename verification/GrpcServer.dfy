/** The node service: registration, the heartbeat stream and status reports, as the
    agents call them. */
module GrpcServer {
  import opened Wrappers
  import opened Uuids
  import opened Schema
  import opened Commands
  import opened Dispatching
  import opened Stores
  import opened Protocol
  import opened Refinement
  import opened Streams

  lemma ServeNext(v: Service, events: seq<StreamEvent>, i: nat, last: Option<Uuid>)
    requires i < |events|
    ensures Serve(v, events[i..], last) ==
            match events[i]
            case EndOfStream => v
            case Broken => if last.Some? then v.(tables := MarkUnreachable(v.tables, last.value)) else v
            case Incoming(_, n, _, _, sent) =>
              var w := Answered(v, events[i]);
              if sent then Serve(w, events[i + 1..], Some(n)) else w
  {
    assert events[i..][0] == events[i] && events[i..][1..] == events[i + 1..];
  }

  /** From every cluster with these rows and queues, and agents that hold their streams,
      a run of the protocol leads to the new ones; and there the batches sent are in
      flight to their nodes. */
  ghost predicate ServedStream(v: Service, events: seq<StreamEvent>, w: Service) {
    forall s: Cluster | Shows(s, v.tables, v.queues, v.now) && Attended(s, events)
      :: var steps := ServeSteps(events, None);
         && Run(s, steps) && Shows(After(s, steps), w.tables, w.queues, w.now)
         && InFlight(s, After(s, steps), events, w.batches)
  }

  lemma StreamRefines(v: Service, events: seq<StreamEvent>)
    requires v.batches == []
    ensures ServedStream(v, events, Serve(v, events, None))
  {
    var w := Serve(v, events, None);
    assert NewBatches(v, w) == w.batches;
    forall s: Cluster | Shows(s, v.tables, v.queues, v.now) && Attended(s, events)
      ensures var steps := ServeSteps(events, None);
              && Run(s, steps) && Shows(After(s, steps), w.tables, w.queues, w.now)
              && InFlight(s, After(s, steps), events, w.batches)
    {
      ServeRuns(s, v, events, None);
      StreamFlights(s, v, events, None);
    }
  }

  /** What serving a stream does, from what it answered: `lost` is the batch that could not
      be sent, if the stream ended so. */
  lemma StreamMeans(v: Service, events: seq<StreamEvent>, w: Service) returns (lost: seq<Command>)
    requires v.batches == [] && w == Serve(v, events, None)
    ensures AnswersUpTo(events, w.batches) && Heard(events, w.batches) <= |events|
    ensures Conserves(v.queues, events, w.batches, lost, w.queues) && HeardAreDrained(events, w.batches, w.queues)
    ensures RowsServed(v.tables.nodes, w.tables.nodes, events, w.batches, v.now)
    ensures w.now == v.now + Waited(events, Heard(events, w.batches))
  {
    assert NewBatches(v, w) == w.batches;
    StreamAnswers(v, events, None);
    lost := StreamConserves(v, events, None);
    StreamKeeps(v, events, None);
    forall n | n in v.tables.nodes
      ensures RowServed(v.tables.nodes[n], w.tables.nodes[n], events, w.batches, v.now, None, n)
    {
      StreamRows(v, events, None, n);
    }
  }

  /** What left the queues was drained, node by node. */
  lemma DrainedOut(enqueued: Queues, drained: Queues, queues: Queues, drained': Queues, queues': Queues,
                   events: seq<StreamEvent>, batches: seq<seq<Command>>, lost: seq<Command>, n: Uuid)
    requires QueueOf(enqueued, n) == QueueOf(drained, n) + QueueOf(queues, n)
    requires QueueOf(enqueued, n) == QueueOf(drained', n) + QueueOf(queues', n)
    requires QueueOf(queues, n) == OutOf(events, batches, lost, n) + QueueOf(queues', n)
    ensures QueueOf(drained', n) == QueueOf(drained, n) + OutOf(events, batches, lost, n)
  {
    var out, rest := OutOf(events, batches, lost, n), QueueOf(queues', n);
    assert QueueOf(drained', n) + rest == (QueueOf(drained, n) + out) + rest;
    SameFront(QueueOf(drained', n), QueueOf(drained, n) + out, rest);
  }

  lemma SameFront(xs: seq<Command>, ys: seq<Command>, zs: seq<Command>)
    requires xs + zs == ys + zs
    ensures xs == ys
  {
    assert |xs + zs| == |ys + zs|;
    assert xs == (xs + zs)[..|xs|] && ys == (ys + zs)[..|xs|];
  }

  class Server {
    const nodes: NodeStore
    const dispatcher: Dispatcher

    ghost predicate Valid()
      reads nodes.db, dispatcher
    {
      nodes.db.Consistent() && dispatcher.Valid()
    }

    constructor (nodes: NodeStore, dispatcher: Dispatcher)
      requires nodes.db.Consistent() && dispatcher.Valid()
      ensures Valid() && this.nodes == nodes && this.dispatcher == dispatcher
    {
      this.nodes, this.dispatcher := nodes, dispatcher;
    }

    /** A known address keeps its identifier, and with it the commands queued for it. */
    method RegisterNode(info: NodeInfo, newId: Uuid, now: int) returns (r: Result<Uuid>)
      requires Valid()
      modifies nodes.db`nodes
      ensures Valid()
      ensures forall n: Uuid | HasAddress(old(nodes.db.Contents()), n, info.address) :: r == Ok(n)
      ensures r.Ok? ==> HasAddress(nodes.db.Contents(), r.value, info.address) && Fresh(nodes.db.nodes[r.value], now)
      ensures forall n: Uuid | HasAddress(old(nodes.db.Contents()), n, info.address) ::
                var row := old(nodes.db.nodes)[n];
                nodes.db.nodes == old(nodes.db.nodes)
                  [n := NodeRow(row.info.(name := info.name), Healthy, row.stats, now, row.registeredAt)]
      ensures r.Ok? && r.value !in old(nodes.db.nodes) ==>
                && r.value == newId
                && nodes.db.nodes == old(nodes.db.nodes)[newId := NodeRow(info, Healthy, None, now, now)]
      ensures r.Err? <==> newId in old(nodes.db.nodes)
                          && forall n: Uuid :: !HasAddress(old(nodes.db.Contents()), n, info.address)
      ensures r.Err? ==> nodes.db.Contents() == old(nodes.db.Contents())
      ensures r.Ok? ==> forall m | m != r.value && m in old(nodes.db.nodes) ::
                m in nodes.db.nodes && nodes.db.nodes[m] == old(nodes.db.nodes[m])
    {
      ghost var t := nodes.db.Contents();
      r := nodes.Upsert(newId, info, now);
      if r.Ok? {
        UpsertKeepsValid(t, newId, info, now);
      }
      forall n: Uuid | HasAddress(t, n, info.address)
        ensures r == Ok(n) && UpsertNode(t, newId, info, now).value.0 == nodes.db.Contents()
        ensures var row := t.nodes[n];
                nodes.db.nodes
                == t.nodes[n := NodeRow(row.info.(name := info.name), Healthy, row.stats, now, row.registeredAt)]
      {
        UpsertKnown(t, n, newId, info, now);
      }
    }

    /** Heartbeat serves one stream. Every heartbeat before the one that ends it is answered
        with all that was queued for its node: what leaves a queue is in the batches answered
        to that node, and then, when the stream ends because an answer cannot be sent, in that
        one. The node heard last is marked only when the stream breaks. */
    method Heartbeat(events: seq<StreamEvent>, start: int)
      returns (batches: seq<seq<Command>>, now: int, ghost lost: seq<Command>)
      requires Valid()
      modifies nodes.db`nodes, dispatcher
      ensures Valid() && dispatcher.enqueued == old(dispatcher.enqueued)
      ensures Serve(Service(old(nodes.db.Contents()), old(dispatcher.queues), start, []), events, None)
           == Service(nodes.db.Contents(), dispatcher.queues, now, batches)
      ensures AnswersUpTo(events, batches) && HeardAreDrained(events, batches, dispatcher.queues)
      ensures forall n :: QueueOf(dispatcher.drained, n)
                       == QueueOf(old(dispatcher.drained), n) + OutOf(events, batches, lost, n)
      ensures Conserves(old(dispatcher.queues), events, batches, lost, dispatcher.queues)
      ensures Heard(events, batches) <= |events| && now == start + Waited(events, Heard(events, batches))
      ensures RowsServed(old(nodes.db.nodes), nodes.db.nodes, events, batches, start)
      ensures ServedStream(Service(old(nodes.db.Contents()), old(dispatcher.queues), start, []), events,
                           Service(nodes.db.Contents(), dispatcher.queues, now, batches))
    {
      ghost var v0 := Service(nodes.db.Contents(), dispatcher.queues, start, []);
      batches, now := Serving(events, start);
      ghost var w := Service(nodes.db.Contents(), dispatcher.queues, now, batches);
      StreamRefines(v0, events);
      lost := StreamMeans(v0, events, w);
      forall n ensures QueueOf(dispatcher.drained, n)
                    == QueueOf(old(dispatcher.drained), n) + OutOf(events, batches, lost, n)
      {
        DrainedOut(dispatcher.enqueued, old(dispatcher.drained), v0.queues, dispatcher.drained, dispatcher.queues,
                   events, batches, lost, n);
      }
    }

    method Serving(events: seq<StreamEvent>, start: int) returns (batches: seq<seq<Command>>, now: int)
      requires Valid()
      modifies nodes.db`nodes, dispatcher
      ensures Valid() && dispatcher.enqueued == old(dispatcher.enqueued)
      ensures Serve(Service(old(nodes.db.Contents()), old(dispatcher.queues), start, []), events, None)
           == Service(nodes.db.Contents(), dispatcher.queues, now, batches)
    {
      ghost var end := Serve(Service(nodes.db.Contents(), dispatcher.queues, start, []), events, None);
      batches, now := [], start;
      var nodeId: Option<Uuid> := None;
      var i, over := 0, false;
      while i < |events| && !over
        invariant 0 <= i <= |events| && Valid() && dispatcher.enqueued == old(dispatcher.enqueued)
        invariant var v := Service(nodes.db.Contents(), dispatcher.queues, now, batches);
                  end == if over then v else Serve(v, events[i..], nodeId)
        decreases |events| - i, !over
      {
        var req := events[i];
        ServeNext(Service(nodes.db.Contents(), dispatcher.queues, now, batches), events, i, nodeId);
        match req
        case EndOfStream =>
          over := true;
        case Broken =>
          if nodeId.Some? {
            nodes.MarkUnreachable(nodeId.value);
          }
          over := true;
        case Incoming(_, node, _, _, sent) =>
          nodeId := Some(node);
          batches, now := Answer(req, batches, now);
          i, over := i + 1, !sent;
      }
    }

    /** One heartbeat: the row is updated, unless the database fails, and the node's queue
        is drained, whether or not the answer can then be sent. */
    method Answer(e: StreamEvent, batches: seq<seq<Command>>, now: int) returns (batches': seq<seq<Command>>, now': int)
      requires Valid() && e.Incoming?
      modifies nodes.db`nodes, dispatcher
      ensures Valid() && dispatcher.enqueued == old(dispatcher.enqueued)
      ensures Service(nodes.db.Contents(), dispatcher.queues, now', batches')
           == Answered(Service(old(nodes.db.Contents()), old(dispatcher.queues), now, batches), e)
    {
      now' := now + e.wait;
      Save(e, now');
      var cmds := dispatcher.Drain(e.node);
      batches' := if e.sent then batches + [cmds] else batches;
    }

    method Save(e: StreamEvent, now: int)
      requires Valid() && e.Incoming?
      modifies nodes.db`nodes
      ensures Valid()
      ensures nodes.db.Contents() == if e.saved then UpdateHeartbeat(old(nodes.db.Contents()), e.node, e.stats, now)
                                     else old(nodes.db.Contents())
    {
      if e.saved {
        nodes.UpdateHeartbeat(e.node, e.stats, now);
      }
    }

    /** A report about an instance that is gone is acknowledged and changes nothing. */
    method ReportVmStatus(report: Report) returns (ok: bool)
      requires Valid()
      modifies nodes.db`instances
      ensures Valid() && ok
      ensures report.vm !in old(nodes.db.instances) ==> nodes.db.Contents() == old(nodes.db.Contents())
      ensures report.vm in old(nodes.db.instances) ==>
                var row := old(nodes.db.instances[report.vm]);
                nodes.db.instances == old(nodes.db.instances)
                  [report.vm := row.(status := report.status, ip := if report.ip.Some? then report.ip else row.ip)]
    {
      nodes.UpdateVmStatus(report.vm, report.status, report.ip);
      ok := true;
    }
  }
}
