/** What serving a heartbeat stream means: which commands go where, and what becomes of the
    node rows. */
module Streams {
  import opened Wrappers
  import opened Uuids
  import opened Schema
  import opened Commands
  import opened Dispatching
  import opened Protocol
  import opened Refinement

  /** The commands in the batches answered to n, in order; batch i answers event i. */
  function BatchesTo(events: seq<StreamEvent>, batches: seq<seq<Command>>, n: Uuid): seq<Command> {
    if events == [] || batches == [] || !events[0].Incoming? then []
    else (if events[0].node == n then batches[0] else []) + BatchesTo(events[1..], batches[1..], n)
  }

  /** The batches are the answers to the events before the first one that ends the stream or
      cannot be answered. */
  predicate AnswersUpTo(events: seq<StreamEvent>, batches: seq<seq<Command>>) {
    && |batches| <= |events|
    && (forall i | 0 <= i < |batches| :: events[i].Incoming? && events[i].sent)
    && (|batches| < |events| ==> !(events[|batches|].Incoming? && events[|batches|].sent))
  }

  /** The stream ended with a heartbeat of n that could not be answered. */
  predicate Unanswered(events: seq<StreamEvent>, batches: seq<seq<Command>>, n: Uuid) {
    |batches| < |events| && events[|batches|].Incoming? && events[|batches|].node == n
  }

  /** What left the queue of n: the batches answered to n, in order, and then the one batch
      that could not be sent. */
  function OutOf(events: seq<StreamEvent>, batches: seq<seq<Command>>, lost: seq<Command>, n: Uuid): seq<Command> {
    BatchesTo(events, batches, n) + if Unanswered(events, batches, n) then lost else []
  }

  /** Conservation: what was queued for n has left its queue, in order, or is still there. */
  ghost predicate Conserves(queues: Queues, events: seq<StreamEvent>, batches: seq<seq<Command>>, lost: seq<Command>,
                            queues': Queues) {
    forall n :: QueueOf(queues, n) == OutOf(events, batches, lost, n) + QueueOf(queues', n)
  }

  /** Every node that was heard has had its queue drained. */
  ghost predicate HeardAreDrained(events: seq<StreamEvent>, batches: seq<seq<Command>>, queues': Queues) {
    forall i | 0 <= i <= |batches| && i < |events| && events[i].Incoming? :: QueueOf(queues', events[i].node) == []
  }

  function NewBatches(v: Service, w: Service): seq<seq<Command>> {
    if |v.batches| <= |w.batches| then w.batches[|v.batches|..] else []
  }

  lemma {:induction false} BatchesGrow(v: Service, events: seq<StreamEvent>, last: Option<Uuid>)
    ensures var w := Serve(v, events, last);
            |v.batches| <= |w.batches| && w.batches[..|v.batches|] == v.batches
    decreases |events|
  {
    if events != [] && events[0].Incoming? && events[0].sent {
      BatchesGrow(Answered(v, events[0]), events[1..], Some(events[0].node));
    }
  }

  /** An answered event contributes the first batch. */
  lemma FirstBatch(v: Service, events: seq<StreamEvent>, last: Option<Uuid>)
    requires events != [] && events[0].Incoming? && events[0].sent
    ensures var e := events[0];
            var v1, w := Answered(v, e), Serve(v, events, last);
            && w == Serve(v1, events[1..], Some(e.node))
            && NewBatches(v, w) == [QueueOf(v.queues, e.node)] + NewBatches(v1, w)
  {
    BatchesGrow(Answered(v, events[0]), events[1..], Some(events[0].node));
  }

  lemma {:induction false} StreamAnswers(v: Service, events: seq<StreamEvent>, last: Option<Uuid>)
    ensures AnswersUpTo(events, NewBatches(v, Serve(v, events, last)))
    decreases |events|
  {
    if events != [] && events[0].Incoming? && events[0].sent {
      FirstBatch(v, events, last);
      StreamAnswers(Answered(v, events[0]), events[1..], Some(events[0].node));
      var rest := NewBatches(Answered(v, events[0]), Serve(v, events, last));
      assert forall i | 0 < i <= |rest| && i < |events| :: events[i] == events[1..][i - 1];
    }
  }

  lemma {:induction false} StreamConserves(v: Service, events: seq<StreamEvent>, last: Option<Uuid>)
    returns (lost: seq<Command>)
    ensures var w := Serve(v, events, last);
            Conserves(v.queues, events, NewBatches(v, w), lost, w.queues)
            && HeardAreDrained(events, NewBatches(v, w), w.queues)
    decreases |events|
  {
    var w := Serve(v, events, last);
    lost := [];
    if events != [] && events[0].Incoming? {
      var e := events[0];
      if e.sent {
        FirstBatch(v, events, last);
        var v1 := Answered(v, e);
        lost := StreamConserves(v1, events[1..], Some(e.node));
        ConservesFirst(v.queues, e, events, NewBatches(v1, w), lost, w.queues);
        DrainedFirst(e, events, v.queues, NewBatches(v1, w), lost, w.queues);
      } else {
        lost := QueueOf(v.queues, e.node);
      }
    }
  }

  lemma BatchesToFirst(events: seq<StreamEvent>, first: seq<Command>, rest: seq<seq<Command>>, n: Uuid)
    requires events != [] && events[0].Incoming?
    ensures BatchesTo(events, [first] + rest, n)
         == (if events[0].node == n then first else []) + BatchesTo(events[1..], rest, n)
    ensures Unanswered(events, [first] + rest, n) == Unanswered(events[1..], rest, n)
  {
    assert ([first] + rest)[1..] == rest;
  }

  lemma ConservesFirst(queues: Queues, e: StreamEvent, events: seq<StreamEvent>, rest: seq<seq<Command>>,
                       lost: seq<Command>, queues': Queues)
    requires events != [] && events[0] == e && e.Incoming?
    requires Conserves(queues - {e.node}, events[1..], rest, lost, queues')
    ensures Conserves(queues, events, [QueueOf(queues, e.node)] + rest, lost, queues')
  {
    var batches := [QueueOf(queues, e.node)] + rest;
    forall n ensures QueueOf(queues, n) == OutOf(events, batches, lost, n) + QueueOf(queues', n) {
      assert QueueOf(queues - {e.node}, n) == OutOf(events[1..], rest, lost, n) + QueueOf(queues', n);
      OutOfFirst(events, QueueOf(queues, e.node), rest, lost, n);
      if n == e.node {
        NothingOut(OutOf(events[1..], rest, lost, n), QueueOf(queues', n));
        assert QueueOf(queues, n) == (QueueOf(queues, n) + []) + [];
      }
    }
  }

  lemma OutOfFirst(events: seq<StreamEvent>, first: seq<Command>, rest: seq<seq<Command>>, lost: seq<Command>, n: Uuid)
    requires events != [] && events[0].Incoming?
    ensures OutOf(events, [first] + rest, lost, n)
         == if events[0].node == n then first + OutOf(events[1..], rest, lost, n) else OutOf(events[1..], rest, lost, n)
  {
    BatchesToFirst(events, first, rest, n);
    var last := if Unanswered(events[1..], rest, n) then lost else [];
    assert (first + BatchesTo(events[1..], rest, n)) + last == first + (BatchesTo(events[1..], rest, n) + last);
  }

  lemma NothingOut(xs: seq<Command>, ys: seq<Command>)
    requires [] == xs + ys
    ensures xs == [] && ys == []
  {
    assert |xs + ys| == 0;
  }

  lemma DrainedFirst(e: StreamEvent, events: seq<StreamEvent>, queues: Queues, rest: seq<seq<Command>>,
                     lost: seq<Command>, queues': Queues)
    requires events != [] && events[0] == e && e.Incoming?
    requires Conserves(queues - {e.node}, events[1..], rest, lost, queues')
    requires HeardAreDrained(events[1..], rest, queues')
    ensures HeardAreDrained(events, [QueueOf(queues, e.node)] + rest, queues')
  {
    var batches := [QueueOf(queues, e.node)] + rest;
    forall i | 0 <= i <= |batches| && i < |events| && events[i].Incoming?
      ensures QueueOf(queues', events[i].node) == []
    {
      if i > 0 {
        assert events[1..][i - 1] == events[i];
      } else {
        assert QueueOf(queues - {e.node}, e.node) == OutOf(events[1..], rest, lost, e.node) + QueueOf(queues', e.node);
        NothingOut(OutOf(events[1..], rest, lost, e.node), QueueOf(queues', e.node));
      }
    }
  }

  /* ---- the rows ---- */

  /** How many events changed rows: the answered ones, and one that could not be answered. */
  function Heard(events: seq<StreamEvent>, batches: seq<seq<Command>>): nat {
    if |batches| < |events| && events[|batches|].Incoming? then |batches| + 1 else |batches|
  }

  predicate SavedFor(e: StreamEvent, n: Uuid) {
    e.Incoming? && e.saved && e.node == n
  }

  /** The last of the first k events that was saved for n, or -1. */
  function LastSaved(events: seq<StreamEvent>, k: nat, n: Uuid): (i: int)
    requires k <= |events|
    ensures -1 <= i < k && (i >= 0 ==> SavedFor(events[i], n))
    ensures forall j | i < j < k :: !SavedFor(events[j], n)
  {
    if k == 0 then -1 else if SavedFor(events[k - 1], n) then k - 1 else LastSaved(events, k - 1, n)
  }

  /** The time that the first k events take. */
  function Waited(events: seq<StreamEvent>, k: nat): nat
    requires k <= |events|
  {
    if k == 0 then 0 else Waited(events, k - 1) + if events[k - 1].Incoming? then events[k - 1].wait else 0
  }

  /** The stream broke, and n was heard last. */
  predicate LostContact(events: seq<StreamEvent>, batches: seq<seq<Command>>, last: Option<Uuid>, n: Uuid) {
    && |batches| < |events| && events[|batches|].Broken?
    && if batches == [] then last == Some(n)
       else events[|batches| - 1].Incoming? && events[|batches| - 1].node == n
  }

  lemma {:induction false} LastSavedShift(events: seq<StreamEvent>, k: nat, n: Uuid)
    requires 0 < k <= |events|
    ensures var j := LastSaved(events[1..], k - 1, n);
            LastSaved(events, k, n) == if j >= 0 then j + 1 else if SavedFor(events[0], n) then 0 else -1
  {
    if k > 1 {
      LastSavedShift(events, k - 1, n);
      assert events[1..][k - 2] == events[k - 1];
    }
  }

  lemma {:induction false} WaitedShift(events: seq<StreamEvent>, k: nat)
    requires 0 < k <= |events|
    ensures Waited(events, k) == Waited(events[1..], k - 1) + if events[0].Incoming? then events[0].wait else 0
  {
    if k > 1 {
      WaitedShift(events, k - 1);
      assert events[1..][k - 2] == events[k - 1];
    }
  }

  /** What becomes of the row of n: the statistics and the time of its last saved heartbeat,
      and the mark exactly when the stream breaks after n was heard last. */
  ghost predicate RowServed(row: NodeRow, row': NodeRow, events: seq<StreamEvent>, batches: seq<seq<Command>>,
                            start: int, last: Option<Uuid>, n: Uuid) {
    var k := Heard(events, batches);
    k <= |events| &&
    var i := LastSaved(events, k, n);
    && row'.info == row.info && row'.registeredAt == row.registeredAt
    && row'.stats == (if i < 0 then row.stats else Some(events[i].stats))
    && row'.lastSeen == (if i < 0 then row.lastSeen else start + Waited(events, i + 1))
    && row'.status == (if LostContact(events, batches, last, n) then Unreachable
                       else if i < 0 then row.status
                       else Healthy)
  }

  /** One heartbeat: the row of its node, if it can be saved. */
  predicate Beaten(row: NodeRow, row': NodeRow, e: StreamEvent, at: int, n: Uuid)
    requires e.Incoming?
  {
    row' == if e.saved && e.node == n then row.(stats := Some(e.stats), lastSeen := at, status := Healthy) else row
  }

  lemma RowFirst(row: NodeRow, row1: NodeRow, row': NodeRow, events: seq<StreamEvent>, first: seq<Command>,
                 rest: seq<seq<Command>>, start: int, last: Option<Uuid>, n: Uuid)
    requires events != [] && events[0].Incoming? && AnswersUpTo(events[1..], rest)
    requires Beaten(row, row1, events[0], start + events[0].wait, n)
    requires RowServed(row1, row', events[1..], rest, start + events[0].wait, Some(events[0].node), n)
    ensures RowServed(row, row', events, [first] + rest, start, last, n)
  {
    var k, batches := Heard(events[1..], rest), [first] + rest;
    LostContactFirst(events, first, rest, last, n);
    LastSavedShift(events, k + 1, n);
    var j := LastSaved(events[1..], k, n);
    WaitedShift(events, j + 2);
    assert j >= 0 ==> events[1..][j] == events[j + 1];
  }

  lemma LostContactFirst(events: seq<StreamEvent>, first: seq<Command>, rest: seq<seq<Command>>, last: Option<Uuid>,
                         n: Uuid)
    requires events != [] && events[0].Incoming? && AnswersUpTo(events[1..], rest)
    ensures LostContact(events, [first] + rest, last, n) == LostContact(events[1..], rest, Some(events[0].node), n)
    ensures Heard(events, [first] + rest) == Heard(events[1..], rest) + 1
  {
    assert |rest| < |events| - 1 ==> events[1..][|rest|] == events[|rest| + 1];
    assert rest != [] ==> events[1..][|rest| - 1] == events[|rest|];
  }

  /** Of every row. */
  ghost predicate RowsServed(rows: map<Uuid, NodeRow>, rows': map<Uuid, NodeRow>, events: seq<StreamEvent>,
                             batches: seq<seq<Command>>, start: int) {
    && rows'.Keys == rows.Keys
    && forall n | n in rows :: RowServed(rows[n], rows'[n], events, batches, start, None, n)
  }

  lemma AnsweredRow(v: Service, e: StreamEvent, n: Uuid)
    requires e.Incoming? && n in v.tables.nodes
    ensures var w := Answered(v, e);
            && w.now == v.now + e.wait && w.tables.nodes.Keys == v.tables.nodes.Keys
            && Beaten(v.tables.nodes[n], w.tables.nodes[n], e, v.now + e.wait, n)
  {
  }

  /** A stream whose first event is not answered. */
  lemma RowLast(row: NodeRow, row': NodeRow, events: seq<StreamEvent>, start: int, last: Option<Uuid>, n: Uuid)
    requires events != [] && !(events[0].Incoming? && events[0].sent)
    requires match events[0]
             case EndOfStream => row' == row
             case Broken => row' == if last == Some(n) then row.(status := Unreachable) else row
             case Incoming(wait, _, _, _, _) => Beaten(row, row', events[0], start + wait, n)
    ensures RowServed(row, row', events, [], start, last, n)
  {
    if events[0].Incoming? {
      LastSavedShift(events, 1, n);
      WaitedShift(events, 1);
    }
  }

  lemma {:induction false} StreamRows(v: Service, events: seq<StreamEvent>, last: Option<Uuid>, n: Uuid)
    requires n in v.tables.nodes
    ensures var w := Serve(v, events, last);
            n in w.tables.nodes
            && RowServed(v.tables.nodes[n], w.tables.nodes[n], events, NewBatches(v, w), v.now, last, n)
    decreases |events|
  {
    var w := Serve(v, events, last);
    if events == [] {
      assert NewBatches(v, w) == [];
    } else if events[0].Incoming? && events[0].sent {
      var v1 := Answered(v, events[0]);
      AnsweredRow(v, events[0], n);
      FirstBatch(v, events, last);
      StreamAnswers(v1, events[1..], Some(events[0].node));
      StreamRows(v1, events[1..], Some(events[0].node), n);
      RowFirst(v.tables.nodes[n], v1.tables.nodes[n], w.tables.nodes[n], events, QueueOf(v.queues, events[0].node),
               NewBatches(v1, w), v.now, last, n);
    } else {
      assert NewBatches(v, w) == [];
      RowLast(v.tables.nodes[n], w.tables.nodes[n], events, v.now, last, n);
    }
  }

  /** A stream adds and removes no row, and takes the time of the events heard. */
  lemma {:induction false} StreamKeeps(v: Service, events: seq<StreamEvent>, last: Option<Uuid>)
    ensures var w := Serve(v, events, last);
            && w.tables.nodes.Keys == v.tables.nodes.Keys
            && Heard(events, NewBatches(v, w)) <= |events|
            && w.now == v.now + Waited(events, Heard(events, NewBatches(v, w)))
    decreases |events|
  {
    if events != [] && events[0].Incoming? {
      if events[0].sent {
        var v1, w := Answered(v, events[0]), Serve(v, events, last);
        FirstBatch(v, events, last);
        StreamAnswers(v1, events[1..], Some(events[0].node));
        StreamKeeps(v1, events[1..], Some(events[0].node));
        LostContactFirst(events, QueueOf(v.queues, events[0].node), NewBatches(v1, w), last, events[0].node);
        WaitedShift(events, Heard(events[1..], NewBatches(v1, w)) + 1);
      } else {
        WaitedShift(events, 1);
      }
    }
  }

  /* ---- the cluster ---- */

  /** After the stream's run, what was sent to n is in flight to n. */
  ghost predicate InFlight(s: Cluster, t: Cluster, events: seq<StreamEvent>, batches: seq<seq<Command>>) {
    forall n :: Chan(t, n).flight == Chan(s, n).flight + BatchesTo(events, batches, n)
  }

  lemma {:induction false} StreamFlights(s: Cluster, v: Service, events: seq<StreamEvent>, last: Option<Uuid>)
    requires Shows(s, v.tables, v.queues, v.now) && Attended(s, events)
    ensures Run(s, ServeSteps(events, last))
    ensures InFlight(s, After(s, ServeSteps(events, last)), events, NewBatches(v, Serve(v, events, last)))
    decreases |events|
  {
    if events == [] || events[0].EndOfStream? {
    } else if events[0].Broken? {
      if last.Some? {
        MarkSparesFlights(s, last.value);
      }
    } else {
      var e := events[0];
      var s1, s2 := AnswerFlown(s, v, events);
      var rest := if e.sent then ServeSteps(events[1..], Some(e.node)) else [];
      if e.sent {
        StreamFlights(s2, Answered(v, e), events[1..], Some(e.node));
        FirstBatch(v, events, last);
        FliesFirst(s, s2, After(s2, rest), v, events, NewBatches(Answered(v, e), Serve(v, events, last)));
      }
      TickAndBeat(s, s1, s2, e, rest);
    }
  }

  lemma AnswerFlown(s: Cluster, v: Service, events: seq<StreamEvent>) returns (s1: Cluster, s2: Cluster)
    requires Shows(s, v.tables, v.queues, v.now) && Attended(s, events) && events != [] && events[0].Incoming?
    ensures var e := events[0];
            var beat, w := Heartbeat(e.node, e.stats, e.saved, e.sent), Answered(v, e);
            && s1 == Apply(s, Tick(e.wait)) && Enabled(s1, beat) && s2 == Apply(s1, beat)
            && Shows(s2, w.tables, w.queues, w.now) && Attended(s2, events[1..])
            && forall n :: Chan(s2, n).flight
                        == Chan(s, n).flight + if n == e.node && e.sent then QueueOf(v.queues, n) else []
  {
    s1, s2 := AnswerRuns(s, v, events);
    AnswerFlies(s, s1, s2, v, events[0]);
  }

  lemma TickAndBeat(s: Cluster, s1: Cluster, s2: Cluster, e: StreamEvent, rest: seq<Step>)
    requires e.Incoming? && s1 == Apply(s, Tick(e.wait))
    requires var beat := Heartbeat(e.node, e.stats, e.saved, e.sent);
             Enabled(s1, beat) && s2 == Apply(s1, beat) && Run(s2, rest)
    ensures var steps := [Tick(e.wait)] + ([Heartbeat(e.node, e.stats, e.saved, e.sent)] + rest);
            Run(s, steps) && After(s, steps) == After(s2, rest)
  {
    RunCons(s1, Heartbeat(e.node, e.stats, e.saved, e.sent), rest);
    RunCons(s, Tick(e.wait), [Heartbeat(e.node, e.stats, e.saved, e.sent)] + rest);
  }

  lemma MarkSparesFlights(s: Cluster, n: Uuid)
    ensures Run(s, [LoseNode(n)] + [])
    ensures forall m :: Chan(After(s, [LoseNode(n)] + []), m).flight == Chan(s, m).flight
  {
    RunCons(s, LoseNode(n), []);
    forall m ensures Chan(Apply(s, LoseNode(n)), m).flight == Chan(s, m).flight {
      ChannelAfter(s, LoseNode(n), m);
    }
  }

  lemma AnswerFlies(s: Cluster, s1: Cluster, s2: Cluster, v: Service, e: StreamEvent)
    requires Shows(s, v.tables, v.queues, v.now) && e.Incoming? && s1 == Apply(s, Tick(e.wait))
    requires var beat := Heartbeat(e.node, e.stats, e.saved, e.sent);
             Enabled(s1, beat) && s2 == Apply(s1, beat)
    ensures forall n :: Chan(s2, n).flight
                     == Chan(s, n).flight + if n == e.node && e.sent then QueueOf(v.queues, n) else []
  {
    forall n ensures Chan(s2, n).flight
                  == Chan(s, n).flight + if n == e.node && e.sent then QueueOf(v.queues, n) else []
    {
      ChannelAfter(s, Tick(e.wait), n);
      assert Chan(s, n).queue == QueueOf(v.queues, n);
      BeatFlies(s1, e, n);
    }
  }

  lemma BeatFlies(s: Cluster, e: StreamEvent, n: Uuid)
    requires e.Incoming? && Enabled(s, Heartbeat(e.node, e.stats, e.saved, e.sent))
    ensures Chan(Apply(s, Heartbeat(e.node, e.stats, e.saved, e.sent)), n).flight
         == Chan(s, n).flight + if n == e.node && e.sent then Chan(s, n).queue else []
  {
    ChannelAfter(s, Heartbeat(e.node, e.stats, e.saved, e.sent), n);
  }

  lemma FlightFirst(before: seq<Command>, between: seq<Command>, after: seq<Command>, events: seq<StreamEvent>,
                    first: seq<Command>, rest: seq<seq<Command>>, n: Uuid)
    requires events != [] && events[0].Incoming?
    requires between == before + if n == events[0].node then first else []
    requires after == between + BatchesTo(events[1..], rest, n)
    ensures after == before + BatchesTo(events, [first] + rest, n)
  {
    BatchesToFirst(events, first, rest, n);
    var mine, more := if n == events[0].node then first else [], BatchesTo(events[1..], rest, n);
    assert (before + mine) + more == before + (mine + more);
  }

  lemma FliesFirst(s: Cluster, u: Cluster, t: Cluster, v: Service, events: seq<StreamEvent>, rest: seq<seq<Command>>)
    requires events != [] && events[0].Incoming? && events[0].sent && InFlight(u, t, events[1..], rest)
    requires forall n :: Chan(u, n).flight
                      == Chan(s, n).flight + if n == events[0].node then QueueOf(v.queues, n) else []
    ensures InFlight(s, t, events, [QueueOf(v.queues, events[0].node)] + rest)
  {
    var first := QueueOf(v.queues, events[0].node);
    forall n ensures Chan(t, n).flight == Chan(s, n).flight + BatchesTo(events, [first] + rest, n) {
      FlightFirst(Chan(s, n).flight, Chan(u, n).flight, Chan(t, n).flight, events, first, rest, n);
    }
  }
}
