/** The agent's side of the node service: registration, the heartbeat stream, reports,
    and the reconciliation after a start. */
module Client {
  import opened Wrappers
  import opened Uuids
  import opened Schema
  import opened Commands
  import Libvirt
  import Protocol

  /** One round of the heartbeat loop, as the agent sees it. */
  datatype Exchange = Cancelled | SendFails | ReceiveFails | Response(cmds: seq<Command>)

  /** How RunHeartbeat returns. */
  datatype Ended = ByContext | ByError | StillRunning

  /** The commands of the responses before the first round that is not answered. */
  function Received(rounds: seq<Exchange>): seq<Command> {
    if rounds == [] || !rounds[0].Response? then [] else rounds[0].cmds + Received(rounds[1..])
  }

  /** Round by round: an answered round adds its commands, in order, and the first one that
      is not answered ends the reception. */
  lemma {:induction false} ReceivedLast(rounds: seq<Exchange>, i: nat)
    requires i < |rounds| && forall k | 0 <= k < i :: rounds[k].Response?
    ensures Received(rounds[..i + 1]) == Received(rounds[..i]) + if rounds[i].Response? then rounds[i].cmds else []
    ensures !rounds[i].Response? ==> Received(rounds) == Received(rounds[..i])
    decreases i
  {
    if i > 0 {
      ReceivedLast(rounds[1..], i - 1);
      assert rounds[..i + 1][1..] == rounds[1..][..i] && rounds[..i][1..] == rounds[1..][..i - 1];
    } else if rounds[0].Response? {
      assert rounds[..1][1..] == [] && rounds[0].cmds + [] == rounds[0].cmds;
    }
  }

  /** One stream of the agent's loop: its rounds, whether the agent is shutting down when
      it ends, and the answer to the registration that follows. */
  datatype Session = Session(rounds: seq<Exchange>, stopping: bool, answer: Result<Uuid>)

  /** The sessions up to the one in which the agent shuts down. */
  function Lived(sessions: seq<Session>): seq<Session> {
    if sessions == [] then []
    else if sessions[0].stopping then [sessions[0]]
    else [sessions[0]] + Lived(sessions[1..])
  }

  function ReceivedAll(sessions: seq<Session>): seq<Command> {
    if sessions == [] then [] else Received(sessions[0].rounds) + ReceivedAll(sessions[1..])
  }

  /** The identifier after these sessions: the last one a registration answered, if the
      agent went on to register. */
  function IdAfter(id: Option<Uuid>, sessions: seq<Session>): Option<Uuid>
    decreases |sessions|
  {
    if sessions == [] || sessions[0].stopping then id
    else IdAfter(if sessions[0].answer.Ok? then Some(sessions[0].answer.value) else id, sessions[1..])
  }

  /** The sessions lived are those up to the first in which the agent shuts down, at k if
      there is one; the identifier is the last one answered before it. */
  lemma {:induction false} SessionsUntil(id: Option<Uuid>, sessions: seq<Session>, k: nat)
    requires k <= |sessions| && (forall i | 0 <= i < k :: !sessions[i].stopping)
    requires k < |sessions| ==> sessions[k].stopping
    ensures Lived(sessions) == if k < |sessions| then sessions[..k + 1] else sessions
    ensures (forall i | 0 <= i < k :: sessions[i].answer.Err?) ==> IdAfter(id, sessions) == id
    ensures forall j | 0 <= j < k && sessions[j].answer.Ok? && (forall i | j < i < k :: sessions[i].answer.Err?) ::
              IdAfter(id, sessions) == Some(sessions[j].answer.value)
    decreases |sessions|
  {
    if k > 0 {
      var rest, next := sessions[1..], if sessions[0].answer.Ok? then Some(sessions[0].answer.value) else id;
      SessionsUntil(next, rest, k - 1);
      assert sessions == [sessions[0]] + rest;
      forall j | 0 <= j < k && sessions[j].answer.Ok? && (forall i | j < i < k :: sessions[i].answer.Err?)
        ensures IdAfter(id, sessions) == Some(sessions[j].answer.value)
      {
        if j > 0 {
          assert rest[j - 1] == sessions[j] && forall i | j - 1 < i < k - 1 :: rest[i] == sessions[i + 1];
        }
      }
    }
  }

  /** Session by session: each adds what its rounds received. */
  lemma {:induction false} ReceivedInOrder(sessions: seq<Session>, i: nat)
    requires i < |sessions|
    ensures ReceivedAll(sessions[..i + 1]) == ReceivedAll(sessions[..i]) + Received(sessions[i].rounds)
    decreases i
  {
    if i > 0 {
      ReceivedInOrder(sessions[1..], i - 1);
      assert sessions[..i + 1][1..] == sessions[1..][..i] && sessions[..i][1..] == sessions[1..][..i - 1];
    } else {
      assert sessions[..1][1..] == [] && Received(sessions[0].rounds) + [] == Received(sessions[0].rounds);
    }
  }

  /** A node whose address always gets the same answer never changes its identifier,
      however often it reconnects and however many registrations fail. */
  lemma {:induction false} IdKept(id: Uuid, sessions: seq<Session>)
    requires forall i | 0 <= i < |sessions| && sessions[i].answer.Ok? :: sessions[i].answer.value == id
    ensures IdAfter(Some(id), sessions) == Some(id)
    decreases |sessions|
  {
    if sessions != [] && !sessions[0].stopping {
      IdKept(id, sessions[1..]);
    }
  }

  /** The listed infos, as the protocol's reports. */
  lemma Listing(domains: Domains, infos: seq<Libvirt.VmInfo>) returns (listing: seq<Report>)
    requires forall i | 0 <= i < |infos| ::
               infos[i].name in domains && Libvirt.Describes(infos[i], domains[infos[i].name])
    ensures var names := Libvirt.NamesOf(infos);
            (forall i | 0 <= i < |names| :: names[i] in domains) && listing == Protocol.ListingOf(domains, names)
    ensures |listing| == |infos|
    ensures forall i | 0 <= i < |infos| ::
              Parse(infos[i].id).Some? && listing[i] == Report(Parse(infos[i].id).value, infos[i].status, None)
  {
    listing := Protocol.ListingOf(domains, Libvirt.NamesOf(infos));
  }

  /** What the session at i contributes. */
  lemma NextSession(handled: seq<Command>, id: Option<Uuid>, sessions: seq<Session>, i: nat)
    requires i < |sessions|
    ensures var v := sessions[i];
            && handled + ReceivedAll(Lived(sessions[i..]))
               == handled + Received(v.rounds) + (if v.stopping then [] else ReceivedAll(Lived(sessions[i + 1..])))
            && IdAfter(id, sessions[i..])
               == if v.stopping then id
                  else IdAfter(if v.answer.Ok? then Some(v.answer.value) else id, sessions[i + 1..])
  {
    var rest := sessions[i..];
    assert rest[0] == sessions[i] && rest[1..] == sessions[i + 1..];
    assert ([rest[0]] + Lived(rest[1..]))[1..] == Lived(rest[1..]);
  }

  class Client {
    var nodeId: Option<Uuid>
    var handled: seq<Command>   // what the handler was given
    var reports: seq<Report>    // what was reported, delivered or not

    constructor ()
      ensures nodeId == None && handled == [] && reports == []
    {
      nodeId, handled, reports := None, [], [];
    }

    /** A failed registration keeps the identifier of the last one. */
    method Register(answer: Result<Uuid>) returns (ok: bool)
      modifies this`nodeId
      ensures ok == answer.Ok?
      ensures nodeId == if answer.Ok? then Some(answer.value) else old(nodeId)
    {
      if answer.Err? {
        return false;
      }
      nodeId := Some(answer.value);
      ok := true;
    }

    /** The handler is given exactly the commands of the answered rounds, in order and
        each once, and the loop stops at the first round that is not answered. */
    method RunHeartbeat(rounds: seq<Exchange>) returns (r: Ended)
      modifies this`handled
      ensures handled == old(handled) + Received(rounds)
      ensures r.StillRunning? <==> forall k | 0 <= k < |rounds| :: rounds[k].Response?
      ensures !r.StillRunning? ==> exists k | 0 <= k < |rounds| ::
                && !rounds[k].Response? && (r.ByContext? <==> rounds[k].Cancelled?)
                && forall j | 0 <= j < k :: rounds[j].Response?
    {
      for i := 0 to |rounds|
        invariant forall k | 0 <= k < i :: rounds[k].Response?
        invariant handled == old(handled) + Received(rounds[..i])
      {
        ReceivedLast(rounds, i);
        match rounds[i]
        case Cancelled => return ByContext;
        case SendFails => return ByError;
        case ReceiveFails => return ByError;
        case Response(cmds) =>
          ghost var before := handled;
          for j := 0 to |cmds|
            invariant handled == before + cmds[..j]
          {
            handled := handled + [cmds[j]];
          }
      }
      assert rounds[..|rounds|] == rounds;
      r := StillRunning;
    }

    /** The agent's loop: a stream, and a new registration whenever it breaks. A failed
        registration keeps the identifier. */
    method KeepConnected(sessions: seq<Session>)
      modifies this`handled, this`nodeId
      ensures handled == old(handled) + ReceivedAll(Lived(sessions))
      ensures nodeId == IdAfter(old(nodeId), sessions)
    {
      ghost var all, id := handled + ReceivedAll(Lived(sessions)), IdAfter(nodeId, sessions);
      var i, stopping := 0, false;
      while i < |sessions| && !stopping
        invariant 0 <= i <= |sessions|
        invariant all == handled + if stopping then [] else ReceivedAll(Lived(sessions[i..]))
        invariant id == if stopping then nodeId else IdAfter(nodeId, sessions[i..])
      {
        NextSession(handled, nodeId, sessions, i);
        var _ := RunHeartbeat(sessions[i].rounds);
        stopping := sessions[i].stopping;
        if !stopping {
          var _ := Register(sessions[i].answer);
        }
        i := i + 1;
      }
    }

    method ReportVmStatus(report: Report)
      modifies this`reports
      ensures reports == old(reports) + [report]
    {
      reports := reports + [report];
    }

    /** reconcileVMs: one report for every domain whose state libvirt answers, naming the
        instance the domain was defined for, without an address. These are the reports
        of a listing in the protocol. */
    method ReconcileVms(lv: Libvirt.Manager, listed: seq<string>, answered: set<string>)
      requires forall i | 0 <= i < |listed| :: listed[i] in lv.domains
      requires forall i, j | 0 <= i < j < |listed| :: listed[i] != listed[j]
      modifies this`reports
      ensures var names := Libvirt.Kept(listed, answered);
              && (forall i | 0 <= i < |names| :: names[i] in lv.domains)
              && (forall i, j | 0 <= i < j < |names| :: names[i] != names[j])
              && reports == old(reports) + Protocol.ListingOf(lv.domains, names)
    {
      Libvirt.KeptNames(listed, answered);
      var infos := lv.ListVmInfos(listed, answered);
      ghost var listing := Listing(lv.domains, infos);
      ReportAll(infos, listing);
    }

    method ReportAll(infos: seq<Libvirt.VmInfo>, ghost listing: seq<Report>)
      requires |listing| == |infos|
      requires forall i | 0 <= i < |infos| ::
                 Parse(infos[i].id).Some? && listing[i] == Report(Parse(infos[i].id).value, infos[i].status, None)
      modifies this`reports
      ensures reports == old(reports) + listing
    {
      for i := 0 to |infos|
        invariant reports == old(reports) + listing[..i]
      {
        var vm := Parse(infos[i].id).value;
        assert listing[..i + 1] == listing[..i] + [listing[i]];
        ReportVmStatus(Report(vm, infos[i].status, None));
      }
      assert listing[..|infos|] == listing;
    }
  }
}
