/** The API services. Each request is proved against the rows and queues it leaves,
    and against the run of the protocol that it amounts to when nothing interleaves.
    Time, fresh identifiers and passwords are parameters. */
module Services {
  import opened Wrappers
  import opened Ipv4
  import opened Uuids
  import Naming
  import opened Schema
  import opened Commands
  import opened Dispatching
  import opened Stores
  import opened Scheduling
  import opened Protocol
  import opened Refinement

  /** What allocateIP answers: the address, the prefix and the gateway. */
  datatype Allocation = Allocation(ip: Address, prefix: nat, gateway: Address)

  /** host:port with the port replaced by the console's. */
  const CONSOLE := ":9090"

  /** `host` is the address up to its last colon, or all of it when it has none. */
  predicate IsHostPart(host: string, address: string) {
    if ':' !in address then host == address
    else |host| < |address| && address[..|host|] == host && address[|host|] == ':' && ':' !in address[|host| + 1..]
  }

  /** The command is the one addition to the queues, at the end of the queue of n. */
  ghost predicate OneMore(queues: Queues, queues': Queues, n: Uuid, cmd: Command) {
    forall m :: QueueOf(queues', m) == QueueOf(queues, m) + if m == n then [cmd] else []
  }

  /** A create that is refused changes nothing. */
  ghost predicate Refused(t: Tables, queues: Queues, e: Error, r: Result<InstanceRow>, t': Tables, queues': Queues) {
    r == Err(e) && t' == t && queues' == queues
  }

  /** One that is not leaves its row and its command, or only its row, without an address. */
  ghost predicate Accepted(t: Tables, queues: Queues, id: Uuid, up: bool, plan: Plan,
                           r: Result<InstanceRow>, t': Tables, queues': Queues) {
    if up then
      && r == Ok(CreatedRow(plan)) && t' == Created(t, id, plan)
      && queues' == Pushed(queues, plan.node, CreateCommand(plan, id))
    else
      r == Err(Unavailable) && t' == Unaddressed(t, id, plan) && queues' == queues
  }

  /** How a create leaves the rows and queues. */
  ghost predicate CreateAnswered(t: Tables, queues: Queues, req: Request, id: Uuid, now: int, up: bool, node: Uuid,
                                 r: Result<InstanceRow>, t': Tables, queues': Queues) {
    var refused := Refusal(t, req, id, now);
    if refused.Some? then Refused(t, queues, refused.value, r, t', queues')
    else IsPick(t, node, MinRam(req), now) && Accepted(t, queues, id, up, PlanOf(t, req, node), r, t', queues')
  }

  /** A deleted row is gone, whether or not it was marked before. */
  lemma RowDeleted(t: Tables, id: Uuid, db: Saves)
    requires id in t.instances
    ensures AfterAsk(t, AskDelete, id, db).instances
         == if db.dropped then t.instances - {id}
            else if db.marked then t.instances[id := t.instances[id].(status := Terminating, ip := None)]
            else t.instances
  {
    var marked := t.instances[id := t.instances[id].(status := Terminating, ip := None)];
    assert marked - {id} == t.instances - {id};
  }

  class InstanceService {
    const store: InstanceStore
    const vpcs: VpcStore
    const nodes: NodeStore
    const scheduler: Scheduler
    const dispatcher: Dispatcher

    ghost predicate Valid()
      reads store.db, dispatcher
    {
      && vpcs.db == store.db && nodes.db == store.db && scheduler.nodes == nodes
      && store.db.Consistent() && dispatcher.Valid()
    }

    constructor (store: InstanceStore, vpcs: VpcStore, nodes: NodeStore, scheduler: Scheduler, dispatcher: Dispatcher)
      requires vpcs.db == store.db && nodes.db == store.db && scheduler.nodes == nodes
      requires store.db.Consistent() && dispatcher.Valid()
      ensures Valid() && this.store == store && this.dispatcher == dispatcher
    {
      this.store, this.vpcs, this.nodes, this.scheduler, this.dispatcher := store, vpcs, nodes, scheduler, dispatcher;
    }

    /** The name of an instance's domain and where its node's console listens. */
    method NodeAddressForInstance(id: Uuid) returns (r: Result<(string, string)>)
      requires Valid()
      ensures id !in store.db.instances ==> r == Err(NotFound)
      ensures id in store.db.instances ==>
                var row := store.db.instances[id];
                && r.Ok? && r.value.0 == row.name
                && exists host :: IsHostPart(host, store.db.nodes[row.node].info.address) && r.value.1 == host + CONSOLE
    {
      var inst := store.Get(id);
      if inst.Err? {
        return Err(inst.error);
      }
      var node := nodes.GetById(inst.value.node);
      assert inst.value.node in store.db.Contents().nodes;
      var address := node.value.row.info.address;
      var host := address;
      var i := |address|;
      while i > 0
        invariant 0 <= i <= |address| && host == address && ':' !in address[i..]
      {
        i := i - 1;
        if host[i] == ':' {
          host := host[..i];
          assert address[i] in address;
          break;
        }
      }
      assert IsHostPart(host, address);
      r := Ok((inst.value.name, host + CONSOLE));
    }

    /** The controller's own computation of the gateway. */
    method GatewayIp(net: Network) returns (gateway: Address)
      ensures gateway == Gateway(net)
    {
      var gw4 := CopyOf(net.base);
      gw4[3] := Incremented(gw4[3]);
      gateway := Address(gw4[0], gw4[1], gw4[2], gw4[3]);
    }

    /** The address for a count: the last byte of a copy is overwritten. */
    method VmIp(net: Network, count: nat) returns (ip: Address)
      ensures ip == VmAddress(net, count)
    {
      var vm4 := CopyOf(net.base);
      vm4[3] := (11 + count) % 256;
      ip := Address(vm4[0], vm4[1], vm4[2], vm4[3]);
    }

    /** allocateIP: the addresses are copies of the base whose last byte is changed. */
    method AllocateIp(vpc: Uuid, cidr: Cidr) returns (r: Result<Allocation>)
      ensures var p := ParseCidr(cidr);
              if p.Err? then r == Err(p.error)
              else
                var ip := VmAddress(p.value, CountByVpc(store.db.Contents(), vpc));
                r == Ok(Allocation(ip, p.value.prefix, Gateway(p.value)))
    {
      var p := ParseCidr(cidr);
      if p.Err? {
        return Err(p.error);
      }
      var gateway := GatewayIp(p.value);
      var count := store.CountByVpc(vpc);
      var ip := VmIp(p.value, count);
      r := Ok(Allocation(ip, p.value.prefix, gateway));
    }

    /** The first half of a create reads only: the checks of the request, its VPC, and the
        choice of a node. */
    method Examine(req: Request, now: int) returns (r: Result<(VpcRow, Node)>)
      requires Valid()
      ensures var t := store.db.Contents();
              match r
              case Err(e) => Unplaceable(t, req, now) == Some(e)
              case Ok((vpc, node)) =>
                && Unplaceable(t, req, now) == None && vpc == t.vpcs[req.vpc]
                && IsPick(t, node.id, MinRam(req), now)
    {
      if req.name == "" {
        return Err(InvalidRequest);
      }
      if req.spec.vcpus < 1 {
        return Err(InvalidRequest);
      }
      if req.spec.ramMb < 512 {
        return Err(InvalidRequest);
      }
      var vpc := vpcs.Get(req.vpc);
      if vpc.Err? {
        return Err(vpc.error);
      }
      var node := scheduler.PickNode(req.spec.ramMb * 1024 * 1024, now);
      if node.Err? {
        return Err(node.error);
      }
      r := Ok((vpc.value, node.value));
    }

    /** The second half allocates an address, inserts the row and stores the address. */
    method Enter(req: Request, id: Uuid, vpc: VpcRow, node: Uuid, up: bool) returns (r: Result<Allocation>)
      requires Valid() && req.vpc in store.db.vpcs && store.db.vpcs[req.vpc] == vpc && node in store.db.nodes
      modifies store.db`instances
      ensures Valid()
      ensures var t := old(store.db.Contents());
              if ParseCidr(vpc.cidr).Err? then
                r == Err(ParseCidr(vpc.cidr).error) && store.db.Contents() == t
              else if id in t.instances then
                r == Err(DuplicateKey) && store.db.Contents() == t
              else
                var plan := PlanOf(t, req, node);
                if up then
                  && r == Ok(Allocation(plan.ip, plan.net.prefix, Gateway(plan.net)))
                  && store.db.Contents() == Created(t, id, plan)
                else r == Err(Unavailable) && store.db.Contents() == Unaddressed(t, id, plan)
    {
      ghost var t := store.db.Contents();
      var alloc := AllocateIp(req.vpc, vpc.cidr);
      if alloc.Err? {
        return Err(alloc.error);
      }
      var created := store.Create(id, req.name, node, req.vpc, req.spec);
      if created.Err? {
        return Err(created.error);
      }
      InsertThenAddress(t, id, PlanOf(t, req, node));
      var updated := store.UpdateStatus(id, Pending, Some(alloc.value.ip), up);
      if updated.Err? {
        return Err(updated.error);
      }
      r := alloc;
    }

    /** The command of a create. */
    method Send(id: Uuid, cidr: Cidr, alloc: Allocation, ghost plan: Plan, req: Request, node: Uuid)
      requires Valid() && plan.req == req && plan.cidr == cidr
      requires alloc == Allocation(plan.ip, plan.net.prefix, Gateway(plan.net))
      modifies dispatcher
      ensures Valid() && dispatcher.queues == Pushed(old(dispatcher.queues), node, CreateCommand(plan, id))
    {
      var bridge := Naming.ControllerBridgeName(Text(req.vpc));
      var cmd := CreateVm(id, req.name, req.vpc, cidr, bridge, alloc.ip, alloc.prefix, alloc.gateway,
                          req.spec, req.sshKey);
      dispatcher.Enqueue(node, cmd);
    }

    /** A create that is refused changes nothing. Otherwise it leaves one pending row, with
        the next address of its VPC, on a node whose statistics have room for its RAM, and
        one create_vm on that node's queue; but when the database is down for its second
        statement, a row without an address and no command. */
    method Create(req: Request, id: Uuid, now: int, up: bool) returns (r: Result<InstanceRow>, ghost node: Uuid)
      requires Valid()
      modifies store.db`instances, dispatcher
      ensures Valid()
      ensures r == Err(InvalidRequest) <==> req.name == "" || req.spec.vcpus < 1 || req.spec.ramMb < 512
      ensures r == Err(NotEnoughRam)
              <==> req.name != "" && req.spec.vcpus >= 1 && req.spec.ramMb >= 512 && req.vpc in store.db.vpcs
                   && (exists n :: n in store.db.nodes && Fresh(store.db.nodes[n], now))
                   && NoRoom(store.db.nodes, req.spec.ramMb, now)
      ensures r.Ok? || r == Err(Unavailable) ==>
                Roomiest(store.db.nodes, node, req.spec.ramMb, now)
      ensures r.Err? && r != Err(Unavailable) ==> store.db.Contents() == old(store.db.Contents())
      ensures r.Err? ==> dispatcher.queues == old(dispatcher.queues)
      ensures r == Err(Unavailable) ==>
                store.db.instances
                == old(store.db.instances)[id := InstanceRow(req.name, Pending, node, req.vpc, req.spec, None)]
      ensures r.Ok? ==>
                && req.vpc in store.db.vpcs && ParseCidr(store.db.vpcs[req.vpc].cidr).Ok?
                && var cidr, net := store.db.vpcs[req.vpc].cidr, ParseCidr(store.db.vpcs[req.vpc].cidr).value;
                   var ip := VmAddress(net, CountByVpc(old(store.db.Contents()), req.vpc));
                   && r.value == InstanceRow(req.name, Pending, node, req.vpc, req.spec, Some(ip))
                   && store.db.instances == old(store.db.instances)[id := r.value]
                   && OneMore(old(dispatcher.queues), dispatcher.queues, node,
                              CreateVm(id, req.name, req.vpc, cidr, Naming.BridgeName(Text(req.vpc)), ip, net.prefix,
                                       Gateway(net), req.spec, req.sshKey))
      ensures CreateAnswered(old(store.db.Contents()), old(dispatcher.queues), req, id, now, up, node, r,
                             store.db.Contents(), dispatcher.queues)
      ensures r.Ok? ==> ServedCreate(old(store.db.Contents()), old(dispatcher.queues), now, req, node, id,
                                     store.db.Contents(), dispatcher.queues)
      ensures r == Err(Unavailable) ==>
                ServedShort(old(store.db.Contents()), old(dispatcher.queues), now, req, node, id, store.db.Contents())
    {
      ghost var t, queues := store.db.Contents(), dispatcher.queues;
      r, node := Attempt(req, id, now, up);
      CreateLeaves(t, queues, req, id, now, up, node, r, store.db.Contents(), dispatcher.queues);
      CreateMeans(t, queues, req, id, now, up, node, r, store.db.Contents(), dispatcher.queues);
    }

    method Attempt(req: Request, id: Uuid, now: int, up: bool) returns (r: Result<InstanceRow>, ghost node: Uuid)
      requires Valid()
      modifies store.db`instances, dispatcher
      ensures Valid()
      ensures CreateAnswered(old(store.db.Contents()), old(dispatcher.queues), req, id, now, up, node, r,
                             store.db.Contents(), dispatcher.queues)
    {
      node := 0;
      var examined := Examine(req, now);
      if examined.Err? {
        return Err(examined.error), node;
      }
      var (vpc, picked) := examined.value;
      node := picked.id;
      r := EnterAndSend(req, id, vpc, picked.id, up);
    }

    method EnterAndSend(req: Request, id: Uuid, vpc: VpcRow, node: Uuid, up: bool) returns (r: Result<InstanceRow>)
      requires Valid() && req.vpc in store.db.vpcs && store.db.vpcs[req.vpc] == vpc && node in store.db.nodes
      modifies store.db`instances, dispatcher
      ensures Valid()
      ensures var t, queues := old(store.db.Contents()), old(dispatcher.queues);
              if ParseCidr(vpc.cidr).Err? then
                Refused(t, queues, ParseCidr(vpc.cidr).error, r, store.db.Contents(), dispatcher.queues)
              else if id in t.instances then
                Refused(t, queues, DuplicateKey, r, store.db.Contents(), dispatcher.queues)
              else
                Accepted(t, queues, id, up, PlanOf(t, req, node), r, store.db.Contents(), dispatcher.queues)
    {
      ghost var t := store.db.Contents();
      var alloc := Enter(req, id, vpc, node, up);
      if alloc.Err? {
        return Err(alloc.error);
      }
      Send(id, vpc.cidr, alloc.value, PlanOf(t, req, node), req, node);
      r := store.Get(id);
    }

    /** Start marks the row as starting, clears its address, and enqueues one start_vm, with
        the instance's name and VPC and the CIDR of the VPC, on the queue of its node. */
    method Start(id: Uuid, up: bool) returns (r: Result<()>)
      requires Valid()
      modifies store.db`instances, dispatcher
      ensures r.Ok? <==> id in old(store.db.instances) && up
      ensures r.Err? ==> store.db.Contents() == old(store.db.Contents()) && dispatcher.queues == old(dispatcher.queues)
      ensures r.Ok? ==>
                var row := old(store.db.instances)[id];
                && row.vpc in store.db.vpcs
                && store.db.instances == old(store.db.instances)[id := row.(status := Starting, ip := None)]
                && OneMore(old(dispatcher.queues), dispatcher.queues, row.node,
                           StartVm(id, row.name, row.vpc, store.db.vpcs[row.vpc].cidr))
      ensures Valid() && AskAnswered(old(store.db.Contents()), old(dispatcher.queues), AskStart, id, Saves(up, true), r)
    {
      ghost var t, queues := store.db.Contents(), dispatcher.queues;
      var inst := store.Get(id);
      if inst.Err? {
        return Err(inst.error);
      }
      var vpc := vpcs.Get(inst.value.vpc);
      assert inst.value.vpc in t.vpcs;
      var marked := store.UpdateStatus(id, Starting, None, up);
      if marked.Err? {
        return marked;
      }
      dispatcher.Enqueue(inst.value.node, StartVm(id, inst.value.name, inst.value.vpc, vpc.value.cidr));
      AskServes(t, queues, AskStart, id, Saves(up, true));
      r := Ok(());
    }

    /** Stop marks the row as stopping, clears its address, and enqueues one stop_vm, not
        forced, on the queue of the instance's node. */
    method Stop(id: Uuid, up: bool) returns (r: Result<()>)
      requires Valid()
      modifies store.db`instances, dispatcher
      ensures r.Ok? <==> id in old(store.db.instances) && up
      ensures r.Err? ==> store.db.Contents() == old(store.db.Contents()) && dispatcher.queues == old(dispatcher.queues)
      ensures r.Ok? ==>
                var row := old(store.db.instances)[id];
                && store.db.instances == old(store.db.instances)[id := row.(status := Stopping, ip := None)]
                && OneMore(old(dispatcher.queues), dispatcher.queues, row.node, StopVm(id, row.name, false))
      ensures Valid() && AskAnswered(old(store.db.Contents()), old(dispatcher.queues), AskStop, id, Saves(up, true), r)
    {
      ghost var t, queues := store.db.Contents(), dispatcher.queues;
      var inst := store.Get(id);
      if inst.Err? {
        return Err(inst.error);
      }
      assert inst.value.vpc in t.vpcs;
      var marked := store.UpdateStatus(id, Stopping, None, up);
      if marked.Err? {
        return marked;
      }
      dispatcher.Enqueue(inst.value.node, StopVm(id, inst.value.name, false));
      AskServes(t, queues, AskStop, id, Saves(up, true));
      r := Ok(());
    }

    /** Delete enqueues one delete_vm on the queue of the instance's node, whether or not it
        could mark the row as terminating, and then removes the row, if it can. */
    method Delete(id: Uuid, db: Saves) returns (r: Result<()>)
      requires Valid()
      modifies store.db`instances, dispatcher
      ensures r.Ok? <==> id in old(store.db.instances) && db.dropped
      ensures id !in old(store.db.instances) ==>
                store.db.Contents() == old(store.db.Contents()) && dispatcher.queues == old(dispatcher.queues)
      ensures id in old(store.db.instances) ==>
                var rows := old(store.db.instances);
                && store.db.instances == (if db.dropped then
                                            rows - {id}
                                          else if db.marked then
                                            rows[id := rows[id].(status := Terminating, ip := None)]
                                          else
                                            rows)
                && OneMore(old(dispatcher.queues), dispatcher.queues, rows[id].node, DeleteVm(id, rows[id].name))
      ensures Valid() && AskAnswered(old(store.db.Contents()), old(dispatcher.queues), AskDelete, id, db, r)
    {
      ghost var t, queues := store.db.Contents(), dispatcher.queues;
      r := Erase(id, db);
      if id in t.instances {
        assert t.instances[id].vpc in t.vpcs;
        RowDeleted(t, id, db);
        AskServes(t, queues, AskDelete, id, db);
      }
    }

    /** The statements of a delete, and its command. */
    method Erase(id: Uuid, db: Saves) returns (r: Result<()>)
      requires Valid()
      modifies store.db`instances, dispatcher
      ensures Valid()
      ensures var rows := old(store.db.instances);
              if id !in rows then
                r == Err(NotFound) && store.db.instances == rows && dispatcher.queues == old(dispatcher.queues)
              else
                && r == (if db.dropped then Ok(()) else Err(Unavailable))
                && store.db.Contents() == AfterAsk(old(store.db.Contents()), AskDelete, id, db)
                && dispatcher.queues == Pushed(old(dispatcher.queues), rows[id].node, DeleteVm(id, rows[id].name))
    {
      var inst := store.Get(id);
      if inst.Err? {
        return Err(inst.error);
      }
      var _ := store.UpdateStatus(id, Terminating, None, db.marked);
      dispatcher.Enqueue(inst.value.node, DeleteVm(id, inst.value.name));
      r := store.Delete(id, db.dropped);
    }

    /** How a start, stop or delete leaves the rows and queues: unchanged when there is no
        such instance, or when a start or stop cannot mark it; otherwise as the steps of
        the cluster do, with an error when a delete could not remove the row. */
    ghost predicate AskAnswered(t: Tables, queues: Queues, ask: Ask, id: Uuid, db: Saves, r: Result<()>)
      reads store.db, dispatcher
    {
      if id !in t.instances then
        r == Err(NotFound) && store.db.Contents() == t && dispatcher.queues == queues
      else if !db.marked && !ask.AskDelete? then
        r == Err(Unavailable) && store.db.Contents() == t && dispatcher.queues == queues
      else
        && r == (if ask.AskDelete? && !db.dropped then Err(Unavailable) else Ok(()))
        && t.instances[id].vpc in t.vpcs
        && store.db.Contents() == AfterAsk(t, ask, id, db)
        && dispatcher.queues == Pushed(queues, t.instances[id].node, AskedCommand(TargetOf(t, ask, id)))
        && ServedAsk(t, queues, ask, id, db, store.db.Contents(), dispatcher.queues)
    }
  }

  /** Why no node can be chosen for a request, if none can. */
  ghost function Unplaceable(t: Tables, req: Request, now: int): (e: Option<Error>)
    ensures e.None? <==> ValidRequest(req) && req.vpc in t.vpcs
                         && exists n :: n in t.nodes && Fresh(t.nodes[n], now) && RamFree(t.nodes[n]) >= MinRam(req)
  {
    if !ValidRequest(req) then Some(InvalidRequest)
    else if req.vpc !in t.vpcs then Some(NotFound)
    else if !exists n :: n in t.nodes && Fresh(t.nodes[n], now) then Some(NoHealthyNode)
    else if !exists n :: n in t.nodes && Fresh(t.nodes[n], now) && RamFree(t.nodes[n]) >= MinRam(req) then
      Some(NotEnoughRam)
    else None
  }

  /** Why a create changes nothing, if it does not. */
  ghost function Refusal(t: Tables, req: Request, id: Uuid, now: int): (e: Option<Error>)
    ensures e.None? ==> req.vpc in t.vpcs && ParseCidr(t.vpcs[req.vpc].cidr).Ok? && id !in t.instances
  {
    if Unplaceable(t, req, now).Some? then Unplaceable(t, req, now)
    else if ParseCidr(t.vpcs[req.vpc].cidr).Err? then Some(ParseCidr(t.vpcs[req.vpc].cidr).error)
    else if id in t.instances then Some(DuplicateKey)
    else None
  }

  /** A fresh node that last sent statistics with this many whole megabytes of RAM free;
      one that sent none has no room. */
  predicate HasRoom(row: NodeRow, ramMb: int, now: int) {
    && row.status == Healthy && row.lastSeen > now - 30
    && row.stats.Some? && row.stats.value.ramFree / 0x10_0000 >= ramMb
  }

  /** The node has room, and none that has room has more RAM free. */
  ghost predicate Roomiest(rows: map<Uuid, NodeRow>, n: Uuid, ramMb: int, now: int) {
    && n in rows && HasRoom(rows[n], ramMb, now)
    && forall m | m in rows && HasRoom(rows[m], ramMb, now) ::
         rows[m].stats.value.ramFree <= rows[n].stats.value.ramFree
  }

  predicate NoRoom(rows: map<Uuid, NodeRow>, ramMb: int, now: int) {
    forall n | n in rows :: !HasRoom(rows[n], ramMb, now)
  }

  lemma PickHasRoom(t: Tables, n: Uuid, req: Request, now: int)
    requires ValidRequest(req) && IsPick(t, n, MinRam(req), now)
    ensures Roomiest(t.nodes, n, req.spec.ramMb, now)
  {
    forall m | m in t.nodes && HasRoom(t.nodes[m], req.spec.ramMb, now)
      ensures t.nodes[m].stats.value.ramFree <= t.nodes[n].stats.value.ramFree
    {
      assert Fresh(t.nodes[m], now);
    }
  }

  /** What an accepted create leaves is what a run leads to, on a node that has room. */
  lemma AcceptanceMeans(t: Tables, queues: Queues, req: Request, id: Uuid, now: int, node: Uuid)
    requires Refusal(t, req, id, now).None? && IsPick(t, node, MinRam(req), now)
    ensures Roomiest(t.nodes, node, req.spec.ramMb, now)
    ensures var plan := PlanOf(t, req, node);
            && ServedCreate(t, queues, now, req, node, id, Created(t, id, plan),
                            Pushed(queues, node, CreateCommand(plan, id)))
            && ServedShort(t, queues, now, req, node, id, Unaddressed(t, id, plan))
  {
    PickHasRoom(t, node, req, now);
    CreateServes(t, queues, now, req, node, id);
    StopsShort(t, queues, now, req, node, id);
  }

  /** The row and the command of a create that works; what one leaves that does not. */
  lemma CreateLeaves(t: Tables, queues: Queues, req: Request, id: Uuid, now: int, up: bool, node: Uuid,
                     r: Result<InstanceRow>, t': Tables, queues': Queues)
    requires CreateAnswered(t, queues, req, id, now, up, node, r, t', queues')
    ensures t'.nodes == t.nodes && t'.vpcs == t.vpcs
    ensures r.Err? && r != Err(Unavailable) ==> t' == t
    ensures r.Err? ==> queues' == queues
    ensures r == Err(Unavailable) ==>
              t'.instances == t.instances[id := InstanceRow(req.name, Pending, node, req.vpc, req.spec, None)]
    ensures r.Ok? ==>
              && req.vpc in t.vpcs && ParseCidr(t.vpcs[req.vpc].cidr).Ok?
              && var cidr, net := t.vpcs[req.vpc].cidr, ParseCidr(t.vpcs[req.vpc].cidr).value;
                 var ip := VmAddress(net, CountByVpc(t, req.vpc));
                 && r.value == InstanceRow(req.name, Pending, node, req.vpc, req.spec, Some(ip))
                 && t'.instances == t.instances[id := r.value]
                 && OneMore(queues, queues', node,
                            CreateVm(id, req.name, req.vpc, cidr, Naming.BridgeName(Text(req.vpc)), ip, net.prefix,
                                     Gateway(net), req.spec, req.sshKey))
  {
    RefusalMeans(t, req, id, now);
  }

  lemma CreateMeans(t: Tables, queues: Queues, req: Request, id: Uuid, now: int, up: bool, node: Uuid,
                    r: Result<InstanceRow>, t': Tables, queues': Queues)
    requires CreateAnswered(t, queues, req, id, now, up, node, r, t', queues')
    ensures r == Err(InvalidRequest) <==> req.name == "" || req.spec.vcpus < 1 || req.spec.ramMb < 512
    ensures r == Err(NotEnoughRam)
            <==> req.name != "" && req.spec.vcpus >= 1 && req.spec.ramMb >= 512 && req.vpc in t.vpcs
                 && (exists n :: n in t.nodes && Fresh(t.nodes[n], now)) && NoRoom(t.nodes, req.spec.ramMb, now)
    ensures r.Ok? || r == Err(Unavailable) ==> Roomiest(t.nodes, node, req.spec.ramMb, now)
    ensures r.Ok? ==> ServedCreate(t, queues, now, req, node, id, t', queues')
    ensures r == Err(Unavailable) ==> ServedShort(t, queues, now, req, node, id, t')
  {
    RefusalMeans(t, req, id, now);
    if Refusal(t, req, id, now).None? {
      AcceptanceMeans(t, queues, req, id, now, node);
    }
  }

  /** A request is invalid exactly by its name and its sizes, and is refused for want of
      RAM exactly when fresh nodes exist and none has room. */
  lemma RefusalMeans(t: Tables, req: Request, id: Uuid, now: int)
    ensures Refusal(t, req, id, now) == Some(InvalidRequest)
            <==> req.name == "" || req.spec.vcpus < 1 || req.spec.ramMb < 512
    ensures Refusal(t, req, id, now) == Some(NotEnoughRam)
            <==> req.name != "" && req.spec.vcpus >= 1 && req.spec.ramMb >= 512 && req.vpc in t.vpcs
                 && (exists n :: n in t.nodes && Fresh(t.nodes[n], now)) && NoRoom(t.nodes, req.spec.ramMb, now)
    ensures Refusal(t, req, id, now) != Some(Unavailable)
  {
    forall n | n in t.nodes && req.spec.ramMb >= 512
      ensures HasRoom(t.nodes[n], req.spec.ramMb, now)
              <==> Fresh(t.nodes[n], now) && RamFree(t.nodes[n]) >= MinRam(req)
    {
    }
  }

  class VpcService {
    const store: VpcStore
    const scheduler: Scheduler
    const dispatcher: Dispatcher

    ghost predicate Valid()
      reads store.db, dispatcher
    {
      scheduler.nodes.db == store.db && store.db.Consistent() && dispatcher.Valid()
    }

    constructor (store: VpcStore, scheduler: Scheduler, dispatcher: Dispatcher)
      requires scheduler.nodes.db == store.db && store.db.Consistent() && dispatcher.Valid()
      ensures Valid() && this.store == store && this.dispatcher == dispatcher
    {
      this.store, this.scheduler, this.dispatcher := store, scheduler, dispatcher;
    }

    /** A VPC is stored, and one command goes to a node of maximal free RAM, if a fresh
        node exists; otherwise no command is ever sent for it. */
    method Create(name: string, cidr: Cidr, id: Uuid, now: int) returns (r: Result<VpcRow>, ghost to: seq<Uuid>)
      requires Valid()
      modifies store.db`vpcs, dispatcher
      ensures Valid()
      ensures var t := old(store.db.Contents());
              var row := VpcRow(name, cidr);
              if (cidr.V4? && cidr.prefix > 32) || InsertVpc(t, id, row).Err? then
                r.Err? && store.db.Contents() == t && dispatcher.queues == old(dispatcher.queues)
              else
                && r == Ok(row) && store.db.Contents() == InsertVpc(t, id, row).value
                && dispatcher.queues == PushedAll(old(dispatcher.queues), to, CreateVpc(id, cidr))
                && |to| <= 1 && (forall n | n in to :: IsPick(t, n, 0, now))
                && (to == [] <==> forall n | n in t.nodes && Fresh(t.nodes[n], now) :: RamFree(t.nodes[n]) < 0)
      ensures r.Ok? ==> ServedVpc(old(store.db.Contents()), old(dispatcher.queues), now, id, VpcRow(name, cidr), to,
                                  store.db.Contents(), dispatcher.queues)
    {
      ghost var t, queues := store.db.Contents(), dispatcher.queues;
      to := [];
      if cidr.V4? && cidr.prefix > 32 {
        return Err(InvalidCidr), to;
      }
      var created := store.Create(id, VpcRow(name, cidr));
      if created.Err? {
        return Err(created.error), to;
      }
      to := Announce(id, cidr, now);
      AddVpcServes(t, queues, now, id, VpcRow(name, cidr), to);
      r := store.Get(id);
    }

    /** The command goes to a node of maximal free RAM, if a fresh node exists. */
    method Announce(id: Uuid, cidr: Cidr, now: int) returns (ghost to: seq<Uuid>)
      requires Valid()
      modifies dispatcher
      ensures Valid() && dispatcher.queues == PushedAll(old(dispatcher.queues), to, CreateVpc(id, cidr))
      ensures |to| <= 1 && forall n | n in to :: IsPick(store.db.Contents(), n, 0, now)
      ensures var rows := store.db.nodes;
              to == [] <==> forall n | n in rows && Fresh(rows[n], now) :: RamFree(rows[n]) < 0
    {
      to := [];
      var node := scheduler.PickNode(0, now);
      if node.Ok? {
        dispatcher.Enqueue(node.value.id, CreateVpc(id, cidr));
        to := [node.value.id];
      }
    }

    /** The command to tear the network down is sent before the row is deleted. When
        instances still use the VPC the row stays, and the command has been sent. */
    method Delete(id: Uuid, now: int) returns (r: Result<()>, ghost to: Option<Uuid>)
      requires Valid()
      modifies store.db`vpcs, dispatcher
      ensures Valid()
      ensures var t := old(store.db.Contents());
              if id !in t.vpcs then
                r == Err(NotFound) && store.db.Contents() == t && dispatcher.queues == old(dispatcher.queues)
              else
                && (r == if VpcInUse(t, id) then Err(ForeignKey) else Ok(()))
                && (VpcInUse(t, id) ==> store.db.Contents() == t)
                && (!VpcInUse(t, id) ==> store.db.Contents() == t.(vpcs := t.vpcs - {id}))
                && (to.None? <==> forall n | n in t.nodes && Fresh(t.nodes[n], now) :: RamFree(t.nodes[n]) < 0)
                && (to.None? ==> dispatcher.queues == old(dispatcher.queues))
                && (to.Some? ==>
                      && IsPick(t, to.value, 0, now)
                      && dispatcher.queues == Pushed(old(dispatcher.queues), to.value, RemoveVpc(id, t.vpcs[id].cidr)))
      ensures id in old(store.db.vpcs) ==> forall s: Cluster
                | Shows(s, old(store.db.Contents()), old(dispatcher.queues), now)
                :: Reaches(s, DeleteVpcSteps(to, id, old(store.db.vpcs)[id].cidr), store.db.Contents(),
                           dispatcher.queues, s.ops)
    {
      ghost var t, queues := store.db.Contents(), dispatcher.queues;
      to := None;
      var vpc := store.Get(id);
      if vpc.Err? {
        return Err(vpc.error), to;
      }
      var node := scheduler.PickNode(0, now);
      if node.Ok? {
        dispatcher.Enqueue(node.value.id, RemoveVpc(id, vpc.value.cidr));
        to := Some(node.value.id);
      }
      r := store.Delete(id);
      forall s: Cluster | Shows(s, t, queues, now)
        ensures Reaches(s, DeleteVpcSteps(to, id, vpc.value.cidr), store.db.Contents(), dispatcher.queues, s.ops)
      {
        DropVpcRuns(s, id, vpc.value.cidr, to, queues);
      }
    }
  }

  datatype Image = Image(id: string, name: string, os: string, version: string, url: string, sizeGb: nat)

  const CATALOG := [
    Image("ubuntu-24.04", "Ubuntu 24.04 LTS", "Ubuntu", "24.04",
          "https://cloud-images.ubuntu.com/noble/current/noble-server-cloudimg-amd64.img", 4),
    Image("debian-13", "Debian 13 (Trixie)", "Debian", "13",
          "https://cloud.debian.org/images/cloud/trixie/latest/debian-13-genericcloud-amd64.qcow2", 3),
    Image("debian-12", "Debian 12 (Bookworm)", "Debian", "12",
          "https://cloud.debian.org/images/cloud/bookworm/latest/debian-12-genericcloud-amd64.qcow2", 3)
  ]

  class ImageService {
    const nodes: NodeStore
    const dispatcher: Dispatcher

    constructor (nodes: NodeStore, dispatcher: Dispatcher)
      ensures this.nodes == nodes && this.dispatcher == dispatcher
    {
      this.nodes, this.dispatcher := nodes, dispatcher;
    }

    method Get(id: string) returns (r: Result<Image>)
      ensures r.Err? ==> r == Err(NotFound) && forall i | 0 <= i < |CATALOG| :: CATALOG[i].id != id
      ensures r.Ok? ==> r.value in CATALOG && r.value.id == id
    {
      for i := 0 to |CATALOG|
        invariant forall k | 0 <= k < i :: CATALOG[k].id != id
      {
        if CATALOG[i].id == id {
          return Ok(CATALOG[i]);
        }
      }
      r := Err(NotFound);
    }

    /** Deploy enqueues one download on the queue of every fresh node, and answers the
        names of these nodes. */
    method Deploy(id: string, now: int) returns (r: Result<seq<string>>, ghost healthy: seq<Node>)
      requires dispatcher.Valid()
      modifies dispatcher
      ensures dispatcher.Valid()
      ensures r.Err? ==> dispatcher.queues == old(dispatcher.queues)
      ensures r == Err(NotFound) <==> forall i | 0 <= i < |CATALOG| :: CATALOG[i].id != id
      ensures r.Err? ==> r == Err(NotFound) || (r == Err(NoHealthyNode) && healthy == [])
      ensures r != Err(NotFound) ==> HealthyRows(nodes.db.Contents(), now, healthy)
      ensures r.Ok? ==>
                && |r.value| == |healthy| && (forall i | 0 <= i < |healthy| :: r.value[i] == healthy[i].row.info.name)
                && exists img | img in CATALOG && img.id == id ::
                     Deployed(old(dispatcher.queues), now, DownloadImage(id, img.url))
    {
      healthy := [];
      var img := Get(id);
      if img.Err? {
        return Err(img.error), healthy;
      }
      var rows := nodes.GetHealthy(now);
      healthy := rows;
      if |rows| == 0 {
        return Err(NoHealthyNode), healthy;
      }
      var queued := Distribute(rows, DownloadImage(img.value.id, img.value.url), now);
      assert img.value in CATALOG && Deployed(old(dispatcher.queues), now, DownloadImage(id, img.value.url));
      r := Ok(queued);
    }

    method Distribute(rows: seq<Node>, cmd: Command, now: int) returns (queued: seq<string>)
      requires dispatcher.Valid() && HealthyRows(nodes.db.Contents(), now, rows)
      modifies dispatcher
      ensures dispatcher.Valid() && Deployed(old(dispatcher.queues), now, cmd)
      ensures |queued| == |rows| && forall i | 0 <= i < |rows| :: queued[i] == rows[i].row.info.name
    {
      ghost var queues := dispatcher.queues;
      queued := EnqueueAll(rows, cmd);
      NamesInOrder(rows, |rows|);
      DeployedAll(nodes.db.Contents(), queues, rows, cmd, now);
    }

    method EnqueueAll(rows: seq<Node>, cmd: Command) returns (queued: seq<string>)
      requires dispatcher.Valid()
      modifies dispatcher
      ensures dispatcher.Valid() && dispatcher.queues == PushedAll(old(dispatcher.queues), Ids(rows), cmd)
      ensures queued == NamesTo(rows, |rows|)
    {
      ghost var ids := Ids(rows);
      queued := [];
      for i := 0 to |rows|
        invariant dispatcher.Valid()
        invariant dispatcher.queues == PushedTo(old(dispatcher.queues), ids, i, cmd)
        invariant queued == NamesTo(rows, i)
      {
        queued := EnqueueOne(rows[i], cmd, queued);
      }
      PushedToAll(old(dispatcher.queues), ids, |ids|, cmd);
      assert ids[..|ids|] == ids;
    }

    method EnqueueOne(n: Node, cmd: Command, queued: seq<string>) returns (queued': seq<string>)
      requires dispatcher.Valid()
      modifies dispatcher
      ensures dispatcher.Valid() && dispatcher.queues == Pushed(old(dispatcher.queues), n.id, cmd)
      ensures queued' == queued + [n.row.info.name]
    {
      dispatcher.Enqueue(n.id, cmd);
      queued' := queued + [n.row.info.name];
    }

    /** Every fresh node's queue has grown by the command, every other queue is the same. */
    ghost predicate Deployed(queues: Queues, now: int, cmd: Command)
      reads this, nodes.db, dispatcher
    {
      forall n :: QueueOf(dispatcher.queues, n)
               == QueueOf(queues, n) + if n in nodes.db.nodes && Fresh(nodes.db.nodes[n], now) then [cmd] else []
    }
  }

  function Ids(rows: seq<Node>): seq<Uuid> {
    seq(|rows|, i requires 0 <= i < |rows| => rows[i].id)
  }

  /** The names of the first i nodes. */
  function NamesTo(rows: seq<Node>, i: nat): seq<string>
    requires i <= |rows|
  {
    if i == 0 then [] else NamesTo(rows, i - 1) + [rows[i - 1].row.info.name]
  }

  lemma {:induction false} NamesInOrder(rows: seq<Node>, i: nat)
    requires i <= |rows|
    ensures |NamesTo(rows, i)| == i && forall k | 0 <= k < i :: NamesTo(rows, i)[k] == rows[k].row.info.name
  {
    if i > 0 {
      NamesInOrder(rows, i - 1);
    }
  }

  /** The command pushed onto the queues of the first i nodes. */
  function PushedTo(queues: Queues, ids: seq<Uuid>, i: nat, cmd: Command): Queues
    requires i <= |ids|
  {
    if i == 0 then queues else Pushed(PushedTo(queues, ids, i - 1, cmd), ids[i - 1], cmd)
  }

  lemma {:induction false} PushedToAll(queues: Queues, ids: seq<Uuid>, i: nat, cmd: Command)
    requires i <= |ids|
    ensures PushedTo(queues, ids, i, cmd) == PushedAll(queues, ids[..i], cmd)
  {
    if i > 0 {
      PushedToAll(queues, ids, i - 1, cmd);
      PushedLastOf(queues, ids[..i - 1], ids[i - 1], cmd);
      assert ids[..i] == ids[..i - 1] + [ids[i - 1]];
    }
  }

  lemma {:induction false} PushedLastOf(queues: Queues, ids: seq<Uuid>, id: Uuid, cmd: Command)
    ensures PushedAll(queues, ids + [id], cmd) == Pushed(PushedAll(queues, ids, cmd), id, cmd)
    decreases |ids|
  {
    if ids == [] {
      assert [id][1..] == [];
    } else {
      assert (ids + [id])[1..] == ids[1..] + [id];
      PushedLastOf(Pushed(queues, ids[0], cmd), ids[1..], id, cmd);
    }
  }

  lemma DeployedAll(t: Tables, queues: Queues, rows: seq<Node>, cmd: Command, now: int)
    requires HealthyRows(t, now, rows)
    ensures forall n :: QueueOf(PushedAll(queues, Ids(rows), cmd), n)
                     == QueueOf(queues, n) + if n in t.nodes && Fresh(t.nodes[n], now) then [cmd] else []
  {
    var ids := Ids(rows);
    forall n ensures QueueOf(PushedAll(queues, ids, cmd), n)
                  == QueueOf(queues, n) + if n in t.nodes && Fresh(t.nodes[n], now) then [cmd] else []
    {
      OneCopyEach(queues, ids, cmd, n);
      if n in t.nodes && Fresh(t.nodes[n], now) {
        var i :| 0 <= i < |rows| && rows[i] == Node(n, t.nodes[n]);
        assert ids[i] == n;
      }
    }
  }
}
