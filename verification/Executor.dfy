/** The agent's executor: how each goroutine changes the host and what it reports. The
    code is proved against the goroutines of the protocol, step by step. */
module Executor {
  import opened Wrappers
  import opened Ipv4
  import opened Uuids
  import opened Schema
  import opened Commands
  import Naming
  import Libvirt
  import Host = HostNetwork
  import HostRuns

  /** A goroutine with the domains it sees and the reports it has made. */
  datatype Progress = Progress(task: Task, domains: Domains, reports: seq<Report>)

  /** A goroutine acts, or has its report answered; or a guest changes by itself. */
  datatype HostStep = Act(outcome: Outcome) | Drift(name: string, state: DomainState)

  function Advance(p: Progress, h: HostStep): Progress {
    match h
    case Drift(name, state) => p.(domains := SetState(p.domains, name, state))
    case Act(outcome) =>
      if p.task.pc.Reporting? then p.(task := Goto(p.task, p.task.pc.next), reports := p.reports + [p.task.pc.report])
      else if p.task.pc.stage == Finished then p
      else
        var (task, domains) := TaskStep(p.task, outcome, p.domains);
        p.(task := task, domains := domains)
  }

  function AdvanceAll(p: Progress, hs: seq<HostStep>): Progress
    decreases |hs|
  {
    if hs == [] then p else AdvanceAll(Advance(p, hs[0]), hs[1..])
  }

  lemma {:induction false} AdvanceLast(p: Progress, hs: seq<HostStep>, h: HostStep)
    ensures AdvanceAll(p, hs + [h]) == Advance(AdvanceAll(p, hs), h)
    decreases |hs|
  {
    if hs == [] {
      assert [h][1..] == [];
    } else {
      assert (hs + [h])[1..] == hs[1..] + [h];
      AdvanceLast(Advance(p, hs[0]), hs[1..], h);
    }
  }

  ghost predicate GetsTo(p: Progress, q: Progress) {
    exists hs: seq<HostStep> :: AdvanceAll(p, hs) == q
  }

  lemma Begins(p: Progress)
    ensures GetsTo(p, p)
  {
    assert AdvanceAll(p, []) == p;
  }

  lemma Then(p: Progress, q: Progress, h: HostStep) returns (r: Progress)
    requires GetsTo(p, q)
    ensures r == Advance(q, h) && GetsTo(p, r)
  {
    var hs: seq<HostStep> :| AdvanceAll(p, hs) == q;
    AdvanceLast(p, hs, h);
    r := Advance(q, h);
  }

  /** The goroutine of a command can go from these domains and reports to those, and
      return. */
  ghost predicate Performs(cmd: Command, domains: Domains, reports: seq<Report>,
                           domains': Domains, reports': seq<Report>) {
    GetsTo(Progress(Task(cmd, At(Begin)), domains, reports), Progress(Task(cmd, At(Finished)), domains', reports'))
  }

  /** Defining and booting a domain, and reporting the outcome. */
  lemma DefineAndBoot(p: Progress, q: Progress, cmd: Command, defines: bool, boots: bool, after: Domains)
    requires cmd.CreateVm? && GetsTo(p, q) && q.task == Task(cmd, At(Define))
    requires var d, defined := q.domains, defines && Definable(q.domains, cmd.name, cmd.vm);
             after == if !defined then d
                      else if boots && !Active(d, cmd.name) then d[cmd.name := Domain(cmd.vm, On)]
                      else if cmd.name in d then d
                      else d[cmd.name := Domain(cmd.vm, Off)]
    ensures var ok := defines && Definable(q.domains, cmd.name, cmd.vm) && boots && !Active(q.domains, cmd.name);
            var last := if ok then Report(cmd.vm, Running, Some(cmd.ip)) else Report(cmd.vm, Failed, None);
            GetsTo(p, Progress(Task(cmd, At(Finished)), after, q.reports + [last]))
  {
    var r := Then(p, q, Act(if defines then Success else Failure));
    if r.task.pc == At(Boot) {
      assert r.domains[cmd.name] == (if cmd.name in q.domains then q.domains[cmd.name] else Domain(cmd.vm, Off));
      r := Then(p, r, Act(if boots then Success else Failure));
    }
    assert r.domains == after;
    r := Then(p, r, Act(Success));
  }

  lemma BootAgain(p: Progress, q: Progress, cmd: Command, boots: bool)
    requires cmd.StartVm? && GetsTo(p, q) && q.task == Task(cmd, At(Boot))
    ensures var ok := boots && Bootable(q.domains, cmd.name);
            GetsTo(p, Progress(Task(cmd, At(Finished)), if ok then SetState(q.domains, cmd.name, On) else q.domains,
                                q.reports + [Report(cmd.vm, if ok then Running else Failed, None)]))
  {
    var r := Then(p, q, Act(if boots then Success else Failure));
    r := Then(p, r, Act(Success));
  }

  /** What the host answers during one command. */
  datatype Answers = Answers(
    faults: Host.Faults,   // the network commands that fail
    image: bool,           // the image name is safe, and a MAC address was found
    stored: bool,          // the disk and the cloud-init volume were written
    defines: bool,
    boots: bool,
    guest: Libvirt.Guest,
    answered: bool,
    destroys: bool,
    undefines: bool
  )

  class Executor {
    const lv: Libvirt.Manager
    const net: Host.Manager?
    var reports: seq<Report>

    constructor (lv: Libvirt.Manager, net: Host.Manager?)
      ensures this.lv == lv && this.net == net && reports == []
    {
      this.lv, this.net := lv, net;
      reports := [];
    }

    /** The answer to a report is ignored. */
    method Tell(vm: Uuid, status: InstanceStatus, ip: Option<Address>)
      modifies this`reports
      ensures reports == old(reports) + [Report(vm, status, ip)]
    {
      reports := reports + [Report(vm, status, ip)];
    }

    /** The bridge is ensured when there is a network manager. */
    method Bridge(vpc: Uuid, cidr: Cidr, f: Host.Faults) returns (ok: bool)
      modifies if net == null then {} else {net.host}
      ensures net == null ==> ok
      ensures net != null ==> (ok <==> Host.EnsureOutcome(old(net.host.net), Text(vpc), cidr, f) == Host.Done)
      ensures net != null && ok ==> Naming.BridgeName(Text(vpc)) in net.host.net.bridges
      ensures net != null ==> net.host.net == Host.AfterEnsure(old(net.host.net), Text(vpc), cidr, net.uplink, f)
    {
      ok := true;
      if net != null {
        var r, _, _, _ := net.EnsureBridge(Text(vpc), cidr, f);
        ok := r == Host.Done;
      }
    }

    /** createVM: pending; then, when the bridge, the image, the volumes, the definition and
        the boot all work, a running domain and a report of it with the address. Otherwise an
        error, but nothing for a bad image; a domain that is defined and cannot be booted
        stays. */
    method CreateVm(cmd: Command, a: Answers) returns (ok: bool)
      requires cmd.CreateVm?
      modifies this`reports, lv, if net == null then {} else {net.host}
      ensures Performs(cmd, old(lv.domains), old(reports), lv.domains, reports)
      ensures var d := old(lv.domains);
              var bridged := net == null
                             || Host.EnsureOutcome(old(net.host.net), Text(cmd.vpc), cmd.cidr, a.faults) == Host.Done;
              var defined := bridged && a.image && a.stored && a.defines && Definable(d, cmd.name, cmd.vm);
              && (ok <==> defined && a.boots && !Active(d, cmd.name))
              && lv.domains == (if ok then d[cmd.name := Domain(cmd.vm, On)]
                                else if defined && cmd.name !in d then d[cmd.name := Domain(cmd.vm, Off)]
                                else d)
              && reports == old(reports) + [Report(cmd.vm, Pending, None)]
                            + (if ok then [Report(cmd.vm, Running, Some(cmd.ip))]
                               else if bridged && !a.image then []
                               else [Report(cmd.vm, Failed, None)])
      ensures net != null ==>
                net.host.net == Host.AfterEnsure(old(net.host.net), Text(cmd.vpc), cmd.cidr, net.uplink, a.faults)
    {
      ghost var p := Progress(Task(cmd, At(Begin)), lv.domains, reports);
      ghost var q := p;
      Begins(p);
      Tell(cmd.vm, Pending, None);
      q := Then(p, q, Act(Success));
      q := Then(p, q, Act(Success));
      ok := Prepare(cmd, a, p);
      if !ok {
        return;
      }
      q := Progress(Task(cmd, At(Define)), lv.domains, reports);
      ok := lv.CreateVm(cmd.vm, cmd.name, a.defines, a.boots);
      Tell(cmd.vm, if ok then Running else Failed, if ok then Some(cmd.ip) else None);
      DefineAndBoot(p, q, cmd, a.defines, a.boots, lv.domains);
    }

    /** The bridge, the image name and the volumes of a new domain. */
    method Prepare(cmd: Command, a: Answers, ghost p: Progress) returns (ok: bool)
      requires cmd.CreateVm? && GetsTo(p, Progress(Task(cmd, At(Stage.Bridge)), lv.domains, reports))
      modifies this`reports, if net == null then {} else {net.host}
      ensures GetsTo(p, Progress(Task(cmd, At(if ok then Define else Finished)), lv.domains, reports))
      ensures var bridged := net == null
                             || Host.EnsureOutcome(old(net.host.net), Text(cmd.vpc), cmd.cidr, a.faults) == Host.Done;
              && (ok <==> bridged && a.image && a.stored)
              && reports == old(reports) + if ok || (bridged && !a.image) then [] else [Report(cmd.vm, Failed, None)]
      ensures net != null ==>
                net.host.net == Host.AfterEnsure(old(net.host.net), Text(cmd.vpc), cmd.cidr, net.uplink, a.faults)
    {
      ghost var q := Progress(Task(cmd, At(Stage.Bridge)), lv.domains, reports);
      ok := Bridge(cmd.vpc, cmd.cidr, a.faults);
      q := Then(p, q, Act(if ok then Success else Failure));
      if !ok {
        Tell(cmd.vm, Failed, None);
        q := Then(p, q, Act(Success));
        return;
      }
      ok := Volumes(cmd, a, p);
    }

    /** The image name and the volumes: a bad name is not reported. */
    method Volumes(cmd: Command, a: Answers, ghost p: Progress) returns (ok: bool)
      requires cmd.CreateVm? && GetsTo(p, Progress(Task(cmd, At(Provision)), lv.domains, reports))
      modifies this`reports
      ensures GetsTo(p, Progress(Task(cmd, At(if ok then Define else Finished)), lv.domains, reports))
      ensures ok <==> a.image && a.stored
      ensures reports == old(reports) + if ok || !a.image then [] else [Report(cmd.vm, Failed, None)]
    {
      ghost var q := Progress(Task(cmd, At(Provision)), lv.domains, reports);
      if !a.image {
        q := Then(p, q, Act(Silent));
        return false;
      }
      q := Then(p, q, Act(if a.stored then Success else Failure));
      if !a.stored {
        Tell(cmd.vm, Failed, None);
        q := Then(p, q, Act(Success));
      }
      ok := a.stored;
    }

    /** startVM: a running domain and a report of it exactly when the bridge works and the
        domain of that name can be booted; otherwise an error. */
    method StartVm(cmd: Command, a: Answers) returns (ok: bool)
      requires cmd.StartVm?
      modifies this`reports, lv, if net == null then {} else {net.host}
      ensures Performs(cmd, old(lv.domains), old(reports), lv.domains, reports)
      ensures var d := old(lv.domains);
              var bridged := net == null
                             || Host.EnsureOutcome(old(net.host.net), Text(cmd.vpc), cmd.cidr, a.faults) == Host.Done;
              && (ok <==> bridged && a.boots && cmd.name in d && !Active(d, cmd.name))
              && lv.domains == (if ok then d[cmd.name := d[cmd.name].(state := On)] else d)
              && reports == old(reports) + [Report(cmd.vm, if ok then Running else Failed, None)]
      ensures net != null ==>
                net.host.net == Host.AfterEnsure(old(net.host.net), Text(cmd.vpc), cmd.cidr, net.uplink, a.faults)
    {
      ghost var p := Progress(Task(cmd, At(Begin)), lv.domains, reports);
      ghost var q := p;
      Begins(p);
      q := Then(p, q, Act(Success));
      ok := Reattach(cmd, a, p);
      if !ok {
        return;
      }
      q := Progress(Task(cmd, At(Boot)), lv.domains, reports);
      ok := lv.StartVm(cmd.name, a.boots);
      Tell(cmd.vm, if ok then Running else Failed, None);
      BootAgain(p, q, cmd, a.boots);
    }

    /** The bridge of a domain that is started again. */
    method Reattach(cmd: Command, a: Answers, ghost p: Progress) returns (ok: bool)
      requires cmd.StartVm? && GetsTo(p, Progress(Task(cmd, At(Stage.Bridge)), lv.domains, reports))
      modifies this`reports, if net == null then {} else {net.host}
      ensures GetsTo(p, Progress(Task(cmd, At(if ok then Boot else Finished)), lv.domains, reports))
      ensures ok <==> net == null
                      || Host.EnsureOutcome(old(net.host.net), Text(cmd.vpc), cmd.cidr, a.faults) == Host.Done
      ensures reports == old(reports) + if ok then [] else [Report(cmd.vm, Failed, None)]
      ensures net != null ==>
                net.host.net == Host.AfterEnsure(old(net.host.net), Text(cmd.vpc), cmd.cidr, net.uplink, a.faults)
    {
      ghost var q := Progress(Task(cmd, At(Stage.Bridge)), lv.domains, reports);
      ok := Bridge(cmd.vpc, cmd.cidr, a.faults);
      q := Then(p, q, Act(if ok then Success else Failure));
      if !ok {
        Tell(cmd.vm, Failed, None);
        q := Then(p, q, Act(Success));
      }
    }

    /** stopVM: a forced stop destroys the domain; another asks the guest, waits, and then
        destroys it. It reports exactly the stops that succeed, and then the domain is off;
        when one fails after the guest was asked, the domain is in the state in which the
        guest has left it. */
    method StopVm(cmd: Command, a: Answers) returns (ok: bool, ghost rounds: nat)
      requires cmd.StopVm? && Libvirt.ClockAdvances(a.guest)
      modifies this`reports, lv
      ensures Performs(cmd, old(lv.domains), old(reports), lv.domains, reports)
      ensures reports == old(reports) + if ok then [Report(cmd.vm, Stopped, None)] else []
      ensures var d, g := old(lv.domains), a.guest;
              var asked := !cmd.force && g.shutdown && Active(d, cmd.name);
              && (cmd.force ==> (ok <==> g.destroyed && Active(d, cmd.name)))
              && (!cmd.force && !asked ==> !ok)
              && (asked ==>
                    && Libvirt.Waits(g, rounds) && rounds <= 15
                    && (ok <==> (g.polls(rounds - 1).answered && g.polls(rounds - 1).state == Off)
                                || (g.destroyed && g.atEnd != Off && g.atEnd != Crashed)))
              && lv.domains == (if ok then d[cmd.name := d[cmd.name].(state := Off)]
                                else if asked then d[cmd.name := d[cmd.name].(state := g.atEnd)]
                                else d)
    {
      ghost var p := Progress(Task(cmd, At(Begin)), lv.domains, reports);
      ghost var q := p;
      Begins(p);
      q := Then(p, q, Act(Success));
      ok, rounds := lv.StopVm(cmd.name, cmd.force, a.guest);
      if !ok {
        if lv.domains != p.domains {
          q := Then(p, q, Drift(cmd.name, a.guest.atEnd));
        }
        q := Then(p, q, Act(Failure));
        return;
      }
      q := Then(p, q, Act(Success));
      Tell(cmd.vm, Stopped, None);
      q := Then(p, q, Act(Success));
    }

    /** deleteVM: a domain that is seen running is destroyed; one that is not active is then
        undefined. It reports nothing. */
    method DeleteVm(cmd: Command, a: Answers)
      requires cmd.DeleteVm?
      modifies lv
      ensures Performs(cmd, old(lv.domains), reports, lv.domains, reports)
      ensures var d := old(lv.domains);
              var stopped := cmd.name in d && d[cmd.name].state == On && a.answered && a.destroys;
              lv.domains == if cmd.name in d && a.undefines && (stopped || !Active(d, cmd.name)) then d - {cmd.name}
                            else if stopped then d[cmd.name := d[cmd.name].(state := Off)]
                            else d
    {
      ghost var p := Progress(Task(cmd, At(Begin)), lv.domains, reports);
      ghost var q := p;
      Begins(p);
      q := Then(p, q, Act(Success));
      var _, outcome := lv.DeleteVm(cmd.name, a.answered, a.destroys, a.undefines);
      q := Then(p, q, Act(outcome));
    }

    /** createVPC and deleteVPC run on the host's network when there is a network manager. */
    method CreateVpc(cmd: Command, f: Host.Faults)
      requires cmd.CreateVpc?
      modifies if net == null then {} else {net.host}
      ensures net != null ==>
                && net.host.net == Host.AfterCreate(old(net.host.net), Text(cmd.vpc), cmd.cidr, net.uplink, f)
                && SetUp(old(net.host.net), net.host.net, Text(cmd.vpc), cmd.cidr, net.uplink, f)
    {
      if net != null {
        ghost var h := net.host.net;
        var _, _, _, _ := net.CreateVpc(Text(cmd.vpc), cmd.cidr, f);
        if ParseCidr(cmd.cidr).Ok? {
          HostRuns.CreationMeans(h, Text(cmd.vpc), cmd.cidr, net.uplink, f);
        }
      }
    }

    method DeleteVpc(cmd: Command, f: Host.Faults)
      requires cmd.RemoveVpc?
      modifies if net == null then {} else {net.host}
      ensures net != null ==>
                && net.host.net == Host.AfterDelete(old(net.host.net), Text(cmd.vpc), cmd.cidr, net.uplink, f)
                && TornDown(old(net.host.net), net.host.net, Text(cmd.vpc), cmd.cidr, net.uplink, f)
    {
      if net != null {
        ghost var h := net.host.net;
        var _, _, _ := net.DeleteVpc(Text(cmd.vpc), cmd.cidr, f);
        if HostRuns.AtMostOnce(h.rules) {
          HostRuns.DeletionClears(h, Text(cmd.vpc), cmd.cidr, net.uplink);
        }
      }
    }

    /** Where nothing is there and no command fails, the VPC's bridge is complete, its
        namespace exists, and its rule is in place. */
    ghost predicate SetUp(h: Host.Net, after: Host.Net, vpc: string, cidr: Cidr, uplink: string, f: Host.Faults) {
      var name, ns := Naming.BridgeName(vpc), Naming.NetnsName(vpc);
      f == {} && ParseCidr(cidr).Ok? && name !in h.bridges && ns !in h.namespaces ==>
        && name in after.bridges && after.bridges[name] == Host.Complete(Host.NetOf(cidr)) && ns in after.namespaces
        && after.forwarding && Host.HasRule(after, cidr, uplink)
    }

    /** Where the rule was not repeated and no command fails, nothing of the VPC is left. */
    ghost predicate TornDown(h: Host.Net, after: Host.Net, vpc: string, cidr: Cidr, uplink: string, f: Host.Faults) {
      f == {} && HostRuns.AtMostOnce(h.rules) ==>
        && Naming.BridgeName(vpc) !in after.bridges && Naming.NetnsName(vpc) !in after.namespaces
        && !Host.HasRule(after, cidr, uplink)
    }

    /** Handle: the body of the goroutine, for every command. */
    method Handle(cmd: Command, a: Answers)
      requires Libvirt.ClockAdvances(a.guest)
      modifies this`reports, lv, if net == null then {} else {net.host}
      ensures Performs(cmd, old(lv.domains), old(reports), lv.domains, reports)
      ensures !IsVmCommand(cmd) ==> lv.domains == old(lv.domains) && reports == old(reports)
      ensures cmd.CreateVm? ==>
                var d := old(lv.domains);
                var bridged := net == null
                             || Host.EnsureOutcome(old(net.host.net), Text(cmd.vpc), cmd.cidr, a.faults) == Host.Done;
                var defined := bridged && a.image && a.stored && a.defines && Definable(d, cmd.name, cmd.vm);
                var ok := defined && a.boots && !Active(d, cmd.name);
                && lv.domains == (if ok then d[cmd.name := Domain(cmd.vm, On)]
                                  else if defined && cmd.name !in d then d[cmd.name := Domain(cmd.vm, Off)]
                                  else d)
                && reports == old(reports) + [Report(cmd.vm, Pending, None)]
                              + (if ok then [Report(cmd.vm, Running, Some(cmd.ip))]
                                 else if bridged && !a.image then []
                                 else [Report(cmd.vm, Failed, None)])
      ensures cmd.StartVm? ==>
                var d := old(lv.domains);
                var bridged := net == null
                             || Host.EnsureOutcome(old(net.host.net), Text(cmd.vpc), cmd.cidr, a.faults) == Host.Done;
                var ok := bridged && a.boots && cmd.name in d && !Active(d, cmd.name);
                && lv.domains == (if ok then d[cmd.name := d[cmd.name].(state := On)] else d)
                && reports == old(reports) + [Report(cmd.vm, if ok then Running else Failed, None)]
      ensures cmd.StopVm? ==>
                var d, g, ok := old(lv.domains), a.guest, reports != old(reports);
                var asked := !cmd.force && g.shutdown && Active(d, cmd.name);
                && reports == old(reports) + (if ok then [Report(cmd.vm, Stopped, None)] else [])
                && (cmd.force ==> (ok <==> g.destroyed && Active(d, cmd.name)))
                && (!cmd.force && !asked ==> !ok)
                && (asked ==> exists n: nat ::
                      && Libvirt.Waits(g, n) && n <= 15
                      && (ok <==> (g.polls(n - 1).answered && g.polls(n - 1).state == Off)
                                  || (g.destroyed && g.atEnd != Off && g.atEnd != Crashed)))
                && lv.domains == (if ok then SetState(d, cmd.name, Off)
                                  else if asked then SetState(d, cmd.name, g.atEnd)
                                  else d)
      ensures cmd.DeleteVm? ==>
                var d := old(lv.domains);
                var stopped := cmd.name in d && d[cmd.name].state == On && a.answered && a.destroys;
                && reports == old(reports)
                && lv.domains == (if cmd.name in d && a.undefines && (stopped || !Active(d, cmd.name)) then
                                    d - {cmd.name}
                                  else if stopped then d[cmd.name := d[cmd.name].(state := Off)]
                                  else d)
      ensures net != null && (cmd.CreateVm? || cmd.StartVm?) ==>
                net.host.net == Host.AfterEnsure(old(net.host.net), Text(cmd.vpc), cmd.cidr, net.uplink, a.faults)
      ensures net != null && cmd.CreateVpc? ==>
                && net.host.net == Host.AfterCreate(old(net.host.net), Text(cmd.vpc), cmd.cidr, net.uplink, a.faults)
                && SetUp(old(net.host.net), net.host.net, Text(cmd.vpc), cmd.cidr, net.uplink, a.faults)
      ensures net != null && cmd.RemoveVpc? ==>
                && net.host.net == Host.AfterDelete(old(net.host.net), Text(cmd.vpc), cmd.cidr, net.uplink, a.faults)
                && TornDown(old(net.host.net), net.host.net, Text(cmd.vpc), cmd.cidr, net.uplink, a.faults)
      ensures net != null && (cmd.StopVm? || cmd.DeleteVm? || cmd.DownloadImage?) ==> net.host.net == old(net.host.net)
    {
      ghost var p := Progress(Task(cmd, At(Begin)), lv.domains, reports);
      Begins(p);
      match cmd
      case CreateVm(_, _, _, _, _, _, _, _, _, _) => var _ := CreateVm(cmd, a);
      case StartVm(_, _, _, _) => var _ := StartVm(cmd, a);
      case StopVm(_, _, _) => var _, _ := StopVm(cmd, a);
      case DeleteVm(_, _) => DeleteVm(cmd, a);
      case CreateVpc(_, _) =>
        CreateVpc(cmd, a.faults);
        ghost var _ := Then(p, p, Act(Success));
      case RemoveVpc(_, _) =>
        DeleteVpc(cmd, a.faults);
        ghost var _ := Then(p, p, Act(Success));
      case DownloadImage(_, _) =>
        ghost var _ := Then(p, p, Act(Success));
    }
  }
}
