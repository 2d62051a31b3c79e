/** The commands the controller sends, the libvirt domains of a node, and the
    goroutine that executes a command, cut into steps at every libvirt call and
    every report to the controller. */
module Commands {
  import opened Wrappers
  import opened Ipv4
  import opened Uuids
  import opened Schema

  datatype Command =
    | CreateVm(vm: Uuid, name: string, vpc: Uuid, cidr: Cidr, bridge: string, ip: Address, prefix: nat,
               gateway: Address, spec: VmSpec, sshKey: string)
    | StartVm(vm: Uuid, name: string, vpc: Uuid, cidr: Cidr)
    | StopVm(vm: Uuid, name: string, force: bool)
    | DeleteVm(vm: Uuid, name: string)
    | CreateVpc(vpc: Uuid, cidr: Cidr)
    | RemoveVpc(vpc: Uuid, cidr: Cidr)
    | DownloadImage(image: string, url: string)

  predicate IsVmCommand(c: Command) {
    c.CreateVm? || c.StartVm? || c.StopVm? || c.DeleteVm?
  }

  /** The command is about this instance. */
  predicate Concerns(c: Command, x: Uuid) {
    IsVmCommand(c) && c.vm == x
  }

  datatype DomainState = On | Off | ShuttingDown | OnHold | Crashed | Unknown

  /** A domain carries the identifier of the instance it was defined for; a node
      looks its domains up by name. */
  datatype Domain = Domain(uuid: Uuid, state: DomainState)

  type Domains = map<string, Domain>

  /** domainStateString. */
  function StatusOf(state: DomainState): InstanceStatus {
    match state
    case On => Running
    case Off => Stopped
    case ShuttingDown => Stopped
    case OnHold => Paused
    case Crashed => Failed
    case Unknown => Pending
  }

  /** A report of an instance's status, with an address or without one. */
  datatype Report = Report(vm: Uuid, status: InstanceStatus, ip: Option<Address>)

  datatype Stage = Begin | Bridge | Provision | Define | Boot | Halt | Undefine | Finished

  /** A goroutine is at a stage, or waits for the answer to a report. */
  datatype Pc = At(stage: Stage) | Reporting(report: Report, next: Stage)

  datatype Task = Task(cmd: Command, pc: Pc)

  /** How the host answers at a stage. `Gone` is a failure after which the domain
      is nevertheless off; `Silent` a failure the agent does not report. */
  datatype Outcome = Success | Failure | Gone | Silent

  function Goto(task: Task, stage: Stage): Task {
    task.(pc := At(stage))
  }

  function Tell(task: Task, status: InstanceStatus, ip: Option<Address>, next: Stage): Task
    requires IsVmCommand(task.cmd)
  {
    task.(pc := Reporting(Report(task.cmd.vm, status, ip), next))
  }

  function SetState(domains: Domains, name: string, state: DomainState): Domains {
    if name in domains then domains[name := domains[name].(state := state)] else domains
  }

  /** Defining fails when the name or the UUID belongs to another domain. */
  predicate Definable(domains: Domains, name: string, vm: Uuid) {
    && (name in domains ==> domains[name].uuid == vm)
    && (forall other | other in domains && domains[other].uuid == vm :: other == name)
  }

  predicate Active(domains: Domains, name: string) {
    name in domains && domains[name].state != Off && domains[name].state != Crashed
  }

  predicate Bootable(domains: Domains, name: string) {
    name in domains && !Active(domains, name)
  }

  /** One step of a goroutine that is not waiting for a report: Executor's
      createVM, startVM, stopVM and deleteVM between two host calls. */
  function TaskStep(task: Task, outcome: Outcome, domains: Domains): (r: (Task, Domains))
    requires task.pc.At? && task.pc.stage != Finished
  {
    match task.cmd
    case CreateVm(vm, name, _, _, _, ip, _, _, _, _) => CreateVmStep(task, vm, name, ip, outcome, domains)
    case StartVm(vm, name, _, _) => StartVmStep(task, name, outcome, domains)
    case StopVm(vm, name, _) => StopVmStep(task, name, outcome, domains)
    case DeleteVm(vm, name) => DeleteVmStep(task, name, outcome, domains)
    case _ => (Goto(task, Finished), domains)
  }

  function CreateVmStep(task: Task, vm: Uuid, name: string, ip: Address, outcome: Outcome, domains: Domains)
    : (Task, Domains)
    requires task.pc.At? && IsVmCommand(task.cmd)
  {
    match task.pc.stage
    case Begin => (Tell(task, Pending, None, Bridge), domains)
    case Bridge => (if outcome.Success? then Goto(task, Provision) else Tell(task, Failed, None, Finished), domains)
    case Provision =>
      (if outcome.Success? then Goto(task, Define)
       else if outcome.Silent? then Goto(task, Finished)
       else Tell(task, Failed, None, Finished),
       domains)
    case Define =>
      if outcome.Success? && Definable(domains, name, vm) then
        (Goto(task, Boot),
         if name in domains then domains else domains[name := Domain(vm, Off)])
      else (Tell(task, Failed, None, Finished), domains)
    case Boot =>
      if outcome.Success? && Bootable(domains, name) && domains[name].uuid == vm then
        (Tell(task, Running, Some(ip), Finished), SetState(domains, name, On))
      else (Tell(task, Failed, None, Finished), domains)
    case _ => (Goto(task, Finished), domains)
  }

  function StartVmStep(task: Task, name: string, outcome: Outcome, domains: Domains): (Task, Domains)
    requires task.pc.At? && IsVmCommand(task.cmd)
  {
    match task.pc.stage
    case Begin => (Goto(task, Bridge), domains)
    case Bridge => (if outcome.Success? then Goto(task, Boot) else Tell(task, Failed, None, Finished), domains)
    case Boot =>
      if outcome.Success? && Bootable(domains, name) then
        (Tell(task, Running, None, Finished), SetState(domains, name, On))
      else (Tell(task, Failed, None, Finished), domains)
    case _ => (Goto(task, Finished), domains)
  }

  /** A stop that fails is not reported, even when the guest did go down. */
  function StopVmStep(task: Task, name: string, outcome: Outcome, domains: Domains): (Task, Domains)
    requires task.pc.At? && IsVmCommand(task.cmd)
  {
    match task.pc.stage
    case Begin => (Goto(task, Halt), domains)
    case Halt =>
      if outcome.Success? && Active(domains, name) then
        (Tell(task, Stopped, None, Finished), SetState(domains, name, Off))
      else if outcome.Gone? && Active(domains, name) then
        (Goto(task, Finished), SetState(domains, name, Off))
      else (Goto(task, Finished), domains)
    case _ => (Goto(task, Finished), domains)
  }

  function DeleteVmStep(task: Task, name: string, outcome: Outcome, domains: Domains): (Task, Domains)
    requires task.pc.At? && IsVmCommand(task.cmd)
  {
    match task.pc.stage
    case Begin => (Goto(task, Undefine), domains)
    case Undefine =>
      if outcome.Success? then (Goto(task, Finished), domains - {name})
      else if outcome.Gone? then (Goto(task, Finished), SetState(domains, name, Off))
      else (Goto(task, Finished), domains)
    case _ => (Goto(task, Finished), domains)
  }
}
