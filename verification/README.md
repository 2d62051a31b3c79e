# RigStack, modelled and verified in Dafny

RigStack places virtual machines on hosts. A controller keeps nodes, VPCs and instances in a
database and a queue of commands for each node in memory. An agent on each host sends heartbeats,
receives the queued commands in the answers, executes each one in a goroutine of its own against
libvirt and the host's network, and reports the status of instances back.

The project models the controller and the agent in four layers.

* **The cluster** (`Protocol`, with `Schema`, `Commands` and `Channels`): a state machine whose state
  is the tables, the API requests being served, the path of every node's commands (queued, in flight,
  executing, and a record of what became of each), the agents with their libvirt domains, and the
  reports on their way. A step is one SQL statement, one enqueue, one exchange on a heartbeat stream,
  one host call of a goroutine, or one failure: a lost response, a broken stream, a crash of an agent,
  a restart of the controller, a failed statement, a change made by a guest. The theorems in
  `Placement`, `Delivery`, `Rows`, `Status`, `Allocation`, `Lease` and `Forgetting` hold over every run
  of this machine from the empty cluster; `Ledger` is the invariant they share.
* **The controller's code** (`Dispatching`, `Stores`, `Scheduling`, `Services`, `GrpcServer`): classes
  with the fields of the originals, proved against the functions of `Schema`, and, through
  `Refinement`, against runs of the cluster; `Streams` says what serving a heartbeat stream does to
  queues, rows and flights. `EndToEnd` and `Lifecycles` put controller and agent together: every
  request can be carried through. `Scenarios` follows runs from the empty cluster, some of them runs
  in which the code goes wrong; `Hypotheses` shows by such runs that the status theorem needs its
  hypotheses on the order of events and on names.
* **The agent's code** (`Client`, `Executor`, `Libvirt`): classes again; `Goroutines` shows that
  whatever the executor does with a command is a run of the cluster, and `Reconciling` what a
  reconciliation tells the controller.
* **The host's network** (`HostNetwork`, `HostRuns`, `HostRaces`): the agent's bridge, NAT and
  namespace commands, each of which may fail, over sequences of calls, and over every interleaving of
  goroutines that set up networks.

`Ipv4`, `Uuids` and `Naming` hold the arithmetic and the text formats: CIDR blocks (section 3.1 of
RFC 4632), the text form of UUIDs (section 4 of RFC 9562), device names.

The steps of `Protocol` are total descriptions of what the code does, including what it does badly.
Where a property needs a hypothesis, the hypothesis is a predicate on the run, and a lemma shows what
happens without it.

## What the code does that its comments do not say

* The last byte of an instance's address is overwritten with 11 + count, not added to the base
  (`controller/internal/service/instance.go:244`); in a network longer than /24 the address can lie
  outside it. `Ipv4.VmAddressUsable` gives the exact condition, `Ipv4.HighHalfEscapes` an instance.
* The address counts live rows. `Allocation.DeletionRepeatsAddress` says exactly which deletions make
  the next address collide, `Scenarios.InterleavedCreatesRepeat` that two interleaved creates do.
* Starting or stopping an instance clears its stored address. Once the creation is over nothing
  restores it (`Forgetting.AddressOverRun`, which also says when it survives); while the create's
  goroutine is still running, its report does (`Scenarios.AddressComesBack`).
* The dispatcher's comment (`controller/internal/dispatcher/dispatcher.go:9-12`) promises that
  commands wait for an agent that is offline. They do, but a batch that was drained and could not be
  sent is lost, and the queue does not survive a restart of the controller
  (`Delivery.QueueIsLost`). `Delivery.DeliveredExactly` says exactly when nothing is lost.
* The comment in `VPCService.Create` (`controller/internal/service/vpc.go:35-37`) says that without a
  healthy node the agent gets the command later. No command is enqueued in that case
  (`Services.VpcService.Create`).
* `VPCService.Delete` sends the command to tear down the network before it deletes the row, and the
  row may then refuse to go because instances use it (`Services.VpcService.Delete`).
* A heartbeat answer that cannot be sent ends the stream without marking the node unreachable
  (`GrpcServer.Server.Heartbeat`).
* `EnsureBridge` takes any bridge of the right name for a finished one. One left bare by a failure is
  never repaired (`HostRuns.ExistingBridgeBlocks`, `HostRuns.EnsureCompletes`), and a goroutine may go on to boot a domain while
  another is still configuring the bridge (`HostRaces.EnsureReturnsEarly`).
* `addMasquerade` is idempotent only as long as its check fails for no other reason than a missing
  rule (`HostRuns.RulesStayUnique`, both directions), and only for one VPC of a network at a time
  (`HostRaces.PairRepeatsExactly`).
* Two VPCs with the same CIDR share one NAT rule; deleting either removes it
  (`HostRuns.CreateThenDelete`).
* An agent finds domains by name, the controller identifies instances by UUID, and names are not
  unique: creating a second instance of a name on a host fails, and stopping it turns the first one's
  domain off (`Hypotheses.SharedName`, `Hypotheses.NameNeeded`).
* A guest that goes down after the last poll makes `StopVM` fail although the domain is off, and the
  executor then reports nothing (`Libvirt.Manager.StopVm`).

## Model

| member | source | states |
|---|---|---|
| `Placement.SinglePlacement` | controller/internal/service/instance.go:111-146 | Over every run with lost responses, crashes and restarts: at most one create command for an instance in the histories of all nodes, it is in exactly one place (queued, in flight, executing, executed, killed or lost), and no two agents hold a domain for the instance. |
| `Placement.Routing` | controller/internal/service/instance.go:163-215 | Over every run: a command about an instance, wherever it is, is on the channel of the node chosen at creation and carries the row's name; a create or start carries the instance's VPC with that VPC's CIDR, a create its sizes; only that node's agent ever holds its domain. |
| `Placement.ReregistrationKeepsId` | controller/internal/store/postgres/node.go:35-47 | However long ago a node was registered, as long as its row is not deleted every registration of its address answers the same id, and moves no command. |
| `Delivery.DeliveredInOrder` | controller/internal/dispatcher/dispatcher.go:23-36 | Over every run: what the handler is given is an order-preserving, at-most-once subsequence of what was enqueued for that node, and every enqueued command is accounted for. |
| `Delivery.DeliveredExactly` | controller/internal/dispatcher/dispatcher.go:9-36 | Over every run: handled, then in flight, then queued, is the enqueued sequence if and only if no step dropped a command, that is, no unsent answer and no restart while some were queued, and no broken stream and no crash while some were in flight. |
| `Delivery.QueueIsLost` | controller/internal/grpcserver/server.go:75-82 | Runs from the empty cluster that lose a command: an answer that cannot be sent, and a restart. |
| `Channels.SoundStep` | agent/internal/controller/client.go:79-106 | Every step of a channel keeps conservation (each command in exactly one place) and order. |
| `Channels.NothingLost` | controller/internal/dispatcher/dispatcher.go:9-12 | With nothing lost, the surviving line equals the history. |
| `Rows.AddressesAgree` | controller/internal/service/instance.go:104-146 | Over every run: a live row's address is absent or the one allocated at creation; so is every address in a create command, in a goroutine's report, and in a report on its way. |
| `Rows.ReferencesExist` | controller/migrations/001_initial.sql:49-63 | Over every run: a live instance's node and VPC rows exist, and its node's row has the address that first registered it. |
| `Rows.NoResurrection` | controller/internal/store/postgres/node.go:63-72 | Over every run: an instance whose row is gone stays gone, whatever reports, reconciliations, requests or goroutines are left. |
| `Forgetting.AddressOverRun` | controller/internal/store/postgres/instance.go:101-107 | Once the creation of an instance is over, over every run after which its row is still there: it has no address if a start, stop or delete marked it in that run, and exactly the address it had before if none did. |
| `Forgetting.MarkForgets` | controller/internal/service/instance.go:172-174 | So the first start, stop or delete after the creation loses the address in every later state. |
| `Scenarios.AddressComesBack` | agent/internal/executor/executor.go:151 | Why the creation must be over: a run from the empty cluster, without failures, in which a start clears the address while the create's goroutine is about to report, and that report brings it back. |
| `Status.StatusAgrees` | controller/internal/service/instance.go:163-201 | Over every run in which at most one thing is being done to an instance at a time, no report about it is lost, its domain changes only through commands, and no other instance on its host is being worked on or has a domain under its name: in every state, running in the row implies that the domain runs, stopped that it is off. Names may be used again; lost responses, crashes of agents and restarts of the controller are allowed. |
| `Status.AgreesStep` | agent/internal/executor/executor.go:156-188 | The inductive step: each of the 32 kinds of steps keeps the agreement between a row, its domain, and all requests, commands, goroutines and listings about it. |
| `Hypotheses.OneAtATimeNeeded` | agent/cmd/main.go:182-206 | Without one thing at a time: a run from the empty cluster in which nothing fails, breaks or is lost, no guest acts by itself, and the name is owned in every state, ends with a row that says running and a domain that is off. |
| `Hypotheses.StaleReconciliation` | agent/cmd/main.go:199-205 | The end of that run, from any state in which an instance runs and its agent holds its stream: a listing, a stop, and the report from the listing arriving last. |
| `Hypotheses.NameNeeded` | agent/internal/executor/executor.go:177-188 | Without the name: from a reachable state in which the instance runs and everything agrees, a run in which nothing fails, breaks or is lost, no guest acts by itself, and one thing at a time holds of the instance in every state, ends with its row running and its domain off. |
| `Hypotheses.SharedName` | agent/internal/libvirt/manager.go:93-97 | The run: another instance of the same name and host is created, which fails, and is stopped, which turns the first one's domain off. |
| `Allocation.SequentialAddresses` | controller/internal/service/instance.go:219-247 | Over every run that serialises the creates of a VPC and deletes only its newest instance, whatever happens elsewhere: the live instances, oldest first, hold the addresses for 0, 1, 2, ...; last bytes 11 to 10 + count up to 245, distinct up to 256. |
| `Allocation.DeletionRepeatsAddress` | controller/internal/store/postgres/instance.go:115-121 | After a deletion the next address is held by a live instance if and only if the deleted one was not the newest. |
| `Allocation.InterleavedCreatesCollide` | controller/internal/service/instance.go:235-244 | In any state whose requests agree with the record, two creates in one VPC that have chosen their nodes and count one after the other plan the same address. |
| `Scenarios.InterleavedCreatesRepeat` | controller/internal/service/instance.go:104-132 | From any state in which two creates in one VPC may be served, the ten steps in which both count before either inserts are a run, and it leaves two live rows of that VPC with one address. |
| `Lease.PlacedUnderLease` | controller/internal/store/postgres/node.go:132-164 | Over every run: each node row equals the fold of the register, heartbeat, unreachable and removal history; GetHealthy's condition holds exactly of the nodes whose last event was a contact less than 30 seconds ago; every instance was placed on a node of which that was true when it was chosen, by the history as it then was and at the time of the choice, and whose last statistics up to then had at least as many whole megabytes of RAM free as the instance's row asks for. |
| `Lease.ChosenUnderLease` | controller/internal/service/instance.go:99-103 | The choice in any run, from the history alone: the node is leased at the time of the choice, its last statistics have the requested RAM free, no leased node has sent ones with more, and the request records just that history and time. |
| `Lease.SilentIsNeverChosen` | controller/internal/scheduler/scheduler.go:27-50 | In no run is a create request given a node whose contacts are all 30 seconds old or whose stream has broken since. |
| `Lease.ReplayedRow` | controller/internal/store/postgres/node.go:35-61 | What the fold says without folding: last seen at the last contact, healthy exactly when the last event was a contact. |
| `Lease.ReplayedStats` | controller/internal/store/postgres/node.go:49-56 | A row has statistics if and only if there was a heartbeat since it was inserted, and they are those of the last one. |
| `Ledger.InvStep` | controller/internal/service/instance.go:111-146 | Every step keeps the shared invariant: rows, requests, commands, goroutines, domains and reports of an instance agree with what its insertion fixed. |
| `Ledger.InvRun` | agent/internal/executor/executor.go:41-67 | The invariant in every reachable state. |
| `Schema.UpsertKnown` | controller/internal/store/postgres/node.go:35-47 | A known address keeps its id, capacity, statistics and time of registration; its name, status and contact time are new; no other row changes. |
| `Schema.UpsertKeepsValid` | controller/migrations/002_nodes_fix.sql:6-14 | An upsert keeps the unique and foreign-key constraints and leaves a healthy row of that address seen now. |
| `Dispatching.Dispatcher.Enqueue` | controller/internal/dispatcher/dispatcher.go:23-27 | Appends to one queue; the ghost history of everything enqueued is everything drained followed by everything queued. |
| `Dispatching.Dispatcher.Drain` | controller/internal/dispatcher/dispatcher.go:30-36 | Returns the whole queue in order, empties it, touches no other queue, and keeps the same history law. |
| `Stores.NodeStore.Upsert` | controller/internal/store/postgres/node.go:35-47 | The statement's effect on the whole database, and its error. |
| `Stores.NodeStore.UpdateHeartbeat` | controller/internal/store/postgres/node.go:49-56 | Statistics, contact time and status of one row; constraints kept. |
| `Stores.NodeStore.MarkUnreachable` | controller/internal/store/postgres/node.go:58-61 | The status of one row; constraints kept. |
| `Stores.NodeStore.UpdateVmStatus` | controller/internal/store/postgres/node.go:63-72 | Status of one instance; an absent address keeps the stored one. |
| `Stores.NodeStore.Delete` | controller/internal/store/postgres/node.go:127-130 | Refused exactly when an instance refers to the node; otherwise the row goes. |
| `Stores.NodeStore.GetHealthy` | controller/internal/store/postgres/node.go:132-164 | Every fresh row exactly once and nothing else, by descending free RAM with NULL first. |
| `Stores.VpcStore.Create` | controller/internal/store/postgres/vpc.go:27-35 | Inserts the row; a CIDR with host bits set is refused by the column. |
| `Stores.VpcStore.Delete` | controller/internal/store/postgres/vpc.go:73-76 | Refused exactly when an instance refers to the VPC. |
| `Stores.InstanceStore.Create` | controller/internal/store/postgres/instance.go:36-44 | Inserts a row that is pending and has no address; foreign keys enforced. |
| `Stores.InstanceStore.UpdateStatus` | controller/internal/store/postgres/instance.go:101-107 | Status of one instance; an absent address clears the stored one; nothing when the database is down. |
| `Stores.InstanceStore.Delete` | controller/internal/store/postgres/instance.go:109-112 | Removes one row; constraints kept. |
| `Scheduling.Scheduler.FirstBest` | controller/internal/scheduler/scheduler.go:36-45 | Over any list: the first node of maximal free RAM among those with enough, and none exactly when none has enough. |
| `Scheduling.Scheduler.PickNode` | controller/internal/scheduler/scheduler.go:27-50 | A fresh node whose free RAM is the true maximum even though never-heartbeated nodes sort first; it fails exactly when no fresh node has enough, with the right one of its two errors. |
| `Services.InstanceService.NodeAddressForInstance` | controller/internal/service/instance.go:48-68 | The instance's name, and its node's address up to the last colon with the console's port. |
| `Services.InstanceService.GatewayIp` | controller/internal/service/instance.go:230-234 | The controller's own computation, on a copy of the base, gives the gateway. |
| `Services.InstanceService.AllocateIp` | controller/internal/service/instance.go:219-247 | Works on copies of the base: gateway, prefix and the address for the current count, or the error of the CIDR. |
| `Services.InstanceService.Create` | controller/internal/service/instance.go:80-149 | Each refusal with its exact condition and nothing changed: an invalid request by its name and sizes, and too little RAM exactly when fresh nodes exist and none has sent statistics with that many megabytes free. Otherwise one pending row with the next address of its VPC on a fresh node that has the RAM and as much as any, one create_vm with the row's data, the gateway, prefix and bridge at the end of that node's queue, and the five-step run of the cluster that this is. When the database is down for the second statement: the row without an address, no command, and the run that this is. |
| `Services.InstanceService.Start` | controller/internal/service/instance.go:163-184 | NotFound or a database that is down, and nothing changed; or the row starting and without address, one start_vm with its name, its VPC and the VPC's CIDR at the end of the queue of its node, no other queue changed, and the run of the cluster that this is. |
| `Services.InstanceService.Stop` | controller/internal/service/instance.go:186-201 | The same for a stop: the row stopping and without address, and one stop_vm that is not forced. |
| `Services.InstanceService.Delete` | controller/internal/service/instance.go:203-215 | One delete_vm is queued even when the row cannot be marked, and even when the row then cannot be removed; the row is gone, terminating or unchanged accordingly; the answer, and the run of the cluster that this is. |
| `Services.VpcService.Create` | controller/internal/service/vpc.go:25-48 | A row and at most one command, on a node of maximal free RAM; no command exactly when no fresh node qualifies; a run of the cluster. |
| `Services.VpcService.Delete` | controller/internal/service/vpc.go:54-68 | The command goes out whether or not the row can be deleted; the row stays exactly when it is in use; a run of the cluster. |
| `Services.ImageService.Get` | controller/internal/service/image.go:63-70 | The catalogue entry with that id, or NotFound exactly when there is none. |
| `Services.ImageService.Deploy` | controller/internal/service/image.go:73-95 | Every fresh node's queue grows by exactly one download command, no other queue changes, and the names answered are those of the fresh nodes in order. |
| `Refinement.CreateRuns` | controller/internal/service/instance.go:80-149 | From any cluster showing these tables and queues, five enabled steps lead to one showing what Create leaves. |
| `Refinement.StopShortRuns` | controller/internal/service/instance.go:125-128 | The same for a create whose address cannot be stored. |
| `Refinement.AskRuns` | controller/internal/service/instance.go:163-215 | The same for start, stop and delete, and for a delete that cannot mark or cannot remove its row. |
| `Refinement.AddVpcRuns` | controller/internal/service/vpc.go:25-48 | The same for creating a VPC. |
| `Refinement.DropVpcRuns` | controller/internal/service/vpc.go:54-68 | The same for deleting a VPC, the command first. |
| `Refinement.BroadcastRuns` | controller/internal/service/image.go:89-94 | Sending one command to several nodes is a run. |
| `Refinement.OneCopyEach` | controller/internal/service/image.go:89-94 | Each named node gets exactly one copy. |
| `Refinement.ServeRuns` | controller/internal/grpcserver/server.go:54-83 | Serving any stream, with updates that are not saved, answers that are not sent and errors, is a run of the cluster. |
| `Refinement.BeatDrains` | controller/internal/grpcserver/server.go:75-82 | A heartbeat moves exactly the node's queue onto the stream, or loses it, and touches no other queue. |
| `Refinement.ResponseHanded` | agent/internal/controller/client.go:99-104 | Handing over a response: all of it is handled in order, each command by a goroutine of its own, and no other channel changes. |
| `EndToEnd.CreateCanSucceed` | controller/internal/service/instance.go:80-149 | From any state in which a request may be served and the chosen node's agent holds its stream, whatever else is queued, in flight or executing, some run without failures takes it to a running domain on that node's host and a row that says running and has the allocated address. |
| `Lifecycles.StartCanSucceed` | controller/internal/service/instance.go:163-184 | From any state in which the instance's domain is defined and not active and its agent holds its stream, some run without failures that begins with the request, and in which no other request is served, ends with the domain on and the row running without address; nothing else on the host changes. |
| `Lifecycles.StopCanSucceed` | controller/internal/service/instance.go:186-201 | The same for a stop of an active domain: it ends off, and the row stopped. |
| `Lifecycles.DeleteCanSucceed` | controller/internal/service/instance.go:203-215 | The same for a delete, from any state: the domain and the row are gone. |
| `Scenarios.WholeLife` | agent/internal/executor/executor.go:93-225 | From the empty cluster: an instance is created, stopped, started and deleted by such runs, with row and domain agreeing after each. |
| `Scenarios.Carried` | agent/internal/executor/executor.go:93-154 | And so from the empty cluster, for any node, usable VPC and fitting request. |
| `GrpcServer.Server.RegisterNode` | controller/internal/grpcserver/server.go:31-49 | A known address gets its id again and keeps its capacity, statistics and time of registration, and a new one gets a new row without statistics; it fails only for a new address whose fresh id is taken; the row is fresh; other rows and failures leave everything as it was. |
| `GrpcServer.Server.Heartbeat` | controller/internal/grpcserver/server.go:51-84 | For every stream: the answers are those to the heartbeats before the one that ends it or cannot be answered; what leaves a node's queue is exactly, in order, the commands of the batches answered to that node and then of the one that could not be sent; every node heard has an empty queue; each row has the statistics and time of its last saved heartbeat, and is marked exactly when the stream breaks after that node was heard last; in the run of the cluster that this is, the batches are in flight to their nodes. |
| `Streams.StreamConserves` | controller/internal/grpcserver/server.go:75-82 | For every stream and every node: queued before equals answered, then unsent, then still queued. |
| `Streams.StreamRows` | controller/internal/grpcserver/server.go:54-73 | For every stream and node row: statistics, contact time and status, read from the events. |
| `Streams.StreamFlights` | controller/internal/grpcserver/server.go:75-82 | In the run that serving a stream is, each node's flight grows by the batches answered to it. |
| `GrpcServer.Server.ReportVmStatus` | controller/internal/grpcserver/server.go:86-93 | Status of one instance, its address only if one is given; nothing when the instance is gone. |
| `Client.Client.Register` | agent/internal/controller/client.go:47-62 | A failed registration keeps the previous id. |
| `Client.Client.RunHeartbeat` | agent/internal/controller/client.go:70-108 | The handler gets exactly the commands of the rounds before the first unanswered one, in order, each once; the loop ends by its context exactly when that round was cancelled, and by an error otherwise. |
| `Client.Client.KeepConnected` | agent/cmd/main.go:89-110 | Over all reconnections until shutdown: what is handled, and the id that remains. |
| `Client.ReceivedLast` | agent/internal/controller/client.go:85-105 | Round by round: an answered round adds its commands in order, and the first that is not answered ends the reception. |
| `Client.SessionsUntil` | agent/cmd/main.go:89-110 | The sessions lived are those up to the first in which the agent shuts down, and the id that remains is the last one answered before it, or the first id if none was. |
| `Client.IdKept` | agent/cmd/main.go:106-109 | A node whose registrations always answer the same id never changes it, however many fail. |
| `Client.Client.ReconcileVms` | agent/cmd/main.go:182-206 | One report without address for each domain that answers, naming the instance it was defined for; these are the reports of a listing in the cluster. |
| `Reconciling.ListingTells` | agent/internal/libvirt/manager.go:327-340 | In any reachable state: after a reconciliation whose reports are all delivered and which nothing disturbs, each listed domain's row is running exactly if the domain is, stopped exactly if it is off or shutting down, paused, failed or pending exactly if it is on hold, crashed or in an unknown state; all other columns and rows are as they were. |
| `Libvirt.WaitsBounded` | agent/internal/libvirt/manager.go:112-123 | For any guest and any clock that advances two seconds a sleep: at most 15 polls, and their number is determined. |
| `Libvirt.Manager.CreateVm` | agent/internal/libvirt/manager.go:58-76 | When it succeeds, exactly; the domain stays defined when only the boot fails. |
| `Libvirt.Manager.StartVm` | agent/internal/libvirt/manager.go:79-89 | When it succeeds, exactly, and what it leaves. |
| `Libvirt.Manager.StopVm` | agent/internal/libvirt/manager.go:93-129 | Terminates within 15 polls; succeeds exactly when shut-off was observed or the destruction succeeded, and then the domain is off; what a failure leaves. |
| `Libvirt.Manager.DeleteVm` | agent/internal/libvirt/manager.go:133-153 | Destroys exactly a domain seen running; removes the definition exactly when undefining a domain that is not active works; in every other case nothing changes. |
| `Libvirt.Manager.ListVmInfos` | agent/internal/libvirt/manager.go:190-213 | Every domain that answers, in order; the id printed parses back to the UUID the domain was defined with. |
| `Executor.Executor.CreateVm` | agent/internal/executor/executor.go:93-154 | It succeeds if and only if the bridge, the image, the volumes, the definition and the boot work and the domain was definable and not active; what domains that leaves in each case; the reports: pending, then running with the address, an error, or nothing for a bad image; a run of the protocol's goroutine. |
| `Executor.Executor.StartVm` | agent/internal/executor/executor.go:156-175 | It succeeds if and only if the bridge works and the domain exists, is not active and boots; the domain is then on, and the one report says running or an error accordingly; a run of the protocol's goroutine. |
| `Executor.Executor.StopVm` | agent/internal/executor/executor.go:177-188 | A forced stop succeeds exactly when the destruction does; another one exactly when the guest, once asked, was seen off within 15 polls or could then be destroyed; the domain is off, or as the guest left it, or untouched; a stopped report exactly for the stops that succeed; a run of the protocol's goroutine. |
| `Executor.Executor.DeleteVm` | agent/internal/executor/executor.go:210-225 | Which domain is destroyed and which definition removed, from the answers; no report; a run of the protocol's goroutine. |
| `Executor.Executor.CreateVpc` | agent/internal/executor/executor.go:69-79 | With a network manager, the host is as its creation leaves it; where nothing was there and nothing fails, the bridge is complete, the namespace exists, forwarding is on and the rule is in place. |
| `Executor.Executor.DeleteVpc` | agent/internal/executor/executor.go:81-91 | The same for the deletion: where the rule was not repeated and nothing fails, bridge, namespace and rule are gone. |
| `Executor.Executor.Handle` | agent/internal/executor/executor.go:41-67 | Every command: the domains, the reports and the host's network that it leaves, as above, and nothing of them for the commands about something else. |
| `Goroutines.ExecutorRefines` | agent/internal/executor/executor.go:41-67 | What the executor's code does with a command, from any cluster in which its goroutine begins, is a run that ends the goroutine with the same domains and the row changes of its reports. |
| `HostNetwork.Manager.FirstHost` | agent/internal/network/manager.go:105-108 | The agent's own computation, on a copy of the base, gives the gateway, the same as the controller's. |
| `HostNetwork.Manager.SubnetInfo` | agent/internal/network/manager.go:95-109 | The gateway and prefix of the CIDR's network, or the CIDR's error. |
| `HostNetwork.Manager.CreateBridge` | agent/internal/network/bridge.go:5-17 | Where the three commands stop and what they have built by then; it succeeds exactly when none of them failed. |
| `HostNetwork.Manager.DeleteBridge` | agent/internal/network/bridge.go:19-23 | The bridge is gone exactly when its last command works. |
| `HostNetwork.Manager.AddMasquerade` | agent/internal/network/iptables.go:5-13 | Appends unless the rule is there and the check says so; it fails exactly when the append was reached and failed. |
| `HostNetwork.Manager.CreateNatGw` | agent/internal/network/natgw.go:12-24 | Outcome and host, with its own roll-back, for every set of failing commands; it succeeds exactly when no command it ran failed but the rule check. |
| `HostNetwork.Manager.DeleteNatGw` | agent/internal/network/natgw.go:26-30 | Removes the first copy of the rule and the namespace, each if its command works. |
| `HostNetwork.Manager.CreateVpc` | agent/internal/network/manager.go:29-43 | Outcome and host for every set of failing commands; it succeeds exactly when the CIDR parses and no command that it ran failed but the rule check; when the gateway fails the bridge is deleted again. |
| `HostNetwork.Manager.EnsureBridge` | agent/internal/network/manager.go:63-80 | The same; a bridge that is seen ends it, and failures after the bridge are ignored. |
| `HostNetwork.Manager.DeleteVpc` | agent/internal/network/manager.go:46-55 | Every part is tried; the answer is that of the last command. |
| `HostRuns.RollbackExact` | agent/internal/network/manager.go:34-40 | A creation that fails leaves everything but forwarding as it was if and only if it did not stop at raising the link or adding the address and the clean-up it ran did not fail. |
| `HostRuns.CreationMeans` | agent/internal/network/manager.go:29-43 | A creation succeeds if and only if bridge and namespace are new, the bridge is complete, forwarding is on and the rule is in place, and not both the rule check and the append failed: in that one case everything can be there and the call still fail. |
| `HostRuns.EnsuringMeans` | agent/internal/network/manager.go:63-80 | An ensure succeeds if and only if it sees the bridge or builds it whole; when it builds it, the rule is in place exactly unless it was missing and could not be added. |
| `HostRuns.DeletionMeans` | agent/internal/network/manager.go:46-55 | A deletion succeeds if and only if it takes the bridge away. |
| `HostRuns.DeletionClears` | agent/internal/network/manager.go:46-55 | One whose commands do not fail leaves neither bridge, namespace nor rule, provided that the rule was not repeated. |
| `HostRuns.ExistingBridgeBlocks` | agent/internal/network/manager.go:63-68 | Once a bridge of the name exists no sequence of creations and ensurings, whatever fails, changes the host: a bare bridge is never repaired, and a VPC with a colliding name gets the other's. |
| `HostRuns.EnsureCompletes` | agent/internal/network/manager.go:63-80 | After a successful EnsureBridge the bridge is complete if and only if it was missing or complete before. |
| `HostRuns.SetupConverges` | agent/internal/network/manager.go:29-43 | Without environmental failures any non-empty sequence of creations and ensurings of one VPC, in any order, leaves what one leaves; the namespace exists exactly when the first was a creation. |
| `HostRuns.SetupWithNamespace` | agent/internal/network/manager.go:29-80 | The same on a host with a leftover namespace of that name: creations alone leave only forwarding, and any EnsureBridge among them sets everything up. |
| `HostRuns.StaleNamespace` | agent/internal/network/natgw.go:16-18 | A leftover namespace makes every creation fail and roll back. |
| `HostRuns.RulesStayUnique` | agent/internal/network/iptables.go:5-13 | A call repeats a NAT rule if and only if its check failed for another reason than a missing rule and the rule was then appended. |
| `HostRuns.RulesUniqueOverRuns` | agent/internal/network/iptables.go:5-19 | Over every sequence of calls with honest checks, for any VPCs, whatever else fails: at most one copy of each rule. |
| `HostRuns.MisledCheckRepeats` | agent/internal/network/iptables.go:6-12 | One misled check is enough for a repeated rule. |
| `HostRuns.OthersUntouched` | agent/internal/network/manager.go:29-80 | No call changes bridges and namespaces of other names or rules of other networks, nor their order, whatever fails. |
| `HostRuns.TeardownComplete` | agent/internal/network/manager.go:46-55 | After any calls with honest checks on a host without rules, a deletion that works leaves nothing of its VPC and everything of the others. |
| `HostRuns.CreateThenDelete` | agent/internal/network/manager.go:29-55 | Creating and deleting restores the host but for forwarding if and only if the rule was not there before. |
| `HostRuns.AgreesWithController` | controller/internal/service/instance.go:219-256 | Over every run of the cluster: the bridge name, gateway and prefix in a create command are those of the bridge the agent builds by itself. |
| `HostRaces.ConcurrentSetupConverges` | agent/internal/executor/executor.go:41-67 | Over every interleaving, without failures, of any number of goroutines setting up one VPC: no repeated rule, and when all are over the host is what one call leaves. |
| `HostRaces.ConcurrentRulesUnique` | agent/internal/network/iptables.go:5-13 | Over every interleaving of set-ups of any VPCs on any host, whatever commands but the rule checks fail, roll-backs included: rules stay unique as long as VPCs with different bridges have different networks. |
| `HostRaces.PairRepeatsExactly` | agent/internal/network/iptables.go:6-12 | For two goroutines, each a CreateVPC or an EnsureBridge, on bare VPCs whose rules are missing, some interleaving repeats a rule if and only if the VPCs have one network and different bridges. |
| `HostRaces.AloneIsCall` | agent/internal/network/manager.go:29-80 | A single goroutine, command by command, does what the call does. |
| `HostRaces.EnsureReturnsEarly` | agent/internal/network/manager.go:63-68 | EnsureBridge can succeed while the bridge is still bare. |
| `Naming.ControllerBridgeName` | controller/internal/service/instance.go:250-256 | The controller's own code computes the agent's bridge name. |
| `Naming.BridgeNameCollision` | agent/internal/network/manager.go:58-92 | At most 15 characters; two ids share a bridge, and a namespace, if and only if their hyphen-free forms agree once truncated to nine characters. |
| `Naming.VpcBridgeCollision` | agent/internal/network/manager.go:84-92 | For UUIDs: if and only if their first 36 bits agree. |
| `Uuids.ParsePrint` | agent/internal/libvirt/manager.go:203-206 | The printed text is canonical, 36 characters long, and parses back. |
| `Uuids.PrintParse` | agent/internal/libvirt/vm.go:49-52 | The canonical text put into a domain is the text printed back. |
| `Uuids.TextInjective` | agent/internal/libvirt/manager.go:203-206 | Distinct UUIDs have distinct texts. |
| `Ipv4.ParseIsNetwork` | agent/internal/network/manager.go:96-104 | Parsing a CIDR gives a network with zero host bits that contains the address written. |
| `Ipv4.GatewayIsHost` | agent/internal/network/manager.go:105-108 | The gateway is a usable host address if and only if the prefix is at most 30, and is base + 1 without overflow up to 31. |
| `Ipv4.VmAddressUsable` | controller/internal/service/instance.go:241-246 | For every network and count, exactly when the allocated address is a host address other than the gateway. |
| `Ipv4.DesignRange` | controller/internal/service/instance.go:217-247 | For prefixes up to 24 and counts up to 243 both addresses are usable and differ. |
| `Ipv4.SameVmAddress` | controller/internal/service/instance.go:244 | Two counts give one address if and only if they agree modulo 256. |
| `Ipv4.HighHalfEscapes` | controller/internal/service/instance.go:241-246 | A /25 whose first address lies outside it. |

## Left out

- The frontend, the generated protocol code, HTTP and gRPC plumbing, console and metrics proxying: no state of the four layers.
- Message and JSON text: commands, requests and reports are datatypes. A payload that does not parse is therefore not modelled.
- SQL text: tables are maps with the unique and foreign-key constraints. Each statement is atomic. A database that fails is modelled where a request then stops half-way: by the steps Abort and SkipMark and unsaved heartbeats of the cluster, and by a parameter of the instance service's methods.
- Text parsing of CIDRs by net.ParseCIDR: a CIDR is an address and a prefix length, invalid when the length exceeds 32; IPv6 is one opaque value that the controller and the agent refuse. An IPv4-mapped IPv6 CIDR such as ::ffff:10.0.0.0/104, which To4 accepts with its prefix of 104, is not modelled. The database's text form of an INET value is not modelled.
- Identifiers are 128-bit numbers with their text form; a request whose vpc_id is empty or no UUID is not modelled. Fresh identifiers, passwords, MAC addresses and the time are parameters.
- Widths: free RAM and sizes are unbounded integers; the multiplication of ram_mb by 2^20 would wrap only for sizes that the 32-bit column refuses. The last byte of an address, the one arithmetic that wraps in practice, is modelled with its wrap-around.
- Concurrency inside the classes: their methods are proved to be runs of the cluster when nothing interleaves; interleavings are the business of the cluster, and of HostRaces for the network commands. Interleavings of network goroutines with a deletion are not modelled.
- Two agents with the same address: an agent is its address, which the database keeps unique.
- The dispatcher's mutex: its two operations are atomic.
- GrpcServer.Server.Heartbeat: does not model requests enqueued by others while it waits for the next heartbeat; the cluster's runs do.
- Executor.Executor.Handle: download_image changes no modelled state, and an unknown command type does not exist; the domain's XML, the disk and cloud-init volumes are one answer of the environment each.
- Executor.Executor.CreateVm: an agent without libvirt, on which VM commands dereference a nil manager, is not modelled.
- Status.StatusAgrees: crashes of an agent leave a row in starting or stopping for ever, about which it says nothing; that is the code's behaviour.
- Node statistics from libvirt, and the region, version and capacity fields, are carried but have no theorem.
- List queries of the stores and UpdateStatus of the VPC store: nothing in the four layers depends on them.
