/** The controller's database: its three tables as maps with the constraints of
    the migrations, and one function for each SQL statement of the stores. A
    statement is atomic. NULL is None, and the empty string that stands for NULL
    in the statements' parameters is None as well. */
module Schema {
  import opened Wrappers
  import opened Ipv4
  import opened Uuids

  datatype NodeStatus = Healthy | Unreachable

  datatype InstanceStatus = Pending | Running | Stopped | Starting | Stopping | Terminating | Failed | Paused

  datatype NodeInfo =
    NodeInfo(name: string, region: string, address: string, cpuCores: int, ramBytes: int, diskBytes: int)

  datatype NodeStats = NodeStats(cpuFree: int, ramFree: int, diskFree: int, vmCount: int)

  /** `stats` is NULL until the first heartbeat. */
  datatype NodeRow =
    NodeRow(info: NodeInfo, status: NodeStatus, stats: Option<NodeStats>, lastSeen: int, registeredAt: int)

  datatype VpcRow = VpcRow(name: string, cidr: Cidr)

  datatype VmSpec = VmSpec(vcpus: int, ramMb: int, diskGb: int, osImage: string, password: string)

  datatype InstanceRow =
    InstanceRow(name: string, status: InstanceStatus, node: Uuid, vpc: Uuid, spec: VmSpec, ip: Option<Address>)

  datatype Tables =
    Tables(nodes: map<Uuid, NodeRow>, vpcs: map<Uuid, VpcRow>, instances: map<Uuid, InstanceRow>)

  const EMPTY := Tables(map[], map[], map[])

  /** The CIDR column type refuses a value with host bits set. */
  predicate CidrColumn(cidr: Cidr) {
    cidr.V6? || (cidr.prefix <= 32 && Value(cidr.host) % BlockSize(cidr.prefix) == 0)
  }

  /** The unique and foreign-key constraints. */
  ghost predicate Valid(t: Tables) {
    && (forall m, n | m in t.nodes && n in t.nodes && t.nodes[m].info.address == t.nodes[n].info.address :: m == n)
    && (forall x | x in t.instances :: t.instances[x].node in t.nodes && t.instances[x].vpc in t.vpcs)
    && (forall v | v in t.vpcs :: CidrColumn(t.vpcs[v].cidr))
  }

  /* ---- nodes ---- */

  ghost predicate HasAddress(t: Tables, n: Uuid, address: string) {
    n in t.nodes && t.nodes[n].info.address == address
  }

  /** INSERT ... ON CONFLICT (address) DO UPDATE ... RETURNING id. On a conflict
      only the name, the status and the time of last contact change. */
  ghost function UpsertNode(t: Tables, newId: Uuid, info: NodeInfo, now: int): Result<(Tables, Uuid)> {
    if n: Uuid :| HasAddress(t, n, info.address) then
      Ok((t.(nodes := t.nodes[n := Greeted(t.nodes[n], info.name, now)]), n))
    else if newId in t.nodes then
      Err(DuplicateKey)
    else
      Ok((t.(nodes := t.nodes[newId := NewNode(info, now)]), newId))
  }

  function Greeted(row: NodeRow, name: string, now: int): NodeRow {
    row.(info := row.info.(name := name), status := Healthy, lastSeen := now)
  }

  function NewNode(info: NodeInfo, now: int): NodeRow {
    NodeRow(info, Healthy, None, now, now)
  }

  function UpdateHeartbeat(t: Tables, n: Uuid, stats: NodeStats, now: int): Tables {
    if n !in t.nodes then t
    else t.(nodes := t.nodes[n := t.nodes[n].(stats := Some(stats), lastSeen := now, status := Healthy)])
  }

  function MarkUnreachable(t: Tables, n: Uuid): Tables {
    if n !in t.nodes then t
    else t.(nodes := t.nodes[n := t.nodes[n].(status := Unreachable)])
  }

  /** A node that an instance refers to cannot be deleted. */
  predicate NodeInUse(t: Tables, n: Uuid) {
    exists x :: x in t.instances && t.instances[x].node == n
  }

  function DeleteNode(t: Tables, n: Uuid): Tables {
    if NodeInUse(t, n) then t else t.(nodes := t.nodes - {n})
  }

  /** The rows GetHealthy selects. */
  predicate Fresh(row: NodeRow, now: int) {
    row.status == Healthy && row.lastSeen > now - 30
  }

  /** COALESCE(ram_free, 0). */
  function RamFree(row: NodeRow): int {
    if row.stats.Some? then row.stats.value.ramFree else 0
  }

  /** A possible choice of PickNode: a fresh node with enough free RAM, and no other
      fresh node has more. */
  ghost predicate IsPick(t: Tables, n: Uuid, minRam: int, now: int) {
    && n in t.nodes && Fresh(t.nodes[n], now) && RamFree(t.nodes[n]) >= minRam
    && forall m | m in t.nodes && Fresh(t.nodes[m], now) :: RamFree(t.nodes[m]) <= RamFree(t.nodes[n])
  }

  /* ---- vpcs ---- */

  function InsertVpc(t: Tables, v: Uuid, row: VpcRow): Result<Tables> {
    if v in t.vpcs then Err(DuplicateKey)
    else if !CidrColumn(row.cidr) then Err(InvalidCidr)
    else Ok(t.(vpcs := t.vpcs[v := row]))
  }

  predicate VpcInUse(t: Tables, v: Uuid) {
    exists x :: x in t.instances && t.instances[x].vpc == v
  }

  function DeleteVpc(t: Tables, v: Uuid): Tables {
    if VpcInUse(t, v) then t else t.(vpcs := t.vpcs - {v})
  }

  /* ---- instances ---- */

  function InsertInstance(t: Tables, x: Uuid, row: InstanceRow): Result<Tables> {
    if x in t.instances then Err(DuplicateKey)
    else if row.node !in t.nodes || row.vpc !in t.vpcs then Err(ForeignKey)
    else Ok(t.(instances := t.instances[x := row]))
  }

  /** InstanceStore.UpdateStatus: an absent address clears the stored one. */
  function UpdateStatus(t: Tables, x: Uuid, status: InstanceStatus, ip: Option<Address>): Tables {
    if x !in t.instances then t
    else t.(instances := t.instances[x := t.instances[x].(status := status, ip := ip)])
  }

  /** NodeStore.UpdateVMStatus: an absent address keeps the stored one. */
  function UpdateVmStatus(t: Tables, x: Uuid, status: InstanceStatus, ip: Option<Address>): Tables {
    if x !in t.instances then t
    else
      var row := t.instances[x];
      t.(instances := t.instances[x := row.(status := status, ip := if ip.None? then row.ip else ip)])
  }

  function DeleteInstance(t: Tables, x: Uuid): Tables {
    t.(instances := t.instances - {x})
  }

  function InstancesOf(t: Tables, v: Uuid): set<Uuid> {
    set x | x in t.instances && t.instances[x].vpc == v
  }

  function CountByVpc(t: Tables, v: Uuid): nat {
    |InstancesOf(t, v)|
  }

  /* ---- every statement keeps the constraints ---- */

  /** Registering an address again keeps the node's identifier, its capacity and
      its statistics, and touches no other row. */
  lemma UpsertKnown(t: Tables, n: Uuid, newId: Uuid, info: NodeInfo, now: int)
    requires Valid(t) && HasAddress(t, n, info.address)
    ensures UpsertNode(t, newId, info, now)
         == Ok((t.(nodes := t.nodes[n := Greeted(t.nodes[n], info.name, now)]), n))
    ensures var row := t.nodes[n];
            Greeted(row, info.name, now)
            == NodeRow(row.info.(name := info.name), Healthy, row.stats, now, row.registeredAt)
  {
  }

  lemma UpsertKeepsValid(t: Tables, newId: Uuid, info: NodeInfo, now: int)
    requires Valid(t) && UpsertNode(t, newId, info, now).Ok?
    ensures var (t', n) := UpsertNode(t, newId, info, now).value;
            Valid(t') && HasAddress(t', n, info.address) && t'.nodes[n].status == Healthy && t'.nodes[n].lastSeen == now
  {
    if n: Uuid :| HasAddress(t, n, info.address) {
      UpsertKnown(t, n, newId, info, now);
    } else {
      var t' := UpsertNode(t, newId, info, now).value.0;
      assert forall m | m in t.nodes :: t'.nodes[m] == t.nodes[m] && !HasAddress(t, m, info.address);
    }
  }

  lemma NodeStatementsKeepValid(t: Tables, n: Uuid, stats: NodeStats, now: int)
    requires Valid(t)
    ensures Valid(UpdateHeartbeat(t, n, stats, now))
    ensures Valid(MarkUnreachable(t, n))
    ensures Valid(DeleteNode(t, n))
  {
  }

  lemma VpcStatementsKeepValid(t: Tables, v: Uuid, row: VpcRow)
    requires Valid(t)
    ensures InsertVpc(t, v, row).Ok? ==> Valid(InsertVpc(t, v, row).value)
    ensures Valid(DeleteVpc(t, v))
  {
  }
}
