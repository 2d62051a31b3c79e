/** The PostgreSQL stores. Each method executes one statement of the schema. */
module Stores {
  import opened Wrappers
  import opened Ipv4
  import opened Uuids
  import opened Schema

  class Database {
    var nodes: map<Uuid, NodeRow>
    var vpcs: map<Uuid, VpcRow>
    var instances: map<Uuid, InstanceRow>

    ghost function Contents(): Tables
      reads this
    {
      Tables(nodes, vpcs, instances)
    }

    ghost predicate Consistent()
      reads this
    {
      Valid(Contents())
    }

    constructor ()
      ensures Contents() == EMPTY && Consistent()
    {
      nodes, vpcs, instances := map[], map[], map[];
    }
  }

  /** A row as a query returns it. */
  datatype Node = Node(id: Uuid, row: NodeRow)

  /** ORDER BY ram_free DESC: NULL first. */
  predicate Precedes(x: NodeRow, y: NodeRow) {
    x.stats.None? || (y.stats.Some? && x.stats.value.ramFree >= y.stats.value.ramFree)
  }

  ghost predicate Ordered(nodes: seq<Node>) {
    forall i, j | 0 <= i < j < |nodes| :: Precedes(nodes[i].row, nodes[j].row)
  }

  /** The result of GetHealthy: every fresh row once, in order. */
  ghost predicate HealthyRows(t: Tables, now: int, nodes: seq<Node>) {
    && (forall i | 0 <= i < |nodes| ::
          nodes[i].id in t.nodes && t.nodes[nodes[i].id] == nodes[i].row && Fresh(nodes[i].row, now))
    && (forall n | n in t.nodes && Fresh(t.nodes[n], now) :: Node(n, t.nodes[n]) in nodes)
    && (forall i, j | 0 <= i < j < |nodes| :: nodes[i].id != nodes[j].id)
    && Ordered(nodes)
  }

  /** Among finitely many rows one precedes all the others. */
  lemma {:induction false} FirstRow(rows: map<Uuid, NodeRow>, left: set<Uuid>) returns (n: Uuid)
    requires left != {} && left <= rows.Keys
    ensures n in left && forall m | m in left :: Precedes(rows[n], rows[m])
    decreases |left|
  {
    var k :| k in left;
    if left == {k} {
      n := k;
    } else {
      assert left == (left - {k}) + {k};
      n := FirstRow(rows, left - {k});
      if Precedes(rows[k], rows[n]) {
        n := k;
      }
    }
  }

  lemma OrderedAppend(nodes: seq<Node>, last: Node)
    requires Ordered(nodes) && forall i | 0 <= i < |nodes| :: Precedes(nodes[i].row, last.row)
    ensures Ordered(nodes + [last])
  {
  }

  class NodeStore {
    const db: Database

    constructor (db: Database)
      ensures this.db == db
    {
      this.db := db;
    }

    method Upsert(newId: Uuid, info: NodeInfo, now: int) returns (r: Result<Uuid>)
      requires db.Consistent()
      modifies db`nodes
      ensures db.Consistent()
      ensures var q := UpsertNode(old(db.Contents()), newId, info, now);
              if q.Ok? then r == Ok(q.value.1) && db.Contents() == q.value.0
              else r == Err(DuplicateKey) && db.Contents() == old(db.Contents())
    {
      ghost var t := db.Contents();
      if n :| n in db.nodes && db.nodes[n].info.address == info.address {
        assert HasAddress(t, n, info.address);
        UpsertKnown(t, n, newId, info, now);
        UpsertKeepsValid(t, newId, info, now);
        var row := db.nodes[n];
        db.nodes := db.nodes[n := row.(info := row.info.(name := info.name), status := Healthy, lastSeen := now)];
        r := Ok(n);
      } else if newId in db.nodes {
        r := Err(DuplicateKey);
      } else {
        assert forall n :: !HasAddress(t, n, info.address);
        UpsertKeepsValid(t, newId, info, now);
        db.nodes := db.nodes[newId := NodeRow(info, Healthy, None, now, now)];
        r := Ok(newId);
      }
    }

    method UpdateHeartbeat(n: Uuid, stats: NodeStats, now: int)
      requires db.Consistent()
      modifies db`nodes
      ensures db.Consistent() && db.Contents() == Schema.UpdateHeartbeat(old(db.Contents()), n, stats, now)
    {
      if n in db.nodes {
        db.nodes := db.nodes[n := db.nodes[n].(stats := Some(stats), lastSeen := now, status := Healthy)];
      }
    }

    method MarkUnreachable(n: Uuid)
      requires db.Consistent()
      modifies db`nodes
      ensures db.Consistent() && db.Contents() == Schema.MarkUnreachable(old(db.Contents()), n)
    {
      if n in db.nodes {
        db.nodes := db.nodes[n := db.nodes[n].(status := Unreachable)];
      }
    }

    /** UpdateVMStatus: an absent address keeps the stored one. */
    method UpdateVmStatus(x: Uuid, status: InstanceStatus, ip: Option<Address>)
      requires db.Consistent()
      modifies db`instances
      ensures db.Consistent() && db.Contents() == Schema.UpdateVmStatus(old(db.Contents()), x, status, ip)
    {
      if x in db.instances {
        var row := db.instances[x];
        if ip.Some? {
          row := row.(ip := ip);
        }
        db.instances := db.instances[x := row.(status := status)];
      }
    }

    method GetById(n: Uuid) returns (r: Result<Node>)
      ensures r == if n in db.nodes then Ok(Node(n, db.nodes[n])) else Err(NotFound)
    {
      if n in db.nodes {
        return Ok(Node(n, db.nodes[n]));
      }
      return Err(NotFound);
    }

    method Delete(n: Uuid) returns (r: Result<()>)
      requires db.Consistent()
      modifies db`nodes
      ensures db.Consistent() && db.Contents() == DeleteNode(old(db.Contents()), n)
      ensures r == if NodeInUse(old(db.Contents()), n) then Err(ForeignKey) else Ok(())
      ensures r.Err? <==> exists x :: x in db.instances && db.instances[x].node == n
      ensures db.nodes == if r.Ok? then old(db.nodes) - {n} else old(db.nodes)
    {
      if x :| x in db.instances && db.instances[x].node == n {
        r := Err(ForeignKey);
      } else {
        db.nodes := db.nodes - {n};
        r := Ok(());
      }
    }

    method GetHealthy(now: int) returns (nodes: seq<Node>)
      ensures HealthyRows(db.Contents(), now, nodes)
      ensures forall i, j | 0 <= i < j < |nodes| && nodes[i].row.stats.Some? ::
                nodes[j].row.stats.Some? && nodes[i].row.stats.value.ramFree >= nodes[j].row.stats.value.ramFree
    {
      nodes := [];
      var left := set n | n in db.nodes && Fresh(db.nodes[n], now);
      while left != {}
        invariant left <= db.nodes.Keys
        invariant forall n | n in db.nodes && Fresh(db.nodes[n], now) :: n in left || Node(n, db.nodes[n]) in nodes
        invariant forall n | n in left :: Fresh(db.nodes[n], now)
        invariant forall i | 0 <= i < |nodes| ::
                    nodes[i].id in db.nodes && nodes[i].id !in left && db.nodes[nodes[i].id] == nodes[i].row
                    && Fresh(nodes[i].row, now)
        invariant forall i, j | 0 <= i < j < |nodes| :: nodes[i].id != nodes[j].id
        invariant Ordered(nodes)
        invariant forall i, n | 0 <= i < |nodes| && n in left :: Precedes(nodes[i].row, db.nodes[n])
        decreases |left|
      {
        ghost var first := FirstRow(db.nodes, left);
        var n :| n in left && forall m | m in left :: Precedes(db.nodes[n], db.nodes[m]);
        OrderedAppend(nodes, Node(n, db.nodes[n]));
        nodes := nodes + [Node(n, db.nodes[n])];
        left := left - {n};
      }
    }
  }

  class VpcStore {
    const db: Database

    constructor (db: Database)
      ensures this.db == db
    {
      this.db := db;
    }

    method Create(id: Uuid, row: VpcRow) returns (r: Result<Uuid>)
      requires db.Consistent()
      modifies db`vpcs
      ensures db.Consistent()
      ensures var q := InsertVpc(old(db.Contents()), id, row);
              if q.Ok? then r == Ok(id) && db.Contents() == q.value
              else r == Err(q.error) && db.Contents() == old(db.Contents())
    {
      if id in db.vpcs {
        return Err(DuplicateKey);
      }
      if !CidrColumn(row.cidr) {
        return Err(InvalidCidr);
      }
      db.vpcs := db.vpcs[id := row];
      return Ok(id);
    }

    method Get(id: Uuid) returns (r: Result<VpcRow>)
      ensures r == if id in db.vpcs then Ok(db.vpcs[id]) else Err(NotFound)
    {
      if id in db.vpcs {
        return Ok(db.vpcs[id]);
      }
      return Err(NotFound);
    }

    method Delete(id: Uuid) returns (r: Result<()>)
      requires db.Consistent()
      modifies db`vpcs
      ensures db.Consistent() && db.Contents() == DeleteVpc(old(db.Contents()), id)
      ensures r == if VpcInUse(old(db.Contents()), id) then Err(ForeignKey) else Ok(())
    {
      if x :| x in db.instances && db.instances[x].vpc == id {
        r := Err(ForeignKey);
      } else {
        db.vpcs := db.vpcs - {id};
        r := Ok(());
      }
    }
  }

  class InstanceStore {
    const db: Database

    constructor (db: Database)
      ensures this.db == db
    {
      this.db := db;
    }

    /** A new row is pending and has no address. */
    method Create(x: Uuid, name: string, node: Uuid, vpc: Uuid, spec: VmSpec) returns (r: Result<Uuid>)
      requires db.Consistent()
      modifies db`instances
      ensures db.Consistent()
      ensures var q := InsertInstance(old(db.Contents()), x, InstanceRow(name, Pending, node, vpc, spec, None));
              if q.Ok? then r == Ok(x) && db.Contents() == q.value
              else r == Err(q.error) && db.Contents() == old(db.Contents())
    {
      if x in db.instances {
        return Err(DuplicateKey);
      }
      if node !in db.nodes || vpc !in db.vpcs {
        return Err(ForeignKey);
      }
      db.instances := db.instances[x := InstanceRow(name, Pending, node, vpc, spec, None)];
      return Ok(x);
    }

    method Get(x: Uuid) returns (r: Result<InstanceRow>)
      ensures r == if x in db.instances then Ok(db.instances[x]) else Err(NotFound)
    {
      if x in db.instances {
        return Ok(db.instances[x]);
      }
      return Err(NotFound);
    }

    /** UpdateStatus: an absent address clears the stored one. The database may be
        unavailable, and then nothing changes. */
    method UpdateStatus(x: Uuid, status: InstanceStatus, ip: Option<Address>, up: bool) returns (r: Result<()>)
      requires db.Consistent()
      modifies db`instances
      ensures db.Consistent() && r == (if up then Ok(()) else Err(Unavailable))
      ensures db.Contents() == if up then Schema.UpdateStatus(old(db.Contents()), x, status, ip) else old(db.Contents())
    {
      if !up {
        return Err(Unavailable);
      }
      if x in db.instances {
        db.instances := db.instances[x := db.instances[x].(status := status, ip := ip)];
      }
      r := Ok(());
    }

    method Delete(x: Uuid, up: bool) returns (r: Result<()>)
      requires db.Consistent()
      modifies db`instances
      ensures db.Consistent() && r == (if up then Ok(()) else Err(Unavailable))
      ensures db.Contents() == if up then DeleteInstance(old(db.Contents()), x) else old(db.Contents())
    {
      if !up {
        return Err(Unavailable);
      }
      db.instances := db.instances - {x};
      r := Ok(());
    }

    method CountByVpc(v: Uuid) returns (count: nat)
      ensures count == Schema.CountByVpc(db.Contents(), v)
    {
      var found := set x | x in db.instances && db.instances[x].vpc == v;
      assert found == InstancesOf(db.Contents(), v);
      count := |found|;
    }
  }
}
