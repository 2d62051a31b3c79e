/** A reconciliation that nothing disturbs: every row that it lists comes to say what libvirt
    said of its domain. */
module Reconciling {
  import opened Wrappers
  import opened Uuids
  import opened Schema
  import opened Commands
  import opened Protocol
  import opened Ledger

  function Deliveries(a: string, count: nat): seq<Step> {
    if count == 0 then [] else [ReportNext(a, true)] + Deliveries(a, count - 1)
  }

  /** The listing, and then its reports, one by one. */
  function Reconciliation(a: string, names: seq<string>): seq<Step> {
    [List(a, names)] + Deliveries(a, |names|)
  }

  predicate Distinct(listing: seq<Report>) {
    forall i, j | 0 <= i < j < |listing| :: listing[i].vm != listing[j].vm
  }

  predicate Addressless(listing: seq<Report>) {
    forall i | 0 <= i < |listing| :: listing[i].ip.None?
  }

  /** The rows that are reported on have the status reported, and nothing else changes. */
  ghost predicate ToldOnce(t: Tables, t': Tables, listing: seq<Report>) {
    && t'.nodes == t.nodes && t'.vpcs == t.vpcs && t'.instances.Keys == t.instances.Keys
    && (forall i | 0 <= i < |listing| && listing[i].vm in t.instances ::
          t'.instances[listing[i].vm] == t.instances[listing[i].vm].(status := listing[i].status))
    && (forall x | x in t.instances && (forall i | 0 <= i < |listing| :: listing[i].vm != x) ::
          t'.instances[x] == t.instances[x])
  }

  lemma ToldFirst(t: Tables, t': Tables, r: Report, listing: seq<Report>)
    requires listing != [] && listing[0] == r && r.ip.None? && Distinct(listing)
    requires ToldOnce(UpdateVmStatus(t, r.vm, r.status, r.ip), t', listing[1..])
    ensures ToldOnce(t, t', listing)
  {
    var u := UpdateVmStatus(t, r.vm, r.status, r.ip);
    assert u.instances.Keys == t.instances.Keys;
    forall i | 0 <= i < |listing| && listing[i].vm in t.instances
      ensures t'.instances[listing[i].vm] == t.instances[listing[i].vm].(status := listing[i].status)
    {
      if i == 0 {
        assert forall k | 0 <= k < |listing| - 1 :: listing[1..][k].vm != r.vm;
      } else {
        assert listing[1..][i - 1] == listing[i];
      }
    }
    forall x | x in t.instances && (forall i | 0 <= i < |listing| :: listing[i].vm != x)
      ensures t'.instances[x] == t.instances[x]
    {
      assert listing[0].vm != x;
      assert forall k | 0 <= k < |listing| - 1 :: listing[1..][k].vm != x;
    }
  }

  lemma DeliveredOne(s: Cluster, a: string) returns (s': Cluster)
    requires AgentAt(s, a).listing != []
    ensures Enabled(s, ReportNext(a, true)) && s' == Apply(s, ReportNext(a, true))
    ensures var r := AgentAt(s, a).listing[0];
            s'.tables == UpdateVmStatus(s.tables, r.vm, r.status, r.ip)
    ensures AgentAt(s', a) == AgentAt(s, a).(listing := AgentAt(s, a).listing[1..])
  {
    s' := Apply(s, ReportNext(a, true));
    AgentAfter(s, ReportNext(a, true), a);
  }

  lemma {:induction false} AllDelivered(s: Cluster, a: string, listing: seq<Report>)
    requires AgentAt(s, a).listing == listing && Distinct(listing) && Addressless(listing)
    ensures Run(s, Deliveries(a, |listing|))
    ensures var t := After(s, Deliveries(a, |listing|));
            ToldOnce(s.tables, t.tables, listing) && AgentAt(t, a) == AgentAt(s, a).(listing := [])
    decreases |listing|
  {
    if listing != [] {
      var u := DeliveredOne(s, a);
      assert Deliveries(a, |listing|)[1..] == Deliveries(a, |listing| - 1);
      AllDelivered(u, a, listing[1..]);
      ToldFirst(s.tables, After(u, Deliveries(a, |listing| - 1)).tables, listing[0], listing);
    }
  }

  /** No two domains of an agent were defined for one instance. */
  lemma ListingIsDistinct(s: Cluster, a: string, names: seq<string>)
    requires Inv(s) && Enabled(s, List(a, names))
    ensures Distinct(ListingOf(AgentAt(s, a).domains, names)) && Addressless(ListingOf(AgentAt(s, a).domains, names))
  {
    var domains := AgentAt(s, a).domains;
    assert AgentBorn(s.book, a, AgentAt(s, a));
    forall i, j | 0 <= i < j < |names| ensures domains[names[i]].uuid != domains[names[j]].uuid {
      assert DomainBorn(s.book, a, names[i], domains[names[i]]) && DomainBorn(s.book, a, names[j], domains[names[j]]);
    }
  }

  /** The status is what libvirt said of the domain. */
  predicate Says(status: InstanceStatus, state: DomainState) {
    && (status == Running <==> state == On)
    && (status == Stopped <==> state == Off || state == ShuttingDown)
    && (status == Paused <==> state == OnHold)
    && (status == Failed <==> state == Crashed)
    && (status == Pending <==> state == Unknown)
  }

  /** Every row of a listed domain says what its domain does, with its other columns as they
      were; and every other row is as it was. */
  ghost predicate AsListed(domains: Domains, names: seq<string>, rows: map<Uuid, InstanceRow>,
                           rows': map<Uuid, InstanceRow>) {
    && rows'.Keys == rows.Keys
    && (forall k | 0 <= k < |names| ::
          && names[k] in domains
          && var d := domains[names[k]];
             d.uuid in rows ==>
               Says(rows'[d.uuid].status, d.state) && rows'[d.uuid] == rows[d.uuid].(status := rows'[d.uuid].status))
    && (forall x | x in rows && (forall k | 0 <= k < |names| :: domains[names[k]].uuid != x) :: rows'[x] == rows[x])
  }

  /** In any reachable state: after a reconciliation whose reports are all delivered and
      which nothing disturbs, the row of every listed domain's instance, if it is still
      there, is running, stopped, paused, failed or pending exactly as the domain is. */
  lemma ListingTells(s: Cluster, a: string, names: seq<string>)
    requires Inv(s) && Enabled(s, List(a, names))
    ensures Run(s, Reconciliation(a, names))
    ensures var t := After(s, Reconciliation(a, names));
            && AgentAt(t, a).domains == AgentAt(s, a).domains
            && AsListed(AgentAt(s, a).domains, names, s.tables.instances, t.tables.instances)
  {
    var step, listing := List(a, names), ListingOf(AgentAt(s, a).domains, names);
    var u := Apply(s, step);
    AgentAfter(s, step, a);
    ListingIsDistinct(s, a, names);
    AllDelivered(u, a, listing);
    RunCons(s, step, Deliveries(a, |names|));
    RowsAsListed(AgentAt(s, a).domains, names, s.tables, After(u, Deliveries(a, |names|)).tables);
  }

  lemma RowsAsListed(domains: Domains, names: seq<string>, t: Tables, t': Tables)
    requires forall k | 0 <= k < |names| :: names[k] in domains
    requires ToldOnce(t, t', ListingOf(domains, names))
    ensures AsListed(domains, names, t.instances, t'.instances)
  {
    var listing := ListingOf(domains, names);
    forall k | 0 <= k < |names| && domains[names[k]].uuid in t.instances
      ensures var x, state := domains[names[k]].uuid, domains[names[k]].state;
              Says(StatusOf(state), state) && t'.instances[x] == t.instances[x].(status := StatusOf(state))
    {
      assert listing[k].vm == domains[names[k]].uuid;
    }
    forall x | x in t.instances && (forall k | 0 <= k < |names| :: domains[names[k]].uuid != x)
      ensures t'.instances[x] == t.instances[x]
    {
      assert forall k | 0 <= k < |listing| :: listing[k].vm == domains[names[k]].uuid;
    }
  }
}
