/** The agent's libvirt manager. What libvirt and the guests answer are parameters;
    a guest may change its state at any time while a stop waits for it. */
module Libvirt {
  import opened Wrappers
  import opened Uuids
  import opened Schema
  import opened Commands

  /** One round of waiting: how long the sleep took, the state of the domain at that
      time, and whether libvirt answers the query. */
  datatype Poll = Poll(slept: nat, state: DomainState, answered: bool)

  /** How a guest and libvirt behave during a stop. `atEnd` is the state of the domain
      when it is destroyed for not going down by itself. */
  datatype Guest = Guest(shutdown: bool, polls: nat -> Poll, atEnd: DomainState, destroyed: bool)

  /** A sleep of two seconds takes at least two seconds. */
  ghost predicate ClockAdvances(g: Guest) {
    forall k: nat :: g.polls(k).slept >= 2
  }

  /** The time the first n rounds take. */
  function Elapsed(g: Guest, n: nat): nat {
    if n == 0 then 0 else Elapsed(g, n - 1) + g.polls(n - 1).slept
  }

  predicate SeesOff(p: Poll) {
    p.answered && p.state == Off
  }

  /** `n` rounds of waiting: none but the last ends the wait, all start before the
      deadline of 30 seconds, and the last one sees the guest off, or gets no answer,
      or passes the deadline. */
  ghost predicate Waits(g: Guest, n: nat) {
    && n > 0 && Elapsed(g, n - 1) < 30
    && (forall k: nat | k < n - 1 :: g.polls(k).answered && g.polls(k).state != Off)
    && (g.polls(n - 1).answered && g.polls(n - 1).state != Off ==> Elapsed(g, n) >= 30)
  }

  lemma {:induction false} ElapsedAtLeast(g: Guest, n: nat)
    requires ClockAdvances(g)
    ensures Elapsed(g, n) >= 2 * n
  {
    if n > 0 {
      ElapsedAtLeast(g, n - 1);
    }
  }

  lemma {:induction false} ElapsedGrows(g: Guest, m: nat, n: nat)
    requires m <= n
    ensures Elapsed(g, m) <= Elapsed(g, n)
  {
    if m < n {
      ElapsedGrows(g, m, n - 1);
    }
  }

  /** A stop waits for at most 15 rounds, and how long it waits is determined by the
      guest and the clock. */
  lemma WaitsBounded(g: Guest, n: nat)
    requires ClockAdvances(g) && Waits(g, n)
    ensures n <= 15
    ensures forall m: nat | Waits(g, m) :: m == n
  {
    ElapsedAtLeast(g, n - 1);
    forall m: nat | Waits(g, m) ensures m == n {
      WaitsNoLonger(g, m, n);
      WaitsNoLonger(g, n, m);
    }
  }

  lemma WaitsNoLonger(g: Guest, m: nat, n: nat)
    requires Waits(g, m) && Waits(g, n)
    ensures n <= m
  {
    if m < n {
      ElapsedGrows(g, m, n - 1);
    }
  }

  lemma SetTwice(domains: Domains, name: string, first: DomainState, second: DomainState)
    ensures SetState(SetState(domains, name, first), name, second) == SetState(domains, name, second)
  {
    if name in domains {
      var d := domains[name];
      assert domains[name := d.(state := first)][name := d.(state := second)] == domains[name := d.(state := second)];
    }
  }

  /** A listed domain: the text of its UUID, its name, and its status. */
  datatype VmInfo = VmInfo(id: string, name: string, status: InstanceStatus)

  class Manager {
    var domains: Domains

    constructor (domains: Domains)
      ensures this.domains == domains
    {
      this.domains := domains;
    }

    /** CreateVM defines the domain and boots it; when only the boot fails, the domain
        stays defined. */
    method CreateVm(vm: Uuid, name: string, defines: bool, boots: bool) returns (ok: bool)
      modifies this
      ensures ok <==> defines && Definable(old(domains), name, vm) && boots && !Active(old(domains), name)
      ensures domains == if !(defines && Definable(old(domains), name, vm)) then old(domains)
                         else if ok then old(domains)[name := Domain(vm, On)]
                         else if name in old(domains) then old(domains)
                         else old(domains)[name := Domain(vm, Off)]
    {
      if !defines || !Definable(domains, name, vm) {
        return false;
      }
      if name !in domains {
        domains := domains[name := Domain(vm, Off)];
      }
      if !boots || Active(domains, name) {
        return false;
      }
      domains := domains[name := domains[name].(state := On)];
      ok := true;
    }

    method StartVm(name: string, boots: bool) returns (ok: bool)
      modifies this
      ensures ok <==> boots && Bootable(old(domains), name)
      ensures domains == if ok then SetState(old(domains), name, On) else old(domains)
    {
      if name !in domains {
        return false;
      }
      if !boots || Active(domains, name) {
        return false;
      }
      domains := SetState(domains, name, On);
      ok := true;
    }

    /** DomainDestroy fails on a domain that is not active. */
    method Destroy(name: string, answer: bool) returns (ok: bool)
      modifies this
      ensures ok <==> answer && Active(old(domains), name)
      ensures domains == if ok then SetState(old(domains), name, Off) else old(domains)
    {
      ok := answer && Active(domains, name);
      if ok {
        domains := SetState(domains, name, Off);
      }
    }

    /** StopVM asks the guest to shut down, waits at most 15 rounds, and then destroys the
        domain. It succeeds only when the shut-off was seen or the destruction
        succeeded, and then the domain is off. It can fail although the domain is off:
        when the guest goes down after the last round. */
    method StopVm(name: string, force: bool, g: Guest) returns (ok: bool, ghost rounds: nat)
      requires ClockAdvances(g)
      modifies this
      ensures ok ==> domains == SetState(old(domains), name, Off)
      ensures !ok ==> domains == old(domains) || domains == SetState(old(domains), name, g.atEnd)
      ensures force || !g.shutdown || !Active(old(domains), name) ==>
                rounds == 0 && (ok <==> force && g.destroyed && Active(old(domains), name))
                && (!ok ==> domains == old(domains))
      ensures !force && g.shutdown && Active(old(domains), name) ==>
                && Waits(g, rounds) && rounds <= 15
                && (ok <==> SeesOff(g.polls(rounds - 1)) || (g.destroyed && g.atEnd != Off && g.atEnd != Crashed))
                && (!ok ==> domains == SetState(old(domains), name, g.atEnd))
    {
      rounds := 0;
      ghost var was := domains;
      if name !in domains {
        return false, rounds;
      }
      if force {
        ok := Destroy(name, g.destroyed);
        return ok, rounds;
      }
      if !g.shutdown || !Active(domains, name) {
        return false, rounds;
      }
      var off, n := Await(name, g);
      rounds := n;
      if off {
        return true, rounds;
      }
      SetTwice(was, name, g.polls(n - 1).state, g.atEnd);
      SetTwice(was, name, g.atEnd, Off);
      domains := SetState(domains, name, g.atEnd);
      ok := Destroy(name, g.destroyed);
    }

    /** The wait: poll every two seconds until the deadline. */
    method Await(name: string, g: Guest) returns (off: bool, ghost rounds: nat)
      requires ClockAdvances(g)
      modifies this
      ensures Waits(g, rounds) && rounds <= 15 && off == SeesOff(g.polls(rounds - 1))
      ensures domains == SetState(old(domains), name, g.polls(rounds - 1).state)
    {
      off := false;
      var now, i := 0, 0;
      while now < 30 && !off
        invariant i >= 0 && now == Elapsed(g, i)
        invariant forall k: nat | k < i - 1 :: g.polls(k).answered && g.polls(k).state != Off
        invariant i > 0 ==> Elapsed(g, i - 1) < 30 && g.polls(i - 1).answered && off == (g.polls(i - 1).state == Off)
        invariant i == 0 ==> !off
        invariant domains == if i == 0 then old(domains) else SetState(old(domains), name, g.polls(i - 1).state)
        decreases 30 - now, !off
      {
        var p := g.polls(i);
        now, i := now + p.slept, i + 1;
        SetTwice(old(domains), name, if i == 1 then On else g.polls(i - 2).state, p.state);
        domains := SetState(domains, name, p.state);
        if !p.answered {
          break;
        }
        off := p.state == Off;
      }
      rounds := i;
      WaitsBounded(g, rounds);
    }

    /** DeleteVM destroys the domain when it sees it running, and undefines it. A domain
        that is still active stays, as a transient one. The outcome is a success when the
        domain is gone; `Gone` when it was stopped but is still defined; and otherwise a
        failure, which leaves everything as it was. */
    method DeleteVm(name: string, answered: bool, destroys: bool, undefines: bool)
      returns (ok: bool, ghost outcome: Outcome)
      modifies this
      ensures ok <==> name in old(domains) && undefines
      ensures var d := old(domains);
              domains == if outcome.Success? then d - {name} else if outcome.Gone? then SetState(d, name, Off) else d
      ensures var stopped := name in old(domains) && old(domains)[name].state == On && answered && destroys;
              && (outcome.Success? <==>
                    name in old(domains) && undefines && (stopped || !Active(old(domains), name)))
              && (outcome.Gone? <==> stopped && !undefines)
    {
      outcome := Failure;
      if name !in domains {
        return false, outcome;
      }
      if answered && domains[name].state == On {
        var destroyed := Destroy(name, destroys);
        if destroyed {
          outcome := Gone;
        }
      }
      if undefines && !Active(domains, name) {
        domains := domains - {name};
        outcome := Success;
      }
      ok := undefines;
    }

    /** ListVMInfos: every domain whose state is answered, in the order listed. Its id is
        the canonical text of the UUID, and so names the instance it was defined for. */
    method ListVmInfos(listed: seq<string>, answered: set<string>) returns (infos: seq<VmInfo>)
      requires forall i | 0 <= i < |listed| :: listed[i] in domains
      ensures NamesOf(infos) == Kept(listed, answered)
      ensures forall i | 0 <= i < |infos| ::
                infos[i].name in domains && Describes(infos[i], domains[infos[i].name])
    {
      infos := [];
      for k := 0 to |listed|
        invariant NamesOf(infos) == Kept(listed[..k], answered)
        invariant forall i | 0 <= i < |infos| :: infos[i].name in domains && Describes(infos[i], domains[infos[i].name])
      {
        var name := listed[k];
        assert listed[..k + 1] == listed[..k] + [name];
        KeptLast(listed[..k], name, answered);
        if name !in answered {
          continue;
        }
        ParsePrint(domains[name].uuid);
        infos := infos + [VmInfo(Print(Bytes(domains[name].uuid, 16)), name, StatusOf(domains[name].state))];
      }
      assert listed[..|listed|] == listed;
    }
  }

  /** The info has the domain's status, and an id that reads back as its UUID. */
  predicate Describes(info: VmInfo, d: Domain) {
    info.id == Text(d.uuid) && Parse(info.id) == Some(d.uuid) && info.status == StatusOf(d.state)
  }

  function NamesOf(infos: seq<VmInfo>): seq<string> {
    seq(|infos|, i requires 0 <= i < |infos| => infos[i].name)
  }

  /** The names that are in the set, in order. */
  function Kept(names: seq<string>, answered: set<string>): seq<string> {
    if names == [] then []
    else Kept(names[..|names| - 1], answered) + if names[|names| - 1] in answered then [names[|names| - 1]] else []
  }

  lemma KeptLast(names: seq<string>, name: string, answered: set<string>)
    ensures Kept(names + [name], answered) == Kept(names, answered) + if name in answered then [name] else []
  {
    assert (names + [name])[..|names|] == names;
  }

  /** Distinct names stay distinct, and the names kept are those in both. */
  lemma {:induction false} KeptNames(names: seq<string>, answered: set<string>)
    requires forall i, j | 0 <= i < j < |names| :: names[i] != names[j]
    ensures forall x :: x in Kept(names, answered) <==> x in names && x in answered
    ensures var kept := Kept(names, answered);
            forall i, j | 0 <= i < j < |kept| :: kept[i] != kept[j]
  {
    if names != [] {
      var front := names[..|names| - 1];
      KeptNames(front, answered);
      assert names == front + [names[|names| - 1]];
      assert names[|names| - 1] !in Kept(front, answered);
    }
  }
}
