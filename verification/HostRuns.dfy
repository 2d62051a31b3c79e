/** What sequences of network calls leave on a host. */
module HostRuns {
  import opened Wrappers
  import opened Ipv4
  import opened Uuids
  import opened Naming
  import opened HostNetwork
  import Commands
  import opened Protocol
  import opened Ledger

  datatype Call =
    | Create(vpc: string, cidr: Cidr, faults: Faults)
    | Ensure(vpc: string, cidr: Cidr, faults: Faults)
    | Delete(vpc: string, cidr: Cidr, faults: Faults)

  function AfterCall(h: Net, uplink: string, call: Call): Net {
    match call
    case Create(v, cidr, f) => AfterCreate(h, v, cidr, uplink, f)
    case Ensure(v, cidr, f) => AfterEnsure(h, v, cidr, uplink, f)
    case Delete(v, cidr, f) => AfterDelete(h, v, cidr, uplink, f)
  }

  function AfterCalls(h: Net, uplink: string, calls: seq<Call>): Net
    decreases |calls|
  {
    if calls == [] then h else AfterCalls(AfterCall(h, uplink, calls[0]), uplink, calls[1..])
  }

  /* ---- roll-back ---- */

  /** A creation that fails leaves everything but forwarding as it was exactly when it
      did not stop at raising the link or adding the address, which are not rolled
      back, and the clean-up commands it then ran did not fail themselves. */
  lemma RollbackExact(h: Net, vpc: string, cidr: Cidr, uplink: string, f: Faults)
    requires CreateOutcome(h, vpc, cidr, uplink, f).Stuck?
    ensures var at := CreateOutcome(h, vpc, cidr, uplink, f).at;
            AfterCreate(h, vpc, cidr, uplink, f).(forwarding := h.forwarding) == h
            <==> && !at.RaiseLink? && !at.AddAddress?
                 && (at.AddLink? || DeleteLink(BridgeName(vpc)) !in f)
                 && (at.AppendRule? ==> DeleteNamespace(NetnsName(vpc)) !in f)
  {
    var name, net := BridgeName(vpc), NetOf(cidr);
    var after := AfterCreate(h, vpc, cidr, uplink, f);
    var b := AfterBridge(h, vpc, net, f);
    if name in h.bridges {
      assert BridgeOutcome(h, vpc, net, f) == Stuck(AddLink(name));
    } else {
      assert h.bridges[name := Complete(net)] - {name} == h.bridges;
    }
  }

  /* ---- what the answers mean ---- */

  /** A creation succeeds exactly when it adds the bridge and the namespace and leaves the
      bridge complete, forwarding on and the rule in place; but for one case, in which all
      this is so and it fails: the rule was there, the check and the rule failed, and
      nothing could be rolled back. */
  lemma CreationMeans(h: Net, vpc: string, cidr: Cidr, uplink: string, f: Faults)
    requires ParseCidr(cidr).Ok?
    ensures var name, ns, after := BridgeName(vpc), NetnsName(vpc), AfterCreate(h, vpc, cidr, uplink, f);
            CreateOutcome(h, vpc, cidr, uplink, f) == Done
            <==> && name !in h.bridges && name in after.bridges && after.bridges[name] == Complete(NetOf(cidr))
                 && ns !in h.namespaces && ns in after.namespaces && after.forwarding && HasRule(after, cidr, uplink)
                 && !(CheckRule(cidr, uplink) in f && AppendRule(cidr, uplink) in f)
  {
    SetupRules(h, vpc, cidr, uplink, f);
  }

  lemma SetupRules(h: Net, vpc: string, cidr: Cidr, uplink: string, f: Faults)
    requires ParseCidr(cidr).Ok?
    ensures var call := Create(vpc, cidr, f);
            HasRule(AfterCreate(h, vpc, cidr, uplink, f), cidr, uplink)
            <==> HasRule(h, cidr, uplink) || (ReachesNat(h, call) && Appends(h, cidr, uplink, f))
  {
    RulesAfterSetup(h, uplink, Create(vpc, cidr, f));
  }

  /** An EnsureBridge succeeds exactly when it sees the bridge or builds it whole; it then
      has the rule in place unless the rule was missing and could not be added. */
  lemma EnsuringMeans(h: Net, vpc: string, cidr: Cidr, uplink: string, f: Faults)
    requires ParseCidr(cidr).Ok?
    ensures var name, after := BridgeName(vpc), AfterEnsure(h, vpc, cidr, uplink, f);
            && (EnsureOutcome(h, vpc, cidr, f) == Done
                <==> if name in h.bridges then ShowLink(name) !in f
                     else name in after.bridges && after.bridges[name] == Complete(NetOf(cidr)))
            && (EnsureOutcome(h, vpc, cidr, f) == Done && name !in h.bridges ==>
                  && (HasRule(after, cidr, uplink) <==> HasRule(h, cidr, uplink) || AppendRule(cidr, uplink) !in f)
                  && (after.forwarding <==> h.forwarding || Forward !in f) && after.namespaces == h.namespaces)
  {
    RulesAfterSetup(h, uplink, Ensure(vpc, cidr, f));
  }

  /** A deletion succeeds exactly when it takes the bridge away. */
  lemma DeletionMeans(h: Net, vpc: string, cidr: Cidr, uplink: string, f: Faults)
    ensures DeleteOutcome(h, vpc, f) == Done
            <==> BridgeName(vpc) in h.bridges && BridgeName(vpc) !in AfterDelete(h, vpc, cidr, uplink, f).bridges
  {
  }

  /** A deletion whose commands do not fail leaves nothing of its VPC, provided that its
      rule was not repeated, which RulesUniqueOverRuns ensures. */
  lemma DeletionClears(h: Net, vpc: string, cidr: Cidr, uplink: string)
    requires AtMostOnce(h.rules)
    ensures var after := AfterDelete(h, vpc, cidr, uplink, {});
            && BridgeName(vpc) !in after.bridges && NetnsName(vpc) !in after.namespaces
            && !HasRule(after, cidr, uplink)
  {
    if HasRule(h, cidr, uplink) {
      UniqueWithoutFirst(h.rules, Rule(NetOf(cidr), uplink));
    }
  }

  /* ---- repeated setup ---- */

  predicate SetsUp(call: Call, vpc: string, cidr: Cidr) {
    !call.Delete? && call.vpc == vpc && call.cidr == cidr
  }

  /** Once a bridge of that name exists, no call for that VPC, or for one whose name
      collides with it, changes the host in any way, whatever fails: a bare bridge is
      never repaired. */
  lemma {:induction false} ExistingBridgeBlocks(h: Net, uplink: string, vpc: string, calls: seq<Call>)
    requires BridgeName(vpc) in h.bridges
    requires forall i | 0 <= i < |calls| :: !calls[i].Delete? && BridgeName(calls[i].vpc) == BridgeName(vpc)
    ensures AfterCalls(h, uplink, calls) == h
  {
    if calls != [] {
      assert AfterCall(h, uplink, calls[0]) == h;
      ExistingBridgeBlocks(h, uplink, vpc, calls[1..]);
    }
  }

  /** What a successful EnsureBridge is worth: its VPC's bridge is complete afterwards
      exactly when it was missing or complete before. */
  lemma EnsureCompletes(h: Net, vpc: string, cidr: Cidr, uplink: string, f: Faults)
    requires ParseCidr(cidr).Ok? && EnsureOutcome(h, vpc, cidr, f) == Done
    ensures var name, after := BridgeName(vpc), AfterEnsure(h, vpc, cidr, uplink, f);
            && name in after.bridges
            && (after.bridges[name] == Complete(NetOf(cidr))
                <==> name !in h.bridges || h.bridges[name] == Complete(NetOf(cidr)))
  {
  }

  /** The host with the VPC's bridge up, its gateway address on it, its NAT rule in
      the list once more only if it was missing, and forwarding on. */
  function Ready(h: Net, vpc: string, cidr: Cidr, uplink: string): Net
    requires ParseCidr(cidr).Ok?
  {
    WithBridge(h, vpc, Complete(NetOf(cidr))).(
      rules := if HasRule(h, cidr, uplink) then h.rules else h.rules + [Rule(NetOf(cidr), uplink)],
      forwarding := true)
  }

  /** When no command fails for reasons of the environment, any non-empty sequence of
      creations and ensurings of one VPC, in any order, leaves what a single one
      leaves; the namespace exists exactly when the first was a creation. */
  lemma SetupConverges(h: Net, uplink: string, vpc: string, cidr: Cidr, calls: seq<Call>)
    requires BridgeName(vpc) !in h.bridges && NetnsName(vpc) !in h.namespaces && ParseCidr(cidr).Ok?
    requires calls != [] && forall i | 0 <= i < |calls| :: SetsUp(calls[i], vpc, cidr) && calls[i].faults == {}
    ensures AfterCalls(h, uplink, calls)
         == Ready(h, vpc, cidr, uplink).(
              namespaces := if calls[0].Create? then h.namespaces + {NetnsName(vpc)} else h.namespaces)
  {
    var first := AfterCall(h, uplink, calls[0]);
    assert BridgeName(vpc) in first.bridges;
    forall i | 0 <= i < |calls| - 1
      ensures !calls[1..][i].Delete? && BridgeName(calls[1..][i].vpc) == BridgeName(vpc)
    {
      assert SetsUp(calls[i + 1], vpc, cidr);
    }
    ExistingBridgeBlocks(first, uplink, vpc, calls[1..]);
  }

  /** A namespace left over from an earlier time makes every creation fail, and the
      roll-back takes the bridge away again. */
  lemma StaleNamespace(h: Net, uplink: string, vpc: string, cidr: Cidr)
    requires BridgeName(vpc) !in h.bridges && NetnsName(vpc) in h.namespaces && ParseCidr(cidr).Ok?
    ensures CreateOutcome(h, vpc, cidr, uplink, {}) == Stuck(AddNamespace(NetnsName(vpc)))
    ensures AfterCreate(h, vpc, cidr, uplink, {}) == h.(forwarding := true)
  {
    assert h.bridges[BridgeName(vpc) := Complete(NetOf(cidr))] - {BridgeName(vpc)} == h.bridges;
  }

  /** So with such a namespace the order does not matter, but the kinds do: creations alone
      leave only forwarding behind, and any EnsureBridge among them sets everything up. */
  lemma {:induction false} SetupWithNamespace(h: Net, uplink: string, vpc: string, cidr: Cidr, calls: seq<Call>)
    requires BridgeName(vpc) !in h.bridges && NetnsName(vpc) in h.namespaces && ParseCidr(cidr).Ok?
    requires calls != [] && forall i | 0 <= i < |calls| :: SetsUp(calls[i], vpc, cidr) && calls[i].faults == {}
    ensures AfterCalls(h, uplink, calls)
         == if exists i | 0 <= i < |calls| :: calls[i].Ensure? then Ready(h, vpc, cidr, uplink)
            else h.(forwarding := true)
    decreases |calls|
  {
    var first, rest := AfterCall(h, uplink, calls[0]), calls[1..];
    assert SetsUp(calls[0], vpc, cidr);
    if calls[0].Ensure? {
      EnsuresAll(h, uplink, vpc, cidr, calls);
    } else {
      StaleNamespace(h, uplink, vpc, cidr);
      assert forall i | 0 <= i < |rest| :: rest[i] == calls[i + 1] && SetsUp(rest[i], vpc, cidr);
      if rest != [] {
        SetupWithNamespace(first, uplink, vpc, cidr, rest);
      }
      LaterEnsure(calls);
    }
  }

  lemma LaterEnsure(calls: seq<Call>)
    requires calls != [] && !calls[0].Ensure?
    ensures (exists i | 0 <= i < |calls| :: calls[i].Ensure?)
            <==> exists i | 0 <= i < |calls[1..]| :: calls[1..][i].Ensure?
  {
    if i :| 0 <= i < |calls| && calls[i].Ensure? {
      assert calls[1..][i - 1] == calls[i];
    }
  }

  /** After a first EnsureBridge the bridge is there, and nothing changes any more. */
  lemma EnsuresAll(h: Net, uplink: string, vpc: string, cidr: Cidr, calls: seq<Call>)
    requires BridgeName(vpc) !in h.bridges && ParseCidr(cidr).Ok? && calls != [] && calls[0] == Ensure(vpc, cidr, {})
    requires forall i | 0 <= i < |calls| :: SetsUp(calls[i], vpc, cidr)
    ensures AfterCalls(h, uplink, calls) == Ready(h, vpc, cidr, uplink)
  {
    forall i | 0 <= i < |calls| - 1
      ensures !calls[1..][i].Delete? && BridgeName(calls[1..][i].vpc) == BridgeName(vpc)
    {
      assert SetsUp(calls[i + 1], vpc, cidr);
    }
    ExistingBridgeBlocks(AfterCall(h, uplink, calls[0]), uplink, vpc, calls[1..]);
  }

  /* ---- NAT rules ---- */

  predicate AtMostOnce(rules: seq<Rule>) {
    forall i, j | 0 <= i < j < |rules| :: rules[i] != rules[j]
  }

  /** The call builds the bridge and reaches its NAT rule. */
  predicate ReachesNat(h: Net, call: Call) {
    && ParseCidr(call.cidr).Ok? && BridgeName(call.vpc) !in h.bridges
    && BridgeOutcome(h, call.vpc, NetOf(call.cidr), call.faults) == Done
    && (call.Create? ==> Forward !in call.faults && NetnsName(call.vpc) !in h.namespaces
                         && AddNamespace(NetnsName(call.vpc)) !in call.faults)
  }

  /** The rule is there, but the check fails for another reason. */
  predicate Misled(h: Net, uplink: string, call: Call) {
    && !call.Delete? && ReachesNat(h, call) && HasRule(h, call.cidr, uplink)
    && CheckRule(call.cidr, uplink) in call.faults && AppendRule(call.cidr, uplink) !in call.faults
  }

  /** A call repeats a rule exactly when it is misled by its check. */
  lemma RulesStayUnique(h: Net, uplink: string, call: Call)
    requires AtMostOnce(h.rules)
    ensures AtMostOnce(AfterCall(h, uplink, call).rules) <==> !Misled(h, uplink, call)
  {
    if call.Delete? {
      if HasRule(h, call.cidr, uplink) {
        UniqueWithoutFirst(h.rules, Rule(NetOf(call.cidr), uplink));
      }
    } else if ParseCidr(call.cidr).Ok? {
      RulesAfterSetup(h, uplink, call);
      AppendedUnique(h.rules, Rule(NetOf(call.cidr), uplink));
    }
  }

  lemma RulesAfterSetup(h: Net, uplink: string, call: Call)
    requires !call.Delete? && ParseCidr(call.cidr).Ok?
    ensures AfterCall(h, uplink, call).rules
         == if ReachesNat(h, call) && Appends(h, call.cidr, uplink, call.faults)
            then h.rules + [Rule(NetOf(call.cidr), uplink)] else h.rules
  {
  }

  lemma AppendedUnique(rules: seq<Rule>, rule: Rule)
    requires AtMostOnce(rules)
    ensures AtMostOnce(rules + [rule]) <==> rule !in rules
  {
    if rule in rules {
      var i :| 0 <= i < |rules| && rules[i] == rule;
      assert (rules + [rule])[i] == (rules + [rule])[|rules|];
    }
  }

  /** Removing the first copy of a rule. */
  lemma {:induction false} WithoutFirstKeeps(rules: seq<Rule>, rule: Rule)
    ensures forall x | x in WithoutFirst(rules, rule) :: x in rules
    ensures forall x | x in rules && x != rule :: x in WithoutFirst(rules, rule)
    ensures rule !in rules ==> WithoutFirst(rules, rule) == rules
  {
    if rules != [] {
      WithoutFirstKeeps(rules[1..], rule);
      assert rules == [rules[0]] + rules[1..];
    }
  }

  lemma {:induction false} UniqueWithoutFirst(rules: seq<Rule>, rule: Rule)
    requires AtMostOnce(rules)
    ensures AtMostOnce(WithoutFirst(rules, rule)) && rule !in WithoutFirst(rules, rule)
  {
    if rules != [] {
      var rest := rules[1..];
      assert rules == [rules[0]] + rest;
      UniqueWithoutFirst(rest, rule);
      WithoutFirstKeeps(rest, rule);
      assert rules[0] !in rest;
    }
  }

  /** The checks of a sequence of calls never fail for another reason. */
  ghost predicate HonestChecks(calls: seq<Call>) {
    forall i, cidr, uplink | 0 <= i < |calls| :: CheckRule(cidr, uplink) !in calls[i].faults
  }

  lemma {:induction false} RulesUniqueOverRuns(h: Net, uplink: string, calls: seq<Call>)
    requires AtMostOnce(h.rules) && HonestChecks(calls)
    ensures AtMostOnce(AfterCalls(h, uplink, calls).rules)
    decreases |calls|
  {
    if calls != [] {
      RulesStayUnique(h, uplink, calls[0]);
      RulesUniqueOverRuns(AfterCall(h, uplink, calls[0]), uplink, calls[1..]);
    }
  }

  /** One misled check is enough: two VPCs of the same CIDR then leave two copies. */
  lemma MisledCheckRepeats(h: Net, uplink: string, v: string, w: string, cidr: Cidr)
    requires BridgeName(v) !in h.bridges && BridgeName(w) !in h.bridges && BridgeName(v) != BridgeName(w)
    requires ParseCidr(cidr).Ok? && AtMostOnce(h.rules)
    ensures var first := AfterCall(h, uplink, Ensure(v, cidr, {}));
            var second := AfterCall(first, uplink, Ensure(w, cidr, {CheckRule(cidr, uplink)}));
            AtMostOnce(first.rules) && !AtMostOnce(second.rules)
  {
    var first, second := Ensure(v, cidr, {}), Ensure(w, cidr, {CheckRule(cidr, uplink)});
    RulesStayUnique(h, uplink, first);
    RulesAfterSetup(h, uplink, first);
    var g := AfterCall(h, uplink, first);
    assert Rule(NetOf(cidr), uplink) in g.rules;
    assert Misled(g, uplink, second);
    RulesStayUnique(g, uplink, second);
  }

  /* ---- teardown ---- */

  /** Everything that belongs to other VPCs, by name or by network, is the same. */
  predicate OthersKept(h: Net, after: Net, vpc: string, cidr: Cidr, uplink: string) {
    && OtherLinksKept(h, after, vpc)
    && (if ParseCidr(cidr).Err? then after.rules == h.rules
        else OtherRules(after.rules, Rule(NetOf(cidr), uplink)) == OtherRules(h.rules, Rule(NetOf(cidr), uplink)))
  }

  /** The rules but the copies of one, in order. */
  function OtherRules(rules: seq<Rule>, rule: Rule): seq<Rule> {
    if rules == [] then []
    else (if rules[0] == rule then [] else [rules[0]]) + OtherRules(rules[1..], rule)
  }

  lemma {:induction false} OthersWithoutFirst(rules: seq<Rule>, rule: Rule)
    ensures OtherRules(WithoutFirst(rules, rule), rule) == OtherRules(rules, rule)
  {
    if rules != [] && rules[0] != rule {
      OthersWithoutFirst(rules[1..], rule);
      var rest := WithoutFirst(rules[1..], rule);
      assert ([rules[0]] + rest)[1..] == rest;
    }
  }

  lemma {:induction false} OthersAppended(rules: seq<Rule>, rule: Rule)
    ensures OtherRules(rules + [rule], rule) == OtherRules(rules, rule)
  {
    if rules == [] {
      assert [rule][1..] == [];
    } else {
      assert (rules + [rule])[1..] == rules[1..] + [rule];
      OthersAppended(rules[1..], rule);
    }
  }

  /** No call touches what belongs to other VPCs, whatever fails. */
  lemma OthersUntouched(h: Net, uplink: string, call: Call)
    ensures OthersKept(h, AfterCall(h, uplink, call), call.vpc, call.cidr, uplink)
  {
    OtherLinksUntouched(h, uplink, call);
    if call.Delete? {
      if HasRule(h, call.cidr, uplink) {
        OthersWithoutFirst(h.rules, Rule(NetOf(call.cidr), uplink));
      }
    } else if ParseCidr(call.cidr).Ok? {
      RulesAfterSetup(h, uplink, call);
      OthersAppended(h.rules, Rule(NetOf(call.cidr), uplink));
    }
  }

  predicate OtherLinksKept(h: Net, after: Net, vpc: string) {
    && after.bridges - {BridgeName(vpc)} == h.bridges - {BridgeName(vpc)}
    && after.namespaces - {NetnsName(vpc)} == h.namespaces - {NetnsName(vpc)}
  }

  lemma OtherLinksUntouched(h: Net, uplink: string, call: Call)
    ensures OtherLinksKept(h, AfterCall(h, uplink, call), call.vpc)
  {
    var v, cidr, f := call.vpc, call.cidr, call.faults;
    if call.Delete? {
      var ns := NetnsName(v);
      var g := h.(rules := AfterDelete(h, v, cidr, uplink, f).rules,
                  namespaces := if DeleteNamespace(ns) in f then h.namespaces else h.namespaces - {ns});
      DeleteKeepsLinks(g, v, f);
    } else if ParseCidr(cidr).Ok? {
      SetupKeepsLinks(h, v, NetOf(cidr), f);
      if call.Create? {
        var b := AfterBridge(h, v, NetOf(cidr), f);
        DeleteKeepsLinks(AfterNat(b, v, cidr, uplink, f), v, f);
      }
    }
  }

  lemma SetupKeepsLinks(h: Net, vpc: string, net: Network, f: Faults)
    ensures OtherLinksKept(h, AfterBridge(h, vpc, net, f), vpc)
  {
  }

  lemma DeleteKeepsLinks(h: Net, vpc: string, f: Faults)
    ensures OtherLinksKept(h, AfterDeleteBridge(h, vpc, f), vpc)
  {
  }

  /** After any calls, with honest checks, on a host that had no NAT rules, a deletion
      whose commands do not fail leaves nothing of its VPC. */
  lemma TeardownComplete(h: Net, uplink: string, calls: seq<Call>, vpc: string, cidr: Cidr)
    requires h.rules == [] && HonestChecks(calls)
    ensures var after := AfterDelete(AfterCalls(h, uplink, calls), vpc, cidr, uplink, {});
            && BridgeName(vpc) !in after.bridges && NetnsName(vpc) !in after.namespaces && !HasRule(after, cidr, uplink)
            && OthersKept(AfterCalls(h, uplink, calls), after, vpc, cidr, uplink)
  {
    var g := AfterCalls(h, uplink, calls);
    RulesUniqueOverRuns(h, uplink, calls);
    OthersUntouched(g, uplink, Delete(vpc, cidr, {}));
    DeletionClears(g, vpc, cidr, uplink);
  }

  /** Deleting what was just created restores the host, but for forwarding, exactly
      when no other VPC already had the rule: the deletion takes that one away. */
  lemma CreateThenDelete(h: Net, uplink: string, vpc: string, cidr: Cidr)
    requires CreateOutcome(h, vpc, cidr, uplink, {}) == Done
    ensures AfterDelete(AfterCreate(h, vpc, cidr, uplink, {}), vpc, cidr, uplink, {}) == h.(forwarding := true)
            <==> !HasRule(h, cidr, uplink)
  {
    var rule := Rule(NetOf(cidr), uplink);
    var created := AfterCreate(h, vpc, cidr, uplink, {});
    assert h.bridges[BridgeName(vpc) := Complete(NetOf(cidr))] - {BridgeName(vpc)} == h.bridges;
    assert h.namespaces + {NetnsName(vpc)} - {NetnsName(vpc)} == h.namespaces;
    if HasRule(h, cidr, uplink) {
      ShorterWithoutFirst(h.rules, rule);
    } else {
      RemovesAppended(h.rules, rule);
    }
  }

  lemma {:induction false} ShorterWithoutFirst(rules: seq<Rule>, rule: Rule)
    requires rule in rules
    ensures |WithoutFirst(rules, rule)| == |rules| - 1
  {
    if rules[0] != rule {
      assert rules == [rules[0]] + rules[1..];
      ShorterWithoutFirst(rules[1..], rule);
    }
  }

  lemma {:induction false} RemovesAppended(rules: seq<Rule>, rule: Rule)
    requires rule !in rules
    ensures WithoutFirst(rules + [rule], rule) == rules
  {
    if rules != [] {
      assert (rules + [rule])[1..] == rules[1..] + [rule];
      RemovesAppended(rules[1..], rule);
    }
  }

  /* ---- agreement with the controller ---- */

  /** Over every run of the cluster: the bridge, gateway and prefix in a create command,
      which the controller computed, are those of the bridge that the agent builds on
      its own from the VPC's identifier and CIDR. */
  lemma AgreesWithController(steps: seq<Step>, n: Uuid, c: Commands.Command, h: Net, uplink: string)
    requires Run(INITIAL, steps) && c in Chan(After(INITIAL, steps), n).history && c.CreateVm?
    requires BridgeName(Text(c.vpc)) !in h.bridges
    ensures EnsureOutcome(h, Text(c.vpc), c.cidr, {}) == Done
    ensures var after := AfterEnsure(h, Text(c.vpc), c.cidr, uplink, {});
            c.bridge in after.bridges && after.bridges[c.bridge] == Bridge(true, {(c.gateway, c.prefix)})
  {
    InvInitial();
    InvRun(INITIAL, steps);
    var s := After(INITIAL, steps);
    assert ChannelBorn(s.book, n, Chan(s, n));
    var i :| 0 <= i < |Chan(s, n).history| && Chan(s, n).history[i] == c;
    assert CommandBorn(s.book, n, Chan(s, n).history[i]);
    BuildsBridge(h, uplink, Text(c.vpc), c.cidr);
  }

  lemma BuildsBridge(h: Net, uplink: string, vpc: string, cidr: Cidr)
    requires ParseCidr(cidr).Ok? && BridgeName(vpc) !in h.bridges
    ensures EnsureOutcome(h, vpc, cidr, {}) == Done
    ensures var after := AfterEnsure(h, vpc, cidr, uplink, {});
            BridgeName(vpc) in after.bridges && after.bridges[BridgeName(vpc)] == Complete(NetOf(cidr))
  {
  }
}
