/** The network of a host as the agent changes it: bridges with their addresses,
    namespaces, NAT rules in order, and forwarding. Every external command may fail;
    a command that fails changes nothing. */
module HostNetwork {
  import opened Wrappers
  import opened Ipv4
  import opened Naming

  datatype Bridge = Bridge(up: bool, addresses: set<(Address, nat)>)

  /** POSTROUTING -s net -o uplink -j MASQUERADE. */
  datatype Rule = Rule(net: Network, uplink: string)

  datatype Net = Net(bridges: map<string, Bridge>, namespaces: set<string>, rules: seq<Rule>, forwarding: bool)

  datatype HostCommand =
    | ShowLink(name: string)
    | AddLink(name: string)
    | RaiseLink(name: string)
    | LowerLink(name: string)
    | DeleteLink(name: string)
    | AddAddress(name: string, ip: Address, prefix: nat)
    | Forward
    | AddNamespace(name: string)
    | DeleteNamespace(name: string)
    | CheckRule(cidr: Cidr, uplink: string)
    | AppendRule(cidr: Cidr, uplink: string)
    | DeleteRule(cidr: Cidr, uplink: string)

  /** The commands that fail for reasons of the environment during one call. No call
      runs the same command twice. */
  type Faults = set<HostCommand>

  predicate HasRule(h: Net, cidr: Cidr, uplink: string) {
    ParseCidr(cidr).Ok? && Rule(ParseCidr(cidr).value, uplink) in h.rules
  }

  /** The commands that the state of the host lets succeed. */
  predicate Works(h: Net, c: HostCommand) {
    match c
    case ShowLink(name) => name in h.bridges
    case AddLink(name) => name !in h.bridges && |name| <= 15
    case RaiseLink(name) => name in h.bridges
    case LowerLink(name) => name in h.bridges
    case DeleteLink(name) => name in h.bridges
    case AddAddress(name, ip, prefix) => name in h.bridges && (ip, prefix) !in h.bridges[name].addresses
    case Forward => true
    case AddNamespace(name) => name !in h.namespaces
    case DeleteNamespace(name) => name in h.namespaces
    case CheckRule(cidr, uplink) => HasRule(h, cidr, uplink)
    case AppendRule(cidr, uplink) => ParseCidr(cidr).Ok?
    case DeleteRule(cidr, uplink) => HasRule(h, cidr, uplink)
  }

  function Effect(h: Net, c: HostCommand): Net
    requires Works(h, c)
  {
    match c
    case ShowLink(_) => h
    case AddLink(name) => h.(bridges := h.bridges[name := Bridge(false, {})])
    case RaiseLink(name) => h.(bridges := h.bridges[name := h.bridges[name].(up := true)])
    case LowerLink(name) => h.(bridges := h.bridges[name := h.bridges[name].(up := false)])
    case DeleteLink(name) => h.(bridges := h.bridges - {name})
    case AddAddress(name, ip, prefix) =>
      h.(bridges := h.bridges[name := h.bridges[name].(addresses := h.bridges[name].addresses + {(ip, prefix)})])
    case Forward => h.(forwarding := true)
    case AddNamespace(name) => h.(namespaces := h.namespaces + {name})
    case DeleteNamespace(name) => h.(namespaces := h.namespaces - {name})
    case CheckRule(_, _) => h
    case AppendRule(cidr, uplink) => h.(rules := h.rules + [Rule(ParseCidr(cidr).value, uplink)])
    case DeleteRule(cidr, uplink) => h.(rules := WithoutFirst(h.rules, Rule(ParseCidr(cidr).value, uplink)))
  }

  /** iptables -D removes the first match. */
  function WithoutFirst(rules: seq<Rule>, rule: Rule): seq<Rule> {
    if rules == [] then []
    else if rules[0] == rule then rules[1..]
    else [rules[0]] + WithoutFirst(rules[1..], rule)
  }

  /** What a call answers: success, a CIDR it cannot use, or the command it got stuck at. */
  datatype Ending = Done | Refused(error: Error) | Stuck(at: HostCommand)

  /* ---- what the calls do ---- */

  function NetOf(cidr: Cidr): Network
    requires ParseCidr(cidr).Ok?
  {
    ParseCidr(cidr).value
  }

  function WithBridge(h: Net, vpc: string, bridge: Bridge): Net {
    h.(bridges := h.bridges[BridgeName(vpc) := bridge])
  }

  /** The bridge a complete setup leaves. */
  function Complete(net: Network): Bridge {
    Bridge(true, {(Gateway(net), net.prefix)})
  }

  /** createBridge: where it stops, and what it has built by then. */
  function BridgeOutcome(h: Net, vpc: string, net: Network, f: Faults): Ending {
    var name := BridgeName(vpc);
    if name in h.bridges || AddLink(name) in f then Stuck(AddLink(name))
    else if RaiseLink(name) in f then Stuck(RaiseLink(name))
    else if AddAddress(name, Gateway(net), net.prefix) in f then Stuck(AddAddress(name, Gateway(net), net.prefix))
    else Done
  }

  function AfterBridge(h: Net, vpc: string, net: Network, f: Faults): Net {
    match BridgeOutcome(h, vpc, net, f)
    case Done => WithBridge(h, vpc, Complete(net))
    case Stuck(RaiseLink(_)) => WithBridge(h, vpc, Bridge(false, {}))
    case Stuck(AddAddress(_, _, _)) => WithBridge(h, vpc, Bridge(true, {}))
    case _ => h
  }

  /** deleteBridge, whatever its two commands answer. */
  function AfterDeleteBridge(h: Net, vpc: string, f: Faults): Net {
    var name := BridgeName(vpc);
    if name !in h.bridges then h
    else if DeleteLink(name) !in f then h.(bridges := h.bridges - {name})
    else if LowerLink(name) !in f then WithBridge(h, vpc, h.bridges[name].(up := false))
    else h
  }

  /** addMasquerade appends unless the rule is there and the check says so. */
  predicate Appends(h: Net, cidr: Cidr, uplink: string, f: Faults) {
    && !(HasRule(h, cidr, uplink) && CheckRule(cidr, uplink) !in f)
    && AppendRule(cidr, uplink) !in f && ParseCidr(cidr).Ok?
  }

  function AfterMasquerade(h: Net, cidr: Cidr, uplink: string, f: Faults): Net {
    if Appends(h, cidr, uplink, f) then Effect(h, AppendRule(cidr, uplink)) else h
  }

  function MasqueradeOutcome(h: Net, cidr: Cidr, uplink: string, f: Faults): Ending {
    if Appends(h, cidr, uplink, f) || (HasRule(h, cidr, uplink) && CheckRule(cidr, uplink) !in f) then Done
    else Stuck(AppendRule(cidr, uplink))
  }

  function NatOutcome(h: Net, vpc: string, cidr: Cidr, uplink: string, f: Faults): Ending {
    if Forward in f then Stuck(Forward)
    else if NetnsName(vpc) in h.namespaces || AddNamespace(NetnsName(vpc)) in f then Stuck(AddNamespace(NetnsName(vpc)))
    else MasqueradeOutcome(h, cidr, uplink, f)
  }

  /** createNATGW, with its own roll-back. */
  function AfterNat(h: Net, vpc: string, cidr: Cidr, uplink: string, f: Faults): Net {
    var ns := NetnsName(vpc);
    match NatOutcome(h, vpc, cidr, uplink, f)
    case Done => AfterMasquerade(h.(forwarding := true, namespaces := h.namespaces + {ns}), cidr, uplink, f)
    case Stuck(AddNamespace(_)) => h.(forwarding := true)
    case Stuck(AppendRule(_, _)) =>
      h.(forwarding := true, namespaces := if DeleteNamespace(ns) in f then h.namespaces + {ns} else h.namespaces)
    case _ => h
  }

  function CreateOutcome(h: Net, vpc: string, cidr: Cidr, uplink: string, f: Faults): Ending {
    if ParseCidr(cidr).Err? then Refused(ParseCidr(cidr).error)
    else
      var o := BridgeOutcome(h, vpc, NetOf(cidr), f);
      if o != Done then o else NatOutcome(h, vpc, cidr, uplink, f)
  }

  function AfterCreate(h: Net, vpc: string, cidr: Cidr, uplink: string, f: Faults): Net {
    if ParseCidr(cidr).Err? then h
    else
      var b := AfterBridge(h, vpc, NetOf(cidr), f);
      if BridgeOutcome(h, vpc, NetOf(cidr), f) != Done then b
      else if NatOutcome(b, vpc, cidr, uplink, f) == Done then AfterNat(b, vpc, cidr, uplink, f)
      else AfterDeleteBridge(AfterNat(b, vpc, cidr, uplink, f), vpc, f)
  }

  predicate Seen(h: Net, vpc: string, f: Faults) {
    BridgeName(vpc) in h.bridges && ShowLink(BridgeName(vpc)) !in f
  }

  function EnsureOutcome(h: Net, vpc: string, cidr: Cidr, f: Faults): Ending {
    if Seen(h, vpc, f) then Done
    else if ParseCidr(cidr).Err? then Refused(ParseCidr(cidr).error)
    else BridgeOutcome(h, vpc, NetOf(cidr), f)
  }

  /** EnsureBridge ignores the failures that come after the bridge. */
  function AfterEnsure(h: Net, vpc: string, cidr: Cidr, uplink: string, f: Faults): Net {
    if Seen(h, vpc, f) || ParseCidr(cidr).Err? then h
    else
      var b := AfterBridge(h, vpc, NetOf(cidr), f);
      if BridgeOutcome(h, vpc, NetOf(cidr), f) != Done then b
      else AfterMasquerade(b.(forwarding := h.forwarding || Forward !in f), cidr, uplink, f)
  }

  /** DeleteVPC: every part is tried. */
  function AfterDelete(h: Net, vpc: string, cidr: Cidr, uplink: string, f: Faults): Net {
    var ns := NetnsName(vpc);
    var rules := if HasRule(h, cidr, uplink) && DeleteRule(cidr, uplink) !in f
                 then WithoutFirst(h.rules, Rule(NetOf(cidr), uplink)) else h.rules;
    var namespaces := if DeleteNamespace(ns) in f then h.namespaces else h.namespaces - {ns};
    AfterDeleteBridge(h.(rules := rules, namespaces := namespaces), vpc, f)
  }

  function DeleteOutcome(h: Net, vpc: string, f: Faults): Ending {
    var name := BridgeName(vpc);
    if name in h.bridges && DeleteLink(name) !in f then Done else Stuck(DeleteLink(name))
  }

  /* ---- the code ---- */

  /** A command that was run, and whether it worked. */
  datatype Ran = Ran(cmd: HostCommand, ok: bool)

  /** Every command worked, but for checks of a rule. */
  predicate AllWorked(tried: seq<Ran>) {
    forall i | 0 <= i < |tried| :: tried[i].ok || tried[i].cmd.CheckRule?
  }

  /** The commands of createBridge: link, up, address; the first failure ends it. */
  ghost predicate BridgeTried(tried: seq<Ran>, vpc: string, net: Network, r: Ending) {
    var name := BridgeName(vpc);
    var address := AddAddress(name, Gateway(net), net.prefix);
    || (tried == [Ran(AddLink(name), false)] && r == Stuck(AddLink(name)))
    || (tried == [Ran(AddLink(name), true), Ran(RaiseLink(name), false)] && r == Stuck(RaiseLink(name)))
    || (tried == [Ran(AddLink(name), true), Ran(RaiseLink(name), true), Ran(address, false)] && r == Stuck(address))
    || (tried == [Ran(AddLink(name), true), Ran(RaiseLink(name), true), Ran(address, true)] && r == Done)
  }

  /** Those of deleteBridge: down, whatever it answers, and delete. */
  ghost predicate CleanTried(tried: seq<Ran>, vpc: string, r: Ending) {
    var name := BridgeName(vpc);
    && |tried| == 2 && tried[0].cmd == LowerLink(name) && tried[1].cmd == DeleteLink(name)
    && r == if tried[1].ok then Done else Stuck(DeleteLink(name))
  }

  /** Those of addMasquerade: the check, and the rule unless the check finds it. */
  ghost predicate RuleTried(tried: seq<Ran>, cidr: Cidr, uplink: string, r: Ending) {
    var check, append := CheckRule(cidr, uplink), AppendRule(cidr, uplink);
    || (tried == [Ran(check, true)] && r == Done)
    || (tried == [Ran(check, false), Ran(append, true)] && r == Done)
    || (tried == [Ran(check, false), Ran(append, false)] && r == Stuck(append))
  }

  /** Those of createNATGW: forwarding, the namespace, the rule; and the namespace is
      removed again when the rule cannot be added. */
  ghost predicate NatTried(tried: seq<Ran>, vpc: string, cidr: Cidr, uplink: string, r: Ending) {
    var ns, check, append := NetnsName(vpc), CheckRule(cidr, uplink), AppendRule(cidr, uplink);
    var setup := [Ran(Forward, true), Ran(AddNamespace(ns), true)];
    || (tried == [Ran(Forward, false)] && r == Stuck(Forward))
    || (tried == [Ran(Forward, true), Ran(AddNamespace(ns), false)] && r == Stuck(AddNamespace(ns)))
    || (tried == setup + [Ran(check, true)] && r == Done)
    || (tried == setup + [Ran(check, false), Ran(append, true)] && r == Done)
    || (exists removed :: tried == setup + [Ran(check, false), Ran(append, false), Ran(DeleteNamespace(ns), removed)]
                          && r == Stuck(append))
  }

  /** The bridge succeeds exactly when all its commands work. */
  lemma BridgeWorked(tried: seq<Ran>, vpc: string, net: Network, r: Ending)
    requires BridgeTried(tried, vpc, net, r)
    ensures r == Done <==> AllWorked(tried)
  {
    assert r != Done ==> !tried[|tried| - 1].ok && !tried[|tried| - 1].cmd.CheckRule?;
  }

  lemma NatWorked(tried: seq<Ran>, vpc: string, cidr: Cidr, uplink: string, r: Ending)
    requires NatTried(tried, vpc, cidr, uplink, r)
    ensures r == Done <==> AllWorked(tried)
  {
    var k := if |tried| == 5 then 3 else |tried| - 1;
    assert r != Done ==> !tried[k].ok && !tried[k].cmd.CheckRule?;
  }

  /** The kernel's side. `ran` only records what was run. */
  class Host {
    var net: Net
    ghost var ran: seq<Ran>

    constructor (net: Net)
      ensures this.net == net && ran == []
    {
      this.net := net;
      ran := [];
    }

    method Run(c: HostCommand, f: Faults) returns (ok: bool)
      modifies this
      ensures ok == (c !in f && Works(old(net), c))
      ensures net == if ok then Effect(old(net), c) else old(net)
      ensures ran == old(ran) + [Ran(c, ok)]
    {
      ok := c !in f && Works(net, c);
      if ok {
        net := Effect(net, c);
      }
      ran := ran + [Ran(c, ok)];
    }
  }

  class Manager {
    const host: Host
    const uplink: string

    constructor (host: Host, uplink: string)
      ensures this.host == host && this.uplink == uplink
    {
      this.host, this.uplink := host, uplink;
    }

    /** subnetInfo: the gateway and prefix that the controller computes as well. */
    method SubnetInfo(cidr: Cidr) returns (r: Result<(Address, nat)>)
      ensures r == if ParseCidr(cidr).Err? then Err(ParseCidr(cidr).error)
                   else Ok((Gateway(NetOf(cidr)), NetOf(cidr).prefix))
    {
      var p := ParseCidr(cidr);
      if p.Err? {
        return Err(p.error);
      }
      var gw := FirstHost(p.value);
      r := Ok((gw, p.value.prefix));
    }

    /** The agent's own computation of the gateway: .1 of the subnet. */
    method FirstHost(net: Network) returns (gateway: Address)
      ensures gateway == Gateway(net)
    {
      var gw4 := CopyOf(net.base);
      gw4[3] := Incremented(gw4[3]);
      gateway := Address(gw4[0], gw4[1], gw4[2], gw4[3]);
    }

    method CreateBridge(vpc: string, gateway: Address, prefix: nat, ghost net: Network, f: Faults)
      returns (r: Ending, ghost tried: seq<Ran>)
      requires gateway == Gateway(net) && prefix == net.prefix
      modifies host
      ensures r == BridgeOutcome(old(host.net), vpc, net, f) && host.net == AfterBridge(old(host.net), vpc, net, f)
      ensures host.ran == old(host.ran) + tried && BridgeTried(tried, vpc, net, r)
    {
      var name := BridgeName(vpc);
      BridgeNameCollision(vpc, vpc);
      var cmds := [AddLink(name), RaiseLink(name), AddAddress(name, gateway, prefix)];
      tried := [];
      for i := 0 to |cmds|
        invariant i == 0 ==> host.net == old(host.net)
        invariant i > 0 ==> name !in old(host.net.bridges) && AddLink(name) !in f
        invariant i > 1 ==> RaiseLink(name) !in f
        invariant i > 2 ==> AddAddress(name, gateway, prefix) !in f
        invariant i > 0 ==>
                    host.net == WithBridge(old(host.net), vpc, Bridge(i > 1, if i > 2 then {(gateway, prefix)} else {}))
        invariant host.ran == old(host.ran) + tried && |tried| == i
        invariant forall k | 0 <= k < i :: tried[k] == Ran(cmds[k], true)
      {
        var ok := host.Run(cmds[i], f);
        tried := tried + [Ran(cmds[i], ok)];
        if !ok {
          return Stuck(cmds[i]), tried;
        }
        Rebuilt(old(host.net), vpc, Bridge(i > 1, {}), Bridge(i > 0, if i > 1 then {(gateway, prefix)} else {}));
        assert {} + {(gateway, prefix)} == {(gateway, prefix)};
      }
      r := Done;
    }

    method DeleteBridge(vpc: string, f: Faults) returns (r: Ending, ghost tried: seq<Ran>)
      modifies host
      ensures r == DeleteOutcome(old(host.net), vpc, f) && host.net == AfterDeleteBridge(old(host.net), vpc, f)
      ensures host.ran == old(host.ran) + tried && CleanTried(tried, vpc, r)
    {
      var name := BridgeName(vpc);
      var lowered := host.Run(LowerLink(name), f);
      var ok := host.Run(DeleteLink(name), f);
      tried := [Ran(LowerLink(name), lowered), Ran(DeleteLink(name), ok)];
      r := if ok then Done else Stuck(DeleteLink(name));
    }

    method AddMasquerade(cidr: Cidr, f: Faults) returns (r: Ending, ghost tried: seq<Ran>)
      modifies host
      ensures r == MasqueradeOutcome(old(host.net), cidr, uplink, f)
      ensures host.net == AfterMasquerade(old(host.net), cidr, uplink, f)
      ensures host.ran == old(host.ran) + tried && RuleTried(tried, cidr, uplink, r)
    {
      var ok := host.Run(CheckRule(cidr, uplink), f);
      tried := [Ran(CheckRule(cidr, uplink), ok)];
      if ok {
        return Done, tried;
      }
      ok := host.Run(AppendRule(cidr, uplink), f);
      tried := tried + [Ran(AppendRule(cidr, uplink), ok)];
      r := if ok then Done else Stuck(AppendRule(cidr, uplink));
    }

    method CreateNatGw(vpc: string, cidr: Cidr, f: Faults) returns (r: Ending, ghost tried: seq<Ran>)
      modifies host
      ensures r == NatOutcome(old(host.net), vpc, cidr, uplink, f)
      ensures host.net == AfterNat(old(host.net), vpc, cidr, uplink, f)
      ensures host.ran == old(host.ran) + tried && NatTried(tried, vpc, cidr, uplink, r)
    {
      var ns := NetnsName(vpc);
      var ok := host.Run(Forward, f);
      tried := [Ran(Forward, ok)];
      if !ok {
        return Stuck(Forward), tried;
      }
      ok := host.Run(AddNamespace(ns), f);
      tried := tried + [Ran(AddNamespace(ns), ok)];
      if !ok {
        return Stuck(AddNamespace(ns)), tried;
      }
      ghost var ruled;
      r, ruled := AddMasquerade(cidr, f);
      tried := tried + ruled;
      if r != Done {
        ok := host.Run(DeleteNamespace(ns), f);
        tried := tried + [Ran(DeleteNamespace(ns), ok)];
      }
    }

    method DeleteNatGw(vpc: string, cidr: Cidr, f: Faults) returns (ghost tried: seq<Ran>)
      modifies host
      ensures host.net.bridges == old(host.net.bridges) && host.net.forwarding == old(host.net.forwarding)
      ensures host.net.rules == if HasRule(old(host.net), cidr, uplink) && DeleteRule(cidr, uplink) !in f
                                then WithoutFirst(old(host.net.rules), Rule(NetOf(cidr), uplink))
                                else old(host.net.rules)
      ensures host.net.namespaces == if DeleteNamespace(NetnsName(vpc)) in f then old(host.net.namespaces)
                                     else old(host.net.namespaces) - {NetnsName(vpc)}
      ensures host.ran == old(host.ran) + tried && |tried| == 2
      ensures tried[0].cmd == DeleteRule(cidr, uplink) && tried[1].cmd == DeleteNamespace(NetnsName(vpc))
    {
      var ruled := host.Run(DeleteRule(cidr, uplink), f);
      var spaced := host.Run(DeleteNamespace(NetnsName(vpc)), f);
      tried := [Ran(DeleteRule(cidr, uplink), ruled), Ran(DeleteNamespace(NetnsName(vpc)), spaced)];
    }

    /** The bridge and then the NAT. It succeeds exactly when every command of these that it
        reached worked, but for the check of the rule; when the NAT fails, the bridge is
        deleted again. */
    method CreateVpc(vpc: string, cidr: Cidr, f: Faults)
      returns (r: Ending, ghost bridge: seq<Ran>, ghost gw: seq<Ran>, ghost undo: seq<Ran>)
      modifies host
      ensures r == CreateOutcome(old(host.net), vpc, cidr, uplink, f)
      ensures host.net == AfterCreate(old(host.net), vpc, cidr, uplink, f)
      ensures host.ran == old(host.ran) + bridge + gw + undo
      ensures r == Done <==> ParseCidr(cidr).Ok? && AllWorked(bridge) && AllWorked(gw)
      ensures if ParseCidr(cidr).Err? then r.Refused? && bridge == gw == undo == []
              else if gw == [] then BridgeTried(bridge, vpc, NetOf(cidr), r) && r != Done && undo == []
              else
                && BridgeTried(bridge, vpc, NetOf(cidr), Done) && NatTried(gw, vpc, cidr, uplink, r)
                && (if r == Done then undo == [] else exists e :: CleanTried(undo, vpc, e))
    {
      bridge, gw, undo := [], [], [];
      var subnet := SubnetInfo(cidr);
      if subnet.Err? {
        return Refused(subnet.error), bridge, gw, undo;
      }
      r, bridge := CreateBridge(vpc, subnet.value.0, subnet.value.1, NetOf(cidr), f);
      BridgeWorked(bridge, vpc, NetOf(cidr), r);
      if r != Done {
        return;
      }
      NatOutcomeIgnoresBridges(old(host.net), host.net, vpc, cidr, uplink, f);
      r, gw := CreateNatGw(vpc, cidr, f);
      NatWorked(gw, vpc, cidr, uplink, r);
      if r != Done {
        var e;
        e, undo := DeleteBridge(vpc, f);
      }
    }

    /** It succeeds exactly when it sees the bridge or the commands of the bridge all work;
        what comes after them is tried and ignored. */
    method EnsureBridge(vpc: string, cidr: Cidr, f: Faults)
      returns (r: Ending, ghost shown: bool, ghost bridge: seq<Ran>, ghost gw: seq<Ran>)
      modifies host
      ensures r == EnsureOutcome(old(host.net), vpc, cidr, f)
      ensures host.net == AfterEnsure(old(host.net), vpc, cidr, uplink, f)
      ensures host.ran == old(host.ran) + [Ran(ShowLink(BridgeName(vpc)), shown)] + bridge + gw
      ensures r == Done <==> shown || (ParseCidr(cidr).Ok? && AllWorked(bridge))
      ensures if shown || ParseCidr(cidr).Err? then bridge == gw == [] && r.Refused? == !shown
              else
                && BridgeTried(bridge, vpc, NetOf(cidr), r)
                && if r != Done then gw == []
                   else exists ok, e, ruled: seq<Ran> ::
                          gw == [Ran(Forward, ok)] + ruled && RuleTried(ruled, cidr, uplink, e)
    {
      bridge, gw := [], [];
      var seen := host.Run(ShowLink(BridgeName(vpc)), f);
      shown := seen;
      if seen {
        return Done, shown, bridge, gw;
      }
      var subnet := SubnetInfo(cidr);
      if subnet.Err? {
        return Refused(subnet.error), shown, bridge, gw;
      }
      r, bridge := CreateBridge(vpc, subnet.value.0, subnet.value.1, NetOf(cidr), f);
      BridgeWorked(bridge, vpc, NetOf(cidr), r);
      if r != Done {
        return;
      }
      var forwarded := host.Run(Forward, f);
      var e, ruled := AddMasquerade(cidr, f);
      gw := [Ran(Forward, forwarded)] + ruled;
    }

    method DeleteVpc(vpc: string, cidr: Cidr, f: Faults) returns (r: Ending, ghost gw: seq<Ran>, ghost bridge: seq<Ran>)
      modifies host
      ensures r == DeleteOutcome(old(host.net), vpc, f)
      ensures host.net == AfterDelete(old(host.net), vpc, cidr, uplink, f)
      ensures host.ran == old(host.ran) + gw + bridge && CleanTried(bridge, vpc, r) && |gw| == 2
      ensures gw[0].cmd == DeleteRule(cidr, uplink) && gw[1].cmd == DeleteNamespace(NetnsName(vpc))
    {
      gw := DeleteNatGw(vpc, cidr, f);
      r, bridge := DeleteBridge(vpc, f);
    }
  }

  lemma Rebuilt(h: Net, vpc: string, first: Bridge, second: Bridge)
    ensures WithBridge(WithBridge(h, vpc, first), vpc, second) == WithBridge(h, vpc, second)
  {
    var name := BridgeName(vpc);
    assert h.bridges[name := first][name := second] == h.bridges[name := second];
  }

  lemma NatOutcomeIgnoresBridges(h: Net, b: Net, vpc: string, cidr: Cidr, uplink: string, f: Faults)
    requires b == h.(bridges := b.bridges)
    ensures NatOutcome(b, vpc, cidr, uplink, f) == NatOutcome(h, vpc, cidr, uplink, f)
  {
  }
}
