/** Goroutines that set up networks at the same time. Each runs the commands of CreateVPC
    or EnsureBridge for its VPC one by one, interleaved in any way with the others. Any
    command but the check of a rule may fail for reasons of the environment. */
module HostRaces {
  import opened Wrappers
  import opened Ipv4
  import opened Naming
  import opened HostNetwork
  import opened HostRuns

  datatype Place = Place(vpc: string, cidr: Cidr, uplink: string)

  /** A VPC that can be set up; for another the calls end at once. */
  type Site = p: Place | ParseCidr(p.cidr).Ok? witness Place("", V4(Address(0, 0, 0, 0), 32), "")

  function RuleOf(site: Site): Rule {
    Rule(NetOf(site.cidr), site.uplink)
  }

  /** Where a goroutine is: before this command, or over. The last three roll back. */
  datatype Pc = Show | Add | Raise | Assign | Enable | Space | Check | Append | Over | Unspace | Lower | Remove

  datatype Worker = Worker(site: Site, creating: bool, pc: Pc)

  function AtStart(site: Site, creating: bool): Worker {
    Worker(site, creating, if creating then Add else Show)
  }

  /** `builder`, the goroutine that last added a bridge, only records what happened. */
  datatype Race = Race(net: Net, workers: seq<Worker>, builder: Option<nat>)

  function CommandAt(site: Site, pc: Pc): HostCommand
    requires pc != Over
  {
    var name, ns, net := BridgeName(site.vpc), NetnsName(site.vpc), NetOf(site.cidr);
    match pc
    case Show => ShowLink(name)
    case Add => AddLink(name)
    case Raise => RaiseLink(name)
    case Assign => AddAddress(name, Gateway(net), net.prefix)
    case Enable => Forward
    case Space => AddNamespace(ns)
    case Check => CheckRule(site.cidr, site.uplink)
    case Append => AppendRule(site.cidr, site.uplink)
    case Unspace => DeleteNamespace(ns)
    case Lower => LowerLink(name)
    case Remove => DeleteLink(name)
  }

  /** Where a goroutine goes after its command. EnsureBridge ends when it sees the
      bridge, has no namespace, and ignores what fails after the bridge. */
  function Onward(w: Worker, ok: bool): Pc
    requires w.pc != Over
  {
    match w.pc
    case Show => if ok then Over else Add
    case Add => if ok then Raise else Over
    case Raise => if ok then Assign else Over
    case Assign => if ok then Enable else Over
    case Enable => if !w.creating then Check else if ok then Space else Lower
    case Space => if ok then Check else Lower
    case Check => if ok then Over else Append
    case Append => if ok || !w.creating then Over else Unspace
    case Unspace => Lower
    case Lower => Remove
    case Remove => Over
  }

  /** The goroutine that runs its next command, and whether the command fails for reasons
      of the environment. */
  datatype Turn = Turn(who: nat, fails: bool)

  predicate Movable(r: Race, turn: Turn) {
    && turn.who < |r.workers| && r.workers[turn.who].pc != Over
    && (turn.fails ==> r.workers[turn.who].pc != Check)
  }

  function Moves(r: Race, turn: Turn): Race
    requires Movable(r, turn)
  {
    var w := r.workers[turn.who];
    var c := CommandAt(w.site, w.pc);
    var ok := !turn.fails && Works(r.net, c);
    Race(if ok then Effect(r.net, c) else r.net,
         r.workers[turn.who := w.(pc := Onward(w, ok))],
         if w.pc == Add && ok then Some(turn.who) else r.builder)
  }

  predicate Schedule(r: Race, order: seq<Turn>)
    decreases |order|
  {
    order == [] || (Movable(r, order[0]) && Schedule(Moves(r, order[0]), order[1..]))
  }

  function AfterSchedule(r: Race, order: seq<Turn>): Race
    requires Schedule(r, order)
    decreases |order|
  {
    if order == [] then r else AfterSchedule(Moves(r, order[0]), order[1..])
  }

  predicate Unfailing(order: seq<Turn>) {
    forall k | 0 <= k < |order| :: !order[k].fails
  }

  predicate AllOver(r: Race) {
    r.workers != [] && forall i | 0 <= i < |r.workers| :: r.workers[i].pc == Over
  }

  /* ---- any number of VPCs: the NAT rules ---- */

  /** The goroutine has added its bridge and is not over. */
  predicate Inside(w: Worker) {
    w.pc != Show && w.pc != Add && w.pc != Over
  }

  /** VPCs with different bridges have different rules. */
  predicate Apart(workers: seq<Worker>) {
    forall i, j | 0 <= i < |workers| && 0 <= j < |workers| && RuleOf(workers[i].site) == RuleOf(workers[j].site)
      :: BridgeName(workers[i].site.vpc) == BridgeName(workers[j].site.vpc)
  }

  /** At most one goroutine is inside any bridge, and the bridge is there meanwhile; a rule
      about to be appended is missing. */
  predicate Exclusive(r: Race) {
    && AtMostOnce(r.net.rules)
    && (forall i | 0 <= i < |r.workers| && Inside(r.workers[i]) :: BridgeName(r.workers[i].site.vpc) in r.net.bridges)
    && (forall i, j | 0 <= i < j < |r.workers| && Inside(r.workers[i]) && Inside(r.workers[j]) ::
          BridgeName(r.workers[i].site.vpc) != BridgeName(r.workers[j].site.vpc))
    && (forall i | 0 <= i < |r.workers| && r.workers[i].pc == Append :: RuleOf(r.workers[i].site) !in r.net.rules)
  }

  /** What one command does to bridges. */
  lemma BridgesAfterMove(r: Race, turn: Turn)
    requires Movable(r, turn) && Exclusive(r)
    ensures var w, r' := r.workers[turn.who], Moves(r, turn);
            var name := BridgeName(w.site.vpc);
            && (forall other | other != name :: other in r'.net.bridges <==> other in r.net.bridges)
            && (w.pc == Add && Inside(r'.workers[turn.who]) ==> name !in r.net.bridges)
            && (Inside(r'.workers[turn.who]) ==> name in r'.net.bridges)
            && (Inside(r'.workers[turn.who]) && !Inside(w) ==> w.pc == Add)
  {
  }

  lemma RulesAfterMove(r: Race, turn: Turn)
    requires Movable(r, turn)
    ensures var w, r' := r.workers[turn.who], Moves(r, turn);
            && r'.net.rules == (if w.pc == Append && !turn.fails then r.net.rules + [RuleOf(w.site)] else r.net.rules)
            && (r'.workers[turn.who].pc == Append ==> RuleOf(w.site) !in r.net.rules && w.pc == Check)
  {
  }

  lemma ExclusiveMove(r: Race, turn: Turn)
    requires Movable(r, turn) && Exclusive(r) && Apart(r.workers)
    ensures Exclusive(Moves(r, turn))
  {
    BridgesAfterMove(r, turn);
    RulesAfterMove(r, turn);
    var w, r' := r.workers[turn.who], Moves(r, turn);
    if w.pc == Append && !turn.fails {
      AppendedUnique(r.net.rules, RuleOf(w.site));
    }
    forall k | 0 <= k < |r'.workers| && r'.workers[k].pc == Append
      ensures RuleOf(r'.workers[k].site) !in r'.net.rules
    {
      OnlyAppender(r, turn, k);
    }
  }

  /** Two goroutines never stand before appending the same rule. */
  lemma OnlyAppender(r: Race, turn: Turn, k: nat)
    requires Movable(r, turn) && Exclusive(r) && Apart(r.workers) && k < |r.workers|
    requires Moves(r, turn).workers[k].pc == Append
    ensures RuleOf(r.workers[k].site) !in Moves(r, turn).net.rules
  {
    RulesAfterMove(r, turn);
    if k != turn.who && r.workers[turn.who].pc == Append {
      assert Inside(r.workers[turn.who]) && Inside(r.workers[k]);
    }
  }

  lemma ApartMove(r: Race, turn: Turn)
    requires Movable(r, turn) && Apart(r.workers)
    ensures Apart(Moves(r, turn).workers)
  {
    var workers := Moves(r, turn).workers;
    assert forall k | 0 <= k < |workers| :: workers[k].site == r.workers[k].site;
  }

  lemma {:induction false} ExclusiveAlways(r: Race, order: seq<Turn>)
    requires Exclusive(r) && Apart(r.workers) && Schedule(r, order)
    ensures Exclusive(AfterSchedule(r, order))
    decreases |order|
  {
    if order != [] {
      ExclusiveMove(r, order[0]);
      ApartMove(r, order[0]);
      ExclusiveAlways(Moves(r, order[0]), order[1..]);
    }
  }

  predicate Starting(workers: seq<Worker>) {
    forall i | 0 <= i < |workers| :: workers[i] == AtStart(workers[i].site, workers[i].creating)
  }

  /** Over every interleaving of set-ups of any VPCs, on any host, whatever commands but the
      checks fail: NAT rules stay unique as long as VPCs with different bridges have
      different networks. */
  lemma ConcurrentRulesUnique(h: Net, workers: seq<Worker>, order: seq<Turn>)
    requires AtMostOnce(h.rules) && Starting(workers) && Apart(workers) && Schedule(Race(h, workers, None), order)
    ensures AtMostOnce(AfterSchedule(Race(h, workers, None), order).net.rules)
  {
    assert forall i | 0 <= i < |workers| :: !Inside(workers[i]) && workers[i].pc != Append;
    ExclusiveAlways(Race(h, workers, None), order);
  }

  /* ---- two VPCs of one network ---- */

  /** Some schedule leads from one state to the other. */
  ghost predicate SomeSchedule(r: Race, s: Race) {
    exists order: seq<Turn> :: Schedule(r, order) && AfterSchedule(r, order) == s
  }

  lemma MoveFirst(r: Race, i: nat, s: Race)
    requires Movable(r, Turn(i, false)) && SomeSchedule(Moves(r, Turn(i, false)), s)
    ensures SomeSchedule(r, s)
  {
    var turn := Turn(i, false);
    var rest: seq<Turn> :| Schedule(Moves(r, turn), rest) && AfterSchedule(Moves(r, turn), rest) == s;
    assert ([turn] + rest)[1..] == rest;
    assert Schedule(r, [turn] + rest) && AfterSchedule(r, [turn] + rest) == s;
  }

  lemma Stays(r: Race)
    ensures SomeSchedule(r, r)
  {
    assert Schedule(r, []) && AfterSchedule(r, []) == r;
  }

  /** The host has neither the bridge nor the namespace. */
  predicate Bare(h: Net, site: Site) {
    BridgeName(site.vpc) !in h.bridges && NetnsName(site.vpc) !in h.namespaces
  }

  /** A set-up on a bare host, before its check. */
  function BeforeCheck(r: Race, i: nat): Race
    requires i < |r.workers|
  {
    var w := r.workers[i];
    var built := WithBridge(r.net, w.site.vpc, Complete(NetOf(w.site.cidr))).(forwarding := true);
    Race(if w.creating then built.(namespaces := built.namespaces + {NetnsName(w.site.vpc)}) else built,
         r.workers[i := w.(pc := Check)], Some(i))
  }

  lemma ReachesCheck(r: Race, i: nat, s: Race)
    requires i < |r.workers| && r.workers[i] == AtStart(r.workers[i].site, r.workers[i].creating)
    requires Bare(r.net, r.workers[i].site) && SomeSchedule(BeforeCheck(r, i), s)
    ensures SomeSchedule(r, s)
  {
    var w := r.workers[i];
    var r1 := Race(r.net, r.workers[i := w.(pc := Add)], r.builder);
    var r4 := Race(WithBridge(r.net, w.site.vpc, Complete(NetOf(w.site.cidr))),
                   r.workers[i := w.(pc := Enable)], Some(i));
    EnablesNat(r4, i, s, BeforeCheck(r, i));
    BuildsBridge(r1, i, s, r4);
    if w.creating {
      assert r.workers[i := w] == r.workers;
    } else {
      assert Moves(r, Turn(i, false)) == r1;
      MoveFirst(r, i, s);
    }
  }

  /** From adding the link to the complete bridge. */
  lemma BuildsBridge(r: Race, i: nat, s: Race, built: Race)
    requires i < |r.workers| && r.workers[i].pc == Add && BridgeName(r.workers[i].site.vpc) !in r.net.bridges
    requires var w := r.workers[i];
             built == Race(WithBridge(r.net, w.site.vpc, Complete(NetOf(w.site.cidr))),
                           r.workers[i := w.(pc := Enable)], Some(i))
    requires SomeSchedule(built, s)
    ensures SomeSchedule(r, s)
  {
    var w := r.workers[i];
    var vpc, net := w.site.vpc, NetOf(w.site.cidr);
    BridgeNameCollision(vpc, vpc);
    var r2 := Race(WithBridge(r.net, vpc, Bridge(false, {})), r.workers[i := w.(pc := Raise)], Some(i));
    var r3 := Race(WithBridge(r.net, vpc, Bridge(true, {})), r.workers[i := w.(pc := Assign)], Some(i));
    assert Moves(r, Turn(i, false)) == r2;
    Rebuilt(r.net, vpc, Bridge(false, {}), Bridge(true, {}));
    assert Moves(r2, Turn(i, false)) == r3;
    Rebuilt(r.net, vpc, Bridge(true, {}), Complete(net));
    assert {} + {(Gateway(net), net.prefix)} == {(Gateway(net), net.prefix)};
    assert Moves(r3, Turn(i, false)) == built;
    MoveFirst(r3, i, s);
    MoveFirst(r2, i, s);
    MoveFirst(r, i, s);
  }

  /** From the complete bridge to the check of the rule. */
  lemma EnablesNat(r: Race, i: nat, s: Race, ready: Race)
    requires i < |r.workers| && r.workers[i].pc == Enable && NetnsName(r.workers[i].site.vpc) !in r.net.namespaces
    requires var w, net := r.workers[i], r.net.(forwarding := true);
             ready == Race(if w.creating then net.(namespaces := net.namespaces + {NetnsName(w.site.vpc)}) else net,
                           r.workers[i := w.(pc := Check)], r.builder)
    requires SomeSchedule(ready, s)
    ensures SomeSchedule(r, s)
  {
    var w := r.workers[i];
    if w.creating {
      var r1 := Race(r.net.(forwarding := true), r.workers[i := w.(pc := Space)], r.builder);
      assert Moves(r, Turn(i, false)) == r1;
      assert Moves(r1, Turn(i, false)) == ready;
      MoveFirst(r1, i, s);
    } else {
      assert Moves(r, Turn(i, false)) == ready;
    }
    MoveFirst(r, i, s);
  }

  /** Two goroutines, each a creation or not. */
  function Pair(h: Net, p: Site, a: bool, q: Site, b: bool): Race {
    Race(h, [AtStart(p, a), AtStart(q, b)], None)
  }

  /** Both have built their bridges; both check, and both append. */
  lemma BothAppend(r: Race, p: Site, a: bool, q: Site, b: bool) returns (s: Race)
    requires r.workers == [Worker(p, a, Check), Worker(q, b, Check)]
    requires RuleOf(p) == RuleOf(q) && RuleOf(p) !in r.net.rules
    ensures SomeSchedule(r, s) && !AtMostOnce(s.net.rules)
  {
    var r1 := Race(r.net, [Worker(p, a, Append), Worker(q, b, Check)], r.builder);
    var r2 := Race(r.net, [Worker(p, a, Append), Worker(q, b, Append)], r.builder);
    assert Moves(r, Turn(0, false)) == r1 && Moves(r1, Turn(1, false)) == r2;
    var r3 := Moves(r2, Turn(0, false));
    s := Moves(r3, Turn(1, false));
    RulesAfterMove(r2, Turn(0, false));
    RulesAfterMove(r3, Turn(1, false));
    assert s.net.rules[|r.net.rules|] == s.net.rules[|r.net.rules| + 1];
    Stays(s);
    MoveFirst(r3, 1, s);
    MoveFirst(r2, 0, s);
    MoveFirst(r1, 1, s);
    MoveFirst(r, 0, s);
  }

  lemma PairRepeats(h: Net, p: Site, a: bool, q: Site, b: bool) returns (s: Race)
    requires RuleOf(p) !in h.rules && RuleOf(p) == RuleOf(q) && Bare(h, p) && Bare(h, q)
    requires BridgeName(p.vpc) != BridgeName(q.vpc)
    ensures SomeSchedule(Pair(h, p, a, q, b), s) && !AtMostOnce(s.net.rules)
  {
    var r := Pair(h, p, a, q, b);
    var r1 := BeforeCheck(r, 0);
    BridgeNameCollision(p.vpc, q.vpc);
    s := BothAppend(BeforeCheck(r1, 1), p, a, q, b);
    ReachesCheck(r1, 1, s);
    ReachesCheck(r, 0, s);
  }

  /** The exact condition, for two goroutines of either kind that set up bare VPCs whose
      rules are missing: some interleaving repeats a rule if and only if the two have one
      network but different bridges. */
  lemma PairRepeatsExactly(h: Net, p: Site, a: bool, q: Site, b: bool)
    requires AtMostOnce(h.rules) && RuleOf(p) !in h.rules && RuleOf(q) !in h.rules && Bare(h, p) && Bare(h, q)
    ensures (exists s :: SomeSchedule(Pair(h, p, a, q, b), s) && !AtMostOnce(s.net.rules))
            <==> RuleOf(p) == RuleOf(q) && BridgeName(p.vpc) != BridgeName(q.vpc)
  {
    var r := Pair(h, p, a, q, b);
    if RuleOf(p) == RuleOf(q) && BridgeName(p.vpc) != BridgeName(q.vpc) {
      var s := PairRepeats(h, p, a, q, b);
    } else {
      assert Apart(r.workers);
      forall s | SomeSchedule(r, s) ensures AtMostOnce(s.net.rules) {
        var order: seq<Turn> :| Schedule(r, order) && AfterSchedule(r, order) == s;
        ConcurrentRulesUnique(h, r.workers, order);
      }
    }
  }

  /* ---- one VPC: the whole host ---- */

  /** What the builder has built when it is at this command. */
  function Built(h: Net, w: Worker): Net {
    var site := w.site;
    var complete := WithBridge(h, site.vpc, Complete(NetOf(site.cidr)));
    var spaces := if w.creating then h.namespaces + {NetnsName(site.vpc)} else h.namespaces;
    match w.pc
    case Raise => WithBridge(h, site.vpc, Bridge(false, {}))
    case Assign => WithBridge(h, site.vpc, Bridge(true, {}))
    case Enable => complete
    case Space => complete.(forwarding := true)
    case Check => complete.(forwarding := true, namespaces := spaces)
    case Append => complete.(forwarding := true, namespaces := spaces)
    case _ => Ready(h, site.vpc, site.cidr, site.uplink).(namespaces := spaces)
  }

  predicate Waiting(w: Worker) {
    w.pc == Show || w.pc == Add
  }

  /** A goroutine that has added the bridge. */
  predicate Building(w: Worker) {
    !Waiting(w) && w.pc != Unspace && w.pc != Lower && w.pc != Remove && (w.pc == Space ==> w.creating)
  }

  predicate AllAt(workers: seq<Worker>, site: Site) {
    forall i | 0 <= i < |workers| :: workers[i].site == site
  }

  /** Until the bridge is added nothing has happened; after that the host is what the one
      builder has made of it, and no other goroutine has done anything. */
  predicate OneBuilder(h: Net, site: Site, r: Race) {
    && AllAt(r.workers, site)
    && match r.builder
       case None => r.net == h && forall i | 0 <= i < |r.workers| :: Waiting(r.workers[i])
       case Some(b) =>
         && b < |r.workers| && Building(r.workers[b]) && r.net == Built(h, r.workers[b])
         && (r.workers[b].pc == Append ==> !HasRule(h, site.cidr, site.uplink))
         && (forall i | 0 <= i < |r.workers| && i != b :: Waiting(r.workers[i]) || r.workers[i].pc == Over)
  }

  lemma WaiterMoves(h: Net, site: Site, r: Race, i: nat)
    requires Bare(h, site) && OneBuilder(h, site, r) && Movable(r, Turn(i, false)) && Waiting(r.workers[i])
    ensures OneBuilder(h, site, Moves(r, Turn(i, false)))
  {
    BridgeNameCollision(site.vpc, site.vpc);
    assert r.builder.Some? ==> BridgeName(site.vpc) in r.net.bridges;
  }

  /** The builder's next command always works, but for a check of a missing rule, and
      takes the host to the next stage. */
  lemma BuilderAdvances(h: Net, w: Worker)
    requires Bare(h, w.site) && Building(w) && w.pc != Over
    requires w.pc == Append ==> !HasRule(h, w.site.cidr, w.site.uplink)
    ensures var net, c := Built(h, w), CommandAt(w.site, w.pc);
            var ok := Works(net, c);
            var w' := w.(pc := Onward(w, ok));
            && Building(w') && (w'.pc == Append ==> !HasRule(h, w.site.cidr, w.site.uplink))
            && (if ok then Effect(net, c) else net) == Built(h, w')
  {
    var vpc, net := w.site.vpc, NetOf(w.site.cidr);
    match w.pc
    case Raise => Rebuilt(h, vpc, Bridge(false, {}), Bridge(true, {}));
    case Assign =>
      Rebuilt(h, vpc, Bridge(true, {}), Complete(net));
      assert {} + {(Gateway(net), net.prefix)} == {(Gateway(net), net.prefix)};
    case _ =>
  }

  lemma BuilderMoves(h: Net, site: Site, r: Race, i: nat)
    requires Bare(h, site) && OneBuilder(h, site, r) && Movable(r, Turn(i, false)) && r.builder == Some(i)
    ensures OneBuilder(h, site, Moves(r, Turn(i, false)))
  {
    BuilderAdvances(h, r.workers[i]);
  }

  predicate SameKinds(r: Race, r': Race) {
    && |r'.workers| == |r.workers|
    && forall i | 0 <= i < |r.workers| :: r'.workers[i].creating == r.workers[i].creating
  }

  lemma MoveKeepsOneBuilder(h: Net, site: Site, r: Race, i: nat)
    requires Bare(h, site) && OneBuilder(h, site, r) && Movable(r, Turn(i, false))
    ensures OneBuilder(h, site, Moves(r, Turn(i, false))) && SameKinds(r, Moves(r, Turn(i, false)))
  {
    if r.builder == Some(i) {
      BuilderMoves(h, site, r, i);
    } else {
      WaiterMoves(h, site, r, i);
    }
  }

  lemma {:induction false} OneBuilderAlways(h: Net, site: Site, r: Race, order: seq<Turn>)
    requires Bare(h, site) && OneBuilder(h, site, r) && Schedule(r, order) && Unfailing(order)
    ensures OneBuilder(h, site, AfterSchedule(r, order)) && SameKinds(r, AfterSchedule(r, order))
    decreases |order|
  {
    if order != [] {
      assert order[0] == Turn(order[0].who, false);
      MoveKeepsOneBuilder(h, site, r, order[0].who);
      OneBuilderAlways(h, site, Moves(r, order[0]), order[1..]);
    }
  }

  function Start(h: Net, site: Site, creating: seq<bool>): Race {
    Race(h, seq(|creating|, i requires 0 <= i < |creating| => AtStart(site, creating[i])), None)
  }

  /** Over every interleaving, without failures, of any number of goroutines that set up
      one VPC: the NAT rule is never repeated, and when all are over the host is what a single call would
      have left; the namespace exists exactly when the goroutine that added the bridge
      was a creation. */
  lemma ConcurrentSetupConverges(h: Net, site: Site, creating: seq<bool>, order: seq<Turn>)
    requires Bare(h, site) && AtMostOnce(h.rules) && Schedule(Start(h, site, creating), order) && Unfailing(order)
    ensures var end := AfterSchedule(Start(h, site, creating), order);
            && AtMostOnce(end.net.rules)
            && (AllOver(end) ==>
                  && end.builder.Some? && end.builder.value < |creating|
                  && end.net == Ready(h, site.vpc, site.cidr, site.uplink).(
                       namespaces := if creating[end.builder.value]
                                     then h.namespaces + {NetnsName(site.vpc)} else h.namespaces))
  {
    var start := Start(h, site, creating);
    OneBuilderAlways(h, site, start, order);
    var end := AfterSchedule(start, order);
    assert creating != [] && end.builder.None? ==> Waiting(end.workers[0]);
    assert end.builder.Some? ==> start.workers[end.builder.value] == AtStart(site, creating[end.builder.value]);
    if !HasRule(h, site.cidr, site.uplink) {
      AppendedUnique(h.rules, RuleOf(site));
    }
  }

  /** A goroutine alone does what the call does. */
  lemma AloneIsCall(h: Net, site: Site, creating: bool, order: seq<Turn>)
    requires Bare(h, site) && AtMostOnce(h.rules) && Unfailing(order)
    requires Schedule(Start(h, site, [creating]), order) && AllOver(AfterSchedule(Start(h, site, [creating]), order))
    ensures var call := if creating then Create(site.vpc, site.cidr, {}) else Ensure(site.vpc, site.cidr, {});
            AfterSchedule(Start(h, site, [creating]), order).net == AfterCall(h, site.uplink, call)
  {
    var call := if creating then Create(site.vpc, site.cidr, {}) else Ensure(site.vpc, site.cidr, {});
    ConcurrentSetupConverges(h, site, [creating], order);
    SetupConverges(h, site.uplink, site.vpc, site.cidr, [call]);
    assert AfterCalls(h, site.uplink, [call]) == AfterCall(h, site.uplink, call) by {
      assert [call][1..] == [];
    }
  }

  /** But a goroutine may return successfully before the bridge is ready: EnsureBridge
      takes a bridge that another goroutine has just added for a finished one. */
  lemma EnsureReturnsEarly(h: Net, site: Site)
    requires Bare(h, site)
    ensures var r := Start(h, site, [true, false]);
            var s := Race(WithBridge(h, site.vpc, Bridge(false, {})),
                          [Worker(site, true, Raise), Worker(site, false, Over)], Some(0));
            SomeSchedule(r, s)
  {
    BridgeNameCollision(site.vpc, site.vpc);
    var r := Start(h, site, [true, false]);
    var r1 := Race(WithBridge(h, site.vpc, Bridge(false, {})),
                   [Worker(site, true, Raise), Worker(site, false, Show)], Some(0));
    var s := r1.(workers := [Worker(site, true, Raise), Worker(site, false, Over)]);
    assert r.workers == [Worker(site, true, Add), Worker(site, false, Show)];
    assert Moves(r, Turn(0, false)) == r1 && Moves(r1, Turn(1, false)) == s;
    Stays(s);
    MoveFirst(r1, 1, s);
    MoveFirst(r, 0, s);
  }
}
