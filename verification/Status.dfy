/** Status agreement: when at most one thing is being done to an instance at a time,
    its row never claims that its domain runs when it does not, or is off when it is
    not. */
module Status {
  import opened Wrappers
  import opened Ipv4
  import opened Uuids
  import opened Schema
  import opened Commands
  import C = Channels
  import opened Protocol
  import opened Ledger

  /* ---- what is being done to instance x ---- */

  ghost function Home(s: Cluster, x: Uuid): Uuid
    requires x in s.book.births
  {
    s.book.births[x].node
  }

  ghost function HomeAgent(s: Cluster, x: Uuid): Agent
    requires x in s.book.births
  {
    AgentAt(s, HostOf(s, Home(s, x)))
  }

  /** The request concerns x and has not enqueued its command. */
  predicate Serving(o: Op, x: Uuid) {
    match o
    case Inserted(_, id) => id == x
    case Addressed(_, id) => id == x
    case Asked(t) => t.id == x
    case Marked(t) => t.id == x
    case _ => false
  }

  predicate Busy(t: Task, x: Uuid) {
    Concerns(t.cmd, x) && t.pc != At(Finished)
  }

  /** A request being served, a command on its way, a goroutine at work, or a
      reconciliation report still to be sent. */
  datatype Item = InOp(op: OpId) | InQueue(i: nat) | InFlight(i: nat) | InTask(i: nat) | InListing(i: nat)

  ghost predicate ItemIn(ops: map<OpId, Op>, c: C.Channel, listing: seq<Report>, x: Uuid, item: Item) {
    match item
    case InOp(op) => op in ops && Serving(ops[op], x)
    case InQueue(i) => i < |c.queue| && Concerns(c.queue[i], x)
    case InFlight(i) => i < |c.flight| && Concerns(c.flight[i], x)
    case InTask(i) => i < |c.tasks| && Busy(c.tasks[i], x)
    case InListing(i) => i < |listing| && listing[i].vm == x
  }

  ghost predicate IsItem(s: Cluster, x: Uuid, item: Item)
    requires x in s.book.births
  {
    ItemIn(s.ops, Chan(s, Home(s, x)), HomeAgent(s, x).listing, x, item)
  }

  /** At most one thing is being done to x. */
  ghost predicate OneAtATime(s: Cluster, x: Uuid)
    requires x in s.book.births
  {
    forall i, j | IsItem(s, x, i) && IsItem(s, x, j) :: i == j
  }

  /** On the host of x its name means x: no goroutine is at work on another instance of
      that name, and no other instance's domain bears it. A name may be used again when
      its former bearer is gone. */
  ghost predicate NameOwned(s: Cluster, x: Uuid)
    requires x in s.book.births
  {
    && (forall n, i | HostOf(s, n) == HostOf(s, Home(s, x)) && 0 <= i < |Chan(s, n).tasks| ::
          NamesOnly(Chan(s, n).tasks[i], s.book.births[x].name, x))
    && (s.book.births[x].name in HomeAgent(s, x).domains ==>
          HomeAgent(s, x).domains[s.book.births[x].name].uuid == x)
  }

  predicate NamesOnly(t: Task, name: string, x: Uuid) {
    IsVmCommand(t.cmd) && t.pc != At(Finished) && t.cmd.name == name ==> t.cmd.vm == x
  }

  /** Steps excluded by the hypothesis: a report about x that is lost, a change to
      its domain from outside, and a delete that could not mark the row. */
  ghost predicate Disturbs(s: Cluster, step: Step, x: Uuid)
    requires Enabled(s, step)
  {
    match step
    case FailReport(n, i) => TaskAt(s, n, i).value.pc.report.vm == x
    case ReportNext(a, delivered) => !delivered && AgentAt(s, a).listing[0].vm == x
    case HostChange(a, name, _) => name in AgentAt(s, a).domains && AgentAt(s, a).domains[name].uuid == x
    case SkipMark(op) => s.ops[op].target.id == x
    case _ => false
  }

  /* ---- the claim ---- */

  /** The state of the domain of x, if it is defined. */
  ghost function DomainOf(s: Cluster, x: Uuid): Option<DomainState>
    requires x in s.book.births
  {
    DomainIn(HomeAgent(s, x).domains, s.book.births[x].name, x)
  }

  function DomainIn(domains: Domains, name: string, x: Uuid): Option<DomainState> {
    if name in domains && domains[name].uuid == x then Some(domains[name].state) else None
  }

  /** What a status claims about the domain. */
  predicate Claim(status: InstanceStatus, domain: Option<DomainState>) {
    (status == Running ==> domain == Some(On)) && (status == Stopped ==> domain == Some(Off))
  }

  predicate Unsettled(status: InstanceStatus) {
    status != Running && status != Stopped
  }

  ghost predicate GoodOp(o: Op, status: InstanceStatus) {
    o.Asked? || Unsettled(status)
  }

  ghost predicate GoodTask(t: Task, status: InstanceStatus, domain: Option<DomainState>) {
    match t.pc
    case At(stage) => Unsettled(status)
    case Reporting(r, next) => Claim(r.status, domain) && (next != Finished ==> Unsettled(r.status))
  }

  /** What must hold of everything being done to x while its row says `status`. */
  ghost predicate OpsGood(ops: map<OpId, Op>, x: Uuid, status: InstanceStatus) {
    forall op | op in ops && Serving(ops[op], x) :: GoodOp(ops[op], status)
  }

  ghost predicate ChannelGood(c: C.Channel, x: Uuid, status: InstanceStatus, domain: Option<DomainState>) {
    && (forall i | 0 <= i < |c.queue| && Concerns(c.queue[i], x) :: Unsettled(status))
    && (forall i | 0 <= i < |c.flight| && Concerns(c.flight[i], x) :: Unsettled(status))
    && (forall i | 0 <= i < |c.tasks| && Busy(c.tasks[i], x) :: GoodTask(c.tasks[i], status, domain))
  }

  ghost predicate ListingGood(listing: seq<Report>, x: Uuid, domain: Option<DomainState>) {
    forall i | 0 <= i < |listing| && listing[i].vm == x :: Claim(listing[i].status, domain)
  }

  ghost predicate Tame(domain: Option<DomainState>) {
    domain.None? || domain.value == On || domain.value == Off
  }

  ghost function StatusIn(s: Cluster, x: Uuid): InstanceStatus
    requires x in s.tables.instances
  {
    s.tables.instances[x].status
  }

  ghost predicate Agrees(s: Cluster, x: Uuid) {
    x in s.book.births ==>
      && Tame(DomainOf(s, x))
      && (forall r | r in s.late :: r.vm != x)
      && (x in s.tables.instances ==>
            && Claim(StatusIn(s, x), DomainOf(s, x))
            && OpsGood(s.ops, x, StatusIn(s, x))
            && ChannelGood(Chan(s, Home(s, x)), x, StatusIn(s, x), DomainOf(s, x))
            && ListingGood(HomeAgent(s, x).listing, x, DomainOf(s, x)))
  }

  /* ---- one step ---- */

  lemma SameHome(s: Cluster, step: Step, x: Uuid)
    requires Enabled(s, step) && Inv(s) && x in s.book.births
    ensures var s' := Apply(s, step);
            && x in s'.book.births && s'.book.births[x] == s.book.births[x]
            && HostOf(s', Home(s, x)) == HostOf(s, Home(s, x))
            && Chan(s', Home(s, x)) == Moved(s, step, Home(s, x))
            && HomeAgent(s', x) == NextAgent(s, step, HostOf(s, Home(s, x)))
  {
    BookGrows(s, step);
    ChannelAfter(s, step, Home(s, x));
    AgentAfter(s, step, HostOf(s, Home(s, x)));
  }

  /* ---- effects on the domain ---- */

  lemma WorkIsLocal(t: Task, outcome: Outcome, domains: Domains, name: string)
    requires t.pc.At? && t.pc.stage != Finished && (IsVmCommand(t.cmd) ==> t.cmd.name != name)
    ensures var domains' := TaskStep(t, outcome, domains).1;
            (name in domains' <==> name in domains) && (name in domains ==> domains'[name] == domains[name])
  {
  }

  /** The goroutine that a Work step moves. */
  ghost function Worker(s: Cluster, step: Step): Task
    requires Enabled(s, step) && step.Work?
  {
    TaskAt(s, step.node, step.i).value
  }

  /** A goroutine at work on another instance leaves the domain of x alone. */
  lemma OthersWork(s: Cluster, step: Step, x: Uuid)
    requires Enabled(s, step) && step.Work? && ActorBorn(s, step) && RowsBorn(s.book, s.tables)
    requires x in s.book.births && NameOwned(s, x) && !Concerns(Worker(s, step).cmd, x)
    requires HostOf(s, step.node) == HostOf(s, Home(s, x))
    ensures IsVmCommand(Worker(s, step).cmd) ==> Worker(s, step).cmd.name != s.book.births[x].name
  {
    assert NamesOnly(Chan(s, step.node).tasks[step.i], s.book.births[x].name, x);
  }

  lemma DomainStays(s: Cluster, step: Step, x: Uuid)
    requires Enabled(s, step) && ActorBorn(s, step) && RowsBorn(s.book, s.tables)
    requires x in s.book.births && NameOwned(s, x) && !Disturbs(s, step, x)
    requires AgentBorn(s.book, HostOf(s, Home(s, x)), HomeAgent(s, x))
    requires step.Work? ==> !Concerns(Worker(s, step).cmd, x)
    ensures var domains := NextAgent(s, step, HostOf(s, Home(s, x))).domains;
            DomainIn(domains, s.book.births[x].name, x) == DomainOf(s, x)
  {
    var a := HostOf(s, Home(s, x));
    if step.Work? && HostOf(s, step.node) == a {
      OthersWorkElsewhere(s, step, x);
    } else if step.HostChange? && step.address == a && step.name == s.book.births[x].name {
      ChangeIsForeign(s, step, x);
    } else {
      DomainsUntouched(s, step, a, s.book.births[x].name);
    }
  }

  lemma OthersWorkElsewhere(s: Cluster, step: Step, x: Uuid)
    requires Enabled(s, step) && ActorBorn(s, step) && RowsBorn(s.book, s.tables)
    requires x in s.book.births && NameOwned(s, x)
    requires step.Work? && HostOf(s, step.node) == HostOf(s, Home(s, x)) && !Concerns(Worker(s, step).cmd, x)
    ensures var domains := NextAgent(s, step, HostOf(s, Home(s, x))).domains;
            DomainIn(domains, s.book.births[x].name, x) == DomainOf(s, x)
  {
    OthersWork(s, step, x);
    WorkIsLocal(Worker(s, step), step.outcome, HomeAgent(s, x).domains, s.book.births[x].name);
  }

  /** An undisturbed domain changes by itself only when it is another's. */
  lemma ChangeIsForeign(s: Cluster, step: Step, x: Uuid)
    requires Enabled(s, step) && step.HostChange? && RowsBorn(s.book, s.tables)
    requires x in s.book.births && NameOwned(s, x) && !Disturbs(s, step, x)
    requires AgentBorn(s.book, HostOf(s, Home(s, x)), HomeAgent(s, x))
    ensures var domains := NextAgent(s, step, HostOf(s, Home(s, x))).domains;
            DomainIn(domains, s.book.births[x].name, x) == DomainOf(s, x)
  {
  }

  lemma DomainsUntouched(s: Cluster, step: Step, a: string, name: string)
    requires Enabled(s, step) && !(step.Work? && HostOf(s, step.node) == a)
    requires !(step.HostChange? && step.address == a && step.name == name)
    ensures var domains, domains' := AgentAt(s, a).domains, NextAgent(s, step, a).domains;
            (name in domains' <==> name in domains) && (name in domains ==> domains'[name] == domains[name])
  {
  }

  /** A goroutine at work on x keeps its domain tame, and when it is about to report
      that x runs or is stopped, that is so. */
  lemma WorkIsGood(t: Task, outcome: Outcome, domains: Domains, x: Uuid, status: InstanceStatus)
    requires Concerns(t.cmd, x) && t.pc.At? && t.pc.stage != Finished && Unsettled(status)
    requires t.cmd.name in domains ==> domains[t.cmd.name].uuid == x
    requires Tame(DomainIn(domains, t.cmd.name, x))
    ensures var (t', domains') := TaskStep(t, outcome, domains);
            Tame(DomainIn(domains', t.cmd.name, x)) && GoodTask(t', status, DomainIn(domains', t.cmd.name, x))
  {
  }

  /* ---- effects on the row ---- */

  lemma StatusEffect(t: Tables, q: Statement, now: int, x: Uuid)
    requires Succeeds(t, q, now) && x in t.instances && x in Execute(t, q, now).instances
    ensures Execute(t, q, now).instances[x].status
         == match q
            case SetStatus(id, status, _) => if id == x then status else t.instances[x].status
            case TellStatus(r) => if r.vm == x then r.status else t.instances[x].status
            case _ => t.instances[x].status
  {
  }

  /** The item of x through which a step changes the row or the domain of x. */
  ghost function Actor(s: Cluster, step: Step, x: Uuid): Option<Item>
    requires Enabled(s, step)
  {
    match step
    case SetAddress(op) => if Serving(s.ops[op], x) then Some(InOp(op)) else None
    case Mark(op) => if Serving(s.ops[op], x) then Some(InOp(op)) else None
    case Work(n, i, _) => if Concerns(TaskAt(s, n, i).value.cmd, x) then Some(InTask(i)) else None
    case Deliver(n, i) => if Concerns(TaskAt(s, n, i).value.cmd, x) then Some(InTask(i)) else None
    case ReportNext(a, _) => if AgentAt(s, a).listing[0].vm == x then Some(InListing(0)) else None
    case _ => None
  }

  lemma ActorIsItem(s: Cluster, step: Step, x: Uuid)
    requires Enabled(s, step) && ActorBorn(s, step) && x in s.book.births && Actor(s, step, x).Some?
    requires step.ReportNext? ==> AgentBorn(s.book, step.address, AgentAt(s, step.address))
    ensures IsItem(s, x, Actor(s, step, x).value)
    ensures (step.Work? || step.Deliver?) ==> step.node == Home(s, x)
    ensures step.ReportNext? ==> step.address == HostOf(s, Home(s, x))
  {
    if step.ReportNext? {
      ReporterIsHome(s, step, x);
    }
  }

  lemma ReporterIsHome(s: Cluster, step: Step, x: Uuid)
    requires Enabled(s, step) && step.ReportNext? && x in s.book.births
    requires AgentBorn(s.book, step.address, AgentAt(s, step.address))
    requires AgentAt(s, step.address).listing[0].vm == x
    ensures step.address == HostOf(s, Home(s, x))
  {
    assert ListedBorn(s.book, step.address, AgentAt(s, step.address).listing[0]);
  }

  /** Without an actor the row keeps its status. */
  lemma StatusStays(s: Cluster, step: Step, x: Uuid)
    requires Enabled(s, step) && ActorBorn(s, step) && x in s.book.births && Actor(s, step, x).None?
    requires forall r | r in s.late :: r.vm != x
    requires x in s.tables.instances && x in NextTables(s, step).instances
    ensures NextTables(s, step).instances[x].status == s.tables.instances[x].status
  {
    NotTold(s, step, x);
    StatusEffect(s.tables, StatementOf(s, step), s.now, x);
  }

  lemma NotTold(s: Cluster, step: Step, x: Uuid)
    requires Enabled(s, step) && ActorBorn(s, step) && x in s.book.births && Actor(s, step, x).None?
    requires forall r | r in s.late :: r.vm != x
    ensures var q := StatementOf(s, step);
            !(q.SetStatus? && q.id == x) && !(q.TellStatus? && q.report.vm == x)
  {
  }

  /* ---- a step without an actor ---- */

  lemma QuietOps(s: Cluster, step: Step, x: Uuid, status: InstanceStatus)
    requires Enabled(s, step) && x in s.book.births && Actor(s, step, x).None? && !Disturbs(s, step, x)
    requires OpsGood(s.ops, x, status)
    ensures OpsGood(NextOps(s, step), x, status)
  {
  }

  lemma QuietListing(s: Cluster, step: Step, x: Uuid)
    requires Enabled(s, step) && x in s.book.births && Actor(s, step, x).None?
    requires AgentBorn(s.book, HostOf(s, Home(s, x)), HomeAgent(s, x))
    requires Tame(DomainOf(s, x)) && ListingGood(HomeAgent(s, x).listing, x, DomainOf(s, x))
    ensures ListingGood(NextAgent(s, step, HostOf(s, Home(s, x))).listing, x, DomainOf(s, x))
  {
    var a := HostOf(s, Home(s, x));
    var listing' := NextAgent(s, step, a).listing;
    forall i | 0 <= i < |listing'| && listing'[i].vm == x ensures Claim(listing'[i].status, DomainOf(s, x)) {
      if step.List? && step.address == a {
        assert DomainBorn(s.book, a, step.names[i], HomeAgent(s, x).domains[step.names[i]]);
      } else if step.ReportNext? && step.address == a {
        assert listing'[i] == HomeAgent(s, x).listing[i + 1];
      }
    }
  }

  /** A command is enqueued for x only while its row is unsettled. */
  lemma PushedWhenUnsettled(s: Cluster, step: Step, x: Uuid, n: Uuid, status: InstanceStatus)
    requires Enabled(s, step) && OpsGood(s.ops, x, status)
    ensures var cs := OnChannel(s, step, n);
            cs.Some? && cs.value.Push? && Concerns(cs.value.cmd, x) ==> Unsettled(status)
  {
  }

  /** A step of a channel in which no goroutine of x moves. */
  lemma QuietChannel(c: C.Channel, cs: C.ChannelStep, x: Uuid, status: InstanceStatus, domain: Option<DomainState>)
    requires C.Enabled(c, cs) && ChannelGood(c, x, status, domain)
    requires cs.Push? && Concerns(cs.cmd, x) ==> Unsettled(status)
    requires cs.Move? ==> !Busy(cs.task, x)
    ensures ChannelGood(C.Next(c, cs), x, status, domain)
  {
    if cs.Finish? {
      var d := C.Next(c, cs);
      assert forall i | 0 <= i < |d.tasks| :: d.tasks[i] == c.tasks[if i < cs.i then i else i + 1];
    }
  }

  lemma NoMoveOfOthers(s: Cluster, step: Step, x: Uuid, n: Uuid)
    requires Enabled(s, step) && ActorBorn(s, step) && Actor(s, step, x).None? && !Disturbs(s, step, x)
    ensures var cs := OnChannel(s, step, n);
            cs.Some? && cs.value.Move? ==> !Busy(cs.value.task, x)
  {
    if step.Work? {
      WorkReports(Worker(s, step), step.outcome, AgentAt(s, HostOf(s, n)).domains);
    }
  }

  lemma QuietStep(s: Cluster, step: Step, x: Uuid)
    requires Enabled(s, step) && ActorBorn(s, step) && Known(s, x) && Tame(DomainOf(s, x))
    requires AgentBorn(s.book, HostOf(s, Home(s, x)), HomeAgent(s, x))
    requires Actor(s, step, x).None? && !Disturbs(s, step, x)
    ensures OpsGood(NextOps(s, step), x, StatusIn(s, x))
    ensures ChannelGood(Moved(s, step, Home(s, x)), x, StatusIn(s, x), DomainOf(s, x))
    ensures ListingGood(NextAgent(s, step, HostOf(s, Home(s, x))).listing, x, DomainOf(s, x))
  {
    QuietOps(s, step, x, StatusIn(s, x));
    QuietListing(s, step, x);
    PushedWhenUnsettled(s, step, x, Home(s, x), StatusIn(s, x));
    NoMoveOfOthers(s, step, x, Home(s, x));
    if OnChannel(s, step, Home(s, x)).Some? {
      QuietChannel(Chan(s, Home(s, x)), OnChannel(s, step, Home(s, x)).value, x, StatusIn(s, x), DomainOf(s, x));
    }
  }

  /* ---- a step through an item of x ---- */

  /** Nothing but `actor` is being done to x. */
  ghost predicate Alone(s: Cluster, x: Uuid, actor: Item)
    requires x in s.book.births
  {
    var c, listing := Chan(s, Home(s, x)), HomeAgent(s, x).listing;
    && (forall op | op in s.ops && Serving(s.ops[op], x) :: actor == InOp(op))
    && (forall i | 0 <= i < |c.queue| && Concerns(c.queue[i], x) :: actor == InQueue(i))
    && (forall i | 0 <= i < |c.flight| && Concerns(c.flight[i], x) :: actor == InFlight(i))
    && (forall i | 0 <= i < |c.tasks| && Busy(c.tasks[i], x) :: actor == InTask(i))
    && (forall i | 0 <= i < |listing| && listing[i].vm == x :: actor == InListing(i))
  }

  lemma IsAlone(s: Cluster, x: Uuid, actor: Item)
    requires x in s.book.births && OneAtATime(s, x) && IsItem(s, x, actor)
    ensures Alone(s, x, actor)
  {
    forall op | op in s.ops && Serving(s.ops[op], x) ensures actor == InOp(op) {
      assert IsItem(s, x, InOp(op));
    }
    var c, listing := Chan(s, Home(s, x)), HomeAgent(s, x).listing;
    forall i | 0 <= i < |c.queue| && Concerns(c.queue[i], x) ensures actor == InQueue(i) {
      assert IsItem(s, x, InQueue(i));
    }
    forall i | 0 <= i < |c.flight| && Concerns(c.flight[i], x) ensures actor == InFlight(i) {
      assert IsItem(s, x, InFlight(i));
    }
    forall i | 0 <= i < |c.tasks| && Busy(c.tasks[i], x) ensures actor == InTask(i) {
      assert IsItem(s, x, InTask(i));
    }
    forall i | 0 <= i < |listing| && listing[i].vm == x ensures actor == InListing(i) {
      assert IsItem(s, x, InListing(i));
    }
  }

  /** The conclusion about the next state, in terms of its components. */
  ghost predicate AllGood(s: Cluster, step: Step, x: Uuid, status: InstanceStatus, domain: Option<DomainState>)
    requires Enabled(s, step) && x in s.book.births
  {
    && Claim(status, domain)
    && OpsGood(NextOps(s, step), x, status)
    && ChannelGood(Moved(s, step, Home(s, x)), x, status, domain)
    && ListingGood(NextAgent(s, step, HostOf(s, Home(s, x))).listing, x, domain)
  }

  /** What each lemma below needs to know of x before the step. */
  ghost predicate Known(s: Cluster, x: Uuid) {
    && x in s.book.births && x in s.tables.instances
    && Claim(StatusIn(s, x), DomainOf(s, x))
    && OpsGood(s.ops, x, StatusIn(s, x))
    && ChannelGood(Chan(s, Home(s, x)), x, StatusIn(s, x), DomainOf(s, x))
    && ListingGood(HomeAgent(s, x).listing, x, DomainOf(s, x))
  }

  lemma MarkingStep(s: Cluster, step: Step, x: Uuid, status: InstanceStatus)
    requires Enabled(s, step) && Known(s, x) && (step.SetAddress? || step.Mark?) && Unsettled(status)
    ensures AllGood(s, step, x, status, DomainOf(s, x))
  {
  }

  lemma WorkStep(s: Cluster, step: Step, x: Uuid)
    requires Enabled(s, step) && Known(s, x) && step.Work? && step.node == Home(s, x)
    requires ActorBorn(s, step) && Concerns(Worker(s, step).cmd, x) && Alone(s, x, InTask(step.i))
    requires Tame(DomainOf(s, x))
    requires s.book.births[x].name in HomeAgent(s, x).domains
             ==> HomeAgent(s, x).domains[s.book.births[x].name].uuid == x
    ensures var domain := DomainIn(NextAgent(s, step, HostOf(s, Home(s, x))).domains, s.book.births[x].name, x);
            Tame(domain) && AllGood(s, step, x, StatusIn(s, x), domain)
  {
    var t := Worker(s, step);
    assert Busy(t, x) && t == Chan(s, Home(s, x)).tasks[step.i];
    assert Unsettled(StatusIn(s, x));
    WorkIsGood(t, step.outcome, HomeAgent(s, x).domains, x, StatusIn(s, x));
  }

  lemma DeliverStep(s: Cluster, step: Step, x: Uuid)
    requires Enabled(s, step) && Known(s, x) && step.Deliver? && step.node == Home(s, x)
    requires Concerns(TaskAt(s, step.node, step.i).value.cmd, x) && Alone(s, x, InTask(step.i))
    ensures AllGood(s, step, x, TaskAt(s, step.node, step.i).value.pc.report.status, DomainOf(s, x))
  {
    var t := TaskAt(s, step.node, step.i).value;
    assert Busy(t, x) && t == Chan(s, Home(s, x)).tasks[step.i];
  }

  lemma ReportStep(s: Cluster, step: Step, x: Uuid)
    requires Enabled(s, step) && Known(s, x) && step.ReportNext? && step.address == HostOf(s, Home(s, x))
    requires HomeAgent(s, x).listing[0].vm == x && Alone(s, x, InListing(0))
    ensures AllGood(s, step, x, HomeAgent(s, x).listing[0].status, DomainOf(s, x))
  {
  }

  /* ---- the theorem ---- */

  ghost predicate Calm(s: Cluster, x: Uuid) {
    x in s.book.births ==> OneAtATime(s, x) && NameOwned(s, x)
  }

  /** The status an actor leaves in the row of x. */
  ghost function ActorStatus(s: Cluster, step: Step, x: Uuid): InstanceStatus
    requires Enabled(s, step) && x in s.tables.instances
  {
    match step
    case SetAddress(_) => Pending
    case Mark(op) => MarkOf(s.ops[op].target.ask)
    case Deliver(n, i) => TaskAt(s, n, i).value.pc.report.status
    case ReportNext(a, delivered) => AgentAt(s, a).listing[0].status
    case _ => StatusIn(s, x)
  }

  lemma ActorSets(s: Cluster, step: Step, x: Uuid)
    requires Enabled(s, step) && ActorBorn(s, step) && !Disturbs(s, step, x)
    requires Actor(s, step, x).Some? && x in s.tables.instances && x in NextTables(s, step).instances
    ensures NextTables(s, step).instances[x].status == ActorStatus(s, step, x)
  {
    StatusEffect(s.tables, StatementOf(s, step), s.now, x);
  }

  lemma ActorStep(s: Cluster, step: Step, x: Uuid)
    requires Enabled(s, step) && ActorBorn(s, step) && Known(s, x) && Tame(DomainOf(s, x))
    requires Actor(s, step, x).Some? && Alone(s, x, Actor(s, step, x).value)
    requires (step.Work? || step.Deliver?) ==> step.node == Home(s, x)
    requires step.ReportNext? ==> step.address == HostOf(s, Home(s, x))
    requires s.book.births[x].name in HomeAgent(s, x).domains
             ==> HomeAgent(s, x).domains[s.book.births[x].name].uuid == x
    ensures var domain := DomainIn(NextAgent(s, step, HostOf(s, Home(s, x))).domains, s.book.births[x].name, x);
            Tame(domain) && AllGood(s, step, x, ActorStatus(s, step, x), domain)
  {
    match step
    case SetAddress(op) => MarkingStep(s, step, x, Pending);
    case Mark(op) => MarkingStep(s, step, x, MarkOf(s.ops[op].target.ask));
    case Work(n, i, outcome) => WorkStep(s, step, x);
    case Deliver(n, i) => DeliverStep(s, step, x);
    case ReportNext(a, delivered) => ReportStep(s, step, x);
    case _ =>
  }

  /** The domain of x after any step, and everything about x when its row is live. */
  lemma LiveStep(s: Cluster, step: Step, x: Uuid)
    requires Enabled(s, step) && Inv(s) && Known(s, x) && Tame(DomainOf(s, x)) && Calm(s, x) && !Disturbs(s, step, x)
    requires forall r | r in s.late :: r.vm != x
    requires x in NextTables(s, step).instances
    ensures var domain := DomainIn(NextAgent(s, step, HostOf(s, Home(s, x))).domains, s.book.births[x].name, x);
            Tame(domain) && AllGood(s, step, x, NextTables(s, step).instances[x].status, domain)
  {
    ActorIsBorn(s, step);
    assert AgentBorn(s.book, HostOf(s, Home(s, x)), HomeAgent(s, x));
    var actor := Actor(s, step, x);
    if actor.Some? {
      ActorIsItem(s, step, x);
      IsAlone(s, x, actor.value);
      ActorSets(s, step, x);
      ActorStep(s, step, x);
    } else {
      DomainStays(s, step, x);
      StatusStays(s, step, x);
      QuietStep(s, step, x);
    }
  }

  /** The domain stays tame when the row is gone, too. */
  lemma DomainStaysTame(s: Cluster, step: Step, x: Uuid)
    requires Enabled(s, step) && Inv(s) && x in s.book.births && Tame(DomainOf(s, x))
    requires Calm(s, x) && !Disturbs(s, step, x)
    ensures Tame(DomainIn(NextAgent(s, step, HostOf(s, Home(s, x))).domains, s.book.births[x].name, x))
  {
    ActorIsBorn(s, step);
    assert AgentBorn(s.book, HostOf(s, Home(s, x)), HomeAgent(s, x));
    if step.Work? && Concerns(Worker(s, step).cmd, x) {
      WorkIsGood(Worker(s, step), step.outcome, HomeAgent(s, x).domains, x, Pending);
    } else {
      DomainStays(s, step, x);
    }
  }

  lemma InsertEffects(s: Cluster, step: Step, n: Uuid, a: string)
    requires Enabled(s, step) && step.Insert?
    ensures Moved(s, step, n) == Chan(s, n) && NextAgent(s, step, a) == AgentAt(s, a) && NextLate(s, step) == s.late
    ensures NextOps(s, step) == s.ops[step.op := Inserted(s.ops[step.op].plan, step.id)]
    ensures step.id in NextTables(s, step).instances && NextTables(s, step).instances[step.id].status == Pending
  {
  }

  /** A new instance: nothing but its own request knows of it. */
  lemma BirthAgrees(s: Cluster, step: Step, x: Uuid)
    requires Enabled(s, step) && Inv(s) && x !in s.book.births && x in NextBook(s, step).births
    ensures Agrees(Apply(s, step), x)
  {
    var b' := NextBook(s, step);
    var n := b'.births[x].node;
    var a := if n in b'.owners then b'.owners[n] else "";
    InsertEffects(s, step, n, a);
    UnbornUnknown(s, x, n, a, b'.births[x].name);
    NewbornAgrees(Apply(s, step), x, n, a) by {
      ChannelAfter(s, step, n);
      AgentAfter(s, step, a);
    }
  }

  lemma UnbornUnknown(s: Cluster, x: Uuid, n: Uuid, a: string, name: string)
    requires Inv(s) && x !in s.book.births
    ensures forall i | 0 <= i < |Chan(s, n).tasks| :: !Concerns(Chan(s, n).tasks[i].cmd, x)
    ensures DomainIn(AgentAt(s, a).domains, name, x).None?
    ensures forall i | 0 <= i < |AgentAt(s, a).listing| :: AgentAt(s, a).listing[i].vm != x
    ensures forall r | r in s.late :: r.vm != x
  {
    assert ChannelBorn(s.book, n, Chan(s, n));
    UnbornNowhere(s, x, n);
    assert AgentBorn(s.book, a, AgentAt(s, a));
    UnbornOnAgent(s, x, a, name);
  }

  lemma NewbornAgrees(s: Cluster, x: Uuid, n: Uuid, a: string)
    requires x in s.book.births && Home(s, x) == n && HostOf(s, n) == a
    requires x in s.tables.instances && StatusIn(s, x) == Pending
    requires DomainIn(AgentAt(s, a).domains, s.book.births[x].name, x).None?
    requires forall r | r in s.late :: r.vm != x
    requires forall i | 0 <= i < |AgentAt(s, a).listing| :: AgentAt(s, a).listing[i].vm != x
    requires forall i | 0 <= i < |Chan(s, n).tasks| :: !Concerns(Chan(s, n).tasks[i].cmd, x)
    ensures Agrees(s, x)
  {
  }

  lemma UnbornNowhere(s: Cluster, x: Uuid, n: Uuid)
    requires x !in s.book.births && ChannelBorn(s.book, n, Chan(s, n))
    ensures forall i | 0 <= i < |Chan(s, n).tasks| :: !Concerns(Chan(s, n).tasks[i].cmd, x)
  {
    forall i | 0 <= i < |Chan(s, n).tasks| ensures !Concerns(Chan(s, n).tasks[i].cmd, x) {
      assert TaskBorn(s.book, n, Chan(s, n).tasks[i]);
    }
  }

  lemma UnbornOnAgent(s: Cluster, x: Uuid, a: string, name: string)
    requires x !in s.book.births && AgentBorn(s.book, a, AgentAt(s, a))
    ensures DomainIn(AgentAt(s, a).domains, name, x).None?
    ensures forall i | 0 <= i < |AgentAt(s, a).listing| :: AgentAt(s, a).listing[i].vm != x
  {
    forall i | 0 <= i < |AgentAt(s, a).listing| ensures AgentAt(s, a).listing[i].vm != x {
      assert ListedBorn(s.book, a, AgentAt(s, a).listing[i]);
    }
    assert name in AgentAt(s, a).domains ==> DomainBorn(s.book, a, name, AgentAt(s, a).domains[name]);
  }

  lemma AgreesStep(s: Cluster, step: Step, x: Uuid)
    requires Enabled(s, step) && Inv(s) && Agrees(s, x) && Calm(s, x) && !Disturbs(s, step, x)
    ensures Agrees(Apply(s, step), x)
  {
    if x in s.book.births {
      SameHome(s, step, x);
      NoLateReport(s, step, x);
      DomainStaysTame(s, step, x);
      if x in NextTables(s, step).instances {
        RowWasThere(s, step, x);
        LiveStep(s, step, x);
      }
    } else if x in NextBook(s, step).births {
      BirthAgrees(s, step, x);
    }
  }

  lemma NoLateReport(s: Cluster, step: Step, x: Uuid)
    requires Enabled(s, step) && !Disturbs(s, step, x) && forall r | r in s.late :: r.vm != x
    ensures forall r | r in NextLate(s, step) :: r.vm != x
  {
  }

  lemma RowWasThere(s: Cluster, step: Step, x: Uuid)
    requires Enabled(s, step) && x in s.book.births && x in NextTables(s, step).instances
    ensures x in s.tables.instances
  {
  }

  /** In every state of the run at most one thing is being done to x, its name is its
      own on its agent, no report about it is lost, and its domain changes only
      through commands. */
  ghost predicate Undisturbed(s: Cluster, steps: seq<Step>, x: Uuid)
    requires Run(s, steps)
    decreases |steps|
  {
    && Calm(s, x)
    && (steps == [] || (!Disturbs(s, steps[0], x) && Undisturbed(Apply(s, steps[0]), steps[1..], x)))
  }

  lemma {:induction false} AgreesRun(s: Cluster, steps: seq<Step>, x: Uuid)
    requires Inv(s) && Run(s, steps) && Undisturbed(s, steps, x) && Agrees(s, x)
    ensures Agrees(After(s, steps), x)
    decreases |steps|
  {
    if steps != [] {
      AgreesStep(s, steps[0], x);
      InvStep(s, steps[0]);
      AgreesRun(Apply(s, steps[0]), steps[1..], x);
    }
  }

  /** Status agreement, in every state of every undisturbed run, whatever else is lost,
      crashes or restarts: a row that says running has a running domain, and a row that
      says stopped has a domain that is off. */
  lemma StatusAgrees(steps: seq<Step>, x: Uuid)
    requires Run(INITIAL, steps) && Undisturbed(INITIAL, steps, x)
    requires x in After(INITIAL, steps).tables.instances
    ensures var s := After(INITIAL, steps);
            && x in s.book.births
            && (s.tables.instances[x].status == Running ==> DomainOf(s, x) == Some(On))
            && (s.tables.instances[x].status == Stopped ==> DomainOf(s, x) == Some(Off))
  {
    InvInitial();
    InvRun(INITIAL, steps);
    AgreesRun(INITIAL, steps, x);
    assert RowBorn(After(INITIAL, steps).book, x, After(INITIAL, steps).tables.instances[x]);
  }
}
