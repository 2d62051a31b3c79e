/** Sequential address allocation in one VPC. The controller counts the live rows of
    the VPC and overwrites the last byte with 11 + count; it never looks at which
    addresses are in use. */
module Allocation {
  import opened Wrappers
  import opened Ipv4
  import opened Uuids
  import opened Schema
  import opened Commands
  import opened Protocol
  import opened Ledger

  /** The live instances of v, oldest first, hold the addresses for the counts
      0, 1, 2, ... of one network. */
  ghost predicate IsLine(b: Book, t: Tables, v: Uuid, net: Network, line: seq<Uuid>) {
    && (forall x | x in line :: x in b.births)
    && (forall x :: x in line <==> x in InstancesOf(t, v))
    && (forall i, j | 0 <= i < j < |line| :: b.births[line[i]].serial < b.births[line[j]].serial)
    && (forall i | 0 <= i < |line| :: b.births[line[i]].ip == VmAddress(net, i))
  }

  ghost predicate Counting(o: Op, v: Uuid) {
    o.Counted? && o.plan.req.vpc == v
  }

  /** The row is the newest live instance of its VPC. */
  ghost predicate Newest(s: Cluster, x: Uuid) {
    && x in s.book.births
    && forall y | y in InstancesOf(s.tables, s.book.births[x].vpc) && y in s.book.births ::
         s.book.births[y].serial <= s.book.births[x].serial
  }

  /** Creates in v are serialised, and only its newest instance is deleted. What
      happens in other VPCs is not restricted. */
  ghost predicate Orderly(s: Cluster, step: Step, v: Uuid)
    requires Enabled(s, step)
  {
    match step
    case Count(op) => s.ops[op].req.vpc == v ==> forall p | p in s.ops :: !Counting(s.ops[p], v)
    case DropRow(op) =>
      var x := s.ops[op].id;
      x in InstancesOf(s.tables, v) ==> Newest(s, x) && forall p | p in s.ops :: !Counting(s.ops[p], v)
    case _ => true
  }

  ghost predicate HasNet(b: Book, v: Uuid, net: Network) {
    v in b.vpcs ==> ParseCidr(b.vpcs[v]) == Ok(net) || ParseCidr(b.vpcs[v]).Err?
  }

  /** The invariant: the line, and the address a counted request is about to take is
      the next one. */
  ghost predicate InLine(s: Cluster, v: Uuid, net: Network, line: seq<Uuid>) {
    && IsLine(s.book, s.tables, v, net, line)
    && (forall op | op in s.ops && Counting(s.ops[op], v) :: s.ops[op].plan.ip == VmAddress(net, |line|))
    && (forall p, q | p in s.ops && q in s.ops && Counting(s.ops[p], v) && Counting(s.ops[q], v) :: p == q)
  }

  ghost predicate Serials(b: Book) {
    forall x | x in b.births :: b.births[x].serial < |b.births|
  }

  lemma SerialsStep(s: Cluster, step: Step)
    requires Enabled(s, step) && Serials(s.book)
    ensures Serials(NextBook(s, step))
  {
  }

  /** A line is as long as the count the controller reads. */
  lemma {:induction false} SetOfLine(line: seq<Uuid>, all: set<Uuid>)
    requires forall x :: x in line <==> x in all
    requires forall i, j | 0 <= i < j < |line| :: line[i] != line[j]
    ensures |all| == |line|
    decreases |line|
  {
    if line != [] {
      var last := line[|line| - 1];
      var front := line[..|line| - 1];
      assert forall x :: x in front <==> x in all - {last} by {
        assert line == front + [last];
      }
      SetOfLine(front, all - {last});
    } else {
      assert all == {};
    }
  }

  lemma LineCount(b: Book, t: Tables, v: Uuid, net: Network, line: seq<Uuid>)
    requires IsLine(b, t, v, net, line)
    ensures CountByVpc(t, v) == |line|
  {
    assert forall i, j | 0 <= i < j < |line| :: line[i] != line[j];
    SetOfLine(line, InstancesOf(t, v));
  }

  /** The set of live rows of v changes only when one is inserted or deleted. */
  lemma InstancesStep(t: Tables, q: Statement, now: int, v: Uuid)
    requires Succeeds(t, q, now)
    ensures InstancesOf(Execute(t, q, now), v)
         == match q
            case InsertRow(id, plan) => if plan.req.vpc == v then InstancesOf(t, v) + {id} else InstancesOf(t, v)
            case DeleteRow(id) => InstancesOf(t, v) - {id}
            case _ => InstancesOf(t, v)
  {
  }

  /** The line after a step. */
  ghost function NextLine(s: Cluster, step: Step, v: Uuid, line: seq<Uuid>): seq<Uuid>
    requires Enabled(s, step)
  {
    match step
    case Insert(op, id) => if s.ops[op].plan.req.vpc == v then line + [id] else line
    case DropRow(op) => if s.ops[op].id in InstancesOf(s.tables, v) && line != [] then line[..|line| - 1] else line
    case _ => line
  }

  lemma LineStep(s: Cluster, step: Step, v: Uuid, net: Network, line: seq<Uuid>)
    requires Enabled(s, step) && Orderly(s, step, v) && InLine(s, v, net, line) && Serials(s.book)
    requires Grows(s.book, NextBook(s, step)) && RowsBorn(s.book, s.tables)
    ensures IsLine(NextBook(s, step), NextTables(s, step), v, net, NextLine(s, step, v, line))
  {
    if step.Insert? {
      InsertLine(s, step, v, net, line);
    } else if step.DropRow? {
      DropLine(s, step, v, net, line);
    } else {
      SameInstances(s, step, v);
      LineKept(s.book, NextBook(s, step), s.tables, NextTables(s, step), v, net, line);
    }
  }

  lemma SameInstances(s: Cluster, step: Step, v: Uuid)
    requires Enabled(s, step) && !step.Insert? && !step.DropRow?
    ensures InstancesOf(NextTables(s, step), v) == InstancesOf(s.tables, v)
  {
    InstancesStep(s.tables, StatementOf(s, step), s.now, v);
  }

  lemma LineKept(b: Book, b': Book, t: Tables, t': Tables, v: Uuid, net: Network, line: seq<Uuid>)
    requires IsLine(b, t, v, net, line) && Grows(b, b') && InstancesOf(t', v) == InstancesOf(t, v)
    ensures IsLine(b', t', v, net, line)
  {
  }

  lemma InsertLine(s: Cluster, step: Step, v: Uuid, net: Network, line: seq<Uuid>)
    requires Enabled(s, step) && step.Insert? && InLine(s, v, net, line) && Serials(s.book)
    requires Grows(s.book, NextBook(s, step))
    ensures IsLine(NextBook(s, step), NextTables(s, step), v, net, NextLine(s, step, v, line))
  {
    var plan := s.ops[step.op].plan;
    InstancesStep(s.tables, StatementOf(s, step), s.now, v);
    if plan.req.vpc != v {
      LineKept(s.book, NextBook(s, step), s.tables, NextTables(s, step), v, net, line);
    } else {
      assert Counting(s.ops[step.op], v);
      LineGrows(s.book, NextBook(s, step), s.tables, NextTables(s, step), v, net, line, step.id);
    }
  }

  /** The newborn is the newest, and has the next address. */
  lemma LineGrows(b: Book, b': Book, t: Tables, t': Tables, v: Uuid, net: Network, line: seq<Uuid>, x: Uuid)
    requires IsLine(b, t, v, net, line) && Grows(b, b') && Serials(b)
    requires InstancesOf(t', v) == InstancesOf(t, v) + {x}
    requires x !in b.births && x in b'.births && b'.births[x].serial == |b.births|
    requires b'.births[x].ip == VmAddress(net, |line|)
    ensures IsLine(b', t', v, net, line + [x])
  {
    var longer := line + [x];
    forall y ensures y in longer <==> y in InstancesOf(t', v) {
      assert y in longer <==> y in line || y == x;
    }
    forall i, j | 0 <= i < j < |longer| ensures b'.births[longer[i]].serial < b'.births[longer[j]].serial {
      assert longer[i] == line[i] && line[i] in b.births;
      assert j < |line| ==> longer[j] == line[j] && line[j] in b.births;
    }
    forall i | 0 <= i < |longer| ensures b'.births[longer[i]].ip == VmAddress(net, i) {
      assert i < |line| ==> longer[i] == line[i] && line[i] in b.births;
    }
  }

  lemma DropLine(s: Cluster, step: Step, v: Uuid, net: Network, line: seq<Uuid>)
    requires Enabled(s, step) && step.DropRow? && Orderly(s, step, v) && InLine(s, v, net, line)
    requires RowsBorn(s.book, s.tables)
    ensures IsLine(NextBook(s, step), NextTables(s, step), v, net, NextLine(s, step, v, line))
  {
    InstancesStep(s.tables, StatementOf(s, step), s.now, v);
    var x := s.ops[step.op].id;
    if x in InstancesOf(s.tables, v) {
      NewestIsLast(s, v, net, line, x);
      ShorterLine(s.book, s.tables, NextTables(s, step), v, net, line);
    } else {
      assert InstancesOf(NextTables(s, step), v) == InstancesOf(s.tables, v);
    }
  }

  lemma NewestIsLast(s: Cluster, v: Uuid, net: Network, line: seq<Uuid>, x: Uuid)
    requires IsLine(s.book, s.tables, v, net, line) && RowsBorn(s.book, s.tables)
    requires x in InstancesOf(s.tables, v) && Newest(s, x)
    ensures line != [] && line[|line| - 1] == x
  {
    var i := PlaceInLine(s.book, s.tables, v, net, line, x);
    assert RowBorn(s.book, x, s.tables.instances[x]);
    assert line[|line| - 1] in InstancesOf(s.tables, v);
  }

  lemma ShorterLine(b: Book, t: Tables, t': Tables, v: Uuid, net: Network, line: seq<Uuid>)
    requires IsLine(b, t, v, net, line) && line != []
    requires InstancesOf(t', v) == InstancesOf(t, v) - {line[|line| - 1]}
    ensures IsLine(b, t', v, net, line[..|line| - 1])
  {
    var front := line[..|line| - 1];
    assert line == front + [line[|line| - 1]];
    assert forall x :: x in front <==> x in InstancesOf(t', v);
  }

  /** Where a counted request of v comes from. */
  lemma CountingBefore(s: Cluster, step: Step, v: Uuid, op: OpId)
    requires Enabled(s, step) && op in NextOps(s, step) && Counting(NextOps(s, step)[op], v)
    ensures (op in s.ops && NextOps(s, step)[op] == s.ops[op] && !(step.Insert? && step.op == op))
            || (step.Count? && step.op == op && s.ops[op].req.vpc == v)
  {
  }

  lemma CountedAddress(s: Cluster, step: Step, v: Uuid, net: Network)
    requires Enabled(s, step) && step.Count? && s.ops[step.op].req.vpc == v
    requires OpsBorn(s.book, s.ops) && HasNet(s.book, v, net)
    ensures NextOps(s, step)[step.op].plan.ip == VmAddress(net, CountByVpc(s.tables, v))
  {
    assert OpBorn(s.book, s.ops[step.op]);
  }

  /** While a request of v is counted, the line of v moves only when it inserts. */
  lemma LineWaits(s: Cluster, step: Step, v: Uuid, net: Network, line: seq<Uuid>, op: OpId)
    requires Enabled(s, step) && Orderly(s, step, v) && InLine(s, v, net, line)
    requires op in s.ops && Counting(s.ops[op], v) && !(step.Insert? && step.op == op)
    ensures NextLine(s, step, v, line) == line
    ensures !(step.Count? && s.ops[step.op].req.vpc == v)
  {
  }

  lemma CountingStep(s: Cluster, step: Step, v: Uuid, net: Network, line: seq<Uuid>)
    requires Enabled(s, step) && Orderly(s, step, v) && InLine(s, v, net, line)
    requires OpsBorn(s.book, s.ops) && HasNet(s.book, v, net)
    ensures var ops' := NextOps(s, step);
            && (forall op | op in ops' && Counting(ops'[op], v) ::
                  ops'[op].plan.ip == VmAddress(net, |NextLine(s, step, v, line)|))
            && (forall p, q | p in ops' && q in ops' && Counting(ops'[p], v) && Counting(ops'[q], v) :: p == q)
  {
    var ops' := NextOps(s, step);
    forall op | op in ops' && Counting(ops'[op], v)
      ensures ops'[op].plan.ip == VmAddress(net, |NextLine(s, step, v, line)|)
    {
      CountingBefore(s, step, v, op);
      if step.Count? && step.op == op {
        CountedAddress(s, step, v, net);
        LineCount(s.book, s.tables, v, net, line);
      } else {
        LineWaits(s, step, v, net, line, op);
      }
    }
    forall p, q | p in ops' && q in ops' && Counting(ops'[p], v) && Counting(ops'[q], v) ensures p == q {
      CountingBefore(s, step, v, p);
      CountingBefore(s, step, v, q);
      if p in s.ops && ops'[p] == s.ops[p] && !(step.Insert? && step.op == p) {
        LineWaits(s, step, v, net, line, p);
      }
    }
  }

  lemma InLineStep(s: Cluster, step: Step, v: Uuid, net: Network, line: seq<Uuid>)
    requires Enabled(s, step) && Inv(s) && Orderly(s, step, v) && InLine(s, v, net, line) && Serials(s.book)
    requires HasNet(s.book, v, net)
    ensures InLine(Apply(s, step), v, net, NextLine(s, step, v, line)) && Serials(Apply(s, step).book)
  {
    BookGrows(s, step);
    LineStep(s, step, v, net, line);
    CountingStep(s, step, v, net, line);
    SerialsStep(s, step);
  }

  ghost predicate OrderlyRun(s: Cluster, steps: seq<Step>, v: Uuid)
    requires Run(s, steps)
    decreases |steps|
  {
    steps == [] || (Orderly(s, steps[0], v) && OrderlyRun(Apply(s, steps[0]), steps[1..], v))
  }

  lemma {:induction false} InLineRun(s: Cluster, steps: seq<Step>, v: Uuid, net: Network, line: seq<Uuid>)
    returns (line': seq<Uuid>)
    requires Inv(s) && Run(s, steps) && OrderlyRun(s, steps, v) && InLine(s, v, net, line) && Serials(s.book)
    requires HasNet(After(s, steps).book, v, net)
    ensures InLine(After(s, steps), v, net, line')
    decreases |steps|
  {
    if steps == [] {
      line' := line;
    } else {
      NetBefore(s, steps, v, net);
      InLineStep(s, steps[0], v, net, line);
      InvStep(s, steps[0]);
      line' := InLineRun(Apply(s, steps[0]), steps[1..], v, net, NextLine(s, steps[0], v, line));
    }
  }

  /** The CIDR of a VPC never changes, so neither does its network. */
  lemma {:induction false} NetBefore(s: Cluster, steps: seq<Step>, v: Uuid, net: Network)
    requires NodesOwned(s) && Run(s, steps) && HasNet(After(s, steps).book, v, net)
    ensures HasNet(s.book, v, net)
    decreases |steps|
  {
    if steps != [] {
      NodesOwnedStep(s, steps[0]);
      BookGrows(s, steps[0]);
      NetBefore(Apply(s, steps[0]), steps[1..], v, net);
    }
  }

  /** Sequential allocation, over every run in which creates in v are serialised and
      only its newest instance is ever deleted, whatever happens elsewhere: the live
      instances of v, oldest first, hold the addresses with last bytes 11, 12, ...,
      10 + count; so they are distinct up to 256 instances. */
  lemma SequentialAddresses(steps: seq<Step>, v: Uuid)
    requires Run(INITIAL, steps) && OrderlyRun(INITIAL, steps, v)
    requires var b := After(INITIAL, steps).book;
             v in b.vpcs && ParseCidr(b.vpcs[v]).Ok?
    ensures var s := After(INITIAL, steps);
            var net, live := ParseCidr(s.book.vpcs[v]).value, InstancesOf(s.tables, v);
            && (exists line :: IsLine(s.book, s.tables, v, net, line) && |line| == |live|)
            && (forall x | x in live :: x in s.book.births)
            && (|live| <= 245 ==> forall x | x in live :: 11 <= s.book.births[x].ip.d <= 10 + |live|)
            && (|live| <= 256 ==> forall x, y | x in live && y in live && x != y ::
                  s.book.births[x].ip != s.book.births[y].ip)
  {
    InvInitial();
    var s := After(INITIAL, steps);
    var net := ParseCidr(s.book.vpcs[v]).value;
    assert InLine(INITIAL, v, net, []);
    var line := InLineRun(INITIAL, steps, v, net, []);
    LineCount(s.book, s.tables, v, net, line);
    LineDistinct(s.book, s.tables, v, net, line);
  }

  /** The position of a live instance in its line. */
  lemma PlaceInLine(b: Book, t: Tables, v: Uuid, net: Network, line: seq<Uuid>, x: Uuid) returns (i: nat)
    requires IsLine(b, t, v, net, line) && x in InstancesOf(t, v)
    ensures i < |line| && line[i] == x && x in b.births && b.births[x].ip == VmAddress(net, i)
  {
    assert x in line;
    i :| 0 <= i < |line| && line[i] == x;
  }

  lemma LineDistinct(b: Book, t: Tables, v: Uuid, net: Network, line: seq<Uuid>)
    requires IsLine(b, t, v, net, line)
    ensures |line| <= 245 ==> forall x | x in InstancesOf(t, v) ::
              x in b.births && 11 <= b.births[x].ip.d <= 10 + |line|
    ensures |line| <= 256 ==> forall x, y | x in InstancesOf(t, v) && y in InstancesOf(t, v) && x != y ::
              x in b.births && y in b.births && b.births[x].ip != b.births[y].ip
  {
    forall x | x in InstancesOf(t, v) && |line| <= 245 ensures x in b.births && 11 <= b.births[x].ip.d <= 10 + |line| {
      var i := PlaceInLine(b, t, v, net, line, x);
      LastByteOf(i);
    }
    forall x, y | x in InstancesOf(t, v) && y in InstancesOf(t, v) && x != y && |line| <= 256
      ensures x in b.births && y in b.births && b.births[x].ip != b.births[y].ip
    {
      var i := PlaceInLine(b, t, v, net, line, x);
      var j := PlaceInLine(b, t, v, net, line, y);
      SameVmAddress(net, i, j);
    }
  }

  /** Why only the newest: after one instance of a line of at most 256 is deleted, the
      next address to be allocated is held by a live instance exactly when the deleted
      one was not the newest. */
  lemma DeletionRepeatsAddress(b: Book, t: Tables, v: Uuid, net: Network, line: seq<Uuid>, k: nat)
    requires IsLine(b, t, v, net, line) && k < |line| <= 256
    ensures var t' := DeleteInstance(t, line[k]);
            var next := VmAddress(net, CountByVpc(t', v));
            (exists x :: x in InstancesOf(t', v) && x in b.births && b.births[x].ip == next) <==> k != |line| - 1
  {
    var t' := DeleteInstance(t, line[k]);
    var last := |line| - 1;
    LineCount(b, t, v, net, line);
    assert line[k] in InstancesOf(t, v);
    assert InstancesOf(t', v) == InstancesOf(t, v) - {line[k]};
    assert CountByVpc(t', v) == last;
    if k != last {
      assert line[last] in line && line[last] != line[k];
      assert line[last] in InstancesOf(t', v);
    } else {
      forall x | x in InstancesOf(t', v) ensures x in b.births && b.births[x].ip != VmAddress(net, last) {
        var i := PlaceInLine(b, t, v, net, line, x);
        SameVmAddress(net, i, last);
      }
    }
  }

  /** Why serialised: two creates in one VPC that both count before either inserts take
      the same address. */
  lemma InterleavedCreatesCollide(s: Cluster, p: OpId, q: OpId)
    requires p != q && Enabled(s, Count(p)) && Enabled(s, Count(q)) && OpsBorn(s.book, s.ops)
    requires s.ops[p].req.vpc == s.ops[q].req.vpc
    ensures var s' := Apply(s, Count(p));
            Enabled(s', Count(q)) && var s'' := Apply(s', Count(q));
            s''.ops[p].Counted? && s''.ops[q].Counted? && s''.ops[p].plan.ip == s''.ops[q].plan.ip
  {
    assert OpBorn(s.book, s.ops[p]) && OpBorn(s.book, s.ops[q]);
  }
}
