/** The scheduler: the healthy node with the most free RAM. */
module Scheduling {
  import opened Wrappers
  import opened Schema
  import opened Stores

  class Scheduler {
    const nodes: NodeStore

    constructor (nodes: NodeStore)
      ensures this.nodes == nodes
    {
      this.nodes := nodes;
    }

    /** The first node of maximal free RAM among those with at least `minRam`. */
    method FirstBest(healthy: seq<Node>, minRam: int) returns (best: Option<nat>)
      ensures best.None? <==> forall i | 0 <= i < |healthy| :: RamFree(healthy[i].row) < minRam
      ensures best.Some? ==>
                && best.value < |healthy| && RamFree(healthy[best.value].row) >= minRam
                && (forall i | 0 <= i < |healthy| :: RamFree(healthy[i].row) <= RamFree(healthy[best.value].row))
                && (forall i | 0 <= i < best.value :: RamFree(healthy[i].row) < RamFree(healthy[best.value].row))
    {
      best := None;
      for i := 0 to |healthy|
        invariant best.None? <==> forall k | 0 <= k < i :: RamFree(healthy[k].row) < minRam
        invariant best.Some? ==>
                    && best.value < i && RamFree(healthy[best.value].row) >= minRam
                    && (forall k | 0 <= k < i :: RamFree(healthy[k].row) <= RamFree(healthy[best.value].row))
                    && (forall k | 0 <= k < best.value :: RamFree(healthy[k].row) < RamFree(healthy[best.value].row))
      {
        var n := healthy[i];
        if RamFree(n.row) < minRam {
          continue;
        }
        if best.None? || RamFree(n.row) > RamFree(healthy[best.value].row) {
          best := Some(i);
        }
      }
    }

    /** PickNode answers a fresh node whose free RAM is the true maximum, even though a
        node that never sent a heartbeat sorts first with a NULL read as 0; and it
        fails exactly when no fresh node has enough. */
    method PickNode(minRam: int, now: int) returns (r: Result<Node>)
      ensures var t := nodes.db.Contents();
              match r
              case Ok(n) =>
                && IsPick(t, n.id, minRam, now) && t.nodes[n.id] == n.row
                && RamFree(n.row) >= minRam
                && (forall m | m in t.nodes && Fresh(t.nodes[m], now) :: RamFree(t.nodes[m]) <= RamFree(n.row))
              case Err(e) =>
                && (forall n | n in t.nodes && Fresh(t.nodes[n], now) :: RamFree(t.nodes[n]) < minRam)
                && e == (if exists n :: n in t.nodes && Fresh(t.nodes[n], now) then NotEnoughRam else NoHealthyNode)
    {
      ghost var t := nodes.db.Contents();
      var healthy := nodes.GetHealthy(now);
      assert |healthy| > 0 ==> healthy[0].id in t.nodes && Fresh(t.nodes[healthy[0].id], now);
      assert (exists n :: n in t.nodes && Fresh(t.nodes[n], now)) ==> |healthy| > 0;
      if |healthy| == 0 {
        return Err(NoHealthyNode);
      }
      var best := FirstBest(healthy, minRam);
      if best.None? {
        forall n | n in t.nodes && Fresh(t.nodes[n], now) ensures RamFree(t.nodes[n]) < minRam {
          var i :| 0 <= i < |healthy| && healthy[i] == Node(n, t.nodes[n]);
        }
        return Err(NotEnoughRam);
      }
      forall n | n in t.nodes && Fresh(t.nodes[n], now)
        ensures RamFree(t.nodes[n]) <= RamFree(healthy[best.value].row)
      {
        var i :| 0 <= i < |healthy| && healthy[i] == Node(n, t.nodes[n]);
      }
      return Ok(healthy[best.value]);
    }
  }
}
