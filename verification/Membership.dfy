/** Which node consumes which stream: rendezvous hashing, and the reconciliation of a
    node's stream consumers with it
    (internal/cluster/membership.go, internal/eventstream/consumer.go). */
module Membership {
  import opened Stream

  type NodeId = nat

  /** Scores a node for a workload. Scores may collide. */
  type Hash = (Uuid, NodeId) -> nat

  datatype Membership = Membership(node: NodeId, isLive: bool, peers: set<NodeId>)

  /** Node n sees this of the live nodes. */
  function View(n: NodeId, live: set<NodeId>): Membership {
    Membership(n, n in live, live - {n})
  }

  predicate Beats(hash: Hash, workload: Uuid, a: NodeId, b: NodeId) {
    hash(workload, a) > hash(workload, b) || (hash(workload, a) == hash(workload, b) && a < b)
  }

  /** The node that is responsible for a workload: it beats all the others. */
  predicate Wins(hash: Hash, workload: Uuid, live: set<NodeId>, n: NodeId) {
    n in live && forall p :: p in live && p != n ==> Beats(hash, workload, n, p)
  }

  /** LocalNodeIsResponsibleFor. None is a nil membership. The peers come in any order. */
  method LocalNodeIsResponsibleFor(m: Option<Membership>, hash: Hash, workload: Uuid) returns (r: bool)
    requires m.Some? ==> m.value.node !in m.value.peers
    ensures r <==> m.Some? && m.value.isLive && Wins(hash, workload, m.value.peers + {m.value.node}, m.value.node)
    ensures r ==> forall p :: p in m.value.peers ==>
      hash(workload, p) <= hash(workload, m.value.node) &&
      (hash(workload, p) == hash(workload, m.value.node) ==> m.value.node < p)
    ensures !r && m.Some? && m.value.isLive ==>
      exists p :: p in m.value.peers && hash(workload, m.value.node) <= hash(workload, p) &&
                  (hash(workload, p) == hash(workload, m.value.node) ==> p < m.value.node)
  {
    if m.None? || !m.value.isLive {
      return false;
    }
    var Membership(node, _, peers) := m.value;
    var localScore := hash(workload, node);
    var left := peers;
    while left != {}
      invariant left <= peers
      invariant forall p :: p in peers - left ==> Beats(hash, workload, node, p)
      decreases left
    {
      var p :| p in left;
      left := left - {p};
      var peerScore := hash(workload, p);
      if peerScore > localScore {
        assert !Beats(hash, workload, node, p);
        return false;
      }
      if peerScore == localScore && p < node {
        assert !Beats(hash, workload, node, p);
        return false;
      }
    }
    return true;
  }

  /** Some node wins... */
  lemma {:induction false} SomeWinner(hash: Hash, workload: Uuid, live: set<NodeId>) returns (n: NodeId)
    requires live != {}
    ensures Wins(hash, workload, live, n)
    decreases live
  {
    var x :| x in live;
    n := x;
    var rest := live - {x};
    if rest != {} {
      var m := SomeWinner(hash, workload, rest);
      if Beats(hash, workload, m, x) {
        n := m;
      }
      forall p | p in live && p != n ensures Beats(hash, workload, n, p) {
        assert p == x || p == m || (p in rest && Beats(hash, workload, m, p));
      }
    } else {
      assert live == {x};
    }
  }

  /** ...and no other. */
  lemma {:induction false} OneWinner(hash: Hash, workload: Uuid, live: set<NodeId>, a: NodeId, b: NodeId)
    requires Wins(hash, workload, live, a) && Wins(hash, workload, live, b)
    ensures a == b
  {
  }

  /** A node that joins takes workloads only to itself: any other node has just those of
      its workloads that the new one does not win. */
  lemma {:induction false} JoinTakesToItself(hash: Hash, workload: Uuid, live: set<NodeId>, joins: NodeId, n: NodeId)
    requires joins !in live && n != joins
    ensures Wins(hash, workload, live + {joins}, n) <==>
      Wins(hash, workload, live, n) && !Wins(hash, workload, live + {joins}, joins)
  {
  }

  /** A node that leaves gives up only its own. */
  lemma {:induction false} LeaveGivesUpItsOwn(hash: Hash, workload: Uuid, live: set<NodeId>, leaves: NodeId, n: NodeId)
    requires leaves in live && n != leaves
    ensures Wins(hash, workload, live, n) <==>
      Wins(hash, workload, live - {leaves}, n) && !Wins(hash, workload, live, leaves)
  {
    assert live - {leaves} + {leaves} == live;
    JoinTakesToItself(hash, workload, live - {leaves}, leaves, n);
  }

  // ---- Stream consumers ------------------------------------------------------------------

  datatype Action = Start(stream: Uuid) | Stop(stream: Uuid)

  /** The streams being consumed after these actions. */
  function Active(trace: seq<Action>): set<Uuid> {
    if trace == [] then {}
    else
      var before, last := Active(trace[..|trace| - 1]), trace[|trace| - 1];
      if last.Start? then before + {last.stream} else before - {last.stream}
  }

  /** A stream is only ever started while it is not being consumed, and stopped while it is. */
  predicate Alternates(trace: seq<Action>) {
    if trace == [] then true
    else
      var init, last := trace[..|trace| - 1], trace[|trace| - 1];
      Alternates(init) && (last.Start? <==> last.stream !in Active(init))
  }

  lemma {:induction false} OneMore(trace: seq<Action>, a: Action)
    ensures Active(trace + [a]) == if a.Start? then Active(trace) + {a.stream} else Active(trace) - {a.stream}
    ensures Alternates(trace + [a]) <==> Alternates(trace) && (a.Start? <==> a.stream !in Active(trace))
  {
  }

  /** The streams whose workloads the node is responsible for. */
  function Responsible(hash: Hash, workload: Uuid -> Uuid, live: set<NodeId>, n: NodeId,
                       streams: set<Uuid>): set<Uuid> {
    set s | s in streams && Wins(hash, workload(s), live, n)
  }

  class Consumer {
    const node: NodeId
    const workload: Uuid -> Uuid
    var registered: set<Uuid>       // the keys of stopStreamConsumer
    var trace: seq<Action>

    ghost predicate Valid()
      reads this
    {
      registered == Active(trace) && Alternates(trace)
    }

    constructor (node: NodeId, workload: Uuid -> Uuid)
      ensures Valid() && registered == {} && trace == [] && this.node == node && this.workload == workload
    {
      this.node, this.workload, registered, trace := node, workload, {}, [];
    }

    method FindResponsible(hash: Hash, streams: set<Uuid>, live: set<NodeId>) returns (responsible: set<Uuid>)
      ensures responsible == Responsible(hash, workload, live, node, streams)
    {
      responsible := {};
      var left := streams;
      while left != {}
        invariant left <= streams
        invariant responsible == Responsible(hash, workload, live, node, streams - left)
        decreases left
      {
        var s :| s in left;
        var r := LocalNodeIsResponsibleFor(Some(View(node, live)), hash, workload(s));
        assert node in live ==> live - {node} + {node} == live;
        if r {
          responsible := responsible + {s};
        }
        left := left - {s};
      }
    }

    /** Stops every consumer whose stream is not in `keep`, and waits for it. */
    method StopOthers(keep: set<Uuid>)
      requires Valid()
      modifies this
      ensures Valid() && registered == old(registered) * keep
      ensures old(trace) <= trace && forall k :: |old(trace)| <= k < |trace| ==> trace[k].Stop?
    {
      var left := registered;
      while left != {}
        invariant Valid() && left <= old(registered)
        invariant registered == old(registered) * keep + left
        invariant old(trace) <= trace && forall k :: |old(trace)| <= k < |trace| ==> trace[k].Stop?
        decreases left
      {
        var s :| s in left;
        if s !in keep {
          OneMore(trace, Stop(s));
          registered := registered - {s};
          trace := trace + [Stop(s)];
        }
        left := left - {s};
      }
    }

    method StartMissing(responsible: set<Uuid>)
      requires Valid() && registered <= responsible
      modifies this
      ensures Valid() && registered == responsible
      ensures old(trace) <= trace && forall k :: |old(trace)| <= k < |trace| ==> trace[k].Start?
    {
      var left := responsible;
      while left != {}
        invariant Valid() && left <= responsible
        invariant registered == old(registered) + (responsible - left)
        invariant old(trace) <= trace && forall k :: |old(trace)| <= k < |trace| ==> trace[k].Start?
        decreases left
      {
        var s :| s in left;
        if s !in registered {
          OneMore(trace, Start(s));
          registered := registered + {s};
          trace := trace + [Start(s)];
        }
        left := left - {s};
      }
    }

    /** reconcile: afterwards exactly the streams that the node is responsible for are
        consumed; none is consumed twice at once, and all that is to stop has stopped
        before anything starts. `stopped` is how many actions there are by then. */
    method Reconcile(hash: Hash, streams: set<Uuid>, live: set<NodeId>) returns (stopped: nat)
      requires Valid()
      modifies this
      ensures Valid() && registered == Responsible(hash, workload, live, node, streams)
      ensures |old(trace)| <= stopped <= |trace| && old(trace) <= trace
      ensures forall k :: |old(trace)| <= k < stopped ==> trace[k].Stop?
      ensures forall k :: stopped <= k < |trace| ==> trace[k].Start?
    {
      var responsible := FindResponsible(hash, streams, live);
      StopOthers(responsible);
      stopped := |trace|;
      StartMissing(responsible);
    }
  }

  /** Once every live node has reconciled with the same streams and the same live nodes,
      exactly one of them consumes each stream. */
  lemma {:induction false} ConsumedOnce(hash: Hash, workload: Uuid -> Uuid, live: set<NodeId>, streams: set<Uuid>,
                                        s: Uuid)
    returns (n: NodeId)
    requires live != {} && s in streams
    ensures n in live && s in Responsible(hash, workload, live, n, streams)
    ensures forall m :: s in Responsible(hash, workload, live, m, streams) ==> m == n
  {
    n := SomeWinner(hash, workload(s), live);
    forall m | s in Responsible(hash, workload, live, m, streams) ensures m == n {
      OneWinner(hash, workload(s), live, m, n);
    }
  }
}
