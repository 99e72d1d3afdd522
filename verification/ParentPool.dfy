/** parent_proxy.go: choosing a parent proxy. Whether a dial succeeds, what a probe measures and the random skips
    are nondeterministic. */
module ParentPool {
  import opened Wire

  predicate NoDuplicates(s: seq<nat>) {
    forall i, j :: 0 <= i < j < |s| ==> s[i] != s[j]
  }

  lemma {:induction false} NoDuplicatesAppend(s: seq<nat>, x: nat)
    requires NoDuplicates(s) && x !in s
    ensures NoDuplicates(s + [x])
  {
  }

  // ---------------------------------------------------------------- the pool of HTTP parents

  /** Every node in `available` is there once, in the order of the measured latencies. */
  predicate Ordered(latency: seq<nat>, ids: seq<nat>) {
    (forall i :: 0 <= i < |ids| ==> ids[i] < |latency|) &&
    forall i, j :: 0 <= i < j < |ids| ==> latency[ids[i]] <= latency[ids[j]]
  }

  /** Stable insertion: after every node that is not slower. */
  function Insert(latency: seq<nat>, ids: seq<nat>, x: nat): (r: seq<nat>)
    requires x < |latency| && forall i :: 0 <= i < |ids| ==> ids[i] < |latency|
  {
    if ids == [] || latency[ids[|ids| - 1]] <= latency[x] then ids + [x]
    else Insert(latency, ids[..|ids| - 1], x) + [ids[|ids| - 1]]
  }

  lemma {:induction false} InsertMembers(latency: seq<nat>, ids: seq<nat>, x: nat)
    requires x < |latency| && forall i :: 0 <= i < |ids| ==> ids[i] < |latency|
    ensures forall y :: y in Insert(latency, ids, x) <==> y == x || y in ids
  {
    if ids != [] && latency[ids[|ids| - 1]] > latency[x] {
      var n := |ids| - 1;
      InsertMembers(latency, ids[..n], x);
      assert ids == ids[..n] + [ids[n]];
    }
  }

  lemma {:induction false} AppendOrdered(latency: seq<nat>, r: seq<nat>, y: nat)
    requires Ordered(latency, r) && y < |latency| && forall i :: 0 <= i < |r| ==> latency[r[i]] <= latency[y]
    ensures Ordered(latency, r + [y])
  {
  }

  lemma {:induction false} InsertOrdered(latency: seq<nat>, ids: seq<nat>, x: nat)
    requires x < |latency| && Ordered(latency, ids)
    ensures Ordered(latency, Insert(latency, ids, x))
  {
    var n := |ids| - 1;
    if ids == [] || latency[ids[n]] <= latency[x] {
      AppendOrdered(latency, ids, x);
    } else {
      InsertOrdered(latency, ids[..n], x);
      var r := Insert(latency, ids[..n], x);
      InsertMembers(latency, ids[..n], x);
      forall i | 0 <= i < |r|
        ensures latency[r[i]] <= latency[ids[n]]
      {
        if r[i] != x {
          assert r[i] in r && r[i] in ids[..n];
          var j :| 0 <= j < n && ids[..n][j] == r[i];
        }
      }
      AppendOrdered(latency, r, ids[n]);
    }
  }

  lemma {:induction false} InsertDistinct(latency: seq<nat>, ids: seq<nat>, x: nat)
    requires x < |latency| && Ordered(latency, ids) && NoDuplicates(ids) && x !in ids
    ensures NoDuplicates(Insert(latency, ids, x))
  {
    if ids != [] && latency[ids[|ids| - 1]] > latency[x] {
      var n := |ids| - 1;
      InsertDistinct(latency, ids[..n], x);
      InsertMembers(latency, ids[..n], x);
      NoDuplicatesAppend(Insert(latency, ids[..n], x), ids[n]);
    }
  }

  function Without(ids: seq<nat>, x: nat): (r: seq<nat>)
    ensures forall i :: 0 <= i < |r| ==> r[i] in ids && r[i] != x
    ensures forall i :: 0 <= i < |ids| && ids[i] != x ==> ids[i] in r
  {
    if ids == [] then []
    else
      var n := |ids| - 1;
      Without(ids[..n], x) + if ids[n] == x then [] else [ids[n]]
  }

  lemma {:induction false} WithoutKeeps(latency: seq<nat>, ids: seq<nat>, x: nat)
    requires NoDuplicates(ids) && Ordered(latency, ids)
    ensures NoDuplicates(Without(ids, x)) && Ordered(latency, Without(ids, x))
  {
    if ids != [] {
      var n := |ids| - 1;
      WithoutKeeps(latency, ids[..n], x);
      if ids[n] != x { Extend(latency, ids, Without(ids[..n], x)); }
    }
  }

  lemma {:induction false} Extend(latency: seq<nat>, ids: seq<nat>, r: seq<nat>)
    requires ids != [] && NoDuplicates(ids) && Ordered(latency, ids) && NoDuplicates(r) && Ordered(latency, r)
    requires forall i :: 0 <= i < |r| ==> r[i] in ids[..|ids| - 1]
    ensures NoDuplicates(r + [ids[|ids| - 1]]) && Ordered(latency, r + [ids[|ids| - 1]])
  {
    forall i | 0 <= i < |r|
      ensures latency[r[i]] <= latency[ids[|ids| - 1]] && r[i] != ids[|ids| - 1]
    {
      var j :| 0 <= j < |ids| - 1 && ids[..|ids| - 1][j] == r[i];
    }
  }

  lemma {:induction false} NonEmpty(latency: seq<nat>, ids: seq<nat>)
    requires Ordered(latency, ids)
    ensures ids != [] ==> |latency| > 0
  {
    if ids != [] { assert ids[0] < |latency|; }
  }

  /** What probing every node gives. */
  datatype Probe = Probe(measured: seq<nat>, answered: seq<bool>) {
    predicate Fits(size: nat) {
      |measured| == size && |answered| == size
    }
  }

  /** The first `n` nodes that answered, in the order of their latencies. */
  function Ranked(probe: Probe, n: nat): (ids: seq<nat>)
    requires |probe.measured| == |probe.answered| && n <= |probe.measured|
    ensures forall i :: 0 <= i < |ids| ==> ids[i] < |probe.measured|
  {
    if n == 0 then []
    else
      var ids := Ranked(probe, n - 1);
      InsertMembers(probe.measured, ids, n - 1);
      if probe.answered[n - 1] then
        var r := Insert(probe.measured, ids, n - 1);
        assert forall i :: 0 <= i < |r| ==> r[i] in r;
        r
      else ids
  }

  lemma {:induction false} RankedKnown(probe: Probe, n: nat)
    requires |probe.measured| == |probe.answered| && n <= |probe.measured|
    ensures NoDuplicates(Ranked(probe, n)) && Ordered(probe.measured, Ranked(probe, n))
    ensures forall k: nat :: k in Ranked(probe, n) <==> k < n && probe.answered[k]
  {
    hide NoDuplicates, Ordered, Insert;
    if n == 0 {
      NothingRanked(probe.measured);
    } else {
      RankedKnown(probe, n - 1);
      var ids := Ranked(probe, n - 1);
      InsertMembers(probe.measured, ids, n - 1);
      InsertOrdered(probe.measured, ids, n - 1);
      InsertDistinct(probe.measured, ids, n - 1);
    }
  }

  lemma {:induction false} NothingRanked(latency: seq<nat>)
    ensures NoDuplicates([]) && Ordered(latency, [])
  {
  }

  /** Whether a node can be dialed. */
  predicate Works(reachable: seq<bool>, k: nat) {
    k < |reachable| && reachable[k]
  }

  lemma {:induction false} NoneRanked(probe: Probe)
    requires probe.Fits(0)
    ensures Ranked(probe, 0) == []
  {
  }

  /** How many of these nodes fail before one can be dialed. */
  function Failures(nodes: seq<nat>, reachable: seq<bool>): (n: nat)
    ensures n <= |nodes|
    ensures forall i :: 0 <= i < n ==> !Works(reachable, nodes[i])
    ensures n < |nodes| ==> Works(reachable, nodes[n])
  {
    if nodes == [] || Works(reachable, nodes[0]) then 0 else 1 + Failures(nodes[1..], reachable)
  }

  lemma {:induction false} FailuresAre(nodes: seq<nat>, reachable: seq<bool>, n: nat)
    requires n <= |nodes| && (forall i :: 0 <= i < n ==> !Works(reachable, nodes[i]))
    requires n < |nodes| ==> Works(reachable, nodes[n])
    ensures Failures(nodes, reachable) == n
  {
    if n > 0 { FailuresAre(nodes[1..], reachable, n - 1); }
  }

  /** A probe by the background goroutine, if there is one just now. */
  function Probed(available: seq<nat>, probe: Option<Probe>, size: nat): (ids: seq<nat>) {
    if probe.Some? && probe.value.Fits(size) then Ranked(probe.value, size) else available
  }

  /** What is available after the first `n` nodes have failed, when `probes(i)` comes before dial `i`. */
  function Availability(nodes: seq<nat>, start: seq<nat>, probes: nat -> Option<Probe>, size: nat, n: nat): (ids: seq<nat>)
    requires n <= |nodes|
  {
    if n == 0 then start
    else Without(Probed(Availability(nodes, start, probes, size, n - 1), probes(n - 1), size), nodes[n - 1])
  }

  /** The last probe between the dials `i` and `n` got an answer from this node. */
  predicate Readded(probes: nat -> Option<Probe>, size: nat, node: nat, i: nat, n: nat)
    decreases n
  {
    n > i + 1 &&
    if probes(n - 1).Some? && probes(n - 1).value.Fits(size) then node < size && probes(n - 1).value.answered[node]
    else Readded(probes, size, node, i, n - 1)
  }

  /** A node that failed is available again if and only if the last probe since then got an answer from it. */
  lemma {:induction false} FailedIsReadded(nodes: seq<nat>, start: seq<nat>, probes: nat -> Option<Probe>, size: nat,
                                           i: nat, n: nat)
    requires i < n <= |nodes| && NoDuplicates(nodes)
    ensures nodes[i] in Availability(nodes, start, probes, size, n) <==> Readded(probes, size, nodes[i], i, n)
    decreases n
  {
    hide Without, Ranked, NoDuplicates, Availability;
    var p, node := probes(n - 1), nodes[i];
    var before := Availability(nodes, start, probes, size, n - 1);
    AvailabilityStep(nodes, start, probes, size, n - 1);
    assert node == nodes[n - 1] <==> i == n - 1 by { Distinct(nodes, i, n - 1); }
    if p.Some? && p.value.Fits(size) { RankedKnown(p.value, size); }
    WithoutMembers(Probed(before, p, size), nodes[n - 1], node);
    if i + 1 < n { FailedIsReadded(nodes, start, probes, size, i, n - 1); }
  }

  lemma {:induction false} AvailabilityStep(nodes: seq<nat>, start: seq<nat>, probes: nat -> Option<Probe>, size: nat, n: nat)
    requires n < |nodes|
    ensures Availability(nodes, start, probes, size, n + 1) ==
            Without(Probed(Availability(nodes, start, probes, size, n), probes(n), size), nodes[n])
  {
  }

  lemma {:induction false} NobodyFailed(nodes: seq<nat>, probes: nat -> Option<Probe>, size: nat)
    ensures Availability(nodes, nodes, probes, size, 0) == nodes
  {
  }

  lemma {:induction false} Distinct(s: seq<nat>, i: nat, j: nat)
    requires NoDuplicates(s) && i < |s| && j < |s|
    ensures s[i] == s[j] <==> i == j
  {
  }

  lemma {:induction false} WithoutMembers(ids: seq<nat>, x: nat, k: nat)
    ensures k in Without(ids, x) <==> k in ids && k != x
  {
    if k in ids && k != x {
      var i :| 0 <= i < |ids| && ids[i] == k;
      assert ids[i] in Without(ids, x);
    }
    if k in Without(ids, x) {
      var i :| 0 <= i < |Without(ids, x)| && Without(ids, x)[i] == k;
      assert Without(ids, x)[i] in ids;
    }
  }

  /** Without a probe in between only the nodes that have not failed are left. */
  lemma {:induction false} NoneReadded(nodes: seq<nat>, probes: nat -> Option<Probe>, size: nat, n: nat)
    requires n <= |nodes| && NoDuplicates(nodes) && forall i :: 0 <= i < n ==> probes(i).None?
    ensures forall k :: k in Availability(nodes, nodes, probes, size, n) <==> k in nodes[n..]
  {
    if n > 0 {
      NoneReadded(nodes, probes, size, n - 1);
      NodesSplit(nodes, n - 1);
      var before := Availability(nodes, nodes, probes, size, n - 1);
      forall k ensures k in Without(before, nodes[n - 1]) <==> k in nodes[n..] {
        if k >= 0 { WithoutMembers(before, nodes[n - 1], k); }
      }
    }
  }

  class HttpPool {
    const size: nat
    var latency: seq<nat>
    var up: seq<bool>
    var available: seq<nat>
    ghost var dialed: seq<nat>  // the nodes whose dial failed, in order

    ghost predicate Valid() reads this {
      |latency| == size && |up| == size && NoDuplicates(available) && Ordered(latency, available) &&
      forall i :: 0 <= i < size ==> (up[i] <==> i in available)
    }

    constructor (size: nat)
      ensures Valid() && this.size == size && available == [] && dialed == []
    {
      this.size := size;
      latency := seq(size, i => 0);
      up := seq(size, i => false);
      available, dialed := [], [];
    }

    /** updateAvailable: exactly the nodes that answered the probe, fastest first. */
    method UpdateAvailable(probe: Probe)
      requires Valid() && probe.Fits(size)
      modifies this`latency, this`up, this`available
      ensures Valid() && latency == probe.measured && up == probe.answered
      ensures available == Ranked(probe, size)
    {
      hide Ordered, NoDuplicates;
      var list: seq<nat> := [];
      RankedKnown(probe, 0);
      for i := 0 to size
        invariant list == Ranked(probe, i)
      {
        RankedKnown(probe, i);
        if probe.answered[i] { list := Insert(probe.measured, list, i); }
      }
      RankedKnown(probe, size);
      latency, up, available := probe.measured, probe.answered, list;
    }

    /** markUnavailable */
    method MarkUnavailable(node: nat, latencyMax: nat)
      requires Valid() && node < size
      modifies this`latency, this`up, this`available
      ensures Valid() && available == Without(old(available), node)
      ensures up == old(up)[node := false] && latency == old(latency)[node := latencyMax]
    {
      var list: seq<nat> := [];
      for i := 0 to |available|
        invariant list == Without(available[..i], node)
      {
        assert available[..i + 1][..i] == available[..i];
        if available[i] != node { list := list + [available[i]]; }
      }
      assert available[..|available|] == available;
      WithoutKeeps(latency, available, node);
      available := list;
      up := up[node := false];
      latency := latency[node := latencyMax];
    }

    /** connect: the available nodes in order, probing again first when there is none; `reachable` tells which can be
        dialed, and `probes(i)` is what the background goroutine finds before dial `i`. */
    method Connect(latencyMax: nat, probe: Probe, probes: nat -> Option<Probe>, reachable: seq<bool>)
        returns (conn: Option<nat>, err: bool)
      requires Valid() && dialed == [] && probe.Fits(size)
      modifies this
      ensures Valid()
      ensures var nodes := if old(available) == [] then Ranked(probe, size) else old(available);
              var n := Failures(nodes, reachable);
              dialed == nodes[..n] && conn == (if n < |nodes| then Some(nodes[n]) else None) && (err <==> n == |nodes|) &&
              var left := Availability(nodes, nodes, probes, size, n);
              available == if n < |nodes| then Probed(left, probes(n), size) else left
      ensures conn.Some? ==> conn.value < size
    {
      hide Ordered, NoDuplicates, Failures, Ranked;
      if size == 0 {
        NonEmpty(latency, available);
        NoneRanked(probe);
        FailuresAre([], reachable, 0);
        return None, true;
      }
      var nodes := available;
      if |nodes| == 0 {
        UpdateAvailable(probe);
        nodes := available;
      }
      conn, err := DialInOrder(nodes, latencyMax, probes, reachable);
    }

    /** connect after whatever the background goroutine found before. */
    method ConnectIn(latencyMax: nat, w: Weather) returns (conn: Option<nat>, err: bool)
      requires Valid() && dialed == [] && w.probe.Fits(size)
      modifies this
      ensures Valid() && conn == NodeOf(old(available), size, w) && (err <==> conn == None)
    {
      hide Ordered, NoDuplicates, Failures, Ranked, Availability, Probed;
      Background(w.before);
      conn, err := Connect(latencyMax, w.probe, w.probes, w.reachable);
    }

    /** The loop of connect, over a copy of what was available. */
    method DialInOrder(nodes: seq<nat>, latencyMax: nat, probes: nat -> Option<Probe>, reachable: seq<bool>)
        returns (conn: Option<nat>, err: bool)
      requires Valid() && dialed == [] && nodes == available
      modifies this
      ensures Valid()
      ensures var n := Failures(nodes, reachable);
              dialed == nodes[..n] && conn == (if n < |nodes| then Some(nodes[n]) else None) && (err <==> n == |nodes|) &&
              var left := Availability(nodes, nodes, probes, size, n);
              available == if n < |nodes| then Probed(left, probes(n), size) else left
      ensures conn.Some? ==> conn.value < size
    {
      hide Ordered, NoDuplicates, Failures, Ranked, Availability, Without, Probed;
      InRange(latency, nodes);
      assert Availability(nodes, nodes, probes, size, 0) == nodes by { NobodyFailed(nodes, probes, size); }
      for i := 0 to |nodes|
        invariant Valid() && dialed == nodes[..i]
        invariant available == Availability(nodes, nodes, probes, size, i)
        invariant forall k :: 0 <= k < i ==> !Works(reachable, nodes[k])
      {
        NodesSplit(nodes, i);
        Background(probes(i));
        if Works(reachable, nodes[i]) {
          FailuresAre(nodes, reachable, i);
          return Some(nodes[i]), false;
        }
        MarkUnavailable(nodes[i], latencyMax);
        AvailabilityStep(nodes, nodes, probes, size, i);
        dialed := dialed + [nodes[i]];
      }
      assert nodes[..|nodes|] == nodes;
      FailuresAre(nodes, reachable, |nodes|);
      return None, true;
    }

    /** A round of the goroutine that start begins, if it comes just now. */
    method Background(probe: Option<Probe>)
      requires Valid()
      modifies this`latency, this`up, this`available
      ensures Valid() && available == Probed(old(available), probe, size)
    {
      hide Ordered, NoDuplicates, Ranked;
      if probe.Some? && probe.value.Fits(size) { UpdateAvailable(probe.value); }
    }
  }

  lemma {:induction false} InRange(latency: seq<nat>, ids: seq<nat>)
    requires Ordered(latency, ids)
    ensures forall i :: 0 <= i < |ids| ==> ids[i] < |latency|
  {
  }

  lemma {:induction false} NodesSplit(nodes: seq<nat>, i: nat)
    requires i < |nodes|
    ensures nodes[i..] == [nodes[i]] + nodes[i + 1..] && nodes[..i + 1] == nodes[..i] + [nodes[i]]
    ensures NoDuplicates(nodes) ==> nodes[i] !in nodes[i + 1..]
  {
  }

  // ---------------------------------------------------------------- the order of the other pools

  /** Going round from `start`. */
  function Place(n: nat, start: nat, i: nat): (k: nat)
    requires start < n && i < n
    ensures k < n && k == (start + i) % n
  {
    ModOnce(n, start + i);
    if start + i < n then start + i else start + i - n
  }

  lemma {:induction false} ModOnce(n: nat, k: nat)
    requires 0 < n && k < 2 * n
    ensures k % n == if k < n then k else k - n
  {
  }

  /** How far from `start` a parent is, going round. */
  function Distance(n: nat, start: nat, k: nat): (d: nat)
    requires start < n && k < n
    ensures d < n && Place(n, start, d) == k
  {
    if k >= start then k - start else k + n - start
  }

  /** To connect through one parent, or through the pool that stands for all HTTP parents. */
  datatype Attempt = AskParent(id: nat) | AskPool

  /** What the first loop has tried after `i` rounds, when all of it failed. */
  function First(http: seq<bool>, start: nat, aside: set<nat>, i: nat): (a: seq<Attempt>)
    requires start < |http| && i <= |http|
  {
    if i == 0 then []
    else
      var a, k := First(http, start, aside, i - 1), Place(|http|, start, i - 1);
      if http[k] then (if AskPool in a then a else a + [AskPool])
      else if k in aside then a
      else a + [AskParent(k)]
  }

  /** The parents that it has put aside. */
  function Second(http: seq<bool>, start: nat, aside: set<nat>, i: nat): (ids: seq<nat>)
    requires start < |http| && i <= |http|
    ensures forall j :: 0 <= j < |ids| ==> ids[j] < |http| && !http[ids[j]]
  {
    if i == 0 then []
    else
      var k := Place(|http|, start, i - 1);
      Second(http, start, aside, i - 1) + if !http[k] && k in aside then [k] else []
  }

  function Asking(ids: seq<nat>): (a: seq<Attempt>) {
    seq(|ids|, i requires 0 <= i < |ids| => AskParent(ids[i]))
  }

  /** The attempts of both loops, as long as all of them fail. */
  function Plan(http: seq<bool>, start: nat, aside: set<nat>): (a: seq<Attempt>)
    requires start < |http|
  {
    First(http, start, aside, |http|) + Asking(Second(http, start, aside, |http|))
  }

  /** How far from `start` the first HTTP parent is; the number of parents if there is none. */
  function Nearest(http: seq<bool>, start: nat, i: nat): (d: nat)
    requires start < |http| && i <= |http|
    ensures i <= d <= |http| && (d < |http| ==> http[Place(|http|, start, d)])
    ensures forall j :: i <= j < d ==> !http[Place(|http|, start, j)]
    decreases |http| - i
  {
    if i == |http| || http[Place(|http|, start, i)] then i else Nearest(http, start, i + 1)
  }

  /** When an attempt is due: in the round of its parent, the pool in that of the first HTTP parent; a parent that was
      put aside only after a whole round. */
  function Rank(http: seq<bool>, start: nat, aside: set<nat>, a: Attempt): (r: nat)
    requires start < |http| && (a.AskParent? ==> a.id < |http|)
  {
    match a
    case AskPool => Nearest(http, start, 0)
    case AskParent(k) => Distance(|http|, start, k) + if k in aside then |http| else 0
  }

  predicate Ranks(http: seq<bool>, start: nat, aside: set<nat>, a: seq<Attempt>)
    requires start < |http|
  {
    (forall i :: 0 <= i < |a| ==> a[i].AskParent? ==> a[i].id < |http|) &&
    forall i, j :: 0 <= i < j < |a| ==> Rank(http, start, aside, a[i]) < Rank(http, start, aside, a[j])
  }

  lemma {:induction false} PlaceOnce(n: nat, start: nat, i: nat)
    requires start < n && i < n
    ensures Distance(n, start, Place(n, start, i)) == i
    ensures forall k: nat :: k < n && k != Place(n, start, i) ==> Distance(n, start, k) != i
  {
  }

  lemma {:induction false} FirstMembers(http: seq<bool>, start: nat, aside: set<nat>, i: nat)
    requires start < |http| && i <= |http|
    ensures var a := First(http, start, aside, i);
            (forall k: nat :: AskParent(k) in a <==>
              k < |http| && !http[k] && k !in aside && Distance(|http|, start, k) < i) &&
            (AskPool in a <==> Nearest(http, start, 0) < i)
  {
    hide Place, Distance, Nearest;
    if i > 0 {
      FirstMembers(http, start, aside, i - 1);
      PlaceOnce(|http|, start, i - 1);
      NearestIs(http, start, i - 1);
    }
  }

  lemma {:induction false} NearestIs(http: seq<bool>, start: nat, i: nat)
    requires start < |http| && i < |http|
    ensures var d := Nearest(http, start, 0);
            (http[Place(|http|, start, i)] && d >= i ==> d == i) && (!http[Place(|http|, start, i)] ==> d != i)
  {
    hide Place;
  }

  lemma {:induction false} FirstRanks(http: seq<bool>, start: nat, aside: set<nat>, i: nat)
    requires start < |http| && i <= |http|
    ensures var a := First(http, start, aside, i);
            Ranks(http, start, aside, a) && forall j :: 0 <= j < |a| ==> Rank(http, start, aside, a[j]) < i
  {
    hide Place, Distance, Nearest;
    if i > 0 {
      FirstRanks(http, start, aside, i - 1);
      FirstMembers(http, start, aside, i - 1);
      PlaceOnce(|http|, start, i - 1);
      NearestIs(http, start, i - 1);
    }
  }

  lemma {:induction false} SecondKnown(http: seq<bool>, start: nat, aside: set<nat>, i: nat)
    requires start < |http| && i <= |http|
    ensures var s := Second(http, start, aside, i);
            (forall j, k :: 0 <= j < k < |s| ==> Distance(|http|, start, s[j]) < Distance(|http|, start, s[k])) &&
            (forall j :: 0 <= j < |s| ==> Distance(|http|, start, s[j]) < i) &&
            forall k: nat :: k in s <==> k < |http| && !http[k] && k in aside && Distance(|http|, start, k) < i
  {
    if i > 0 {
      SecondKnown(http, start, aside, i - 1);
      PlaceOnce(|http|, start, i - 1);
    }
  }

  lemma {:induction false} AskingKnown(ids: seq<nat>)
    ensures forall k :: AskParent(k) in Asking(ids) <==> k in ids
    ensures AskPool !in Asking(ids)
  {
    forall k | k in ids
      ensures AskParent(k) in Asking(ids)
    {
      var i :| 0 <= i < |ids| && ids[i] == k;
      assert Asking(ids)[i] == AskParent(k);
    }
  }

  /** Who is asked: every parent that is not an HTTP parent, and the pool if there is an HTTP parent. */
  lemma {:induction false} PlanAsks(http: seq<bool>, start: nat, aside: set<nat>)
    requires start < |http|
    ensures var plan := Plan(http, start, aside);
            plan != [] && (forall k: nat :: AskParent(k) in plan <==> k < |http| && !http[k]) &&
                (AskPool in plan <==> true in http)
  {
    hide First, Second, Asking, Rank, Ranks;
    FirstMembers(http, start, aside, |http|);
    SecondKnown(http, start, aside, |http|);
    AskingKnown(Second(http, start, aside, |http|));
    var d := Nearest(http, start, 0);
    if true in http {
      var k :| 0 <= k < |http| && http[k];
      assert Place(|http|, start, Distance(|http|, start, k)) == k;
    }
    if http[0] { assert true in http; } else { assert AskParent(0) in Plan(http, start, aside); }
  }

  /** In which order: every attempt is due later than the one before it, so that none is made twice. */
  lemma {:induction false} PlanIsOrdered(http: seq<bool>, start: nat, aside: set<nat>)
    requires start < |http|
    ensures Ranks(http, start, aside, Plan(http, start, aside))
  {
    hide First, Second;
    FirstRanks(http, start, aside, |http|);
    SecondKnown(http, start, aside, |http|);
    var a, s := First(http, start, aside, |http|), Second(http, start, aside, |http|);
    forall j | 0 <= j < |s|
      ensures s[j] in aside
    {
      assert s[j] in s;
    }
  }

  lemma {:induction false} NoneTwice(http: seq<bool>, start: nat, aside: set<nat>, i: nat, j: nat)
    requires start < |http| && i < j < |Plan(http, start, aside)|
    ensures Plan(http, start, aside)[i] != Plan(http, start, aside)[j]
  {
    hide Plan, Rank;
    PlanIsOrdered(http, start, aside);
  }

  /** From the last of three, an HTTP parent, with the second put aside: the pool, the first, and only then the second. */
  lemma {:induction false} PlanOfThree()
    ensures Plan([false, false, true], 2, {1}) == [AskPool, AskParent(0), AskParent(1)]
  {
    hide First, Second, Asking, Place;
    var http := [false, false, true];
    assert Place(3, 2, 0) == 2 && Place(3, 2, 1) == 0 && Place(3, 2, 2) == 1 by {
      PlaceOnce(3, 2, 0);
      PlaceOnce(3, 2, 1);
      PlaceOnce(3, 2, 2);
    }
    NothingYet(http, 2, {1}, _ => false, None);
    FirstStep(http, 2, {1}, 0);
    FirstStep(http, 2, {1}, 1);
    FirstStep(http, 2, {1}, 2);
    assert Second(http, 2, {1}, 3) == [1];
    AskingOne(1);
  }

  lemma {:induction false} AskingOne(k: nat)
    ensures Asking([k]) == [AskParent(k)]
  {
  }

  /** What the pool of HTTP parents meets during one connect: a background probe before it, its own probe if no node is
      available, background probes before its dials, and which nodes can be dialed. */
  datatype Weather = Weather(before: Option<Probe>, probe: Probe, probes: nat -> Option<Probe>, reachable: seq<bool>)

  /** The node it connects to. */
  function NodeOf(available: seq<nat>, size: nat, w: Weather): (node: Option<nat>)
    requires w.probe.Fits(size)
  {
    var known := Probed(available, w.before, size);
    var nodes := if known == [] then Ranked(w.probe, size) else known;
    var n := Failures(nodes, w.reachable);
    if n < |nodes| then Some(nodes[n]) else None
  }

  /** It is the first that can be dialed, of those available or, if there are none, of those that answer a probe. */
  lemma {:induction false} NodeDecides(available: seq<nat>, w: Weather, size: nat)
    requires w.before.None? && w.probe.Fits(size)
    ensures var node := NodeOf(available, size, w);
            (available != [] ==> (node.None? <==> forall k :: k in available ==> k >= |w.reachable| || !w.reachable[k])) &&
            (available == [] ==>
              (node.None? <==> forall k: nat :: k < size && w.probe.answered[k] ==> k >= |w.reachable| || !w.reachable[k])) &&
            (node.Some? ==> node.value < |w.reachable| && w.reachable[node.value])
  {
    hide Ranked, Failures;
    RankedKnown(w.probe, size);
    var nodes := if available == [] then Ranked(w.probe, size) else available;
    var n := Failures(nodes, w.reachable);
    assert n < |nodes| ==> nodes[n] in nodes;
  }

  datatype Target = Parent(id: nat) | HttpNode(node: nat)

  /** What an attempt leads to. */
  function Reached(a: Attempt, works: nat -> bool, node: Option<nat>): (t: Option<Target>) {
    match a
    case AskParent(k) => if works(k) then Some(Parent(k)) else None
    case AskPool => if node.Some? then Some(HttpNode(node.value)) else None
  }

  /** All of these attempts failed. */
  predicate AllFail(a: seq<Attempt>, works: nat -> bool, node: Option<nat>) {
    forall i :: 0 <= i < |a| ==> Reached(a[i], works, node).None?
  }

  /** A connection is that of the last attempt, the first to succeed; without one the whole plan has failed. */
  ghost predicate Settled(plan: seq<Attempt>, works: nat -> bool, node: Option<nat>, a: seq<Attempt>, conn: Option<Target>,
                          err: bool) {
    |a| <= |plan| && a == plan[..|a|] && (conn.Some? <==> !err) &&
    if err then a == plan && AllFail(a, works, node)
    else a != [] && AllFail(a[..|a| - 1], works, node) && conn == Reached(a[|a| - 1], works, node)
  }

  /** There is an error exactly when nobody could be connected to: no parent that is not an HTTP parent, and no node of
      the pool if there is an HTTP parent. */
  lemma {:induction false} ErrorMeansNobody(http: seq<bool>, start: nat, aside: set<nat>, works: nat -> bool, node: Option<nat>,
                                            a: seq<Attempt>, conn: Option<Target>, err: bool)
    requires start < |http| && Settled(Plan(http, start, aside), works, node, a, conn, err)
    ensures err <==> (forall k: nat :: k < |http| && !http[k] ==> !works(k)) && (true in http ==> node.None?)
  {
    hide Plan;
    var plan := Plan(http, start, aside);
    PlanAsks(http, start, aside);
    if err {
      forall k: nat | k < |http| && !http[k]
        ensures !works(k)
      {
        var i :| 0 <= i < |plan| && plan[i] == AskParent(k);
      }
      if AskPool in plan { var i :| 0 <= i < |plan| && plan[i] == AskPool; }
    } else {
      assert a[|a| - 1] == plan[|a| - 1] && plan[|a| - 1] in plan;
    }
  }

  lemma {:induction false} SettledBy(plan: seq<Attempt>, works: nat -> bool, node: Option<nat>, before: seq<Attempt>,
                                     x: Attempt)
    requires before + [x] <= plan && AllFail(before, works, node) && Reached(x, works, node).Some?
    ensures Settled(plan, works, node, before + [x], Reached(x, works, node), false)
  {
    assert (before + [x])[..|before|] == before;
  }

  lemma {:induction false} FirstGrows(http: seq<bool>, start: nat, aside: set<nat>, i: nat, j: nat)
    requires start < |http| && i <= j <= |http|
    ensures First(http, start, aside, i) <= First(http, start, aside, j)
    decreases j
  {
    if i < j { FirstGrows(http, start, aside, i, j - 1); }
  }

  /** A success in round `i`. */
  lemma {:induction false} FirstSettles(http: seq<bool>, start: nat, aside: set<nat>, i: nat, works: nat -> bool,
                                        node: Option<nat>, x: Attempt)
    requires start < |http| && i < |http| && Reached(x, works, node).Some?
    requires var a := First(http, start, aside, i);
             First(http, start, aside, i + 1) == a + [x] && AllFail(a, works, node)
    ensures Settled(Plan(http, start, aside), works, node, First(http, start, aside, i) + [x], Reached(x, works, node), false)
  {
    hide First, Reached;
    FirstGrows(http, start, aside, i + 1, |http|);
    SettledBy(Plan(http, start, aside), works, node, First(http, start, aside, i), x);
  }

  /** The parents put aside, some of which have been tried again. */
  lemma {:induction false} SecondIsPart(http: seq<bool>, start: nat, aside: set<nat>, j: nat)
    requires start < |http| && j < |Second(http, start, aside, |http|)|
    ensures var s := Second(http, start, aside, |http|);
            First(http, start, aside, |http|) + Asking(s[..j]) + [AskParent(s[j])] <= Plan(http, start, aside) &&
            Asking(s[..j + 1]) == Asking(s[..j]) + [AskParent(s[j])]
  {
    hide First, Second;
    var a, s := First(http, start, aside, |http|), Second(http, start, aside, |http|);
    assert Asking(s) == Asking(s[..j]) + [AskParent(s[j])] + Asking(s[j + 1..]);
    assert Plan(http, start, aside) == a + Asking(s[..j]) + [AskParent(s[j])] + Asking(s[j + 1..]);
  }

  lemma {:induction false} NothingAsked(a: seq<Attempt>, ids: seq<nat>)
    ensures a + Asking(ids[..0]) == a && ids[..|ids|] == ids
  {
  }

  /** What all failed is settled with an error. */
  lemma {:induction false} AllFailed(plan: seq<Attempt>, works: nat -> bool, node: Option<nat>)
    requires AllFail(plan, works, node)
    ensures Settled(plan, works, node, plan, None, true)
  {
  }

  lemma {:induction false} OneMoreFails(a: seq<Attempt>, x: Attempt, works: nat -> bool, node: Option<nat>)
    requires AllFail(a, works, node) && Reached(x, works, node).None?
    ensures AllFail(a + [x], works, node)
  {
  }

  // ---------------------------------------------------------------- the pool that counts failures

  /** The parents that are put aside: those that have failed, unless a random number below their count and nine is
      zero; `draws` gives the random numbers. */
  function PutAside(fail: seq<nat>, draws: nat -> nat): (ids: set<nat>) {
    set k: nat | k < |fail| && fail[k] > 0 && draws(k) % (fail[k] + BASE_FAIL_COUNT) != 0
  }

  /** The count of a parent after it was asked. */
  function Counted(fail: nat, works: bool, networkBad: bool): (n: nat) {
    if works then 0 else if fail < MAX_FAIL_COUNT && !networkBad then fail + 1 else fail
  }

  const MAX_FAIL_COUNT: nat := 30
  const BASE_FAIL_COUNT: nat := 9

  /** A pool of parents; those that speak HTTP are represented by one shared pool. `attempts` records what one connect
      has tried. */
  class OrderedPool {
    const http: seq<bool>
    const fail: array<nat>
    const httpPool: HttpPool
    ghost var attempts: seq<Attempt>

    ghost predicate Valid() reads this, fail, httpPool {
      fail.Length == |http| && httpPool.Valid() && forall i :: 0 <= i < fail.Length ==> fail[i] <= 30
    }

    constructor (http: seq<bool>, httpPool: HttpPool)
      requires httpPool.Valid()
      ensures Valid() && this.http == http && this.httpPool == httpPool && attempts == []
    {
      this.http, this.httpPool := http, httpPool;
      fail := new nat[|http|](i => 0);
      attempts := [];
    }

    /** ParentWithFail.connect; `works` tells whether the parent can be connected to. */
    method Try(k: nat, works: bool, networkBad: bool) returns (err: bool)
      requires Valid() && k < |http|
      modifies fail, this`attempts
      ensures Valid() && err == !works && attempts == old(attempts) + [AskParent(k)]
      ensures forall i :: 0 <= i < fail.Length && i != k ==> fail[i] == old(fail[i])
      ensures fail[k] == Counted(old(fail[k]), works, networkBad)
    {
      err := !works;
      if err {
        if fail[k] < MAX_FAIL_COUNT && !networkBad { fail[k] := fail[k] + 1; }
      } else {
        fail[k] := 0;
      }
      attempts := attempts + [AskParent(k)];
    }

    /** The counts after the attempts so far. */
    ghost predicate CountsAre(before: seq<nat>, works: nat -> bool, bad: nat -> bool) reads this, fail {
      fail.Length == |before| &&
      forall k :: 0 <= k < |before| ==>
        fail[k] == if AskParent(k) in attempts then Counted(before[k], works(k), bad(k)) else before[k]
    }

    /** connectInOrder, with everything that is left to chance as a parameter: the random numbers, which parents can be
        connected to, whether the network is bad when they fail, and what the pool of HTTP parents meets. */
    method ConnectInOrder(start: nat, draws: nat -> nat, works: nat -> bool, bad: nat -> bool, w: Weather)
        returns (conn: Option<Target>, err: bool)
      requires Valid() && (|http| > 0 ==> start < |http|) && w.probe.Fits(httpPool.size)
      requires attempts == [] && httpPool.dialed == []
      modifies this`attempts, fail, httpPool
      ensures Valid()
      ensures |http| == 0 ==> err && conn == None && attempts == []
      ensures |http| > 0 ==>
                Settled(Plan(http, start, PutAside(old(fail[..]), draws)), works,
                        NodeOf(old(httpPool.available), httpPool.size, w), attempts, conn, err)
      ensures forall k :: 0 <= k < |http| ==>
                fail[k] == if AskParent(k) !in attempts then old(fail[k])
                           else if works(k) then 0
                           else if old(fail[k]) < 30 && !bad(k) then old(fail[k]) + 1
                           else old(fail[k])
    {
      hide Plan, Settled, PutAside, NodeOf, AllFail, First, Second;
      if |http| == 0 { return None, true; }
      ghost var aside, node := PutAside(fail[..], draws), NodeOf(httpPool.available, httpPool.size, w);
      ghost var before := fail[..];
      var skipped;
      conn, err, skipped := FirstRound(start, draws, works, bad, w);
      if conn.None? {
        conn, err := TrySkipped(skipped, start, aside, works, bad, node, before, err);
      }
    }

    /** The first loop of connectInOrder. */
    method FirstRound(start: nat, draws: nat -> nat, works: nat -> bool, bad: nat -> bool, w: Weather)
        returns (conn: Option<Target>, err: bool, skipped: seq<nat>)
      requires Valid() && start < |http| && w.probe.Fits(httpPool.size) && attempts == [] && httpPool.dialed == []
      modifies this`attempts, fail, httpPool
      ensures Valid() && CountsAre(old(fail[..]), works, bad)
      ensures var aside, node := PutAside(old(fail[..]), draws), NodeOf(old(httpPool.available), httpPool.size, w);
              if conn.Some? then Settled(Plan(http, start, aside), works, node, attempts, conn, err)
              else attempts == First(http, start, aside, |http|) && skipped == Second(http, start, aside, |http|) &&
                   AllFail(attempts, works, node) && (attempts != [] ==> err)
    {
      hide Place, NodeOf, PutAside, Settled, Plan, Reached, AllFail, First;
      ghost var before := fail[..];
      ghost var aside, node := PutAside(before, draws), NodeOf(httpPool.available, httpPool.size, w);
      ghost var available := httpPool.available;
      var n := |http|;
      conn, err, skipped := None, false, [];
      var triedHTTPParentPool := false;
      NothingYet(http, start, aside, works, node);
      for i := 0 to n
        invariant Valid() && CountsAre(before, works, bad) && conn == None
        invariant attempts == First(http, start, aside, i) && skipped == Second(http, start, aside, i)
        invariant AllFail(attempts, works, node) && (attempts != [] ==> err)
        invariant triedHTTPParentPool <==> AskPool in attempts
        invariant !triedHTTPParentPool ==> httpPool.dialed == [] && httpPool.available == available
      {
        var id := Place(n, start, i);
        FirstStep(http, start, aside, i);
        if http[id] {
          if triedHTTPParentPool { continue; }
          triedHTTPParentPool := true;
          conn, err := TryHttpPool(works, w);
          if !err {
            FirstSettles(http, start, aside, i, works, node, AskPool);
            return;
          }
          OneMoreFails(First(http, start, aside, i), AskPool, works, node);
          continue;
        }
        Drawn(before, draws, id);
        if fail[id] > 0 && draws(id) % (fail[id] + BASE_FAIL_COUNT) != 0 {
          skipped := skipped + [id];
        } else {
          err := Try(id, works(id), bad(id));
          Asks(works, node, id);
          if !err {
            FirstSettles(http, start, aside, i, works, node, AskParent(id));
            return Some(Parent(id)), false, skipped;
          }
          OneMoreFails(First(http, start, aside, i), AskParent(id), works, node);
        }
      }
    }

    method TryHttpPool(works: nat -> bool, w: Weather) returns (conn: Option<Target>, err: bool)
      requires Valid() && httpPool.dialed == [] && w.probe.Fits(httpPool.size)
      modifies this`attempts, httpPool
      ensures Valid() && attempts == old(attempts) + [AskPool]
      ensures conn == Reached(AskPool, works, NodeOf(old(httpPool.available), httpPool.size, w)) && (conn.Some? <==> !err)
    {
      var node;
      node, err := httpPool.ConnectIn(LATENCY_MAX, w);
      attempts := attempts + [AskPool];
      conn := if err then None else Some(HttpNode(node.value));
    }

    /** The last resort: the parents that were put aside, in order. */
    method TrySkipped(skipped: seq<nat>, ghost start: nat, ghost aside: set<nat>, works: nat -> bool, bad: nat -> bool,
                      ghost node: Option<nat>, ghost before: seq<nat>, err0: bool) returns (conn: Option<Target>, err: bool)
      requires Valid() && start < |http| && CountsAre(before, works, bad)
      requires attempts == First(http, start, aside, |http|) && skipped == Second(http, start, aside, |http|)
      requires AllFail(attempts, works, node) && (attempts != [] ==> err0)
      modifies this`attempts, fail
      ensures Valid() && CountsAre(before, works, bad)
      ensures Settled(Plan(http, start, aside), works, node, attempts, conn, err)
    {
      hide Settled, Plan, Reached, AllFail, First, Second, Asking;
      conn, err := None, err0;
      ghost var first := attempts;
      NothingAsked(first, skipped);
      PlanAsks(http, start, aside);
      PlanParts(http, start, aside);
      for j := 0 to |skipped|
        invariant Valid() && CountsAre(before, works, bad) && conn == None
        invariant attempts == first + Asking(skipped[..j])
        invariant AllFail(attempts, works, node) && (attempts != [] ==> err)
      {
        var k := skipped[j];
        SecondIsPart(http, start, aside, j);
        NotYet(http, start, aside, attempts, AskParent(k));
        err := Try(k, works(k), bad(k));
        Asks(works, node, k);
        assert attempts == first + Asking(skipped[..j + 1]);
        if !err {
          SettledBy(Plan(http, start, aside), works, node, first + Asking(skipped[..j]), AskParent(k));
          return Some(Parent(k)), false;
        }
        OneMoreFails(first + Asking(skipped[..j]), AskParent(k), works, node);
      }
      AllFailed(attempts, works, node);
    }
  }

  lemma {:induction false} PlanParts(http: seq<bool>, start: nat, aside: set<nat>)
    requires start < |http|
    ensures Plan(http, start, aside) == First(http, start, aside, |http|) + Asking(Second(http, start, aside, |http|))
  {
  }

  lemma {:induction false} NothingYet(http: seq<bool>, start: nat, aside: set<nat>, works: nat -> bool, node: Option<nat>)
    requires start < |http|
    ensures First(http, start, aside, 0) == [] && Second(http, start, aside, 0) == [] && AllFail([], works, node)
  {
  }

  /** What the next round adds. */
  lemma {:induction false} FirstStep(http: seq<bool>, start: nat, aside: set<nat>, i: nat)
    requires start < |http| && i < |http|
    ensures var a, k := First(http, start, aside, i), Place(|http|, start, i);
            First(http, start, aside, i + 1) == (if http[k] then (if AskPool in a then a else a + [AskPool])
                                                 else if k in aside then a else a + [AskParent(k)]) &&
            Second(http, start, aside, i + 1) ==
              Second(http, start, aside, i) + (if !http[k] && k in aside then [k] else []) &&
            (!http[k] ==> AskParent(k) !in a)
  {
    hide Place;
    FirstMembers(http, start, aside, i);
    PlaceOnce(|http|, start, i);
  }

  lemma {:induction false} Asks(works: nat -> bool, node: Option<nat>, k: nat)
    ensures Reached(AskParent(k), works, node) == if works(k) then Some(Parent(k)) else None
  {
  }

  lemma {:induction false} Drawn(fail: seq<nat>, draws: nat -> nat, k: nat)
    requires k < |fail|
    ensures k in PutAside(fail, draws) <==> fail[k] > 0 && draws(k) % (fail[k] + 9) != 0
  {
  }

  /** An attempt of the plan was not made before. */
  lemma {:induction false} NotYet(http: seq<bool>, start: nat, aside: set<nat>, before: seq<Attempt>, x: Attempt)
    requires start < |http| && before + [x] <= Plan(http, start, aside)
    ensures x !in before
  {
    hide Plan;
    forall i | 0 <= i < |before|
      ensures before[i] != x
    {
      NoneTwice(http, start, aside, i, |before|);
      assert (before + [x])[i] == before[i] && (before + [x])[|before|] == x;
    }
  }

  // ---------------------------------------------------------------- the pool that measures latencies

  const LATENCY_MAX: nat := 3600

  /** A latency that the probing goroutine stores. */
  datatype Measured = Measured(k: nat, value: nat)

  function Stored(latency: seq<nat>, m: Option<Measured>): (r: seq<nat>)
    ensures |r| == |latency|
  {
    if m.Some? && m.value.k < |latency| then latency[m.value.k := m.value.value] else latency
  }

  /** The latencies after the first `n` measurements. */
  function Latencies(latency: seq<nat>, probes: nat -> Option<Measured>, n: nat): (r: seq<nat>)
    ensures |r| == |latency|
  {
    if n == 0 then latency else Stored(Latencies(latency, probes, n - 1), probes(n - 1))
  }

  /** Whether the latency is an hour or more when the round comes to parent `k`. */
  predicate SlowThen(latency: seq<nat>, probes: nat -> Option<Measured>, k: nat) {
    k < |latency| && Latencies(latency, probes, k + 1)[k] >= LATENCY_MAX
  }

  /** The parents that are put aside. */
  function Slow(latency: seq<nat>, probes: nat -> Option<Measured>): (ids: set<nat>) {
    set k: nat | k < |latency| && SlowThen(latency, probes, k)
  }

  /** setLatency: the first parent with this server. */
  function Set(latency: seq<nat>, server: seq<nat>, name: nat, value: nat): (r: seq<nat>)
    requires |server| == |latency|
    ensures |r| == |latency|
  {
    seq(|latency|, i requires 0 <= i < |latency| => if server[i] == name && name !in server[..i] then value else latency[i])
  }

  /** The latencies after `n` rounds in which nothing could be connected to: a parent that failed gets the highest. */
  function AfterRounds(http: seq<bool>, server: seq<nat>, latency: seq<nat>, probes: nat -> Option<Measured>,
                       n: nat): (r: seq<nat>)
    requires n <= |http| == |server| == |latency|
    ensures |r| == |latency|
  {
    if n == 0 then latency
    else
      var l := Stored(AfterRounds(http, server, latency, probes, n - 1), probes(n - 1));
      if http[n - 1] || n - 1 in Slow(latency, probes) then l else Set(l, server, server[n - 1], LATENCY_MAX)
  }

  /** A parent that failed changes what is known of none that comes later. */
  lemma {:induction false} LaterUntouched(http: seq<bool>, server: seq<nat>, latency: seq<nat>, probes: nat -> Option<Measured>,
                                          n: nat)
    requires n <= |http| == |server| == |latency|
    ensures forall k :: n <= k < |latency| ==>
              AfterRounds(http, server, latency, probes, n)[k] == Latencies(latency, probes, n)[k]
  {
    hide Slow;
    if n > 0 {
      LaterUntouched(http, server, latency, probes, n - 1);
      assert forall k :: n <= k < |latency| ==> server[n - 1] in server[..k];
    }
  }

  /** What the round finds. */
  lemma {:induction false} SlowNow(http: seq<bool>, server: seq<nat>, latency: seq<nat>, probes: nat -> Option<Measured>,
                                   i: nat)
    requires i < |http| == |server| == |latency|
    ensures var l := Stored(AfterRounds(http, server, latency, probes, i), probes(i));
            (i in Slow(latency, probes) <==> l[i] >= 3600) &&
            AfterRounds(http, server, latency, probes, i + 1) ==
              if http[i] || i in Slow(latency, probes) then l else Set(l, server, server[i], 3600)
    ensures Place(|http|, 0, i) == i
  {
    LaterUntouched(http, server, latency, probes, i);
  }

  /** The pool that goes by measured latencies; `server` names the parents, two of which may share one. */
  class LatencyPool {
    const http: seq<bool>
    const server: seq<nat>
    const latency: array<nat>
    const httpPool: HttpPool
    ghost var attempts: seq<Attempt>

    ghost predicate Valid() reads this, httpPool {
      latency.Length == |http| && |server| == |http| && httpPool.Valid()
    }

    constructor (http: seq<bool>, server: seq<nat>, httpPool: HttpPool)
      requires httpPool.Valid() && |server| == |http|
      ensures Valid() && this.http == http && this.server == server && this.httpPool == httpPool && attempts == []
    {
      this.http, this.server, this.httpPool := http, server, httpPool;
      latency := new nat[|http|](i => 0);
      attempts := [];
    }

    /** setLatency: the first parent with this server. */
    method SetLatency(name: nat, value: nat)
      requires Valid()
      modifies latency
      ensures forall i :: 0 <= i < latency.Length ==>
                latency[i] == if server[i] == name && name !in server[..i] then value else old(latency[i])
    {
      for i := 0 to latency.Length
        invariant name !in server[..i]
        invariant forall k :: 0 <= k < latency.Length ==> latency[k] == old(latency[k])
      {
        assert server[..i + 1] == server[..i] + [server[i]];
        if server[i] == name {
          latency[i] := value;
          return;
        }
      }
    }

    /** The probing goroutine stores a latency, or does not. */
    method Measure(m: Option<Measured>)
      modifies latency
      ensures latency[..] == Stored(old(latency[..]), m)
    {
      if m.Some? && m.value.k < latency.Length { latency[m.value.k] := m.value.value; }
    }

    method Try(k: nat, works: bool) returns (err: bool)
      modifies this`attempts
      ensures err == !works && attempts == old(attempts) + [AskParent(k)]
    {
      err := !works;
      attempts := attempts + [AskParent(k)];
    }

    /** latencyParentPool.connect; `probes(i)` is what the probing goroutine stores before parent `i` is looked at, and
        `rounds` how many rounds of the first loop ended without a connection. */
    method Connect(probes: nat -> Option<Measured>, works: nat -> bool, w: Weather)
        returns (conn: Option<Target>, err: bool, ghost rounds: nat)
      requires Valid() && attempts == [] && httpPool.dialed == [] && w.probe.Fits(httpPool.size)
      modifies this`attempts, latency, httpPool
      ensures Valid() && rounds <= |http|
      ensures |http| == 0 ==> err && conn == None && attempts == []
      ensures |http| > 0 ==>
                Settled(Plan(http, 0, Slow(old(latency[..]), probes)), works,
                        NodeOf(old(httpPool.available), httpPool.size, w), attempts, conn, err)
      ensures var after := AfterRounds(http, server, old(latency[..]), probes, rounds);
              latency[..] == if rounds < |http| then Stored(after, probes(rounds)) else after
      ensures rounds < |http| ==> conn.Some? && attempts == First(http, 0, Slow(old(latency[..]), probes), rounds + 1)
      ensures rounds == |http| > 0 ==> First(http, 0, Slow(old(latency[..]), probes), |http|) <= attempts
    {
      hide Plan, Settled, Slow, NodeOf, AllFail, First, Second, AfterRounds, Stored;
      if |http| == 0 {
        NoRounds(http, server, latency[..], probes);
        return None, true, 0;
      }
      ghost var aside, node := Slow(latency[..], probes), NodeOf(httpPool.available, httpPool.size, w);
      var skipped;
      conn, err, skipped, rounds := FirstRound(probes, works, w);
      if conn.None? {
        conn, err := TrySkipped(skipped, aside, works, node, err);
      }
    }

    method FirstRound(probes: nat -> Option<Measured>, works: nat -> bool, w: Weather)
        returns (conn: Option<Target>, err: bool, skipped: seq<nat>, ghost rounds: nat)
      requires Valid() && |http| > 0 && attempts == [] && httpPool.dialed == [] && w.probe.Fits(httpPool.size)
      modifies this`attempts, latency, httpPool
      ensures Valid() && (if conn.Some? then rounds < |http| else rounds == |http|)
      ensures var after := AfterRounds(http, server, old(latency[..]), probes, rounds);
              latency[..] == if conn.Some? then Stored(after, probes(rounds)) else after
      ensures var aside, node := Slow(old(latency[..]), probes), NodeOf(old(httpPool.available), httpPool.size, w);
              if conn.Some? then
                Settled(Plan(http, 0, aside), works, node, attempts, conn, err) &&
                attempts == First(http, 0, aside, rounds + 1)
              else attempts == First(http, 0, aside, |http|) && skipped == Second(http, 0, aside, |http|) &&
                   AllFail(attempts, works, node) && (attempts != [] ==> err)
    {
      hide NodeOf, Slow, Settled, Plan, Reached, AllFail, First, Second, AfterRounds, Stored, Set;
      ghost var before := latency[..];
      ghost var aside, node := Slow(before, probes), NodeOf(httpPool.available, httpPool.size, w);
      ghost var available := httpPool.available;
      conn, err, skipped, rounds := None, false, [], 0;
      var triedHTTPParentPool := false;
      NothingYet(http, 0, aside, works, node);
      NoRounds(http, server, before, probes);
      for i := 0 to |http|
        invariant Valid() && conn == None && rounds == i
        invariant latency[..] == AfterRounds(http, server, before, probes, i)
        invariant attempts == First(http, 0, aside, i) && skipped == Second(http, 0, aside, i)
        invariant AllFail(attempts, works, node) && (attempts != [] ==> err)
        invariant triedHTTPParentPool <==> AskPool in attempts
        invariant !triedHTTPParentPool ==> httpPool.dialed == [] && httpPool.available == available
      {
        FirstStep(http, 0, aside, i);
        SlowNow(http, server, before, probes, i);
        Measure(probes(i));
        assert latency[i] == latency[..][i];
        if http[i] {
          if !triedHTTPParentPool {
            triedHTTPParentPool := true;
            conn, err := TryHttpPool(works, w);
            if !err {
              FirstSettles(http, 0, aside, i, works, node, AskPool);
              return;
            }
            OneMoreFails(First(http, 0, aside, i), AskPool, works, node);
          }
        } else if latency[i] >= LATENCY_MAX {
          skipped := skipped + [i];
        } else {
          err := Try(i, works(i));
          Asks(works, node, i);
          if !err {
            FirstSettles(http, 0, aside, i, works, node, AskParent(i));
            return Some(Parent(i)), false, skipped, i;
          }
          OneMoreFails(First(http, 0, aside, i), AskParent(i), works, node);
          ghost var l := latency[..];
          SetLatency(server[i], LATENCY_MAX);
          IsSet(l, server, server[i], latency[..]);
        }
        rounds := i + 1;
      }
    }

    method TryHttpPool(works: nat -> bool, w: Weather) returns (conn: Option<Target>, err: bool)
      requires Valid() && httpPool.dialed == [] && w.probe.Fits(httpPool.size)
      modifies this`attempts, httpPool
      ensures Valid() && attempts == old(attempts) + [AskPool]
      ensures conn == Reached(AskPool, works, NodeOf(old(httpPool.available), httpPool.size, w)) && (conn.Some? <==> !err)
    {
      var node;
      node, err := httpPool.ConnectIn(LATENCY_MAX, w);
      attempts := attempts + [AskPool];
      conn := if err then None else Some(HttpNode(node.value));
    }

    method TrySkipped(skipped: seq<nat>, ghost aside: set<nat>, works: nat -> bool, ghost node: Option<nat>, err0: bool)
        returns (conn: Option<Target>, err: bool)
      requires Valid() && |http| > 0
      requires attempts == First(http, 0, aside, |http|) && skipped == Second(http, 0, aside, |http|)
      requires AllFail(attempts, works, node) && (attempts != [] ==> err0)
      modifies this`attempts
      ensures Valid() && old(attempts) <= attempts && Settled(Plan(http, 0, aside), works, node, attempts, conn, err)
    {
      hide Settled, Plan, Reached, AllFail, First, Second, Asking;
      conn, err := None, err0;
      ghost var first := attempts;
      NothingAsked(first, skipped);
      PlanAsks(http, 0, aside);
      PlanParts(http, 0, aside);
      for j := 0 to |skipped|
        invariant conn == None && attempts == first + Asking(skipped[..j])
        invariant AllFail(attempts, works, node) && (attempts != [] ==> err)
      {
        var k := skipped[j];
        SecondIsPart(http, 0, aside, j);
        err := Try(k, works(k));
        Asks(works, node, k);
        assert attempts == first + Asking(skipped[..j + 1]);
        if !err {
          SettledBy(Plan(http, 0, aside), works, node, first + Asking(skipped[..j]), AskParent(k));
          return Some(Parent(k)), false;
        }
        OneMoreFails(first + Asking(skipped[..j]), AskParent(k), works, node);
      }
      AllFailed(attempts, works, node);
    }
  }

  lemma {:induction false} NoRounds(http: seq<bool>, server: seq<nat>, latency: seq<nat>, probes: nat -> Option<Measured>)
    requires |http| == |server| == |latency|
    ensures AfterRounds(http, server, latency, probes, 0) == latency
  {
  }

  lemma {:induction false} IsSet(before: seq<nat>, server: seq<nat>, name: nat, after: seq<nat>)
    requires |before| == |server| == |after|
    requires forall i :: 0 <= i < |after| ==>
               after[i] == if server[i] == name && name !in server[..i] then LATENCY_MAX else before[i]
    ensures after == Set(before, server, name, LATENCY_MAX)
  {
  }
}
