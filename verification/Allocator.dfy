/** Choosing a game server for a login (internal/platform/login/allocator.go). Loads are exact ratios and
    the key hash is a parameter; the order of server ids is that of their characters. */
module Allocator {
  import opened Common

  datatype Node = Node(serverId: string, wsAddr: string, online: int, maxOnline: int, healthy: bool, drain: bool)

  predicate Available(n: Node) {
    n.serverId != "" && n.wsAddr != "" && n.healthy && !n.drain && (n.maxOnline <= 0 || n.online < n.maxOnline)
  }

  function Ratio(n: Node): real { if n.maxOnline <= 0 then 0.0 else n.online as real / n.maxOnline as real }

  predicate LessLoad(a: Node, b: Node) {
    if Ratio(a) != Ratio(b) then Ratio(a) < Ratio(b) else a.online < b.online
  }

  predicate Before(a: string, b: string) {
    b != "" && (a == "" || a[0] < b[0] || (a[0] == b[0] && Before(a[1..], b[1..])))
  }

  function Filtered(nodes: seq<Node>): seq<Node> {
    if nodes == [] then [] else Filtered(nodes[..|nodes| - 1]) + if Available(nodes[|nodes| - 1]) then [nodes[|nodes| - 1]] else []
  }

  function Insert(sorted: seq<Node>, n: Node): seq<Node> {
    if sorted == [] || Before(n.serverId, sorted[0].serverId) then [n] + sorted else [sorted[0]] + Insert(sorted[1..], n)
  }

  /** The sort by server id. */
  function Sorted(nodes: seq<Node>): seq<Node> {
    if nodes == [] then [] else Insert(Sorted(nodes[..|nodes| - 1]), nodes[|nodes| - 1])
  }

  /** The two candidates for a key: the second is never the first. */
  function FirstIndex(hash: string -> nat, key: string, n: nat): (i: nat)
    requires n > 1
    ensures i < n
  {
    hash(key) % n
  }

  function SecondIndex(hash: string -> nat, key: string, n: nat): (i: nat)
    requires n > 1
    ensures i < n && i != FirstIndex(hash, key, n)
  {
    var first, steps := FirstIndex(hash, key, n), 1 + hash(key + "#second") % (n - 1);
    WrapsOnce(first, steps, n);
    (first + steps) % n
  }

  lemma ModOnce(i: nat, n: nat)
    requires 0 < n <= i < n + n
    ensures i % n == i - n
  {
    assert i / n == 1;
  }

  lemma WrapsOnce(i: nat, steps: nat, n: nat)
    requires i < n && 0 < steps < n
    ensures (i + steps) % n == if i + steps < n then i + steps else i + steps - n
  {
    if i + steps >= n { ModOnce(i + steps, n); }
  }

  function Pick(hash: string -> nat, nodes: seq<Node>, key: string): Option<Node> {
    var available := Filtered(nodes);
    if |available| == 0 then None
    else if |available| == 1 then Some(available[0])
    else
      var sorted := Sorted(available);
      SortedPermutes(available);
      var first, second := sorted[FirstIndex(hash, key, |sorted|)], sorted[SecondIndex(hash, key, |sorted|)];
      Some(if LessLoad(second, first) then second else first)
  }

  ghost predicate CanReturn(nodes: seq<Node>, serverId: string) { exists n :: n in nodes && n.serverId == serverId && Available(n) }

  function Find(nodes: seq<Node>, serverId: string): Option<Node> {
    if nodes == [] then None
    else if nodes[0].serverId == serverId && Available(nodes[0]) then Some(nodes[0])
    else Find(nodes[1..], serverId)
  }

  /** `last` is the server the player was on, if one is known. */
  function Allocate(hash: string -> nat, nodes: seq<Node>, uid: string, clientIp: string, last: Option<string>): Option<Node> {
    if uid != "" && last.Some? && Find(nodes, last.value).Some? then Find(nodes, last.value)
    else Pick(hash, nodes, if uid == "" then clientIp else uid)
  }

  // ---- The order of server ids ----

  lemma {:induction false} BeforeIsOrder(a: string, b: string, c: string)
    ensures !Before(a, a)
    ensures a != b ==> Before(a, b) || Before(b, a)
    ensures Before(a, b) && Before(b, c) ==> Before(a, c)
  {
    if a != "" {
      if b != "" && c != "" {
        BeforeIsOrder(a[1..], b[1..], c[1..]);
        assert a == [a[0]] + a[1..] && b == [b[0]] + b[1..];
      } else {
        BeforeIsOrder(a[1..], a[1..], a[1..]);
        if b != "" {
          BeforeIsOrder(a[1..], b[1..], a[1..]);
          assert a == [a[0]] + a[1..] && b == [b[0]] + b[1..];
        }
      }
    }
  }

  ghost predicate Ascending(nodes: seq<Node>) {
    forall i, j :: 0 <= i < j < |nodes| ==> Before(nodes[i].serverId, nodes[j].serverId)
  }

  ghost predicate DistinctIds(nodes: seq<Node>) {
    forall i, j :: 0 <= i < j < |nodes| ==> nodes[i].serverId != nodes[j].serverId
  }

  lemma {:induction false} InsertPermutes(sorted: seq<Node>, n: Node)
    ensures multiset(Insert(sorted, n)) == multiset(sorted) + multiset{n} && |Insert(sorted, n)| == |sorted| + 1
  {
    if sorted == [] || Before(n.serverId, sorted[0].serverId) {
      assert multiset([n] + sorted) == multiset{n} + multiset(sorted);
    } else {
      InsertPermutes(sorted[1..], n);
      assert sorted == [sorted[0]] + sorted[1..];
    }
  }

  lemma {:induction false} SortedPermutes(nodes: seq<Node>)
    ensures multiset(Sorted(nodes)) == multiset(nodes) && |Sorted(nodes)| == |nodes|
  {
    if nodes != [] {
      var k := |nodes| - 1;
      SortedPermutes(nodes[..k]);
      InsertPermutes(Sorted(nodes[..k]), nodes[k]);
      assert nodes == nodes[..k] + [nodes[k]];
    }
  }

  lemma {:induction false} InsertAscends(sorted: seq<Node>, n: Node)
    requires Ascending(sorted) && forall x :: x in sorted ==> x.serverId != n.serverId
    ensures Ascending(Insert(sorted, n))
  {
    if sorted == [] {
    } else if Before(n.serverId, sorted[0].serverId) {
      forall i | 0 <= i < |sorted| ensures Before(n.serverId, sorted[i].serverId) {
        BeforeIsOrder(n.serverId, sorted[0].serverId, sorted[i].serverId);
      }
    } else {
      BeforeIsOrder(n.serverId, sorted[0].serverId, "");
      InsertAscends(sorted[1..], n);
      InsertPermutes(sorted[1..], n);
      forall i | 0 <= i < |Insert(sorted[1..], n)| ensures Before(sorted[0].serverId, Insert(sorted[1..], n)[i].serverId) {
        var x := Insert(sorted[1..], n)[i];
        assert x in multiset(Insert(sorted[1..], n));
        assert x in multiset(sorted[1..]) || x == n;
        assert x in sorted[1..] || x == n;
      }
    }
  }

  lemma {:induction false} SortedAscends(nodes: seq<Node>)
    requires DistinctIds(nodes)
    ensures Ascending(Sorted(nodes))
  {
    if nodes != [] {
      var k := |nodes| - 1;
      SortedAscends(nodes[..k]);
      SortedPermutes(nodes[..k]);
      forall x | x in Sorted(nodes[..k]) ensures x.serverId != nodes[k].serverId {
        assert x in multiset(Sorted(nodes[..k]));
        assert x in multiset(nodes[..k]);
        assert x in nodes[..k];
      }
      InsertAscends(Sorted(nodes[..k]), nodes[k]);
    }
  }

  lemma SameHead(a: seq<Node>, b: seq<Node>)
    requires Ascending(a) && Ascending(b) && a != [] && b != [] && a[0] in b && b[0] in a
    ensures a[0] == b[0]
  {
    var i :| 0 <= i < |b| && b[i] == a[0];
    var j :| 0 <= j < |a| && a[j] == b[0];
    if i > 0 && j > 0 {
      assert Before(b[0].serverId, b[i].serverId) && Before(a[0].serverId, a[j].serverId);
      BeforeIsOrder(a[0].serverId, b[0].serverId, a[0].serverId);
      assert false;
    }
  }

  /** Two ascending lists of the same nodes are the same list. */
  lemma {:induction false} AscendingIsUnique(a: seq<Node>, b: seq<Node>)
    requires Ascending(a) && Ascending(b) && multiset(a) == multiset(b)
    ensures a == b
  {
    assert |multiset(a)| == |a| && |multiset(b)| == |b|;
    if a != [] {
      assert a[0] in multiset(b) && b[0] in multiset(a);
      SameHead(a, b);
      TailMultiset(a);
      TailMultiset(b);
      AscendingIsUnique(a[1..], b[1..]);
      assert a == [a[0]] + a[1..] && b == [b[0]] + b[1..];
    }
  }

  lemma TailMultiset(a: seq<Node>)
    requires a != []
    ensures multiset(a[1..]) == multiset(a) - multiset{a[0]}
  {
    assert a == [a[0]] + a[1..];
  }

  lemma {:induction false} FilteredKeeps(nodes: seq<Node>, n: Node)
    ensures multiset(Filtered(nodes))[n] == if Available(n) then multiset(nodes)[n] else 0
  {
    if nodes != [] {
      FilteredKeeps(nodes[..|nodes| - 1], n);
      assert nodes == nodes[..|nodes| - 1] + [nodes[|nodes| - 1]];
    }
  }

  lemma InFiltered(nodes: seq<Node>)
    ensures forall n :: n in Filtered(nodes) <==> n in nodes && Available(n)
  {
    forall n ensures n in Filtered(nodes) <==> n in nodes && Available(n) {
      FilteredKeeps(nodes, n);
      assert n in Filtered(nodes) <==> n in multiset(Filtered(nodes));
      assert n in nodes <==> n in multiset(nodes);
    }
  }

  lemma {:induction false} FilteredDistinct(nodes: seq<Node>)
    requires DistinctIds(nodes)
    ensures DistinctIds(Filtered(nodes))
  {
    if nodes != [] {
      var k := |nodes| - 1;
      FilteredDistinct(nodes[..k]);
      InFiltered(nodes[..k]);
      forall i | 0 <= i < |Filtered(nodes[..k])| ensures Filtered(nodes[..k])[i].serverId != nodes[k].serverId {
        assert Filtered(nodes[..k])[i] in nodes[..k];
      }
    }
  }

  lemma {:induction false} FindMeans(nodes: seq<Node>, serverId: string)
    ensures match Find(nodes, serverId)
      case None => forall n :: n in nodes && n.serverId == serverId ==> !Available(n)
      case Some(n) => n in nodes && n.serverId == serverId && Available(n)
  {
    if nodes != [] { FindMeans(nodes[1..], serverId); }
  }

  // ---- Main results ----

  lemma FindInAnyOrder(a: seq<Node>, b: seq<Node>, serverId: string)
    requires multiset(a) == multiset(b) && DistinctIds(a) && DistinctIds(b)
    ensures Find(a, serverId) == Find(b, serverId)
  {
    forall n ensures n in a <==> n in b { assert n in multiset(a) <==> n in multiset(b); }
    FindMeans(a, serverId);
    FindMeans(b, serverId);
  }

  lemma SortedInAnyOrder(a: seq<Node>, b: seq<Node>)
    requires multiset(a) == multiset(b) && DistinctIds(a) && DistinctIds(b)
    ensures |Filtered(a)| == |Filtered(b)| && Sorted(Filtered(a)) == Sorted(Filtered(b))
  {
    forall n ensures multiset(Filtered(a))[n] == multiset(Filtered(b))[n] {
      FilteredKeeps(a, n);
      FilteredKeeps(b, n);
    }
    assert multiset(Filtered(a)) == multiset(Filtered(b));
    FilteredDistinct(a);
    FilteredDistinct(b);
    SortedPermutes(Filtered(a));
    SortedPermutes(Filtered(b));
    SortedAscends(Filtered(a));
    SortedAscends(Filtered(b));
    AscendingIsUnique(Sorted(Filtered(a)), Sorted(Filtered(b)));
  }

  lemma SortedOne(nodes: seq<Node>)
    requires |nodes| == 1
    ensures Sorted(nodes) == nodes
  {
    assert nodes[..0] == [];
  }

  /** The choice does not depend on the order in which the registry lists the servers. */
  lemma OrderDoesNotMatter(hash: string -> nat, a: seq<Node>, b: seq<Node>, uid: string, clientIp: string, last: Option<string>)
    requires multiset(a) == multiset(b) && DistinctIds(a) && DistinctIds(b)
    ensures Allocate(hash, a, uid, clientIp, last) == Allocate(hash, b, uid, clientIp, last)
  {
    if last.Some? { FindInAnyOrder(a, b, last.value); }
    SortedInAnyOrder(a, b);
    if |Filtered(a)| == 1 {
      SortedOne(Filtered(a));
      SortedOne(Filtered(b));
    }
  }

  lemma PickMeans(hash: string -> nat, nodes: seq<Node>, key: string)
    ensures match Pick(hash, nodes, key)
      case None => forall n :: n in nodes ==> !Available(n)
      case Some(p) => p in nodes && Available(p)
  {
    InFiltered(nodes);
    var available := Filtered(nodes);
    if |available| == 0 {
      forall n | n in nodes ensures !Available(n) { assert n !in available; }
    } else if |available| == 1 {
      assert available[0] in available;
    } else {
      SortedPermutes(available);
      var p := Pick(hash, nodes, key).value;
      assert p in Sorted(available);
      assert p in multiset(Sorted(available));
    }
  }

  /** A server is chosen whenever one is available; it is an available one; and it is the player's last
      server whenever that is available. */
  lemma ChoosesAvailable(hash: string -> nat, nodes: seq<Node>, uid: string, clientIp: string, last: Option<string>)
    ensures match Allocate(hash, nodes, uid, clientIp, last)
      case None => forall n :: n in nodes ==>
        n.serverId == "" || n.wsAddr == "" || !n.healthy || n.drain || (n.maxOnline > 0 && n.online >= n.maxOnline)
      case Some(p) =>
        && p in nodes && p.serverId != "" && p.wsAddr != "" && p.healthy && !p.drain && (p.maxOnline <= 0 || p.online < p.maxOnline)
        && (uid != "" && last.Some? && CanReturn(nodes, last.value) ==> p.serverId == last.value)
  {
    if last.Some? { FindMeans(nodes, last.value); }
    PickMeans(hash, nodes, if uid == "" then clientIp else uid);
  }

  /** Against each other, two limited servers are compared by the share of their limit that is taken, and by
      players where that is equal; one without a limit counts as empty. */
  lemma LessLoadIff(a: Node, b: Node)
    requires a.online >= 0 && b.online >= 0
    ensures a.maxOnline > 0 && b.maxOnline > 0 ==>
      var x, y := a.online * b.maxOnline, b.online * a.maxOnline; LessLoad(a, b) <==> x < y || (x == y && a.online < b.online)
    ensures a.maxOnline <= 0 && b.maxOnline > 0 ==> (LessLoad(a, b) <==> b.online > 0)
    ensures a.maxOnline > 0 && b.maxOnline <= 0 ==> (LessLoad(a, b) <==> a.online == 0 && b.online > 0)
    ensures a.maxOnline <= 0 && b.maxOnline <= 0 ==> (LessLoad(a, b) <==> a.online < b.online)
  {
    if a.maxOnline > 0 && b.maxOnline > 0 { CompareRatios(a.online, a.maxOnline, b.online, b.maxOnline); }
  }

  lemma CompareRatios(p: int, q: int, r: int, t: int)
    requires q > 0 && t > 0
    ensures p as real / q as real < r as real / t as real <==> p * t < r * q
    ensures p as real / q as real == r as real / t as real <==> p * t == r * q
  {
    var a, b, k := p as real / q as real, r as real / t as real, q as real * t as real;
    assert a * k == (p * t) as real && b * k == (r * q) as real;
    assert k > 0.0;
    assert (b - a) * k == b * k - a * k;
  }

  lemma ListedById(nodes: seq<Node>, byId: seq<Node>)
    requires DistinctIds(nodes) && Ascending(byId)
    requires forall n :: multiset(byId)[n] == if Available(n) then multiset(nodes)[n] else 0
    ensures byId == Sorted(Filtered(nodes)) && |byId| == |Filtered(nodes)|
  {
    var available := Filtered(nodes);
    forall n ensures multiset(byId)[n] == multiset(available)[n] { FilteredKeeps(nodes, n); }
    assert multiset(byId) == multiset(available);
    FilteredDistinct(nodes);
    SortedPermutes(available);
    SortedAscends(available);
    AscendingIsUnique(byId, Sorted(available));
  }

  /** The key points at place `i` of `n`, and at another one so many steps further round. */
  predicate PointsAt(hash: string -> nat, key: string, n: nat, i: nat, steps: nat)
    requires n > 1
  {
    i == hash(key) % n && steps == 1 + hash(key + "#second") % (n - 1)
  }

  lemma SecondIndexIs(hash: string -> nat, key: string, n: nat, i: nat, steps: nat)
    requires n > 1 && PointsAt(hash, key, n, i, steps)
    ensures FirstIndex(hash, key, n) == i < n && 0 < steps < n
    ensures SecondIndex(hash, key, n) == if i + steps < n then i + steps else i + steps - n
  {
    WrapsOnce(i, steps, n);
  }

  lemma WithoutAffinity(hash: string -> nat, nodes: seq<Node>, uid: string, clientIp: string, last: Option<string>)
    requires !(uid != "" && last.Some? && CanReturn(nodes, last.value))
    ensures Allocate(hash, nodes, uid, clientIp, last) == Pick(hash, nodes, if uid == "" then clientIp else uid)
  {
    if last.Some? { FindMeans(nodes, last.value); }
  }

  lemma PickByKey(hash: string -> nat, nodes: seq<Node>, key: string, i: nat, steps: nat)
    requires |Filtered(nodes)| > 1 && PointsAt(hash, key, |Filtered(nodes)|, i, steps) && |Sorted(Filtered(nodes))| == |Filtered(nodes)|
    ensures i < |Filtered(nodes)| && 0 < steps < |Filtered(nodes)|
    ensures var sorted := Sorted(Filtered(nodes));
      var first, second := sorted[i], sorted[if i + steps < |sorted| then i + steps else i + steps - |sorted|];
      Pick(hash, nodes, key) == Some(if LessLoad(second, first) then second else first)
  {
    SecondIndexIs(hash, key, |Filtered(nodes)|, i, steps);
  }

  /** Without affinity, two or more available servers are taken in the order of their ids; the key points at
      one, and a second hash of it some steps further round at another; the less loaded of the two is chosen,
      the first if neither is. The key is the player's id, or the address if there is none. */
  lemma ChosenByKey(hash: string -> nat, nodes: seq<Node>, uid: string, clientIp: string, last: Option<string>, byId: seq<Node>, i: nat, steps: nat)
    requires DistinctIds(nodes) && !(uid != "" && last.Some? && CanReturn(nodes, last.value))
    requires |byId| > 1 && Ascending(byId) && forall n :: multiset(byId)[n] == if Available(n) then multiset(nodes)[n] else 0
    requires PointsAt(hash, if uid == "" then clientIp else uid, |byId|, i, steps)
    ensures i < |byId| && 0 < steps < |byId|
    ensures var first, second := byId[i], byId[if i + steps < |byId| then i + steps else i + steps - |byId|];
      Allocate(hash, nodes, uid, clientIp, last) == Some(if LessLoad(second, first) then second else first)
  {
    ListedById(nodes, byId);
    WithoutAffinity(hash, nodes, uid, clientIp, last);
    PickByKey(hash, nodes, if uid == "" then clientIp else uid, i, steps);
  }

  /** Without affinity, of two or more available servers the choice is never the one more loaded than
      every other. */
  lemma NeverTheMostLoaded(hash: string -> nat, nodes: seq<Node>, key: string)
    requires DistinctIds(nodes) && exists m, n :: m in nodes && n in nodes && m != n && Available(m) && Available(n)
    ensures var p := Pick(hash, nodes, key);
      p.Some? && exists q :: q in nodes && Available(q) && q != p.value && !LessLoad(q, p.value)
  {
    InFiltered(nodes);
    var available := Filtered(nodes);
    var m, n :| m in nodes && n in nodes && m != n && Available(m) && Available(n);
    assert m in available && n in available && |available| > 1;
    var sorted := Sorted(available);
    SortedPermutes(available);
    FilteredDistinct(nodes);
    SortedAscends(available);
    var i, j := FirstIndex(hash, key, |sorted|), SecondIndex(hash, key, |sorted|);
    var q := if LessLoad(sorted[j], sorted[i]) then sorted[i] else sorted[j];
    assert q in multiset(sorted);
    assert q in available;
    BeforeIsOrder(sorted[i].serverId, sorted[j].serverId, "");
  }

  // ---- The loops ----

  lemma {:induction false} FindSkips(nodes: seq<Node>, i: nat, serverId: string)
    requires i <= |nodes| && forall k :: 0 <= k < i ==> nodes[k].serverId != serverId || !Available(nodes[k])
    ensures Find(nodes, serverId) == Find(nodes[i..], serverId)
    decreases i
  {
    if i > 0 {
      FindSkips(nodes, i - 1, serverId);
      assert nodes[i - 1..][1..] == nodes[i..];
    } else {
      assert nodes[0..] == nodes;
    }
  }

  method FindAvailableNode(nodes: seq<Node>, serverId: string) returns (node: Option<Node>)
    ensures node == Find(nodes, serverId)
  {
    for i := 0 to |nodes|
      invariant forall k :: 0 <= k < i ==> nodes[k].serverId != serverId || !Available(nodes[k])
    {
      if nodes[i].serverId == serverId && Available(nodes[i]) {
        FindSkips(nodes, i, serverId);
        return Some(nodes[i]);
      }
    }
    FindSkips(nodes, |nodes|, serverId);
    return None;
  }

  /** The filter loop, then the library's sort by server id. */
  method PickLoadAwareNode(hash: string -> nat, nodes: seq<Node>, key: string) returns (node: Option<Node>)
    ensures node == Pick(hash, nodes, key)
  {
    var available: seq<Node> := [];
    for i := 0 to |nodes|
      invariant available == Filtered(nodes[..i])
    {
      assert nodes[..i + 1][..i] == nodes[..i];
      if Available(nodes[i]) { available := available + [nodes[i]]; }
    }
    assert nodes[..|nodes|] == nodes;
    if |available| == 0 { return None; }
    if |available| == 1 { return Some(available[0]); }
    SortedPermutes(available);
    available := Sorted(available);
    var first := available[FirstIndex(hash, key, |available|)];
    var second := available[SecondIndex(hash, key, |available|)];
    if LessLoad(second, first) { return Some(second); }
    return Some(first);
  }

  method AllocateNode(hash: string -> nat, nodes: seq<Node>, uid: string, clientIp: string, last: Option<string>) returns (node: Option<Node>)
    ensures node == Allocate(hash, nodes, uid, clientIp, last)
  {
    if |nodes| == 0 { return None; }
    if uid != "" && last.Some? {
      var found := FindAvailableNode(nodes, last.value);
      if found.Some? { return found; }
    }
    var key := uid;
    if key == "" { key := clientIp; }
    node := PickLoadAwareNode(hash, nodes, key);
  }
}
