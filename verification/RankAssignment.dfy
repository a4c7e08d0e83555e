/** Group-rank assignment of ft_rendezvous_barrier.py: replacement-group split, feasibility count,
    infrastructure ordering, and the segment walk over domains. */
module RankAssignment {
  import opened Prelude
  import opened Sorting

  type pos = x: int | 0 < x witness 1

  datatype AssignError =
    | NotDivisible            // world size is not a multiple of the segment
    | BothActiveAndStandby    // a node is in both rank buckets
    | DuplicateInfraRank      // two nodes report the same infrastructure rank
    | DomainMissing           // segment configured, but a domain id is "none"
    | InsufficientNodes       // the walk ran out of complete segments

  // ---------------------------------------------------------------- participants

  function Nodes(ps: seq<Participant>): seq<NodeDesc> {
    seq(|ps|, i requires 0 <= i < |ps| => ps[i].node)
  }

  ghost predicate DistinctNodes(ps: seq<Participant>) {
    forall i, j | 0 <= i < j < |ps| :: ps[i].node != ps[j].node
  }

  predicate InfraLe(p: Participant, q: Participant) {
    p.infraRank <= q.infraRank
  }

  predicate ByNodeLe(p: Participant, q: Participant) {
    NodeLe(p.node, q.node)
  }

  /** Orders domains by the infrastructure rank of their first node. */
  predicate HeadLe(d: Domain, e: Domain) {
    HeadInfra(d) <= HeadInfra(e)
  }

  function HeadInfra(d: Domain): int {
    if d.members == [] then 0 else d.members[0].infraRank
  }

  lemma Orders()
    ensures TotalPreorder(InfraLe) && TotalPreorder(ByNodeLe) && TotalPreorder(HeadLe)
  {
    forall p: Participant, q: Participant ensures ByNodeLe(p, q) || ByNodeLe(q, p) {
      NodeLeTotal(p.node, q.node);
    }
    forall p: Participant, q: Participant, r: Participant | ByNodeLe(p, q) && ByNodeLe(q, r)
      ensures ByNodeLe(p, r)
    {
      NodeLeTransitive(p.node, q.node, r.node);
    }
  }

  // ---------------------------------------------------------------- replacement groups

  function GroupCount(ps: seq<Participant>, g: string): nat {
    if ps == [] then 0
    else GroupCount(ps[..|ps|-1], g) + if ps[|ps|-1].group == Some(g) then 1 else 0
  }

  /** p belongs to a replacement group with at least `size` members among `all`. */
  predicate InCompleteGroup(p: Participant, all: seq<Participant>, size: nat) {
    p.group.Some? && GroupCount(all, p.group.value) >= size
  }

  /** The members of ps whose replacement group is complete among `all` (or is not, when !want). */
  function KeepGroup(ps: seq<Participant>, all: seq<Participant>, size: nat, want: bool): seq<Participant> {
    if ps == [] then []
    else
      KeepGroup(ps[..|ps|-1], all, size, want)
      + if InCompleteGroup(ps[|ps|-1], all, size) == want then [ps[|ps|-1]] else []
  }

  function Complete(ps: seq<Participant>, size: Option<nat>): seq<Participant> {
    if size.None? then ps else KeepGroup(ps, ps, size.value, true)
  }

  function Leftover(ps: seq<Participant>, size: Option<nat>): seq<Participant> {
    if size.None? then [] else KeepGroup(ps, ps, size.value, false)
  }

  lemma {:induction false} KeepGroupMembers(ps: seq<Participant>, all: seq<Participant>, size: nat, want: bool)
    ensures forall p :: p in KeepGroup(ps, all, size, want) <==> p in ps && InCompleteGroup(p, all, size) == want
  {
    if ps != [] {
      assert ps == ps[..|ps|-1] + [ps[|ps|-1]];
      KeepGroupMembers(ps[..|ps|-1], all, size, want);
    }
  }

  lemma {:induction false} KeepGroupSplits(ps: seq<Participant>, all: seq<Participant>, size: nat)
    ensures multiset(KeepGroup(ps, all, size, true)) + multiset(KeepGroup(ps, all, size, false)) == multiset(ps)
  {
    if ps != [] {
      assert ps == ps[..|ps|-1] + [ps[|ps|-1]];
      KeepGroupSplits(ps[..|ps|-1], all, size);
    }
  }

  /** Every participant lands in exactly one bucket, the active one exactly when its group is complete. */
  lemma SplitPartitions(ps: seq<Participant>, size: Option<nat>)
    ensures multiset(Complete(ps, size) + Leftover(ps, size)) == multiset(ps)
    ensures forall p :: p in Complete(ps, size) <==> p in ps && (size.None? || InCompleteGroup(p, ps, size.value))
  {
    if size.Some? {
      KeepGroupSplits(ps, ps, size.value);
      KeepGroupMembers(ps, ps, size.value, true);
    }
  }

  method SplitByCompleteReplacementGroups(ps: seq<Participant>, size: Option<nat>)
    returns (complete: seq<Participant>, incomplete: seq<Participant>)
    ensures complete == Complete(ps, size) && incomplete == Leftover(ps, size)
  {
    if size.None? {
      return ps, [];
    }
    var counts: map<string, nat> := map[];
    for i := 0 to |ps|
      invariant forall g :: (if g in counts then counts[g] else 0) == GroupCount(ps[..i], g)
    {
      assert ps[..i + 1][..i] == ps[..i];
      var g := ps[i].group;
      if g.Some? {
        counts := counts[g.value := (if g.value in counts then counts[g.value] else 0) + 1];
      }
    }
    assert ps[..|ps|] == ps;
    complete, incomplete := [], [];
    for i := 0 to |ps|
      invariant complete == KeepGroup(ps[..i], ps, size.value, true)
      invariant incomplete == KeepGroup(ps[..i], ps, size.value, false)
    {
      assert ps[..i + 1][..i] == ps[..i];
      var g := ps[i].group;
      if g.Some? && (if g.value in counts then counts[g.value] else 0) >= size.value {
        complete := complete + [ps[i]];
      } else {
        incomplete := incomplete + [ps[i]];
      }
    }
  }

  // ---------------------------------------------------------------- domains

  /** The key nodes are grouped by: the domain id, or the node alone when no segment is configured. */
  datatype DomainKey = ByDomain(id: string) | ByInfra(rank: int)

  /** One entry of the insertion-ordered domain dict. */
  datatype Domain = Domain(key: DomainKey, members: seq<Participant>)

  function KeyOf(p: Participant, segment: Option<pos>): DomainKey {
    if segment.Some? then ByDomain(p.domain) else ByInfra(p.infraRank)
  }

  function Size(segment: Option<pos>): pos {
    if segment.Some? then segment.value else 1
  }

  /** `domain_to_participants[key].append(p)` on an insertion-ordered dict. */
  function AddToDomain(ds: seq<Domain>, p: Participant, segment: Option<pos>): seq<Domain> {
    if ds == [] then [Domain(KeyOf(p, segment), [p])]
    else if ds[0].key == KeyOf(p, segment) then [Domain(ds[0].key, ds[0].members + [p])] + ds[1..]
    else [ds[0]] + AddToDomain(ds[1..], p, segment)
  }

  function Domains(ps: seq<Participant>, segment: Option<pos>): seq<Domain> {
    if ps == [] then [] else AddToDomain(Domains(ps[..|ps|-1], segment), ps[|ps|-1], segment)
  }

  function Flatten(ds: seq<Domain>): seq<Participant> {
    if ds == [] then [] else ds[0].members + Flatten(ds[1..])
  }

  ghost predicate WellKeyed(d: Domain, segment: Option<pos>) {
    && d.members != []
    && forall p | p in d.members :: KeyOf(p, segment) == d.key
  }

  ghost predicate WellGrouped(ds: seq<Domain>, segment: Option<pos>) {
    && (forall d | d in ds :: WellKeyed(d, segment))
    && (forall i, j | 0 <= i < j < |ds| :: ds[i].key != ds[j].key)
  }

  lemma {:induction false} AddToDomainFlatten(ds: seq<Domain>, p: Participant, segment: Option<pos>)
    ensures multiset(Flatten(AddToDomain(ds, p, segment))) == multiset(Flatten(ds)) + multiset{p}
  {
    var r := AddToDomain(ds, p, segment);
    if ds == [] {
      assert r[1..] == [];
    } else if ds[0].key == KeyOf(p, segment) {
      assert r[1..] == ds[1..];
    } else {
      AddToDomainFlatten(ds[1..], p, segment);
      assert r[1..] == AddToDomain(ds[1..], p, segment);
    }
  }

  ghost predicate HasKey(ds: seq<Domain>, k: DomainKey) {
    exists d | d in ds :: d.key == k
  }

  lemma {:induction false} AddToDomainGroups(ds: seq<Domain>, p: Participant, segment: Option<pos>)
    requires WellGrouped(ds, segment)
    ensures WellGrouped(AddToDomain(ds, p, segment), segment)
    ensures forall d | d in AddToDomain(ds, p, segment) :: d.key == KeyOf(p, segment) || HasKey(ds, d.key)
  {
    var r := AddToDomain(ds, p, segment);
    if ds == [] {
    } else if ds[0].key == KeyOf(p, segment) {
      assert WellKeyed(ds[0], segment);
      assert WellKeyed(r[0], segment);
      assert forall j | 0 < j < |r| :: r[j] == ds[j] && r[j] in ds;
    } else {
      assert WellGrouped(ds[1..], segment);
      AddToDomainGroups(ds[1..], p, segment);
      var t := AddToDomain(ds[1..], p, segment);
      assert r == [ds[0]] + t;
      forall d | d in t ensures d.key != ds[0].key && (d.key == KeyOf(p, segment) || HasKey(ds, d.key)) {
        if d.key != KeyOf(p, segment) {
          var e :| e in ds[1..] && e.key == d.key;
          assert e in ds;
        }
      }
    }
  }

  lemma {:induction false} DomainsGroup(ps: seq<Participant>, segment: Option<pos>)
    ensures WellGrouped(Domains(ps, segment), segment)
    ensures multiset(Flatten(Domains(ps, segment))) == multiset(ps)
  {
    if ps != [] {
      assert ps == ps[..|ps|-1] + [ps[|ps|-1]];
      DomainsGroup(ps[..|ps|-1], segment);
      AddToDomainFlatten(Domains(ps[..|ps|-1], segment), ps[|ps|-1], segment);
      AddToDomainGroups(Domains(ps[..|ps|-1], segment), ps[|ps|-1], segment);
    }
  }

  ghost predicate EachSorted(ds: seq<Domain>) {
    forall d | d in ds :: Sorted(InfraLe, d.members)
  }

  lemma {:induction false} AddToDomainSorted(ds: seq<Domain>, p: Participant, segment: Option<pos>)
    requires EachSorted(ds) && forall q | q in Flatten(ds) :: InfraLe(q, p)
    ensures EachSorted(AddToDomain(ds, p, segment))
  {
    if ds == [] {
    } else if ds[0].key == KeyOf(p, segment) {
      var g := ds[0].members;
      forall i | 0 <= i < |g| ensures InfraLe(g[i], p) {
        assert g[i] == Flatten(ds)[i];
      }
      assert Sorted(InfraLe, g + [p]);
    } else {
      forall q | q in Flatten(ds[1..]) ensures InfraLe(q, p) {
        assert q in Flatten(ds);
      }
      AddToDomainSorted(ds[1..], p, segment);
    }
  }

  /** Appending in infrastructure order leaves every domain in infrastructure order. */
  lemma {:induction false} DomainsSorted(ps: seq<Participant>, segment: Option<pos>)
    requires Sorted(InfraLe, ps)
    ensures EachSorted(Domains(ps, segment))
  {
    if ps != [] {
      var init, last := ps[..|ps|-1], ps[|ps|-1];
      DomainsSorted(init, segment);
      DomainsGroup(init, segment);
      forall q | q in Flatten(Domains(init, segment)) ensures InfraLe(q, last) {
        assert q in multiset(init);
        var k :| 0 <= k < |init| && init[k] == q;
        assert InfraLe(ps[k], ps[|init|]);
      }
      AddToDomainSorted(Domains(init, segment), last, segment);
    }
  }

  lemma {:induction false} FlattenAppend(a: seq<Domain>, b: seq<Domain>)
    ensures Flatten(a + b) == Flatten(a) + Flatten(b)
  {
    if a == [] {
      assert a + b == b;
    } else {
      FlattenAppend(a[1..], b);
      assert (a + b)[1..] == a[1..] + b;
      Associative(a[0].members, Flatten(a[1..]), Flatten(b));
    }
  }

  lemma FlattenHead(ds: seq<Domain>)
    requires ds != []
    ensures multiset(Flatten(ds)) == multiset(ds[0].members) + multiset(Flatten(ds[1..]))
  {
  }

  lemma {:induction false} FlattenRemove(ds: seq<Domain>, i: nat)
    requires i < |ds|
    ensures multiset(Flatten(ds)) == multiset(ds[i].members) + multiset(Flatten(RemoveAt(ds, i)))
  {
    hide Flatten;
    FlattenHead(ds);
    if i == 0 {
      assert RemoveAt(ds, 0) == ds[1..];
    } else {
      FlattenRemove(ds[1..], i - 1);
      var r := RemoveAt(ds, i);
      assert r[0] == ds[0] && r[1..] == RemoveAt(ds[1..], i - 1);
      FlattenHead(r);
    }
  }

  lemma {:induction false} FlattenPermutation(a: seq<Domain>, b: seq<Domain>)
    requires multiset(a) == multiset(b)
    ensures multiset(Flatten(a)) == multiset(Flatten(b))
  {
    SameLength(a, b);
    if a != [] {
      var i := IndexIn(a, 0, b);
      RemoveAtCounts(a, 0);
      RemoveAtCounts(b, i);
      FlattenPermutation(RemoveAt(a, 0), RemoveAt(b, i));
      FlattenRemove(a, 0);
      FlattenRemove(b, i);
    }
  }

  // ---------------------------------------------------------------- counting complete segments

  /** The members of ps grouped under k (or under another key, when !want). */
  function KeepKey(ps: seq<Participant>, k: DomainKey, segment: Option<pos>, want: bool): seq<Participant> {
    if ps == [] then []
    else
      KeepKey(ps[..|ps|-1], k, segment, want)
      + if (KeyOf(ps[|ps|-1], segment) == k) == want then [ps[|ps|-1]] else []
  }

  lemma {:induction false} KeepKeyLength(ps: seq<Participant>, k: DomainKey, segment: Option<pos>, want: bool)
    ensures |KeepKey(ps, k, segment, want)| <= |ps|
    ensures (exists p | p in ps :: (KeyOf(p, segment) == k) != want) ==> |KeepKey(ps, k, segment, want)| < |ps|
    ensures (forall p | p in ps :: (KeyOf(p, segment) == k) == want) ==> KeepKey(ps, k, segment, want) == ps
    ensures (forall p | p in ps :: (KeyOf(p, segment) == k) != want) ==> KeepKey(ps, k, segment, want) == []
  {
    if ps != [] {
      assert ps == ps[..|ps|-1] + [ps[|ps|-1]];
      KeepKeyLength(ps[..|ps|-1], k, segment, want);
    }
  }

  lemma KeepKeySnoc(ps: seq<Participant>, x: Participant, k: DomainKey, segment: Option<pos>, want: bool)
    ensures (KeyOf(x, segment) == k) == want ==> KeepKey(ps + [x], k, segment, want) == KeepKey(ps, k, segment, want) + [x]
    ensures (KeyOf(x, segment) == k) != want ==> KeepKey(ps + [x], k, segment, want) == KeepKey(ps, k, segment, want)
  {
    assert (ps + [x])[..|ps|] == ps;
  }

  /** Dropping one key and then looking at another can be done in either order. */
  lemma {:induction false} KeepKeyCommutes(ps: seq<Participant>, k: DomainKey, j: DomainKey, segment: Option<pos>)
    requires j != k
    ensures KeepKey(KeepKey(ps, k, segment, false), j, segment, true) == KeepKey(ps, j, segment, true)
    ensures KeepKey(KeepKey(ps, k, segment, false), j, segment, false)
         == KeepKey(KeepKey(ps, j, segment, false), k, segment, false)
  {
    if ps != [] {
      var init, last := ps[..|ps|-1], ps[|ps|-1];
      assert ps == init + [last];
      KeepKeyCommutes(init, k, j, segment);
      var a, b := KeepKey(init, k, segment, false), KeepKey(init, j, segment, false);
      KeepKeySnoc(init, last, k, segment, false);
      KeepKeySnoc(init, last, j, segment, true);
      KeepKeySnoc(init, last, j, segment, false);
      KeepKeySnoc(a, last, j, segment, true);
      KeepKeySnoc(a, last, j, segment, false);
      KeepKeySnoc(b, last, k, segment, false);
    }
  }

  lemma {:induction false} KeepKeyAppend(a: seq<Participant>, b: seq<Participant>, k: DomainKey,
                                         segment: Option<pos>, want: bool)
    ensures KeepKey(a + b, k, segment, want) == KeepKey(a, k, segment, want) + KeepKey(b, k, segment, want)
  {
    if b == [] {
      assert a + b == a;
    } else {
      KeepKeyAppend(a, b[..|b|-1], k, segment, want);
      assert (a + b)[..|a + b|-1] == a + b[..|b|-1];
    }
  }

  lemma {:induction false} KeepKeyCounts(ps: seq<Participant>, k: DomainKey, segment: Option<pos>, want: bool,
                                         x: Participant)
    ensures multiset(KeepKey(ps, k, segment, want))[x]
         == if (KeyOf(x, segment) == k) == want then multiset(ps)[x] else 0
  {
    if ps != [] {
      assert ps == ps[..|ps|-1] + [ps[|ps|-1]];
      KeepKeyCounts(ps[..|ps|-1], k, segment, want, x);
    }
  }

  lemma KeepKeyPermutation(a: seq<Participant>, b: seq<Participant>, k: DomainKey, segment: Option<pos>, want: bool)
    requires multiset(a) == multiset(b)
    ensures multiset(KeepKey(a, k, segment, want)) == multiset(KeepKey(b, k, segment, want))
    ensures |KeepKey(a, k, segment, want)| == |KeepKey(b, k, segment, want)|
  {
    var s, t := KeepKey(a, k, segment, want), KeepKey(b, k, segment, want);
    forall x ensures multiset(s)[x] == multiset(t)[x] {
      KeepKeyCounts(a, k, segment, want, x);
      KeepKeyCounts(b, k, segment, want, x);
    }
    assert multiset(s) == multiset(t);
    assert |multiset(s)| == |s| && |multiset(t)| == |t|;
  }

  /** Complete segments ps can supply: for every key, its node count divided by the segment. */
  function TotalSegments(ps: seq<Participant>, segment: Option<pos>): nat
    decreases |ps|
  {
    if ps == [] then 0
    else
      var k := KeyOf(ps[0], segment);
      KeepKeyLength(ps, k, segment, false);
      |KeepKey(ps, k, segment, true)| / Size(segment) + TotalSegments(KeepKey(ps, k, segment, false), segment)
  }

  lemma TakeOutFirst(ps: seq<Participant>, segment: Option<pos>)
    requires ps != []
    ensures var k := KeyOf(ps[0], segment);
            && |KeepKey(ps, k, segment, false)| < |ps|
            && TotalSegments(ps, segment)
               == |KeepKey(ps, k, segment, true)| / Size(segment) + TotalSegments(KeepKey(ps, k, segment, false), segment)
  {
    KeepKeyLength(ps, KeyOf(ps[0], segment), segment, false);
  }

  lemma {:induction false} TakeOutKey(ps: seq<Participant>, k: DomainKey, segment: Option<pos>)
    ensures TotalSegments(ps, segment)
         == |KeepKey(ps, k, segment, true)| / Size(segment) + TotalSegments(KeepKey(ps, k, segment, false), segment)
    decreases |ps|
  {
    KeepKeyLength(ps, k, segment, true);
    KeepKeyLength(ps, k, segment, false);
    if ps == [] || KeyOf(ps[0], segment) == k {
    } else if exists p | p in ps :: KeyOf(p, segment) == k {
      var j := KeyOf(ps[0], segment);
      KeepKeyLength(ps, j, segment, false);
      TakeOutKey(KeepKey(ps, j, segment, false), k, segment);
      TakeOutKey(KeepKey(ps, k, segment, false), j, segment);
      KeepKeyCommutes(ps, k, j, segment);
      KeepKeyCommutes(ps, j, k, segment);
    }
  }

  lemma {:induction false} TotalSegmentsPermutation(a: seq<Participant>, b: seq<Participant>, segment: Option<pos>)
    requires multiset(a) == multiset(b)
    ensures TotalSegments(a, segment) == TotalSegments(b, segment)
    decreases |a|
  {
    assert |multiset(a)| == |multiset(b)|;
    if a != [] {
      hide TotalSegments, KeepKey, KeyOf, Size;
      var k := KeyOf(a[0], segment);
      TakeOutFirst(a, segment);
      KeepKeyPermutation(a, b, k, segment, true);
      KeepKeyPermutation(a, b, k, segment, false);
      SameLength(KeepKey(a, k, segment, true), KeepKey(b, k, segment, true));
      TotalSegmentsPermutation(KeepKey(a, k, segment, false), KeepKey(b, k, segment, false), segment);
      TakeOutKey(b, k, segment);
    }
  }

  function SegmentsOf(ds: seq<Domain>, seg: pos): nat {
    if ds == [] then 0 else SegmentsOf(ds[..|ds|-1], seg) + |ds[|ds|-1].members| / seg
  }

  lemma TotalSegmentsOfNewDomain(front: seq<Participant>, g: seq<Participant>, k: DomainKey, segment: Option<pos>)
    requires forall p | p in front :: KeyOf(p, segment) != k
    requires forall p | p in g :: KeyOf(p, segment) == k
    ensures TotalSegments(front + g, segment) == TotalSegments(front, segment) + |g| / Size(segment)
  {
    KeepKeyAppend(front, g, k, segment, true);
    KeepKeyAppend(front, g, k, segment, false);
    KeepKeyLength(front, k, segment, true);
    KeepKeyLength(front, k, segment, false);
    KeepKeyLength(g, k, segment, true);
    KeepKeyLength(g, k, segment, false);
    assert front + [] == front && [] + g == g;
    TakeOutKey(front + g, k, segment);
  }

  /** Counting domain by domain and counting node by node agree. */
  lemma {:induction false} SegmentsOfDomains(ds: seq<Domain>, segment: Option<pos>)
    requires WellGrouped(ds, segment)
    ensures SegmentsOf(ds, Size(segment)) == TotalSegments(Flatten(ds), segment)
  {
    if ds != [] {
      var init, last := ds[..|ds|-1], ds[|ds|-1];
      assert ds == init + [last];
      assert WellKeyed(last, segment);
      SegmentsOfDomains(init, segment);
      FlattenAppend(init, [last]);
      assert [last][1..] == [];
      assert Flatten([last]) == last.members;
      FlattenLacksKey(init, last.key, segment);
      TotalSegmentsOfNewDomain(Flatten(init), last.members, last.key, segment);
    }
  }

  lemma {:induction false} FlattenLacksKey(ds: seq<Domain>, k: DomainKey, segment: Option<pos>)
    requires forall d | d in ds :: WellKeyed(d, segment) && d.key != k
    ensures forall p | p in Flatten(ds) :: KeyOf(p, segment) != k
  {
    if ds != [] {
      assert ds[0] in ds;
      FlattenLacksKey(ds[1..], k, segment);
    }
  }

  // ---------------------------------------------------------------- infrastructure order

  predicate AnyUnassigned(ps: seq<Participant>) {
    exists p | p in ps :: p.infraRank == -1
  }

  function InfraRanks(ps: seq<Participant>): set<int> {
    set p | p in ps :: p.infraRank
  }

  /** Position of a node in a node-ordered list; the last one wins, as in a dict comprehension. */
  function PositionOf(ps: seq<Participant>, n: NodeDesc): nat {
    if ps == [] then 0
    else if ps[|ps|-1].node == n then |ps| - 1
    else PositionOf(ps[..|ps|-1], n)
  }

  /** Replaces every infrastructure rank by the node's position in the node order of `all`. */
  function Relabel(ps: seq<Participant>, all: seq<Participant>): seq<Participant> {
    if ps == [] then []
    else Relabel(ps[..|ps|-1], all) + [ps[|ps|-1].(infraRank := PositionOf(Sort(ByNodeLe, all), ps[|ps|-1].node))]
  }

  function SortRankable(active: seq<Participant>, standby: seq<Participant>)
    : Result<(seq<Participant>, seq<Participant>), AssignError>
  {
    var all := active + standby;
    if (exists p, q | p in active && q in standby :: p.node == q.node) then Err(BothActiveAndStandby)
    else if AnyUnassigned(all) then
      Ok((Sort(InfraLe, Relabel(active, all)), Sort(InfraLe, Relabel(standby, all))))
    else if |InfraRanks(all)| != |all| then Err(DuplicateInfraRank)
    else Ok((Sort(InfraLe, active), Sort(InfraLe, standby)))
  }

  // ---------------------------------------------------------------- the walk

  /** Complete segments taken after walking ds, of the `need` wanted. */
  function Taken(ds: seq<Domain>, need: nat, seg: pos): (t: nat)
    ensures t <= need
  {
    if ds == [] then 0
    else Taken(ds[..|ds|-1], need, seg) + TakeFrom(ds[|ds|-1], need - Taken(ds[..|ds|-1], need, seg), seg)
  }

  function TakeFrom(d: Domain, left: nat, seg: pos): (t: nat)
    ensures t <= left && t * seg <= |d.members|
  {
    var own := |d.members| / seg;
    assert own * seg <= |d.members|;
    if own <= left then own else (assert left * seg <= own * seg; left)
  }

  /** How many nodes of the last domain of ds get active ranks. */
  function NodesToTake(ds: seq<Domain>, need: nat, seg: pos): (n: nat)
    requires ds != []
    ensures n <= |ds[|ds|-1].members|
  {
    TakeFrom(ds[|ds|-1], need - Taken(ds[..|ds|-1], need, seg), seg) * seg
  }

  /** The nodes of ds given active ranks, in rank order. */
  function Active(ds: seq<Domain>, need: nat, seg: pos): seq<Participant> {
    if ds == [] then []
    else Active(ds[..|ds|-1], need, seg) + ds[|ds|-1].members[..NodesToTake(ds, need, seg)]
  }

  /** The nodes of ds left over for standby ranks, in rank order. */
  function Spare(ds: seq<Domain>, need: nat, seg: pos): seq<Participant> {
    if ds == [] then []
    else Spare(ds[..|ds|-1], need, seg) + ds[|ds|-1].members[NodesToTake(ds, need, seg)..]
  }

  lemma {:induction false} ActiveLength(ds: seq<Domain>, need: nat, seg: pos)
    ensures |Active(ds, need, seg)| == Taken(ds, need, seg) * seg
  {
    if ds != [] {
      var before := ds[..|ds|-1];
      ActiveLength(before, need, seg);
      var a, b := Taken(before, need, seg), TakeFrom(ds[|ds|-1], need - Taken(before, need, seg), seg);
      TimesOverPlus(a, b, seg);
      assert |ds[|ds|-1].members[..b * seg]| == b * seg;
    }
  }

  lemma TimesOverPlus(a: nat, b: nat, c: nat)
    ensures (a + b) * c == a * c + b * c
  {
  }

  function SortedDomains(active: seq<Participant>, segment: Option<pos>): seq<Domain> {
    Sort(HeadLe, Domains(active, segment))
  }

  /** All rankable nodes in rank order: active segments, then what the domains have left, then standby-only. */
  function RankOrder(active: seq<Participant>, standby: seq<Participant>, worldSize: nat, segment: Option<pos>)
    : seq<Participant>
  {
    var ds := SortedDomains(active, segment);
    var need := worldSize / Size(segment);
    Active(ds, need, Size(segment)) + Spare(ds, need, Size(segment)) + standby
  }

  function AssignOrder(active: seq<Participant>, worldSize: nat, standby: seq<Participant>, segment: Option<pos>)
    : Result<seq<Participant>, AssignError>
  {
    if worldSize % Size(segment) != 0 then Err(NotDivisible)
    else
      var sorted := SortRankable(active, standby);
      if sorted.Err? then Err(sorted.error)
      else if segment.Some? && exists p | p in active :: p.domain == "none" then Err(DomainMissing)
      else
        var need := worldSize / Size(segment);
        if Taken(SortedDomains(sorted.value.0, segment), need, Size(segment)) < need then Err(InsufficientNodes)
        else Ok(RankOrder(sorted.value.0, sorted.value.1, worldSize, segment))
  }

  function RanksOf(order: seq<Participant>): map<NodeDesc, nat> {
    if order == [] then map[]
    else RanksOf(order[..|order|-1])[order[|order|-1].node := |order| - 1]
  }

  /** The assignment as a function of its inputs; AssignGroupRanks is the loop that computes it. */
  function Assignment(active: seq<Participant>, worldSize: nat, standby: seq<Participant>, segment: Option<pos>)
    : Result<map<NodeDesc, nat>, AssignError>
  {
    var order := AssignOrder(active, worldSize, standby, segment);
    if order.Err? then Err(order.error) else Ok(RanksOf(order.value))
  }
}
