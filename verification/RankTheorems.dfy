/** What a successful rank assignment guarantees, and when it succeeds. */
module RankTheorems {
  import opened Prelude
  import opened Sorting
  import opened RankAssignment

  // ---------------------------------------------------------------- distinct nodes

  lemma DistinctPermutation(a: seq<Participant>, b: seq<Participant>)
    requires multiset(a) == multiset(b) && DistinctNodes(a)
    ensures DistinctNodes(b)
  {
    NoRepeatPermutation(a, b);
    forall i, j | 0 <= i < j < |b| ensures b[i].node != b[j].node {
      assert b[i] in multiset(a) && b[j] in multiset(a);
      var k :| 0 <= k < |a| && a[k] == b[i];
      var l :| 0 <= l < |a| && a[l] == b[j];
      assert k != l;
    }
  }

  lemma DistinctParts(a: seq<Participant>, b: seq<Participant>)
    requires DistinctNodes(a + b)
    ensures DistinctNodes(a) && DistinctNodes(b)
    ensures forall p, q | p in a && q in b :: p.node != q.node
  {
    forall i, j | 0 <= i < j < |a| ensures a[i].node != a[j].node {
      assert (a + b)[i] == a[i] && (a + b)[j] == a[j];
    }
    forall i, j | 0 <= i < j < |b| ensures b[i].node != b[j].node {
      assert (a + b)[|a| + i] == b[i] && (a + b)[|a| + j] == b[j];
    }
    forall p, q | p in a && q in b ensures p.node != q.node {
      var i :| 0 <= i < |a| && a[i] == p;
      var j :| 0 <= j < |b| && b[j] == q;
      assert (a + b)[i] == p && (a + b)[|a| + j] == q;
    }
  }

  lemma {:induction false} PositionInDistinct(ps: seq<Participant>, i: nat)
    requires DistinctNodes(ps) && i < |ps|
    ensures PositionOf(ps, ps[i].node) == i
  {
    if i < |ps| - 1 {
      assert ps[i].node != ps[|ps|-1].node;
      PositionInDistinct(ps[..|ps|-1], i);
    }
  }

  lemma {:induction false} RelabelAt(ps: seq<Participant>, all: seq<Participant>)
    ensures |Relabel(ps, all)| == |ps|
    ensures forall i | 0 <= i < |ps| ::
              Relabel(ps, all)[i] == ps[i].(infraRank := PositionOf(Sort(ByNodeLe, all), ps[i].node))
  {
    if ps != [] {
      RelabelAt(ps[..|ps|-1], all);
    }
  }

  lemma {:induction false} RelabelAppend(a: seq<Participant>, b: seq<Participant>, all: seq<Participant>)
    ensures Relabel(a + b, all) == Relabel(a, all) + Relabel(b, all)
  {
    RelabelAt(a + b, all);
    RelabelAt(a, all);
    RelabelAt(b, all);
  }

  /** The rank of a node in the node order of `all` grows with the node. */
  lemma PositionsOrdered(all: seq<Participant>, p: Participant, q: Participant)
    requires DistinctNodes(all) && p in all && q in all
    ensures PositionOf(Sort(ByNodeLe, all), p.node) <= PositionOf(Sort(ByNodeLe, all), q.node) <==> NodeLe(p.node, q.node)
  {
    var s := Sort(ByNodeLe, all);
    Orders();
    SortSorts(ByNodeLe, all);
    DistinctPermutation(all, s);
    assert p in multiset(s) && q in multiset(s);
    var i :| 0 <= i < |s| && s[i] == p;
    var j :| 0 <= j < |s| && s[j] == q;
    PositionInDistinct(s, i);
    PositionInDistinct(s, j);
    NodeLeTotal(p.node, q.node);
    hide PositionOf, Sort, TotalPreorder, DistinctNodes, NodeLe;
    if i < j { assert ByNodeLe(s[i], s[j]); }
    if j < i { assert ByNodeLe(s[j], s[i]); }
  }

  /** The infrastructure order the assignment uses: the reported ranks, or the node order when one is missing. */
  ghost predicate Before(all: seq<Participant>, p: Participant, q: Participant) {
    if AnyUnassigned(all) then NodeLe(p.node, q.node) && p.node != q.node
    else p.infraRank < q.infraRank
  }

  /** p as the walk sees it. */
  function Seen(all: seq<Participant>, p: Participant): Participant {
    if AnyUnassigned(all) then p.(infraRank := PositionOf(Sort(ByNodeLe, all), p.node)) else p
  }

  function SeenAll(ps: seq<Participant>, all: seq<Participant>): seq<Participant> {
    if AnyUnassigned(all) then Relabel(ps, all) else ps
  }

  lemma SeenAt(ps: seq<Participant>, all: seq<Participant>)
    ensures |SeenAll(ps, all)| == |ps|
    ensures forall i | 0 <= i < |ps| :: SeenAll(ps, all)[i] == Seen(all, ps[i])
  {
    RelabelAt(ps, all);
  }

  lemma InfraRanksSnoc(init: seq<Participant>, last: Participant)
    ensures InfraRanks(init + [last]) == InfraRanks(init) + {last.infraRank}
  {
  }

  lemma {:induction false} DistinctRanks(ps: seq<Participant>)
    ensures |InfraRanks(ps)| <= |ps|
    ensures |InfraRanks(ps)| == |ps| ==> forall i, j | 0 <= i < j < |ps| :: ps[i].infraRank != ps[j].infraRank
  {
    if ps != [] {
      hide InfraRanks;
      var init, last := ps[..|ps|-1], ps[|ps|-1];
      assert ps == init + [last];
      DistinctRanks(init);
      InfraRanksSnoc(init, last);
      RankIn(init, last.infraRank);
    }
  }

  lemma RankIn(ps: seq<Participant>, rank: int)
    ensures rank !in InfraRanks(ps) ==> forall i | 0 <= i < |ps| :: ps[i].infraRank != rank
  {
    assert forall i | 0 <= i < |ps| :: ps[i] in ps;
  }

  lemma SeenDistinct(active: seq<Participant>, standby: seq<Participant>)
    requires DistinctNodes(active + standby)
    ensures DistinctNodes(SeenAll(active, active + standby) + SeenAll(standby, active + standby))
  {
    var all := active + standby;
    SeenAt(active, all);
    SeenAt(standby, all);
    var seen := SeenAll(active, all) + SeenAll(standby, all);
    forall i, j | 0 <= i < j < |seen| ensures seen[i].node != seen[j].node {
      assert seen[i].node == all[i].node && seen[j].node == all[j].node;
    }
  }

  /** Distinct nodes are seen at distinct infrastructure ranks, in the order Before. */
  lemma SeenOrder(all: seq<Participant>, p: Participant, q: Participant)
    requires DistinctNodes(all) && p in all && q in all
    requires AnyUnassigned(all) || |InfraRanks(all)| == |all|
    ensures p != q ==> Seen(all, p).infraRank != Seen(all, q).infraRank
    ensures Seen(all, p).infraRank < Seen(all, q).infraRank <==> Before(all, p, q)
  {
    var i :| 0 <= i < |all| && all[i] == p;
    var j :| 0 <= j < |all| && all[j] == q;
    if AnyUnassigned(all) {
      PositionsOrdered(all, p, q);
      PositionsOrdered(all, q, p);
      NodeLeTotal(p.node, q.node);
    } else {
      DistinctRanks(all);
    }
  }

  /** For distinct nodes the sort succeeds into two lists the walk can use: both ordered, and together the
      same nodes as seen by the walk. */
  lemma SortRankableFacts(active: seq<Participant>, standby: seq<Participant>)
    requires DistinctNodes(active + standby)
    ensures SortRankable(active, standby).Err? <==>
              !AnyUnassigned(active + standby) && |InfraRanks(active + standby)| != |active + standby|
    ensures SortRankable(active, standby).Err? ==> SortRankable(active, standby).error == DuplicateInfraRank
    ensures SortRankable(active, standby).Ok? ==>
              var (a, s) := SortRankable(active, standby).value;
              var all := active + standby;
              && a == Sort(InfraLe, SeenAll(active, all)) && s == Sort(InfraLe, SeenAll(standby, all))
              && multiset(a) == multiset(SeenAll(active, all)) && multiset(s) == multiset(SeenAll(standby, all))
              && Sorted(InfraLe, a) && Sorted(InfraLe, s)
              && DistinctNodes(a + s)
  {
    var all := active + standby;
    DistinctParts(active, standby);
    if SortRankable(active, standby).Ok? {
      var (a, s) := SortRankable(active, standby).value;
      assert a == Sort(InfraLe, SeenAll(active, all)) && s == Sort(InfraLe, SeenAll(standby, all));
      Orders();
      SortSorts(InfraLe, SeenAll(active, all));
      SortSorts(InfraLe, SeenAll(standby, all));
      SeenDistinct(active, standby);
      DistinctPermutation(SeenAll(active, all) + SeenAll(standby, all), a + s);
    }
  }

  // ---------------------------------------------------------------- the walk over domains

  lemma {:induction false} WalkPartitions(ds: seq<Domain>, need: nat, seg: pos)
    ensures multiset(Active(ds, need, seg) + Spare(ds, need, seg)) == multiset(Flatten(ds))
  {
    hide NodesToTake;
    if ds != [] {
      var before, last := ds[..|ds|-1], ds[|ds|-1];
      assert ds == before + [last];
      WalkPartitions(before, need, seg);
      FlattenSnoc(before, last);
      var take := NodesToTake(ds, need, seg);
      CutCounts(last.members, take);
      Interleave(Active(before, need, seg), last.members[..take], Spare(before, need, seg), last.members[take..]);
    }
  }

  lemma FlattenSnoc(ds: seq<Domain>, d: Domain)
    ensures Flatten(ds + [d]) == Flatten(ds) + d.members
  {
    FlattenAppend(ds, [d]);
    assert [d][1..] == [];
  }

  lemma {:induction false} TakenIsMin(ds: seq<Domain>, need: nat, seg: pos)
    ensures Taken(ds, need, seg) == if SegmentsOf(ds, seg) <= need then SegmentsOf(ds, seg) else need
  {
    if ds != [] {
      TakenIsMin(ds[..|ds|-1], need, seg);
    }
  }

  lemma TimesMonotone(a: nat, b: nat, c: nat)
    requires a <= b
    ensures a * c <= b * c
  {
  }

  /** A block taken from the last domain walked. */
  lemma BlockInLast(ds: seq<Domain>, need: nat, segment: Option<pos>, b: nat, i: nat)
    requires ds != [] && WellKeyed(ds[|ds|-1], segment)
    requires Taken(ds[..|ds|-1], need, Size(segment)) <= b < Taken(ds, need, Size(segment))
    requires b * Size(segment) <= i < b * Size(segment) + Size(segment)
    ensures i < |Active(ds, need, Size(segment))| && b * Size(segment) < |Active(ds, need, Size(segment))|
    ensures KeyOf(Active(ds, need, Size(segment))[i], segment)
         == KeyOf(Active(ds, need, Size(segment))[b * Size(segment)], segment)
  {
    var seg := Size(segment);
    var before, last := ds[..|ds|-1], ds[|ds|-1];
    ActiveLength(before, need, seg);
    ActiveLength(ds, need, seg);
    TimesOverPlus(b, 1, seg);
    TimesMonotone(Taken(before, need, seg), b, seg);
    TimesMonotone(b + 1, Taken(ds, need, seg), seg);
    var n := |Active(before, need, seg)|;
    hide Size, Taken, KeyOf;
    FromLast(ds, need, seg, i);
    FromLast(ds, need, seg, b * seg);
    OneKey(last, segment, i - n, b * seg - n);
  }

  lemma FromLast(ds: seq<Domain>, need: nat, seg: pos, i: nat)
    requires ds != [] && |Active(ds[..|ds|-1], need, seg)| <= i < |Active(ds, need, seg)|
    ensures i - |Active(ds[..|ds|-1], need, seg)| < |ds[|ds|-1].members|
    ensures Active(ds, need, seg)[i] == ds[|ds|-1].members[i - |Active(ds[..|ds|-1], need, seg)|]
  {
  }

  lemma OneKey(d: Domain, segment: Option<pos>, i: nat, j: nat)
    requires WellKeyed(d, segment) && i < |d.members| && j < |d.members|
    ensures KeyOf(d.members[i], segment) == KeyOf(d.members[j], segment)
  {
    assert d.members[i] in d.members && d.members[j] in d.members;
  }

  lemma ActivePrefix(ds: seq<Domain>, need: nat, seg: pos)
    requires ds != []
    ensures Active(ds[..|ds|-1], need, seg) <= Active(ds, need, seg)
  {
  }

  /** Block b of the active ranks lies in one domain. */
  lemma {:induction false} BlockInOneDomain(ds: seq<Domain>, need: nat, segment: Option<pos>, b: nat, i: nat)
    requires WellGrouped(ds, segment)
    requires b < Taken(ds, need, Size(segment)) && b * Size(segment) <= i < b * Size(segment) + Size(segment)
    ensures i < |Active(ds, need, Size(segment))| && b * Size(segment) < |Active(ds, need, Size(segment))|
    ensures KeyOf(Active(ds, need, Size(segment))[i], segment)
         == KeyOf(Active(ds, need, Size(segment))[b * Size(segment)], segment)
  {
    var before, last := ds[..|ds|-1], ds[|ds|-1];
    hide Active, KeyOf, Size, WellKeyed;
    if b < Taken(before, need, Size(segment)) {
      BlockInOneDomain(before, need, segment, b, i);
      ActivePrefix(ds, need, Size(segment));
    } else {
      assert WellKeyed(last, segment);
      BlockInLast(ds, need, segment, b, i);
    }
  }

  ghost predicate KeyOrdered(ps: seq<Participant>, segment: Option<pos>) {
    forall i, j | 0 <= i < j < |ps| && KeyOf(ps[i], segment) == KeyOf(ps[j], segment) :: InfraLe(ps[i], ps[j])
  }

  lemma KeyOrderedAppend(a: seq<Participant>, g: seq<Participant>, k: DomainKey, segment: Option<pos>)
    requires KeyOrdered(a, segment) && Sorted(InfraLe, g)
    requires (forall p | p in a :: KeyOf(p, segment) != k) && (forall p | p in g :: KeyOf(p, segment) == k)
    ensures KeyOrdered(a + g, segment)
  {
    var s := a + g;
    assert forall i | 0 <= i < |a| :: s[i] == a[i] && a[i] in a;
    assert forall i | |a| <= i < |s| :: s[i] == g[i - |a|] && g[i - |a|] in g;
  }

  ghost predicate CrossOrdered(a: seq<Participant>, s: seq<Participant>, segment: Option<pos>) {
    forall p, q | p in a && q in s && KeyOf(p, segment) == KeyOf(q, segment) :: InfraLe(p, q)
  }

  lemma WalkStaysInDomains(ds: seq<Domain>, need: nat, segment: Option<pos>, k: DomainKey)
    requires forall d | d in ds :: WellKeyed(d, segment) && d.key != k
    ensures forall p | p in Active(ds, need, Size(segment)) :: KeyOf(p, segment) != k
    ensures forall p | p in Spare(ds, need, Size(segment)) :: KeyOf(p, segment) != k
  {
    var a, s := Active(ds, need, Size(segment)), Spare(ds, need, Size(segment));
    WalkPartitions(ds, need, Size(segment));
    FlattenLacksKey(ds, k, segment);
    forall p | p in a || p in s ensures KeyOf(p, segment) != k {
      assert p in multiset(a + s);
      assert p in multiset(Flatten(ds));
    }
  }

  /** Every domain is walked in infrastructure order: first its active nodes, then its spare ones. */
  lemma {:induction false} WalkKeepsOrder(ds: seq<Domain>, need: nat, segment: Option<pos>)
    requires WellGrouped(ds, segment) && EachSorted(ds)
    ensures KeyOrdered(Active(ds, need, Size(segment)), segment)
    ensures KeyOrdered(Spare(ds, need, Size(segment)), segment)
    ensures CrossOrdered(Active(ds, need, Size(segment)), Spare(ds, need, Size(segment)), segment)
  {
    if ds != [] {
      var seg := Size(segment);
      var before, last := ds[..|ds|-1], ds[|ds|-1];
      WalkKeepsOrder(before, need, segment);
      WalkStaysInDomains(before, need, segment, last.key);
      var take := NodesToTake(ds, need, seg);
      WalkStep(Active(before, need, seg), Spare(before, need, seg), last, take, segment);
    }
  }

  lemma WalkStep(a: seq<Participant>, s: seq<Participant>, d: Domain, take: nat, segment: Option<pos>)
    requires KeyOrdered(a, segment) && KeyOrdered(s, segment) && CrossOrdered(a, s, segment)
    requires (forall p | p in a :: KeyOf(p, segment) != d.key) && (forall p | p in s :: KeyOf(p, segment) != d.key)
    requires WellKeyed(d, segment) && Sorted(InfraLe, d.members) && take <= |d.members|
    ensures KeyOrdered(a + d.members[..take], segment) && KeyOrdered(s + d.members[take..], segment)
    ensures CrossOrdered(a + d.members[..take], s + d.members[take..], segment)
  {
    var g, h := d.members[..take], d.members[take..];
    KeyOrderedAppend(a, g, d.key, segment);
    KeyOrderedAppend(s, h, d.key, segment);
    forall p, q | p in a + g && q in s + h && KeyOf(p, segment) == KeyOf(q, segment) ensures InfraLe(p, q) {
      if p in g && q in h {
        var i :| 0 <= i < |g| && g[i] == p;
        var j :| 0 <= j < |h| && h[j] == q;
        assert InfraLe(d.members[i], d.members[take + j]);
      }
    }
  }

  /** Active ranks visit the domains in the order of ds. */
  lemma {:induction false} WalkVisitsInOrder(ds: seq<Domain>, need: nat, seg: pos, i: nat, j: nat)
    returns (a: nat, b: nat)
    requires i <= j < |Active(ds, need, seg)|
    ensures a <= b < |ds|
    ensures Active(ds, need, seg)[i] in ds[a].members && Active(ds, need, seg)[j] in ds[b].members
  {
    var before, last := ds[..|ds|-1], ds[|ds|-1];
    var n := |Active(before, need, seg)|;
    var take := NodesToTake(ds, need, seg);
    var act := Active(ds, need, seg);
    assert act == Active(before, need, seg) + last.members[..take];
    if j < n {
      a, b := WalkVisitsInOrder(before, need, seg, i, j);
    } else {
      b := |ds| - 1;
      assert act[j] == last.members[j - n];
      if i < n {
        var c;
        a, c := WalkVisitsInOrder(before, need, seg, i, i);
      } else {
        a := |ds| - 1;
        assert act[i] == last.members[i - n];
      }
    }
  }

  lemma {:induction false} SpareVisitsInOrder(ds: seq<Domain>, need: nat, seg: pos, i: nat, j: nat)
    returns (a: nat, b: nat)
    requires i <= j < |Spare(ds, need, seg)|
    ensures a <= b < |ds|
    ensures Spare(ds, need, seg)[i] in ds[a].members && Spare(ds, need, seg)[j] in ds[b].members
  {
    var before, last := ds[..|ds|-1], ds[|ds|-1];
    var n := |Spare(before, need, seg)|;
    var take := NodesToTake(ds, need, seg);
    var spare := Spare(ds, need, seg);
    assert spare == Spare(before, need, seg) + last.members[take..];
    if j < n {
      a, b := SpareVisitsInOrder(before, need, seg, i, j);
    } else {
      b := |ds| - 1;
      assert spare[j] == last.members[take + j - n];
      if i < n {
        var c;
        a, c := SpareVisitsInOrder(before, need, seg, i, i);
      } else {
        a := |ds| - 1;
        assert spare[i] == last.members[take + i - n];
      }
    }
  }

  // ---------------------------------------------------------------- the assignment

  lemma {:induction false} RanksAt(order: seq<Participant>)
    requires DistinctNodes(order)
    ensures forall k | 0 <= k < |order| :: order[k].node in RanksOf(order) && RanksOf(order)[order[k].node] == k
    ensures forall n | n in RanksOf(order) :: RanksOf(order)[n] < |order| && order[RanksOf(order)[n]].node == n
  {
    if order != [] {
      var init, last := order[..|order|-1], order[|order|-1];
      RanksAt(init);
      forall k | 0 <= k < |init| ensures init[k].node != last.node {
        assert order[k].node != order[|init|].node;
      }
    }
  }

  /** The domains the walk visits: grouped, ordered inside, and ordered among themselves. */
  lemma DomainsFacts(a: seq<Participant>, segment: Option<pos>)
    requires Sorted(InfraLe, a)
    ensures WellGrouped(SortedDomains(a, segment), segment) && EachSorted(SortedDomains(a, segment))
    ensures Sorted(HeadLe, SortedDomains(a, segment))
    ensures multiset(Flatten(SortedDomains(a, segment))) == multiset(a)
    ensures SegmentsOf(SortedDomains(a, segment), Size(segment)) == TotalSegments(a, segment)
  {
    var gs, ds := Domains(a, segment), SortedDomains(a, segment);
    DomainsGroup(a, segment);
    DomainsSorted(a, segment);
    Orders();
    SortSorts(HeadLe, gs);
    FlattenPermutation(ds, gs);
    forall d | d in ds ensures d in gs {
      assert d in multiset(ds);
    }
    DistinctKeysPermutation(gs, ds);
    SegmentsOfDomains(ds, segment);
    TotalSegmentsPermutation(Flatten(ds), a, segment);
  }

  lemma DistinctKeysPermutation(gs: seq<Domain>, ds: seq<Domain>)
    requires multiset(gs) == multiset(ds)
    requires forall i, j | 0 <= i < j < |gs| :: gs[i].key != gs[j].key
    ensures forall i, j | 0 <= i < j < |ds| :: ds[i].key != ds[j].key
  {
    NoRepeatPermutation(gs, ds);
    forall i, j | 0 <= i < j < |ds| ensures ds[i].key != ds[j].key {
      assert ds[i] in multiset(gs) && ds[j] in multiset(gs);
      var k :| 0 <= k < |gs| && gs[k] == ds[i];
      var l :| 0 <= l < |gs| && gs[l] == ds[j];
      assert k != l;
    }
  }

  /** A rank order holds every rankable node once, active candidates first. */
  ghost predicate Layout(order: seq<Participant>, active: seq<Participant>, standby: seq<Participant>) {
    var all := active + standby;
    && DistinctNodes(order) && |order| == |all|
    && multiset(order[..|active|]) == multiset(SeenAll(active, all))
    && multiset(order[|active|..]) == multiset(SeenAll(standby, all))
  }

  lemma ExactDivision(w: nat, s: pos)
    requires w % s == 0
    ensures (w / s) * s == w
  {
  }

  lemma WalkFacts(a: seq<Participant>, worldSize: nat, segment: Option<pos>)
    requires Sorted(InfraLe, a) && worldSize % Size(segment) == 0
    requires Taken(SortedDomains(a, segment), worldSize / Size(segment), Size(segment)) == worldSize / Size(segment)
    ensures var ds := SortedDomains(a, segment);
            var act, spare := Active(ds, worldSize / Size(segment), Size(segment)), Spare(ds, worldSize / Size(segment), Size(segment));
            && multiset(act + spare) == multiset(a) && |act| == worldSize && |act + spare| == |a|
  {
    DomainsFacts(a, segment);
    var ds, seg := SortedDomains(a, segment), Size(segment);
    var need := worldSize / seg;
    WalkPartitions(ds, need, seg);
    ActiveLength(ds, need, seg);
    ExactDivision(worldSize, seg);
    SameLength(Active(ds, need, seg) + Spare(ds, need, seg), a);
  }

  lemma OrderFacts(active: seq<Participant>, worldSize: nat, standby: seq<Participant>, segment: Option<pos>)
    requires DistinctNodes(active + standby) && AssignOrder(active, worldSize, standby, segment).Ok?
    ensures Layout(AssignOrder(active, worldSize, standby, segment).value, active, standby)
    ensures worldSize <= |active|
    ensures Sorted(InfraLe, AssignOrder(active, worldSize, standby, segment).value[|active|..])
  {
    hide Active, Spare, SortedDomains, Taken, Sort, Layout, DistinctNodes;
    var order := AssignOrder(active, worldSize, standby, segment).value;
    SortRankableFacts(active, standby);
    var (a, s) := SortRankable(active, standby).value;
    WalkFacts(a, worldSize, segment);
    LayoutFrom(active, standby, a, s, order[..|a|]);
    assert order[|a|..] == s;
  }

  lemma LayoutFrom(active: seq<Participant>, standby: seq<Participant>, a: seq<Participant>, s: seq<Participant>,
                   front: seq<Participant>)
    requires var all := active + standby;
             && multiset(a) == multiset(SeenAll(active, all)) && multiset(s) == multiset(SeenAll(standby, all))
             && DistinctNodes(a + s) && multiset(front) == multiset(a)
    ensures Layout(front + s, active, standby) && |a| == |active|
  {
    var all := active + standby;
    SeenAt(active, all);
    SeenAt(standby, all);
    assert |multiset(front)| == |multiset(a)| == |multiset(SeenAll(active, all))|;
    assert |multiset(s)| == |multiset(SeenAll(standby, all))|;
    assert (front + s)[..|active|] == front && (front + s)[|active|..] == s;
    DistinctPermutation(a + s, front + s);
  }

  /** A rankable node sits in the rank order at its own rank. */
  lemma RankPosition(order: seq<Participant>, active: seq<Participant>, standby: seq<Participant>, p: Participant)
    requires Layout(order, active, standby) && p in active + standby
    ensures p.node in RanksOf(order)
    ensures RanksOf(order)[p.node] < |order| && order[RanksOf(order)[p.node]] == Seen(active + standby, p)
    ensures p in active ==> RanksOf(order)[p.node] < |active|
    ensures p in standby ==> RanksOf(order)[p.node] >= |active|
  {
    var all := active + standby;
    RanksAt(order);
    SeenAt(active, all);
    SeenAt(standby, all);
    if p in active {
      var i :| 0 <= i < |active| && active[i] == p;
      var k := IndexIn(SeenAll(active, all), i, order[..|active|]);
      assert order[k] == Seen(all, p);
    }
    if p in standby {
      var i :| 0 <= i < |standby| && standby[i] == p;
      var k := IndexIn(SeenAll(standby, all), i, order[|active|..]);
      assert order[|active| + k] == Seen(all, p);
    }
  }

  /** Every rank belongs to a rankable node. */
  lemma RankOwner(order: seq<Participant>, active: seq<Participant>, standby: seq<Participant>, k: nat)
    returns (p: Participant)
    requires Layout(order, active, standby) && k < |order|
    ensures p in active + standby && order[k] == Seen(active + standby, p)
  {
    var all := active + standby;
    SeenAt(active, all);
    SeenAt(standby, all);
    if k < |active| {
      var i := IndexIn(order[..|active|], k, SeenAll(active, all));
      p := active[i];
    } else {
      var i := IndexIn(order[|active|..], k - |active|, SeenAll(standby, all));
      p := standby[i];
    }
  }

  ghost predicate Hit(m: map<NodeDesc, nat>, k: nat) {
    exists n | n in m :: m[n] == k
  }

  /** What a successful assignment was computed from: the ordered candidates, the walk over their domains, and
      the resulting rank order. */
  lemma Opened(active: seq<Participant>, worldSize: nat, standby: seq<Participant>, segment: Option<pos>)
    returns (order: seq<Participant>, a: seq<Participant>)
    requires DistinctNodes(active + standby) && Assignment(active, worldSize, standby, segment).Ok?
    ensures Assignment(active, worldSize, standby, segment) == Ok(RanksOf(order))
    ensures Layout(order, active, standby) && worldSize <= |active| == |a| <= |order|
    ensures Sorted(InfraLe, a) && multiset(a) == multiset(SeenAll(active, active + standby))
    ensures order[..|a|] == Candidates(a, worldSize, segment) && Sorted(InfraLe, order[|a|..])
    ensures worldSize % Size(segment) == 0
    ensures Taken(SortedDomains(a, segment), worldSize / Size(segment), Size(segment)) == worldSize / Size(segment)
    ensures |Active(SortedDomains(a, segment), worldSize / Size(segment), Size(segment))| == worldSize
    ensures AnyUnassigned(active + standby) || |InfraRanks(active + standby)| == |active + standby|
  {
    order := AssignOrder(active, worldSize, standby, segment).value;
    OrderFacts(active, worldSize, standby, segment);
    SortRankableFacts(active, standby);
    a := SortRankable(active, standby).value.0;
    WalkFacts(a, worldSize, segment);
    SeenAt(active, active + standby);
    SameLength(a, SeenAll(active, active + standby));
  }

  /** The active candidates in rank order. */
  function Candidates(a: seq<Participant>, worldSize: nat, segment: Option<pos>): seq<Participant> {
    var ds := SortedDomains(a, segment);
    Active(ds, worldSize / Size(segment), Size(segment)) + Spare(ds, worldSize / Size(segment), Size(segment))
  }

  /** A successful assignment is a bijection from all rankable nodes onto [0, n), it fills every active rank with
      an active candidate, and it gives standby-only nodes ranks outside the active world. */
  lemma AssignmentIsBijection(active: seq<Participant>, worldSize: nat, standby: seq<Participant>, segment: Option<pos>)
    requires DistinctNodes(active + standby) && Assignment(active, worldSize, standby, segment).Ok?
    ensures var m := Assignment(active, worldSize, standby, segment).value;
            var all := active + standby;
            && m.Keys == (set p | p in all :: p.node)
            && (forall n | n in m :: m[n] < |all|)
            && (forall n, n' | n in m && n' in m && n != n' :: m[n] != m[n'])
            && (forall k: nat | k < |all| :: Hit(m, k))
            && worldSize <= |active|
            && (forall p | p in active :: m[p.node] < |active|)
            && (forall p | p in standby :: m[p.node] >= |active|)
  {
    hide Assignment, AssignOrder, Active, Spare, SortedDomains, RanksOf, Sorted;
    var order, a := Opened(active, worldSize, standby, segment);
    LayoutIsBijection(order, active, standby);
  }

  lemma LayoutIsBijection(order: seq<Participant>, active: seq<Participant>, standby: seq<Participant>)
    requires Layout(order, active, standby)
    ensures var m := RanksOf(order);
            var all := active + standby;
            && m.Keys == (set p | p in all :: p.node)
            && (forall n | n in m :: m[n] < |all|)
            && (forall n, n' | n in m && n' in m && n != n' :: m[n] != m[n'])
            && (forall k: nat | k < |all| :: Hit(m, k))
            && (forall p | p in active :: m[p.node] < |active|)
            && (forall p | p in standby :: m[p.node] >= |active|)
  {
    var m := RanksOf(order);
    var all := active + standby;
    RanksAt(order);
    forall p | p in all
      ensures p.node in m && (p in active ==> m[p.node] < |active|) && (p in standby ==> m[p.node] >= |active|)
    {
      RankPosition(order, active, standby, p);
    }
    forall n | n in m ensures n in set p | p in all :: p.node {
      var p := RankOwner(order, active, standby, m[n]);
    }
    forall k: nat | k < |all| ensures Hit(m, k) {
      assert m[order[k].node] == k;
    }
  }

  /** With a segment configured, every aligned block of `segment` active ranks lies in one domain. */
  lemma AlignedBlocksShareDomain(active: seq<Participant>, worldSize: nat, standby: seq<Participant>, seg: pos,
                                 p: Participant, q: Participant)
    requires DistinctNodes(active + standby) && Assignment(active, worldSize, standby, Some(seg)).Ok?
    requires p in active && q in active
    ensures var m := Assignment(active, worldSize, standby, Some(seg)).value;
            p.node in m && q.node in m
            && (m[p.node] < worldSize && m[q.node] < worldSize && m[p.node] / seg == m[q.node] / seg
                ==> p.domain == q.domain)
  {
    hide Assignment, AssignOrder, Active, Spare, SortedDomains, RanksOf, Layout, Sort, Candidates;
    var order, a := Opened(active, worldSize, standby, Some(seg));
    RankPosition(order, active, standby, p);
    RankPosition(order, active, standby, q);
    var i, j := RanksOf(order)[p.node], RanksOf(order)[q.node];
    if i < worldSize && j < worldSize && i / seg == j / seg {
      BlockDomains(a, worldSize, seg, i, j);
      assert order[i] == order[..|a|][i] && order[j] == order[..|a|][j];
    }
  }

  lemma BlockDomains(a: seq<Participant>, worldSize: nat, seg: pos, i: nat, j: nat)
    requires Sorted(InfraLe, a) && worldSize % seg == 0
    requires Taken(SortedDomains(a, Some(seg)), worldSize / seg, seg) == worldSize / seg
    requires i < worldSize && j < worldSize && i / seg == j / seg
    ensures worldSize <= |Candidates(a, worldSize, Some(seg))|
    ensures var c := Candidates(a, worldSize, Some(seg)); c[i].domain == c[j].domain
  {
    hide Active, Spare, SortedDomains, Taken;
    DomainsFacts(a, Some(seg));
    var ds, need, b := SortedDomains(a, Some(seg)), worldSize / seg, i / seg;
    ActiveLength(ds, need, seg);
    ExactDivision(worldSize, seg);
    BlockBounds(i, seg, worldSize);
    BlockBounds(j, seg, worldSize);
    BlockInOneDomain(ds, need, Some(seg), b, i);
    BlockInOneDomain(ds, need, Some(seg), b, j);
  }

  lemma BlockBounds(i: nat, seg: pos, w: nat)
    requires i < w && w % seg == 0
    ensures (i / seg) * seg <= i < (i / seg) * seg + seg && i / seg < w / seg
  {
    ExactDivision(w, seg);
    if w / seg <= i / seg {
      TimesMonotone(w / seg, i / seg, seg);
    }
  }

  /** Two active candidates of one domain are ranked in infrastructure order, active and spare ranks alike. */
  lemma DomainFollowsInfraOrder(active: seq<Participant>, worldSize: nat, standby: seq<Participant>, seg: pos,
                                p: Participant, q: Participant)
    requires DistinctNodes(active + standby) && Assignment(active, worldSize, standby, Some(seg)).Ok?
    requires p in active && q in active && p.domain == q.domain
    ensures var m := Assignment(active, worldSize, standby, Some(seg)).value;
            p.node in m && q.node in m && (m[p.node] < m[q.node] <==> Before(active + standby, p, q))
  {
    hide Assignment, AssignOrder, Active, Spare, SortedDomains, RanksOf, Layout, Sort, Candidates, Before;
    var all := active + standby;
    var order, a := Opened(active, worldSize, standby, Some(seg));
    RankPosition(order, active, standby, p);
    RankPosition(order, active, standby, q);
    CandidatesKeyOrdered(a, worldSize, Some(seg));
    SeenOrder(all, p, q);
    SeenOrder(all, q, p);
    var i, j := RanksOf(order)[p.node], RanksOf(order)[q.node];
    assert order[i] == order[..|a|][i] && order[j] == order[..|a|][j];
  }

  /** The nodes that are standby only are ranked in infrastructure order. */
  lemma StandbyFollowsInfraOrder(active: seq<Participant>, worldSize: nat, standby: seq<Participant>,
                                 segment: Option<pos>, p: Participant, q: Participant)
    requires DistinctNodes(active + standby) && Assignment(active, worldSize, standby, segment).Ok?
    requires p in standby && q in standby
    ensures var m := Assignment(active, worldSize, standby, segment).value;
            p.node in m && q.node in m && (m[p.node] < m[q.node] <==> Before(active + standby, p, q))
  {
    hide Assignment, AssignOrder, Active, Spare, SortedDomains, RanksOf, Layout, Sort, Candidates, Before;
    var all := active + standby;
    var order, a := Opened(active, worldSize, standby, segment);
    RankPosition(order, active, standby, p);
    RankPosition(order, active, standby, q);
    SeenOrder(all, p, q);
    SeenOrder(all, q, p);
    var i, j := RanksOf(order)[p.node], RanksOf(order)[q.node];
    assert order[i] == order[|a|..][i - |a|] && order[j] == order[|a|..][j - |a|];
  }

  lemma CandidatesKeyOrdered(a: seq<Participant>, worldSize: nat, segment: Option<pos>)
    requires Sorted(InfraLe, a)
    ensures KeyOrdered(Candidates(a, worldSize, segment), segment)
  {
    hide Active, Spare, SortedDomains, Flatten;
    DomainsFacts(a, segment);
    var ds, need := SortedDomains(a, segment), worldSize / Size(segment);
    WalkKeepsOrder(ds, need, segment);
    var act, spare := Active(ds, need, Size(segment)), Spare(ds, need, Size(segment));
    KeyOrderedConcat(act, spare, segment);
  }

  lemma KeyOrderedConcat(a: seq<Participant>, s: seq<Participant>, segment: Option<pos>)
    requires KeyOrdered(a, segment) && KeyOrdered(s, segment) && CrossOrdered(a, s, segment)
    ensures KeyOrdered(a + s, segment)
  {
    var front := a + s;
    assert forall i | 0 <= i < |a| :: front[i] == a[i] && a[i] in a;
    assert forall i | |a| <= i < |front| :: front[i] == s[i - |a|] && s[i - |a|] in s;
  }

  /** Active ranks visit the domains in topology order: when p is ranked before q, p's domain has a node that
      comes no later than any node of q's domain. Without a segment every node is a domain of its own. */
  lemma ActiveRanksFollowTopology(active: seq<Participant>, worldSize: nat, standby: seq<Participant>,
                                  segment: Option<pos>, p: Participant, q: Participant)
    returns (head: Participant)
    requires DistinctNodes(active + standby) && Assignment(active, worldSize, standby, segment).Ok?
    requires p in active && q in active
    requires var m := Assignment(active, worldSize, standby, segment).value;
             p.node in m && q.node in m && m[p.node] < m[q.node] < worldSize
    ensures head in active && SameDomain(head, p, segment)
    ensures forall t | t in active && SameDomain(t, q, segment) :: head == t || Before(active + standby, head, t)
  {
    hide Assignment, AssignOrder, Active, Spare, SortedDomains, RanksOf, Layout, Sort, Candidates, Before, SeenAll;
    var all := active + standby;
    var order, a := Opened(active, worldSize, standby, segment);
    RankPosition(order, active, standby, p);
    RankPosition(order, active, standby, q);
    var i, j := RanksOf(order)[p.node], RanksOf(order)[q.node];
    assert order[i] == order[..|a|][i] && order[j] == order[..|a|][j];
    var h := TopologyHead(a, worldSize, segment, i, j);
    head := SeenBy(active, all, a, h);
    SeenKey(all, head, p, segment);
    forall t | t in active && SameDomain(t, q, segment) ensures head == t || Before(all, head, t) {
      SeenKey(all, t, q, segment);
      SeenIn(active, all, a, t);
      SeenOrder(all, head, t);
    }
  }

  /** The candidates left over are ranked domain by domain in the same order. */
  lemma SpareRanksFollowTopology(active: seq<Participant>, worldSize: nat, standby: seq<Participant>,
                                 segment: Option<pos>, p: Participant, q: Participant)
    returns (head: Participant)
    requires DistinctNodes(active + standby) && Assignment(active, worldSize, standby, segment).Ok?
    requires p in active && q in active
    requires var m := Assignment(active, worldSize, standby, segment).value;
             p.node in m && q.node in m && worldSize <= m[p.node] < m[q.node]
    ensures head in active && SameDomain(head, p, segment)
    ensures forall t | t in active && SameDomain(t, q, segment) :: head == t || Before(active + standby, head, t)
  {
    hide Assignment, AssignOrder, Active, Spare, SortedDomains, RanksOf, Layout, Sort, Candidates, Before, SeenAll;
    var all := active + standby;
    var order, a := Opened(active, worldSize, standby, segment);
    RankPosition(order, active, standby, p);
    RankPosition(order, active, standby, q);
    var i, j := RanksOf(order)[p.node], RanksOf(order)[q.node];
    assert order[i] == order[..|a|][i] && order[j] == order[..|a|][j];
    var h := SpareHead(a, worldSize, segment, worldSize, i, j);
    head := SeenBy(active, all, a, h);
    SeenKey(all, head, p, segment);
    forall t | t in active && SameDomain(t, q, segment) ensures head == t || Before(all, head, t) {
      SeenKey(all, t, q, segment);
      SeenIn(active, all, a, t);
      SeenOrder(all, head, t);
    }
  }

  predicate SameDomain(p: Participant, q: Participant, segment: Option<pos>) {
    if segment.Some? then p.domain == q.domain else p == q
  }

  lemma SeenKey(all: seq<Participant>, p: Participant, q: Participant, segment: Option<pos>)
    requires DistinctNodes(all) && p in all && q in all
    requires AnyUnassigned(all) || |InfraRanks(all)| == |all|
    ensures KeyOf(Seen(all, p), segment) == KeyOf(Seen(all, q), segment) <==> SameDomain(p, q, segment)
  {
    SeenOrder(all, p, q);
  }

  lemma SeenBy(active: seq<Participant>, all: seq<Participant>, a: seq<Participant>, h: Participant)
    returns (p: Participant)
    requires multiset(a) == multiset(SeenAll(active, all)) && h in a
    ensures p in active && Seen(all, p) == h
  {
    SeenAt(active, all);
    SameMembers(a, SeenAll(active, all));
    var i :| 0 <= i < |active| && SeenAll(active, all)[i] == h;
    p := active[i];
  }

  lemma SeenIn(active: seq<Participant>, all: seq<Participant>, a: seq<Participant>, p: Participant)
    requires multiset(a) == multiset(SeenAll(active, all)) && p in active
    ensures Seen(all, p) in a
  {
    SeenAt(active, all);
    SameMembers(a, SeenAll(active, all));
    var i :| 0 <= i < |active| && active[i] == p;
    assert SeenAll(active, all)[i] == Seen(all, p);
  }

  /** A member of a domain visited no later than another has a domain mate that comes no later than anyone there. */
  lemma HeadOf(a: seq<Participant>, segment: Option<pos>, x: nat, y: nat) returns (h: Participant)
    requires Sorted(InfraLe, a) && x <= y < |SortedDomains(a, segment)|
    ensures var ds := SortedDomains(a, segment);
            && h in a && WellKeyed(ds[x], segment) && WellKeyed(ds[y], segment) && KeyOf(h, segment) == ds[x].key
            && forall t | t in a && KeyOf(t, segment) == ds[y].key :: InfraLe(h, t)
  {
    hide SortedDomains, Flatten;
    DomainsFacts(a, segment);
    var ds := SortedDomains(a, segment);
    SameMembers(a, Flatten(ds));
    assert WellKeyed(ds[x], segment) && WellKeyed(ds[y], segment);
    h := ds[x].members[0];
    FlattenHas(ds, x, h);
    assert x < y ==> HeadLe(ds[x], ds[y]);
    forall t | t in a && KeyOf(t, segment) == ds[y].key ensures InfraLe(h, t) {
      DomainHeadFirst(ds, y, segment, t);
    }
  }

  lemma TopologyHead(a: seq<Participant>, worldSize: nat, segment: Option<pos>, i: nat, j: nat)
    returns (h: Participant)
    requires Sorted(InfraLe, a)
    requires i < j < |Active(SortedDomains(a, segment), worldSize / Size(segment), Size(segment))|
    ensures |Active(SortedDomains(a, segment), worldSize / Size(segment), Size(segment))| <= |Candidates(a, worldSize, segment)|
    ensures var c := Candidates(a, worldSize, segment);
            && h in a && KeyOf(h, segment) == KeyOf(c[i], segment)
            && forall t | t in a && KeyOf(t, segment) == KeyOf(c[j], segment) :: InfraLe(h, t)
  {
    hide Active, Spare, SortedDomains;
    var x, y := WalkVisitsInOrder(SortedDomains(a, segment), worldSize / Size(segment), Size(segment), i, j);
    h := HeadOf(a, segment, x, y);
  }

  lemma SpareHead(a: seq<Participant>, worldSize: nat, segment: Option<pos>, n: nat, i: nat, j: nat)
    returns (h: Participant)
    requires Sorted(InfraLe, a) && n == |Active(SortedDomains(a, segment), worldSize / Size(segment), Size(segment))|
    requires n <= i < j < |Candidates(a, worldSize, segment)|
    ensures var c := Candidates(a, worldSize, segment);
            && h in a && KeyOf(h, segment) == KeyOf(c[i], segment)
            && forall t | t in a && KeyOf(t, segment) == KeyOf(c[j], segment) :: InfraLe(h, t)
  {
    hide Active, Spare, SortedDomains;
    var x, y := SpareVisitsInOrder(SortedDomains(a, segment), worldSize / Size(segment), Size(segment), i - n, j - n);
    h := HeadOf(a, segment, x, y);
  }

  lemma DomainHeadFirst(ds: seq<Domain>, y: nat, segment: Option<pos>, t: Participant)
    requires WellGrouped(ds, segment) && EachSorted(ds) && y < |ds|
    requires t in Flatten(ds) && KeyOf(t, segment) == ds[y].key
    ensures ds[y].members != [] && InfraLe(ds[y].members[0], t)
  {
    var z := FlattenFrom(ds, t);
    assert WellKeyed(ds[z], segment) && WellKeyed(ds[y], segment);
    assert z == y;
    assert ds[y] in ds;
    Orders();
    HeadIsLeast(InfraLe, ds[y].members, t);
  }

  lemma {:induction false} FlattenHas(ds: seq<Domain>, x: nat, p: Participant)
    requires x < |ds| && p in ds[x].members
    ensures p in Flatten(ds)
  {
    if x > 0 {
      FlattenHas(ds[1..], x - 1, p);
    }
  }

  lemma {:induction false} FlattenFrom(ds: seq<Domain>, p: Participant) returns (x: nat)
    requires p in Flatten(ds)
    ensures x < |ds| && p in ds[x].members
  {
    if p in ds[0].members {
      x := 0;
    } else {
      x := FlattenFrom(ds[1..], p);
      x := x + 1;
    }
  }

  // ---------------------------------------------------------------- arrival order

  lemma SeenPermutation(a: seq<Participant>, b: seq<Participant>, all: seq<Participant>, all': seq<Participant>)
    requires multiset(a) == multiset(b) && multiset(all) == multiset(all') && DistinctNodes(all)
    ensures AnyUnassigned(all) == AnyUnassigned(all') && InfraRanks(all) == InfraRanks(all')
    ensures multiset(SeenAll(a, all)) == multiset(SeenAll(b, all'))
  {
    forall p ensures p in all <==> p in all' {
      assert p in multiset(all) <==> p in multiset(all');
    }
    Orders();
    NodesDistinctKeys(all);
    SortPermutation(ByNodeLe, all, all');
    if AnyUnassigned(all) {
      RelabelPermutation(a, b, all, all');
    }
  }

  lemma NodesDistinctKeys(all: seq<Participant>)
    requires DistinctNodes(all)
    ensures DistinctKeys(ByNodeLe, all)
  {
    forall p, q | p in all && q in all && ByNodeLe(p, q) && ByNodeLe(q, p) ensures p == q {
      NodeLeTotal(p.node, q.node);
    }
  }

  lemma RelabelRemove(ps: seq<Participant>, all: seq<Participant>, i: nat)
    requires i < |ps|
    ensures multiset(Relabel(ps, all))
         == multiset(Relabel(RemoveAt(ps, i), all))
          + multiset{ps[i].(infraRank := PositionOf(Sort(ByNodeLe, all), ps[i].node))}
  {
    hide Relabel, Sort, PositionOf;
    RelabelAt(ps, all);
    var rest := RemoveAt(ps, i);
    RelabelAt(rest, all);
    var r := Relabel(ps, all);
    RemoveAtCounts(r, i);
    assert forall k | 0 <= k < |rest| :: rest[k] == if k < i then ps[k] else ps[k + 1];
    assert RemoveAt(r, i) == Relabel(rest, all);
  }

  lemma {:induction false} RelabelPermutation(a: seq<Participant>, b: seq<Participant>, all: seq<Participant>,
                                              all': seq<Participant>)
    requires multiset(a) == multiset(b) && Sort(ByNodeLe, all) == Sort(ByNodeLe, all')
    ensures multiset(Relabel(a, all)) == multiset(Relabel(b, all'))
    decreases |a|
  {
    SameLength(a, b);
    if a != [] {
      var i := IndexIn(a, 0, b);
      RemoveAtCounts(a, 0);
      RemoveAtCounts(b, i);
      RelabelPermutation(RemoveAt(a, 0), RemoveAt(b, i), all, all');
      RelabelRemove(a, all, 0);
      RelabelRemove(b, all', i);
    }
  }

  /** Arrival order does not matter to the sort. */
  lemma SameSortRankable(active: seq<Participant>, active': seq<Participant>, standby: seq<Participant>,
                         standby': seq<Participant>)
    requires multiset(active) == multiset(active') && multiset(standby) == multiset(standby')
    requires DistinctNodes(active + standby)
    ensures SortRankable(active, standby) == SortRankable(active', standby')
  {
    hide Relabel, SeenAll, Sort, AnyUnassigned, InfraRanks;
    var all, all' := active + standby, active' + standby';
    DistinctPermutation(all, all');
    SeenPermutation(active, active', all, all');
    SeenPermutation(standby, standby', all, all');
    SameLength(all, all');
    SortRankableFacts(active, standby);
    SortRankableFacts(active', standby');
    if SortRankable(active, standby).Ok? {
      SeenDistinctKeys(active, standby);
      Orders();
      hide SortRankable, TotalPreorder, DistinctKeys;
      SortPermutation(InfraLe, SeenAll(active, all), SeenAll(active', all'));
      SortPermutation(InfraLe, SeenAll(standby, all), SeenAll(standby', all'));
    }
  }

  /** For distinct nodes the assignment, its error included, does not depend on arrival order: with reported
      infrastructure ranks and with the synthetic ranks used when one is missing. */
  lemma ArrivalOrderIrrelevant(active: seq<Participant>, active': seq<Participant>, worldSize: nat,
                               standby: seq<Participant>, standby': seq<Participant>, segment: Option<pos>)
    requires multiset(active) == multiset(active') && multiset(standby) == multiset(standby')
    requires DistinctNodes(active + standby)
    ensures Assignment(active, worldSize, standby, segment) == Assignment(active', worldSize, standby', segment)
  {
    hide SortRankable, SortedDomains, RankOrder, RanksOf, Taken, DistinctNodes;
    SameSortRankable(active, active', standby, standby');
    SameMembers(active, active');
  }

  lemma SeenApart(all: seq<Participant>)
    requires DistinctNodes(all) && (AnyUnassigned(all) || |InfraRanks(all)| == |all|)
    ensures forall p, q | p in all && q in all && Seen(all, p).infraRank == Seen(all, q).infraRank :: p == q
  {
    hide Seen, AnyUnassigned, InfraRanks, DistinctNodes;
    forall p, q | p in all && q in all && Seen(all, p).infraRank == Seen(all, q).infraRank ensures p == q {
      SeenOrder(all, p, q);
    }
  }

  lemma SeenKeysApart(ps: seq<Participant>, all: seq<Participant>)
    requires DistinctNodes(all) && (AnyUnassigned(all) || |InfraRanks(all)| == |all|)
    requires forall i | 0 <= i < |ps| :: ps[i] in all
    ensures DistinctKeys(InfraLe, SeenAll(ps, all))
  {
    SeenApart(all);
    SeenAt(ps, all);
    hide Seen, SeenAll, AnyUnassigned, InfraRanks, DistinctNodes;
    var seen := SeenAll(ps, all);
    forall a, b | a in seen && b in seen && InfraLe(a, b) && InfraLe(b, a) ensures a == b {
      var i :| 0 <= i < |ps| && seen[i] == a;
      var j :| 0 <= j < |ps| && seen[j] == b;
      assert ps[i] == ps[j];
    }
  }

  lemma SeenDistinctKeys(active: seq<Participant>, standby: seq<Participant>)
    requires DistinctNodes(active + standby) && SortRankable(active, standby).Ok?
    ensures DistinctKeys(InfraLe, SeenAll(active, active + standby))
    ensures DistinctKeys(InfraLe, SeenAll(standby, active + standby))
  {
    var all := active + standby;
    SortRankableFacts(active, standby);
    hide SortRankable, SeenAll, AnyUnassigned, InfraRanks, DistinctNodes, DistinctKeys;
    assert forall i | 0 <= i < |active| :: active[i] in all;
    assert forall i | 0 <= i < |standby| :: standby[i] in all;
    SeenKeysApart(active, all);
    SeenKeysApart(standby, all);
  }

  // ---------------------------------------------------------------- feasibility

  /** The count the host checks before closing: enough complete segments for worldSize active ranks. */
  predicate EnoughSegments(ps: seq<Participant>, worldSize: nat, segment: Option<pos>) {
    (if segment.Some? then TotalSegments(ps, segment) else |ps|) >= worldSize / Size(segment)
  }

  lemma {:induction false} SingletonDomains(ps: seq<Participant>)
    requires forall i, j | 0 <= i < j < |ps| :: ps[i].infraRank != ps[j].infraRank
    ensures TotalSegments(ps, None) == |ps|
  {
    if ps == [] {
      assert TotalSegments(ps, None) == 0;
    } else {
      hide TotalSegments;
      var init, last := ps[..|ps|-1], ps[|ps|-1];
      assert ps == init + [last];
      SingletonDomains(init);
      assert forall p | p in init :: KeyOf(p, None) != KeyOf(last, None);
      assert forall p | p in [last] :: KeyOf(p, None) == KeyOf(last, None);
      TotalSegmentsOfNewDomain(init, [last], KeyOf(last, None), None);
    }
  }

  lemma {:induction false} TotalSegmentsIgnoresRanks(a: seq<Participant>, all: seq<Participant>, seg: pos)
    ensures TotalSegments(SeenAll(a, all), Some(seg)) == TotalSegments(a, Some(seg))
  {
    if AnyUnassigned(all) {
      RelabelTotal(a, all, seg);
    }
  }

  lemma {:induction false} RelabelKeep(a: seq<Participant>, all: seq<Participant>, k: DomainKey, seg: pos, want: bool)
    ensures KeepKey(Relabel(a, all), k, Some(seg), want) == Relabel(KeepKey(a, k, Some(seg), want), all)
  {
    if a != [] {
      var init, last := a[..|a|-1], a[|a|-1];
      assert a == init + [last];
      RelabelKeep(init, all, k, seg, want);
      RelabelAppend(init, [last], all);
      RelabelAppend(KeepKey(init, k, Some(seg), want), [last], all);
      RelabelAt([last], all);
      var seen := Relabel([last], all)[0];
      assert Relabel([last], all) == [seen];
      KeepKeySnoc(init, last, k, Some(seg), want);
      KeepKeySnoc(Relabel(init, all), seen, k, Some(seg), want);
    }
  }

  /** One domain taken out of relabelled candidates. */
  lemma RelabelFirst(a: seq<Participant>, all: seq<Participant>, seg: pos)
    requires a != []
    ensures var k := KeyOf(a[0], Some(seg));
            && |KeepKey(a, k, Some(seg), false)| < |a|
            && TotalSegments(Relabel(a, all), Some(seg))
               == |KeepKey(a, k, Some(seg), true)| / seg + TotalSegments(Relabel(KeepKey(a, k, Some(seg), false), all), Some(seg))
            && TotalSegments(a, Some(seg))
               == |KeepKey(a, k, Some(seg), true)| / seg + TotalSegments(KeepKey(a, k, Some(seg), false), Some(seg))
  {
    var k := KeyOf(a[0], Some(seg));
    RelabelAt(a, all);
    KeepKeyLength(a, k, Some(seg), false);
    RelabelKeep(a, all, k, seg, true);
    RelabelKeep(a, all, k, seg, false);
    RelabelAt(KeepKey(a, k, Some(seg), true), all);
    hide Relabel, KeepKey;
  }

  lemma {:induction false} RelabelTotal(a: seq<Participant>, all: seq<Participant>, seg: pos)
    ensures TotalSegments(Relabel(a, all), Some(seg)) == TotalSegments(a, Some(seg))
    decreases |a|
  {
    if a != [] {
      hide TotalSegments, Relabel, KeepKey;
      RelabelFirst(a, all, seg);
      RelabelTotal(KeepKey(a, KeyOf(a[0], Some(seg)), Some(seg), false), all, seg);
    }
  }

  /** The counting check accepts exactly the candidate sets on which the walk reaches worldSize. */
  lemma CountingMatchesWalk(active: seq<Participant>, worldSize: nat, standby: seq<Participant>, segment: Option<pos>)
    requires DistinctNodes(active + standby) && worldSize % Size(segment) == 0
    requires SortRankable(active, standby).Ok?
    ensures EnoughSegments(active, worldSize, segment) <==>
              Taken(SortedDomains(SortRankable(active, standby).value.0, segment), worldSize / Size(segment), Size(segment))
              == worldSize / Size(segment)
  {
    hide Sort, Domains, Active, Spare, Taken, Flatten, Relabel, RanksOf, TotalSegments, SegmentsOf;
    var all := active + standby;
    SortRankableFacts(active, standby);
    var (a, s) := SortRankable(active, standby).value;
    DomainsFacts(a, segment);
    TakenIsMin(SortedDomains(a, segment), worldSize / Size(segment), Size(segment));
    TotalSegmentsPermutation(a, SeenAll(active, all), segment);
    if segment.Some? {
      TotalSegmentsIgnoresRanks(active, all, segment.value);
    } else {
      SeenAt(active, all);
      forall i, j | 0 <= i < j < |active|
        ensures SeenAll(active, all)[i].infraRank != SeenAll(active, all)[j].infraRank
      {
        assert all[i] == active[i] && all[j] == active[j];
        SeenOrder(all, active[i], active[j]);
      }
      SingletonDomains(SeenAll(active, all));
    }
  }

  /** Once the check has accepted a snapshot, closing it never fails for lack of nodes; when it has not, the
      assignment never succeeds. */
  lemma CheckedSnapshotIsSufficient(active: seq<Participant>, worldSize: nat, standby: seq<Participant>, segment: Option<pos>)
    requires DistinctNodes(active + standby) && worldSize % Size(segment) == 0
    ensures EnoughSegments(active, worldSize, segment) ==>
              Assignment(active, worldSize, standby, segment) != Err(InsufficientNodes)
    ensures !EnoughSegments(active, worldSize, segment) ==> Assignment(active, worldSize, standby, segment).Err?
  {
    hide Sort, Domains, Active, Spare, Taken, Flatten, Relabel, RanksOf, TotalSegments, SegmentsOf;
    SortRankableFacts(active, standby);
    if SortRankable(active, standby).Ok? {
      CountingMatchesWalk(active, worldSize, standby, segment);
    }
  }
}
