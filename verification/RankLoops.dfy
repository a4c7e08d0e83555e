/** The loops of ft_rendezvous_barrier.py that count segments and hand out ranks, proved against the functions
    RankTheorems speaks about. */
module RankLoops {
  import opened Prelude
  import opened Sorting
  import opened RankAssignment
  import opened RankTheorems

  ghost predicate MissingDomain(ps: seq<Participant>, segment: Option<pos>) {
    segment.Some? && exists p | p in ps :: p.domain == "none"
  }

  /** `domain_to_count[d] += 1` on an insertion-ordered dict. */
  function Bump(counts: seq<(string, nat)>, d: string): seq<(string, nat)> {
    if counts == [] then [(d, 1)]
    else if counts[0].0 == d then [(d, counts[0].1 + 1)] + counts[1..]
    else [counts[0]] + Bump(counts[1..], d)
  }

  ghost predicate Counts(counts: seq<(string, nat)>, ds: seq<Domain>) {
    && |counts| == |ds|
    && forall i | 0 <= i < |ds| :: ds[i].key == ByDomain(counts[i].0) && |ds[i].members| == counts[i].1
  }

  lemma {:induction false} BumpCounts(counts: seq<(string, nat)>, ds: seq<Domain>, p: Participant, seg: pos)
    requires Counts(counts, ds)
    ensures Counts(Bump(counts, p.domain), AddToDomain(ds, p, Some(seg)))
  {
    if ds != [] && ds[0].key != KeyOf(p, Some(seg)) {
      BumpCounts(counts[1..], ds[1..], p, seg);
    }
  }

  method CanMeetSegmentConstraint(ps: seq<Participant>, worldSize: nat, segment: Option<pos>)
    returns (r: Result<bool, AssignError>)
    ensures r == if MissingDomain(ps, segment) then Err(DomainMissing) else Ok(EnoughSegments(ps, worldSize, segment))
  {
    var seg := Size(segment);
    var total := 0;
    if segment.Some? {
      var counts: seq<(string, nat)> := [];
      for i := 0 to |ps|
        invariant forall k | 0 <= k < i :: ps[k].domain != "none"
        invariant Counts(counts, Domains(ps[..i], segment))
      {
        if ps[i].domain == "none" {
          return Err(DomainMissing);
        }
        assert ps[..i + 1][..i] == ps[..i];
        BumpCounts(counts, Domains(ps[..i], segment), ps[i], seg);
        counts := Bump(counts, ps[i].domain);
      }
      assert ps[..|ps|] == ps;
      ghost var ds := Domains(ps, segment);
      for i := 0 to |counts|
        invariant total == SegmentsOf(ds[..i], seg)
      {
        assert ds[..i + 1][..i] == ds[..i];
        total := total + counts[i].1 / seg;
      }
      assert ds[..|ds|] == ds;
      DomainsGroup(ps, segment);
      SegmentsOfDomains(ds, segment);
      TotalSegmentsPermutation(Flatten(ds), ps, segment);
    } else {
      total := |ps| / seg;
    }
    r := Ok(total >= worldSize / seg);
  }

  /** Gives the nodes of ps consecutive ranks from `base`; a repeated node keeps the last one. */
  function Put(m: map<NodeDesc, nat>, ps: seq<Participant>, base: nat): map<NodeDesc, nat> {
    if ps == [] then m
    else Put(m, ps[..|ps|-1], base)[ps[|ps|-1].node := base + |ps| - 1]
  }

  /** The dict after the walk over ds. */
  function WalkRanks(ds: seq<Domain>, need: nat, seg: pos, worldSize: nat): map<NodeDesc, nat> {
    if ds == [] then map[]
    else
      var before, last, take := ds[..|ds|-1], ds[|ds|-1].members, NodesToTake(ds, need, seg);
      Put(Put(WalkRanks(before, need, seg, worldSize), last[..take], |Active(before, need, seg)|),
          last[take..], worldSize + |Spare(before, need, seg)|)
  }

  function NodeSet(ps: seq<Participant>): set<NodeDesc> {
    set p | p in ps :: p.node
  }

  /** m gives `act` the ranks from 0 upwards, `spare` those from w upwards, and ranks nobody else. */
  ghost predicate HandedOut(m: map<NodeDesc, nat>, act: seq<Participant>, spare: seq<Participant>, w: nat) {
    && m.Keys == NodeSet(act) + NodeSet(spare)
    && (forall k | 0 <= k < |act| :: act[k].node in m && m[act[k].node] == k)
    && (forall k | 0 <= k < |spare| :: spare[k].node in m && m[spare[k].node] == w + k)
  }

  lemma NodeSetSnoc(ps: seq<Participant>, p: Participant)
    ensures NodeSet(ps + [p]) == NodeSet(ps) + {p.node}
  {
    assert p in ps + [p];
    assert forall q :: q in ps ==> q in ps + [p];
  }

  lemma HandOutOne(m: map<NodeDesc, nat>, act: seq<Participant>, spare: seq<Participant>, w: nat, p: Participant)
    requires HandedOut(m, act, spare, w) && p.node !in m
    ensures HandedOut(m[p.node := |act|], act + [p], spare, w)
    ensures HandedOut(m[p.node := w + |spare|], act, spare + [p], w)
  {
    NodeSetSnoc(act, p);
    NodeSetSnoc(spare, p);
  }

  lemma LastIsNew(ps: seq<Participant>)
    requires DistinctNodes(ps) && ps != []
    ensures DistinctNodes(ps[..|ps|-1]) && ps[|ps|-1].node !in NodeSet(ps[..|ps|-1])
  {
  }

  lemma FreshNodes(a: seq<Participant>, b: seq<Participant>)
    requires DistinctNodes(a + b)
    ensures DistinctNodes(a) && DistinctNodes(b)
    ensures forall p | p in b :: p.node !in NodeSet(a)
  {
    DistinctParts(a, b);
  }

  lemma {:induction false} PutHandsOut(m: map<NodeDesc, nat>, act: seq<Participant>, spare: seq<Participant>, w: nat,
                                       ps: seq<Participant>)
    requires HandedOut(m, act, spare, w) && DistinctNodes(ps) && forall p | p in ps :: p.node !in m
    ensures HandedOut(Put(m, ps, |act|), act + ps, spare, w)
    ensures HandedOut(Put(m, ps, w + |spare|), act, spare + ps, w)
  {
    hide HandedOut, NodeSet, DistinctNodes;
    if ps == [] {
      assert act + ps == act && spare + ps == spare;
    } else {
      var init, last := ps[..|ps|-1], ps[|ps|-1];
      LastIsNew(ps);
      PutHandsOut(m, act, spare, w, init);
      PutKeys(m, init, |act|);
      PutKeys(m, init, w + |spare|);
      HandOutOne(Put(m, init, |act|), act + init, spare, w, last);
      HandOutOne(Put(m, init, w + |spare|), act, spare + init, w, last);
      assert ps == init + [last];
      Associative(act, init, [last]);
      Associative(spare, init, [last]);
    }
  }

  lemma {:induction false} PutKeys(m: map<NodeDesc, nat>, ps: seq<Participant>, base: nat)
    ensures Put(m, ps, base).Keys == m.Keys + NodeSet(ps)
  {
    if ps != [] {
      PutKeys(m, ps[..|ps|-1], base);
      NodeSetSnoc(ps[..|ps|-1], ps[|ps|-1]);
      assert ps == ps[..|ps|-1] + [ps[|ps|-1]];
    }
  }

  /** Over distinct nodes the walk hands out exactly the active and spare ranks. */
  lemma {:induction false} WalkHandsOut(ds: seq<Domain>, need: nat, seg: pos, w: nat)
    requires DistinctNodes(Flatten(ds))
    ensures HandedOut(WalkRanks(ds, need, seg, w), Active(ds, need, seg), Spare(ds, need, seg), w)
  {
    hide HandedOut, NodeSet, Flatten, Put, NodesToTake, DistinctNodes;
    if ds == [] {
      NothingHandedOut(w);
    } else {
      var before, last := ds[..|ds|-1], ds[|ds|-1];
      assert ds == before + [last];
      FlattenSnoc(before, last);
      FreshNodes(Flatten(before), last.members);
      WalkHandsOut(before, need, seg, w);
      WalkKeys(before, need, seg, w);
      StepHandsOut(WalkRanks(before, need, seg, w), Active(before, need, seg), Spare(before, need, seg), w,
                   last.members, NodesToTake(ds, need, seg));
    }
  }

  lemma NothingHandedOut(w: nat)
    ensures HandedOut(map[], [], [], w)
  {
    assert NodeSet([]) == {};
  }

  lemma StepHandsOut(m: map<NodeDesc, nat>, act: seq<Participant>, spare: seq<Participant>, w: nat,
                     ps: seq<Participant>, take: nat)
    requires HandedOut(m, act, spare, w) && DistinctNodes(ps) && forall p | p in ps :: p.node !in m
    requires take <= |ps|
    ensures HandedOut(Put(Put(m, ps[..take], |act|), ps[take..], w + |spare|), act + ps[..take], spare + ps[take..], w)
  {
    hide HandedOut, NodeSet;
    assert ps == ps[..take] + ps[take..];
    FreshNodes(ps[..take], ps[take..]);
    PutHandsOut(m, act, spare, w, ps[..take]);
    PutKeys(m, ps[..take], |act|);
    PutHandsOut(Put(m, ps[..take], |act|), act + ps[..take], spare, w, ps[take..]);
  }

  lemma WalkKeys(ds: seq<Domain>, need: nat, seg: pos, w: nat)
    requires HandedOut(WalkRanks(ds, need, seg, w), Active(ds, need, seg), Spare(ds, need, seg), w)
    ensures WalkRanks(ds, need, seg, w).Keys == NodeSet(Flatten(ds))
  {
    hide WalkRanks, Active, Spare, Flatten;
    var act, spare := Active(ds, need, seg), Spare(ds, need, seg);
    WalkPartitions(ds, need, seg);
    SameMembers(act + spare, Flatten(ds));
    assert NodeSet(act) + NodeSet(spare) == NodeSet(Flatten(ds));
  }

  lemma HandedOutIsRanks(m: map<NodeDesc, nat>, act: seq<Participant>, spare: seq<Participant>, w: nat)
    requires HandedOut(m, act, spare, w) && |act| == w && DistinctNodes(act + spare)
    ensures m == RanksOf(act + spare)
  {
    hide RanksOf;
    var order := act + spare;
    RanksAt(order);
    forall n | n in m ensures n in RanksOf(order) && m[n] == RanksOf(order)[n] {
      var k := PlaceOf(act, spare, n);
      assert order[k] == if k < w then act[k] else spare[k - w];
    }
    forall n | n in RanksOf(order) ensures n in m {
      var k := RanksOf(order)[n];
      assert order[k] == if k < w then act[k] else spare[k - w];
    }
  }

  lemma PlaceOf(act: seq<Participant>, spare: seq<Participant>, n: NodeDesc) returns (k: nat)
    requires n in NodeSet(act) + NodeSet(spare)
    ensures k < |act| + |spare| && (if k < |act| then act[k].node == n else spare[k - |act|].node == n)
  {
    if n in NodeSet(act) {
      k :| 0 <= k < |act| && act[k].node == n;
    } else {
      k :| 0 <= k < |spare| && spare[k].node == n;
      k := k + |act|;
    }
  }

  /** The loop that gives consecutive ranks to a run of nodes. */
  method RankRun(ranks: map<NodeDesc, nat>, ps: seq<Participant>, base: nat)
    returns (result: map<NodeDesc, nat>, next: nat)
    ensures result == Put(ranks, ps, base) && next == base + |ps|
  {
    result, next := ranks, base;
    for i := 0 to |ps|
      invariant result == Put(ranks, ps[..i], base) && next == base + i
    {
      assert ps[..i + 1][..i] == ps[..i];
      result := result[ps[i].node := next];
      next := next + 1;
    }
    assert ps[..|ps|] == ps;
  }

  /** `{key: [p] ...}` on an insertion-ordered dict: a repeated key keeps its place and takes the new value. */
  function SetDomain(ds: seq<Domain>, p: Participant): seq<Domain> {
    if ds == [] then [Domain(ByInfra(p.infraRank), [p])]
    else if ds[0].key == ByInfra(p.infraRank) then [Domain(ds[0].key, [p])] + ds[1..]
    else [ds[0]] + SetDomain(ds[1..], p)
  }

  lemma {:induction false} SetNewDomain(ds: seq<Domain>, p: Participant)
    requires !HasKey(ds, ByInfra(p.infraRank))
    ensures SetDomain(ds, p) == AddToDomain(ds, p, None)
  {
    if ds != [] {
      assert ds[0] in ds;
      SetNewDomain(ds[1..], p);
    }
  }

  /** In a list without repeated infrastructure ranks, every node opens a domain of its own. */
  lemma NextDomainIsNew(a: seq<Participant>, i: nat)
    requires i < |a| && forall j, k | 0 <= j < k < |a| :: a[j].infraRank != a[k].infraRank
    ensures !HasKey(Domains(a[..i], None), ByInfra(a[i].infraRank))
  {
    DomainsGroup(a[..i], None);
    var ds := Domains(a[..i], None);
    SameMembers(a[..i], Flatten(ds));
    forall d | d in ds ensures d.key != ByInfra(a[i].infraRank) {
      assert WellKeyed(d, None);
      var x :| 0 <= x < |ds| && ds[x] == d;
      FlattenHas(ds, x, d.members[0]);
    }
  }

  lemma SortedRanksDiffer(active: seq<Participant>, standby: seq<Participant>)
    requires DistinctNodes(active + standby) && SortRankable(active, standby).Ok?
    ensures var a := SortRankable(active, standby).value.0;
            forall j, k | 0 <= j < k < |a| :: a[j].infraRank != a[k].infraRank
  {
    SortRankableFacts(active, standby);
    var (a, s) := SortRankable(active, standby).value;
    var all := active + standby;
    DistinctParts(a, s);
    forall j, k | 0 <= j < k < |a| ensures a[j].infraRank != a[k].infraRank {
      var p := SeenBy(active, all, a, a[j]);
      var q := SeenBy(active, all, a, a[k]);
      SeenOrder(all, p, q);
    }
  }

  /** The assignment read off the sorted candidates, case by case. */
  lemma AssignmentCases(active: seq<Participant>, worldSize: nat, standby: seq<Participant>, segment: Option<pos>)
    requires DistinctNodes(active + standby)
    ensures var result := Assignment(active, worldSize, standby, segment);
            var seg := Size(segment);
            if worldSize % seg != 0 then result == Err(NotDivisible)
            else if SortRankable(active, standby).Err? then result == Err(SortRankable(active, standby).error)
            else
              var (a, s) := SortRankable(active, standby).value;
              var ds := SortedDomains(a, segment);
              if MissingDomain(a, segment) then result == Err(DomainMissing)
              else if Taken(ds, worldSize / seg, seg) < worldSize / seg then result == Err(InsufficientNodes)
              else result == Ok(RanksOf(RankOrder(a, s, worldSize, segment)))
                   && Layout(RankOrder(a, s, worldSize, segment), active, standby)
  {
    hide SortedDomains, Taken, RanksOf, RankOrder, Sort, Layout;
    if worldSize % Size(segment) == 0 && SortRankable(active, standby).Ok? {
      SortRankableFacts(active, standby);
      var (a, s) := SortRankable(active, standby).value;
      MissingDomainSorted(active, active + standby, a, segment);
      if Assignment(active, worldSize, standby, segment).Ok? {
        OrderFacts(active, worldSize, standby, segment);
      }
    }
  }

  lemma MissingDomainSorted(active: seq<Participant>, all: seq<Participant>, a: seq<Participant>, segment: Option<pos>)
    requires multiset(a) == multiset(SeenAll(active, all))
    ensures MissingDomain(a, segment) <==> MissingDomain(active, segment)
  {
    if segment.Some? {
      if h :| h in a && h.domain == "none" {
        var p := SeenBy(active, all, a, h);
      }
      if p :| p in active && p.domain == "none" {
        SeenIn(active, all, a, p);
      }
    }
  }

  /** `_assign_group_ranks`: for distinct nodes it computes Assignment, errors included. */
  method AssignGroupRanks(active: seq<Participant>, worldSize: nat, standby: seq<Participant>, segment: Option<pos>)
    returns (r: Result<map<NodeDesc, nat>, AssignError>)
    ensures DistinctNodes(active + standby) ==> r == Assignment(active, worldSize, standby, segment)
  {
    hide Assignment, AssignOrder, SortRankable, Active, Spare, Sort, Taken, TakeFrom, RanksOf, Layout;
    var seg := Size(segment);
    ghost var distinct := DistinctNodes(active + standby);
    if distinct { AssignmentCases(active, worldSize, standby, segment); }
    if worldSize % seg != 0 {
      return Err(NotDivisible);
    }
    var sorted := SortRankable(active, standby);
    if sorted.Err? {
      return Err(sorted.error);
    }
    var (a, s) := sorted.value;
    if distinct { SortedRanksDiffer(active, standby); }

    var domains: seq<Domain> := [];
    for i := 0 to |a|
      invariant segment.Some? ==> forall k | 0 <= k < i :: a[k].domain != "none"
      invariant distinct ==> domains == Domains(a[..i], segment)
    {
      assert a[..i + 1][..i] == a[..i];
      if segment.Some? {
        if a[i].domain == "none" {
          return Err(DomainMissing);
        }
        domains := AddToDomain(domains, a[i], segment);
      } else {
        if distinct {
          NextDomainIsNew(a, i);
          SetNewDomain(domains, a[i]);
        }
        domains := SetDomain(domains, a[i]);
      }
    }
    assert a[..|a|] == a;

    var ds := Sort(HeadLe, domains);
    if distinct {
      SortRankableFacts(active, standby);
      DomainsFacts(a, segment);
      DistinctPermutation(a + s, Flatten(ds) + s);
    }
    r := RankDomains(ds, worldSize, s, seg);
  }

  method SegmentsToTake(d: Domain, activeSegments: nat, numSegments: nat, seg: pos) returns (t: nat)
    requires activeSegments <= numSegments
    ensures t == TakeFrom(d, numSegments - activeSegments, seg)
  {
    var domainSegments := |d.members| / seg;
    if activeSegments < numSegments && domainSegments > 0 {
      t := if domainSegments < numSegments - activeSegments then domainSegments else numSegments - activeSegments;
    } else {
      t := 0;
    }
  }

  /** The single pass over the ordered domains, then the standby-only nodes. */
  method RankDomains(ds: seq<Domain>, worldSize: nat, standby: seq<Participant>, seg: pos)
    returns (r: Result<map<NodeDesc, nat>, AssignError>)
    requires worldSize % seg == 0
    ensures r.Err? <==> Taken(ds, worldSize / seg, seg) < worldSize / seg
    ensures r.Err? ==> r.error == InsufficientNodes
    ensures r.Ok? && DistinctNodes(Flatten(ds) + standby) ==>
              r.value == RanksOf(Active(ds, worldSize / seg, seg) + Spare(ds, worldSize / seg, seg) + standby)
  {
    var numSegments := worldSize / seg;
    var result: map<NodeDesc, nat> := map[];
    var activeRank, activeSegments, standbyRank := 0, 0, worldSize;
    for i := 0 to |ds|
      invariant activeSegments == Taken(ds[..i], numSegments, seg)
      invariant activeRank == |Active(ds[..i], numSegments, seg)|
      invariant standbyRank == worldSize + |Spare(ds[..i], numSegments, seg)|
      invariant result == WalkRanks(ds[..i], numSegments, seg, worldSize)
    {
      assert ds[..i + 1][..i] == ds[..i];
      var segmentsToTake := SegmentsToTake(ds[i], activeSegments, numSegments, seg);
      var nodesToTake := segmentsToTake * seg;
      assert nodesToTake == NodesToTake(ds[..i + 1], numSegments, seg);
      result, activeRank := RankRun(result, ds[i].members[..nodesToTake], activeRank);
      activeSegments := activeSegments + segmentsToTake;
      result, standbyRank := RankRun(result, ds[i].members[nodesToTake..], standbyRank);
    }
    assert ds[..|ds|] == ds;
    if activeSegments < numSegments {
      return Err(InsufficientNodes);
    }
    ghost var ranked := result;
    result, standbyRank := RankRun(result, standby, standbyRank);
    r := Ok(result);
    if DistinctNodes(Flatten(ds) + standby) {
      ActiveLength(ds, numSegments, seg);
      ExactDivision(worldSize, seg);
      AddStandby(ds, worldSize, standby, seg);
    }
  }

  lemma AddStandby(ds: seq<Domain>, worldSize: nat, standby: seq<Participant>, seg: pos)
    requires DistinctNodes(Flatten(ds) + standby) && |Active(ds, worldSize / seg, seg)| == worldSize
    ensures var need := worldSize / seg;
            Put(WalkRanks(ds, need, seg, worldSize), standby, worldSize + |Spare(ds, need, seg)|)
            == RanksOf(Active(ds, need, seg) + Spare(ds, need, seg) + standby)
  {
    hide Active, Spare, Flatten, WalkRanks, Put, HandedOut, RanksOf;
    var need := worldSize / seg;
    var act, spare := Active(ds, need, seg), Spare(ds, need, seg);
    DistinctParts(Flatten(ds), standby);
    WalkHandsOut(ds, need, seg, worldSize);
    WalkKeys(ds, need, seg, worldSize);
    PutHandsOut(WalkRanks(ds, need, seg, worldSize), act, spare, worldSize, standby);
    WalkPartitions(ds, need, seg);
    DistinctPermutation(Flatten(ds) + standby, act + spare + standby);
    Associative(act, spare, standby);
    HandedOutIsRanks(Put(WalkRanks(ds, need, seg, worldSize), standby, worldSize + |spare|), act, spare + standby, worldSize);
  }
}
