/** When an assignment exists at all: the counting check and the errors, against placements nobody computed. */
module RankFeasibility {
  import opened Prelude
  import opened Sorting
  import opened RankAssignment
  import opened RankTheorems
  import opened RankLoops

  /** Some of the candidates in a row, `count` of them, every aligned block of `segment` from one domain. */
  ghost predicate Placement(row: seq<Participant>, candidates: seq<Participant>, count: nat, segment: Option<pos>) {
    && |row| == count && multiset(row) <= multiset(candidates)
    && (segment.Some? ==>
          forall i, j | 0 <= i < j < |row| && i / segment.value == j / segment.value :: row[i].domain == row[j].domain)
  }

  ghost predicate CanPlace(candidates: seq<Participant>, count: nat, segment: Option<pos>) {
    exists row :: Placement(row, candidates, count, segment)
  }

  // ---------------------------------------------------------------- a placement needs the segments

  lemma TotalGrows(a: seq<Participant>, p: Participant, seg: pos)
    ensures TotalSegments(a, Some(seg)) <= TotalSegments(a + [p], Some(seg))
  {
    hide TotalSegments, KeepKey;
    var k := KeyOf(p, Some(seg));
    KeepKeySnoc(a, p, k, Some(seg), true);
    KeepKeySnoc(a, p, k, Some(seg), false);
    TakeOutKey(a, k, Some(seg));
    TakeOutKey(a + [p], k, Some(seg));
    DivGrows(|KeepKey(a, k, Some(seg), true)|, seg);
  }

  lemma DivIs(n: nat, seg: pos, q: nat, r: nat)
    requires n == q * seg + r && r < seg
    ensures n / seg == q
  {
    var d := n / seg;
    assert n == d * seg + n % seg;
    if d > q {
      TimesMonotone(q + 1, d, seg);
      TimesOverPlus(q, 1, seg);
    } else if d < q {
      TimesMonotone(d + 1, q, seg);
      TimesOverPlus(d, 1, seg);
    }
  }

  lemma DivGrows(n: nat, seg: pos)
    ensures n / seg <= (n + 1) / seg && (n + seg) / seg == n / seg + 1
  {
    var q, r := n / seg, n % seg;
    assert n == q * seg + r;
    TimesOverPlus(q, 1, seg);
    DivIs(n + seg, seg, q + 1, r);
    if r + 1 < seg { DivIs(n + 1, seg, q, r + 1); } else { DivIs(n + 1, seg, q + 1, 0); }
  }

  lemma {:induction false} TotalMonotone(a: seq<Participant>, rest: seq<Participant>, seg: pos)
    ensures TotalSegments(a, Some(seg)) <= TotalSegments(a + rest, Some(seg))
  {
    hide TotalSegments;
    if rest == [] {
      assert a + rest == a;
    } else {
      var front, last := rest[..|rest|-1], rest[|rest|-1];
      assert a + rest == a + front + [last];
      TotalMonotone(a, front, seg);
      TotalGrows(a + front, last, seg);
    }
  }

  lemma OneMoreBlock(row: seq<Participant>, block: seq<Participant>, seg: pos)
    requires |block| == seg && forall i | 0 <= i < seg :: block[i].domain == block[0].domain
    ensures TotalSegments(row + block, Some(seg)) == TotalSegments(row, Some(seg)) + 1
  {
    hide TotalSegments, KeepKey;
    var k := KeyOf(block[0], Some(seg));
    KeepKeyAppend(row, block, k, Some(seg), true);
    KeepKeyAppend(row, block, k, Some(seg), false);
    KeepKeyLength(block, k, Some(seg), true);
    KeepKeyLength(block, k, Some(seg), false);
    TakeOutKey(row, k, Some(seg));
    TakeOutKey(row + block, k, Some(seg));
    assert KeepKey(row, k, Some(seg), false) + [] == KeepKey(row, k, Some(seg), false);
    DivGrows(|KeepKey(row, k, Some(seg), true)|, seg);
  }

  lemma SameBlock(b: nat, seg: pos, i: nat)
    requires i < seg
    ensures (b * seg + i) / seg == b
  {
    DivIs(b * seg + i, seg, b, i);
  }

  lemma {:induction false} BlocksCount(row: seq<Participant>, b: nat, seg: pos)
    requires |row| == b * seg
    requires forall i, j | 0 <= i < j < |row| && i / seg == j / seg :: row[i].domain == row[j].domain
    ensures TotalSegments(row, Some(seg)) >= b
    decreases b
  {
    hide TotalSegments;
    if b > 0 {
      var n := (b - 1) * seg;
      assert |row| == n + seg;
      var front, block := row[..n], row[n..];
      assert row == front + block;
      forall i, j | 0 <= i < j < |front| && i / seg == j / seg ensures front[i].domain == front[j].domain {
        assert row[i].domain == row[j].domain;
      }
      BlocksCount(front, b - 1, seg);
      forall i | 0 <= i < seg ensures block[i].domain == block[0].domain {
        SameBlock(b - 1, seg, i);
        SameBlock(b - 1, seg, 0);
        assert block[i] == row[n + i] && block[0] == row[n];
      }
      OneMoreBlock(front, block, seg);
    }
  }

  lemma {:induction false} SeqOf<T>(m: multiset<T>) returns (s: seq<T>)
    ensures multiset(s) == m
    decreases |m|
  {
    if m == multiset{} {
      s := [];
    } else {
      var x :| x in m;
      var rest := SeqOf(m - multiset{x});
      s := rest + [x];
    }
  }

  lemma PlacementNeeds(row: seq<Participant>, candidates: seq<Participant>, b: nat, seg: pos)
    requires Placement(row, candidates, b * seg, Some(seg))
    ensures TotalSegments(candidates, Some(seg)) >= b
  {
    hide TotalSegments;
    BlocksCount(row, b, seg);
    var rest := SeqOf(multiset(candidates) - multiset(row));
    assert multiset(row + rest) == multiset(candidates);
    TotalMonotone(row, rest, seg);
    TotalSegmentsPermutation(row + rest, candidates, Some(seg));
  }

  // ---------------------------------------------------------------- enough segments give a placement

  lemma RowBlocks(ds: seq<Domain>, b: nat, seg: pos)
    requires WellGrouped(ds, Some(seg)) && Taken(ds, b, seg) == b && |Active(ds, b, seg)| == b * seg
    ensures var row := Active(ds, b, seg);
            forall i, j | 0 <= i < j < |row| && i / seg == j / seg :: row[i].domain == row[j].domain
  {
    hide Active, Taken, WellGrouped;
    var row := Active(ds, b, seg);
    forall i, j | 0 <= i < j < |row| && i / seg == j / seg ensures row[i].domain == row[j].domain {
      BlockOf(i, b, seg);
      BlockOf(j, b, seg);
      BlockInOneDomain(ds, b, Some(seg), i / seg, i);
      BlockInOneDomain(ds, b, Some(seg), j / seg, j);
    }
  }

  lemma WalkFits(candidates: seq<Participant>, b: nat, seg: pos)
    requires TotalSegments(candidates, Some(seg)) >= b
    ensures CanPlace(candidates, b * seg, Some(seg))
  {
    hide TotalSegments, Active, Spare, Taken, Domains, SegmentsOf, Flatten, WellGrouped, KeyOf;
    var ds := Domains(candidates, Some(seg));
    DomainsGroup(candidates, Some(seg));
    SegmentsOfDomains(ds, Some(seg));
    TotalSegmentsPermutation(Flatten(ds), candidates, Some(seg));
    TakenIsMin(ds, b, seg);
    ActiveLength(ds, b, seg);
    WalkPartitions(ds, b, seg);
    var row := Active(ds, b, seg);
    assert multiset(row) <= multiset(row + Spare(ds, b, seg));
    RowBlocks(ds, b, seg);
    assert Placement(row, candidates, b * seg, Some(seg));
  }

  lemma BlockOf(i: nat, b: nat, seg: pos)
    requires i < b * seg
    ensures i / seg < b && (i / seg) * seg <= i < (i / seg) * seg + seg
  {
    assert i == (i / seg) * seg + i % seg;
    if i / seg >= b { TimesMonotone(b, i / seg, seg); }
  }

  /** The counting check accepts exactly the candidates among whom the active ranks can be placed, in any way at all,
      with every aligned block in one domain. */
  lemma EnoughIsPlaceable(candidates: seq<Participant>, worldSize: nat, segment: Option<pos>)
    ensures EnoughSegments(candidates, worldSize, segment)
            <==> CanPlace(candidates, worldSize / Size(segment) * Size(segment), segment)
  {
    if segment.Some? {
      EnoughBlocks(candidates, worldSize, segment.value);
    } else {
      assert worldSize / 1 * 1 == worldSize;
      EnoughNodes(candidates, worldSize);
    }
  }

  lemma EnoughBlocks(candidates: seq<Participant>, worldSize: nat, seg: pos)
    ensures EnoughSegments(candidates, worldSize, Some(seg)) <==> CanPlace(candidates, worldSize / seg * seg, Some(seg))
  {
    hide TotalSegments, Placement;
    var b := worldSize / seg;
    if EnoughSegments(candidates, worldSize, Some(seg)) { WalkFits(candidates, b, seg); }
    if row :| Placement(row, candidates, b * seg, Some(seg)) { PlacementNeeds(row, candidates, b, seg); }
  }

  lemma EnoughNodes(candidates: seq<Participant>, worldSize: nat)
    ensures |candidates| >= worldSize <==> CanPlace(candidates, worldSize, None)
  {
    if |candidates| >= worldSize {
      var row, rest := candidates[..worldSize], candidates[worldSize..];
      assert candidates == row + rest;
      assert Placement(row, candidates, worldSize, None);
    }
    if row :| Placement(row, candidates, worldSize, None) {
      var more := SeqOf(multiset(candidates) - multiset(row));
      assert multiset(row + more) == multiset(candidates);
      SameLength(row + more, candidates);
    }
  }

  // ---------------------------------------------------------------- every outcome of an assignment

  /** No node is without an infrastructure rank, and two nodes report the same one. */
  ghost predicate Clash(all: seq<Participant>) {
    && (forall p | p in all :: p.infraRank != -1)
    && exists i, j | 0 <= i < j < |all| :: all[i].infraRank == all[j].infraRank
  }

  lemma {:induction false} ManyRanks(ps: seq<Participant>)
    requires forall i, j | 0 <= i < j < |ps| :: ps[i].infraRank != ps[j].infraRank
    ensures |InfraRanks(ps)| == |ps|
  {
    if ps != [] {
      var init, last := ps[..|ps|-1], ps[|ps|-1];
      assert ps == init + [last];
      ManyRanks(init);
      InfraRanksSnoc(init, last);
      assert last.infraRank !in InfraRanks(init);
    }
  }

  lemma ClashMeans(all: seq<Participant>)
    ensures Clash(all) <==> !AnyUnassigned(all) && |InfraRanks(all)| != |all|
  {
    DistinctRanks(all);
    if forall i, j | 0 <= i < j < |all| :: all[i].infraRank != all[j].infraRank { ManyRanks(all); }
    hide InfraRanks;
  }

  /** For distinct nodes the assignment fails exactly when the world is not a multiple of the segment, or else two nodes
      report one infrastructure rank, or else a candidate has no domain id, or else no placement of the active ranks
      exists, and it reports the first of these that holds. */
  lemma AssignmentOutcome(active: seq<Participant>, worldSize: nat, standby: seq<Participant>, segment: Option<pos>)
    requires DistinctNodes(active + standby)
    ensures var result := Assignment(active, worldSize, standby, segment);
            if segment.Some? && worldSize % segment.value != 0 then result == Err(NotDivisible)
            else if Clash(active + standby) then result == Err(DuplicateInfraRank)
            else if segment.Some? && exists p :: p in active && p.domain == "none" then result == Err(DomainMissing)
            else if !CanPlace(active, worldSize, segment) then result == Err(InsufficientNodes)
            else result.Ok?
  {
    hide SortedDomains, Taken, RanksOf, RankOrder, Sort, EnoughSegments, InfraRanks, CanPlace, Layout, TotalSegments,
         Assignment, Clash;
    ClashMeans(active + standby);
    AssignmentCases(active, worldSize, standby, segment);
    SortRankableFacts(active, standby);
    EnoughIsPlaceable(active, worldSize, segment);
    if worldSize % Size(segment) == 0 {
      ExactDivision(worldSize, Size(segment));
      if SortRankable(active, standby).Ok? {
        CountingMatchesWalk(active, worldSize, standby, segment);
        MissingDomainSorted(active, active + standby, SortRankable(active, standby).value.0, segment);
      }
    }
  }
}
