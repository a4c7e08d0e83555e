/** What a decision of the store host means, in terms of the snapshot it read and the groups marked unhealthy. */
module BarrierDecisions {
  import opened Prelude
  import opened RankAssignment
  import opened RankTheorems
  import opened RankFeasibility
  import opened RankLoops
  import opened Barrier
  import opened BarrierInvariant
  import opened BarrierSteps
  import opened BarrierWrites
  import opened BarrierHost
  import opened BarrierRuns
  import opened BarrierTheorems
  import opened BarrierFetch

  type Snapshot = seq<Option<Participant>>

  // ---------------------------------------------------------------- who is judged

  /** The replacement group of w is marked. */
  predicate Marked(unhealthy: set<string>, w: Participant) {
    w.group.Some? && w.group.value in unhealthy
  }

  /** w was read from a slot and its group is not marked. */
  predicate Judged(snapshot: Snapshot, unhealthy: set<string>, w: Participant) {
    Some(w) in snapshot && !Marked(unhealthy, w)
  }

  /** The participants judged are the ones read whose group is not marked. */
  lemma {:induction false} PresentMeans(snapshot: Snapshot, unhealthy: set<string>)
    ensures forall w :: w in Present(snapshot, unhealthy) <==> Judged(snapshot, unhealthy, w)
  {
    if snapshot != [] {
      var front, last := snapshot[..|snapshot|-1], snapshot[|snapshot|-1];
      assert snapshot == front + [last];
      PresentMeans(front, unhealthy);
    }
  }

  /** The slots whose participant belongs to group g. */
  ghost function SlotsOfGroup(snapshot: Snapshot, g: string): set<nat> {
    set k: nat | k < |snapshot| && snapshot[k].Some? && snapshot[k].value.group == Some(g)
  }

  lemma SlotsOfGroupSnoc(front: Snapshot, last: Option<Participant>, g: string)
    ensures SlotsOfGroup(front + [last], g)
         == SlotsOfGroup(front, g) + if last.Some? && last.value.group == Some(g) then {|front|} else {}
  {
    var snapshot := front + [last];
    forall k: nat | k < |front| ensures snapshot[k] == front[k] {}
  }

  /** Counting a group among the participants judged is counting its slots. */
  lemma {:induction false} GroupCountMeans(snapshot: Snapshot, unhealthy: set<string>, g: string)
    requires g !in unhealthy
    ensures GroupCount(Present(snapshot, unhealthy), g) == |SlotsOfGroup(snapshot, g)|
  {
    if snapshot == [] {
      assert SlotsOfGroup(snapshot, g) == {};
    } else {
      var front, last := snapshot[..|snapshot|-1], snapshot[|snapshot|-1];
      assert snapshot == front + [last];
      GroupCountMeans(front, unhealthy, g);
      SlotsOfGroupSnoc(front, last, g);
      hide SlotsOfGroup;
      assert |front| !in SlotsOfGroup(front, g) by { NotYet(front, g); }
      if last.Some? { GroupCountSnoc(Present(front, unhealthy), last.value, g); }
    }
  }

  lemma NotYet(front: Snapshot, g: string)
    ensures |front| !in SlotsOfGroup(front, g)
  {
  }

  lemma GroupCountSnoc(ps: seq<Participant>, p: Participant, g: string)
    ensures GroupCount(ps + [p], g) == GroupCount(ps, g) + if p.group == Some(g) then 1 else 0
  {
    assert (ps + [p])[..|ps|] == ps;
  }

  /** w competes for an active rank: it is judged and, where groups count, at least groupSize slots hold its group. */
  ghost predicate Candidate(c: Config, snapshot: Snapshot, unhealthy: set<string>, w: Participant) {
    && Judged(snapshot, unhealthy, w)
    && (c.groupSize.Some? ==> w.group.Some? && |SlotsOfGroup(snapshot, w.group.value)| >= c.groupSize.value)
  }

  ghost predicate AreCandidates(c: Config, snapshot: Snapshot, unhealthy: set<string>, active: seq<Participant>,
                                standby: seq<Participant>)
  {
    && (forall w :: w in active <==> Candidate(c, snapshot, unhealthy, w))
    && (forall w :: w in standby <==> Judged(snapshot, unhealthy, w) && !Candidate(c, snapshot, unhealthy, w))
  }

  lemma BucketsMean(c: Config, snapshot: Snapshot, unhealthy: set<string>)
    ensures var present := Present(snapshot, unhealthy);
            AreCandidates(c, snapshot, unhealthy, Complete(present, c.groupSize), Leftover(present, c.groupSize))
  {
    hide SlotsOfGroup, GroupCount, Present;
    var present := Present(snapshot, unhealthy);
    PresentMeans(snapshot, unhealthy);
    if c.groupSize.Some? {
      KeepGroupMembers(present, present, c.groupSize.value, true);
      KeepGroupMembers(present, present, c.groupSize.value, false);
    }
    forall w | w in present && w.group.Some?
      ensures GroupCount(present, w.group.value) == |SlotsOfGroup(snapshot, w.group.value)|
    {
      GroupCountMeans(snapshot, unhealthy, w.group.value);
    }
  }

  // ---------------------------------------------------------------- what is decided

  /** Two participants judged come from one address. */
  ghost predicate SameAddr(snapshot: Snapshot, unhealthy: set<string>) {
    exists i, j | 0 <= i < j < |snapshot| ::
      && snapshot[i].Some? && snapshot[j].Some? && !Marked(unhealthy, snapshot[i].value) && !Marked(unhealthy, snapshot[j].value)
      && snapshot[i].value.node.addr == snapshot[j].value.node.addr
  }

  ghost predicate HasAddr(ps: seq<Participant>, addr: string) {
    exists p | p in ps :: p.node.addr == addr
  }

  lemma DuplicateSnoc(ps: seq<Participant>, p: Participant)
    ensures DuplicateAddr(ps + [p]) <==> DuplicateAddr(ps) || HasAddr(ps, p.node.addr)
  {
    var more := ps + [p];
    if i, j :| 0 <= i < j < |ps| && ps[i].node.addr == ps[j].node.addr {
      assert more[i] == ps[i] && more[j] == ps[j];
    }
    if HasAddr(ps, p.node.addr) {
      var q :| q in ps && q.node.addr == p.node.addr;
      var i :| 0 <= i < |ps| && ps[i] == q;
      assert more[i] == q && more[|ps|] == p;
    }
    if i, j :| 0 <= i < j < |more| && more[i].node.addr == more[j].node.addr {
      assert more[i] == ps[i];
      if j < |ps| { assert more[j] == ps[j]; } else { assert ps[i] in ps; }
    }
  }

  ghost predicate ReadFrom(snapshot: Snapshot, unhealthy: set<string>, addr: string) {
    exists i | 0 <= i < |snapshot| ::
      snapshot[i].Some? && !Marked(unhealthy, snapshot[i].value) && snapshot[i].value.node.addr == addr
  }

  lemma SameAddrSnoc(front: Snapshot, last: Option<Participant>, unhealthy: set<string>)
    ensures SameAddr(front + [last], unhealthy) <==>
              SameAddr(front, unhealthy)
              || (last.Some? && !Marked(unhealthy, last.value) && ReadFrom(front, unhealthy, last.value.node.addr))
  {
    hide Marked;
    var more := front + [last];
    assert forall i | 0 <= i < |front| :: more[i] == front[i];
    if SameAddr(front, unhealthy) {
      var i, j :| 0 <= i < j < |front| && front[i].Some? && front[j].Some? && !Marked(unhealthy, front[i].value)
                  && !Marked(unhealthy, front[j].value) && front[i].value.node.addr == front[j].value.node.addr;
      assert more[i] == front[i] && more[j] == front[j];
    }
    if last.Some? && !Marked(unhealthy, last.value) && ReadFrom(front, unhealthy, last.value.node.addr) {
      var i :| 0 <= i < |front| && front[i].Some? && !Marked(unhealthy, front[i].value)
               && front[i].value.node.addr == last.value.node.addr;
      assert more[i] == front[i] && more[|front|] == last;
    }
  }

  lemma {:induction false} DuplicateMeans(snapshot: Snapshot, unhealthy: set<string>)
    ensures DuplicateAddr(Present(snapshot, unhealthy)) <==> SameAddr(snapshot, unhealthy)
  {
    if snapshot != [] {
      var front, last := snapshot[..|snapshot|-1], snapshot[|snapshot|-1];
      assert snapshot == front + [last];
      DuplicateMeans(front, unhealthy);
      SameAddrSnoc(front, last, unhealthy);
      hide SameAddr, DuplicateAddr;
      if last.Some? && !Marked(unhealthy, last.value) {
        DuplicateSnoc(Present(front, unhealthy), last.value);
        AddrRead(front, unhealthy, last.value.node.addr);
      }
    }
  }

  lemma AddrRead(snapshot: Snapshot, unhealthy: set<string>, addr: string)
    ensures HasAddr(Present(snapshot, unhealthy), addr) <==> ReadFrom(snapshot, unhealthy, addr)
  {
    PresentMeans(snapshot, unhealthy);
    hide Present;
    if ReadFrom(snapshot, unhealthy, addr) {
      var i :| 0 <= i < |snapshot| && snapshot[i].Some? && !Marked(unhealthy, snapshot[i].value)
               && snapshot[i].value.node.addr == addr;
      assert Judged(snapshot, unhealthy, snapshot[i].value);
    }
  }

  /** The verdict on a snapshot of distinct nodes, case by case, in terms of the slots read and the groups marked. */
  ghost predicate Fair(c: Config, snapshot: Snapshot, unhealthy: set<string>, v: Verdict, active: seq<Participant>,
                       standby: seq<Participant>)
  {
    if c.segment.Some? && exists w :: Candidate(c, snapshot, unhealthy, w) && w.domain == "none" then
      v == Reject(DomainMissing)
    else if !CanPlace(active, c.minNodes / Size(c.segment) * Size(c.segment), c.segment) then v == NotEnough
    else if !c.manyPerAddr && SameAddr(snapshot, unhealthy) then v == Duplicate
    else if c.segment.Some? && c.minNodes % c.segment.value != 0 then v == CannotAssign(NotDivisible)
    else if Clash(active + standby) then v == CannotAssign(DuplicateInfraRank)
    else
      && v.Settle? && v.plan.snapshot == snapshot && v.plan.active == active && v.plan.standby == standby
      && forall n :: n in v.plan.ranks <==> exists w :: Judged(snapshot, unhealthy, w) && w.node == n
  }

  lemma JudgeIsFair(c: Config, snapshot: Snapshot, unhealthy: set<string>)
    requires var present := Present(snapshot, unhealthy);
             DistinctNodes(Complete(present, c.groupSize) + Leftover(present, c.groupSize))
    ensures var present := Present(snapshot, unhealthy);
            var active, standby := Complete(present, c.groupSize), Leftover(present, c.groupSize);
            && AreCandidates(c, snapshot, unhealthy, active, standby)
            && Fair(c, snapshot, unhealthy, Judge(c, snapshot, unhealthy), active, standby)
  {
    hide Complete, Leftover, Present, Assignment, EnoughSegments, DuplicateAddr, SameAddr, CanPlace, Clash, Candidate,
         Judged, DistinctNodes;
    var present := Present(snapshot, unhealthy);
    var active, standby := Complete(present, c.groupSize), Leftover(present, c.groupSize);
    BucketsMean(c, snapshot, unhealthy);
    DuplicateMeans(snapshot, unhealthy);
    EnoughIsPlaceable(active, c.minNodes, c.segment);
    AssignmentOutcome(active, c.minNodes, standby, c.segment);
    if c.minNodes % Size(c.segment) == 0 { ExactDivision(c.minNodes, Size(c.segment)); }
    if Assignment(active, c.minNodes, standby, c.segment).Ok? {
      RankedAreAll(c, snapshot, unhealthy, active, standby);
    }
  }

  lemma RankedAreAll(c: Config, snapshot: Snapshot, unhealthy: set<string>, active: seq<Participant>,
                     standby: seq<Participant>)
    requires AreCandidates(c, snapshot, unhealthy, active, standby) && DistinctNodes(active + standby)
    requires Assignment(active, c.minNodes, standby, c.segment).Ok?
    ensures forall n :: n in Assignment(active, c.minNodes, standby, c.segment).value
                        <==> exists w :: Judged(snapshot, unhealthy, w) && w.node == n
  {
    hide Assignment, Judged, SlotsOfGroup;
    AssignmentIsBijection(active, c.minNodes, standby, c.segment);
    var all := active + standby;
    forall w ensures w in all <==> Judged(snapshot, unhealthy, w) {
      assert Candidate(c, snapshot, unhealthy, w) ==> Judged(snapshot, unhealthy, w);
    }
  }

  // ---------------------------------------------------------------- over runs

  /** In every run, the host's verdict on a snapshot it has completed is the one the slots read and the groups marked at
      that moment call for. */
  lemma VerdictIsFair(c: Config, run: seq<State>, i: nat, p: NodeDesc) returns (active: seq<Participant>, standby: seq<Participant>)
    requires Run(c, run) && i < |run| && p in run[i].procs && run[i].procs[p].pc.HostGroups?
    ensures var s, pr := run[i], run[i].procs[p];
            && AreCandidates(c, pr.pc.snapshot, UnhealthyIn(s, pr.round), active, standby)
            && DistinctNodes(active + standby)
            && Fair(c, pr.pc.snapshot, UnhealthyIn(s, pr.round), Verdicts(c, s, pr), active, standby)
  {
    RunKeeps(c, run, i);
    var s, pr := run[i], run[i].procs[p];
    HostSnapshot(c, s, p);
    var unhealthy := UnhealthyIn(s, pr.round);
    BucketsAreDistinct(c, s, pr.round, pr.pc.snapshot, unhealthy);
    hide Run, Inv, Fair, AreCandidates, Present, Complete, Leftover, Judge;
    JudgeIsFair(c, pr.pc.snapshot, unhealthy);
    active, standby := Complete(Present(pr.pc.snapshot, unhealthy), c.groupSize), Leftover(Present(pr.pc.snapshot, unhealthy), c.groupSize);
  }

  /** The host records a plan in this step. */
  ghost predicate Settles(c: Config, s: State, s': State, p: NodeDesc) {
    HostDecides(c, s, s', p) && At(s', p, HostWrite(0))
  }

  lemma SettledVerdict(c: Config, s: State, s': State, p: NodeDesc)
    requires Settles(c, s, s', p)
    ensures p in s.procs && s.procs[p].pc.HostGroups? && Verdicts(c, s, s.procs[p]).Settle?
    ensures s' == Goto(s.(plans := s.plans[s.procs[p].round := Verdicts(c, s, s.procs[p]).plan]), p, HostWrite(0))
  {
    hide Verdicts, HostMayGo, Goto;
    var v := Verdicts(c, s, s.procs[p]);
    if pc :| HostMayGo(v, pc) && s' == Goto(s, p, pc) {
      Arrives(s, p, pc);
      NeverStraightToWrite(v, pc);
    }
  }

  lemma NeverStraightToWrite(v: Verdict, pc: Pc)
    requires HostMayGo(v, pc)
    ensures pc != HostWrite(0)
  {
  }

  lemma PlanRecorded(s: State, p: NodeDesc, plan: Plan)
    requires p in s.procs
    ensures var r := s.procs[p].round;
            var s' := Goto(s.(plans := s.plans[r := plan]), p, HostWrite(0));
            r in s'.plans && s'.plans[r] == plan
  {
  }

  /** The snapshot holds data of node n, of no group or of one not marked for round r. */
  ghost predicate ReadUnmarked(s: State, r: nat, snapshot: Snapshot, n: NodeDesc) {
    exists w :: && Some(w) in snapshot && w.node == n
                && (w.group.None? || r !in s.unhealthy || w.group.value !in s.unhealthy[r])
  }

  lemma UnmarkedMeans(s: State, r: nat, snapshot: Snapshot, n: NodeDesc)
    ensures ReadUnmarked(s, r, snapshot, n) <==> exists w :: Judged(snapshot, UnhealthyIn(s, r), w) && w.node == n
  {
    if w :| Judged(snapshot, UnhealthyIn(s, r), w) && w.node == n {
      assert Some(w) in snapshot;
    }
    if w :| Some(w) in snapshot && w.node == n && (w.group.None? || r !in s.unhealthy || w.group.value !in s.unhealthy[r]) {
      assert Judged(snapshot, UnhealthyIn(s, r), w);
    }
  }

  /** When the host settles a plan for its round, exactly the nodes it read whose group is not marked at that moment
      get a rank: nobody of a marked group, and everybody else. */
  lemma RanksTheUnmarked(c: Config, run: seq<State>, i: nat, p: NodeDesc)
    requires Run(c, run) && i < |run| - 1 && Settles(c, run[i], run[i + 1], p)
    ensures p in run[i].procs && run[i].procs[p].pc.HostGroups? && run[i].procs[p].round in run[i + 1].plans
    ensures var r := run[i].procs[p].round;
            forall n :: n in run[i + 1].plans[r].ranks <==> ReadUnmarked(run[i], r, run[i].procs[p].pc.snapshot, n)
  {
    hide Run, Settles, Verdicts, AreCandidates, UnhealthyIn, Judged, ReadUnmarked, Goto;
    SettledVerdict(c, run[i], run[i + 1], p);
    PlanRecorded(run[i], p, Verdicts(c, run[i], run[i].procs[p]).plan);
    var active, standby := VerdictIsFair(c, run, i, p);
    hide CanPlace, Clash, SameAddr, Candidate;
    var r, snapshot := run[i].procs[p].round, run[i].procs[p].pc.snapshot;
    forall n ensures n in run[i + 1].plans[r].ranks <==> ReadUnmarked(run[i], r, snapshot, n) {
      UnmarkedMeans(run[i], r, snapshot, n);
    }
  }

  lemma MarkWritten(s: State, s': State, q: NodeDesc, g: string)
    requires LeavesUnhealthy(s, s', q) && s.procs[q].me.group == Some(g)
    ensures s.procs[q].round in s'.unhealthy && g in s'.unhealthy[s.procs[q].round]
  {
  }

  /** A group whose node failed its health check is marked for that round for good. */
  lemma MarkStays(c: Config, run: seq<State>, i: nat, j: nat, q: NodeDesc, g: string)
    requires Run(c, run) && i < j < |run| && LeavesUnhealthy(run[i], run[i + 1], q) && run[i].procs[q].me.group == Some(g)
    ensures run[i].procs[q].round in run[j].unhealthy && g in run[j].unhealthy[run[i].procs[q].round]
  {
    MarkWritten(run[i], run[i + 1], q, g);
    RunAdvances(c, run, i + 1, j);
    hide Run, LeavesUnhealthy, RoundsAdvance, SlotsAdvance, RanksAdvance, PlansGrow;
  }

  /** A node that fails its health check takes its whole replacement group out of the round: no plan settled for that
      round later ranks a node of the group. */
  lemma DeadCohortUnranked(c: Config, run: seq<State>, i: nat, j: nat, q: NodeDesc, g: string, p: NodeDesc, w: Participant)
    requires Run(c, run) && i < j < |run| - 1
    requires LeavesUnhealthy(run[i], run[i + 1], q) && run[i].procs[q].me.group == Some(g)
    requires Settles(c, run[j], run[j + 1], p) && run[j].procs[p].round == run[i].procs[q].round
    requires Some(w) in run[j].procs[p].pc.snapshot && w.group == Some(g)
    ensures run[j].procs[p].round in run[j + 1].plans && w.node !in run[j + 1].plans[run[j].procs[p].round].ranks
  {
    var r := run[j].procs[p].round;
    MarkStays(c, run, i, j, q, g);
    RanksTheUnmarked(c, run, j, p);
    RunKeeps(c, run, j);
    HostSnapshot(c, run[j], p);
    ClaimedOnce(c, run[j]);
    SnapshotsAreDistinct(run[j].claims, r, run[j].procs[p].pc.snapshot);
    hide Run, Inv, Settles, LeavesUnhealthy, SnapshotOk, OneSlotEach;
    OnlyEntry(run[j], r, run[j].procs[p].pc.snapshot, w);
  }

  lemma ClaimedOnce(c: Config, s: State)
    requires Inv(c, s)
    ensures OneSlotEach(s.claims)
  {
    hide RoundsOk, KeysOk, PlansOk, ProcsOk, OneSlotEach;
  }

  /** A node that had published when the fetch began gets a rank in the plan settled from that fetch exactly when its
      group is not marked at the decision. */
  lemma InTimeIsRanked(c: Config, run: seq<State>, i: nat, j: nat, d: nat, p: NodeDesc, k: nat, w: Participant)
    requires Run(c, run) && i < j < d < |run| - 1
    requires HostCounts(c, run[i], run[i + 1], p) && StaysFetching(run, i, j, p) && HostRecounts(run[j], run[j + 1], p)
    requires StaysJudging(run, j + 1, d, p) && Settles(c, run[d], run[d + 1], p)
    requires p in run[i].procs && Publishes(run[i], run[i].procs[p].round, k, w)
    ensures var r := run[i].procs[p].round;
            && r in run[d + 1].plans
            && (w.node in run[d + 1].plans[r].ranks
                <==> w.group.None? || r !in run[d].unhealthy || w.group.value !in run[d].unhealthy[r])
  {
    hide Run, HostCounts, StaysFetching, HostRecounts, StaysJudging, Settles, Inv, SnapshotOk, OneSlotEach, Publishes;
    JudgedUnchanged(c, run, j + 1, d, p);
    JudgedAt(run, j + 1, d, p);
    PublishedIsSeen(c, run, i, j, p, k, w);
    var r, snapshot := run[i].procs[p].round, run[d].procs[p].pc.snapshot;
    SnapshotRound(c, run, i, j, p);
    RanksTheUnmarked(c, run, d, p);
    RunKeeps(c, run, d);
    HostSnapshot(c, run[d], p);
    ClaimedOnce(c, run[d]);
    SnapshotsAreDistinct(run[d].claims, r, snapshot);
    assert Some(w) in snapshot;
    OnlyEntry(run[d], r, snapshot, w);
  }

  lemma SnapshotRound(c: Config, run: seq<State>, i: nat, j: nat, p: NodeDesc)
    requires Run(c, run) && i < j < |run| - 1 && HostCounts(c, run[i], run[i + 1], p) && StaysFetching(run, i, j, p)
    requires HostRecounts(run[j], run[j + 1], p)
    ensures p in run[i].procs && p in run[j + 1].procs && run[j + 1].procs[p].round == run[i].procs[p].round
  {
    FetchReads(c, run, i, j, p);
    hide Run, HostCounts, StaysFetching, FetchedSoFar;
  }

  lemma OnlyEntry(s: State, r: nat, snapshot: Snapshot, w: Participant)
    requires SnapshotDistinct(snapshot) && Some(w) in snapshot
    ensures ReadUnmarked(s, r, snapshot, w.node) <==> w.group.None? || r !in s.unhealthy || w.group.value !in s.unhealthy[r]
  {
    forall v | Some(v) in snapshot && v.node == w.node ensures v == w {
      var i :| 0 <= i < |snapshot| && snapshot[i] == Some(w);
      var j :| 0 <= j < |snapshot| && snapshot[j] == Some(v);
      SameSlot(snapshot, i, j);
    }
  }

  /** Where a fair verdict lets the host go: to stop over the error, to poll on, to fail over two participants of one
      address, or to write the ranks. The last-call gate may make it poll on once the constraint is met. */
  ghost predicate GoesBy(c: Config, snapshot: Snapshot, unhealthy: set<string>, active: seq<Participant>,
                         standby: seq<Participant>, pc: Pc)
  {
    if c.segment.Some? && exists w :: Candidate(c, snapshot, unhealthy, w) && w.domain == "none" then
      pc == Done(AssignFailed(DomainMissing))
    else if !CanPlace(active, c.minNodes / Size(c.segment) * Size(c.segment), c.segment) then pc == HostShutdown
    else if !c.manyPerAddr && SameAddr(snapshot, unhealthy) then pc == HostShutdown || pc == HostFail
    else if c.segment.Some? && c.minNodes % c.segment.value != 0 then
      pc == HostShutdown || pc == Done(AssignFailed(NotDivisible))
    else if Clash(active + standby) then pc == HostShutdown || pc == Done(AssignFailed(DuplicateInfraRank))
    else pc == HostShutdown || pc == HostWrite(0)
  }

  ghost predicate MayGo(v: Verdict, pc: Pc) {
    match v
    case Reject(e) => pc == Done(AssignFailed(e))
    case NotEnough => pc == HostShutdown
    case Duplicate => pc == HostShutdown || pc == HostFail
    case CannotAssign(e) => pc == HostShutdown || pc == Done(AssignFailed(e))
    case Settle(_) => pc == HostShutdown || pc == HostWrite(0)
  }

  lemma DecisionMoves(c: Config, s: State, s': State, p: NodeDesc)
    requires HostDecides(c, s, s', p)
    ensures p in s.procs && s.procs[p].pc.HostGroups? && p in s'.procs && MayGo(Verdicts(c, s, s.procs[p]), s'.procs[p].pc)
  {
    hide Verdicts, Goto;
    var v := Verdicts(c, s, s.procs[p]);
    if pc :| HostMayGo(v, pc) && s' == Goto(s, p, pc) {
      Arrives(s, p, pc);
    } else {
      Arrives(s.(plans := s.plans[s.procs[p].round := v.plan]), p, HostWrite(0));
    }
  }

  lemma FairMoves(c: Config, snapshot: Snapshot, unhealthy: set<string>, v: Verdict, active: seq<Participant>,
                  standby: seq<Participant>, pc: Pc)
    requires Fair(c, snapshot, unhealthy, v, active, standby) && MayGo(v, pc)
    ensures GoesBy(c, snapshot, unhealthy, active, standby, pc)
  {
    hide Clash, CanPlace, SameAddr, Candidate, Judged;
  }

  /** Every decision of a run takes the host where the slots read and the groups marked call for. */
  lemma DecisionGoesBy(c: Config, run: seq<State>, i: nat, p: NodeDesc) returns (active: seq<Participant>, standby: seq<Participant>)
    requires Run(c, run) && i < |run| - 1 && HostDecides(c, run[i], run[i + 1], p)
    ensures p in run[i].procs && run[i].procs[p].pc.HostGroups? && p in run[i + 1].procs
    ensures AreCandidates(c, run[i].procs[p].pc.snapshot, UnhealthyIn(run[i], run[i].procs[p].round), active, standby)
    ensures GoesBy(c, run[i].procs[p].pc.snapshot, UnhealthyIn(run[i], run[i].procs[p].round), active, standby,
                   run[i + 1].procs[p].pc)
  {
    hide Run, Verdicts, HostDecides, MayGo, Fair, GoesBy, AreCandidates;
    DecisionMoves(c, run[i], run[i + 1], p);
    active, standby := VerdictIsFair(c, run, i, p);
    FairMoves(c, run[i].procs[p].pc.snapshot, UnhealthyIn(run[i], run[i].procs[p].round),
              Verdicts(c, run[i], run[i].procs[p]), active, standby, run[i + 1].procs[p].pc);
  }

  /** Why a decision stopped the host: a candidate without a domain id, a world that is not a multiple of the segment,
      or infrastructure ranks that clash. */
  lemma FailureMeans(c: Config, run: seq<State>, i: nat, p: NodeDesc, error: AssignError)
    returns (active: seq<Participant>, standby: seq<Participant>)
    requires Run(c, run) && i < |run| - 1
    requires HostDecides(c, run[i], run[i + 1], p) && At(run[i + 1], p, Done(AssignFailed(error)))
    ensures p in run[i].procs && run[i].procs[p].pc.HostGroups?
    ensures AreCandidates(c, run[i].procs[p].pc.snapshot, UnhealthyIn(run[i], run[i].procs[p].round), active, standby)
    ensures || (error == DomainMissing && c.segment.Some? && exists w :: w in active && w.domain == "none")
            || (error == NotDivisible && c.segment.Some? && c.minNodes % c.segment.value != 0)
            || (error == DuplicateInfraRank && Clash(active + standby))
  {
    hide Run, HostDecides, Clash, CanPlace, SameAddr, Candidate, Judged;
    active, standby := DecisionGoesBy(c, run, i, p);
  }
}
