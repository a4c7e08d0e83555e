/** What the rendezvous barrier guarantees over whole runs. */
module BarrierTheorems {
  import opened Prelude
  import opened Sorting
  import opened RankAssignment
  import opened RankTheorems
  import opened RankLoops
  import opened Barrier
  import opened BarrierInvariant
  import opened BarrierSteps
  import opened BarrierWrites
  import opened BarrierKeys
  import opened BarrierHost
  import opened BarrierRuns
  import opened BarrierSources

  // ---------------------------------------------------------------- agreement

  /** perform_rendezvous has returned this rank and world size to p for round r, and p still runs on it. */
  ghost predicate Returns(s: State, p: NodeDesc, r: nat, rank: int, total: nat) {
    && p in s.procs && s.procs[p].round == r
    && (s.procs[p].pc == Active(rank, total) || s.procs[p].pc == SawNext(rank, total))
  }

  lemma ReturnedFacts(c: Config, s: State, p: NodeDesc, r: nat, rank: int, total: nat)
    requires Inv(c, s) && Returns(s, p, r, rank, total)
    ensures IsClosed(s.done, r) && Returned(c, s.plans, p, r, s.procs[p].slot, rank, total)
  {
    hide Below, ClaimsOk, KeysOk, PlansOk, RoundsOk, JoinOk, WriteOk, HostOk, Returned;
    Own(c, s, p);
  }

  /** Whatever the interleaving, a returned rank is the one the host's assignment for that closed round gave this node,
      and it is an active one. */
  lemma ReturnedRankIsPlanned(c: Config, run: seq<State>, i: nat, p: NodeDesc, r: nat, rank: int, total: nat)
    requires Run(c, run) && i < |run| && Returns(run[i], p, r, rank, total)
    ensures IsClosed(run[i].done, r) && r in run[i].plans
    ensures var ranks := run[i].plans[r].ranks;
            p in ranks && rank == ranks[p] && 0 <= rank < c.minNodes && total == |ranks|
  {
    RunKeeps(c, run, i);
    hide Inv, Run;
    ReturnedFacts(c, run[i], p, r, rank, total);
  }

  lemma PlanIsComputed(c: Config, s: State, r: nat)
    requires Inv(c, s) && r in s.plans
    ensures Computed(c, s.plans[r]) && SnapshotOk(s.claims, r, s.plans[r].snapshot) && SnapshotDistinct(s.plans[r].snapshot)
  {
    assert PlanOk(c, s, r);
    hide RoundsOk, KeysOk, ProcsOk, Computed, SnapshotOk;
    SnapshotsAreDistinct(s.claims, r, s.plans[r].snapshot);
  }

  /** The plan of a round never changes. */
  lemma PlanIsFinal(c: Config, run: seq<State>, i: nat, j: nat, r: nat)
    requires Run(c, run) && i <= j < |run| && r in run[i].plans
    ensures r in run[j].plans && run[j].plans[r] == run[i].plans[r]
  {
    RunAdvances(c, run, i, j);
  }

  /** Two returns for one round, at any two moments of a run, carry one world size, and different nodes carry
      different ranks. */
  lemma RanksAreUnique(c: Config, run: seq<State>, i: nat, j: nat, p: NodeDesc, q: NodeDesc, r: nat,
                       rank: int, rank': int, total: nat, total': nat)
    requires Run(c, run) && i <= j < |run|
    requires Returns(run[i], p, r, rank, total) && Returns(run[j], q, r, rank', total')
    ensures total == total' && (rank == rank' <==> p == q)
  {
    ReturnedRankIsPlanned(c, run, i, p, r, rank, total);
    ReturnedRankIsPlanned(c, run, j, q, r, rank', total');
    PlanIsFinal(c, run, i, j, r);
    RunKeeps(c, run, i);
    var plan := run[i].plans[r];
    PlanIsComputed(c, run[i], r);
    hide Inv, Run, Assignment, Returns;
    AssignmentIsBijection(plan.active, c.minNodes, plan.standby, c.segment);
  }

  /** The slot the plan of a round gives a rank to. */
  ghost predicate SlotOf(plan: Plan, slot: nat, rank: nat) {
    Writes(plan, slot) && plan.ranks[plan.snapshot[slot - 1].value.node] == rank
  }

  /** Every plan hands each of the active ranks to exactly one published slot of its round. */
  lemma EveryRankHasOneSlot(c: Config, run: seq<State>, i: nat, r: nat, rank: nat) returns (slot: nat)
    requires Run(c, run) && i < |run| && r in run[i].plans && rank < c.minNodes
    ensures SlotOf(run[i].plans[r], slot, rank)
    ensures Holds(run[i].claims, r, slot, run[i].plans[r].snapshot[slot - 1].value.node, Published)
    ensures forall other: nat | SlotOf(run[i].plans[r], other, rank) :: other == slot
  {
    RunKeeps(c, run, i);
    var plan := run[i].plans[r];
    PlanIsComputed(c, run[i], r);
    slot := RankSlot(c, plan, rank);
    PlanOwner(c, run[i], r, slot);
    hide Inv, Run, Assignment, Holds;
    AssignmentIsBijection(plan.active, c.minNodes, plan.standby, c.segment);
  }

  lemma RankSlot(c: Config, plan: Plan, rank: nat) returns (slot: nat)
    requires Computed(c, plan) && rank < c.minNodes
    ensures SlotOf(plan, slot, rank)
  {
    hide Assignment;
    var all := plan.active + plan.standby;
    AssignmentIsBijection(plan.active, c.minNodes, plan.standby, c.segment);
    assert Hit(plan.ranks, rank);
    var n :| n in plan.ranks && plan.ranks[n] == rank;
    var p :| p in all && p.node == n;
    assert Some(p) in plan.snapshot;
    var x :| 0 <= x < |plan.snapshot| && plan.snapshot[x] == Some(p);
    slot := x + 1;
  }

  /** The participant an active rank goes to is one of the plan's active candidates. */
  lemma ActiveSlotCandidate(c: Config, plan: Plan, slot: nat, rank: nat)
    requires Computed(c, plan) && SnapshotDistinct(plan.snapshot) && SlotOf(plan, slot, rank) && rank < c.minNodes
    ensures plan.snapshot[slot - 1].value in plan.active
  {
    hide Assignment;
    var all := plan.active + plan.standby;
    AssignmentIsBijection(plan.active, c.minNodes, plan.standby, c.segment);
    var who := plan.snapshot[slot - 1].value;
    var p :| p in all && p.node == who.node;
    assert Some(p) in plan.snapshot;
    var x :| 0 <= x < |plan.snapshot| && plan.snapshot[x] == Some(p);
    SameSlot(plan.snapshot, x, slot - 1);
  }

  lemma SameSlot(snapshot: seq<Option<Participant>>, x: nat, y: nat)
    requires SnapshotDistinct(snapshot) && x < |snapshot| && y < |snapshot| && snapshot[x].Some? && snapshot[y].Some?
    requires snapshot[x].value.node == snapshot[y].value.node
    ensures x == y
  {
  }

  lemma PlannedMatesShareDomain(c: Config, plan: Plan, seg: pos, slot: nat, slot': nat, rank: nat, rank': nat)
    requires Computed(c, plan) && SnapshotDistinct(plan.snapshot) && c.segment == Some(seg)
    requires SlotOf(plan, slot, rank) && SlotOf(plan, slot', rank')
    requires rank < c.minNodes && rank' < c.minNodes && rank / seg == rank' / seg
    ensures plan.snapshot[slot - 1].value.domain == plan.snapshot[slot' - 1].value.domain
  {
    ActiveSlotCandidate(c, plan, slot, rank);
    ActiveSlotCandidate(c, plan, slot', rank');
    hide Assignment;
    AlignedBlocksShareDomain(plan.active, c.minNodes, plan.standby, seg, plan.snapshot[slot - 1].value,
                             plan.snapshot[slot' - 1].value);
  }

  lemma SlotOfReturned(c: Config, plan: Plan, plans: map<nat, Plan>, procs: Procs, p: NodeDesc, r: nat, slot: nat,
                       rank: nat, total: nat)
    requires Returned(c, plans, p, r, slot, rank, total) && plan == plans[r] && AllOwn(procs, plan.snapshot)
    ensures rank < c.minNodes && SlotOf(plan, slot, rank)
    ensures p in procs && plan.snapshot[slot - 1].value == procs[p].me
  {
    assert IsOwn(procs, plan.snapshot[slot - 1].value);
  }

  lemma PlanSnapshotOwn(s: State, r: nat)
    requires Sources(s) && r in s.plans
    ensures AllOwn(s.procs, s.plans[r].snapshot)
  {
  }

  lemma RoundOf(s: State, p: NodeDesc, r: nat, rank: int, total: nat)
    requires Returns(s, p, r, rank, total)
    ensures p in s.procs && s.procs[p].round == r
  {
  }

  /** The slot under which p was given its rank, and the data p published there. */
  lemma ReturnedSlot(c: Config, s: State, p: NodeDesc, r: nat, rank: nat, total: nat) returns (slot: nat)
    requires Inv(c, s) && Sources(s) && Returns(s, p, r, rank, total)
    ensures r in s.plans && p in s.procs && rank < c.minNodes && SlotOf(s.plans[r], slot, rank)
    ensures s.plans[r].snapshot[slot - 1].value == s.procs[p].me
  {
    RoundOf(s, p, r, rank, total);
    slot := s.procs[p].slot;
    ReturnedFacts(c, s, p, r, rank, total);
    hide Inv, Sources, Returns, AllOwn, SlotOf, Writes, PlannedEntry;
    assert r in s.plans;
    PlanSnapshotOwn(s, r);
    SlotOfReturned(c, s.plans[r], s.plans, s.procs, p, r, slot, rank, total);
  }

  /** With a segment configured, two nodes that were returned ranks of one aligned block in one round, at any two
      moments of a run, published the same domain id. */
  lemma BlockMatesShareDomain(c: Config, run: seq<State>, i: nat, j: nat, p: NodeDesc, q: NodeDesc, r: nat, seg: pos,
                              rank: int, rank': int, total: nat, total': nat)
    requires Run(c, run) && i <= j < |run| && c.segment == Some(seg)
    requires Returns(run[i], p, r, rank, total) && Returns(run[j], q, r, rank', total') && rank / seg == rank' / seg
    ensures q in run[j].procs && p in run[j].procs && run[i].procs[p].me == run[j].procs[p].me
    ensures run[i].procs[p].me.domain == run[j].procs[q].me.domain
  {
    RunKeeps(c, run, i);
    RunKeeps(c, run, j);
    RunSources(c, run, i);
    RunSources(c, run, j);
    ReturnedRankIsPlanned(c, run, i, p, r, rank, total);
    ReturnedRankIsPlanned(c, run, j, q, r, rank', total');
    PlanIsFinal(c, run, i, j, r);
    RunSameMe(c, run, i, j);
    PlanIsComputed(c, run[j], r);
    hide Inv, Run, Returns, Sources, Computed, SnapshotOk, SlotOf;
    var slot := ReturnedSlot(c, run[i], p, r, rank, total);
    var slot' := ReturnedSlot(c, run[j], q, r, rank', total');
    PlannedMatesShareDomain(c, run[j].plans[r], seg, slot, slot', rank, rank');
  }

  // ---------------------------------------------------------------- reused keys

  /** From any state of a run to any later one, the round under a slot or rank key never decreases; a published slot
      value and an assigned rank are never replaced by another value of the same round. */
  lemma KeysNeverGoBack(c: Config, run: seq<State>, i: nat, j: nat, k: nat)
    requires Run(c, run) && i <= j < |run|
    ensures k in run[i].slots ==>
              && k in run[j].slots && run[i].slots[k].round <= run[j].slots[k].round
              && (run[i].slots[k].round == run[j].slots[k].round ==> run[j].slots[k] == run[i].slots[k])
    ensures k in run[i].ranks ==>
              && k in run[j].ranks && run[i].ranks[k].round <= run[j].ranks[k].round
              && (run[i].ranks[k].round == run[j].ranks[k].round && run[i].ranks[k].rank != UNASSIGNED ==>
                    run[j].ranks[k] == run[i].ranks[k])
  {
    RunAdvances(c, run, i, j);
    hide Run, RoundsAdvance, PlansGrow;
  }

  /** The defensive branches no run takes: a same-round write conflict, and a joined node without a rank key. A CAS
      conflict stops a node only over a value of an older round. */
  lemma DeadBranches(c: Config, run: seq<State>, i: nat, p: NodeDesc)
    requires Run(c, run) && i < |run| && p in run[i].procs
    ensures run[i].procs[p].pc != Done(SameRoundConflict)
    ensures !run[i].procs[p].pc.AbsentRank?
    ensures run[i].procs[p].pc.Done? && run[i].procs[p].pc.outcome.CasConflict? ==>
              run[i].procs[p].pc.outcome.observed < run[i].procs[p].round
  {
    RunKeeps(c, run, i);
    hide Run, Below, ClaimsOk, KeysOk, PlansOk, RoundsOk, JoinOk, HostOk, Holds, Returned;
    Own(c, run[i], p);
  }

  // ---------------------------------------------------------------- round lifecycle

  lemma ClosedStays(c: Config, run: seq<State>, i: nat, j: nat, r: nat)
    requires Run(c, run) && i <= j < |run| && IsClosed(run[i].done, r)
    ensures IsClosed(run[j].done, r)
  {
    RunAdvances(c, run, i, j);
    hide Run, SlotsAdvance, RanksAdvance, PlansGrow, ReasonKept;
    assert Phase(run[i].done, r) <= Phase(run[j].done, r);
  }

  lemma ClosedFacts(c: Config, s: State, r: nat)
    requires Inv(c, s) && IsClosed(s.done, r)
    ensures Below(s.done, r) && r in s.plans && DeliveredUpTo(s.ranks, s.plans[r], r, |s.plans[r].snapshot|)
  {
    hide ProcsOk, ClaimsOk, KeysOk, SnapshotOk, Computed, DeliveredUpTo;
    assert PlanOk(c, s, r);
  }

  /** A closed round stays closed, every earlier round is closed too, and every rank its plan gives has been delivered:
      the slot's rank key still holds it or belongs to a later round. */
  lemma ClosedRounds(c: Config, run: seq<State>, i: nat, j: nat, r: nat)
    requires Run(c, run) && i <= j < |run| && IsClosed(run[i].done, r)
    ensures forall e: nat | e <= r :: IsClosed(run[j].done, e)
    ensures r in run[j].plans
    ensures forall slot: nat | Writes(run[j].plans[r], slot) :: Delivered(run[j].ranks, run[j].plans[r], r, slot)
  {
    ClosedStays(c, run, i, j, r);
    RunKeeps(c, run, j);
    hide Run, Inv, Delivered;
    ClosedFacts(c, run[j], r);
  }

  /** When the host writes the 1, every planned slot's rank key holds exactly the planned value. */
  lemma DeliveredBeforeClose(c: Config, run: seq<State>, i: nat, p: NodeDesc, slot: nat)
    requires Run(c, run) && i < |run| && At(run[i], p, HostClose)
    ensures p == c.host && IsOpen(run[i].done, run[i].procs[p].round) && run[i].procs[p].round in run[i].plans
    ensures var r := run[i].procs[p].round;
            var plan := run[i].plans[r];
            Writes(plan, slot) ==> slot in run[i].ranks && run[i].ranks[slot] == PlannedEntry(plan, r, slot)
  {
    RunKeeps(c, run, i);
    var s := run[i];
    CloseFindsOpen(c, s, p);
    Own(c, s, p);
    hide Run, Inv, Below, JoinOk, WriteOk, WaitOk, SnapshotOk, Holds;
    var r := s.procs[p].round;
    if Writes(s.plans[r], slot) {
      assert Delivered(s.ranks, s.plans[r], r, slot);
      NothingNewer(c, s, p, slot);
    }
  }

  lemma ClosedByStep(s: State, s': State, p: NodeDesc)
    requires HostCloses(s, s', p)
    ensures p in s.procs && IsClosed(s'.done, s.procs[p].round)
  {
  }

  lemma ClosingIsOpen(c: Config, s: State, s': State, p: NodeDesc)
    requires Inv(c, s) && HostCloses(s, s', p)
    ensures p in s.procs && !IsClosed(s.done, s.procs[p].round)
  {
    hide Inv;
    CloseFindsOpen(c, s, p);
  }

  /** Each round is closed by at most one step of a run. */
  lemma ClosedOnce(c: Config, run: seq<State>, i: nat, j: nat, p: NodeDesc, q: NodeDesc)
    requires Run(c, run) && i < j < |run| - 1
    requires HostCloses(run[i], run[i + 1], p) && HostCloses(run[j], run[j + 1], q)
    ensures run[i].procs[p].round != run[j].procs[q].round
  {
    hide IsClosed, HostCloses;
    ClosedByStep(run[i], run[i + 1], p);
    ClosedStays(c, run, i + 1, j, run[i].procs[p].round);
    RunKeeps(c, run, j);
    ClosingIsOpen(c, run[j], run[j + 1], q);
  }

  /** A scan that ends here ends at a round that is not closed. */
  lemma ScanStops(s: State, s': State, p: NodeDesc, at: nat, joining: bool)
    requires (ScanChecks(s, s', p) || ScanGets(s, s', p)) && s.procs[p].pc.at == at && s' == ScanEnd(s, p, at, joining)
    ensures !IsClosed(s.done, at)
  {
    var pc := ScanEnd(s, p, at, joining).procs[p].pc;
    assert pc.Idle? || pc.OpenShutdown?;
  }

  /** The forward scan leaves a process at the first round that is not closed. */
  lemma ScanFindsFirstOpen(c: Config, run: seq<State>, i: nat, p: NodeDesc, at: nat, joining: bool)
    requires Run(c, run) && i < |run| - 1 && (ScanChecks(run[i], run[i + 1], p) || ScanGets(run[i], run[i + 1], p))
    requires run[i].procs[p].pc.at == at && run[i + 1] == ScanEnd(run[i], p, at, joining)
    ensures Below(run[i].done, at) && !IsClosed(run[i].done, at)
  {
    RunKeeps(c, run, i);
    ScanStops(run[i], run[i + 1], p, at, joining);
    hide Run, ClaimsOk, KeysOk, PlansOk, RoundsOk, WriteOk, WaitOk, HostOk, Below, IsClosed, ScanEnd;
    Own(c, run[i], p);
  }

  lemma OpenedAfter(c: Config, s: State, r: nat)
    requires Inv(c, s)
    ensures r + 1 in s.done ==> IsClosed(s.done, r) || r + 1 in s.signalled
    ensures r + 1 in s.signalled ==> r + 1 in s.done && s.shutdown.Recorded?
  {
    hide ClaimsOk, KeysOk, PlansOk, ProcsOk, Below;
    if r + 1 in s.done {
      assert IsClosed(s.done, r + 1 - 1) || r + 1 in s.signalled;
    }
  }

  /** "Round r + 1 exists only when round r is closed" holds exactly unless a no-restart signal has opened r + 1 and r
      is still not closed; in that case a shutdown is recorded. */
  lemma NextRoundImpliesClosed(c: Config, run: seq<State>, i: nat, r: nat)
    requires Run(c, run) && i < |run|
    ensures (r + 1 in run[i].done ==> IsClosed(run[i].done, r))
            <==> (r + 1 !in run[i].signalled || IsClosed(run[i].done, r))
    ensures !IsClosed(run[i].done, r) ==> (r + 1 in run[i].done <==> r + 1 in run[i].signalled)
    ensures r + 1 in run[i].done ==> IsClosed(run[i].done, r) || run[i].shutdown.Recorded?
  {
    RunKeeps(c, run, i);
    hide Run, Inv, IsClosed;
    OpenedAfter(c, run[i], r);
  }

  lemma ActiveRoundClosed(c: Config, s: State, p: NodeDesc)
    requires Inv(c, s) && p in s.procs && s.procs[p].pc.Active?
    ensures IsClosed(s.done, s.procs[p].round)
  {
    hide Below, ClaimsOk, KeysOk, PlansOk, RoundsOk, JoinOk, WriteOk, HostOk, Returned;
    Own(c, s, p);
  }

  /** The second half of a no-restart signal by a process whose round r is still not closed and has no successor. */
  ghost predicate SignalsEarly(s: State, p: NodeDesc, a: Action, r: nat) {
    a.ASignalOpen? && p in s.procs && s.procs[p].round == r && r + 1 !in s.done && !IsClosed(s.done, r)
  }

  ghost predicate AddsRoundAfterOpen(s: State, s': State, r: nat) {
    r + 1 !in s.done && r + 1 in s'.done && !IsClosed(s.done, r)
  }

  lemma SpawnAddsZero(c: Config, s: State, s': State, p: NodeDesc, me: Participant, r: nat)
    requires Spawn(c, s, s', p, me)
    ensures !AddsRoundAfterOpen(s, s', r)
  {
    hide IsClosed;
  }

  lemma RestartFollowsClosed(c: Config, s: State, s': State, p: NodeDesc, r: nat)
    requires Inv(c, s) && Restarts(s, s', p)
    ensures !AddsRoundAfterOpen(s, s', r)
  {
    hide Inv, IsClosed;
    ActiveRoundClosed(c, s, p);
  }

  lemma SignalDone(s: State, s': State, p: NodeDesc)
    requires SignalOpens(s, s', p)
    ensures p in s.procs && s'.done == OpenNext(s, s.procs[p].round).done
  {
    hide OpenNext;
  }

  lemma SignalAdds(s: State, s': State, p: NodeDesc, r: nat)
    requires SignalOpens(s, s', p)
    ensures AddsRoundAfterOpen(s, s', r) <==> SignalsEarly(s, p, ASignalOpen, r)
  {
    hide IsClosed, SignalOpens;
    SignalDone(s, s', p);
  }

  lemma OpenersRound(c: Config, s: State, s': State, p: NodeDesc, a: Action, r: nat)
    requires Inv(c, s) && Step(c, s, s', p, a) && (a.ASpawn? || a.ARestart? || a.ASignalOpen?)
    ensures AddsRoundAfterOpen(s, s', r) <==> SignalsEarly(s, p, a, r)
  {
    hide Inv, AddsRoundAfterOpen, Spawn, Restarts, SignalOpens;
    match a
    case ASpawn(me) => SpawnAddsZero(c, s, s', p, me, r);
    case ARestart => RestartFollowsClosed(c, s, s', p, r);
    case ASignalOpen => SignalAdds(s, s', p, r);
  }

  lemma CloseAddsNoRound(c: Config, s: State, s': State, p: NodeDesc, a: Action)
    requires Inv(c, s) && Step(c, s, s', p, a) && a.AHostClose?
    ensures s'.done.Keys == s.done.Keys
  {
    hide Inv;
    CloseFindsOpen(c, s, p);
  }

  /** Exactly such a signal makes a round follow one that is not closed. */
  lemma OrderBreaksOnlyOnSignal(c: Config, run: seq<State>, i: nat, p: NodeDesc, a: Action, r: nat)
    requires Run(c, run) && i < |run| - 1 && Step(c, run[i], run[i + 1], p, a)
    ensures AddsRoundAfterOpen(run[i], run[i + 1], r) <==> SignalsEarly(run[i], p, a, r)
  {
    RunKeeps(c, run, i);
    hide Run, Inv, IsClosed, Step;
    if a.ASpawn? || a.ARestart? || a.ASignalOpen? {
      OpenersRound(c, run[i], run[i + 1], p, a, r);
    } else if a.AHostClose? {
      CloseAddsNoRound(c, run[i], run[i + 1], p, a);
    } else {
      if IsWrite(a) {
        OtherWritesKeepDone(c, run[i], run[i + 1], p, a);
      } else {
        ReadTouchesNothing(c, run[i], run[i + 1], p, a);
      }
    }
  }

  lemma OpenNextOpens(s: State, r: nat)
    ensures OpenNext(s, r).done == if r + 1 in s.done then s.done else s.done[r + 1 := Open]
  {
  }

  lemma RestartDone(s: State, s': State, p: NodeDesc)
    requires Restarts(s, s', p)
    ensures p in s.procs && s'.done == OpenNext(s, s.procs[p].round).done
  {
    hide OpenNext;
  }

  lemma OpenerOpens(c: Config, s: State, s': State, p: NodeDesc, a: Action)
    requires Step(c, s, s', p, a) && (a.ARestart? || a.ASignalOpen?)
    ensures p in s.procs && s.procs[p].round + 1 in s'.done
    ensures s'.done[s.procs[p].round + 1]
         == if s.procs[p].round + 1 in s.done then s.done[s.procs[p].round + 1] else Open
  {
    hide Restarts, SignalOpens, OpenNext;
    if a.ARestart? { RestartDone(s, s', p); } else { SignalDone(s, s', p); }
    OpenNextOpens(s, s.procs[p].round);
  }

  lemma RoundStays(c: Config, run: seq<State>, i: nat, j: nat, r: nat)
    requires Run(c, run) && i <= j < |run| && r in run[i].done
    ensures r in run[j].done
  {
    RunAdvances(c, run, i, j);
    hide Run, SlotsAdvance, RanksAdvance, PlansGrow, ReasonKept, MarksStay;
    assert Phase(run[i].done, r) <= Phase(run[j].done, r);
  }

  /** A restart, or the second half of a no-restart signal, by a process of round r makes r + 1 exist from the next state
      on, open when nobody had opened it, and untouched otherwise. */
  lemma RestartOpensNext(c: Config, run: seq<State>, i: nat, j: nat, p: NodeDesc, a: Action)
    requires Run(c, run) && i < j < |run| && Step(c, run[i], run[i + 1], p, a) && (a.ARestart? || a.ASignalOpen?)
    ensures p in run[i].procs
    ensures var next := run[i].procs[p].round + 1;
            && next in run[j].done
            && next in run[i + 1].done
            && (next !in run[i].done ==> run[i + 1].done[next] == Open)
            && (next in run[i].done ==> run[i + 1].done[next] == run[i].done[next])
  {
    OpenerOpens(c, run[i], run[i + 1], p, a);
    hide Step, Run;
    RoundStays(c, run, i + 1, j, run[i].procs[p].round + 1);
  }

  lemma PollSees(s: State, s': State, q: NodeDesc)
    requires Polls(s, s', q) && s.procs[q].round + 1 in s.done
    ensures q in s'.procs && s'.procs[q].pc == SawNext(s.procs[q].pc.rank, s.procs[q].pc.total)
  {
  }

  lemma ReasonRead(s: State, s': State, q: NodeDesc)
    requires ReadsReason(s, s', q)
    ensures q in s'.procs
    ensures s'.procs[q].pc == if s.shutdown == Recorded(AttributionStop) then Done(NoRestart(AttributionStop))
                              else if s.shutdown == Recorded(NoProgress) then Done(NoRestart(NoProgress))
                              else OpenShutdown
  {
  }

  /** Every peer that is still running round r and polls after that sees the next round. */
  lemma PeersSeeRestart(c: Config, run: seq<State>, i: nat, j: nat, p: NodeDesc, a: Action, q: NodeDesc)
    requires Run(c, run) && i < j < |run| - 1 && Step(c, run[i], run[i + 1], p, a) && (a.ARestart? || a.ASignalOpen?)
    requires Polls(run[j], run[j + 1], q) && run[j].procs[q].round == run[i].procs[p].round
    ensures q in run[j + 1].procs && run[j + 1].procs[q].pc == SawNext(run[j].procs[q].pc.rank, run[j].procs[q].pc.total)
  {
    hide Step, Polls;
    RestartOpensNext(c, run, i, j, p, a);
    PollSees(run[j], run[j + 1], q);
  }

  /** Such a run: the host signals no-restart before round 0 is closed. */
  ghost function EarlySignal(me: Participant, reason: Reason): seq<State> {
    var p := me.node;
    var s0 := State(map[], map[], map[], map[], Missing, map[], map[], map[], map[], {});
    var s1 := s0.(procs := map[p := Proc(me, 0, 0, true, Idle)], done := map[0 := Open], shutdown := Sentinel);
    var s2 := s1.(procs := map[p := Proc(me, 0, 0, true, OpenShutdown)]);
    var s3 := s1.(procs := map[p := Proc(me, 0, 0, true, SignalOpen)], shutdown := Recorded(reason));
    var s4 := s3.(procs := map[p := Proc(me, 0, 0, true, Done(Signalled))], done := map[0 := Open, 1 := Open], signalled := {1});
    [s0, s1, s2, s3, s4]
  }

  lemma EarlySignalOpensBoth(me: Participant, reason: Reason)
    ensures var run := EarlySignal(me, reason);
            |run| == 5 && IsOpen(run[4].done, 0) && IsOpen(run[4].done, 1)
  {
  }

  lemma EarlySignalStarts(c: Config, me: Participant, reason: Reason)
    requires me.node == c.host
    ensures var run := EarlySignal(me, reason);
            Init(run[0]) && Spawn(c, run[0], run[1], c.host, me) && Call(c, run[1], run[2], c.host)
  {
  }

  lemma EarlySignalEnds(c: Config, me: Participant, reason: Reason)
    requires me.node == c.host
    ensures var run := EarlySignal(me, reason);
            Signals(run[2], run[3], c.host, reason) && SignalOpens(run[3], run[4], c.host)
  {
    var run := EarlySignal(me, reason);
    assert run[3].done[1 := Open] == map[0 := Open, 1 := Open];
  }

  lemma SpawnIsNext(c: Config, s: State, s': State, p: NodeDesc, me: Participant)
    requires Spawn(c, s, s', p, me)
    ensures Next(c, s, s')
  {
    hide Spawn;
    assert Step(c, s, s', p, ASpawn(me));
  }

  lemma CallIsNext(c: Config, s: State, s': State, p: NodeDesc)
    requires Call(c, s, s', p)
    ensures Next(c, s, s')
  {
    hide Call;
    assert Step(c, s, s', p, ACall);
  }

  lemma SignalIsNext(c: Config, s: State, s': State, p: NodeDesc, reason: Reason)
    requires Signals(s, s', p, reason)
    ensures Next(c, s, s')
  {
    hide Signals;
    assert Step(c, s, s', p, ASignal(reason));
  }

  lemma SignalOpenIsNext(c: Config, s: State, s': State, p: NodeDesc)
    requires SignalOpens(s, s', p)
    ensures Next(c, s, s')
  {
    hide SignalOpens;
    assert Step(c, s, s', p, ASignalOpen);
  }

  lemma NextRoundWithoutClose(c: Config, me: Participant, reason: Reason)
    requires me.node == c.host
    ensures var run := EarlySignal(me, reason);
            Run(c, run) && IsOpen(run[4].done, 0) && IsOpen(run[4].done, 1)
  {
    var run := EarlySignal(me, reason);
    hide EarlySignal, Init, Spawn, Call, Signals, SignalOpens, Next, IsOpen;
    EarlySignalOpensBoth(me, reason);
    EarlySignalStarts(c, me, reason);
    EarlySignalEnds(c, me, reason);
    SpawnIsNext(c, run[0], run[1], c.host, me);
    CallIsNext(c, run[1], run[2], c.host);
    SignalIsNext(c, run[2], run[3], c.host, reason);
    SignalOpenIsNext(c, run[3], run[4], c.host);
  }

  // ---------------------------------------------------------------- learning the rank

  /** A joined node that reads its rank key after the close gets a rank exactly when the plan gives its slot an active
      one and the key has not moved to a later round. */
  lemma ReadAfterClose(c: Config, run: seq<State>, i: nat, p: NodeDesc)
    requires Run(c, run) && i < |run| - 1 && RankReads(c, run[i], run[i + 1], p)
    ensures var s, pr := run[i], run[i].procs[p];
            && pr.round in s.plans && IsClosed(s.done, pr.round) && s.ranks[pr.slot].round >= pr.round
            && (run[i + 1].procs[p].pc.Active? <==>
                  Writes(s.plans[pr.round], pr.slot) && PlannedEntry(s.plans[pr.round], pr.round, pr.slot).rank < c.minNodes
                  && s.ranks[pr.slot].round == pr.round)
  {
    RunKeeps(c, run, i);
    var s, pr := run[i], run[i].procs[p];
    ReaderFacts(c, s, p);
    ClosedRounds(c, run, i, i, pr.round);
    PublishedHasRank(c, s, pr.round, pr.slot);
    hide Run, Inv, Holds;
    if s.ranks[pr.slot].rank != UNASSIGNED { RankMeaning(c, s, pr.slot); }
    if Writes(s.plans[pr.round], pr.slot) {
      assert Delivered(s.ranks, s.plans[pr.round], pr.round, pr.slot);
    }
  }

  lemma ReaderFacts(c: Config, s: State, p: NodeDesc)
    requires Inv(c, s) && At(s, p, RankRead)
    ensures IsClosed(s.done, s.procs[p].round)
    ensures var pr := s.procs[p]; (pr.round, pr.slot) in s.claims && s.claims[(pr.round, pr.slot)].stage == Published
  {
    hide Below, ClaimsOk, KeysOk, PlansOk, RoundsOk, JoinOk, WriteOk, HostOk, Returned;
    Own(c, s, p);
  }

  // ---------------------------------------------------------------- shutdown

  /** The shutdown reason is written once. */
  lemma ReasonIsFinal(c: Config, run: seq<State>, i: nat, j: nat)
    requires Run(c, run) && i <= j < |run|
    ensures run[i].shutdown.Recorded? ==> run[j].shutdown == run[i].shutdown
  {
    RunAdvances(c, run, i, j);
    hide Run, RoundsAdvance, SlotsAdvance, RanksAdvance, PlansGrow;
  }

  /** The reason a step asks to have recorded. */
  function Asked(a: Action): Reason
    requires a.ASignal? || a.AShutdown? || a.AHostFail?
  {
    match a
    case ASignal(r) => r
    case AShutdown(r) => r
    case AHostFail => Failure
  }

  lemma SignalRecords(s: State, s': State, p: NodeDesc, r: Reason)
    requires Signals(s, s', p, r)
    ensures s'.shutdown == if s.shutdown.Recorded? then s.shutdown else Recorded(r)
  {
  }

  lemma ShutdownRecords(s: State, s': State, p: NodeDesc, r: Reason)
    requires RecordsShutdown(s, s', p, r)
    ensures s'.shutdown == if s.shutdown.Recorded? then s.shutdown else Recorded(r)
  {
  }

  lemma FailureRecords(s: State, s': State, p: NodeDesc)
    requires HostFails(s, s', p)
    ensures s'.shutdown == if s.shutdown.Recorded? then s.shutdown else Recorded(Failure)
  {
  }

  lemma StepRecords(c: Config, s: State, s': State, p: NodeDesc, a: Action)
    requires Step(c, s, s', p, a) && (a.ASignal? || a.AShutdown? || a.AHostFail?)
    ensures s'.shutdown == if s.shutdown.Recorded? then s.shutdown else Recorded(Asked(a))
  {
    hide Signals, RecordsShutdown, HostFails;
    match a
    case ASignal(r) => SignalRecords(s, s', p, r);
    case AShutdown(r) => ShutdownRecords(s, s', p, r);
    case AHostFail => FailureRecords(s, s', p);
  }

  /** The first reason wins: a no-restart signal, a shutdown call or the host's failure records its reason when none is
      recorded yet, and no later one replaces it. */
  lemma FirstReasonWins(c: Config, run: seq<State>, i: nat, j: nat, p: NodeDesc, a: Action)
    requires Run(c, run) && i < j < |run| && Step(c, run[i], run[i + 1], p, a)
    requires a.ASignal? || a.AShutdown? || a.AHostFail?
    ensures run[j].shutdown == if run[i].shutdown.Recorded? then run[i].shutdown else Recorded(Asked(a))
  {
    StepRecords(c, run[i], run[i + 1], p, a);
    hide Step, Run;
    ReasonIsFinal(c, run, i + 1, j);
  }

  lemma OpenCheckStops(s: State, s': State, p: NodeDesc)
    requires OpenShutdownReads(s, s', p) && s.shutdown.Recorded?
    ensures At(s', p, Done(ShutDown))
  {
  }

  lemma HostCheckStops(s: State, s': State, p: NodeDesc)
    requires HostShutdownReads(s, s', p) && s.shutdown.Recorded?
    ensures At(s', p, Done(ShutDown))
  {
  }

  lemma WaitCheckStops(s: State, s': State, p: NodeDesc)
    requires WaitShutdownReads(s, s', p) && s.shutdown.Recorded?
    ensures At(s', p, Done(ShutDown))
  {
  }

  lemma CheckStops(c: Config, s: State, s': State, p: NodeDesc, a: Action)
    requires Step(c, s, s', p, a) && s.shutdown.Recorded? && (a.AOpenShutdown? || a.AHostShutdown? || a.AWaitShutdown?)
    ensures At(s', p, Done(ShutDown))
  {
    hide OpenShutdownReads, HostShutdownReads, WaitShutdownReads, At;
    match a
    case AOpenShutdown => OpenCheckStops(s, s', p);
    case AHostShutdown => HostCheckStops(s, s', p);
    case AWaitShutdown => WaitCheckStops(s, s', p);
  }

  /** Once a reason is recorded, every shutdown check ends its process: at Step 0, in the host's loop, and while waiting
      for the close. */
  lemma ShutdownChecksStop(c: Config, run: seq<State>, i: nat, j: nat, p: NodeDesc, a: Action)
    requires Run(c, run) && i <= j < |run| - 1 && run[i].shutdown.Recorded? && Step(c, run[j], run[j + 1], p, a)
    requires a.AOpenShutdown? || a.AHostShutdown? || a.AWaitShutdown?
    ensures At(run[j + 1], p, Done(ShutDown))
  {
    hide Step, Run, At;
    ReasonIsFinal(c, run, i, j);
    CheckStops(c, run[j], run[j + 1], p, a);
  }

  lemma SignalledMeansRecorded(c: Config, s: State, r: nat)
    requires Inv(c, s) && r in s.signalled
    ensures s.shutdown.Recorded? && r in s.done
  {
    hide ClaimsOk, KeysOk, PlansOk, ProcsOk, Below, IsClosed;
  }

  /** Once a no-restart signal has opened a round, everyone who reads the reason after seeing it acts on the one
      recorded reason, whatever later shutdown calls do: out with that reason, or back to Step 0, whose shutdown check
      ends it. */
  lemma SignalReachesEveryone(c: Config, run: seq<State>, i: nat, j: nat, p: NodeDesc, r: nat)
    requires Run(c, run) && i <= j < |run| - 1 && r in run[i].signalled
    requires ReadsReason(run[j], run[j + 1], p) && run[j].procs[p].round + 1 == r
    ensures run[i].shutdown.Recorded?
    ensures var reason := run[i].shutdown.reason;
            run[j + 1].procs[p].pc
            == if reason == AttributionStop || reason == NoProgress then Done(NoRestart(reason)) else OpenShutdown
    ensures forall k, s' | j < k < |run| && p in run[k].procs && run[k].procs[p].pc == OpenShutdown
                           && OpenShutdownReads(run[k], s', p) :: s'.procs[p].pc == Done(ShutDown)
  {
    RunKeeps(c, run, i);
    SignalledMeansRecorded(c, run[i], r);
    ReasonIsFinal(c, run, i, j);
    forall k | j < k < |run| ensures run[k].shutdown.Recorded? {
      ReasonIsFinal(c, run, i, k);
    }
    hide Run, Inv;
  }

  /** A process that left with a reason left with the recorded one. */
  lemma ExitReasonsAgree(c: Config, run: seq<State>, i: nat, p: NodeDesc, q: NodeDesc)
    requires Run(c, run) && i < |run| && p in run[i].procs && q in run[i].procs
    requires run[i].procs[p].pc.Done? && run[i].procs[p].pc.outcome.NoRestart?
    requires run[i].procs[q].pc.Done? && run[i].procs[q].pc.outcome.NoRestart?
    ensures run[i].procs[p].pc == run[i].procs[q].pc
  {
    RunKeeps(c, run, i);
    hide Run, Below, ClaimsOk, KeysOk, PlansOk, RoundsOk, JoinOk, HostOk, WriteOk, Holds, Returned;
    Own(c, run[i], p);
    Own(c, run[i], q);
  }

  // ---------------------------------------------------------------- the host never comes up short

  /** What can still go wrong after the counting check accepted the candidates. */
  lemma AcceptedErrors(active: seq<Participant>, worldSize: nat, standby: seq<Participant>, segment: Option<pos>)
    requires DistinctNodes(active + standby) && worldSize % Size(segment) == 0
    requires !MissingDomain(active, segment) && EnoughSegments(active, worldSize, segment)
    ensures var all, result := active + standby, Assignment(active, worldSize, standby, segment);
            && (result.Err? <==> !AnyUnassigned(all) && |InfraRanks(all)| != |all|)
            && (result.Err? ==> result.error == DuplicateInfraRank)
  {
    hide SortedDomains, Taken, RanksOf, RankOrder, Sort, Layout, EnoughSegments, TotalSegments, Assignment, MissingDomain;
    AssignmentCases(active, worldSize, standby, segment);
    SortRankableFacts(active, standby);
    if SortRankable(active, standby).Ok? {
      MissingDomainSorted(active, active + standby, SortRankable(active, standby).value.0, segment);
      CountingMatchesWalk(active, worldSize, standby, segment);
    }
  }

  /** With minNodes a multiple of the segment, the host fails a decision only over a missing domain id or duplicate
      infrastructure ranks, never for insufficient nodes. */
  lemma HostNeverShort(c: Config, run: seq<State>, i: nat, p: NodeDesc, error: AssignError)
    requires Run(c, run) && i < |run| - 1 && c.minNodes % Size(c.segment) == 0
    requires HostDecides(c, run[i], run[i + 1], p) && At(run[i + 1], p, Done(AssignFailed(error)))
    ensures error == DomainMissing || error == DuplicateInfraRank
  {
    RunKeeps(c, run, i);
    var s, pr := run[i], run[i].procs[p];
    HostSnapshot(c, s, p);
    BucketsAreDistinct(c, s, pr.round, pr.pc.snapshot, UnhealthyIn(s, pr.round));
    hide Run, Inv, Complete, Leftover, Present, Assignment, EnoughSegments, MissingDomain, DuplicateAddr;
    JudgeErrors(c, pr.pc.snapshot, UnhealthyIn(s, pr.round));
    FailedDecision(c, s, run[i + 1], p, error);
  }

  lemma Arrives(s: State, p: NodeDesc, pc: Pc)
    requires p in s.procs
    ensures At(Goto(s, p, pc), p, pc)
  {
  }

  lemma FailedDecision(c: Config, s: State, s': State, p: NodeDesc, error: AssignError)
    requires HostDecides(c, s, s', p) && At(s', p, Done(AssignFailed(error)))
    ensures Verdicts(c, s, s.procs[p]) == Reject(error) || Verdicts(c, s, s.procs[p]) == CannotAssign(error)
  {
    hide Verdicts, HostMayGo, Goto;
    var v := Verdicts(c, s, s.procs[p]);
    if pc :| HostMayGo(v, pc) && s' == Goto(s, p, pc) {
      Arrives(s, p, pc);
      FailingMove(v, error);
    } else {
      Arrives(s.(plans := s.plans[s.procs[p].round := v.plan]), p, HostWrite(0));
    }
  }

  lemma FailingMove(v: Verdict, error: AssignError)
    requires HostMayGo(v, Done(AssignFailed(error)))
    ensures v == Reject(error) || v == CannotAssign(error)
  {
  }

  lemma JudgeErrors(c: Config, snapshot: seq<Option<Participant>>, unhealthy: set<string>)
    requires c.minNodes % Size(c.segment) == 0
    requires var present := Present(snapshot, unhealthy);
             DistinctNodes(Complete(present, c.groupSize) + Leftover(present, c.groupSize))
    ensures var v := Judge(c, snapshot, unhealthy);
            (v.Reject? ==> v.error == DomainMissing) && (v.CannotAssign? ==> v.failure == DuplicateInfraRank)
  {
    hide Complete, Leftover, Present, Assignment, EnoughSegments, MissingDomain, DuplicateAddr;
    var present := Present(snapshot, unhealthy);
    var active, standby := Complete(present, c.groupSize), Leftover(present, c.groupSize);
    if !MissingDomain(active, c.segment) && EnoughSegments(active, c.minNodes, c.segment) {
      AcceptedErrors(active, c.minNodes, standby, c.segment);
    }
  }
}
