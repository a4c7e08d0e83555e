/** The store host's decision, its rank writes and the close keep the invariant. */
module BarrierHost {
  import opened Prelude
  import opened Sorting
  import opened RankAssignment
  import opened RankTheorems
  import opened RankLoops
  import opened Barrier
  import opened BarrierInvariant
  import opened BarrierSteps
  import opened BarrierWrites

  // ---------------------------------------------------------------- the decision

  ghost predicate SnapshotDistinct(snapshot: seq<Option<Participant>>) {
    forall i, j | 0 <= i < j < |snapshot| && snapshot[i].Some? && snapshot[j].Some? ::
      snapshot[i].value.node != snapshot[j].value.node
  }

  /** A snapshot of published slots of one round lists no node twice. */
  lemma SnapshotsAreDistinct(claims: Claims, r: nat, snapshot: seq<Option<Participant>>)
    requires OneSlotEach(claims) && SnapshotOk(claims, r, snapshot)
    ensures SnapshotDistinct(snapshot)
  {
    forall i, j | 0 <= i < j < |snapshot| && snapshot[i].Some? && snapshot[j].Some?
      ensures snapshot[i].value.node != snapshot[j].value.node
    {
      assert Holds(claims, r, i + 1, snapshot[i].value.node, Published);
      assert Holds(claims, r, j + 1, snapshot[j].value.node, Published);
    }
  }

  lemma {:induction false} PresentMembers(snapshot: seq<Option<Participant>>, unhealthy: set<string>)
    ensures forall p | p in Present(snapshot, unhealthy) :: Some(p) in snapshot
    ensures SnapshotDistinct(snapshot) ==> DistinctNodes(Present(snapshot, unhealthy))
  {
    if snapshot != [] {
      var init, last := snapshot[..|snapshot|-1], snapshot[|snapshot|-1];
      PresentMembers(init, unhealthy);
      assert forall x :: x in init ==> x in snapshot;
      if SnapshotDistinct(snapshot) && last.Some? {
        forall p | p in Present(init, unhealthy) ensures p.node != last.value.node {
          var i :| 0 <= i < |init| && init[i] == Some(p);
          assert snapshot[i].value.node != snapshot[|init|].value.node;
        }
      }
    }
  }

  /** The two rank buckets of one decision hold each node at most once. */
  lemma BucketsAreDistinct(c: Config, s: State, r: nat, snapshot: seq<Option<Participant>>, unhealthy: set<string>)
    requires Inv(c, s) && SnapshotOk(s.claims, r, snapshot)
    ensures var present := Present(snapshot, unhealthy);
            var all := Complete(present, c.groupSize) + Leftover(present, c.groupSize);
            DistinctNodes(all) && forall p | p in all :: Some(p) in snapshot
  {
    var present := Present(snapshot, unhealthy);
    SnapshotsAreDistinct(s.claims, r, snapshot);
    PresentMembers(snapshot, unhealthy);
    SplitPartitions(present, c.groupSize);
    var all := Complete(present, c.groupSize) + Leftover(present, c.groupSize);
    DistinctPermutation(present, all);
    forall p | p in all ensures Some(p) in snapshot {
      assert p in multiset(all);
    }
  }

  /** The host records a plan for its open round and starts writing. */
  ghost predicate Planned(c: Config, s: State, s': State, p: NodeDesc, plan: Plan) {
    && p in s.procs && s.procs[p].pc.HostGroups? && plan.snapshot == s.procs[p].pc.snapshot && Computed(c, plan)
    && s' == Goto(s.(plans := s.plans[s.procs[p].round := plan]), p, HostWrite(0))
  }

  lemma PlanIsNew(c: Config, s: State, s': State, p: NodeDesc, plan: Plan)
    requires Inv(c, s) && Planned(c, s, s', p, plan)
    ensures p == c.host && IsOpen(s.done, s.procs[p].round) && s.procs[p].round !in s.plans
    ensures Below(s.done, s.procs[p].round) && SnapshotOk(s.claims, s.procs[p].round, plan.snapshot)
    ensures forall r | r in s.plans :: IsClosed(s.done, r)
  {
    Own(c, s, p);
    NoOpenPlan(c, s, p);
  }

  lemma PlanPlans(c: Config, s: State, s': State, r: nat, plan: Plan)
    requires PlansStored(c, s) && r !in s.plans && Below(s.done, r) && SnapshotOk(s.claims, r, plan.snapshot)
    requires Computed(c, plan) && !IsClosed(s.done, r) && s' == s.(plans := s.plans[r := plan], procs := s'.procs)
    ensures PlansStored(c, s')
  {
    hide Below, SnapshotOk, DeliveredUpTo, Computed, IsClosed;
    forall i | i in s'.plans ensures PlanOk(c, s', i) {
      if i != r { assert PlanOk(c, s, i); }
    }
  }

  lemma PlanClaims(s: State, s': State)
    requires ClaimsStored(s) && s' == s.(plans := s'.plans, procs := s'.procs)
    ensures ClaimsStored(s')
  {
    hide Below;
    forall i: nat, j: nat | (i, j) in s'.claims ensures ClaimOk(s', i, j) { assert ClaimOk(s, i, j); }
  }

  lemma PlanOwners(c: Config, s: State, s': State, p: NodeDesc, plan: Plan)
    requires ClaimersOk(s.claims, s.procs) && Planned(c, s, s', p, plan) && p == c.host
    requires forall r | r in s.plans :: IsClosed(s.done, r)
    ensures ClaimersOk(s'.claims, s'.procs) && HostHolds(c, s')
  {
    hide Computed, IsClosed;
    forall i: nat, j: nat | (i, j) in s'.claims ensures ClaimerOk(s'.claims, s'.procs, i, j) {
      assert ClaimerOk(s.claims, s.procs, i, j);
    }
  }

  lemma PlanStore(c: Config, s: State, s': State, p: NodeDesc, plan: Plan)
    requires Inv(c, s) && Planned(c, s, s', p, plan)
    ensures StoreOk(c, s') && ClaimersOk(s'.claims, s'.procs) && HostHolds(c, s')
  {
    hide Inv, ClaimersOk, HostHolds, ClaimsStored, OneSlotEach, KeysOk, PlansStored, RoundsOk, ProcsOk, Below, SnapshotOk,
         Computed;
    PlanIsNew(c, s, s', p, plan);
    Split(c, s);
    var r := s.procs[p].round;
    PlanKeys(c, s, s', r, plan);
    PlanClaims(s, s');
    PlanPlans(c, s, s', r, plan);
    PlanOwners(c, s, s', p, plan);
  }

  lemma PlanKeys(c: Config, s: State, s': State, r: nat, plan: Plan)
    requires KeysOk(s) && r !in s.plans && s' == s.(plans := s.plans[r := plan], procs := s'.procs)
    ensures KeysOk(s')
  {
    forall j | j in s'.ranks ensures RankOk(s'.ranks[j], j, s'.claims, s'.plans) {
      assert RankOk(s.ranks[j], j, s.claims, s.plans);
    }
  }

  lemma PlanOwn(c: Config, s: State, s': State, p: NodeDesc, plan: Plan)
    requires Inv(c, s) && Planned(c, s, s', p, plan)
    ensures ProcOk(c, s', p, s'.procs[p])
  {
    hide Inv, Below, SnapshotOk, ClaimedIn, Returned, DeliveredUpTo, Holds, Computed;
    PlanIsNew(c, s, s', p, plan);
    NothingToDeliver(s'.ranks, plan, s.procs[p].round);
    Own(c, s, p);
  }

  lemma NothingToDeliver(ranks: RankKeys, plan: Plan, r: nat)
    ensures DeliveredUpTo(ranks, plan, r, 0)
  {
  }

  lemma PlanDisturbs(c: Config, s: State, s': State, p: NodeDesc, q: NodeDesc, plan: Plan)
    requires Planned(c, s, s', p, plan) && q in s.procs && q != p && p == c.host && s.procs[p].round !in s.plans
    ensures Undisturbed(c, s, s', q, s.procs[q])
  {
  }

  lemma PlanKeeps(c: Config, s: State, s': State, p: NodeDesc, plan: Plan)
    requires Inv(c, s) && Planned(c, s, s', p, plan)
    ensures Inv(c, s')
  {
    PlanIsNew(c, s, s', p, plan);
    PlanStore(c, s, s', p, plan);
    PlanOwn(c, s, s', p, plan);
    hide Inv, ProcOk, Below, StoreOk, ClaimersOk, HostHolds, Undisturbed;
    forall q | q in s.procs && q != p ensures Undisturbed(c, s, s', q, s.procs[q]) {
      PlanDisturbs(c, s, s', p, q, plan);
    }
    Assemble(c, s, s', p);
  }

  /** A plan the host settles on is a computed assignment of distinct nodes. */
  lemma SettledIsComputed(c: Config, s: State, p: NodeDesc)
    requires Inv(c, s) && p in s.procs && s.procs[p].pc.HostGroups? && Verdicts(c, s, s.procs[p]).Settle?
    ensures Computed(c, Verdicts(c, s, s.procs[p]).plan)
    ensures Verdicts(c, s, s.procs[p]).plan.snapshot == s.procs[p].pc.snapshot
  {
    hide Inv, Complete, Leftover, Assignment, EnoughSegments, MissingDomain, DuplicateAddr, Present, DistinctNodes;
    HostSnapshot(c, s, p);
    BucketsAreDistinct(c, s, s.procs[p].round, s.procs[p].pc.snapshot, UnhealthyIn(s, s.procs[p].round));
  }

  lemma HostDecideKeeps(c: Config, s: State, s': State, p: NodeDesc)
    requires Inv(c, s) && HostDecides(c, s, s', p)
    ensures Inv(c, s')
  {
    hide Inv, Verdicts, Computed, HostMayGo;
    var v := Verdicts(c, s, s.procs[p]);
    if pc :| HostMayGo(v, pc) && s' == Goto(s, p, pc) {
      HostDecidesNot(c, s, s', p, v, pc);
    } else {
      SettledIsComputed(c, s, p);
      PlanKeeps(c, s, s', p, v.plan);
    }
  }

  lemma HostSnapshot(c: Config, s: State, p: NodeDesc)
    requires Inv(c, s) && p in s.procs && s.procs[p].pc.HostGroups?
    ensures SnapshotOk(s.claims, s.procs[p].round, s.procs[p].pc.snapshot)
  {
    Own(c, s, p);
  }

  lemma HostDecidesNot(c: Config, s: State, s': State, p: NodeDesc, v: Verdict, pc: Pc)
    requires Inv(c, s) && p in s.procs && s.procs[p].pc.HostGroups? && s' == Goto(s, p, pc)
    requires HostMayGo(v, pc)
    ensures Inv(c, s')
  {
    hide Inv, Below, SnapshotOk, DeliveredUpTo, ClaimedIn, Holds, Returned;
    Own(c, s, p);
    if pc.Done? { Stays(c, s, s', p, pc); } else { Stays(c, s, s', p, pc); }
  }

  // ---------------------------------------------------------------- writing ranks

  /** The host writes the planned rank of slot k, which it has not passed yet. */
  ghost predicate Wrote(s: State, s': State, p: NodeDesc, k: nat) {
    && p in s.procs && s.procs[p].pc.HostWrite? && k == s.procs[p].pc.written + 1
    && var r := s.procs[p].round;
       && r in s.plans && Writes(s.plans[r], k)
       && s' == Goto(s.(ranks := s.ranks[k := PlannedEntry(s.plans[r], r, k)]), p, HostWrite(k))
  }

  /** No key holds a round later than the host's open round. */
  lemma NothingNewer(c: Config, s: State, p: NodeDesc, k: nat)
    requires Inv(c, s) && p in s.procs && IsOpen(s.done, s.procs[p].round) && k in s.ranks
    ensures s.ranks[k].round <= s.procs[p].round
  {
    RankRound(c, s, k, s.procs[p].round);
  }

  lemma WriteFacts(c: Config, s: State, s': State, p: NodeDesc, k: nat)
    requires Inv(c, s) && Wrote(s, s', p, k)
    ensures p == c.host && IsOpen(s.done, s.procs[p].round)
    ensures k in s.ranks && s.ranks[k].round == s.procs[p].round
    ensures (s.procs[p].round, k) in s.claims && s.claims[(s.procs[p].round, k)].stage == Published
  {
    var r := s.procs[p].round;
    Own(c, s, p);
    PlanOwner(c, s, r, k);
    PublishedHasRank(c, s, r, k);
    NothingNewer(c, s, p, k);
  }

  lemma WriteClaims(s: State, s': State, r: nat, k: nat, e: RankEntry)
    requires ClaimsStored(s) && k in s.ranks && s.ranks[k].round == e.round == r
    requires s' == s.(ranks := s.ranks[k := e], procs := s'.procs)
    ensures ClaimsStored(s')
  {
    hide Below;
    forall i: nat, j: nat | (i, j) in s'.claims ensures ClaimOk(s', i, j) { assert ClaimOk(s, i, j); }
  }

  lemma WriteKeys(s: State, s': State, r: nat, k: nat)
    requires KeysOk(s) && r in s.plans && Writes(s.plans[r], k)
    requires (r, k) in s.claims && s.claims[(r, k)].stage == Published
    requires s' == s.(ranks := s.ranks[k := PlannedEntry(s.plans[r], r, k)], procs := s'.procs)
    ensures KeysOk(s')
  {
    forall j | j in s'.ranks ensures RankOk(s'.ranks[j], j, s'.claims, s'.plans) {
      if j != k { assert RankOk(s.ranks[j], j, s.claims, s.plans); }
    }
    forall j | j in s'.slots ensures SlotOk(s'.slots[j], j, s'.claims) { assert SlotOk(s.slots[j], j, s.claims); }
  }

  lemma WritePlans(c: Config, s: State, s': State, r: nat, k: nat)
    requires PlansStored(c, s) && r in s.plans && Writes(s.plans[r], k) && !IsClosed(s.done, r)
    requires k in s.ranks && s.ranks[k].round == r
    requires s' == s.(ranks := s.ranks[k := PlannedEntry(s.plans[r], r, k)], procs := s'.procs)
    ensures PlansStored(c, s')
  {
    hide Below, SnapshotOk, Computed;
    forall i | i in s'.plans ensures PlanOk(c, s', i) {
      assert PlanOk(c, s, i);
      if IsClosed(s'.done, i) {
        forall j: nat | j <= |s.plans[i].snapshot| && Writes(s.plans[i], j) ensures Delivered(s'.ranks, s.plans[i], i, j) {
          assert Delivered(s.ranks, s.plans[i], i, j);
        }
      }
    }
  }

  lemma WriteOwners(c: Config, s: State, s': State, p: NodeDesc, k: nat)
    requires Inv(c, s) && Wrote(s, s', p, k)
    ensures ClaimersOk(s'.claims, s'.procs) && HostHolds(c, s')
  {
    hide Below, IsClosed, RoundsOk, ProcsOk, KeysOk, ClaimOk, PlanOk;
    forall i: nat, j: nat | (i, j) in s'.claims ensures ClaimerOk(s'.claims, s'.procs, i, j) {
      assert ClaimerOk(s.claims, s.procs, i, j);
    }
    forall i | i in s'.plans ensures OpenPlanHeld(c, s'.done, i, s'.procs) {
      assert OpenPlanHeld(c, s.done, i, s.procs);
    }
  }

  lemma WriteDelivers(s: State, s': State, p: NodeDesc, k: nat)
    requires Wrote(s, s', p, k)
    requires DeliveredUpTo(s.ranks, s.plans[s.procs[p].round], s.procs[p].round, k - 1)
    ensures DeliveredUpTo(s'.ranks, s.plans[s.procs[p].round], s.procs[p].round, k)
  {
    var r := s.procs[p].round;
    var plan := s.plans[r];
    forall j: nat | j <= k && Writes(plan, j) ensures Delivered(s'.ranks, plan, r, j) {
      if j != k { assert Delivered(s.ranks, plan, r, j); }
    }
  }

  lemma WriteOwn(c: Config, s: State, s': State, p: NodeDesc, k: nat)
    requires Inv(c, s) && Wrote(s, s', p, k)
    ensures ProcOk(c, s', p, s'.procs[p])
  {
    hide Inv, Below, SnapshotOk, ClaimedIn, Returned, DeliveredUpTo, PlannedEntry;
    Own(c, s, p);
    WriteDelivers(s, s', p, k);
  }

  lemma WriteDisturbs(c: Config, s: State, s': State, p: NodeDesc, q: NodeDesc, k: nat)
    requires Wrote(s, s', p, k) && q in s.procs && q != p && p == c.host
    ensures Undisturbed(c, s, s', q, s.procs[q])
  {
  }

  lemma WroteKeeps(c: Config, s: State, s': State, p: NodeDesc, k: nat)
    requires Inv(c, s) && Wrote(s, s', p, k)
    ensures Inv(c, s')
  {
    var r := s.procs[p].round;
    Split(c, s);
    WriteFacts(c, s, s', p, k);
    WriteClaims(s, s', r, k, PlannedEntry(s.plans[r], r, k));
    WriteKeys(s, s', r, k);
    WritePlans(c, s, s', r, k);
    WriteOwners(c, s, s', p, k);
    WriteOwn(c, s, s', p, k);
    hide Inv, ProcOk, Below, ClaimersOk, HostHolds, Undisturbed, RoundsOk;
    forall q | q in s.procs && q != p ensures Undisturbed(c, s, s', q, s.procs[q]) {
      WriteDisturbs(c, s, s', p, q, k);
    }
    Assemble(c, s, s', p);
  }

  lemma WriteCases(s: State, s': State, p: NodeDesc)
    requires HostWrites(s, s', p)
    ensures p in s.procs && s.procs[p].pc.HostWrite? && s.procs[p].round in s.plans
    ensures var n, plan := s.procs[p].pc.written, s.plans[s.procs[p].round];
            || (n >= |plan.snapshot| && s' == Goto(s, p, HostClose))
            || (!Writes(plan, n + 1) && s' == Goto(s, p, HostWrite(n + 1)))
            || Wrote(s, s', p, n + 1)
  {
  }

  lemma HostWriteKeeps(c: Config, s: State, s': State, p: NodeDesc)
    requires Inv(c, s) && HostWrites(s, s', p)
    ensures Inv(c, s')
  {
    hide Inv, HostWrites, Writes, DeliveredUpTo, Wrote;
    WriteCases(s, s', p);
    var n, r := s.procs[p].pc.written, s.procs[p].round;
    var plan := s.plans[r];
    if Wrote(s, s', p, n + 1) {
      WroteKeeps(c, s, s', p, n + 1);
    } else {
      HostDelivered(c, s, p);
      DeliveredFrom(s.ranks, plan, r, n);
      if n >= |plan.snapshot| && s' == Goto(s, p, HostClose) {
        HostMoves(c, s, s', p, HostClose);
      } else {
        HostMoves(c, s, s', p, HostWrite(n + 1));
      }
    }
  }

  lemma HostDelivered(c: Config, s: State, p: NodeDesc)
    requires Inv(c, s) && p in s.procs && s.procs[p].pc.HostWrite? && s.procs[p].round in s.plans
    ensures DeliveredUpTo(s.ranks, s.plans[s.procs[p].round], s.procs[p].round, s.procs[p].pc.written)
  {
    Own(c, s, p);
  }

  lemma HostMoves(c: Config, s: State, s': State, p: NodeDesc, pc: Pc)
    requires Inv(c, s) && p in s.procs && s.procs[p].pc.HostWrite? && s.procs[p].round in s.plans && s' == Goto(s, p, pc)
    requires var plan := s.plans[s.procs[p].round];
             || (pc.HostClose? && DeliveredUpTo(s.ranks, plan, s.procs[p].round, |plan.snapshot|))
             || (pc.HostWrite? && DeliveredUpTo(s.ranks, plan, s.procs[p].round, pc.written))
    ensures Inv(c, s')
  {
    hide Inv, Below, SnapshotOk, DeliveredUpTo, ClaimedIn, Returned, Holds;
    Own(c, s, p);
    Stays(c, s, s', p, pc);
  }

  lemma DeliveredFrom(ranks: RankKeys, plan: Plan, r: nat, n: nat)
    requires DeliveredUpTo(ranks, plan, r, n)
    ensures !Writes(plan, n + 1) ==> DeliveredUpTo(ranks, plan, r, n + 1)
    ensures n >= |plan.snapshot| ==> DeliveredUpTo(ranks, plan, r, |plan.snapshot|)
  {
  }

  // ---------------------------------------------------------------- closing

  lemma CloseRounds(d: Rounds, r: nat, shutdown: Shutdown, signalled: set<nat>)
    requires RoundsOk(d, shutdown, signalled) && Below(d, r) && r in d
    ensures RoundsOk(d[r := Closed], shutdown, signalled)
  {
    var e := d[r := Closed];
    assert RoundsGrow(d, e);
    forall i: nat | IsClosed(e, i) ensures Below(e, i) {
      assert i == r || IsClosed(d, i);
      BelowGrows(d, e, i);
    }
    forall i: nat | i in e && i > 0 ensures IsClosed(e, i - 1) || i in signalled {
      assert i in d;
      ClosedGrows(d, e, i - 1);
    }
  }

  lemma CloseStore(c: Config, s: State, s': State, r: nat)
    requires StoreOk(c, s) && Below(s.done, r) && r in s.done && r in s.plans
    requires DeliveredUpTo(s.ranks, s.plans[r], r, |s.plans[r].snapshot|)
    requires s' == s.(done := s.done[r := Closed], procs := s'.procs)
    ensures StoreOk(c, s')
  {
    CloseRounds(s.done, r, s.shutdown, s.signalled);
    hide IsClosed, Below, RoundsOk, SnapshotOk, Computed, DeliveredUpTo;
    CloseClaims(s, s', r);
    ClosePlans(c, s, s', r);
  }

  lemma CloseClaims(s: State, s': State, r: nat)
    requires ClaimsStored(s) && r in s.done && s' == s.(done := s.done[r := Closed], procs := s'.procs)
    ensures ClaimsStored(s')
  {
    assert RoundsGrow(s.done, s'.done);
    hide RoundsGrow, Below;
    forall i: nat, j: nat | (i, j) in s'.claims ensures ClaimOk(s', i, j) {
      assert ClaimOk(s, i, j);
      BelowGrows(s.done, s'.done, i);
    }
  }

  lemma ClosePlans(c: Config, s: State, s': State, r: nat)
    requires PlansStored(c, s) && r in s.done && r in s.plans
    requires DeliveredUpTo(s.ranks, s.plans[r], r, |s.plans[r].snapshot|)
    requires s' == s.(done := s.done[r := Closed], procs := s'.procs)
    ensures PlansStored(c, s')
  {
    assert RoundsGrow(s.done, s'.done);
    hide RoundsGrow, Below, SnapshotOk, Computed, DeliveredUpTo;
    forall i | i in s'.plans ensures PlanOk(c, s', i) {
      assert PlanOk(c, s, i);
      BelowGrows(s.done, s'.done, i);
      assert IsClosed(s'.done, i) ==> i == r || IsClosed(s.done, i);
    }
    forall i: nat | IsClosed(s'.done, i) ensures i in s'.plans {
      assert i == r || IsClosed(s.done, i);
    }
  }

  lemma CloseOwners(c: Config, s: State, s': State, p: NodeDesc)
    requires Inv(c, s) && HostCloses(s, s', p) && p == c.host
    ensures ClaimersOk(s'.claims, s'.procs) && HostHolds(c, s')
  {
    hide Below, RoundsOk, ProcsOk, KeysOk, ClaimOk, PlanOk;
    forall i: nat, j: nat | (i, j) in s'.claims ensures ClaimerOk(s'.claims, s'.procs, i, j) {
      assert ClaimerOk(s.claims, s.procs, i, j);
    }
    forall i | i in s'.plans ensures OpenPlanHeld(c, s'.done, i, s'.procs) {
      assert OpenPlanHeld(c, s.done, i, s.procs);
    }
  }

  lemma CloseShape(s: State, s': State, p: NodeDesc)
    requires HostCloses(s, s', p)
    ensures RoundsGrow(s.done, s'.done) && s' == s.(done := s.done[s.procs[p].round := Closed], procs := s'.procs)
    ensures s'.procs == s.procs[p := s.procs[p].(pc := if s.procs[p].joins then WaitShutdown else Idle)]
    ensures IsClosed(s'.done, s.procs[p].round)
  {
  }

  lemma CloseOwn(c: Config, s: State, s': State, p: NodeDesc)
    requires Inv(c, s) && HostCloses(s, s', p)
    ensures ProcOk(c, s', p, s'.procs[p])
  {
    hide Inv, SnapshotOk, ClaimedIn, Returned, DeliveredUpTo, Below, RoundsGrow;
    CloseShape(s, s', p);
    Own(c, s, p);
    BelowGrows(s.done, s'.done, s.procs[p].round);
  }

  lemma CloseDisturbs(c: Config, s: State, s': State, p: NodeDesc, q: NodeDesc)
    requires HostCloses(s, s', p) && q in s.procs && q != p && p == c.host
    ensures Undisturbed(c, s, s', q, s.procs[q])
  {
  }

  lemma CloseFacts(c: Config, s: State, p: NodeDesc)
    requires Inv(c, s) && At(s, p, HostClose)
    ensures var r := s.procs[p].round;
            && p == c.host && Below(s.done, r) && r in s.done && r in s.plans
            && DeliveredUpTo(s.ranks, s.plans[r], r, |s.plans[r].snapshot|)
  {
    Own(c, s, p);
  }

  lemma HostCloseKeeps(c: Config, s: State, s': State, p: NodeDesc)
    requires Inv(c, s) && HostCloses(s, s', p)
    ensures Inv(c, s')
  {
    hide Inv, ProcOk, Below, StoreOk, ClaimersOk, HostHolds, Undisturbed, RoundsGrow, DeliveredUpTo;
    CloseFacts(c, s, p);
    Split(c, s);
    CloseShape(s, s', p);
    CloseStore(c, s, s', s.procs[p].round);
    CloseOwners(c, s, s', p);
    CloseOwn(c, s, s', p);
    forall q | q in s.procs && q != p ensures Undisturbed(c, s, s', q, s.procs[q]) {
      CloseDisturbs(c, s, s', p, q);
    }
    Assemble(c, s, s', p);
  }
}
