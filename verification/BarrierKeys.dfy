/** Claims, key writes and the host's decisions keep the invariant. */
module BarrierKeys {
  import opened Prelude
  import opened RankAssignment
  import opened RankTheorems
  import opened RankLoops
  import opened Barrier
  import opened BarrierInvariant
  import opened BarrierSteps
  import opened BarrierWrites

  // ---------------------------------------------------------------- construction

  lemma UnknownHasNoClaim(c: Config, s: State, p: NodeDesc, r: nat)
    requires Inv(c, s) && p !in s.procs
    ensures !ClaimedIn(s.claims, r, p)
  {
    forall k: nat | (r, k) in s.claims ensures s.claims[(r, k)].node != p {
      assert ClaimerOk(s.claims, s.procs, r, k);
    }
  }

  lemma SpawnStore(c: Config, s: State, s': State)
    requires StoreOk(c, s) && s' == s.(procs := s'.procs)
    ensures StoreOk(c, s')
  {
    hide RoundsOk, OneSlotEach, SnapshotOk, Computed, DeliveredUpTo, Below;
    forall r: nat, k: nat | (r, k) in s'.claims ensures ClaimOk(s', r, k) { assert ClaimOk(s, r, k); }
    forall r | r in s'.plans ensures PlanOk(c, s', r) { assert PlanOk(c, s, r); }
  }

  lemma SpawnOwners(c: Config, s: State, s': State, p: NodeDesc, pr: Proc)
    requires ClaimersOk(s.claims, s.procs) && HostHolds(c, s) && p !in s.procs
    requires s' == s.(procs := s.procs[p := pr])
    ensures ClaimersOk(s'.claims, s'.procs) && HostHolds(c, s')
  {
    hide IsClosed;
    forall r: nat, k: nat | (r, k) in s'.claims ensures ClaimerOk(s'.claims, s'.procs, r, k) {
      assert ClaimerOk(s.claims, s.procs, r, k);
    }
    forall r | r in s'.plans ensures OpenPlanHeld(c, s'.done, r, s'.procs) { assert OpenPlanHeld(c, s.done, r, s.procs); }
  }

  lemma SpawnOwn(c: Config, s: State, p: NodeDesc, me: Participant)
    requires Inv(c, s) && p !in s.procs && me.node == p
    ensures ProcOk(c, s, p, Proc(me, 0, 0, true, Idle))
  {
    UnknownHasNoClaim(c, s, p, 0);
    NothingBelow(s.done);
    hide Inv, Below, ClaimedIn;
  }

  lemma SpawnInto(c: Config, s: State, s': State, p: NodeDesc, me: Participant)
    requires Inv(c, s) && 0 in s.done && p !in s.procs && me.node == p
    requires s' == s.(procs := s.procs[p := Proc(me, 0, 0, true, Idle)])
    ensures Inv(c, s')
  {
    hide Inv, StoreOk, ClaimersOk, HostHolds, ProcOk;
    Split(c, s);
    Split(c, s');
    SpawnStore(c, s, s');
    SpawnOwners(c, s, s', p, Proc(me, 0, 0, true, Idle));
    SpawnOwn(c, s, p, me);
    forall q | q in s'.procs ensures ProcOk(c, s', q, s'.procs[q]) {
      SameStore(c, s, s', q, s'.procs[q]);
    }
  }

  lemma NothingBelow(d: Rounds)
    ensures Below(d, 0)
  {
  }

  lemma SpawnKeeps(c: Config, s: State, s': State, p: NodeDesc, me: Participant)
    requires Inv(c, s) && Spawn(c, s, s', p, me)
    ensures Inv(c, s')
  {
    hide Inv;
    var t := s.(done := s'.done);
    if 0 in s.done { assert t == s; } else { RoundOpened(c, s, t, 0, false); }
    var u := t.(shutdown := s'.shutdown);
    ShutdownWritten(c, t, u);
    SpawnInto(c, u, s', p, me);
  }

  // ---------------------------------------------------------------- claiming a slot

  /** The next slot of a round is claimed by nobody. */
  lemma NextSlotIsFree(c: Config, s: State, r: nat, k: nat)
    requires Inv(c, s) && k == (if r in s.joinCount then s.joinCount[r] else 0) + 1
    ensures (r, k) !in s.claims
  {
    assert (r, k) in s.claims ==> ClaimOk(s, r, k);
  }

  lemma JoinStore(c: Config, s: State, s': State, p: NodeDesc)
    requires Inv(c, s) && Joins(s, s', p)
    ensures StoreOk(c, s')
  {
    var r, k := s.procs[p].round, s'.procs[p].slot;
    Split(c, s);
    Own(c, s, p);
    NextSlotIsFree(c, s, r, k);
    JoinOneSlot(s, r, k, p);
    hide Inv, ProcOk, Below, IsClosed, RoundsOk;
    JoinClaims(s, s', r, k, p);
    JoinKeys(s, s', r, k, p);
    JoinPlans(c, s, s', r, k, p);
  }

  lemma JoinClaims(s: State, s': State, r: nat, k: nat, p: NodeDesc)
    requires ClaimsStored(s) && Below(s.done, r) && k == (if r in s.joinCount then s.joinCount[r] else 0) + 1
    requires s' == s.(joinCount := s.joinCount[r := k], claims := s.claims[(r, k) := Claim(p, Claimed)], procs := s'.procs)
    ensures ClaimsStored(s')
  {
    hide Below;
    forall i: nat, j: nat | (i, j) in s'.claims ensures ClaimOk(s', i, j) {
      if (i, j) != (r, k) { assert ClaimOk(s, i, j); }
    }
  }

  lemma JoinKeys(s: State, s': State, r: nat, k: nat, p: NodeDesc)
    requires KeysOk(s) && (r, k) !in s.claims
    requires s' == s.(joinCount := s'.joinCount, claims := s.claims[(r, k) := Claim(p, Claimed)], procs := s'.procs)
    ensures KeysOk(s')
  {
    forall j | j in s'.slots ensures SlotOk(s'.slots[j], j, s'.claims) { assert SlotOk(s.slots[j], j, s.claims); }
    forall j | j in s'.ranks ensures RankOk(s'.ranks[j], j, s'.claims, s'.plans) {
      assert RankOk(s.ranks[j], j, s.claims, s.plans);
    }
  }

  lemma JoinPlans(c: Config, s: State, s': State, r: nat, k: nat, p: NodeDesc)
    requires PlansStored(c, s) && (r, k) !in s.claims
    requires s' == s.(joinCount := s'.joinCount, claims := s.claims[(r, k) := Claim(p, Claimed)], procs := s'.procs)
    ensures PlansStored(c, s')
  {
    hide Below, DeliveredUpTo, Computed;
    forall i | i in s'.plans ensures PlanOk(c, s', i) {
      assert PlanOk(c, s, i);
      assert SnapshotOk(s'.claims, i, s'.plans[i].snapshot);
    }
  }

  lemma JoinOwners(c: Config, s: State, s': State, p: NodeDesc)
    requires Inv(c, s) && Joins(s, s', p)
    ensures ClaimersOk(s'.claims, s'.procs) && HostHolds(c, s')
  {
    var r, k := s.procs[p].round, s'.procs[p].slot;
    hide Below, IsClosed, RoundsOk, ProcsOk, KeysOk, ClaimOk, PlanOk;
    forall i: nat, j: nat | (i, j) in s'.claims ensures ClaimerOk(s'.claims, s'.procs, i, j) {
      if (i, j) != (r, k) { assert ClaimerOk(s.claims, s.procs, i, j); }
    }
    forall i | i in s'.plans ensures OpenPlanHeld(c, s'.done, i, s'.procs) {
      assert OpenPlanHeld(c, s.done, i, s.procs);
    }
  }

  lemma JoinDisturbs(c: Config, s: State, s': State, p: NodeDesc, q: NodeDesc)
    requires Joins(s, s', p) && q in s.procs && q != p && (s.procs[p].round, s'.procs[p].slot) !in s.claims
    ensures Undisturbed(c, s, s', q, s.procs[q])
  {
  }

  lemma JoinOneSlot(s: State, r: nat, k: nat, p: NodeDesc)
    requires OneSlotEach(s.claims) && !ClaimedIn(s.claims, r, p) && (r, k) !in s.claims
    ensures OneSlotEach(s.claims[(r, k) := Claim(p, Claimed)])
  {
  }

  lemma JoinOwn(c: Config, s: State, s': State, p: NodeDesc)
    requires Inv(c, s) && Joins(s, s', p)
    ensures ProcOk(c, s', p, s'.procs[p])
  {
    hide Inv, Below, StoreOk, SnapshotOk, DeliveredUpTo, ClaimedIn, Returned;
    Own(c, s, p);
    assert Holds(s'.claims, s.procs[p].round, s'.procs[p].slot, p, Claimed);
  }

  lemma JoinKeeps(c: Config, s: State, s': State, p: NodeDesc)
    requires Inv(c, s) && Joins(s, s', p)
    ensures Inv(c, s')
  {
    var r, k := s.procs[p].round, s'.procs[p].slot;
    JoinStore(c, s, s', p);
    JoinOwners(c, s, s', p);
    NextSlotIsFree(c, s, r, k);
    hide Inv, ProcOk, Below, StoreOk, ClaimersOk, HostHolds, ClaimedIn, Undisturbed;
    JoinOwn(c, s, s', p);
    forall q | q in s.procs && q != p ensures Undisturbed(c, s, s', q, s.procs[q]) {
      JoinDisturbs(c, s, s', p, q);
    }
    Assemble(c, s, s', p);
  }

  // ---------------------------------------------------------------- publishing

  /** While a node writes for slot k of round r, every value under k is older than r or r is over. */
  lemma RankSetCases(c: Config, s: State, s': State, p: NodeDesc)
    requires Inv(c, s) && RankSets(s, s', p)
    ensures var pr := s.procs[p];
            var wrote := s.(ranks := s.ranks[pr.slot := RankEntry(pr.round, UNASSIGNED, 0)],
                            claims := s.claims[(pr.round, pr.slot) := Claim(p, Stage.RankWritten)]);
            || (s' == Goto(wrote, p, SlotCheck) && (pr.slot in s.ranks ==> s.ranks[pr.slot].round < pr.round))
            || (pr.slot in s.ranks && s' == Goto(s, p, OpenShutdown) && s.ranks[pr.slot].round > pr.round)
            || (pr.slot in s.ranks && s.ranks[pr.slot].round < pr.round
                && s' == Goto(s, p, Done(CasConflict(s.ranks[pr.slot].round))))
  {
    hide Inv, Below, SnapshotOk, DeliveredUpTo, ClaimedIn, Returned;
    var pr := s.procs[p];
    Own(c, s, p);
    if pr.slot in s.ranks {
      RankRound(c, s, pr.slot, pr.round);
      assert s.ranks[pr.slot].round != pr.round;
      assert s.ranks[pr.slot := s.ranks[pr.slot]] == s.ranks;
      assert s.(ranks := s.ranks) == s;
    }
  }

  /** p publishes UNASSIGNED under its rank key. */
  ghost predicate RankWritten(s: State, s': State, p: NodeDesc) {
    && p in s.procs && WritingRank(s.procs[p].pc)
    && var pr := s.procs[p];
       && s' == Goto(s.(ranks := s.ranks[pr.slot := RankEntry(pr.round, UNASSIGNED, 0)],
                        claims := s.claims[(pr.round, pr.slot) := Claim(p, Stage.RankWritten)]), p, SlotCheck)
       && Holds(s.claims, pr.round, pr.slot, p, Claimed)
       && (pr.slot in s.ranks ==> s.ranks[pr.slot].round < pr.round)
  }

  lemma RankWriteClaims(s: State, s': State, p: NodeDesc)
    requires ClaimsStored(s) && OneSlotEach(s.claims) && RankWritten(s, s', p)
    ensures ClaimsStored(s') && OneSlotEach(s'.claims)
  {
    hide Below;
    forall i: nat, j: nat | (i, j) in s'.claims ensures ClaimOk(s', i, j) { assert ClaimOk(s, i, j); }
  }

  lemma RankWriteKeys(s: State, s': State, p: NodeDesc)
    requires KeysOk(s) && RankWritten(s, s', p)
    ensures KeysOk(s')
  {
    forall j | j in s'.slots ensures SlotOk(s'.slots[j], j, s'.claims) { assert SlotOk(s.slots[j], j, s.claims); }
    forall j | j in s'.ranks ensures RankOk(s'.ranks[j], j, s'.claims, s'.plans) {
      if j != s.procs[p].slot { assert RankOk(s.ranks[j], j, s.claims, s.plans); }
    }
  }

  lemma RankWritePlans(c: Config, s: State, s': State, p: NodeDesc)
    requires Inv(c, s) && RankWritten(s, s', p)
    ensures PlansStored(c, s')
  {
    hide Below, IsClosed, Computed, RoundsOk, ProcOk, DeliveredUpTo;
    forall i | i in s'.plans ensures PlanOk(c, s', i) {
      assert PlanOk(c, s, i);
      RankWriteDelivers(c, s, s', p, i);
      assert SnapshotOk(s'.claims, i, s'.plans[i].snapshot);
    }
  }

  lemma StageOwners(c: Config, s: State, s': State, p: NodeDesc, stage: Stage, pc: Pc)
    requires Inv(c, s) && p in s.procs && !HostBusy(s.procs[p].pc)
    requires var pr := s.procs[p];
             && (pr.round, pr.slot) in s.claims && s.claims[(pr.round, pr.slot)].node == p
             && s'.claims == s.claims[(pr.round, pr.slot) := Claim(p, stage)]
             && s'.procs == s.procs[p := pr.(pc := pc)] && s'.done == s.done && s'.plans == s.plans
    ensures ClaimersOk(s'.claims, s'.procs) && HostHolds(c, s')
  {
    hide Below, IsClosed, RoundsOk, ProcsOk, KeysOk, ClaimOk, PlanOk;
    forall i: nat, j: nat | (i, j) in s'.claims ensures ClaimerOk(s'.claims, s'.procs, i, j) {
      assert ClaimerOk(s.claims, s.procs, i, j);
    }
    forall i | i in s'.plans ensures OpenPlanHeld(c, s'.done, i, s'.procs) {
      assert OpenPlanHeld(c, s.done, i, s.procs);
    }
  }

  /** Overwriting an older value under k loses no delivered rank: round r has none for k yet. */
  lemma RankWriteDelivers(c: Config, s: State, s': State, p: NodeDesc, i: nat)
    requires Inv(c, s) && p in s.procs && i in s.plans
    requires var pr := s.procs[p];
             && Holds(s.claims, pr.round, pr.slot, p, Claimed)
             && s'.ranks == s.ranks[pr.slot := RankEntry(pr.round, UNASSIGNED, 0)]
             && (pr.slot in s.ranks ==> s.ranks[pr.slot].round < pr.round)
    ensures DeliveriesStay(s.ranks, s'.ranks, s.plans[i], i)
    ensures DeliveredUpTo(s.ranks, s.plans[i], i, |s.plans[i].snapshot|) ==>
              DeliveredUpTo(s'.ranks, s.plans[i], i, |s.plans[i].snapshot|)
  {
    var plan := s.plans[i];
    forall k: nat | Writes(plan, k) && Delivered(s.ranks, plan, i, k) ensures Delivered(s'.ranks, plan, i, k) {
      PlanOwner(c, s, i, k);
    }
    if DeliveredUpTo(s.ranks, plan, i, |plan.snapshot|) {
      DeliveredGrows(s.ranks, s'.ranks, plan, i, |plan.snapshot|);
    }
  }

  /** A write under p's own claim and rank key leaves another node's claims and the keys in place. */
  lemma RankWriteLeaves(s: State, s': State, p: NodeDesc, q: NodeDesc)
    requires RankWritten(s, s', p) && q != p
    ensures ClaimsGrow(s.claims, s'.claims, q) && s.ranks.Keys <= s'.ranks.Keys
  {
  }

  lemma RankWriteStore(s: State, s': State, p: NodeDesc)
    requires RankWritten(s, s', p)
    ensures s' == s.(ranks := s'.ranks, claims := s'.claims, procs := s'.procs)
  {
  }

  lemma RankWriteDelivery(c: Config, s: State, s': State, p: NodeDesc, i: nat)
    requires Inv(c, s) && RankWritten(s, s', p)
    ensures i in s.plans ==> DeliveriesStay(s.ranks, s'.ranks, s.plans[i], i)
  {
    if i in s.plans { RankWriteDelivers(c, s, s', p, i); }
  }

  lemma RankWriteDisturbs(c: Config, s: State, s': State, p: NodeDesc, q: NodeDesc)
    requires Inv(c, s) && RankWritten(s, s', p) && q in s.procs && q != p
    ensures Undisturbed(c, s, s', q, s.procs[q])
  {
    hide Inv, RankWritten, ClaimsGrow, DeliveriesStay;
    RankWriteDelivery(c, s, s', p, s.procs[q].round);
    RankWriteLeaves(s, s', p, q);
    RankWriteStore(s, s', p);
  }

  lemma RankWriteOwn(c: Config, s: State, s': State, p: NodeDesc)
    requires Inv(c, s) && RankWritten(s, s', p)
    ensures ProcOk(c, s', p, s'.procs[p])
  {
    hide Inv, Below, SnapshotOk, DeliveredUpTo, ClaimedIn, Returned;
    Own(c, s, p);
    assert Holds(s'.claims, s.procs[p].round, s.procs[p].slot, p, Stage.RankWritten);
  }

  lemma RankWriteKeeps(c: Config, s: State, s': State, p: NodeDesc)
    requires Inv(c, s) && RankWritten(s, s', p)
    ensures Inv(c, s')
  {
    var pr := s.procs[p];
    Split(c, s);
    RankWriteClaims(s, s', p);
    RankWriteKeys(s, s', p);
    RankWritePlans(c, s, s', p);
    StageOwners(c, s, s', p, Stage.RankWritten, SlotCheck);
    hide Inv, ProcOk, Below, ClaimersOk, HostHolds, ClaimedIn, Undisturbed;
    RankWriteOwn(c, s, s', p);
    forall q | q in s.procs && q != p ensures Undisturbed(c, s, s', q, s.procs[q]) {
      RankWriteDisturbs(c, s, s', p, q);
    }
    Assemble(c, s, s', p);
  }

  lemma RankClaimHeld(c: Config, s: State, p: NodeDesc)
    requires Inv(c, s) && p in s.procs && WritingRank(s.procs[p].pc)
    ensures Holds(s.claims, s.procs[p].round, s.procs[p].slot, p, Claimed)
  {
    Own(c, s, p);
  }

  lemma RankSetKeeps(c: Config, s: State, s': State, p: NodeDesc)
    requires Inv(c, s) && RankSets(s, s', p)
    ensures Inv(c, s')
  {
    hide Inv, ProcOk, Below;
    RankSetCases(c, s, s', p);
    if s'.procs[p].pc == SlotCheck {
      RankClaimHeld(c, s, p);
      RankWriteKeeps(c, s, s', p);
    } else {
      RankSetFails(c, s, s', p);
    }
  }

  /** A writer that lost goes back to Step 0 when its round is over, or stops over an older value. */
  lemma WriterGivesUp(c: Config, s: State, s': State, p: NodeDesc, pc: Pc)
    requires Inv(c, s) && p in s.procs && (s.procs[p].pc.RankSet? || s.procs[p].pc.SlotSet?) && s' == Goto(s, p, pc)
    requires || (pc == OpenShutdown && IsClosed(s.done, s.procs[p].round))
             || (pc.Done? && pc.outcome.CasConflict? && pc.outcome.observed < s.procs[p].round)
    ensures Inv(c, s')
  {
    hide Inv, Below, SnapshotOk, DeliveredUpTo, ClaimedIn, Returned, Holds;
    Own(c, s, p);
    Stays(c, s, s', p, pc);
  }

  lemma RankSetFails(c: Config, s: State, s': State, p: NodeDesc)
    requires Inv(c, s) && p in s.procs && s.procs[p].pc.RankSet? && s.procs[p].slot in s.ranks
    requires var e := s.ranks[s.procs[p].slot];
             || (e.round > s.procs[p].round && s' == Goto(s, p, OpenShutdown))
             || (e.round < s.procs[p].round && s' == Goto(s, p, Done(CasConflict(e.round))))
    ensures Inv(c, s')
  {
    hide Inv, IsClosed;
    var e := s.ranks[s.procs[p].slot];
    RankRound(c, s, s.procs[p].slot, s.procs[p].round);
    WriterGivesUp(c, s, s', p, if e.round > s.procs[p].round then OpenShutdown else Done(CasConflict(e.round)));
  }

  // ---------------------------------------------------------------- publishing the slot

  lemma SlotSetCases(c: Config, s: State, s': State, p: NodeDesc)
    requires Inv(c, s) && SlotSets(c, s, s', p)
    ensures var pr := s.procs[p];
            var wrote := s.(slots := s.slots[pr.slot := SlotEntry(pr.round, pr.me)],
                            claims := s.claims[(pr.round, pr.slot) := Claim(p, Published)]);
            || (s' == Goto(wrote, p, if p == c.host then HostShutdown else WaitShutdown)
                && (pr.slot in s.slots ==> s.slots[pr.slot].round < pr.round))
            || (pr.slot in s.slots && s' == Goto(s, p, OpenShutdown) && s.slots[pr.slot].round > pr.round)
            || (pr.slot in s.slots && s.slots[pr.slot].round < pr.round
                && s' == Goto(s, p, Done(CasConflict(s.slots[pr.slot].round))))
  {
    hide Inv, Below, SnapshotOk, DeliveredUpTo, ClaimedIn, Returned;
    var pr := s.procs[p];
    Own(c, s, p);
    if pr.slot in s.slots {
      SlotRound(c, s, pr.slot, pr.round);
      assert s.slots[pr.slot].round != pr.round;
      assert s.slots[pr.slot := s.slots[pr.slot]] == s.slots;
      assert s.(slots := s.slots) == s;
    }
  }

  /** p publishes its participant data under its slot key. */
  ghost predicate SlotWritten(c: Config, s: State, s': State, p: NodeDesc) {
    && p in s.procs && WritingSlot(s.procs[p].pc)
    && var pr := s.procs[p];
       && pr.me.node == p
       && s' == Goto(s.(slots := s.slots[pr.slot := SlotEntry(pr.round, pr.me)],
                        claims := s.claims[(pr.round, pr.slot) := Claim(p, Published)]), p,
                     if p == c.host then HostShutdown else WaitShutdown)
       && Holds(s.claims, pr.round, pr.slot, p, Stage.RankWritten)
  }

  lemma SlotWriteClaims(c: Config, s: State, s': State, p: NodeDesc)
    requires ClaimsStored(s) && OneSlotEach(s.claims) && SlotWritten(c, s, s', p)
    ensures ClaimsStored(s') && OneSlotEach(s'.claims)
  {
    hide Below;
    forall i: nat, j: nat | (i, j) in s'.claims ensures ClaimOk(s', i, j) { assert ClaimOk(s, i, j); }
  }

  lemma SlotWriteKeys(c: Config, s: State, s': State, p: NodeDesc)
    requires KeysOk(s) && SlotWritten(c, s, s', p)
    ensures KeysOk(s')
  {
    forall j | j in s'.slots ensures SlotOk(s'.slots[j], j, s'.claims) {
      if j != s.procs[p].slot { assert SlotOk(s.slots[j], j, s.claims); }
    }
    forall j | j in s'.ranks ensures RankOk(s'.ranks[j], j, s'.claims, s'.plans) {
      assert RankOk(s.ranks[j], j, s.claims, s.plans);
    }
  }

  lemma SlotWritePlans(c: Config, s: State, s': State, p: NodeDesc)
    requires PlansStored(c, s) && SlotWritten(c, s, s', p)
    ensures PlansStored(c, s')
  {
    hide Below, IsClosed, Computed, DeliveredUpTo;
    forall i | i in s'.plans ensures PlanOk(c, s', i) {
      assert PlanOk(c, s, i);
      assert SnapshotOk(s'.claims, i, s'.plans[i].snapshot);
    }
  }

  lemma SlotWriteOwn(c: Config, s: State, s': State, p: NodeDesc)
    requires Inv(c, s) && SlotWritten(c, s, s', p)
    ensures ProcOk(c, s', p, s'.procs[p])
  {
    hide Inv, Below, SnapshotOk, DeliveredUpTo, ClaimedIn, Returned;
    Own(c, s, p);
    assert Holds(s'.claims, s.procs[p].round, s.procs[p].slot, p, Published);
  }

  lemma SlotWriteDisturbs(c: Config, s: State, s': State, p: NodeDesc, q: NodeDesc)
    requires SlotWritten(c, s, s', p) && q in s.procs && q != p
    ensures Undisturbed(c, s, s', q, s.procs[q])
  {
  }

  lemma SlotWriteKeeps(c: Config, s: State, s': State, p: NodeDesc)
    requires Inv(c, s) && SlotWritten(c, s, s', p)
    ensures Inv(c, s')
  {
    Split(c, s);
    SlotWriteClaims(c, s, s', p);
    SlotWriteKeys(c, s, s', p);
    SlotWritePlans(c, s, s', p);
    StageOwners(c, s, s', p, Published, s'.procs[p].pc);
    hide Inv, ProcOk, Below, ClaimersOk, HostHolds, ClaimedIn, Undisturbed;
    SlotWriteOwn(c, s, s', p);
    forall q | q in s.procs && q != p ensures Undisturbed(c, s, s', q, s.procs[q]) {
      SlotWriteDisturbs(c, s, s', p, q);
    }
    Assemble(c, s, s', p);
  }

  lemma SlotClaimHeld(c: Config, s: State, p: NodeDesc)
    requires Inv(c, s) && p in s.procs && WritingSlot(s.procs[p].pc)
    ensures Holds(s.claims, s.procs[p].round, s.procs[p].slot, p, Stage.RankWritten) && s.procs[p].me.node == p
  {
    Own(c, s, p);
  }

  lemma SlotSetKeeps(c: Config, s: State, s': State, p: NodeDesc)
    requires Inv(c, s) && SlotSets(c, s, s', p)
    ensures Inv(c, s')
  {
    hide Inv, ProcOk, Below;
    SlotSetCases(c, s, s', p);
    if s'.procs[p].pc == HostShutdown || s'.procs[p].pc == WaitShutdown {
      SlotClaimHeld(c, s, p);
      SlotWriteKeeps(c, s, s', p);
    } else {
      SlotSetFails(c, s, s', p);
    }
  }

  lemma SlotSetFails(c: Config, s: State, s': State, p: NodeDesc)
    requires Inv(c, s) && p in s.procs && s.procs[p].pc.SlotSet? && s.procs[p].slot in s.slots
    requires var e := s.slots[s.procs[p].slot];
             || (e.round > s.procs[p].round && s' == Goto(s, p, OpenShutdown))
             || (e.round < s.procs[p].round && s' == Goto(s, p, Done(CasConflict(e.round))))
    ensures Inv(c, s')
  {
    hide Inv, IsClosed;
    var e := s.slots[s.procs[p].slot];
    SlotRound(c, s, s.procs[p].slot, s.procs[p].round);
    WriterGivesUp(c, s, s', p, if e.round > s.procs[p].round then OpenShutdown else Done(CasConflict(e.round)));
  }
}
