/** The joint invariant of the rendezvous barrier. */
module BarrierInvariant {
  import opened Prelude
  import opened RankAssignment
  import opened RankTheorems
  import opened Barrier

  type Rounds = map<nat, Lifecycle>
  type Claims = map<(nat, nat), Claim>
  type RankKeys = map<nat, RankEntry>

  // ---------------------------------------------------------------- rounds

  ghost predicate IsClosed(done: Rounds, r: nat) {
    r in done && done[r].Closed?
  }

  ghost predicate IsOpen(done: Rounds, r: nat) {
    r in done && done[r].Open?
  }

  /** Every round before r is closed. */
  ghost predicate Below(done: Rounds, r: nat) {
    forall i: nat | i < r :: IsClosed(done, i)
  }

  ghost predicate RoundsOk(done: Rounds, shutdown: Shutdown, signalled: set<nat>) {
    && (forall r: nat | IsClosed(done, r) :: Below(done, r))
    && (forall r: nat | r in done && r > 0 :: IsClosed(done, r - 1) || r in signalled)
    && (forall r | r in signalled :: shutdown.Recorded? && r in done)
  }

  // ---------------------------------------------------------------- claims

  ghost predicate Holds(claims: Claims, r: nat, k: nat, p: NodeDesc, stage: Stage) {
    (r, k) in claims && claims[(r, k)] == Claim(p, stage)
  }

  ghost predicate ClaimedIn(claims: Claims, r: nat, p: NodeDesc) {
    exists k: nat :: (r, k) in claims && claims[(r, k)].node == p
  }

  ghost predicate ClaimOk(s: State, r: nat, k: nat)
    requires (r, k) in s.claims
  {
    && Below(s.done, r) && r in s.joinCount && 1 <= k <= s.joinCount[r]
    && (s.claims[(r, k)].stage != Claimed ==> k in s.ranks && s.ranks[k].round >= r)
  }

  ghost predicate ClaimerOk(claims: Claims, procs: map<NodeDesc, Proc>, r: nat, k: nat)
    requires (r, k) in claims
  {
    claims[(r, k)].node in procs && r <= procs[claims[(r, k)].node].round
  }

  ghost predicate OneSlotEach(claims: Claims) {
    forall r: nat, k: nat, k': nat | (r, k) in claims && (r, k') in claims && k != k' ::
      claims[(r, k)].node != claims[(r, k')].node
  }

  ghost predicate ClaimsOk(s: State) {
    && (forall r: nat, k: nat | (r, k) in s.claims :: ClaimOk(s, r, k))
    && (forall r: nat, k: nat | (r, k) in s.claims :: ClaimerOk(s.claims, s.procs, r, k))
    && OneSlotEach(s.claims)
  }

  // ---------------------------------------------------------------- reused keys

  ghost predicate SlotOk(e: SlotEntry, k: nat, claims: Claims) {
    Holds(claims, e.round, k, e.who.node, Published)
  }

  /** A rank value is the claimer's UNASSIGNED or the rank planned for its round and slot. */
  ghost predicate RankOk(e: RankEntry, k: nat, claims: Claims, plans: map<nat, Plan>) {
    && (e.round, k) in claims && claims[(e.round, k)].stage != Claimed
    && (e == RankEntry(e.round, UNASSIGNED, 0)
        || (e.round in plans && Writes(plans[e.round], k) && e == PlannedEntry(plans[e.round], e.round, k)))
  }

  ghost predicate KeysOk(s: State) {
    && (forall k | k in s.slots :: SlotOk(s.slots[k], k, s.claims))
    && (forall k | k in s.ranks :: RankOk(s.ranks[k], k, s.claims, s.plans))
  }

  // ---------------------------------------------------------------- plans

  ghost predicate SnapshotOk(claims: Claims, r: nat, snapshot: seq<Option<Participant>>) {
    forall i | 0 <= i < |snapshot| && snapshot[i].Some? :: Holds(claims, r, i + 1, snapshot[i].value.node, Published)
  }

  /** The rank planned for slot k of round r was written, and is still there or overwritten by a later round. */
  ghost predicate Delivered(ranks: RankKeys, plan: Plan, r: nat, k: nat)
    requires Writes(plan, k)
  {
    && k in ranks && ranks[k].round >= r
    && (ranks[k].round == r ==> ranks[k] == PlannedEntry(plan, r, k))
  }

  ghost predicate DeliveredUpTo(ranks: RankKeys, plan: Plan, r: nat, n: nat) {
    forall k: nat | k <= n && Writes(plan, k) :: Delivered(ranks, plan, r, k)
  }

  ghost predicate Computed(c: Config, plan: Plan) {
    && (forall p | p in plan.active + plan.standby :: Some(p) in plan.snapshot)
    && DistinctNodes(plan.active + plan.standby)
    && Assignment(plan.active, c.minNodes, plan.standby, c.segment) == Ok(plan.ranks)
  }

  ghost predicate PlanOk(c: Config, s: State, r: nat)
    requires r in s.plans
  {
    && Below(s.done, r) && SnapshotOk(s.claims, r, s.plans[r].snapshot) && Computed(c, s.plans[r])
    && (IsClosed(s.done, r) ==> DeliveredUpTo(s.ranks, s.plans[r], r, |s.plans[r].snapshot|))
  }

  /** The host between its decision and the close, or stopped there. */
  predicate HostBusy(pc: Pc) {
    pc.HostWrite? || pc.HostClose? || pc.Done?
  }

  /** A plan whose round is still open belongs to the host's current round. */
  ghost predicate OpenPlanHeld(c: Config, done: Rounds, r: nat, procs: map<NodeDesc, Proc>) {
    IsClosed(done, r) || (c.host in procs && procs[c.host].round == r && HostBusy(procs[c.host].pc))
  }

  ghost predicate PlansOk(c: Config, s: State) {
    && (forall r | r in s.plans :: PlanOk(c, s, r))
    && (forall r | r in s.plans :: OpenPlanHeld(c, s.done, r, s.procs))
    && (forall r: nat | IsClosed(s.done, r) :: r in s.plans)
  }

  // ---------------------------------------------------------------- processes

  predicate BeforeJoin(pc: Pc) {
    pc.Idle? || pc.ScanCheck? || pc.ScanGet? || pc.OpenShutdown? || pc.OpenCheck? || pc.OpenGet?
  }

  predicate WritingRank(pc: Pc) {
    pc.RankCheck? || pc.RankGet? || pc.RankSet?
  }

  predicate WritingSlot(pc: Pc) {
    pc.SlotCheck? || pc.SlotGet? || pc.SlotSet?
  }

  predicate HostPc(pc: Pc) {
    || pc.HostShutdown? || pc.HostFail? || pc.HostCheck? || pc.HostCount? || pc.HostFetch? || pc.HostRecount?
    || pc.HostGroups? || pc.HostWrite? || pc.HostClose?
  }

  predicate AfterJoin(pc: Pc) {
    || pc.WaitShutdown? || pc.WaitGet? || pc.RankPresent? || pc.AbsentRank? || pc.RankRead?
    || pc.Active? || pc.SawNext?
  }

  predicate SeenClosed(pc: Pc) {
    pc.RankPresent? || pc.RankRead? || pc.Active? || pc.SawNext?
  }

  /** What a returned rank means: the host's plan for the round gave this node this rank. */
  ghost predicate Returned(c: Config, plans: map<nat, Plan>, p: NodeDesc, r: nat, k: nat, rank: int, total: nat) {
    && r in plans && Writes(plans[r], k)
    && plans[r].snapshot[k - 1].value.node == p
    && PlannedEntry(plans[r], r, k) == RankEntry(r, rank, total)
    && rank < c.minNodes
  }

  /** The part of the invariant that concerns one process. */
  ghost predicate ProcOk(c: Config, s: State, p: NodeDesc, pr: Proc) {
    && pr.me.node == p && Below(s.done, pr.round)
    && JoinOk(s, p, pr) && WriteOk(s, p, pr) && WaitOk(c, s, p, pr) && HostOk(c, s, p, pr)
  }

  ghost predicate JoinOk(s: State, p: NodeDesc, pr: Proc) {
    && ((pr.pc.ScanCheck? || pr.pc.ScanGet?) ==> pr.round <= pr.pc.at && Below(s.done, pr.pc.at))
    && (pr.pc.ScanGet? ==> pr.pc.at in s.done)
    && (BeforeJoin(pr.pc) && ClaimedIn(s.claims, pr.round, p) ==> IsClosed(s.done, pr.round))
    && (pr.pc.OpenGet? ==> pr.round in s.done)
    && (pr.pc.Join? ==> pr.round in s.done && !ClaimedIn(s.claims, pr.round, p))
  }

  ghost predicate WriteOk(s: State, p: NodeDesc, pr: Proc) {
    && (WritingRank(pr.pc) ==> pr.round in s.done && Holds(s.claims, pr.round, pr.slot, p, Claimed))
    && (pr.pc.RankGet? ==> pr.slot in s.ranks)
    && (pr.pc.RankSet? && pr.pc.rankSeen.Some? ==> pr.slot in s.ranks && pr.pc.rankSeen.value.round < pr.round)
    && (WritingSlot(pr.pc) ==> pr.round in s.done && Holds(s.claims, pr.round, pr.slot, p, RankWritten))
    && (pr.pc.SlotGet? ==> pr.slot in s.slots)
    && (pr.pc.SlotSet? && pr.pc.slotSeen.Some? ==> pr.slot in s.slots && pr.pc.slotSeen.value.round < pr.round)
    && pr.pc != Done(SameRoundConflict)
    && (pr.pc.Done? && pr.pc.outcome.CasConflict? ==> pr.pc.outcome.observed < pr.round)
  }

  ghost predicate WaitOk(c: Config, s: State, p: NodeDesc, pr: Proc) {
    && (AfterJoin(pr.pc) ==> pr.round in s.done && Holds(s.claims, pr.round, pr.slot, p, Published))
    && (SeenClosed(pr.pc) ==> IsClosed(s.done, pr.round))
    && (pr.pc.RankRead? ==> pr.slot in s.ranks)
    && !pr.pc.AbsentRank?
    && (pr.pc.Active? ==> Returned(c, s.plans, p, pr.round, pr.slot, pr.pc.rank, pr.pc.total))
    && (pr.pc.SawNext? ==> Returned(c, s.plans, p, pr.round, pr.slot, pr.pc.rank, pr.pc.total) && pr.round + 1 in s.done)
    && (pr.pc.SignalOpen? ==> s.shutdown.Recorded?)
    && (pr.pc.Done? && pr.pc.outcome.NoRestart? ==> s.shutdown == Recorded(pr.pc.outcome.reason))
  }

  ghost predicate HostOk(c: Config, s: State, p: NodeDesc, pr: Proc) {
    && (HostPc(pr.pc) || !pr.joins ==> p == c.host)
    && (HostPc(pr.pc) && pr.joins ==> Holds(s.claims, pr.round, pr.slot, p, Published))
    && (p == c.host && (pr.pc.Join? || WritingRank(pr.pc) || WritingSlot(pr.pc) || HostPc(pr.pc)) ==> IsOpen(s.done, pr.round))
    && (pr.pc.HostCount? || pr.pc.HostFetch? || pr.pc.HostRecount? ==> pr.round in s.joinCount)
    && (pr.pc.HostFetch? ==> SnapshotOk(s.claims, pr.round, pr.pc.snapshot))
    && (pr.pc.HostRecount? ==> SnapshotOk(s.claims, pr.round, pr.pc.snapshot))
    && (pr.pc.HostGroups? ==> SnapshotOk(s.claims, pr.round, pr.pc.snapshot))
    && (pr.pc.HostWrite? ==> pr.round in s.plans && DeliveredUpTo(s.ranks, s.plans[pr.round], pr.round, pr.pc.written))
    && (pr.pc.HostClose? ==> pr.round in s.plans
                             && DeliveredUpTo(s.ranks, s.plans[pr.round], pr.round, |s.plans[pr.round].snapshot|))
  }

  ghost predicate ProcsOk(c: Config, s: State) {
    && (forall p | p in s.procs :: ProcOk(c, s, p, s.procs[p]))
    && (s.procs != map[] ==> 0 in s.done)
  }

  ghost predicate Inv(c: Config, s: State) {
    RoundsOk(s.done, s.shutdown, s.signalled) && ClaimsOk(s) && KeysOk(s) && PlansOk(c, s) && ProcsOk(c, s)
  }

  lemma InitEstablishesInv(c: Config, s: State)
    requires Init(s)
    ensures Inv(c, s)
  {
  }

  // ---------------------------------------------------------------- steps that change one process only

  /** What a step that only moves process p must show. */
  ghost predicate MoveOk(c: Config, s: State, p: NodeDesc, pr: Proc)
    requires p in s.procs
  {
    && ProcOk(c, s, p, pr) && s.procs[p].round <= pr.round
    && (p == c.host ==> forall r | r in s.plans && !IsClosed(s.done, r) :: pr.round == r && HostBusy(pr.pc))
  }

  lemma Move(c: Config, s: State, s': State, p: NodeDesc, pr: Proc)
    requires Inv(c, s) && p in s.procs && s' == s.(procs := s.procs[p := pr]) && MoveOk(c, s, p, pr)
    ensures Inv(c, s')
  {
    hide JoinOk, WriteOk, WaitOk, HostOk, Below, IsClosed, SnapshotOk, Computed, DeliveredUpTo;
    forall q | q in s'.procs ensures ProcOk(c, s', q, s'.procs[q]) {
      SameStore(c, s, s', q, s'.procs[q]);
    }
    forall r: nat, k: nat | (r, k) in s'.claims ensures ClaimOk(s', r, k) {
      assert ClaimOk(s, r, k);
    }
    forall r: nat, k: nat | (r, k) in s'.claims ensures ClaimerOk(s'.claims, s'.procs, r, k) {
      assert ClaimerOk(s.claims, s.procs, r, k);
    }
    forall r | r in s'.plans ensures PlanOk(c, s', r) && OpenPlanHeld(c, s'.done, r, s'.procs) {
      assert PlanOk(c, s, r) && OpenPlanHeld(c, s.done, r, s.procs);
    }
  }

  /** ProcOk looks at the store and the history, not at other processes. */
  lemma SameStore(c: Config, s: State, s': State, p: NodeDesc, pr: Proc)
    requires s' == s.(procs := s'.procs)
    ensures ProcOk(c, s, p, pr) <==> ProcOk(c, s', p, pr)
  {
  }
}
