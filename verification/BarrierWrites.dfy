/** The steps of the barrier that write the store keep the invariant. */
module BarrierWrites {
  import opened Prelude
  import opened RankAssignment
  import opened RankTheorems
  import opened RankLoops
  import opened Barrier
  import opened BarrierInvariant
  import opened BarrierSteps

  // ---------------------------------------------------------------- what other processes rely on

  ghost predicate RoundsGrow(d: Rounds, d': Rounds) {
    forall r: nat | r in d :: r in d' && (d[r].Closed? ==> d'[r].Closed?)
  }

  /** Published claims stay, q's own claims stay, and q gains none. */
  ghost predicate ClaimsGrow(m: Claims, m': Claims, q: NodeDesc) {
    && (forall r: nat, k: nat | (r, k) in m && (m[(r, k)].stage.Published? || m[(r, k)].node == q) ::
          (r, k) in m' && m'[(r, k)] == m[(r, k)])
    && (forall r: nat, k: nat | (r, k) in m' && m'[(r, k)].node == q :: (r, k) in m && m[(r, k)].node == q)
  }

  ghost predicate PlansGrow(m: map<nat, Plan>, m': map<nat, Plan>) {
    forall r: nat | r in m :: r in m' && m'[r] == m[r]
  }

  ghost predicate DeliveriesStay(ranks: RankKeys, ranks': RankKeys, plan: Plan, r: nat) {
    forall k: nat | Writes(plan, k) && Delivered(ranks, plan, r, k) :: Delivered(ranks', plan, r, k)
  }

  ghost predicate Undisturbed(c: Config, s: State, s': State, q: NodeDesc, pr: Proc) {
    && RoundsGrow(s.done, s'.done)
    && (q == c.host && IsOpen(s.done, pr.round) ==> IsOpen(s'.done, pr.round))
    && ClaimsGrow(s.claims, s'.claims, q)
    && s.ranks.Keys <= s'.ranks.Keys && s.slots.Keys <= s'.slots.Keys && s.joinCount.Keys <= s'.joinCount.Keys
    && PlansGrow(s.plans, s'.plans)
    && (s.shutdown.Recorded? ==> s'.shutdown == s.shutdown)
    && (q == c.host && HostBusy(pr.pc) && pr.round in s.plans ==>
          DeliveriesStay(s.ranks, s'.ranks, s.plans[pr.round], pr.round))
  }

  lemma BelowGrows(d: Rounds, d': Rounds, r: nat)
    requires RoundsGrow(d, d') && Below(d, r)
    ensures Below(d', r)
  {
    forall i: nat | i < r ensures IsClosed(d', i) {
      assert IsClosed(d, i);
    }
  }

  lemma ClosedGrows(d: Rounds, d': Rounds, r: nat)
    requires RoundsGrow(d, d')
    ensures IsClosed(d, r) ==> IsClosed(d', r)
    ensures r in d ==> r in d'
  {
  }

  lemma ClaimGrows(m: Claims, m': Claims, r: nat, k: nat, q: NodeDesc, stage: Stage)
    requires ClaimsGrow(m, m', q) && Holds(m, r, k, q, stage)
    ensures Holds(m', r, k, q, stage)
  {
  }

  lemma NoNewClaim(m: Claims, m': Claims, r: nat, q: NodeDesc)
    requires ClaimsGrow(m, m', q) && ClaimedIn(m', r, q)
    ensures ClaimedIn(m, r, q)
  {
    var k: nat :| (r, k) in m' && m'[(r, k)].node == q;
    assert (r, k) in m && m[(r, k)].node == q;
  }

  lemma SnapshotGrows(m: Claims, m': Claims, r: nat, snapshot: seq<Option<Participant>>, q: NodeDesc)
    requires ClaimsGrow(m, m', q) && SnapshotOk(m, r, snapshot)
    ensures SnapshotOk(m', r, snapshot)
  {
    forall i | 0 <= i < |snapshot| && snapshot[i].Some?
      ensures Holds(m', r, i + 1, snapshot[i].value.node, Published)
    {
      assert Holds(m, r, i + 1, snapshot[i].value.node, Published);
    }
  }

  lemma DeliveredGrows(ranks: RankKeys, ranks': RankKeys, plan: Plan, r: nat, n: nat)
    requires DeliveriesStay(ranks, ranks', plan, r) && DeliveredUpTo(ranks, plan, r, n)
    ensures DeliveredUpTo(ranks', plan, r, n)
  {
    forall k: nat | k <= n && Writes(plan, k) ensures Delivered(ranks', plan, r, k) {
      assert Delivered(ranks, plan, r, k);
    }
  }

  lemma FrameJoin(c: Config, s: State, s': State, q: NodeDesc, pr: Proc)
    requires Undisturbed(c, s, s', q, pr) && JoinOk(s, q, pr)
    ensures JoinOk(s', q, pr)
  {
    hide Below, IsClosed, ClaimedIn, RoundsGrow, ClaimsGrow, PlansGrow, DeliveriesStay;
    if pr.pc.ScanCheck? || pr.pc.ScanGet? { BelowGrows(s.done, s'.done, pr.pc.at); ClosedGrows(s.done, s'.done, pr.pc.at); }
    ClosedGrows(s.done, s'.done, pr.round);
    if ClaimedIn(s'.claims, pr.round, q) { NoNewClaim(s.claims, s'.claims, pr.round, q); }
  }

  lemma FrameWrite(c: Config, s: State, s': State, q: NodeDesc, pr: Proc)
    requires Undisturbed(c, s, s', q, pr) && WriteOk(s, q, pr)
    ensures WriteOk(s', q, pr)
  {
    hide Below, IsClosed, ClaimedIn, RoundsGrow, ClaimsGrow, PlansGrow, DeliveriesStay, Holds;
    ClosedGrows(s.done, s'.done, pr.round);
    if WritingRank(pr.pc) { ClaimGrows(s.claims, s'.claims, pr.round, pr.slot, q, Claimed); }
    if WritingSlot(pr.pc) { ClaimGrows(s.claims, s'.claims, pr.round, pr.slot, q, RankWritten); }
  }

  lemma FrameWait(c: Config, s: State, s': State, q: NodeDesc, pr: Proc)
    requires Undisturbed(c, s, s', q, pr) && WaitOk(c, s, q, pr)
    ensures WaitOk(c, s', q, pr)
  {
    hide Below, IsClosed, ClaimedIn, RoundsGrow, ClaimsGrow, DeliveriesStay, Holds;
    ClosedGrows(s.done, s'.done, pr.round);
    ClosedGrows(s.done, s'.done, pr.round + 1);
    if AfterJoin(pr.pc) { ClaimGrows(s.claims, s'.claims, pr.round, pr.slot, q, Published); }
  }

  lemma FrameHost(c: Config, s: State, s': State, q: NodeDesc, pr: Proc)
    requires Undisturbed(c, s, s', q, pr) && HostOk(c, s, q, pr)
    ensures HostOk(c, s', q, pr)
  {
    hide Below, ClaimedIn, RoundsGrow, ClaimsGrow, PlansGrow, DeliveriesStay, Holds, SnapshotOk, DeliveredUpTo;
    if HostPc(pr.pc) && pr.joins { ClaimGrows(s.claims, s'.claims, pr.round, pr.slot, q, Published); }
    if pr.pc.HostFetch? { SnapshotGrows(s.claims, s'.claims, pr.round, pr.pc.snapshot, q); }
    if pr.pc.HostRecount? { SnapshotGrows(s.claims, s'.claims, pr.round, pr.pc.snapshot, q); }
    if pr.pc.HostGroups? { SnapshotGrows(s.claims, s'.claims, pr.round, pr.pc.snapshot, q); }
    if pr.pc.HostWrite? || pr.pc.HostClose? { FrameHostWrite(c, s, s', q, pr); }
  }

  lemma FrameHostWrite(c: Config, s: State, s': State, q: NodeDesc, pr: Proc)
    requires Undisturbed(c, s, s', q, pr) && HostOk(c, s, q, pr) && (pr.pc.HostWrite? || pr.pc.HostClose?)
    ensures pr.round in s'.plans && s'.plans[pr.round] == s.plans[pr.round]
    ensures pr.pc.HostWrite? ==> DeliveredUpTo(s'.ranks, s'.plans[pr.round], pr.round, pr.pc.written)
    ensures pr.pc.HostClose? ==> DeliveredUpTo(s'.ranks, s'.plans[pr.round], pr.round, |s.plans[pr.round].snapshot|)
  {
    hide Below, ClaimedIn, RoundsGrow, ClaimsGrow, DeliveriesStay, Holds, SnapshotOk, DeliveredUpTo;
    var n := if pr.pc.HostWrite? then pr.pc.written else |s.plans[pr.round].snapshot|;
    DeliveredGrows(s.ranks, s'.ranks, s.plans[pr.round], pr.round, n);
  }

  /** A process whose surroundings only grew keeps its part of the invariant. */
  lemma Frame(c: Config, s: State, s': State, q: NodeDesc, pr: Proc)
    requires Undisturbed(c, s, s', q, pr) && ProcOk(c, s, q, pr)
    ensures ProcOk(c, s', q, pr)
  {
    hide JoinOk, WriteOk, WaitOk, HostOk, Below, RoundsGrow, ClaimsGrow, PlansGrow;
    BelowGrows(s.done, s'.done, pr.round);
    FrameJoin(c, s, s', q, pr);
    FrameWrite(c, s, s', q, pr);
    FrameWait(c, s, s', q, pr);
    FrameHost(c, s, s', q, pr);
  }

  // ---------------------------------------------------------------- assembling the invariant after a write

  ghost predicate ClaimsStored(s: State) {
    forall r: nat, k: nat | (r, k) in s.claims :: ClaimOk(s, r, k)
  }

  ghost predicate PlansStored(c: Config, s: State) {
    && (forall r | r in s.plans :: PlanOk(c, s, r))
    && (forall r: nat | IsClosed(s.done, r) :: r in s.plans)
  }

  /** The invariant of the store and the history alone. */
  ghost predicate StoreOk(c: Config, s: State) {
    && RoundsOk(s.done, s.shutdown, s.signalled)
    && ClaimsStored(s) && OneSlotEach(s.claims) && KeysOk(s) && PlansStored(c, s)
  }

  /** Every claim belongs to a known process that has reached its round. */
  ghost predicate ClaimersOk(claims: Claims, procs: map<NodeDesc, Proc>) {
    forall r: nat, k: nat | (r, k) in claims :: ClaimerOk(claims, procs, r, k)
  }

  ghost predicate HostHolds(c: Config, s: State) {
    forall r | r in s.plans :: OpenPlanHeld(c, s.done, r, s.procs)
  }

  lemma Split(c: Config, s: State)
    ensures Inv(c, s) <==> StoreOk(c, s) && ClaimersOk(s.claims, s.procs) && HostHolds(c, s) && ProcsOk(c, s)
  {
    hide RoundsOk, ClaimOk, OneSlotEach, KeysOk, PlanOk, ProcsOk, OpenPlanHeld, ClaimerOk;
  }

  /** A write by p that leaves every other process undisturbed and p itself in order. */
  lemma Assemble(c: Config, s: State, s': State, p: NodeDesc)
    requires Inv(c, s) && p in s.procs && p in s'.procs && s'.procs == s.procs[p := s'.procs[p]]
    requires StoreOk(c, s') && ClaimersOk(s'.claims, s'.procs) && HostHolds(c, s')
    requires ProcOk(c, s', p, s'.procs[p])
    requires RoundsGrow(s.done, s'.done)
    requires forall q | q in s.procs && q != p :: Undisturbed(c, s, s', q, s.procs[q])
    ensures Inv(c, s')
  {
    hide StoreOk, ClaimersOk, HostHolds, ProcOk, Undisturbed, Inv;
    Split(c, s);
    Split(c, s');
    forall q | q in s'.procs ensures ProcOk(c, s', q, s'.procs[q]) {
      if q != p {
        Own(c, s, q);
        Frame(c, s, s', q, s.procs[q]);
      }
    }
  }

  // ---------------------------------------------------------------- shutdown, unhealthy groups, opening rounds

  lemma ShutdownWritten(c: Config, s: State, s': State)
    requires Inv(c, s) && s' == s.(shutdown := s'.shutdown) && (s.shutdown.Recorded? ==> s'.shutdown == s.shutdown)
    ensures Inv(c, s')
  {
    hide Below, IsClosed, SnapshotOk, DeliveredUpTo, Computed, ProcOk;
    forall r: nat, k: nat | (r, k) in s'.claims ensures ClaimOk(s', r, k) { assert ClaimOk(s, r, k); }
    forall r | r in s'.plans ensures PlanOk(c, s', r) { assert PlanOk(c, s, r); }
    forall q | q in s'.procs ensures ProcOk(c, s', q, s'.procs[q]) {
      assert Undisturbed(c, s, s', q, s.procs[q]);
      Frame(c, s, s', q, s.procs[q]);
    }
  }

  lemma UnhealthyWritten(c: Config, s: State, s': State)
    requires Inv(c, s) && s' == s.(unhealthy := s'.unhealthy)
    ensures Inv(c, s')
  {
    hide Below, IsClosed, SnapshotOk, DeliveredUpTo, Computed, ProcOk;
    forall r: nat, k: nat | (r, k) in s'.claims ensures ClaimOk(s', r, k) { assert ClaimOk(s, r, k); }
    forall r | r in s'.plans ensures PlanOk(c, s', r) { assert PlanOk(c, s, r); }
    forall q | q in s'.procs ensures ProcOk(c, s', q, s'.procs[q]) {
      assert Undisturbed(c, s, s', q, s.procs[q]);
      Frame(c, s, s', q, s.procs[q]);
    }
  }

  /** Opening a round that does not exist closes nothing and reopens nothing. */
  lemma SameClosed(d: Rounds, r: nat, i: nat)
    requires r !in d
    ensures IsClosed(d[r := Open], i) <==> IsClosed(d, i)
  {
  }

  lemma SameBelow(d: Rounds, r: nat, n: nat)
    requires r !in d
    ensures Below(d[r := Open], n) <==> Below(d, n)
  {
    forall i: nat ensures IsClosed(d[r := Open], i) <==> IsClosed(d, i) { SameClosed(d, r, i); }
    var e := d[r := Open];
    if Below(d, n) {
      forall i: nat | i < n ensures IsClosed(e, i) { assert IsClosed(d, i); }
    }
    if Below(e, n) {
      forall i: nat | i < n ensures IsClosed(d, i) { assert IsClosed(e, i); }
    }
  }

  lemma RoundOpened(c: Config, s: State, s': State, r: nat, signal: bool)
    requires Inv(c, s) && r !in s.done
    requires r > 0 ==> IsClosed(s.done, r - 1) || signal
    requires signal ==> s.shutdown.Recorded?
    requires s' == s.(done := s.done[r := Open], signalled := if signal then s.signalled + {r} else s.signalled)
    ensures Inv(c, s')
  {
    hide StoreOk, ClaimersOk, HostHolds, ProcOk, Inv;
    Split(c, s);
    Split(c, s');
    OpenedStore(c, s, s', r, signal);
    OpenedHost(c, s, s', r);
    forall q | q in s'.procs ensures ProcOk(c, s', q, s'.procs[q]) {
      Own(c, s, q);
      assert Undisturbed(c, s, s', q, s.procs[q]);
      Frame(c, s, s', q, s.procs[q]);
    }
  }

  lemma SameRounds(d: Rounds, r: nat)
    requires r !in d
    ensures forall i: nat :: (IsClosed(d[r := Open], i) <==> IsClosed(d, i)) && (Below(d[r := Open], i) <==> Below(d, i))
  {
    forall i: nat ensures (IsClosed(d[r := Open], i) <==> IsClosed(d, i)) && (Below(d[r := Open], i) <==> Below(d, i)) {
      SameClosed(d, r, i);
      SameBelow(d, r, i);
    }
  }

  lemma OpenedHost(c: Config, s: State, s': State, r: nat)
    requires HostHolds(c, s) && r !in s.done && s'.done == s.done[r := Open] && s'.plans == s.plans && s'.procs == s.procs
    ensures HostHolds(c, s')
  {
    SameRounds(s.done, r);
    hide IsClosed;
    forall i | i in s'.plans ensures OpenPlanHeld(c, s'.done, i, s'.procs) {
      assert OpenPlanHeld(c, s.done, i, s.procs);
    }
  }

  lemma OpenedRounds(d: Rounds, r: nat, shutdown: Shutdown, signalled: set<nat>, signalled': set<nat>)
    requires RoundsOk(d, shutdown, signalled) && r !in d
    requires r > 0 ==> IsClosed(d, r - 1) || r in signalled'
    requires signalled <= signalled' <= signalled + {r}
    requires signalled' != signalled ==> shutdown.Recorded?
    ensures RoundsOk(d[r := Open], shutdown, signalled')
  {
    SameRounds(d, r);
    hide Below, IsClosed;
    var e := d[r := Open];
    forall i: nat | IsClosed(e, i) ensures Below(e, i) {
      assert IsClosed(d, i) && Below(d, i);
    }
    forall i: nat | i in e && i > 0 ensures IsClosed(e, i - 1) || i in signalled' {
      assert i == r || i in d;
      assert IsClosed(e, i - 1) <==> IsClosed(d, i - 1);
    }
  }

  lemma OpenedClaims(s: State, s': State, r: nat)
    requires ClaimsStored(s) && r !in s.done && s' == s.(done := s.done[r := Open], signalled := s'.signalled)
    ensures ClaimsStored(s')
  {
    SameRounds(s.done, r);
    hide Below, IsClosed;
    forall i: nat, k: nat | (i, k) in s'.claims ensures ClaimOk(s', i, k) { assert ClaimOk(s, i, k); }
  }

  lemma OpenedPlans(c: Config, s: State, s': State, r: nat)
    requires PlansStored(c, s) && r !in s.done && s' == s.(done := s.done[r := Open], signalled := s'.signalled)
    ensures PlansStored(c, s')
  {
    SameRounds(s.done, r);
    hide Below, IsClosed, SnapshotOk, DeliveredUpTo, Computed;
    forall i | i in s'.plans ensures PlanOk(c, s', i) { assert PlanOk(c, s, i); }
    forall i: nat | IsClosed(s'.done, i) ensures i in s'.plans { assert IsClosed(s.done, i); }
  }

  lemma OpenedStore(c: Config, s: State, s': State, r: nat, signal: bool)
    requires StoreOk(c, s) && r !in s.done
    requires r > 0 ==> IsClosed(s.done, r - 1) || signal
    requires signal ==> s.shutdown.Recorded?
    requires s' == s.(done := s.done[r := Open], signalled := if signal then s.signalled + {r} else s.signalled)
    ensures StoreOk(c, s')
  {
    hide RoundsOk, ClaimsStored, PlansStored;
    OpenedRounds(s.done, r, s.shutdown, s.signalled, s'.signalled);
    OpenedClaims(s, s', r);
    OpenedPlans(c, s, s', r);
  }

  lemma HostFailKeeps(c: Config, s: State, s': State, p: NodeDesc)
    requires Inv(c, s) && HostFails(s, s', p)
    ensures Inv(c, s')
  {
    hide Inv, Below, SnapshotOk, DeliveredUpTo, ClaimedIn, Holds, Returned;
    var t := s.(shutdown := RecordReason(s.shutdown, Failure));
    ShutdownWritten(c, s, t);
    Own(c, t, p);
    Stays(c, t, s', p, HostShutdown);
  }

  lemma SignalKeeps(c: Config, s: State, s': State, p: NodeDesc, r: Reason)
    requires Inv(c, s) && Signals(s, s', p, r)
    ensures Inv(c, s')
  {
    hide Inv, Below, SnapshotOk, DeliveredUpTo, ClaimedIn, Holds, Returned;
    var t := s.(shutdown := RecordReason(s.shutdown, r));
    ShutdownWritten(c, s, t);
    Own(c, t, p);
    Stays(c, t, s', p, SignalOpen);
  }

  lemma ShutdownKeeps(c: Config, s: State, s': State, p: NodeDesc, r: Reason)
    requires Inv(c, s) && RecordsShutdown(s, s', p, r)
    ensures Inv(c, s')
  {
    ShutdownWritten(c, s, s');
  }

  lemma UnhealthyKeeps(c: Config, s: State, s': State, p: NodeDesc)
    requires Inv(c, s) && LeavesUnhealthy(s, s', p)
    ensures Inv(c, s')
  {
    hide Inv, Below, SnapshotOk, DeliveredUpTo, ClaimedIn, Holds, Returned;
    var t := s.(unhealthy := s'.unhealthy);
    UnhealthyWritten(c, s, t);
    Own(c, t, p);
    Stays(c, t, s', p, Done(Stopped));
  }

  /** A returned or signalling process goes where its facts are few. */
  lemma Leaves(c: Config, s: State, s': State, p: NodeDesc, pc: Pc)
    requires Inv(c, s) && p in s.procs && s' == Goto(s, p, pc)
    requires (s.procs[p].pc.Active? && pc == OpenShutdown) || (s.procs[p].pc.SignalOpen? && pc == Done(Signalled))
    ensures Inv(c, s')
  {
    hide Inv, Below, SnapshotOk, DeliveredUpTo, ClaimedIn, Holds, Returned;
    Own(c, s, p);
    Stays(c, s, s', p, pc);
  }

  lemma RestartKeeps(c: Config, s: State, s': State, p: NodeDesc)
    requires Inv(c, s) && Restarts(s, s', p)
    ensures Inv(c, s')
  {
    hide Inv, Below, Returned, Holds, HostOk, JoinOk, WriteOk;
    Own(c, s, p);
    var t := OpenNext(s, s.procs[p].round);
    if s.procs[p].round + 1 !in s.done { RoundOpened(c, s, t, s.procs[p].round + 1, false); }
    Leaves(c, t, s', p, OpenShutdown);
  }

  lemma SignalRecorded(c: Config, s: State, p: NodeDesc)
    requires Inv(c, s) && At(s, p, SignalOpen)
    ensures s.shutdown.Recorded?
  {
    hide Below, Returned, Holds, HostOk, JoinOk, WriteOk;
    Own(c, s, p);
  }

  lemma SignalOpenKeeps(c: Config, s: State, s': State, p: NodeDesc)
    requires Inv(c, s) && SignalOpens(s, s', p)
    ensures Inv(c, s')
  {
    hide Inv;
    SignalRecorded(c, s, p);
    var next := s.procs[p].round + 1;
    if next in s.done {
      Leaves(c, s, s', p, Done(Signalled));
    } else {
      var t := s.(done := s.done[next := Open], signalled := s.signalled + {next});
      RoundOpened(c, s, t, next, true);
      Leaves(c, t, s', p, Done(Signalled));
    }
  }
}
