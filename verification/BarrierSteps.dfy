/** Every step of the barrier keeps the invariant. */
module BarrierSteps {
  import opened Prelude
  import opened RankAssignment
  import opened RankTheorems
  import opened RankLoops
  import opened Barrier
  import opened BarrierInvariant

  // ---------------------------------------------------------------- reads and local decisions

  lemma Own(c: Config, s: State, p: NodeDesc)
    requires Inv(c, s) && p in s.procs
    ensures ProcOk(c, s, p, s.procs[p])
  {
  }

  /** A host outside its write phase has no open plan. */
  lemma NoOpenPlan(c: Config, s: State, p: NodeDesc)
    requires Inv(c, s) && p in s.procs && p == c.host && !HostBusy(s.procs[p].pc)
    ensures forall r | r in s.plans :: IsClosed(s.done, r)
  {
    forall r | r in s.plans ensures IsClosed(s.done, r) {
      assert OpenPlanHeld(c, s.done, r, s.procs);
    }
  }

  /** A process may move to any pc whose facts hold; the round and the claim stay. */
  lemma Stays(c: Config, s: State, s': State, p: NodeDesc, pc: Pc)
    requires Inv(c, s) && p in s.procs && s' == Goto(s, p, pc)
    requires ProcOk(c, s, p, s.procs[p].(pc := pc))
    requires !HostBusy(s.procs[p].pc) || HostBusy(pc)
    ensures Inv(c, s')
  {
    hide ProcOk, RoundsOk, ClaimsOk, KeysOk, ProcsOk, PlanOk;
    var pr := s.procs[p].(pc := pc);
    forall r | p == c.host && r in s.plans && !IsClosed(s.done, r) ensures pr.round == r && HostBusy(pr.pc) {
      assert OpenPlanHeld(c, s.done, r, s.procs);
    }
    Move(c, s, s', p, pr);
  }

  /** A process outside the host's write phase may also change its round and flags. */
  lemma Moves(c: Config, s: State, s': State, p: NodeDesc, pr: Proc)
    requires Inv(c, s) && p in s.procs && s' == s.(procs := s.procs[p := pr])
    requires ProcOk(c, s, p, pr) && s.procs[p].round <= pr.round && !HostBusy(s.procs[p].pc)
    ensures Inv(c, s')
  {
    hide ProcOk, RoundsOk, ClaimsOk, KeysOk, ProcsOk, PlanOk, PlansOk, Inv;
    if p == c.host { NoOpenPlan(c, s, p); }
    Move(c, s, s', p, pr);
  }

  lemma ScanCallKeeps(c: Config, s: State, s': State, p: NodeDesc)
    requires Inv(c, s) && At(s, p, Idle) && s' == Goto(s, p, ScanCheck(s.procs[p].round, false))
    ensures Inv(c, s')
  {
    hide Inv, Below, SnapshotOk, DeliveredUpTo, ClaimedIn, Holds, Returned;
    Own(c, s, p);
    Moves(c, s, s', p, s.procs[p].(pc := ScanCheck(s.procs[p].round, false)));
  }

  lemma OpenCallKeeps(c: Config, s: State, s': State, p: NodeDesc, pr: Proc)
    requires Inv(c, s) && At(s, p, Idle) && s' == s.(procs := s.procs[p := pr])
    requires pr == s.procs[p].(joins := pr.joins, slot := pr.slot, pc := OpenShutdown) && (!pr.joins ==> p == c.host)
    ensures Inv(c, s')
  {
    hide Inv, Below, SnapshotOk, DeliveredUpTo, ClaimedIn, Holds, Returned;
    Own(c, s, p);
    Moves(c, s, s', p, pr);
  }

  lemma CallKeeps(c: Config, s: State, s': State, p: NodeDesc)
    requires Inv(c, s) && Call(c, s, s', p)
    ensures Inv(c, s')
  {
    hide Inv;
    var pr := s.procs[p];
    if s' == Goto(s, p, ScanCheck(pr.round, false)) {
      ScanCallKeeps(c, s, s', p);
    } else if s' == s.(procs := s.procs[p := pr.(joins := true, pc := OpenShutdown)]) {
      OpenCallKeeps(c, s, s', p, pr.(joins := true, pc := OpenShutdown));
    } else {
      OpenCallKeeps(c, s, s', p, pr.(joins := false, slot := 0, pc := OpenShutdown));
    }
  }

  lemma StopKeeps(c: Config, s: State, s': State, p: NodeDesc)
    requires Inv(c, s) && Stop(s, s', p)
    ensures Inv(c, s')
  {
    hide Inv, Below, SnapshotOk, DeliveredUpTo, ClaimedIn, Holds, Returned;
    Own(c, s, p);
    Stays(c, s, s', p, s'.procs[p].pc);
  }

  /** A process has no claim in a round after its own. */
  lemma NoLaterClaim(c: Config, s: State, p: NodeDesc, r: nat)
    requires Inv(c, s) && p in s.procs && ClaimedIn(s.claims, r, p)
    ensures r <= s.procs[p].round
  {
    var k: nat :| (r, k) in s.claims && s.claims[(r, k)].node == p;
    assert ClaimerOk(s.claims, s.procs, r, k);
  }

  lemma BelowNext(done: Rounds, r: nat)
    requires Below(done, r) && IsClosed(done, r)
    ensures Below(done, r + 1)
  {
  }

  lemma ScanEnds(c: Config, s: State, s': State, p: NodeDesc)
    requires Inv(c, s) && p in s.procs && (s.procs[p].pc.ScanCheck? || s.procs[p].pc.ScanGet?)
    requires s' == ScanEnd(s, p, s.procs[p].pc.at, s.procs[p].pc.joining)
    ensures Inv(c, s')
  {
    hide Inv, Below, SnapshotOk, DeliveredUpTo, ClaimedIn, Holds, Returned;
    Own(c, s, p);
    var pr := s.procs[p];
    var at := pr.pc.at;
    if ClaimedIn(s.claims, at, p) { NoLaterClaim(c, s, p, at); }
    if pr.pc.joining {
      Moves(c, s, s', p, pr.(round := at, pc := OpenShutdown));
    } else {
      Moves(c, s, s', p, pr.(round := at, pc := Idle));
    }
  }

  lemma ScanCheckKeeps(c: Config, s: State, s': State, p: NodeDesc)
    requires Inv(c, s) && ScanChecks(s, s', p)
    ensures Inv(c, s')
  {
    hide Inv, Below, SnapshotOk, DeliveredUpTo, ClaimedIn, Holds, Returned;
    Own(c, s, p);
    var pr := s.procs[p];
    var at := pr.pc.at;
    if at in s.done {
      Moves(c, s, s', p, pr.(pc := ScanGet(at, pr.pc.joining)));
    } else {
      ScanEnds(c, s, s', p);
    }
  }

  lemma ScanGetKeeps(c: Config, s: State, s': State, p: NodeDesc)
    requires Inv(c, s) && ScanGets(s, s', p)
    ensures Inv(c, s')
  {
    hide Inv, Below, SnapshotOk, DeliveredUpTo, ClaimedIn, Holds, Returned;
    Own(c, s, p);
    var pr := s.procs[p];
    var at := pr.pc.at;
    if IsClosed(s.done, at) {
      BelowNext(s.done, at);
      Moves(c, s, s', p, pr.(pc := ScanCheck(at + 1, pr.pc.joining)));
    } else {
      ScanEnds(c, s, s', p);
    }
  }

  lemma OpenShutdownKeeps(c: Config, s: State, s': State, p: NodeDesc)
    requires Inv(c, s) && OpenShutdownReads(s, s', p)
    ensures Inv(c, s')
  {
    hide Inv, Below, SnapshotOk, DeliveredUpTo, ClaimedIn, Holds, Returned;
    Own(c, s, p);
    Stays(c, s, s', p, s'.procs[p].pc);
  }

  lemma OpenCheckKeeps(c: Config, s: State, s': State, p: NodeDesc)
    requires Inv(c, s) && OpenChecks(s, s', p)
    ensures Inv(c, s')
  {
    hide Inv, Below, SnapshotOk, DeliveredUpTo, ClaimedIn, Holds, Returned;
    Own(c, s, p);
    Stays(c, s, s', p, s'.procs[p].pc);
  }

  lemma OpenRoundRead(c: Config, s: State, s': State, p: NodeDesc, pc: Pc)
    requires Inv(c, s) && At(s, p, OpenGet) && IsOpen(s.done, s.procs[p].round) && s' == Goto(s, p, pc)
    requires pc == if s.procs[p].joins then Join else HostShutdown
    ensures Inv(c, s')
  {
    hide Inv, Below, SnapshotOk, DeliveredUpTo, ClaimedIn, Holds, Returned;
    Own(c, s, p);
    Stays(c, s, s', p, pc);
  }

  lemma ClosedRoundRead(c: Config, s: State, s': State, p: NodeDesc, pc: Pc)
    requires Inv(c, s) && At(s, p, OpenGet) && IsClosed(s.done, s.procs[p].round) && s' == Goto(s, p, pc)
    requires pc == OpenShutdown || pc == ScanCheck(s.procs[p].round, true)
    ensures Inv(c, s')
  {
    hide Inv, Below, SnapshotOk, DeliveredUpTo, ClaimedIn, Holds, Returned;
    Own(c, s, p);
    Stays(c, s, s', p, pc);
  }

  lemma OpenGetKeeps(c: Config, s: State, s': State, p: NodeDesc)
    requires Inv(c, s) && OpenGets(s, s', p)
    ensures Inv(c, s')
  {
    hide Inv;
    var pr := s.procs[p];
    if s.done[pr.round].Open? {
      OpenRoundRead(c, s, s', p, if pr.joins then Join else HostShutdown);
    } else if s' == Goto(s, p, OpenShutdown) {
      ClosedRoundRead(c, s, s', p, OpenShutdown);
    } else {
      ClosedRoundRead(c, s, s', p, ScanCheck(pr.round, true));
    }
  }

  /** A rank key holding a later round shows that round r is over. */
  lemma RankRound(c: Config, s: State, k: nat, r: nat)
    requires Inv(c, s) && k in s.ranks
    ensures (s.ranks[k].round, k) in s.claims && s.claims[(s.ranks[k].round, k)].stage != Claimed
    ensures s.ranks[k].round > r ==> IsClosed(s.done, r)
  {
    assert RankOk(s.ranks[k], k, s.claims, s.plans);
    assert ClaimOk(s, s.ranks[k].round, k);
  }

  lemma SlotRound(c: Config, s: State, k: nat, r: nat)
    requires Inv(c, s) && k in s.slots
    ensures Holds(s.claims, s.slots[k].round, k, s.slots[k].who.node, Published)
    ensures s.slots[k].round > r ==> IsClosed(s.done, r)
  {
    assert SlotOk(s.slots[k], k, s.claims);
    assert ClaimOk(s, s.slots[k].round, k);
  }

  lemma RankCheckKeeps(c: Config, s: State, s': State, p: NodeDesc)
    requires Inv(c, s) && RankChecks(s, s', p)
    ensures Inv(c, s')
  {
    hide Inv, Below, SnapshotOk, DeliveredUpTo, ClaimedIn, Holds, Returned;
    Own(c, s, p);
    Stays(c, s, s', p, s'.procs[p].pc);
  }

  /** In the write phase of a round nobody has written the claimed keys for that round yet. */
  lemma RankGetKeeps(c: Config, s: State, s': State, p: NodeDesc)
    requires Inv(c, s) && RankGets(s, s', p)
    ensures Inv(c, s')
  {
    hide Inv, Below, SnapshotOk, DeliveredUpTo, ClaimedIn, Returned;
    Own(c, s, p);
    RankRound(c, s, s.procs[p].slot, s.procs[p].round);
    Stays(c, s, s', p, s'.procs[p].pc);
  }

  lemma SlotCheckKeeps(c: Config, s: State, s': State, p: NodeDesc)
    requires Inv(c, s) && SlotChecks(s, s', p)
    ensures Inv(c, s')
  {
    hide Inv, Below, SnapshotOk, DeliveredUpTo, ClaimedIn, Returned;
    Own(c, s, p);
    Stays(c, s, s', p, s'.procs[p].pc);
  }

  lemma SlotGetKeeps(c: Config, s: State, s': State, p: NodeDesc)
    requires Inv(c, s) && SlotGets(s, s', p)
    ensures Inv(c, s')
  {
    hide Inv, Below, SnapshotOk, DeliveredUpTo, ClaimedIn, Returned;
    Own(c, s, p);
    SlotRound(c, s, s.procs[p].slot, s.procs[p].round);
    Stays(c, s, s', p, s'.procs[p].pc);
  }

  lemma HostShutdownRead(c: Config, s: State, s': State, p: NodeDesc, pc: Pc)
    requires Inv(c, s) && At(s, p, HostShutdown) && s' == Goto(s, p, pc)
    requires pc == HostCheck || pc == HostFail || pc == Done(ShutDown)
    ensures Inv(c, s')
  {
    hide Inv, Below, SnapshotOk, DeliveredUpTo, ClaimedIn, Holds, Returned;
    Own(c, s, p);
    Stays(c, s, s', p, pc);
  }

  lemma HostShutdownKeeps(c: Config, s: State, s': State, p: NodeDesc)
    requires Inv(c, s) && HostShutdownReads(s, s', p)
    ensures Inv(c, s')
  {
    hide Inv;
    if s.shutdown.Recorded? {
      HostShutdownRead(c, s, s', p, Done(ShutDown));
    } else if s' == Goto(s, p, HostCheck) {
      HostShutdownRead(c, s, s', p, HostCheck);
    } else {
      HostShutdownRead(c, s, s', p, HostFail);
    }
  }

  lemma HostCheckKeeps(c: Config, s: State, s': State, p: NodeDesc)
    requires Inv(c, s) && HostChecks(s, s', p)
    ensures Inv(c, s')
  {
    hide Inv, Below, SnapshotOk, DeliveredUpTo, ClaimedIn, Returned;
    Own(c, s, p);
    Stays(c, s, s', p, s'.procs[p].pc);
  }

  lemma HostRecountKeeps(c: Config, s: State, s': State, p: NodeDesc)
    requires Inv(c, s) && HostRecounts(s, s', p)
    ensures Inv(c, s')
  {
    hide Inv, Below, SnapshotOk, DeliveredUpTo, ClaimedIn, Returned;
    Own(c, s, p);
    Stays(c, s, s', p, s'.procs[p].pc);
  }

  lemma {:induction false} UnreadIsBlank(n: nat)
    ensures |Unread(n)| == n && forall i | 0 <= i < n :: Unread(n)[i] == None
  {
    if n > 0 { UnreadIsBlank(n - 1); }
  }

  lemma HostCountRead(c: Config, s: State, s': State, p: NodeDesc, pc: Pc)
    requires Inv(c, s) && At(s, p, HostCount) && s' == Goto(s, p, pc)
    requires pc == HostShutdown || (pc.HostFetch? && pc.snapshot == Unread(|pc.snapshot|))
    ensures Inv(c, s')
  {
    hide Inv, Below, DeliveredUpTo, ClaimedIn, Returned, Holds;
    Own(c, s, p);
    if pc.HostFetch? { UnreadIsBlank(|pc.snapshot|); }
    hide Unread;
    Stays(c, s, s', p, pc);
  }

  lemma HostCountKeeps(c: Config, s: State, s': State, p: NodeDesc)
    requires Inv(c, s) && HostCounts(c, s, s', p)
    ensures Inv(c, s')
  {
    hide Inv;
    if s' == Goto(s, p, HostShutdown) {
      HostCountRead(c, s, s', p, HostShutdown);
    } else {
      var joined := s.joinCount[s.procs[p].round];
      UnreadIsBlank(joined);
      HostCountRead(c, s, s', p, HostFetch(joined, Indices(joined), Unread(joined)));
    }
  }

  lemma ReadIsPublished(c: Config, s: State, r: nat, k: nat)
    requires Inv(c, s) && FetchSlot(s, r, k).Some?
    ensures Holds(s.claims, r, k, FetchSlot(s, r, k).value.node, Published)
  {
    SlotRound(c, s, k, r);
  }

  /** Reading one more slot keeps the snapshot made of published slots. */
  lemma SnapshotReads(c: Config, s: State, r: nat, snapshot: seq<Option<Participant>>, i: nat)
    requires Inv(c, s) && SnapshotOk(s.claims, r, snapshot) && i < |snapshot|
    ensures SnapshotOk(s.claims, r, snapshot[i := FetchSlot(s, r, i + 1)])
  {
    hide Inv, FetchSlot, Holds;
    if FetchSlot(s, r, i + 1).Some? { ReadIsPublished(c, s, r, i + 1); }
  }

  lemma FetchSnapshot(c: Config, s: State, p: NodeDesc)
    requires Inv(c, s) && p in s.procs && s.procs[p].pc.HostFetch?
    ensures SnapshotOk(s.claims, s.procs[p].round, s.procs[p].pc.snapshot)
  {
    Own(c, s, p);
  }

  lemma HostFetchMoves(c: Config, s: State, s': State, p: NodeDesc, pc: Pc)
    requires Inv(c, s) && p in s.procs && s.procs[p].pc.HostFetch? && s' == Goto(s, p, pc)
    requires (pc.HostFetch? || pc.HostRecount?) && SnapshotOk(s.claims, s.procs[p].round, pc.snapshot)
    ensures Inv(c, s')
  {
    hide Inv, Below, DeliveredUpTo, ClaimedIn, Returned, SnapshotOk, Holds;
    Own(c, s, p);
    Stays(c, s, s', p, pc);
  }

  lemma HostReadsSlot(c: Config, s: State, s': State, p: NodeDesc, i: nat)
    requires Inv(c, s) && p in s.procs && s.procs[p].pc.HostFetch? && FetchesAt(s, s', p, i)
    ensures Inv(c, s')
  {
    hide Inv, SnapshotOk, FetchSlot, Goto;
    FetchSnapshot(c, s, p);
    var pc := s.procs[p].pc;
    SnapshotReads(c, s, s.procs[p].round, pc.snapshot, i);
    HostFetchMoves(c, s, s', p, HostFetch(pc.joined, pc.todo - {i}, pc.snapshot[i := FetchSlot(s, s.procs[p].round, i + 1)]));
  }

  lemma HostFetchKeeps(c: Config, s: State, s': State, p: NodeDesc)
    requires Inv(c, s) && HostFetches(s, s', p)
    ensures Inv(c, s')
  {
    hide Inv, FetchesAt, SnapshotOk;
    var pc := s.procs[p].pc;
    if pc.todo == {} {
      FetchSnapshot(c, s, p);
      HostFetchMoves(c, s, s', p, HostRecount(pc.joined, pc.snapshot));
    } else {
      var i: nat :| FetchesAt(s, s', p, i);
      HostReadsSlot(c, s, s', p, i);
    }
  }

  lemma WaitShutdownKeeps(c: Config, s: State, s': State, p: NodeDesc)
    requires Inv(c, s) && WaitShutdownReads(s, s', p)
    ensures Inv(c, s')
  {
    hide Inv, Below, SnapshotOk, DeliveredUpTo, ClaimedIn, Returned;
    Own(c, s, p);
    Stays(c, s, s', p, s'.procs[p].pc);
  }

  lemma WaitGetKeeps(c: Config, s: State, s': State, p: NodeDesc)
    requires Inv(c, s) && WaitGets(s, s', p)
    ensures Inv(c, s')
  {
    hide Inv, Below, SnapshotOk, DeliveredUpTo, ClaimedIn, Returned;
    Own(c, s, p);
    Stays(c, s, s', p, s'.procs[p].pc);
  }

  lemma PublishedHasRank(c: Config, s: State, r: nat, k: nat)
    requires Inv(c, s) && (r, k) in s.claims && s.claims[(r, k)].stage != Claimed
    ensures k in s.ranks && s.ranks[k].round >= r
  {
    assert ClaimOk(s, r, k);
  }

  /** A joined node always finds its rank key. */
  lemma RankPresentKeeps(c: Config, s: State, s': State, p: NodeDesc)
    requires Inv(c, s) && RankPresents(s, s', p)
    ensures Inv(c, s')
  {
    hide Inv, Below, SnapshotOk, DeliveredUpTo, ClaimedIn, Returned;
    Own(c, s, p);
    PublishedHasRank(c, s, s.procs[p].round, s.procs[p].slot);
    Stays(c, s, s', p, s'.procs[p].pc);
  }

  /** A rank key's value for its own round is UNASSIGNED or the one planned for the slot's claimer. */
  lemma RankMeaning(c: Config, s: State, k: nat)
    requires Inv(c, s) && k in s.ranks && s.ranks[k].rank != UNASSIGNED
    ensures var e := s.ranks[k];
            && e.round in s.plans && Writes(s.plans[e.round], k) && e == PlannedEntry(s.plans[e.round], e.round, k)
  {
    assert RankOk(s.ranks[k], k, s.claims, s.plans);
  }

  lemma PlanOwner(c: Config, s: State, r: nat, k: nat)
    requires Inv(c, s) && r in s.plans && Writes(s.plans[r], k)
    ensures Holds(s.claims, r, k, s.plans[r].snapshot[k - 1].value.node, Published)
  {
    assert PlanOk(c, s, r);
    assert s.plans[r].snapshot[k - 1].Some?;
  }

  lemma OwnRank(c: Config, s: State, p: NodeDesc, r: nat, k: nat)
    requires Inv(c, s) && k in s.ranks && Holds(s.claims, r, k, p, Published)
    ensures var e := s.ranks[k];
            e.round == r && e.rank != UNASSIGNED && e.rank < c.minNodes ==>
              Returned(c, s.plans, p, r, k, e.rank, e.total)
  {
    hide Inv;
    if s.ranks[k].round == r && s.ranks[k].rank != UNASSIGNED {
      RankMeaning(c, s, k);
      PlanOwner(c, s, r, k);
    }
  }

  lemma RankReadKeeps(c: Config, s: State, s': State, p: NodeDesc)
    requires Inv(c, s) && RankReads(c, s, s', p)
    ensures Inv(c, s')
  {
    hide Inv, Below, SnapshotOk, DeliveredUpTo, ClaimedIn, Returned;
    Own(c, s, p);
    OwnRank(c, s, p, s.procs[p].round, s.procs[p].slot);
    Stays(c, s, s', p, s'.procs[p].pc);
  }

  lemma PollKeeps(c: Config, s: State, s': State, p: NodeDesc)
    requires Inv(c, s) && Polls(s, s', p)
    ensures Inv(c, s')
  {
    hide Inv, Below, SnapshotOk, DeliveredUpTo, ClaimedIn, Returned;
    Own(c, s, p);
    if s' != s { Stays(c, s, s', p, s'.procs[p].pc); }
  }

  lemma ReadReasonKeeps(c: Config, s: State, s': State, p: NodeDesc)
    requires Inv(c, s) && ReadsReason(s, s', p)
    ensures Inv(c, s')
  {
    hide Inv, Below, SnapshotOk, DeliveredUpTo, ClaimedIn, Returned;
    Own(c, s, p);
    Stays(c, s, s', p, s'.procs[p].pc);
  }
}
