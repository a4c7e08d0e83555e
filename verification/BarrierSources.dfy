/** Every participant in a slot, a snapshot or a plan is what some process itself published. */
module BarrierSources {
  import opened Prelude
  import opened RankAssignment
  import opened RankTheorems
  import opened RankLoops
  import opened Barrier
  import opened BarrierInvariant
  import opened BarrierSteps
  import opened BarrierWrites
  import opened BarrierKeys
  import opened BarrierHost
  import opened BarrierRuns

  type Procs = map<NodeDesc, Proc>

  /** who is the data of the process it names. */
  ghost predicate IsOwn(procs: Procs, who: Participant) {
    who.node in procs && procs[who.node].me == who
  }

  ghost predicate AllOwn(procs: Procs, snapshot: seq<Option<Participant>>) {
    forall i | 0 <= i < |snapshot| && snapshot[i].Some? :: IsOwn(procs, snapshot[i].value)
  }

  function SnapshotOf(pc: Pc): seq<Option<Participant>> {
    if pc.HostFetch? || pc.HostRecount? || pc.HostGroups? then pc.snapshot else []
  }

  ghost predicate SlotsOwn(slots: map<nat, SlotEntry>, procs: Procs) {
    forall k | k in slots :: IsOwn(procs, slots[k].who)
  }

  ghost predicate PlansOwn(plans: map<nat, Plan>, procs: Procs) {
    forall r | r in plans :: AllOwn(procs, plans[r].snapshot)
  }

  ghost predicate PcsOwn(procs: Procs) {
    forall q | q in procs :: AllOwn(procs, SnapshotOf(procs[q].pc))
  }

  ghost predicate Sources(s: State) {
    SlotsOwn(s.slots, s.procs) && PlansOwn(s.plans, s.procs) && PcsOwn(s.procs)
  }

  /** Processes stay, and keep their data. */
  ghost predicate SameMe(procs: Procs, procs': Procs) {
    forall q | q in procs :: q in procs' && procs'[q].me == procs[q].me
  }

  /** A step of p: processes stay, keep their data, and only p moves. */
  ghost predicate OnlyMoves(procs: Procs, procs': Procs, p: NodeDesc) {
    forall q | q in procs :: q in procs' && procs'[q].me == procs[q].me && (q != p ==> procs'[q] == procs[q])
  }

  lemma AllOwnKept(procs: Procs, procs': Procs, snapshot: seq<Option<Participant>>)
    requires AllOwn(procs, snapshot) && SameMe(procs, procs')
    ensures AllOwn(procs', snapshot)
  {
    forall i | 0 <= i < |snapshot| && snapshot[i].Some? ensures IsOwn(procs', snapshot[i].value) {
      assert IsOwn(procs, snapshot[i].value);
    }
  }

  lemma SourcesKept(procs: Procs, procs': Procs, slots: map<nat, SlotEntry>, plans: map<nat, Plan>)
    requires SlotsOwn(slots, procs) && PlansOwn(plans, procs) && SameMe(procs, procs')
    ensures SlotsOwn(slots, procs') && PlansOwn(plans, procs')
  {
    forall k | k in slots ensures IsOwn(procs', slots[k].who) { assert IsOwn(procs, slots[k].who); }
    forall r | r in plans ensures AllOwn(procs', plans[r].snapshot) { AllOwnKept(procs, procs', plans[r].snapshot); }
  }

  /** One process moves on, with data it had and a snapshot made of published data. */
  lemma MoverKeeps(s: State, s': State, p: NodeDesc, pr: Proc)
    requires Sources(s) && p in s.procs && s'.procs == s.procs[p := pr] && pr.me == s.procs[p].me
    requires AllOwn(s.procs, SnapshotOf(pr.pc)) && SlotsOwn(s'.slots, s.procs) && PlansOwn(s'.plans, s.procs)
    ensures Sources(s') && OnlyMoves(s.procs, s'.procs, p)
  {
    assert SameMe(s.procs, s'.procs) && OnlyMoves(s.procs, s'.procs, p);
    hide SameMe, OnlyMoves, AllOwn, SnapshotOf;
    SourcesKept(s.procs, s'.procs, s'.slots, s'.plans);
    hide SlotsOwn, PlansOwn;
    forall q | q in s'.procs ensures AllOwn(s'.procs, SnapshotOf(s'.procs[q].pc)) {
      if q == p {
        AllOwnKept(s.procs, s'.procs, SnapshotOf(pr.pc));
      } else {
        AllOwnKept(s.procs, s'.procs, SnapshotOf(s.procs[q].pc));
      }
    }
  }

  /** A step of p that reads into no snapshot and writes no slot key and no plan. */
  ghost predicate Quiet(s: State, s': State, p: NodeDesc) {
    && p in s.procs && p in s'.procs && s'.procs == s.procs[p := s'.procs[p]]
    && s'.procs[p].me == s.procs[p].me && s'.slots == s.slots && s'.plans == s.plans
    && (SnapshotOf(s'.procs[p].pc) == [] || SnapshotOf(s'.procs[p].pc) == SnapshotOf(s.procs[p].pc))
  }

  lemma QuietKeeps(s: State, s': State, p: NodeDesc)
    requires Sources(s) && Quiet(s, s', p)
    ensures Sources(s') && OnlyMoves(s.procs, s'.procs, p)
  {
    assert AllOwn(s.procs, SnapshotOf(s.procs[p].pc));
    assert AllOwn(s.procs, []);
    hide AllOwn, SnapshotOf, SlotsOwn, PlansOwn, PcsOwn;
    MoverKeeps(s, s', p, s'.procs[p]);
  }

  /** Moving to a pc without a new snapshot, after writes elsewhere. */
  lemma GotoIsQuiet(s: State, t: State, s': State, p: NodeDesc, pc: Pc)
    requires p in s.procs && t.procs == s.procs && t.slots == s.slots && t.plans == s.plans && s' == Goto(t, p, pc)
    requires SnapshotOf(pc) == [] || SnapshotOf(pc) == SnapshotOf(s.procs[p].pc)
    ensures Quiet(s, s', p)
  {
    hide SnapshotOf;
  }

  predicate Reading(pc: Pc) {
    pc.HostFetch? || pc.HostRecount? || pc.HostGroups?
  }

  /** The same for a pc that holds no snapshot. */
  lemma RestIsQuiet(s: State, t: State, s': State, p: NodeDesc, pc: Pc)
    requires p in s.procs && t.procs == s.procs && t.slots == s.slots && t.plans == s.plans && s' == Goto(t, p, pc)
    requires !Reading(pc)
    ensures Quiet(s, s', p)
  {
    GotoIsQuiet(s, t, s', p, pc);
  }

  lemma MoveIsQuiet(s: State, s': State, p: NodeDesc, pc: Pc)
    requires p in s.procs && s' == Goto(s, p, pc) && !Reading(pc)
    ensures Quiet(s, s', p)
  {
  }

  lemma CallIsQuiet(c: Config, s: State, s': State, p: NodeDesc)
    requires Call(c, s, s', p)
    ensures Quiet(s, s', p)
  {
    var pr := s.procs[p];
    if s' == Goto(s, p, ScanCheck(pr.round, false)) {
      MoveIsQuiet(s, s', p, ScanCheck(pr.round, false));
    } else if s' == s.(procs := s.procs[p := pr.(joins := true, pc := OpenShutdown)]) {
    } else {
      assert s' == s.(procs := s.procs[p := pr.(joins := false, slot := 0, pc := OpenShutdown)]);
    }
  }

  lemma ScanEndIsQuiet(s: State, p: NodeDesc, at: nat, joining: bool)
    requires p in s.procs
    ensures Quiet(s, ScanEnd(s, p, at, joining), p)
  {
  }

  lemma ScanIsQuiet(s: State, s': State, p: NodeDesc)
    requires ScanChecks(s, s', p) || ScanGets(s, s', p)
    ensures Quiet(s, s', p)
  {
    hide Quiet;
    var pc := s.procs[p].pc;
    if pc.ScanCheck? && pc.at in s.done {
      MoveIsQuiet(s, s', p, ScanGet(pc.at, pc.joining));
    } else if pc.ScanGet? && s.done[pc.at].Closed? {
      MoveIsQuiet(s, s', p, ScanCheck(pc.at + 1, pc.joining));
    } else {
      ScanEndIsQuiet(s, p, pc.at, pc.joining);
    }
  }

  lemma OpenGetIsQuiet(s: State, s': State, p: NodeDesc)
    requires OpenGets(s, s', p)
    ensures Quiet(s, s', p)
  {
    hide Quiet;
    var pr := s.procs[p];
    if s.done[pr.round].Open? {
      MoveIsQuiet(s, s', p, if pr.joins then Join else HostShutdown);
    } else if s' == Goto(s, p, OpenShutdown) {
      MoveIsQuiet(s, s', p, OpenShutdown);
    } else {
      MoveIsQuiet(s, s', p, ScanCheck(pr.round, true));
    }
  }

  lemma HostShutdownIsQuiet(s: State, s': State, p: NodeDesc)
    requires HostShutdownReads(s, s', p)
    ensures Quiet(s, s', p)
  {
    hide Quiet;
    if s.shutdown.Recorded? {
      MoveIsQuiet(s, s', p, Done(ShutDown));
    } else if s' == Goto(s, p, HostCheck) {
      MoveIsQuiet(s, s', p, HostCheck);
    } else {
      MoveIsQuiet(s, s', p, HostFail);
    }
  }

  lemma RankWrittenIsQuiet(s: State, s': State, p: NodeDesc)
    requires p in s.procs
    requires var pr := s.procs[p];
             s' == Goto(s.(ranks := s.ranks[pr.slot := RankEntry(pr.round, UNASSIGNED, 0)],
                           claims := s.claims[(pr.round, pr.slot) := Claim(p, Stage.RankWritten)]), p, SlotCheck)
    ensures Quiet(s, s', p)
  {
    var pr := s.procs[p];
    hide Quiet;
    RestIsQuiet(s, s.(ranks := s.ranks[pr.slot := RankEntry(pr.round, UNASSIGNED, 0)],
                      claims := s.claims[(pr.round, pr.slot) := Claim(p, Stage.RankWritten)]), s', p, SlotCheck);
  }

  lemma RankSetIsQuiet(c: Config, s: State, s': State, p: NodeDesc)
    requires Inv(c, s) && RankSets(s, s', p)
    ensures Quiet(s, s', p)
  {
    hide Inv, Quiet;
    RankSetCases(c, s, s', p);
    var pr := s.procs[p];
    hide RankSets;
    if s' == Goto(s, p, OpenShutdown) {
      MoveIsQuiet(s, s', p, OpenShutdown);
    } else if pr.slot in s.ranks && s' == Goto(s, p, Done(CasConflict(s.ranks[pr.slot].round))) {
      MoveIsQuiet(s, s', p, Done(CasConflict(s.ranks[pr.slot].round)));
    } else {
      RankWrittenIsQuiet(s, s', p);
    }
  }

  lemma HostWriteIsQuiet(s: State, s': State, p: NodeDesc)
    requires HostWrites(s, s', p)
    ensures Quiet(s, s', p)
  {
    hide HostWrites, Quiet, Writes, PlannedEntry;
    WriteCases(s, s', p);
    var n, r := s.procs[p].pc.written, s.procs[p].round;
    if n >= |s.plans[r].snapshot| && s' == Goto(s, p, HostClose) {
      MoveIsQuiet(s, s', p, HostClose);
    } else if s' == Goto(s, p, HostWrite(n + 1)) {
      MoveIsQuiet(s, s', p, HostWrite(n + 1));
    } else {
      RestIsQuiet(s, s.(ranks := s.ranks[n + 1 := PlannedEntry(s.plans[r], r, n + 1)]), s', p, HostWrite(n + 1));
    }
  }

  lemma GotoSources(s: State, s': State, p: NodeDesc, pc: Pc)
    requires Sources(s) && p in s.procs && s' == Goto(s, p, pc) && AllOwn(s.procs, SnapshotOf(pc))
    ensures Sources(s') && OnlyMoves(s.procs, s'.procs, p)
  {
    hide AllOwn, SnapshotOf, SlotsOwn, PlansOwn, PcsOwn;
    MoverKeeps(s, s', p, s.procs[p].(pc := pc));
  }

  lemma RestSources(s: State, s': State, p: NodeDesc, pc: Pc)
    requires Sources(s) && p in s.procs && s' == Goto(s, p, pc) && !Reading(pc)
    ensures Sources(s') && OnlyMoves(s.procs, s'.procs, p)
  {
    assert AllOwn(s.procs, SnapshotOf(pc));
    hide SameMe, OnlyMoves, Sources, AllOwn, SnapshotOf;
    GotoSources(s, s', p, pc);
  }

  lemma OwnName(c: Config, s: State, p: NodeDesc)
    requires Inv(c, s) && p in s.procs
    ensures s.procs[p].me.node == p
  {
    Own(c, s, p);
  }

  /** The slot entry written is the writer's own data. */
  lemma SlotSetSources(c: Config, s: State, s': State, p: NodeDesc)
    requires Inv(c, s) && Sources(s) && SlotSets(c, s, s', p)
    ensures Sources(s') && OnlyMoves(s.procs, s'.procs, p)
  {
    hide SameMe, OnlyMoves, Inv, Sources;
    SlotSetCases(c, s, s', p);
    OwnName(c, s, p);
    hide SlotSets;
    var pr := s.procs[p];
    if s' == Goto(s, p, OpenShutdown) {
      RestSources(s, s', p, OpenShutdown);
    } else if pr.slot in s.slots && s' == Goto(s, p, Done(CasConflict(s.slots[pr.slot].round))) {
      RestSources(s, s', p, Done(CasConflict(s.slots[pr.slot].round)));
    } else {
      SlotWrittenSources(s, s', p, if p == c.host then HostShutdown else WaitShutdown);
    }
  }

  lemma SlotWrittenSources(s: State, s': State, p: NodeDesc, pc: Pc)
    requires Sources(s) && p in s.procs && s.procs[p].me.node == p && SnapshotOf(pc) == []
    requires var pr := s.procs[p];
             s' == Goto(s.(slots := s.slots[pr.slot := SlotEntry(pr.round, pr.me)],
                           claims := s.claims[(pr.round, pr.slot) := Claim(p, Published)]), p, pc)
    ensures Sources(s') && OnlyMoves(s.procs, s'.procs, p)
  {
    var pr := s.procs[p];
    assert SlotsOwn(s'.slots, s.procs);
    assert AllOwn(s.procs, []);
    hide AllOwn, SnapshotOf, SlotsOwn, PlansOwn, PcsOwn;
    MoverKeeps(s, s', p, pr.(pc := pc));
  }

  lemma SpawnSources(c: Config, s: State, s': State, p: NodeDesc, me: Participant)
    requires Sources(s) && Spawn(c, s, s', p, me)
    ensures Sources(s') && OnlyMoves(s.procs, s'.procs, p)
  {
    assert SameMe(s.procs, s'.procs) && OnlyMoves(s.procs, s'.procs, p);
    assert AllOwn(s'.procs, []);
    hide AllOwn, SameMe, OnlyMoves;
    SourcesKept(s.procs, s'.procs, s.slots, s.plans);
    hide SlotsOwn, PlansOwn;
    forall q | q in s'.procs ensures AllOwn(s'.procs, SnapshotOf(s'.procs[q].pc)) {
      if q != p { AllOwnKept(s.procs, s'.procs, SnapshotOf(s.procs[q].pc)); }
    }
  }

  lemma CountSources(c: Config, s: State, s': State, p: NodeDesc)
    requires Sources(s) && HostCounts(c, s, s', p)
    ensures Sources(s') && OnlyMoves(s.procs, s'.procs, p)
  {
    var joined := s.joinCount[s.procs[p].round];
    UnreadIsBlank(joined);
    assert AllOwn(s.procs, Unread(joined)) && AllOwn(s.procs, []);
    hide SameMe, OnlyMoves, AllOwn, Sources, Indices, Unread;
    if s' == Goto(s, p, HostShutdown) {
      GotoSources(s, s', p, HostShutdown);
    } else {
      GotoSources(s, s', p, HostFetch(joined, Indices(joined), Unread(joined)));
    }
  }

  /** What the host reads from a slot is what its writer published. */
  lemma FetchSources(s: State, s': State, p: NodeDesc)
    requires Sources(s) && HostFetches(s, s', p)
    ensures Sources(s') && OnlyMoves(s.procs, s'.procs, p)
  {
    var pc := s.procs[p].pc;
    assert AllOwn(s.procs, SnapshotOf(pc));
    if pc.todo == {} {
      hide SameMe, OnlyMoves, AllOwn, Sources;
      GotoSources(s, s', p, HostRecount(pc.joined, pc.snapshot));
    } else {
      var i: nat :| FetchesAt(s, s', p, i);
      var read := FetchSlot(s, s.procs[p].round, i + 1);
      assert read.Some? ==> IsOwn(s.procs, read.value);
      assert AllOwn(s.procs, pc.snapshot[i := read]);
      hide SameMe, OnlyMoves, AllOwn, Sources, FetchSlot;
      GotoSources(s, s', p, HostFetch(pc.joined, pc.todo - {i}, pc.snapshot[i := read]));
    }
  }

  lemma JudgedOwn(s: State, p: NodeDesc)
    requires Sources(s) && p in s.procs && s.procs[p].pc.HostGroups?
    ensures AllOwn(s.procs, s.procs[p].pc.snapshot)
  {
    assert AllOwn(s.procs, SnapshotOf(s.procs[p].pc));
  }

  lemma VerdictReadsNothing(procs: Procs, v: Verdict, pc: Pc)
    requires HostMayGo(v, pc)
    ensures AllOwn(procs, SnapshotOf(pc))
  {
  }

  lemma DecideSources(c: Config, s: State, s': State, p: NodeDesc)
    requires Inv(c, s) && Sources(s) && HostDecides(c, s, s', p)
    ensures Sources(s') && OnlyMoves(s.procs, s'.procs, p)
  {
    hide Inv, Verdicts, AllOwn, SameMe, OnlyMoves, Sources, Goto, HostMayGo;
    var v := Verdicts(c, s, s.procs[p]);
    JudgedOwn(s, p);
    if pc :| HostMayGo(v, pc) && s' == Goto(s, p, pc) {
      VerdictReadsNothing(s.procs, v, pc);
      GotoSources(s, s', p, pc);
    } else {
      SettledIsComputed(c, s, p);
      PlanSources(s, s', p, v.plan);
    }
  }

  lemma PlanSources(s: State, s': State, p: NodeDesc, plan: Plan)
    requires Sources(s) && p in s.procs && AllOwn(s.procs, plan.snapshot)
    requires s' == Goto(s.(plans := s.plans[s.procs[p].round := plan]), p, HostWrite(0))
    ensures Sources(s') && OnlyMoves(s.procs, s'.procs, p)
  {
    assert PlansOwn(s'.plans, s.procs);
    assert AllOwn(s.procs, []);
    hide AllOwn, SlotsOwn, PlansOwn, PcsOwn;
    MoverKeeps(s, s', p, s.procs[p].(pc := HostWrite(0)));
  }

  lemma OpenStepsAreQuiet(s: State, s': State, p: NodeDesc)
    requires Stop(s, s', p) || OpenShutdownReads(s, s', p) || OpenChecks(s, s', p)
    ensures Quiet(s, s', p)
  {
    hide Quiet;
    if Stop(s, s', p) {
      MoveIsQuiet(s, s', p, Done(Stopped));
    } else if OpenShutdownReads(s, s', p) {
      MoveIsQuiet(s, s', p, if s.shutdown.Recorded? then Done(ShutDown) else OpenCheck);
    } else {
      MoveIsQuiet(s, s', p, if s.procs[p].round in s.done then OpenGet else OpenShutdown);
    }
  }

  lemma JoinIsQuiet(s: State, s': State, p: NodeDesc)
    requires Joins(s, s', p)
    ensures Quiet(s, s', p)
  {
  }

  lemma UnhealthyIsQuiet(s: State, s': State, p: NodeDesc)
    requires LeavesUnhealthy(s, s', p)
    ensures Quiet(s, s', p)
  {
    var pr := s.procs[p];
    hide Quiet;
    if pr.me.group.None? {
      MoveIsQuiet(s, s', p, Done(Stopped));
    } else {
      RestIsQuiet(s, s.(unhealthy := s.unhealthy[pr.round := UnhealthyIn(s, pr.round) + {pr.me.group.value}]), s', p,
                  Done(Stopped));
    }
  }

  lemma RankKeyIsQuiet(s: State, s': State, p: NodeDesc)
    requires RankChecks(s, s', p) || RankGets(s, s', p)
    ensures Quiet(s, s', p)
  {
  }

  lemma SlotKeyIsQuiet(s: State, s': State, p: NodeDesc)
    requires SlotChecks(s, s', p) || SlotGets(s, s', p)
    ensures Quiet(s, s', p)
  {
  }

  lemma JoinStepsAreQuiet(c: Config, s: State, s': State, p: NodeDesc, a: Action)
    requires Inv(c, s) && Step(c, s, s', p, a) && IsJoinAction(a) && !a.ASpawn? && !a.ASlotSet?
    ensures Quiet(s, s', p)
  {
    hide Inv, Quiet, Call, ScanChecks, ScanGets, OpenGets, RankSets, Stop, OpenShutdownReads, OpenChecks, Joins,
         LeavesUnhealthy, RankChecks, RankGets, SlotChecks, SlotGets;
    match a
    case ACall => CallIsQuiet(c, s, s', p);
    case AScanCheck => ScanIsQuiet(s, s', p);
    case AScanGet => ScanIsQuiet(s, s', p);
    case AOpenGet => OpenGetIsQuiet(s, s', p);
    case ARankSet => RankSetIsQuiet(c, s, s', p);
    case AJoin => JoinIsQuiet(s, s', p);
    case AUnhealthy => UnhealthyIsQuiet(s, s', p);
    case ARankCheck => RankKeyIsQuiet(s, s', p);
    case ARankGet => RankKeyIsQuiet(s, s', p);
    case ASlotCheck => SlotKeyIsQuiet(s, s', p);
    case ASlotGet => SlotKeyIsQuiet(s, s', p);
    case _ => OpenStepsAreQuiet(s, s', p);
  }

  lemma WaitIsQuiet(s: State, s': State, p: NodeDesc)
    requires WaitShutdownReads(s, s', p) || WaitGets(s, s', p)
    ensures Quiet(s, s', p)
  {
    hide Quiet;
    if WaitShutdownReads(s, s', p) {
      MoveIsQuiet(s, s', p, if s.shutdown.Recorded? then Done(ShutDown) else WaitGet);
    } else {
      MoveIsQuiet(s, s', p, if s.done[s.procs[p].round].Closed? then RankPresent else WaitShutdown);
    }
  }

  lemma RankReadIsQuiet(c: Config, s: State, s': State, p: NodeDesc)
    requires RankPresents(s, s', p) || RankAbsents(s, s', p) || RankReads(c, s, s', p)
    ensures Quiet(s, s', p)
  {
    hide Quiet;
    var pr := s.procs[p];
    if RankPresents(s, s', p) {
      MoveIsQuiet(s, s', p, if pr.slot in s.ranks then RankRead else AbsentRank);
    } else if RankAbsents(s, s', p) || s' == Goto(s, p, OpenShutdown) {
      MoveIsQuiet(s, s', p, OpenShutdown);
    } else {
      var e := s.ranks[pr.slot];
      MoveIsQuiet(s, s', p, Active(e.rank, e.total));
    }
  }

  lemma RestartIsQuiet(s: State, s': State, p: NodeDesc)
    requires Restarts(s, s', p)
    ensures Quiet(s, s', p)
  {
    hide Quiet;
    RestIsQuiet(s, OpenNext(s, s.procs[p].round), s', p, OpenShutdown);
  }

  lemma PollIsQuiet(s: State, s': State, p: NodeDesc)
    requires Polls(s, s', p) || ReadsReason(s, s', p)
    ensures Quiet(s, s', p)
  {
    hide IsNoRestart;
  }

  lemma ReasonStepsAreQuiet(c: Config, s: State, s': State, p: NodeDesc, a: Action)
    requires Step(c, s, s', p, a) && (a.ASignal? || a.AShutdown? || a.AHostFail?)
    ensures Quiet(s, s', p)
  {
    hide RecordReason;
  }

  lemma SignalOpenIsQuiet(s: State, s': State, p: NodeDesc)
    requires SignalOpens(s, s', p)
    ensures Quiet(s, s', p)
  {
  }

  lemma HostStepsAreQuiet(c: Config, s: State, s': State, p: NodeDesc, a: Action)
    requires Step(c, s, s', p, a) && (a.AHostCheck? || a.AHostRecount? || a.AHostClose?)
    ensures Quiet(s, s', p)
  {
  }

  lemma QuietHostStepSources(c: Config, s: State, s': State, p: NodeDesc, a: Action)
    requires Sources(s) && Step(c, s, s', p, a)
    requires a.AHostShutdown? || a.AHostFail? || a.AHostCheck? || a.AHostRecount? || a.AHostWrite? || a.AHostClose?
    ensures Sources(s') && OnlyMoves(s.procs, s'.procs, p)
  {
    hide SameMe, OnlyMoves, Sources, Quiet, HostShutdownReads, HostWrites;
    if a.AHostShutdown? {
      HostShutdownIsQuiet(s, s', p);
    } else if a.AHostWrite? {
      HostWriteIsQuiet(s, s', p);
    } else {
      hide Step;
      if a.AHostFail? { ReasonStepsAreQuiet(c, s, s', p, a); } else { HostStepsAreQuiet(c, s, s', p, a); }
    }
    QuietKeeps(s, s', p);
  }

  lemma HostStepSources(c: Config, s: State, s': State, p: NodeDesc, a: Action)
    requires Inv(c, s) && Sources(s) && Step(c, s, s', p, a) && IsHostAction(a)
    ensures Sources(s') && OnlyMoves(s.procs, s'.procs, p)
  {
    hide SameMe, OnlyMoves, Inv, Sources, HostCounts, HostFetches, HostDecides;
    match a
    case AHostCount => CountSources(c, s, s', p);
    case AHostFetch => FetchSources(s, s', p);
    case AHostDecide => DecideSources(c, s, s', p);
    case _ =>
      hide Step;
      QuietHostStepSources(c, s, s', p, a);
  }

  lemma QuietLateSteps(c: Config, s: State, s': State, p: NodeDesc, a: Action)
    requires Step(c, s, s', p, a) && !IsHostAction(a) && !IsJoinAction(a)
    requires !a.ASignal? && !a.AShutdown? && !a.ASignalOpen?
    ensures Quiet(s, s', p)
  {
    hide Quiet, Restarts, Polls, ReadsReason, WaitShutdownReads, WaitGets, RankPresents, RankAbsents, RankReads;
    match a
    case ARestart => RestartIsQuiet(s, s', p);
    case APoll => PollIsQuiet(s, s', p);
    case AReadReason => PollIsQuiet(s, s', p);
    case AWaitShutdown => WaitIsQuiet(s, s', p);
    case AWaitGet => WaitIsQuiet(s, s', p);
    case _ => RankReadIsQuiet(c, s, s', p);
  }

  lemma LateStepSources(c: Config, s: State, s': State, p: NodeDesc, a: Action)
    requires Sources(s) && Step(c, s, s', p, a) && !IsHostAction(a) && !IsJoinAction(a)
    ensures Sources(s') && OnlyMoves(s.procs, s'.procs, p)
  {
    hide SameMe, OnlyMoves, Sources, Quiet, SignalOpens;
    if a.ASignalOpen? {
      SignalOpenIsQuiet(s, s', p);
    } else {
      hide Step;
      if a.ASignal? || a.AShutdown? {
        ReasonStepsAreQuiet(c, s, s', p, a);
      } else {
        QuietLateSteps(c, s, s', p, a);
      }
    }
    QuietKeeps(s, s', p);
  }

  /** Every step keeps the participants in store, snapshots and plans what their processes published. */
  lemma StepSources(c: Config, s: State, s': State, p: NodeDesc, a: Action)
    requires Inv(c, s) && Sources(s) && Step(c, s, s', p, a)
    ensures Sources(s') && OnlyMoves(s.procs, s'.procs, p)
  {
    hide SameMe, OnlyMoves, Inv, Sources, Quiet, Spawn, SlotSets;
    if a.ASpawn? {
      SpawnSources(c, s, s', p, a.me);
    } else if a.ASlotSet? {
      SlotSetSources(c, s, s', p);
    } else {
      hide Step;
      if IsJoinAction(a) {
        JoinStepsAreQuiet(c, s, s', p, a);
        QuietKeeps(s, s', p);
      } else if IsHostAction(a) {
        HostStepSources(c, s, s', p, a);
      } else {
        LateStepSources(c, s, s', p, a);
      }
    }
  }

  lemma NoSources(s: State)
    requires Init(s)
    ensures Sources(s)
  {
  }

  /** In every run, whatever the store, a host's snapshot or a plan holds about a node is what that node published. */
  lemma {:induction false} RunSources(c: Config, run: seq<State>, i: nat)
    requires Run(c, run) && i < |run|
    ensures Sources(run[i])
  {
    hide Inv, Step, Init, Sources, OnlyMoves;
    if i == 0 {
      NoSources(run[0]);
    } else {
      RunSources(c, run, i - 1);
      RunKeeps(c, run, i - 1);
      assert Next(c, run[i - 1], run[i - 1 + 1]);
      var p, a :| Step(c, run[i - 1], run[i], p, a);
      StepSources(c, run[i - 1], run[i], p, a);
    }
  }

  lemma NextSameMe(c: Config, run: seq<State>, i: nat)
    requires Run(c, run) && i < |run| - 1
    ensures SameMe(run[i].procs, run[i + 1].procs)
  {
    RunKeeps(c, run, i);
    RunSources(c, run, i);
    assert Next(c, run[i], run[i + 1]);
    hide Run, Inv, Step, Sources;
    var p, a :| Step(c, run[i], run[i + 1], p, a);
    StepSources(c, run[i], run[i + 1], p, a);
  }

  /** A process keeps the data it publishes for a whole run. */
  lemma {:induction false} RunSameMe(c: Config, run: seq<State>, i: nat, j: nat)
    requires Run(c, run) && i <= j < |run|
    ensures SameMe(run[i].procs, run[j].procs)
    decreases j - i
  {
    hide Run;
    if i < j {
      RunSameMe(c, run, i, j - 1);
      NextSameMe(c, run, j - 1);
    }
  }
}
