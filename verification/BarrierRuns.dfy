/** Every step of the barrier keeps the joint invariant, and moves the store forward only. */
module BarrierRuns {
  import opened Prelude
  import opened RankAssignment
  import opened RankTheorems
  import opened RankLoops
  import opened Barrier
  import opened BarrierInvariant
  import opened BarrierSteps
  import opened BarrierWrites
  import opened BarrierKeys
  import opened BarrierHost

  // ---------------------------------------------------------------- the invariant holds in every run

  predicate IsJoinAction(a: Action) {
    || a.ASpawn? || a.ACall? || a.AStop? || a.AScanCheck? || a.AScanGet? || a.AOpenShutdown? || a.AOpenCheck?
    || a.AOpenGet? || a.AJoin? || a.AUnhealthy? || a.ARankCheck? || a.ARankGet? || a.ARankSet? || a.ASlotCheck?
    || a.ASlotGet? || a.ASlotSet?
  }

  predicate IsHostAction(a: Action) {
    || a.AHostShutdown? || a.AHostFail? || a.AHostCheck? || a.AHostCount? || a.AHostFetch? || a.AHostRecount?
    || a.AHostDecide? || a.AHostWrite? || a.AHostClose?
  }

  lemma JoinActionKeeps(c: Config, s: State, s': State, p: NodeDesc, a: Action)
    requires Inv(c, s) && Step(c, s, s', p, a) && IsJoinAction(a)
    ensures Inv(c, s')
  {
    hide Inv, Spawn, Call, Stop, ScanChecks, ScanGets, OpenShutdownReads, OpenChecks, OpenGets, Joins, LeavesUnhealthy,
         RankChecks, RankGets, RankSets, SlotChecks, SlotGets, SlotSets;
    match a
    case ASpawn(me) => SpawnKeeps(c, s, s', p, me);
    case ACall => CallKeeps(c, s, s', p);
    case AStop => StopKeeps(c, s, s', p);
    case AScanCheck => ScanCheckKeeps(c, s, s', p);
    case AScanGet => ScanGetKeeps(c, s, s', p);
    case AOpenShutdown => OpenShutdownKeeps(c, s, s', p);
    case AOpenCheck => OpenCheckKeeps(c, s, s', p);
    case AOpenGet => OpenGetKeeps(c, s, s', p);
    case AJoin => JoinKeeps(c, s, s', p);
    case AUnhealthy => UnhealthyKeeps(c, s, s', p);
    case ARankCheck => RankCheckKeeps(c, s, s', p);
    case ARankGet => RankGetKeeps(c, s, s', p);
    case ARankSet => RankSetKeeps(c, s, s', p);
    case ASlotCheck => SlotCheckKeeps(c, s, s', p);
    case ASlotGet => SlotGetKeeps(c, s, s', p);
    case ASlotSet => SlotSetKeeps(c, s, s', p);
  }

  lemma HostActionKeeps(c: Config, s: State, s': State, p: NodeDesc, a: Action)
    requires Inv(c, s) && Step(c, s, s', p, a) && IsHostAction(a)
    ensures Inv(c, s')
  {
    hide Inv, Step;
    if a.AHostShutdown? || a.AHostFail? || a.AHostCheck? {
      OpeningActionKeeps(c, s, s', p, a);
    } else if a.AHostCount? || a.AHostFetch? || a.AHostRecount? {
      FetchActionKeeps(c, s, s', p, a);
    } else {
      CloseActionKeeps(c, s, s', p, a);
    }
  }

  lemma OpeningActionKeeps(c: Config, s: State, s': State, p: NodeDesc, a: Action)
    requires Inv(c, s) && Step(c, s, s', p, a) && (a.AHostShutdown? || a.AHostFail? || a.AHostCheck?)
    ensures Inv(c, s')
  {
    hide Inv, HostShutdownReads, HostFails, HostChecks;
    match a
    case AHostShutdown => HostShutdownKeeps(c, s, s', p);
    case AHostFail => HostFailKeeps(c, s, s', p);
    case AHostCheck => HostCheckKeeps(c, s, s', p);
  }

  lemma FetchActionKeeps(c: Config, s: State, s': State, p: NodeDesc, a: Action)
    requires Inv(c, s) && Step(c, s, s', p, a) && (a.AHostCount? || a.AHostFetch? || a.AHostRecount?)
    ensures Inv(c, s')
  {
    hide Inv, HostCounts, HostFetches, HostRecounts;
    match a
    case AHostCount => HostCountKeeps(c, s, s', p);
    case AHostFetch => HostFetchKeeps(c, s, s', p);
    case AHostRecount => HostRecountKeeps(c, s, s', p);
  }

  lemma CloseActionKeeps(c: Config, s: State, s': State, p: NodeDesc, a: Action)
    requires Inv(c, s) && Step(c, s, s', p, a) && (a.AHostDecide? || a.AHostWrite? || a.AHostClose?)
    ensures Inv(c, s')
  {
    hide Inv, HostDecides, HostWrites, HostCloses;
    match a
    case AHostDecide => HostDecideKeeps(c, s, s', p);
    case AHostWrite => HostWriteKeeps(c, s, s', p);
    case AHostClose => HostCloseKeeps(c, s, s', p);
  }

  /** No process is ever told that its rank key is absent. */
  lemma NeverAbsent(c: Config, s: State, p: NodeDesc)
    requires Inv(c, s) && p in s.procs
    ensures !s.procs[p].pc.AbsentRank?
  {
    hide Below, ClaimsOk, KeysOk, PlansOk, RoundsOk, JoinOk, WriteOk, HostOk;
    Own(c, s, p);
  }

  lemma LateActionKeeps(c: Config, s: State, s': State, p: NodeDesc, a: Action)
    requires Inv(c, s) && Step(c, s, s', p, a) && !IsJoinAction(a) && !IsHostAction(a)
    ensures Inv(c, s')
  {
    hide Inv, WaitShutdownReads, WaitGets, RankPresents, RankReads, Restarts, Polls, ReadsReason, Signals, SignalOpens,
         RecordsShutdown;
    match a
    case AWaitShutdown => WaitShutdownKeeps(c, s, s', p);
    case AWaitGet => WaitGetKeeps(c, s, s', p);
    case ARankPresent => RankPresentKeeps(c, s, s', p);
    case ARankAbsent => NeverAbsent(c, s, p);
    case ARankRead => RankReadKeeps(c, s, s', p);
    case ARestart => RestartKeeps(c, s, s', p);
    case APoll => PollKeeps(c, s, s', p);
    case AReadReason => ReadReasonKeeps(c, s, s', p);
    case ASignal(r) => SignalKeeps(c, s, s', p, r);
    case ASignalOpen => SignalOpenKeeps(c, s, s', p);
    case AShutdown(r) => ShutdownKeeps(c, s, s', p, r);
  }

  lemma StepKeeps(c: Config, s: State, s': State, p: NodeDesc, a: Action)
    requires Inv(c, s) && Step(c, s, s', p, a)
    ensures Inv(c, s')
  {
    hide Inv, Step, IsJoinAction, IsHostAction;
    if IsJoinAction(a) {
      JoinActionKeeps(c, s, s', p, a);
    } else if IsHostAction(a) {
      HostActionKeeps(c, s, s', p, a);
    } else {
      LateActionKeeps(c, s, s', p, a);
    }
  }

  /** The joint invariant holds in every state of every run. */
  lemma {:induction false} RunKeeps(c: Config, run: seq<State>, i: nat)
    requires Run(c, run) && i < |run|
    ensures Inv(c, run[i])
  {
    hide Inv, Step, Init;
    if i == 0 {
      InitEstablishesInv(c, run[0]);
    } else {
      RunKeeps(c, run, i - 1);
      assert Next(c, run[i - 1], run[i - 1 + 1]);
      var p, a :| Step(c, run[i - 1], run[i], p, a);
      StepKeeps(c, run[i - 1], run[i], p, a);
    }
  }

  // ---------------------------------------------------------------- what every step keeps

  /** Lifecycle of a round: 0 absent, 1 open, 2 closed. */
  function Phase(done: Rounds, r: nat): nat {
    if r !in done then 0 else if done[r].Open? then 1 else 2
  }

  ghost predicate RoundsAdvance(d: Rounds, d': Rounds) {
    forall r: nat :: Phase(d, r) <= Phase(d', r)
  }

  ghost predicate ReasonKept(x: Shutdown, x': Shutdown) {
    && (x.Recorded? ==> x' == x)
    && (x.Sentinel? ==> !x'.Missing?)
  }

  /** The round of a slot key never decreases, and a round's value is never replaced by another of that round. */
  ghost predicate SlotsAdvance(m: map<nat, SlotEntry>, m': map<nat, SlotEntry>) {
    forall k | k in m :: k in m' && (m[k].round < m'[k].round || m[k] == m'[k])
  }

  /** The round of a rank key never decreases, and within a round UNASSIGNED may only become a rank, once. */
  ghost predicate RanksAdvance(m: RankKeys, m': RankKeys) {
    forall k | k in m :: k in m' && (m[k].round < m'[k].round || m[k] == m'[k]
                                     || (m[k].round == m'[k].round && m[k].rank == UNASSIGNED != m'[k].rank))
  }

  /** A marked replacement group stays marked for its round. */
  ghost predicate MarksStay(m: map<nat, set<string>>, m': map<nat, set<string>>) {
    forall r | r in m :: r in m' && m[r] <= m'[r]
  }

  ghost predicate Advances(s: State, s': State) {
    && RoundsAdvance(s.done, s'.done) && ReasonKept(s.shutdown, s'.shutdown) && s.signalled <= s'.signalled
    && MarksStay(s.unhealthy, s'.unhealthy)
    && SlotsAdvance(s.slots, s'.slots) && RanksAdvance(s.ranks, s'.ranks) && PlansGrow(s.plans, s'.plans)
  }

  lemma AdvancesTrans(s: State, t: State, u: State)
    requires Advances(s, t) && Advances(t, u)
    ensures Advances(s, u)
  {
    forall r: nat ensures Phase(s.done, r) <= Phase(u.done, r) {
      assert Phase(s.done, r) <= Phase(t.done, r) <= Phase(u.done, r);
    }
  }

  lemma Still(s: State)
    ensures Advances(s, s)
  {
  }

  lemma RoundAdvances(d: Rounds, r: nat, l: Lifecycle)
    requires r !in d || l.Closed?
    ensures RoundsAdvance(d, d[r := l])
  {
  }

  lemma SpawnAdvances(c: Config, s: State, s': State, p: NodeDesc, me: Participant)
    requires Spawn(c, s, s', p, me)
    ensures Advances(s, s')
  {
    Still(s);
    if 0 !in s.done { RoundAdvances(s.done, 0, Open); }
    hide RoundsAdvance, SlotsAdvance, RanksAdvance, PlansGrow;
  }

  lemma RankKeyAdvances(m: RankKeys, k: nat, e: RankEntry)
    requires k in m ==> m[k].round < e.round || m[k] == e || (m[k].round == e.round && m[k].rank == UNASSIGNED != e.rank)
    ensures RanksAdvance(m, m[k := e])
  {
  }

  lemma MoveAdvances(s: State, s': State, p: NodeDesc, pc: Pc)
    requires p in s.procs && s' == Goto(s, p, pc)
    ensures Advances(s, s')
  {
    hide Advances;
    SameAdvances(s, s');
  }

  lemma RankWrittenAdvances(s: State, s': State, p: NodeDesc)
    requires p in s.procs
    requires var pr := s.procs[p];
             && (pr.slot in s.ranks ==> s.ranks[pr.slot].round < pr.round)
             && s' == Goto(s.(ranks := s.ranks[pr.slot := RankEntry(pr.round, UNASSIGNED, 0)],
                              claims := s.claims[(pr.round, pr.slot) := Claim(p, Stage.RankWritten)]), p, SlotCheck)
    ensures Advances(s, s')
  {
    hide RoundsAdvance, SlotsAdvance, RanksAdvance, PlansGrow;
    Still(s);
    RankKeyAdvances(s.ranks, s.procs[p].slot, RankEntry(s.procs[p].round, UNASSIGNED, 0));
  }

  lemma RankSetAdvances(c: Config, s: State, s': State, p: NodeDesc)
    requires Inv(c, s) && RankSets(s, s', p)
    ensures Advances(s, s')
  {
    RankSetCases(c, s, s', p);
    hide Inv, RankSets, Advances;
    var pr := s.procs[p];
    if s' == Goto(s, p, OpenShutdown) {
      MoveAdvances(s, s', p, OpenShutdown);
    } else if pr.slot in s.ranks && s' == Goto(s, p, Done(CasConflict(s.ranks[pr.slot].round))) {
      MoveAdvances(s, s', p, Done(CasConflict(s.ranks[pr.slot].round)));
    } else {
      RankWrittenAdvances(s, s', p);
    }
  }

  lemma SlotKeyAdvances(m: map<nat, SlotEntry>, k: nat, e: SlotEntry)
    requires k in m ==> m[k].round < e.round
    ensures SlotsAdvance(m, m[k := e])
  {
  }

  lemma SlotWrittenAdvances(s: State, s': State, p: NodeDesc, pc: Pc)
    requires p in s.procs
    requires var pr := s.procs[p];
             && (pr.slot in s.slots ==> s.slots[pr.slot].round < pr.round)
             && s' == Goto(s.(slots := s.slots[pr.slot := SlotEntry(pr.round, pr.me)],
                              claims := s.claims[(pr.round, pr.slot) := Claim(p, Published)]), p, pc)
    ensures Advances(s, s')
  {
    hide RoundsAdvance, SlotsAdvance, RanksAdvance, PlansGrow;
    Still(s);
    SlotKeyAdvances(s.slots, s.procs[p].slot, SlotEntry(s.procs[p].round, s.procs[p].me));
  }

  lemma SlotSetAdvances(c: Config, s: State, s': State, p: NodeDesc)
    requires Inv(c, s) && SlotSets(c, s, s', p)
    ensures Advances(s, s')
  {
    SlotSetCases(c, s, s', p);
    hide Inv, SlotSets, Advances;
    var pr := s.procs[p];
    if s' == Goto(s, p, OpenShutdown) {
      MoveAdvances(s, s', p, OpenShutdown);
    } else if pr.slot in s.slots && s' == Goto(s, p, Done(CasConflict(s.slots[pr.slot].round))) {
      MoveAdvances(s, s', p, Done(CasConflict(s.slots[pr.slot].round)));
    } else {
      SlotWrittenAdvances(s, s', p, if p == c.host then HostShutdown else WaitShutdown);
    }
  }

  lemma WroteAdvances(c: Config, s: State, s': State, p: NodeDesc, k: nat)
    requires Inv(c, s) && Wrote(s, s', p, k)
    ensures Advances(s, s')
  {
    hide Inv, RoundsAdvance, SlotsAdvance, RanksAdvance, PlansGrow;
    Still(s);
    WriteFacts(c, s, s', p, k);
    if s.ranks[k].rank != UNASSIGNED { RankMeaning(c, s, k); }
    RankKeyAdvances(s.ranks, k, PlannedEntry(s.plans[s.procs[p].round], s.procs[p].round, k));
  }

  /** The host only turns UNASSIGNED into the planned rank, or writes the same rank again. */
  lemma HostWriteAdvances(c: Config, s: State, s': State, p: NodeDesc)
    requires Inv(c, s) && HostWrites(s, s', p)
    ensures Advances(s, s')
  {
    hide Inv, HostWrites, Wrote, Writes, Advances;
    WriteCases(s, s', p);
    var n := s.procs[p].pc.written;
    if Wrote(s, s', p, n + 1) {
      WroteAdvances(c, s, s', p, n + 1);
    } else if s' == Goto(s, p, HostClose) {
      MoveAdvances(s, s', p, HostClose);
    } else {
      MoveAdvances(s, s', p, HostWrite(n + 1));
    }
  }

  /** Only an open round is closed. */
  lemma CloseFindsOpen(c: Config, s: State, p: NodeDesc)
    requires Inv(c, s) && At(s, p, HostClose)
    ensures p == c.host && IsOpen(s.done, s.procs[p].round)
  {
    hide Below, ClaimsOk, KeysOk, PlansOk, RoundsOk, JoinOk, WriteOk, WaitOk, SnapshotOk, DeliveredUpTo, Holds;
    Own(c, s, p);
  }

  lemma HostCloseAdvances(s: State, s': State, p: NodeDesc)
    requires HostCloses(s, s', p)
    ensures Advances(s, s')
  {
    Still(s);
    RoundAdvances(s.done, s.procs[p].round, Closed);
    hide RoundsAdvance, SlotsAdvance, RanksAdvance, PlansGrow;
  }

  /** A decision records a plan only for a round without one. */
  lemma PlannedAdvances(c: Config, s: State, s': State, p: NodeDesc, plan: Plan)
    requires Inv(c, s) && Planned(c, s, s', p, plan)
    ensures Advances(s, s')
  {
    Still(s);
    hide Inv, Computed, RoundsAdvance, SlotsAdvance, RanksAdvance, PlansGrow;
    PlanIsNew(c, s, s', p, plan);
    PlanAdvances(s.plans, s.procs[p].round, plan);
  }

  lemma HostDecideAdvances(c: Config, s: State, s': State, p: NodeDesc)
    requires Inv(c, s) && HostDecides(c, s, s', p)
    ensures Advances(s, s')
  {
    hide Inv, HostMayGo, Verdicts, Computed, Advances;
    var v := Verdicts(c, s, s.procs[p]);
    if pc :| HostMayGo(v, pc) && s' == Goto(s, p, pc) {
      MoveAdvances(s, s', p, pc);
    } else {
      SettledIsComputed(c, s, p);
      PlannedAdvances(c, s, s', p, v.plan);
    }
  }

  lemma PlanAdvances(m: map<nat, Plan>, r: nat, plan: Plan)
    requires r !in m
    ensures PlansGrow(m, m[r := plan])
  {
  }

  lemma ReasonAdvances(s: State, t: State, s': State, r: Reason)
    requires t == s.(shutdown := RecordReason(s.shutdown, r)) && s' == t.(procs := s'.procs)
    ensures Advances(s, s')
  {
    Still(s);
    hide RoundsAdvance, SlotsAdvance, RanksAdvance, PlansGrow;
  }

  lemma ShutdownAdvances(s: State, s': State, p: NodeDesc, r: Reason)
    requires RecordsShutdown(s, s', p, r) || Signals(s, s', p, r) || (r == Failure && HostFails(s, s', p))
    ensures Advances(s, s')
  {
    hide Advances, RecordReason;
    ReasonAdvances(s, s.(shutdown := RecordReason(s.shutdown, r)), s', r);
  }

  lemma OpenAdvances(s: State, s': State, r: nat)
    requires s' == OpenNext(s, r).(procs := s'.procs, signalled := s'.signalled) && s.signalled <= s'.signalled
    ensures Advances(s, s')
  {
    Still(s);
    if r + 1 !in s.done { RoundAdvances(s.done, r + 1, Open); }
    hide RoundsAdvance, SlotsAdvance, RanksAdvance, PlansGrow;
  }

  lemma NextOpenAdvances(s: State, s': State, p: NodeDesc)
    requires Restarts(s, s', p) || SignalOpens(s, s', p)
    ensures Advances(s, s')
  {
    hide Advances;
    OpenAdvances(s, s', s.procs[p].round);
  }

  /** The actions that write the keys and histories tracked by Advances. */
  predicate IsWrite(a: Action) {
    || a.ASpawn? || a.ARankSet? || a.ASlotSet? || a.AHostFail? || a.AHostDecide? || a.AHostWrite? || a.AHostClose?
    || a.ARestart? || a.ASignal? || a.ASignalOpen? || a.AShutdown?
  }

  /** The store as Advances sees it is untouched. */
  ghost predicate Untouched(s: State, s': State) {
    && s'.done == s.done && s'.shutdown == s.shutdown && s'.signalled == s.signalled && s'.slots == s.slots
    && s'.ranks == s.ranks && s'.plans == s.plans && MarksStay(s.unhealthy, s'.unhealthy)
  }

  lemma MoveTouchesNothing(s: State, s': State, p: NodeDesc, pc: Pc)
    requires p in s.procs && s' == Goto(s, p, pc)
    ensures Untouched(s, s')
  {
  }

  lemma ScanTouchesNothing(s: State, s': State, p: NodeDesc)
    requires ScanChecks(s, s', p) || ScanGets(s, s', p)
    ensures Untouched(s, s')
  {
    hide Untouched;
    var pc := s.procs[p].pc;
    if pc.ScanCheck? && pc.at in s.done {
      MoveTouchesNothing(s, s', p, ScanGet(pc.at, pc.joining));
    } else if pc.ScanGet? && s.done[pc.at].Closed? {
      MoveTouchesNothing(s, s', p, ScanCheck(pc.at + 1, pc.joining));
    } else {
      assert s' == ScanEnd(s, p, pc.at, pc.joining);
      assert Untouched(s, ScanEnd(s, p, pc.at, pc.joining)) by { ScanEndTouchesNothing(s, p, pc.at, pc.joining); }
    }
  }

  lemma ScanEndTouchesNothing(s: State, p: NodeDesc, at: nat, joining: bool)
    requires p in s.procs
    ensures Untouched(s, ScanEnd(s, p, at, joining))
  {
  }

  lemma OpenGetTouchesNothing(s: State, s': State, p: NodeDesc)
    requires OpenGets(s, s', p)
    ensures Untouched(s, s')
  {
    hide Untouched;
    var pr := s.procs[p];
    if s.done[pr.round].Open? {
      MoveTouchesNothing(s, s', p, if pr.joins then Join else HostShutdown);
    } else if s' == Goto(s, p, OpenShutdown) {
      MoveTouchesNothing(s, s', p, OpenShutdown);
    } else {
      MoveTouchesNothing(s, s', p, ScanCheck(pr.round, true));
    }
  }

  lemma HostShutdownTouchesNothing(s: State, s': State, p: NodeDesc)
    requires HostShutdownReads(s, s', p)
    ensures Untouched(s, s')
  {
    hide Untouched;
    if s.shutdown.Recorded? {
      MoveTouchesNothing(s, s', p, Done(ShutDown));
    } else if s' == Goto(s, p, HostCheck) {
      MoveTouchesNothing(s, s', p, HostCheck);
    } else {
      MoveTouchesNothing(s, s', p, HostFail);
    }
  }

  lemma MarkAdvances(m: map<nat, set<string>>, r: nat, g: string)
    ensures MarksStay(m, m[r := (if r in m then m[r] else {}) + {g}])
  {
  }

  lemma UnhealthyTouchesNothing(s: State, s': State, p: NodeDesc)
    requires LeavesUnhealthy(s, s', p)
    ensures Untouched(s, s')
  {
    var pr := s.procs[p];
    if pr.me.group.None? {
      MoveTouchesNothing(s, s', p, Done(Stopped));
    } else {
      MarkAdvances(s.unhealthy, pr.round, pr.me.group.value);
      hide MarksStay;
    }
  }

  lemma CallTouchesNothing(c: Config, s: State, s': State, p: NodeDesc, a: Action)
    requires Step(c, s, s', p, a) && (a.ACall? || a.AStop? || a.AOpenShutdown? || a.AOpenCheck?)
    ensures Untouched(s, s')
  {
  }

  lemma KeyReadTouchesNothing(c: Config, s: State, s': State, p: NodeDesc, a: Action)
    requires Step(c, s, s', p, a)
    requires a.AJoin? || a.ARankCheck? || a.ARankGet? || a.ASlotCheck? || a.ASlotGet?
    ensures Untouched(s, s')
  {
  }

  lemma JoinReadsTouchNothing(c: Config, s: State, s': State, p: NodeDesc, a: Action)
    requires Step(c, s, s', p, a)
    requires a.ACall? || a.AStop? || a.AOpenShutdown? || a.AOpenCheck? || a.AJoin? || a.ARankCheck? || a.ARankGet?
             || a.ASlotCheck? || a.ASlotGet?
    ensures Untouched(s, s')
  {
    hide Untouched, Step;
    if a.ACall? || a.AStop? || a.AOpenShutdown? || a.AOpenCheck? {
      CallTouchesNothing(c, s, s', p, a);
    } else {
      KeyReadTouchesNothing(c, s, s', p, a);
    }
  }

  lemma FetchTouchesNothing(s: State, s': State, p: NodeDesc)
    requires HostFetches(s, s', p)
    ensures Untouched(s, s')
  {
    hide Untouched, FetchSlot;
    var pc := s.procs[p].pc;
    if pc.todo == {} {
      MoveTouchesNothing(s, s', p, HostRecount(pc.joined, pc.snapshot));
    } else {
      var i: nat :| FetchesAt(s, s', p, i);
      MoveTouchesNothing(s, s', p, HostFetch(pc.joined, pc.todo - {i},
                                             pc.snapshot[i := FetchSlot(s, s.procs[p].round, i + 1)]));
    }
  }

  lemma CountTouchesNothing(c: Config, s: State, s': State, p: NodeDesc)
    requires HostCounts(c, s, s', p)
    ensures Untouched(s, s')
  {
    hide Untouched, Indices, Unread;
    var joined := s.joinCount[s.procs[p].round];
    if s' == Goto(s, p, HostShutdown) {
      MoveTouchesNothing(s, s', p, HostShutdown);
    } else {
      MoveTouchesNothing(s, s', p, HostFetch(joined, Indices(joined), Unread(joined)));
    }
  }

  lemma HostReadsTouchNothing(c: Config, s: State, s': State, p: NodeDesc, a: Action)
    requires Step(c, s, s', p, a)
    requires a.AHostCheck? || a.AHostCount? || a.AHostFetch? || a.AHostRecount?
    ensures Untouched(s, s')
  {
    hide HostFetches, HostCounts;
    if a.AHostFetch? {
      hide Untouched;
      FetchTouchesNothing(s, s', p);
    } else if a.AHostCount? {
      hide Untouched;
      CountTouchesNothing(c, s, s', p);
    }
  }

  lemma LateReadsTouchNothing(c: Config, s: State, s': State, p: NodeDesc, a: Action)
    requires Step(c, s, s', p, a) && !IsWrite(a) && !IsHostAction(a) && !IsJoinAction(a)
    ensures Untouched(s, s')
  {
    hide IsNoRestart;
  }

  lemma SameAdvances(s: State, s': State)
    requires Untouched(s, s')
    ensures Advances(s, s')
  {
    Still(s);
    hide RoundsAdvance, SlotsAdvance, RanksAdvance, PlansGrow;
  }

  lemma ScanReadTouchesNothing(c: Config, s: State, s': State, p: NodeDesc, a: Action)
    requires Step(c, s, s', p, a) && (a.AScanCheck? || a.AScanGet? || a.AOpenGet? || a.AUnhealthy?)
    ensures Untouched(s, s')
  {
    hide Untouched, ScanChecks, ScanGets, OpenGets, LeavesUnhealthy;
    match a
    case AScanCheck => ScanTouchesNothing(s, s', p);
    case AScanGet => ScanTouchesNothing(s, s', p);
    case AOpenGet => OpenGetTouchesNothing(s, s', p);
    case AUnhealthy => UnhealthyTouchesNothing(s, s', p);
  }

  lemma JoinReadTouchesNothing(c: Config, s: State, s': State, p: NodeDesc, a: Action)
    requires Step(c, s, s', p, a) && !IsWrite(a) && IsJoinAction(a)
    ensures Untouched(s, s')
  {
    hide Untouched, Step;
    if a.AScanCheck? || a.AScanGet? || a.AOpenGet? || a.AUnhealthy? {
      ScanReadTouchesNothing(c, s, s', p, a);
    } else {
      JoinReadsTouchNothing(c, s, s', p, a);
    }
  }

  lemma ReadTouchesNothing(c: Config, s: State, s': State, p: NodeDesc, a: Action)
    requires Step(c, s, s', p, a) && !IsWrite(a)
    ensures Untouched(s, s')
  {
    hide Untouched, Step;
    if IsJoinAction(a) {
      JoinReadTouchesNothing(c, s, s', p, a);
    } else if a.AHostShutdown? {
      HostShutdownReadTouchesNothing(c, s, s', p);
    } else if IsHostAction(a) {
      HostReadsTouchNothing(c, s, s', p, a);
    } else {
      LateReadsTouchNothing(c, s, s', p, a);
    }
  }

  lemma HostShutdownReadTouchesNothing(c: Config, s: State, s': State, p: NodeDesc)
    requires Step(c, s, s', p, AHostShutdown)
    ensures Untouched(s, s')
  {
    hide Untouched, HostShutdownReads;
    HostShutdownTouchesNothing(s, s', p);
  }

  lemma StepAdvances(c: Config, s: State, s': State, p: NodeDesc, a: Action)
    requires Inv(c, s) && Step(c, s, s', p, a)
    ensures Advances(s, s')
  {
    hide Inv, Spawn, RankSets, SlotSets, HostFails, HostDecides, HostWrites, HostCloses, Restarts, Signals, SignalOpens,
         RecordsShutdown, Advances, Untouched, IsWrite;
    if !IsWrite(a) {
      ReadTouchesNothing(c, s, s', p, a);
      SameAdvances(s, s');
    } else {
      WriteAdvances(c, s, s', p, a);
    }
  }

  lemma KeyWriteAdvances(c: Config, s: State, s': State, p: NodeDesc, a: Action)
    requires Inv(c, s) && Step(c, s, s', p, a)
    requires a.ARankSet? || a.ASlotSet? || a.AHostDecide? || a.AHostWrite? || a.AHostClose?
    ensures Advances(s, s')
  {
    hide Inv, RankSets, SlotSets, HostDecides, HostWrites, HostCloses, Advances;
    match a
    case ARankSet => RankSetAdvances(c, s, s', p);
    case ASlotSet => SlotSetAdvances(c, s, s', p);
    case AHostDecide => HostDecideAdvances(c, s, s', p);
    case AHostWrite => HostWriteAdvances(c, s, s', p);
    case AHostClose => HostCloseAdvances(s, s', p);
  }

  lemma OpenerAdvances(c: Config, s: State, s': State, p: NodeDesc, a: Action)
    requires Step(c, s, s', p, a) && (a.ASpawn? || a.ARestart? || a.ASignalOpen?)
    ensures Advances(s, s')
  {
    hide Spawn, Restarts, SignalOpens, Advances;
    match a
    case ASpawn(me) => SpawnAdvances(c, s, s', p, me);
    case ARestart => NextOpenAdvances(s, s', p);
    case ASignalOpen => NextOpenAdvances(s, s', p);
  }

  lemma RecorderAdvances(c: Config, s: State, s': State, p: NodeDesc, a: Action)
    requires Step(c, s, s', p, a) && (a.AHostFail? || a.ASignal? || a.AShutdown?)
    ensures Advances(s, s')
  {
    hide HostFails, Signals, RecordsShutdown, Advances;
    match a
    case AHostFail => ShutdownAdvances(s, s', p, Failure);
    case ASignal(r) => ShutdownAdvances(s, s', p, r);
    case AShutdown(r) => ShutdownAdvances(s, s', p, r);
  }

  lemma WriteAdvances(c: Config, s: State, s': State, p: NodeDesc, a: Action)
    requires Inv(c, s) && Step(c, s, s', p, a) && IsWrite(a)
    ensures Advances(s, s')
  {
    hide Inv, Step, Advances;
    if a.ASpawn? || a.ARestart? || a.ASignalOpen? {
      OpenerAdvances(c, s, s', p, a);
    } else if a.AHostFail? || a.ASignal? || a.AShutdown? {
      RecorderAdvances(c, s, s', p, a);
    } else {
      KeyWriteAdvances(c, s, s', p, a);
    }
  }

  /** Everything a step keeps is kept from any state of a run to any later one. */
  lemma {:induction false} RunAdvances(c: Config, run: seq<State>, i: nat, j: nat)
    requires Run(c, run) && i <= j < |run|
    ensures Advances(run[i], run[j])
    decreases j - i
  {
    hide Inv, Step, Init, Advances;
    if i == j {
      Still(run[i]);
    } else {
      RunAdvances(c, run, i, j - 1);
      RunKeeps(c, run, j - 1);
      assert Next(c, run[j - 1], run[j - 1 + 1]);
      var p, a :| Step(c, run[j - 1], run[j], p, a);
      StepAdvances(c, run[j - 1], run[j], p, a);
      AdvancesTrans(run[i], run[j - 1], run[j]);
    }
  }

  // ---------------------------------------------------------------- the round lifecycle, step by step

  /** How one step may change the round_done keys. */
  ghost predicate DoneMoves(c: Config, s: State, s': State, p: NodeDesc, a: Action) {
    || s'.done == s.done
    || (exists r: nat :: r !in s.done && s'.done == s.done[r := Open])
    || (a.AHostClose? && p == c.host && p in s.procs && IsOpen(s.done, s.procs[p].round)
        && s'.done == s.done[s.procs[p].round := Closed])
  }

  lemma DecisionKeepsDone(c: Config, s: State, s': State, p: NodeDesc)
    requires HostDecides(c, s, s', p)
    ensures s'.done == s.done
  {
    hide Verdicts, HostMayGo;
    var v := Verdicts(c, s, s.procs[p]);
    if pc :| HostMayGo(v, pc) && s' == Goto(s, p, pc) {
      assert s'.done == s.done;
    } else {
      assert s' == Goto(s.(plans := s.plans[s.procs[p].round := v.plan]), p, HostWrite(0));
    }
  }

  lemma WroteKeepsDone(s: State, s': State, p: NodeDesc, k: nat)
    requires Wrote(s, s', p, k)
    ensures s'.done == s.done
  {
    hide PlannedEntry, Writes;
  }

  lemma RankWriteKeepsDone(s: State, s': State, p: NodeDesc)
    requires HostWrites(s, s', p)
    ensures s'.done == s.done
  {
    hide HostWrites, Wrote, Writes;
    WriteCases(s, s', p);
    var n := s.procs[p].pc.written;
    if Wrote(s, s', p, n + 1) { WroteKeepsDone(s, s', p, n + 1); }
  }

  lemma ReasonWritesKeepDone(c: Config, s: State, s': State, p: NodeDesc, a: Action)
    requires Step(c, s, s', p, a) && (a.AHostFail? || a.ASignal? || a.AShutdown?)
    ensures s'.done == s.done
  {
    hide RecordReason;
  }

  lemma KeyWritesKeepDone(c: Config, s: State, s': State, p: NodeDesc)
    requires Inv(c, s) && (RankSets(s, s', p) || SlotSets(c, s, s', p))
    ensures s'.done == s.done
  {
    hide Inv;
    if RankSets(s, s', p) {
      hide RankSets;
      RankSetCases(c, s, s', p);
    } else {
      hide RankSets, SlotSets;
      SlotSetCases(c, s, s', p);
    }
  }

  lemma OtherWritesKeepDone(c: Config, s: State, s': State, p: NodeDesc, a: Action)
    requires Inv(c, s) && Step(c, s, s', p, a) && IsWrite(a)
    requires !a.ASpawn? && !a.ARestart? && !a.ASignalOpen? && !a.AHostClose?
    ensures s'.done == s.done
  {
    hide Inv, RankSets, SlotSets, HostDecides, HostWrites, HostFails, Signals, RecordsShutdown;
    match a
    case ARankSet => KeyWritesKeepDone(c, s, s', p);
    case ASlotSet => KeyWritesKeepDone(c, s, s', p);
    case AHostDecide => DecisionKeepsDone(c, s, s', p);
    case AHostWrite => RankWriteKeepsDone(s, s', p);
    case _ =>
      hide Step;
      ReasonWritesKeepDone(c, s, s', p, a);
  }

  /** A round goes from absent to open to closed, one key per step, and only the store host closes rounds. */
  lemma StepMovesDone(c: Config, s: State, s': State, p: NodeDesc, a: Action)
    requires Inv(c, s) && Step(c, s, s', p, a)
    ensures DoneMoves(c, s, s', p, a)
  {
    hide Inv, HostCloses;
    if a.AHostClose? {
      CloseMovesDone(c, s, s', p);
    } else {
      hide Step;
      if a.ASpawn? || a.ARestart? || a.ASignalOpen? {
        OpenersMoveDone(c, s, s', p, a);
      } else if IsWrite(a) {
        OtherWritesKeepDone(c, s, s', p, a);
      } else {
        ReadTouchesNothing(c, s, s', p, a);
      }
    }
  }

  lemma CloseMovesDone(c: Config, s: State, s': State, p: NodeDesc)
    requires Inv(c, s) && HostCloses(s, s', p)
    ensures DoneMoves(c, s, s', p, AHostClose)
  {
    hide Inv;
    CloseFindsOpen(c, s, p);
  }

  lemma OpenersMoveDone(c: Config, s: State, s': State, p: NodeDesc, a: Action)
    requires Step(c, s, s', p, a) && (a.ASpawn? || a.ARestart? || a.ASignalOpen?)
    ensures DoneMoves(c, s, s', p, a)
  {
    var r := if a.ASpawn? then 0 else s.procs[p].round + 1;
    if r !in s.done {
      assert s'.done == s.done[r := Open];
    }
  }
}
