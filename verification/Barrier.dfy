/** The rendezvous barrier as a step system. Every process (launcher or control process) runs the protocol methods
    of `_RendezvousBarrierState`, one store operation per step, and any process may stop between two steps. */
module Barrier {
  import opened Prelude
  import opened RankAssignment
  import opened RankTheorems
  import opened RankLoops

  const UNASSIGNED: int := -1

  // ---------------------------------------------------------------- the store

  /** Value of round_done_N: "0" or "1". */
  datatype Lifecycle = Open | Closed

  datatype Reason = Graceful | Failure | AttributionStop | NoProgress

  /** The shutdown key: missing, the empty open-state sentinel, or a recorded reason. */
  datatype Shutdown = Missing | Sentinel | Recorded(reason: Reason)

  /** Values of the reused keys slot_S and slot_S_rank; both embed the round that wrote them. */
  datatype SlotEntry = SlotEntry(round: nat, who: Participant)
  datatype RankEntry = RankEntry(round: nat, rank: int, total: nat)

  /** TCPStore compare_set: the value kept and the value returned. An absent key takes the desired value only when
      the empty value was expected. */
  function CompareSet<E(==)>(current: Option<E>, expected: Option<E>, desired: E): (Option<E>, E) {
    if current == expected then (Some(desired), desired)
    else if current.Some? then (current, current.value)
    else (None, expected.value)
  }

  // ---------------------------------------------------------------- processes

  datatype Outcome =
    | Stopped                          // crash, signal, timeout, failed health check
    | ShutDown                         // saw the recorded shutdown
    | Signalled                        // broadcast a no-restart decision
    | NoRestart(reason: Reason)        // another launcher's no-restart decision
    | CasConflict(observed: nat)       // "Unexpected rendezvous CAS conflict"
    | SameRoundConflict                // "Unexpected same-round rendezvous write conflict"
    | AssignFailed(error: AssignError)

  /** Where a process is: the next store operation it performs, with the values it has read so far. */
  datatype Pc =
    | Idle                                                    // constructed, not inside a call
    | ScanCheck(at: nat, joining: bool)                       // _sync_from_per_round_state
    | ScanGet(at: nat, joining: bool)
    | OpenShutdown | OpenCheck | OpenGet                      // Step 0
    | Join                                                    // Step 1: claim a slot
    | RankCheck | RankGet | RankSet(rankSeen: Option<RankEntry>)
    | SlotCheck | SlotGet | SlotSet(slotSeen: Option<SlotEntry>)
    | HostShutdown | HostFail | HostCheck | HostCount         // Step 2
    | HostFetch(joined: nat, todo: set<nat>, snapshot: seq<Option<Participant>>)
    | HostRecount(joined: nat, snapshot: seq<Option<Participant>>)
    | HostGroups(snapshot: seq<Option<Participant>>)
    | HostWrite(written: nat)
    | HostClose
    | WaitShutdown | WaitGet | RankPresent | AbsentRank | RankRead   // Step 3
    | Active(rank: int, total: nat)                           // perform_rendezvous returned
    | SawNext(rank: int, total: nat)                          // is_next_round_open returned True
    | SignalOpen                                              // signal_no_restart, after set_shutdown
    | Done(outcome: Outcome)

  /** One `_RendezvousBarrierState`: its participant data, `_round`, `_slot`, and whether it is inside
      perform_rendezvous (as opposed to close_current_round_as_host). */
  datatype Proc = Proc(me: Participant, round: nat, slot: nat, joins: bool, pc: Pc)

  datatype Config = Config(minNodes: nat, segment: Option<pos>, groupSize: Option<nat>, host: NodeDesc,
                           manyPerAddr: bool)

  // ---------------------------------------------------------------- history

  /** How far the claimer of a slot got: rank key written, then slot key written. */
  datatype Stage = Claimed | RankWritten | Published
  datatype Claim = Claim(node: NodeDesc, stage: Stage)

  /** The host's decision for one round. */
  datatype Plan = Plan(snapshot: seq<Option<Participant>>, active: seq<Participant>, standby: seq<Participant>,
                       ranks: map<NodeDesc, nat>)

  datatype State = State(
    joinCount: map<nat, nat>,
    done: map<nat, Lifecycle>,
    slots: map<nat, SlotEntry>,
    ranks: map<nat, RankEntry>,
    shutdown: Shutdown,
    unhealthy: map<nat, set<string>>,
    procs: map<NodeDesc, Proc>,
    // history variables: read by no step
    claims: map<(nat, nat), Claim>,
    plans: map<nat, Plan>,
    signalled: set<nat>)

  ghost predicate Init(s: State) {
    s == State(map[], map[], map[], map[], Missing, map[], map[], map[], map[], {})
  }

  function Goto(s: State, p: NodeDesc, pc: Pc): State
    requires p in s.procs
  {
    s.(procs := s.procs[p := s.procs[p].(pc := pc)])
  }

  ghost predicate At(s: State, p: NodeDesc, pc: Pc) {
    p in s.procs && s.procs[p].pc == pc
  }

  // ---------------------------------------------------------------- construction and calls

  /** `__init__`; the two check-then-set initialisations are one step. */
  ghost predicate Spawn(c: Config, s: State, s': State, p: NodeDesc, me: Participant) {
    && p !in s.procs && me.node == p
    && s' == s.(procs := s.procs[p := Proc(me, 0, 0, true, Idle)],
                done := if 0 in s.done then s.done else s.done[0 := Open],
                shutdown := if p == c.host && s.shutdown == Missing then Sentinel else s.shutdown)
  }

  ghost predicate Call(c: Config, s: State, s': State, p: NodeDesc) {
    && At(s, p, Idle)
    && var pr := s.procs[p];
       || s' == Goto(s, p, ScanCheck(pr.round, false))
       || s' == s.(procs := s.procs[p := pr.(joins := true, pc := OpenShutdown)])
       || (p == c.host && s' == s.(procs := s.procs[p := pr.(joins := false, slot := 0, pc := OpenShutdown)]))
  }

  ghost predicate Stop(s: State, s': State, p: NodeDesc) {
    p in s.procs && s' == Goto(s, p, Done(Stopped))
  }

  // ---------------------------------------------------------------- scanning rounds

  function ScanEnd(s: State, p: NodeDesc, at: nat, joining: bool): State
    requires p in s.procs
  {
    s.(procs := s.procs[p := s.procs[p].(round := at, pc := if joining then OpenShutdown else Idle)])
  }

  ghost predicate ScanChecks(s: State, s': State, p: NodeDesc) {
    && p in s.procs && s.procs[p].pc.ScanCheck?
    && var pc := s.procs[p].pc;
       s' == if pc.at in s.done then Goto(s, p, ScanGet(pc.at, pc.joining)) else ScanEnd(s, p, pc.at, pc.joining)
  }

  ghost predicate ScanGets(s: State, s': State, p: NodeDesc) {
    && p in s.procs && s.procs[p].pc.ScanGet? && s.procs[p].pc.at in s.done
    && var pc := s.procs[p].pc;
       s' == if s.done[pc.at].Closed? then Goto(s, p, ScanCheck(pc.at + 1, pc.joining))
             else ScanEnd(s, p, pc.at, pc.joining)
  }

  // ---------------------------------------------------------------- Step 0

  ghost predicate OpenShutdownReads(s: State, s': State, p: NodeDesc) {
    && At(s, p, OpenShutdown)
    && s' == Goto(s, p, if s.shutdown.Recorded? then Done(ShutDown) else OpenCheck)
  }

  ghost predicate OpenChecks(s: State, s': State, p: NodeDesc) {
    && At(s, p, OpenCheck)
    && s' == Goto(s, p, if s.procs[p].round in s.done then OpenGet else OpenShutdown)
  }

  /** A closed round is waited on, or, when the rate limit allows, scanned past. */
  ghost predicate OpenGets(s: State, s': State, p: NodeDesc) {
    && At(s, p, OpenGet) && s.procs[p].round in s.done
    && var pr := s.procs[p];
       if s.done[pr.round].Open? then s' == Goto(s, p, if pr.joins then Join else HostShutdown)
       else s' == Goto(s, p, OpenShutdown) || s' == Goto(s, p, ScanCheck(pr.round, true))
  }

  // ---------------------------------------------------------------- Step 1

  ghost predicate Joins(s: State, s': State, p: NodeDesc) {
    && At(s, p, Join)
    && var pr := s.procs[p];
       var slot := (if pr.round in s.joinCount then s.joinCount[pr.round] else 0) + 1;
       s' == s.(joinCount := s.joinCount[pr.round := slot],
                claims := s.claims[(pr.round, slot) := Claim(p, Claimed)],
                procs := s.procs[p := pr.(slot := slot, pc := RankCheck)])
  }

  /** The health hook failed: the node marks its replacement group and leaves. */
  ghost predicate LeavesUnhealthy(s: State, s': State, p: NodeDesc) {
    && At(s, p, Join)
    && var pr := s.procs[p];
       var groups := if pr.round in s.unhealthy then s.unhealthy[pr.round] else {};
       s' == Goto(if pr.me.group.None? then s
                  else s.(unhealthy := s.unhealthy[pr.round := groups + {pr.me.group.value}]), p, Done(Stopped))
  }

  ghost predicate RankChecks(s: State, s': State, p: NodeDesc) {
    && At(s, p, RankCheck)
    && s' == Goto(s, p, if s.procs[p].slot in s.ranks then RankGet else RankSet(None))
  }

  ghost predicate RankGets(s: State, s': State, p: NodeDesc) {
    && At(s, p, RankGet) && s.procs[p].slot in s.ranks
    && var pr := s.procs[p];
       var seen := s.ranks[pr.slot];
       s' == Goto(s, p, if seen.round > pr.round then OpenShutdown
                        else if seen.round == pr.round && seen != RankEntry(pr.round, UNASSIGNED, 0)
                          then Done(SameRoundConflict)
                        else RankSet(Some(seen)))
  }

  ghost predicate RankSets(s: State, s': State, p: NodeDesc) {
    && p in s.procs && s.procs[p].pc.RankSet?
    && var pr := s.procs[p];
       var desired := RankEntry(pr.round, UNASSIGNED, 0);
       var (kept, got) := CompareSet(Lookup(s.ranks, pr.slot), pr.pc.rankSeen, desired);
       var wrote := if kept.Some? then s.(ranks := s.ranks[pr.slot := kept.value]) else s;
       s' == if got == desired
             then Goto(wrote.(claims := s.claims[(pr.round, pr.slot) := Claim(p, RankWritten)]), p, SlotCheck)
             else Goto(wrote, p, if got.round > pr.round then OpenShutdown else Done(CasConflict(got.round)))
  }

  ghost predicate SlotChecks(s: State, s': State, p: NodeDesc) {
    && At(s, p, SlotCheck)
    && s' == Goto(s, p, if s.procs[p].slot in s.slots then SlotGet else SlotSet(None))
  }

  ghost predicate SlotGets(s: State, s': State, p: NodeDesc) {
    && At(s, p, SlotGet) && s.procs[p].slot in s.slots
    && var pr := s.procs[p];
       var seen := s.slots[pr.slot];
       s' == Goto(s, p, if seen.round > pr.round then OpenShutdown
                        else if seen.round == pr.round && seen != SlotEntry(pr.round, pr.me)
                          then Done(SameRoundConflict)
                        else SlotSet(Some(seen)))
  }

  ghost predicate SlotSets(c: Config, s: State, s': State, p: NodeDesc) {
    && p in s.procs && s.procs[p].pc.SlotSet?
    && var pr := s.procs[p];
       var desired := SlotEntry(pr.round, pr.me);
       var (kept, got) := CompareSet(Lookup(s.slots, pr.slot), pr.pc.slotSeen, desired);
       var wrote := if kept.Some? then s.(slots := s.slots[pr.slot := kept.value]) else s;
       s' == if got == desired
             then Goto(wrote.(claims := s.claims[(pr.round, pr.slot) := Claim(p, Published)]), p,
                       if p == c.host then HostShutdown else WaitShutdown)
             else Goto(wrote, p, if got.round > pr.round then OpenShutdown else Done(CasConflict(got.round)))
  }

  // ---------------------------------------------------------------- Step 2, the store host

  /** Loop head: leave on shutdown, give up when too many nodes are unhealthy, or go on. */
  ghost predicate HostShutdownReads(s: State, s': State, p: NodeDesc) {
    && At(s, p, HostShutdown)
    && if s.shutdown.Recorded? then s' == Goto(s, p, Done(ShutDown))
       else s' == Goto(s, p, HostCheck) || s' == Goto(s, p, HostFail)
  }

  function RecordReason(sh: Shutdown, r: Reason): Shutdown {
    if sh.Recorded? then sh else Recorded(r)
  }

  ghost predicate HostFails(s: State, s': State, p: NodeDesc) {
    && At(s, p, HostFail)
    && s' == Goto(s.(shutdown := RecordReason(s.shutdown, Failure)), p, HostShutdown)
  }

  ghost predicate HostChecks(s: State, s': State, p: NodeDesc) {
    && At(s, p, HostCheck)
    && s' == Goto(s, p, if s.procs[p].round in s.joinCount then HostCount else HostShutdown)
  }

  function Unread(n: nat): seq<Option<Participant>> {
    if n == 0 then [] else Unread(n - 1) + [None]
  }

  function Indices(n: nat): (r: set<nat>)
    ensures forall i: nat :: i in r <==> i < n
  {
    if n == 0 then {} else Indices(n - 1) + {n - 1}
  }

  /** Too few joiners, or too early to look again: poll. */
  ghost predicate HostCounts(c: Config, s: State, s': State, p: NodeDesc) {
    && At(s, p, HostCount) && s.procs[p].round in s.joinCount
    && var joined := s.joinCount[s.procs[p].round];
       || s' == Goto(s, p, HostShutdown)
       || (joined >= c.minNodes && s' == Goto(s, p, HostFetch(joined, Indices(joined), Unread(joined))))
  }

  /** One slot of get_all_participants: missing and wrong-round values read as None. */
  function FetchSlot(s: State, round: nat, slot: nat): Option<Participant> {
    if slot in s.slots && s.slots[slot].round == round then Some(s.slots[slot].who) else None
  }

  /** The slots are read one per step, in whatever order the fast path or the hole search takes. */
  ghost predicate HostFetches(s: State, s': State, p: NodeDesc) {
    && p in s.procs && s.procs[p].pc.HostFetch?
    && var pc := s.procs[p].pc;
       if pc.todo == {} then s' == Goto(s, p, HostRecount(pc.joined, pc.snapshot))
       else exists i :: FetchesAt(s, s', p, i)
  }

  ghost predicate FetchesAt(s: State, s': State, p: NodeDesc, i: nat)
    requires p in s.procs && s.procs[p].pc.HostFetch?
  {
    var pc := s.procs[p].pc;
    && i in pc.todo && i < |pc.snapshot|
    && s' == Goto(s, p, HostFetch(pc.joined, pc.todo - {i}, pc.snapshot[i := FetchSlot(s, s.procs[p].round, i + 1)]))
  }

  ghost predicate HostRecounts(s: State, s': State, p: NodeDesc) {
    && p in s.procs && s.procs[p].pc.HostRecount? && s.procs[p].round in s.joinCount
    && var pc := s.procs[p].pc;
       s' == Goto(s, p, if s.joinCount[s.procs[p].round] != pc.joined then HostShutdown else HostGroups(pc.snapshot))
  }

  /** The present participants whose replacement group is not marked unhealthy. */
  function Present(snapshot: seq<Option<Participant>>, unhealthy: set<string>): seq<Participant> {
    if snapshot == [] then []
    else
      var rest, last := Present(snapshot[..|snapshot|-1], unhealthy), snapshot[|snapshot|-1];
      if last.Some? && (last.value.group.None? || last.value.group.value !in unhealthy) then rest + [last.value] else rest
  }

  predicate DuplicateAddr(ps: seq<Participant>) {
    exists i, j | 0 <= i < j < |ps| :: ps[i].node.addr == ps[j].node.addr
  }

  /** What the host does with a complete snapshot. */
  datatype Verdict = Reject(error: AssignError) | NotEnough | Duplicate | CannotAssign(failure: AssignError) | Settle(plan: Plan)

  ghost function Judge(c: Config, snapshot: seq<Option<Participant>>, unhealthy: set<string>): Verdict {
    var present := Present(snapshot, unhealthy);
    var active, standby := Complete(present, c.groupSize), Leftover(present, c.groupSize);
    if MissingDomain(active, c.segment) then Reject(DomainMissing)
    else if !EnoughSegments(active, c.minNodes, c.segment) then NotEnough
    else if !c.manyPerAddr && DuplicateAddr(present) then Duplicate
    else
      match Assignment(active, c.minNodes, standby, c.segment)
      case Err(error) => CannotAssign(error)
      case Ok(ranks) => Settle(Plan(snapshot, active, standby, ranks))
  }

  function UnhealthyIn(s: State, r: nat): set<string> {
    if r in s.unhealthy then s.unhealthy[r] else {}
  }

  ghost function Verdicts(c: Config, s: State, pr: Proc): Verdict
    requires pr.pc.HostGroups?
  {
    Judge(c, pr.pc.snapshot, UnhealthyIn(s, pr.round))
  }

  /** Where a verdict other than writing ranks may take the host. The last-call gate, consulted after the constraint
      check, is free to hold the round open. */
  predicate HostMayGo(v: Verdict, pc: Pc) {
    match v
    case Reject(error) => pc == Done(AssignFailed(error))
    case NotEnough => pc == HostShutdown
    case Duplicate => pc == HostShutdown || pc == HostFail
    case CannotAssign(error) => pc == HostShutdown || pc == Done(AssignFailed(error))
    case Settle(_) => pc == HostShutdown
  }

  /** Constraint check, last-call gate, duplicate-address guard, rank assignment. */
  ghost predicate HostDecides(c: Config, s: State, s': State, p: NodeDesc) {
    && p in s.procs && s.procs[p].pc.HostGroups?
    && var pr := s.procs[p];
       var v := Verdicts(c, s, pr);
       || (exists pc :: HostMayGo(v, pc) && s' == Goto(s, p, pc))
       || (v.Settle? && s' == Goto(s.(plans := s.plans[pr.round := v.plan]), p, HostWrite(0)))
  }

  /** The plan gives slot k (1-based) a rank. */
  predicate Writes(plan: Plan, k: nat) {
    1 <= k <= |plan.snapshot| && plan.snapshot[k - 1].Some? && plan.snapshot[k - 1].value.node in plan.ranks
  }

  function PlannedEntry(plan: Plan, round: nat, k: nat): RankEntry
    requires Writes(plan, k)
  {
    RankEntry(round, plan.ranks[plan.snapshot[k - 1].value.node], |plan.ranks|)
  }

  /** One key of the rank multi_set: a plain write. */
  ghost predicate HostWrites(s: State, s': State, p: NodeDesc) {
    && p in s.procs && s.procs[p].pc.HostWrite? && s.procs[p].round in s.plans
    && var pr := s.procs[p];
       var plan, k := s.plans[pr.round], pr.pc.written + 1;
       s' == if pr.pc.written >= |plan.snapshot| then Goto(s, p, HostClose)
             else if Writes(plan, k)
             then Goto(s.(ranks := s.ranks[k := PlannedEntry(plan, pr.round, k)]), p, HostWrite(k))
             else Goto(s, p, HostWrite(k))
  }

  ghost predicate HostCloses(s: State, s': State, p: NodeDesc) {
    && At(s, p, HostClose)
    && var pr := s.procs[p];
       s' == Goto(s.(done := s.done[pr.round := Closed]), p, if pr.joins then WaitShutdown else Idle)
  }

  // ---------------------------------------------------------------- Step 3

  ghost predicate WaitShutdownReads(s: State, s': State, p: NodeDesc) {
    && At(s, p, WaitShutdown)
    && s' == Goto(s, p, if s.shutdown.Recorded? then Done(ShutDown) else WaitGet)
  }

  ghost predicate WaitGets(s: State, s': State, p: NodeDesc) {
    && At(s, p, WaitGet) && s.procs[p].round in s.done
    && s' == Goto(s, p, if s.done[s.procs[p].round].Closed? then RankPresent else WaitShutdown)
  }

  ghost predicate RankPresents(s: State, s': State, p: NodeDesc) {
    && At(s, p, RankPresent)
    && s' == Goto(s, p, if s.procs[p].slot in s.ranks then RankRead else AbsentRank)
  }

  ghost predicate RankAbsents(s: State, s': State, p: NodeDesc) {
    At(s, p, AbsentRank) && s' == Goto(s, p, OpenShutdown)
  }

  /** Stale rounds, UNASSIGNED and standby ranks go back to Step 0; an active rank is returned. */
  ghost predicate RankReads(c: Config, s: State, s': State, p: NodeDesc) {
    && At(s, p, RankRead) && s.procs[p].slot in s.ranks
    && var pr := s.procs[p];
       var e := s.ranks[pr.slot];
       s' == Goto(s, p, if e.round == pr.round && e.rank != UNASSIGNED && e.rank < c.minNodes
                        then Active(e.rank, e.total) else OpenShutdown)
  }

  // ---------------------------------------------------------------- training, restart and shutdown

  /** open_rendezvous as one step: create round_done_{round+1} = 0 unless it exists. */
  function OpenNext(s: State, round: nat): State {
    if round + 1 in s.done then s else s.(done := s.done[round + 1 := Open])
  }

  ghost predicate Restarts(s: State, s': State, p: NodeDesc) {
    && p in s.procs && s.procs[p].pc.Active?
    && s' == Goto(OpenNext(s, s.procs[p].round), p, OpenShutdown)
  }

  ghost predicate Polls(s: State, s': State, p: NodeDesc) {
    && p in s.procs && s.procs[p].pc.Active?
    && var pr := s.procs[p];
       s' == if pr.round + 1 in s.done then Goto(s, p, SawNext(pr.pc.rank, pr.pc.total)) else s
  }

  predicate IsNoRestart(r: Reason) {
    r == AttributionStop || r == NoProgress
  }

  /** After seeing the next round: read the reason, then leave or rejoin. */
  ghost predicate ReadsReason(s: State, s': State, p: NodeDesc) {
    && p in s.procs && s.procs[p].pc.SawNext?
    && s' == Goto(s, p, if s.shutdown.Recorded? && IsNoRestart(s.shutdown.reason)
                        then Done(NoRestart(s.shutdown.reason)) else OpenShutdown)
  }

  /** First half of signal_no_restart: record the reason. */
  ghost predicate Signals(s: State, s': State, p: NodeDesc, r: Reason) {
    && p in s.procs && (s.procs[p].pc.Active? || s.procs[p].pc.OpenShutdown? || s.procs[p].pc.HostShutdown?)
    && s' == Goto(s.(shutdown := RecordReason(s.shutdown, r)), p, SignalOpen)
  }

  /** Second half: open the next round. The caller's next shutdown check ends it. */
  ghost predicate SignalOpens(s: State, s': State, p: NodeDesc) {
    && At(s, p, SignalOpen)
    && var next := s.procs[p].round + 1;
       s' == Goto(OpenNext(s, s.procs[p].round).(signalled := if next in s.done then s.signalled else s.signalled + {next}),
                  p, Done(Signalled))
  }

  /** handler.shutdown, from any process at any point. */
  ghost predicate RecordsShutdown(s: State, s': State, p: NodeDesc, r: Reason) {
    p in s.procs && s' == s.(shutdown := RecordReason(s.shutdown, r))
  }

  // ---------------------------------------------------------------- steps and runs

  datatype Action =
    | ASpawn(me: Participant) | ACall | AStop | AScanCheck | AScanGet
    | AOpenShutdown | AOpenCheck | AOpenGet | AJoin | AUnhealthy
    | ARankCheck | ARankGet | ARankSet | ASlotCheck | ASlotGet | ASlotSet
    | AHostShutdown | AHostFail | AHostCheck | AHostCount | AHostFetch | AHostRecount | AHostDecide
    | AHostWrite | AHostClose
    | AWaitShutdown | AWaitGet | ARankPresent | ARankAbsent | ARankRead
    | ARestart | APoll | AReadReason | ASignal(reason: Reason) | ASignalOpen | AShutdown(why: Reason)

  ghost predicate Step(c: Config, s: State, s': State, p: NodeDesc, a: Action) {
    match a
    case ASpawn(me) => Spawn(c, s, s', p, me)
    case ACall => Call(c, s, s', p)
    case AStop => Stop(s, s', p)
    case AScanCheck => ScanChecks(s, s', p)
    case AScanGet => ScanGets(s, s', p)
    case AOpenShutdown => OpenShutdownReads(s, s', p)
    case AOpenCheck => OpenChecks(s, s', p)
    case AOpenGet => OpenGets(s, s', p)
    case AJoin => Joins(s, s', p)
    case AUnhealthy => LeavesUnhealthy(s, s', p)
    case ARankCheck => RankChecks(s, s', p)
    case ARankGet => RankGets(s, s', p)
    case ARankSet => RankSets(s, s', p)
    case ASlotCheck => SlotChecks(s, s', p)
    case ASlotGet => SlotGets(s, s', p)
    case ASlotSet => SlotSets(c, s, s', p)
    case AHostShutdown => HostShutdownReads(s, s', p)
    case AHostFail => HostFails(s, s', p)
    case AHostCheck => HostChecks(s, s', p)
    case AHostCount => HostCounts(c, s, s', p)
    case AHostFetch => HostFetches(s, s', p)
    case AHostRecount => HostRecounts(s, s', p)
    case AHostDecide => HostDecides(c, s, s', p)
    case AHostWrite => HostWrites(s, s', p)
    case AHostClose => HostCloses(s, s', p)
    case AWaitShutdown => WaitShutdownReads(s, s', p)
    case AWaitGet => WaitGets(s, s', p)
    case ARankPresent => RankPresents(s, s', p)
    case ARankAbsent => RankAbsents(s, s', p)
    case ARankRead => RankReads(c, s, s', p)
    case ARestart => Restarts(s, s', p)
    case APoll => Polls(s, s', p)
    case AReadReason => ReadsReason(s, s', p)
    case ASignal(r) => Signals(s, s', p, r)
    case ASignalOpen => SignalOpens(s, s', p)
    case AShutdown(r) => RecordsShutdown(s, s', p, r)
  }

  ghost predicate Next(c: Config, s: State, s': State) {
    exists p, a :: Step(c, s, s', p, a)
  }

  /** A finite run of the system. */
  ghost predicate Run(c: Config, run: seq<State>) {
    && run != [] && Init(run[0])
    && forall i | 0 <= i < |run| - 1 :: Next(c, run[i], run[i + 1])
  }
}
