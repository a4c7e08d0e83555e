/** What the host's snapshot holds: each slot as it was at some moment of the fetch, and all slots drawn by its end. */
module BarrierFetch {
  import opened Prelude
  import opened Barrier
  import opened BarrierInvariant
  import opened BarrierSteps
  import opened BarrierRuns
  import opened BarrierSources
  import opened BarrierTheorems

  /** Slot k holds what w published for round r. */
  ghost predicate Publishes(s: State, r: nat, k: nat, w: Participant) {
    k in s.slots && s.slots[k].round == r && s.slots[k].who == w
  }

  /** d answers for slot k of round r as it stands in s: who published there, or nobody. */
  ghost predicate Answers(s: State, r: nat, k: nat, d: Option<Participant>) {
    forall w :: d == Some(w) <==> Publishes(s, r, k, w)
  }

  lemma FetchAnswers(s: State, r: nat, k: nat)
    ensures Answers(s, r, k, FetchSlot(s, r, k))
  {
  }

  /** d answers for slot k as it stood before one of the steps i, ..., j - 1. */
  ghost predicate AnsweredWithin(run: seq<State>, i: nat, j: nat, r: nat, k: nat, d: Option<Participant>) {
    exists t: nat :: i <= t < j && t < |run| && Answers(run[t], r, k, d)
  }

  lemma AnsweredLater(run: seq<State>, i: nat, j: nat, r: nat, k: nat, d: Option<Participant>)
    requires AnsweredWithin(run, i, j, r, k, d)
    ensures AnsweredWithin(run, i, j + 1, r, k, d)
  {
    hide Answers;
    var t: nat :| i <= t < j && t < |run| && Answers(run[t], r, k, d);
  }

  predicate Fetching(pc: Pc) {
    pc.HostFetch? || pc.HostRecount?
  }

  function Todo(pc: Pc): set<nat> {
    if pc.HostFetch? then pc.todo else {}
  }

  /** How far a fetch of round r with `joined` slots has come: the slots read have been answered since state i. */
  ghost predicate FetchedSoFar(run: seq<State>, i: nat, j: nat, pc: Pc, r: nat, joined: nat) {
    && Fetching(pc) && pc.joined == joined && |pc.snapshot| == joined
    && forall m: nat | m < joined && m !in Todo(pc) :: AnsweredWithin(run, i, j, r, m + 1, pc.snapshot[m])
  }

  lemma FetchStarts(c: Config, s: State, s': State, p: NodeDesc)
    requires HostCounts(c, s, s', p) && s'.procs[p].pc.HostFetch?
    ensures s.procs[p].round in s.joinCount && s'.procs[p].round == s.procs[p].round
    ensures var joined := s.joinCount[s.procs[p].round];
            s'.procs[p].pc.joined == joined && |s'.procs[p].pc.snapshot| == joined
            && forall m: nat | m < joined :: m in s'.procs[p].pc.todo
  {
    UnreadIsBlank(s.joinCount[s.procs[p].round]);
    hide Unread;
  }

  /** A step of the host itself that leaves it in the fetch reads one slot, ends the reading, or changes nothing. */
  lemma OwnFetchSteps(c: Config, s: State, s': State, p: NodeDesc, a: Action)
    requires Step(c, s, s', p, a) && p in s.procs && Fetching(s.procs[p].pc) && p in s'.procs && Fetching(s'.procs[p].pc)
    ensures s'.procs[p] == s.procs[p] || HostFetches(s, s', p)
  {
    hide Step;
    if a.AShutdown? {
      ShutdownStays(c, s, s', p, a);
    } else if !a.AHostFetch? {
      OtherStepsLeave(c, s, s', p, a);
    } else {
      IsFetch(c, s, s', p, a);
    }
  }

  lemma ShutdownStays(c: Config, s: State, s': State, p: NodeDesc, a: Action)
    requires Step(c, s, s', p, a) && a.AShutdown?
    ensures s'.procs == s.procs
  {
  }

  lemma IsFetch(c: Config, s: State, s': State, p: NodeDesc, a: Action)
    requires Step(c, s, s', p, a) && a.AHostFetch?
    ensures HostFetches(s, s', p)
  {
  }

  /** The host between its first read of a slot and the decision. */
  predicate Collecting(pc: Pc) {
    pc.HostFetch? || pc.HostRecount? || pc.HostGroups?
  }

  lemma CollectingCalls(c: Config, s: State, s': State, p: NodeDesc, a: Action)
    requires Step(c, s, s', p, a) && p in s.procs && Collecting(s.procs[p].pc)
    ensures !a.ASpawn? && !a.ACall? && !a.AScanCheck? && !a.AScanGet? && !a.AOpenShutdown? && !a.AOpenCheck? && !a.AOpenGet?
  {
    hide Goto, ScanEnd;
  }

  lemma CollectingWrites(c: Config, s: State, s': State, p: NodeDesc, a: Action)
    requires Step(c, s, s', p, a) && p in s.procs && Collecting(s.procs[p].pc)
    ensures !a.AJoin? && !a.AUnhealthy? && !a.ARankCheck? && !a.ARankGet? && !a.ARankSet? && !a.ASlotCheck? && !a.ASlotGet?
            && !a.ASlotSet?
  {
    hide CompareSet, Goto;
  }

  lemma CollectingHost(c: Config, s: State, s': State, p: NodeDesc, a: Action)
    requires Step(c, s, s', p, a) && p in s.procs && Collecting(s.procs[p].pc)
    ensures IsHostAction(a) ==> a.AHostFetch? || a.AHostRecount? || a.AHostDecide?
  {
    hide Goto, PlannedEntry, Writes, RecordReason, HostFetches, HostRecounts, HostDecides;
  }

  lemma CollectingLate(c: Config, s: State, s': State, p: NodeDesc, a: Action)
    requires Step(c, s, s', p, a) && p in s.procs && Collecting(s.procs[p].pc)
    ensures IsJoinAction(a) || IsHostAction(a) || a.AShutdown?
  {
    hide Goto, OpenNext, RecordReason, IsNoRestart;
  }

  /** A collecting host reads, counts again, decides, records a shutdown, or stops. */
  lemma CollectingActs(c: Config, s: State, s': State, p: NodeDesc, a: Action)
    requires Step(c, s, s', p, a) && p in s.procs && Collecting(s.procs[p].pc)
    ensures a.AHostFetch? || a.AHostRecount? || a.AHostDecide? || a.AStop? || a.AShutdown?
  {
    hide Step, Collecting;
    CollectingCalls(c, s, s', p, a);
    CollectingWrites(c, s, s', p, a);
    CollectingHost(c, s, s', p, a);
    CollectingLate(c, s, s', p, a);
  }

  lemma DecidesFrom(c: Config, s: State, s': State, p: NodeDesc, a: Action)
    requires Step(c, s, s', p, a) && a.AHostDecide?
    ensures p in s.procs && s.procs[p].pc.HostGroups?
  {
    hide Verdicts, HostMayGo;
  }

  lemma StopLeaves(c: Config, s: State, s': State, p: NodeDesc, a: Action)
    requires Step(c, s, s', p, a) && (a.AStop? || a.AHostRecount?)
    ensures p in s'.procs && !Fetching(s'.procs[p].pc)
  {
  }

  lemma OtherStepsLeave(c: Config, s: State, s': State, p: NodeDesc, a: Action)
    requires Step(c, s, s', p, a) && p in s.procs && Fetching(s.procs[p].pc) && !a.AHostFetch? && !a.AShutdown?
    ensures p in s'.procs && !Fetching(s'.procs[p].pc)
  {
    hide Step;
    CollectingActs(c, s, s', p, a);
    if a.AHostDecide? { DecidesFrom(c, s, s', p, a); } else { StopLeaves(c, s, s', p, a); }
  }

  lemma ReadsOne(s: State, s': State, p: NodeDesc, i: nat)
    requires p in s.procs && s.procs[p].pc.HostFetch? && FetchesAt(s, s', p, i)
    ensures p in s'.procs && s'.procs[p].round == s.procs[p].round
    ensures var pc := s.procs[p].pc;
            && i in pc.todo && i < |pc.snapshot|
            && s'.procs[p].pc == HostFetch(pc.joined, pc.todo - {i}, pc.snapshot[i := FetchSlot(s, s.procs[p].round, i + 1)])
  {
    hide FetchSlot;
  }

  /** Moving on keeps what was read; what is newly read is read from s. */
  ghost predicate ReadMore(s: State, r: nat, pc: Pc, pc': Pc)
    requires Fetching(pc) && Fetching(pc')
  {
    && pc'.joined == pc.joined && |pc'.snapshot| == |pc.snapshot|
    && forall m: nat | m < |pc.snapshot| && m !in Todo(pc') ::
         if m in Todo(pc) then pc'.snapshot[m] == FetchSlot(s, r, m + 1) else pc'.snapshot[m] == pc.snapshot[m]
  }

  lemma ReadOneMore(s: State, r: nat, pc: Pc, i: nat)
    requires pc.HostFetch? && i in pc.todo && i < |pc.snapshot|
    ensures ReadMore(s, r, pc, HostFetch(pc.joined, pc.todo - {i}, pc.snapshot[i := FetchSlot(s, r, i + 1)]))
  {
    hide FetchSlot;
  }

  /** One read, or the end of the reading. */
  lemma FetchGoesOn(s: State, s': State, p: NodeDesc)
    requires HostFetches(s, s', p)
    ensures p in s'.procs && Fetching(s'.procs[p].pc) && s'.procs[p].round == s.procs[p].round
    ensures ReadMore(s, s.procs[p].round, s.procs[p].pc, s'.procs[p].pc)
  {
    var pc := s.procs[p].pc;
    if pc.todo == {} {
      assert s'.procs[p].pc == HostRecount(pc.joined, pc.snapshot);
    } else {
      hide ReadMore, FetchesAt, FetchSlot;
      var i: nat :| FetchesAt(s, s', p, i);
      ReadsOne(s, s', p, i);
      ReadOneMore(s, s.procs[p].round, pc, i);
    }
  }

  lemma FetchAdvances(run: seq<State>, i: nat, j: nat, p: NodeDesc, r: nat, joined: nat)
    requires i <= j < |run| - 1 && p in run[j].procs && HostFetches(run[j], run[j + 1], p) && run[j].procs[p].round == r
    requires FetchedSoFar(run, i, j, run[j].procs[p].pc, r, joined)
    ensures p in run[j + 1].procs && FetchedSoFar(run, i, j + 1, run[j + 1].procs[p].pc, r, joined)
  {
    hide HostFetches, FetchSlot, AnsweredWithin, Answers;
    FetchGoesOn(run[j], run[j + 1], p);
    var pc, pc' := run[j].procs[p].pc, run[j + 1].procs[p].pc;
    forall m: nat | m < joined && m !in Todo(pc') ensures AnsweredWithin(run, i, j + 1, r, m + 1, pc'.snapshot[m]) {
      if m in Todo(pc) {
        FetchAnswers(run[j], r, m + 1);
        Within(run, i, j, r, m + 1, FetchSlot(run[j], r, m + 1));
      } else {
        AnsweredLater(run, i, j, r, m + 1, pc.snapshot[m]);
      }
    }
  }

  lemma Within(run: seq<State>, i: nat, j: nat, r: nat, k: nat, d: Option<Participant>)
    requires i <= j < |run| && Answers(run[j], r, k, d)
    ensures AnsweredWithin(run, i, j + 1, r, k, d)
  {
    hide Answers;
  }

  lemma FetchWaits(run: seq<State>, i: nat, j: nat, pc: Pc, r: nat, joined: nat)
    requires FetchedSoFar(run, i, j, pc, r, joined)
    ensures FetchedSoFar(run, i, j + 1, pc, r, joined)
  {
    hide AnsweredWithin;
    forall m: nat | m < joined && m !in Todo(pc) ensures AnsweredWithin(run, i, j + 1, r, m + 1, pc.snapshot[m]) {
      AnsweredLater(run, i, j, r, m + 1, pc.snapshot[m]);
    }
  }

  /** p is in one fetch from state i + 1 on through state j. */
  ghost predicate StaysFetching(run: seq<State>, i: nat, j: nat, p: NodeDesc) {
    forall t: nat | i < t <= j && t < |run| :: p in run[t].procs && Fetching(run[t].procs[p].pc)
  }

  lemma StepAt(c: Config, run: seq<State>, j: nat) returns (q: NodeDesc, a: Action)
    requires Run(c, run) && j < |run| - 1
    ensures Inv(c, run[j]) && Sources(run[j]) && Step(c, run[j], run[j + 1], q, a)
  {
    hide Inv, Sources, Step, Init;
    RunKeeps(c, run, j);
    RunSources(c, run, j);
    assert Next(c, run[j], run[j + 1]);
    q, a :| Step(c, run[j], run[j + 1], q, a);
  }

  lemma StayedAt(run: seq<State>, i: nat, j: nat, p: NodeDesc)
    requires i < j < |run| && StaysFetching(run, i, j, p)
    ensures p in run[j].procs && Fetching(run[j].procs[p].pc)
    ensures StaysFetching(run, i, j - 1, p)
  {
  }

  /** Whatever other processes do meanwhile, what a fetch has read of a slot is what the slot held at some moment since
      the fetch began. */
  lemma {:induction false} FetchReads(c: Config, run: seq<State>, i: nat, j: nat, p: NodeDesc)
    requires Run(c, run) && i < j < |run| && HostCounts(c, run[i], run[i + 1], p) && StaysFetching(run, i, j, p)
    ensures p in run[i].procs && run[i].procs[p].round in run[i].joinCount && p in run[j].procs
    ensures run[j].procs[p].round == run[i].procs[p].round
    ensures FetchedSoFar(run, i, j, run[j].procs[p].pc, run[i].procs[p].round, run[i].joinCount[run[i].procs[p].round])
    decreases j
  {
    hide Run, StaysFetching, FetchedSoFar, Inv, Sources, Step;
    StayedAt(run, i, j, p);
    if j == i + 1 {
      CountedFetch(c, run[i], run[j], p);
      FetchStarts(c, run[i], run[j], p);
      FreshFetch(run, i, run[j].procs[p].pc, run[i].procs[p].round, run[i].joinCount[run[i].procs[p].round]);
    } else {
      hide HostCounts;
      FetchReads(c, run, i, j - 1, p);
      StayedAt(run, i, j - 1, p);
      var q, a := StepAt(c, run, j - 1);
      FetchStep(c, run, i, j - 1, p, run[i].procs[p].round, run[i].joinCount[run[i].procs[p].round], q, a);
    }
  }

  lemma CountedFetch(c: Config, s: State, s': State, p: NodeDesc)
    requires HostCounts(c, s, s', p) && p in s'.procs && Fetching(s'.procs[p].pc)
    ensures s'.procs[p].pc.HostFetch?
  {
    hide Unread, Indices;
  }

  lemma FreshFetch(run: seq<State>, i: nat, pc: Pc, r: nat, joined: nat)
    requires pc.HostFetch? && pc.joined == joined && |pc.snapshot| == joined && forall m: nat | m < joined :: m in pc.todo
    ensures FetchedSoFar(run, i, i + 1, pc, r, joined)
  {
  }

  lemma OtherStays(s: State, s': State, p: NodeDesc, q: NodeDesc)
    requires OnlyMoves(s.procs, s'.procs, q) && q != p && p in s.procs
    ensures p in s'.procs && s'.procs[p] == s.procs[p]
  {
  }

  lemma FetchStep(c: Config, run: seq<State>, i: nat, j: nat, p: NodeDesc, r: nat, joined: nat, q: NodeDesc, a: Action)
    requires i <= j < |run| - 1 && Inv(c, run[j]) && Sources(run[j]) && Step(c, run[j], run[j + 1], q, a)
    requires p in run[j].procs && run[j].procs[p].round == r && Fetching(run[j].procs[p].pc)
    requires p in run[j + 1].procs && Fetching(run[j + 1].procs[p].pc)
    requires FetchedSoFar(run, i, j, run[j].procs[p].pc, r, joined)
    ensures run[j + 1].procs[p].round == r && FetchedSoFar(run, i, j + 1, run[j + 1].procs[p].pc, r, joined)
  {
    hide Inv, Sources, Step, OnlyMoves, FetchedSoFar, HostFetches;
    StepSources(c, run[j], run[j + 1], q, a);
    if q != p {
      OtherStays(run[j], run[j + 1], p, q);
      FetchWaits(run, i, j, run[j].procs[p].pc, r, joined);
    } else {
      OwnFetchSteps(c, run[j], run[j + 1], p, a);
      if HostFetches(run[j], run[j + 1], p) {
        FetchGoesOn(run[j], run[j + 1], p);
        FetchAdvances(run, i, j, p, r, joined);
      } else {
        FetchWaits(run, i, j, run[j].procs[p].pc, r, joined);
      }
    }
  }

  // ---------------------------------------------------------------- the snapshot that is judged

  lemma Recounted(s: State, s': State, p: NodeDesc)
    requires HostRecounts(s, s', p) && p in s'.procs && s'.procs[p].pc.HostGroups?
    ensures p in s.procs && s.procs[p].pc.HostRecount? && s'.procs[p].pc.snapshot == s.procs[p].pc.snapshot
    ensures s.procs[p].round in s.joinCount && s.joinCount[s.procs[p].round] == s.procs[p].pc.joined
  {
  }

  /** The snapshot the host goes on to judge has one entry for every slot drawn in the round by the end of the fetch, and
      entry m says who had published under slot m + 1 for this round at some moment of the fetch, or that nobody had. */
  lemma SnapshotIsWhole(c: Config, run: seq<State>, i: nat, j: nat, p: NodeDesc)
    requires Run(c, run) && i < j < |run| - 1 && HostCounts(c, run[i], run[i + 1], p) && StaysFetching(run, i, j, p)
    requires HostRecounts(run[j], run[j + 1], p) && p in run[j + 1].procs && run[j + 1].procs[p].pc.HostGroups?
    ensures p in run[i].procs && p in run[j].procs && run[j].procs[p].round == run[i].procs[p].round && run[j].procs[p].round in run[j].joinCount
    ensures var r, snapshot := run[j].procs[p].round, run[j + 1].procs[p].pc.snapshot;
            && |snapshot| == run[j].joinCount[r]
            && forall m: nat | m < |snapshot| :: AnsweredWithin(run, i, j, r, m + 1, snapshot[m])
  {
    FetchReads(c, run, i, j, p);
    Recounted(run[j], run[j + 1], p);
    hide Run, HostCounts, StaysFetching, HostRecounts, AnsweredWithin;
  }

  lemma FetchedOpen(c: Config, s: State, p: NodeDesc)
    requires Inv(c, s) && p in s.procs && HostPc(s.procs[p].pc)
    ensures IsOpen(s.done, s.procs[p].round)
  {
    hide Below, ClaimsOk, KeysOk, PlansOk, RoundsOk, JoinOk, WriteOk, WaitOk;
    Own(c, s, p);
  }

  lemma StillPublished(c: Config, run: seq<State>, i: nat, t: nat, r: nat, k: nat, w: Participant)
    requires Run(c, run) && i <= t < |run| && Publishes(run[i], r, k, w) && IsOpen(run[t].done, r)
    ensures Publishes(run[t], r, k, w)
  {
    KeysNeverGoBack(c, run, i, t, k);
    RunKeeps(c, run, t);
    SlotRound(c, run[t], k, r);
    hide Run, Inv;
  }

  lemma PublishedIsCounted(c: Config, s: State, r: nat, k: nat, w: Participant)
    requires Inv(c, s) && Publishes(s, r, k, w)
    ensures r in s.joinCount && 1 <= k <= s.joinCount[r]
  {
    SlotRound(c, s, k, r);
    assert ClaimOk(s, r, k);
  }

  lemma CountedHost(c: Config, s: State, s': State, p: NodeDesc)
    requires HostCounts(c, s, s', p)
    ensures p in s.procs && HostPc(s.procs[p].pc)
  {
    hide Unread, Indices;
  }

  lemma StaysShorter(run: seq<State>, i: nat, t: nat, j: nat, p: NodeDesc)
    requires StaysFetching(run, i, j, p) && t <= j
    ensures StaysFetching(run, i, t, p)
  {
  }

  lemma OpenWhileFetching(c: Config, run: seq<State>, i: nat, t: nat, j: nat, p: NodeDesc)
    requires Run(c, run) && i <= t <= j < |run| && i < j && HostCounts(c, run[i], run[i + 1], p) && StaysFetching(run, i, j, p)
    ensures p in run[t].procs && IsOpen(run[t].done, run[t].procs[p].round)
  {
    hide Run, Inv, StaysFetching, HostCounts, IsOpen;
    RunKeeps(c, run, t);
    if t == i {
      CountedHost(c, run[i], run[i + 1], p);
    } else {
      StaysShorter(run, i, t, j, p);
      StayedAt(run, i, t, p);
    }
    FetchedOpen(c, run[t], p);
  }

  lemma RoundWhileFetching(c: Config, run: seq<State>, i: nat, t: nat, j: nat, p: NodeDesc)
    requires Run(c, run) && i <= t <= j < |run| && i < j && HostCounts(c, run[i], run[i + 1], p) && StaysFetching(run, i, j, p)
    ensures p in run[i].procs && p in run[t].procs && run[t].procs[p].round == run[i].procs[p].round
  {
    hide Run, HostCounts, StaysFetching, FetchedSoFar, IsOpen;
    OpenWhileFetching(c, run, i, i, j, p);
    if i < t {
      StaysShorter(run, i, t, j, p);
      FetchReads(c, run, i, t, p);
    }
  }

  /** Every node that had published for the round when the fetch began is in the snapshot the host judges. */
  lemma PublishedIsSeen(c: Config, run: seq<State>, i: nat, j: nat, p: NodeDesc, k: nat, w: Participant)
    requires Run(c, run) && i < j < |run| - 1 && HostCounts(c, run[i], run[i + 1], p) && StaysFetching(run, i, j, p)
    requires HostRecounts(run[j], run[j + 1], p) && p in run[j + 1].procs && run[j + 1].procs[p].pc.HostGroups?
    requires p in run[i].procs && Publishes(run[i], run[i].procs[p].round, k, w)
    ensures 1 <= k <= |run[j + 1].procs[p].pc.snapshot| && run[j + 1].procs[p].pc.snapshot[k - 1] == Some(w)
  {
    hide Run, HostCounts, StaysFetching, HostRecounts, Inv, Publishes, IsOpen;
    SnapshotIsWhole(c, run, i, j, p);
    var r, snapshot := run[i].procs[p].round, run[j + 1].procs[p].pc.snapshot;
    OpenWhileFetching(c, run, i, j, j, p);
    StillPublished(c, run, i, j, r, k, w);
    RunKeeps(c, run, j);
    PublishedIsCounted(c, run[j], r, k, w);
    var m: nat := k - 1;
    assert AnsweredWithin(run, i, j, r, m + 1, snapshot[m]);
    var t: nat :| i <= t < j && t < |run| && Answers(run[t], r, k, snapshot[m]);
    RoundWhileFetching(c, run, i, t, j, p);
    OpenWhileFetching(c, run, i, t, j, p);
    StillPublished(c, run, i, t, r, k, w);
  }

  // ---------------------------------------------------------------- until the decision

  lemma DecisionGoes(v: Verdict, pc: Pc)
    requires HostMayGo(v, pc)
    ensures !pc.HostGroups?
  {
  }

  lemma DecisionLeaves(c: Config, s: State, s': State, p: NodeDesc)
    requires HostDecides(c, s, s', p)
    ensures p in s'.procs && !s'.procs[p].pc.HostGroups?
  {
    hide Verdicts, HostMayGo, Goto;
    var v := Verdicts(c, s, s.procs[p]);
    if pc :| HostMayGo(v, pc) && s' == Goto(s, p, pc) {
      Arrives(s, p, pc);
      DecisionGoes(v, pc);
    } else {
      Arrives(s.(plans := s.plans[s.procs[p].round := v.plan]), p, HostWrite(0));
    }
  }

  lemma ReadsFrom(c: Config, s: State, s': State, p: NodeDesc, a: Action)
    requires Step(c, s, s', p, a) && (a.AHostFetch? || a.AHostRecount?)
    ensures p in s.procs && Fetching(s.procs[p].pc)
  {
    hide FetchesAt, Goto;
  }

  lemma JudgeStops(c: Config, s: State, s': State, p: NodeDesc, a: Action)
    requires Step(c, s, s', p, a) && (a.AStop? || a.AHostDecide?)
    ensures p in s'.procs && !s'.procs[p].pc.HostGroups?
  {
    hide HostDecides;
    if a.AHostDecide? { DecisionLeaves(c, s, s', p); }
  }

  lemma OwnJudging(c: Config, s: State, s': State, p: NodeDesc, a: Action)
    requires Step(c, s, s', p, a) && p in s.procs && s.procs[p].pc.HostGroups? && p in s'.procs && s'.procs[p].pc.HostGroups?
    ensures s'.procs[p] == s.procs[p]
  {
    hide Step;
    CollectingActs(c, s, s', p, a);
    if a.AShutdown? {
      ShutdownStays(c, s, s', p, a);
    } else if a.AStop? || a.AHostDecide? {
      JudgeStops(c, s, s', p, a);
    } else {
      ReadsFrom(c, s, s', p, a);
    }
  }

  ghost predicate StaysJudging(run: seq<State>, i: nat, j: nat, p: NodeDesc) {
    forall t: nat | i <= t <= j && t < |run| :: p in run[t].procs && run[t].procs[p].pc.HostGroups?
  }

  lemma JudgedAt(run: seq<State>, i: nat, j: nat, p: NodeDesc)
    requires i <= j < |run| && StaysJudging(run, i, j, p)
    ensures p in run[j].procs && run[j].procs[p].pc.HostGroups?
    ensures j > 0 ==> StaysJudging(run, i, j - 1, p)
  {
  }

  /** The snapshot is still the same when the host decides. */
  lemma {:induction false} JudgedUnchanged(c: Config, run: seq<State>, i: nat, j: nat, p: NodeDesc)
    requires Run(c, run) && i <= j < |run| && StaysJudging(run, i, j, p)
    ensures p in run[i].procs && p in run[j].procs && run[j].procs[p] == run[i].procs[p]
    decreases j
  {
    hide Run, StaysJudging, Inv, Sources, Step, OnlyMoves;
    JudgedAt(run, i, j, p);
    if i < j {
      JudgedUnchanged(c, run, i, j - 1, p);
      JudgedAt(run, i, j - 1, p);
      var q, a := StepAt(c, run, j - 1);
      StepSources(c, run[j - 1], run[j], q, a);
      if q == p { OwnJudging(c, run[j - 1], run[j], p, a); } else { OtherStays(run[j - 1], run[j], p, q); }
    }
  }
}
