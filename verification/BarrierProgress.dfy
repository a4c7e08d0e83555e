/** What a process reaches when it runs alone: nobody is stuck behind a slow or dead peer's leftovers. */
module BarrierProgress {
  import opened Prelude
  import opened RankAssignment
  import opened Barrier
  import opened BarrierInvariant
  import opened BarrierSteps
  import opened BarrierWrites
  import opened BarrierKeys
  import opened BarrierHost
  import opened BarrierTheorems

  // ---------------------------------------------------------------- running alone

  ghost predicate Acts(c: Config, s: State, s': State, p: NodeDesc) {
    exists a :: Step(c, s, s', p, a)
  }

  /** A stretch of a run in which only p acts. */
  ghost predicate Alone(c: Config, path: seq<State>, p: NodeDesc) {
    path != [] && forall i | 0 <= i < |path| - 1 :: Acts(c, path[i], path[i + 1], p)
  }

  /** p on its own can take the system from s to t. */
  ghost predicate Reaches(c: Config, p: NodeDesc, s: State, t: State) {
    exists path :: Alone(c, path, p) && path[0] == s && path[|path| - 1] == t
  }

  lemma Stands(c: Config, p: NodeDesc, s: State)
    ensures Reaches(c, p, s, s)
  {
    assert Alone(c, [s], p) && [s][0] == s && [s][|[s]| - 1] == s;
  }

  lemma Further(c: Config, p: NodeDesc, s: State, t: State, u: State, a: Action)
    requires Reaches(c, p, s, t) && Step(c, t, u, p, a)
    ensures Reaches(c, p, s, u)
  {
    hide Step;
    var path :| Alone(c, path, p) && path[0] == s && path[|path| - 1] == t;
    var more := path + [u];
    forall i | 0 <= i < |more| - 1 ensures Acts(c, more[i], more[i + 1], p) {
      if i < |path| - 1 { assert Acts(c, path[i], path[i + 1], p); }
    }
    assert Alone(c, more, p) && more[0] == s && more[|more| - 1] == u;
  }

  lemma {:induction false} Chain(c: Config, p: NodeDesc, s: State, t: State, u: State)
    requires Reaches(c, p, s, t) && Reaches(c, p, t, u)
    ensures Reaches(c, p, s, u)
  {
    hide Acts;
    var a :| Alone(c, a, p) && a[0] == s && a[|a| - 1] == t;
    var b :| Alone(c, b, p) && b[0] == t && b[|b| - 1] == u;
    var both := a + b[1..];
    forall i | 0 <= i < |both| - 1 ensures Acts(c, both[i], both[i + 1], p) {
      if i < |a| - 1 {
        assert Acts(c, a[i], a[i + 1], p);
      } else {
        assert Acts(c, b[i - |a| + 1], b[i - |a| + 2], p);
      }
    }
    assert Alone(c, both, p) && both[0] == s && both[|both| - 1] == u;
  }

  lemma One(c: Config, p: NodeDesc, s: State, t: State, a: Action)
    requires Step(c, s, t, p, a)
    ensures Reaches(c, p, s, t)
  {
    hide Step, Reaches;
    Stands(c, p, s);
    Further(c, p, s, s, t, a);
  }

  /** A run goes on with what one process does alone. */
  lemma RunGoesOn(c: Config, run: seq<State>, p: NodeDesc, t: State) returns (longer: seq<State>)
    requires Run(c, run) && Reaches(c, p, run[|run| - 1], t)
    ensures Run(c, longer) && run <= longer && longer[|longer| - 1] == t
  {
    var s := run[|run| - 1];
    var path :| Alone(c, path, p) && path[0] == s && path[|path| - 1] == t;
    longer := run + path[1..];
    hide Step, Init;
    forall i | 0 <= i < |longer| - 1 ensures Next(c, longer[i], longer[i + 1]) {
      if i < |run| - 1 {
        assert Next(c, run[i], run[i + 1]);
      } else {
        var k := i - |run| + 1;
        assert longer[i] == path[k] && longer[i + 1] == path[k + 1];
        assert Acts(c, path[k], path[k + 1], p);
        var a :| Step(c, path[k], path[k + 1], p, a);
      }
    }
  }

  // ---------------------------------------------------------------- single steps

  lemma AtSelf(s: State, p: NodeDesc, pc: Pc)
    requires At(s, p, pc)
    ensures s == Goto(s, p, pc)
  {
    assert s.procs[p := s.procs[p]] == s.procs;
  }

  lemma TurnOpenShutdown(c: Config, s: State, p: NodeDesc)
    requires p in s.procs && !s.shutdown.Recorded?
    ensures Reaches(c, p, Goto(s, p, OpenShutdown), Goto(s, p, OpenCheck))
  {
    hide Reaches;
    One(c, p, Goto(s, p, OpenShutdown), Goto(s, p, OpenCheck), AOpenShutdown);
  }

  lemma TurnOpenCheck(c: Config, s: State, p: NodeDesc)
    requires p in s.procs && s.procs[p].round in s.done
    ensures Reaches(c, p, Goto(s, p, OpenCheck), Goto(s, p, OpenGet))
  {
    hide Reaches;
    One(c, p, Goto(s, p, OpenCheck), Goto(s, p, OpenGet), AOpenCheck);
  }

  lemma TurnOpenGet(c: Config, s: State, p: NodeDesc)
    requires p in s.procs && IsOpen(s.done, s.procs[p].round) && s.procs[p].joins
    ensures Reaches(c, p, Goto(s, p, OpenGet), Goto(s, p, Join))
  {
    hide Reaches;
    One(c, p, Goto(s, p, OpenGet), Goto(s, p, Join), AOpenGet);
  }

  lemma TurnOpenScan(c: Config, s: State, p: NodeDesc)
    requires p in s.procs && IsClosed(s.done, s.procs[p].round)
    ensures Reaches(c, p, Goto(s, p, OpenGet), Goto(s, p, ScanCheck(s.procs[p].round, true)))
  {
    hide Reaches;
    One(c, p, Goto(s, p, OpenGet), Goto(s, p, ScanCheck(s.procs[p].round, true)), AOpenGet);
  }

  lemma TurnRankCheck(c: Config, s: State, p: NodeDesc)
    requires p in s.procs && s.procs[p].slot in s.ranks
    ensures Reaches(c, p, Goto(s, p, RankCheck), Goto(s, p, RankGet))
  {
    hide Reaches;
    One(c, p, Goto(s, p, RankCheck), Goto(s, p, RankGet), ARankCheck);
  }

  lemma TurnRankFree(c: Config, s: State, p: NodeDesc)
    requires p in s.procs && s.procs[p].slot !in s.ranks
    ensures Reaches(c, p, Goto(s, p, RankCheck), Goto(s, p, RankSet(None)))
  {
    hide Reaches;
    One(c, p, Goto(s, p, RankCheck), Goto(s, p, RankSet(None)), ARankCheck);
  }

  lemma TurnRankGet(c: Config, s: State, p: NodeDesc)
    requires p in s.procs && s.procs[p].slot in s.ranks
             && s.ranks[s.procs[p].slot].round < s.procs[p].round
    ensures Reaches(c, p, Goto(s, p, RankGet), Goto(s, p, RankSet(Some(s.ranks[s.procs[p].slot]))))
  {
    hide Reaches;
    One(c, p, Goto(s, p, RankGet), Goto(s, p, RankSet(Some(s.ranks[s.procs[p].slot]))), ARankGet);
  }

  lemma TurnSlotCheck(c: Config, s: State, p: NodeDesc)
    requires p in s.procs && s.procs[p].slot in s.slots
    ensures Reaches(c, p, Goto(s, p, SlotCheck), Goto(s, p, SlotGet))
  {
    hide Reaches;
    One(c, p, Goto(s, p, SlotCheck), Goto(s, p, SlotGet), ASlotCheck);
  }

  lemma TurnSlotFree(c: Config, s: State, p: NodeDesc)
    requires p in s.procs && s.procs[p].slot !in s.slots
    ensures Reaches(c, p, Goto(s, p, SlotCheck), Goto(s, p, SlotSet(None)))
  {
    hide Reaches;
    One(c, p, Goto(s, p, SlotCheck), Goto(s, p, SlotSet(None)), ASlotCheck);
  }

  lemma TurnSlotGet(c: Config, s: State, p: NodeDesc)
    requires p in s.procs && s.procs[p].slot in s.slots
             && s.slots[s.procs[p].slot].round < s.procs[p].round
    ensures Reaches(c, p, Goto(s, p, SlotGet), Goto(s, p, SlotSet(Some(s.slots[s.procs[p].slot]))))
  {
    hide Reaches;
    One(c, p, Goto(s, p, SlotGet), Goto(s, p, SlotSet(Some(s.slots[s.procs[p].slot]))), ASlotGet);
  }

  lemma TurnHostShutdown(c: Config, s: State, p: NodeDesc)
    requires p in s.procs && !s.shutdown.Recorded?
    ensures Reaches(c, p, Goto(s, p, HostShutdown), Goto(s, p, HostCheck))
  {
    hide Reaches;
    One(c, p, Goto(s, p, HostShutdown), Goto(s, p, HostCheck), AHostShutdown);
  }

  lemma TurnHostCheck(c: Config, s: State, p: NodeDesc)
    requires p in s.procs && s.procs[p].round in s.joinCount
    ensures Reaches(c, p, Goto(s, p, HostCheck), Goto(s, p, HostCount))
  {
    hide Reaches;
    One(c, p, Goto(s, p, HostCheck), Goto(s, p, HostCount), AHostCheck);
  }

  lemma TurnWaitShutdown(c: Config, s: State, p: NodeDesc)
    requires p in s.procs && !s.shutdown.Recorded?
    ensures Reaches(c, p, Goto(s, p, WaitShutdown), Goto(s, p, WaitGet))
  {
    hide Reaches;
    One(c, p, Goto(s, p, WaitShutdown), Goto(s, p, WaitGet), AWaitShutdown);
  }

  lemma TurnWaitGet(c: Config, s: State, p: NodeDesc)
    requires p in s.procs && IsClosed(s.done, s.procs[p].round)
    ensures Reaches(c, p, Goto(s, p, WaitGet), Goto(s, p, RankPresent))
  {
    hide Reaches;
    One(c, p, Goto(s, p, WaitGet), Goto(s, p, RankPresent), AWaitGet);
  }

  lemma TurnRankPresent(c: Config, s: State, p: NodeDesc)
    requires p in s.procs && s.procs[p].slot in s.ranks
    ensures Reaches(c, p, Goto(s, p, RankPresent), Goto(s, p, RankRead))
  {
    hide Reaches;
    One(c, p, Goto(s, p, RankPresent), Goto(s, p, RankRead), ARankPresent);
  }

  lemma TurnRankRead(c: Config, s: State, p: NodeDesc, e: RankEntry)
    requires p in s.procs && Lookup(s.ranks, s.procs[p].slot) == Some(e) && e.round == s.procs[p].round
    requires 0 <= e.rank < c.minNodes
    ensures Reaches(c, p, Goto(s, p, RankRead), Goto(s, p, Active(e.rank, e.total)))
  {
    hide Reaches;
    One(c, p, Goto(s, p, RankRead), Goto(s, p, Active(e.rank, e.total)), ARankRead);
  }

  // ---------------------------------------------------------------- Step 0

  /** From Step 0 in an open round, with no shutdown recorded, a node goes on to draw a slot. */
  lemma OpenRoundIsJoined(c: Config, s: State, p: NodeDesc)
    requires At(s, p, OpenShutdown) && !s.shutdown.Recorded? && IsOpen(s.done, s.procs[p].round) && s.procs[p].joins
    ensures Reaches(c, p, s, Goto(s, p, Join))
  {
    AtSelf(s, p, OpenShutdown);
    hide Reaches, Goto;
    TurnOpenShutdown(c, s, p);
    TurnOpenCheck(c, s, p);
    TurnOpenGet(c, s, p);
    Chain(c, p, s, Goto(s, p, OpenCheck), Goto(s, p, OpenGet));
    Chain(c, p, s, Goto(s, p, OpenGet), Goto(s, p, Join));
  }

  function Proceed(s: State, p: NodeDesc, round: nat, pc: Pc): State
    requires p in s.procs
  {
    s.(procs := s.procs[p := s.procs[p].(round := round, pc := pc)])
  }

  lemma ScanMissing(c: Config, s: State, p: NodeDesc, at: nat)
    requires p in s.procs && at !in s.done
    ensures Reaches(c, p, Goto(s, p, ScanCheck(at, true)), Proceed(s, p, at, OpenShutdown))
  {
    hide Reaches;
    One(c, p, Goto(s, p, ScanCheck(at, true)), Proceed(s, p, at, OpenShutdown), AScanCheck);
  }

  lemma ScanPresent(c: Config, s: State, p: NodeDesc, at: nat)
    requires p in s.procs && at in s.done
    ensures Reaches(c, p, Goto(s, p, ScanCheck(at, true)), Goto(s, p, ScanGet(at, true)))
  {
    hide Reaches;
    One(c, p, Goto(s, p, ScanCheck(at, true)), Goto(s, p, ScanGet(at, true)), AScanCheck);
  }

  lemma ScanOpen(c: Config, s: State, p: NodeDesc, at: nat)
    requires p in s.procs && IsOpen(s.done, at)
    ensures Reaches(c, p, Goto(s, p, ScanGet(at, true)), Proceed(s, p, at, OpenShutdown))
  {
    hide Reaches;
    One(c, p, Goto(s, p, ScanGet(at, true)), Proceed(s, p, at, OpenShutdown), AScanGet);
  }

  lemma ScanClosed(c: Config, s: State, p: NodeDesc, at: nat)
    requires p in s.procs && IsClosed(s.done, at)
    ensures Reaches(c, p, Goto(s, p, ScanGet(at, true)), Goto(s, p, ScanCheck(at + 1, true)))
  {
    hide Reaches;
    One(c, p, Goto(s, p, ScanGet(at, true)), Goto(s, p, ScanCheck(at + 1, true)), AScanGet);
  }

  lemma ScanOne(c: Config, s: State, p: NodeDesc, at: nat)
    requires p in s.procs && IsClosed(s.done, at)
    ensures Reaches(c, p, Goto(s, p, ScanCheck(at, true)), Goto(s, p, ScanCheck(at + 1, true)))
  {
    hide Reaches, Goto;
    ScanPresent(c, s, p, at);
    ScanClosed(c, s, p, at);
    Chain(c, p, Goto(s, p, ScanCheck(at, true)), Goto(s, p, ScanGet(at, true)), Goto(s, p, ScanCheck(at + 1, true)));
  }

  lemma ScanStop(c: Config, s: State, p: NodeDesc, at: nat)
    requires p in s.procs && !IsClosed(s.done, at)
    ensures Reaches(c, p, Goto(s, p, ScanCheck(at, true)), Proceed(s, p, at, OpenShutdown))
  {
    hide Reaches, Goto, Proceed;
    if at in s.done {
      ScanPresent(c, s, p, at);
      ScanOpen(c, s, p, at);
      Chain(c, p, Goto(s, p, ScanCheck(at, true)), Goto(s, p, ScanGet(at, true)), Proceed(s, p, at, OpenShutdown));
    } else {
      ScanMissing(c, s, p, at);
    }
  }

  lemma {:induction false} ScanForward(c: Config, s: State, p: NodeDesc, at: nat, n: nat)
    requires p in s.procs && at <= n && !IsClosed(s.done, n) && forall r: nat | at <= r < n :: IsClosed(s.done, r)
    ensures Reaches(c, p, Goto(s, p, ScanCheck(at, true)), Proceed(s, p, n, OpenShutdown))
    decreases n - at
  {
    hide Reaches, Goto, Proceed;
    if at == n {
      hide IsClosed;
      ScanStop(c, s, p, at);
    } else {
      ScanOne(c, s, p, at);
      ScanForward(c, s, p, at + 1, n);
      Chain(c, p, Goto(s, p, ScanCheck(at, true)), Goto(s, p, ScanCheck(at + 1, true)), Proceed(s, p, n, OpenShutdown));
    }
  }

  /** From Step 0 in a closed round, with no shutdown recorded, a node moves up to the first round that is not closed. */
  lemma ClosedRoundsAreSkipped(c: Config, s: State, p: NodeDesc, n: nat)
    requires At(s, p, OpenShutdown) && !s.shutdown.Recorded? && s.procs[p].round < n && !IsClosed(s.done, n)
    requires forall r: nat | s.procs[p].round <= r < n :: IsClosed(s.done, r)
    ensures Reaches(c, p, s, Proceed(s, p, n, OpenShutdown))
  {
    var r := s.procs[p].round;
    assert IsClosed(s.done, r);
    AtSelf(s, p, OpenShutdown);
    hide Reaches, Goto, Proceed;
    TurnOpenShutdown(c, s, p);
    TurnOpenCheck(c, s, p);
    TurnOpenScan(c, s, p);
    Chain(c, p, s, Goto(s, p, OpenCheck), Goto(s, p, OpenGet));
    Chain(c, p, s, Goto(s, p, OpenGet), Goto(s, p, ScanCheck(r, true)));
    ScanForward(c, s, p, r, n);
    Chain(c, p, s, Goto(s, p, ScanCheck(r, true)), Proceed(s, p, n, OpenShutdown));
  }

  function Restarted(s: State, p: NodeDesc): State
    requires p in s.procs
  {
    var next := s.procs[p].round + 1;
    Goto(s.(done := if next in s.done then s.done else s.done[next := Open]), p, OpenShutdown)
  }

  lemma RestartAlone(c: Config, s: State, p: NodeDesc)
    requires p in s.procs && s.procs[p].pc.Active?
    ensures Reaches(c, p, s, Restarted(s, p))
  {
    hide Reaches;
    One(c, p, s, Restarted(s, p), ARestart);
  }

  lemma ProceedAt(s: State, p: NodeDesc, n: nat)
    requires p in s.procs
    ensures At(Proceed(s, p, n, OpenShutdown), p, OpenShutdown)
    ensures Proceed(s, p, n, OpenShutdown).procs[p] == s.procs[p].(round := n, pc := OpenShutdown)
    ensures Goto(Proceed(s, p, n, OpenShutdown), p, Join) == Proceed(s, p, n, Join)
  {
  }

  /** From Step 0 in a closed round whose successor is open, a node comes to draw a slot in the successor. */
  lemma NextRoundIsJoined(c: Config, s: State, p: NodeDesc)
    requires At(s, p, OpenShutdown) && s.procs[p].joins && !s.shutdown.Recorded?
    requires IsClosed(s.done, s.procs[p].round) && IsOpen(s.done, s.procs[p].round + 1)
    ensures Reaches(c, p, s, Proceed(s, p, s.procs[p].round + 1, Join))
  {
    hide Reaches, Proceed, Goto;
    var n := s.procs[p].round + 1;
    var u := Proceed(s, p, n, OpenShutdown);
    ClosedRoundsAreSkipped(c, s, p, n);
    ProceedAt(s, p, n);
    ProceedDone(s, p, n);
    OpenRoundIsJoined(c, u, p);
    Chain(c, p, s, u, Goto(u, p, Join));
  }

  /** A node that has just trained in round r and restarts, while r + 1 is not closed and no shutdown is recorded, comes
      to draw a slot in r + 1 on its own, which it opens if nobody has. */
  lemma RestartRejoins(c: Config, s: State, p: NodeDesc)
    requires Inv(c, s) && p in s.procs && s.procs[p].pc.Active? && s.procs[p].joins && !s.shutdown.Recorded?
    requires !IsClosed(s.done, s.procs[p].round + 1)
    ensures var next := s.procs[p].round + 1;
            var t := s.(done := if next in s.done then s.done else s.done[next := Open]);
            Reaches(c, p, s, Proceed(t, p, next, Join))
  {
    hide Inv, Reaches, Proceed, Goto, Restarted, IsClosed, IsOpen;
    ActiveRoundClosed(c, s, p);
    RestartedAt(s, p);
    RestartAlone(c, s, p);
    RestartedProceeds(s, p);
    NextRoundIsJoined(c, Restarted(s, p), p);
    Chain(c, p, s, Restarted(s, p), Proceed(Restarted(s, p), p, s.procs[p].round + 1, Join));
  }

  lemma RestartedAt(s: State, p: NodeDesc)
    requires p in s.procs && IsClosed(s.done, s.procs[p].round) && !IsClosed(s.done, s.procs[p].round + 1)
    ensures var t, r := Restarted(s, p), s.procs[p].round;
            && At(t, p, OpenShutdown) && t.procs[p].round == r && t.procs[p].joins == s.procs[p].joins
            && t.shutdown == s.shutdown && IsClosed(t.done, r) && IsOpen(t.done, r + 1)
  {
  }

  lemma ProceedDone(s: State, p: NodeDesc, n: nat)
    requires p in s.procs
    ensures Proceed(s, p, n, OpenShutdown).done == s.done && Proceed(s, p, n, OpenShutdown).shutdown == s.shutdown
  {
  }

  lemma RestartedProceeds(s: State, p: NodeDesc)
    requires p in s.procs
    ensures var next := s.procs[p].round + 1;
            p in Restarted(s, p).procs
            && Proceed(Restarted(s, p), p, next, Join)
               == Proceed(s.(done := if next in s.done then s.done else s.done[next := Open]), p, next, Join)
  {
  }

  // ---------------------------------------------------------------- Step 1

  /** The store after p has put UNASSIGNED under its rank key. */
  function RankPut(s: State, p: NodeDesc): State
    requires p in s.procs
  {
    var pr := s.procs[p];
    Goto(s.(ranks := s.ranks[pr.slot := RankEntry(pr.round, UNASSIGNED, 0)],
            claims := s.claims[(pr.round, pr.slot) := Claim(p, Stage.RankWritten)]), p, SlotCheck)
  }

  lemma RankSetAlone(c: Config, s: State, p: NodeDesc)
    requires p in s.procs
    ensures Reaches(c, p, Goto(s, p, RankSet(Lookup(s.ranks, s.procs[p].slot))), RankPut(s, p))
  {
    hide Reaches;
    One(c, p, Goto(s, p, RankSet(Lookup(s.ranks, s.procs[p].slot))), RankPut(s, p), ARankSet);
  }

  lemma RankKeyTaken(c: Config, s: State, p: NodeDesc)
    requires At(s, p, RankCheck) && (s.procs[p].slot in s.ranks ==> s.ranks[s.procs[p].slot].round < s.procs[p].round)
    ensures Reaches(c, p, s, RankPut(s, p))
  {
    AtSelf(s, p, RankCheck);
    hide Reaches, Goto, RankPut;
    var setting := RankSet(Lookup(s.ranks, s.procs[p].slot));
    if s.procs[p].slot in s.ranks {
      TurnRankCheck(c, s, p);
      TurnRankGet(c, s, p);
      Chain(c, p, s, Goto(s, p, RankGet), Goto(s, p, setting));
    } else {
      TurnRankFree(c, s, p);
    }
    RankSetAlone(c, s, p);
    Chain(c, p, s, Goto(s, p, setting), RankPut(s, p));
  }

  /** The store after p has published its data under its slot key. */
  function SlotPut(c: Config, s: State, p: NodeDesc): State
    requires p in s.procs
  {
    var pr := s.procs[p];
    Goto(s.(slots := s.slots[pr.slot := SlotEntry(pr.round, pr.me)],
            claims := s.claims[(pr.round, pr.slot) := Claim(p, Published)]), p,
         if p == c.host then HostShutdown else WaitShutdown)
  }

  lemma SlotSetAlone(c: Config, s: State, p: NodeDesc)
    requires p in s.procs
    ensures Reaches(c, p, Goto(s, p, SlotSet(Lookup(s.slots, s.procs[p].slot))), SlotPut(c, s, p))
  {
    hide Reaches;
    One(c, p, Goto(s, p, SlotSet(Lookup(s.slots, s.procs[p].slot))), SlotPut(c, s, p), ASlotSet);
  }

  lemma SlotKeyTaken(c: Config, s: State, p: NodeDesc)
    requires At(s, p, SlotCheck) && (s.procs[p].slot in s.slots ==> s.slots[s.procs[p].slot].round < s.procs[p].round)
    ensures Reaches(c, p, s, SlotPut(c, s, p))
  {
    AtSelf(s, p, SlotCheck);
    hide Reaches, Goto, SlotPut;
    var setting := SlotSet(Lookup(s.slots, s.procs[p].slot));
    if s.procs[p].slot in s.slots {
      TurnSlotCheck(c, s, p);
      TurnSlotGet(c, s, p);
      Chain(c, p, s, Goto(s, p, SlotGet), Goto(s, p, setting));
    } else {
      TurnSlotFree(c, s, p);
    }
    SlotSetAlone(c, s, p);
    Chain(c, p, s, Goto(s, p, setting), SlotPut(c, s, p));
  }

  function NextSlot(s: State, r: nat): nat {
    (if r in s.joinCount then s.joinCount[r] else 0) + 1
  }

  /** The state in which p has drawn the next slot of its round and published there. */
  ghost predicate PublishedNext(c: Config, s: State, t: State, p: NodeDesc)
    requires p in s.procs
  {
    var r, k := s.procs[p].round, NextSlot(s, s.procs[p].round);
    && p in t.procs
    && t.procs[p] == s.procs[p].(slot := k, pc := if p == c.host then HostShutdown else WaitShutdown)
    && t.joinCount == s.joinCount[r := k] && t.slots == s.slots[k := SlotEntry(r, s.procs[p].me)]
    && t.ranks == s.ranks[k := RankEntry(r, UNASSIGNED, 0)]
    && t.done == s.done && t.shutdown == s.shutdown && t.plans == s.plans && t.unhealthy == s.unhealthy
    && t.procs == s.procs[p := t.procs[p]]
  }

  lemma OlderRank(c: Config, s: State, r: nat, k: nat)
    requires Inv(c, s) && IsOpen(s.done, r) && (r, k) !in s.claims && k in s.ranks
    ensures s.ranks[k].round < r
  {
    RankRound(c, s, k, r);
  }

  lemma OlderSlot(c: Config, s: State, r: nat, k: nat)
    requires Inv(c, s) && IsOpen(s.done, r) && (r, k) !in s.claims && k in s.slots
    ensures s.slots[k].round < r
  {
    SlotRound(c, s, k, r);
  }

  function Joined(s: State, p: NodeDesc): State
    requires p in s.procs
  {
    var pr := s.procs[p];
    var k := NextSlot(s, pr.round);
    s.(joinCount := s.joinCount[pr.round := k], claims := s.claims[(pr.round, k) := Claim(p, Claimed)],
       procs := s.procs[p := pr.(slot := k, pc := RankCheck)])
  }

  lemma JoinAlone(c: Config, s: State, p: NodeDesc)
    requires At(s, p, Join)
    ensures Reaches(c, p, s, Joined(s, p))
  {
    hide Reaches;
    One(c, p, s, Joined(s, p), AJoin);
  }

  lemma JoinedAt(s: State, p: NodeDesc)
    requires p in s.procs
    ensures var u := Joined(s, p);
            && At(u, p, RankCheck) && u.procs[p].slot == NextSlot(s, s.procs[p].round) && u.procs[p].round == s.procs[p].round
            && u.ranks == s.ranks && u.slots == s.slots
  {
  }

  lemma RankPutAt(s: State, p: NodeDesc)
    requires p in s.procs
    ensures var v := RankPut(s, p);
            && At(v, p, SlotCheck) && v.procs[p].slot == s.procs[p].slot && v.procs[p].round == s.procs[p].round
            && v.slots == s.slots
  {
  }

  lemma PutsPublish(c: Config, s: State, p: NodeDesc)
    requires p in s.procs
    ensures p in Joined(s, p).procs && p in RankPut(Joined(s, p), p).procs
    ensures PublishedNext(c, s, SlotPut(c, RankPut(Joined(s, p), p), p), p)
  {
  }

  /** A node about to draw a slot in an open round publishes there on its own, whatever values of other rounds the keys
      of that slot still hold. */
  lemma JoinerPublishes(c: Config, s: State, p: NodeDesc) returns (t: State)
    requires Inv(c, s) && At(s, p, Join) && IsOpen(s.done, s.procs[p].round)
    ensures Reaches(c, p, s, t) && PublishedNext(c, s, t, p)
  {
    hide Inv, Reaches, Joined, RankPut, SlotPut, PublishedNext, IsOpen;
    var r, k := s.procs[p].round, NextSlot(s, s.procs[p].round);
    NextSlotIsFree(c, s, r, k);
    if k in s.ranks { OlderRank(c, s, r, k); }
    if k in s.slots { OlderSlot(c, s, r, k); }
    JoinAlone(c, s, p);
    var u := Joined(s, p);
    JoinedAt(s, p);
    RankKeyTaken(c, u, p);
    var v := RankPut(u, p);
    RankPutAt(u, p);
    SlotKeyTaken(c, v, p);
    t := SlotPut(c, v, p);
    Chain(c, p, s, u, v);
    Chain(c, p, s, v, t);
    PutsPublish(c, s, p);
  }

  // ---------------------------------------------------------------- Step 2

  /** The slots of round r as they stand in s. */
  function SnapshotIn(s: State, r: nat, n: nat): (snapshot: seq<Option<Participant>>)
    ensures |snapshot| == n && forall m | 0 <= m < n :: snapshot[m] == FetchSlot(s, r, m + 1)
  {
    if n == 0 then [] else SnapshotIn(s, r, n - 1) + [FetchSlot(s, r, n)]
  }

  /** The host has read the first m of n slots. */
  ghost predicate ReadFirst(s: State, r: nat, n: nat, m: nat, pc: Pc) {
    && m <= n && pc.HostFetch? && pc.joined == n && |pc.snapshot| == n
    && (forall i: nat :: i in pc.todo <==> m <= i < n)
    && forall i: nat | i < m :: pc.snapshot[i] == FetchSlot(s, r, i + 1)
  }

  lemma ReadNext(s: State, p: NodeDesc, n: nat, m: nat, pc: Pc) returns (next: Pc)
    requires p in s.procs && ReadFirst(s, s.procs[p].round, n, m, pc) && m < n
    ensures ReadFirst(s, s.procs[p].round, n, m + 1, next)
    ensures HostFetches(Goto(s, p, pc), Goto(s, p, next), p)
  {
    var r := s.procs[p].round;
    next := HostFetch(n, pc.todo - {m}, pc.snapshot[m := FetchSlot(s, r, m + 1)]);
    assert FetchSlot(Goto(s, p, pc), r, m + 1) == FetchSlot(s, r, m + 1);
    hide FetchSlot;
    assert m in pc.todo;
    assert FetchesAt(Goto(s, p, pc), Goto(s, p, next), p, m);
  }

  lemma {:induction false} ReadRest(c: Config, s: State, p: NodeDesc, n: nat, m: nat, pc: Pc) returns (last: Pc)
    requires p in s.procs && ReadFirst(s, s.procs[p].round, n, m, pc)
    ensures ReadFirst(s, s.procs[p].round, n, n, last)
    ensures Reaches(c, p, Goto(s, p, pc), Goto(s, p, last))
    decreases n - m
  {
    hide Reaches, ReadFirst;
    if m >= n {
      assert m == n by { BoundedRead(s, s.procs[p].round, n, m, pc); }
      last := pc;
      Stands(c, p, Goto(s, p, pc));
    } else {
      var next := ReadNext(s, p, n, m, pc);
      FetchActs(c, Goto(s, p, pc), Goto(s, p, next), p);
      last := ReadRest(c, s, p, n, m + 1, next);
      Chain(c, p, Goto(s, p, pc), Goto(s, p, next), Goto(s, p, last));
    }
  }

  lemma BoundedRead(s: State, r: nat, n: nat, m: nat, pc: Pc)
    requires ReadFirst(s, r, n, m, pc)
    ensures m <= n
  {
  }

  lemma FetchActs(c: Config, s: State, s': State, p: NodeDesc)
    requires HostFetches(s, s', p)
    ensures Reaches(c, p, s, s')
  {
    assert Step(c, s, s', p, AHostFetch) by { hide HostFetches; }
    One(c, p, s, s', AHostFetch);
  }

  lemma AllRead(s: State, r: nat, n: nat, pc: Pc)
    requires ReadFirst(s, r, n, n, pc)
    ensures pc.HostFetch? && pc.joined == n && pc.todo == {} && pc.snapshot == SnapshotIn(s, r, n)
  {
  }

  lemma FetchBegins(c: Config, s: State, p: NodeDesc, n: nat) returns (pc: Pc)
    requires At(s, p, HostShutdown) && !s.shutdown.Recorded?
    requires s.procs[p].round in s.joinCount && s.joinCount[s.procs[p].round] == n >= c.minNodes
    ensures ReadFirst(s, s.procs[p].round, n, 0, pc) && Reaches(c, p, s, Goto(s, p, pc))
  {
    hide Reaches, Goto, Unread, Indices;
    UnreadIsBlank(n);
    pc := HostFetch(n, Indices(n), Unread(n));
    AtSelf(s, p, HostShutdown);
    TurnHostShutdown(c, s, p);
    TurnHostCheck(c, s, p);
    CountAlone(c, s, p, n);
    Chain(c, p, s, Goto(s, p, HostCheck), Goto(s, p, HostCount));
    Chain(c, p, s, Goto(s, p, HostCount), Goto(s, p, pc));
  }

  lemma CountAlone(c: Config, s: State, p: NodeDesc, n: nat)
    requires p in s.procs && s.procs[p].round in s.joinCount && s.joinCount[s.procs[p].round] == n >= c.minNodes
    ensures Reaches(c, p, Goto(s, p, HostCount), Goto(s, p, HostFetch(n, Indices(n), Unread(n))))
  {
    hide Reaches, Unread, Indices;
    One(c, p, Goto(s, p, HostCount), Goto(s, p, HostFetch(n, Indices(n), Unread(n))), AHostCount);
  }

  lemma ReadingEnds(c: Config, s: State, p: NodeDesc, n: nat, snapshot: seq<Option<Participant>>)
    requires p in s.procs
    ensures Reaches(c, p, Goto(s, p, HostFetch(n, {}, snapshot)), Goto(s, p, HostRecount(n, snapshot)))
  {
    hide Reaches, FetchesAt;
    One(c, p, Goto(s, p, HostFetch(n, {}, snapshot)), Goto(s, p, HostRecount(n, snapshot)), AHostFetch);
  }

  lemma RecountAlone(c: Config, s: State, p: NodeDesc, n: nat, snapshot: seq<Option<Participant>>)
    requires p in s.procs && s.procs[p].round in s.joinCount && s.joinCount[s.procs[p].round] == n
    ensures Reaches(c, p, Goto(s, p, HostRecount(n, snapshot)), Goto(s, p, HostGroups(snapshot)))
  {
    hide Reaches;
    One(c, p, Goto(s, p, HostRecount(n, snapshot)), Goto(s, p, HostGroups(snapshot)), AHostRecount);
  }

  /** The host on its own reads every slot drawn so far as it stands, and comes to its decision. */
  lemma HostReachesDecision(c: Config, s: State, p: NodeDesc, n: nat)
    requires At(s, p, HostShutdown) && !s.shutdown.Recorded?
    requires s.procs[p].round in s.joinCount && s.joinCount[s.procs[p].round] == n >= c.minNodes
    ensures Reaches(c, p, s, Goto(s, p, HostGroups(SnapshotIn(s, s.procs[p].round, n))))
  {
    hide Reaches, ReadFirst;
    var first := FetchBegins(c, s, p, n);
    var last := ReadRest(c, s, p, n, 0, first);
    AllRead(s, s.procs[p].round, n, last);
    Chain(c, p, s, Goto(s, p, first), Goto(s, p, last));
    var snapshot := SnapshotIn(s, s.procs[p].round, n);
    hide SnapshotIn, Goto;
    assert last == HostFetch(n, {}, snapshot);
    ReadingEnds(c, s, p, n, snapshot);
    RecountAlone(c, s, p, n, snapshot);
    Chain(c, p, s, Goto(s, p, last), Goto(s, p, HostRecount(n, snapshot)));
    Chain(c, p, s, Goto(s, p, HostRecount(n, snapshot)), Goto(s, p, HostGroups(snapshot)));
  }

  /** The rank keys of slots 1, ..., m hold what the plan gives, the others are as before. */
  ghost predicate PutUpTo(before: RankKeys, ranks: RankKeys, plan: Plan, r: nat, m: nat) {
    && (forall k: nat :: k in ranks <==> k in before || (k <= m && Writes(plan, k)))
    && (forall k: nat | k <= m && Writes(plan, k) :: ranks[k] == PlannedEntry(plan, r, k))
    && forall k: nat | k in before && !(k <= m && Writes(plan, k)) :: ranks[k] == before[k]
  }

  lemma PutOne(before: RankKeys, ranks: RankKeys, plan: Plan, r: nat, m: nat)
    requires PutUpTo(before, ranks, plan, r, m)
    ensures Writes(plan, m + 1) ==> PutUpTo(before, ranks[m + 1 := PlannedEntry(plan, r, m + 1)], plan, r, m + 1)
    ensures !Writes(plan, m + 1) ==> PutUpTo(before, ranks, plan, r, m + 1)
  {
    hide PlannedEntry, Writes;
  }

  ghost predicate Put(s: State, t: State, p: NodeDesc, plan: Plan, r: nat, m: nat) {
    && p in s.procs && t == s.(ranks := t.ranks, procs := s.procs[p := s.procs[p].(pc := HostWrite(m))])
    && PutUpTo(s.ranks, t.ranks, plan, r, m)
  }

  lemma PutNext(c: Config, s: State, t: State, p: NodeDesc, plan: Plan, m: nat) returns (u: State)
    requires p in s.procs && s.procs[p].round in s.plans && s.plans[s.procs[p].round] == plan && m < |plan.snapshot|
    requires Put(s, t, p, plan, s.procs[p].round, m)
    ensures Put(s, u, p, plan, s.procs[p].round, m + 1) && HostWrites(t, u, p)
  {
    var r := s.procs[p].round;
    PutOne(s.ranks, t.ranks, plan, r, m);
    hide PlannedEntry, Writes, PutUpTo;
    if Writes(plan, m + 1) {
      u := Goto(t.(ranks := t.ranks[m + 1 := PlannedEntry(plan, r, m + 1)]), p, HostWrite(m + 1));
    } else {
      u := Goto(t, p, HostWrite(m + 1));
    }
  }

  lemma WriteActs(c: Config, s: State, s': State, p: NodeDesc)
    requires HostWrites(s, s', p)
    ensures Reaches(c, p, s, s')
  {
    assert Step(c, s, s', p, AHostWrite) by { hide HostWrites; }
    One(c, p, s, s', AHostWrite);
  }

  lemma {:induction false} PutRest(c: Config, s: State, t: State, p: NodeDesc, plan: Plan, m: nat) returns (u: State)
    requires p in s.procs && s.procs[p].round in s.plans && s.plans[s.procs[p].round] == plan && m <= |plan.snapshot|
    requires Put(s, t, p, plan, s.procs[p].round, m)
    ensures Put(s, u, p, plan, s.procs[p].round, |plan.snapshot|) && Reaches(c, p, t, u)
    decreases |plan.snapshot| - m
  {
    hide Reaches, Put, HostWrites;
    if m == |plan.snapshot| {
      u := t;
      Stands(c, p, t);
    } else {
      var v := PutNext(c, s, t, p, plan, m);
      WriteActs(c, t, v, p);
      u := PutRest(c, s, v, p, plan, m + 1);
      Chain(c, p, t, v, u);
    }
  }

  lemma NothingPut(s: State, p: NodeDesc, plan: Plan, r: nat)
    requires At(s, p, HostWrite(0))
    ensures Put(s, s, p, plan, r, 0)
  {
    AtSelf(s, p, HostWrite(0));
  }

  /** The state in which the host has closed its round on this plan. */
  ghost predicate ClosedOn(s: State, t: State, p: NodeDesc, plan: Plan)
    requires p in s.procs
  {
    var r := s.procs[p].round;
    && t.done == s.done[r := Closed] && r in t.plans && t.plans[r] == plan
    && t.slots == s.slots && t.shutdown == s.shutdown && t.unhealthy == s.unhealthy
    && p in t.procs && t.procs == s.procs[p := t.procs[p]]
    && t.procs[p] == s.procs[p].(pc := if s.procs[p].joins then WaitShutdown else Idle)
    && forall k: nat | Writes(plan, k) :: k in t.ranks && t.ranks[k] == PlannedEntry(plan, r, k)
  }

  lemma WritingEnds(c: Config, s: State, p: NodeDesc, plan: Plan)
    requires p in s.procs && s.procs[p].round in s.plans && s.plans[s.procs[p].round] == plan
    ensures Reaches(c, p, Goto(s, p, HostWrite(|plan.snapshot|)), Goto(s, p, HostClose))
  {
    hide Reaches, Writes, PlannedEntry;
    assert HostWrites(Goto(s, p, HostWrite(|plan.snapshot|)), Goto(s, p, HostClose), p);
    WriteActs(c, Goto(s, p, HostWrite(|plan.snapshot|)), Goto(s, p, HostClose), p);
  }

  function Shut(s: State, p: NodeDesc): State
    requires p in s.procs
  {
    Goto(s.(done := s.done[s.procs[p].round := Closed]), p, if s.procs[p].joins then WaitShutdown else Idle)
  }

  lemma CloseAlone(c: Config, s: State, p: NodeDesc)
    requires p in s.procs
    ensures Reaches(c, p, Goto(s, p, HostClose), Shut(s, p))
  {
    hide Reaches;
    One(c, p, Goto(s, p, HostClose), Shut(s, p), AHostClose);
  }

  lemma ShutIsClosed(s: State, t: State, p: NodeDesc, plan: Plan)
    requires p in s.procs && s.procs[p].round in s.plans && s.plans[s.procs[p].round] == plan
    requires Put(s, t, p, plan, s.procs[p].round, |plan.snapshot|)
    ensures ClosedOn(s, Shut(t, p), p, plan)
  {
    hide PlannedEntry;
    forall k: nat | Writes(plan, k) ensures k <= |plan.snapshot| {}
  }

  lemma HostCloseAlone(c: Config, s: State, t: State, p: NodeDesc, plan: Plan) returns (u: State)
    requires p in s.procs && s.procs[p].round in s.plans && s.plans[s.procs[p].round] == plan
    requires Put(s, t, p, plan, s.procs[p].round, |plan.snapshot|)
    ensures Reaches(c, p, t, u) && ClosedOn(s, u, p, plan)
  {
    ShutIsClosed(s, t, p, plan);
    AtSelf(t, p, HostWrite(|plan.snapshot|));
    hide Reaches, Goto, Shut, ClosedOn, PutUpTo;
    WritingEnds(c, t, p, plan);
    CloseAlone(c, t, p);
    u := Shut(t, p);
    Chain(c, p, t, Goto(t, p, HostClose), u);
  }

  lemma DecisionSettles(c: Config, s: State, p: NodeDesc)
    requires p in s.procs && s.procs[p].pc.HostGroups? && Verdicts(c, s, s.procs[p]).Settle?
    ensures var plan := Verdicts(c, s, s.procs[p]).plan;
            Reaches(c, p, s, Goto(s.(plans := s.plans[s.procs[p].round := plan]), p, HostWrite(0)))
  {
    hide Reaches, Verdicts, HostMayGo;
    var plan := Verdicts(c, s, s.procs[p]).plan;
    var t := Goto(s.(plans := s.plans[s.procs[p].round := plan]), p, HostWrite(0));
    assert HostDecides(c, s, t, p);
    hide HostDecides;
    One(c, p, s, t, AHostDecide);
  }

  /** The host at its loop head, with enough joiners and slots on which its verdict is to settle, writes the ranks and
      closes the round on its own. */
  lemma HostCloses(c: Config, s: State, p: NodeDesc, n: nat) returns (t: State)
    requires At(s, p, HostShutdown) && !s.shutdown.Recorded?
    requires s.procs[p].round in s.joinCount && s.joinCount[s.procs[p].round] == n >= c.minNodes
    requires Judge(c, SnapshotIn(s, s.procs[p].round, n), UnhealthyIn(s, s.procs[p].round)).Settle?
    ensures Reaches(c, p, s, t)
    ensures ClosedOn(s, t, p, Judge(c, SnapshotIn(s, s.procs[p].round, n), UnhealthyIn(s, s.procs[p].round)).plan)
  {
    hide Reaches, Judge, SnapshotIn, Put, ClosedOn;
    var r := s.procs[p].round;
    var snapshot := SnapshotIn(s, r, n);
    var plan := Judge(c, snapshot, UnhealthyIn(s, r)).plan;
    HostReachesDecision(c, s, p, n);
    var d := Goto(s, p, HostGroups(snapshot));
    assert Verdicts(c, d, d.procs[p]) == Judge(c, snapshot, UnhealthyIn(s, r));
    hide Verdicts;
    DecisionSettles(c, d, p);
    var w := Goto(d.(plans := d.plans[r := plan]), p, HostWrite(0));
    Chain(c, p, s, d, w);
    NothingPut(w, p, plan, r);
    var v := PutRest(c, w, w, p, plan, 0);
    Chain(c, p, s, w, v);
    t := HostCloseAlone(c, w, v, p, plan);
    Chain(c, p, s, v, t);
    SameButPc(s, w, t, p, plan);
  }

  lemma SameButPc(s: State, w: State, t: State, p: NodeDesc, plan: Plan)
    requires p in s.procs && w == s.(plans := w.plans, procs := w.procs)
    requires w.procs == s.procs[p := s.procs[p].(pc := HostWrite(0))] && ClosedOn(w, t, p, plan)
    ensures ClosedOn(s, t, p, plan)
  {
    hide PlannedEntry, Writes;
  }

  // ---------------------------------------------------------------- Step 3

  /** A waiting node of a closed round whose rank key holds an active rank of that round returns with it on its own. */
  lemma WaiterReturns(c: Config, s: State, p: NodeDesc, e: RankEntry)
    requires At(s, p, WaitShutdown) && !s.shutdown.Recorded? && IsClosed(s.done, s.procs[p].round)
    requires Lookup(s.ranks, s.procs[p].slot) == Some(e) && e.round == s.procs[p].round && 0 <= e.rank < c.minNodes
    ensures Reaches(c, p, s, Goto(s, p, Active(e.rank, e.total)))
  {
    AtSelf(s, p, WaitShutdown);
    hide Reaches, Goto;
    TurnWaitShutdown(c, s, p);
    TurnWaitGet(c, s, p);
    TurnRankPresent(c, s, p);
    TurnRankRead(c, s, p, e);
    Chain(c, p, s, Goto(s, p, WaitGet), Goto(s, p, RankPresent));
    Chain(c, p, s, Goto(s, p, RankPresent), Goto(s, p, RankRead));
    Chain(c, p, s, Goto(s, p, RankRead), Goto(s, p, Active(e.rank, e.total)));
  }

  /** A whole round: once the host runs alone from its loop head, a node waiting on a slot to which the verdict gives an
      active rank returns with that rank when it runs next, and needs nobody else. */
  lemma RoundCompletes(c: Config, s: State, p: NodeDesc, n: nat, q: NodeDesc) returns (t: State)
    requires At(s, p, HostShutdown) && !s.shutdown.Recorded?
    requires s.procs[p].round in s.joinCount && s.joinCount[s.procs[p].round] == n >= c.minNodes
    requires Judge(c, SnapshotIn(s, s.procs[p].round, n), UnhealthyIn(s, s.procs[p].round)).Settle?
    requires q != p && At(s, q, WaitShutdown) && s.procs[q].round == s.procs[p].round
    requires var plan := Judge(c, SnapshotIn(s, s.procs[p].round, n), UnhealthyIn(s, s.procs[p].round)).plan;
             Writes(plan, s.procs[q].slot) && plan.ranks[plan.snapshot[s.procs[q].slot - 1].value.node] < c.minNodes
    ensures Reaches(c, p, s, t) && q in t.procs
    ensures var plan := Judge(c, SnapshotIn(s, s.procs[p].round, n), UnhealthyIn(s, s.procs[p].round)).plan;
            var rank := plan.ranks[plan.snapshot[s.procs[q].slot - 1].value.node];
            Reaches(c, q, t, Goto(t, q, Active(rank, |plan.ranks|)))
  {
    hide Reaches, Judge, SnapshotIn;
    t := HostCloses(c, s, p, n);
    var plan := Judge(c, SnapshotIn(s, s.procs[p].round, n), UnhealthyIn(s, s.procs[p].round)).plan;
    assert t.procs[q] == s.procs[q];
    assert Writes(plan, s.procs[q].slot);
    WaiterReturns(c, t, q, PlannedEntry(plan, s.procs[q].round, s.procs[q].slot));
  }
}
