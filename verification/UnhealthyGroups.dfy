/** Marking replacement groups unhealthy: the compare-and-set retry loop of `_mark_replacement_group_unhealthy`. */
module UnhealthyGroups {
  import opened Prelude
  import B = Barrier

  /** The key: missing, or a set of group ids (its packing is canonical, so equal sets are equal values). */
  type Cell = Option<set<string>>

  function Groups(v: Cell): set<string> {
    if v.Some? then v.value else {}
  }

  // ---------------------------------------------------------------- one caller against any interference

  /** Contents of the key over time: once written it stays non-empty, and ids are only added. */
  ghost predicate Growing(history: seq<Cell>) {
    && history != []
    && (forall i | 0 <= i < |history| :: history[i] != Some({}))
    && (forall i, j | 0 <= i <= j < |history| :: Groups(history[i]) <= Groups(history[j]))
  }

  lemma ViewGrows(history: seq<Cell>, m: nat, n: nat)
    requires Growing(history) && m <= n
    ensures Groups(View(history, m)) <= Groups(View(history, n))
    ensures View(history, m).Some? ==> View(history, n).Some?
    ensures Groups(View(history, m)) == Groups(View(history, n)) <==> View(history, m) == View(history, n)
  {
    var a, b := View(history, m), View(history, n);
    assert Groups(a) <= Groups(b);
    assert (a.Some? ==> a.value != {}) && (b.Some? ==> b.value != {});
    assert a.Some? ==> Groups(b) != {};
  }

  lemma {:induction false} Larger(a: set<string>, b: set<string>)
    requires a <= b && a != b
    ensures |a| < |b|
  {
    var x :| x in b && x !in a;
    assert |b| == |b - {x}| + 1;
    if a != b - {x} { Larger(a, b - {x}); }
  }

  /** One compare-and-set of a set without id, when the key may have grown since it was read. */
  lemma SwapOutcome(id: string, expected: Cell, seen: Cell)
    requires id !in Groups(expected) && Groups(expected) <= Groups(seen) && (expected.Some? ==> seen.Some?)
    requires Groups(expected) == Groups(seen) <==> expected == seen
    ensures var desired := Groups(expected) + {id};
            var (kept, got) := B.CompareSet(seen, expected, desired);
            && |Groups(expected)| <= |Groups(seen)|
            && (if got == desired then kept == Some(Groups(seen) + {id}) && |Groups(expected)| < |desired|
                else seen == Some(got) && |Groups(expected)| < |got|)
  {
    var desired := Groups(expected) + {id};
    Larger(Groups(expected), desired);
    if Groups(expected) != Groups(seen) {
      Larger(Groups(expected), Groups(seen));
    }
  }

  /** The retry loop. It ends with every id that was there plus its own, each failed compare-and-set has seen more ids
      than the one before, and so the failures are at most as many as the ids it ended up seeing. */
  method MarkUnhealthy(id: string, history: seq<Cell>) returns (stored: Cell, operations: nat, failed: nat)
    requires history != [] && Growing(history)
    ensures operations > 0 && stored == Some(Groups(View(history, operations - 1)) + {id})
    ensures failed <= |Groups(View(history, operations - 1))|
    ensures id !in Groups(View(history, operations - 1)) ==> failed < |Groups(stored)|
  {
    hide Growing;
    operations, failed := 0, 0;
    var expected: Cell := None;
    while true
      invariant operations == 0 ==> expected.None? && failed == 0
      invariant operations > 0 ==> expected == View(history, operations - 1) && expected.Some?
      invariant failed <= |Groups(expected)|
      decreases |history| - operations, if expected == View(history, operations) then 0 else 1
    {
      var current: set<string> := {};
      if expected.Some? {
        current := expected.value;
      } else {
        var present := View(history, operations).Some?;
        operations := operations + 1;
        if present {
          ViewGrows(history, operations - 1, operations);
          expected := View(history, operations);
          operations := operations + 1;
          current := expected.value;
        }
      }
      if id in current {
        stored := expected;
        assert current == Groups(View(history, operations - 1)) + {id};
        return;
      }
      var seen := View(history, operations);
      ViewGrows(history, operations - 1, operations);
      SwapOutcome(id, expected, seen);
      operations := operations + 1;
      var (kept, got) := B.CompareSet(seen, expected, current + {id});
      if got == current + {id} {
        stored := kept;
        return;
      }
      failed := failed + 1;
      expected := Some(got);
    }
  }

  // ---------------------------------------------------------------- many callers at once

  datatype Pc =
    | Checking
    | Getting
    | Swapping(expected: Cell)     // next: compare_set(expected, expected + {id})
    | Returned
    | Stopped

  datatype Caller = Caller(id: string, pc: Pc, failed: nat)

  datatype State = State(cell: Cell, callers: map<nat, Caller>)

  /** After reading a value: return when the id is already there, else try to add it. */
  function AfterRead(id: string, value: set<string>): Pc {
    if id in value then Returned else Swapping(Some(value))
  }

  function Update(s: State, n: nat, caller: Caller): State {
    s.(callers := s.callers[n := caller])
  }

  ghost predicate Arrives(s: State, s': State, n: nat) {
    n !in s.callers && exists id :: s' == Update(s, n, Caller(id, Checking, 0))
  }

  ghost predicate Checks(s: State, s': State, n: nat) {
    && n in s.callers && s.callers[n].pc.Checking?
    && s' == Update(s, n, s.callers[n].(pc := if s.cell.Some? then Getting else Swapping(None)))
  }

  ghost predicate Gets(s: State, s': State, n: nat) {
    && n in s.callers && s.callers[n].pc.Getting? && s.cell.Some?
    && s' == Update(s, n, s.callers[n].(pc := AfterRead(s.callers[n].id, s.cell.value)))
  }

  ghost predicate Swaps(s: State, s': State, n: nat) {
    && n in s.callers && s.callers[n].pc.Swapping?
    && var me := s.callers[n];
       var desired := Groups(me.pc.expected) + {me.id};
       var (kept, got) := B.CompareSet(s.cell, me.pc.expected, desired);
       s' == Update(s.(cell := kept), n,
                    if got == desired then me.(pc := Returned)
                    else me.(pc := AfterRead(me.id, got), failed := me.failed + 1))
  }

  ghost predicate Stops(s: State, s': State, n: nat) {
    n in s.callers && s' == Update(s, n, s.callers[n].(pc := Stopped))
  }

  ghost predicate Step(s: State, s': State, n: nat) {
    Arrives(s, s', n) || Checks(s, s', n) || Gets(s, s', n) || Swaps(s, s', n) || Stops(s, s', n)
  }

  ghost predicate Next(s: State, s': State) {
    exists n :: Step(s, s', n)
  }

  ghost predicate Run(run: seq<State>) {
    && run != [] && run[0] == State(None, map[])
    && forall i | 0 <= i < |run| - 1 :: Next(run[i], run[i + 1])
  }

  /** The distinct ids callers have asked for. */
  function Ids(callers: map<nat, Caller>): set<string> {
    set n | n in callers :: callers[n].id
  }

  ghost predicate CallerOk(cell: Cell, me: Caller) {
    match me.pc
    case Checking => me.failed == 0
    case Getting => me.failed == 0 && cell.Some?
    case Swapping(e) =>
      && e != Some({}) && Groups(e) <= Groups(cell) && me.id !in Groups(e) && me.failed <= |Groups(e)|
    case Returned => me.id in Groups(cell) && me.failed <= |Groups(cell)|
    case Stopped => me.failed <= |Groups(cell)|
  }

  ghost predicate Inv(s: State) {
    && s.cell != Some({}) && Groups(s.cell) <= Ids(s.callers)
    && forall n | n in s.callers :: CallerOk(s.cell, s.callers[n])
  }

  lemma SizeMonotone(a: set<string>, b: set<string>)
    requires a <= b
    ensures |a| <= |b|
  {
    if a != b { Larger(a, b); }
  }

  /** What a caller relies on survives growth of the set. */
  lemma StaysOk(cell: Cell, cell': Cell, me: Caller)
    requires CallerOk(cell, me) && Groups(cell) <= Groups(cell') && (cell.Some? ==> cell'.Some?)
    ensures CallerOk(cell', me)
  {
    SizeMonotone(Groups(cell), Groups(cell'));
  }

  lemma IdsGrow(callers: map<nat, Caller>, n: nat, me: Caller)
    requires n in callers ==> callers[n].id == me.id
    ensures Ids(callers[n := me]) == Ids(callers) + {me.id}
  {
    forall x | x in Ids(callers) + {me.id} ensures x in Ids(callers[n := me]) {
      if x == me.id {
        assert callers[n := me][n].id == x;
      } else {
        var m :| m in callers && callers[m].id == x;
        assert callers[n := me][m].id == x;
      }
    }
  }

  /** A caller moves, the set grows at most by the caller's id. */
  lemma Moves(s: State, s': State, n: nat, me: Caller)
    requires Inv(s) && s' == Update(s.(cell := s'.cell), n, me) && CallerOk(s'.cell, me)
    requires n in s.callers ==> s.callers[n].id == me.id
    requires s'.cell != Some({}) && Groups(s.cell) <= Groups(s'.cell) <= Groups(s.cell) + {me.id}
    ensures Inv(s')
  {
    IdsGrow(s.callers, n, me);
    forall m | m in s'.callers ensures CallerOk(s'.cell, s'.callers[m]) {
      if m != n { StaysOk(s.cell, s'.cell, s.callers[m]); }
    }
  }

  /** A compare-and-set either adds exactly the caller's id, or changes nothing and has seen strictly more ids. */
  lemma SwapCases(s: State, s': State, n: nat)
    requires Inv(s) && Swaps(s, s', n)
    ensures var me := s.callers[n];
            var seen := Groups(me.pc.expected);
            && s'.cell.Some?
            && (me.pc.expected == s.cell ==> s'.cell.value == Groups(s.cell) + {me.id} && s'.callers[n].pc == Returned)
            && (me.pc.expected != s.cell ==> s'.cell == s.cell && seen < s.cell.value && |seen| < |s.cell.value|)
  {
    var me := s.callers[n];
    assert CallerOk(s.cell, me);
    if me.pc.expected != s.cell {
      Larger(Groups(me.pc.expected), Groups(s.cell));
    }
  }

  lemma StepKeeps(s: State, s': State, n: nat)
    requires Inv(s) && Step(s, s', n)
    ensures Inv(s') && Groups(s.cell) <= Groups(s'.cell)
  {
    if n in s.callers { assert CallerOk(s.cell, s.callers[n]); }
    if Swaps(s, s', n) {
      SwapCases(s, s', n);
    } else if n in s.callers && s.callers[n].pc.Swapping? {
      SizeMonotone(Groups(s.callers[n].pc.expected), Groups(s.cell));
    }
    Moves(s, s', n, s'.callers[n]);
  }

  lemma {:induction false} RunKeeps(run: seq<State>, i: nat)
    requires Run(run) && i < |run|
    ensures Inv(run[i])
  {
    hide Step, Inv;
    if i == 0 {
      Starts();
    } else {
      RunKeeps(run, i - 1);
      assert Next(run[i - 1], run[i - 1 + 1]);
      var n :| Step(run[i - 1], run[i], n);
      StepKeeps(run[i - 1], run[i], n);
    }
  }

  lemma Starts()
    ensures Inv(State(None, map[]))
  {
  }

  /** The stored set only grows along a run. */
  lemma {:induction false} SetOnlyGrows(run: seq<State>, i: nat, j: nat)
    requires Run(run) && i <= j < |run|
    ensures Groups(run[i].cell) <= Groups(run[j].cell)
    decreases j - i
  {
    hide Step, Inv;
    if i < j {
      SetOnlyGrows(run, i, j - 1);
      RunKeeps(run, j - 1);
      assert Next(run[j - 1], run[j - 1 + 1]);
      var n :| Step(run[j - 1], run[j], n);
      StepKeeps(run[j - 1], run[j], n);
    }
  }

  /** No update is lost: once a caller has returned, its id is in the set ever after, and the set holds only ids that
      were asked for. */
  lemma NoLostUpdate(run: seq<State>, i: nat, j: nat, n: nat)
    requires Run(run) && i <= j < |run| && n in run[i].callers && run[i].callers[n].pc.Returned?
    ensures run[i].callers[n].id in Groups(run[j].cell) && Groups(run[j].cell) <= Ids(run[j].callers)
  {
    RunKeeps(run, i);
    RunKeeps(run, j);
    SetOnlyGrows(run, i, j);
    assert CallerOk(run[i].cell, run[i].callers[n]);
  }

  /** Retries are bounded by the number of distinct ids, and while its own id is still to be added, strictly. */
  lemma RetriesBounded(run: seq<State>, i: nat, n: nat)
    requires Run(run) && i < |run| && n in run[i].callers
    ensures run[i].callers[n].failed <= |Ids(run[i].callers)|
    ensures run[i].callers[n].pc.Swapping? ==> run[i].callers[n].failed < |Ids(run[i].callers)|
  {
    RunKeeps(run, i);
    var s, me := run[i], run[i].callers[n];
    assert CallerOk(s.cell, me);
    SizeMonotone(Groups(s.cell), Ids(s.callers));
    if me.pc.Swapping? {
      assert me.id in Ids(s.callers);
      Larger(Groups(me.pc.expected), Ids(s.callers));
    }
  }
}
