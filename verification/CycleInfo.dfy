/** Cycle-info reporting: the reporter that enqueues file tasks and the writer thread that performs them. */
module CycleInfo {
  import opened Prelude

  /** (job id, attempt index, cycle number) names one cycle file. */
  datatype Cycle = Cycle(job: string, attempt: int, number: int)

  datatype Task = Create(c: Cycle) | Update(c: Cycle) | Shutdown

  /** What a caller does to the writer, one visible effect at a time. */
  datatype Op = Put(task: Task) | RaiseFlag

  /** The reporter's `_current_cycle`, `_started_cycles` and `_shutdown`. */
  datatype Reporter = Reporter(current: Option<Cycle>, started: set<int>, shut: bool)

  function EndOps(r: Reporter): (Reporter, seq<Op>) {
    if r.shut || r.current.None? then (r, [])
    else (r.(current := None), [Put(Update(r.current.value))])
  }

  function StartOps(r: Reporter, c: Cycle): (Reporter, seq<Op>) {
    if r.shut || c.number in r.started then (r, [])
    else
      var (ended, ops) := EndOps(r);
      (ended.(current := Some(c), started := ended.started + {c.number}), ops + [Put(Create(c))])
  }

  function ShutdownOps(r: Reporter): (Reporter, seq<Op>) {
    if r.shut then (r, [])
    else
      var (ended, ops) := EndOps(r);
      (ended.(shut := true), ops + [RaiseFlag, Put(Shutdown)])
  }

  function Tasks(ops: seq<Op>): seq<Task> {
    if ops == [] then [] else TaskOf(ops[0]) + Tasks(ops[1..])
  }

  function TaskOf(op: Op): seq<Task> {
    if op.Put? then [op.task] else []
  }

  lemma {:induction false} TasksAppend(a: seq<Op>, b: seq<Op>)
    ensures Tasks(a + b) == Tasks(a) + Tasks(b)
  {
    if a == [] {
      assert a + b == b;
    } else {
      assert (a + b)[1..] == a[1..] + b;
      TasksAppend(a[1..], b);
      hide TaskOf;
      assert TaskOf(a[0]) + (Tasks(a[1..]) + Tasks(b)) == TaskOf(a[0]) + Tasks(a[1..]) + Tasks(b);
    }
  }

  /** The end of a cycle that is open. */
  function Ended(current: Option<Cycle>): seq<Task> {
    if current.Some? then [Update(current.value)] else []
  }

  // ---------------------------------------------------------------- the objects

  class Writer {
    var queue: seq<Task>
    var shutdownRequested: bool
    var currentCycle: Option<Cycle>

    constructor ()
      ensures queue == [] && !shutdownRequested && currentCycle == None
    {
      queue, shutdownRequested, currentCycle := [], false, None;
    }

    method WriteCycleStart(c: Cycle)
      modifies this
      ensures shutdownRequested == old(shutdownRequested)
      ensures if old(shutdownRequested) then queue == old(queue) && currentCycle == old(currentCycle)
              else queue == old(queue) + [Create(c)] && currentCycle == Some(c)
    {
      if shutdownRequested {
        return;
      }
      currentCycle := Some(c);
      queue := queue + [Create(c)];
    }

    method UpdateCycleEnd(c: Cycle)
      modifies this
      ensures shutdownRequested == old(shutdownRequested)
      ensures if old(shutdownRequested) then queue == old(queue) && currentCycle == old(currentCycle)
              else queue == old(queue) + [Update(c)]
                   && currentCycle == if old(currentCycle) == Some(c) then None else old(currentCycle)
    {
      if shutdownRequested {
        return;
      }
      if currentCycle == Some(c) {
        currentCycle := None;
      }
      queue := queue + [Update(c)];
    }

    method RequestShutdown()
      modifies this
      ensures shutdownRequested && currentCycle == None
      ensures queue == old(queue) + (if old(currentCycle).Some? then [Update(old(currentCycle).value)] else []) + [Shutdown]
    {
      shutdownRequested := true;
      if currentCycle.Some? {
        var c := currentCycle.value;
        currentCycle := None;
        queue := queue + [Update(c)];
      }
      queue := queue + [Shutdown];
    }
  }

  class ReporterObject {
    const writer: Writer
    var currentCycle: Option<Cycle>
    var startedCycles: set<int>
    var isShutdown: bool

    function State(): Reporter
      reads this
    {
      Reporter(currentCycle, startedCycles, isShutdown)
    }

    /** The writer remembers the same cycle, and stops when the reporter does. */
    ghost predicate Valid()
      reads this, writer
    {
      writer.currentCycle == currentCycle && writer.shutdownRequested == isShutdown && (isShutdown ==> currentCycle.None?)
    }

    constructor (w: Writer)
      requires w.queue == [] && !w.shutdownRequested && w.currentCycle == None
      ensures Valid() && writer == w && State() == Reporter(None, {}, false)
    {
      writer, currentCycle, startedCycles, isShutdown := w, None, {}, false;
    }

    method ReportCycleStart(c: Cycle) returns (reported: bool)
      requires Valid()
      modifies this, writer
      ensures Valid() && State() == StartOps(old(State()), c).0
      ensures writer.queue == old(writer.queue) + Tasks(StartOps(old(State()), c).1)
      ensures reported <==> !old(isShutdown) && c.number !in old(startedCycles)
      ensures reported ==>
                && currentCycle == Some(c) && startedCycles == old(startedCycles) + {c.number} && !isShutdown
                && writer.queue == old(writer.queue) + Ended(old(currentCycle)) + [Create(c)]
      ensures !reported ==> State() == old(State()) && writer.queue == old(writer.queue)
    {
      if isShutdown || c.number in startedCycles {
        return false;
      }
      ghost var before := State();
      if currentCycle.Some? {
        var _ := ReportCycleEnd();
      }
      TasksAppend(EndOps(before).1, [Put(Create(c))]);
      writer.WriteCycleStart(c);
      currentCycle := Some(c);
      startedCycles := startedCycles + {c.number};
      reported := true;
    }

    method ReportCycleEnd() returns (reported: bool)
      requires Valid()
      modifies this, writer
      ensures Valid() && State() == EndOps(old(State())).0
      ensures writer.queue == old(writer.queue) + Tasks(EndOps(old(State())).1)
      ensures reported <==> !old(isShutdown) && old(currentCycle).Some?
      ensures reported ==>
                && currentCycle == None && startedCycles == old(startedCycles) && !isShutdown
                && writer.queue == old(writer.queue) + [Update(old(currentCycle).value)]
      ensures !reported ==> State() == old(State()) && writer.queue == old(writer.queue)
    {
      if isShutdown || currentCycle.None? {
        return false;
      }
      var c := currentCycle.value;
      currentCycle := None;
      writer.UpdateCycleEnd(c);
      reported := true;
    }

    method ShutDown()
      requires Valid()
      modifies this, writer
      ensures Valid() && State() == ShutdownOps(old(State())).0
      ensures writer.queue == old(writer.queue) + Tasks(ShutdownOps(old(State())).1)
      ensures isShutdown && currentCycle == None && startedCycles == old(startedCycles)
      ensures writer.queue == old(writer.queue) + if old(isShutdown) then [] else Ended(old(currentCycle)) + [Shutdown]
    {
      if isShutdown {
        return;
      }
      ghost var before := State();
      var _ := ReportCycleEnd();
      TasksAppend(EndOps(before).1, [RaiseFlag, Put(Shutdown)]);
      isShutdown := true;
      writer.RequestShutdown();
    }
  }

  // ---------------------------------------------------------------- callers against the worker thread

  /** The worker: about to read the flag, about to block on get, about to get_nowait, or gone. */
  datatype Worker = Ready | Blocking | Draining | Exited

  datatype State = State(
    rep: Reporter,
    pending: seq<Op>,          // what the current call still has to do
    flag: bool,                // _shutdown_requested
    queue: seq<Task>,
    worker: Worker,
    // history
    produced: seq<Task>,
    processed: seq<Task>,
    done: seq<Cycle>)          // cycles whose end has been reported, in order

  ghost predicate Init(s: State) {
    s == State(Reporter(None, {}, false), [], false, [], Ready, [], [], [])
  }

  function Finished(s: State, r: Reporter): seq<Cycle> {
    if s.rep.current.Some? && r.current != s.rep.current then s.done + [s.rep.current.value] else s.done
  }

  /** A call begins: its effects on the reporter are immediate, those on the writer follow one by one. */
  ghost predicate Calls(s: State, s': State) {
    s.pending == []
    && ((exists c :: s' == Begin(s, StartOps(s.rep, c)))
        || s' == Begin(s, EndOps(s.rep)) || s' == Begin(s, ShutdownOps(s.rep)))
  }

  function Begin(s: State, call: (Reporter, seq<Op>)): State {
    s.(rep := call.0, pending := call.1, done := Finished(s, call.0))
  }

  ghost predicate Issues(s: State, s': State) {
    && s.pending != []
    && var rest := s.pending[1..];
       s' == match s.pending[0]
             case RaiseFlag => s.(pending := rest, flag := true)
             case Put(t) => s.(pending := rest, queue := s.queue + [t], produced := s.produced + [t])
  }

  ghost predicate Reads(s: State, s': State) {
    s.worker.Ready? && s' == s.(worker := if s.flag then Draining else Blocking)
  }

  /** get, or get_nowait: take one task and perform it; get_nowait on an empty queue ends the thread. */
  ghost predicate Takes(s: State, s': State) {
    && (s.worker.Blocking? || s.worker.Draining?)
    && if s.queue != [] then s' == s.(queue := s.queue[1..], processed := s.processed + [s.queue[0]], worker := Ready)
       else s.worker.Draining? && s' == s.(worker := Exited)
  }

  ghost predicate Next(s: State, s': State) {
    Calls(s, s') || Issues(s, s') || Reads(s, s') || Takes(s, s')
  }

  ghost predicate Run(run: seq<State>) {
    && run != [] && Init(run[0])
    && forall i | 0 <= i < |run| - 1 :: Next(run[i], run[i + 1])
  }

  // ---------------------------------------------------------------- the script

  /** create(c), update(c) for each cycle in turn. */
  function Pairs(cs: seq<Cycle>): seq<Task> {
    if cs == [] then [] else Pairs(cs[..|cs|-1]) + [Create(cs[|cs|-1]), Update(cs[|cs|-1])]
  }

  /** The tasks of a reporter with these finished cycles, this open one, and this shutdown flag. */
  function Script(done: seq<Cycle>, current: Option<Cycle>, shut: bool): seq<Task> {
    Pairs(done) + (if current.Some? then [Create(current.value)] else []) + (if shut then [Shutdown] else [])
  }

  function Numbers(cs: seq<Cycle>): set<int> {
    set i | 0 <= i < |cs| :: cs[i].number
  }

  function All(s: State): seq<Cycle> {
    s.done + if s.rep.current.Some? then [s.rep.current.value] else []
  }

  ghost predicate Distinct(cs: seq<Cycle>) {
    forall i, j | 0 <= i < j < |cs| :: cs[i].number != cs[j].number
  }

  ghost predicate ScriptOk(s: State) {
    && s.produced + Tasks(s.pending) == Script(s.done, s.rep.current, s.rep.shut)
    && s.rep.started == Numbers(All(s)) && Distinct(All(s))
    && (s.rep.shut ==> s.rep.current.None?)
  }

  ghost predicate Closing(ops: seq<Op>) {
    ops == [RaiseFlag, Put(Shutdown)] || exists c :: ops == [Put(Update(c)), RaiseFlag, Put(Shutdown)]
  }

  /** The flag goes up after the last cycle task and before the shutdown task. */
  ghost predicate FlagOk(s: State) {
    && (s.flag ==> s.rep.shut && (s.pending == [Put(Shutdown)] || s.pending == []))
    && (s.rep.shut && !s.flag ==> Closing(s.pending))
    && (!s.rep.shut ==> RaiseFlag !in s.pending)
  }

  ghost predicate WorkerOk(s: State) {
    && s.produced == s.processed + s.queue
    && (s.worker.Draining? || s.worker.Exited? ==> s.flag)
    && (s.worker.Exited? ==> forall t | t in s.queue :: t.Shutdown?)
    && (s.worker.Blocking? && s.flag ==> Shutdown !in s.processed)
    && (Shutdown in s.processed + s.queue ==> s.flag)
  }

  ghost predicate Inv(s: State) {
    ScriptOk(s) && FlagOk(s) && WorkerOk(s)
  }

  lemma PairsSnoc(cs: seq<Cycle>, c: Cycle)
    ensures Pairs(cs + [c]) == Pairs(cs) + [Create(c), Update(c)]
  {
    assert (cs + [c])[..|cs|] == cs;
  }

  lemma ScriptEnd(done: seq<Cycle>, c: Cycle)
    ensures Script(done + [c], None, false) == Script(done, Some(c), false) + [Update(c)]
  {
    PairsSnoc(done, c);
  }

  /** What a call adds to the script and to the reporter. */
  ghost predicate Extends(s: State, call: (Reporter, seq<Op>)) {
    var s' := Begin(s, call);
    && Script(s'.done, s'.rep.current, s'.rep.shut) == Script(s.done, s.rep.current, s.rep.shut) + Tasks(call.1)
    && s'.rep.started == Numbers(All(s')) && Distinct(All(s'))
    && (s'.rep.shut ==> s'.rep.current.None?)
    && (call.1 == [] ==> call.0 == s.rep)
    && (s.rep.shut ==> call.1 == [])
    && (if call.0.shut && !s.rep.shut then Closing(call.1) else call.0.shut == s.rep.shut && RaiseFlag !in call.1)
  }

  lemma NumbersSnoc(cs: seq<Cycle>, c: Cycle)
    ensures Numbers(cs + [c]) == Numbers(cs) + {c.number}
  {
    assert (cs + [c])[|cs|] == c;
    forall i | 0 <= i < |cs| ensures cs[i].number in Numbers(cs + [c]) { assert (cs + [c])[i] == cs[i]; }
  }

  lemma EndExtends(s: State)
    requires ScriptOk(s)
    ensures Extends(s, EndOps(s.rep))
  {
    if !s.rep.shut && s.rep.current.Some? {
      ScriptEnd(s.done, s.rep.current.value);
      assert Tasks([Put(Update(s.rep.current.value))]) == [Update(s.rep.current.value)];
      assert All(Begin(s, EndOps(s.rep))) == All(s);
    } else {
      assert Tasks([]) == [];
    }
  }

  /** What a start does when it is accepted. */
  lemma StartShape(s: State, c: Cycle)
    requires !s.rep.shut && c.number !in s.rep.started
    ensures var (rep, ops) := StartOps(s.rep, c);
            var s' := Begin(s, StartOps(s.rep, c));
            && rep == Reporter(Some(c), s.rep.started + {c.number}, false)
            && ops == (if s.rep.current.Some? then [Put(Update(s.rep.current.value))] else []) + [Put(Create(c))]
            && RaiseFlag !in ops
            && (s.rep.current != Some(c) ==> s'.done == All(s))
            && s'.rep == rep
  {
  }

  lemma StartScript(s: State, c: Cycle)
    requires !s.rep.shut && s.rep.current != Some(c)
    ensures Script(All(s), Some(c), false)
            == Script(s.done, s.rep.current, false)
               + Tasks((if s.rep.current.Some? then [Put(Update(s.rep.current.value))] else []) + [Put(Create(c))])
  {
    ScriptStart(All(s), c);
    TwoTasks(c, c);
    var one: seq<Op> := [Put(Create(c))];
    if s.rep.current.Some? {
      ScriptEnd(s.done, s.rep.current.value);
      TwoTasks(s.rep.current.value, c);
    } else {
      assert [] + one == one && All(s) == s.done;
    }
    hide Script, Tasks;
  }

  lemma CurrentStarted(s: State)
    requires ScriptOk(s) && s.rep.current.Some?
    ensures s.rep.current.value.number in s.rep.started
  {
    assert All(s)[|s.done|].number in Numbers(All(s));
  }

  lemma StartExtends(s: State, c: Cycle)
    requires ScriptOk(s)
    ensures Extends(s, StartOps(s.rep, c))
  {
    if s.rep.shut || c.number in s.rep.started {
      assert Tasks([]) == [];
    } else {
      if s.rep.current.Some? { CurrentStarted(s); }
      StartShape(s, c);
      StartScript(s, c);
      NumbersSnoc(All(s), c);
      NewNumber(All(s), c);
      var s' := Begin(s, StartOps(s.rep, c));
      assert All(s') == All(s) + [c];
      hide Script, Numbers, Tasks, All, StartOps, Begin, Distinct, Closing;
    }
  }

  /** What the calls do to the reporter and to the cycles reported as ended, whatever the worker does: an end ends the
      open cycle, a start of a new number opens its cycle and ends the one before, a shutdown ends it for good, and
      after a shutdown no call does anything. */
  lemma CallsMean(s: State, c: Cycle)
    ensures var ended := s.done + if s.rep.current.Some? then [s.rep.current.value] else [];
            var e, t, d := Begin(s, EndOps(s.rep)), Begin(s, StartOps(s.rep, c)), Begin(s, ShutdownOps(s.rep));
            && (s.rep.shut ==> e.rep == s.rep && t.rep == s.rep && d.rep == s.rep
                               && e.done == s.done && t.done == s.done && d.done == s.done)
            && (!s.rep.shut ==> e.rep == Reporter(None, s.rep.started, false) && e.done == ended)
            && (!s.rep.shut && c.number in s.rep.started ==> t.rep == s.rep && t.done == s.done)
            && (!s.rep.shut && c.number !in s.rep.started && s.rep.current != Some(c) ==>
                  t.rep == Reporter(Some(c), s.rep.started + {c.number}, false) && t.done == ended)
            && (!s.rep.shut ==> d.rep == Reporter(None, s.rep.started, true) && d.done == ended)
  {
  }

  lemma ScriptStart(done: seq<Cycle>, c: Cycle)
    ensures Script(done, Some(c), false) == Script(done, None, false) + [Create(c)]
  {
  }

  lemma TwoTasks(c: Cycle, d: Cycle)
    ensures Tasks([Put(Create(d))]) == [Create(d)]
    ensures Tasks([Put(Update(c))] + [Put(Create(d))]) == [Update(c)] + [Create(d)]
  {
    TasksAppend([Put(Update(c))], [Put(Create(d))]);
    assert Tasks([Put(Update(c))]) == [Update(c)];
  }

  lemma NewNumber(cs: seq<Cycle>, c: Cycle)
    requires Distinct(cs) && c.number !in Numbers(cs)
    ensures Distinct(cs + [c])
  {
    forall i | 0 <= i < |cs| ensures cs[i].number in Numbers(cs) {}
  }

  lemma ShutdownTasks(s: State)
    requires !s.rep.shut
    ensures Tasks(ShutdownOps(s.rep).1) == Tasks(EndOps(s.rep).1) + [Shutdown]
  {
    TasksAppend(EndOps(s.rep).1, [RaiseFlag, Put(Shutdown)]);
    assert [RaiseFlag, Put(Shutdown)][1..] == [Put(Shutdown)];
    assert Tasks([Put(Shutdown)]) == [Shutdown];
  }

  lemma ScriptShut(done: seq<Cycle>)
    ensures Script(done, None, true) == Script(done, None, false) + [Shutdown]
  {
  }

  /** What the close does beyond ending the open cycle. */
  lemma ShutdownShape(s: State)
    requires !s.rep.shut
    ensures ShutdownOps(s.rep).0 == EndOps(s.rep).0.(shut := true) && Closing(ShutdownOps(s.rep).1)
    ensures EndOps(s.rep).0.current == None && !EndOps(s.rep).0.shut
    ensures Begin(s, ShutdownOps(s.rep)).done == Begin(s, EndOps(s.rep)).done
  {
    if s.rep.current.Some? {
      assert ShutdownOps(s.rep).1 == [Put(Update(s.rep.current.value)), RaiseFlag, Put(Shutdown)];
    } else {
      assert ShutdownOps(s.rep).1 == [RaiseFlag, Put(Shutdown)];
    }
  }

  lemma ShutdownExtends(s: State)
    requires ScriptOk(s)
    ensures Extends(s, ShutdownOps(s.rep))
  {
    if s.rep.shut {
      assert Tasks([]) == [];
    } else {
      hide Script, Tasks, Numbers, Distinct, Closing, EndOps, ShutdownOps;
      EndExtends(s);
      ScriptShut(Begin(s, EndOps(s.rep)).done);
      ShutdownTasks(s);
      ShutdownShape(s);
    }
  }

  lemma BeginKeeps(s: State, call: (Reporter, seq<Op>))
    requires Inv(s) && s.pending == [] && Extends(s, call)
    ensures Inv(Begin(s, call))
  {
    assert s.produced + [] == s.produced;
  }

  lemma CallKeeps(s: State, s': State)
    requires Inv(s) && Calls(s, s')
    ensures Inv(s')
  {
    hide Inv, Extends, Begin, StartOps, EndOps, ShutdownOps;
    ScriptHolds(s);
    if c :| s' == Begin(s, StartOps(s.rep, c)) {
      StartExtends(s, c);
      BeginKeeps(s, StartOps(s.rep, c));
    } else if s' == Begin(s, EndOps(s.rep)) {
      EndExtends(s);
      BeginKeeps(s, EndOps(s.rep));
    } else {
      ShutdownExtends(s);
      BeginKeeps(s, ShutdownOps(s.rep));
    }
  }

  lemma ScriptHolds(s: State)
    requires Inv(s)
    ensures ScriptOk(s)
  {
  }

  lemma {:induction false} PairsHoldNoShutdown(cs: seq<Cycle>)
    ensures Shutdown !in Pairs(cs)
  {
    if cs != [] { PairsHoldNoShutdown(cs[..|cs|-1]); }
  }

  /** The shutdown task is put only after the flag has gone up. */
  lemma ShutdownAfterFlag(s: State)
    requires ScriptOk(s) && FlagOk(s) && s.pending != [] && s.pending[0] == Put(Shutdown)
    ensures s.flag
  {
    assert Tasks(s.pending) == [Shutdown] + Tasks(s.pending[1..]);
    assert Shutdown in s.produced + Tasks(s.pending);
    PairsHoldNoShutdown(s.done);
    assert s.rep.shut;
  }

  lemma IssueKeeps(s: State, s': State)
    requires Inv(s) && Issues(s, s')
    ensures Inv(s')
  {
    var op, rest := s.pending[0], s.pending[1..];
    assert s.pending == [op] + rest;
    if op == Put(Shutdown) { ShutdownAfterFlag(s); }
    if op.Put? {
      assert Tasks(s.pending) == [op.task] + Tasks(rest);
      assert s.produced + ([op.task] + Tasks(rest)) == s.produced + [op.task] + Tasks(rest);
      assert s.processed + (s.queue + [op.task]) == s.processed + s.queue + [op.task];
    } else {
      assert Tasks(s.pending) == Tasks(rest);
    }
    assert ScriptOk(s') by { hide Script, Numbers, Distinct; }
    FlagStep(s, s');
  }

  lemma FlagStep(s: State, s': State)
    requires FlagOk(s) && Issues(s, s')
    ensures FlagOk(s')
  {
    if s.rep.shut && !s.flag {
      assert Closing(s.pending);
    }
  }

  lemma WorkerKeeps(s: State, s': State)
    requires Inv(s) && (Reads(s, s') || Takes(s, s'))
    ensures Inv(s')
  {
    if Takes(s, s') && s.queue != [] {
      assert s.queue == [s.queue[0]] + s.queue[1..];
      assert s.processed + [s.queue[0]] + s.queue[1..] == s.processed + s.queue;
    }
    hide Script, Numbers, Distinct, Tasks, Closing;
  }

  lemma {:induction false} RunKeeps(run: seq<State>, i: nat)
    requires Run(run) && i < |run|
    ensures Inv(run[i])
  {
    if i == 0 {
      Starts(run[0]);
    } else {
      RunKeeps(run, i - 1);
      assert Next(run[i - 1], run[i - 1 + 1]);
      hide Inv, Calls, Issues, Reads, Takes, Init;
      if Calls(run[i - 1], run[i]) {
        CallKeeps(run[i - 1], run[i]);
      } else if Issues(run[i - 1], run[i]) {
        IssueKeeps(run[i - 1], run[i]);
      } else {
        WorkerKeeps(run[i - 1], run[i]);
      }
    }
  }

  lemma Starts(s: State)
    requires Init(s)
    ensures Inv(s)
  {
    assert All(s) == [];
  }

  // ---------------------------------------------------------------- what the queue and the files show

  /** In every run the tasks put so far are, in order, create and update of distinct cycles in turn, the last one
      possibly still open, and at the end at most one shutdown; what the call in progress will still put completes
      this script. */
  lemma QueueAlternates(run: seq<State>, i: nat)
    requires Run(run) && i < |run|
    ensures var s := run[i];
            && s.produced + Tasks(s.pending) == Script(s.done, s.rep.current, s.rep.shut)
            && Distinct(s.done + if s.rep.current.Some? then [s.rep.current.value] else [])
            && s.produced == s.processed + s.queue
  {
    RunKeeps(run, i);
  }

  /** One cycle file: whether its end time is set, and its generation. */
  datatype File = File(ended: bool, generation: nat)

  /** The cycle files after these tasks: create writes a fresh file, update sets the end time of an existing one. */
  function Files(tasks: seq<Task>): map<Cycle, File> {
    if tasks == [] then map[]
    else
      var before := Files(tasks[..|tasks|-1]);
      match tasks[|tasks|-1]
      case Create(c) => before[c := File(false, 0)]
      case Update(c) => if c in before then before[c := File(true, before[c].generation + 1)] else before
      case Shutdown => before
  }

  lemma FilesSnoc(tasks: seq<Task>, t: Task)
    ensures (tasks + [t])[..|tasks|] == tasks && (tasks + [t])[|tasks|] == t
  {
  }

  lemma NotBefore(front: seq<Cycle>, c: Cycle)
    requires Distinct(front + [c])
    ensures c !in front
  {
    forall i | 0 <= i < |front| ensures front[i] != c {
      assert (front + [c])[i].number != (front + [c])[|front|].number;
    }
  }

  lemma FilesOfPair(tasks: seq<Task>, c: Cycle)
    requires c !in Files(tasks)
    ensures Files(tasks + [Create(c)] + [Update(c)]) == Files(tasks)[c := File(true, 1)]
  {
    FilesSnoc(tasks, Create(c));
    assert Files(tasks + [Create(c)]) == Files(tasks)[c := File(false, 0)];
    FilesSnoc(tasks + [Create(c)], Update(c));
  }

  /** The files of cycles that have all ended. */
  ghost predicate AllEnded(files: map<Cycle, File>, cs: seq<Cycle>) {
    (forall c :: c in files <==> c in cs) && forall c | c in files :: files[c] == File(true, 1)
  }

  lemma NoPairs()
    ensures AllEnded(Files(Pairs([])), [])
  {
  }

  lemma OneMoreEnded(files: map<Cycle, File>, cs: seq<Cycle>, c: Cycle)
    requires AllEnded(files, cs)
    ensures AllEnded(files[c := File(true, 1)], cs + [c])
  {
  }

  lemma {:induction false} FilesOfPairs(cs: seq<Cycle>)
    requires Distinct(cs)
    ensures AllEnded(Files(Pairs(cs)), cs)
  {
    hide Files, Pairs;
    if cs == [] {
      NoPairs();
    } else {
      var front, c := cs[..|cs|-1], cs[|cs|-1];
      FilesOfPairs(front);
      assert cs == front + [c];
      NotBefore(front, c);
      assert c !in Files(Pairs(front));
      hide Distinct, AllEnded;
      PairsSnoc(front, c);
      assert Pairs(front) + [Create(c), Update(c)] == Pairs(front) + [Create(c)] + [Update(c)];
      FilesOfPair(Pairs(front), c);
      OneMoreEnded(Files(Pairs(front)), front, c);
    }
  }

  lemma OnlyShutdowns(tasks: seq<Task>, rest: seq<Task>)
    requires forall t | t in rest :: t.Shutdown?
    ensures Files(tasks + rest) == Files(tasks)
    decreases |rest|
  {
    if rest == [] {
      assert tasks + rest == tasks;
    } else {
      assert (tasks + rest)[..|tasks + rest|-1] == tasks + rest[..|rest|-1];
      assert (tasks + rest)[|tasks + rest|-1] == rest[|rest|-1] == Shutdown;
      OnlyShutdowns(tasks, rest[..|rest|-1]);
    }
  }

  /** When the worker has exited, no create or update is left, now or later: the reporter has no open cycle, every
      task put except shutdowns was performed, and every reported cycle's file has its end time, written once. */
  lemma NothingLeftBehind(run: seq<State>, i: nat)
    requires Run(run) && i < |run| && run[i].worker.Exited?
    ensures var s := run[i];
            && s.rep.shut && s.rep.current.None?
            && (forall t | t in s.queue + Tasks(s.pending) :: t.Shutdown?)
            && AllEnded(Files(s.processed), s.done)
  {
    RunKeeps(run, i);
    var s := run[i];
    assert s.pending == [Put(Shutdown)] || s.pending == [];
    assert Tasks([Put(Shutdown)]) == [Shutdown];
    assert forall t | t in Tasks(s.pending) :: t.Shutdown?;
    var left := s.queue + Tasks(s.pending);
    assert s.processed + left == Pairs(s.done) + [] + [Shutdown] by {
      assert s.processed + left == s.processed + s.queue + Tasks(s.pending);
    }
    OnlyShutdowns(s.processed, left);
    OnlyShutdowns(Pairs(s.done), [Shutdown]);
    assert Pairs(s.done) + [] + [Shutdown] == Pairs(s.done) + [Shutdown];
    assert All(s) == s.done;
    FilesOfPairs(s.done);
  }

  // ---------------------------------------------------------------- the worker comes to its end

  ghost predicate Works(s: State, s': State) {
    Reads(s, s') || Takes(s, s')
  }

  /** The worker alone takes the system from s to t in n steps. */
  ghost predicate WorksTo(s: State, t: State, n: nat)
    decreases n
  {
    if n == 0 then s == t else exists u :: Works(s, u) && WorksTo(u, t, n - 1)
  }

  lemma WorkFirst(s: State, u: State, t: State, n: nat)
    requires Works(s, u) && WorksTo(u, t, n)
    ensures WorksTo(s, t, n + 1)
  {
  }

  function Drained(s: State): State {
    s.(worker := Exited, queue := [], processed := s.processed + s.queue)
  }

  lemma {:induction false} Drains(s: State) returns (n: nat)
    requires s.flag && !s.worker.Exited? && (s.worker.Blocking? ==> s.queue != [])
    ensures WorksTo(s, Drained(s), n)
    decreases |s.queue|, if s.worker.Ready? then 1 else 0
  {
    hide WorksTo;
    var u := if s.worker.Ready? then s.(worker := Draining)
             else if s.queue != [] then s.(queue := s.queue[1..], processed := s.processed + [s.queue[0]], worker := Ready)
             else s.(worker := Exited);
    assert Works(s, u);
    if s.worker.Draining? && s.queue == [] {
      assert u == Drained(s) by { assert s.processed + [] == s.processed; }
      n := AtRest(u);
    } else {
      if !s.worker.Ready? { assert s.processed + [s.queue[0]] + s.queue[1..] == s.processed + s.queue; }
      n := Drains(u);
    }
    hide Works, Drained;
    WorkFirst(s, u, Drained(s), n);
    n := n + 1;
  }

  lemma AtRest(s: State) returns (n: nat)
    ensures n == 0 && WorksTo(s, s, n)
  {
    n := 0;
  }

  lemma ShutdownWaiting(s: State)
    requires Inv(s) && s.flag && s.pending == [] && s.worker.Blocking?
    ensures s.queue != []
  {
    assert Shutdown in s.produced by { assert Tasks([]) == [] && s.produced + [] == s.produced; }
  }

  /** Once a shutdown call has returned, the worker on its own performs every task that is left, in order, and exits. */
  lemma ShutdownFinishes(run: seq<State>, i: nat) returns (n: nat)
    requires Run(run) && i < |run| && run[i].flag && run[i].pending == [] && !run[i].worker.Exited?
    ensures WorksTo(run[i], Drained(run[i]), n)
  {
    RunKeeps(run, i);
    hide Inv, Run, WorksTo;
    if run[i].worker.Blocking? { ShutdownWaiting(run[i]); }
    n := Drains(run[i]);
  }
}
