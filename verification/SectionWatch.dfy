/** Section state on the monitor server (rank_monitor_server.py): which sections are open since when, and which of them
    count as hung. */
module SectionWatch {
  import opened Prelude
  import opened SectionTrace

  datatype Action = Open | Close | CloseAll

  datatype SectionMsg = SectionMsg(section: Section, action: Action, iteration: Option<int>)

  /** The section set after a message, as both sides understand it: a rejected message changes nothing. */
  function After(open: set<Section>, msg: SectionMsg): set<Section> {
    match msg.action
    case Open => open + {msg.section}
    case Close => open - {msg.section}
    case CloseAll => {}
  }

  predicate Rejected(open: set<Section>, msg: SectionMsg) {
    (msg.action.Open? && msg.section in open) || (msg.action.Close? && msg.section !in open)
  }

  // ---------------------------------------------------------------- open since when

  /** A message and when it was handled. */
  datatype Handled = Handled(msg: SectionMsg, t: real)

  ghost predicate Opens(h: Handled, s: Section) {
    h.msg.action.Open? && h.msg.section == s
  }

  ghost predicate Ends(h: Handled, s: Section) {
    h.msg.action.CloseAll? || (h.msg.action.Close? && h.msg.section == s)
  }

  /** Message i opened s: an end of s lies between any earlier open of s and i, and none after i. */
  ghost predicate OpenedBy(log: seq<Handled>, s: Section, i: nat) {
    && i < |log| && Opens(log[i], s)
    && (forall k | i < k < |log| :: !Ends(log[k], s))
    && forall k | 0 <= k < i && Opens(log[k], s) :: exists e :: k < e < i && Ends(log[e], s)
  }

  /** s is open, since time t. */
  ghost predicate StoredSince(log: seq<Handled>, s: Section, t: real) {
    exists i: nat :: OpenedBy(log, s, i) && log[i].t == t
  }

  /** The open sections and when they were opened, message by message. */
  function OpenTimes(log: seq<Handled>): map<Section, real> {
    if log == [] then map[]
    else
      var before, last := OpenTimes(log[..|log|-1]), log[|log|-1];
      match last.msg.action
      case Open => if last.msg.section in before then before else before[last.msg.section := last.t]
      case Close => before - {last.msg.section}
      case CloseAll => map[]
  }

  lemma {:induction false} OpenTimesMean(log: seq<Handled>, s: Section)
    ensures s in OpenTimes(log) <==> exists i: nat :: OpenedBy(log, s, i)
    ensures s in OpenTimes(log) ==> StoredSince(log, s, OpenTimes(log)[s])
    ensures s !in OpenTimes(log) ==>
              forall k | 0 <= k < |log| && Opens(log[k], s) :: exists e :: k < e < |log| && Ends(log[e], s)
  {
    if log != [] {
      var front, last := log[..|log|-1], log[|log|-1];
      assert log == front + [last];
      OpenTimesMean(front, s);
      hide OpenTimes;
      if Ends(last, s) {
        EndedByLast(front, last, s);
        OpenTimesSnoc(front, last);
      } else if s in OpenTimes(front) {
        var i: nat :| OpenedBy(front, s, i) && front[i].t == OpenTimes(front)[s];
        StaysOpen(front, last, s, i);
        OpenTimesSnoc(front, last);
        assert OpenedBy(log, s, i) && log[i].t == front[i].t;
      } else if Opens(last, s) {
        OpenedByLast(front, last, s);
        OpenTimesSnoc(front, last);
      } else {
        StaysClosed(front, last, s);
        OpenTimesSnoc(front, last);
      }
    }
  }

  lemma OpenTimesSnoc(front: seq<Handled>, last: Handled)
    ensures var before, s := OpenTimes(front), last.msg.section;
            OpenTimes(front + [last]) == match last.msg.action
                                         case Open => if s in before then before else before[s := last.t]
                                         case Close => before - {s}
                                         case CloseAll => map[]
  {
    assert (front + [last])[..|front|] == front;
  }

  lemma EndedByLast(front: seq<Handled>, last: Handled, s: Section)
    requires Ends(last, s)
    ensures forall i: nat :: !OpenedBy(front + [last], s, i)
    ensures var log := front + [last];
            forall k | 0 <= k < |log| && Opens(log[k], s) :: exists e :: k < e < |log| && Ends(log[e], s)
  {
    var log := front + [last];
    assert log[|front|] == last;
  }

  lemma StaysOpen(front: seq<Handled>, last: Handled, s: Section, i: nat)
    requires OpenedBy(front, s, i) && !Ends(last, s)
    ensures OpenedBy(front + [last], s, i) && (front + [last])[i] == front[i]
  {
    var log := front + [last];
    assert forall k | 0 <= k < |front| :: log[k] == front[k];
    forall k | 0 <= k < i && Opens(log[k], s) ensures exists e :: k < e < i && Ends(log[e], s) {
      assert Opens(front[k], s);
      var e :| k < e < i && Ends(front[e], s);
      assert Ends(log[e], s);
    }
  }

  lemma OpenedByLast(front: seq<Handled>, last: Handled, s: Section)
    requires Opens(last, s)
    requires forall k | 0 <= k < |front| && Opens(front[k], s) :: exists e :: k < e < |front| && Ends(front[e], s)
    ensures OpenedBy(front + [last], s, |front|)
  {
    var log := front + [last];
    assert forall k | 0 <= k < |front| :: log[k] == front[k];
    forall k | 0 <= k < |front| && Opens(log[k], s) ensures exists e :: k < e < |front| && Ends(log[e], s) {
      assert Opens(front[k], s);
      var e :| k < e < |front| && Ends(front[e], s);
      assert Ends(log[e], s);
    }
  }

  lemma StaysClosed(front: seq<Handled>, last: Handled, s: Section)
    requires !Opens(last, s) && forall i: nat :: !OpenedBy(front, s, i)
    requires forall k | 0 <= k < |front| && Opens(front[k], s) :: exists e :: k < e < |front| && Ends(front[e], s)
    ensures forall i: nat :: !OpenedBy(front + [last], s, i)
    ensures var log := front + [last];
            forall k | 0 <= k < |log| && Opens(log[k], s) :: exists e :: k < e < |log| && Ends(log[e], s)
  {
    var log := front + [last];
    assert forall k | 0 <= k < |front| :: log[k] == front[k];
    forall k | 0 <= k < |log| && Opens(log[k], s) ensures exists e :: k < e < |log| && Ends(log[e], s) {
      assert Opens(front[k], s);
      var e :| k < e < |front| && Ends(front[e], s);
      assert Ends(log[e], s);
    }
  }

  lemma OneOpener(log: seq<Handled>, s: Section, i: nat, j: nat)
    requires OpenedBy(log, s, i) && OpenedBy(log, s, j)
    ensures i == j
  {
  }

  /** The times stored are exactly the times of the messages that opened the open sections. */
  lemma TimesAreOpenings(log: seq<Handled>, s: Section, t: real)
    ensures (s in OpenTimes(log) && OpenTimes(log)[s] == t) <==> StoredSince(log, s, t)
  {
    OpenTimesMean(log, s);
    hide OpenTimes;
    if StoredSince(log, s, t) {
      var i: nat :| OpenedBy(log, s, i) && log[i].t == t;
      var j: nat :| OpenedBy(log, s, j) && log[j].t == OpenTimes(log)[s];
      OneOpener(log, s, i, j);
    }
  }

  // ---------------------------------------------------------------- in the order opened

  function Without(order: seq<Section>, s: Section): seq<Section> {
    if order == [] then []
    else Without(order[..|order|-1], s) + if order[|order|-1] == s then [] else [order[|order|-1]]
  }

  /** The open sections in the order of the dict. */
  function OpenOrder(log: seq<Handled>): seq<Section> {
    if log == [] then []
    else
      var before, last := OpenOrder(log[..|log|-1]), log[|log|-1];
      match last.msg.action
      case Open => if last.msg.section in before then before else before + [last.msg.section]
      case Close => Without(before, last.msg.section)
      case CloseAll => []
  }

  lemma {:induction false} WithoutMembers(order: seq<Section>, s: Section)
    ensures forall u :: u in Without(order, s) <==> u in order && u != s
  {
    if order != [] {
      WithoutMembers(order[..|order|-1], s);
      assert order == order[..|order|-1] + [order[|order|-1]];
    }
  }

  lemma {:induction false} OrderMembers(log: seq<Handled>)
    ensures forall s :: s in OpenOrder(log) <==> s in OpenTimes(log)
  {
    if log != [] {
      OrderMembers(log[..|log|-1]);
      WithoutMembers(OpenOrder(log[..|log|-1]), log[|log|-1].msg.section);
    }
  }

  /** s was opened before u, and both are open. */
  ghost predicate OpenedBefore(log: seq<Handled>, s: Section, u: Section) {
    exists i: nat, j: nat :: OpenedBy(log, s, i) && OpenedBy(log, u, j) && i < j
  }

  ghost predicate InOrder(log: seq<Handled>, order: seq<Section>) {
    forall i, j | 0 <= i < j < |order| :: OpenedBefore(log, order[i], order[j])
  }

  lemma OpenedBeforeStays(front: seq<Handled>, last: Handled, s: Section, u: Section)
    requires OpenedBefore(front, s, u) && !Ends(last, s) && !Ends(last, u)
    ensures OpenedBefore(front + [last], s, u)
  {
    var i: nat, j: nat :| OpenedBy(front, s, i) && OpenedBy(front, u, j) && i < j;
    StaysOpen(front, last, s, i);
    StaysOpen(front, last, u, j);
  }

  lemma {:induction false} WithoutInOrder(log: seq<Handled>, order: seq<Section>, s: Section)
    requires InOrder(log, order)
    ensures InOrder(log, Without(order, s))
  {
    hide OpenedBefore;
    if order != [] {
      var front, last := order[..|order|-1], order[|order|-1];
      WithoutInOrder(log, front, s);
      WithoutMembers(front, s);
      if last != s {
        var out := Without(front, s);
        forall i | 0 <= i < |out| ensures OpenedBefore(log, out[i], last) {
          assert out[i] in out;
          var k :| 0 <= k < |front| && front[k] == out[i];
          assert order[k] == out[i] && order[|front|] == last;
        }
      }
    }
  }

  /** The dict's order is the order in which the open sections were opened. */
  lemma {:induction false} OrderIsOpening(log: seq<Handled>)
    ensures InOrder(log, OpenOrder(log))
  {
    if log != [] {
      var front, last := log[..|log|-1], log[|log|-1];
      assert log == front + [last];
      OrderIsOpening(front);
      OrderMembers(front);
      var before, after := OpenOrder(front), OpenOrder(log);
      hide OpenedBefore, Without;
      match last.msg.action {
        case Open =>
          forall i, j | 0 <= i < j < |after| ensures OpenedBefore(log, after[i], after[j]) {
            if j < |before| {
              assert after[i] == before[i] && after[j] == before[j];
              OpenedBeforeStays(front, last, before[i], before[j]);
            } else {
              assert after[i] == before[i] && before[i] in before;
              OpenedAtEnd(front, last, before[i], last.msg.section);
            }
          }
        case Close =>
          WithoutInOrder(front, before, last.msg.section);
          WithoutMembers(before, last.msg.section);
          forall i, j | 0 <= i < j < |after| ensures OpenedBefore(log, after[i], after[j]) {
            assert after[i] in after && after[j] in after;
            OpenedBeforeStays(front, last, after[i], after[j]);
          }
        case CloseAll =>
      }
    }
  }

  lemma OpenedAtEnd(front: seq<Handled>, last: Handled, s: Section, u: Section)
    requires s in OpenTimes(front) && u !in OpenTimes(front) && Opens(last, u)
    ensures OpenedBefore(front + [last], s, u)
  {
    OpenTimesMean(front, s);
    OpenTimesMean(front, u);
    hide OpenTimes;
    var i: nat :| OpenedBy(front, s, i);
    StaysOpen(front, last, s, i);
    OpenedByLast(front, last, u);
  }

  /** What is stored is what the messages call for. */
  ghost predicate Kept(open: map<Section, real>, order: seq<Section>, log: seq<Handled>) {
    open == OpenTimes(log) && order == OpenOrder(log)
  }

  lemma OrderSnoc(front: seq<Handled>, last: Handled)
    ensures var before, s := OpenOrder(front), last.msg.section;
            OpenOrder(front + [last]) == match last.msg.action
                                         case Open => if s in before then before else before + [s]
                                         case Close => Without(before, s)
                                         case CloseAll => []
  {
    assert (front + [last])[..|front|] == front;
  }

  lemma {:induction false} NothingRemoved(order: seq<Section>, s: Section)
    requires s !in order
    ensures Without(order, s) == order
  {
    if order != [] {
      NothingRemoved(order[..|order|-1], s);
      assert order == order[..|order|-1] + [order[|order|-1]];
    }
  }

  lemma KeptOpen(open: map<Section, real>, order: seq<Section>, log: seq<Handled>, h: Handled)
    requires Kept(open, order, log) && h.msg.action.Open?
    ensures h.msg.section in open ==> Kept(open, order, log + [h])
    ensures h.msg.section !in open ==> Kept(open[h.msg.section := h.t], order + [h.msg.section], log + [h])
  {
    hide OpenTimes, OpenOrder, Without;
    OpenTimesSnoc(log, h);
    OrderSnoc(log, h);
    OrderMembers(log);
  }

  lemma KeptClose(open: map<Section, real>, order: seq<Section>, log: seq<Handled>, h: Handled)
    requires Kept(open, order, log) && h.msg.action.Close?
    ensures h.msg.section !in open ==> Kept(open, order, log + [h])
    ensures h.msg.section in open ==> Kept(open - {h.msg.section}, Without(order, h.msg.section), log + [h])
  {
    hide OpenTimes, OpenOrder, Without;
    OpenTimesSnoc(log, h);
    OrderSnoc(log, h);
    OrderMembers(log);
    if h.msg.section !in open {
      NothingRemoved(order, h.msg.section);
      assert open - {h.msg.section} == open;
    }
  }

  lemma KeptAll(open: map<Section, real>, order: seq<Section>, log: seq<Handled>, h: Handled)
    requires Kept(open, order, log) && h.msg.action.CloseAll?
    ensures Kept(map[], [], log + [h])
  {
    hide OpenTimes, OpenOrder;
    OpenTimesSnoc(log, h);
    OrderSnoc(log, h);
  }

  // ---------------------------------------------------------------- hung sections

  /** Limits per section (an entry may be unset), the limit outside sections, and the warm-up iterations. */
  datatype Limits = Limits(sections: map<string, Option<real>>, outOfSection: Option<real>, warmupIterations: int)

  /** The limit of a section; the step section has the warm-up limit during the first iterations of a cycle. */
  function LimitOf(limits: Limits, initial: Option<int>, current: Option<int>, s: Section): Option<real> {
    if s == Some("step") && "warmup" in limits.sections && initial.Some? && current.Some?
       && current.value - initial.value < limits.warmupIterations
    then limits.sections["warmup"]
    else if s.Some? && s.value in limits.sections then limits.sections[s.value]
    else None
  }

  predicate Exceeds(elapsed: real, limit: Option<real>) {
    limit.Some? && elapsed > limit.value
  }

  // ---------------------------------------------------------------- the monitor server

  class SectionServer {
    var openSections: map<Section, real>
    var order: seq<Section>
    var outOfSectionTime: Option<real>
    var initialIteration: Option<int>
    var currentIteration: Option<int>
    var stepSeen: bool
    var limits: Limits

    // the messages handled since the connection was made
    ghost var log: seq<Handled>

    /** While a rank is connected: the sections stored are those the messages have opened and not ended, since when they
        were opened, and the out-of-section time is unset exactly when a section is open. */
    ghost predicate Connected()
      reads this
    {
      && Kept(openSections, order, log)
      && (outOfSectionTime.None? <==> openSections != map[])
    }

    constructor (limits: Limits)
      ensures openSections == map[] && order == [] && log == [] && this.limits == limits
      ensures outOfSectionTime == None && initialIteration == None && currentIteration == None && !stepSeen
    {
      openSections, order, outOfSectionTime, log := map[], [], None, [];
      initialIteration, currentIteration, stepSeen, this.limits := None, None, false, limits;
    }

    /** `_handle_init_msg`, section state only. */
    method HandleInit(now: real)
      modifies this
      ensures Connected() && log == [] && openSections == map[] && outOfSectionTime == Some(now)
      ensures limits == old(limits) && stepSeen == old(stepSeen)
      ensures initialIteration == old(initialIteration) && currentIteration == old(currentIteration)
    {
      outOfSectionTime := Some(now);
      openSections, order, log := map[], [], [];
    }

    /** Iterations are tracked from the step section only. */
    method TrackIteration(msg: SectionMsg)
      modifies `initialIteration, `currentIteration
      ensures msg.section == Some("step") && msg.iteration.Some? ==>
                && currentIteration == msg.iteration
                && initialIteration == if old(initialIteration).None? then msg.iteration else old(initialIteration)
      ensures msg.section != Some("step") || msg.iteration.None? ==>
                currentIteration == old(currentIteration) && initialIteration == old(initialIteration)
    {
      if msg.section == Some("step") && msg.iteration.Some? {
        if initialIteration.None? {
          initialIteration := msg.iteration;
        }
        currentIteration := msg.iteration;
      }
    }

    /** `_handle_section_msg`, section state only; ok is the response. A rejected message changes nothing. */
    method HandleSection(msg: SectionMsg, now: real) returns (ok: bool)
      requires Connected()
      modifies this
      ensures Connected() && log == old(log) + [Handled(msg, now)] && limits == old(limits)
      ensures ok <==> match msg.action case Open => msg.section !in old(openSections)
                                       case Close => msg.section in old(openSections)
                                       case CloseAll => true
      ensures ok <==> !Rejected(old(openSections).Keys, msg)
      ensures !ok ==> openSections == old(openSections) && outOfSectionTime == old(outOfSectionTime) && stepSeen == old(stepSeen)
      ensures ok && msg.action.Open? ==>
                && openSections == old(openSections)[msg.section := now] && outOfSectionTime == None
                && stepSeen == (old(stepSeen) || msg.section == Some("step"))
      ensures ok && msg.action.Close? ==>
                && openSections == old(openSections) - {msg.section} && stepSeen == old(stepSeen)
                && outOfSectionTime == if openSections == map[] then Some(now) else old(outOfSectionTime)
      ensures msg.action.CloseAll? ==> openSections == map[] && outOfSectionTime == Some(now) && stepSeen == old(stepSeen)
      ensures openSections.Keys == After(old(openSections).Keys, msg)
    {
      hide Kept, Without;
      TrackIteration(msg);
      ghost var h := Handled(msg, now);
      ok := false;
      match msg.action {
        case Open =>
          KeptOpen(openSections, order, log, h);
          if msg.section !in openSections {
            openSections, order := openSections[msg.section := now], order + [msg.section];
            outOfSectionTime := None;
            if msg.section == Some("step") {
              stepSeen := true;
            }
            ok := true;
          }
        case Close =>
          KeptClose(openSections, order, log, h);
          if msg.section in openSections {
            openSections, order := openSections - {msg.section}, Without(order, msg.section);
            if openSections == map[] {
              outOfSectionTime := Some(now);
            }
            ok := true;
          }
        case CloseAll =>
          KeptAll(openSections, order, log, h);
          openSections, order := map[], [];
          outOfSectionTime := Some(now);
          ok := true;
      }
      log := log + [h];
    }

    /** `_handle_ipc_connection_lost`, section state only. */
    method HandleConnectionLost()
      modifies this
      ensures openSections == map[] && order == [] && outOfSectionTime == None && log == []
      ensures initialIteration == None && currentIteration == None && !stepSeen && limits == old(limits)
    {
      openSections, order, outOfSectionTime, log := map[], [], None, [];
      initialIteration, currentIteration, stepSeen := None, None, false;
    }

    /** Each open section is stored with the time of the message that opened it. */
    lemma TimesKept(s: Section, t: real)
      requires Connected()
      ensures (s in openSections && openSections[s] == t) <==> StoredSince(log, s, t)
    {
      TimesAreOpenings(log, s, t);
    }

    /** s has been open for longer than its limit. */
    predicate Hung(s: Section, now: real)
      reads this
      requires s in openSections
    {
      Exceeds(now - openSections[s], LimitOf(limits, initialIteration, currentIteration, s))
    }

    /** `_is_section_timeout_elapsed`: the loop keeps the answer for the last section of the dict only. */
    method TimedOut(now: real) returns (elapsed: bool)
      requires Connected()
      ensures openSections != map[] ==>
                order != [] && order[|order|-1] in openSections && (elapsed <==> Hung(order[|order|-1], now))
      ensures openSections == map[] ==>
                (elapsed <==>
                   && (limits.sections == map[] || "warmup" in limits.sections || stepSeen)
                   && Exceeds(now - outOfSectionTime.value, limits.outOfSection))
    {
      OrderMembers(log);
      NotEmpty(openSections, order);
      hide OpenTimes, OpenOrder;
      elapsed := false;
      for i := 0 to |order|
        invariant i > 0 ==> order[i - 1] in openSections && (elapsed <==> Hung(order[i - 1], now))
      {
        assert order[i] in order;
        elapsed := Exceeds(now - openSections[order[i]], LimitOf(limits, initialIteration, currentIteration, order[i]));
      }
      if openSections == map[] {
        if limits.sections != map[] && "warmup" !in limits.sections && !stepSeen {
          return false;
        }
        elapsed := Exceeds(now - outOfSectionTime.value, limits.outOfSection);
      }
    }

    /** While sections are open, a section that is hung is reported exactly when the one opened last is hung, or none is:
        the check finds "some open section is hung" wrong exactly when a section opened earlier is hung and the one
        opened last is not. */
    lemma HungReported(now: real, elapsed: bool)
      requires Connected() && openSections != map[] && order != [] && order[|order|-1] in openSections
      requires elapsed <==> Hung(order[|order|-1], now)
      ensures (elapsed <==> exists s :: s in openSections && Hung(s, now))
              <==> (Hung(order[|order|-1], now) || forall s | s in openSections :: !Hung(s, now))
      ensures forall s | s in openSections && s != order[|order|-1] :: OpenedBefore(log, s, order[|order|-1])
    {
      OrderMembers(log);
      OrderIsOpening(log);
      hide OpenTimes, OpenOrder, OpenedBefore;
      forall s | s in openSections && s != order[|order|-1] ensures OpenedBefore(log, s, order[|order|-1]) {
        var i :| 0 <= i < |order| && order[i] == s;
        assert i < |order| - 1;
      }
    }
  }

  lemma NotEmpty(open: map<Section, real>, order: seq<Section>)
    requires forall s :: s in order <==> s in open
    ensures open != map[] ==> order != [] && order[|order|-1] in open
    ensures open == map[] ==> order == []
  {
    if open != map[] {
      var s :| s in open;
      assert s in order;
    }
    if order != [] { assert order[0] in order && order[|order|-1] in order; }
  }

  /** A section that has been hung for long is not reported while another, opened later, is within its limit. */
  method HungUnreported() returns (server: SectionServer, elapsed: bool)
    ensures fresh(server) && server.Connected() && !elapsed
    ensures Some("setup") in server.openSections && server.Hung(Some("setup"), 101.0)
  {
    server := new SectionServer(Limits(map["setup" := Some(1.0), "step" := Some(50.0)], None, 0));
    server.HandleInit(0.0);
    var first := server.HandleSection(SectionMsg(Some("setup"), Open, None), 0.0);
    var second := server.HandleSection(SectionMsg(Some("step"), Open, None), 100.0);
    LastOpened(server, 0.0, 100.0);
    elapsed := server.TimedOut(101.0);
  }

  lemma LastOpened(server: SectionServer, t: real, u: real)
    requires server.Connected()
    requires server.log == [Handled(SectionMsg(Some("setup"), Open, None), t), Handled(SectionMsg(Some("step"), Open, None), u)]
    ensures server.order == [Some("setup"), Some("step")]
  {
    var one, two := server.log[0], server.log[1];
    assert server.log == [one] + [two] && [one] == [] + [one];
    OrderSnoc([one], two);
    OrderSnoc([], one);
  }
}
