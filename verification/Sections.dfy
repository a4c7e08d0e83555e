/** Section timing on the client (`TimeoutsCalc`), and its connection to the monitor server. */
module Sections {
  import opened Prelude
  import opened SectionTrace
  import opened SectionWatch

  datatype CalcError = UnknownSection | AlreadyOpen | NotOpen | NoMaximum

  /** The events close each of the sections once, at time t. */
  ghost predicate Closings(events: seq<Event>, sections: set<Section>, t: real) {
    && |events| == |sections|
    && (forall e | e in events :: e.Closed? && e.t == t && e.s in sections)
    && (forall u | u in sections :: Closed(u, t) in events)
  }

  lemma MoreClosings(events: seq<Event>, sections: set<Section>, u: Section, t: real)
    requires Closings(events, sections, t) && u !in sections
    ensures Closings(events + [Closed(u, t)], sections + {u}, t)
  {
  }

  /** From one trace and set of open sections to another by closing, at time t, the sections no longer open. */
  ghost predicate ClosedTo(trace: seq<Event>, open: map<Section, real>, trace': seq<Event>, open': map<Section, real>, t: real) {
    && trace <= trace' && open'.Keys <= open.Keys && (forall u | u in open' :: open'[u] == open[u])
    && Closings(trace'[|trace|..], open.Keys - open'.Keys, t)
  }

  lemma NothingClosed(trace: seq<Event>, open: map<Section, real>, t: real)
    ensures ClosedTo(trace, open, trace, open, t)
  {
    assert trace[|trace|..] == [] && open.Keys - open.Keys == {};
  }

  lemma LessOpen(all: set<Section>, open: map<Section, real>, u: Section)
    requires open.Keys <= all && u in open
    ensures all - (open - {u}).Keys == all - open.Keys + {u}
  {
  }

  lemma Longer(trace: seq<Event>, trace': seq<Event>, e: Event)
    requires trace <= trace'
    ensures trace <= trace' + [e] && (trace' + [e])[|trace|..] == trace'[|trace|..] + [e]
  {
  }

  lemma OneMoreClosed(trace: seq<Event>, open: map<Section, real>, trace': seq<Event>, open': map<Section, real>,
                      u: Section, t: real)
    requires ClosedTo(trace, open, trace', open', t) && u in open'
    ensures ClosedTo(trace, open, trace' + [Closed(u, t)], open' - {u}, t)
  {
    MoreClosings(trace'[|trace|..], open.Keys - open'.Keys, u, t);
    hide Closings;
    LessOpen(open.Keys, open', u);
    Longer(trace, trace', Closed(u, t));
  }

  // ---------------------------------------------------------------- the client's calculator

  class TimeoutsCalc {
    const startTime: real
    var openSections: map<Section, real>
    var sectionMax: map<Section, real>
    var lastCloseTime: real
    var oosMax: real

    // the accepted events so far
    ghost var trace: seq<Event>

    /** Every measured maximum is the one the trace calls for. */
    ghost predicate Valid()
      reads this
    {
      Measured(trace, startTime, openSections, sectionMax, lastCloseTime, oosMax)
    }

    constructor (sections: set<Section>, start: real)
      ensures Valid() && trace == [] && startTime == start && sectionMax.Keys == sections && openSections == map[]
    {
      startTime, lastCloseTime := start, start;
      openSections, oosMax := map[], -1.0;
      sectionMax := map s | s in sections :: -1.0;
      trace := [];
    }

    /** `maybe_bump_oos_time` without its place in the trace. */
    method BumpOos(t: real)
      modifies `oosMax
      ensures oosMax == BumpQuiet(openSections, lastCloseTime, old(oosMax), t)
    {
      if openSections == map[] {
        oosMax := Max(oosMax, t - lastCloseTime);
      }
    }

    /** `maybe_bump_oos_time`, called explicitly. */
    method MaybeBump(t: real)
      requires Valid() && LastTime(trace, startTime) <= t
      modifies this
      ensures Valid() && trace == old(trace) + [Bumped(t)]
      ensures openSections == old(openSections) && sectionMax == old(sectionMax)
    {
      hide Measured, BumpQuiet;
      MeasureOpen(trace, startTime, openSections, sectionMax, lastCloseTime, oosMax, Bumped(t));
      BumpOos(t);
      trace := trace + [Bumped(t)];
    }

    method OpenSection(s: Section, t: real) returns (r: Result<(), CalcError>)
      requires Valid() && LastTime(trace, startTime) <= t
      modifies this
      ensures Valid() && sectionMax == old(sectionMax) && LastTime(trace, startTime) <= t
      ensures if s in old(openSections) then r == Err(AlreadyOpen) && trace == old(trace) && openSections == old(openSections)
              else r == Ok(()) && trace == old(trace) + [Opened(s, t)] && openSections == old(openSections)[s := t]
    {
      if s in openSections {
        return Err(AlreadyOpen);
      }
      OpenIsTrace();
      hide Measured, BumpQuiet, OpenAt;
      MeasureOpen(trace, startTime, openSections, sectionMax, lastCloseTime, oosMax, Opened(s, t));
      BumpOos(t);
      openSections := openSections[s := t];
      trace := trace + [Opened(s, t)];
      r := Ok(());
    }

    lemma OpenIsTrace()
      requires Valid()
      ensures openSections == OpenAt(trace)
    {
    }

    lemma MayClose(s: Section, t: real)
      requires Valid() && LastTime(trace, startTime) <= t && s in openSections
      ensures Follows(trace, startTime, Closed(s, t))
    {
    }

    method CloseSection(s: Section, t: real) returns (r: Result<(), CalcError>)
      requires Valid() && LastTime(trace, startTime) <= t
      modifies this
      ensures Valid() && sectionMax.Keys == old(sectionMax).Keys && LastTime(trace, startTime) <= t
      ensures s !in old(openSections) ==> r == Err(NotOpen)
      ensures s in old(openSections) && s !in old(sectionMax) ==> r == Err(NoMaximum)
      ensures s in old(openSections) && s in old(sectionMax) ==>
                r == Ok(()) && trace == old(trace) + [Closed(s, t)] && openSections == old(openSections) - {s}
      ensures r.Err? ==> trace == old(trace) && openSections == old(openSections)
    {
      hide Measured, OpenAt, Follows, LastTime, Max;
      if s !in openSections {
        return Err(NotOpen);
      }
      if s !in sectionMax {
        return Err(NoMaximum);
      }
      MayClose(s, t);
      Record(s, t);
      r := Ok(());
    }

    /** The close itself. */
    method Record(s: Section, t: real)
      requires Valid() && Follows(trace, startTime, Closed(s, t)) && s in sectionMax && s in openSections
      modifies this
      ensures Valid() && sectionMax.Keys == old(sectionMax).Keys && LastTime(trace, startTime) <= t
      ensures trace == old(trace) + [Closed(s, t)] && openSections == old(openSections) - {s}
    {
      hide Measured, Follows, Max;
      MeasureClose(trace, startTime, openSections, sectionMax, lastCloseTime, oosMax, s, t);
      var elapsed := t - openSections[s];
      sectionMax := sectionMax[s := Max(sectionMax[s], elapsed)];
      openSections := openSections - {s};
      if openSections == map[] {
        lastCloseTime := t;
      }
      trace := trace + [Closed(s, t)];
    }

    /** `update_on_section_event`. Only a named section is looked up first. */
    method Update(s: Section, action: Action, t: real) returns (r: Result<(), CalcError>)
      requires Valid() && LastTime(trace, startTime) <= t
      modifies this
      ensures Valid() && sectionMax.Keys == old(sectionMax).Keys && LastTime(trace, startTime) <= t
      ensures old(trace) <= trace
      ensures s.Some? && s !in old(sectionMax) ==>
                r == Err(UnknownSection) && trace == old(trace) && openSections == old(openSections)
      ensures (s.None? || s in old(sectionMax)) && action.Open? ==>
                if s in old(openSections) then r == Err(AlreadyOpen) && trace == old(trace) && openSections == old(openSections)
                else r == Ok(()) && trace == old(trace) + [Opened(s, t)] && openSections == old(openSections)[s := t]
      ensures (s.None? || s in old(sectionMax)) && action.Close? ==>
                if s !in old(openSections) then r == Err(NotOpen) && trace == old(trace) && openSections == old(openSections)
                else if s !in old(sectionMax) then r == Err(NoMaximum) && trace == old(trace) && openSections == old(openSections)
                else r == Ok(()) && trace == old(trace) + [Closed(s, t)] && openSections == old(openSections) - {s}
      ensures (s.None? || s in old(sectionMax)) && action.CloseAll? ==>
                && ClosedTo(old(trace), old(openSections), trace, openSections, t)
                && (r == if old(openSections).Keys <= old(sectionMax).Keys then Ok(()) else Err(NoMaximum))
                && (r == Ok(()) ==> openSections == map[])
    {
      hide Measured, OpenAt, ClosedTo, LastTime;
      r := Ok(());
      if s.Some? && s !in sectionMax {
        return Err(UnknownSection);
      }
      match action
      case Open => r := OpenSection(s, t);
      case Close => r := CloseSection(s, t);
      case CloseAll => r := CloseEach(t);
    }

    /** The close-all branch: one close of each open section, up to one without a maximum. */
    method CloseEach(t: real) returns (r: Result<(), CalcError>)
      requires Valid() && LastTime(trace, startTime) <= t
      modifies this
      ensures Valid() && sectionMax.Keys == old(sectionMax).Keys && LastTime(trace, startTime) <= t
      ensures old(trace) <= trace && ClosedTo(old(trace), old(openSections), trace, openSections, t)
      ensures r == if old(openSections).Keys <= old(sectionMax).Keys then Ok(()) else Err(NoMaximum)
      ensures r == Ok(()) ==> openSections == map[]
    {
      hide Measured, OpenAt, LastTime, ClosedTo;
      NothingClosed(trace, openSections, t);
      var todo := openSections.Keys;
      r := Ok(());
      while todo != {}
        invariant Valid() && sectionMax.Keys == old(sectionMax).Keys && LastTime(trace, startTime) <= t && r == Ok(())
        invariant todo == openSections.Keys && old(trace) <= trace
        invariant ClosedTo(old(trace), old(openSections), trace, openSections, t)
        invariant todo <= old(openSections).Keys <= sectionMax.Keys + todo
        decreases todo
      {
        var u :| u in todo;
        OneMoreClosed(old(trace), old(openSections), trace, openSections, u, t);
        r := CloseSection(u, t);
        if r.Err? {
          return;
        }
        todo := todo - {u};
      }
    }
  }

  // ---------------------------------------------------------------- a connected client

  /** The sections once the messages still on the way have been handled. */
  function AfterAll(open: set<Section>, msgs: seq<SectionMsg>): set<Section>
    decreases msgs
  {
    if msgs == [] then open else AfterAll(After(open, msgs[0]), msgs[1..])
  }

  lemma {:induction false} AfterAllSnoc(open: set<Section>, msgs: seq<SectionMsg>, msg: SectionMsg)
    ensures AfterAll(open, msgs + [msg]) == After(AfterAll(open, msgs), msg)
    decreases msgs
  {
    if msgs == [] {
      assert [] + [msg] == [msg] && [msg][1..] == [];
    } else {
      assert (msgs + [msg])[1..] == msgs[1..] + [msg];
      AfterAllSnoc(After(open, msgs[0]), msgs[1..], msg);
    }
  }

  datatype ClientError = NotReady | SendFailed

  /** One connection: the client's calculator, the server, and the messages between them. With skipResponse the client
      does not wait, so messages may be on the way; otherwise each call waits for its response. */
  class Connection {
    const configured: set<Section>
    const skipResponse: bool
    const timeouts: TimeoutsCalc
    const server: SectionServer
    var inFlight: seq<SectionMsg>

    /** The server, once it has caught up, and the client hold the same set of open sections. */
    ghost predicate Valid()
      reads this, timeouts, server
    {
      && None !in configured && timeouts.sectionMax.Keys == configured
      && timeouts.openSections.Keys <= configured && timeouts.Valid() && server.Connected()
      && AfterAll(server.openSections.Keys, inFlight) == timeouts.openSections.Keys
      && (!skipResponse ==> inFlight == [])
    }

    /** `init_workload_monitoring`: connect, and start a calculator for the configured sections. */
    constructor (sections: set<Section>, skipResponse: bool, s: SectionServer, now: real, timeouts: TimeoutsCalc)
      requires None !in sections && timeouts.Valid() && timeouts.sectionMax.Keys == sections && timeouts.openSections == map[]
      requires s.Connected() && s.openSections == map[] && s.outOfSectionTime == Some(now)
      ensures Valid() && inFlight == [] && this.timeouts == timeouts && server == s && configured == sections
      ensures this.skipResponse == skipResponse
    {
      configured, this.skipResponse, server, this.timeouts, inFlight := sections, skipResponse, s, timeouts, [];
    }

    /** `_send_section_msg_impl`: a section that is not configured is skipped, with nothing sent; a rejected message
        raises and leaves both sides as they were. With skipResponse the message is on the way when the call ends. */
    method Send(msg: SectionMsg, now: real) returns (r: Result<(), ClientError>)
      requires Valid() && LastTime(timeouts.trace, timeouts.startTime) <= now
      modifies this, timeouts, server
      ensures Valid() && old(timeouts.trace) <= timeouts.trace && LastTime(timeouts.trace, timeouts.startTime) <= now
      ensures msg.section !in configured ==>
                && r == Ok(()) && timeouts.openSections == old(timeouts.openSections) && timeouts.trace == old(timeouts.trace)
                && inFlight == old(inFlight) && server.openSections == old(server.openSections)
                && server.outOfSectionTime == old(server.outOfSectionTime) && server.log == old(server.log)
      ensures msg.section in configured ==>
                && timeouts.openSections.Keys == After(old(timeouts.openSections).Keys, msg)
                && (r.Err? <==> Rejected(old(timeouts.openSections).Keys, msg))
      ensures msg.section in configured && skipResponse ==>
                && inFlight == old(inFlight) + [msg] && server.openSections == old(server.openSections)
                && server.outOfSectionTime == old(server.outOfSectionTime) && server.log == old(server.log)
      ensures msg.section in configured && !skipResponse ==> server.log == old(server.log) + [Handled(msg, now)]
      ensures !skipResponse ==> inFlight == [] && server.openSections.Keys == timeouts.openSections.Keys
    {
      hide Measured;
      if msg.section !in configured {
        return Ok(());
      }
      if !skipResponse {
        r := SendAndWait(msg, now);
      } else {
        AfterAllSnoc(server.openSections.Keys, inFlight, msg);
        inFlight := inFlight + [msg];
        r := Measure(msg, now);
      }
    }

    /** The calculator's part of a send. */
    method Measure(msg: SectionMsg, now: real) returns (r: Result<(), ClientError>)
      requires timeouts.Valid() && LastTime(timeouts.trace, timeouts.startTime) <= now && None !in configured
      requires timeouts.openSections.Keys <= timeouts.sectionMax.Keys == configured && msg.section in configured
      modifies timeouts
      ensures timeouts.Valid() && timeouts.sectionMax.Keys == configured
      ensures old(timeouts.trace) <= timeouts.trace && LastTime(timeouts.trace, timeouts.startTime) <= now
      ensures timeouts.openSections.Keys == After(old(timeouts.openSections).Keys, msg)
      ensures r.Err? <==> Rejected(old(timeouts.openSections).Keys, msg)
    {
      hide Measured, ClosedTo, LastTime;
      var updated := timeouts.Update(msg.section, msg.action, now);
      r := if updated.Err? then Err(SendFailed) else Ok(());
    }

    /** A send that waits for its response. */
    method SendAndWait(msg: SectionMsg, now: real) returns (r: Result<(), ClientError>)
      requires Valid() && LastTime(timeouts.trace, timeouts.startTime) <= now && !skipResponse && msg.section in configured
      modifies timeouts, server
      ensures Valid()
      ensures old(timeouts.trace) <= timeouts.trace && LastTime(timeouts.trace, timeouts.startTime) <= now
      ensures timeouts.openSections.Keys == After(old(timeouts.openSections).Keys, msg)
      ensures r.Err? <==> Rejected(old(timeouts.openSections).Keys, msg)
      ensures server.log == old(server.log) + [Handled(msg, now)]
    {
      hide Measured;
      var ok := server.HandleSection(msg, now);
      if !ok {
        return Err(SendFailed);
      }
      r := Measure(msg, now);
    }

    /** The server reads its next message. */
    method Deliver(now: real)
      requires Valid() && inFlight != []
      modifies this, server
      ensures Valid() && inFlight == old(inFlight)[1..]
      ensures server.log == old(server.log) + [Handled(old(inFlight)[0], now)]
      ensures server.openSections.Keys == After(old(server.openSections).Keys, old(inFlight)[0])
      ensures timeouts.openSections == old(timeouts.openSections) && timeouts.trace == old(timeouts.trace)
    {
      var _ := server.HandleSection(inFlight[0], now);
      inFlight := inFlight[1..];
    }

    /** `end_all_sections`: its message names no section, so nothing is sent and nothing is closed on either side. The
        call leaves no section open exactly when none was open before it. */
    method EndAllSections(now: real)
      requires Valid() && LastTime(timeouts.trace, timeouts.startTime) <= now
      modifies this, timeouts, server
      ensures Valid() && timeouts.openSections == old(timeouts.openSections) && timeouts.trace == old(timeouts.trace)
      ensures inFlight == old(inFlight) && server.openSections == old(server.openSections)
      ensures server.outOfSectionTime == old(server.outOfSectionTime) && server.log == old(server.log)
      ensures timeouts.openSections == map[] <==> old(timeouts.openSections) == map[]
    {
      var _ := Send(SectionMsg(None, CloseAll, None), now);
    }

    /** Each section the server holds open is stored with the time at which it handled the message that opened it. */
    lemma OpenedAt(s: Section, t: real)
      requires Valid()
      ensures (s in server.openSections && server.openSections[s] == t) <==> StoredSince(server.log, s, t)
    {
      server.TimesKept(s, t);
    }

    /** Once nothing is on the way, the two sides agree, and the server's out-of-section time is unset exactly while
        a section is open. */
    lemma CaughtUp()
      requires Valid() && inFlight == []
      ensures server.openSections.Keys == timeouts.openSections.Keys
      ensures server.outOfSectionTime.None? <==> timeouts.openSections != map[]
    {
    }
  }
  /** A section that is still open on both sides after the call that is to end all sections. */
  method EndAllLeavesOpen() returns (c: Connection)
    ensures fresh(c) && fresh(c.timeouts) && fresh(c.server) && c.Valid() && c.inFlight == []
    ensures c.timeouts.openSections.Keys == {Some("step")} && c.server.openSections.Keys == {Some("step")}
  {
    var server := new SectionServer(Limits(map["step" := Some(9.0)], None, 0));
    var timeouts := new TimeoutsCalc({Some("step")}, 0.0);
    server.HandleInit(0.0);
    c := new Connection({Some("step")}, false, server, 0.0, timeouts);
    var _ := c.Send(SectionMsg(Some("step"), Open, None), 1.0);
    c.EndAllSections(2.0);
  }
}
