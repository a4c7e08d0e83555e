/** What section timing should measure, stated over a trace of section events. */
module SectionTrace {
  import opened Prelude

  /** A section name; None is what the close-all call passes. */
  type Section = Option<string>

  datatype Event = Opened(s: Section, t: real) | Closed(s: Section, t: real) | Bumped(t: real)

  predicate About(e: Event, s: Section) {
    (e.Opened? || e.Closed?) && e.s == s
  }

  /** The open sections and when they were opened. */
  function OpenAt(trace: seq<Event>): map<Section, real> {
    if trace == [] then map[]
    else
      var before := OpenAt(trace[..|trace|-1]);
      match trace[|trace|-1]
      case Opened(s, t) => before[s := t]
      case Closed(s, _) => before - {s}
      case Bumped(_) => before
  }

  /** The time of the last event, or the start. */
  function LastTime(trace: seq<Event>, start: real): real {
    if trace == [] then start else trace[|trace|-1].t
  }

  /** The time of the last close, or the start. */
  function LastClose(trace: seq<Event>, start: real): real {
    if trace == [] then start
    else if trace[|trace|-1].Closed? then trace[|trace|-1].t
    else LastClose(trace[..|trace|-1], start)
  }

  /** e may follow the trace: time does not go back, an open section is not opened, only an open one is closed. */
  ghost predicate Follows(trace: seq<Event>, start: real, e: Event) {
    && LastTime(trace, start) <= e.t
    && (e.Opened? ==> e.s !in OpenAt(trace))
    && (e.Closed? ==> e.s in OpenAt(trace))
  }

  ghost predicate Legal(trace: seq<Event>, start: real) {
    forall i | 0 <= i < |trace| :: Follows(trace[..i], start, trace[i])
  }

  // ---------------------------------------------------------------- closed intervals

  /** Section s was open from event i to event j. */
  ghost predicate Interval(trace: seq<Event>, s: Section, i: nat, j: nat) {
    && i < j < |trace| && trace[i].Opened? && trace[i].s == s && trace[j].Closed? && trace[j].s == s
    && forall k | i < k < j :: !About(trace[k], s)
  }

  /** No closed interval of s is longer than m. */
  ghost predicate NoneLonger(trace: seq<Event>, s: Section, m: real) {
    forall i: nat, j: nat | Interval(trace, s, i, j) :: trace[j].t - trace[i].t <= m
  }

  /** Some closed interval of s has length m. */
  ghost predicate Reached(trace: seq<Event>, s: Section, m: real) {
    exists i: nat, j: nat :: Interval(trace, s, i, j) && trace[j].t - trace[i].t == m
  }

  /** m is the length of the longest closed interval of s, or -1 when there is none. */
  ghost predicate IsLongest(trace: seq<Event>, s: Section, m: real) {
    NoneLonger(trace, s, m) && (m == -1.0 || Reached(trace, s, m))
  }

  lemma {:induction false} OpenSince(trace: seq<Event>, s: Section) returns (i: nat)
    requires s in OpenAt(trace)
    ensures i < |trace| && trace[i] == Opened(s, OpenAt(trace)[s])
    ensures forall k | i < k < |trace| :: !About(trace[k], s)
  {
    var front, last := trace[..|trace|-1], trace[|trace|-1];
    if About(last, s) {
      i := |trace| - 1;
    } else {
      i := OpenSince(front, s);
    }
  }

  lemma TimesOrdered(trace: seq<Event>, start: real, i: nat, j: nat)
    requires Legal(trace, start) && i <= j < |trace|
    ensures trace[i].t <= trace[j].t
    decreases j
  {
    if i < j {
      TimesOrdered(trace, start, i, j - 1);
      assert Follows(trace[..j], start, trace[j]);
    }
  }

  lemma LegalSnoc(trace: seq<Event>, start: real, e: Event)
    requires Legal(trace, start) && Follows(trace, start, e)
    ensures Legal(trace + [e], start)
    ensures (trace + [e])[..|trace|] == trace && LastTime(trace + [e], start) == e.t
  {
    forall i | 0 <= i < |trace + [e]| ensures Follows((trace + [e])[..i], start, (trace + [e])[i]) {
      if i < |trace| {
        assert (trace + [e])[..i] == trace[..i];
      } else {
        assert (trace + [e])[..i] == trace;
      }
    }
  }

  lemma IntervalsKept(trace: seq<Event>, e: Event, s: Section, i: nat, j: nat)
    requires j < |trace|
    ensures Interval(trace + [e], s, i, j) <==> Interval(trace, s, i, j)
  {
    assert forall k | 0 <= k < |trace| :: (trace + [e])[k] == trace[k];
  }

  lemma ReachedKept(trace: seq<Event>, s: Section, m: real, e: Event)
    requires Reached(trace, s, m)
    ensures Reached(trace + [e], s, m)
  {
    var i: nat, j: nat :| Interval(trace, s, i, j) && trace[j].t - trace[i].t == m;
    IntervalsKept(trace, e, s, i, j);
    assert (trace + [e])[j].t - (trace + [e])[i].t == m;
  }

  /** Any event other than a close of s leaves its longest interval. */
  lemma LongestKept(trace: seq<Event>, s: Section, m: real, e: Event)
    requires IsLongest(trace, s, m) && !(e.Closed? && e.s == s)
    ensures IsLongest(trace + [e], s, m)
  {
    var more := trace + [e];
    forall i: nat, j: nat | Interval(more, s, i, j) ensures more[j].t - more[i].t <= m {
      assert j < |trace|;
      IntervalsKept(trace, e, s, i, j);
      assert trace[j].t - trace[i].t <= m;
    }
    if m != -1.0 { ReachedKept(trace, s, m, e); }
  }

  function Max(a: real, b: real): real {
    if a < b then b else a
  }

  /** A close of s ends the interval from its opening. */
  lemma NewInterval(trace: seq<Event>, start: real, s: Section, t: real) returns (since: nat)
    requires Legal(trace, start) && s in OpenAt(trace) && LastTime(trace, start) <= t
    ensures since < |trace| && trace[since].t == OpenAt(trace)[s] <= t
    ensures Interval(trace + [Closed(s, t)], s, since, |trace|)
  {
    var more := trace + [Closed(s, t)];
    since := OpenSince(trace, s);
    TimesOrdered(trace, start, since, |trace| - 1);
    forall k | since < k < |trace| ensures !About(more[k], s) { assert more[k] == trace[k]; }
  }

  lemma IntervalBound(trace: seq<Event>, s: Section, m: real, t: real, since: nat, i: nat, j: nat)
    requires IsLongest(trace, s, m)
    requires Interval(trace + [Closed(s, t)], s, since, |trace|) && Interval(trace + [Closed(s, t)], s, i, j)
    ensures (trace + [Closed(s, t)])[j].t - (trace + [Closed(s, t)])[i].t <= Max(m, t - trace[since].t)
  {
    var more := trace + [Closed(s, t)];
    if j < |trace| {
      IntervalsKept(trace, Closed(s, t), s, i, j);
      assert trace[j].t - trace[i].t <= m;
    } else {
      OneOpening(more, s, i, since);
    }
  }

  lemma LongestBound(trace: seq<Event>, s: Section, m: real, t: real, since: nat)
    requires IsLongest(trace, s, m) && Interval(trace + [Closed(s, t)], s, since, |trace|)
    ensures NoneLonger(trace + [Closed(s, t)], s, Max(m, t - trace[since].t))
  {
    var more := trace + [Closed(s, t)];
    forall i: nat, j: nat | Interval(more, s, i, j) ensures more[j].t - more[i].t <= Max(m, t - trace[since].t) {
      IntervalBound(trace, s, m, t, since, i, j);
    }
  }

  lemma LongestReached(trace: seq<Event>, s: Section, m: real, t: real, since: nat)
    requires IsLongest(trace, s, m) && Interval(trace + [Closed(s, t)], s, since, |trace|)
    ensures var longest := Max(m, t - trace[since].t); longest == -1.0 || Reached(trace + [Closed(s, t)], s, longest)
  {
    var more := trace + [Closed(s, t)];
    if m < t - trace[since].t {
      assert more[|trace|].t - more[since].t == t - trace[since].t;
    } else if m != -1.0 {
      ReachedKept(trace, s, m, Closed(s, t));
    }
  }

  /** Closing s adds one interval, from its opening. */
  lemma LongestClosed(trace: seq<Event>, start: real, s: Section, m: real, t: real)
    requires IsLongest(trace, s, m) && Legal(trace, start) && s in OpenAt(trace) && LastTime(trace, start) <= t
    ensures IsLongest(trace + [Closed(s, t)], s, Max(m, t - OpenAt(trace)[s]))
  {
    hide OpenAt, Legal, Max, Interval, NoneLonger, Reached, LastTime;
    var since := NewInterval(trace, start, s, t);
    LongestBound(trace, s, m, t, since);
    LongestReached(trace, s, m, t, since);
  }

  lemma OneOpening(trace: seq<Event>, s: Section, i: nat, j: nat)
    requires trace != [] && Interval(trace, s, i, |trace| - 1) && Interval(trace, s, j, |trace| - 1)
    ensures i == j
  {
    assert About(trace[i], s) && About(trace[j], s);
  }

  // ---------------------------------------------------------------- time outside sections

  /** Event j, an open or an explicit bump, ends a stretch with no section open. */
  ghost predicate EndsQuiet(trace: seq<Event>, j: nat) {
    j < |trace| && !trace[j].Closed? && OpenAt(trace[..j]) == map[]
  }

  /** The stretch ended by event j began at the last close before it, or at the start. */
  ghost function QuietLength(trace: seq<Event>, start: real, j: nat): real
    requires j < |trace|
  {
    trace[j].t - LastClose(trace[..j], start)
  }

  /** m is the longest such stretch, or -1 when there is none. */
  ghost predicate IsLongestQuiet(trace: seq<Event>, start: real, m: real) {
    && (forall j: nat | EndsQuiet(trace, j) :: QuietLength(trace, start, j) <= m)
    && (m == -1.0 || exists j: nat :: EndsQuiet(trace, j) && QuietLength(trace, start, j) == m)
  }

  lemma QuietKept(trace: seq<Event>, start: real, e: Event, j: nat)
    requires j < |trace|
    ensures EndsQuiet(trace + [e], j) <==> EndsQuiet(trace, j)
    ensures QuietLength(trace + [e], start, j) == QuietLength(trace, start, j)
  {
    assert (trace + [e])[..j] == trace[..j];
  }

  lemma QuietStep(trace: seq<Event>, start: real, m: real, e: Event)
    requires IsLongestQuiet(trace, start, m)
    ensures IsLongestQuiet(trace + [e], start,
                           if !e.Closed? && OpenAt(trace) == map[] then Max(m, e.t - LastClose(trace, start)) else m)
  {
    var more := trace + [e];
    assert more[..|trace|] == trace && more[|trace|] == e;
    var longest := if !e.Closed? && OpenAt(trace) == map[] then Max(m, e.t - LastClose(trace, start)) else m;
    forall j: nat | EndsQuiet(more, j) ensures QuietLength(more, start, j) <= longest {
      if j < |trace| { QuietKept(trace, start, e, j); }
    }
    if longest == m {
      if m != -1.0 {
        var j: nat :| EndsQuiet(trace, j) && QuietLength(trace, start, j) == m;
        QuietKept(trace, start, e, j);
      }
    } else {
      assert EndsQuiet(more, |trace|) && QuietLength(more, start, |trace|) == longest;
    }
  }

  // ---------------------------------------------------------------- measuring step by step

  ghost predicate AllLongest(trace: seq<Event>, longest: map<Section, real>) {
    forall s | s in longest :: IsLongest(trace, s, longest[s])
  }

  /** Running values that measure a trace: open sections, longest intervals, last close, longest quiet stretch. */
  ghost predicate Measured(trace: seq<Event>, start: real, open: map<Section, real>, longest: map<Section, real>,
                           lastClose: real, quiet: real)
  {
    && Legal(trace, start) && open == OpenAt(trace)
    && (open == map[] ==> lastClose == LastClose(trace, start))
    && AllLongest(trace, longest)
    && IsLongestQuiet(trace, start, quiet)
  }

  function BumpQuiet(open: map<Section, real>, lastClose: real, quiet: real, t: real): real {
    if open == map[] then Max(quiet, t - lastClose) else quiet
  }

  lemma SnocTrace(trace: seq<Event>, start: real, e: Event)
    ensures OpenAt(trace + [e]) == match e { case Opened(s, t) => OpenAt(trace)[s := t]
                                             case Closed(s, _) => OpenAt(trace) - {s}
                                             case Bumped(_) => OpenAt(trace) }
    ensures LastClose(trace + [e], start) == if e.Closed? then e.t else LastClose(trace, start)
    ensures LastTime(trace + [e], start) == e.t
  {
    assert (trace + [e])[..|trace|] == trace;
  }

  lemma AllLongestKept(trace: seq<Event>, longest: map<Section, real>, e: Event)
    requires AllLongest(trace, longest) && !e.Closed?
    ensures AllLongest(trace + [e], longest)
  {
    forall s | s in longest ensures IsLongest(trace + [e], s, longest[s]) {
      LongestKept(trace, s, longest[s], e);
    }
  }

  /** An open or a bump. */
  lemma MeasureOpen(trace: seq<Event>, start: real, open: map<Section, real>, longest: map<Section, real>,
                    lastClose: real, quiet: real, e: Event)
    requires Measured(trace, start, open, longest, lastClose, quiet) && Follows(trace, start, e) && !e.Closed?
    ensures Measured(trace + [e], start, if e.Opened? then open[e.s := e.t] else open, longest, lastClose,
                     BumpQuiet(open, lastClose, quiet, e.t))
  {
    LegalSnoc(trace, start, e);
    SnocTrace(trace, start, e);
    AllLongestKept(trace, longest, e);
    QuietStep(trace, start, quiet, e);
    hide Legal, OpenAt, LastClose, AllLongest, IsLongestQuiet, Follows, LastTime;
  }

  lemma AllLongestClosed(trace: seq<Event>, start: real, longest: map<Section, real>, s: Section, t: real)
    requires AllLongest(trace, longest) && s in longest
    requires Legal(trace, start) && s in OpenAt(trace) && LastTime(trace, start) <= t
    ensures AllLongest(trace + [Closed(s, t)], longest[s := Max(longest[s], t - OpenAt(trace)[s])])
  {
    hide Legal, OpenAt, IsLongest, LastTime, Max;
    LongestClosed(trace, start, s, longest[s], t);
    forall u | u in longest && u != s ensures IsLongest(trace + [Closed(s, t)], u, longest[u]) {
      LongestKept(trace, u, longest[u], Closed(s, t));
    }
  }

  /** A close. */
  lemma MeasureClose(trace: seq<Event>, start: real, open: map<Section, real>, longest: map<Section, real>,
                     lastClose: real, quiet: real, s: Section, t: real)
    requires Measured(trace, start, open, longest, lastClose, quiet) && Follows(trace, start, Closed(s, t)) && s in longest
    ensures s in open
    ensures Measured(trace + [Closed(s, t)], start, open - {s}, longest[s := Max(longest[s], t - open[s])],
                     if open - {s} == map[] then t else lastClose, quiet)
  {
    hide Legal, LastClose, AllLongest, IsLongestQuiet, LastTime, OpenAt, Max;
    var e := Closed(s, t);
    LegalSnoc(trace, start, e);
    SnocTrace(trace, start, e);
    AllLongestClosed(trace, start, longest, s, t);
    QuietStep(trace, start, quiet, e);
  }
}
