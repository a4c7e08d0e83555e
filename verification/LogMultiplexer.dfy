/** `MultiplexingReaderThread`: pipes of many ranks read in arbitrary pieces, queued as whole prefixed lines. */
module LogMultiplexer {
  import opened Prelude
  import opened Text
  import opened LogLines

  /** _GRPC_MAX_CHUNK_SIZE */
  const MAX_CHUNK: nat := 256 * 1024

  const LAUNCHER: int := -1

  /** A poll event: data read from a pipe (decoded), end of the pipe, or nothing to act on (EINTR, other bits). */
  datatype Event = Read(fd: int, text: string) | Hangup(fd: int) | Skipped(fd: int)

  /** A write request: target file and text. */
  datatype Item = Item(path: string, text: string)

  /** What a queued item was made of: whole lines of one rank. */
  datatype Group = Group(rank: int, lines: seq<string>)

  // ---------------------------------------------------------------- what was heard

  /** fd has not been closed by the events. */
  predicate Live(events: seq<Event>, fd: int) {
    Hangup(fd) !in events
  }

  /** Everything read from fd before its end, as one text. */
  function Heard(events: seq<Event>, fd: int): string {
    if events == [] then []
    else
      var front, last := events[..|events|-1], events[|events|-1];
      if last.Read? && last.fd == fd && Live(front, fd) then Heard(front, fd) + last.text else Heard(front, fd)
  }

  /** The events of one pipe. */
  function Only(events: seq<Event>, fd: int): seq<Event> {
    if events == [] then []
    else Only(events[..|events|-1], fd) + if events[|events|-1].fd == fd then [events[|events|-1]] else []
  }

  /** What is heard from a pipe does not depend on how its events interleave with those of others. */
  lemma {:induction false} InterleavingIrrelevant(events: seq<Event>, fd: int)
    ensures Heard(Only(events, fd), fd) == Heard(events, fd)
    ensures Live(Only(events, fd), fd) == Live(events, fd)
  {
    if events != [] {
      var front, last := events[..|events|-1], events[|events|-1];
      InterleavingIrrelevant(front, fd);
      assert events == front + [last];
      if last.fd == fd {
        var only := Only(events, fd);
        assert only[..|only|-1] == Only(front, fd) && only[|only|-1] == last;
        assert only == Only(front, fd) + [last];
      } else {
        assert Only(events, fd) == Only(front, fd);
      }
    }
  }

  // ---------------------------------------------------------------- what must be queued

  /** The lines queued for one rank, over all items. */
  function LinesOf(groups: seq<Group>, rank: int): seq<string> {
    if groups == [] then []
    else
      LinesOf(groups[..|groups|-1], rank) + if groups[|groups|-1].rank == rank then groups[|groups|-1].lines else []
  }

  /** The lines a rank's text must produce: its kept complete lines, prefixed, and after the end of its pipe the
      unfinished tail, prefixed, with one newline added. */
  function Output(rank: int, prefix: string, text: string, ended: bool): seq<string> {
    Rendered(rank, prefix, Lines(text)) + if ended && Tail(text) != [] then [prefix + Tail(text) + "\n"] else []
  }

  lemma {:induction false} RenderedLauncher(lines: seq<string>)
    ensures Rendered(LAUNCHER, "", lines) == lines
  {
    if lines != [] {
      RenderedLauncher(lines[..|lines|-1]);
      assert "" + lines[|lines|-1] == lines[|lines|-1];
    }
  }

  /** The launcher's stream comes out verbatim, up to a final newline. */
  lemma LauncherVerbatim(text: string)
    ensures Concat(Output(LAUNCHER, "", text, true)) == text + if Tail(text) == [] then "" else "\n"
  {
    RenderedLauncher(Lines(text));
    LinesAndTail(text);
    hide Lines, Tail, Rendered;
    if Tail(text) != [] {
      assert [] + Tail(text) + "\n" == Tail(text) + "\n";
      ConcatAppend(Lines(text), [Tail(text) + "\n"]);
      assert Concat([Tail(text) + "\n"]) == Tail(text) + "\n";
    } else {
      assert Lines(text) + [] == Lines(text);
    }
  }

  /** A line of the queue: the rank's prefix and one whole line. */
  ghost predicate Stamped(l: string, prefix: string) {
    |l| >= |prefix| && l[..|prefix|] == prefix && WholeLine(l[|prefix|..])
  }

  ghost predicate AllStamped(lines: seq<string>, prefix: string) {
    forall i | 0 <= i < |lines| :: Stamped(lines[i], prefix)
  }

  lemma {:induction false} RenderedStamped(rank: int, prefix: string, lines: seq<string>)
    requires forall i | 0 <= i < |lines| :: WholeLine(lines[i])
    ensures AllStamped(Rendered(rank, prefix, lines), prefix) && NoBlank(Rendered(rank, prefix, lines))
  {
    if lines != [] {
      RenderedStamped(rank, prefix, lines[..|lines|-1]);
      assert (prefix + lines[|lines|-1])[|prefix|..] == lines[|lines|-1];
    }
  }

  function Tagged(rank: int, chunks: seq<seq<string>>): seq<Group> {
    if chunks == [] then [] else Tagged(rank, chunks[..|chunks|-1]) + [Group(rank, chunks[|chunks|-1])]
  }

  lemma {:induction false} LinesOfAppend(a: seq<Group>, b: seq<Group>, rank: int)
    ensures LinesOf(a + b, rank) == LinesOf(a, rank) + LinesOf(b, rank)
  {
    if b == [] {
      assert a + b == a;
    } else {
      assert (a + b)[..|a + b|-1] == a + b[..|b|-1];
      LinesOfAppend(a, b[..|b|-1], rank);
    }
  }

  lemma {:induction false} LinesOfTagged(rank: int, chunks: seq<seq<string>>, other: int)
    ensures LinesOf(Tagged(rank, chunks), other) == if other == rank then Flat(chunks) else []
  {
    if chunks != [] {
      LinesOfTagged(rank, chunks[..|chunks|-1], other);
      var tagged := Tagged(rank, chunks);
      assert tagged[..|tagged|-1] == Tagged(rank, chunks[..|chunks|-1]);
    }
  }

  /** Chunking of lines so far: closed chunks, and the one being filled. */
  ghost predicate Filling(lines: seq<string>, done: seq<seq<string>>, current: seq<string>) {
    && (lines == [] <==> current == []) && (lines == [] ==> done == [])
    && Chunks(lines, MAX_CHUNK) == if lines == [] then [] else done + [current]
  }

  lemma StartFilling(groups: seq<Group>, rank: int)
    ensures Filling([], [], []) && groups + Tagged(rank, []) == groups && Bytes([]) == 0
  {
  }

  lemma EndFilling(lines: seq<string>, done: seq<seq<string>>, current: seq<string>)
    requires Filling(lines, done, current)
    ensures Chunks(lines, MAX_CHUNK) == if current == [] then done else done + [current]
  {
  }

  lemma FillStep(lines: seq<string>, i: nat, done: seq<seq<string>>, current: seq<string>)
    requires i < |lines| && Filling(lines[..i], done, current)
    ensures if Bytes(current) > 0 && Bytes(current) + LineBytes(lines[i]) > MAX_CHUNK
            then current != [] && Filling(lines[..i + 1], done + [current], [lines[i]])
            else Filling(lines[..i + 1], done, current + [lines[i]])
  {
    assert lines[..i + 1][..i] == lines[..i];
    if i > 0 {
      var before := Chunks(lines[..i], MAX_CHUNK);
      assert before[..|before|-1] == done && before[|before|-1] == current;
    } else {
      assert Chunks(lines[..1], MAX_CHUNK) == [[lines[0]]];
      assert current + [lines[0]] == [lines[0]];
    }
  }

  lemma TaggedSnoc(groups: seq<Group>, rank: int, done: seq<seq<string>>, current: seq<string>)
    ensures groups + Tagged(rank, done) + [Group(rank, current)] == groups + Tagged(rank, done + [current])
  {
    assert (done + [current])[..|done|] == done;
  }

  lemma BytesSnoc(lines: seq<string>, line: string)
    ensures Bytes(lines + [line]) == Bytes(lines) + LineBytes(line)
  {
    assert (lines + [line])[..|lines|] == lines;
  }

  /** What queueing lines of one rank adds to each rank's lines. */
  lemma QueuedLines(groups: seq<Group>, rank: int, prefix: string, lines: seq<string>, r: int)
    requires forall i | 0 <= i < |lines| :: WholeLine(lines[i])
    ensures LinesOf(groups + Tagged(rank, Chunks(Rendered(rank, prefix, lines), MAX_CHUNK)), r)
            == LinesOf(groups, r) + if r == rank then Rendered(rank, prefix, lines) else []
  {
    var chunks := Chunks(Rendered(rank, prefix, lines), MAX_CHUNK);
    LinesOfAppend(groups, Tagged(rank, chunks), r);
    LinesOfTagged(rank, chunks, r);
    RenderedStamped(rank, prefix, lines);
    ChunksAreValid(Rendered(rank, prefix, lines), MAX_CHUNK);
  }

  /** What flushing a tail adds to each rank's lines. */
  lemma FlushedLines(groups: seq<Group>, rank: int, prefix: string, tail: string, r: int)
    ensures LinesOf(groups + [Group(rank, [prefix + tail + "\n"])], r)
            == LinesOf(groups, r) + if r == rank then [prefix + tail + "\n"] else []
  {
    var more := groups + [Group(rank, [prefix + tail + "\n"])];
    assert more[..|more|-1] == groups;
  }

  function TextIn(received: map<int, string>, rank: int): string {
    if rank in received then received[rank] else []
  }

  /** Where one rank stands: its lines queued so far are what its text must produce, and its buffer is the tail. */
  ghost predicate RankState(rank: int, prefix: string, groups: seq<Group>, text: string, ended: bool,
                            buffers: map<int, string>)
  {
    && LinesOf(groups, rank) == Output(rank, prefix, text, ended)
    && (if ended then rank !in buffers
        else if rank in buffers then buffers[rank] == Tail(text) != []
        else Tail(text) == [])
  }

  function Buffered(buffers: map<int, string>, rank: int, tail: string): map<int, string> {
    if tail == [] then buffers - {rank} else buffers[rank := tail]
  }

  lemma TakenSelf(rank: int, prefix: string, groups: seq<Group>, before: string, text: string, buffers: map<int, string>)
    requires RankState(rank, prefix, groups, before, false, buffers)
    ensures var lines, tail := Lines(Tail(before) + text), Tail(Tail(before) + text);
            RankState(rank, prefix, groups + Tagged(rank, Chunks(Rendered(rank, prefix, lines), MAX_CHUNK)), before + text,
                      false, Buffered(buffers, rank, tail))
  {
    LinesAndTail(Tail(before) + text);
    QueuedLines(groups, rank, prefix, Lines(Tail(before) + text), rank);
    OutputGrows(rank, prefix, before, text);
    hide Output, Lines, Tail, LinesOf, Tagged, Chunks, Rendered;
  }

  lemma TakenOther(r: int, prefix: string, groups: seq<Group>, text: string, ended: bool, buffers: map<int, string>,
                   rank: int, more: seq<seq<string>>, tail: string)
    requires RankState(r, prefix, groups, text, ended, buffers) && r != rank
    ensures RankState(r, prefix, groups + Tagged(rank, more), text, ended, Buffered(buffers, rank, tail))
  {
    LinesOfAppend(groups, Tagged(rank, more), r);
    LinesOfTagged(rank, more, r);
    hide Output, Tail, LinesOf, Tagged;
  }

  /** What the end of a pipe appends to the queue. */
  function Flushed(rank: int, prefix: string, tail: string): seq<Group> {
    if tail == [] then [] else [Group(rank, [prefix + tail + "\n"])]
  }

  lemma ClosedSelf(rank: int, prefix: string, groups: seq<Group>, text: string, buffers: map<int, string>)
    requires RankState(rank, prefix, groups, text, false, buffers)
    ensures RankState(rank, prefix, groups + Flushed(rank, prefix, Tail(text)), text, true, buffers - {rank})
  {
    FlushedLines(groups, rank, prefix, Tail(text), rank);
    assert groups + [] == groups;
    hide Tail, LinesOf, Lines, Rendered;
  }

  lemma ClosedOther(r: int, prefix: string, groups: seq<Group>, text: string, ended: bool, buffers: map<int, string>,
                    rank: int, rankPrefix: string, tail: string)
    requires RankState(r, prefix, groups, text, ended, buffers) && r != rank
    ensures RankState(r, prefix, groups + Flushed(rank, rankPrefix, tail), text, ended, buffers - {rank})
  {
    FlushedLines(groups, rank, rankPrefix, tail, r);
    assert groups + [] == groups;
    hide Tail, LinesOf, Lines, Rendered, Output;
  }

  /** What a batch of events does to the registered pipes and to what each rank has sent: every pipe is heard up to its
      end, and then forgotten. */
  ghost predicate Processed(fds: map<int, int>, received: map<int, string>, ended: set<int>, events: seq<Event>,
                            fds': map<int, int>, received': map<int, string>, ended': set<int>)
  {
    && (forall f | f in fds ::
          && TextIn(received', fds[f]) == TextIn(received, fds[f]) + Clean(Heard(events, f))
          && (fds[f] in ended' <==> !Live(events, f)))
    && (forall r | r !in fds.Values :: TextIn(received', r) == TextIn(received, r) && (r in ended' <==> r in ended))
    && (forall f :: f in fds' <==> f in fds && Live(events, f))
    && (forall f | f in fds' :: f in fds && fds'[f] == fds[f])
  }

  lemma HeardSnoc(events: seq<Event>, e: Event, f: int)
    ensures Live(events + [e], f) <==> Live(events, f) && e != Hangup(f)
    ensures Heard(events + [e], f) == Heard(events, f) + if e.Read? && e.fd == f && Live(events, f) then e.text else []
  {
    assert (events + [e])[..|events|] == events;
  }

  ghost predicate OwnPipes(fds: map<int, int>) {
    forall f, g | f in fds && g in fds && f != g :: fds[f] != fds[g]
  }

  lemma ProcessedSkip(fds: map<int, int>, received: map<int, string>, ended: set<int>, events: seq<Event>,
                      fds': map<int, int>, received': map<int, string>, ended': set<int>, e: Event)
    requires Processed(fds, received, ended, events, fds', received', ended') && (e.fd !in fds' || e.Skipped?)
    ensures Processed(fds, received, ended, events + [e], fds', received', ended')
  {
    forall f ensures Live(events + [e], f) <==> Live(events, f) && e != Hangup(f) { HeardSnoc(events, e, f); }
    forall f | f in fds ensures Heard(events + [e], f) == Heard(events, f) {
      HeardSnoc(events, e, f);
    }
    hide Live, Heard;
  }

  lemma HeardMore(events: seq<Event>, e: Event, f: int)
    ensures Clean(Heard(events + [e], f))
            == Clean(Heard(events, f)) + if e.Read? && e.fd == f && Live(events, f) then Clean(e.text) else []
  {
    HeardSnoc(events, e, f);
    EmptyClean();
    if e.Read? { CleanAppend(Heard(events, f), e.text); }
    hide Clean, Heard, Live;
  }

  lemma ProcessedRead(fds: map<int, int>, received: map<int, string>, ended: set<int>, events: seq<Event>,
                      fds': map<int, int>, received': map<int, string>, ended': set<int>, e: Event,
                      received'': map<int, string>)
    requires Processed(fds, received, ended, events, fds', received', ended') && OwnPipes(fds)
    requires e.Read? && e.fd in fds'
    requires forall r :: TextIn(received'', r) == TextIn(received', r) + if r == fds'[e.fd] then Clean(e.text) else []
    ensures Processed(fds, received, ended, events + [e], fds', received'', ended')
  {
    hide Live, Heard, Clean, TextIn;
    forall f ensures Live(events + [e], f) <==> Live(events, f) { HeardSnoc(events, e, f); }
    forall f | f in fds
      ensures TextIn(received'', fds[f]) == TextIn(received, fds[f]) + Clean(Heard(events + [e], f))
    {
      HeardMore(events, e, f);
      assert TextIn(received', fds[f]) == TextIn(received, fds[f]) + Clean(Heard(events, f));
    }
    forall r | r !in fds.Values ensures TextIn(received'', r) == TextIn(received, r) {
      assert TextIn(received', r) == TextIn(received, r);
      assert fds[e.fd] in fds.Values;
    }
  }

  lemma EmptyClean()
    ensures Clean([]) == []
  {
  }

  lemma ProcessedHangup(fds: map<int, int>, received: map<int, string>, ended: set<int>, events: seq<Event>,
                        fds': map<int, int>, received': map<int, string>, ended': set<int>, e: Event)
    requires Processed(fds, received, ended, events, fds', received', ended') && OwnPipes(fds)
    requires e.Hangup? && e.fd in fds'
    ensures Processed(fds, received, ended, events + [e], fds' - {e.fd}, received', ended' + {fds'[e.fd]})
  {
    hide Live, Heard, Clean, TextIn;
    forall f ensures (Live(events + [e], f) <==> Live(events, f) && f != e.fd) && Heard(events + [e], f) == Heard(events, f) {
      HeardSnoc(events, e, f);
    }
    assert fds[e.fd] in fds.Values;
    var ended'' := ended' + {fds'[e.fd]};
    forall f | f in fds ensures fds[f] in ended'' <==> !Live(events + [e], f) {
      assert fds[f] in ended' <==> !Live(events, f);
    }
  }

  /** The text read has no line separator other than '\n'. */
  predicate Plain(e: Event) {
    e.Read? ==> OnlyNewlines(e.text)
  }

  /** What one event does. */
  ghost predicate Happens(fds: map<int, int>, received: map<int, string>, ended: set<int>, e: Event,
                          fds': map<int, int>, received': map<int, string>, ended': set<int>)
  {
    if e.fd !in fds || e.Skipped? then fds' == fds && received' == received && ended' == ended
    else if e.Hangup? then fds' == fds - {e.fd} && received' == received && ended' == ended + {fds[e.fd]}
    else
      && fds' == fds && ended' == ended
      && forall r :: TextIn(received', r) == TextIn(received, r) + if r == fds[e.fd] then Clean(e.text) else []
  }

  lemma ProcessedStep(fds: map<int, int>, received: map<int, string>, ended: set<int>, events: seq<Event>,
                      fds': map<int, int>, received': map<int, string>, ended': set<int>, e: Event,
                      fds'': map<int, int>, received'': map<int, string>, ended'': set<int>)
    requires Processed(fds, received, ended, events, fds', received', ended') && OwnPipes(fds)
    requires Happens(fds', received', ended', e, fds'', received'', ended'')
    ensures Processed(fds, received, ended, events + [e], fds'', received'', ended'')
  {
    hide Processed, OwnPipes, TextIn, Clean;
    if e.fd !in fds' || e.Skipped? {
      ProcessedSkip(fds, received, ended, events, fds', received', ended', e);
    } else if e.Hangup? {
      ProcessedHangup(fds, received, ended, events, fds', received', ended', e);
    } else {
      ProcessedRead(fds, received, ended, events, fds', received', ended', e, received'');
    }
  }

  lemma ConcatOne(l: string)
    ensures Concat([l]) == l
  {
    var none: seq<string> := [];
    assert [l][..0] == none && Concat(none) + l == l;
  }

  /** Reading more of an open pipe adds the lines completed by it. */
  lemma OutputGrows(rank: int, prefix: string, before: string, text: string)
    ensures Output(rank, prefix, before + text, false)
            == Output(rank, prefix, before, false) + Rendered(rank, prefix, Lines(Tail(before) + text))
    ensures Tail(before + text) == Tail(Tail(before) + text)
  {
    LinesAcrossCut(before, text);
    RenderedAppend(rank, prefix, Lines(before), Lines(Tail(before) + text));
  }

  // ---------------------------------------------------------------- the reader

  class Reader {
    const workerPath: string
    const launcherPath: string
    const localToGlobal: map<int, int>
    const width: nat

    var fdToRank: map<int, int>
    var lineBuffers: map<int, string>
    var writeQueue: seq<Item>

    // history: what the queue was made of, what each rank has sent, whose pipe has ended
    ghost var groups: seq<Group>
    ghost var received: map<int, string>
    ghost var ended: set<int>

    function Prefix(rank: int): string {
      if rank == LAUNCHER then ""
      else PadLeft(Decimal(if rank in localToGlobal then localToGlobal[rank] else rank), width) + ": "
    }

    function Path(rank: int): string {
      if rank == LAUNCHER then launcherPath else workerPath
    }

    /** All text received from a rank. */
    ghost function Text(rank: int): string
      reads this
    {
      TextIn(received, rank)
    }

    /** Every queued item is made of whole lines of one rank, within the size limit, for that rank's file. */
    ghost predicate QueueOk(queue: seq<Item>, groups: seq<Group>) {
      && |queue| == |groups|
      && forall i | 0 <= i < |groups| ::
           && GroupOk(groups[i]) && queue[i].text == Concat(groups[i].lines)
           && queue[i].path == if groups[i].rank == -1 then launcherPath else workerPath
    }

    ghost predicate GroupOk(g: Group) {
      Fits(g.lines, MAX_CHUNK) && AllStamped(g.lines, Prefix(g.rank))
    }

    ghost predicate PipesOk(fds: map<int, int>, ended: set<int>) {
      OwnPipes(fds) && forall f | f in fds :: fds[f] !in ended
    }

    ghost predicate Valid()
      reads this
    {
      QueueOk(writeQueue, groups) && PipesOk(fdToRank, ended) && RanksOk(groups, received, ended, lineBuffers)
    }

    constructor (fdToRank: map<int, int>, localToGlobal: map<int, int>, worldSize: Option<int>, workerPath: string,
                 launcherPath: string)
      requires OwnPipes(fdToRank)
      ensures Valid() && this.fdToRank == fdToRank && writeQueue == [] && this.localToGlobal == localToGlobal
      ensures this.workerPath == workerPath && this.launcherPath == launcherPath
      ensures forall size | worldSize == Some(size) && size > 1 :: width == |Decimal(size - 1)|
      ensures worldSize.None? || worldSize.value <= 1 ==> width == 0
      ensures forall rank :: Text(rank) == [] && rank !in ended
    {
      this.fdToRank, this.localToGlobal := fdToRank, localToGlobal;
      this.workerPath, this.launcherPath := workerPath, launcherPath;
      width := if worldSize.Some? && worldSize.value > 1 then |Decimal(worldSize.value - 1)| else 0;
      lineBuffers, writeQueue := map[], [];
      groups, received, ended := [], map[], {};
    }

    /** Queue one item. */
    method Put(rank: int, lines: seq<string>)
      requires QueueOk(writeQueue, groups) && GroupOk(Group(rank, lines))
      modifies `writeQueue, `groups
      ensures QueueOk(writeQueue, groups) && groups == old(groups) + [Group(rank, lines)]
      ensures writeQueue == old(writeQueue) + [Item(Path(rank), Concat(lines))]
    {
      writeQueue := writeQueue + [Item(Path(rank), Concat(lines))];
      groups := groups + [Group(rank, lines)];
    }

    /** `_queue_lines_for_write`: exactly the greedy chunks of the kept, prefixed lines are queued. */
    method QueueLines(rank: int, lines: seq<string>)
      requires QueueOk(writeQueue, groups) && forall i | 0 <= i < |lines| :: WholeLine(lines[i])
      modifies `writeQueue, `groups
      ensures QueueOk(writeQueue, groups)
      ensures groups == old(groups) + Tagged(rank, Chunks(Rendered(rank, Prefix(rank), lines), MAX_CHUNK))
    {
      hide Filling, Bytes, LineBytes, QueueOk, GroupOk, Chunks, Tagged, Rendered, AllStamped, NoBlank, WholeLine;
      var prefixed := Rendered(rank, Prefix(rank), lines);
      RenderedStamped(rank, Prefix(rank), lines);
      var current: seq<string>, size := [], 0;
      ghost var done: seq<seq<string>> := [];
      StartFilling(old(groups), rank);
      assert prefixed[..0] == [];
      for i := 0 to |prefixed|
        invariant QueueOk(writeQueue, groups)
        invariant Filling(prefixed[..i], done, current)
        invariant groups == old(groups) + Tagged(rank, done)
        invariant size == Bytes(current)
      {
        var line := prefixed[i];
        var lineSize := LineBytes(line);
        FillStep(prefixed, i, done, current);
        if size > 0 && size + lineSize > MAX_CHUNK {
          FullChunk(rank, prefixed, i, done, current);
          Put(rank, current);
          TaggedSnoc(old(groups), rank, done, current);
          done := done + [current];
          StartFilling(old(groups), rank);
          current, size := [], 0;
          assert current + [line] == [line];
        }
        BytesSnoc(current, line);
        current := current + [line];
        size := size + lineSize;
      }
      assert prefixed[..|prefixed|] == prefixed;
      EndFilling(prefixed, done, current);
      if current != [] {
        FullChunk(rank, prefixed, |prefixed|, done, current);
        Put(rank, current);
        TaggedSnoc(old(groups), rank, done, current);
      }
    }

    lemma FullChunk(rank: int, prefixed: seq<string>, i: nat, done: seq<seq<string>>, current: seq<string>)
      requires i <= |prefixed| && AllStamped(prefixed, Prefix(rank)) && NoBlank(prefixed)
      requires current != [] && Filling(prefixed[..i], done, current)
      ensures GroupOk(Group(rank, current))
    {
      ChunksAreValid(prefixed[..i], MAX_CHUNK);
      FlatSnoc(done, current);
      assert (done + [current])[|done|] == current;
      assert prefixed[..i][|Flat(done)|..] == current;
    }

    /** `_flush_incomplete_line` */
    method FlushIncompleteLine(rank: int, data: string)
      requires QueueOk(writeQueue, groups) && '\n' !in data
      modifies `writeQueue, `groups
      ensures QueueOk(writeQueue, groups)
      ensures groups == old(groups) + if data == [] then [] else [Group(rank, [Prefix(rank) + data + "\n"])]
    {
      if data == [] {
        return;
      }
      var l := Prefix(rank) + data + "\n";
      assert l[..|Prefix(rank)|] == Prefix(rank) && l[|Prefix(rank)|..] == data + "\n";
      ConcatOne(l);
      Put(rank, [l]);
    }

    /** The buffered tail and the new text are cut into complete lines and a new tail. */
    method CutLines(rank: int, text: string, ghost buffer: string) returns (lines: seq<string>)
      requires if rank in lineBuffers then lineBuffers[rank] == buffer != [] else buffer == []
      requires '\n' !in buffer && text != []
      modifies `lineBuffers
      ensures lines == Lines(buffer + text)
      ensures lineBuffers == Buffered(old(lineBuffers), rank, Tail(buffer + text))
    {
      lines := SplitLines(text);
      SplitParts(text);
      SplitParts(buffer + text);
      PrependBuffer(buffer, text);
      assert buffer == [] ==> buffer + text == text;
      hide SplitLines, Lines, Tail;
      if rank in lineBuffers {
        lines := lines[0 := lineBuffers[rank] + lines[0]];
        lineBuffers := lineBuffers - {rank};
      }
      assert lines == SplitLines(buffer + text);
      if lines[|lines|-1][|lines[|lines|-1]|-1] != '\n' {
        lineBuffers := lineBuffers[rank := lines[|lines|-1]];
        lines := lines[..|lines|-1];
      }
    }

    /** Every rank's lines and buffer are what its text calls for. */
    ghost predicate RanksOk(groups: seq<Group>, received: map<int, string>, ended: set<int>, buffers: map<int, string>) {
      forall r :: RankState(r, Prefix(r), groups, TextIn(received, r), r in ended, buffers)
    }

    lemma TakenAll(groups: seq<Group>, received: map<int, string>, ended: set<int>, buffers: map<int, string>,
                   rank: int, text: string)
      requires RanksOk(groups, received, ended, buffers) && rank !in ended
      ensures var before := TextIn(received, rank);
              RanksOk(groups + Tagged(rank, Chunks(Rendered(rank, Prefix(rank), Lines(Tail(before) + text)), MAX_CHUNK)),
                      received[rank := before + text], ended, Buffered(buffers, rank, Tail(Tail(before) + text)))
    {
      hide RankState, Tagged, Chunks, Rendered, Lines, Tail, Buffered, Prefix;
      var before := TextIn(received, rank);
      var lines := Lines(Tail(before) + text);
      forall r ensures RankState(r, Prefix(r), groups + Tagged(rank, Chunks(Rendered(rank, Prefix(rank), lines), MAX_CHUNK)),
                                 TextIn(received[rank := before + text], r), r in ended,
                                 Buffered(buffers, rank, Tail(Tail(before) + text)))
      {
        assert RankState(r, Prefix(r), groups, TextIn(received, r), r in ended, buffers);
        if r == rank {
          TakenSelf(rank, Prefix(rank), groups, before, text, buffers);
        } else {
          TakenOther(r, Prefix(r), groups, TextIn(received, r), r in ended, buffers, rank,
                     Chunks(Rendered(rank, Prefix(rank), lines), MAX_CHUNK), Tail(Tail(before) + text));
        }
      }
    }

    lemma ClosedAll(groups: seq<Group>, received: map<int, string>, ended: set<int>, buffers: map<int, string>, rank: int)
      requires RanksOk(groups, received, ended, buffers) && rank !in ended
      ensures RanksOk(groups + Flushed(rank, Prefix(rank), Tail(TextIn(received, rank))), received, ended + {rank},
                      buffers - {rank})
    {
      hide RankState, Tail, Flushed, TextIn, Prefix;
      var tail := Tail(TextIn(received, rank));
      forall r ensures RankState(r, Prefix(r), groups + Flushed(rank, Prefix(rank), tail), TextIn(received, r),
                                 r in ended + {rank}, buffers - {rank})
      {
        assert RankState(r, Prefix(r), groups, TextIn(received, r), r in ended, buffers);
        if r == rank {
          ClosedSelf(rank, Prefix(rank), groups, TextIn(received, rank), buffers);
        } else {
          ClosedOther(r, Prefix(r), groups, TextIn(received, r), r in ended, buffers, rank, Prefix(rank), tail);
        }
      }
    }

    /** What an open rank's buffer holds, and what its next lines look like. */
    lemma BufferFacts(groups: seq<Group>, received: map<int, string>, ended: set<int>, buffers: map<int, string>,
                      rank: int, text: string)
      requires RanksOk(groups, received, ended, buffers) && rank !in ended
      ensures var tail := Tail(TextIn(received, rank));
              && (if rank in buffers then buffers[rank] == tail != [] else tail == [])
              && '\n' !in tail
              && forall i | 0 <= i < |Lines(tail + text)| :: WholeLine(Lines(tail + text)[i])
    {
      assert RankState(rank, Prefix(rank), groups, TextIn(received, rank), rank in ended, buffers);
      LinesAndTail(TextIn(received, rank));
      LinesAndTail(Tail(TextIn(received, rank)) + text);
      hide Lines, Tail, Output, LinesOf, WholeLine;
    }

    /** What one read does to the queue and the buffers. */
    method TakeText(rank: int, raw: string)
      requires Valid() && rank !in ended && OnlyNewlines(raw)
      modifies `lineBuffers, `writeQueue, `groups, `received
      ensures Valid()
      ensures forall r :: TextIn(received, r) == TextIn(old(received), r) + if r == rank then Clean(raw) else []
    {
      hide Lines, Tail, RanksOk, Chunks, QueueOk, GroupOk, PipesOk, Clean, Buffered, Tagged, Rendered, WholeLine;
      var text := Clean(raw);
      ghost var before := TextIn(received, rank);
      if text == [] {
        return;
      }
      BufferFacts(groups, received, ended, lineBuffers, rank, text);
      TakenAll(groups, received, ended, lineBuffers, rank, text);
      var lines := CutLines(rank, text, Tail(before));
      if lines != [] {
        QueueLines(rank, lines);
      } else {
        NothingTagged(groups, rank, Prefix(rank));
      }
      received := received[rank := before + text];
    }

    /** The end of a pipe: its tail is flushed and the pipe is forgotten. */
    method ClosePipe(fd: int)
      requires Valid() && fd in fdToRank
      modifies this
      ensures Valid() && fdToRank == old(fdToRank) - {fd} && ended == old(ended) + {old(fdToRank[fd])}
      ensures received == old(received)
    {
      hide RanksOk, QueueOk, Tail, GroupOk, Lines, WholeLine;
      var rank := fdToRank[fd];
      ghost var text := TextIn(received, rank);
      BufferFacts(groups, received, ended, lineBuffers, rank, []);
      ClosedAll(groups, received, ended, lineBuffers, rank);
      if rank in lineBuffers {
        FlushIncompleteLine(rank, lineBuffers[rank]);
        lineBuffers := lineBuffers - {rank};
      }
      assert groups == old(groups) + Flushed(rank, Prefix(rank), Tail(text)) && lineBuffers == old(lineBuffers) - {rank};
      fdToRank := fdToRank - {fd};
      ended := ended + {rank};
    }

    /** One turn of the event loop. */
    method HandleEvent(e: Event)
      requires Valid() && Plain(e)
      modifies this
      ensures Valid() && Happens(old(fdToRank), old(received), old(ended), e, fdToRank, received, ended)
    {
      hide RanksOk, QueueOk, Clean, TextIn;
      if e.fd !in fdToRank {
        return;
      }
      match e
      case Read(fd, text) => TakeText(fdToRank[fd], text);
      case Hangup(fd) => ClosePipe(fd);
      case Skipped(_) =>
    }

    lemma StartProcessing()
      requires Valid()
      ensures OwnPipes(fdToRank) && Processed(fdToRank, received, ended, [], fdToRank, received, ended)
    {
      hide RanksOk, QueueOk;
      NothingProcessed(fdToRank, received, ended);
    }

    /** `_process_pipe_events`: however each rank's stream is cut into reads and interleaved with the others, Valid()
        says that the queue holds exactly the lines of the text heard from each pipe. */
    method ProcessPipeEvents(events: seq<Event>)
      requires Valid() && forall i | 0 <= i < |events| :: Plain(events[i])
      modifies this
      ensures Valid()
      ensures Processed(old(fdToRank), old(received), old(ended), events, fdToRank, received, ended)
    {
      hide Valid, Happens, Processed, OwnPipes, Plain;
      StartProcessing();
      assert events[..0] == [];
      for i := 0 to |events|
        invariant Valid()
        invariant Processed(old(fdToRank), old(received), old(ended), events[..i], fdToRank, received, ended)
      {
        ghost var fds, texts, closed := fdToRank, received, ended;
        HandleEvent(events[i]);
        ProcessedStep(old(fdToRank), old(received), old(ended), events[..i], fds, texts, closed, events[i],
                      fdToRank, received, ended);
        assert events[..i + 1] == events[..i] + [events[i]];
      }
      assert events[..|events|] == events;
    }
  }

  lemma NothingTagged(groups: seq<Group>, rank: int, prefix: string)
    ensures groups == groups + Tagged(rank, Chunks(Rendered(rank, prefix, []), MAX_CHUNK))
  {
  }

  lemma NothingProcessed(fds: map<int, int>, received: map<int, string>, ended: set<int>)
    requires forall f | f in fds :: fds[f] !in ended
    ensures Processed(fds, received, ended, [], fds, received, ended)
  {
    EmptyClean();
  }

  /** A worker's global rank. */
  function GlobalRank(localToGlobal: map<int, int>, rank: int): int {
    if rank in localToGlobal then localToGlobal[rank] else rank
  }

  /** A worker's prefix is its global rank, right-aligned, and ": "; the launcher has none. */
  lemma PrefixMeans(a: Reader, rank: int) returns (pad: string)
    ensures rank == -1 ==> a.Prefix(rank) == ""
    ensures rank != -1 ==>
              && a.Prefix(rank) == pad + Decimal(GlobalRank(a.localToGlobal, rank)) + ": "
              && (forall c | c in pad :: c == ' ')
              && |a.Prefix(rank)| == 2 + var n := |Decimal(GlobalRank(a.localToGlobal, rank))|; if n < a.width then a.width else n
  {
    pad := "";
    if rank != -1 {
      var s := Decimal(GlobalRank(a.localToGlobal, rank));
      hide Decimal;
      PadLeftMeans(s, a.width);
      var padded := PadLeft(s, a.width);
      hide PadLeft;
      pad := padded[..|padded| - |s|];
      assert padded == pad + s;
    }
  }

  /** The prefixes tell workers apart by global rank, and line up for all ranks of the world. */
  lemma PrefixesTellRanks(a: Reader, r: int, q: int)
    requires r != -1 && q != -1 && a.Prefix(r) == a.Prefix(q)
    ensures GlobalRank(a.localToGlobal, r) == GlobalRank(a.localToGlobal, q)
  {
    var pad := PrefixMeans(a, r);
    var pad' := PrefixMeans(a, q);
    var m, n := GlobalRank(a.localToGlobal, r), GlobalRank(a.localToGlobal, q);
    DecimalPlain(m);
    DecimalPlain(n);
    hide Decimal, Reader.Prefix;
    SameNumeral(pad, Decimal(m), pad', Decimal(n));
    DecimalTells(m, n);
  }

  lemma SameNumeral(pad: string, s: string, pad': string, t: string)
    requires pad + s + ": " == pad' + t + ": " && s != [] && t != [] && ' ' !in s && ' ' !in t
    requires (forall c | c in pad :: c == ' ') && (forall c | c in pad' :: c == ' ')
    ensures s == t
  {
    var whole := pad + s + ": ";
    assert whole[|pad|] == s[0] && whole[|pad'|] == t[0];
    assert s[0] in s && t[0] in t;
    assert forall k | 0 <= k < |pad| :: whole[k] == pad[k] && pad[k] in pad;
    assert forall k | 0 <= k < |pad'| :: whole[k] == pad'[k] && pad'[k] in pad';
    assert |pad| == |pad'|;
    assert s == whole[|pad|..|whole| - 2] && t == whole[|pad'|..|whole| - 2];
  }

  lemma PrefixesLineUp(a: Reader, worldSize: nat, r: int)
    requires worldSize > 1 && a.width == |Decimal(worldSize - 1)| && r != -1
    requires 0 <= GlobalRank(a.localToGlobal, r) < worldSize
    ensures |a.Prefix(r)| == a.width + 2
  {
    var pad := PrefixMeans(a, r);
    DigitsMonotone(GlobalRank(a.localToGlobal, r), worldSize - 1);
    hide Reader.Prefix;
  }

  /** What a reader has queued for a worker, whatever the reads: its complete lines in order, each once with the prefix,
      except the lines of device listings; and once its pipe has ended the unfinished tail as one more line. */
  lemma WorkerQueue(a: Reader, rank: int) returns (out: seq<string>, kept: seq<nat>)
    requires a.Valid() && rank != -1
    ensures Keeps(out, a.Prefix(rank), Lines(a.Text(rank)), kept)
    ensures LinesOf(a.groups, rank)
            == out + if rank in a.ended && Tail(a.Text(rank)) != [] then [a.Prefix(rank) + Tail(a.Text(rank)) + "\n"] else []
  {
    assert RankState(rank, a.Prefix(rank), a.groups, TextIn(a.received, rank), rank in a.ended, a.lineBuffers);
    hide Keeps, Rendered, Lines, Tail, LinesOf, Reader.Prefix;
    out := Rendered(rank, a.Prefix(rank), Lines(a.Text(rank)));
    kept := WorkerLinesKept(rank, a.Prefix(rank), Lines(a.Text(rank)));
  }

  /** Two readers that heard the same text from a rank, in whatever pieces and whatever company, queued the same lines
      for it: the ones Output names. */
  lemma SameStreamSameLines(a: Reader, b: Reader, rank: int)
    requires a.Valid() && b.Valid() && a.Prefix(rank) == b.Prefix(rank)
    requires a.Text(rank) == b.Text(rank) && (rank in a.ended <==> rank in b.ended)
    ensures LinesOf(a.groups, rank) == LinesOf(b.groups, rank)
            == Output(rank, a.Prefix(rank), a.Text(rank), rank in a.ended)
  {
    assert RankState(rank, a.Prefix(rank), a.groups, TextIn(a.received, rank), rank in a.ended, a.lineBuffers);
    assert RankState(rank, b.Prefix(rank), b.groups, TextIn(b.received, rank), rank in b.ended, b.lineBuffers);
  }
}
