/** Line assembly and line-aligned chunking of the log reader, as functions of the text. */
module LogLines {
  import opened Prelude
  import opened Text

  // ---------------------------------------------------------------- text

  /** The separators of str.splitlines other than '\n'. */
  predicate OtherSeparator(c: char) {
    c in {'\r', '\U{0B}', '\U{0C}', '\U{1C}', '\U{1D}', '\U{1E}', '\U{85}', '\U{2028}', '\U{2029}'}
  }

  predicate OnlyNewlines(s: string) {
    forall c | c in s :: !OtherSeparator(c)
  }

  /** text.replace('\x00', '<NUL>') */
  function Clean(s: string): string {
    if s == [] then []
    else Clean(s[..|s|-1]) + if s[|s|-1] == '\0' then "<NUL>" else [s[|s|-1]]
  }

  /** The complete lines of a text, each with its newline. */
  function Lines(s: string): seq<string> {
    if s == [] then []
    else if s[|s|-1] == '\n' then Lines(s[..|s|-1]) + [Tail(s[..|s|-1]) + "\n"]
    else Lines(s[..|s|-1])
  }

  /** What follows the last newline. */
  function Tail(s: string): string {
    if s == [] || s[|s|-1] == '\n' then [] else Tail(s[..|s|-1]) + [s[|s|-1]]
  }

  /** text.splitlines(keepends=True) for a text whose only separator is '\n'. */
  function SplitLines(s: string): seq<string> {
    Lines(s) + if Tail(s) == [] then [] else [Tail(s)]
  }

  function Concat(parts: seq<string>): string {
    if parts == [] then [] else Concat(parts[..|parts|-1]) + parts[|parts|-1]
  }

  lemma {:induction false} ConcatAppend(a: seq<string>, b: seq<string>)
    ensures Concat(a + b) == Concat(a) + Concat(b)
  {
    if b == [] {
      assert a + b == a;
    } else {
      assert (a + b)[..|a + b|-1] == a + b[..|b|-1];
      ConcatAppend(a, b[..|b|-1]);
    }
  }

  lemma {:induction false} CleanAppend(a: string, b: string)
    ensures Clean(a + b) == Clean(a) + Clean(b)
  {
    if b == [] {
      assert a + b == a;
    } else {
      assert (a + b)[..|a + b|-1] == a + b[..|b|-1];
      CleanAppend(a, b[..|b|-1]);
    }
  }

  /** A text without NUL bytes is left alone; each NUL comes out as the mark, and none stays. */
  lemma {:induction false} CleanMeans(s: string)
    ensures '\0' !in Clean(s)
    ensures '\0' !in s ==> Clean(s) == s
  {
    if s != [] {
      CleanMeans(s[..|s|-1]);
      assert s == s[..|s|-1] + [s[|s|-1]];
    }
  }

  /** One NUL between two texts. */
  lemma CleanNul(a: string, b: string)
    ensures Clean(a + "\0" + b) == Clean(a) + "<NUL>" + Clean(b)
  {
    CleanAppend(a + "\0", b);
    CleanAppend(a, "\0");
    assert Clean("\0") == "<NUL>" by { assert "\0"[..0] == ""; }
  }

  predicate WholeLine(l: string) {
    l != [] && l[|l|-1] == '\n' && '\n' !in l[..|l|-1]
  }

  lemma {:induction false} TailHasNoNewline(s: string)
    ensures '\n' !in Tail(s)
  {
    if s != [] { TailHasNoNewline(s[..|s|-1]); }
  }

  lemma {:induction false} LinesAreWhole(s: string)
    ensures forall i | 0 <= i < |Lines(s)| :: WholeLine(Lines(s)[i])
  {
    if s != [] {
      var front := s[..|s|-1];
      LinesAreWhole(front);
      TailHasNoNewline(front);
      hide Tail;
    }
  }

  lemma LineEnds(lines: seq<string>, tail: string)
    ensures Concat(lines + [tail + "\n"]) == Concat(lines) + tail + "\n"
  {
    assert (lines + [tail + "\n"])[..|lines|] == lines;
    assert Concat(lines) + (tail + "\n") == Concat(lines) + tail + "\n";
  }

  lemma PartsSnoc(front: string, last: char)
    ensures Lines(front + [last]) == if last == '\n' then Lines(front) + [Tail(front) + "\n"] else Lines(front)
    ensures Tail(front + [last]) == if last == '\n' then [] else Tail(front) + [last]
  {
    assert (front + [last])[..|front|] == front;
  }

  lemma {:induction false} LinesThenTail(s: string)
    ensures s == Concat(Lines(s)) + Tail(s)
  {
    if s != [] {
      hide Concat, Lines, Tail;
      var front, last := s[..|s|-1], s[|s|-1];
      assert s == front + [last];
      LinesThenTail(front);
      PartsSnoc(front, last);
      if last == '\n' {
        LineEnds(Lines(front), Tail(front));
      } else {
        assert Concat(Lines(front)) + (Tail(front) + [last]) == Concat(Lines(front)) + Tail(front) + [last];
      }
    }
  }

  /** A text is its lines and its tail; lines end in their only newline, the tail has none. */
  lemma LinesAndTail(s: string)
    ensures s == Concat(Lines(s)) + Tail(s)
    ensures forall i | 0 <= i < |Lines(s)| :: WholeLine(Lines(s)[i])
    ensures '\n' !in Tail(s)
  {
    hide Concat, Lines, Tail, WholeLine;
    LinesThenTail(s);
    LinesAreWhole(s);
    TailHasNoNewline(s);
  }

  /** Reading on after a cut: the buffered tail is prepended to what comes next. */
  lemma {:induction false} LinesAcrossCut(a: string, b: string)
    ensures Lines(a + b) == Lines(a) + Lines(Tail(a) + b)
    ensures Tail(a + b) == Tail(Tail(a) + b)
  {
    if b == [] {
      assert a + b == a && Tail(a) + b == Tail(a);
      TailHasNoLine(a);
    } else {
      var front, last := b[..|b|-1], b[|b|-1];
      assert (a + b)[..|a + b|-1] == a + front && (Tail(a) + b)[..|Tail(a) + b|-1] == Tail(a) + front;
      assert (a + b)[|a + b|-1] == last && (Tail(a) + b)[|Tail(a) + b|-1] == last;
      LinesAcrossCut(a, front);
    }
  }

  lemma {:induction false} TailHasNoLine(a: string)
    ensures Lines(Tail(a)) == [] && Tail(Tail(a)) == Tail(a)
  {
    if a != [] && a[|a|-1] != '\n' {
      TailHasNoLine(a[..|a|-1]);
      assert Tail(a)[..|Tail(a)|-1] == Tail(a[..|a|-1]);
    }
  }

  lemma {:induction false} PrependParts(buffer: string, text: string)
    requires '\n' !in buffer
    ensures Lines(text) == [] ==> Lines(buffer + text) == [] && Tail(buffer + text) == buffer + Tail(text)
    ensures Lines(text) != [] ==>
              Lines(buffer + text) == Lines(text)[0 := buffer + Lines(text)[0]] && Tail(buffer + text) == Tail(text)
  {
    if text == [] {
      assert buffer + text == buffer;
      NoLines(buffer);
    } else {
      var front, last, whole := text[..|text|-1], text[|text|-1], buffer + text;
      assert whole[..|whole|-1] == buffer + front && whole[|whole|-1] == last;
      PrependParts(buffer, front);
      if last == '\n' {
        assert buffer + (Tail(front) + "\n") == buffer + Tail(front) + "\n";
      } else {
        assert buffer + (Tail(front) + [last]) == buffer + Tail(front) + [last];
      }
    }
  }

  /** Prepending a buffered tail to the first line of a split is splitting the whole. */
  lemma PrependBuffer(buffer: string, text: string)
    requires '\n' !in buffer && text != []
    ensures SplitLines(text) != []
    ensures SplitLines(buffer + text) == SplitLines(text)[0 := buffer + SplitLines(text)[0]]
  {
    SplitParts(text);
    PrependParts(buffer, text);
    hide Lines, Tail;
  }

  lemma {:induction false} NoLines(s: string)
    requires '\n' !in s
    ensures Lines(s) == [] && Tail(s) == s
  {
    if s != [] {
      NoLines(s[..|s|-1]);
      assert s == s[..|s|-1] + [s[|s|-1]];
    }
  }

  /** The last piece of a split ends in a newline exactly when there is no tail. */
  lemma SplitParts(s: string)
    requires s != []
    ensures var parts := SplitLines(s);
            && parts != [] && parts[|parts|-1] != []
            && (parts[|parts|-1][|parts[|parts|-1]|-1] == '\n' <==> Tail(s) == [])
            && (Tail(s) == [] ==> parts == Lines(s))
            && (Tail(s) != [] ==> parts[..|parts|-1] == Lines(s) && parts[|parts|-1] == Tail(s))
  {
    LinesAndTail(s);
  }

  // ---------------------------------------------------------------- filtering

  function SkipDigits(s: string): string {
    if s != [] && IsDigit(s[0]) then SkipDigits(s[1..]) else s
  }

  predicate IsNameChar(c: char) {
    'a' <= c <= 'z' || 'A' <= c <= 'Z' || IsDigit(c) || c in {'_', '-', '/'}
  }

  /** One to three digits, white space, and a device name to the end. */
  predicate IsDeviceEntry(s: string) {
    var rest := SkipDigits(s);
    var name := StripLeft(rest);
    1 <= |s| - |rest| <= 3 && |name| < |rest| && name != [] && forall c | c in name :: IsNameChar(c)
  }

  /** Driver device listings, and nothing longer than 65 characters, are dropped. */
  predicate ShouldFilter(line: string) {
    && 0 < |line| <= 65
    && var stripped := Strip(line);
       stripped in {"Character devices:", "Block devices:"} || IsDeviceEntry(stripped)
  }

  // ---------------------------------------------------------------- what is filtered

  /** Letters a-z and A-Z, digits, '_', '-' and '/', by their codes. */
  predicate InName(c: char) {
    var n := c as int;
    97 <= n <= 122 || 65 <= n <= 90 || 48 <= n <= 57 || n == 95 || n == 45 || n == 47
  }

  lemma NameChars(c: char)
    ensures IsNameChar(c) <==> InName(c)
  {
  }

  /** core is a number of one to three digits, white space, and a device name. */
  ghost predicate Entry(core: string, digits: string, gap: string, name: string) {
    && core == digits + gap + name
    && 1 <= |digits| <= 3 && AllDigits(digits)
    && gap != [] && AllSpace(gap)
    && name != [] && forall c | c in name :: InName(c)
  }

  ghost predicate DeviceEntry(core: string) {
    exists digits, gap, name :: Entry(core, digits, gap, name)
  }

  /** A line of a driver's device listing: short, and with white space taken off both ends a section header or a device
      entry. */
  ghost predicate Noise(line: string) {
    && |line| <= 65
    && exists pre, core, post ::
         Around(line, pre, core, post) && (core == "Character devices:" || core == "Block devices:" || DeviceEntry(core))
  }

  lemma {:induction false} SkipDigitsMeans(s: string)
    ensures |SkipDigits(s)| <= |s| && s[|s| - |SkipDigits(s)|..] == SkipDigits(s)
    ensures AllDigits(s[..|s| - |SkipDigits(s)|])
    ensures SkipDigits(s) != [] ==> !IsDigit(SkipDigits(s)[0])
  {
    if s != [] && IsDigit(s[0]) {
      SkipDigitsMeans(s[1..]);
      var n := |s| - |SkipDigits(s)|;
      assert s[..n] == [s[0]] + s[1..][..n - 1];
    }
  }

  lemma {:induction false} SkipDigitsOf(digits: string, rest: string)
    requires AllDigits(digits) && rest != [] && !IsDigit(rest[0])
    ensures SkipDigits(digits + rest) == rest
  {
    if digits == [] {
      assert digits + rest == rest;
    } else {
      assert (digits + rest)[1..] == digits[1..] + rest;
      SkipDigitsOf(digits[1..], rest);
    }
  }

  lemma {:induction false} StripLeftOf(gap: string, name: string)
    requires AllSpace(gap) && name != [] && !IsSpace(name[0])
    ensures StripLeft(gap + name) == name
  {
    if gap == [] {
      assert gap + name == name;
    } else {
      assert (gap + name)[1..] == gap[1..] + name;
      StripLeftOf(gap[1..], name);
    }
  }

  lemma DeviceEntryMeans(core: string)
    ensures IsDeviceEntry(core) <==> DeviceEntry(core)
  {
    forall c ensures IsNameChar(c) <==> InName(c) { NameChars(c); }
    if IsDeviceEntry(core) { ReadEntry(core); }
    if digits, gap, name :| Entry(core, digits, gap, name) { EntryRead(core, digits, gap, name); }
  }

  lemma GapIs(rest: string, name: string)
    requires name == StripLeft(rest)
    ensures |name| <= |rest| && rest == rest[..|rest| - |name|] + name && AllSpace(rest[..|rest| - |name|])
  {
    hide StripLeft, IsSpace;
    StripLeftMeans(rest);
    assert rest == rest[..|rest| - |name|] + rest[|rest| - |name|..];
  }

  lemma NumberIs(core: string, rest: string)
    requires rest == SkipDigits(core)
    ensures |rest| <= |core| && core == core[..|core| - |rest|] + rest && AllDigits(core[..|core| - |rest|])
  {
    hide SkipDigits, IsDigit;
    SkipDigitsMeans(core);
    assert core == core[..|core| - |rest|] + core[|core| - |rest|..];
  }

  lemma ReadEntry(core: string)
    requires IsDeviceEntry(core) && forall c :: IsNameChar(c) <==> InName(c)
    ensures DeviceEntry(core)
  {
    hide SkipDigits, StripLeft, IsNameChar, InName, AllSpace, AllDigits;
    var rest := SkipDigits(core);
    NumberIs(core, rest);
    var name := StripLeft(rest);
    GapIs(rest, name);
    var digits, gap := core[..|core| - |rest|], rest[..|rest| - |name|];
    assert core == digits + gap + name;
    assert Entry(core, digits, gap, name);
  }

  lemma EntryRead(core: string, digits: string, gap: string, name: string)
    requires Entry(core, digits, gap, name) && forall c :: IsNameChar(c) <==> InName(c)
    ensures IsDeviceEntry(core)
  {
    assert core == digits + (gap + name) && (gap + name)[0] == gap[0];
    assert IsNameChar(name[0]) by { assert name[0] in name; }
    SpaceApart(gap[0]);
    SpaceApart(name[0]);
    SkipDigitsOf(digits, gap + name);
    StripLeftOf(gap, name);
  }

  lemma SpaceApart(c: char)
    ensures IsSpace(c) ==> !IsDigit(c) && !IsNameChar(c)
  {
  }

  /** Exactly the lines of a device listing are filtered. */
  lemma FilterMeans(line: string)
    ensures ShouldFilter(line) <==> Noise(line)
  {
    var pre, post := StripMeans(line);
    DeviceEntryMeans(Strip(line));
    hide IsDeviceEntry, DeviceEntry, Strip;
    if Noise(line) {
      var pre', core, post' :| Around(line, pre', core, post')
                               && (core == "Character devices:" || core == "Block devices:" || DeviceEntry(core));
      SameCore(line, pre, Strip(line), post, pre', core, post');
      assert line != [] by { EntryNotEmpty(core); }
    }
  }

  lemma EntryNotEmpty(core: string)
    ensures DeviceEntry(core) ==> core != []
  {
  }

  /** The lines of a rank that are written (the launcher, rank -1, is not filtered), with the rank's prefix. */
  function Rendered(rank: int, prefix: string, lines: seq<string>): seq<string> {
    if lines == [] then []
    else
      var front, last := Rendered(rank, prefix, lines[..|lines|-1]), lines[|lines|-1];
      if rank != -1 && ShouldFilter(last) then front else front + [prefix + last]
  }

  /** out is the lines at the places `kept`, in order, each with the prefix; the places left out are those of noise. */
  ghost predicate Keeps(out: seq<string>, prefix: string, lines: seq<string>, kept: seq<nat>) {
    && |out| == |kept|
    && (forall i, j | 0 <= i < j < |kept| :: kept[i] < kept[j])
    && (forall i | 0 <= i < |kept| :: kept[i] < |lines| && out[i] == prefix + lines[kept[i]])
    && (forall k: nat | k < |lines| :: k in kept <==> !Noise(lines[k]))
  }

  lemma KeepsSnoc(out: seq<string>, prefix: string, lines: seq<string>, kept: seq<nat>, line: string)
    requires Keeps(out, prefix, lines, kept)
    ensures Noise(line) ==> Keeps(out, prefix, lines + [line], kept)
    ensures !Noise(line) ==> Keeps(out + [prefix + line], prefix, lines + [line], kept + [|lines|])
  {
    hide Noise;
    var more := lines + [line];
    assert forall k: nat | k < |lines| :: more[k] == lines[k];
    if !Noise(line) {
      var kept', out' := kept + [|lines|], out + [prefix + line];
      forall k: nat | k < |more| ensures k in kept' <==> !Noise(more[k]) {
        if k < |lines| { assert k in kept' <==> k in kept; } else { assert kept'[|kept|] == k; }
      }
      forall i, j | 0 <= i < j < |kept'| ensures kept'[i] < kept'[j] {
        assert kept'[i] == kept[i];
      }
    }
  }

  /** A worker's lines are written in order, each exactly once with its prefix, except the lines of device listings. */
  lemma {:induction false} WorkerLinesKept(rank: int, prefix: string, lines: seq<string>) returns (kept: seq<nat>)
    requires rank != -1
    ensures Keeps(Rendered(rank, prefix, lines), prefix, lines, kept)
  {
    if lines == [] {
      kept := [];
    } else {
      var front, last := lines[..|lines|-1], lines[|lines|-1];
      kept := WorkerLinesKept(rank, prefix, front);
      assert lines == front + [last];
      FilterMeans(last);
      hide ShouldFilter, Noise, Keeps;
      KeepsSnoc(Rendered(rank, prefix, front), prefix, front, kept, last);
      if !Noise(last) { kept := kept + [|front|]; }
    }
  }

  /** Text without such lines comes out whole. */
  lemma {:induction false} QuietTextIsWhole(rank: int, prefix: string, lines: seq<string>)
    requires forall i | 0 <= i < |lines| :: !Noise(lines[i])
    ensures |Rendered(rank, prefix, lines)| == |lines|
    ensures forall i | 0 <= i < |lines| :: Rendered(rank, prefix, lines)[i] == prefix + lines[i]
  {
    hide Noise, ShouldFilter;
    if lines != [] {
      QuietTextIsWhole(rank, prefix, lines[..|lines|-1]);
      FilterMeans(lines[|lines|-1]);
    }
  }

  lemma {:induction false} RenderedAppend(rank: int, prefix: string, a: seq<string>, b: seq<string>)
    ensures Rendered(rank, prefix, a + b) == Rendered(rank, prefix, a) + Rendered(rank, prefix, b)
  {
    if b == [] {
      assert a + b == a;
    } else {
      assert (a + b)[..|a + b|-1] == a + b[..|b|-1];
      RenderedAppend(rank, prefix, a, b[..|b|-1]);
    }
  }

  // ---------------------------------------------------------------- chunking

  /** Bytes of a character in UTF-8 (section 3 of RFC 3629). */
  function CharBytes(c: char): nat {
    if c as int < 0x80 then 1 else if c as int < 0x800 then 2 else if c as int < 0x10000 then 3 else 4
  }

  /** The payload bits of a sequence of n bytes: 7 for one byte; else 6 in each byte after the first, and 7 - n in the
      first (the bit distribution of section 3 of RFC 3629). */
  function PayloadBits(n: nat): nat
    requires 1 <= n <= 4
  {
    if n == 1 then 7 else 6 * (n - 1) + 7 - n
  }

  function Power(n: nat): nat {
    if n == 0 then 1 else 2 * Power(n - 1)
  }

  /** A character takes the fewest bytes whose payload holds its code. */
  lemma CharBytesFewest(c: char)
    ensures 1 <= CharBytes(c) <= 4 && (c as int) < Power(PayloadBits(CharBytes(c)))
    ensures CharBytes(c) > 1 ==> c as int >= Power(PayloadBits(CharBytes(c) - 1))
  {
    assert Power(7) == 128;
    assert Power(11) == 16 * Power(7);
    assert Power(16) == 32 * Power(11);
    assert Power(21) == 32 * Power(16);
  }

  function LineBytes(s: string): nat {
    if s == [] then 0 else LineBytes(s[..|s|-1]) + CharBytes(s[|s|-1])
  }

  function Bytes(lines: seq<string>): nat {
    if lines == [] then 0 else Bytes(lines[..|lines|-1]) + LineBytes(lines[|lines|-1])
  }

  lemma {:induction false} BytesAppend(a: seq<string>, b: seq<string>)
    ensures Bytes(a + b) == Bytes(a) + Bytes(b)
  {
    if b == [] {
      assert a + b == a;
    } else {
      assert (a + b)[..|a + b|-1] == a + b[..|b|-1];
      BytesAppend(a, b[..|b|-1]);
    }
  }

  /** The byte size of a chunk is the size of the text written. */
  lemma {:induction false} BytesOfText(lines: seq<string>)
    ensures LineBytes(Concat(lines)) == Bytes(lines)
  {
    if lines != [] {
      BytesOfText(lines[..|lines|-1]);
      LineBytesAppend(Concat(lines[..|lines|-1]), lines[|lines|-1]);
    }
  }

  lemma {:induction false} LineBytesAppend(a: string, b: string)
    ensures LineBytes(a + b) == LineBytes(a) + LineBytes(b)
  {
    if b == [] {
      assert a + b == a;
    } else {
      assert (a + b)[..|a + b|-1] == a + b[..|b|-1];
      LineBytesAppend(a, b[..|b|-1]);
    }
  }

  /** The chunks made of lines, in order, the last one still growing. */
  function Chunks(lines: seq<string>, max: nat): (chunks: seq<seq<string>>)
    ensures chunks == [] <==> lines == []
  {
    if lines == [] then []
    else
      var before, line := Chunks(lines[..|lines|-1], max), lines[|lines|-1];
      if before == [] then [[line]]
      else
        var open := before[|before|-1];
        if Bytes(open) > 0 && Bytes(open) + LineBytes(line) > max then before + [[line]]
        else before[..|before|-1] + [open + [line]]
  }

  function Flat(chunks: seq<seq<string>>): seq<string> {
    if chunks == [] then [] else Flat(chunks[..|chunks|-1]) + chunks[|chunks|-1]
  }

  predicate Fits(chunk: seq<string>, max: nat) {
    chunk != [] && (Bytes(chunk) <= max || |chunk| == 1)
  }

  /** A cut of lines, in order, into chunks that respect the size limit. */
  ghost predicate ValidCut(chunks: seq<seq<string>>, lines: seq<string>, max: nat) {
    Flat(chunks) == lines && forall i | 0 <= i < |chunks| :: Fits(chunks[i], max)
  }

  lemma FlatSnoc(chunks: seq<seq<string>>, c: seq<string>)
    ensures Flat(chunks + [c]) == Flat(chunks) + c
  {
    assert (chunks + [c])[..|chunks|] == chunks;
  }

  ghost predicate NoBlank(lines: seq<string>) {
    forall i | 0 <= i < |lines| :: lines[i] != []
  }

  lemma NonBlankHasBytes(lines: seq<string>)
    requires lines != [] && lines[|lines|-1] != []
    ensures Bytes(lines) > 0
  {
  }

  lemma FitsSnoc(open: seq<string>, line: string, max: nat)
    requires Bytes(open) + LineBytes(line) <= max
    ensures Fits(open + [line], max) && Fits([line], max)
  {
    assert (open + [line])[..|open|] == open;
  }

  lemma CutSnoc(chunks: seq<seq<string>>, lines: seq<string>, c: seq<string>, max: nat)
    requires ValidCut(chunks, lines, max) && Fits(c, max)
    ensures ValidCut(chunks + [c], lines + c, max)
  {
    hide Fits, Flat;
    FlatSnoc(chunks, c);
  }

  lemma CutFront(done: seq<seq<string>>, open: seq<string>, lines: seq<string>, max: nat)
    requires ValidCut(done + [open], lines, max)
    ensures Fits(open, max) && ValidCut(done, Flat(done), max) && lines == Flat(done) + open
  {
    hide Fits, Flat;
    FlatSnoc(done, open);
    assert (done + [open])[|done|] == open;
    forall i | 0 <= i < |done| ensures Fits(done[i], max) { assert (done + [open])[i] == done[i]; }
  }

  /** A line that fits in the last chunk joins it. */
  lemma CutGrows(done: seq<seq<string>>, open: seq<string>, lines: seq<string>, line: string, max: nat)
    requires ValidCut(done + [open], lines, max) && Bytes(open) + LineBytes(line) <= max
    ensures ValidCut(done + [open + [line]], lines + [line], max)
  {
    CutFront(done, open, lines, max);
    hide ValidCut, Fits, Bytes, LineBytes, Flat;
    FitsSnoc(open, line, max);
    CutSnoc(done, Flat(done), open + [line], max);
    assert Flat(done) + (open + [line]) == Flat(done) + open + [line];
  }

  lemma LastChunkHasBytes(done: seq<seq<string>>, open: seq<string>, lines: seq<string>, max: nat)
    requires ValidCut(done + [open], lines, max) && NoBlank(lines)
    ensures Bytes(open) > 0
  {
    CutFront(done, open, lines, max);
    assert open[|open|-1] == lines[|lines|-1];
    hide Flat;
    NonBlankHasBytes(open);
  }

  lemma OneLine(line: string, max: nat)
    ensures Fits([line], max) && ValidCut([], [], max)
  {
  }

  /** Chunking keeps the lines and their order, and every chunk is within the limit or a single line. */
  lemma {:induction false} ChunksAreValid(lines: seq<string>, max: nat)
    requires NoBlank(lines)
    ensures ValidCut(Chunks(lines, max), lines, max)
  {
    hide ValidCut, Bytes, LineBytes, Fits;
    if lines == [] {
      OneLine("", max);
    } else {
      var front, line := lines[..|lines|-1], lines[|lines|-1];
      ChunksAreValid(front, max);
      var before := Chunks(front, max);
      assert lines == front + [line];
      OneLine(line, max);
      if before == [] {
        CutSnoc([], [], [line], max);
        assert [] + [[line]] == [[line]] && [] + [line] == lines;
      } else {
        var done, open := before[..|before|-1], before[|before|-1];
        assert before == done + [open];
        LastChunkHasBytes(done, open, front, max);
        if Bytes(open) + LineBytes(line) > max {
          CutSnoc(before, front, [line], max);
        } else {
          CutGrows(done, open, front, line, max);
        }
      }
    }
  }

  lemma FlatLast(chunks: seq<seq<string>>)
    requires chunks != []
    ensures Flat(chunks) == Flat(chunks[..|chunks|-1]) + chunks[|chunks|-1]
  {
  }

  /** Dropping the last line of a valid cut leaves a valid cut of the lines before it. */
  lemma CutShorter(cut: seq<seq<string>>, lines: seq<string>, max: nat) returns (shorter: seq<seq<string>>)
    requires lines != [] && ValidCut(cut, lines, max)
    ensures cut != [] && ValidCut(shorter, lines[..|lines|-1], max)
    ensures var last := cut[|cut|-1];
            if |last| == 1 then shorter == cut[..|cut|-1]
            else last != [] && shorter == cut[..|cut|-1] + [last[..|last|-1]]
  {
    FlatLast(cut);
    var done, last := cut[..|cut|-1], cut[|cut|-1];
    assert Fits(last, max);
    if |last| == 1 {
      shorter := done;
      assert lines[..|lines|-1] == Flat(done);
    } else {
      shorter := done + [last[..|last|-1]];
      FlatSnoc(done, last[..|last|-1]);
      assert lines[..|lines|-1] == Flat(done) + last[..|last|-1];
      assert Bytes(last[..|last|-1]) <= Bytes(last);
    }
  }

  /** If one last chunk is no longer than another over the same lines, it is no bigger. */
  lemma ShorterSuffix(a: seq<string>, x: seq<string>, b: seq<string>, y: seq<string>)
    requires a + x == b + y && |x| <= |y|
    ensures Bytes(x) <= Bytes(y)
  {
    var extra := y[..|y| - |x|];
    assert (a + x)[|a|..] == x && (b + y)[|b|..] == y;
    assert (b + y)[|b| + |extra|..] == y[|extra|..];
    assert y == extra + x;
    BytesAppend(extra, x);
  }

  /** Greedy chunking stays ahead of every other cut: fewer chunks, or as many with a last chunk no longer. */
  lemma {:induction false} StaysAhead(lines: seq<string>, max: nat, cut: seq<seq<string>>)
    requires NoBlank(lines) && ValidCut(cut, lines, max)
    ensures var greedy := Chunks(lines, max);
            && |greedy| <= |cut|
            && (greedy != [] && |greedy| == |cut| ==> |greedy[|greedy|-1]| <= |cut[|cut|-1]|)
  {
    if lines != [] {
      var front, line := lines[..|lines|-1], lines[|lines|-1];
      var shorter := CutShorter(cut, lines, max);
      StaysAhead(front, max, shorter);
      var before := Chunks(front, max);
      var last := cut[|cut|-1];
      assert Fits(last, max);
      if before != [] && |before| == |cut| {
        var mine := before[|before|-1];
        assert shorter == cut[..|cut|-1] + [last[..|last|-1]];
        ChunksAreValid(front, max);
        FlatLast(before);
        FlatSnoc(cut[..|cut|-1], last[..|last|-1]);
        ShorterSuffix(Flat(before[..|before|-1]), mine, Flat(cut[..|cut|-1]), last[..|last|-1]);
        FlatLast(cut);
        assert last[|last|-1] == line;
      }
    }
  }

  /** No order-preserving cut within the limit uses fewer chunks. */
  lemma FewestChunks(lines: seq<string>, max: nat, cut: seq<seq<string>>)
    requires NoBlank(lines) && ValidCut(cut, lines, max)
    ensures |Chunks(lines, max)| <= |cut|
  {
    StaysAhead(lines, max, cut);
  }
}
