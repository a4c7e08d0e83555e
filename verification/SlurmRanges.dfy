/** Range lists such as "0-2,5-6": printed by `_numbers_to_slurm_ranges` and `ranks_to_range_str`, and read back. */
module SlurmRanges {
  import opened Prelude
  import opened Text

  datatype Range = Range(lo: int, hi: int)

  /** A number that follows on extends the last run, another starts a run. */
  function AddNumber(before: seq<Range>, n: int): (rs: seq<Range>)
    ensures rs != []
  {
    if before != [] && n == before[|before|-1].hi + 1 then before[..|before|-1] + [Range(before[|before|-1].lo, n)]
    else before + [Range(n, n)]
  }

  /** The runs of consecutive numbers, in the order given. */
  function Ranges(ns: seq<int>): (rs: seq<Range>)
    ensures rs == [] <==> ns == []
  {
    if ns == [] then [] else AddNumber(Ranges(ns[..|ns|-1]), ns[|ns|-1])
  }

  /** The numbers lo, ..., hi. */
  function Span(lo: int, hi: int): seq<int>
    decreases hi - lo
  {
    if hi < lo then [] else Span(lo, hi - 1) + [hi]
  }

  function Expand(rs: seq<Range>): seq<int> {
    if rs == [] then [] else Expand(rs[..|rs|-1]) + Span(rs[|rs|-1].lo, rs[|rs|-1].hi)
  }

  lemma ExpandSnoc(rs: seq<Range>, lo: int, hi: int)
    ensures Expand(rs + [Range(lo, hi)]) == Expand(rs) + Span(lo, hi)
  {
    assert (rs + [Range(lo, hi)])[..|rs|] == rs;
  }

  lemma ExtendRun(done: seq<Range>, lo: int, hi: int)
    requires lo <= hi
    ensures Expand(done + [Range(lo, hi + 1)]) == Expand(done + [Range(lo, hi)]) + [hi + 1]
  {
    ExpandSnoc(done, lo, hi);
    ExpandSnoc(done, lo, hi + 1);
    SpanSnoc(lo, hi);
    hide Span, Expand;
    assert Expand(done) + (Span(lo, hi) + [hi + 1]) == Expand(done) + Span(lo, hi) + [hi + 1];
  }

  ghost predicate NonEmpty(rs: seq<Range>) {
    forall i | 0 <= i < |rs| :: rs[i].lo <= rs[i].hi
  }

  lemma AddNumberExpands(before: seq<Range>, n: int)
    requires NonEmpty(before)
    ensures Expand(AddNumber(before, n)) == Expand(before) + [n] && NonEmpty(AddNumber(before, n))
  {
    if before != [] && n == before[|before|-1].hi + 1 {
      var done, last := before[..|before|-1], before[|before|-1];
      assert before == done + [Range(last.lo, last.hi)];
      ExtendRun(done, last.lo, last.hi);
    } else {
      ExpandSnoc(before, n, n);
      SpanSnoc(n, n);
    }
  }

  /** Expanding the runs gives back any list of numbers, in its order; the runs are not empty. */
  lemma {:induction false} ExpandRanges(ns: seq<int>)
    ensures Expand(Ranges(ns)) == ns
    ensures NonEmpty(Ranges(ns))
  {
    if ns != [] {
      hide AddNumber, Expand, NonEmpty;
      var front, n := ns[..|ns|-1], ns[|ns|-1];
      ExpandRanges(front);
      AddNumberExpands(Ranges(front), n);
      assert ns == front + [n];
    } else {
      assert Ranges(ns) == [];
    }
  }

  lemma SpanSnoc(lo: int, hi: int)
    requires lo <= hi
    ensures Span(lo, hi + 1) == Span(lo, hi) + [hi + 1] && Span(hi, hi) == [hi]
  {
  }

  /** No two neighbouring runs could have been one. */
  lemma {:induction false} RangesAreMaximal(ns: seq<int>)
    ensures forall i | 0 <= i < |Ranges(ns)| - 1 :: Ranges(ns)[i].hi + 1 != Ranges(ns)[i + 1].lo
  {
    if ns != [] {
      RangesAreMaximal(ns[..|ns|-1]);
    }
  }

  // ---------------------------------------------------------------- printing

  function Numeral(n: int, pad: nat): string {
    if n < 0 then Decimal(n) else ZeroFill(n, pad)
  }

  function RangeText(r: Range, pad: nat): string {
    if r.lo == r.hi then Numeral(r.lo, pad) else Numeral(r.lo, pad) + "-" + Numeral(r.hi, pad)
  }

  function RangeTexts(rs: seq<Range>, pad: nat): seq<string> {
    if rs == [] then [] else RangeTexts(rs[..|rs|-1], pad) + [RangeText(rs[|rs|-1], pad)]
  }

  /** The next number extends the open run or closes it. */
  lemma NextNumber(numbers: seq<int>, i: nat, done: seq<Range>, first: int, end: int)
    requires i < |numbers| && Ranges(numbers[..i]) == done + [Range(first, end)]
    ensures var n := numbers[i];
            Ranges(numbers[..i + 1]) == if n == end + 1 then done + [Range(first, n)]
                                        else done + [Range(first, end)] + [Range(n, n)]
  {
    assert numbers[..i + 1][..i] == numbers[..i];
    assert (done + [Range(first, end)])[..|done|] == done;
  }

  lemma MoreTexts(done: seq<Range>, r: Range, pad: nat)
    ensures RangeTexts(done + [r], pad) == RangeTexts(done, pad) + [RangeText(r, pad)]
  {
    assert (done + [r])[..|done|] == done;
  }

  /** `_numbers_to_slurm_ranges` */
  method NumbersToSlurmRanges(numbers: seq<int>, pad: nat) returns (texts: seq<string>)
    ensures texts == RangeTexts(Ranges(numbers), pad)
  {
    texts := [];
    if numbers == [] {
      return;
    }
    var first, end := numbers[0], numbers[0];
    ghost var done: seq<Range> := [];
    assert numbers[..1] == [first] && [first][..0] == [];
    assert Ranges([first]) == done + [Range(first, end)];
    hide RangeText, Ranges;
    for i := 1 to |numbers|
      invariant Ranges(numbers[..i]) == done + [Range(first, end)] && texts == RangeTexts(done, pad)
    {
      var n := numbers[i];
      NextNumber(numbers, i, done, first, end);
      if n == end + 1 {
        end := n;
      } else {
        MoreTexts(done, Range(first, end), pad);
        texts := texts + [RangeText(Range(first, end), pad)];
        done := done + [Range(first, end)];
        first, end := n, n;
      }
    }
    assert numbers[..|numbers|] == numbers;
    MoreTexts(done, Range(first, end), pad);
    texts := texts + [RangeText(Range(first, end), pad)];
  }

  /** The text `ranks_to_range_str` prints. */
  function RankText(ranks: seq<int>): string {
    Join(RangeTexts(Ranges(ranks), 0), ',')
  }

  /** `ranks_to_range_str`: the same loop, without padding and joined. */
  method RanksToRangeStr(ranks: seq<int>) returns (text: string)
    ensures text == RankText(ranks)
  {
    var texts := NumbersToSlurmRanges(ranks, 0);
    text := Join(texts, ',');
  }

  // ---------------------------------------------------------------- reading back

  /** part.partition("-"), where there is a '-'. */
  function Dash(part: string): (i: nat)
    requires '-' in part
    ensures i < |part| && part[i] == '-' && '-' !in part[..i]
  {
    if part[0] == '-' then 0 else 1 + Dash(part[1..])
  }

  /** One part: a number, or low-high; None when it is neither. */
  function ReadPart(part: string): Option<Range> {
    if '-' in part then
      var i := Dash(part);
      var low, high := part[..i], part[i + 1..];
      if low != [] && high != [] && AllDigits(low) && AllDigits(high) then Some(Range(Value(low), Value(high))) else None
    else if part != [] && AllDigits(part) then Some(Range(Value(part), Value(part)))
    else None
  }

  function ReadParts(parts: seq<string>): seq<int> {
    if parts == [] then []
    else
      ReadParts(parts[..|parts|-1])
      + match ReadPart(parts[|parts|-1]) case Some(r) => Span(r.lo, r.hi) case None => []
  }

  /** The numbers a comma-separated range list stands for. */
  function ReadRanges(text: string): seq<int> {
    if text == [] then [] else ReadParts(Split(text, ','))
  }

  lemma DigitsHaveNone(s: string, c: char)
    requires AllDigits(s) && !IsDigit(c)
    ensures c !in s
  {
  }

  lemma {:induction false} DashAt(low: string, high: string)
    requires '-' !in low
    ensures '-' in low + "-" + high && Dash(low + "-" + high) == |low|
  {
    var s := low + "-" + high;
    if low != [] {
      assert s[1..] == low[1..] + "-" + high && s[0] == low[0];
      DashAt(low[1..], high);
      assert s == [s[0]] + s[1..];
    } else {
      assert s[0] == '-';
    }
  }

  /** Reading a printed run gives the run. */
  lemma ReadRangeText(r: Range, pad: nat)
    requires 0 <= r.lo <= r.hi
    ensures ReadPart(RangeText(r, pad)) == Some(r)
    ensures ',' !in RangeText(r, pad) && RangeText(r, pad) != []
  {
    var low, high := ZeroFill(r.lo, pad), ZeroFill(r.hi, pad);
    ZeroFillRoundTrip(r.lo, pad);
    ZeroFillRoundTrip(r.hi, pad);
    DigitsHaveNone(low, '-');
    DigitsHaveNone(low, ',');
    DigitsHaveNone(high, ',');
    assert Numeral(r.lo, pad) == low && Numeral(r.hi, pad) == high;
    hide ZeroFill, Value, AllDigits, Numeral;
    if r.lo != r.hi {
      ReadPair(low, high);
    }
  }

  lemma ReadPair(low: string, high: string)
    requires low != [] && high != [] && AllDigits(low) && AllDigits(high)
    ensures ReadPart(low + "-" + high) == Some(Range(Value(low), Value(high)))
  {
    DigitsHaveNone(low, '-');
    DashAt(low, high);
    hide AllDigits, Value, Dash;
    var text := low + "-" + high;
    assert text[..|low|] == low && text[|low| + 1..] == high;
  }

  lemma {:induction false} RangeTextsAt(rs: seq<Range>, pad: nat)
    ensures |RangeTexts(rs, pad)| == |rs|
    ensures forall i | 0 <= i < |rs| :: RangeTexts(rs, pad)[i] == RangeText(rs[i], pad)
  {
    hide RangeText;
    if rs != [] { RangeTextsAt(rs[..|rs|-1], pad); }
  }

  ghost predicate Natural(rs: seq<Range>) {
    forall i | 0 <= i < |rs| :: 0 <= rs[i].lo <= rs[i].hi
  }

  lemma {:induction false} ReadRangeTexts(rs: seq<Range>, pad: nat)
    requires Natural(rs)
    ensures ReadParts(RangeTexts(rs, pad)) == Expand(rs)
  {
    hide RangeText, ReadPart;
    if rs != [] {
      var front, r := rs[..|rs|-1], rs[|rs|-1];
      ReadRangeTexts(front, pad);
      ReadRangeText(r, pad);
      var texts := RangeTexts(rs, pad);
      assert texts[..|texts|-1] == RangeTexts(front, pad) && texts[|texts|-1] == RangeText(r, pad);
    }
  }

  lemma RangeTextsFree(rs: seq<Range>, pad: nat)
    requires Natural(rs)
    ensures Free(RangeTexts(rs, pad), ',') && forall i | 0 <= i < |rs| :: |RangeTexts(rs, pad)| == |rs| && RangeTexts(rs, pad)[i] != []
  {
    RangeTextsAt(rs, pad);
    forall i | 0 <= i < |rs| ensures ',' !in RangeText(rs[i], pad) && RangeText(rs[i], pad) != [] {
      ReadRangeText(rs[i], pad);
    }
    hide RangeText;
  }

  lemma {:induction false} JoinNotEmpty(parts: seq<string>, sep: char)
    requires parts != [] && parts[0] != []
    ensures Join(parts, sep) != []
  {
    if |parts| > 1 { JoinNotEmpty(parts[..|parts|-1], sep); }
  }

  lemma {:induction false} RangesAreNatural(ns: seq<int>)
    requires forall i | 0 <= i < |ns| :: ns[i] >= 0
    ensures Natural(Ranges(ns))
  {
    if ns != [] {
      RangesAreNatural(ns[..|ns|-1]);
    }
  }

  /** Reading the printed list gives exactly the ranks, in their order. */
  lemma RankTextRoundTrip(ranks: seq<int>)
    requires forall i | 0 <= i < |ranks| :: ranks[i] >= 0
    ensures ReadRanges(RankText(ranks)) == ranks
  {
    ExpandRanges(ranks);
    RangesAreNatural(ranks);
    var rs := Ranges(ranks);
    ReadRangeTexts(rs, 0);
    RangeTextsFree(rs, 0);
    if rs != [] {
      JoinRoundTrip(RangeTexts(rs, 0), ',');
      JoinNotEmpty(RangeTexts(rs, 0), ',');
    }
  }

  lemma {:induction false} SpanNatural(lo: int, hi: int)
    requires lo >= 0
    ensures forall n | n in Span(lo, hi) :: n >= 0
    decreases hi - lo
  {
    if lo <= hi { SpanNatural(lo, hi - 1); }
  }

  /** Whatever the text, a reader finds no negative number in it: a '-' always stands between two numbers. */
  lemma {:induction false} ReadPartsNatural(parts: seq<string>)
    ensures forall n | n in ReadParts(parts) :: n >= 0
  {
    hide ReadPart;
    if parts != [] {
      ReadPartsNatural(parts[..|parts|-1]);
      var part := parts[|parts|-1];
      ReadPartNatural(part);
      if ReadPart(part).Some? {
        SpanNatural(ReadPart(part).value.lo, ReadPart(part).value.hi);
      }
    }
  }

  lemma ReadPartNatural(part: string)
    ensures ReadPart(part).Some? ==> ReadPart(part).value.lo >= 0
  {
  }

  /** Reading the printed list gives exactly the ranks, in their order, when none of them is negative, and only then. */
  lemma RankTextReadsBack(ranks: seq<int>)
    ensures ReadRanges(RankText(ranks)) == ranks <==> forall i | 0 <= i < |ranks| :: ranks[i] >= 0
  {
    if forall i | 0 <= i < |ranks| :: ranks[i] >= 0 {
      RankTextRoundTrip(ranks);
    } else {
      hide RankText;
      var text := RankText(ranks);
      ReadPartsNatural(Split(text, ','));
      var i :| 0 <= i < |ranks| && ranks[i] < 0;
      assert ranks[i] in ranks && ranks[i] !in ReadRanges(text);
    }
  }

  lemma PrintedAlone(n: int)
    ensures RankText([n]) == Numeral(n, 0)
  {
    hide Numeral;
    assert Ranges([n]) == [Range(n, n)];
    assert RangeTexts([Range(n, n)], 0) == [Numeral(n, 0)] by {
      assert [Range(n, n)][..0] == [];
    }
  }

  /** The list [-1] is printed as "-1", whose sign reads as a range dash. */
  lemma MinusOneIsLost()
    ensures RankText([-1]) == "-1" && ReadRanges("-1") == []
  {
    PrintedAlone(-1);
    SplitWhole("-1", ',');
    hide RankText, Split;
    assert Dash("-1") == 0;
    assert ReadPart("-1") == None;
    assert ["-1"][..0] == [];
  }
}
