/** SLURM node lists: parsing host names, the printed node list, the matching sort, and the watcher that reads it back. */
module SlurmNodes {
  import opened Prelude
  import opened Sorting
  import opened Text
  import opened SlurmRanges

  // ---------------------------------------------------------------- host names

  /** 'prefix' + digits: the number and how it was written. */
  datatype Name = Name(prefix: string, num: nat, suffix: string)

  function TrailingDigits(s: string): (d: string)
    ensures |d| <= |s| && AllDigits(d)
  {
    if s != [] && IsDigit(s[|s|-1]) then TrailingDigits(s[..|s|-1]) + [s[|s|-1]] else []
  }

  lemma {:induction false} TrailingDigitsEnd(s: string)
    ensures s == s[..|s| - |TrailingDigits(s)|] + TrailingDigits(s)
  {
    if s != [] && IsDigit(s[|s|-1]) {
      TrailingDigitsEnd(s[..|s|-1]);
    }
  }

  /** `_parse_hostname_prefix_suffix`: the shortest prefix that leaves only digits. */
  function Parse(name: string): Option<Name> {
    var d := TrailingDigits(name);
    if d == [] then None else Some(Name(name[..|name| - |d|], Value(d), d))
  }

  /** The name a parse came from. */
  function Spell(n: Name): string {
    n.prefix + n.suffix
  }

  lemma ParseSpells(name: string)
    ensures Parse(name).Some? ==>
              var n := Parse(name).value;
              Spell(n) == name && n.suffix != [] && AllDigits(n.suffix) && n.num == Value(n.suffix)
  {
    TrailingDigitsEnd(name);
  }

  /** addr.split(".")[0].strip() */
  function Short(addr: string): string {
    Strip(Split(addr, '.')[0])
  }

  function ShortNames(addrs: seq<string>): seq<string> {
    if addrs == [] then []
    else ShortNames(addrs[..|addrs|-1]) + if addrs[|addrs|-1] == [] then [] else [Short(addrs[|addrs|-1])]
  }

  // ---------------------------------------------------------------- zero filling

  lemma ValueSnoc(front: string, d: char)
    requires IsDigit(d)
    ensures Value(front + [d]) == 10 * Value(front) + DigitValue(d)
  {
    assert (front + [d])[..|front|] == front;
  }

  lemma OneDigit(d: char)
    requires IsDigit(d)
    ensures Value([d]) == DigitValue(d) && Digits(DigitValue(d)) == [d]
  {
  }

  lemma DigitsSnoc(n: nat, d: char)
    requires IsDigit(d) && n > 0
    ensures Digits(10 * n + DigitValue(d)) == Digits(n) + [d]
  {
    assert (10 * n + DigitValue(d)) / 10 == n && (10 * n + DigitValue(d)) % 10 == DigitValue(d);
  }

  lemma {:induction false} LeadingDigit(s: string)
    requires s != [] && AllDigits(s) && s[0] != '0'
    ensures Value(s) > 0 && Digits(Value(s)) == s
  {
    hide Value, Digits;
    var front, d := s[..|s|-1], s[|s|-1];
    assert s == front + [d];
    if front == [] {
      OneDigit(d);
    } else {
      LeadingDigit(front);
      ValueSnoc(front, d);
      DigitsSnoc(Value(front), d);
    }
  }

  lemma {:induction false} RepeatFront(c: char, n: nat)
    ensures Repeat(c, n + 1) == [c] + Repeat(c, n)
  {
    if n > 0 {
      RepeatFront(c, n - 1);
      assert Repeat(c, n + 1) == Repeat(c, n) + [c];
      assert [c] + Repeat(c, n - 1) + [c] == [c] + (Repeat(c, n - 1) + [c]);
    }
  }

  lemma ZeroFillWider(n: nat, width: nat)
    requires |Digits(n)| <= width
    ensures ZeroFill(n, width + 1) == "0" + ZeroFill(n, width)
  {
    var d := Digits(n);
    RepeatFront('0', width - |d|);
    hide Digits, Repeat;
    assert ['0'] + Repeat('0', width - |d|) + d == ['0'] + (Repeat('0', width - |d|) + d);
    if |d| == width { EmptyRepeat('0'); }
  }

  lemma EmptyRepeat(c: char)
    ensures Repeat(c, 0) == [] && Repeat(c, 1) == [c]
  {
    assert Repeat(c, 1) == Repeat(c, 0) + [c];
  }

  lemma OneZero()
    ensures Value("0") == 0 && Digits(0) == "0" && ZeroFill(0, 1) == "0"
  {
    assert Value("0"[..0]) == 0;
  }

  lemma ZeroBefore(t: string)
    ensures Value("0" + t) == Value(t)
  {
    EmptyRepeat('0');
    ValueOfZeros(1, t);
  }

  lemma NoFill(s: string)
    requires s != [] && AllDigits(s) && s[0] != '0'
    ensures ZeroFill(Value(s), |s|) == s && Digits(Value(s)) == s
  {
    LeadingDigit(s);
  }

  /** A numeral zero-filled to its own width is the numeral. */
  lemma {:induction false} ZeroFillOwnWidth(s: string)
    requires s != [] && AllDigits(s)
    ensures ZeroFill(Value(s), |s|) == s && |Digits(Value(s))| <= |s|
  {
    hide Value, ZeroFill, Digits;
    if s[0] != '0' {
      NoFill(s);
    } else if |s| == 1 {
      assert s == "0";
      OneZero();
    } else {
      var t := s[1..];
      assert s == "0" + t;
      ZeroFillOwnWidth(t);
      ZeroBefore(t);
      ZeroFillWider(Value(t), |t|);
    }
  }

  // ---------------------------------------------------------------- grouping by prefix

  datatype Entry = Entry(num: nat, suffix: string)

  /** One entry of the insertion-ordered prefix dict: number to written suffix, insertion-ordered too. */
  datatype Group = Group(prefix: string, entries: seq<Entry>)

  function PutEntry(es: seq<Entry>, e: Entry): seq<Entry> {
    if es == [] then [e]
    else if es[0].num == e.num then [e] + es[1..]
    else [es[0]] + PutEntry(es[1..], e)
  }

  function PutName(gs: seq<Group>, n: Name): seq<Group> {
    if gs == [] then [Group(n.prefix, [Entry(n.num, n.suffix)])]
    else if gs[0].prefix == n.prefix then [Group(n.prefix, PutEntry(gs[0].entries, Entry(n.num, n.suffix)))] + gs[1..]
    else [gs[0]] + PutName(gs[1..], n)
  }

  function GroupNames(names: seq<Name>): seq<Group> {
    if names == [] then [] else PutName(GroupNames(names[..|names|-1]), names[|names|-1])
  }

  function EntryNames(prefix: string, es: seq<Entry>): seq<Name> {
    if es == [] then [] else [Name(prefix, es[0].num, es[0].suffix)] + EntryNames(prefix, es[1..])
  }

  function NamesOf(gs: seq<Group>): seq<Name> {
    if gs == [] then [] else EntryNames(gs[0].prefix, gs[0].entries) + NamesOf(gs[1..])
  }

  predicate EntryLe(a: Entry, b: Entry) {
    a.num <= b.num
  }

  predicate GroupLe(g: Group, h: Group) {
    StringLe(g.prefix, h.prefix)
  }

  /** The key order (prefix, number). */
  predicate NameLe(a: Name, b: Name) {
    if a.prefix != b.prefix then StringLe(a.prefix, b.prefix) else a.num <= b.num
  }

  predicate SameKey(a: Name, b: Name) {
    a.prefix == b.prefix && a.num == b.num
  }

  ghost predicate DistinctNames(names: seq<Name>) {
    forall i, j | 0 <= i < j < |names| :: !SameKey(names[i], names[j])
  }

  lemma Orders()
    ensures TotalPreorder(EntryLe) && TotalPreorder(GroupLe) && TotalPreorder(NameLe)
  {
    forall g: Group, h: Group ensures GroupLe(g, h) || GroupLe(h, g) { StringLeTotal(g.prefix, h.prefix); }
    forall g: Group, h: Group, k: Group | GroupLe(g, h) && GroupLe(h, k) ensures GroupLe(g, k) {
      StringLeTransitive(g.prefix, h.prefix, k.prefix);
    }
    forall a: Name, b: Name ensures NameLe(a, b) || NameLe(b, a) { StringLeTotal(a.prefix, b.prefix); }
    forall a: Name, b: Name, c: Name | NameLe(a, b) && NameLe(b, c) ensures NameLe(a, c) { NameLeTransitive(a, b, c); }
  }

  lemma NameLeTransitive(a: Name, b: Name, c: Name)
    requires NameLe(a, b) && NameLe(b, c)
    ensures NameLe(a, c)
  {
    StringLeTotal(a.prefix, b.prefix);
    StringLeTotal(a.prefix, c.prefix);
    if a.prefix != b.prefix && b.prefix != c.prefix { StringLeTransitive(a.prefix, b.prefix, c.prefix); }
  }

  ghost predicate NoEntry(es: seq<Entry>, num: nat) {
    forall i | 0 <= i < |es| :: es[i].num != num
  }

  lemma {:induction false} PutEntryAdds(prefix: string, es: seq<Entry>, e: Entry)
    requires NoEntry(es, e.num)
    ensures multiset(EntryNames(prefix, PutEntry(es, e)))
            == multiset(EntryNames(prefix, es)) + multiset{Name(prefix, e.num, e.suffix)}
  {
    if es != [] {
      PutEntryAdds(prefix, es[1..], e);
      assert PutEntry(es, e)[1..] == PutEntry(es[1..], e);
    }
  }

  ghost predicate Fresh(names: seq<Name>, n: Name) {
    forall i | 0 <= i < |names| :: !SameKey(names[i], n)
  }

  lemma {:induction false} EntryNamesAt(prefix: string, es: seq<Entry>)
    ensures |EntryNames(prefix, es)| == |es|
    ensures forall i | 0 <= i < |es| :: EntryNames(prefix, es)[i] == Name(prefix, es[i].num, es[i].suffix)
  {
    if es != [] { EntryNamesAt(prefix, es[1..]); }
  }

  lemma FreshParts(a: seq<Name>, b: seq<Name>, n: Name)
    requires Fresh(a + b, n)
    ensures Fresh(a, n) && Fresh(b, n)
  {
    forall i | 0 <= i < |a| ensures !SameKey(a[i], n) { assert (a + b)[i] == a[i]; }
    forall i | 0 <= i < |b| ensures !SameKey(b[i], n) { assert (a + b)[|a| + i] == b[i]; }
  }

  lemma FreshEntries(prefix: string, es: seq<Entry>, n: Name)
    requires Fresh(EntryNames(prefix, es), n) && prefix == n.prefix
    ensures NoEntry(es, n.num)
  {
    EntryNamesAt(prefix, es);
    forall i | 0 <= i < |es| ensures es[i].num != n.num { assert !SameKey(EntryNames(prefix, es)[i], n); }
  }

  lemma NamesOfCons(g: Group, gs: seq<Group>)
    ensures NamesOf([g] + gs) == EntryNames(g.prefix, g.entries) + NamesOf(gs)
    ensures multiset(NamesOf([g] + gs)) == multiset(EntryNames(g.prefix, g.entries)) + multiset(NamesOf(gs))
  {
    assert ([g] + gs)[1..] == gs;
  }

  lemma Move<T>(a: multiset<T>, b: multiset<T>, x: multiset<T>)
    ensures (a + x) + b == (a + b) + x && a + (b + x) == (a + b) + x
  {
  }

  /** A name with a new key is added and nothing is lost. */
  lemma {:induction false} PutNameAdds(gs: seq<Group>, n: Name)
    requires Fresh(NamesOf(gs), n)
    ensures multiset(NamesOf(PutName(gs, n))) == multiset(NamesOf(gs)) + multiset{n}
  {
    var one := Group(n.prefix, [Entry(n.num, n.suffix)]);
    if gs == [] {
      assert EntryNames(n.prefix, one.entries) == [n] by { EntryNamesAt(n.prefix, one.entries); }
      NamesOfCons(one, []);
      assert [one] + [] == [one];
    } else {
      var g, rest := gs[0], gs[1..];
      assert gs == [g] + rest;
      NamesOfCons(g, rest);
      FreshParts(EntryNames(g.prefix, g.entries), NamesOf(rest), n);
      Move(multiset(EntryNames(g.prefix, g.entries)), multiset(NamesOf(rest)), multiset{n});
      if g.prefix == n.prefix {
        FreshEntries(g.prefix, g.entries, n);
        PutEntryAdds(n.prefix, g.entries, Entry(n.num, n.suffix));
        NamesOfCons(Group(n.prefix, PutEntry(g.entries, Entry(n.num, n.suffix))), rest);
      } else {
        PutNameAdds(rest, n);
        NamesOfCons(g, PutName(rest, n));
      }
      hide NamesOf, EntryNames, Fresh, PutEntry;
    }
  }

  lemma FreshAfter(before: seq<Name>, front: seq<Name>, n: Name)
    requires multiset(before) == multiset(front) && DistinctNames(front + [n])
    ensures Fresh(before, n)
  {
    forall i | 0 <= i < |before| ensures !SameKey(before[i], n) {
      var k := IndexIn(before, i, front);
      assert (front + [n])[k] == front[k] && (front + [n])[|front|] == n;
    }
  }

  /** Grouping names with distinct keys keeps each of them once. */
  lemma {:induction false} GroupNamesKeeps(names: seq<Name>)
    requires DistinctNames(names)
    ensures multiset(NamesOf(GroupNames(names))) == multiset(names)
  {
    hide NamesOf, SameKey, Fresh;
    if names != [] {
      var front, n := names[..|names|-1], names[|names|-1];
      assert names == front + [n];
      GroupNamesKeeps(front);
      FreshAfter(NamesOf(GroupNames(front)), front, n);
      PutNameAdds(GroupNames(front), n);
      assert multiset(names) == multiset(front) + multiset{n};
    } else {
      assert NamesOf([]) == [] by { NoGroups(); }
    }
  }

  lemma NoGroups()
    ensures NamesOf([]) == []
  {
  }

  ghost predicate DistinctPrefixes(gs: seq<Group>) {
    forall i, j | 0 <= i < j < |gs| :: gs[i].prefix != gs[j].prefix
  }

  lemma {:induction false} PutNameDistinct(gs: seq<Group>, n: Name)
    requires DistinctPrefixes(gs)
    ensures DistinctPrefixes(PutName(gs, n))
    ensures forall i | 0 <= i < |PutName(gs, n)| :: PutName(gs, n)[i].prefix == n.prefix
                                                    || exists j | 0 <= j < |gs| :: gs[j].prefix == PutName(gs, n)[i].prefix
  {
    if gs != [] && gs[0].prefix != n.prefix {
      PutNameDistinct(gs[1..], n);
      var put := PutName(gs[1..], n);
      assert PutName(gs, n) == [gs[0]] + put;
      forall i | 0 <= i < |put| ensures put[i].prefix != gs[0].prefix {
        if put[i].prefix != n.prefix {
          var j :| 0 <= j < |gs[1..]| && gs[1..][j].prefix == put[i].prefix;
          assert gs[j + 1].prefix == put[i].prefix;
        }
      }
    }
  }

  lemma {:induction false} GroupNamesDistinct(names: seq<Name>)
    ensures DistinctPrefixes(GroupNames(names))
  {
    if names != [] {
      GroupNamesDistinct(names[..|names|-1]);
      PutNameDistinct(GroupNames(names[..|names|-1]), names[|names|-1]);
    }
  }

  // ---------------------------------------------------------------- the printed order

  function SortEntries(gs: seq<Group>): seq<Group> {
    if gs == [] then [] else [Group(gs[0].prefix, Sort(EntryLe, gs[0].entries))] + SortEntries(gs[1..])
  }

  /** Prefixes in order, and the numbers of each prefix in order. */
  function Layout(names: seq<Name>): seq<Group> {
    SortEntries(Sort(GroupLe, GroupNames(names)))
  }

  lemma {:induction false} InsertEntryKeeps(prefix: string, e: Entry, es: seq<Entry>)
    ensures multiset(EntryNames(prefix, Insert(EntryLe, e, es)))
            == multiset(EntryNames(prefix, es)) + multiset{Name(prefix, e.num, e.suffix)}
  {
    if es == [] {
      EntryNamesAt(prefix, [e]);
      assert EntryNames(prefix, [e]) == [Name(prefix, e.num, e.suffix)];
    } else if EntryLe(e, es[0]) {
      assert ([e] + es)[1..] == es;
    } else {
      InsertEntryKeeps(prefix, e, es[1..]);
      assert ([es[0]] + Insert(EntryLe, e, es[1..]))[1..] == Insert(EntryLe, e, es[1..]);
    }
  }

  lemma {:induction false} SortEntryKeeps(prefix: string, es: seq<Entry>)
    ensures multiset(EntryNames(prefix, Sort(EntryLe, es))) == multiset(EntryNames(prefix, es))
  {
    if es != [] {
      SortEntryKeeps(prefix, es[1..]);
      InsertEntryKeeps(prefix, es[0], Sort(EntryLe, es[1..]));
    }
  }

  lemma {:induction false} SortEntriesKeeps(gs: seq<Group>)
    ensures multiset(NamesOf(SortEntries(gs))) == multiset(NamesOf(gs))
  {
    if gs != [] {
      var g, rest := gs[0], gs[1..];
      assert gs == [g] + rest;
      SortEntriesKeeps(rest);
      SortEntryKeeps(g.prefix, g.entries);
      NamesOfCons(g, rest);
      NamesOfCons(Group(g.prefix, Sort(EntryLe, g.entries)), SortEntries(rest));
    }
  }

  lemma {:induction false} InsertGroupKeeps(g: Group, gs: seq<Group>)
    ensures multiset(NamesOf(Insert(GroupLe, g, gs))) == multiset(EntryNames(g.prefix, g.entries)) + multiset(NamesOf(gs))
  {
    hide NamesOf, EntryNames, GroupLe;
    if gs == [] {
      NamesOfCons(g, []);
      assert [g] + [] == [g];
    } else if GroupLe(g, gs[0]) {
      NamesOfCons(g, gs);
    } else {
      InsertGroupKeeps(g, gs[1..]);
      NamesOfCons(gs[0], gs[1..]);
      NamesOfCons(gs[0], Insert(GroupLe, g, gs[1..]));
      assert gs == [gs[0]] + gs[1..];
    }
  }

  lemma {:induction false} SortGroupKeeps(gs: seq<Group>)
    ensures multiset(NamesOf(Sort(GroupLe, gs))) == multiset(NamesOf(gs))
  {
    if gs != [] {
      SortGroupKeeps(gs[1..]);
      InsertGroupKeeps(gs[0], Sort(GroupLe, gs[1..]));
      NamesOfCons(gs[0], gs[1..]);
      assert gs == [gs[0]] + gs[1..];
    }
  }

  /** The layout lists every name once. */
  lemma LayoutKeeps(names: seq<Name>)
    requires DistinctNames(names)
    ensures multiset(NamesOf(Layout(names))) == multiset(names)
  {
    GroupNamesKeeps(names);
    SortGroupKeeps(GroupNames(names));
    SortEntriesKeeps(Sort(GroupLe, GroupNames(names)));
  }

  /** Groups in order of distinct prefixes, each with its entries in order. */
  ghost predicate Ordered(gs: seq<Group>) {
    && DistinctPrefixes(gs) && Sorted(GroupLe, gs)
    && forall i | 0 <= i < |gs| :: Sorted(EntryLe, gs[i].entries)
  }

  lemma {:induction false} SortEntriesAt(gs: seq<Group>)
    ensures |SortEntries(gs)| == |gs|
    ensures forall i | 0 <= i < |gs| :: SortEntries(gs)[i] == Group(gs[i].prefix, Sort(EntryLe, gs[i].entries))
  {
    if gs != [] { SortEntriesAt(gs[1..]); }
  }

  lemma DistinctPrefixesNoRepeat(gs: seq<Group>, hs: seq<Group>)
    requires DistinctPrefixes(gs) && multiset(gs) == multiset(hs)
    ensures DistinctPrefixes(hs)
  {
    assert NoRepeat(gs);
    NoRepeatPermutation(gs, hs);
    forall i, j | 0 <= i < j < |hs| ensures hs[i].prefix != hs[j].prefix {
      var k := IndexIn(hs, i, gs);
      var l := IndexIn(hs, j, gs);
      assert hs[i] != hs[j];
      assert k != l;
      if k < l {
        assert gs[k].prefix != gs[l].prefix;
      } else {
        assert gs[l].prefix != gs[k].prefix;
      }
    }
  }

  lemma LayoutOrdered(names: seq<Name>)
    ensures Ordered(Layout(names))
  {
    Orders();
    GroupNamesDistinct(names);
    var gs := GroupNames(names);
    var hs := Sort(GroupLe, gs);
    SortSorts(GroupLe, gs);
    DistinctPrefixesNoRepeat(gs, hs);
    SortEntriesAt(hs);
    forall i | 0 <= i < |hs| ensures Sorted(EntryLe, Sort(EntryLe, hs[i].entries)) {
      SortSorts(EntryLe, hs[i].entries);
    }
    hide Sort, GroupNames, SortEntries;
  }

  lemma SortedConcat(a: seq<Name>, b: seq<Name>)
    requires Sorted(NameLe, a) && Sorted(NameLe, b)
    requires forall i, j | 0 <= i < |a| && 0 <= j < |b| :: NameLe(a[i], b[j])
    ensures Sorted(NameLe, a + b)
  {
  }

  lemma {:induction false} NamesOfHas(gs: seq<Group>, j: nat) returns (i: nat)
    requires j < |NamesOf(gs)|
    ensures i < |gs| && NamesOf(gs)[j].prefix == gs[i].prefix
  {
    var head := EntryNames(gs[0].prefix, gs[0].entries);
    EntryNamesAt(gs[0].prefix, gs[0].entries);
    if j < |head| {
      i := 0;
    } else {
      i := NamesOfHas(gs[1..], j - |head|);
      i := i + 1;
    }
  }

  /** Read off in order, the names are sorted by prefix and number. */
  lemma {:induction false} OrderedNamesSorted(gs: seq<Group>)
    requires Ordered(gs)
    ensures Sorted(NameLe, NamesOf(gs))
  {
    if gs != [] {
      var g, rest := gs[0], gs[1..];
      assert Ordered(rest);
      OrderedNamesSorted(rest);
      var a, b := EntryNames(g.prefix, g.entries), NamesOf(rest);
      EntryNamesAt(g.prefix, g.entries);
      forall i, j | 0 <= i < |a| && 0 <= j < |b| ensures NameLe(a[i], b[j]) {
        var k := NamesOfHas(rest, j);
        assert GroupLe(gs[0], gs[k + 1]) && gs[0].prefix != gs[k + 1].prefix;
      }
      assert Sorted(NameLe, a);
      SortedConcat(a, b);
    }
  }

  // ---------------------------------------------------------------- slurm_sort_addrs

  /** Parsed names first, by (prefix, number); the others after them, by short name. */
  predicate AddrLe(a: string, b: string) {
    var p, q := Parse(Short(a)), Parse(Short(b));
    if p.Some? && q.Some? then NameLe(p.value, q.value)
    else if p.Some? || q.Some? then p.Some?
    else StringLe(Short(a), Short(b))
  }

  lemma AddrOrder()
    ensures TotalPreorder(AddrLe)
  {
    Orders();
    hide Parse, Short, NameLe;
    forall a: string, b: string ensures AddrLe(a, b) || AddrLe(b, a) { StringLeTotal(Short(a), Short(b)); }
    forall a: string, b: string, c: string | AddrLe(a, b) && AddrLe(b, c) ensures AddrLe(a, c) {
      if Parse(Short(a)).None? && Parse(Short(b)).None? && Parse(Short(c)).None? {
        StringLeTransitive(Short(a), Short(b), Short(c));
      }
    }
  }

  function SlurmSortAddrs(addrs: seq<string>): seq<string> {
    Sort(AddrLe, addrs)
  }

  ghost predicate AllParse(addrs: seq<string>) {
    forall i | 0 <= i < |addrs| :: Parse(Short(addrs[i])).Some?
  }

  function NameOf(addr: string): Name {
    match Parse(Short(addr)) case Some(n) => n case None => Name(Short(addr), 0, "")
  }

  function NamesIn(addrs: seq<string>): (names: seq<Name>)
    ensures |names| == |addrs| && forall i | 0 <= i < |addrs| :: names[i] == NameOf(addrs[i])
  {
    if addrs == [] then [] else [NameOf(addrs[0])] + NamesIn(addrs[1..])
  }

  lemma NamesInCons(a: string, s: seq<string>)
    ensures multiset(NamesIn([a] + s)) == multiset{NameOf(a)} + multiset(NamesIn(s))
  {
    assert ([a] + s)[1..] == s;
  }

  lemma {:induction false} InsertAddrKeeps(a: string, s: seq<string>)
    ensures multiset(NamesIn(Insert(AddrLe, a, s))) == multiset(NamesIn(s)) + multiset{NameOf(a)}
  {
    hide NamesIn, NameOf, AddrLe;
    if s == [] || AddrLe(a, s[0]) {
      NamesInCons(a, s);
      assert [a] + [] == [a];
    } else {
      InsertAddrKeeps(a, s[1..]);
      NamesInCons(s[0], s[1..]);
      NamesInCons(s[0], Insert(AddrLe, a, s[1..]));
      assert s == [s[0]] + s[1..];
    }
  }

  lemma {:induction false} SortAddrKeeps(addrs: seq<string>)
    ensures multiset(NamesIn(SlurmSortAddrs(addrs))) == multiset(NamesIn(addrs))
  {
    hide NamesIn, NameOf, AddrLe;
    if addrs != [] {
      SortAddrKeeps(addrs[1..]);
      InsertAddrKeeps(addrs[0], SlurmSortAddrs(addrs[1..]));
      NamesInCons(addrs[0], addrs[1..]);
      assert addrs == [addrs[0]] + addrs[1..];
    }
  }

  /** Sorting addresses that all parse sorts their names. */
  lemma SortedNames(addrs: seq<string>)
    requires AllParse(addrs)
    ensures AllParse(SlurmSortAddrs(addrs)) && Sorted(NameLe, NamesIn(SlurmSortAddrs(addrs)))
  {
    AddrOrder();
    SortSorts(AddrLe, addrs);
    hide Parse, Short, Sort;
    var sorted := SlurmSortAddrs(addrs);
    forall i | 0 <= i < |sorted| ensures Parse(Short(sorted[i])).Some? {
      var k := IndexIn(sorted, i, addrs);
      assert addrs[k] == sorted[i];
    }
    forall i, j | 0 <= i < j < |sorted| ensures NameLe(NameOf(sorted[i]), NameOf(sorted[j])) {
      assert AddrLe(sorted[i], sorted[j]);
    }
  }

  lemma OneIndex(names: seq<Name>, i: nat, j: nat)
    requires DistinctNames(names) && i < |names| && j < |names|
    ensures SameKey(names[i], names[j]) ==> i == j
  {
  }

  lemma DistinctNamesKeys(a: seq<Name>, names: seq<Name>)
    requires DistinctNames(names) && multiset(a) == multiset(names)
    ensures DistinctKeys(NameLe, a)
  {
    SameMembers(a, names);
    forall x, y | x in a && y in a && NameLe(x, y) && NameLe(y, x) ensures x == y {
      StringLeTotal(x.prefix, y.prefix);
      var i :| 0 <= i < |names| && names[i] == x;
      var j :| 0 <= j < |names| && names[j] == y;
      OneIndex(names, i, j);
    }
  }

  /** The sorted addresses are exactly the names in printed order. */
  lemma SortMatchesLayout(addrs: seq<string>)
    requires AllParse(addrs) && DistinctNames(NamesIn(addrs))
    ensures AllParse(SlurmSortAddrs(addrs)) && NamesIn(SlurmSortAddrs(addrs)) == NamesOf(Layout(NamesIn(addrs)))
  {
    var names := NamesIn(addrs);
    SortAddrKeeps(addrs);
    SortedNames(addrs);
    LayoutKeeps(names);
    LayoutOrdered(names);
    OrderedNamesSorted(Layout(names));
    DistinctNamesKeys(NamesOf(Layout(names)), names);
    Orders();
    hide SlurmSortAddrs, Layout, NamesOf, NamesIn, Sorted, DistinctKeys, DistinctNames, TotalPreorder;
    SortedUnique(NameLe, NamesOf(Layout(names)), NamesIn(SlurmSortAddrs(addrs)));
  }

  // ---------------------------------------------------------------- the printed node list

  function Nums(es: seq<Entry>): seq<int> {
    if es == [] then [] else [es[0].num] + Nums(es[1..])
  }

  /** The widest suffix. */
  function Pad(es: seq<Entry>): nat {
    if es == [] then 0 else if |es[0].suffix| > Pad(es[1..]) then |es[0].suffix| else Pad(es[1..])
  }

  /** prefix[ranges] */
  function Body(es: seq<Entry>): string {
    Join(RangeTexts(Ranges(Nums(es)), Pad(es)), ',')
  }

  function Token(g: Group): string {
    g.prefix + "[" + Body(g.entries) + "]"
  }

  function Tokens(gs: seq<Group>): seq<string> {
    if gs == [] then [] else Tokens(gs[..|gs|-1]) + [Token(gs[|gs|-1])]
  }

  function ParseAll(names: seq<string>): seq<Option<Name>> {
    if names == [] then [] else ParseAll(names[..|names|-1]) + [Parse(names[|names|-1])]
  }

  function Values(parsed: seq<Option<Name>>): seq<Name>
    requires None !in parsed
  {
    if parsed == [] then [] else Values(parsed[..|parsed|-1]) + [parsed[|parsed|-1].value]
  }

  /** sorted(set(names)) */
  function Dedup(names: seq<string>): seq<string> {
    if names == [] then []
    else
      var front := Dedup(names[..|names|-1]);
      if names[|names|-1] in front then front else front + [names[|names|-1]]
  }

  /** What `hostnames_to_slurm_nodelist` prints. */
  function NodeListText(addrs: seq<string>): string {
    var short := ShortNames(addrs);
    var parsed := ParseAll(short);
    if None in parsed then Join(Sort(StringLe, Dedup(short)), ',')
    else Join(Tokens(Layout(Values(parsed))), ',')
  }

  lemma GroupNext(parsed: seq<Option<Name>>, i: nat)
    requires i < |parsed| && None !in parsed
    ensures GroupNames(Values(parsed[..i + 1])) == PutName(GroupNames(Values(parsed[..i])), parsed[i].value)
  {
    hide PutName;
    assert parsed[..i + 1][..i] == parsed[..i];
    var front := Values(parsed[..i]);
    assert (front + [parsed[i].value])[..|front|] == front;
  }

  lemma TokenNext(layout: seq<Group>, i: nat)
    requires i < |layout|
    ensures Tokens(layout[..i + 1]) == Tokens(layout[..i]) + [Token(layout[i])]
  {
    hide Token;
    assert layout[..i + 1][..i] == layout[..i];
  }

  method HostnamesToSlurmNodelist(addrs: seq<string>) returns (text: string)
    ensures text == NodeListText(addrs)
  {
    hide Parse, Short, PutName, Insert, Sort, GroupNames, Values, Tokens;
    var shortNames := ShortNames(addrs);
    NothingYet();
    if shortNames == [] {
      return "";
    }
    var parsed := ParseAll(shortNames);
    if None in parsed {
      return Join(Sort(StringLe, Dedup(shortNames)), ',');
    }
    var byPrefix: seq<Group> := [];
    for i := 0 to |parsed|
      invariant byPrefix == GroupNames(Values(parsed[..i]))
    {
      GroupNext(parsed, i);
      byPrefix := PutName(byPrefix, parsed[i].value);
    }
    assert parsed[..|parsed|] == parsed;
    var resultParts: seq<string> := [];
    var groups := Sort(GroupLe, byPrefix);
    SortEntriesAt(groups);
    ghost var layout := SortEntries(groups);
    for i := 0 to |groups|
      invariant resultParts == Tokens(layout[..i])
    {
      TokenNext(layout, i);
      var nums := Sort(EntryLe, groups[i].entries);
      var rangeStrs := NumbersToSlurmRanges(Nums(nums), Pad(nums));
      resultParts := resultParts + [groups[i].prefix + "[" + Join(rangeStrs, ',') + "]"];
    }
    assert layout[..|layout|] == layout;
    text := Join(resultParts, ',');
  }

  lemma NothingYet()
    ensures Values([]) == [] && GroupNames([]) == [] && Tokens([]) == [] && Layout([]) == []
  {
  }

  // ---------------------------------------------------------------- the watcher's expansion

  /** The scan of split_nodelist: finished tokens, bracket depth, token in progress. */
  datatype Scan = Scan(tokens: seq<string>, depth: nat, current: string)

  function ScanChar(s: Scan, c: char): Scan {
    var depth := if c == '[' then s.depth + 1 else if c == ']' && s.depth > 0 then s.depth - 1 else s.depth;
    if c == ',' && depth == 0 then Scan(s.tokens + [s.current], depth, [])
    else Scan(s.tokens, depth, s.current + [c])
  }

  function ScanText(s: Scan, text: string): Scan
    decreases text
  {
    if text == [] then s else ScanText(ScanChar(s, text[0]), text[1..])
  }

  /** [t.strip() for t in tokens if t.strip()] */
  function StripAll(tokens: seq<string>): seq<string> {
    if tokens == [] then []
    else StripAll(tokens[..|tokens|-1]) + if Strip(tokens[|tokens|-1]) == [] then [] else [Strip(tokens[|tokens|-1])]
  }

  function SplitNodelist(text: string): seq<string> {
    var end := ScanText(Scan([], 0, []), text);
    StripAll(end.tokens + [end.current])
  }

  function Find(s: string, c: char): (i: nat)
    ensures i <= |s| && c !in s[..i] && (i < |s| ==> s[i] == c)
  {
    if s == [] || s[0] == c then 0 else 1 + Find(s[1..], c)
  }

  /** ^(.*?)\[([^\]]*)\](.*)$ */
  datatype Match = NoMatch | Match(prefix: string, body: string, suffix: string)

  function MatchRange(token: string): Match {
    var i := Find(token, '[');
    if i == |token| then NoMatch
    else
      var j := Find(token[i + 1..], ']');
      if j == |token| - i - 1 then NoMatch else Match(token[..i], token[i + 1..][..j], token[i + 1..][j + 1..])
  }

  /** The hosts prefix low suffix, ..., prefix high suffix, zero-padded to a width. */
  function Hosts(prefix: string, low: nat, count: nat, width: nat, suffix: string): seq<string> {
    if count == 0 then [] else Hosts(prefix, low, count - 1, width, suffix) + [prefix + ZeroFill(low + count - 1, width) + suffix]
  }

  function ExpandPart(prefix: string, part: string, suffix: string): seq<string> {
    if part == [] then []
    else if '-' in part then
      var i := Dash(part);
      var low, high := part[..i], part[i + 1..];
      if low == [] || high == [] || !AllDigits(low) || !AllDigits(high) then [prefix + part + suffix]
      else Hosts(prefix, Value(low), if Value(high) < Value(low) then 0 else Value(high) - Value(low) + 1, |low|, suffix)
    else [prefix + part + suffix]
  }

  function ExpandParts(prefix: string, parts: seq<string>, suffix: string): seq<string> {
    if parts == [] then []
    else ExpandParts(prefix, parts[..|parts|-1], suffix) + ExpandPart(prefix, Strip(parts[|parts|-1]), suffix)
  }

  function ExpandToken(token: string): seq<string> {
    match MatchRange(token)
    case NoMatch => [token]
    case Match(prefix, body, suffix) => ExpandParts(prefix, Split(body, ','), suffix)
  }

  function ExpandTokens(tokens: seq<string>): seq<string> {
    if tokens == [] then [] else ExpandTokens(tokens[..|tokens|-1]) + ExpandToken(tokens[|tokens|-1])
  }

  /** expand_nodelist */
  function ExpandNodelist(text: string): seq<string> {
    ExpandTokens(SplitNodelist(text))
  }

  // ---------------------------------------------------------------- printing and expanding agree

  /** Characters that mean something in a node list. */
  predicate Plain(s: string) {
    '[' !in s && ']' !in s && ',' !in s
  }

  lemma {:induction false} ScanAppend(s: Scan, a: string, b: string)
    ensures ScanText(s, a + b) == ScanText(ScanText(s, a), b)
    decreases a
  {
    if a == [] {
      assert a + b == b;
    } else {
      assert (a + b)[1..] == a[1..] + b;
      ScanAppend(ScanChar(s, a[0]), a[1..], b);
    }
  }

  lemma {:induction false} ScanPlain(s: Scan, t: string)
    requires '[' !in t && ']' !in t && (s.depth > 0 || ',' !in t)
    ensures ScanText(s, t) == s.(current := s.current + t)
    decreases t
  {
    if t == [] {
      assert s.current + t == s.current;
    } else {
      ScanPlain(ScanChar(s, t[0]), t[1..]);
      assert s.current + [t[0]] + t[1..] == s.current + t;
    }
  }

  /** prefix[body] with plain parts. */
  ghost predicate TokenOf(token: string, prefix: string, body: string) {
    token == prefix + "[" + body + "]" && Plain(prefix) && '[' !in body && ']' !in body
  }

  lemma ScanOne(s: Scan, c: char)
    ensures ScanText(s, [c]) == ScanChar(s, c)
  {
    assert [c][1..] == [];
  }

  /** A token is scanned whole. */
  lemma ScanToken(ts: seq<string>, token: string, prefix: string, body: string)
    requires TokenOf(token, prefix, body)
    ensures ScanText(Scan(ts, 0, []), token) == Scan(ts, 0, token)
  {
    var s0 := Scan(ts, 0, []);
    var s1 := Scan(ts, 0, prefix);
    var s2 := Scan(ts, 1, prefix + "[");
    var s3 := Scan(ts, 1, prefix + "[" + body);
    ScanAppend(s0, prefix + "[" + body, "]");
    ScanAppend(s0, prefix + "[", body);
    ScanAppend(s0, prefix, "[");
    ScanPlain(s0, prefix);
    assert [] + prefix == prefix;
    ScanOne(s1, '[');
    ScanPlain(s2, body);
    ScanOne(s3, ']');
  }

  ghost predicate IsToken(token: string) {
    exists prefix, body :: TokenOf(token, prefix, body)
  }

  ghost predicate AreTokens(tokens: seq<string>) {
    forall i | 0 <= i < |tokens| :: IsToken(tokens[i])
  }

  lemma {:induction false} ScanTokens(tokens: seq<string>)
    requires tokens != [] && AreTokens(tokens)
    ensures ScanText(Scan([], 0, []), Join(tokens, ',')) == Scan(tokens[..|tokens|-1], 0, tokens[|tokens|-1])
  {
    var front, last := tokens[..|tokens|-1], tokens[|tokens|-1];
    assert IsToken(tokens[|tokens|-1]);
    var prefix, body :| TokenOf(last, prefix, body);
    if |tokens| == 1 {
      ScanToken([], last, prefix, body);
    } else {
      ScanTokens(front);
      var s0 := Scan([], 0, []);
      hide ScanText, TokenOf, IsToken;
      ScanAppend(s0, Join(front, ',') + ",", last);
      ScanAppend(s0, Join(front, ','), ",");
      ScanOne(ScanText(s0, Join(front, ',')), ',');
      assert front[..|front|-1] + [front[|front|-1]] == front;
      ScanToken(front, last, prefix, body);
    }
  }

  lemma StripNothing(s: string)
    requires s == [] || (!IsSpace(s[0]) && !IsSpace(s[|s|-1]))
    ensures Strip(s) == s
  {
  }

  ghost predicate Trimmed(tokens: seq<string>) {
    forall i | 0 <= i < |tokens| :: tokens[i] != [] && !IsSpace(tokens[i][0]) && !IsSpace(tokens[i][|tokens[i]|-1])
  }

  lemma {:induction false} StripTokens(tokens: seq<string>)
    requires Trimmed(tokens)
    ensures StripAll(tokens) == tokens
  {
    if tokens != [] {
      var front, last := tokens[..|tokens|-1], tokens[|tokens|-1];
      assert tokens == front + [last];
      StripTokens(front);
      StripNothing(last);
      hide Strip;
    }
  }

  /** Splitting a printed node list gives its tokens. */
  lemma SplitPrinted(tokens: seq<string>)
    requires AreTokens(tokens) && Trimmed(tokens)
    ensures SplitNodelist(Join(tokens, ',')) == tokens
  {
    if tokens == [] {
      NothingToSplit();
    } else {
      ScanTokens(tokens);
      StripTokens(tokens);
      hide AreTokens, Trimmed, StripAll, ScanText, Join;
      assert tokens[..|tokens|-1] + [tokens[|tokens|-1]] == tokens;
    }
  }

  lemma NothingToSplit()
    ensures SplitNodelist("") == []
  {
    var one: seq<string> := [""];
    assert StripAll(one) == [] by {
      assert one[..0] == [];
    }
  }

  lemma {:induction false} FindAt(s: string, t: string, c: char)
    requires c !in s
    ensures Find(s + [c] + t, c) == |s|
  {
    var u := s + [c] + t;
    if s != [] {
      assert u[0] == s[0] && u[1..] == s[1..] + [c] + t;
      FindAt(s[1..], t, c);
    }
  }

  lemma MatchToken(token: string, prefix: string, body: string)
    requires TokenOf(token, prefix, body)
    ensures MatchRange(token) == Match(prefix, body, "")
  {
    var rest := body + "]";
    assert token == prefix + "[" + rest;
    FindAt(prefix, rest, '[');
    assert token[|prefix| + 1..] == rest && token[..|prefix|] == prefix;
    assert rest == body + "]" + "";
    FindAt(body, "", ']');
    assert rest[..|body|] == body && rest[|body| + 1..] == "";
  }

  function Spelled(prefix: string, ns: seq<int>, pad: nat): seq<string> {
    if ns == [] then [] else Spelled(prefix, ns[..|ns|-1], pad) + [prefix + Numeral(ns[|ns|-1], pad)]
  }

  lemma {:induction false} SpelledAppend(prefix: string, a: seq<int>, b: seq<int>, pad: nat)
    ensures Spelled(prefix, a + b, pad) == Spelled(prefix, a, pad) + Spelled(prefix, b, pad)
  {
    if b == [] {
      assert a + b == a;
    } else {
      assert (a + b)[..|a + b|-1] == a + b[..|b|-1];
      SpelledAppend(prefix, a, b[..|b|-1], pad);
    }
  }

  lemma {:induction false} HostsSpell(prefix: string, low: nat, count: nat, pad: nat)
    ensures Hosts(prefix, low, count, pad, "") == Spelled(prefix, Span(low, low + count - 1), pad)
  {
    if count > 0 {
      HostsSpell(prefix, low, count - 1, pad);
      var ns := Span(low, low + count - 1);
      assert ns[..|ns|-1] == Span(low, low + count - 2);
      assert prefix + ZeroFill(low + count - 1, pad) + "" == prefix + Numeral(ns[|ns|-1], pad);
    }
  }

  lemma RangeTextTrim(r: Range, pad: nat)
    requires 0 <= r.lo <= r.hi
    ensures Strip(RangeText(r, pad)) == RangeText(r, pad)
  {
    var low, high := ZeroFill(r.lo, pad), ZeroFill(r.hi, pad);
    ZeroFillRoundTrip(r.lo, pad);
    ZeroFillRoundTrip(r.hi, pad);
    var text := RangeText(r, pad);
    assert text[0] == low[0] && text[|text|-1] == if r.lo == r.hi then low[|low|-1] else high[|high|-1];
    assert IsDigit(low[0]) && IsDigit(low[|low|-1]) && IsDigit(high[|high|-1]);
    StripNothing(text);
  }

  lemma EmptySuffix(s: string)
    ensures s + "" == s
  {
  }

  lemma PairParts(low: string, high: string)
    requires '-' !in low
    ensures var text := low + "-" + high;
            '-' in text && text != [] && Dash(text) == |low| && text[..|low|] == low && text[|low| + 1..] == high
  {
    DashAt(low, high);
    hide Dash;
    var text := low + "-" + high;
    assert text[..|low|] == low && text[|low| + 1..] == high;
  }

  lemma ExpandPair(prefix: string, low: string, high: string)
    requires low != [] && high != [] && AllDigits(low) && AllDigits(high) && Value(low) <= Value(high)
    ensures ExpandPart(prefix, low + "-" + high, "")
            == Hosts(prefix, Value(low), Value(high) - Value(low) + 1, |low|, "")
  {
    DigitsHaveNone(low, '-');
    PairParts(low, high);
    hide AllDigits, Value, Dash, Hosts;
  }

  lemma ExpandSingle(prefix: string, low: string)
    requires low != [] && AllDigits(low)
    ensures ExpandPart(prefix, low, "") == [prefix + low]
  {
    DigitsHaveNone(low, '-');
    EmptySuffix(prefix + low);
  }

  lemma ExpandRun(prefix: string, lo: nat, hi: nat, pad: nat)
    requires lo < hi && |Digits(lo)| <= pad
    ensures ExpandPart(prefix, ZeroFill(lo, pad) + "-" + ZeroFill(hi, pad), "") == Spelled(prefix, Span(lo, hi), pad)
  {
    ZeroFillRoundTrip(lo, pad);
    ZeroFillRoundTrip(hi, pad);
    hide ExpandPart, Hosts, Spelled, Span, Digits, AllDigits, Value, ZeroFill;
    ExpandPair(prefix, ZeroFill(lo, pad), ZeroFill(hi, pad));
    HostsSpell(prefix, lo, hi - lo + 1, pad);
  }

  lemma ExpandNumber(prefix: string, n: nat, pad: nat)
    ensures ExpandPart(prefix, ZeroFill(n, pad), "") == Spelled(prefix, Span(n, n), pad)
  {
    ZeroFillRoundTrip(n, pad);
    ExpandSingle(prefix, ZeroFill(n, pad));
    OneSpan(prefix, n, pad);
  }

  /** A printed run expands to its hosts, in numeric order and at the printed width. */
  lemma ExpandRangeText(prefix: string, r: Range, pad: nat)
    requires 0 <= r.lo <= r.hi && |Digits(r.lo)| <= pad
    ensures ExpandPart(prefix, RangeText(r, pad), "") == Spelled(prefix, Span(r.lo, r.hi), pad)
  {
    hide Spelled, Span, ZeroFill, ExpandPart, Digits;
    if r.lo == r.hi {
      ExpandNumber(prefix, r.lo, pad);
    } else {
      ExpandRun(prefix, r.lo, r.hi, pad);
    }
  }

  lemma OneSpan(prefix: string, n: nat, pad: nat)
    ensures Spelled(prefix, Span(n, n), pad) == [prefix + ZeroFill(n, pad)]
  {
    assert Span(n, n) == Span(n, n - 1) + [n];
    assert Spelled(prefix, [n], pad) == Spelled(prefix, [n][..0], pad) + [prefix + Numeral(n, pad)];
  }

  ghost predicate Within(rs: seq<Range>, pad: nat) {
    forall i | 0 <= i < |rs| :: 0 <= rs[i].lo <= rs[i].hi && |Digits(rs[i].lo)| <= pad
  }

  lemma {:induction false} ExpandRangeTexts(prefix: string, rs: seq<Range>, pad: nat)
    requires Within(rs, pad)
    ensures ExpandParts(prefix, RangeTexts(rs, pad), "") == Spelled(prefix, Expand(rs), pad)
  {
    if rs != [] {
      var front, r := rs[..|rs|-1], rs[|rs|-1];
      ExpandRangeTexts(prefix, front, pad);
      RangeTextTrim(r, pad);
      ExpandRangeText(prefix, r, pad);
      SpelledAppend(prefix, Expand(front), Span(r.lo, r.hi), pad);
      var texts := RangeTexts(rs, pad);
      assert texts[..|texts|-1] == RangeTexts(front, pad) && texts[|texts|-1] == RangeText(r, pad);
      hide RangeText, Strip, ExpandPart, Spelled, Span, Digits;
    }
  }

  lemma {:induction false} RangeStarts(ns: seq<int>, pad: nat)
    requires forall i | 0 <= i < |ns| :: ns[i] >= 0 && |Digits(ns[i])| <= pad
    ensures Within(Ranges(ns), pad)
  {
    if ns != [] {
      RangeStarts(ns[..|ns|-1], pad);
      hide Digits;
    }
  }

  lemma {:induction false} JoinFree(parts: seq<string>, sep: char, c: char)
    requires Free(parts, c) && c != sep
    ensures c !in Join(parts, sep)
  {
    if |parts| > 1 { JoinFree(parts[..|parts|-1], sep, c); }
  }

  lemma RangeTextPlain(r: Range, pad: nat)
    requires 0 <= r.lo <= r.hi
    ensures '[' !in RangeText(r, pad) && ']' !in RangeText(r, pad)
  {
    var low, high := ZeroFill(r.lo, pad), ZeroFill(r.hi, pad);
    ZeroFillRoundTrip(r.lo, pad);
    ZeroFillRoundTrip(r.hi, pad);
    DigitsHaveNone(low, '[');
    DigitsHaveNone(low, ']');
    DigitsHaveNone(high, '[');
    DigitsHaveNone(high, ']');
    hide ZeroFill, Digits, AllDigits, Value;
  }

  lemma BodyPlain(rs: seq<Range>, pad: nat)
    requires Within(rs, pad)
    ensures '[' !in Join(RangeTexts(rs, pad), ',') && ']' !in Join(RangeTexts(rs, pad), ',')
  {
    RangeTextsAt(rs, pad);
    forall i | 0 <= i < |rs| ensures '[' !in RangeTexts(rs, pad)[i] && ']' !in RangeTexts(rs, pad)[i] {
      RangeTextPlain(rs[i], pad);
    }
    JoinFree(RangeTexts(rs, pad), ',', '[');
    JoinFree(RangeTexts(rs, pad), ',', ']');
  }

  /** A number as parsed: what was written, at the group's width. */
  predicate Written(e: Entry, width: nat) {
    e.suffix != [] && AllDigits(e.suffix) && e.num == Value(e.suffix) && |e.suffix| == width
  }

  ghost predicate AllWritten(es: seq<Entry>, width: nat) {
    forall i | 0 <= i < |es| :: Written(es[i], width)
  }

  lemma {:induction false} PadIsWidth(es: seq<Entry>, width: nat)
    requires AllWritten(es, width) && es != []
    ensures Pad(es) == width
  {
    assert Written(es[0], width);
    if |es| > 1 { PadIsWidth(es[1..], width); }
  }

  lemma {:induction false} NumsAt(es: seq<Entry>)
    ensures |Nums(es)| == |es| && forall i | 0 <= i < |es| :: Nums(es)[i] == es[i].num
  {
    if es != [] { NumsAt(es[1..]); }
  }

  function Spells(names: seq<Name>): (r: seq<string>)
    ensures |r| == |names| && forall i | 0 <= i < |names| :: r[i] == Spell(names[i])
  {
    if names == [] then [] else [Spell(names[0])] + Spells(names[1..])
  }

  lemma {:induction false} SpelledAt(prefix: string, ns: seq<int>, pad: nat)
    ensures |Spelled(prefix, ns, pad)| == |ns|
    ensures forall i | 0 <= i < |ns| :: Spelled(prefix, ns, pad)[i] == prefix + Numeral(ns[i], pad)
  {
    hide Numeral;
    if ns != [] { SpelledAt(prefix, ns[..|ns|-1], pad); }
  }

  lemma SpelledEntry(prefix: string, e: Entry, width: nat)
    requires Written(e, width)
    ensures prefix + Numeral(e.num, width) == Spell(Name(prefix, e.num, e.suffix))
  {
    ZeroFillOwnWidth(e.suffix);
  }

  /** Zero-filling the numbers to the common width spells the names as they were. */
  lemma SpelledEntries(prefix: string, es: seq<Entry>, width: nat)
    requires AllWritten(es, width)
    ensures Spelled(prefix, Nums(es), width) == Spells(EntryNames(prefix, es))
  {
    hide Numeral, Spelled, EntryNames, Nums, Spells, Spell, Written;
    SpelledAt(prefix, Nums(es), width);
    NumsAt(es);
    EntryNamesAt(prefix, es);
    forall i | 0 <= i < |es| ensures prefix + Numeral(es[i].num, width) == Spell(Name(prefix, es[i].num, es[i].suffix)) {
      SpelledEntry(prefix, es[i], width);
    }
  }

  lemma WrittenWithin(es: seq<Entry>, width: nat)
    requires AllWritten(es, width)
    ensures Within(Ranges(Nums(es)), width)
  {
    NumsAt(es);
    forall i | 0 <= i < |es| ensures |Digits(es[i].num)| <= width {
      assert Written(es[i], width);
      ZeroFillOwnWidth(es[i].suffix);
    }
    RangeStarts(Nums(es), width);
  }

  ghost predicate WellPrinted(g: Group, width: nat) {
    Plain(g.prefix) && g.entries != [] && AllWritten(g.entries, width)
  }

  /** A printed group is one token, and expands to its names. */
  lemma ExpandGroup(g: Group, width: nat)
    requires WellPrinted(g, width)
    ensures TokenOf(Token(g), g.prefix, Body(g.entries))
    ensures ExpandToken(Token(g)) == Spells(EntryNames(g.prefix, g.entries))
  {
    var es := g.entries;
    var rs := Ranges(Nums(es));
    PadIsWidth(es, width);
    WrittenWithin(es, width);
    BodyPlain(rs, width);
    MatchToken(Token(g), g.prefix, Body(es));
    NumsAt(es);
    assert rs != [];
    PartsBack(rs, width);
    ExpandRangeTexts(g.prefix, rs, width);
    ExpandRanges(Nums(es));
    SpelledEntries(g.prefix, es, width);
  }

  lemma PartsBack(rs: seq<Range>, pad: nat)
    requires Within(rs, pad) && rs != []
    ensures Split(Join(RangeTexts(rs, pad), ','), ',') == RangeTexts(rs, pad)
  {
    assert Natural(rs);
    RangeTextsFree(rs, pad);
    RangeTextsAt(rs, pad);
    JoinRoundTrip(RangeTexts(rs, pad), ',');
  }

  // ---------------------------------------------------------------- whole node lists

  /** A parsed host name that a node list can hold. */
  predicate Proper(n: Name) {
    && Plain(n.prefix) && (n.prefix == [] || !IsSpace(n.prefix[0]))
    && n.suffix != [] && AllDigits(n.suffix) && n.num == Value(n.suffix)
  }

  ghost predicate AllProper(names: seq<Name>) {
    forall i | 0 <= i < |names| :: Proper(names[i])
  }

  ghost predicate EqualWidths(names: seq<Name>) {
    forall i, j | 0 <= i < |names| && 0 <= j < |names| && names[i].prefix == names[j].prefix ::
      |names[i].suffix| == |names[j].suffix|
  }

  ghost predicate PrintsBack(g: Group) {
    WellPrinted(g, Pad(g.entries)) && (g.prefix == [] || !IsSpace(g.prefix[0]))
  }

  lemma {:induction false} NamesOfSnoc(gs: seq<Group>, g: Group)
    ensures NamesOf(gs + [g]) == NamesOf(gs) + EntryNames(g.prefix, g.entries)
  {
    if gs == [] {
      assert [] + [g] == [g] && [g][1..] == [];
    } else {
      assert (gs + [g])[1..] == gs[1..] + [g];
      NamesOfSnoc(gs[1..], g);
    }
  }

  lemma SpellsAppend(a: seq<Name>, b: seq<Name>)
    ensures Spells(a + b) == Spells(a) + Spells(b)
  {
  }

  lemma TokenTrimmed(g: Group)
    requires PrintsBack(g)
    ensures IsToken(Token(g)) && Token(g) != [] && !IsSpace(Token(g)[0]) && !IsSpace(Token(g)[|Token(g)|-1])
  {
    ExpandGroup(g, Pad(g.entries));
    hide WellPrinted, Body;
    assert Token(g)[0] == if g.prefix == [] then '[' else g.prefix[0];
  }

  lemma {:induction false} TokensAt(gs: seq<Group>)
    ensures |Tokens(gs)| == |gs| && forall i | 0 <= i < |gs| :: Tokens(gs)[i] == Token(gs[i])
  {
    hide Token;
    if gs != [] { TokensAt(gs[..|gs|-1]); }
  }

  lemma TokensTrimmed(gs: seq<Group>)
    requires forall i | 0 <= i < |gs| :: PrintsBack(gs[i])
    ensures AreTokens(Tokens(gs)) && Trimmed(Tokens(gs))
  {
    TokensAt(gs);
    forall i | 0 <= i < |gs|
      ensures IsToken(Tokens(gs)[i]) && Tokens(gs)[i] != []
              && !IsSpace(Tokens(gs)[i][0]) && !IsSpace(Tokens(gs)[i][|Tokens(gs)[i]|-1])
    {
      TokenTrimmed(gs[i]);
    }
    hide IsToken, Token, IsSpace, PrintsBack;
  }

  lemma {:induction false} ExpandGroups(gs: seq<Group>)
    requires forall i | 0 <= i < |gs| :: PrintsBack(gs[i])
    ensures ExpandTokens(Tokens(gs)) == Spells(NamesOf(gs))
  {
    hide PrintsBack, ExpandToken, Token, EntryNames, Spells, NamesOf;
    if gs != [] {
      var front, g := gs[..|gs|-1], gs[|gs|-1];
      ExpandGroups(front);
      assert gs == front + [g];
      GroupExpands(g);
      NamesOfSnoc(front, g);
      SpellsAppend(NamesOf(front), EntryNames(g.prefix, g.entries));
      assert Tokens(gs)[..|front|] == Tokens(front) by { TokensAt(front); }
    } else {
      NoGroups();
    }
  }

  lemma GroupExpands(g: Group)
    requires PrintsBack(g)
    ensures ExpandToken(Token(g)) == Spells(EntryNames(g.prefix, g.entries))
  {
    ExpandGroup(g, Pad(g.entries));
  }

  ghost predicate NoEmptyGroup(gs: seq<Group>) {
    forall i | 0 <= i < |gs| :: gs[i].entries != []
  }

  lemma {:induction false} GroupNamesFull(names: seq<Name>)
    ensures NoEmptyGroup(GroupNames(names))
  {
    if names != [] {
      GroupNamesFull(names[..|names|-1]);
      PutNameFull(GroupNames(names[..|names|-1]), names[|names|-1]);
    }
  }

  lemma {:induction false} PutNameFull(gs: seq<Group>, n: Name)
    requires NoEmptyGroup(gs)
    ensures NoEmptyGroup(PutName(gs, n))
  {
    if gs != [] && gs[0].prefix != n.prefix {
      PutNameFull(gs[1..], n);
    }
  }

  lemma LayoutFull(names: seq<Name>)
    ensures NoEmptyGroup(Layout(names))
  {
    GroupNamesFull(names);
    Orders();
    var gs := GroupNames(names);
    var hs := Sort(GroupLe, gs);
    SortSorts(GroupLe, gs);
    SortEntriesAt(hs);
    forall i | 0 <= i < |hs| ensures Sort(EntryLe, hs[i].entries) != [] {
      var k := IndexIn(hs, i, gs);
      SortSorts(EntryLe, hs[i].entries);
    }
    hide Sort, GroupNames, SortEntries;
  }

  /** Every entry of every group is one of the names. */
  lemma {:induction false} EntryIsName(gs: seq<Group>, i: nat, j: nat)
    requires i < |gs| && j < |gs[i].entries|
    ensures Name(gs[i].prefix, gs[i].entries[j].num, gs[i].entries[j].suffix) in NamesOf(gs)
  {
    EntryNamesAt(gs[0].prefix, gs[0].entries);
    if i > 0 {
      EntryIsName(gs[1..], i - 1, j);
    } else {
      assert EntryNames(gs[0].prefix, gs[0].entries)[j] in NamesOf(gs);
    }
  }

  lemma EntryFrom(names: seq<Name>, i: nat, j: nat) returns (k: nat)
    requires DistinctNames(names) && i < |Layout(names)| && j < |Layout(names)[i].entries|
    ensures k < |names|
    ensures var g := Layout(names)[i];
            names[k] == Name(g.prefix, g.entries[j].num, g.entries[j].suffix)
  {
    EntryIsName(Layout(names), i, j);
    LayoutKeeps(names);
    SameMembers(NamesOf(Layout(names)), names);
    hide Layout, NamesOf;
    var g := Layout(names)[i];
    var n := Name(g.prefix, g.entries[j].num, g.entries[j].suffix);
    assert n in names;
    k :| 0 <= k < |names| && names[k] == n;
  }

  lemma GroupPrintsBack(names: seq<Name>, i: nat)
    requires DistinctNames(names) && AllProper(names) && EqualWidths(names) && i < |Layout(names)|
    ensures PrintsBack(Layout(names)[i])
  {
    LayoutFull(names);
    hide Layout;
    var g := Layout(names)[i];
    var first := EntryFrom(names, i, 0);
    assert Proper(names[first]);
    var width := |g.entries[0].suffix|;
    forall j | 0 <= j < |g.entries| ensures Written(g.entries[j], width) {
      var k := EntryFrom(names, i, j);
      assert Proper(names[k]) && names[k].prefix == names[first].prefix;
    }
    hide Proper, AllProper, EqualWidths, DistinctNames, Written;
    PadIsWidth(g.entries, width);
  }

  /** The node list printed for names of equal width expands to them, in printed order. */
  lemma LayoutPrintsBack(names: seq<Name>)
    requires DistinctNames(names) && AllProper(names) && EqualWidths(names)
    ensures ExpandNodelist(Join(Tokens(Layout(names)), ',')) == Spells(NamesOf(Layout(names)))
  {
    hide Layout, DistinctNames, AllProper, EqualWidths, PrintsBack;
    forall i | 0 <= i < |Layout(names)| ensures PrintsBack(Layout(names)[i]) {
      GroupPrintsBack(names, i);
    }
    ExpandGroups(Layout(names));
    TokensTrimmed(Layout(names));
    SplitPrinted(Tokens(Layout(names)));
  }

  // ---------------------------------------------------------------- from addresses

  lemma {:induction false} StripLeftFirst(s: string)
    ensures StripLeft(s) == [] || !IsSpace(StripLeft(s)[0])
  {
    if s != [] && IsSpace(s[0]) { StripLeftFirst(s[1..]); }
  }

  lemma {:induction false} StripRightFirst(s: string)
    ensures StripRight(s) == [] || (s != [] && StripRight(s)[0] == s[0])
  {
    if s != [] && IsSpace(s[|s|-1]) { StripRightFirst(s[..|s|-1]); }
  }

  lemma ShortFirst(addr: string)
    ensures Short(addr) == [] || !IsSpace(Short(addr)[0])
  {
    StripLeftFirst(Split(addr, '.')[0]);
    StripRightFirst(StripLeft(Split(addr, '.')[0]));
  }

  lemma FrontOf(a: string, b: string)
    requires Plain(a + b) && (a + b == [] || !IsSpace((a + b)[0]))
    ensures Plain(a) && (a == [] || !IsSpace(a[0]))
  {
    assert forall i | 0 <= i < |a| :: (a + b)[i] == a[i];
  }

  lemma ParsedIsProper(addr: string)
    requires Parse(Short(addr)).Some? && Plain(Short(addr))
    ensures Proper(NameOf(addr)) && Spell(NameOf(addr)) == Short(addr)
  {
    ParseSpells(Short(addr));
    ShortFirst(addr);
    var n := Parse(Short(addr)).value;
    assert NameOf(addr) == n;
    hide Short, Parse, NameOf, Value, Plain, IsSpace, AllDigits;
    FrontOf(n.prefix, n.suffix);
  }

  ghost predicate AllPlain(addrs: seq<string>) {
    forall i | 0 <= i < |addrs| :: Plain(Short(addrs[i]))
  }

  ghost predicate DistinctShort(addrs: seq<string>) {
    forall i, j | 0 <= i < j < |addrs| :: Short(addrs[i]) != Short(addrs[j])
  }

  /** Proper names of one width per prefix that are written differently have different keys. */
  lemma KeysDiffer(a: Name, b: Name)
    requires Proper(a) && Proper(b) && Spell(a) != Spell(b)
    requires a.prefix == b.prefix ==> |a.suffix| == |b.suffix|
    ensures !SameKey(a, b)
  {
    ZeroFillOwnWidth(a.suffix);
    ZeroFillOwnWidth(b.suffix);
    hide ZeroFill, Value, Digits, AllDigits, Plain;
  }

  lemma NamesFacts(addrs: seq<string>)
    requires AllParse(addrs) && AllPlain(addrs) && DistinctShort(addrs) && EqualWidths(NamesIn(addrs))
    ensures AllProper(NamesIn(addrs)) && DistinctNames(NamesIn(addrs))
  {
    var names := NamesIn(addrs);
    forall i | 0 <= i < |names| ensures Proper(names[i]) {
      ParsedIsProper(addrs[i]);
    }
    forall i, j | 0 <= i < j < |names| ensures !SameKey(names[i], names[j]) {
      ParsedIsProper(addrs[i]);
      ParsedIsProper(addrs[j]);
      assert Short(addrs[i]) != Short(addrs[j]);
      KeysDiffer(names[i], names[j]);
    }
    hide Proper, SameKey;
  }

  /** One more address that parses. */
  lemma PrintOneMore(front: seq<string>, last: string)
    requires Parse(Short(last)).Some?
    ensures var short := ShortNames(front) + [Short(last)];
            && ShortNames(front + [last]) == short
            && ParseAll(short) == ParseAll(ShortNames(front)) + [Parse(Short(last))]
  {
    EmptyAddr();
    hide Parse, Short;
    assert (front + [last])[..|front|] == front;
    var short := ShortNames(front) + [Short(last)];
    assert short[..|short|-1] == ShortNames(front);
  }

  lemma ValuesSnoc(parsed: seq<Option<Name>>, n: Name)
    requires None !in parsed
    ensures None !in parsed + [Some(n)] && Values(parsed + [Some(n)]) == Values(parsed) + [n]
  {
    assert (parsed + [Some(n)])[..|parsed|] == parsed;
  }

  lemma NamesInSnoc(front: seq<string>, last: string)
    ensures NamesIn(front + [last]) == NamesIn(front) + [NameOf(last)]
  {
    hide NameOf;
  }

  lemma NothingPrinted()
    ensures ParseAll(ShortNames([])) == [] && Values([]) == [] && NamesIn([]) == []
  {
  }

  lemma ParseLast(front: seq<string>, last: string)
    requires AllParse(front + [last])
    ensures AllParse(front) && Parse(Short(last)) == Some(NameOf(last))
  {
    assert (front + [last])[|front|] == last;
    assert forall i | 0 <= i < |front| :: (front + [last])[i] == front[i];
    hide Parse, Short;
  }

  lemma {:induction false} PrintedNames(addrs: seq<string>)
    requires AllParse(addrs)
    ensures None !in ParseAll(ShortNames(addrs)) && Values(ParseAll(ShortNames(addrs))) == NamesIn(addrs)
  {
    hide Values, ParseAll, ShortNames, NamesIn, AllParse, Parse, Short, NameOf;
    if addrs == [] {
      NothingPrinted();
    } else {
      var front, last := addrs[..|addrs|-1], addrs[|addrs|-1];
      assert addrs == front + [last];
      ParseLast(front, last);
      PrintedNames(front);
      PrintOneMore(front, last);
      ValuesSnoc(ParseAll(ShortNames(front)), NameOf(last));
      NamesInSnoc(front, last);
    }
  }

  lemma EmptyAddr()
    ensures Parse(Short("")).None?
  {
    assert Split("", '.') == [[]];
  }

  function Shorts(addrs: seq<string>): (r: seq<string>)
    ensures |r| == |addrs| && forall i | 0 <= i < |addrs| :: r[i] == Short(addrs[i])
  {
    if addrs == [] then [] else [Short(addrs[0])] + Shorts(addrs[1..])
  }

  /** For distinct short names with numeric suffixes of one width per prefix, the watcher's expansion of the printed
      node list is the order of slurm_sort_addrs. */
  lemma NodeListMatchesSort(addrs: seq<string>)
    requires AllParse(addrs) && AllPlain(addrs) && DistinctShort(addrs) && EqualWidths(NamesIn(addrs))
    ensures ExpandNodelist(NodeListText(addrs)) == Shorts(SlurmSortAddrs(addrs))
  {
    NamesFacts(addrs);
    PrintedNames(addrs);
    var names := NamesIn(addrs);
    LayoutPrintsBack(names);
    SortMatchesLayout(addrs);
    SortedSpells(addrs);
    hide Layout, ExpandNodelist, SlurmSortAddrs, NamesIn, Join, Tokens, Values, ParseAll, ShortNames;
  }

  // ---------------------------------------------------------------- names without a number

  /** The short name is what stands before the first '.', without the white space around it. */
  lemma ShortMeans(addr: string) returns (head: string, rest: string, pre: string, post: string)
    ensures addr == head + rest && '.' !in head && (rest == [] || rest[0] == '.')
    ensures Around(head, pre, Short(addr), post)
  {
    head, rest := FirstPart(addr, '.');
    pre, post := StripMeans(head);
  }

  lemma {:induction false} FirstPart(s: string, sep: char) returns (head: string, rest: string)
    ensures s == head + rest && sep !in head && (rest == [] || rest[0] == sep)
    ensures Split(s, sep)[0] == head
  {
    if s == [] {
      head, rest := [], [];
    } else {
      var front, last := s[..|s|-1], s[|s|-1];
      head, rest := FirstPart(front, sep);
      assert s == front + [last];
      SplitHead(front, last, sep);
      if rest != [] {
        rest := rest + [last];
        assert Split(s, sep)[0] == head by { LongerSplit(front, sep, head, rest[..|rest|-1]); }
      } else if last == sep {
        rest := [last];
      } else {
        OnePiece(front, sep);
        head := head + [last];
      }
    }
  }

  lemma SplitHead(front: string, last: char, sep: char)
    ensures Split(front + [last], sep)
            == if last == sep then Split(front, sep) + [[]]
               else Split(front, sep)[..|Split(front, sep)|-1] + [Split(front, sep)[|Split(front, sep)|-1] + [last]]
  {
    assert (front + [last])[..|front|] == front;
  }

  lemma OnePiece(s: string, sep: char)
    requires sep !in s
    ensures Split(s, sep) == [s]
  {
    SplitWhole(s, sep);
  }

  /** A text that holds the separator has more than one part. */
  lemma {:induction false} LongerSplit(s: string, sep: char, head: string, rest: string)
    requires s == head + rest && rest != [] && rest[0] == sep
    ensures |Split(s, sep)| > 1
  {
    var front, last := s[..|s|-1], s[|s|-1];
    assert s == front + [last];
    SplitHead(front, last, sep);
    if |rest| > 1 {
      assert front == head + rest[..|rest|-1];
      LongerSplit(front, sep, head, rest[..|rest|-1]);
    }
  }

  lemma {:induction false} ShortNamesMean(addrs: seq<string>)
    ensures forall n :: n in ShortNames(addrs) <==> exists a :: a in addrs && a != [] && Short(a) == n
  {
    hide Short;
    if addrs != [] {
      assert addrs == addrs[..|addrs|-1] + [addrs[|addrs|-1]];
      ShortNamesMean(addrs[..|addrs|-1]);
    }
  }

  lemma {:induction false} DedupMeans(names: seq<string>)
    ensures NoRepeat(Dedup(names)) && forall n :: n in Dedup(names) <==> n in names
  {
    if names != [] {
      assert names == names[..|names|-1] + [names[|names|-1]];
      DedupMeans(names[..|names|-1]);
    }
  }

  lemma StringOrder()
    ensures TotalPreorder(StringLe)
  {
    forall a: string, b: string ensures StringLe(a, b) || StringLe(b, a) { StringLeTotal(a, b); }
    forall a: string, b: string, c: string | StringLe(a, b) && StringLe(b, c) ensures StringLe(a, c) {
      StringLeTransitive(a, b, c);
    }
  }

  /** When a name has no number, the node list is all short names in string order, each once. */
  lemma UnparsedListed(addrs: seq<string>)
    requires None in ParseAll(ShortNames(addrs)) && Free(ShortNames(addrs), ',')
    ensures var listed := Split(NodeListText(addrs), ',');
            && Sorted(StringLe, listed) && NoRepeat(listed)
            && forall n :: n in listed <==> exists a :: a in addrs && a != [] && Short(a) == n
  {
    hide Split, Join, Short, Parse, Sort, Dedup, ShortNames;
    var names := ShortNames(addrs);
    ShortNamesMean(addrs);
    DedupMeans(names);
    StringOrder();
    SortSorts(StringLe, Dedup(names));
    NoRepeatPermutation(Dedup(names), Sort(StringLe, Dedup(names)));
    SameMembers(Sort(StringLe, Dedup(names)), Dedup(names));
    SomeName(names);
    var listed := Sort(StringLe, Dedup(names));
    forall i | 0 <= i < |listed| ensures ',' !in listed[i] {
      assert listed[i] in listed;
    }
    JoinRoundTrip(listed, ',');
  }

  lemma SomeName(names: seq<string>)
    requires None in ParseAll(names)
    ensures Sort(StringLe, Dedup(names)) != []
  {
    assert names != [];
    DedupMeans(names);
    assert names[0] in Dedup(names);
    StringOrder();
    hide Dedup, Parse, Sort;
    SortSorts(StringLe, Dedup(names));
  }

  /** Where a name has no number the printed list and the sort may disagree: of "z1" and "b" the list has b first, the
      sort z1. */
  lemma UnparsedDisagree()
    ensures NodeListText(["z1", "b"]) == "b,z1" && SlurmSortAddrs(["z1", "b"]) == ["z1", "b"]
  {
    hide Parse, Short, NodeListText, SlurmSortAddrs, AddrLe;
    PlainShort("z1");
    PlainShort("b");
    ShortNamesTwo("z1", "b");
    NumberedFirst();
    SortTwo("z1", "b");
    TwoListed();
  }

  lemma NumberedFirst()
    requires Short("z1") == "z1" && Short("b") == "b"
    ensures Parse("b").None? && AddrLe("z1", "b")
  {
    hide Short;
    assert "z1"[..1] == "z";
    assert TrailingDigits("z") == "" && TrailingDigits("b") == "";
    assert TrailingDigits("z1") == "1";
  }

  lemma SortTwo(a: string, b: string)
    requires AddrLe(a, b)
    ensures SlurmSortAddrs([a, b]) == [a, b]
  {
    hide AddrLe;
    assert [a, b][1..] == [b] && [b][1..] == [];
    assert Sort(AddrLe, [b]) == [b];
  }

  lemma PlainShort(name: string)
    requires '.' !in name && name != [] && !IsSpace(name[0]) && !IsSpace(name[|name|-1])
    ensures Short(name) == name
  {
    SplitWhole(name, '.');
  }

  lemma ShortNamesTwo(a: string, b: string)
    requires a != [] && b != []
    ensures ShortNames([a, b]) == [Short(a), Short(b)]
  {
    hide Short;
    assert [a, b][..1] == [a] && [a][..0] == [];
    assert ShortNames([a]) == [Short(a)];
  }

  lemma TwoListed()
    requires ShortNames(["z1", "b"]) == ["z1", "b"] && Parse("b").None?
    ensures NodeListText(["z1", "b"]) == "b,z1"
  {
    hide Parse, ShortNames, StringLe, Join;
    var names := ["z1", "b"];
    assert names[..1] == ["z1"] && ["z1"][..0] == [];
    assert ParseAll(names)[1] == None by { assert ParseAll(["z1"]) == [Parse("z1")]; }
    DedupTwo("z1", "b");
    BeforeZ();
    SortDown("z1", "b");
    JoinTwo("b", "z1");
  }

  lemma BeforeZ()
    ensures !StringLe("z1", "b")
  {
  }

  lemma DedupTwo(a: string, b: string)
    requires a != b
    ensures Dedup([a, b]) == [a, b]
  {
    assert [a, b][..1] == [a] && [a][..0] == [];
    assert Dedup([a]) == [a];
  }

  lemma SortDown(a: string, b: string)
    requires !StringLe(a, b)
    ensures Sort(StringLe, [a, b]) == [b, a]
  {
    hide StringLe;
    assert [a, b][1..] == [b] && [b][1..] == [];
    assert Sort(StringLe, [b]) == [b];
    assert Insert(StringLe, a, [b]) == [b, a] by { assert Insert(StringLe, a, [b][1..]) == [a]; }
  }

  lemma JoinTwo(a: string, b: string)
    ensures Join([a, b], ',') == a + "," + b
  {
    assert [a, b][..1] == [a];
    assert Join([a], ',') == a;
  }

  lemma SortedSpells(addrs: seq<string>)
    requires AllParse(addrs) && AllPlain(addrs)
    ensures Spells(NamesIn(SlurmSortAddrs(addrs))) == Shorts(SlurmSortAddrs(addrs))
  {
    AddrOrder();
    SortSorts(AddrLe, addrs);
    hide Sort, Parse, Short, NameOf, Spell, AddrLe;
    var sorted := SlurmSortAddrs(addrs);
    forall i | 0 <= i < |sorted| ensures Spell(NameOf(sorted[i])) == Short(sorted[i]) {
      var k := IndexIn(sorted, i, addrs);
      ParsedIsProper(addrs[k]);
    }
  }

  // ---------------------------------------------------------------- the rank list of a cycle

  /** dict(zip(addrs, ranks)) */
  function ZipMap(addrs: seq<string>, ranks: seq<int>): (m: map<string, int>)
    requires |addrs| == |ranks|
    ensures forall a :: a in m <==> a in addrs
  {
    if addrs == [] then map[]
    else
      var m := ZipMap(addrs[..|addrs|-1], ranks[..|ranks|-1]);
      assert addrs == addrs[..|addrs|-1] + [addrs[|addrs|-1]];
      m[addrs[|addrs|-1] := ranks[|ranks|-1]]
  }

  function RanksOf(m: map<string, int>, addrs: seq<string>): (r: seq<int>)
    requires forall i | 0 <= i < |addrs| :: addrs[i] in m
    ensures |r| == |addrs| && forall i | 0 <= i < |addrs| :: r[i] == m[addrs[i]]
  {
    if addrs == [] then [] else [m[addrs[0]]] + RanksOf(m, addrs[1..])
  }

  lemma SortedMembers(addrs: seq<string>)
    ensures |SlurmSortAddrs(addrs)| == |addrs| && forall a :: a in SlurmSortAddrs(addrs) <==> a in addrs
  {
    AddrOrder();
    SortSorts(AddrLe, addrs);
    SameMembers(SlurmSortAddrs(addrs), addrs);
  }

  /** `_format_active_ranks`: ranks follow the node order when both lists are given and match in length. */
  function FormatActiveRanks(addrs: Option<seq<string>>, ranks: Option<seq<int>>): string {
    if ranks.None? then ""
    else
      var nodes := if addrs.Some? then addrs.value else [];
      if nodes != [] && |nodes| == |ranks.value| then
        SortedMembers(nodes);
        RankText(RanksOf(ZipMap(nodes, ranks.value), SlurmSortAddrs(nodes)))
      else RankText(ranks.value)
  }

  lemma {:induction false} ZipMapAt(addrs: seq<string>, ranks: seq<int>, j: nat)
    requires |addrs| == |ranks| && DistinctShort(addrs) && j < |addrs|
    ensures ZipMap(addrs, ranks)[addrs[j]] == ranks[j]
  {
    var front := addrs[..|addrs|-1];
    if j < |addrs| - 1 {
      assert Short(addrs[j]) != Short(addrs[|addrs|-1]);
      ZipMapAt(front, ranks[..|ranks|-1], j);
    }
  }

  /** The ranks in printed order, read back. */
  lemma FormattedRanks(addrs: seq<string>, ranks: seq<int>)
    requires addrs != [] && |ranks| == |addrs| && DistinctShort(addrs) && forall k | 0 <= k < |ranks| :: ranks[k] >= 0
    requires forall k | 0 <= k < |SlurmSortAddrs(addrs)| :: SlurmSortAddrs(addrs)[k] in addrs
    ensures ReadRanges(FormatActiveRanks(Some(addrs), Some(ranks))) == RanksOf(ZipMap(addrs, ranks), SlurmSortAddrs(addrs))
  {
    var sorted := SlurmSortAddrs(addrs);
    var ordered := RanksOf(ZipMap(addrs, ranks), sorted);
    assert FormatActiveRanks(Some(addrs), Some(ranks)) == RankText(ordered);
    hide RankText, ZipMap, RanksOf, SlurmSortAddrs, Short, ReadRanges, FormatActiveRanks;
    forall k | 0 <= k < |ordered| ensures ordered[k] >= 0 {
      var l := IndexOf(addrs, sorted[k]);
      ZipMapAt(addrs, ranks, l);
    }
    RankTextRoundTrip(ordered);
  }

  /** Element i of the expanded node list and element i of the expanded rank list belong to one node. */
  lemma NodesAndRanksLineUp(addrs: seq<string>, ranks: seq<int>, i: nat) returns (j: nat)
    requires AllParse(addrs) && AllPlain(addrs) && DistinctShort(addrs) && EqualWidths(NamesIn(addrs))
    requires |ranks| == |addrs| && i < |addrs| && forall k | 0 <= k < |ranks| :: ranks[k] >= 0
    ensures j < |addrs|
    ensures var nodes, printed := ExpandNodelist(NodeListText(addrs)), ReadRanges(FormatActiveRanks(Some(addrs), Some(ranks)));
            |nodes| == |printed| == |addrs| && nodes[i] == Short(addrs[j]) && printed[i] == ranks[j]
  {
    hide SlurmSortAddrs, ExpandNodelist, NodeListText, NamesIn, AllParse, AllPlain, EqualWidths, DistinctShort, Short,
         ReadRanges, FormatActiveRanks, ZipMap, RanksOf;
    NodeListMatchesSort(addrs);
    SortedMembers(addrs);
    FormattedRanks(addrs, ranks);
    j := IndexOf(addrs, SlurmSortAddrs(addrs)[i]);
    ZipMapAt(addrs, ranks, j);
  }

  lemma IndexOf(addrs: seq<string>, a: string) returns (j: nat)
    requires a in addrs
    ensures j < |addrs| && addrs[j] == a
  {
    j :| 0 <= j < |addrs| && addrs[j] == a;
  }
}
