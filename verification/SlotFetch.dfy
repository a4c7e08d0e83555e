/** Fetching the slot keys of a round: the hole search of `_present_slot_keys` and the two paths of
    `get_all_participants`. */
module SlotFetch {
  import opened Prelude
  import B = Barrier
  import F = BarrierFetch

  // ---------------------------------------------------------------- the hole search

  /** store.check(list): true only if every key exists. */
  predicate Check<K>(store: set<K>, keys: seq<K>) {
    forall k | k in keys :: k in store
  }

  /** Store contents over time: keys are added, never deleted. */
  ghost predicate Growing<K>(history: seq<set<K>>) {
    history != [] && forall i, j | 0 <= i <= j < |history| :: history[i] <= history[j]
  }

  /** Keys missing from a store. */
  function Holes<K>(keys: seq<K>, store: set<K>): (h: nat)
    ensures h == 0 <==> Check(store, keys)
  {
    if keys == [] then 0
    else (if keys[|keys|-1] in store then 0 else 1) + Holes(keys[..|keys|-1], store)
  }

  lemma {:induction false} HolesAppend<K>(a: seq<K>, b: seq<K>, store: set<K>)
    ensures Holes(a + b, store) == Holes(a, store) + Holes(b, store)
  {
    if b == [] {
      assert a + b == a;
    } else {
      assert (a + b)[..|a + b|-1] == a + b[..|b|-1];
      HolesAppend(a, b[..|b|-1], store);
    }
  }

  /** The number of halvings that take n down to 1. */
  function Halvings(n: nat): nat {
    if n <= 1 then 0 else 1 + Halvings((n + 1) / 2)
  }

  function Pow2(n: nat): nat {
    if n == 0 then 1 else 2 * Pow2(n - 1)
  }

  /** Halvings(n) is the logarithm of n to base 2, rounded up. */
  lemma {:induction false} HalvingsIsLog(n: nat)
    ensures n <= Pow2(Halvings(n))
    ensures n > 1 ==> Pow2(Halvings(n) - 1) < n
  {
    if n > 1 {
      HalvingsIsLog((n + 1) / 2);
      if (n + 1) / 2 > 1 {
        assert Pow2(Halvings(n) - 1) == 2 * Pow2(Halvings((n + 1) / 2) - 1);
      }
    }
  }

  lemma {:induction false} HalvingsMonotone(m: nat, n: nat)
    requires m <= n
    ensures Halvings(m) <= Halvings(n)
  {
    if m > 1 {
      HalvingsMonotone((m + 1) / 2, (n + 1) / 2);
    }
  }

  /** Checks a search of n keys with h holes may need. */
  function Budget(n: nat, h: nat): nat {
    1 + 2 * h * Halvings(n)
  }

  /** A failed check of n > 1 keys leaves enough budget for the two halves. */
  lemma BudgetSplits(n: nat, low: nat, high: nat)
    requires n > 1 && low + high >= 1
    ensures 1 + Budget(n / 2, low) + Budget(n - n / 2, high) <= Budget(n, low + high)
  {
    var l := Halvings(n) - 1;
    assert n - n / 2 == (n + 1) / 2;
    HalvingsMonotone(n / 2, (n + 1) / 2);
    Times(low, Halvings(n / 2), l);
    assert 2 * (low + high) * Halvings(n) == 2 * low * l + 2 * high * l + 2 * (low + high);
  }

  lemma Times(a: nat, b: nat, c: nat)
    requires b <= c
    ensures 2 * a * b <= 2 * a * c
  {
  }

  ghost predicate InRange<K>(keys: seq<K>, ranges: seq<(nat, nat)>) {
    forall r | r in ranges :: r.0 <= r.1 <= |keys|
  }

  /** The keys still to resolve. */
  ghost function Pending<K>(keys: seq<K>, ranges: seq<(nat, nat)>): multiset<K>
    requires InRange(keys, ranges)
  {
    if ranges == [] then multiset{}
    else
      var (lo, hi) := ranges[|ranges|-1];
      Pending(keys, ranges[..|ranges|-1]) + multiset(keys[lo..hi])
  }

  /** The checks still to pay for. */
  ghost function Cost<K>(keys: seq<K>, ranges: seq<(nat, nat)>, store: set<K>): nat
    requires InRange(keys, ranges)
  {
    if ranges == [] then 0
    else
      var (lo, hi) := ranges[|ranges|-1];
      Cost(keys, ranges[..|ranges|-1], store) + if lo == hi then 0 else Budget(hi - lo, Holes(keys[lo..hi], store))
  }

  ghost function Work(ranges: seq<(nat, nat)>): nat {
    if ranges == [] then 0
    else
      var (lo, hi) := ranges[|ranges|-1];
      Work(ranges[..|ranges|-1]) + if lo >= hi then 1 else 2 * (hi - lo) - 1
  }

  lemma PushRange<K>(keys: seq<K>, rest: seq<(nat, nat)>, lo: nat, hi: nat, store: set<K>)
    requires InRange(keys, rest) && lo < hi <= |keys|
    ensures var pushed := rest + [(lo, hi)];
            && InRange(keys, pushed)
            && Pending(keys, pushed) == Pending(keys, rest) + multiset(keys[lo..hi])
            && Cost(keys, pushed, store) == Cost(keys, rest, store) + Budget(hi - lo, Holes(keys[lo..hi], store))
            && Work(pushed) == Work(rest) + 2 * (hi - lo) - 1
  {
    hide Budget, Holes;
    var pushed := rest + [(lo, hi)];
    assert pushed[..|pushed|-1] == rest && pushed[|pushed|-1] == (lo, hi);
  }

  lemma SplitBudget<K>(keys: seq<K>, lo: nat, mid: nat, hi: nat, store: set<K>)
    requires lo + 1 < hi <= |keys| && !Check(store, keys[lo..hi]) && mid == (lo + hi) / 2
    ensures multiset(keys[lo..hi]) == multiset(keys[lo..mid]) + multiset(keys[mid..hi])
    ensures 1 + Budget(mid - lo, Holes(keys[lo..mid], store)) + Budget(hi - mid, Holes(keys[mid..hi], store))
            <= Budget(hi - lo, Holes(keys[lo..hi], store))
  {
    hide Budget, Check;
    assert keys[lo..hi] == keys[lo..mid] + keys[mid..hi];
    HolesAppend(keys[lo..mid], keys[mid..hi], store);
    BudgetSplits(hi - lo, Holes(keys[lo..mid], store), Holes(keys[mid..hi], store));
  }

  /** Where a search stands: every key is found, given up, or pending, and the budget covers what is pending. */
  ghost predicate Searching<K>(keys: seq<K>, history: seq<set<K>>, ranges: seq<(nat, nat)>, present: seq<K>,
                               absent: seq<K>, checks: nat)
    requires history != []
  {
    && InRange(keys, ranges)
    && multiset(present) + multiset(absent) + Pending(keys, ranges) == multiset(keys)
    && (forall k | k in absent :: k !in history[0])
    && (forall k | k in present :: k in View(history, checks))
    && (keys != [] ==> checks + Cost(keys, ranges, history[0]) <= Budget(|keys|, Holes(keys, history[0])))
  }

  lemma StartSearch<K>(keys: seq<K>, history: seq<set<K>>)
    requires history != []
    ensures Searching(keys, history, [(0, |keys|)], [], [], 0)
  {
    hide Budget, Holes;
    var all: seq<(nat, nat)> := [(0, |keys|)];
    PopRange(keys, all, history[0]);
    assert all[..|all|-1] == [] && keys[0..|keys|] == keys;
    var none: seq<K> := [];
    assert multiset(none) + multiset(none) + (multiset{} + multiset(keys)) == multiset(keys);
  }

  lemma PopRange<K>(keys: seq<K>, ranges: seq<(nat, nat)>, store: set<K>)
    requires InRange(keys, ranges) && ranges != []
    ensures var (lo, hi) := ranges[|ranges|-1];
            var rest := ranges[..|ranges|-1];
            && InRange(keys, rest)
            && Pending(keys, ranges) == Pending(keys, rest) + multiset(keys[lo..hi])
            && Cost(keys, ranges, store)
               == Cost(keys, rest, store) + if lo == hi then 0 else Budget(hi - lo, Holes(keys[lo..hi], store))
  {
    hide Budget, Holes;
  }

  lemma Regroup<K>(p: multiset<K>, a: multiset<K>, r: multiset<K>, f: multiset<K>, l: multiset<K>)
    ensures (p + f) + (a + l) + r == p + a + (r + (f + l))
  {
  }

  lemma AppendCounts<K>(a: seq<K>, b: seq<K>)
    ensures multiset(a + b) == multiset(a) + multiset(b)
  {
  }

  lemma JoinHolds<K>(a: seq<K>, b: seq<K>, s: set<K>, inside: bool)
    requires forall k | k in a :: (k in s) == inside
    requires forall k | k in b :: (k in s) == inside
    ensures forall k | k in a + b :: (k in s) == inside
  {
  }

  /** The range on top of the stack is settled by one check, or needs none. */
  lemma Settle<K>(keys: seq<K>, history: seq<set<K>>, ranges: seq<(nat, nat)>, present: seq<K>, absent: seq<K>,
                  checks: nat, found: seq<K>, lost: seq<K>)
    requires Growing(history) && ranges != [] && Searching(keys, history, ranges, present, absent, checks)
    requires var (lo, hi) := ranges[|ranges|-1]; found + lost == keys[lo..hi]
    requires forall k | k in lost :: k !in history[0]
    requires forall k | k in found :: k in View(history, checks)
    ensures var (lo, hi) := ranges[|ranges|-1];
            Searching(keys, history, ranges[..|ranges|-1], present + found, absent + lost,
                      checks + if lo == hi then 0 else 1)
  {
    hide Budget, Holes, Pending, Cost, View;
    var (lo, hi) := ranges[|ranges|-1];
    PopRange(keys, ranges, history[0]);
    Affordable(hi - lo, Holes(keys[lo..hi], history[0]));
    ViewGrows(history, checks);
    SettledCounts(present, absent, Pending(keys, ranges[..|ranges|-1]), found, lost);
    JoinHolds(present, found, View(history, checks), true);
    JoinHolds(absent, lost, history[0], false);
  }

  lemma SettledCounts<K>(present: seq<K>, absent: seq<K>, rest: multiset<K>, found: seq<K>, lost: seq<K>)
    ensures multiset(present + found) + multiset(absent + lost) + rest
         == multiset(present) + multiset(absent) + (rest + multiset(found + lost))
  {
    AppendCounts(found, lost);
    AppendCounts(present, found);
    AppendCounts(absent, lost);
    Regroup(multiset(present), multiset(absent), rest, multiset(found), multiset(lost));
  }

  lemma ViewGrows<K>(history: seq<set<K>>, n: nat)
    requires Growing(history)
    ensures history[0] <= View(history, n) <= View(history, n + 1)
  {
  }

  lemma Affordable(n: nat, h: nat)
    ensures 1 <= Budget(n, h)
  {
  }

  lemma SplitRange<K>(keys: seq<K>, rest: seq<(nat, nat)>, lo: nat, mid: nat, hi: nat, store: set<K>)
    requires InRange(keys, rest) && lo + 1 < hi <= |keys| && !Check(store, keys[lo..hi]) && mid == (lo + hi) / 2
    ensures var split := rest + [(lo, mid)] + [(mid, hi)];
            && InRange(keys, split)
            && Pending(keys, split) == Pending(keys, rest) + multiset(keys[lo..hi])
            && 1 + Cost(keys, split, store) <= Cost(keys, rest, store) + Budget(hi - lo, Holes(keys[lo..hi], store))
            && Work(split) + 1 == Work(rest) + 2 * (hi - lo) - 1
  {
    var half := rest + [(lo, mid)];
    SplitBudget(keys, lo, mid, hi, store);
    PushRange(keys, rest, lo, mid, store);
    PushRange(keys, half, mid, hi, store);
    hide Budget, Holes, Check, Pending, Cost, Work, InRange;
    Associative(Pending(keys, rest), multiset(keys[lo..mid]), multiset(keys[mid..hi]));
  }

  /** A failed check of several keys splits the range on top. */
  lemma Divide<K>(keys: seq<K>, history: seq<set<K>>, ranges: seq<(nat, nat)>, present: seq<K>, absent: seq<K>,
                  checks: nat, lo: nat, mid: nat, hi: nat)
    requires Growing(history) && ranges != [] && Searching(keys, history, ranges, present, absent, checks)
    requires ranges[|ranges|-1] == (lo, hi) && lo + 1 < hi <= |keys| && !Check(history[0], keys[lo..hi])
    requires mid == (lo + hi) / 2
    ensures var split := ranges[..|ranges|-1] + [(lo, mid)] + [(mid, hi)];
            Searching(keys, history, split, present, absent, checks + 1) && Work(split) < Work(ranges)
  {
    hide View, Budget, Holes, Check, Pending, Cost, Work;
    PopRange(keys, ranges, history[0]);
    SplitRange(keys, ranges[..|ranges|-1], lo, mid, hi, history[0]);
    WorkTop(ranges);
    ViewGrows(history, checks);
  }

  lemma WorkTop(ranges: seq<(nat, nat)>)
    requires ranges != [] && ranges[|ranges|-1].0 < ranges[|ranges|-1].1
    ensures Work(ranges) == Work(ranges[..|ranges|-1]) + 2 * (ranges[|ranges|-1].1 - ranges[|ranges|-1].0) - 1
  {
  }

  lemma Associative<K>(a: multiset<K>, b: multiset<K>, c: multiset<K>)
    ensures (a + b) + c == a + (b + c)
  {
  }

  /** The search finds every key that exists throughout, reports only keys that exist when it ends, repeats none, and
      needs at most 1 + 2 * holes * ceil(log2 n) checks, even while other processes add keys. */
  method PresentSlotKeys<K(==)>(keys: seq<K>, history: seq<set<K>>) returns (present: seq<K>, checks: nat)
    requires Growing(history)
    ensures multiset(present) <= multiset(keys)
    ensures forall k | k in history[0] :: multiset(present)[k] == multiset(keys)[k]
    ensures forall k | k in present :: k in View(history, checks)
    ensures keys != [] ==> checks <= Budget(|keys|, Holes(keys, history[0]))
  {
    hide Budget, Holes, Searching;
    present, checks := [], 0;
    ghost var absent: seq<K> := [];
    var ranges: seq<(nat, nat)> := [(0, |keys|)];
    StartSearch(keys, history);
    while ranges != []
      invariant InRange(keys, ranges)
      invariant Searching(keys, history, ranges, present, absent, checks)
      decreases Work(ranges)
    {
      var (lo, hi) := ranges[|ranges| - 1];
      ghost var before := ranges;
      ranges := ranges[..|ranges| - 1];
      if lo >= hi {
        Settle(keys, history, before, present, absent, checks, [], []);
        assert present + [] == present && absent + [] == absent;
        continue;
      }
      var segment := keys[lo..hi];
      var store := View(history, checks);
      ViewGrows(history, checks);
      if Check(store, segment) {
        Settle(keys, history, before, present, absent, checks, segment, []);
        assert absent + [] == absent;
        present := present + segment;
      } else if hi - lo == 1 {
        assert segment == [keys[lo]];
        Settle(keys, history, before, present, absent, checks, [], segment);
        assert present + [] == present;
        absent := absent + segment;
      } else {
        var mid: nat := (lo + hi) / 2;
        Divide(keys, history, before, present, absent, checks, lo, mid, hi);
        ranges := ranges + [(lo, mid)];
        ranges := ranges + [(mid, hi)];
      }
      checks := checks + 1;
    }
    Finished(keys, history, present, absent, checks);
  }

  lemma Finished<K>(keys: seq<K>, history: seq<set<K>>, present: seq<K>, absent: seq<K>, checks: nat)
    requires history != [] && Searching(keys, history, [], present, absent, checks)
    ensures multiset(present) <= multiset(keys)
    ensures forall k | k in history[0] :: multiset(present)[k] == multiset(keys)[k]
    ensures forall k | k in present :: k in View(history, checks)
    ensures keys != [] ==> checks <= Budget(|keys|, Holes(keys, history[0]))
  {
    hide Budget, Holes;
    forall k | k in history[0] ensures multiset(present)[k] == multiset(keys)[k] {
      assert k !in absent;
      assert multiset(absent)[k] == 0;
    }
  }

  // ---------------------------------------------------------------- the snapshot

  /** A raw slot value: empty, not decodable, or packed participant data. */
  datatype Raw = Blank | Malformed | Packed(round: nat, who: Participant)

  datatype FetchError = StartBelowOne

  /** A raw value as seen by a fetch for one round: blank, malformed and wrong-round values are None. */
  function Unpack(raw: Option<Raw>, round: Option<nat>): Option<Participant> {
    if raw.Some? && raw.value.Packed? && (round.None? || raw.value.round == round.value) then Some(raw.value.who) else None
  }

  /** Slot k holds w's data, packed for the round asked for, if one is asked for. */
  ghost predicate Holding(store: map<nat, Raw>, k: nat, round: Option<nat>, w: Participant) {
    k in store && store[k].Packed? && store[k].who == w && (round == None || round == Some(store[k].round))
  }

  /** d is the participant slot k holds, or None when it holds none for that round. */
  ghost predicate Reports(store: map<nat, Raw>, k: nat, round: Option<nat>, d: Option<Participant>) {
    forall w :: d == Some(w) <==> Holding(store, k, round, w)
  }

  lemma UnpackReports(store: map<nat, Raw>, k: nat, round: Option<nat>)
    ensures Reports(store, k, round, Unpack(Lookup(store, k), round))
  {
  }

  lemma OneReport(store: map<nat, Raw>, k: nat, round: Option<nat>, d: Option<Participant>, e: Option<Participant>)
    requires Reports(store, k, round, d) && Reports(store, k, round, e)
    ensures d == e
  {
    if d.Some? { assert Holding(store, k, round, d.value); }
    if e.Some? { assert Holding(store, k, round, e.value); }
  }

  /** Slots from, ..., from + count - 1, each read on its own. */
  function ReadSlots(store: map<nat, Raw>, from: nat, count: nat, round: Option<nat>): (r: seq<Option<Participant>>)
    ensures |r| == count
  {
    if count == 0 then []
    else ReadSlots(store, from, count - 1, round) + [Unpack(Lookup(store, from + count - 1), round)]
  }

  /** The store as the operations of a fetch meet it: other processes add slot keys and overwrite their values. */
  ghost predicate Moving(stores: seq<map<nat, Raw>>) {
    forall i, j | 0 <= i <= j < |stores| :: stores[i].Keys <= stores[j].Keys
  }

  /** d is what k held, or that it was absent, at some moment. */
  ghost predicate Seen(stores: seq<map<nat, Raw>>, k: nat, d: Option<Raw>) {
    exists t: nat :: t < |stores| && d == Lookup(stores[t], k)
  }

  function KeySets(stores: seq<map<nat, Raw>>): (history: seq<set<nat>>)
    ensures |history| == |stores| && forall t | 0 <= t < |stores| :: history[t] == stores[t].Keys
  {
    if stores == [] then [] else KeySets(stores[..|stores|-1]) + [stores[|stores|-1].Keys]
  }

  /** The store from the n-th operation on. */
  function Later(stores: seq<map<nat, Raw>>, n: nat): seq<map<nat, Raw>>
    requires stores != []
  {
    stores[if n < |stores| then n else |stores| - 1..]
  }

  lemma LaterViews(stores: seq<map<nat, Raw>>, n: nat, m: nat)
    requires stores != [] && Moving(stores)
    ensures Later(stores, n) != [] && Growing(KeySets(Later(stores, n)))
    ensures View(KeySets(Later(stores, n)), m) == View(stores, n + m).Keys
    ensures Later(stores, n)[0] == View(stores, n)
  {
  }

  lemma ViewsGrow(stores: seq<map<nat, Raw>>, m: nat, n: nat)
    requires stores != [] && Moving(stores) && m <= n
    ensures View(stores, m).Keys <= View(stores, n).Keys
  {
  }

  lemma SeenInView(stores: seq<map<nat, Raw>>, n: nat, k: nat)
    requires stores != []
    ensures Seen(stores, k, Lookup(View(stores, n), k))
  {
    var t := if n < |stores| then n else |stores| - 1;
    assert View(stores, n) == stores[t];
  }

  /** One check and one multi_get, or the hole search and a multi_get of the keys it found. Every key is answered by
      what it held at some moment of the fetch. */
  method FetchRaw(stores: seq<map<nat, Raw>>, keys: seq<nat>) returns (data: seq<Option<Raw>>)
    requires stores != [] && Moving(stores)
    ensures |data| == |keys| && forall i | 0 <= i < |keys| :: Seen(stores, keys[i], data[i])
  {
    hide Seen, View, Moving, Later;
    if Check(View(stores, 0).Keys, keys) {
      ViewsGrow(stores, 0, 1);
      data := MultiGet(stores, 1, keys);
    } else {
      data := FetchFound(stores, keys);
    }
  }

  /** store.multi_get of existing keys, one after the other from the n-th operation on. */
  method MultiGet(stores: seq<map<nat, Raw>>, n: nat, keys: seq<nat>) returns (data: seq<Option<Raw>>)
    requires stores != [] && Moving(stores) && forall k | k in keys :: k in View(stores, n)
    ensures |data| == |keys|
    ensures forall i | 0 <= i < |keys| :: data[i].Some? && Seen(stores, keys[i], data[i])
  {
    hide Seen, View, Moving;
    data := [];
    for i := 0 to |keys|
      invariant |data| == i && forall j | 0 <= j < i :: data[j].Some? && Seen(stores, keys[j], data[j])
    {
      var store := View(stores, n + i);
      ViewsGrow(stores, n, n + i);
      SeenInView(stores, n + i, keys[i]);
      data := data + [Some(store[keys[i]])];
    }
  }

  /** The values found, under their keys. */
  method ByKey(stores: seq<map<nat, Raw>>, keys: seq<nat>, data: seq<Option<Raw>>) returns (m: map<nat, Raw>)
    requires |data| == |keys| && forall i | 0 <= i < |keys| :: data[i].Some? && Seen(stores, keys[i], data[i])
    ensures m.Keys == (set k | k in keys) && forall k | k in m :: Seen(stores, k, Some(m[k]))
  {
    hide Seen;
    m := map[];
    for i := 0 to |keys|
      invariant forall k :: k in m <==> k in keys[..i]
      invariant forall k | k in m :: Seen(stores, k, Some(m[k]))
    {
      m := m[keys[i] := data[i].value];
    }
    assert keys[..|keys|] == keys;
  }

  /** The fetch when a key was missing from the first check. */
  method FetchFound(stores: seq<map<nat, Raw>>, keys: seq<nat>) returns (data: seq<Option<Raw>>)
    requires stores != [] && Moving(stores)
    ensures |data| == |keys| && forall i | 0 <= i < |keys| :: Seen(stores, keys[i], data[i])
  {
    hide Seen, View, Moving, Later;
    LaterViews(stores, 1, 0);
    var present, checks := PresentSlotKeys(keys, KeySets(Later(stores, 1)));
    LaterViews(stores, 1, checks);
    var found := MultiGet(stores, 1 + checks, present);
    var byKey := ByKey(stores, present, found);
    data := [];
    for i := 0 to |keys|
      invariant |data| == i && forall j | 0 <= j < i :: Seen(stores, keys[j], data[j])
    {
      if keys[i] !in byKey {
        assert multiset(present)[keys[i]] == 0 < multiset(keys)[keys[i]];
        assert keys[i] !in View(stores, 1);
        SeenInView(stores, 1, keys[i]);
      }
      data := data + [Lookup(byKey, keys[i])];
    }
  }

  /** d reports slot k as it was at some moment. */
  ghost predicate Reported(stores: seq<map<nat, Raw>>, k: nat, round: Option<nat>, d: Option<Participant>) {
    exists t: nat :: t < |stores| && Reports(stores[t], k, round, d)
  }

  /** got reports slots from, from + 1, ..., each as it was at some moment. */
  ghost predicate Fetched(stores: seq<map<nat, Raw>>, from: nat, got: seq<Option<Participant>>, round: Option<nat>) {
    forall i | 0 <= i < |got| :: Reported(stores, from + i, round, got[i])
  }

  /** Whichever path is taken, the result is the existing list followed by one read of each slot in order. */
  method GetAllParticipants(stores: seq<map<nat, Raw>>, total: nat, start: int, round: Option<nat>,
                            existing: seq<Option<Participant>>)
    returns (r: Result<seq<Option<Participant>>, FetchError>)
    requires stores != [] && Moving(stores)
    ensures start < 1 ==> r == Err(StartBelowOne)
    ensures start >= 1 ==>
              && r.Ok? && existing <= r.value
              && |r.value| == |existing| + (if start > total then 0 else total - start + 1)
              && Fetched(stores, start, r.value[|existing|..], round)
  {
    if start < 1 {
      return Err(StartBelowOne);
    }
    if start > total {
      return Ok(existing);
    }
    var keys: seq<nat> := [];
    for i := start to total + 1
      invariant |keys| == i - start && forall j | 0 <= j < |keys| :: keys[j] == start + j
    {
      keys := keys + [i];
    }
    var data := FetchRaw(stores, keys);
    var participants := existing;
    for i := 0 to |data|
      invariant |participants| == |existing| + i && existing <= participants
      invariant Fetched(stores, start, participants[|existing|..], round)
    {
      FetchedSnoc(stores, start, participants[|existing|..], round, data[i]);
      assert (participants + [Unpack(data[i], round)])[|existing|..] == participants[|existing|..] + [Unpack(data[i], round)];
      participants := participants + [Unpack(data[i], round)];
    }
    r := Ok(participants);
  }

  lemma FetchedAt(stores: seq<map<nat, Raw>>, from: nat, got: seq<Option<Participant>>, round: Option<nat>, i: nat)
    requires Fetched(stores, from, got, round) && i < |got|
    ensures Reported(stores, from + i, round, got[i])
  {
  }

  lemma SeenReported(stores: seq<map<nat, Raw>>, k: nat, d: Option<Raw>, round: Option<nat>)
    requires Seen(stores, k, d)
    ensures Reported(stores, k, round, Unpack(d, round))
  {
    var t: nat :| t < |stores| && d == Lookup(stores[t], k);
    UnpackReports(stores[t], k, round);
  }

  lemma FetchedSnoc(stores: seq<map<nat, Raw>>, from: nat, got: seq<Option<Participant>>, round: Option<nat>, d: Option<Raw>)
    requires Fetched(stores, from, got, round) && Seen(stores, from + |got|, d)
    ensures Fetched(stores, from, got + [Unpack(d, round)], round)
  {
    SeenReported(stores, from + |got|, d, round);
    hide Unpack, Reports, Reported, Seen;
    var more := got + [Unpack(d, round)];
    forall i | 0 <= i < |more| ensures Reported(stores, from + i, round, more[i]) {
      if i < |got| { assert more[i] == got[i]; }
    }
  }

  /** The slot-by-slot read reports every slot. */
  lemma {:induction false} ReadsReport(store: map<nat, Raw>, from: nat, count: nat, round: Option<nat>)
    ensures forall i | 0 <= i < count :: Reports(store, from + i, round, ReadSlots(store, from, count, round)[i])
  {
    hide Reports;
    if count > 0 {
      ReadsReport(store, from, count - 1, round);
      UnpackReports(store, from + count - 1, round);
    }
  }

  /** With a store that stands still the fetch is exactly the slot-by-slot read. */
  lemma StillFetch(store: map<nat, Raw>, from: nat, got: seq<Option<Participant>>, round: Option<nat>)
    requires Fetched([store], from, got, round)
    ensures forall i | 0 <= i < |got| :: Reports(store, from + i, round, got[i])
    ensures got == ReadSlots(store, from, |got|, round)
  {
    hide Reports;
    ReadsReport(store, from, |got|, round);
    forall i | 0 <= i < |got|
      ensures Reports(store, from + i, round, got[i]) && got[i] == ReadSlots(store, from, |got|, round)[i]
    {
      FetchedAt([store], from, got, round, i);
      OneReport(store, from + i, round, got[i], ReadSlots(store, from, |got|, round)[i]);
    }
  }

  /** Fetching the rest of the slots later onto the existing list is fetching them all. */
  lemma {:induction false} FetchInParts(store: map<nat, Raw>, from: nat, a: nat, b: nat, round: Option<nat>)
    ensures ReadSlots(store, from, a + b, round) == ReadSlots(store, from, a, round) + ReadSlots(store, from + a, b, round)
  {
    if b > 0 {
      FetchInParts(store, from, a, b - 1, round);
    }
  }

  /** The raw slot keys of a barrier state. */
  ghost predicate Stores(store: map<nat, Raw>, s: B.State) {
    store.Keys == s.slots.Keys && forall k | k in s.slots :: store[k] == Packed(s.slots[k].round, s.slots[k].who)
  }

  /** d answers for slot k of the round as it stood in one of these states, as the host's fetch steps do. */
  ghost predicate AnsweredIn(states: seq<B.State>, round: nat, k: nat, d: Option<Participant>) {
    exists t: nat :: t < |states| && F.Answers(states[t], round, k, d)
  }

  /** Over states of the barrier every slot of the fetch is answered as a host's fetch step in one of them answers it. */
  lemma FetchMatchesBarrier(stores: seq<map<nat, Raw>>, states: seq<B.State>, got: seq<Option<Participant>>, round: nat)
    requires |stores| == |states| && forall t | 0 <= t < |stores| :: Stores(stores[t], states[t])
    requires Fetched(stores, 1, got, Some(round))
    ensures forall i | 0 <= i < |got| :: AnsweredIn(states, round, i + 1, got[i])
  {
    hide Stores, Reports;
    forall i | 0 <= i < |got| ensures AnsweredIn(states, round, i + 1, got[i]) {
      FetchedAt(stores, 1, got, Some(round), i);
      var t: nat :| t < |stores| && Reports(stores[t], 1 + i, Some(round), got[i]);
      ReportAnswers(stores[t], states[t], round, i + 1, got[i]);
    }
  }

  lemma ReportAnswers(store: map<nat, Raw>, s: B.State, round: nat, k: nat, d: Option<Participant>)
    requires Stores(store, s) && Reports(store, k, Some(round), d)
    ensures F.Answers(s, round, k, d)
  {
    forall w ensures Holding(store, k, Some(round), w) <==> F.Publishes(s, round, k, w) {
      if k in s.slots { assert store[k] == Packed(s.slots[k].round, s.slots[k].who); }
    }
  }
}
