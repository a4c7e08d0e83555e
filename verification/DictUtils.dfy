/** Splitting nested containers by a predicate, and merging the halves back (dict_utils.py). */
module DictUtils {
  import opened Prelude

  /** A dict key: a string or, for lists turned into dicts, an index. */
  datatype Key = Named(name: string) | Index(i: nat)

  /** Nested dicts and lists over leaves. Dicts compare without regard to insertion order. */
  datatype Value<L> = Leaf(leaf: L) | Dict(items: map<Key, Value<L>>) | List(elems: seq<Value<L>>)

  function Keys<L>(x: Value<L>): set<Key> {
    match x
    case Leaf(_) => {}
    case Dict(items) => items.Keys
    case List(elems) => set i: nat | i < |elems| :: Index(i)
  }

  function Child<L>(x: Value<L>, k: Key): (v: Value<L>)
    requires k in Keys(x)
    ensures v < x
  {
    match x
    case Dict(items) => items[k]
    case List(elems) => elems[k.i]
  }

  /** A container without elements; Python's `not v`. */
  predicate Empty<L>(x: Value<L>) {
    (x.Dict? && x.items == map[]) || (x.List? && x.elems == [])
  }

  lemma EmptyKeys<L>(x: Value<L>)
    requires !x.Leaf?
    ensures Empty(x) <==> Keys(x) == {}
  {
    if x.List? && x.elems != [] {
      assert Index(0) in Keys(x);
    }
    if x.Dict? && x.items != map[] {
      var k :| k in x.items;
      assert k in Keys(x);
    }
  }

  // ---------------------------------------------------------------- extract_matching_values

  datatype Halves<L> = Halves(matching: map<Key, Value<L>>, rest: map<Key, Value<L>>)

  /** Where one element of a container goes: into the matching half, into the rest, or, split, into both. */
  datatype Placed<L> = Placed(matching: Option<Value<L>>, rest: Option<Value<L>>)

  function Place<L>(inList: bool, v: Value<L>, p: Value<L> -> bool): Placed<L>
    decreases v, 2
  {
    if v.Leaf? || (inList && Empty(v)) then
      if p(v) then Placed(Some(v), None) else Placed(None, Some(v))
    else
      var h := Extract(v, p);
      Placed(if h.matching != map[] then Some(Dict(h.matching)) else None,
             if h.rest != map[] || Empty(v) then Some(Dict(h.rest)) else None)
  }

  /** The halves of the elements of x under the given keys. */
  function ExtractOver<L>(x: Value<L>, p: Value<L> -> bool, ks: set<Key>): Halves<L>
    requires ks <= Keys(x)
    decreases x, 0
  {
    Halves(map k | k in ks && Place(x.List?, Child(x, k), p).matching.Some? :: Place(x.List?, Child(x, k), p).matching.value,
           map k | k in ks && Place(x.List?, Child(x, k), p).rest.Some? :: Place(x.List?, Child(x, k), p).rest.value)
  }

  /** `extract_matching_values(x, p, return_lists_as_dicts=True)` for a dict or list x. */
  function Extract<L>(x: Value<L>, p: Value<L> -> bool): Halves<L>
    requires !x.Leaf?
    decreases x, 1
  {
    ExtractOver(x, p, Keys(x))
  }

  datatype ExtractError = NotAContainer

  /** One turn of either loop. */
  lemma ExtractOneMore<L>(x: Value<L>, p: Value<L> -> bool, ks: set<Key>, k: Key)
    requires ks <= Keys(x) && k in Keys(x) && k !in ks
    ensures var before, after, pl := ExtractOver(x, p, ks), ExtractOver(x, p, ks + {k}), Place(x.List?, Child(x, k), p);
            && after.matching == (if pl.matching.Some? then before.matching[k := pl.matching.value] else before.matching)
            && after.rest == (if pl.rest.Some? then before.rest[k := pl.rest.value] else before.rest)
  {
    hide Place, Keys, Child;
  }

  method ExtractMatchingValues<L>(x: Value<L>, p: Value<L> -> bool) returns (r: Result<Halves<L>, ExtractError>)
    ensures x.Leaf? ==> r == Err(NotAContainer)
    ensures !x.Leaf? ==> r == Ok(Extract(x, p))
    decreases x
  {
    var matching: map<Key, Value<L>>, rest: map<Key, Value<L>> := map[], map[];
    match x
    case Leaf(_) => r := Err(NotAContainer);
    case Dict(items) =>
      var todo := items.Keys;
      assert Keys(x) - todo == {};
      while todo != {}
        invariant todo <= Keys(x) && Halves(matching, rest) == ExtractOver(x, p, Keys(x) - todo)
      {
        var k :| k in todo;
        ExtractOneMore(x, p, Keys(x) - todo, k);
        assert Keys(x) - (todo - {k}) == Keys(x) - todo + {k};
        matching, rest := PutElement(x, k, p, matching, rest);
        todo := todo - {k};
      }
      assert Keys(x) - todo == Keys(x);
      r := Ok(Halves(matching, rest));
    case List(elems) =>
      ghost var done: set<Key> := {};
      for ind := 0 to |elems|
        invariant done == (set i: nat | i < ind :: Index(i)) && done <= Keys(x)
        invariant Halves(matching, rest) == ExtractOver(x, p, done)
      {
        ExtractOneMore(x, p, done, Index(ind));
        matching, rest := PutElement(x, Index(ind), p, matching, rest);
        done := done + {Index(ind)};
      }
      assert done == Keys(x);
      r := Ok(Halves(matching, rest));
  }

  /** The body of both loops: one element goes to one half, or is split over both. */
  method PutElement<L>(x: Value<L>, k: Key, p: Value<L> -> bool, matching: map<Key, Value<L>>, rest: map<Key, Value<L>>)
    returns (matching': map<Key, Value<L>>, rest': map<Key, Value<L>>)
    requires k in Keys(x)
    ensures var pl := Place(x.List?, Child(x, k), p);
            && matching' == (if pl.matching.Some? then matching[k := pl.matching.value] else matching)
            && rest' == (if pl.rest.Some? then rest[k := pl.rest.value] else rest)
    decreases x, 0
  {
    matching', rest' := matching, rest;
    var v := Child(x, k);
    if !v.Leaf? && !(x.List? && Empty(v)) {
      var h := ExtractMatchingValues(v, p);
      if h.value.matching != map[] { matching' := matching[k := Dict(h.value.matching)]; }
      if h.value.rest != map[] || Empty(v) { rest' := rest[k := Dict(h.value.rest)]; }
    } else if p(v) {
      matching' := matching[k := v];
    } else {
      rest' := rest[k := v];
    }
  }

  // ---------------------------------------------------------------- merge

  /** `merge(x1, x2)`: the merged value, or None where the source raises. */
  function Merge<L>(x1: Value<L>, x2: Value<L>): Option<Value<L>>
    decreases x2
  {
    if x1.Dict? && x2.Dict? then
      if forall k | k in x2.items && k in x1.items :: Merge(x1.items[k], x2.items[k]).Some? then
        Some(Dict(map k | k in x1.items.Keys + x2.items.Keys ::
                    if k !in x1.items then x2.items[k]
                    else if k !in x2.items then x1.items[k]
                    else Merge(x1.items[k], x2.items[k]).value))
      else None
    else if x1.List? && x2.List? && |x1.elems| == |x2.elems| then
      if forall i | 0 <= i < |x2.elems| :: Merge(x1.elems[i], x2.elems[i]).Some? then
        Some(List(seq(|x2.elems|, i requires 0 <= i < |x2.elems| => Merge(x1.elems[i], x2.elems[i]).value)))
      else None
    else None
  }

  /** The keyed part of a merge: what is under k once x2's value has been merged in. */
  function MergedAt<L>(a: map<Key, Value<L>>, b: map<Key, Value<L>>, k: Key): Option<Value<L>>
    requires k in a || k in b
  {
    if k !in a then Some(b[k]) else if k !in b then Some(a[k]) else Merge(a[k], b[k])
  }

  /** a with the keys ks of b merged in. */
  ghost predicate MergedSoFar<L>(a: map<Key, Value<L>>, b: map<Key, Value<L>>, ks: set<Key>, items: map<Key, Value<L>>) {
    && ks <= b.Keys && items.Keys == a.Keys + ks
    && (forall k | k in ks :: MergedAt(a, b, k) == Some(items[k]))
    && (forall k | k in a && k !in ks :: items[k] == a[k])
  }

  lemma MergeDone<L>(a: map<Key, Value<L>>, b: map<Key, Value<L>>, items: map<Key, Value<L>>)
    requires MergedSoFar(a, b, b.Keys, items)
    ensures Merge(Dict(a), Dict(b)) == Some(Dict(items))
  {
    forall k | k in b && k in a ensures Merge(a[k], b[k]) == Some(items[k]) {
      assert MergedAt(a, b, k) == Some(items[k]);
    }
    var merged := Merge(Dict(a), Dict(b)).value.items;
    forall k | k in merged ensures merged[k] == items[k] {
      if k in b { assert MergedAt(a, b, k) == Some(items[k]); }
    }
    assert merged == items;
  }

  method MergeInto<L>(x1: Value<L>, x2: Value<L>) returns (r: Option<Value<L>>)
    ensures r == Merge(x1, x2)
    decreases x2
  {
    if x1.Dict? && x2.Dict? {
      var items := x1.items;
      var todo := x2.items.Keys;
      while todo != {}
        invariant todo <= x2.items.Keys && MergedSoFar(x1.items, x2.items, x2.items.Keys - todo, items)
      {
        var k :| k in todo;
        if k !in items {
          items := items[k := x2.items[k]];
        } else {
          var sub := MergeInto(items[k], x2.items[k]);
          if sub.None? {
            return None;
          }
          items := items[k := sub.value];
        }
        todo := todo - {k};
      }
      assert x2.items.Keys - todo == x2.items.Keys;
      MergeDone(x1.items, x2.items, items);
      r := Some(Dict(items));
    } else if x1.List? && x2.List? {
      if |x1.elems| != |x2.elems| {
        return None;
      }
      var elems := x1.elems;
      for i := 0 to |x2.elems|
        invariant |elems| == |x2.elems|
        invariant forall j | 0 <= j < i :: Merge(x1.elems[j], x2.elems[j]) == Some(elems[j])
        invariant forall j | i <= j < |elems| :: elems[j] == x1.elems[j]
      {
        var sub := MergeInto(elems[i], x2.elems[i]);
        if sub.None? {
          return None;
        }
        elems := elems[i := sub.value];
      }
      r := Some(List(elems));
      assert Merge(x1, x2).value.elems == elems;
    } else {
      r := None;
    }
  }

  // ---------------------------------------------------------------- the round trip

  /** Lists turned into index-keyed dicts, at every depth. */
  function AsDicts<L>(x: Value<L>): Value<L>
    decreases x
  {
    if x.Leaf? then x else Dict(map k | k in Keys(x) :: AsDicts(Child(x, k)))
  }

  /** What split and merge really rebuild: an empty container directly inside a list is handed to the predicate and
      kept as it is. */
  function Rebuilt<L>(inList: bool, x: Value<L>): Value<L>
    decreases x
  {
    if x.Leaf? || (inList && Empty(x)) then x else Dict(map k | k in Keys(x) :: Rebuilt(x.List?, Child(x, k)))
  }

  ghost predicate Joins<L>(a: Option<Value<L>>, b: Option<Value<L>>, v: Value<L>) {
    match (a, b)
    case (None, None) => false
    case (Some(x), None) => x == v
    case (None, Some(y)) => y == v
    case (Some(x), Some(y)) => Merge(x, y) == Some(v)
  }

  lemma MergeEmpty<L>(m: map<Key, Value<L>>)
    ensures Merge(Dict(m), Dict(map[])) == Some(Dict(m)) && Merge(Dict(map[]), Dict(m)) == Some(Dict(m))
  {
    var none: map<Key, Value<L>> := map[];
    assert Merge(Dict(m), Dict(none)).value.items == m;
    assert Merge(Dict(none), Dict(m)).value.items == m;
  }

  lemma {:induction false} PlaceJoins<L>(inList: bool, v: Value<L>, p: Value<L> -> bool)
    ensures var h := Place(inList, v, p); Joins(h.matching, h.rest, Rebuilt(inList, v))
    decreases v, 1
  {
    if !v.Leaf? && !(inList && Empty(v)) {
      SplitThenMerge(v, p);
      var h := Extract(v, p);
      MergeEmpty(h.matching);
      MergeEmpty(h.rest);
      if Empty(v) { EmptySplit(v, p); }
      EmptyKeys(v);
      RebuiltKeys(inList, v);
      hide Extract, Merge, Rebuilt, Keys;
    }
  }

  lemma RebuiltKeys<L>(inList: bool, v: Value<L>)
    requires !v.Leaf? && !(inList && Empty(v))
    ensures Rebuilt(inList, v) == Rebuilt(false, v)
    ensures Rebuilt(false, v).Dict? && Rebuilt(false, v).items.Keys == Keys(v)
  {
    assert Rebuilt(inList, v).items == Rebuilt(false, v).items;
  }

  lemma EmptySplit<L>(v: Value<L>, p: Value<L> -> bool)
    requires !v.Leaf? && Empty(v)
    ensures Extract(v, p) == Halves(map[], map[])
  {
    EmptyKeys(v);
  }

  /** Splitting any container and merging the halves never raises, and rebuilds the container. */
  lemma {:induction false} SplitThenMerge<L>(x: Value<L>, p: Value<L> -> bool)
    requires !x.Leaf?
    ensures Merge(Dict(Extract(x, p).matching), Dict(Extract(x, p).rest)) == Some(Rebuilt(false, x))
    decreases x, 0
  {
    forall k | k in Keys(x)
      ensures Joins(Lookup(Extract(x, p).matching, k), Lookup(Extract(x, p).rest, k), Rebuilt(x.List?, Child(x, k)))
    {
      PlaceJoins(x.List?, Child(x, k), p);
      ExtractAt(x, p, k);
    }
    ExtractKeys(x, p);
    hide Extract, Keys, Child, Joins, Merge;
    JoinHalves(Extract(x, p), map k | k in Keys(x) :: Rebuilt(x.List?, Child(x, k)));
  }

  lemma ExtractAt<L>(x: Value<L>, p: Value<L> -> bool, k: Key)
    requires !x.Leaf? && k in Keys(x)
    ensures var pl := Place(x.List?, Child(x, k), p);
            Lookup(Extract(x, p).matching, k) == pl.matching && Lookup(Extract(x, p).rest, k) == pl.rest
  {
    hide Place;
  }

  lemma ExtractKeys<L>(x: Value<L>, p: Value<L> -> bool)
    requires !x.Leaf?
    ensures Extract(x, p).matching.Keys + Extract(x, p).rest.Keys <= Keys(x)
  {
    hide Place;
  }

  /** If every key of m is joined from two halves, the halves merge to m. */
  lemma JoinHalves<L>(h: Halves<L>, m: map<Key, Value<L>>)
    requires h.matching.Keys + h.rest.Keys <= m.Keys
    requires forall k | k in m :: Joins(Lookup(h.matching, k), Lookup(h.rest, k), m[k])
    ensures Merge(Dict(h.matching), Dict(h.rest)) == Some(Dict(m))
  {
    var a, b := h.matching, h.rest;
    forall k | k in b && k in a ensures Merge(a[k], b[k]) == Some(m[k]) {
      assert Joins(Lookup(a, k), Lookup(b, k), m[k]);
    }
    var merged := Merge(Dict(a), Dict(b)).value.items;
    forall k ensures k in merged <==> k in m {
      if k in m { assert Joins(Lookup(a, k), Lookup(b, k), m[k]); }
    }
    forall k | k in m ensures merged[k] == m[k] {
      assert Joins(Lookup(a, k), Lookup(b, k), m[k]);
    }
    assert merged == m;
  }

  /** x holds an empty list directly inside a list. */
  predicate BareList<L>(inList: bool, x: Value<L>)
    decreases x
  {
    (inList && x == List([])) || exists k | k in Keys(x) :: BareList(x.List?, Child(x, k))
  }

  /** The result is the original with lists turned into dicts exactly when no empty list sits directly in a list. */
  lemma {:induction false} RebuiltIsAsDicts<L>(inList: bool, x: Value<L>)
    ensures Rebuilt(inList, x) == AsDicts(x) <==> !BareList(inList, x)
    decreases x
  {
    if !x.Leaf? {
      forall k | k in Keys(x) ensures Rebuilt(x.List?, Child(x, k)) == AsDicts(Child(x, k)) <==> !BareList(x.List?, Child(x, k)) {
        RebuiltIsAsDicts(x.List?, Child(x, k));
      }
      EmptyKeys(x);
      var a, b := Rebuilt(inList, x), AsDicts(x);
      if inList && Empty(x) {
        assert b.items == map[];
      } else if k :| k in Keys(x) && BareList(x.List?, Child(x, k)) {
        assert a.items[k] != b.items[k];
      } else {
        assert a.items == b.items;
      }
    }
  }

  /** The list of one empty list comes back from the split and the merge with that empty list still a list. */
  lemma EmptyListInListStays<L>(p: Value<L> -> bool)
    ensures var x: Value<L> := List([List([])]);
            && Merge(Dict(Extract(x, p).matching), Dict(Extract(x, p).rest)) == Some(Dict(map[Index(0) := List([])]))
            && AsDicts(x) == Dict(map[Index(0) := Dict(map[])])
  {
    var none: Value<L> := List([]);
    var x: Value<L> := List([none]);
    SplitThenMerge(x, p);
    assert Keys(x) == {Index(0)} by { assert Index(0) in Keys(x); }
    assert Child(x, Index(0)) == none && Keys(none) == {};
    hide Merge, Extract;
    assert Rebuilt(false, x).items == map[Index(0) := none];
    assert AsDicts(none).items == map[];
    assert AsDicts(x).items == map[Index(0) := Dict(map[])];
  }

  /** The value at a path of keys. */
  function At<L>(x: Value<L>, path: seq<Key>): Option<Value<L>>
    decreases path
  {
    if path == [] then Some(x)
    else if path[0] in Keys(x) then At(Child(x, path[0]), path[1..])
    else None
  }

  /** Every leaf is found at its own path in exactly one half, the one the predicate names, and the halves hold no
      other leaves. */
  lemma {:induction false} LeavesLand<L>(x: Value<L>, p: Value<L> -> bool, path: seq<Key>, l: L)
    requires !x.Leaf?
    ensures At(Dict(Extract(x, p).matching), path) == Some(Leaf(l)) <==> At(x, path) == Some(Leaf(l)) && p(Leaf(l))
    ensures At(Dict(Extract(x, p).rest), path) == Some(Leaf(l)) <==> At(x, path) == Some(Leaf(l)) && !p(Leaf(l))
    decreases path
  {
    if path != [] {
      var k := path[0];
      if k in Keys(x) {
        ExtractAt(x, p, k);
        var v := Child(x, k);
        if !v.Leaf? {
          LeavesLand(v, p, path[1..], l);
        }
      } else {
        ExtractKeys(x, p);
      }
    }
  }

  /** The value at the path stands directly in a list. */
  predicate InList<L>(x: Value<L>, path: seq<Key>)
    requires path != []
    decreases path
  {
    if |path| == 1 then x.List? else path[0] in Keys(x) && InList(Child(x, path[0]), path[1..])
  }

  /** Where empty containers go: directly in a list, whole into the half the predicate names; elsewhere, as an empty dict,
      into the rest. */
  lemma {:induction false} EmptiesLand<L>(x: Value<L>, p: Value<L> -> bool, path: seq<Key>, v: Value<L>)
    requires !x.Leaf? && path != [] && At(x, path) == Some(v) && Empty(v)
    ensures var matching, rest := At(Dict(Extract(x, p).matching), path), At(Dict(Extract(x, p).rest), path);
            if !InList(x, path) then matching == None && rest == Some(Dict(map[]))
            else if p(v) then matching == Some(v) && rest == None
            else matching == None && rest == Some(v)
    decreases path
  {
    var k := path[0];
    ExtractAt(x, p, k);
    var c := Child(x, k);
    if |path| == 1 {
      assert path == [k] && c == v;
      EmptySplit(v, p);
      hide Extract;
      AtOne(Extract(x, p).matching, k);
      AtOne(Extract(x, p).rest, k);
    } else {
      AtBelow(c, path[1..]);
      EmptiesLand(c, p, path[1..], v);
    }
  }

  lemma AtOne<L>(items: map<Key, Value<L>>, k: Key)
    ensures At(Dict(items), [k]) == Lookup(items, k)
  {
    if k in items { assert At(items[k], [k][1..]) == Some(items[k]); }
  }

  lemma AtBelow<L>(c: Value<L>, path: seq<Key>)
    requires path != [] && At(c, path).Some?
    ensures !c.Leaf? && !Empty(c)
  {
    if !c.Leaf? { EmptyKeys(c); }
  }

  // ---------------------------------------------------------------- what a merge means

  /** What stands at a path. */
  datatype Kind<L> = Absent | IsLeaf(leaf: L) | IsDict | IsList(length: nat)

  function KindAt<L>(x: Value<L>, path: seq<Key>): Kind<L>
    decreases path
  {
    if path == [] then
      match x
      case Leaf(l) => IsLeaf(l)
      case Dict(_) => IsDict
      case List(elems) => IsList(|elems|)
    else if path[0] in Keys(x) then KindAt(Child(x, path[0]), path[1..])
    else Absent
  }

  /** Two values may meet at a path when one is absent, or both are dicts, or both are lists of one length. */
  predicate MayMeet<L(==)>(a: Kind<L>, b: Kind<L>) {
    a.Absent? || b.Absent? || (a == b && !a.IsLeaf?)
  }

  ghost predicate Compatible<L>(x: Value<L>, y: Value<L>) {
    forall path: seq<Key> :: MayMeet(KindAt(x, path), KindAt(y, path))
  }

  lemma KindBelow<L>(x: Value<L>, k: Key, path: seq<Key>)
    ensures KindAt(x, [k] + path) == if k in Keys(x) then KindAt(Child(x, k), path) else Absent
  {
    assert ([k] + path)[1..] == path;
  }

  /** Below a common key, compatible values are compatible. */
  lemma CompatibleChildren<L>(x: Value<L>, y: Value<L>, k: Key)
    requires Compatible(x, y) && k in Keys(x) && k in Keys(y)
    ensures Compatible(Child(x, k), Child(y, k))
  {
    forall path: seq<Key> ensures MayMeet(KindAt(Child(x, k), path), KindAt(Child(y, k), path)) {
      KindBelow(x, k, path);
      KindBelow(y, k, path);
      assert MayMeet(KindAt(x, [k] + path), KindAt(y, [k] + path));
    }
  }

  lemma CompatibleFrom<L>(x: Value<L>, y: Value<L>)
    requires MayMeet(KindAt(x, []), KindAt(y, []))
    requires forall k | k in Keys(x) && k in Keys(y) :: Compatible(Child(x, k), Child(y, k))
    ensures Compatible(x, y)
  {
    forall path: seq<Key> ensures MayMeet(KindAt(x, path), KindAt(y, path)) {
      if path != [] {
        assert path == [path[0]] + path[1..];
        KindBelow(x, path[0], path[1..]);
        KindBelow(y, path[0], path[1..]);
      }
    }
  }

  /** Merging succeeds exactly when nothing but dicts, and lists of one length, meets at any path. */
  lemma {:induction false} MergeSucceeds<L>(x: Value<L>, y: Value<L>)
    ensures Merge(x, y).Some? <==> Compatible(x, y)
    decreases y
  {
    forall k | k in Keys(x) && k in Keys(y) ensures Merge(Child(x, k), Child(y, k)).Some? <==> Compatible(Child(x, k), Child(y, k)) {
      MergeSucceeds(Child(x, k), Child(y, k));
    }
    if Compatible(x, y) {
      assert MayMeet(KindAt(x, []), KindAt(y, []));
      forall k | k in Keys(x) && k in Keys(y) ensures Merge(Child(x, k), Child(y, k)).Some? { CompatibleChildren(x, y, k); }
      MergeByChildren(x, y);
    }
    if Merge(x, y).Some? {
      MergeByChildren(x, y);
      CompatibleFrom(x, y);
    }
  }

  lemma MergeByChildren<L>(x: Value<L>, y: Value<L>)
    ensures Merge(x, y).Some? <==>
              && ((x.Dict? && y.Dict?) || (x.List? && y.List? && |x.elems| == |y.elems|))
              && forall k | k in Keys(x) && k in Keys(y) :: Merge(Child(x, k), Child(y, k)).Some?
    ensures Merge(x, y).Some? ==> (x.Dict? ==> Merge(x, y).value.Dict?)
                                  && (x.List? ==> Merge(x, y).value.List? && |Merge(x, y).value.elems| == |x.elems|)
    ensures Merge(x, y).Some? ==> Keys(Merge(x, y).value) == Keys(x) + Keys(y)
    ensures Merge(x, y).Some? ==>
              forall k | k in Keys(x) + Keys(y) :: Child(Merge(x, y).value, k)
                == if k !in Keys(x) then Child(y, k) else if k !in Keys(y) then Child(x, k)
                   else Merge(Child(x, k), Child(y, k)).value
  {
    if Merge(x, y).Some? {
      forall k | k in Keys(x) && k in Keys(y) ensures Merge(Child(x, k), Child(y, k)).Some? {
        if x.Dict? { assert k in y.items && k in x.items; } else { assert k == Index(k.i) && k.i < |x.elems|; }
      }
    }
    if forall k | k in Keys(x) && k in Keys(y) :: Merge(Child(x, k), Child(y, k)).Some? {
      if x.Dict? && y.Dict? {
        forall k | k in y.items && k in x.items ensures Merge(x.items[k], y.items[k]).Some? {
          assert k in Keys(x) && k in Keys(y) && Child(x, k) == x.items[k];
        }
      }
      if x.List? && y.List? && |x.elems| == |y.elems| {
        forall i | 0 <= i < |x.elems| ensures Merge(x.elems[i], y.elems[i]).Some? {
          assert Index(i) in Keys(x) && Index(i) in Keys(y) && Child(x, Index(i)) == x.elems[i];
        }
      }
    }
  }

  /** At every path the merge holds what either side holds there: everything of both, and nothing else. */
  lemma {:induction false} MergeHolds<L>(x: Value<L>, y: Value<L>, path: seq<Key>)
    requires Merge(x, y).Some?
    ensures KindAt(Merge(x, y).value, path) == if KindAt(x, path).Absent? then KindAt(y, path) else KindAt(x, path)
    decreases path
  {
    MergeByChildren(x, y);
    if path != [] {
      var k := path[0];
      if k in Keys(x) && k in Keys(y) {
        MergeHolds(Child(x, k), Child(y, k), path[1..]);
        MergedChildCompatible(x, y, k, path[1..]);
      }
      hide Merge;
    }
  }

  lemma MergedChildCompatible<L>(x: Value<L>, y: Value<L>, k: Key, path: seq<Key>)
    requires k in Keys(x) && k in Keys(y)
    ensures KindAt(x, [k] + path) == KindAt(Child(x, k), path) && KindAt(y, [k] + path) == KindAt(Child(y, k), path)
  {
    KindBelow(x, k, path);
    KindBelow(y, k, path);
  }
}
