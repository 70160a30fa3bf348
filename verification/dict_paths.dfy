/**
  `flatten_dict` and `unflatten_dict` (dataprowler/utils/helpers.py:35-83):
  conversion between a nested mapping and a flat mapping whose keys are the
  separator-joined paths of the nested one's non-mapping leaves. The separator
  is a single character here.
*/
module DictPaths {
  import opened Values
  import opened Strings
  import opened Paths

  /** No entry holds a mapping. */
  predicate NoDicts(e: Entries)
  {
    forall i :: 0 <= i < |e| ==> !e[i].1.Dict?
  }

  lemma {:induction false} PutNoDicts(e: Entries, k: string, v: Value)
    requires NoDicts(e) && !v.Dict?
    ensures NoDicts(Put(e, k, v))
  {
    if |e| > 0 && e[0].0 != k {
      PutNoDicts(e[1..], k, v);
    }
  }

  lemma PutKeeps(e: Entries, k: string, v: Value)
    ensures DistinctKeys(e) ==> DistinctKeys(Put(e, k, v))
    ensures NoDicts(e) && !v.Dict? ==> NoDicts(Put(e, k, v))
  {
    if DistinctKeys(e) {
      PutDistinct(e, k, v);
    }
    if NoDicts(e) && !v.Dict? {
      PutNoDicts(e, k, v);
    }
  }

  /** The value of the last pair with key `k`, if any. */
  function Last(items: Entries, k: string): Option<Value>
  {
    if |items| == 0 then None
    else match Last(items[1..], k)
      case Some(v) => Some(v)
      case None => if items[0].0 == k then Some(items[0].1) else None
  }

  /** `dict(items)` after the pairs already in `acc`. */
  function FromPairsInto(acc: Entries, items: Entries): (r: Entries)
    ensures DistinctKeys(acc) ==> DistinctKeys(r)
    ensures NoDicts(acc) && NoDicts(items) ==> NoDicts(r)
    decreases |items|
  {
    if |items| == 0 then acc
    else
      var (k, v) := items[0];
      PutKeeps(acc, k, v);
      FromPairsInto(Put(acc, k, v), items[1..])
  }

  /** `dict(items)`: a repeated key keeps the position of its first pair and the value of its last. */
  function FromPairs(items: Entries): (r: Entries)
    ensures DistinctKeys(r)
    ensures NoDicts(items) ==> NoDicts(r)
  {
    FromPairsInto([], items)
  }

  /** Lookup in `dict(items)` finds the last pair with the key. */
  lemma {:induction false} FromPairsGet(acc: Entries, items: Entries, k: string)
    ensures Get(FromPairsInto(acc, items), k) == match Last(items, k) case None => Get(acc, k) case Some(v) => Some(v)
    decreases |items|
  {
    if |items| > 0 {
      FromPairsGet(Put(acc, items[0].0, items[0].1), items[1..], k);
    }
  }

  /** Pairs with distinct keys are kept as they are, order included. */
  lemma {:induction false} FromPairsAppend(acc: Entries, items: Entries)
    requires DistinctKeys(acc + items)
    ensures FromPairsInto(acc, items) == acc + items
    decreases |items|
  {
    if |items| > 0 {
      var (k, v) := items[0];
      assert !HasKey(acc, k) by {
        forall i | 0 <= i < |acc| ensures acc[i].0 != k {
          assert (acc + items)[i].0 != (acc + items)[|acc|].0;
        }
        HasKeyIndex(acc, k);
      }
      PutAbsent(acc, k, v);
      assert acc + items == (acc + [(k, v)]) + items[1..];
      FromPairsAppend(acc + [(k, v)], items[1..]);
    } else {
      assert acc + items == acc;
    }
  }

  lemma FromPairsDistinct(items: Entries)
    requires DistinctKeys(items)
    ensures FromPairs(items) == items
  {
    assert [] + items == items;
    FromPairsAppend([], items);
  }

  /** The flat key of a child: `parent_key + sep + k if parent_key else k`. */
  function ChildKey(parent: string, k: string, sep: char): string
  {
    if parent != "" then parent + [sep] + k else k
  }

  /** `flatten_dict(d, parent_key, sep)`. */
  function FlattenFrom(d: Entries, parent: string, sep: char): (r: Entries)
    ensures DistinctKeys(r) && NoDicts(r)
    decreases EntriesSize(d), 1
  {
    FromPairs(FlattenItems(d, parent, sep))
  }

  /** The `items` list `flatten_dict` builds before turning it into a mapping. */
  function FlattenItems(d: Entries, parent: string, sep: char): (r: Entries)
    ensures NoDicts(r)
    decreases EntriesSize(d), 0
  {
    if |d| == 0 then []
    else
      EntriesSizeUnfold(d);
      var (k, v) := d[0];
      var key := ChildKey(parent, k, sep);
      (if v.Dict? then FlattenFrom(v.entries, key, sep) else [(key, v)]) + FlattenItems(d[1..], parent, sep)
  }

  /** `flatten_dict(d, sep=sep)`: one entry per non-mapping leaf, keyed by its joined path. */
  function Flatten(d: Entries, sep: char): (r: Entries)
    ensures DistinctKeys(r) && NoDicts(r)
  {
    FlattenFrom(d, "", sep)
  }

  /** The reference for `Flatten`: every path to a non-mapping leaf, with its value, in
      depth-first order. An empty nested mapping has no leaves. */
  function Leaves(d: Entries): (ls: seq<(Path, Value)>)
    ensures NonEmptyPaths(ls)
    ensures forall i :: 0 <= i < |ls| ==> !ls[i].1.Dict?
    decreases EntriesSize(d)
  {
    if |d| == 0 then []
    else
      EntriesSizeUnfold(d);
      var (k, v) := d[0];
      (if v.Dict? then Prefixed(k, Leaves(v.entries)) else [([k], v)]) + Leaves(d[1..])
  }

  /** The leaves contributed by the entry `(k, v)`. */
  function Head(k: string, v: Value): seq<(Path, Value)>
  {
    if v.Dict? then Prefixed(k, Leaves(v.entries)) else [([k], v)]
  }

  lemma LeavesUnfold(d: Entries)
    requires |d| > 0
    ensures Leaves(d) == Head(d[0].0, d[0].1) + Leaves(d[1..])
  {
  }

  /** The same leaves one level further down, below key `k`. */
  function Prefixed(k: string, ls: seq<(Path, Value)>): (r: seq<(Path, Value)>)
    ensures |r| == |ls|
    ensures forall i :: 0 <= i < |ls| ==> r[i] == ([k] + ls[i].0, ls[i].1)
  {
    seq(|ls|, i requires 0 <= i < |ls| => ([k] + ls[i].0, ls[i].1))
  }

  /** Every leaf path starts with a key of the mapping. */
  lemma {:induction false} LeavesHeads(d: Entries)
    ensures forall i :: 0 <= i < |Leaves(d)| ==> HasKey(d, Leaves(d)[i].0[0])
    decreases EntriesSize(d)
  {
    if |d| > 0 {
      EntriesSizeUnfold(d);
      LeavesHeads(d[1..]);
      var h := Head(d[0].0, d[0].1);
      var rest := Leaves(d[1..]);
      LeavesUnfold(d);
      var all: seq<(Path, Value)> := h + rest;
      forall i | 0 <= i < |all| ensures HasKey(d, all[i].0[0]) {
        if i >= |h| {
          assert all[i] == rest[i - |h|];
        } else {
          assert all[i] == h[i];
        }
      }
    }
  }

  /** Each leaf is found by walking its path: the value is preserved. */
  lemma {:induction false} LeavesWalk(d: Entries)
    requires WellFormed(Dict(d))
    ensures forall i :: 0 <= i < |Leaves(d)| ==> Walk(Dict(d), Leaves(d)[i].0) == Some(Leaves(d)[i].1)
    decreases EntriesSize(d)
  {
    if |d| > 0 {
      EntriesSizeUnfold(d);
      var (k, v) := d[0];
      var rest := Leaves(d[1..]);
      var h := if v.Dict? then Prefixed(k, Leaves(v.entries)) else [([k], v)];
      assert Leaves(d) == h + rest;
      GetDistinct(d, 0);
      DistinctTail(d);
      LeavesHeads(d[1..]);
      LeavesWalk(d[1..]);
      if v.Dict? {
        LeavesWalk(v.entries);
      }
      forall i | 0 <= i < |h| + |rest| ensures Walk(Dict(d), Leaves(d)[i].0) == Some(Leaves(d)[i].1) {
        if i < |h| {
          LeafWalkHead(d, i);
        } else {
          var p := rest[i - |h|].0;
          assert Leaves(d)[i] == rest[i - |h|];
          WalkStep(d, p);
          WalkStep(d[1..], p);
        }
      }
    }
  }

  lemma LeafWalkHead(d: Entries, i: int)
    requires |d| > 0 && Get(d, d[0].0) == Some(d[0].1)
    requires d[0].1.Dict? ==> forall j :: 0 <= j < |Leaves(d[0].1.entries)| ==>
               Walk(d[0].1, Leaves(d[0].1.entries)[j].0) == Some(Leaves(d[0].1.entries)[j].1)
    requires 0 <= i < (if d[0].1.Dict? then |Leaves(d[0].1.entries)| else 1)
    ensures Walk(Dict(d), Leaves(d)[i].0) == Some(Leaves(d)[i].1)
  {
    EntriesSizeUnfold(d);
    var (k, v) := d[0];
    var h := if v.Dict? then Prefixed(k, Leaves(v.entries)) else [([k], v)];
    assert Leaves(d) == h + Leaves(d[1..]);
    assert Leaves(d)[i] == h[i];
    if v.Dict? {
      WalkCons(d, k, Leaves(v.entries)[i].0);
    } else {
      WalkCons(d, k, []);
      assert [k] + [] == [k];
    }
  }

  /** What the round trip needs of a mapping: at every level distinct keys that are non-empty
      and free of the separator, and no empty nested mapping. */
  predicate Safe(v: Value, sep: char)
  {
    match v
    case Dict(e) =>
      DistinctKeys(e) &&
      forall i :: 0 <= i < |e| ==>
        e[i].0 != "" && sep !in e[i].0 && (e[i].1.Dict? ==> |e[i].1.entries| > 0) && Safe(e[i].1, sep)
    case _ => true
  }

  lemma SafeTail(e: Entries, sep: char)
    requires |e| > 0 && Safe(Dict(e), sep)
    ensures Safe(Dict(e[1..]), sep) && !HasKey(e[1..], e[0].0)
  {
    DistinctTail(e);
    assert forall i :: 0 <= i < |e| - 1 ==> e[1..][i] == e[i + 1];
  }

  /** Paths whose segments are all non-empty and free of the separator. */
  predicate GoodPaths(ls: seq<(Path, Value)>, sep: char)
  {
    forall i, j :: 0 <= i < |ls| && 0 <= j < |ls[i].0| ==> ls[i].0[j] != "" && sep !in ls[i].0[j]
  }

  predicate DistinctPaths(ls: seq<(Path, Value)>)
  {
    forall i, j :: 0 <= i < j < |ls| ==> ls[i].0 != ls[j].0
  }

  /** The leaves of a safe mapping have distinct paths made of good segments, and there is
      at least one leaf when the mapping is not empty. */
  lemma {:induction false} LeavesFacts(d: Entries, sep: char)
    requires Safe(Dict(d), sep)
    ensures GoodPaths(Leaves(d), sep) && DistinctPaths(Leaves(d))
    ensures |d| > 0 ==> |Leaves(d)| > 0
    decreases EntriesSize(d)
  {
    if |d| > 0 {
      EntriesSizeUnfold(d);
      var k := d[0].0;
      var v := d[0].1;
      SafeTail(d, sep);
      LeavesFacts(d[1..], sep);
      if v.Dict? {
        LeavesFacts(v.entries, sep);
      }
      HeadFacts(k, v, sep);
      LeavesHeads(d[1..]);
      HeadApart(Head(k, v), Leaves(d[1..]), d[1..], k);
      ConcatPaths(Head(k, v), Leaves(d[1..]), sep);
      LeavesUnfold(d);
    }
  }

  /** The leaves of one entry start with its key and inherit the facts of the nested leaves. */
  lemma HeadFacts(k: string, v: Value, sep: char)
    requires k != "" && sep !in k
    requires v.Dict? ==> |v.entries| > 0 && GoodPaths(Leaves(v.entries), sep) && DistinctPaths(Leaves(v.entries))
                         && |Leaves(v.entries)| > 0
    ensures GoodPaths(Head(k, v), sep) && DistinctPaths(Head(k, v)) && |Head(k, v)| > 0
    ensures forall i :: 0 <= i < |Head(k, v)| ==> Head(k, v)[i].0[0] == k
  {
    if v.Dict? {
      PrefixedFacts(k, Leaves(v.entries), sep);
    }
  }

  lemma HeadApart(h: seq<(Path, Value)>, rest: seq<(Path, Value)>, tail: Entries, k: string)
    requires NonEmptyPaths(h) && NonEmptyPaths(rest) && !HasKey(tail, k)
    requires forall i :: 0 <= i < |h| ==> h[i].0[0] == k
    requires forall j :: 0 <= j < |rest| ==> HasKey(tail, rest[j].0[0])
    ensures forall i, j :: 0 <= i < |h| && 0 <= j < |rest| ==> h[i].0 != rest[j].0
  {
  }

  lemma PrefixedFacts(k: string, ls: seq<(Path, Value)>, sep: char)
    requires k != "" && sep !in k
    requires GoodPaths(ls, sep) && DistinctPaths(ls)
    ensures GoodPaths(Prefixed(k, ls), sep) && DistinctPaths(Prefixed(k, ls))
  {
    var r := Prefixed(k, ls);
    forall i, j | 0 <= i < j < |r| ensures r[i].0 != r[j].0 {
      assert r[i].0[1..] == ls[i].0;
      assert r[j].0[1..] == ls[j].0;
    }
    forall i, j | 0 <= i < |r| && 0 <= j < |r[i].0| ensures r[i].0[j] != "" && sep !in r[i].0[j] {
      if j > 0 {
        assert r[i].0[j] == ls[i].0[j - 1];
      }
    }
  }

  lemma ConcatPaths(a: seq<(Path, Value)>, b: seq<(Path, Value)>, sep: char)
    requires GoodPaths(a, sep) && DistinctPaths(a) && GoodPaths(b, sep) && DistinctPaths(b)
    requires forall i, j :: 0 <= i < |a| && 0 <= j < |b| ==> a[i].0 != b[j].0
    ensures GoodPaths(a + b, sep) && DistinctPaths(a + b)
  {
    var c := a + b;
    forall i, j | 0 <= i < j < |c| ensures c[i].0 != c[j].0 {
      if j < |a| {
      } else if i >= |a| {
        assert c[i] == b[i - |a|] && c[j] == b[j - |a|];
      } else {
        assert c[j] == b[j - |a|];
      }
    }
    forall i, j | 0 <= i < |c| && 0 <= j < |c[i].0| ensures c[i].0[j] != "" && sep !in c[i].0[j] {
      if i >= |a| {
        assert c[i] == b[i - |a|];
      }
    }
  }

  /** The flat key of a leaf path below `parent`. */
  function LeafKey(parent: string, p: Path, sep: char): string
  {
    if parent == "" then Join(p, sep) else parent + [sep] + Join(p, sep)
  }

  /** The leaves with their paths turned into flat keys. */
  function Keyed(parent: string, ls: seq<(Path, Value)>, sep: char): (r: Entries)
    ensures |r| == |ls|
    ensures forall i :: 0 <= i < |ls| ==> r[i] == (LeafKey(parent, ls[i].0, sep), ls[i].1)
  {
    seq(|ls|, i requires 0 <= i < |ls| => (LeafKey(parent, ls[i].0, sep), ls[i].1))
  }

  /** Descending one level is appending one segment to the flat key. */
  lemma LeafKeyStep(parent: string, k: string, p: Path, sep: char)
    requires k != "" && |p| >= 1
    ensures LeafKey(ChildKey(parent, k, sep), p, sep) == LeafKey(parent, [k] + p, sep)
  {
    var kp := [k] + p;
    assert kp[1..] == p;
    if parent != "" {
      assert parent + [sep] + k + [sep] + Join(p, sep) == parent + [sep] + (k + [sep] + Join(p, sep));
    }
  }

  /** Distinct good paths get distinct flat keys. */
  lemma KeyedDistinct(parent: string, ls: seq<(Path, Value)>, sep: char)
    requires NonEmptyPaths(ls) && GoodPaths(ls, sep) && DistinctPaths(ls)
    ensures DistinctKeys(Keyed(parent, ls, sep))
  {
    var r := Keyed(parent, ls, sep);
    forall i, j | 0 <= i < j < |r| ensures r[i].0 != r[j].0 {
      var p := ls[i].0;
      var q := ls[j].0;
      if Join(p, sep) == Join(q, sep) {
        assert forall m :: 0 <= m < |p| ==> sep !in p[m];
        assert forall m :: 0 <= m < |q| ==> sep !in q[m];
        JoinInjective(p, q, sep);
      }
      if parent != "" {
        var n := |parent| + 1;
        assert (parent + [sep] + Join(p, sep))[n..] == Join(p, sep);
        assert (parent + [sep] + Join(q, sep))[n..] == Join(q, sep);
      }
    }
  }

  /** The items `flatten_dict` collects are the keyed leaves. */
  lemma {:induction false} FlattenItemsLeaves(d: Entries, parent: string, sep: char)
    requires Safe(Dict(d), sep)
    ensures FlattenItems(d, parent, sep) == Keyed(parent, Leaves(d), sep)
    decreases EntriesSize(d)
  {
    if |d| > 0 {
      EntriesSizeUnfold(d);
      var (k, v) := d[0];
      var key := ChildKey(parent, k, sep);
      SafeTail(d, sep);
      FlattenItemsLeaves(d[1..], parent, sep);
      if v.Dict? {
        FlattenItemsLeaves(v.entries, key, sep);
      }
      var fh := FlattenEntry(parent, k, v, sep);
      assert fh == Keyed(parent, Head(k, v), sep) by {
        FlattenEntryLeaves(parent, k, v, sep);
      }
      assert FlattenItems(d, parent, sep) == fh + FlattenItems(d[1..], parent, sep);
      LeavesUnfold(d);
      KeyedConcat(parent, Head(k, v), Leaves(d[1..]), sep);
    }
  }

  /** The items one entry contributes to `flatten_dict`'s list. */
  function FlattenEntry(parent: string, k: string, v: Value, sep: char): Entries
  {
    var key := ChildKey(parent, k, sep);
    if v.Dict? then FlattenFrom(v.entries, key, sep) else [(key, v)]
  }

  lemma FlattenEntryLeaves(parent: string, k: string, v: Value, sep: char)
    requires k != "" && Safe(v, sep)
    requires v.Dict? ==> FlattenItems(v.entries, ChildKey(parent, k, sep), sep) == Keyed(ChildKey(parent, k, sep), Leaves(v.entries), sep)
    ensures FlattenEntry(parent, k, v, sep) == Keyed(parent, Head(k, v), sep)
  {
    if v.Dict? {
      FlattenHead(parent, k, v.entries, sep);
    } else {
      assert LeafKey(parent, [k], sep) == ChildKey(parent, k, sep);
    }
  }

  /** A nested mapping contributes its own flattening, below the child key. */
  lemma FlattenHead(parent: string, k: string, e: Entries, sep: char)
    requires k != "" && Safe(Dict(e), sep)
    requires FlattenItems(e, ChildKey(parent, k, sep), sep) == Keyed(ChildKey(parent, k, sep), Leaves(e), sep)
    ensures FlattenFrom(e, ChildKey(parent, k, sep), sep) == Keyed(parent, Prefixed(k, Leaves(e)), sep)
  {
    var key := ChildKey(parent, k, sep);
    var ls := Leaves(e);
    LeavesFacts(e, sep);
    KeyedDistinct(key, ls, sep);
    FromPairsDistinct(Keyed(key, ls, sep));
    forall i | 0 <= i < |ls| ensures LeafKey(key, ls[i].0, sep) == LeafKey(parent, [k] + ls[i].0, sep) {
      LeafKeyStep(parent, k, ls[i].0, sep);
    }
  }

  lemma KeyedConcat(parent: string, a: seq<(Path, Value)>, b: seq<(Path, Value)>, sep: char)
    ensures Keyed(parent, a + b, sep) == Keyed(parent, a, sep) + Keyed(parent, b, sep)
  {
  }

  /** `flatten_dict` of a safe mapping is its leaves keyed by their separator-joined paths. */
  lemma FlattenLeaves(d: Entries, sep: char)
    requires Safe(Dict(d), sep)
    ensures Flatten(d, sep) == Keyed("", Leaves(d), sep)
  {
    FlattenItemsLeaves(d, "", sep);
    LeavesFacts(d, sep);
    KeyedDistinct("", Leaves(d), sep);
    FromPairsDistinct(Keyed("", Leaves(d), sep));
  }

  /** The writes `unflatten_dict` performs: each key cut at every separator into the parts
      that, joined by the separator, give the key back, with the value kept. */
  function SplitKeys(f: Entries, sep: char): (w: seq<(Path, Value)>)
    ensures |w| == |f| && NonEmptyPaths(w)
    ensures forall i :: 0 <= i < |f| ==> Join(w[i].0, sep) == f[i].0 && w[i].1 == f[i].1
    ensures forall i, j :: 0 <= i < |f| && 0 <= j < |w[i].0| ==> sep !in w[i].0[j]
  {
    seq(|f|, i requires 0 <= i < |f| => (Split(f[i].0, sep), f[i].1))
  }

  /** `unflatten_dict(f, sep)`. Python raises a TypeError when a key's prefix already holds a
      non-mapping. */
  function Unflatten(f: Entries, sep: char): (r: Result<Entries, PathError>)
    ensures r.Ok? && |f| > 0 ==> Walk(Dict(r.value), Split(f[|f| - 1].0, sep)) == Some(f[|f| - 1].1)
    ensures r.Err? ==> exists i :: 0 <= i < |f| && r.error.at < Split(f[i].0, sep)
  {
    SetAll([], SplitKeys(f, sep))
  }

  /** Writes below key `k` into a mapping that holds the mapping `sub` at `k` act on `sub`. */
  lemma {:induction false} PrefixedSetAll(acc: Entries, k: string, sub: Entries, w: seq<(Path, Value)>)
    requires Get(acc, k) == Some(Dict(sub)) && NonEmptyPaths(w)
    ensures NonEmptyPaths(Prefixed(k, w))
    ensures SetAll(acc, Prefixed(k, w)) == match SetAll(sub, w)
      case Ok(s) => Ok(Put(acc, k, Dict(s)))
      case Err(e) => Err(NotAMapping([k] + e.at))
    decreases |w|
  {
    var pw := Prefixed(k, w);
    if |w| == 0 {
      PutSame(acc, k, Dict(sub));
    } else {
      var (p, v) := w[0];
      assert pw[0] == ([k] + p, v);
      assert ([k] + p)[0] == k && ([k] + p)[1..] == p;
      assert pw[1..] == Prefixed(k, w[1..]);
      var first := SetPath(sub, p, v);
      if first.Ok? {
        var s1 := first.value;
        var acc1 := Put(acc, k, Dict(s1));
        assert SetPath(acc, [k] + p, v) == Ok(acc1);
        PrefixedSetAll(acc1, k, s1, w[1..]);
        var later := SetAll(s1, w[1..]);
        if later.Ok? {
          PutPut(acc, k, Dict(s1), Dict(later.value));
        }
      } else {
        assert SetPath(acc, [k] + p, v) == Err(NotAMapping([k] + first.error.at));
      }
    }
  }

  /** Writes below an absent key act as if the key held an empty mapping. */
  lemma PrefixedFresh(acc: Entries, k: string, w: seq<(Path, Value)>)
    requires !HasKey(acc, k) && |w| > 0 && NonEmptyPaths(w)
    ensures NonEmptyPaths(Prefixed(k, w))
    ensures SetAll(acc, Prefixed(k, w)) == SetAll(Put(acc, k, Dict([])), Prefixed(k, w))
  {
    var pw := Prefixed(k, w);
    var (p, v) := w[0];
    var path := [k] + p;
    assert pw[0] == (path, v);
    assert path[0] == k && path[1..] == p;
    SetPathEmpty(p, v);
    PutPut(acc, k, Dict([]), Dict(Chain(p, v)));
    assert SetPath(acc, path, v) == SetPath(Put(acc, k, Dict([])), path, v);
  }

  /** The writes of a safe mapping's leaves rebuild it after the entries of `acc`. */
  lemma {:induction false} SetAllLeaves(acc: Entries, d: Entries, sep: char)
    requires Safe(Dict(d), sep)
    requires forall i :: 0 <= i < |d| ==> !HasKey(acc, d[i].0)
    ensures SetAll(acc, Leaves(d)) == Ok(acc + d)
    decreases EntriesSize(d)
  {
    if |d| == 0 {
      assert acc + d == acc;
    } else {
      EntriesSizeUnfold(d);
      var k := d[0].0;
      var v := d[0].1;
      if v.Dict? {
        SetAllLeaves([], v.entries, sep);
        assert [] + v.entries == v.entries;
      }
      SetAllHead(acc, k, v, sep);
      SafeTail(d, sep);
      FreshAfter(acc, d);
      SetAllLeaves(acc + [d[0]], d[1..], sep);
      ConsAppend(acc, d);
      LeavesUnfold(d);
      SetAllThen(acc, Head(k, v), Leaves(d[1..]), acc + [d[0]]);
    }
  }

  /** Runs that start from the state a first run reached continue it. */
  lemma SetAllThen(acc: Entries, a: seq<(Path, Value)>, b: seq<(Path, Value)>, mid: Entries)
    requires NonEmptyPaths(a) && NonEmptyPaths(b) && SetAll(acc, a) == Ok(mid)
    ensures NonEmptyPaths(a + b) && SetAll(acc, a + b) == SetAll(mid, b)
  {
    SetAllAppend(acc, a, b);
  }

  lemma ConsAppend<T>(acc: seq<T>, d: seq<T>)
    requires |d| > 0
    ensures acc + [d[0]] + d[1..] == acc + d
  {
  }

  /** The keys of the rest of `d` stay fresh once the first entry is appended to `acc`. */
  lemma FreshAfter(acc: Entries, d: Entries)
    requires |d| > 0 && !HasKey(d[1..], d[0].0)
    requires forall i :: 0 <= i < |d| ==> !HasKey(acc, d[i].0)
    ensures forall i :: 0 <= i < |d[1..]| ==> !HasKey(acc + [d[0]], d[1..][i].0)
  {
    forall i | 0 <= i < |d[1..]| ensures !HasKey(acc + [d[0]], d[1..][i].0) {
      var x := d[1..][i].0;
      assert d[1..][i] == d[i + 1];
      HasKeyIndex(d[1..], d[0].0);
      HasKeyIndex(acc, x);
      HasKeyIndex(acc + [d[0]], x);
    }
  }

  /** The writes of one entry's leaves append that entry. */
  lemma SetAllHead(acc: Entries, k: string, v: Value, sep: char)
    requires !HasKey(acc, k)
    requires v.Dict? ==> Safe(v, sep) && |v.entries| > 0 && SetAll([], Leaves(v.entries)) == Ok(v.entries)
    ensures NonEmptyPaths(Head(k, v))
    ensures SetAll(acc, Head(k, v)) == Ok(acc + [(k, v)])
  {
    PutAbsent(acc, k, v);
    if v.Dict? {
      var ve := v.entries;
      LeavesFacts(ve, sep);
      PrefixedFresh(acc, k, Leaves(ve));
      PrefixedSetAll(Put(acc, k, Dict([])), k, [], Leaves(ve));
      PutPut(acc, k, Dict([]), Dict(ve));
    } else {
      assert SetPath(acc, [k], v) == Ok(Put(acc, k, v));
    }
  }

  /** Round trip: unflattening the flattening of a safe mapping gives it back, order included. */
  lemma UnflattenFlatten(d: Entries, sep: char)
    requires Safe(Dict(d), sep)
    ensures Unflatten(Flatten(d, sep), sep) == Ok(d)
  {
    FlattenLeaves(d, sep);
    var ls := Leaves(d);
    LeavesFacts(d, sep);
    forall i | 0 <= i < |ls| ensures Split(Join(ls[i].0, sep), sep) == ls[i].0 {
      SplitJoin(ls[i].0, sep);
    }
    assert SplitKeys(Keyed("", ls, sep), sep) == ls;
    SetAllLeaves([], d, sep);
    assert [] + d == d;
  }

  /** A key whose split path no later key lies on one line with keeps its value: a later key
      that is a strict prefix of an earlier one replaces that whole subtree. */
  lemma UnflattenLastWins(f: Entries, sep: char, i: int)
    requires Unflatten(f, sep).Ok? && 0 <= i < |f|
    requires forall j :: i < j < |f| ==> !Comparable(Split(f[j].0, sep), Split(f[i].0, sep))
    ensures Walk(Dict(Unflatten(f, sep).value), Split(f[i].0, sep)) == Some(f[i].1)
  {
    SetAllSurvivor([], SplitKeys(f, sep), i);
  }

  /** The docstring example of `flatten_dict`: `{"a": {"b": 1, "c": 2}}` becomes `{"a.b": 1, "a.c": 2}`. */
  lemma FlattenDocExample()
    ensures Flatten([("a", Dict([("b", Int(1)), ("c", Int(2))]))], '.') == [("a.b", Int(1)), ("a.c", Int(2))]
  {
    var inner := [("b", Int(1)), ("c", Int(2))];
    var d := [("a", Dict(inner))];
    var flat := [("a.b", Int(1)), ("a.c", Int(2))];
    assert inner[1..] == [("c", Int(2))] && inner[1..][1..] == [];
    assert ChildKey("a", "c", '.') == "a.c";
    assert ChildKey("a", "b", '.') == "a.b";
    assert FlattenItems(inner[1..][1..], "a", '.') == [];
    assert FlattenItems(inner[1..], "a", '.') == [("a.c", Int(2))] + [];
    assert FlattenItems(inner, "a", '.') == flat;
    FromPairsDistinct(flat);
    assert d[1..] == [];
    assert FlattenItems(d, "", '.') == flat + [];
    assert flat + [] == flat;
  }

  /** The docstring example of `unflatten_dict`: `{"a.b": 1, "a.c": 2}` becomes `{"a": {"b": 1, "c": 2}}`. */
  lemma UnflattenDocExample()
    ensures Unflatten([("a.b", Int(1)), ("a.c", Int(2))], '.') == Ok([("a", Dict([("b", Int(1)), ("c", Int(2))]))])
  {
    SplitTwo("a", "b");
    SplitTwo("a", "c");
    var w := SplitKeys([("a.b", Int(1)), ("a.c", Int(2))], '.');
    assert w == [(["a", "b"], Int(1))] + [(["a", "c"], Int(2))];
    var one := [("a", Dict([("b", Int(1))]))];
    UnflattenDocFirst();
    UnflattenDocSecond();
    SetAllThen([], [(["a", "b"], Int(1))], [(["a", "c"], Int(2))], one);
  }

  lemma UnflattenDocFirst()
    ensures SetAll([], [(["a", "b"], Int(1))]) == Ok([("a", Dict([("b", Int(1))]))])
  {
    SetPathEmpty(["a", "b"], Int(1));
    assert ["a", "b"][1..] == ["b"];
  }

  lemma UnflattenDocSecond()
    ensures SetAll([("a", Dict([("b", Int(1))]))], [(["a", "c"], Int(2))])
         == Ok([("a", Dict([("b", Int(1)), ("c", Int(2))]))])
  {
    var one := [("a", Dict([("b", Int(1))]))];
    var two := [("b", Int(1)), ("c", Int(2))];
    assert Put([("b", Int(1))], "c", Int(2)) == two by {
      assert [("b", Int(1))][1..] == [];
    }
    assert SetPath([("b", Int(1))], ["c"], Int(2)) == Ok(two);
    assert Get(one, "a") == Some(Dict([("b", Int(1))]));
    assert Put(one, "a", Dict(two)) == [("a", Dict(two))] by {
      assert one[1..] == [];
    }
    assert ["a", "c"][1..] == ["c"];
    assert SetPath(one, ["a", "c"], Int(2)) == Ok([("a", Dict(two))]);
  }

  /** `"x.y".split(".")` for dot-free single-character `x` and `y`. */
  lemma SplitTwo(x: string, y: string)
    requires |x| == 1 && |y| == 1 && x != "." && y != "."
    ensures Split(x + "." + y, '.') == [x, y]
  {
    assert '.' !in x && '.' !in y;
    assert Join([x, y], '.') == x + "." + y;
    SplitJoin([x, y], '.');
  }

  /** An empty nested mapping produces no entry, and an empty key at the top is dropped from
      the flat keys below it, since an empty parent key counts as no parent. */
  lemma FlattenQuirks()
    ensures Flatten([("a", Dict([])), ("b", Int(1))], '.') == [("b", Int(1))]
    ensures Flatten([("", Dict([("a", Int(1))]))], '.') == [("a", Int(1))]
  {
    var d := [("a", Dict([])), ("b", Int(1))];
    assert d[1..] == [("b", Int(1))] && d[1..][1..] == [];
    assert FlattenItems(d[1..], "", '.') == [("b", Int(1))];
    assert FlattenItems([], "a", '.') == [];
    assert FlattenItems(d, "", '.') == [("b", Int(1))];
    assert FromPairsInto([("b", Int(1))], []) == [("b", Int(1))];
    var e := [("", Dict([("a", Int(1))]))];
    assert FlattenItems([("a", Int(1))], "", '.') == [("a", Int(1))];
    assert FlattenItems(e, "", '.') == [("a", Int(1))];
  }

  /** A later key that is a strict prefix of an earlier one overwrites that subtree. */
  lemma UnflattenOverwrites()
    ensures Unflatten([("a.b", Int(1)), ("a", Int(2))], '.') == Ok([("a", Int(2))])
  {
    SplitTwo("a", "b");
    SplitNoSep("a", '.');
    var w := SplitKeys([("a.b", Int(1)), ("a", Int(2))], '.');
    assert w == [(["a", "b"], Int(1)), (["a"], Int(2))];
    var one := [("a", Dict([("b", Int(1))]))];
    SetPathEmpty(["a", "b"], Int(1));
    assert SetPath([], ["a", "b"], Int(1)) == Ok(one);
    assert Put(one, "a", Int(2)) == [("a", Int(2))] by {
      assert one[1..] == [];
    }
    assert SetPath(one, ["a"], Int(2)) == Ok([("a", Int(2))]);
    assert w[1..][1..] == [];
  }

  /** A deeper key after a non-mapping at its prefix fails at that prefix. */
  lemma UnflattenFails()
    ensures Unflatten([("a", Int(1)), ("a.b", Int(2))], '.') == Err(NotAMapping(["a"]))
  {
    SplitTwo("a", "b");
    SplitNoSep("a", '.');
    var w := SplitKeys([("a", Int(1)), ("a.b", Int(2))], '.');
    assert w == [(["a"], Int(1)), (["a", "b"], Int(2))];
    assert SetPath([], ["a"], Int(1)) == Ok([("a", Int(1))]);
    assert SetPath([("a", Int(1))], ["a", "b"], Int(2)) == Err(NotAMapping(["a"]));
  }
}
