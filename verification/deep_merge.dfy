/**
  `deep_merge(dict1, dict2)` (dataprowler/utils/helpers.py:8-32): a copy of
  the base mapping, then every entry of the overlay in order; when both sides
  hold a mapping for the key the two are merged recursively, otherwise the
  overlay's value replaces whatever the base had.
*/
module DeepMerge {
  import opened Values
  import opened Paths

  /** The value stored for a key whose overlay value is `v` and whose base value is `b`. */
  function Combine(b: Option<Value>, v: Value): Value
    decreases Size(v)
  {
    if b.Some? && b.value.Dict? && v.Dict? then Dict(Merge(b.value.entries, v.entries)) else v
  }

  function Merge(base: Entries, over: Entries): (r: Entries)
    decreases EntriesSize(over)
    ensures KeySet(r) == KeySet(base) + KeySet(over)
    ensures |r| >= |base| && forall i :: 0 <= i < |base| ==> r[i].0 == base[i].0
    ensures DistinctKeys(base) ==> DistinctKeys(r)
  {
    if |over| == 0 then base
    else
      EntriesSizeUnfold(over);
      var (k, v) := over[0];
      var acc := Put(base, k, Combine(Get(base, k), v));
      PutFacts(base, k, Combine(Get(base, k), v));
      Merge(acc, over[1..])
  }

  lemma PutFacts(base: Entries, k: string, v: Value)
    ensures DistinctKeys(base) ==> DistinctKeys(Put(base, k, v))
    ensures |Put(base, k, v)| >= |base| && forall i :: 0 <= i < |base| ==> Put(base, k, v)[i].0 == base[i].0
    ensures KeySet(Put(base, k, v)) == KeySet(base) + {k}
  {
    if DistinctKeys(base) {
      PutDistinct(base, k, v);
    }
    PutShape(base, k, v);
    var r := Put(base, k, v);
    forall x ensures x in KeySet(r) <==> x in KeySet(base) + {k} {
      if x != k {
        assert Get(r, x) == Get(base, x);
      }
    }
  }

  /** What the merge holds for each key: the base's value when the overlay lacks the key,
      the recursive merge when both sides hold mappings, and the overlay's value otherwise. */
  lemma {:induction false} MergeGet(base: Entries, over: Entries, k: string)
    requires DistinctKeys(over)
    ensures Get(Merge(base, over), k) == match Get(over, k)
      case None => Get(base, k)
      case Some(v) => Some(Combine(Get(base, k), v))
    decreases |over|
  {
    if |over| > 0 {
      var (k0, v0) := over[0];
      var acc := Put(base, k0, Combine(Get(base, k0), v0));
      DistinctTail(over);
      MergeGet(acc, over[1..], k);
      if k != k0 {
        assert Get(over, k) == Get(over[1..], k);
      }
    }
  }

  /** Merging into an empty base yields the overlay itself, order included. */
  lemma MergeIntoEmpty(d: Entries)
    requires DistinctKeys(d)
    ensures Merge([], d) == d
  {
    MergeAppends([], d);
  }

  lemma {:induction false} MergeAppends(acc: Entries, d: Entries)
    requires DistinctKeys(acc + d)
    ensures Merge(acc, d) == acc + d
    decreases |d|
  {
    if |d| > 0 {
      var (k, v) := d[0];
      assert !HasKey(acc, k) by {
        forall i | 0 <= i < |acc| ensures acc[i].0 != k {
          assert (acc + d)[i].0 != (acc + d)[|acc|].0;
        }
        HasKeyIndex(acc, k);
      }
      PutAbsent(acc, k, v);
      assert acc + d == (acc + [(k, v)]) + d[1..];
      MergeAppends(acc + [(k, v)], d[1..]);
    } else {
      assert acc + d == acc;
    }
  }

  /** An overlay whose every entry the base already holds changes nothing. */
  lemma {:induction false} MergeAbsorbed(base: Entries, over: Entries)
    requires forall i :: 0 <= i < |over| ==> Get(base, over[i].0) == Some(over[i].1)
    requires forall i :: 0 <= i < |over| ==> WellFormed(over[i].1)
    ensures Merge(base, over) == base
    decreases EntriesSize(over)
  {
    if |over| > 0 {
      EntriesSizeUnfold(over);
      var (k, v) := over[0];
      assert Get(base, k) == Some(v);
      if v.Dict? {
        var e := v.entries;
        forall i | 0 <= i < |e| ensures Get(e, e[i].0) == Some(e[i].1) {
          GetDistinct(e, i);
        }
        MergeAbsorbed(e, e);
        assert Combine(Get(base, k), v) == v;
      }
      PutSame(base, k, v);
      MergeAbsorbed(base, over[1..]);
    }
  }

  /** Merging a mapping with itself gives it back. */
  lemma MergeIdempotent(d: Entries)
    requires WellFormed(Dict(d))
    ensures Merge(d, d) == d
  {
    forall i | 0 <= i < |d| ensures Get(d, d[i].0) == Some(d[i].1) {
      GetDistinct(d, i);
    }
    MergeAbsorbed(d, d);
  }

  /** The three identities of the merge. */
  lemma MergeIdentities(d: Entries)
    requires WellFormed(Dict(d))
    ensures Merge(d, []) == d
    ensures Merge([], d) == d
    ensures Merge(d, d) == d
  {
    MergeIntoEmpty(d);
    MergeIdempotent(d);
  }

  /** Merging well-formed mappings gives a well-formed mapping. */
  lemma {:induction false} MergeWellFormed(base: Entries, over: Entries)
    requires WellFormed(Dict(base)) && WellFormed(Dict(over))
    ensures WellFormed(Dict(Merge(base, over)))
    decreases EntriesSize(over)
  {
    if |over| > 0 {
      EntriesSizeUnfold(over);
      var (k, v) := over[0];
      var b := Get(base, k);
      assert WellFormed(v) by { GetDistinct(over, 0); GetWellFormed(over, k); }
      if b.Some? && b.value.Dict? && v.Dict? {
        GetWellFormed(base, k);
        MergeWellFormed(b.value.entries, v.entries);
      }
      PutWellFormed(base, k, Combine(b, v));
      DistinctTail(over);
      MergeWellFormed(Put(base, k, Combine(b, v)), over[1..]);
    }
  }

  /** Where the overlay holds a non-mapping, the merge holds exactly that value, whatever the
      base had there (a scalar or a whole mapping). */
  lemma {:induction false} MergeWalkOverlay(base: Entries, over: Entries, q: Path, x: Value)
    requires WellFormed(Dict(over)) && |q| >= 1
    requires Walk(Dict(over), q) == Some(x) && !x.Dict?
    ensures Walk(Dict(Merge(base, over)), q) == Some(x)
    decreases |q|
  {
    var k := q[0];
    var q' := q[1..];
    WalkStep(over, q);
    var v := Get(over, k).value;
    assert Walk(v, q') == Some(x);
    var b := Get(base, k);
    MergeGet(base, over, k);
    var m := Merge(base, over);
    assert Get(m, k) == Some(Combine(b, v));
    WalkStep(m, q);
    if |q'| > 0 {
      assert v.Dict?;
      if b.Some? && b.value.Dict? {
        GetWellFormed(over, k);
        MergeWalkOverlay(b.value.entries, v.entries, q', x);
      }
    }
  }

  /** The overlay says nothing about `q`: it has no value there and no non-mapping above it. */
  predicate Silent(over: Entries, q: Path)
  {
    Walk(Dict(over), q).None? && forall i :: 1 <= i < |q| ==> !Blocked(over, q[..i])
  }

  /** A silent overlay that has the first key holds a mapping there, and the path goes on. */
  lemma SilentHead(over: Entries, q: Path)
    requires |q| >= 1 && Silent(over, q) && Get(over, q[0]).Some?
    ensures |q| >= 2 && Get(over, q[0]).value.Dict?
  {
    var k := q[0];
    WalkStep(over, q);
    assert |q| >= 2;
    assert q[..1] == [k];
    WalkStep(over, q[..1]);
    assert q[..1][1..] == [];
    assert !Blocked(over, q[..1]);
  }

  /** Silence below a key the overlay maps to a mapping. */
  lemma SilentStep(over: Entries, q: Path, e: Entries)
    requires |q| >= 2 && Silent(over, q) && Get(over, q[0]) == Some(Dict(e))
    ensures Silent(e, q[1..])
  {
    var k := q[0];
    var q' := q[1..];
    WalkStep(over, q);
    forall i | 1 <= i < |q'| ensures !Blocked(e, q'[..i]) {
      assert q[..i + 1] == [k] + q'[..i];
      WalkCons(over, k, q'[..i]);
      assert !Blocked(over, q[..i + 1]);
    }
  }

  /** Where the overlay is silent, the merge reads what the base reads. */
  lemma {:induction false} MergeWalkBase(base: Entries, over: Entries, q: Path)
    requires WellFormed(Dict(over)) && |q| >= 1
    requires Silent(over, q)
    ensures Walk(Dict(Merge(base, over)), q) == Walk(Dict(base), q)
    decreases |q|
  {
    var k := q[0];
    var m := Merge(base, over);
    MergeGet(base, over, k);
    WalkStep(base, q);
    WalkStep(m, q);
    var ov := Get(over, k);
    if ov.Some? {
      SilentHead(over, q);
      var e := ov.value.entries;
      SilentStep(over, q, e);
      var b := Get(base, k);
      if b.Some? && b.value.Dict? {
        GetWellFormed(over, k);
        MergeWalkBase(b.value.entries, e, q[1..]);
      } else {
        assert Walk(Dict(e), q[1..]) == None;
      }
    }
  }

  /** Two mappings under one key are merged, not replaced: `{a: {x: 1}}` with `{a: {y: 2}}`
      gives `{a: {x: 1, y: 2}}`; a scalar over a mapping replaces it outright. */
  lemma MergeExamples()
    ensures Merge([("a", Dict([("x", Int(1))]))], [("a", Dict([("y", Int(2))]))])
         == [("a", Dict([("x", Int(1)), ("y", Int(2))]))]
    ensures Merge([("a", Dict([("x", Int(1))]))], [("a", Int(3))]) == [("a", Int(3))]
  {
    var inner := Merge([("x", Int(1))], [("y", Int(2))]);
    assert inner == [("x", Int(1)), ("y", Int(2))] by {
      assert "x" != "y";
      MergeAppends([("x", Int(1))], [("y", Int(2))]);
    }
  }
}
