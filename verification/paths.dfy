/**
  Paths into nested mappings. `Walk` is the descent loop of `get_setting`
  (dataprowler/core/config.py:181-187); `SetPath` is the "create or reuse
  intermediate mappings, then assign the leaf" loop that appears twice in the
  source, in `unflatten_dict` (dataprowler/utils/helpers.py:77-82) and in
  `_load_env_vars` (dataprowler/core/config.py:117-124). `SetAll` is a run of
  such assignments in order, stopping at the first failure.
*/
module Paths {
  import opened Values

  /** A location in a nested mapping: the keys to follow from the root. */
  type Path = seq<string>

  /** The value at `path` below `v`, descending through mappings only. */
  function Walk(v: Value, path: Path): Option<Value>
    decreases |path|
  {
    if |path| == 0 then Some(v)
    else match v
      case Dict(e) => (
        match Get(e, path[0])
        case Some(child) => Walk(child, path[1..])
        case None => None)
      case _ => None
  }

  /** `q` leads, from `root`, to a value that is not a mapping. */
  predicate Blocked(root: Entries, q: Path)
  {
    var w := Walk(Dict(root), q);
    w.Some? && !w.value.Dict?
  }

  /** `q` leads, from `root`, to a mapping. */
  predicate ReachesMapping(root: Entries, q: Path)
  {
    var w := Walk(Dict(root), q);
    w.Some? && w.value.Dict?
  }

  /** Python raises a TypeError when it must descend into a non-mapping. */
  datatype PathError = NotAMapping(at: Path)

  /** The mappings Python creates for an absent prefix: one key per level, `v` at the bottom. */
  function Chain(path: Path, v: Value): (e: Entries)
    requires |path| >= 1
    ensures Walk(Dict(e), path) == Some(v)
    ensures |e| == 1 && e[0].0 == path[0]
  {
    if |path| == 1 then [(path[0], v)]
    else
      var e := [(path[0], Dict(Chain(path[1..], v)))];
      WalkCons(e, path[0], path[1..]);
      assert [path[0]] + path[1..] == path;
      e
  }

  /** Assign `v` at `path`, creating missing intermediate mappings. */
  function SetPath(root: Entries, path: Path, v: Value): (r: Result<Entries, PathError>)
    requires |path| >= 1
    decreases |path|
    ensures r.Ok? ==> Walk(Dict(r.value), path) == Some(v)
    ensures r.Err? ==> 1 <= |r.error.at| < |path| && r.error.at == path[..|r.error.at|]
    ensures r.Err? ==> Blocked(root, r.error.at)
  {
    var k := path[0];
    var tail := path[1..];
    assert path == [k] + tail;
    if |path| == 1 then Ok(Put(root, k, v))
    else
      match Get(root, k)
      case None =>
        var r := Put(root, k, Dict(Chain(tail, v)));
        WalkCons(r, k, tail);
        Ok(r)
      case Some(Dict(child)) => (
        match SetPath(child, tail, v)
        case Ok(s) =>
          var r := Put(root, k, Dict(s));
          WalkCons(r, k, tail);
          Ok(r)
        case Err(e) =>
          assert path[..1 + |e.at|] == [k] + e.at;
          WalkCons(root, k, e.at);
          Err(NotAMapping([k] + e.at)))
      case Some(_) =>
        assert path[..1] == [k] && [k][1..] == [];
        assert Walk(Dict(root), path[..1]) == Some(Get(root, k).value);
        Err(NotAMapping([k]))
  }

  /** One step of the descent. */
  lemma WalkCons(root: Entries, k: string, q: Path)
    ensures Walk(Dict(root), [k] + q) == match Get(root, k) case None => None case Some(c) => Walk(c, q)
  {
    assert ([k] + q)[1..] == q;
  }

  lemma WalkStep(root: Entries, q: Path)
    requires |q| >= 1
    ensures Walk(Dict(root), q) == match Get(root, q[0]) case None => None case Some(c) => Walk(c, q[1..])
  {
  }

  lemma WalkEmpty(q: Path)
    requires |q| >= 1
    ensures Walk(Dict([]), q) == None
  {
  }

  /** Into an empty mapping, an assignment builds exactly the chain of fresh mappings. */
  lemma {:induction false} SetPathEmpty(path: Path, v: Value)
    requires |path| >= 1
    ensures SetPath([], path, v) == Ok(Chain(path, v))
  {
  }

  /** The assignment fails exactly when some proper prefix of the path holds a non-mapping. */
  lemma {:induction false} SetPathOkIff(root: Entries, path: Path, v: Value)
    requires |path| >= 1
    ensures SetPath(root, path, v).Ok? <==> forall i :: 1 <= i < |path| ==> !Blocked(root, path[..i])
    decreases |path|
  {
    var k := path[0];
    var tail := path[1..];
    if |path| > 1 {
      var cur := Get(root, k);
      forall i | 1 <= i < |path|
        ensures path[..i] == [k] + tail[..i - 1]
        ensures Walk(Dict(root), path[..i]) == if cur.None? then None else Walk(cur.value, tail[..i - 1])
      {
        assert path[..i] == [k] + tail[..i - 1];
        WalkCons(root, k, tail[..i - 1]);
      }
      match cur
      case None =>
      case Some(Dict(child)) =>
        SetPathOkIff(child, tail, v);
        forall i | 1 <= i < |path|
          ensures Blocked(root, path[..i]) <==> Blocked(child, tail[..i - 1])
        {
        }
      case Some(_) =>
        assert Blocked(root, path[..1]);
    }
  }

  /** The assignment touches nothing outside its own path: every location that is neither
      on the path nor below it reads the same afterwards. */
  lemma {:induction false} SetPathFrame(root: Entries, path: Path, v: Value, q: Path)
    requires |path| >= 1 && SetPath(root, path, v).Ok?
    requires !(path <= q) && !(q < path)
    ensures Walk(Dict(SetPath(root, path, v).value), q) == Walk(Dict(root), q)
    decreases |path|
  {
    var r := SetPath(root, path, v).value;
    var k := path[0];
    var tail := path[1..];
    assert |q| >= 1;
    WalkStep(r, q);
    WalkStep(root, q);
    if q[0] != k {
      assert Get(r, q[0]) == Get(root, q[0]);
    } else {
      assert |path| > 1 && |q| > 1;
      var q' := q[1..];
      assert q == [k] + q' && path == [k] + tail;
      assert !(tail <= q') && !(q' < tail);
      if Get(root, k).None? {
        SetPathEmpty(tail, v);
        assert r == Put(root, k, Dict(Chain(tail, v)));
        SetPathFrame([], tail, v, q');
        WalkEmpty(q');
      } else {
        var child := Get(root, k).value.entries;
        assert r == Put(root, k, Dict(SetPath(child, tail, v).value));
        SetPathFrame(child, tail, v, q');
      }
    }
  }

  /** After the assignment every proper prefix of the path leads to a mapping. */
  lemma {:induction false} SetPathMappings(root: Entries, path: Path, v: Value)
    requires |path| >= 1 && SetPath(root, path, v).Ok?
    ensures forall i :: 0 <= i < |path| ==> ReachesMapping(SetPath(root, path, v).value, path[..i])
    decreases |path|
  {
    var r := SetPath(root, path, v).value;
    var k := path[0];
    var tail := path[1..];
    assert path[..0] == [];
    if |path| > 1 {
      var sub: Entries;
      if Get(root, k).None? {
        SetPathEmpty(tail, v);
        sub := Chain(tail, v);
        SetPathMappings([], tail, v);
      } else {
        var child := Get(root, k).value.entries;
        sub := SetPath(child, tail, v).value;
        SetPathMappings(child, tail, v);
      }
      assert r == Put(root, k, Dict(sub));
      assert path == [k] + tail;
      forall i | 1 <= i < |path| ensures ReachesMapping(r, path[..i]) {
        MappingsStep(r, k, sub, tail, i);
      }
    }
  }

  lemma MappingsStep(r: Entries, k: string, sub: Entries, tail: Path, i: int)
    requires Get(r, k) == Some(Dict(sub))
    requires 1 <= i <= |tail|
    requires ReachesMapping(sub, tail[..i - 1])
    ensures ReachesMapping(r, ([k] + tail)[..i])
  {
    assert ([k] + tail)[..i] == [k] + tail[..i - 1];
    WalkCons(r, k, tail[..i - 1]);
  }

  /** A prefix that was absent before the assignment now holds a fresh mapping whose
      only content is the rest of the path. */
  lemma {:induction false} SetPathCreates(root: Entries, path: Path, v: Value, i: int)
    requires |path| >= 1 && SetPath(root, path, v).Ok?
    requires 1 <= i < |path| && Walk(Dict(root), path[..i]).None?
    ensures Walk(Dict(SetPath(root, path, v).value), path[..i]) == Some(Dict(Chain(path[i..], v)))
    decreases |path|
  {
    var r := SetPath(root, path, v).value;
    var k := path[0];
    var tail := path[1..];
    assert path[..i] == [k] + tail[..i - 1];
    WalkCons(root, k, tail[..i - 1]);
    WalkCons(r, k, tail[..i - 1]);
    assert path[i..] == tail[i - 1..];
    match Get(root, k)
    case None =>
      ChainWalk(tail, v, i - 1);
    case Some(Dict(child)) =>
      SetPathCreates(child, tail, v, i - 1);
  }

  lemma {:induction false} ChainWalk(path: Path, v: Value, j: int)
    requires 0 <= j < |path|
    ensures Walk(Dict(Chain(path, v)), path[..j]) == Some(Dict(Chain(path[j..], v)))
  {
    if j > 0 {
      var e := Chain(path, v);
      assert path[..j] == [path[0]] + path[1..][..j - 1];
      WalkCons(e, path[0], path[1..][..j - 1]);
      ChainWalk(path[1..], v, j - 1);
      assert path[1..][j - 1..] == path[j..];
    }
  }

  lemma {:induction false} ChainWellFormed(path: Path, v: Value)
    requires |path| >= 1 && WellFormed(v)
    ensures WellFormed(Dict(Chain(path, v)))
  {
    if |path| > 1 {
      ChainWellFormed(path[1..], v);
    }
  }

  /** Assignment keeps every mapping free of repeated keys. */
  lemma {:induction false} SetPathWellFormed(root: Entries, path: Path, v: Value)
    requires |path| >= 1 && SetPath(root, path, v).Ok?
    requires WellFormed(Dict(root)) && WellFormed(v)
    ensures WellFormed(Dict(SetPath(root, path, v).value))
    decreases |path|
  {
    var k := path[0];
    var tail := path[1..];
    if |path| == 1 {
      PutWellFormed(root, k, v);
    } else {
      match Get(root, k)
      case None =>
        ChainWellFormed(tail, v);
        PutWellFormed(root, k, Dict(Chain(tail, v)));
      case Some(Dict(child)) =>
        GetWellFormed(root, k);
        SetPathWellFormed(child, tail, v);
        PutWellFormed(root, k, Dict(SetPath(child, tail, v).value));
    }
  }

  /** Two paths that lie on one line: one is a prefix of the other. */
  predicate Comparable(p: Path, q: Path)
  {
    p <= q || q <= p
  }

  predicate NonEmptyPaths(writes: seq<(Path, Value)>)
  {
    forall i :: 0 <= i < |writes| ==> |writes[i].0| >= 1
  }

  /** The assignments one after the other; the first failure aborts the run. */
  function SetAll(root: Entries, writes: seq<(Path, Value)>): (r: Result<Entries, PathError>)
    requires NonEmptyPaths(writes)
    ensures r.Ok? && |writes| > 0 ==> Walk(Dict(r.value), writes[|writes| - 1].0) == Some(writes[|writes| - 1].1)
    ensures r.Err? ==> exists i :: 0 <= i < |writes| && r.error.at < writes[i].0
    decreases |writes|
  {
    if |writes| == 0 then Ok(root)
    else match SetPath(root, writes[0].0, writes[0].1)
      case Err(e) => Err(e)
      case Ok(next) =>
        var r := SetAll(next, writes[1..]);
        assert r.Err? ==> exists i :: 1 <= i < |writes| && r.error.at < writes[i].0 by {
          if r.Err? {
            var i :| 0 <= i < |writes| - 1 && r.error.at < writes[1..][i].0;
            assert writes[1..][i] == writes[i + 1];
          }
        }
        r
  }

  /** Running the first writes and then the rest is running them all. */
  lemma {:induction false} SetAllAppend(root: Entries, a: seq<(Path, Value)>, b: seq<(Path, Value)>)
    requires NonEmptyPaths(a) && NonEmptyPaths(b)
    ensures NonEmptyPaths(a + b)
    ensures SetAll(root, a + b) == match SetAll(root, a) case Err(e) => Err(e) case Ok(x) => SetAll(x, b)
    decreases |a|
  {
    assert NonEmptyPaths(a + b);
    if |a| > 0 {
      assert (a + b)[0] == a[0];
      assert (a + b)[1..] == a[1..] + b;
      var first := SetPath(root, a[0].0, a[0].1);
      if first.Ok? {
        SetAllAppend(first.value, a[1..], b);
        assert SetAll(root, a + b) == SetAll(first.value, a[1..] + b);
        assert SetAll(root, a) == SetAll(first.value, a[1..]);
      } else {
        assert SetAll(root, a + b) == Err(first.error);
      }
    } else {
      assert a + b == b;
    }
  }

  /** A location no write is on or above reads the same after the run. */
  lemma {:induction false} SetAllFrame(root: Entries, writes: seq<(Path, Value)>, q: Path)
    requires NonEmptyPaths(writes) && SetAll(root, writes).Ok?
    requires forall j :: 0 <= j < |writes| ==> !(writes[j].0 <= q) && !(q < writes[j].0)
    ensures Walk(Dict(SetAll(root, writes).value), q) == Walk(Dict(root), q)
    decreases |writes|
  {
    if |writes| > 0 {
      var next := SetPath(root, writes[0].0, writes[0].1).value;
      SetPathFrame(root, writes[0].0, writes[0].1, q);
      assert forall j :: 0 <= j < |writes| - 1 ==> writes[1..][j] == writes[j + 1];
      SetAllFrame(next, writes[1..], q);
    }
  }

  /** Last write wins: a write that no later write lies on one line with is what its path reads. */
  lemma {:induction false} SetAllSurvivor(root: Entries, writes: seq<(Path, Value)>, i: int)
    requires NonEmptyPaths(writes) && SetAll(root, writes).Ok?
    requires 0 <= i < |writes|
    requires forall j :: i < j < |writes| ==> !Comparable(writes[j].0, writes[i].0)
    ensures Walk(Dict(SetAll(root, writes).value), writes[i].0) == Some(writes[i].1)
    decreases |writes|
  {
    var next := SetPath(root, writes[0].0, writes[0].1).value;
    assert forall j :: 0 <= j < |writes| - 1 ==> writes[1..][j] == writes[j + 1];
    if i == 0 {
      SetAllFrame(next, writes[1..], writes[0].0);
    } else {
      SetAllSurvivor(next, writes[1..], i - 1);
    }
  }

  /** No proper prefix of `path` leads, from `root`, to a non-mapping: exactly when one
      assignment at `path` succeeds (`SetPathOkIff`). */
  predicate Open(root: Entries, path: Path)
  {
    forall i :: 1 <= i < |path| ==> !Blocked(root, path[..i])
  }

  /** The first `j` writes, then write `j`. */
  lemma SetAllNext(root: Entries, writes: seq<(Path, Value)>, j: int)
    requires NonEmptyPaths(writes) && 0 <= j < |writes|
    ensures SetAll(root, writes[..j + 1]) ==
      match SetAll(root, writes[..j]) case Err(e) => Err(e) case Ok(x) => SetPath(x, writes[j].0, writes[j].1)
  {
    assert writes[..j + 1] == writes[..j] + [writes[j]];
    SetAllAppend(root, writes[..j], [writes[j]]);
    var before := SetAll(root, writes[..j]);
    if before.Ok? {
      assert [writes[j]][1..] == [];
    }
  }

  /** A run that succeeds succeeds on every prefix. */
  lemma SetAllPrefixOk(root: Entries, writes: seq<(Path, Value)>, j: int)
    requires NonEmptyPaths(writes) && SetAll(root, writes).Ok? && 0 <= j <= |writes|
    ensures SetAll(root, writes[..j]).Ok?
  {
    assert writes == writes[..j] + writes[j..];
    SetAllAppend(root, writes[..j], writes[j..]);
  }

  /** Why a run fails: some write finds, in the state the writes before it left, a non-mapping
      on a proper prefix of its path, and that prefix is the reported location. */
  lemma {:induction false} SetAllFails(root: Entries, writes: seq<(Path, Value)>, k: int)
    requires NonEmptyPaths(writes) && 0 <= k <= |writes| && SetAll(root, writes[..k]).Err?
    ensures exists j :: 0 <= j < k && SetAll(root, writes[..j]).Ok?
              && Blocked(SetAll(root, writes[..j]).value, SetAll(root, writes[..k]).error.at)
              && 1 <= |SetAll(root, writes[..k]).error.at| && SetAll(root, writes[..k]).error.at < writes[j].0
  {
    assert writes[..0] == [];
    SetAllNext(root, writes, k - 1);
    var at := SetAll(root, writes[..k]).error.at;
    if SetAll(root, writes[..k - 1]).Err? {
      SetAllFails(root, writes, k - 1);
    } else {
      var x := SetAll(root, writes[..k - 1]).value;
      var path := writes[k - 1].0;
      assert at == path[..|at|] && |at| < |path|;
      assert at < path;
    }
  }

  /** The run succeeds exactly when every write finds its path open in the state the writes
      before it left. */
  lemma SetAllOkIff(root: Entries, writes: seq<(Path, Value)>)
    requires NonEmptyPaths(writes)
    ensures SetAll(root, writes).Ok? <==>
      forall j :: 0 <= j < |writes| && SetAll(root, writes[..j]).Ok? ==> Open(SetAll(root, writes[..j]).value, writes[j].0)
  {
    if SetAll(root, writes).Ok? {
      forall j | 0 <= j < |writes| && SetAll(root, writes[..j]).Ok?
        ensures Open(SetAll(root, writes[..j]).value, writes[j].0)
      {
        SetAllOpen(root, writes, j);
      }
    } else {
      SetAllClosed(root, writes);
    }
  }

  /** A run that fails has a write that found its path closed. */
  lemma SetAllClosed(root: Entries, writes: seq<(Path, Value)>)
    requires NonEmptyPaths(writes) && SetAll(root, writes).Err?
    ensures exists j :: 0 <= j < |writes| && SetAll(root, writes[..j]).Ok? && !Open(SetAll(root, writes[..j]).value, writes[j].0)
  {
    assert writes[..|writes|] == writes;
    SetAllFails(root, writes, |writes|);
    var at := SetAll(root, writes).error.at;
    var j :| 0 <= j < |writes| && SetAll(root, writes[..j]).Ok?
      && Blocked(SetAll(root, writes[..j]).value, at) && 1 <= |at| && at < writes[j].0;
    assert at == writes[j].0[..|at|];
  }

  /** In a run that succeeds, each write found its path open. */
  lemma SetAllOpen(root: Entries, writes: seq<(Path, Value)>, j: int)
    requires NonEmptyPaths(writes) && SetAll(root, writes).Ok? && 0 <= j < |writes|
    ensures SetAll(root, writes[..j]).Ok? && Open(SetAll(root, writes[..j]).value, writes[j].0)
  {
    SetAllPrefixOk(root, writes, j + 1);
    SetAllPrefixOk(root, writes, j);
    SetAllNext(root, writes, j);
    SetPathOkIff(SetAll(root, writes[..j]).value, writes[j].0, writes[j].1);
  }

  /** No write's path is a proper prefix of another's. */
  predicate PrefixFree(writes: seq<(Path, Value)>)
  {
    forall j, k :: 0 <= j < |writes| && 0 <= k < |writes| ==> !(writes[j].0 < writes[k].0)
  }

  /** An assignment keeps open every path it is not a proper prefix of: the prefixes it shares
      with that path now reach mappings, and the others read as before. */
  lemma SetPathKeepsOpen(root: Entries, path: Path, v: Value, q: Path)
    requires |path| >= 1 && SetPath(root, path, v).Ok?
    requires Open(root, q) && !(path < q)
    ensures Open(SetPath(root, path, v).value, q)
  {
    var next := SetPath(root, path, v).value;
    forall i | 1 <= i < |q| ensures !Blocked(next, q[..i]) {
      var p := q[..i];
      if p < path {
        SetPathMappings(root, path, v);
        assert p == path[..|p|];
      } else if !(path <= p) {
        SetPathFrame(root, path, v, p);
      }
    }
  }

  /** A sufficient condition for success: no write's path is a proper prefix of another's, and
      none runs through a non-mapping of the starting mapping. */
  lemma {:induction false} SetAllOkWhen(root: Entries, writes: seq<(Path, Value)>)
    requires NonEmptyPaths(writes) && PrefixFree(writes)
    requires forall j :: 0 <= j < |writes| ==> Open(root, writes[j].0)
    ensures SetAll(root, writes).Ok?
    decreases |writes|
  {
    if |writes| > 0 {
      var w := writes[0];
      SetPathOkIff(root, w.0, w.1);
      var next := SetPath(root, w.0, w.1).value;
      var rest := writes[1..];
      forall j | 0 <= j < |rest| ensures Open(next, rest[j].0) {
        assert rest[j] == writes[j + 1];
        SetPathKeepsOpen(root, w.0, w.1, rest[j].0);
      }
      assert forall j :: 0 <= j < |rest| ==> rest[j] == writes[j + 1];
      SetAllOkWhen(next, rest);
    }
  }

  /** Every run of assignments keeps every mapping free of repeated keys. */
  lemma {:induction false} SetAllWellFormed(root: Entries, writes: seq<(Path, Value)>)
    requires NonEmptyPaths(writes) && SetAll(root, writes).Ok?
    requires WellFormed(Dict(root))
    requires forall j :: 0 <= j < |writes| ==> WellFormed(writes[j].1)
    ensures WellFormed(Dict(SetAll(root, writes).value))
    decreases |writes|
  {
    if |writes| > 0 {
      SetPathWellFormed(root, writes[0].0, writes[0].1);
      assert forall j :: 0 <= j < |writes| - 1 ==> writes[1..][j] == writes[j + 1];
      SetAllWellFormed(SetPath(root, writes[0].0, writes[0].1).value, writes[1..]);
    }
  }
}
