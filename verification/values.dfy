/**
  Configuration values as the resolver sees them after YAML parsing: scalars,
  lists and string-keyed mappings. A mapping is an ordered association list,
  because Python dictionaries remember insertion order; `Put` is the model of
  the assignment `d[k] = v` (replace in place when the key is present, append
  otherwise), so every mapping the model builds keeps its keys distinct.
*/
module Values {

  datatype Option<+T> = None | Some(value: T)

  datatype Result<+T, +E> = Ok(value: T) | Err(error: E) {
    predicate IsFailure() {
      Err?
    }

    function PropagateFailure<U>(): Result<U, E>
      requires Err?
    {
      Err(error)
    }

    function Extract(): T
      requires Ok?
    {
      value
    }
  }

  /** A configuration value. Floats are kept as their decimal text. */
  datatype Value =
    | Null
    | Int(i: int)
    | Bool(b: bool)
    | Float(text: string)
    | Str(s: string)
    | List(items: seq<Value>)
    | Dict(entries: seq<(string, Value)>)

  /** The contents of one mapping, in insertion order. */
  type Entries = seq<(string, Value)>

  /** A termination measure that counts every mapping entry, nested ones included. */
  function Size(v: Value): nat
  {
    match v
    case Dict(e) => 1 + Total(seq(|e|, i requires 0 <= i < |e| => 1 + Size(e[i].1)))
    case _ => 1
  }

  function Total(s: seq<nat>): nat
  {
    if |s| == 0 then 0 else s[0] + Total(s[1..])
  }

  /** The measure of a mapping's contents: every entry counts, and so does what it holds. */
  function EntriesSize(e: Entries): nat
  {
    Size(Dict(e)) - 1
  }

  lemma EntriesSizeUnfold(e: Entries)
    requires |e| > 0
    ensures EntriesSize(e) == 1 + Size(e[0].1) + EntriesSize(e[1..])
  {
    var s := seq(|e|, i requires 0 <= i < |e| => 1 + Size(e[i].1));
    assert s[1..] == seq(|e| - 1, i requires 0 <= i < |e| - 1 => 1 + Size(e[1..][i].1));
  }

  function Keys(e: Entries): (ks: seq<string>)
    ensures |ks| == |e|
    ensures forall i :: 0 <= i < |e| ==> ks[i] == e[i].0
  {
    seq(|e|, i requires 0 <= i < |e| => e[i].0)
  }

  /** `k in d`. */
  predicate HasKey(e: Entries, k: string)
  {
    |e| > 0 && (e[0].0 == k || HasKey(e[1..], k))
  }

  /** The keys of a mapping, as a set. */
  function KeySet(e: Entries): (ks: set<string>)
    ensures forall k :: k in ks <==> HasKey(e, k)
  {
    if |e| == 0 then {} else {e[0].0} + KeySet(e[1..])
  }

  lemma {:induction false} HasKeyIndex(e: Entries, k: string)
    ensures HasKey(e, k) <==> exists i :: 0 <= i < |e| && e[i].0 == k
  {
    if |e| > 0 {
      HasKeyIndex(e[1..], k);
      if exists i :: 0 <= i < |e| && e[i].0 == k {
        var i :| 0 <= i < |e| && e[i].0 == k;
        if i > 0 {
          assert e[1..][i - 1].0 == k;
        }
      }
      if exists i :: 0 <= i < |e[1..]| && e[1..][i].0 == k {
        var i :| 0 <= i < |e[1..]| && e[1..][i].0 == k;
        assert e[i + 1].0 == k;
      }
    }
  }

  /** What a Python dict can hold: no key twice. */
  predicate DistinctKeys(e: Entries)
  {
    forall i, j :: 0 <= i < j < |e| ==> e[i].0 != e[j].0
  }

  /** Dropping the first entry of a mapping with distinct keys leaves distinct keys, and
      none of them is the dropped one. */
  lemma DistinctTail(e: Entries)
    requires |e| > 0 && DistinctKeys(e)
    ensures DistinctKeys(e[1..]) && !HasKey(e[1..], e[0].0)
  {
    HasKeyIndex(e[1..], e[0].0);
  }

  /** Distinct keys in every mapping reachable from `v`, through lists too. */
  predicate WellFormed(v: Value)
  {
    match v
    case Dict(e) => DistinctKeys(e) && forall i :: 0 <= i < |e| ==> WellFormed(e[i].1)
    case List(items) => forall i :: 0 <= i < |items| ==> WellFormed(items[i])
    case _ => true
  }

  /** Dictionary lookup `d.get(k)`: the first entry with key `k`. */
  function Get(e: Entries, k: string): (r: Option<Value>)
    ensures r.Some? <==> HasKey(e, k)
  {
    if |e| == 0 then None
    else if e[0].0 == k then Some(e[0].1)
    else Get(e[1..], k)
  }

  /** Lookup in a concatenation: the first part answers when it holds the key, the second
      otherwise. */
  lemma {:induction false} GetAppend(a: Entries, b: Entries, k: string)
    ensures Get(a + b, k) == if HasKey(a, k) then Get(a, k) else Get(b, k)
  {
    if |a| == 0 {
      assert a + b == b;
    } else {
      assert (a + b)[1..] == a[1..] + b;
      GetAppend(a[1..], b, k);
    }
  }

  /** Dictionary assignment `d[k] = v`. */
  function Put(e: Entries, k: string, v: Value): (r: Entries)
    ensures Get(r, k) == Some(v)
    ensures forall k' :: k' != k ==> Get(r, k') == Get(e, k')
  {
    if |e| == 0 then [(k, v)]
    else if e[0].0 == k then [(k, v)] + e[1..]
    else [e[0]] + Put(e[1..], k, v)
  }

  /** A found value is the value of an entry of the mapping. */
  lemma {:induction false} GetMember(e: Entries, k: string)
    requires Get(e, k).Some?
    ensures exists i :: 0 <= i < |e| && e[i] == (k, Get(e, k).value)
  {
    if e[0].0 != k {
      GetMember(e[1..], k);
      var i :| 0 <= i < |e[1..]| && e[1..][i] == (k, Get(e, k).value);
      assert e[i + 1] == e[1..][i];
    }
  }

  lemma GetWellFormed(e: Entries, k: string)
    requires WellFormed(Dict(e)) && Get(e, k).Some?
    ensures WellFormed(Get(e, k).value)
  {
    GetMember(e, k);
  }

  /** Assignment to a present key keeps every key in its position. */
  lemma {:induction false} PutPresent(e: Entries, k: string, v: Value)
    requires HasKey(e, k)
    ensures |Put(e, k, v)| == |e|
    ensures forall i :: 0 <= i < |e| ==> Put(e, k, v)[i].0 == e[i].0
  {
    if e[0].0 != k {
      PutPresent(e[1..], k, v);
      var r := Put(e, k, v);
      assert r == [e[0]] + Put(e[1..], k, v);
      forall i | 1 <= i < |e| ensures r[i].0 == e[i].0 {
        assert r[i] == Put(e[1..], k, v)[i - 1];
      }
    }
  }

  /** Assignment to an absent key appends the entry. */
  lemma {:induction false} PutAbsent(e: Entries, k: string, v: Value)
    requires !HasKey(e, k)
    ensures Put(e, k, v) == e + [(k, v)]
  {
    if |e| > 0 {
      PutAbsent(e[1..], k, v);
    }
  }

  /** Assignment to a present key keeps every position; to an absent key it appends. */
  lemma PutShape(e: Entries, k: string, v: Value)
    ensures HasKey(e, k) ==> |Put(e, k, v)| == |e| && forall i :: 0 <= i < |e| ==> Put(e, k, v)[i].0 == e[i].0
    ensures !HasKey(e, k) ==> Put(e, k, v) == e + [(k, v)]
  {
    if HasKey(e, k) {
      PutPresent(e, k, v);
    } else {
      PutAbsent(e, k, v);
    }
  }

  /** In a mapping with distinct keys, lookup finds the entry that holds the key. */
  lemma {:induction false} GetDistinct(e: Entries, i: int)
    requires DistinctKeys(e) && 0 <= i < |e|
    ensures Get(e, e[i].0) == Some(e[i].1)
  {
    if i > 0 {
      GetDistinct(e[1..], i - 1);
    }
  }

  /** Lookup finds the first entry that holds the key. */
  lemma {:induction false} GetAt(e: Entries, i: nat)
    requires i < |e| && forall j :: 0 <= j < i ==> e[j].0 != e[i].0
    ensures Get(e, e[i].0) == Some(e[i].1)
  {
    if i > 0 {
      GetAt(e[1..], i - 1);
    }
  }

  lemma {:induction false} PutDistinct(e: Entries, k: string, v: Value)
    requires DistinctKeys(e)
    ensures DistinctKeys(Put(e, k, v))
  {
    var r := Put(e, k, v);
    PutShape(e, k, v);
    if HasKey(e, k) {
    } else {
      HasKeyIndex(e, k);
      forall i, j | 0 <= i < j < |r| ensures r[i].0 != r[j].0 {
        if j == |e| {
          assert r[i].0 == e[i].0;
        }
      }
    }
  }

  /** Assignment keeps every mapping free of repeated keys. */
  lemma PutWellFormed(e: Entries, k: string, v: Value)
    requires WellFormed(Dict(e)) && WellFormed(v)
    ensures WellFormed(Dict(Put(e, k, v)))
  {
    PutDistinct(e, k, v);
    var r := Put(e, k, v);
    forall i | 0 <= i < |r| ensures WellFormed(r[i].1) {
      if r[i].0 == k {
        assert Get(r, k) == Some(r[i].1) by { GetDistinct(r, i); }
      } else {
        GetDistinct(r, i);
        assert Get(e, r[i].0) == Some(r[i].1);
        GetMember(e, r[i].0);
      }
    }
  }

  /** Assigning the value a key already holds changes nothing. */
  lemma {:induction false} PutSame(e: Entries, k: string, v: Value)
    requires Get(e, k) == Some(v)
    ensures Put(e, k, v) == e
  {
    if e[0].0 != k {
      PutSame(e[1..], k, v);
      assert [e[0]] + e[1..] == e;
    } else {
      assert [(k, v)] + e[1..] == e;
    }
  }

  /** A second assignment to the same key overrides the first in place. */
  lemma {:induction false} PutPut(e: Entries, k: string, a: Value, b: Value)
    ensures Put(Put(e, k, a), k, b) == Put(e, k, b)
  {
    if |e| > 0 && e[0].0 != k {
      PutPut(e[1..], k, a, b);
    }
  }
}
