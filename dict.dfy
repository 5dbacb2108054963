/**
 * A Python `dict` with string keys: a list of (key, value) entries in
 * insertion order. Assigning to a present key replaces its value where it
 * stands; assigning to a new key appends it; `pop` removes it.
 *
 * The operations are plain recursive functions; what they promise is
 * stated by the lemmas that follow each one.
 */
module Dict {
  import opened Wrappers

  function Keys<V(==)>(d: seq<(string, V)>): (r: seq<string>)
    ensures |r| == |d|
  {
    if d == [] then [] else [d[0].0] + Keys(d[1..])
  }

  /** The keys are listed entry by entry. */
  lemma {:induction false} KeysAt<V>(d: seq<(string, V)>)
    ensures forall i :: 0 <= i < |d| ==> Keys(d)[i] == d[i].0
  {
    if d != [] {
      KeysAt(d[1..]);
    }
  }

  /** No key is entered twice. */
  predicate DistinctKeys<V(==)>(d: seq<(string, V)>) {
    forall i, j :: 0 <= i < j < |d| ==> d[i].0 != d[j].0
  }

  /** `d.get(k)`: a value exactly for the keys present. */
  function Get<V(==)>(d: seq<(string, V)>, k: string): (r: Option<V>)
    ensures r.None? <==> k !in Keys(d)
  {
    if d == [] then None
    else if d[0].0 == k then
      assert Keys(d)[0] == k;
      Some(d[0].1)
    else
      assert Keys(d) == [d[0].0] + Keys(d[1..]);
      Get(d[1..], k)
  }

  /** The value `d.get(k)` finds is entered under `k`. */
  lemma {:induction false} GetFound<V>(d: seq<(string, V)>, k: string)
    requires Get(d, k).Some?
    ensures exists i :: 0 <= i < |d| && d[i] == (k, Get(d, k).value)
  {
    if d[0].0 != k {
      GetFound(d[1..], k);
      var i :| 0 <= i < |d[1..]| && d[1..][i] == (k, Get(d, k).value);
      assert d[i + 1] == (k, Get(d, k).value);
    }
  }

  /** `d[k] = v`. */
  function Put<V(==)>(d: seq<(string, V)>, k: string, v: V): seq<(string, V)> {
    if d == [] then [(k, v)]
    else if d[0].0 == k then [(k, v)] + d[1..]
    else [d[0]] + Put(d[1..], k, v)
  }

  /** Assigning keeps the keys in place and appends a new one. */
  lemma {:induction false} PutKeys<V>(d: seq<(string, V)>, k: string, v: V)
    ensures Keys(Put(d, k, v)) == if k in Keys(d) then Keys(d) else Keys(d) + [k]
  {
    if d != [] {
      assert Keys(d) == [d[0].0] + Keys(d[1..]);
      if d[0].0 == k {
        assert Keys([(k, v)] + d[1..]) == Keys(d);
      } else {
        PutKeys(d[1..], k, v);
        assert Keys([d[0]] + Put(d[1..], k, v)) == [d[0].0] + Keys(Put(d[1..], k, v));
      }
    }
  }

  /** After `d[k] = v`, `d.get(k)` is `v`. */
  lemma {:induction false} PutGet<V>(d: seq<(string, V)>, k: string, v: V)
    ensures Get(Put(d, k, v), k) == Some(v)
  {
    if d != [] && d[0].0 != k {
      PutGet(d[1..], k, v);
    }
  }

  /** `d[k] = v` leaves every other key's value alone. */
  lemma {:induction false} PutOther<V>(d: seq<(string, V)>, k: string, v: V, other: string)
    requires other != k
    ensures Get(Put(d, k, v), other) == Get(d, other)
  {
    if d != [] && d[0].0 != k {
      PutOther(d[1..], k, v, other);
    }
  }

  /** Every entry after `d[k] = v` was there before or is the new one. */
  lemma {:induction false} PutMembers<V>(d: seq<(string, V)>, k: string, v: V)
    ensures forall e :: e in Put(d, k, v) ==> e in d || e == (k, v)
  {
    if d != [] && d[0].0 != k {
      PutMembers(d[1..], k, v);
    }
  }

  /** `d.pop(k, None)` for its effect on `d`. */
  function Remove<V(==)>(d: seq<(string, V)>, k: string): seq<(string, V)> {
    if d == [] then []
    else if d[0].0 == k then Remove(d[1..], k)
    else [d[0]] + Remove(d[1..], k)
  }

  /** After `d.pop(k)`, `d.get(k)` is `None`. */
  lemma {:induction false} RemoveGet<V>(d: seq<(string, V)>, k: string)
    ensures Get(Remove(d, k), k) == None
  {
    if d != [] {
      RemoveGet(d[1..], k);
    }
  }

  /** `d.pop(k)` leaves every other key's value alone. */
  lemma {:induction false} RemoveOther<V>(d: seq<(string, V)>, k: string, other: string)
    requires other != k
    ensures Get(Remove(d, k), other) == Get(d, other)
  {
    if d != [] {
      RemoveOther(d[1..], k, other);
    }
  }

  /** `d.pop(k)` only drops entries. */
  lemma {:induction false} RemoveMembers<V>(d: seq<(string, V)>, k: string)
    ensures forall e :: e in Remove(d, k) ==> e in d
    ensures |Remove(d, k)| <= |d|
  {
    if d != [] {
      RemoveMembers(d[1..], k);
    }
  }

  lemma {:induction false} KeysDistinct<V>(d: seq<(string, V)>, i: int)
    requires DistinctKeys(d) && 0 <= i < |d|
    ensures Get(d, d[i].0) == Some(d[i].1)
  {
    if i > 0 {
      KeysDistinct(d[1..], i - 1);
    }
  }

  /** Assigning a new key appends it. */
  lemma {:induction false} PutNew<V>(d: seq<(string, V)>, k: string, v: V)
    requires k !in Keys(d)
    ensures Put(d, k, v) == d + [(k, v)]
  {
    if d != [] {
      assert Keys(d) == [d[0].0] + Keys(d[1..]);
      PutNew(d[1..], k, v);
      assert d == [d[0]] + d[1..];
    }
  }

  /** Assigning keeps the keys distinct. */
  lemma {:induction false} PutDistinct<V>(d: seq<(string, V)>, k: string, v: V)
    requires DistinctKeys(d)
    ensures DistinctKeys(Put(d, k, v))
  {
    var r := Put(d, k, v);
    PutKeys(d, k, v);
    KeysAt(r);
    KeysAt(d);
  }

  /** Removing keeps the keys distinct. */
  lemma {:induction false} RemoveDistinct<V>(d: seq<(string, V)>, k: string)
    requires DistinctKeys(d)
    ensures DistinctKeys(Remove(d, k))
  {
    if d != [] {
      RemoveDistinct(d[1..], k);
      if d[0].0 != k {
        var rest := Remove(d[1..], k);
        RemoveMembers(d[1..], k);
        forall e | e in rest ensures e.0 != d[0].0 {
          assert e in d[1..];
        }
      }
    }
  }
}
