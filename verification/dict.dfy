/**
 * Python's `dict`: a finite map that remembers insertion order. Assigning to an existing key
 * keeps the key's position and replaces its value; a new key goes to the end.
 */
module Dict {
  import opened Wrappers

  datatype Dict<K, V> = Dict(entries: seq<(K, V)>)

  function Empty<K, V>(): Dict<K, V> {
    Dict([])
  }

  /** The keys a sequence of entries mentions. */
  function KeysOf<K(==), V>(es: seq<(K, V)>): set<K> {
    set i | 0 <= i < |es| :: es[i].0
  }

  function Keys<K(==), V>(d: Dict<K, V>): set<K> {
    KeysOf(d.entries)
  }

  /** Keys in iteration order. */
  function KeySeq<K, V>(d: Dict<K, V>): (ks: seq<K>)
    ensures |ks| == |d.entries|
    ensures forall i :: 0 <= i < |ks| ==> ks[i] == d.entries[i].0
  {
    seq(|d.entries|, i requires 0 <= i < |d.entries| => d.entries[i].0)
  }

  /** `d.values()` in iteration order. */
  function Values<K, V>(d: Dict<K, V>): (vs: seq<V>)
    ensures |vs| == |d.entries|
    ensures forall i :: 0 <= i < |vs| ==> vs[i] == d.entries[i].1
  {
    seq(|d.entries|, i requires 0 <= i < |d.entries| => d.entries[i].1)
  }

  /** No key occurs twice: true of every dict Python builds. */
  predicate Distinct<K(==), V>(es: seq<(K, V)>) {
    forall i, j | 0 <= i < j < |es| :: es[i].0 != es[j].0
  }

  predicate Wf<K(==), V>(d: Dict<K, V>) {
    Distinct(d.entries)
  }

  function Lookup<K(==), V>(es: seq<(K, V)>, k: K): Option<V> {
    if |es| == 0 then None
    else if es[0].0 == k then Some(es[0].1)
    else Lookup(es[1..], k)
  }

  lemma {:induction false} LookupKeys<K, V>(es: seq<(K, V)>, k: K)
    ensures Lookup(es, k).Some? <==> k in KeysOf(es)
    decreases |es|
  {
    if |es| > 0 {
      KeysOfConcat([es[0]], es[1..]);
      assert [es[0]] + es[1..] == es;
      assert KeysOf([es[0]]) == {es[0].0} by {
        assert [es[0]][0] == es[0];
      }
      LookupKeys(es[1..], k);
    }
  }

  /** `d.get(k)`: the value stored under `k`, if any. */
  function Get<K(==), V>(d: Dict<K, V>, k: K): (r: Option<V>)
    ensures r.Some? <==> k in Keys(d)
  {
    LookupKeys(d.entries, k);
    Lookup(d.entries, k)
  }

  lemma KeysOfConcat<K, V>(a: seq<(K, V)>, b: seq<(K, V)>)
    ensures KeysOf(a + b) == KeysOf(a) + KeysOf(b)
  {
    var s := a + b;
    forall x | x in KeysOf(s)
      ensures x in KeysOf(a) + KeysOf(b)
    {
      var i :| 0 <= i < |s| && s[i].0 == x;
      if i < |a| {
        assert a[i].0 == x;
      } else {
        assert b[i - |a|].0 == x;
      }
    }
    forall x | x in KeysOf(a)
      ensures x in KeysOf(s)
    {
      var i :| 0 <= i < |a| && a[i].0 == x;
      assert s[i].0 == x;
    }
    forall x | x in KeysOf(b)
      ensures x in KeysOf(s)
    {
      var i :| 0 <= i < |b| && b[i].0 == x;
      assert s[|a| + i].0 == x;
    }
  }

  /** In a dict the first key does not occur again. */
  lemma HeadFresh<K, V>(es: seq<(K, V)>)
    requires Distinct(es) && |es| > 0
    ensures es[0].0 !in KeysOf(es[1..])
  {
    forall m | 0 <= m < |es| - 1
      ensures es[1..][m].0 != es[0].0
    {
      assert es[1..][m] == es[m + 1];
    }
  }

  /** In a dict every entry is what looking up its key finds. */
  lemma {:induction false} LookupAt<K, V>(es: seq<(K, V)>, i: nat)
    requires Distinct(es) && i < |es|
    ensures Lookup(es, es[i].0) == Some(es[i].1)
    decreases i
  {
    if i > 0 {
      assert es[1..][i - 1] == es[i];
      assert Distinct(es[1..]) by {
        forall a, b | 0 <= a < b < |es[1..]|
          ensures es[1..][a].0 != es[1..][b].0
        {
          assert es[1..][a] == es[a + 1] && es[1..][b] == es[b + 1];
        }
      }
      LookupAt(es[1..], i - 1);
      assert es[0].0 != es[i].0;
    }
  }

  /** What a lookup finds is one of the entries. */
  lemma {:induction false} LookupFrom<K, V>(es: seq<(K, V)>, k: K)
    requires Lookup(es, k).Some?
    ensures exists i :: 0 <= i < |es| && es[i] == (k, Lookup(es, k).value)
    decreases |es|
  {
    if es[0].0 == k {
      assert es[0] == (k, Lookup(es, k).value);
    } else {
      LookupFrom(es[1..], k);
      var i :| 0 <= i < |es[1..]| && es[1..][i] == (k, Lookup(es[1..], k).value);
      assert es[i + 1] == es[1..][i];
    }
  }

  /** The entries after `d[k] = v`. */
  function Assign<K(==), V>(es: seq<(K, V)>, k: K, v: V): (r: seq<(K, V)>)
    ensures k in KeysOf(es) ==> |r| == |es| && forall i :: 0 <= i < |es| ==> r[i].0 == es[i].0
    ensures k !in KeysOf(es) ==> r == es + [(k, v)]
    ensures forall i :: 0 <= i < |r| ==> r[i] == (k, v) || (i < |es| && r[i] == es[i])
  {
    if |es| == 0 then [(k, v)]
    else
      assert es == [es[0]] + es[1..];
      KeysOfConcat([es[0]], es[1..]);
      if es[0].0 == k then [(k, v)] + es[1..]
      else [es[0]] + Assign(es[1..], k, v)
  }

  lemma {:induction false} AssignLookup<K, V>(es: seq<(K, V)>, k: K, v: V, k': K)
    ensures Lookup(Assign(es, k, v), k') == if k' == k then Some(v) else Lookup(es, k')
    decreases |es|
  {
    if |es| > 0 && es[0].0 != k {
      AssignLookup(es[1..], k, v, k');
      assert Assign(es, k, v)[1..] == Assign(es[1..], k, v);
    } else if |es| > 0 {
      assert Assign(es, k, v)[1..] == es[1..];
    }
  }

  lemma AssignKeys<K, V>(es: seq<(K, V)>, k: K, v: V)
    ensures KeysOf(Assign(es, k, v)) == KeysOf(es) + {k}
    ensures Distinct(es) ==> Distinct(Assign(es, k, v))
  {
    var r := Assign(es, k, v);
    if k in KeysOf(es) {
      forall x | x in KeysOf(r)
        ensures x in KeysOf(es)
      {
        var i :| 0 <= i < |r| && r[i].0 == x;
        assert es[i].0 == x;
      }
      forall x | x in KeysOf(es)
        ensures x in KeysOf(r)
      {
        var i :| 0 <= i < |es| && es[i].0 == x;
        assert r[i].0 == x;
      }
    } else {
      KeysOfConcat(es, [(k, v)]);
      assert KeysOf([(k, v)]) == {k} by {
        assert [(k, v)][0].0 == k;
      }
      if Distinct(es) {
        forall i, j | 0 <= i < j < |r|
          ensures r[i].0 != r[j].0
        {
          if j == |es| {
            assert r[i] == es[i];
            assert es[i].0 in KeysOf(es);
          } else {
            assert r[i] == es[i] && r[j] == es[j];
          }
        }
      }
    }
  }

  /** `d[k] = v`. */
  function Put<K(==, !new), V>(d: Dict<K, V>, k: K, v: V): (r: Dict<K, V>)
    ensures Get(r, k) == Some(v)
    ensures forall k' :: k' != k ==> Get(r, k') == Get(d, k')
    ensures Keys(r) == Keys(d) + {k}
    ensures Wf(d) ==> Wf(r)
    ensures k in Keys(d) ==> KeySeq(r) == KeySeq(d)
    ensures k !in Keys(d) ==> r.entries == d.entries + [(k, v)]
    ensures forall i :: 0 <= i < |r.entries| ==> r.entries[i] == (k, v) || (i < |d.entries| && r.entries[i] == d.entries[i])
  {
    var r := Assign(d.entries, k, v);
    AssignKeys(d.entries, k, v);
    assert forall k' :: Lookup(r, k') == if k' == k then Some(v) else Lookup(d.entries, k') by {
      forall k'
        ensures Lookup(r, k') == if k' == k then Some(v) else Lookup(d.entries, k')
      {
        AssignLookup(d.entries, k, v, k');
      }
    }
    Dict(r)
  }

  /** The entries after `del d[k]` (the entry with key `k` is dropped). */
  function Drop<K(==, !new), V>(es: seq<(K, V)>, k: K): (r: seq<(K, V)>)
    requires Distinct(es)
    ensures Distinct(r)
    ensures Lookup(r, k) == None
    ensures forall k' :: k' != k ==> Lookup(r, k') == Lookup(es, k')
    ensures KeysOf(r) == KeysOf(es) - {k}
  {
    if |es| == 0 then []
    else
      assert es == [es[0]] + es[1..];
      KeysOfConcat([es[0]], es[1..]);
      HeadFresh(es);
      if es[0].0 == k then
        LookupKeys(es[1..], k);
        es[1..]
      else
        var tail := Drop(es[1..], k);
        KeysOfConcat([es[0]], tail);
        forall i, j | 0 <= i < j < |[es[0]] + tail|
          ensures ([es[0]] + tail)[i].0 != ([es[0]] + tail)[j].0
        {
          assert ([es[0]] + tail)[j] == tail[j - 1];
          if i == 0 {
            assert tail[j - 1].0 in KeysOf(tail);
          } else {
            assert ([es[0]] + tail)[i] == tail[i - 1];
          }
        }
        [es[0]] + tail
  }

  /** `del d[k]` for a key that is present. */
  function Delete<K(==, !new), V>(d: Dict<K, V>, k: K): (r: Dict<K, V>)
    requires Wf(d)
    ensures Wf(r)
    ensures Get(r, k) == None
    ensures forall k' :: k' != k ==> Get(r, k') == Get(d, k')
    ensures Keys(r) == Keys(d) - {k}
  {
    Dict(Drop(d.entries, k))
  }

  /** Assigning every pair of `ps` to `d`, first to last (`for k, v in ps: d[k] = v`). */
  function PutAll<K(==, !new), V>(d: Dict<K, V>, ps: seq<(K, V)>): Dict<K, V>
    decreases |ps|
  {
    if |ps| == 0 then d
    else Put(PutAll(d, ps[..|ps| - 1]), ps[|ps| - 1].0, ps[|ps| - 1].1)
  }

  /** The value of the LAST pair of `ps` with key `k`. */
  function LastValue<K(==), V>(ps: seq<(K, V)>, k: K): (r: Option<V>)
    decreases |ps|
  {
    if |ps| == 0 then None
    else if ps[|ps| - 1].0 == k then Some(ps[|ps| - 1].1)
    else LastValue(ps[..|ps| - 1], k)
  }

  lemma KeysOfSnoc<K, V>(ps: seq<(K, V)>)
    requires |ps| > 0
    ensures KeysOf(ps) == KeysOf(ps[..|ps| - 1]) + {ps[|ps| - 1].0}
  {
    assert ps == ps[..|ps| - 1] + [ps[|ps| - 1]];
    KeysOfConcat(ps[..|ps| - 1], [ps[|ps| - 1]]);
    assert KeysOf([ps[|ps| - 1]]) == {ps[|ps| - 1].0} by {
      assert [ps[|ps| - 1]][0].0 == ps[|ps| - 1].0;
    }
  }

  /** After a run of assignments, a key holds the value of its last assignment, or its old
      value when it was never assigned: later pairs win. */
  lemma {:induction false} PutAllGet<K(!new), V>(d: Dict<K, V>, ps: seq<(K, V)>, k: K)
    ensures Get(PutAll(d, ps), k) == if LastValue(ps, k).Some? then LastValue(ps, k) else Get(d, k)
    decreases |ps|
  {
    if |ps| > 0 {
      PutAllGet(d, ps[..|ps| - 1], k);
    }
  }

  /** A run of assignments adds exactly the assigned keys. */
  lemma {:induction false} PutAllKeys<K(!new), V>(d: Dict<K, V>, ps: seq<(K, V)>)
    ensures Keys(PutAll(d, ps)) == Keys(d) + KeysOf(ps)
    decreases |ps|
  {
    if |ps| > 0 {
      PutAllKeys(d, ps[..|ps| - 1]);
      KeysOfSnoc(ps);
    }
  }

  lemma {:induction false} PutAllWf<K(!new), V>(d: Dict<K, V>, ps: seq<(K, V)>)
    requires Wf(d)
    ensures Wf(PutAll(d, ps))
    decreases |ps|
  {
    if |ps| > 0 {
      PutAllWf(d, ps[..|ps| - 1]);
    }
  }

  /** Replaying the entries of a dict into an empty one rebuilds it, order included. */
  lemma {:induction false} PutAllRebuilds<K(!new), V>(es: seq<(K, V)>)
    requires Distinct(es)
    ensures PutAll(Empty(), es) == Dict(es)
    decreases |es|
  {
    if |es| > 0 {
      var init, last := es[..|es| - 1], es[|es| - 1];
      PutLast(es);
      PutAllRebuilds(init);
      assert PutAll(Empty(), es) == Put(Dict(init), last.0, last.1);
    }
  }

  /** A dict without repeated keys is the dict of all its entries but the last, with the
      last one put at the end. */
  lemma PutLast<K(!new), V>(es: seq<(K, V)>)
    requires Distinct(es) && |es| > 0
    ensures Distinct(es[..|es| - 1])
    ensures Put(Dict(es[..|es| - 1]), es[|es| - 1].0, es[|es| - 1].1) == Dict(es)
  {
    var init, last := es[..|es| - 1], es[|es| - 1];
    forall i, j | 0 <= i < j < |init|
      ensures init[i].0 != init[j].0
    {
      assert init[i] == es[i] && init[j] == es[j];
    }
    forall m | 0 <= m < |init|
      ensures init[m].0 != last.0
    {
      assert init[m] == es[m];
    }
    assert last.0 !in Keys(Dict(init));
    assert init + [last] == es;
  }

  /** The last value of `k` comes from a pair with key `k` that no later pair overrides. */
  lemma {:induction false} LastValueFrom<K, V>(ps: seq<(K, V)>, k: K)
    requires LastValue(ps, k).Some?
    ensures exists i :: 0 <= i < |ps| && ps[i] == (k, LastValue(ps, k).value) && (forall j :: i < j < |ps| ==> ps[j].0 != k)
    decreases |ps|
  {
    var n := |ps| - 1;
    if ps[n].0 == k {
      assert ps[n] == (k, LastValue(ps, k).value);
    } else {
      LastValueFrom(ps[..n], k);
      var i :| 0 <= i < n && ps[..n][i] == (k, LastValue(ps[..n], k).value) &&
        (forall j :: i < j < n ==> ps[..n][j].0 != k);
      assert ps[i] == ps[..n][i];
      forall j | i < j < |ps|
        ensures ps[j].0 != k
      {
        if j < n {
          assert ps[j] == ps[..n][j];
        }
      }
    }
  }

  /** A run that never assigns `k` has no value for it. */
  lemma {:induction false} LastValueAbsent<K, V>(ps: seq<(K, V)>, k: K)
    requires forall i :: 0 <= i < |ps| ==> ps[i].0 != k
    ensures LastValue(ps, k) == None
    decreases |ps|
  {
    if |ps| > 0 {
      var n := |ps| - 1;
      assert forall i :: 0 <= i < n ==> ps[..n][i] == ps[i];
      LastValueAbsent(ps[..n], k);
    }
  }

  /** A key assigned in the later run takes its value from there. */
  lemma {:induction false} LastValueConcat<K, V>(a: seq<(K, V)>, b: seq<(K, V)>, k: K)
    ensures LastValue(a + b, k) == if LastValue(b, k).Some? then LastValue(b, k) else LastValue(a, k)
    decreases |b|
  {
    if |b| == 0 {
      assert a + b == a;
    } else {
      var n := |b| - 1;
      assert (a + b)[..|a + b| - 1] == a + b[..n];
      assert (a + b)[|a + b| - 1] == b[n];
      LastValueConcat(a, b[..n], k);
    }
  }

  /** A run of assignments into an empty dict keeps only pairs of the run. */
  lemma {:induction false} PutAllFrom<K(!new), V>(ps: seq<(K, V)>)
    ensures forall i :: 0 <= i < |PutAll(Empty(), ps).entries| ==>
      exists j :: 0 <= j < |ps| && PutAll(Empty(), ps).entries[i] == ps[j]
    decreases |ps|
  {
    if |ps| > 0 {
      var n := |ps| - 1;
      var before := PutAll(Empty(), ps[..n]);
      var after := PutAll(Empty(), ps);
      assert after == Put(before, ps[n].0, ps[n].1);
      PutAllFrom(ps[..n]);
      forall i | 0 <= i < |after.entries|
        ensures exists j :: 0 <= j < |ps| && after.entries[i] == ps[j]
      {
        var e := after.entries[i];
        if e == (ps[n].0, ps[n].1) {
          assert e == ps[n];
        } else {
          assert i < |before.entries| && e == before.entries[i];
          var j :| 0 <= j < n && before.entries[i] == ps[..n][j];
          assert e == ps[j];
        }
      }
    } else {
      assert PutAll(Empty<K, V>(), ps).entries == [];
    }
  }
}
