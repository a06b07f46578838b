/**
 * Python dictionaries with string keys, as association lists that keep
 * insertion order.  `Put` is item assignment (`d[k] = v`: an existing key keeps
 * its position and takes the new value, a new key is appended), `Remove` is the
 * removal half of `d.pop(k)`, and `FromPairs` is a dictionary built by
 * assigning a sequence of pairs in order, so that later duplicates overwrite
 * earlier ones.
 */
module Dicts {

  datatype Option<T> = None | Some(value: T) {
    function GetOr(default: T): T {
      match this
      case Some(v) => v
      case None => default
    }
  }

  type Dict<V> = seq<(string, V)>

  function Keys<V>(d: Dict<V>): seq<string> {
    seq(|d|, i requires 0 <= i < |d| => d[i].0)
  }

  predicate DistinctKeys<V>(d: Dict<V>) {
    forall i, j :: 0 <= i < j < |d| ==> d[i].0 != d[j].0
  }

  lemma KeysCons<V>(d: Dict<V>)
    requires d != []
    ensures Keys(d) == [d[0].0] + Keys(d[1..])
  {
  }

  /** `d.get(k)`: the value of the first entry keyed `k`. */
  function Lookup<V>(d: Dict<V>, k: string): Option<V> {
    if d == [] then None
    else if d[0].0 == k then Some(d[0].1)
    else Lookup(d[1..], k)
  }

  /** A key has a value exactly when it is one of the keys, and the value
      found is one of the entries. */
  lemma {:induction false} LookupKeys<V>(d: Dict<V>, k: string)
    ensures Lookup(d, k).Some? <==> k in Keys(d)
    ensures Lookup(d, k).Some? ==> (k, Lookup(d, k).value) in d
  {
    if d != [] {
      KeysCons(d);
      LookupKeys(d[1..], k);
    }
  }

  lemma LookupDistinct<V>(d: Dict<V>, i: nat)
    requires DistinctKeys(d) && i < |d|
    ensures Lookup(d, d[i].0) == Some(d[i].1)
  {
    if i > 0 {
      LookupDistinct(d[1..], i - 1);
    }
  }

  /** `d[k] = v`. */
  function Put<V>(d: Dict<V>, k: string, v: V): (r: Dict<V>)
    ensures k in Keys(d) ==> Keys(r) == Keys(d)
    ensures k !in Keys(d) ==> r == d + [(k, v)]
  {
    if d == [] then [(k, v)]
    else
      KeysCons(d);
      if d[0].0 == k then [(k, v)] + d[1..]
      else
        var r := [d[0]] + Put(d[1..], k, v);
        KeysCons(r);
        r
  }

  /** The keys after `d[k] = v`: unchanged, or `k` appended. */
  lemma PutKeys<V>(d: Dict<V>, k: string, v: V)
    ensures Keys(Put(d, k, v)) == if k in Keys(d) then Keys(d) else Keys(d) + [k]
  {
    if k !in Keys(d) {
      assert Keys(d + [(k, v)]) == Keys(d) + [k];
    }
  }

  lemma KeysSnoc<V>(d: Dict<V>)
    requires d != []
    ensures Keys(d) == Keys(d[..|d| - 1]) + [d[|d| - 1].0]
  {
  }

  lemma PutLookup<V>(d: Dict<V>, k: string, v: V, k': string)
    ensures Lookup(Put(d, k, v), k') == if k' == k then Some(v) else Lookup(d, k')
  {
    if d != [] && d[0].0 != k {
      PutLookup(d[1..], k, v, k');
    }
  }

  lemma PutDistinct<V>(d: Dict<V>, k: string, v: V)
    requires DistinctKeys(d)
    ensures DistinctKeys(Put(d, k, v))
  {
    var r := Put(d, k, v);
    if k in Keys(d) {
      assert Keys(r) == Keys(d);
      forall i, j | 0 <= i < j < |r| ensures r[i].0 != r[j].0 {
        assert Keys(r)[i] == Keys(d)[i] && Keys(r)[j] == Keys(d)[j];
      }
    } else {
      forall i | 0 <= i < |d| ensures d[i].0 != k {
        assert Keys(d)[i] == d[i].0;
      }
    }
  }

  /** Removes the first entry keyed `k`, as `d.pop(k)` does on a dictionary. */
  function Remove<V>(d: Dict<V>, k: string): Dict<V> {
    if d == [] then []
    else if d[0].0 == k then d[1..]
    else [d[0]] + Remove(d[1..], k)
  }

  /** `d.pop(k, default)`: the value popped (or `default`) and what is left. */
  function PopOr<V>(d: Dict<V>, k: string, default: V): (V, Dict<V>) {
    (Lookup(d, k).GetOr(default), Remove(d, k))
  }

  /** Popping one key leaves every other key's value as it was. */
  lemma {:induction false} RemoveLookup<V>(d: Dict<V>, k: string)
    ensures forall k' :: k' != k ==> Lookup(Remove(d, k), k') == Lookup(d, k')
  {
    if d != [] && d[0].0 != k {
      RemoveLookup(d[1..], k);
    }
  }

  lemma {:induction false} RemoveOther<V>(d: Dict<V>, k: string, k': string)
    requires k' != k
    ensures Lookup(Remove(d, k), k') == Lookup(d, k')
  {
    if d != [] && d[0].0 != k {
      RemoveOther(d[1..], k, k');
    }
  }

  lemma {:induction false} RemoveMissing<V>(d: Dict<V>, k: string)
    requires k !in Keys(d)
    ensures Remove(d, k) == d
  {
    if d != [] {
      KeysCons(d);
      RemoveMissing(d[1..], k);
    }
  }

  /** `if k in d: v = d.pop(k)`: the value popped, if any, and what is left. */
  method PopIfPresent<V>(d: Dict<V>, k: string) returns (v: Option<V>, rest: Dict<V>)
    ensures v == Lookup(d, k) && rest == Remove(d, k)
    ensures v.None? ==> rest == d
  {
    v := Lookup(d, k);
    LookupKeys(d, k);
    if v.None? {
      RemoveMissing(d, k);
    }
    rest := Remove(d, k);
  }

  /** The entries of `d` whose key is not in `ks`, in order: what is left of
      `d` once every key of `ks` has been popped. */
  function Without<V>(d: Dict<V>, ks: set<string>): (r: Dict<V>)
    ensures |r| <= |d|
  {
    if d == [] then []
    else if d[0].0 in ks then Without(d[1..], ks)
    else [d[0]] + Without(d[1..], ks)
  }

  lemma {:induction false} WithoutLookup<V>(d: Dict<V>, ks: set<string>, k: string)
    ensures Lookup(Without(d, ks), k) == if k in ks then None else Lookup(d, k)
  {
    if d != [] {
      WithoutLookup(d[1..], ks, k);
    }
  }

  lemma {:induction false} WithoutKeys<V>(d: Dict<V>, ks: set<string>, k: string)
    ensures k in Keys(Without(d, ks)) <==> k in Keys(d) && k !in ks
  {
    WithoutLookup(d, ks, k);
    LookupKeys(d, k);
    LookupKeys(Without(d, ks), k);
  }

  lemma {:induction false} WithoutDistinct<V>(d: Dict<V>, ks: set<string>)
    requires DistinctKeys(d)
    ensures DistinctKeys(Without(d, ks))
  {
    if d != [] {
      WithoutDistinct(d[1..], ks);
      var w := Without(d[1..], ks);
      if d[0].0 !in ks {
        assert d[0].0 !in Keys(d[1..]) by {
          forall j | 0 <= j < |d| - 1 ensures Keys(d[1..])[j] != d[0].0 {
            assert d[j + 1].0 != d[0].0;
          }
        }
        forall i | 0 <= i < |w| ensures w[i].0 != d[0].0 {
          assert Keys(w)[i] == w[i].0;
          WithoutKeys(d[1..], ks, w[i].0);
        }
      }
    }
  }

  /** Popping nothing leaves the dictionary as it is. */
  lemma {:induction false} WithoutNone<V>(d: Dict<V>)
    ensures Without(d, {}) == d
  {
    if d != [] {
      WithoutNone(d[1..]);
    }
  }

  lemma {:induction false} WithoutWithout<V>(d: Dict<V>, a: set<string>, b: set<string>)
    ensures Without(Without(d, a), b) == Without(d, a + b)
  {
    if d != [] {
      WithoutWithout(d[1..], a, b);
    }
  }

  /** On a dictionary (distinct keys), popping `k` leaves exactly the entries
      not keyed `k`. */
  lemma {:induction false} RemoveIsWithout<V>(d: Dict<V>, k: string)
    requires DistinctKeys(d)
    ensures Remove(d, k) == Without(d, {k})
  {
    if d != [] {
      if d[0].0 == k {
        WithoutNoKey(d[1..], k);
      } else {
        RemoveIsWithout(d[1..], k);
      }
    }
  }

  lemma {:induction false} WithoutNoKey<V>(d: Dict<V>, k: string)
    requires forall i :: 0 <= i < |d| ==> d[i].0 != k
    ensures Without(d, {k}) == d
  {
    if d != [] {
      WithoutNoKey(d[1..], k);
    }
  }

  /** Popping the keys of a claimed set one after another, from a dictionary:
      popping one more key `k` yields the value `k` has in the original and
      leaves the original without the enlarged claimed set. */
  lemma PopClaimed<V>(d: Dict<V>, claimed: set<string>, k: string, default: V)
    requires DistinctKeys(d) && k !in claimed
    ensures PopOr(Without(d, claimed), k, default)
         == (Lookup(d, k).GetOr(default), Without(d, claimed + {k}))
  {
    WithoutDistinct(d, claimed);
    RemoveIsWithout(Without(d, claimed), k);
    WithoutWithout(d, claimed, {k});
    WithoutLookup(d, claimed, k);
  }

  /** The value of the last pair keyed `k`. */
  function LastValue<V>(ps: Dict<V>, k: string): Option<V> {
    if ps == [] then None
    else if ps[|ps| - 1].0 == k then Some(ps[|ps| - 1].1)
    else LastValue(ps[..|ps| - 1], k)
  }

  /** The last pair keyed `k` in `a + b` is the last one in `b`, if `b` has one. */
  lemma {:induction false} LastValueAppend<V>(a: Dict<V>, b: Dict<V>, k: string)
    ensures LastValue(a + b, k) == if LastValue(b, k).Some? then LastValue(b, k) else LastValue(a, k)
  {
    if b == [] {
      assert a + b == a;
    } else {
      assert (a + b)[..|a + b| - 1] == a + b[..|b| - 1];
      LastValueAppend(a, b[..|b| - 1], k);
    }
  }

  /** Building a dictionary from at least one pair never gives an empty one. */
  lemma FromPairsEmpty<V>(ps: Dict<V>)
    ensures FromPairs(ps) == [] <==> ps == []
  {
    if ps != [] {
      var d := FromPairs(ps[..|ps| - 1]);
      var (k, v) := ps[|ps| - 1];
      if k in Keys(d) {
        assert |Keys(Put(d, k, v))| == |Keys(d)| > 0;
      }
    }
  }

  /** The keys of `ks` in order of first occurrence, duplicates dropped. */
  function Dedup(ks: seq<string>): seq<string> {
    if ks == [] then []
    else
      var rest := Dedup(ks[..|ks| - 1]);
      if ks[|ks| - 1] in rest then rest else rest + [ks[|ks| - 1]]
  }

  /** The dictionary built by `out[k] = v` for each pair of `ps` in turn. */
  function FromPairs<V>(ps: Dict<V>): Dict<V> {
    if ps == [] then []
    else Put(FromPairs(ps[..|ps| - 1]), ps[|ps| - 1].0, ps[|ps| - 1].1)
  }

  /** One more pair is one more assignment. */
  lemma FromPairsSnoc<V>(ps: Dict<V>, k: string, v: V)
    ensures FromPairs(ps + [(k, v)]) == Put(FromPairs(ps), k, v)
  {
    assert (ps + [(k, v)])[..|ps|] == ps;
  }

  /** Building a dictionary pair by pair keeps one entry per distinct key, in
      order of first occurrence, each holding the value of its last pair. */
  lemma {:induction false} FromPairsSpec<V>(ps: Dict<V>)
    ensures DistinctKeys(FromPairs(ps))
    ensures Keys(FromPairs(ps)) == Dedup(Keys(ps))
    ensures forall k :: Lookup(FromPairs(ps), k) == LastValue(ps, k)
  {
    if ps != [] {
      var init := ps[..|ps| - 1];
      var (k, v) := ps[|ps| - 1];
      FromPairsSpec(init);
      PutDistinct(FromPairs(init), k, v);
      assert Keys(ps)[..|ps| - 1] == Keys(init);
      forall k' ensures Lookup(FromPairs(ps), k') == LastValue(ps, k') {
        PutLookup(FromPairs(init), k, v, k');
      }
    }
  }

  /** Building a dictionary invents no entry: each one is a pair of `ps`. */
  lemma {:induction false} FromPairsEntries<V>(ps: Dict<V>)
    ensures forall e :: e in FromPairs(ps) ==> e in ps
  {
    if ps != [] {
      var init := ps[..|ps| - 1];
      FromPairsEntries(init);
      PutEntries(FromPairs(init), ps[|ps| - 1].0, ps[|ps| - 1].1);
    }
  }

  lemma {:induction false} PutEntries<V>(d: Dict<V>, k: string, v: V)
    ensures forall e :: e in Put(d, k, v) ==> e in d || e == (k, v)
  {
    if d != [] && d[0].0 != k {
      PutEntries(d[1..], k, v);
    }
  }

  /** When the keys are already distinct, building the dictionary changes nothing. */
  lemma {:induction false} FromPairsDistinct<V>(ps: Dict<V>)
    requires DistinctKeys(ps)
    ensures FromPairs(ps) == ps
  {
    if ps != [] {
      var init := ps[..|ps| - 1];
      var (k, v) := ps[|ps| - 1];
      FromPairsDistinct(init);
      FromPairsSpec(init);
      assert k !in Keys(init) by {
        forall j | 0 <= j < |init| ensures Keys(init)[j] != k {
          assert ps[j].0 != ps[|ps| - 1].0;
        }
      }
      DedupMembers(Keys(init), k);
    }
  }

  lemma {:induction false} DedupMembers(ks: seq<string>, k: string)
    ensures k in Dedup(ks) <==> k in ks
  {
    if ks != [] {
      DedupMembers(ks[..|ks| - 1], k);
      assert ks == ks[..|ks| - 1] + [ks[|ks| - 1]];
    }
  }
}
