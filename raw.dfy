/**
 * The untyped tree a YAML loader hands to the reader: mappings (ordered, string
 * keys), lists and scalars.  Holds the key normaliser `lower_key` and the
 * small Python predicates the field parsers share.
 */
module RawTree {
  import opened Dicts

  datatype Raw =
    | Map(entries: Dict<Raw>)
    | List(items: seq<Raw>)
    | Str(s: string)
    | Int(n: int)
    | Null

  /** `src is None or src == 'None'`: every parser treats the two alike. */
  predicate IsAbsent(v: Raw) {
    v == Null || v == Str("None")
  }

  /** Python's `not v`. */
  predicate IsFalsy(v: Raw) {
    v == Null || v == Str("") || v == Int(0) || v == List([]) || v == Map([])
  }

  /** `d.get(k)` with `None` for a missing key, the value `d.pop(k, None)` returns. */
  function Field(d: Dict<Raw>, k: string): Raw {
    Lookup(d, k).GetOr(Null)
  }

  predicate StartsWith(s: string, prefix: string) {
    |prefix| <= |s| && s[..|prefix|] == prefix
  }

  // ASCII case mapping; str.lower()/str.upper() on other characters are not modelled.

  function LowerChar(c: char): char {
    if 'A' <= c <= 'Z' then (c as int + 32) as char else c
  }

  function UpperChar(c: char): char {
    if 'a' <= c <= 'z' then (c as int - 32) as char else c
  }

  function Lower(s: string): (r: string)
    ensures |r| == |s|
  {
    seq(|s|, i requires 0 <= i < |s| => LowerChar(s[i]))
  }

  function Upper(s: string): (r: string)
    ensures |r| == |s|
  {
    seq(|s|, i requires 0 <= i < |s| => UpperChar(s[i]))
  }

  /** Lowercasing twice is lowercasing once. */
  lemma LowerIdempotent(s: string)
    ensures Lower(Lower(s)) == Lower(s)
  {
    assert forall i :: 0 <= i < |s| ==> Lower(Lower(s))[i] == Lower(s)[i];
  }

  /** `lower_key`: lowercases every mapping key at every depth.  A mapping is
      rebuilt by `out[key.lower()] = lower_key(item)` in order, so two keys that
      only differ in case collapse into one entry. */
  function LowerKey(t: Raw): Raw {
    match t
    case Map(es) =>
      Map(FromPairs(seq(|es|, i requires 0 <= i < |es| => (Lower(es[i].0), LowerKey(es[i].1)))))
    case List(xs) =>
      List(seq(|xs|, i requires 0 <= i < |xs| => LowerKey(xs[i])))
    case _ => t
  }

  /** The pairs `(key.lower(), lower_key(item))` in input order. */
  function LowerEntries(es: Dict<Raw>): (ps: Dict<Raw>)
    ensures |ps| == |es|
  {
    seq(|es|, i requires 0 <= i < |es| => (Lower(es[i].0), LowerKey(es[i].1)))
  }

  function LowerKeys(es: Dict<Raw>): seq<string> {
    seq(|es|, i requires 0 <= i < |es| => Lower(es[i].0))
  }

  /** Every mapping key at every depth is lowercase, and no mapping repeats a key. */
  predicate IsLowered(t: Raw) {
    match t
    case Map(es) =>
      DistinctKeys(es) && forall i :: 0 <= i < |es| ==> Lower(es[i].0) == es[i].0 && IsLowered(es[i].1)
    case List(xs) => forall i :: 0 <= i < |xs| ==> IsLowered(xs[i])
    case _ => true
  }

  /** The shape `lower_key` keeps: scalars unchanged; a list keeps its length
      and is mapped element by element; a mapping keeps one entry per distinct
      lowercased key, in order of first occurrence, holding the lowered value
      of the last key that lowercases to it; and when no two keys collide, the
      mapping keeps its length and order entry by entry. */
  lemma LowerKeyShape(t: Raw)
    ensures !t.Map? && !t.List? ==> LowerKey(t) == t
    ensures t.List? ==> LowerKey(t).List? && |LowerKey(t).items| == |t.items|
    ensures t.List? ==> forall i :: 0 <= i < |t.items| ==> LowerKey(t).items[i] == LowerKey(t.items[i])
    ensures t.Map? ==> LowerKey(t).Map? && Keys(LowerKey(t).entries) == Dedup(LowerKeys(t.entries))
    ensures t.Map? ==> forall k :: Lookup(LowerKey(t).entries, k) == LastValue(LowerEntries(t.entries), k)
    ensures t.Map? && DistinctKeys(LowerEntries(t.entries)) ==>
              |LowerKey(t).entries| == |t.entries| &&
              forall i :: 0 <= i < |t.entries| ==>
                LowerKey(t).entries[i] == (Lower(t.entries[i].0), LowerKey(t.entries[i].1))
  {
    if t.Map? {
      var ps := LowerEntries(t.entries);
      assert LowerKey(t).entries == FromPairs(ps);
      assert Keys(ps) == LowerKeys(t.entries);
      FromPairsSpec(ps);
      if DistinctKeys(ps) {
        FromPairsDistinct(ps);
      }
    }
  }

  /** The result of `lower_key` has lowercase, distinct keys at every depth. */
  lemma {:induction false} LowerKeyIsLowered(t: Raw)
    ensures IsLowered(LowerKey(t))
  {
    match t
    case Map(es) =>
      var ps := LowerEntries(es);
      var r := FromPairs(ps);
      assert LowerKey(t) == Map(r);
      FromPairsSpec(ps);
      FromPairsEntries(ps);
      forall i | 0 <= i < |r| ensures Lower(r[i].0) == r[i].0 && IsLowered(r[i].1) {
        assert r[i] in ps;
        var j :| 0 <= j < |ps| && ps[j] == r[i];
        LowerIdempotent(es[j].0);
        LowerKeyIsLowered(es[j].1);
      }
    case List(xs) =>
      forall i | 0 <= i < |xs| ensures IsLowered(LowerKey(t).items[i]) {
        LowerKeyIsLowered(xs[i]);
      }
    case _ =>
  }

  /** A tree whose keys are already lowercase and distinct is a fixed point. */
  lemma {:induction false} LowerKeyFixes(t: Raw)
    requires IsLowered(t)
    ensures LowerKey(t) == t
  {
    match t
    case Map(es) =>
      var ps := LowerEntries(es);
      forall i | 0 <= i < |es| ensures ps[i] == es[i] {
        LowerKeyFixes(es[i].1);
      }
      assert ps == es;
      FromPairsDistinct(es);
    case List(xs) =>
      forall i | 0 <= i < |xs| ensures LowerKey(xs[i]) == xs[i] {
        LowerKeyFixes(xs[i]);
      }
      assert LowerKey(t).items == xs;
    case _ =>
  }

  /** Key-case invariance: lowering an already lowered tree changes nothing. */
  lemma LowerKeyIdempotent(t: Raw)
    ensures LowerKey(LowerKey(t)) == LowerKey(t)
  {
    LowerKeyIsLowered(t);
    LowerKeyFixes(LowerKey(t));
  }
}
