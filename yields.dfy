/**
 * `parse_yields`: every key/value pair of every listed mapping becomes one
 * single-key entry, the value coerced and an empty key replaced by the
 * default yield unit.
 */
module Yields {
  import opened Dicts
  import opened RawTree
  import opened Coercion
  import opened Diagnostics
  import opened Registry

  /** A yield entry: `{unit: amount}`. */
  type Yield = (string, Amount)

  /** A mapping of the list whose values `int()` can be applied to without
      raising TypeError. */
  predicate YieldMapShape(x: Raw) {
    x.Map? && forall i :: 0 <= i < |x.entries| ==> x.entries[i].1.Int? || x.entries[i].1.Str?
  }

  predicate AllYieldMaps(xs: seq<Raw>) {
    forall i :: 0 <= i < |xs| ==> YieldMapShape(xs[i])
  }

  predicate YieldsShape(src: Raw) {
    IsAbsent(src) || (src.List? && AllYieldMaps(src.items))
  }

  /** One pair: the amount is coerced (warned about when it is only a float or
      not a number), then an empty unit is replaced by the default. */
  function Pair(key: string, value: Raw, d: Defaults): Parsed<Yield>
    requires value.Int? || value.Str?
  {
    var a := Coerce(value);
    var amountLog := if a.FloatAmt? then [YieldFloat] else if a.TextAmt? then [YieldNotNumeric] else [];
    if key == "" then Parsed((d.yieldsUnit, a), amountLog + [NoYieldsUnit(d.yieldsUnit)])
    else Parsed((key, a), amountLog)
  }

  predicate PairsShape(es: Dict<Raw>) {
    forall i :: 0 <= i < |es| ==> es[i].1.Int? || es[i].1.Str?
  }

  /** The pairs of one mapping, in order. */
  function Pairs(es: Dict<Raw>, d: Defaults): (r: Parsed<seq<Yield>>)
    requires PairsShape(es)
    ensures |r.value| == |es|
  {
    if es == [] then Parsed([], [])
    else
      var p := Pairs(es[..|es| - 1], d);
      var q := Pair(es[|es| - 1].0, es[|es| - 1].1, d);
      Parsed(p.value + [q.value], p.log + q.log)
  }

  /** Every pair of every mapping of `xs`, in order. */
  function AllPairs(xs: seq<Raw>): (ps: Dict<Raw>)
    requires AllYieldMaps(xs)
    ensures PairsShape(ps)
  {
    if xs == [] then []
    else AllPairs(xs[..|xs| - 1]) + xs[|xs| - 1].entries
  }

  /** The mappings of `xs` in order. */
  function Maps(xs: seq<Raw>, d: Defaults): (r: Parsed<seq<Yield>>)
    requires AllYieldMaps(xs)
  {
    if xs == [] then Parsed([], [])
    else
      var p := Maps(xs[..|xs| - 1], d);
      var q := Pairs(xs[|xs| - 1].entries, d);
      Parsed(p.value + q.value, p.log + q.log)
  }

  function YieldsOf(src: Raw, d: Defaults): Parsed<seq<Yield>>
    requires YieldsShape(src)
  {
    if IsAbsent(src) then Parsed([], []) else Maps(src.items, d)
  }

  lemma MapsStep(xs: seq<Raw>, i: nat, d: Defaults)
    requires AllYieldMaps(xs) && i < |xs|
    ensures AllYieldMaps(xs[..i]) && AllYieldMaps(xs[..i + 1])
    ensures Maps(xs[..i + 1], d) ==
            Parsed(Maps(xs[..i], d).value + Pairs(xs[i].entries, d).value,
                   Maps(xs[..i], d).log + Pairs(xs[i].entries, d).log)
  {
    assert xs[..i + 1][..i] == xs[..i];
  }

  lemma PairsStep(es: Dict<Raw>, j: nat, d: Defaults)
    requires PairsShape(es) && j < |es|
    ensures PairsShape(es[..j]) && PairsShape(es[..j + 1])
    ensures Pairs(es[..j + 1], d) ==
            Parsed(Pairs(es[..j], d).value + [Pair(es[j].0, es[j].1, d).value],
                   Pairs(es[..j], d).log + Pair(es[j].0, es[j].1, d).log)
  {
    assert es[..j + 1][..j] == es[..j];
  }

  /** `parse_yields`, loop for loop. */
  method ParseYields(src: Raw, d: Defaults) returns (out: seq<Yield>, log: seq<Warning>)
    requires YieldsShape(src)
    ensures Parsed(out, log) == YieldsOf(src, d)
  {
    out, log := [], [];
    if !IsAbsent(src) {
      var xs := src.items;
      var i := 0;
      while i < |xs|
        invariant 0 <= i <= |xs|
        invariant Parsed(out, log) == Maps(xs[..i], d)
      {
        var entries, entriesLog := ParseMapping(xs[i].entries, d);
        MapsStep(xs, i, d);
        out := out + entries;
        log := log + entriesLog;
        i := i + 1;
      }
      assert xs[..i] == xs;
    }
  }

  /** The inner loop of `parse_yields`: the pairs of one mapping. */
  method ParseMapping(es: Dict<Raw>, d: Defaults) returns (out: seq<Yield>, log: seq<Warning>)
    requires PairsShape(es)
    ensures Parsed(out, log) == Pairs(es, d)
  {
    out, log := [], [];
    var j := 0;
    while j < |es|
      invariant 0 <= j <= |es|
      invariant Parsed(out, log) == Pairs(es[..j], d)
    {
      var entry, entryLog := ParsePair(es[j].0, es[j].1, d);
      PairsStep(es, j, d);
      out := out + [entry];
      log := log + entryLog;
      j := j + 1;
    }
    assert es[..j] == es;
  }

  /** The body of the inner loop of `parse_yields`: one `{key: value}`. */
  method ParsePair(key: string, value: Raw, d: Defaults) returns (entry: Yield, log: seq<Warning>)
    requires value.Int? || value.Str?
    ensures Parsed(entry, log) == Pair(key, value, d)
  {
    log := [];
    var amount := Coerce(value);
    if amount.FloatAmt? {
      log := log + [YieldFloat];
    } else if amount.TextAmt? {
      log := log + [YieldNotNumeric];
    }
    var unit := key;
    if unit == "" {
      unit := d.yieldsUnit;
      log := log + [NoYieldsUnit(unit)];
    }
    entry := (unit, amount);
  }

  /** One entry per key/value pair over all the mappings, in order, each the
      parse of its own pair. */
  lemma {:induction false} MapsFlatten(xs: seq<Raw>, d: Defaults)
    requires AllYieldMaps(xs)
    ensures |Maps(xs, d).value| == |AllPairs(xs)|
    ensures forall i :: 0 <= i < |AllPairs(xs)| ==>
              Maps(xs, d).value[i] == Pair(AllPairs(xs)[i].0, AllPairs(xs)[i].1, d).value
  {
    if xs != [] {
      var init := xs[..|xs| - 1];
      MapsFlatten(init, d);
      var ps, es := AllPairs(init), xs[|xs| - 1].entries;
      var p, q := Maps(init, d).value, Pairs(es, d).value;
      PairsEntries(es, d);
      assert AllPairs(xs) == ps + es;
      assert Maps(xs, d).value == p + q;
      forall i | 0 <= i < |ps + es|
        ensures (p + q)[i] == Pair((ps + es)[i].0, (ps + es)[i].1, d).value
      {
        if i >= |ps| {
          assert (ps + es)[i] == es[i - |ps|];
        }
      }
    }
  }

  /** Each pair of a mapping is parsed on its own. */
  lemma {:induction false} PairsEntries(es: Dict<Raw>, d: Defaults)
    requires PairsShape(es)
    ensures forall i :: 0 <= i < |es| ==> Pairs(es, d).value[i] == Pair(es[i].0, es[i].1, d).value
  {
    if es != [] {
      PairsEntries(es[..|es| - 1], d);
    }
  }

  /** The yields field: absent gives no entries; otherwise one entry per
      key/value pair of all the mappings, in order. */
  lemma YieldsEntries(src: Raw, d: Defaults)
    requires YieldsShape(src)
    ensures IsAbsent(src) ==> YieldsOf(src, d) == Parsed([], [])
    ensures !IsAbsent(src) ==> |YieldsOf(src, d).value| == |AllPairs(src.items)|
    ensures !IsAbsent(src) ==>
              forall i :: 0 <= i < |AllPairs(src.items)| ==>
                YieldsOf(src, d).value[i] == Pair(AllPairs(src.items)[i].0, AllPairs(src.items)[i].1, d).value
  {
    if !IsAbsent(src) {
      MapsFlatten(src.items, d);
    }
  }

  /** One pair: the unit is the key, or the default unit with a warning when
      the key is empty; the amount is the coerced value, and a value that is
      neither int nor float is kept as its text, with a warning. */
  lemma PairCases(key: string, value: Raw, d: Defaults)
    requires value.Int? || value.Str?
    ensures Pair(key, value, d).value.0 == if key == "" then d.yieldsUnit else key
    ensures NoYieldsUnit(d.yieldsUnit) in Pair(key, value, d).log <==> key == ""
    ensures Pair(key, value, d).value.1 == Coerce(value)
    ensures Coerce(value).TextAmt? ==>
              value == Str(Coerce(value).text) && YieldNotNumeric in Pair(key, value, d).log
    ensures YieldFloat in Pair(key, value, d).log <==> Coerce(value).FloatAmt?
  {
  }
}
