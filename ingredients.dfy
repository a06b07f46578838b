/**
 * `parse_ingredients`: each listed mapping of ingredient name to details
 * becomes a mapping of the same names to normalised details.  Amount lists
 * are checked against the yield count, amounts are coerced, and the
 * substitutions of a top-level ingredient are parsed by the same rules one
 * level down, where substitutions are never parsed again.
 *
 * Two things are kept as the reader has them.  The substitution branch is
 * entered only when the details hold the key 'substitution' (singular), and
 * then reads the key 'substitutions' (plural); details that only say
 * 'substitutions' lose them.  A missing amount is warned about as if the
 * default amount were used, but no amount is set.
 */
module Ingredients {
  import opened Dicts
  import opened RawTree
  import opened Coercion
  import opened Diagnostics
  import opened Registry

  /** One entry of `amounts`: the unit, the coerced amount when one was given,
      and whatever else the entry held. */
  datatype AmountEntry = AmountEntry(unit: Raw, amount: Option<Amount>, extra: Dict<Raw>)

  /** The details of one ingredient; a missing key of the reader's output is `None`. */
  datatype Detail = Detail(
    amounts: Option<seq<AmountEntry>>,
    processing: Option<Raw>,
    notes: Option<Raw>,
    usdaNum: Option<Raw>,
    substitutions: Option<seq<Dict<Detail>>>)

  /** One element of the ingredient list: ingredient name to details. */
  type Ingredient = Dict<Detail>

  function Max(a: int, b: int): int {
    if a < b then b else a
  }

  function Level(substitution: bool): nat {
    if substitution then 0 else 1
  }

  // What the parser handles without raising: every list element and every
  // details value a mapping, `amounts` a list of mappings whose amount `int()`
  // accepts, and, at the top level, 'substitutions' present whenever
  // 'substitution' is (otherwise `details.pop('substitutions')` raises KeyError).

  predicate AmountItemShape(item: Raw) {
    item.Map? &&
    (Lookup(item.entries, "amount").None? || Lookup(item.entries, "amount").value.Int? ||
     Lookup(item.entries, "amount").value.Str?)
  }

  predicate AllAmountItems(items: seq<Raw>) {
    forall i :: 0 <= i < |items| ==> AmountItemShape(items[i])
  }

  predicate AmountsShape(details: Dict<Raw>) {
    Lookup(details, "amounts").None? ||
    (Lookup(details, "amounts").value.List? && AllAmountItems(Lookup(details, "amounts").value.items))
  }

  predicate DetailShape(details: Dict<Raw>, substitution: bool)
    decreases Level(substitution), 1
  {
    AmountsShape(details) &&
    (!substitution && Lookup(details, "substitution").Some? ==>
       Lookup(details, "substitutions").Some? &&
       IngredientsShape(Lookup(details, "substitutions").value, true))
  }

  predicate AllDetails(es: Dict<Raw>, substitution: bool)
    decreases Level(substitution), 2
  {
    forall j :: 0 <= j < |es| ==> es[j].1.Map? && DetailShape(es[j].1.entries, substitution)
  }

  predicate AllIngredients(xs: seq<Raw>, substitution: bool)
    decreases Level(substitution), 3
  {
    forall i :: 0 <= i < |xs| ==> xs[i].Map? && AllDetails(xs[i].entries, substitution)
  }

  predicate IngredientsShape(src: Raw, substitution: bool)
    decreases Level(substitution), 4
  {
    IsAbsent(src) || (src.List? && AllIngredients(src.items, substitution))
  }

  /** What is left of an amount entry once its unit and amount are popped. */
  function Extras(item: Dict<Raw>): Dict<Raw> {
    Remove(Remove(item, "unit"), "amount")
  }

  /** One warning per field left over in an amount entry, in order. */
  function ExtrasLog(rest: Dict<Raw>, name: string): (ws: seq<Warning>)
    ensures |ws| == |rest|
  {
    seq(|rest|, i requires 0 <= i < |rest| => UnknownAmountField(rest[i].0, name))
  }

  /** One entry of `amounts`.  A float amount is kept without a warning, and
      so is one that is not a number at all. */
  function AmountEntryOf(name: string, item: Dict<Raw>, d: Defaults): Parsed<AmountEntry>
    requires AmountItemShape(Map(item))
  {
    var u := Lookup(item, "unit");
    var a := Lookup(item, "amount");
    var rest := Extras(item);
    Parsed(AmountEntry(if u.None? then Str(d.unit) else u.value,
                       if a.None? then None else Some(Coerce(a.value)),
                       FromPairs(rest)),
           (if u.None? then [NoIngredientUnit(name, d.unit)] else []) +
           (if a.None? then [NoIngredientAmount(name, d.amount)] else []) +
           ExtrasLog(rest, name))
  }

  /** The entries of an `amounts` list, in order. */
  function AmountList(name: string, items: seq<Raw>, d: Defaults): (r: Parsed<seq<AmountEntry>>)
    requires AllAmountItems(items)
    ensures |r.value| == |items|
  {
    if items == [] then Parsed([], [])
    else
      var p := AmountList(name, items[..|items| - 1], d);
      var q := AmountEntryOf(name, items[|items| - 1].entries, d);
      Parsed(p.value + [q.value], p.log + q.log)
  }

  /** The `amounts` of one ingredient: the mismatch warning first, then the
      entries' own warnings. */
  function AmountsOf(name: string, details: Dict<Raw>, d: Defaults, expected: int)
    : Parsed<Option<seq<AmountEntry>>>
    requires AmountsShape(details)
  {
    match Lookup(details, "amounts")
    case None => Parsed(None, [NoAmounts(name)])
    case Some(l) =>
      var r := AmountList(name, l.items, d);
      Parsed(Some(r.value), (if |l.items| != Max(expected, 1) then [AmountsMismatch] else []) + r.log)
  }

  /** The substitutions of one ingredient: parsed only at the top level and
      only when the details hold 'substitution', from the value of
      'substitutions'. */
  function SubstitutionsOf(details: Dict<Raw>, d: Defaults, expected: int, substitution: bool)
    : Parsed<Option<seq<Ingredient>>>
    requires DetailShape(details, substitution)
    decreases Level(substitution), 1, 0
  {
    if !substitution && Lookup(details, "substitution").Some? then
      var subs := IngredientsOf(Lookup(details, "substitutions").value, d, expected, true);
      Parsed(Some(subs.value), subs.log)
    else Parsed(None, [])
  }

  /** The details of one ingredient. */
  function DetailOf(name: string, details: Dict<Raw>, d: Defaults, expected: int, substitution: bool)
    : Parsed<Detail>
    requires DetailShape(details, substitution)
    decreases Level(substitution), 1, 1
  {
    var a := AmountsOf(name, details, d, expected);
    var s := SubstitutionsOf(details, d, expected, substitution);
    Parsed(Detail(a.value, Lookup(details, "processing"), Lookup(details, "notes"),
                  Lookup(details, "usda_num"), s.value),
           a.log + s.log)
  }

  /** One ingredient mapping: `ingredient_item[name] = value` for each of its
      names in order. */
  function EntriesOf(es: Dict<Raw>, d: Defaults, expected: int, substitution: bool): (r: Parsed<Ingredient>)
    requires AllDetails(es, substitution)
    decreases Level(substitution), 2, |es|
  {
    if es == [] then Parsed([], [])
    else
      var init := es[..|es| - 1];
      var (name, details) := es[|es| - 1];
      var p := EntriesOf(init, d, expected, substitution);
      var q := DetailOf(name, details.entries, d, expected, substitution);
      Parsed(Put(p.value, name, q.value), p.log + q.log)
  }

  function ListOf(xs: seq<Raw>, d: Defaults, expected: int, substitution: bool): (r: Parsed<seq<Ingredient>>)
    requires AllIngredients(xs, substitution)
    decreases Level(substitution), 3, |xs|
    ensures |r.value| == |xs|
  {
    if xs == [] then Parsed([], [])
    else
      var p := ListOf(xs[..|xs| - 1], d, expected, substitution);
      var q := EntriesOf(xs[|xs| - 1].entries, d, expected, substitution);
      Parsed(p.value + [q.value], p.log + q.log)
  }

  /** The whole field, or a substitution list when `substitution` is set. */
  function IngredientsOf(src: Raw, d: Defaults, expected: int, substitution: bool): Parsed<seq<Ingredient>>
    requires IngredientsShape(src, substitution)
    decreases Level(substitution), 4, 0
  {
    if IsAbsent(src) then Parsed([], [if substitution then NoSubstitutions else NoIngredients])
    else ListOf(src.items, d, expected, substitution)
  }

  lemma AmountListStep(name: string, items: seq<Raw>, i: nat, d: Defaults)
    requires AllAmountItems(items) && i < |items|
    ensures AllAmountItems(items[..i]) && AllAmountItems(items[..i + 1])
    ensures AmountList(name, items[..i + 1], d) ==
            Parsed(AmountList(name, items[..i], d).value + [AmountEntryOf(name, items[i].entries, d).value],
                   AmountList(name, items[..i], d).log + AmountEntryOf(name, items[i].entries, d).log)
  {
    assert items[..i + 1][..i] == items[..i];
  }

  lemma EntriesStep(es: Dict<Raw>, j: nat, d: Defaults, expected: int, substitution: bool)
    requires AllDetails(es, substitution) && j < |es|
    ensures AllDetails(es[..j], substitution) && AllDetails(es[..j + 1], substitution)
    ensures EntriesOf(es[..j + 1], d, expected, substitution) ==
            var p := EntriesOf(es[..j], d, expected, substitution);
            var q := DetailOf(es[j].0, es[j].1.entries, d, expected, substitution);
            Parsed(Put(p.value, es[j].0, q.value), p.log + q.log)
  {
    assert es[..j + 1][..j] == es[..j];
  }

  lemma ListStep(xs: seq<Raw>, i: nat, d: Defaults, expected: int, substitution: bool)
    requires AllIngredients(xs, substitution) && i < |xs|
    ensures AllIngredients(xs[..i], substitution) && AllIngredients(xs[..i + 1], substitution)
    ensures ListOf(xs[..i + 1], d, expected, substitution) ==
            var p := ListOf(xs[..i], d, expected, substitution);
            var q := EntriesOf(xs[i].entries, d, expected, substitution);
            Parsed(p.value + [q.value], p.log + q.log)
  {
    assert xs[..i + 1][..i] == xs[..i];
  }

  /** One amount entry as the loop body of `parse_ingredients` builds it:
      `item.pop('unit')`, `item.pop('amount')`, then the rest copied over. */
  method ParseAmountItem(name: string, item: Dict<Raw>, d: Defaults) returns (entry: AmountEntry, log: seq<Warning>)
    requires AmountItemShape(Map(item))
    ensures Parsed(entry, log) == AmountEntryOf(name, item, d)
  {
    var unitField, rest := PopIfPresent(item, "unit");
    var unit: Raw;
    var unitLog: seq<Warning> := [];
    if unitField.None? {
      unit := Str(d.unit);
      unitLog := [NoIngredientUnit(name, d.unit)];
    } else {
      unit := unitField.value;
    }
    RemoveLookup(item, "unit");
    var amountField;
    amountField, rest := PopIfPresent(rest, "amount");
    var amount: Option<Amount> := None;
    var amountLog: seq<Warning> := [];
    if amountField.None? {
      amountLog := [NoIngredientAmount(name, d.amount)];
    } else {
      amount := Some(Coerce(amountField.value));
    }
    assert rest == Extras(item);
    var extra, extraLog := CopyExtras(name, rest);
    entry := AmountEntry(unit, amount, extra);
    log := unitLog + amountLog + extraLog;
  }

  /** The fields left in an amount entry, copied over one by one with a
      warning each. */
  method CopyExtras(name: string, rest: Dict<Raw>) returns (extra: Dict<Raw>, log: seq<Warning>)
    ensures extra == FromPairs(rest)
    ensures log == ExtrasLog(rest, name)
  {
    extra, log := [], [];
    var i := 0;
    while i < |rest|
      invariant 0 <= i <= |rest|
      invariant extra == FromPairs(rest[..i])
      invariant log == ExtrasLog(rest[..i], name)
    {
      var (key, val) := rest[i];
      log := log + [UnknownAmountField(key, name)];
      assert rest[..i + 1][..i] == rest[..i];
      extra := Put(extra, key, val);
      i := i + 1;
    }
    assert rest[..i] == rest;
  }

  /** The `amounts` branch of `parse_ingredients`. */
  method ParseAmounts(name: string, amountList: Raw, d: Defaults, expected: int)
    returns (amounts: seq<AmountEntry>, log: seq<Warning>)
    requires amountList.List? && AllAmountItems(amountList.items)
    ensures Parsed(amounts, log) ==
            Parsed(AmountList(name, amountList.items, d).value,
                   (if |amountList.items| != Max(expected, 1) then [AmountsMismatch] else []) +
                   AmountList(name, amountList.items, d).log)
  {
    var items := amountList.items;
    var mismatchLog: seq<Warning> := [];
    if |items| != Max(expected, 1) {
      mismatchLog := [AmountsMismatch];
    }
    amounts := [];
    var entriesLog := [];
    var i := 0;
    while i < |items|
      invariant 0 <= i <= |items|
      invariant Parsed(amounts, entriesLog) == AmountList(name, items[..i], d)
    {
      var entry, entryLog := ParseAmountItem(name, items[i].entries, d);
      AmountListStep(name, items, i, d);
      amounts := amounts + [entry];
      entriesLog := entriesLog + entryLog;
      i := i + 1;
    }
    assert items[..i] == items;
    log := mismatchLog + entriesLog;
  }

  /** The details of one ingredient, popping `amounts`, `processing`, `notes`,
      `usda_num` and (at the top level) `substitutions` in turn. */
  method ParseDetail(name: string, details: Dict<Raw>, d: Defaults, expected: int, substitution: bool)
    returns (value: Detail, log: seq<Warning>)
    requires DetailShape(details, substitution)
    decreases Level(substitution), 1
    ensures Parsed(value, log) == DetailOf(name, details, d, expected, substitution)
  {
    DetailPops(details);
    var amountList, rest := PopIfPresent(details, "amounts");
    var amounts: Option<seq<AmountEntry>> := None;
    var amountsLog: seq<Warning>;
    if amountList.Some? {
      var parsed;
      parsed, amountsLog := ParseAmounts(name, amountList.value, d, expected);
      amounts := Some(parsed);
    } else {
      amountsLog := [NoAmounts(name)];
    }
    var processing, notes, usdaNum;
    processing, rest := PopIfPresent(rest, "processing");
    notes, rest := PopIfPresent(rest, "notes");
    usdaNum, rest := PopIfPresent(rest, "usda_num");
    var substitutions, subsLog := ParseSubstitutions(rest, details, d, expected, substitution);
    value := Detail(amounts, processing, notes, usdaNum, substitutions);
    log := amountsLog + subsLog;
  }

  /** What is left of the details once the four known fields are popped;
      only the substitution keys are read from it. */
  function Popped(details: Dict<Raw>): Dict<Raw> {
    Remove(Remove(Remove(Remove(details, "amounts"), "processing"), "notes"), "usda_num")
  }

  /** Each pop leaves the fields read after it as they were. */
  lemma DetailPops(details: Dict<Raw>)
    ensures Lookup(Remove(details, "amounts"), "processing") == Lookup(details, "processing")
    ensures Lookup(Remove(Remove(details, "amounts"), "processing"), "notes") == Lookup(details, "notes")
    ensures Lookup(Remove(Remove(Remove(details, "amounts"), "processing"), "notes"), "usda_num")
         == Lookup(details, "usda_num")
    ensures Lookup(Popped(details), "substitution") == Lookup(details, "substitution")
    ensures Lookup(Popped(details), "substitutions") == Lookup(details, "substitutions")
  {
    var r1 := Remove(details, "amounts");
    var r2 := Remove(r1, "processing");
    var r3 := Remove(r2, "notes");
    RemoveOther(details, "amounts", "processing");
    RemoveOther(details, "amounts", "notes");
    RemoveOther(details, "amounts", "usda_num");
    RemoveOther(details, "amounts", "substitution");
    RemoveOther(details, "amounts", "substitutions");
    RemoveOther(r1, "processing", "notes");
    RemoveOther(r1, "processing", "usda_num");
    RemoveOther(r1, "processing", "substitution");
    RemoveOther(r1, "processing", "substitutions");
    RemoveOther(r2, "notes", "usda_num");
    RemoveOther(r2, "notes", "substitution");
    RemoveOther(r2, "notes", "substitutions");
    RemoveOther(r3, "usda_num", "substitution");
    RemoveOther(r3, "usda_num", "substitutions");
  }

  /** The substitution branch of `parse_ingredients`, on what is left of
      `details` after the earlier pops. */
  method ParseSubstitutions(rest: Dict<Raw>, ghost details: Dict<Raw>, d: Defaults, expected: int, substitution: bool)
    returns (substitutions: Option<seq<Ingredient>>, log: seq<Warning>)
    requires DetailShape(details, substitution)
    requires Lookup(rest, "substitution") == Lookup(details, "substitution")
    requires Lookup(rest, "substitutions") == Lookup(details, "substitutions")
    decreases Level(substitution), 0
    ensures Parsed(substitutions, log) == SubstitutionsOf(details, d, expected, substitution)
  {
    substitutions, log := None, [];
    if !substitution {
      if Lookup(rest, "substitution").Some? {
        var subs, _ := PopIfPresent(rest, "substitutions");
        var parsed;
        parsed, log := ParseIngredients(subs.value, d, expected, true);
        substitutions := Some(parsed);
      }
    }
  }

  /** One ingredient mapping: the inner loop of `parse_ingredients`. */
  method ParseIngredientItem(es: Dict<Raw>, d: Defaults, expected: int, substitution: bool)
    returns (item: Ingredient, log: seq<Warning>)
    requires AllDetails(es, substitution)
    decreases Level(substitution), 2
    ensures Parsed(item, log) == EntriesOf(es, d, expected, substitution)
  {
    item, log := [], [];
    var j := 0;
    while j < |es|
      invariant 0 <= j <= |es|
      invariant Parsed(item, log) == EntriesOf(es[..j], d, expected, substitution)
    {
      var value, detailLog := ParseDetail(es[j].0, es[j].1.entries, d, expected, substitution);
      EntriesStep(es, j, d, expected, substitution);
      item := Put(item, es[j].0, value);
      log := log + detailLog;
      j := j + 1;
    }
    assert es[..j] == es;
  }

  /** `parse_ingredients`: the outer loop over the ingredient list. */
  method ParseIngredients(src: Raw, d: Defaults, expected: int, substitution: bool)
    returns (out: seq<Ingredient>, log: seq<Warning>)
    requires IngredientsShape(src, substitution)
    decreases Level(substitution), 3
    ensures Parsed(out, log) == IngredientsOf(src, d, expected, substitution)
  {
    out, log := [], [];
    if !IsAbsent(src) {
      var xs := src.items;
      var i := 0;
      while i < |xs|
        invariant 0 <= i <= |xs|
        invariant Parsed(out, log) == ListOf(xs[..i], d, expected, substitution)
      {
        var item, itemLog := ParseIngredientItem(xs[i].entries, d, expected, substitution);
        ListStep(xs, i, d, expected, substitution);
        out := out + [item];
        log := log + itemLog;
        i := i + 1;
      }
      assert xs[..i] == xs;
    } else if !substitution {
      log := [NoIngredients];
    } else {
      log := [NoSubstitutions];
    }
  }

  /** Every amount entry is parsed on its own: the i-th output entry is the
      i-th input entry normalised. */
  lemma {:induction false} AmountListEntries(name: string, items: seq<Raw>, d: Defaults)
    requires AllAmountItems(items)
    ensures forall i :: 0 <= i < |items| ==>
              AmountList(name, items, d).value[i] == AmountEntryOf(name, items[i].entries, d).value
  {
    if items != [] {
      AmountListEntries(name, items[..|items| - 1], d);
    }
  }

  /** The entries alone never warn about the count. */
  lemma {:induction false} AmountListNoMismatch(name: string, items: seq<Raw>, d: Defaults)
    requires AllAmountItems(items)
    ensures AmountsMismatch !in AmountList(name, items, d).log
  {
    if items != [] {
      AmountListNoMismatch(name, items[..|items| - 1], d);
    }
  }

  /** One amount entry: a missing unit takes the default with a warning, a
      present unit is kept; a missing amount leaves no amount (though the
      warning names the default one); a present amount is coerced without
      any warning, float or text alike; every other field is copied through
      with one warning each. */
  lemma AmountEntryCases(name: string, item: Dict<Raw>, d: Defaults)
    requires AmountItemShape(Map(item))
    ensures var r := AmountEntryOf(name, item, d);
      && (Lookup(item, "unit").None? ==> r.value.unit == Str(d.unit) && NoIngredientUnit(name, d.unit) in r.log)
      && (Lookup(item, "unit").Some? ==> r.value.unit == Lookup(item, "unit").value)
      && (r.value.amount.None? <==> Lookup(item, "amount").None?)
      && (r.value.amount.None? <==> NoIngredientAmount(name, d.amount) in r.log)
      && (Lookup(item, "amount").Some? ==> r.value.amount == Some(Coerce(Lookup(item, "amount").value)))
      && (forall w :: w in r.log ==> w.NoIngredientUnit? || w.NoIngredientAmount? || w.UnknownAmountField?)
      && |r.log| == (if Lookup(item, "unit").None? then 1 else 0) + (if Lookup(item, "amount").None? then 1 else 0)
                    + |Extras(item)|
  {
    var rest := Extras(item);
    var r := AmountEntryOf(name, item, d);
    var e := ExtrasLog(rest, name);
    assert forall w :: w in e ==> w.UnknownAmountField?;
    if Lookup(item, "amount").None? {
      assert NoIngredientAmount(name, d.amount) in r.log;
    } else {
      assert NoIngredientAmount(name, d.amount) !in r.log;
    }
  }

  /** On a dictionary (what a parsed document always holds), the extra
      fields of an amount entry are exactly its entries other than `unit`
      and `amount`, values and order unchanged. */
  lemma AmountExtrasCopied(name: string, item: Dict<Raw>, d: Defaults)
    requires AmountItemShape(Map(item)) && DistinctKeys(item)
    ensures AmountEntryOf(name, item, d).value.extra == Without(item, {"unit", "amount"})
  {
    RemoveIsWithout(item, "unit");
    WithoutDistinct(item, {"unit"});
    RemoveIsWithout(Without(item, {"unit"}), "amount");
    WithoutWithout(item, {"unit"}, {"amount"});
    assert {"unit"} + {"amount"} == {"unit", "amount"};
    WithoutDistinct(item, {"unit", "amount"});
    FromPairsDistinct(Without(item, {"unit", "amount"}));
  }

  /** The `amounts` of one ingredient: absent in the output exactly when
      absent in the input (with a single warning); otherwise one entry per
      input entry, and a mismatch warning exactly when the count differs from
      the yield count (at least one), never more than once. */
  lemma AmountsCases(name: string, details: Dict<Raw>, d: Defaults, expected: int)
    requires AmountsShape(details)
    ensures var r := AmountsOf(name, details, d, expected);
      && (r.value.None? <==> Lookup(details, "amounts").None?)
      && (r.value.None? ==> r.log == [NoAmounts(name)])
      && (r.value.Some? ==>
            |r.value.value| == |Lookup(details, "amounts").value.items| &&
            (AmountsMismatch in r.log <==> |Lookup(details, "amounts").value.items| != Max(expected, 1)) &&
            multiset(r.log)[AmountsMismatch] <= 1)
  {
    var r := AmountsOf(name, details, d, expected);
    if r.value.Some? {
      var l := AmountList(name, Lookup(details, "amounts").value.items, d);
      AmountListNoMismatch(name, Lookup(details, "amounts").value.items, d);
      assert multiset(l.log)[AmountsMismatch] == 0;
    }
  }

  /** Fields of the details: `processing`, `notes` and `usda_num` are copied
      exactly when present, and at the top level substitutions are produced
      exactly when the key 'substitution' (singular) is present; at the
      substitution level they never are. */
  lemma DetailCases(name: string, details: Dict<Raw>, d: Defaults, expected: int, substitution: bool)
    requires DetailShape(details, substitution)
    ensures var r := DetailOf(name, details, d, expected, substitution).value;
      && r.processing == Lookup(details, "processing")
      && r.notes == Lookup(details, "notes")
      && r.usdaNum == Lookup(details, "usda_num")
      && (r.substitutions.Some? <==> !substitution && "substitution" in Keys(details))
  {
    LookupKeys(details, "substitution");
  }

  /** With 'substitutions' given but not 'substitution', the substitutions
      are dropped. */
  lemma PluralOnlyDropped(name: string, details: Dict<Raw>, d: Defaults, expected: int)
    requires DetailShape(details, false)
    requires "substitutions" in Keys(details) && "substitution" !in Keys(details)
    ensures DetailOf(name, details, d, expected, false).value.substitutions.None?
  {
    LookupKeys(details, "substitution");
  }

  /** No ingredient parsed at the substitution level carries substitutions. */
  predicate NoSubstitutionsIn(xs: seq<Ingredient>) {
    forall i, e :: 0 <= i < |xs| && e in xs[i] ==> e.1.substitutions.None?
  }

  lemma {:induction false} EntriesDepth(es: Dict<Raw>, d: Defaults, expected: int)
    requires AllDetails(es, true)
    ensures forall e :: e in EntriesOf(es, d, expected, true).value ==> e.1.substitutions.None?
  {
    if es != [] {
      var init := es[..|es| - 1];
      var (name, details) := es[|es| - 1];
      EntriesDepth(init, d, expected);
      PutEntries(EntriesOf(init, d, expected, true).value, name,
                 DetailOf(name, details.entries, d, expected, true).value);
    }
  }

  lemma {:induction false} ListDepth(xs: seq<Raw>, d: Defaults, expected: int)
    requires AllIngredients(xs, true)
    ensures NoSubstitutionsIn(ListOf(xs, d, expected, true).value)
  {
    if xs != [] {
      ListDepth(xs[..|xs| - 1], d, expected);
      EntriesDepth(xs[|xs| - 1].entries, d, expected);
    }
  }

  /** Recursion stops after one level: substitutions have no substitutions. */
  lemma SubstitutionDepth(src: Raw, d: Defaults, expected: int)
    requires IngredientsShape(src, true)
    ensures NoSubstitutionsIn(IngredientsOf(src, d, expected, true).value)
  {
    if !IsAbsent(src) {
      ListDepth(src.items, d, expected);
    }
  }

  /** An absent list gives no ingredients and one warning, which depends on
      the level; a present one gives one ingredient mapping per element, each
      with the element's names. */
  lemma IngredientsCases(src: Raw, d: Defaults, expected: int, substitution: bool)
    requires IngredientsShape(src, substitution)
    ensures var r := IngredientsOf(src, d, expected, substitution);
      && (IsAbsent(src) ==> r.value == [] && r.log == [if substitution then NoSubstitutions else NoIngredients])
      && (!IsAbsent(src) ==> |r.value| == |src.items|)
      && (!IsAbsent(src) ==>
            forall i :: 0 <= i < |src.items| && src.items[i].Map? ==>
              Keys(r.value[i]) == Dedup(Keys(src.items[i].entries)))
  {
    if !IsAbsent(src) {
      ListKeys(src.items, d, expected, substitution);
    }
  }

  /** An ingredient mapping holds each name of its input once, in order of
      first occurrence. */
  lemma {:induction false} EntriesKeys(es: Dict<Raw>, d: Defaults, expected: int, substitution: bool)
    requires AllDetails(es, substitution)
    ensures Keys(EntriesOf(es, d, expected, substitution).value) == Dedup(Keys(es))
  {
    if es != [] {
      var init := es[..|es| - 1];
      var (name, details) := es[|es| - 1];
      var p := EntriesOf(init, d, expected, substitution).value;
      EntriesKeys(init, d, expected, substitution);
      PutKeys(p, name, DetailOf(name, details.entries, d, expected, substitution).value);
      KeysSnoc(es);
    }
  }

  lemma {:induction false} ListKeys(xs: seq<Raw>, d: Defaults, expected: int, substitution: bool)
    requires AllIngredients(xs, substitution)
    ensures forall i :: 0 <= i < |xs| ==>
              Keys(ListOf(xs, d, expected, substitution).value[i]) == Dedup(Keys(xs[i].entries))
  {
    if xs != [] {
      ListKeys(xs[..|xs| - 1], d, expected, substitution);
      EntriesKeys(xs[|xs| - 1].entries, d, expected, substitution);
    }
  }

  /** For a mapping with distinct names (a dictionary), each name maps to its
      own parsed details. */
  lemma {:induction false} EntriesLookup(es: Dict<Raw>, j: nat, d: Defaults, expected: int, substitution: bool)
    requires AllDetails(es, substitution) && DistinctKeys(es) && j < |es|
    ensures Lookup(EntriesOf(es, d, expected, substitution).value, es[j].0)
            == Some(DetailOf(es[j].0, es[j].1.entries, d, expected, substitution).value)
  {
    var init := es[..|es| - 1];
    var (name, details) := es[|es| - 1];
    var p := EntriesOf(init, d, expected, substitution).value;
    var q := DetailOf(name, details.entries, d, expected, substitution).value;
    PutLookup(p, name, q, es[j].0);
    if j < |es| - 1 {
      assert es[j].0 != name;
      assert init[j] == es[j];
      EntriesLookup(init, j, d, expected, substitution);
    }
  }
}
