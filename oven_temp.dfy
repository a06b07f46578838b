/**
 * `parse_oven_temp`: one `{unit, amount}` entry per listed temperature, the
 * unit normalised to C or F, the amount coerced int, then float, then as is.
 */
module OvenTemps {
  import opened Dicts
  import opened RawTree
  import opened Coercion
  import opened Diagnostics

  datatype OvenTemp = OvenTemp(unit: string, amount: Amount)

  /** An entry the parser handles without raising: `None`, or a mapping whose
      unit (when present) is text and whose amount (when present) is an
      integer or text. */
  predicate EntryShape(e: Raw) {
    e.Null? ||
    (e.Map? &&
     (Lookup(e.entries, "unit").None? || Lookup(e.entries, "unit").value.Str?) &&
     (Lookup(e.entries, "amount").None? || Lookup(e.entries, "amount").value.Int? ||
      Lookup(e.entries, "amount").value.Str?))
  }

  predicate AllEntries(xs: seq<Raw>) {
    forall i :: 0 <= i < |xs| ==> EntryShape(xs[i])
  }

  predicate OvenTempShape(src: Raw) {
    IsAbsent(src) || (src.List? && AllEntries(src.items))
  }

  function EntryUnit(m: Dict<Raw>): Parsed<string>
    requires Lookup(m, "unit").None? || Lookup(m, "unit").value.Str?
  {
    match Lookup(m, "unit")
    case None => Parsed("", [NoOvenTempUnit])
    case Some(u) =>
      if Lower(u.s) != "c" && Lower(u.s) != "f" then Parsed(u.s, [OvenTempUnitInvalid])
      else Parsed(Upper(u.s), [])
  }

  function EntryAmount(m: Dict<Raw>): Parsed<Amount>
    requires Lookup(m, "amount").None? || Lookup(m, "amount").value.Int? || Lookup(m, "amount").value.Str?
  {
    match Lookup(m, "amount")
    case None => Parsed(TextAmt(""), [NoOvenTempAmount])
    case Some(a) =>
      var c := Coerce(a);
      Parsed(c, if c.FloatAmt? then [OvenTempFloat] else if c.TextAmt? then [OvenTempNotNumeric] else [])
  }

  /** One entry of the list: a `None` entry gives `{'unit': '', 'amount': ''}`. */
  function Entry(e: Raw): Parsed<OvenTemp>
    requires EntryShape(e)
  {
    if e.Null? then Parsed(OvenTemp("", TextAmt("")), [])
    else
      var u := EntryUnit(e.entries);
      var a := EntryAmount(e.entries);
      Parsed(OvenTemp(u.value, a.value), u.log + a.log)
  }

  /** The entries of `xs` parsed in order. */
  function EntryList(xs: seq<Raw>): (r: Parsed<seq<OvenTemp>>)
    requires AllEntries(xs)
    ensures |r.value| == |xs|
  {
    if xs == [] then Parsed([], [])
    else
      var p := EntryList(xs[..|xs| - 1]);
      var e := Entry(xs[|xs| - 1]);
      Parsed(p.value + [e.value], p.log + e.log)
  }

  /** The whole field: the "multiple" warning comes first, then each entry's. */
  function OvenTempsOf(src: Raw): Parsed<seq<OvenTemp>>
    requires OvenTempShape(src)
  {
    if IsAbsent(src) then Parsed([], [])
    else
      var r := EntryList(src.items);
      Parsed(r.value, (if |src.items| > 1 then [MultipleOvenTemps] else []) + r.log)
  }

  /** `parse_oven_temp`, loop for loop. */
  method ParseOvenTemp(src: Raw) returns (out: seq<OvenTemp>, log: seq<Warning>)
    requires OvenTempShape(src)
    ensures Parsed(out, log) == OvenTempsOf(src)
  {
    out, log := [], [];
    if !IsAbsent(src) {
      var srcList := src.items;
      var multipleLog: seq<Warning> := [];
      if |srcList| > 1 {
        multipleLog := [MultipleOvenTemps];
      }
      var entriesLog: seq<Warning> := [];
      var i := 0;
      while i < |srcList|
        invariant 0 <= i <= |srcList|
        invariant Parsed(out, entriesLog) == EntryList(srcList[..i])
      {
        var temp, entryLog := ParseEntry(srcList[i]);
        EntryListStep(srcList, i);
        entriesLog := entriesLog + entryLog;
        out := out + [temp];
        i := i + 1;
      }
      assert srcList[..i] == srcList;
      log := multipleLog + entriesLog;
    }
  }

  lemma EntryListStep(xs: seq<Raw>, i: nat)
    requires AllEntries(xs) && i < |xs|
    ensures AllEntries(xs[..i]) && AllEntries(xs[..i + 1])
    ensures EntryList(xs[..i + 1]) ==
            Parsed(EntryList(xs[..i]).value + [Entry(xs[i]).value], EntryList(xs[..i]).log + Entry(xs[i]).log)
  {
    assert xs[..i + 1][..i] == xs[..i];
  }

  /** The body of the loop of `parse_oven_temp`: one `this_oven_temp`. */
  method ParseEntry(src: Raw) returns (temp: OvenTemp, log: seq<Warning>)
    requires EntryShape(src)
    ensures Parsed(temp, log) == Entry(src)
  {
    var unit, amount := "", TextAmt("");
    log := [];
    if !src.Null? {
      var m := src.entries;
      var u := Lookup(m, "unit");
      if u.None? {
        log := log + [NoOvenTempUnit];
      } else if Lower(u.value.s) != "c" && Lower(u.value.s) != "f" {
        log := log + [OvenTempUnitInvalid];
        unit := u.value.s;
      } else {
        unit := Upper(u.value.s);
      }
      ghost var unitLog := log;
      var a := Lookup(m, "amount");
      if a.None? {
        log := log + [NoOvenTempAmount];
      } else {
        amount := Coerce(a.value);
        if amount.FloatAmt? {
          log := log + [OvenTempFloat];
        } else if amount.TextAmt? {
          log := log + [OvenTempNotNumeric];
        }
      }
      assert unitLog == EntryUnit(m).log;
    }
    temp := OvenTemp(unit, amount);
  }

  lemma UpperOfLower(s: string, c: char)
    requires Lower(s) == [c] && 'a' <= c <= 'z'
    ensures Upper(s) == [UpperChar(c)]
  {
    assert Lower(s)[0] == LowerChar(s[0]) == c;
    assert Upper(s)[0] == UpperChar(s[0]);
  }

  /** The list: one entry per input entry, in order, and the "multiple"
      warning exactly when there is more than one. */
  lemma OvenTempsLength(src: Raw)
    requires OvenTempShape(src)
    ensures IsAbsent(src) ==> OvenTempsOf(src) == Parsed([], [])
    ensures !IsAbsent(src) ==> |OvenTempsOf(src).value| == |src.items|
    ensures !IsAbsent(src) ==>
              forall i :: 0 <= i < |src.items| ==> OvenTempsOf(src).value[i] == Entry(src.items[i]).value
    ensures MultipleOvenTemps in OvenTempsOf(src).log <==> !IsAbsent(src) && |src.items| > 1
  {
    if !IsAbsent(src) {
      EntryListEntries(src.items);
    }
  }

  /** Each entry is parsed on its own, and no entry warns about the list. */
  lemma {:induction false} EntryListEntries(xs: seq<Raw>)
    requires AllEntries(xs)
    ensures forall i :: 0 <= i < |xs| ==> EntryList(xs).value[i] == Entry(xs[i]).value
    ensures MultipleOvenTemps !in EntryList(xs).log
  {
    if xs != [] {
      EntryListEntries(xs[..|xs| - 1]);
    }
  }

  /** One entry: `None` gives empty unit and amount with no warning; a unit
      matching c or f in any case becomes "C" or "F"; any other unit is kept
      with a warning; a missing unit is '' with a warning.  The amount is the
      coerced value, warned about when it is only a float or not a number, and
      '' with a warning when missing. */
  lemma EntryCases(e: Raw)
    requires EntryShape(e)
    ensures e.Null? ==> Entry(e) == Parsed(OvenTemp("", TextAmt("")), [])
    ensures e.Map? ==> match Lookup(e.entries, "unit")
              case None => Entry(e).value.unit == "" && NoOvenTempUnit in Entry(e).log
              case Some(u) =>
                (Lower(u.s) == "c" ==> Entry(e).value.unit == "C" && OvenTempUnitInvalid !in Entry(e).log) &&
                (Lower(u.s) == "f" ==> Entry(e).value.unit == "F" && OvenTempUnitInvalid !in Entry(e).log) &&
                (Lower(u.s) != "c" && Lower(u.s) != "f" ==>
                   Entry(e).value.unit == u.s && OvenTempUnitInvalid in Entry(e).log)
    ensures e.Map? ==> match Lookup(e.entries, "amount")
              case None => Entry(e).value.amount == TextAmt("") && NoOvenTempAmount in Entry(e).log
              case Some(a) =>
                Entry(e).value.amount == Coerce(a) &&
                (OvenTempFloat in Entry(e).log <==> Coerce(a).FloatAmt?) &&
                (OvenTempNotNumeric in Entry(e).log <==> Coerce(a).TextAmt?)
  {
    if e.Map? {
      var u := Lookup(e.entries, "unit");
      if u.Some? {
        if Lower(u.value.s) == "c" {
          UpperOfLower(u.value.s, 'c');
        } else if Lower(u.value.s) == "f" {
          UpperOfLower(u.value.s, 'f');
        }
      }
    }
  }
}
