/**
 * The `x-` escape hatch: `parse_x_fields` keeps every field it is given
 * under a key that starts with `x-`, and `parse_source_book` does the same
 * for whatever a source book holds besides its four known fields.
 */
module Extensions {
  import opened Dicts
  import opened RawTree
  import opened Diagnostics

  /** The key an unknown field is stored under: unchanged when it already
      starts with `x-`, otherwise `'x-%s' % field`. */
  function XKey(k: string): string {
    if StartsWith(k, "x-") then k else "x-" + k
  }

  /** The fields in order, each under its `x-` key. */
  function XPairs(es: Dict<Raw>): (ps: Dict<Raw>)
    ensures |ps| == |es|
    ensures forall i :: 0 <= i < |es| ==> ps[i] == (XKey(es[i].0), es[i].1)
  {
    seq(|es|, i requires 0 <= i < |es| => (XKey(es[i].0), es[i].1))
  }

  /** The warning `parse_x_fields` gives for one field. */
  function XFieldWarning(field: string): Warning {
    if StartsWith(field, "x-") then XFieldNotUnderstood(field) else UnknownField(field)
  }

  /** The warnings `parse_source_book` gives for its leftover fields: one per
      field without the prefix. */
  function BookLog(es: Dict<Raw>): seq<Warning> {
    if es == [] then []
    else
      var field := es[|es| - 1].0;
      BookLog(es[..|es| - 1]) + (if StartsWith(field, "x-") then [] else [SourceBookUnknownField(field)])
  }

  /** The warnings of `parse_x_fields`: one per field, in order. */
  function XLog(es: Dict<Raw>): (ws: seq<Warning>)
    ensures |ws| == |es|
  {
    seq(|es|, i requires 0 <= i < |es| => XFieldWarning(es[i].0))
  }

  /** `out[key] = value` for each field in turn, under its `x-` key. */
  function AddX(init: Dict<Raw>, es: Dict<Raw>): Dict<Raw> {
    if es == [] then init
    else Put(AddX(init, es[..|es| - 1]), XKey(es[|es| - 1].0), es[|es| - 1].1)
  }

  /** `parse_x_fields`: absent gives an empty mapping and no warning. */
  function XFieldsOf(src: Raw): Parsed<Dict<Raw>>
    requires IsAbsent(src) || src.Map?
  {
    if IsAbsent(src) then Parsed([], []) else Parsed(AddX([], src.entries), XLog(src.entries))
  }

  /** `if k in src: out[k] = src.pop(k)`, on the output side. */
  function KeepPut(d: Dict<Raw>, src: Dict<Raw>, k: string): Dict<Raw> {
    if Lookup(src, k).Some? then Put(d, k, Lookup(src, k).value) else d
  }

  /** The four known fields of a source book, those present, in this order. */
  function Known(src: Dict<Raw>): Dict<Raw> {
    KeepPut(KeepPut(KeepPut(KeepPut([], src, "authors"), src, "title"), src, "isbn"), src, "notes")
  }

  /** What is left of a source book once its known fields are popped. */
  function BookRest(src: Dict<Raw>): Dict<Raw> {
    Remove(Remove(Remove(Remove(src, "authors"), "title"), "isbn"), "notes")
  }

  /** `parse_source_book`: the known fields first, then every other field
      under its `x-` key. */
  function SourceBookOf(src: Raw): Parsed<Dict<Raw>>
    requires IsAbsent(src) || src.Map?
  {
    if IsAbsent(src) then Parsed([], [])
    else
      var rest := BookRest(src.entries);
      Parsed(AddX(Known(src.entries), rest), BookLog(rest))
  }

  /** The loop of `parse_x_fields`. */
  method ParseXFields(src: Raw) returns (out: Dict<Raw>, log: seq<Warning>)
    requires IsAbsent(src) || src.Map?
    ensures Parsed(out, log) == XFieldsOf(src)
  {
    out, log := [], [];
    if !IsAbsent(src) {
      var es := src.entries;
      var i := 0;
      while i < |es|
        invariant 0 <= i <= |es|
        invariant out == AddX([], es[..i])
        invariant log == XLog(es[..i])
      {
        var (field, value) := es[i];
        assert es[..i + 1][..i] == es[..i];
        assert XLog(es[..i + 1]) == XLog(es[..i]) + [XFieldWarning(field)];
        if StartsWith(field, "x-") {
          log := log + [XFieldNotUnderstood(field)];
          out := Put(out, field, value);
        } else {
          log := log + [UnknownField(field)];
          out := Put(out, "x-" + field, value);
        }
        i := i + 1;
      }
      assert es[..i] == es;
    }
  }

  /** `parse_source_book`: four conditional pops, then the leftover loop. */
  method ParseSourceBook(src: Raw) returns (out: Dict<Raw>, log: seq<Warning>)
    requires IsAbsent(src) || src.Map?
    ensures Parsed(out, log) == SourceBookOf(src)
  {
    out, log := [], [];
    if !IsAbsent(src) {
      var rest := src.entries;
      BookPops(rest);
      var v;
      v, rest := PopIfPresent(rest, "authors");
      if v.Some? { out := Put(out, "authors", v.value); }
      v, rest := PopIfPresent(rest, "title");
      if v.Some? { out := Put(out, "title", v.value); }
      v, rest := PopIfPresent(rest, "isbn");
      if v.Some? { out := Put(out, "isbn", v.value); }
      v, rest := PopIfPresent(rest, "notes");
      if v.Some? { out := Put(out, "notes", v.value); }
      out, log := AddXFields(out, rest);
    }
  }

  /** The leftover loop of `parse_source_book`, adding to the known fields. */
  method AddXFields(known: Dict<Raw>, rest: Dict<Raw>) returns (out: Dict<Raw>, log: seq<Warning>)
    ensures out == AddX(known, rest)
    ensures log == BookLog(rest)
  {
    out, log := known, [];
    var i := 0;
    while i < |rest|
      invariant 0 <= i <= |rest|
      invariant out == AddX(known, rest[..i])
      invariant log == BookLog(rest[..i])
    {
      var (field, value) := rest[i];
      assert rest[..i + 1][..i] == rest[..i];
      if StartsWith(field, "x-") {
        out := Put(out, field, value);
      } else {
        log := log + [SourceBookUnknownField(field)];
        out := Put(out, "x-" + field, value);
      }
      i := i + 1;
    }
    assert rest[..i] == rest;
  }

  /** Each pop leaves the fields read after it as they were. */
  lemma BookPops(src: Dict<Raw>)
    ensures Lookup(Remove(src, "authors"), "title") == Lookup(src, "title")
    ensures Lookup(Remove(Remove(src, "authors"), "title"), "isbn") == Lookup(src, "isbn")
    ensures Lookup(Remove(Remove(Remove(src, "authors"), "title"), "isbn"), "notes") == Lookup(src, "notes")
  {
    var r1 := Remove(src, "authors");
    var r2 := Remove(r1, "title");
    RemoveOther(src, "authors", "title");
    RemoveOther(src, "authors", "isbn");
    RemoveOther(src, "authors", "notes");
    RemoveOther(r1, "title", "isbn");
    RemoveOther(r1, "title", "notes");
    RemoveOther(r2, "isbn", "notes");
  }

  /** Every stored key carries the prefix, and no key gets it twice. */
  lemma XKeyPrefix(k: string)
    ensures StartsWith(XKey(k), "x-")
    ensures XKey(XKey(k)) == XKey(k)
    ensures XKey(k) == k <==> StartsWith(k, "x-")
    ensures StartsWith(XKey(k), "x-x-") ==> StartsWith(k, "x-x-")
  {
    if !StartsWith(k, "x-") {
      assert ("x-" + k)[..2] == "x-";
      if |k| >= 2 {
        assert ("x-" + k)[2..4] == k[..2];
      }
    }
  }

  /** Adding fields one by one is building one dictionary from the earlier
      entries followed by the renamed fields. */
  lemma {:induction false} AddXPairs(init: Dict<Raw>, es: Dict<Raw>)
    requires FromPairs(init) == init
    ensures AddX(init, es) == FromPairs(init + XPairs(es))
  {
    if es == [] {
      assert init + XPairs(es) == init;
    } else {
      var n := |es| - 1;
      var last := (XKey(es[n].0), es[n].1);
      var front := init + XPairs(es[..n]);
      AddXPairs(init, es[..n]);
      XPairsSnoc(es);
      calc {
        FromPairs(init + XPairs(es));
        { assert init + (XPairs(es[..n]) + [last]) == front + [last]; }
        FromPairs(front + [last]);
        { FromPairsSnoc(front, last.0, last.1); }
        Put(FromPairs(front), last.0, last.1);
      }
    }
  }

  lemma XPairsSnoc(es: Dict<Raw>)
    requires es != []
    ensures XPairs(es) == XPairs(es[..|es| - 1]) + [(XKey(es[|es| - 1].0), es[|es| - 1].1)]
  {
  }

  /** Adding renamed fields leaves every unprefixed key as it was. */
  lemma {:induction false} AddXLookup(init: Dict<Raw>, es: Dict<Raw>, k: string)
    requires !StartsWith(k, "x-")
    ensures Lookup(AddX(init, es), k) == Lookup(init, k)
  {
    if es != [] {
      AddXLookup(init, es[..|es| - 1], k);
      XKeyPrefix(es[|es| - 1].0);
      PutLookup(AddX(init, es[..|es| - 1]), XKey(es[|es| - 1].0), es[|es| - 1].1, k);
    }
  }

  /** Adding renamed fields adds only prefixed keys. */
  lemma {:induction false} AddXKeys(init: Dict<Raw>, es: Dict<Raw>)
    ensures forall key :: key in Keys(AddX(init, es)) ==> key in Keys(init) || StartsWith(key, "x-")
  {
    if es != [] {
      var d := AddX(init, es[..|es| - 1]);
      var k := XKey(es[|es| - 1].0);
      AddXKeys(init, es[..|es| - 1]);
      XKeyPrefix(es[|es| - 1].0);
      if k !in Keys(d) {
        assert Keys(Put(d, k, es[|es| - 1].1)) == Keys(d) + [k];
      }
    }
  }

  /** `parse_x_fields` gives one warning per field, the not-understood one
      exactly for the prefixed fields and the unknown-field one for the
      others, and stores every field under its `x-` key: one entry per
      distinct such key, holding the last value given for it. */
  lemma XFieldsSpec(src: Raw)
    requires src.Map?
    ensures var r := XFieldsOf(src);
      && |r.log| == |src.entries|
      && (forall i :: 0 <= i < |src.entries| ==>
            (r.log[i] == XFieldNotUnderstood(src.entries[i].0) <==> StartsWith(src.entries[i].0, "x-")))
      && (forall i :: 0 <= i < |src.entries| && !StartsWith(src.entries[i].0, "x-") ==>
            r.log[i] == UnknownField(src.entries[i].0))
      && DistinctKeys(r.value)
      && Keys(r.value) == Dedup(Keys(XPairs(src.entries)))
      && (forall k :: k in Keys(r.value) ==> StartsWith(k, "x-"))
      && (forall k :: Lookup(r.value, k) == LastValue(XPairs(src.entries), k))
  {
    var es := src.entries;
    AddXPairs([], es);
    assert [] + XPairs(es) == XPairs(es);
    FromPairsSpec(XPairs(es));
    AddXKeys([], es);
  }

  /** On a dictionary whose keys all carry the prefix, `parse_x_fields`
      keeps it as it is. */
  lemma XFieldsKeepPrefixed(src: Raw)
    requires src.Map? && DistinctKeys(src.entries)
    requires forall i :: 0 <= i < |src.entries| ==> StartsWith(src.entries[i].0, "x-")
    ensures XFieldsOf(src).value == src.entries
  {
    AddXPairs([], src.entries);
    assert [] + XPairs(src.entries) == src.entries;
    FromPairsDistinct(src.entries);
  }

  /** The known fields: each of the four kept with its value, nothing else. */
  lemma KnownLookup(src: Dict<Raw>, k: string)
    ensures Lookup(Known(src), k) == if k in {"authors", "title", "isbn", "notes"} then Lookup(src, k) else None
  {
    var d1 := KeepPut([], src, "authors");
    var d2 := KeepPut(d1, src, "title");
    var d3 := KeepPut(d2, src, "isbn");
    if Lookup(src, "authors").Some? { PutLookup([], "authors", Lookup(src, "authors").value, k); }
    if Lookup(src, "title").Some? { PutLookup(d1, "title", Lookup(src, "title").value, k); }
    if Lookup(src, "isbn").Some? { PutLookup(d2, "isbn", Lookup(src, "isbn").value, k); }
    if Lookup(src, "notes").Some? { PutLookup(d3, "notes", Lookup(src, "notes").value, k); }
  }

  lemma KnownKeys(src: Dict<Raw>)
    ensures forall key :: key in Keys(Known(src)) ==> key in {"authors", "title", "isbn", "notes"}
  {
    forall key | key in Keys(Known(src)) ensures key in {"authors", "title", "isbn", "notes"} {
      LookupKeys(Known(src), key);
      KnownLookup(src, key);
    }
  }

  /** The known part never repeats a key. */
  lemma KnownDistinct(src: Dict<Raw>)
    ensures DistinctKeys(Known(src))
  {
    var d1 := KeepPut([], src, "authors");
    var d2 := KeepPut(d1, src, "title");
    var d3 := KeepPut(d2, src, "isbn");
    if Lookup(src, "authors").Some? { PutDistinct([], "authors", Lookup(src, "authors").value); }
    if Lookup(src, "title").Some? { PutDistinct(d1, "title", Lookup(src, "title").value); }
    if Lookup(src, "isbn").Some? { PutDistinct(d2, "isbn", Lookup(src, "isbn").value); }
    if Lookup(src, "notes").Some? { PutDistinct(d3, "notes", Lookup(src, "notes").value); }
  }

  /** A key the earlier entries do not hold ends up with the value of the last
      leftover field stored under it. */
  lemma AddXOver(known: Dict<Raw>, rest: Dict<Raw>, k: string)
    requires DistinctKeys(known) && Lookup(known, k).None?
    ensures Lookup(AddX(known, rest), k) == LastValue(XPairs(rest), k)
  {
    FromPairsDistinct(known);
    FromPairsSpec(known);
    AddXPairs(known, rest);
    FromPairsSpec(known + XPairs(rest));
    LastValueAppend(known, XPairs(rest), k);
  }

  /** A source book keeps each known field's value and stores every leftover
      field under its `x-` key, holding the last value given for that key; it
      holds no other key, and it warns exactly about the unprefixed leftovers. */
  lemma SourceBookSpec(src: Raw, k: string)
    requires src.Map?
    ensures k in {"authors", "title", "isbn", "notes"} ==>
              Lookup(SourceBookOf(src).value, k) == Lookup(src.entries, k)
    ensures StartsWith(k, "x-") ==>
              Lookup(SourceBookOf(src).value, k) == LastValue(XPairs(BookRest(src.entries)), k)
    ensures forall key :: key in Keys(SourceBookOf(src).value) ==>
              key in {"authors", "title", "isbn", "notes"} || StartsWith(key, "x-")
    ensures SourceBookUnknownField(k) in SourceBookOf(src).log <==>
              k in Keys(BookRest(src.entries)) && !StartsWith(k, "x-")
    ensures forall w :: w in SourceBookOf(src).log ==> w.SourceBookUnknownField?
    ensures |SourceBookOf(src).log| <= |BookRest(src.entries)|
  {
    var known := Known(src.entries);
    var rest := BookRest(src.entries);
    if k in {"authors", "title", "isbn", "notes"} {
      assert k[0] != 'x';
      assert !StartsWith(k, "x-");
      AddXLookup(known, rest, k);
      KnownLookup(src.entries, k);
    }
    if StartsWith(k, "x-") {
      KnownLookup(src.entries, k);
      KnownDistinct(src.entries);
      AddXOver(known, rest, k);
    }
    KnownKeys(src.entries);
    AddXKeys(known, rest);
    BookLogExact(rest, k);
  }

  /** The leftover warnings: one unknown-field warning per leftover field
      without the prefix, and no other warning. */
  lemma {:induction false} BookLogExact(es: Dict<Raw>, f: string)
    ensures SourceBookUnknownField(f) in BookLog(es) <==> f in Keys(es) && !StartsWith(f, "x-")
    ensures forall w :: w in BookLog(es) ==> w.SourceBookUnknownField?
    ensures |BookLog(es)| <= |es|
  {
    if es != [] {
      BookLogExact(es[..|es| - 1], f);
      KeysSnoc(es);
    }
  }
}
