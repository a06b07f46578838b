/**
 * `Recipe.__init__` and `contents`: the configuration is lowercased, the
 * default table built, and the twelve known fields popped and parsed one by
 * one in a fixed order, the source URL default being rebuilt once the name is
 * known; whatever is left goes to `x`.
 */
module Assembly {
  import opened Dicts
  import opened RawTree
  import opened Diagnostics
  import opened Registry
  import opened Scalars
  import opened OvenTemps
  import opened Yields
  import opened Ingredients
  import opened Steps
  import opened Extensions

  /** `self._dict`, one field per key. */
  datatype RecipeRecord = RecipeRecord(
    recipeName: Raw,
    ovenFan: string,
    ovenTemp: seq<OvenTemp>,
    ovenTime: Raw,
    yieldList: seq<Yield>,
    ingredients: seq<Ingredient>,
    notes: Raw,
    recipeUuid: Raw,
    sourceBook: Dict<Raw>,
    sourceAuthors: Raw,
    sourceUrl: Raw,
    steps: seq<Step>,
    x: Dict<Raw>)

  /** The keys `__init__` pops, in three groups of four, each key added in
      the order it is popped. */
  const OvenKeys: set<string> := {"recipe_name", "oven_fan", "oven_temp", "oven_time"}
  const BodyKeys: set<string> := OvenKeys + {"yields"} + {"ingredients"} + {"notes"} + {"recipe_uuid"}
  const Named: set<string> := BodyKeys + {"source_book"} + {"source_authors"} + {"source_url"} + {"steps"}

  /** What the field parsers handle without raising, on the lowercased
      configuration: a mapping whose recipe name is text or a number (it is
      formatted into the source URL) and whose other fields have the shapes
      their parsers need. */
  predicate FieldsShape(cfg: Dict<Raw>) {
    var name := Field(cfg, "recipe_name");
    (name.Str? || name.Int? || name.Null?) &&
    FanShape(Field(cfg, "oven_fan")) &&
    OvenTempShape(Field(cfg, "oven_temp")) &&
    YieldsShape(Field(cfg, "yields")) &&
    IngredientsShape(Field(cfg, "ingredients"), false) &&
    (IsAbsent(Field(cfg, "source_book")) || Field(cfg, "source_book").Map?) &&
    StepsShape(Field(cfg, "steps"))
  }

  predicate RecipeShape(config: Raw) {
    LowerKey(config).Map? && FieldsShape(LowerKey(config).entries)
  }

  /** The record and warnings `__init__` produces, field by field in its order. */
  function Normalize(config: Raw, uuid: string): Parsed<RecipeRecord>
    requires RecipeShape(config)
  {
    var cfg := LowerKey(config).entries;
    var d0 := InitialDefaults(uuid);
    var name := ParseRecipeName(Field(cfg, "recipe_name"), d0);
    var d := WithResolvedName(d0, name.value);
    var fan := ParseOvenFan(Field(cfg, "oven_fan"));
    var temps := OvenTempsOf(Field(cfg, "oven_temp"));
    var time := ParseOvenTime(Field(cfg, "oven_time"));
    var ys := YieldsOf(Field(cfg, "yields"), d);
    var ingredients := IngredientsOf(Field(cfg, "ingredients"), d, |ys.value|, false);
    var notes := ParseNotes(Field(cfg, "notes"));
    var recipeUuid := ParseRecipeUuid(Field(cfg, "recipe_uuid"), d);
    var book := SourceBookOf(Field(cfg, "source_book"));
    var authors := ParseSourceAuthors(Field(cfg, "source_authors"), d);
    var url := ParseSourceUrl(Field(cfg, "source_url"), d);
    var steps := StepsOf(Field(cfg, "steps"));
    var x := XFieldsOf(Map(Without(cfg, Named)));
    Parsed(RecipeRecord(name.value, fan.value, temps.value, time, ys.value, ingredients.value, notes,
                        recipeUuid.value, book.value, authors.value, url.value, steps.value, x.value),
           name.log + fan.log + temps.log + ys.log + ingredients.log + recipeUuid.log + book.log +
           authors.log + url.log + steps.log + x.log)
  }

  /** `cfg.pop(k, None)` on what is left of the configuration after the keys
      of `claimed` were popped. */
  method PopField(cfg: Dict<Raw>, ghost orig: Dict<Raw>, ghost claimed: set<string>, k: string)
    returns (v: Raw, rest: Dict<Raw>)
    requires DistinctKeys(orig) && cfg == Without(orig, claimed) && k !in claimed
    ensures v == Field(orig, k) && rest == Without(orig, claimed + {k})
  {
    PopClaimed(orig, claimed, k, Null);
    var popped := PopOr(cfg, k, Null);
    v, rest := popped.0, popped.1;
  }

  /** The keys of each group are popped only once. */
  lemma GroupsDisjoint()
    ensures "yields" !in OvenKeys && "ingredients" !in OvenKeys && "notes" !in OvenKeys && "recipe_uuid" !in OvenKeys
    ensures "source_book" !in BodyKeys && "source_authors" !in BodyKeys && "source_url" !in BodyKeys
    ensures "steps" !in BodyKeys
  {
  }

  /** The first four pops of `__init__`: the name, after which the fallback
      source URL is rebuilt, then the oven settings. */
  method ReadOven(cfg: Dict<Raw>, ghost orig: Dict<Raw>, uuid: string)
    returns (name: Parsed<Raw>, d: Defaults, fan: Parsed<string>, temps: Parsed<seq<OvenTemp>>, time: Raw,
             rest: Dict<Raw>)
    requires DistinctKeys(orig) && cfg == orig
    requires var name := Field(orig, "recipe_name"); name.Str? || name.Int? || name.Null?
    requires FanShape(Field(orig, "oven_fan")) && OvenTempShape(Field(orig, "oven_temp"))
    ensures name == ParseRecipeName(Field(orig, "recipe_name"), InitialDefaults(uuid))
    ensures (name.value.Str? || name.value.Int? || name.value.Null?) && d == WithResolvedName(InitialDefaults(uuid), name.value)
    ensures fan == ParseOvenFan(Field(orig, "oven_fan"))
    ensures temps == OvenTempsOf(Field(orig, "oven_temp"))
    ensures time == ParseOvenTime(Field(orig, "oven_time"))
    ensures rest == Without(orig, OvenKeys)
  {
    WithoutNone(orig);
    ghost var claimed: set<string> := {};
    var src, left := PopField(cfg, orig, claimed, "recipe_name");
    claimed := claimed + {"recipe_name"};
    name := ParseRecipeName(src, InitialDefaults(uuid));
    d := WithResolvedName(InitialDefaults(uuid), name.value);

    src, left := PopField(left, orig, claimed, "oven_fan");
    claimed := claimed + {"oven_fan"};
    fan := ParseOvenFan(src);

    src, left := PopField(left, orig, claimed, "oven_temp");
    claimed := claimed + {"oven_temp"};
    var out, log := ParseOvenTemp(src);
    temps := Parsed(out, log);

    src, rest := PopField(left, orig, claimed, "oven_time");
    claimed := claimed + {"oven_time"};
    assert claimed == OvenKeys;
    time := ParseOvenTime(src);
  }

  /** The next four pops: yields, ingredients (expecting one amount per
      yield), notes and the recipe's UUID. */
  method ReadBody(cfg: Dict<Raw>, ghost orig: Dict<Raw>, d: Defaults)
    returns (ys: Parsed<seq<Yield>>, ingredients: Parsed<seq<Ingredient>>, notes: Raw, recipeUuid: Parsed<Raw>,
             rest: Dict<Raw>)
    requires DistinctKeys(orig) && cfg == Without(orig, OvenKeys)
    requires YieldsShape(Field(orig, "yields")) && IngredientsShape(Field(orig, "ingredients"), false)
    ensures ys == YieldsOf(Field(orig, "yields"), d)
    ensures ingredients == IngredientsOf(Field(orig, "ingredients"), d, |ys.value|, false)
    ensures notes == ParseNotes(Field(orig, "notes"))
    ensures recipeUuid == ParseRecipeUuid(Field(orig, "recipe_uuid"), d)
    ensures rest == Without(orig, BodyKeys)
  {
    GroupsDisjoint();
    ghost var claimed := OvenKeys;
    var src, left := PopField(cfg, orig, claimed, "yields");
    claimed := claimed + {"yields"};
    var out, log := ParseYields(src, d);
    ys := Parsed(out, log);

    src, left := PopField(left, orig, claimed, "ingredients");
    claimed := claimed + {"ingredients"};
    var parsed, parsedLog := ParseIngredients(src, d, |ys.value|, false);
    ingredients := Parsed(parsed, parsedLog);

    src, left := PopField(left, orig, claimed, "notes");
    claimed := claimed + {"notes"};
    notes := ParseNotes(src);

    src, rest := PopField(left, orig, claimed, "recipe_uuid");
    recipeUuid := ParseRecipeUuid(src, d);
  }

  /** The last four pops: the source book, authors and URL, then the steps. */
  method ReadSource(cfg: Dict<Raw>, ghost orig: Dict<Raw>, d: Defaults)
    returns (book: Parsed<Dict<Raw>>, authors: Parsed<Raw>, url: Parsed<Raw>, steps: Parsed<seq<Step>>,
             rest: Dict<Raw>)
    requires DistinctKeys(orig) && cfg == Without(orig, BodyKeys)
    requires IsAbsent(Field(orig, "source_book")) || Field(orig, "source_book").Map?
    requires StepsShape(Field(orig, "steps"))
    ensures book == SourceBookOf(Field(orig, "source_book"))
    ensures authors == ParseSourceAuthors(Field(orig, "source_authors"), d)
    ensures url == ParseSourceUrl(Field(orig, "source_url"), d)
    ensures steps == StepsOf(Field(orig, "steps"))
    ensures rest == Without(orig, Named)
  {
    GroupsDisjoint();
    ghost var claimed := BodyKeys;
    var src, left := PopField(cfg, orig, claimed, "source_book");
    claimed := claimed + {"source_book"};
    var out, log := ParseSourceBook(src);
    book := Parsed(out, log);

    src, left := PopField(left, orig, claimed, "source_authors");
    claimed := claimed + {"source_authors"};
    authors := ParseSourceAuthors(src, d);

    src, left := PopField(left, orig, claimed, "source_url");
    claimed := claimed + {"source_url"};
    url := ParseSourceUrl(src, d);

    src, rest := PopField(left, orig, claimed, "steps");
    var parsed, parsedLog := ParseSteps(src);
    steps := Parsed(parsed, parsedLog);
  }

  class Recipe {
    var recipeName: Raw
    var ovenFan: string
    var ovenTemp: seq<OvenTemp>
    var ovenTime: Raw
    var yieldList: seq<Yield>
    var ingredients: seq<Ingredient>
    var notes: Raw
    var recipeUuid: Raw
    var sourceBook: Dict<Raw>
    var sourceAuthors: Raw
    var sourceUrl: Raw
    var steps: seq<Step>
    var x: Dict<Raw>
    /** The warnings printed while the recipe was read, in order. */
    var log: seq<Warning>

    /** `contents()`. */
    function Contents(): RecipeRecord
      reads this
    {
      RecipeRecord(recipeName, ovenFan, ovenTemp, ovenTime, yieldList, ingredients, notes,
                   recipeUuid, sourceBook, sourceAuthors, sourceUrl, steps, x)
    }

    /** `Recipe(config)`, with the random UUID passed in: the keys are
        lowercased, the known fields popped and parsed in order, and what is
        left handed to `parse_x_fields`. */
    constructor (config: Raw, uuid: string)
      requires RecipeShape(config)
      ensures Contents() == Normalize(config, uuid).value
      ensures log == Normalize(config, uuid).log
    {
      var cfg := LowerKey(config).entries;
      LowerKeyIsLowered(config);
      var name, defaults, fan, temps, time;
      name, defaults, fan, temps, time, cfg := ReadOven(cfg, cfg, uuid);
      ghost var orig := LowerKey(config).entries;
      var ys, parsedIngredients, parsedNotes, uuidField;
      ys, parsedIngredients, parsedNotes, uuidField, cfg := ReadBody(cfg, orig, defaults);
      var book, authors, url, parsedSteps;
      book, authors, url, parsedSteps, cfg := ReadSource(cfg, orig, defaults);
      var xFields, xLog := ParseXFields(Map(cfg));
      recipeName, ovenFan, ovenTemp, ovenTime := name.value, fan.value, temps.value, time;
      yieldList, ingredients, notes, recipeUuid := ys.value, parsedIngredients.value, parsedNotes, uuidField.value;
      sourceBook, sourceAuthors, sourceUrl, steps := book.value, authors.value, url.value, parsedSteps.value;
      x := xFields;
      log := name.log + fan.log + temps.log + ys.log + parsedIngredients.log + uuidField.log + book.log +
             authors.log + url.log + parsedSteps.log + xLog;
    }
  }

  /** Key-case invariance: a configuration and its lowercased copy give the
      same recipe and the same warnings. */
  lemma KeyCaseInvariance(config: Raw, uuid: string)
    requires RecipeShape(config)
    ensures RecipeShape(LowerKey(config))
    ensures Normalize(LowerKey(config), uuid) == Normalize(config, uuid)
  {
    LowerKeyIdempotent(config);
  }

  /** The defaults of the scalar fields as the recipe ends up holding them:
      a missing or 'None' name is "untitled", and the fallback source URL is
      built from the website, the UUID and the resolved name, in that order
      (the provisional table puts the name before the UUID). */
  lemma NameAndUrlDefaults(config: Raw, uuid: string)
    requires RecipeShape(config)
    ensures var cfg := LowerKey(config).entries;
            var r := Normalize(config, uuid).value;
      && (IsAbsent(Field(cfg, "recipe_name")) ==> r.recipeName == Str("untitled"))
      && (!IsAbsent(Field(cfg, "recipe_name")) ==> r.recipeName == Field(cfg, "recipe_name"))
      && (IsAbsent(Field(cfg, "source_url")) ==>
            r.sourceUrl == Str(Url("example.recipes.com", uuid, Render(r.recipeName))))
  {
  }

  /** A missing UUID is the package name joined to the generated UUID, and
      missing authors are empty. */
  lemma UuidAndAuthorsDefaults(config: Raw, uuid: string)
    requires RecipeShape(config)
    ensures var cfg := LowerKey(config).entries;
            var r := Normalize(config, uuid).value;
      && (IsAbsent(Field(cfg, "recipe_uuid")) ==> r.recipeUuid == Str("PyOpenRecipe" + "-" + uuid))
      && (IsAbsent(Field(cfg, "source_authors")) ==> r.sourceAuthors == Str(""))
  {
  }

  /** A missing oven time is empty text, missing notes an empty list and a
      missing source book an empty mapping. */
  lemma EmptyDefaults(config: Raw, uuid: string)
    requires RecipeShape(config)
    ensures var cfg := LowerKey(config).entries;
            var r := Normalize(config, uuid).value;
      && (IsAbsent(Field(cfg, "oven_time")) ==> r.ovenTime == Str(""))
      && (IsAbsent(Field(cfg, "notes")) ==> r.notes == List([]))
      && (IsAbsent(Field(cfg, "source_book")) ==> r.sourceBook == [])
  {
  }

  /** The reader is not idempotent on its own output: the record's `x` key is
      none of the twelve fields `__init__` pops, so a configuration holding it
      (as the record built from an empty one does) has it escaped once more. */
  lemma OutputXReEscaped(config: Raw, uuid: string)
    requires config == Map([("x", Map([]))])
    ensures RecipeShape(config)
    ensures Normalize(config, uuid).value.x == [("x-x", Map([]))]
  {
    OnlyXLowered();
    OnlyXShape();
    OnlyXLeftover();
    NormalizeX(config, uuid);
  }

  lemma OnlyXLeftover()
    ensures XFieldsOf(Map(Without([("x", Map([]))], Named))).value == [("x-x", Map([]))]
  {
    var cfg := [("x", Map([]))];
    assert Without(cfg, Named) == cfg;
    assert XKey("x") == "x-x";
    assert cfg[..|cfg| - 1] == [];
    assert AddX([], cfg) == Put([], "x-x", Map([]));
  }

  lemma OnlyXLowered()
    ensures LowerKey(Map([("x", Map([]))])) == Map([("x", Map([]))])
  {
    assert Lower("x") == "x";
    assert IsLowered(Map([]));
    assert IsLowered(Map([("x", Map([]))]));
    LowerKeyFixes(Map([("x", Map([]))]));
  }

  lemma OnlyXShape()
    ensures FieldsShape([("x", Map([]))])
  {
  }

  /** `x` is built from what the twelve pops leave. */
  lemma NormalizeX(config: Raw, uuid: string)
    requires RecipeShape(config)
    ensures Normalize(config, uuid).value.x == XFieldsOf(Map(Without(LowerKey(config).entries, Named))).value
  {
  }

  /** After the twelve known fields are popped, `x` holds exactly the fields
      left over, each under its `x-` key: every key stored carries the prefix
      and comes from a leftover field, and every leftover field is stored. */
  lemma XHoldsLeftovers(config: Raw, uuid: string)
    requires RecipeShape(config)
    ensures var cfg := LowerKey(config).entries;
            var x := Normalize(config, uuid).value.x;
      && DistinctKeys(x)
      && (forall k :: k in Keys(x) ==> StartsWith(k, "x-"))
      && (forall k :: k in Keys(cfg) && k !in Named ==> XKey(k) in Keys(x))
      && (forall k :: k in Keys(x) ==> exists k' :: k' in Keys(cfg) && k' !in Named && XKey(k') == k)
  {
    LeftoversStored(LowerKey(config).entries, Named);
  }

  lemma LeftoversStored(cfg: Dict<Raw>, known: set<string>)
    ensures var x := XFieldsOf(Map(Without(cfg, known))).value;
      && DistinctKeys(x)
      && (forall k :: k in Keys(x) ==> StartsWith(k, "x-"))
      && (forall k :: k in Keys(cfg) && k !in known ==> XKey(k) in Keys(x))
      && (forall k :: k in Keys(x) ==> exists k' :: k' in Keys(cfg) && k' !in known && XKey(k') == k)
  {
    var rest := Without(cfg, known);
    var x := XFieldsOf(Map(rest)).value;
    XFieldsSpec(Map(rest));
    var ps := XPairs(rest);
    forall k | k in Keys(cfg) && k !in known
      ensures XKey(k) in Keys(x)
    {
      WithoutKeys(cfg, known, k);
      var i :| 0 <= i < |rest| && Keys(rest)[i] == k;
      assert Keys(ps)[i] == XKey(k);
      DedupMembers(Keys(ps), XKey(k));
    }
    forall k | k in Keys(x)
      ensures exists k' :: k' in Keys(cfg) && k' !in known && XKey(k') == k
    {
      DedupMembers(Keys(ps), k);
      var i :| 0 <= i < |ps| && Keys(ps)[i] == k;
      var k' := rest[i].0;
      assert Keys(rest)[i] == k';
      WithoutKeys(cfg, known, k');
      assert XKey(k') == k;
    }
  }
}
