/**
 * The parsers of the scalar fields: recipe_name, oven_fan, oven_time, notes,
 * recipe_uuid, source_authors and source_url.  Each treats a missing value and
 * the text 'None' alike; all but oven_fan pass a present value through as it is.
 */
module Scalars {
  import opened RawTree
  import opened Diagnostics
  import opened Registry

  /** `parse_recipe_name`. */
  function ParseRecipeName(src: Raw, d: Defaults): Parsed<Raw>
  {
    if !IsAbsent(src) then Parsed(src, [])
    else Parsed(Str(d.recipeName), [NoRecipeName(d.recipeName)])
  }

  /** What `parse_oven_fan` handles without raising: `.lower()` is only reached
      on a present, non-empty value, which must then be text. */
  predicate FanShape(src: Raw) {
    IsAbsent(src) || IsFalsy(src) || src.Str?
  }

  /** `parse_oven_fan`. */
  function ParseOvenFan(src: Raw): (r: Parsed<string>)
    requires FanShape(src)
    ensures (r.value in {"Off", "Low", "High"} && r.log == [])
         || (src.Str? && r.value == src.s && r.log == [OvenFanInvalid])
  {
    if !IsAbsent(src) then
      if IsFalsy(src) then Parsed("Off", [])
      else if Lower(src.s) == "high" then Parsed("High", [])
      else if Lower(src.s) == "low" then Parsed("Low", [])
      else if Lower(src.s) == "off" then Parsed("Off", [])
      else Parsed(src.s, [OvenFanInvalid])
    else Parsed("Off", [])
  }

  /** `parse_oven_time`: prints nothing. */
  function ParseOvenTime(src: Raw): Raw
  {
    if !IsAbsent(src) then src else Str("")
  }

  /** `parse_notes`: the list is taken over as it is; prints nothing. */
  function ParseNotes(src: Raw): Raw
  {
    if !IsAbsent(src) then src else List([])
  }

  /** `parse_recipe_uuid`. */
  function ParseRecipeUuid(src: Raw, d: Defaults): Parsed<Raw>
  {
    if !IsAbsent(src) then Parsed(src, [])
    else Parsed(Str(d.recipeUuid), [NoUuid(d.recipeUuid)])
  }

  /** `parse_source_authors`. */
  function ParseSourceAuthors(src: Raw, d: Defaults): Parsed<Raw>
  {
    if !IsAbsent(src) then Parsed(src, [])
    else Parsed(Str(d.sourceAuthors), [NoSourceAuthor(d.sourceAuthors)])
  }

  /** `parse_source_url`. */
  function ParseSourceUrl(src: Raw, d: Defaults): Parsed<Raw>
  {
    if !IsAbsent(src) then Parsed(src, [])
    else Parsed(Str(d.sourceUrl), [NoSourceUrl(d.sourceUrl)])
  }

  /** The fan setting: a missing, 'None' or empty value is "Off"; text that
      matches high, low or off in any case becomes exactly "High", "Low" or
      "Off", silently; any other text is kept verbatim with exactly one
      warning. */
  lemma OvenFanCases(src: Raw)
    requires FanShape(src)
    ensures IsAbsent(src) || IsFalsy(src) ==> ParseOvenFan(src) == Parsed("Off", [])
    ensures src.Str? && src.s != "" ==>
              (ParseOvenFan(src).log == [] <==> src.s == "None" || Lower(src.s) in {"high", "low", "off"})
    ensures src.Str? && src.s != "" && src.s != "None" && ParseOvenFan(src).log == [] ==>
              Lower(ParseOvenFan(src).value) == Lower(src.s)
    ensures ParseOvenFan(src).log != [] ==> src.Str? && ParseOvenFan(src) == Parsed(src.s, [OvenFanInvalid])
  {
    assert Lower("High") == "high" && Lower("Low") == "low" && Lower("Off") == "off";
  }

  /** Re-parsing a parsed fan setting gives the same setting back: a canonical
      one stays, and an invalid text stays (warned about again). */
  lemma OvenFanIdempotent(src: Raw)
    requires FanShape(src)
    ensures ParseOvenFan(Str(ParseOvenFan(src).value)).value == ParseOvenFan(src).value
  {
    assert Lower("High") == "high" && Lower("Low") == "low" && Lower("Off") == "off";
  }

  // For each field with a default: a present value is kept as it is,
  // silently; a missing or 'None' one is replaced by the table's entry with
  // exactly one warning, which names the value actually used; and re-parsing
  // the result keeps it, silently, as long as the default is not itself 'None'.

  lemma RecipeNameCases(src: Raw, d: Defaults)
    ensures var r := ParseRecipeName(src, d);
      && (!IsAbsent(src) ==> r == Parsed(src, []))
      && (IsAbsent(src) ==> r.value == Str(d.recipeName) && r.log == [NoRecipeName(r.value.s)])
      && (d.recipeName != "None" ==> ParseRecipeName(r.value, d) == Parsed(r.value, []))
  {
  }

  lemma RecipeUuidCases(src: Raw, d: Defaults)
    ensures var r := ParseRecipeUuid(src, d);
      && (!IsAbsent(src) ==> r == Parsed(src, []))
      && (IsAbsent(src) ==> r.value == Str(d.recipeUuid) && r.log == [NoUuid(r.value.s)])
      && (d.recipeUuid != "None" ==> ParseRecipeUuid(r.value, d) == Parsed(r.value, []))
  {
  }

  lemma SourceAuthorsCases(src: Raw, d: Defaults)
    ensures var r := ParseSourceAuthors(src, d);
      && (!IsAbsent(src) ==> r == Parsed(src, []))
      && (IsAbsent(src) ==> r.value == Str(d.sourceAuthors) && r.log == [NoSourceAuthor(r.value.s)])
      && (d.sourceAuthors != "None" ==> ParseSourceAuthors(r.value, d) == Parsed(r.value, []))
  {
  }

  lemma SourceUrlCases(src: Raw, d: Defaults)
    ensures var r := ParseSourceUrl(src, d);
      && (!IsAbsent(src) ==> r == Parsed(src, []))
      && (IsAbsent(src) ==> r.value == Str(d.sourceUrl) && r.log == [NoSourceUrl(r.value.s)])
      && (d.sourceUrl != "None" ==> ParseSourceUrl(r.value, d) == Parsed(r.value, []))
  {
  }

  /** oven_time and notes have no warning: a missing or 'None' value becomes
      the empty text or list, a present one is kept, and re-parsing keeps the
      result. */
  lemma OvenTimeCases(src: Raw)
    ensures IsAbsent(src) ==> ParseOvenTime(src) == Str("")
    ensures !IsAbsent(src) ==> ParseOvenTime(src) == src
    ensures ParseOvenTime(ParseOvenTime(src)) == ParseOvenTime(src)
  {
  }

  lemma NotesCases(src: Raw)
    ensures IsAbsent(src) ==> ParseNotes(src) == List([])
    ensures !IsAbsent(src) ==> ParseNotes(src) == src
    ensures ParseNotes(ParseNotes(src)) == ParseNotes(src)
  {
  }
}
