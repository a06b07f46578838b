# PyOpenRecipe recipe reader, modelled in Dafny

PyOpenRecipe reads an Open Recipe Format document: an untyped YAML tree of mappings, lists and scalars. It turns that tree into a canonical recipe made of these parts:

- name
- oven settings
- yields
- ingredients with amounts and substitutions
- notes
- UUID
- source book, authors and URL
- steps with HACCP control points
- an `x` mapping that holds every field it does not know

Each deviation from the schema produces a warning, and a default is used where one exists.

This project models that reader and proves what it does.

## Structure

There is one module per concern.

- `RawTree` (raw.dfy)
  - The input tree: `Map | List | Str | Int | Null`. Mappings are association lists, so insertion order is kept.
  - `LowerKey`, which lowercases every key at every depth.
- `Dicts` (dicts.dfy): association lists with Python `dict` semantics.
  - Assigning to an existing key overwrites its value in place; a new key is appended.
  - `pop` removes the key.
  - `Without` is the mapping left once a set of keys has been popped.
  - `FromPairs` builds a mapping key by key.
- `Diagnostics` (diagnostics.dfy)
  - One warning constructor per message the reader prints, carrying the values the message interpolates.
  - `Parsed<T>`, a value paired with its warnings in printing order.
- `Coercion` (coercion.dfy): the three-tier numeric coercion used for amounts.
  - A value that parses as an integer becomes an integer.
  - Otherwise, a value that parses as a float becomes a float.
  - Otherwise, the value is kept as text.
- `Registry` (defaults.dfy)
  - The default table.
  - The second source-URL template, which is applied once the recipe name is known.
- Field parsers, one module each, each taking the reader's own form. A loop that builds a list or mapping is a `method` with a `while` loop. Each such method is proved equal to a recursive specification function, and lemmas state that function's properties.
  - `Scalars` (scalars.dfy): recipe_name, oven_fan, oven_time, notes, recipe_uuid, source_authors, source_url.
  - `OvenTemps` (oven_temp.dfy)
  - `Yields` (yields.dfy)
  - `Ingredients` (ingredients.dfy)
  - `Steps` (steps.dfy)
  - `Extensions` (extensions.dfy): source_book and the `x-` fields.
- `Assembly` (recipe.dfy)
  - The `Recipe` class. Its constructor lowercases the configuration, then pops each known field in the reader's fixed order, and then routes the rest into `x`.
  - `Normalize`, the specification of that constructor. It looks fields up in the lowercased configuration and gives the leftovers by `Without`.

The model keeps the reader's quirks as written:

- Substitutions are entered when the key `substitution` is present, but the list is read from `substitutions`.
- A missing ingredient amount warns about a default that is never stored.
- An ingredient amount that degrades to float is not warned about.
- The two source-URL templates put their parts in different orders.

## Model

| member | source | states |
|---|---|---|
| RawTree.LowerKey | recipeReader.py:363-372 | `lower_key`. A mapping is rebuilt by assigning each lowercased key its lowered value, in input order, so a later colliding key overwrites an earlier one. A list is lowered element by element. Any other value is returned as it is. |
| RawTree.LowerKeyShape | recipeReader.py:363-372 | Scalars are unchanged. A list keeps its length, and each of its elements is lowered. A mapping keeps one entry per distinct lowercased key, in order of first occurrence; the entry holds the lowered value of the last key that lowercases to it. Without collisions, a mapping keeps its length and order entry by entry. |
| RawTree.LowerKeyIsLowered | recipeReader.py:363-372 | After `lower_key`, every key at every depth is lowercase and no mapping repeats a key. |
| RawTree.LowerKeyFixes | recipeReader.py:363-372 | A tree that is already lowered is returned unchanged. |
| RawTree.LowerKeyIdempotent | recipeReader.py:363-372 | Applying `lower_key` twice is the same as applying it once. |
| RawTree.LowerIdempotent | recipeReader.py:367 | Lowercasing a key twice is the same as lowercasing it once. |
| Dicts.FromPairsSpec | recipeReader.py:366-367 | Assigning pairs one by one gives distinct keys in order of first occurrence, and each key holds the value of its last pair. |
| Dicts.FromPairsDistinct | recipeReader.py:253 | `update` with a mapping whose keys are distinct copies that mapping exactly. |
| Dicts.PopIfPresent | recipeReader.py:247-250 | Popping returns the key's value and the mapping without that key. A missing key changes nothing. |
| Dicts.PopClaimed | recipeReader.py:300-348 | Popping the next field from the configuration returns its original value (or the default), and the remainder is the configuration without every field popped so far. |
| Coercion.Coerce | recipeReader.py:129-136 | `int(v)`, else `float(v)`, else `v`. An integer, or integer text, gives that integer. Float text gives the float tier and keeps its text. Any other text is kept as text. |
| Coercion.CoerceKeeps | recipeReader.py:129-136 | An integer stays an integer. A text that is not integer text keeps its text, at both the float and the text tier. Only text that is neither integer nor float text lands in the text tier. |
| Coercion.IntTextRoundTrip | recipeReader.py:129-130 | The decimal rendering of any integer is integer text, and coercing it gives back that integer. |
| Coercion.IntegerTier | recipeReader.py:129-130 | "12" coerces to the integer 12. |
| Coercion.FloatTier | recipeReader.py:131-133 | "12.5" coerces to a float. |
| Coercion.TextTier | recipeReader.py:134-136 | "1 1/2" is neither an integer nor a float, so it is kept as text. |
| Registry.InitialDefaults | recipeReader.py:287-297 | The default UUID is the package name, a dash, then the given uuid. The first URL template orders its parts website, name, uuid. |
| Registry.WithResolvedName | recipeReader.py:303-304 | Only the source URL changes. The new URL starts with website then uuid, and ends with the rendered resolved name followed by `/`. |
| Scalars.ParseRecipeName | recipeReader.py:6-12 | `parse_recipe_name`: the value when present, otherwise the default with a warning naming it. |
| Scalars.ParseOvenFan | recipeReader.py:15-30 | The result is one of Off/Low/High with no warning, or else the input text unchanged with exactly one invalid-setting warning. |
| Scalars.OvenFanCases | recipeReader.py:15-30 | A missing value, 'None', or an empty value gives 'Off'. Other text yields no warning exactly when it is 'None' or matches high/low/off case-insensitively, and a match is returned in its canonical spelling. Anything else is returned unchanged with one warning. |
| Scalars.OvenFanIdempotent | recipeReader.py:15-30 | Re-parsing a parsed fan setting gives the same setting back. |
| Scalars.ParseOvenTime | recipeReader.py:68-72 | `parse_oven_time`: the value when present, otherwise the empty text, with no warning. |
| Scalars.ParseNotes | recipeReader.py:176-181 | `parse_notes`: the list when present, otherwise the empty list, with no warning. |
| Scalars.ParseRecipeUuid | recipeReader.py:184-190 | `parse_recipe_uuid`: the value when present, otherwise the default with a warning naming it. |
| Scalars.ParseSourceAuthors | recipeReader.py:214-221 | `parse_source_authors`: the value when present, otherwise the default with a warning naming it. |
| Scalars.ParseSourceUrl | recipeReader.py:224-231 | `parse_source_url`: the value when present, otherwise the default with a warning naming it. |
| Scalars.RecipeNameCases | recipeReader.py:6-12 | A present name, including an empty one, is kept with no warning. A missing one, or 'None', becomes the default with exactly one warning naming the name used. Re-parsing the result keeps it silently. |
| Scalars.OvenTimeCases | recipeReader.py:68-72 | A missing oven time, or 'None', becomes the empty text with no warning; a present one is kept. Re-parsing keeps the result. |
| Scalars.NotesCases | recipeReader.py:176-181 | A missing notes field, or 'None', becomes the empty list with no warning; a present one is kept as it is. Re-parsing keeps the result. |
| Scalars.RecipeUuidCases | recipeReader.py:184-190 | A present UUID is kept silently. A missing one becomes the default with one warning naming it. Re-parsing keeps the result silently. |
| Scalars.SourceAuthorsCases | recipeReader.py:214-221 | Present authors are kept silently. Missing ones become the default with one warning naming it. Re-parsing keeps the result silently. |
| Scalars.SourceUrlCases | recipeReader.py:224-231 | A present source URL is kept silently. A missing one becomes the default with one warning naming it. Re-parsing keeps the result silently. |
| OvenTemps.OvenTempsOf | recipeReader.py:33-65 | The specification of `parse_oven_temp`. A missing list gives no entries. Otherwise the "multiple" warning comes first when there is more than one entry, followed by each entry normalised in order, and its warnings. |
| OvenTemps.ParseOvenTemp | recipeReader.py:33-65 | The loop produces exactly the entries and warnings of the recursive specification. |
| OvenTemps.ParseEntry | recipeReader.py:39-64 | The body of one iteration matches the specification of one entry. |
| OvenTemps.OvenTempsLength | recipeReader.py:33-65 | A missing list gives no entries. Otherwise there is one entry per input entry, each the normalisation of its input. The "multiple" warning is given exactly when there is more than one entry. |
| OvenTemps.EntryListEntries | recipeReader.py:38-64 | The i-th output is the i-th input entry normalised, and no per-entry step emits the "multiple" warning. |
| OvenTemps.EntryCases | recipeReader.py:39-64 | A `None` entry gives `{'', ''}` with no warning. A c/f unit (any case) becomes 'C'/'F' with no invalid-unit warning. Any other unit is kept with that warning. A missing unit gives '' with a warning. A missing amount gives '' with a warning. A present amount follows the three tiers, with a warning exactly at the float and text tiers. |
| Yields.YieldsOf | recipeReader.py:75-94 | The specification of `parse_yields`. A missing value gives no yields. Otherwise every key/value pair of every mapping is normalised in order, with its warnings. |
| Yields.ParseYields | recipeReader.py:75-94 | The nested loops produce exactly the yields and warnings of the specification. |
| Yields.ParseMapping | recipeReader.py:79-93 | The inner loop over one mapping matches the specification of that mapping. |
| Yields.ParsePair | recipeReader.py:80-93 | One key/value step matches the specification of one pair. |
| Yields.MapsFlatten | recipeReader.py:77-94 | There is one single-key yield per key/value pair over all input mappings, in order. |
| Yields.PairsEntries | recipeReader.py:79-93 | Within one mapping, the i-th yield is the i-th pair normalised. |
| Yields.YieldsEntries | recipeReader.py:75-94 | A missing value gives no yields and no warning. Otherwise the result is the flattened pairs, each normalised. |
| Yields.PairCases | recipeReader.py:80-93 | An empty key becomes the default unit, with a warning exactly then. The value is coerced. A text value kept as it is carries the not-numeric warning. The float warning is given exactly at the float tier. |
| Ingredients.IngredientsOf | recipeReader.py:97-173 | The specification of `parse_ingredients`. A missing list gives no ingredients and the level's warning. Otherwise each ingredient mapping has each name's details normalised, with substitutions parsed one level down. |
| Ingredients.ParseAmountItem | recipeReader.py:114-143 | One amount item is parsed exactly as the specification of one amount entry. |
| Ingredients.CopyExtras | recipeReader.py:140-142 | The leftover fields are copied key by key, with one unknown-value warning each. |
| Ingredients.ParseAmounts | recipeReader.py:108-144 | The amounts loop matches the specification, with a mismatch warning first exactly when the length differs from max(expected, 1). |
| Ingredients.ParseDetail | recipeReader.py:102-166 | One ingredient's details are parsed exactly as the specification. |
| Ingredients.ParseSubstitutions | recipeReader.py:160-164 | The substitutions branch matches the specification at the current level. |
| Ingredients.ParseIngredientItem | recipeReader.py:100-167 | One ingredient mapping is parsed exactly as the specification. |
| Ingredients.ParseIngredients | recipeReader.py:97-173 | The whole parser matches the recursive specification, including the substitution level. |
| Ingredients.DetailPops | recipeReader.py:148-163 | Each pop leaves the later-read fields untouched. |
| Ingredients.AmountListEntries | recipeReader.py:114-144 | The i-th amount entry is the i-th item normalised, so nothing is dropped or reordered. |
| Ingredients.AmountListNoMismatch | recipeReader.py:111-144 | The mismatch warning never comes from the per-item steps. |
| Ingredients.AmountEntryCases | recipeReader.py:115-136 | A missing unit becomes 'each' with a warning; a present unit is kept. The amount is absent exactly when the input has none, and exactly then the default-amount warning is given. A present amount is coerced. |
| Ingredients.AmountExtrasCopied | recipeReader.py:137-142 | The extra fields are exactly the item without `unit` and `amount`, with values and order unchanged. |
| Ingredients.AmountsCases | recipeReader.py:108-146 | No `amounts` key gives no amounts and a single warning. Otherwise the output is as long as the input, and there is exactly one mismatch warning when the length differs from max(expected, 1), none otherwise. |
| Ingredients.DetailCases | recipeReader.py:148-164 | processing, notes and usda_num are copied when present. Substitutions are parsed exactly at top level when the key `substitution` is present. |
| Ingredients.PluralOnlyDropped | recipeReader.py:160-164 | A `substitutions` list with no `substitution` key is ignored. |
| Ingredients.EntriesDepth | recipeReader.py:161-164 | At substitution level, no ingredient detail carries substitutions. |
| Ingredients.ListDepth | recipeReader.py:161-164 | At substitution level, no ingredient of the list carries substitutions. |
| Ingredients.SubstitutionDepth | recipeReader.py:161-164 | Recursion into substitutions is capped at one level. |
| Ingredients.IngredientsCases | recipeReader.py:97-173 | An absent list gives `[]` with "no ingredients" at top level, or "no substitutions" at substitution level. Otherwise there is one output per input ingredient mapping, keyed by its ingredient names. |
| Ingredients.EntriesKeys | recipeReader.py:102-166 | An ingredient mapping keeps its ingredient names, in order of first occurrence. |
| Ingredients.ListKeys | recipeReader.py:100-167 | Every output ingredient mapping has the input mapping's names. |
| Ingredients.EntriesLookup | recipeReader.py:166 | With distinct names, each name maps to its own normalised details. |
| Steps.StepsOf | recipeReader.py:234-261 | The specification of `parse_steps`. A missing list gives no steps and one warning. Otherwise each step is normalised in order, with its warnings. |
| Steps.ParseSteps | recipeReader.py:234-261 | The loop matches the specification. A missing list gives no steps and one warning. |
| Steps.ParseStep | recipeReader.py:237-258 | One step is parsed exactly as the specification. |
| Steps.ParseHaccp | recipeReader.py:243-253 | The HACCP branch matches its specification. |
| Steps.Merge | recipeReader.py:253 | `update` assigns the remaining pairs in order. |
| Steps.CopyNotes | recipeReader.py:254-257 | The notes are copied in order, unchanged. |
| Steps.StepListEntries | recipeReader.py:237-258 | There is one output step per input step, the i-th being the i-th input normalised. |
| Steps.StepsCases | recipeReader.py:234-261 | A missing list gives no steps and exactly the one missing-steps warning. A present list gives one step per input step, and the missing-steps warning is never given for it. |
| Steps.StepCases | recipeReader.py:239-257 | The step text is copied, and the missing-step warning is given exactly when the text is absent. HACCP and notes appear exactly when present, and the notes equal the input list. |
| Steps.HaccpCases | recipeReader.py:243-253 | Both control points are kept. The both-points warning is given exactly when both are present, at most once. The non-standard warning is given exactly when something else is merged. |
| Steps.HaccpExtrasMerged | recipeReader.py:247-253 | The merged fields are exactly the HACCP mapping without its two control points. |
| Extensions.XFieldsOf | recipeReader.py:264-275 | The specification of `parse_x_fields`. Each field is assigned under its `x-` key in order, with one warning per field. |
| Extensions.SourceBookOf | recipeReader.py:193-211 | The specification of `parse_source_book`. The four known fields come first, then every leftover field under its `x-` key, with a warning per unprefixed leftover. |
| Extensions.XKeyPrefix | recipeReader.py:206-210 | An escaped key starts with `x-`. Escaping twice is escaping once. A key is unchanged exactly when it already starts with `x-`, so a double prefix only comes from the input. |
| Extensions.ParseXFields | recipeReader.py:264-275 | The loop matches the specification of the `x` mapping. |
| Extensions.ParseSourceBook | recipeReader.py:193-211 | The parser matches the specification of the source book. |
| Extensions.AddXFields | recipeReader.py:205-210 | The leftover loop stores each escaped field and logs one unknown-field warning per non-prefixed key. |
| Extensions.BookPops | recipeReader.py:196-203 | Each pop leaves the later-read book fields untouched. |
| Extensions.AddXPairs | recipeReader.py:205-210 | Adding leftovers is assigning their escaped pairs after the known ones. |
| Extensions.AddXLookup | recipeReader.py:205-210 | Adding leftovers never changes a key without the `x-` prefix. |
| Extensions.AddXKeys | recipeReader.py:205-210 | Every key in the result is a known key or starts with `x-`. |
| Extensions.XFieldsSpec | recipeReader.py:264-275 | There is one warning per field: the "stored but not understood" one exactly for prefixed keys, and the unknown-field one for every other key. All keys are distinct and prefixed, in order of first occurrence, and each holds its last value. |
| Extensions.XFieldsKeepPrefixed | recipeReader.py:268-271 | Distinct, already prefixed fields are stored unchanged. |
| Extensions.KnownLookup | recipeReader.py:196-203 | Each of authors/title/isbn/notes is copied exactly when present, and nothing else is. |
| Extensions.KnownKeys | recipeReader.py:196-203 | The known part holds only those four keys. |
| Extensions.SourceBookSpec | recipeReader.py:193-211 | The four known fields keep their values. Every prefixed key holds the value of the last leftover field stored under it, so each leftover `f` is kept under `f` when it starts with `x-`, and under `x-f` otherwise. No other key is present. The unknown-field warning is given for `f` exactly when `f` is a leftover without the prefix, and no other warning is given. |
| Extensions.AddXOver | recipeReader.py:205-210 | A key the known fields do not hold ends up with the value of the last leftover field stored under it. |
| Extensions.KnownDistinct | recipeReader.py:196-203 | The known fields are distinct keys. |
| Extensions.BookLogExact | recipeReader.py:205-210 | Exactly the leftover fields without the `x-` prefix are warned about. The only warning is the unknown-field one, and there is at most one per leftover. |
| Assembly.Normalize | recipeReader.py:279-351 | The specification of `Recipe.__init__`. Each field is parsed from the lowercased configuration in the reader's order, with the defaults patched once the name is resolved, and the leftovers go to `x`. The warnings are concatenated in that order. |
| Assembly.PopField | recipeReader.py:300 | Popping a field gives its value in the lowercased configuration (or `None`), and the rest is the configuration without all fields popped so far. |
| Assembly.ReadOven | recipeReader.py:299-316 | The name, the patched defaults, the fan, the temperatures and the time are each the parser applied to the original field. The rest lacks exactly these four fields. |
| Assembly.ReadBody | recipeReader.py:318-332 | Yields, ingredients (checked against the yield count), notes and UUID are each parsed from the original field. |
| Assembly.ReadSource | recipeReader.py:334-348 | Source book, authors, URL and steps are each parsed from the original field, and the rest lacks all twelve named fields. |
| Assembly.Recipe.constructor | recipeReader.py:279-351 | The new recipe's contents and warnings equal `Normalize` of the configuration. |
| Assembly.KeyCaseInvariance | recipeReader.py:284 | Lowercasing the configuration first changes nothing: the reader ignores the case of keys. |
| Assembly.NameAndUrlDefaults | recipeReader.py:299-304 | A missing name becomes 'untitled', and a present one is kept. A missing source URL is built from website, uuid and the resolved name, in that order. |
| Assembly.UuidAndAuthorsDefaults | recipeReader.py:330-340 | A missing UUID becomes `PyOpenRecipe-<uuid>`. Missing authors become the empty text. |
| Assembly.EmptyDefaults | recipeReader.py:314-336 | A missing oven time, notes or source book becomes the empty text, list or mapping. |
| Assembly.XHoldsLeftovers | recipeReader.py:350-351 | `x` has distinct, prefixed keys, exactly the escaped forms of the lowercased keys that none of the twelve pops consumed. |
| Assembly.OutputXReEscaped | recipeReader.py:350-351 | A configuration holding only the record's own key `x`, which is what the record built from an empty configuration holds besides the twelve fields, gets `x == {'x-x': {}}`. The reader does not reproduce its own output. |
| Assembly.LeftoversStored | recipeReader.py:264-275 | The `x` mapping of whatever is left after a set of keys is popped holds exactly the escaped leftover keys. |

## Left out

- `load_file`, `save_file` and the `__main__` block (recipeReader.py:375-393) are file I/O through PyYAML, which is not part of this model. The input is taken as an already parsed tree.
- `uuid.uuid4()` (recipeReader.py:292) is random. The UUID string is a parameter of the constructor.
- Floating-point values are not modelled as numbers. A float-tier amount keeps its text (`FloatAmt(text)`).
  - `int()` is modelled on text as an optional sign and ASCII decimal digits. Python also accepts surrounding whitespace, underscores between digits and non-ASCII decimal digits; such text lands in a later tier of the model.
  - `float()` is modelled as a simplified decimal grammar: optional sign, digits with an optional point, optional exponent, and `inf`/`nan`. Surrounding whitespace and underscores are not accepted.
  - Tree values that are already floats or booleans are not represented.
- Case mapping in `lower()` and `upper()` is ASCII only.
- Input on which Python would raise is excluded by shape predicates in `requires`. This covers `int()` of a non-scalar, `.lower()` on a non-text value, `len()` of a number, and `.items()` or `.pop` on a non-mapping. It also covers `pop('substitutions')` when only `substitution` is present (`DetailShape`). A recipe_name that is a list or mapping is excluded too, because its `%s` rendering is not modelled (`Registry.Render`).
- Some malformed input on which Python does not raise is excluded by the same predicates, and the model says nothing about what the reader does with it:
  - Python's `in` on text is a substring test, and iterating text yields its characters. So a text in place of a mapping or list returns normally.
  - A text step (such as "Preheat oven") gives `{}` and the missing-step warning (recipeReader.py:239-258).
  - Text step notes give one note per character (recipeReader.py:256-257).
  - Text ingredient details give `{}` and the no-amounts warning (recipeReader.py:108-166).
  - A text oven_temp entry gives `{'unit': '', 'amount': ''}` with both missing-field warnings (recipeReader.py:42-53).
  - A text oven_temp value gives one such entry per character (recipeReader.py:36-64).
  - A mapping in place of a list is iterated over its keys in the same way.
  - Python's `in` on a list is a membership test, so a list in place of a mapping returns normally too. A list as an oven_temp entry gives `{'unit': '', 'amount': ''}` with both missing-field warnings (recipeReader.py:42-53). A list as ingredient details gives `{}` and the no-amounts warning (recipeReader.py:108-166). A list as a step gives `{}` and the missing-step warning (recipeReader.py:239-258).
  - Empty text as yields or ingredients (`yields: ''`, `ingredients: ''`) is iterated as no items, so it gives `[]` without a warning (recipeReader.py:75-78 and 97-100, with the missing-list warnings at 168-172 skipped).
  - These cases are excluded by `StepShape`, `StepsShape`, `DetailShape`/`AllDetails`, `EntryShape`, `OvenTempShape`, `YieldsShape` and `IngredientsShape`.
- `print` becomes the returned warning log, with the interpolated values as constructor arguments.
- Python mutates the input mappings in place through `pop` and `update`, and that mutation is only modelled on values. The model computes the popped remainders but does not model the aliasing: the caller's configuration is not destroyed.
- `Recipe.contents` returns the internal dictionary. The model's `Contents()` returns the fields as a typed record instead of a YAML-ready dictionary.
- Assembly.NameAndUrlDefaults, Assembly.UuidAndAuthorsDefaults and Assembly.EmptyDefaults state the values the assembled recipe receives. They do not restate which warnings appear in the combined log; that is stated per parser by Scalars.RecipeNameCases, Scalars.RecipeUuidCases, Scalars.SourceAuthorsCases, Scalars.SourceUrlCases and the other parser lemmas.
- The reader does not reproduce its own output, and the model does not claim it does. Fed back as a configuration, a record's own `x` key is not one of the twelve popped fields, so it is escaped again to `x-x` (Assembly.OutputXReEscaped). Its substitutions carry no `substitution` key, so they are dropped (Ingredients.PluralOnlyDropped).
- Dicts.FromPairsDistinct, Steps.HaccpExtrasMerged, Ingredients.AmountExtrasCopied and Ingredients.EntriesLookup require distinct keys. A parsed YAML mapping has them, but an association list in general need not.
