/**
 * The default registry `Recipe.__init__` builds before any field is parsed
 * (recipeReader.py:287-297), and its one name-dependent patch: once the recipe
 * name is resolved, the fallback source URL is recomputed around it
 * (recipeReader.py:303-304).  The random `uuid.uuid4()` is a parameter.
 */
module Registry {
  import opened RawTree
  import opened Coercion

  datatype Defaults = Defaults(
    yieldsUnit: string,
    website: string,
    softwarePackage: string,
    sourceAuthors: string,
    uuid: string,
    recipeUuid: string,
    recipeName: string,
    sourceUrl: string,
    unit: string,
    amount: int)

  /** `"https://%s/%s/%s/" % (a, b, c)`. */
  function Url(a: string, b: string, c: string): string {
    "https://" + a + "/" + b + "/" + c + "/"
  }

  /** The provisional table.  Its URL template puts the parts in the order
      website, name, uuid. */
  function InitialDefaults(uuid: string): (d: Defaults)
    ensures d.recipeUuid == d.softwarePackage + "-" + uuid
    ensures d.sourceUrl == Url(d.website, d.recipeName, uuid)
  {
    var website := "example.recipes.com";
    var package := "PyOpenRecipe";
    var name := "untitled";
    Defaults("servings", website, package, "", uuid, package + "-" + uuid, name,
             Url(website, name, uuid), "each", 1)
  }

  /** `"%s" % v` for the scalars a recipe name can be. */
  function Render(v: Raw): string
    requires v.Str? || v.Int? || v.Null?
  {
    match v
    case Str(s) => s
    case Int(n) => IntText(n)
    case Null => "None"
  }

  /** The second phase: the URL is rebuilt around the resolved name, now in
      the order website, uuid, name; nothing else in the table changes. */
  function WithResolvedName(d: Defaults, name: Raw): (r: Defaults)
    requires name.Str? || name.Int? || name.Null?
    ensures r.(sourceUrl := d.sourceUrl) == d
    ensures StartsWith(r.sourceUrl, "https://" + d.website + "/" + d.uuid + "/")
    ensures var p := |"https://" + d.website + "/" + d.uuid + "/"|;
            p <= |r.sourceUrl| - 1 && r.sourceUrl[p..|r.sourceUrl| - 1] == Render(name)
    ensures r.sourceUrl[|r.sourceUrl| - 1] == '/'
  {
    var r := d.(sourceUrl := Url(d.website, d.uuid, Render(name)));
    var prefix := "https://" + d.website + "/" + d.uuid + "/";
    assert r.sourceUrl == prefix + Render(name) + "/";
    r
  }
}
