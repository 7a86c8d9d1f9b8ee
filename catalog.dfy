/** The static catalog the site is built around: the `PROJECTS` list and the
    `CATEGORIES` table. Both live in a data file outside this model, so every
    operation takes them as parameters. */
module Catalog {
  import opened Wrappers

  /** One advertised past project. `kind` is the source's `type` field
      ("excel" or "python" in the shipped data). */
  datatype Project = Project(
    id: string,
    title: string,
    summary: string,
    category: string,
    kind: string,
    tags: seq<string>,
    featured: bool)

  /** Display metadata of one category: an icon, a label
      (the source's `label`) and a "#rrggbb" colour. */
  datatype CategoryInfo = CategoryInfo(icon: string, labelText: string, color: string)

  type Categories = map<string, CategoryInfo>

  /** The catalog keys its projects by `id`; the shipped data has no duplicates. */
  predicate UniqueIds(catalog: seq<Project>) {
    forall i, j :: 0 <= i < j < |catalog| ==> catalog[i].id != catalog[j].id
  }

  /** `PROJECTS.find((p) => p.id === id)`: the first project with that id. */
  function Find(catalog: seq<Project>, id: string): (r: Option<Project>)
    ensures r.Some? <==> exists i :: 0 <= i < |catalog| && catalog[i].id == id
    ensures r.Some? ==> exists i :: 0 <= i < |catalog| && catalog[i] == r.value && r.value.id == id
                          && forall j :: 0 <= j < i ==> catalog[j].id != id
  {
    if catalog == [] then None
    else if catalog[0].id == id then Some(catalog[0])
    else
      var r := Find(catalog[1..], id);
      assert forall i :: 1 <= i < |catalog| ==> catalog[i] == catalog[1..][i - 1];
      if r.Some? then
        ghost var i :| 0 <= i < |catalog[1..]| && catalog[1..][i] == r.value && r.value.id == id
                       && forall j :: 0 <= j < i ==> catalog[1..][j].id != id;
        assert catalog[i + 1] == r.value;
        assert forall j :: 0 <= j < i + 1 ==> catalog[j].id != id by {
          forall j | 0 <= j < i + 1 ensures catalog[j].id != id {
            if j > 0 { assert catalog[j] == catalog[1..][j - 1]; }
          }
        }
        r
      else
        r
  }

  /** With unique ids, looking up a catalog entry's id yields that very entry. */
  lemma FindOwnId(catalog: seq<Project>, i: nat)
    requires UniqueIds(catalog) && i < |catalog|
    ensures Find(catalog, catalog[i].id) == Some(catalog[i])
  {
    var r := Find(catalog, catalog[i].id);
    var k :| 0 <= k < |catalog| && catalog[k] == r.value && r.value.id == catalog[i].id
             && forall j :: 0 <= j < k ==> catalog[j].id != catalog[i].id;
    assert k == i;
  }

  /** `CATEGORIES[key] || CATEGORIES.other`; None when even "other" is missing
      (the source would then fail on the first use of the result). */
  function CategoryFor(categories: Categories, key: string): (r: Option<CategoryInfo>)
    ensures key in categories ==> r == Some(categories[key])
    ensures key !in categories && "other" in categories ==> r == Some(categories["other"])
    ensures r.None? <==> key !in categories && "other" !in categories
  {
    if key in categories then Some(categories[key])
    else if "other" in categories then Some(categories["other"])
    else None
  }
}
