/** js/project-renderer.js: the project grid with its category filter and
    "load more" pagination, the card and modal contents, and the colour
    helper they use. */
module ProjectRenderer {
  import opened Wrappers
  import opened Text
  import opened Catalog

  const ItemsPerLoad: int := 12
  const MaxCardTags: int := 5

  // ---------------------------------------------------------------------
  // hexToRgba (js/project-renderer.js:13-18)
  // ---------------------------------------------------------------------

  predicate IsHexDigit(c: char) {
    ('0' <= c <= '9') || ('a' <= c <= 'f') || ('A' <= c <= 'F')
  }

  function HexValue(c: char): (v: nat)
    requires IsHexDigit(c)
    ensures v < 16
  {
    if '0' <= c <= '9' then c as int - '0' as int
    else if 'a' <= c <= 'f' then c as int - 'a' as int + 10
    else c as int - 'A' as int + 10
  }

  predicate AllHex(s: string) {
    forall i :: 0 <= i < |s| ==> IsHexDigit(s[i])
  }

  /** Length of the longest prefix made of hexadecimal digits. */
  function HexRun(s: string): (n: nat)
    ensures n <= |s| && AllHex(s[..n])
    ensures n < |s| ==> !IsHexDigit(s[n])
  {
    if s != [] && IsHexDigit(s[0]) then
      var n := HexRun(s[1..]);
      ghost var pre := s[..n + 1];
      assert AllHex(pre) by {
        forall i | 0 <= i < |pre| ensures IsHexDigit(pre[i]) {
          if i > 0 { assert pre[i] == s[1..][..n][i - 1]; }
        }
      }
      n + 1
    else
      0
  }

  /** The number a string of hexadecimal digits denotes, most significant first. */
  function HexNumber(s: string): nat
    requires AllHex(s)
  {
    if s == [] then 0 else 16 * HexNumber(s[..|s| - 1]) + HexValue(s[|s| - 1])
  }

  /** `parseInt(s, 16)` (section 18.2.5 of ECMAScript 2019): leading white
      space is skipped, one sign is taken, a "0x"/"0X" prefix is dropped, and
      the longest run of hexadecimal digits that follows is read; no digit at
      all gives NaN, here `None`. Minus zero prints as "0", so it is 0. */
  function ParseIntHex(s: string): Option<int>
    decreases |s|
  {
    if s != [] && IsSpace(s[0]) then ParseIntHex(s[1..]) else ParseSigned(s)
  }

  /** `parseInt` once the white space is gone: the sign. */
  function ParseSigned(t: string): Option<int> {
    if t != [] && t[0] == '-' then
      match ParseDigits(t[1..])
      case None => None
      case Some(v) => Some(-v)
    else if t != [] && t[0] == '+' then ParseDigits(t[1..])
    else ParseDigits(t)
  }

  /** `parseInt` after the sign: the optional "0x" prefix and the digits. */
  function ParseDigits(u: string): Option<int> {
    var w := if |u| >= 2 && u[0] == '0' && (u[1] == 'x' || u[1] == 'X') then u[2..] else u;
    var digits := w[..HexRun(w)];
    if digits == [] then None else Some(HexNumber(digits))
  }

  /** White space is skipped exactly as `trimStart` skips it. */
  lemma {:induction false} ParseIntHexSkipsSpace(s: string)
    ensures ParseIntHex(s) == ParseSigned(TrimStart(s))
    decreases |s|
  {
    if s != [] && IsSpace(s[0]) {
      ParseIntHexSkipsSpace(s[1..]);
    }
  }

  /** Two hexadecimal digits read as one byte. */
  lemma ParseTwoDigits(a: char, b: char)
    requires IsHexDigit(a) && IsHexDigit(b)
    ensures ParseIntHex([a, b]) == Some(16 * HexValue(a) + HexValue(b))
    ensures 0 <= 16 * HexValue(a) + HexValue(b) <= 255
  {
    var s := [a, b];
    assert !IsSpace(a);
    assert a != '-' && a != '+' && b != 'x' && b != 'X';
    assert HexRun(s) == 2 by {
      assert s[1..] == [b];
      assert HexRun([b]) == 1 by { assert [b][1..] == []; }
    }
    assert s[..2] == s;
    assert HexNumber(s) == 16 * HexValue(a) + HexValue(b) by {
      assert s[..1] == [a];
      assert HexNumber([a]) == HexValue(a) by { assert [a][..0] == []; }
    }
  }

  /** An input with no digit in the place `parseInt` looks gives NaN. */
  lemma ParseIntHexNaN()
    ensures ParseIntHex("") == None
    ensures ParseIntHex("0x") == None
    ensures ParseIntHex("#") == None
  {
    assert "0x"[2..] == [];
  }

  /** JavaScript's `String.prototype.slice(start, end)` with non-negative
      bounds: both are clamped to the length. */
  function Slice(s: string, start: nat, end: nat): (r: string)
    ensures |r| <= |s|
    ensures start <= end <= |s| ==> r == s[start..end]
  {
    var a := if start < |s| then start else |s|;
    var b := if end < |s| then end else |s|;
    if b <= a then [] else s[a..b]
  }

  /** Characters 1-2, 3-4 and 5-6 of a seven-character string. */
  lemma ColorSlices(hex: string)
    requires |hex| == 7
    ensures Slice(hex, 1, 3) == [hex[1], hex[2]]
    ensures Slice(hex, 3, 5) == [hex[3], hex[4]]
    ensures Slice(hex, 5, 7) == [hex[5], hex[6]]
  {
  }

  /** The three components `hexToRgba` reads: characters 1-2, 3-4 and 5-6. */
  function Components(hex: string): (Option<int>, Option<int>, Option<int>) {
    (ParseIntHex(Slice(hex, 1, 3)), ParseIntHex(Slice(hex, 3, 5)), ParseIntHex(Slice(hex, 5, 7)))
  }

  /** How a component prints in the template literal. */
  function NumberText(n: Option<int>): string {
    if n.None? then "NaN" else IntToString(n.value)
  }

  /** `hexToRgba(hex, alpha)`; `alpha` is passed as the text it prints as. */
  function HexToRgba(hex: string, alpha: string): string {
    var (r, g, b) := Components(hex);
    "rgba(" + NumberText(r) + "," + NumberText(g) + "," + NumberText(b) + "," + alpha + ")"
  }

  /** A colour written "#rrggbb". */
  predicate IsHexColor(hex: string) {
    |hex| == 7 && hex[0] == '#' && forall i :: 1 <= i < 7 ==> IsHexDigit(hex[i])
  }

  /** For a well-formed colour each component is the byte its two digits
      denote, in [0, 255]. */
  lemma WellFormedComponents(hex: string)
    requires IsHexColor(hex)
    ensures Components(hex) == (Some(16 * HexValue(hex[1]) + HexValue(hex[2])),
                                Some(16 * HexValue(hex[3]) + HexValue(hex[4])),
                                Some(16 * HexValue(hex[5]) + HexValue(hex[6])))
    ensures 0 <= Components(hex).0.value <= 255
    ensures 0 <= Components(hex).1.value <= 255
    ensures 0 <= Components(hex).2.value <= 255
  {
    var r := 16 * HexValue(hex[1]) + HexValue(hex[2]);
    var g := 16 * HexValue(hex[3]) + HexValue(hex[4]);
    var b := 16 * HexValue(hex[5]) + HexValue(hex[6]);
    ColorSlices(hex);
    ParseTwoDigits(hex[1], hex[2]);
    ParseTwoDigits(hex[3], hex[4]);
    ParseTwoDigits(hex[5], hex[6]);
  }

  /** A short colour such as "#abc" leaves the third component NaN. */
  lemma ShortColourGivesNaN(hex: string)
    requires |hex| <= 5
    ensures Components(hex).2 == None
  {
    assert Slice(hex, 5, 7) == [];
  }

  function HexDigitChar(d: nat): char
    requires d < 16
  {
    "0123456789abcdef"[d]
  }

  /** A byte as two lower-case hexadecimal digits. */
  function HexByte(v: nat): string
    requires v < 256
  {
    [HexDigitChar(v / 16), HexDigitChar(v % 16)]
  }

  /** The "#rrggbb" form of a colour. */
  function FormatColor(r: nat, g: nat, b: nat): string
    requires r < 256 && g < 256 && b < 256
  {
    "#" + HexByte(r) + HexByte(g) + HexByte(b)
  }

  lemma HexDigitRoundTrip(d: nat)
    requires d < 16
    ensures IsHexDigit(HexDigitChar(d)) && HexValue(HexDigitChar(d)) == d
  {
  }

  /** The digits `FormatColor` writes denote the bytes it was given. */
  lemma FormatColorDigits(r: nat, g: nat, b: nat)
    requires r < 256 && g < 256 && b < 256
    ensures IsHexColor(FormatColor(r, g, b))
    ensures var hex := FormatColor(r, g, b);
      && 16 * HexValue(hex[1]) + HexValue(hex[2]) == r
      && 16 * HexValue(hex[3]) + HexValue(hex[4]) == g
      && 16 * HexValue(hex[5]) + HexValue(hex[6]) == b
  {
    var hex := FormatColor(r, g, b);
    HexDigitRoundTrip(r / 16); HexDigitRoundTrip(r % 16);
    HexDigitRoundTrip(g / 16); HexDigitRoundTrip(g % 16);
    HexDigitRoundTrip(b / 16); HexDigitRoundTrip(b % 16);
    assert hex[1] == HexDigitChar(r / 16) && hex[2] == HexDigitChar(r % 16);
    assert hex[3] == HexDigitChar(g / 16) && hex[4] == HexDigitChar(g % 16);
    assert hex[5] == HexDigitChar(b / 16) && hex[6] == HexDigitChar(b % 16);
  }

  /** A well-formed colour whose digit pairs denote `r`, `g` and `b`. */
  lemma ComponentsAre(hex: string, r: int, g: int, b: int)
    requires IsHexColor(hex)
    requires 16 * HexValue(hex[1]) + HexValue(hex[2]) == r
    requires 16 * HexValue(hex[3]) + HexValue(hex[4]) == g
    requires 16 * HexValue(hex[5]) + HexValue(hex[6]) == b
    ensures Components(hex) == (Some(r), Some(g), Some(b))
  {
    WellFormedComponents(hex);
  }

  /** Formatting a colour and reading it back with `hexToRgba`'s parsing gives
      the same three components. */
  lemma ColorRoundTrip(r: nat, g: nat, b: nat)
    requires r < 256 && g < 256 && b < 256
    ensures IsHexColor(FormatColor(r, g, b))
    ensures Components(FormatColor(r, g, b)) == (Some(r), Some(g), Some(b))
  {
    FormatColorDigits(r, g, b);
    ComponentsAre(FormatColor(r, g, b), r, g, b);
  }

  // ---------------------------------------------------------------------
  // Card contents (js/project-renderer.js:23-45)
  // ---------------------------------------------------------------------

  /** The tags a card lists, and how many more its "+n" badge announces
      (no badge when `more` is 0). */
  datatype TagView = TagView(shown: seq<string>, more: nat)

  /** `tags.slice(0, 5)` and the badge `+${tags.length - 5}`, present only when
      there are more than five tags. */
  function CardTags(tags: seq<string>): (v: TagView)
    ensures |v.shown| == if |tags| < MaxCardTags then |tags| else MaxCardTags
    ensures v.shown + tags[|v.shown|..] == tags
    ensures v.more > 0 <==> |tags| > MaxCardTags
    ensures |v.shown| + v.more == |tags|
  {
    if |tags| <= MaxCardTags then TagView(tags, 0)
    else TagView(tags[..MaxCardTags], |tags| - MaxCardTags)
  }

  /** The badge text, when there is one. */
  function BadgeText(v: TagView): Option<string> {
    if v.more == 0 then None else Some("+" + IntToString(v.more))
  }

  /** A card carries the "+n" badge exactly when tags were cut, and n counts
      the tags left out. */
  lemma BadgeShownIffCut(tags: seq<string>)
    ensures BadgeText(CardTags(tags)).Some? <==> |tags| > MaxCardTags
    ensures BadgeText(CardTags(tags)).Some? ==>
      BadgeText(CardTags(tags)).value == "+" + IntToString(|tags| - |CardTags(tags).shown|)
  {
  }

  datatype TypeBadge = TypeBadge(text: string, background: string)

  /** The type label: "Python" for `type === "python"`, "Excel VBA" otherwise. */
  function TypeLabel(kind: string): (b: TypeBadge)
    ensures b.text == "Python" <==> kind == "python"
    ensures b.text == "Python" || b.text == "Excel VBA"
    ensures b.text == "Python" <==> b.background == "rgba(37,99,235,0.85)"
  {
    if kind == "python" then TypeBadge("Python", "rgba(37,99,235,0.85)")
    else TypeBadge("Excel VBA", "rgba(22,163,74,0.85)")
  }

  /** The values a project card is built from. */
  datatype CardView = CardView(
    id: string,
    title: string,
    summary: string,
    icon: string,
    categoryLabel: string,
    chipBackground: string,
    chipColor: string,
    tags: TagView,
    typeBadge: TypeBadge,
    featuredBadge: bool)

  /** `createProjectCard`: None when neither the project's category nor
      "other" is in the table (the source then fails on the first use of `cat`). */
  function Card(project: Project, categories: Categories): (c: Option<CardView>)
    ensures c.None? <==> CategoryFor(categories, project.category).None?
    ensures c.Some? ==>
      var cat := CategoryFor(categories, project.category).value;
      && c.value.id == project.id && c.value.title == project.title
      && c.value.categoryLabel == cat.labelText && c.value.icon == cat.icon
      && c.value.chipBackground == HexToRgba(cat.color, "0.1")
      && c.value.tags == CardTags(project.tags)
      && c.value.typeBadge == TypeLabel(project.kind)
      && c.value.featuredBadge == project.featured
  {
    match CategoryFor(categories, project.category)
    case None => None
    case Some(cat) =>
      Some(CardView(project.id, project.title, project.summary, cat.icon, cat.labelText,
                    HexToRgba(cat.color, "0.1"), cat.color, CardTags(project.tags),
                    TypeLabel(project.kind), project.featured))
  }

  /** One more built card extends a matching list of cards. */
  lemma CardsSnoc(projects: seq<Project>, categories: Categories, init: seq<CardView>, last: CardView)
    requires |projects| == |init| + 1
    requires forall i :: 0 <= i < |init| ==> Card(projects[..|init|][i], categories) == Some(init[i])
    requires Card(projects[|init|], categories) == Some(last)
    ensures forall i :: 0 <= i < |projects| ==> Card(projects[i], categories) == Some((init + [last])[i])
  {
    forall i | 0 <= i < |projects|
      ensures Card(projects[i], categories) == Some((init + [last])[i])
    {
      if i < |init| {
        assert projects[..|init|][i] == projects[i];
        assert (init + [last])[i] == init[i];
      } else {
        assert (init + [last])[i] == last;
      }
    }
  }

  /** All cards, or None when one of them cannot be built. */
  function Cards(projects: seq<Project>, categories: Categories): (r: Option<seq<CardView>>)
    ensures r.Some? ==> (|r.value| == |projects|
      && forall i :: 0 <= i < |projects| ==> Card(projects[i], categories) == Some(r.value[i]))
    ensures r.None? ==> exists i :: 0 <= i < |projects| && Card(projects[i], categories).None?
  {
    if projects == [] then Some([])
    else
      var n := |projects| - 1;
      var last := Card(projects[n], categories);
      var init := Cards(projects[..n], categories);
      if last.None? then None
      else if init.None? then
        assert forall i :: 0 <= i < n ==> projects[..n][i] == projects[i];
        None
      else
        CardsSnoc(projects, categories, init.value, last.value);
        Some(init.value + [last.value])
  }

  // ---------------------------------------------------------------------
  // Filter and pagination (js/project-renderer.js:91-120)
  // ---------------------------------------------------------------------

  /** `PROJECTS.filter((p) => p.category === category)`. */
  function InCategory(catalog: seq<Project>, category: string): seq<Project> {
    if catalog == [] then []
    else
      var init := InCategory(catalog[..|catalog| - 1], category);
      var last := catalog[|catalog| - 1];
      if last.category == category then init + [last] else init
  }

  /** The filter keeps exactly the entries of that category. */
  lemma {:induction false} InCategoryMembers(catalog: seq<Project>, category: string)
    ensures forall p :: p in InCategory(catalog, category) <==> p in catalog && p.category == category
    ensures |InCategory(catalog, category)| <= |catalog|
  {
    if catalog != [] {
      var init := catalog[..|catalog| - 1];
      InCategoryMembers(init, category);
      assert catalog == init + [catalog[|catalog| - 1]];
    }
  }

  /** The filter keeps catalog order: its entries sit at strictly increasing
      catalog positions, and those positions are all positions of that
      category. */
  lemma {:induction false} InCategoryOrder(catalog: seq<Project>, category: string) returns (idx: seq<nat>)
    ensures |idx| == |InCategory(catalog, category)|
    ensures forall a :: 0 <= a < |idx| ==> idx[a] < |catalog| && InCategory(catalog, category)[a] == catalog[idx[a]]
    ensures forall a, b :: 0 <= a < b < |idx| ==> idx[a] < idx[b]
    ensures forall i :: 0 <= i < |catalog| && catalog[i].category == category ==> i in idx
    decreases |catalog|
  {
    if catalog == [] {
      idx := [];
    } else {
      var n := |catalog| - 1;
      var init := catalog[..n];
      var prev := InCategoryOrder(init, category);
      assert forall i :: 0 <= i < n ==> init[i] == catalog[i];
      if catalog[n].category == category {
        idx := prev + [n];
        assert InCategory(catalog, category) == InCategory(init, category) + [catalog[n]];
      } else {
        idx := prev;
      }
    }
  }

  /** The grid's list: the whole catalog for "all", else that category. */
  function Filtered(catalog: seq<Project>, category: string): seq<Project> {
    if category == "all" then catalog else InCategory(catalog, category)
  }

  /** What one render shows: the visible projects, their cards, whether the
      "load more" button shows, the "remaining" figure it prints (negative
      when the button is hidden and the list is short) and the count. */
  datatype GridView = GridView(
    visible: seq<Project>,
    cards: Option<seq<CardView>>,
    hasMore: bool,
    remaining: int,
    total: nat)

  /** `renderProjects` for a given filter and display count. */
  function Page(catalog: seq<Project>, categories: Categories, category: string, displayCount: nat): (g: GridView) {
    var filtered := Filtered(catalog, category);
    var visible := if |filtered| <= displayCount then filtered else filtered[..displayCount];
    GridView(visible, Cards(visible, categories), |filtered| > displayCount,
             |filtered| - displayCount, |filtered|)
  }

  /** What a render shows: the first min(displayCount, |filtered|) entries of
      the filtered list; the button exactly when some are hidden, and then
      the figure it prints counts them. */
  lemma PageProperties(catalog: seq<Project>, categories: Categories, category: string, displayCount: nat)
    ensures var g := Page(catalog, categories, category, displayCount);
      var filtered := Filtered(catalog, category);
      && |g.visible| == (if |filtered| < displayCount then |filtered| else displayCount)
      && g.visible == filtered[..|g.visible|]
      && (g.hasMore <==> |g.visible| < |filtered|)
      && (g.hasMore ==> g.remaining == |filtered| - |g.visible| > 0)
      && g.total == |filtered|
      && (forall p :: p in g.visible ==> p in catalog && (category == "all" || p.category == category))
  {
    InCategoryMembers(catalog, category);
  }

  /** Raising the display count only appends to what is visible. */
  lemma MoreShowsPrefix(catalog: seq<Project>, categories: Categories, category: string, n: nat, m: nat)
    requires n <= m
    ensures var a := Page(catalog, categories, category, n).visible;
      var b := Page(catalog, categories, category, m).visible;
      |a| <= |b| && a == b[..|a|]
  {
  }

  /** A project grid's contents for one category of the catalog: the
      `ItemsPerLoad` multiple after k "load more" clicks since the last filter,
      a prefix of the filtered list, with the button shown exactly when the
      filtered list is longer. */
  lemma PagesAfterLoads(catalog: seq<Project>, categories: Categories, category: string, k: nat)
    ensures var g := Page(catalog, categories, category, ItemsPerLoad * (k + 1));
      var filtered := Filtered(catalog, category);
      && |g.visible| == (if |filtered| < ItemsPerLoad * (k + 1) then |filtered| else ItemsPerLoad * (k + 1))
      && g.visible == filtered[..|g.visible|]
      && (g.hasMore <==> |filtered| > ItemsPerLoad * (k + 1))
  {
  }

  /** The values the detail modal is built from; unlike a card, all tags. */
  datatype ModalView = ModalView(
    id: string,
    title: string,
    summary: string,
    icon: string,
    categoryLabel: string,
    chipBackground: string,
    typeBadge: TypeBadge,
    tags: seq<string>)

  /** The modal for an id: None when no project has it,
      or when its category info cannot be found; otherwise the modal of the
      first project with that id, as `PROJECTS.find` picks it. */
  function ModalFor(catalog: seq<Project>, categories: Categories, projectId: string): (m: Option<ModalView>)
    ensures (forall i :: 0 <= i < |catalog| ==> catalog[i].id != projectId) ==> m.None?
    ensures m.None? <==>
      || Find(catalog, projectId).None?
      || CategoryFor(categories, Find(catalog, projectId).value.category).None?
    ensures m.Some? ==> exists i :: (0 <= i < |catalog| && catalog[i].id == projectId
      && (forall j :: 0 <= j < i ==> catalog[j].id != projectId)
      && m.value.id == projectId
      && m.value.title == catalog[i].title && m.value.tags == catalog[i].tags
      && m.value.typeBadge == TypeLabel(catalog[i].kind))
  {
    match Find(catalog, projectId)
    case None => None
    case Some(project) =>
      match CategoryFor(categories, project.category)
      case None => None
      case Some(cat) =>
        Some(ModalView(project.id, project.title, project.summary, cat.icon, cat.labelText,
                       HexToRgba(cat.color, "0.1"), TypeLabel(project.kind), project.tags))
  }

  /** With unique ids and an "other" entry, every catalog project's modal opens
      and shows that project. */
  lemma ModalOpensForCatalogIds(catalog: seq<Project>, categories: Categories, i: nat)
    requires UniqueIds(catalog) && i < |catalog| && "other" in categories
    ensures ModalFor(catalog, categories, catalog[i].id).Some?
    ensures ModalFor(catalog, categories, catalog[i].id).value.id == catalog[i].id
    ensures ModalFor(catalog, categories, catalog[i].id).value.tags == catalog[i].tags
  {
    FindOwnId(catalog, i);
  }

  /** The page's grid state: the module-level `currentCategory` and
      `displayCount`, plus the project shown in the modal, if any. */
  class ProjectGrid {
    var currentCategory: string
    var displayCount: int
    var modal: Option<ModalView>

    /** The display count is always a positive multiple of `ItemsPerLoad`. */
    ghost predicate Valid()
      reads this
    {
      displayCount > 0 && displayCount % ItemsPerLoad == 0
    }

    constructor ()
      ensures Valid()
      ensures currentCategory == "all" && displayCount == ItemsPerLoad && modal == None
    {
      currentCategory := "all";
      displayCount := ItemsPerLoad;
      modal := None;
    }

    /** `renderProjects`: reads the state, changes nothing in it. */
    function Render(catalog: seq<Project>, categories: Categories): GridView
      reads this
      requires Valid()
    {
      Page(catalog, categories, currentCategory, displayCount)
    }

    /** `filterProjects(category)`: switch category and go back to one page. */
    method FilterProjects(category: string, catalog: seq<Project>, categories: Categories)
      returns (view: GridView)
      requires Valid()
      modifies this
      ensures Valid()
      ensures currentCategory == category && displayCount == ItemsPerLoad && modal == old(modal)
      ensures view == Render(catalog, categories)
    {
      currentCategory := category;
      displayCount := ItemsPerLoad;
      view := Render(catalog, categories);
    }

    /** `loadMoreProjects`: one more page of the same category. */
    method LoadMoreProjects(catalog: seq<Project>, categories: Categories)
      returns (view: GridView)
      requires Valid()
      modifies this
      ensures Valid()
      ensures currentCategory == old(currentCategory) && displayCount == old(displayCount) + ItemsPerLoad
      ensures modal == old(modal)
      ensures view == Render(catalog, categories)
      ensures old(Render(catalog, categories)).visible == view.visible[..|old(Render(catalog, categories)).visible|]
    {
      MoreShowsPrefix(catalog, categories, currentCategory, displayCount, displayCount + ItemsPerLoad);
      displayCount := displayCount + ItemsPerLoad;
      view := Render(catalog, categories);
    }

    /** `openProjectModal(id)`: an id without a project (or without category
      info) leaves everything as it was. */
    method OpenProjectModal(projectId: string, catalog: seq<Project>, categories: Categories)
      requires Valid()
      modifies this
      ensures Valid()
      ensures currentCategory == old(currentCategory) && displayCount == old(displayCount)
      ensures ModalFor(catalog, categories, projectId).None? ==> modal == old(modal)
      ensures ModalFor(catalog, categories, projectId).Some? ==> modal == ModalFor(catalog, categories, projectId)
    {
      var m := ModalFor(catalog, categories, projectId);
      if m.None? {
        return;
      }
      modal := m;
    }

    /** `closeProjectModal`. */
    method CloseProjectModal()
      requires Valid()
      modifies this
      ensures Valid()
      ensures currentCategory == old(currentCategory) && displayCount == old(displayCount)
      ensures modal == None
    {
      modal := None;
    }
  }

  /** A filter click followed by k "load more" clicks: the grid ends on that
      category with k + 1 pages' worth of its projects visible. */
  method FilterThenLoadMore(grid: ProjectGrid, category: string, k: nat,
                            catalog: seq<Project>, categories: Categories)
    returns (view: GridView)
    requires grid.Valid()
    modifies grid
    ensures grid.Valid()
    ensures grid.currentCategory == category && grid.displayCount == ItemsPerLoad * (k + 1)
    ensures grid.modal == old(grid.modal)
    ensures view == grid.Render(catalog, categories)
    ensures view == Page(catalog, categories, category, ItemsPerLoad * (k + 1))
  {
    view := grid.FilterProjects(category, catalog, categories);
    var j := 0;
    while j < k
      invariant 0 <= j <= k
      invariant grid.Valid()
      invariant grid.currentCategory == category && grid.displayCount == ItemsPerLoad * (j + 1)
      invariant grid.modal == old(grid.modal)
      invariant view == grid.Render(catalog, categories)
    {
      view := grid.LoadMoreProjects(catalog, categories);
      j := j + 1;
    }
  }
}
