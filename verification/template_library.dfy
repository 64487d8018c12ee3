/**
 * The template library page: searching and filtering the design templates,
 * cutting the result into pages of twelve, selecting templates one by one or
 * a whole page at once, and looking up a category's or vehicle type's display
 * information.
 */
module TemplateLibrary {
  import opened Options
  import opened Sequences
  import opened Text

  /** A design template as the page lists it (rating, downloads and images are display only). */
  datatype Template = Template(
    id: int,
    name: string,
    description: string,
    category: string,
    vehicleType: string,
    style: string,
    tags: seq<string>)

  /** The search box and the three selectors; "all" switches a selector off. */
  datatype Criteria = Criteria(searchTerm: string, category: string, vehicleType: string, style: string)

  const AllValue := "all"

  /** The criteria the page opens with. */
  const InitialCriteria := Criteria("", AllValue, AllValue, AllValue)

  const ItemsPerPage := 12

  /** `text` contains the search term, ignoring the case of ASCII letters. */
  predicate MentionsTerm(text: string, term: string) {
    Includes(Lower(text), Lower(term))
  }

  /** The test the page applies to a single tag. */
  function TagMentions(term: string): string -> bool
  {
    tag => MentionsTerm(tag, term)
  }

  /** The search term occurs in the name, the description or one of the tags. */
  predicate MatchesSearch(t: Template, term: string) {
    MentionsTerm(t.name, term) || MentionsTerm(t.description, term) || Any(t.tags, TagMentions(term))
  }

  /** A selector either is "all" or names the template's value exactly. */
  predicate MatchesSelector(selected: string, value: string) {
    selected == AllValue || value == selected
  }

  /** The filter's test for one template: the search and all three selectors must agree. */
  predicate Matches(c: Criteria, t: Template) {
    && MatchesSearch(t, c.searchTerm)
    && MatchesSelector(c.category, t.category)
    && MatchesSelector(c.vehicleType, t.vehicleType)
    && MatchesSelector(c.style, t.style)
  }

  /** `Matches` with the criteria fixed, as the filter callback. */
  function MatchesCriteria(c: Criteria): Template -> bool
  {
    t => Matches(c, t)
  }

  /** The templates the page shows, in library order. */
  function FilterTemplates(templates: seq<Template>, c: Criteria): (r: seq<Template>)
    ensures IsSubsequence(r, templates)
    ensures forall t :: t in r <==> t in templates && Matches(c, t)
  {
    Filter(templates, MatchesCriteria(c))
  }

  /** With the search box empty and every selector on "all", nothing is filtered out. */
  lemma InitialCriteriaKeepAll(templates: seq<Template>)
    ensures FilterTemplates(templates, InitialCriteria) == templates
  {
    forall i | 0 <= i < |templates|
      ensures MatchesCriteria(InitialCriteria)(templates[i])
    {
      IncludesEmpty(Lower(templates[i].name));
    }
    FilterKeepsAll(templates, MatchesCriteria(InitialCriteria));
  }

  /** The case of the search term does not matter: a lower-cased term filters alike. */
  lemma SearchIgnoresCase(templates: seq<Template>, c: Criteria)
    ensures FilterTemplates(templates, c.(searchTerm := Lower(c.searchTerm))) == FilterTemplates(templates, c)
  {
    var d := c.(searchTerm := Lower(c.searchTerm));
    LowerIdempotent(c.searchTerm);
    assert forall tag :: TagMentions(d.searchTerm)(tag) == TagMentions(c.searchTerm)(tag);
    forall i | 0 <= i < |templates|
      ensures MatchesCriteria(d)(templates[i]) == MatchesCriteria(c)(templates[i])
    {
      var t := templates[i];
      assert Any(t.tags, TagMentions(d.searchTerm)) == Any(t.tags, TagMentions(c.searchTerm));
    }
    FilterCongruent(templates, MatchesCriteria(d), MatchesCriteria(c));
  }

  /** Narrowing a selector from "all" to a value can only drop templates. */
  lemma NarrowingCategoryShrinks(templates: seq<Template>, c: Criteria, category: string)
    requires c.category == AllValue
    ensures forall t :: t in FilterTemplates(templates, c.(category := category)) ==> t in FilterTemplates(templates, c)
  {
  }

  /** `Math.ceil(n / itemsPerPage)`: the number of pages needed for `n` templates. */
  function TotalPages(n: nat): (pages: nat)
    ensures pages * ItemsPerPage >= n
    ensures pages > 0 ==> (pages - 1) * ItemsPerPage < n
    ensures pages == 0 <==> n == 0
  {
    (n + ItemsPerPage - 1) / ItemsPerPage
  }

  /** `slice((page - 1) * itemsPerPage, page * itemsPerPage)`: the templates on one page. */
  function PageOf<T>(items: seq<T>, page: int): (r: seq<T>)
    requires page >= 1
    ensures |r| <= ItemsPerPage
    ensures |r| == if (page - 1) * ItemsPerPage < |items| then Min(page * ItemsPerPage, |items|) - (page - 1) * ItemsPerPage else 0
    ensures forall k :: 0 <= k < |r| ==> r[k] == items[(page - 1) * ItemsPerPage + k]
  {
    Slice(items, (page - 1) * ItemsPerPage, page * ItemsPerPage)
  }

  function Min(a: int, b: int): (m: int)
    ensures m <= a && m <= b && (m == a || m == b)
  {
    if a <= b then a else b
  }

  /** A page is non-empty exactly when its number is at most the number of pages. */
  lemma PageNonEmptyIffInRange<T>(items: seq<T>, page: int)
    requires page >= 1
    ensures PageOf(items, page) != [] <==> page <= TotalPages(|items|)
  {
  }

  /** Pages `1..k` laid end to end. */
  function PagesUpTo<T>(items: seq<T>, k: nat): seq<T> {
    if k == 0 then [] else PagesUpTo(items, k - 1) + PageOf(items, k)
  }

  /** The first `k` pages are the first `12 k` templates. */
  lemma {:induction false} PagesUpToIsPrefix<T>(items: seq<T>, k: nat)
    ensures PagesUpTo(items, k) == items[..Min(k * ItemsPerPage, |items|)]
  {
    if k > 0 {
      PagesUpToIsPrefix(items, k - 1);
      var a, b := Min((k - 1) * ItemsPerPage, |items|), Min(k * ItemsPerPage, |items|);
      assert items[..b] == items[..a] + items[a..b];
      assert PageOf(items, k) == items[a..b];
    }
  }

  /** Every filtered template lies on exactly one of the pages, in order: the pages concatenate back to the list. */
  lemma PagesCoverAll<T>(items: seq<T>)
    ensures PagesUpTo(items, TotalPages(|items|)) == items
  {
    PagesUpToIsPrefix(items, TotalPages(|items|));
    assert items[..|items|] == items;
  }

  /** The template at position `i` of the list is shown on page `i / 12 + 1`, at place `i % 12`. */
  lemma PageOfPosition<T>(items: seq<T>, i: nat)
    requires i < |items|
    ensures var page := i / ItemsPerPage + 1;
      page <= TotalPages(|items|) && i % ItemsPerPage < |PageOf(items, page)| && PageOf(items, page)[i % ItemsPerPage] == items[i]
  {
  }

  /** The filter callback removing one id from the selection. */
  function IsNot(id: int): int -> bool
  {
    x => x != id
  }

  /** Ticking a template's checkbox: an unselected id is appended, a selected one removed. */
  function ToggleSelection(selected: seq<int>, id: int): (r: seq<int>)
    ensures id in r <==> id !in selected
    ensures forall x :: x != id ==> (x in r <==> x in selected)
    ensures id !in selected ==> r == selected + [id]
    ensures id in selected ==> IsSubsequence(r, selected)
  {
    if id in selected then Filter(selected, IsNot(id)) else selected + [id]
  }

  /** Toggling never introduces a duplicate id. */
  lemma ToggleKeepsNoDuplicates(selected: seq<int>, id: int)
    requires NoDuplicates(selected)
    ensures NoDuplicates(ToggleSelection(selected, id))
  {
    if id !in selected {
      assert multiset(selected + [id]) == multiset(selected) + multiset{id};
    } else {
      FilterMultiset(selected, IsNot(id));
    }
  }

  /** Ticking an unselected template twice restores the selection exactly. */
  lemma ToggleTwiceRestores(selected: seq<int>, id: int)
    requires id !in selected
    ensures ToggleSelection(ToggleSelection(selected, id), id) == selected
  {
    FilterSnoc(selected, id, IsNot(id));
    FilterKeepsAll(selected, IsNot(id));
  }

  function IdOf(t: Template): int
  {
    t.id
  }

  /**
   * The "select all" button: when as many ids are selected as the page shows
   * templates it clears the selection, otherwise it selects exactly the page.
   */
  function SelectAllResult(selected: seq<int>, page: seq<Template>): (r: seq<int>)
    ensures |selected| == |page| ==> r == []
    ensures |selected| != |page| ==> |r| == |page| && forall k :: 0 <= k < |page| ==> r[k] == page[k].id
  {
    if |selected| == |page| then [] else MapSeq(page, IdOf)
  }

  /** Selecting all and pressing the button again clears the selection. */
  lemma SelectAllTwiceClears(selected: seq<int>, page: seq<Template>)
    requires |selected| != |page|
    ensures SelectAllResult(SelectAllResult(selected, page), page) == []
  {
  }

  /**
   * The button compares counts only: a selection of as many ids as the page
   * holds is cleared even when none of them is on the page.
   */
  lemma SelectAllComparesCountsOnly()
    ensures var page := [Template(1, "a", "", "sport", "car", "modern", []), Template(2, "b", "", "sport", "car", "modern", [])];
      SelectAllResult([7, 8], page) == []
  {
  }

  /** An entry of the category or vehicle-type table. */
  datatype InfoEntry = InfoEntry(id: string, name: string, color: Option<string>)

  const Categories: seq<InfoEntry> := [
    InfoEntry("all", "Tất cả", Some("bg-gray-500")),
    InfoEntry("sport", "Thể thao", Some("bg-red-500")),
    InfoEntry("classic", "Cổ điển", Some("bg-blue-500")),
    InfoEntry("industrial", "Công nghiệp", Some("bg-green-500")),
    InfoEntry("street", "Phong cách", Some("bg-purple-500")),
    InfoEntry("luxury", "Sang trọng", Some("bg-yellow-500")),
    InfoEntry("offroad", "Off-road", Some("bg-orange-500"))
  ]

  const VehicleTypes: seq<InfoEntry> := [
    InfoEntry("all", "Tất cả xe", None),
    InfoEntry("car", "Ô tô", None),
    InfoEntry("motorcycle", "Xe máy", None),
    InfoEntry("truck", "Xe tải", None)
  ]

  /** The `find` callback matching an entry's id. */
  function HasId(id: string): InfoEntry -> bool
  {
    (e: InfoEntry) => e.id == id
  }

  /** `table.find(e => e.id === id) || table[0]`. */
  function InfoOrFirst(table: seq<InfoEntry>, id: string): (r: InfoEntry)
    requires table != []
    ensures r in table
    ensures (exists i :: 0 <= i < |table| && table[i].id == id) ==> r.id == id
    ensures (forall i :: 0 <= i < |table| ==> table[i].id != id) ==> r == table[0]
  {
    Find(table, HasId(id)).GetOr(table[0])
  }

  function CategoryInfo(id: string): (r: InfoEntry)
    ensures r in Categories
  {
    InfoOrFirst(Categories, id)
  }

  function VehicleTypeInfo(id: string): (r: InfoEntry)
    ensures r in VehicleTypes
  {
    InfoOrFirst(VehicleTypes, id)
  }

  /** A known category id finds its own entry. */
  lemma KnownCategoryInfo()
    ensures CategoryInfo("luxury") == InfoEntry("luxury", "Sang trọng", Some("bg-yellow-500"))
  {
    assert Categories[5].id == "luxury";
  }

  /** An unknown category id falls back to the "all" entry. */
  lemma UnknownCategoryInfo()
    ensures CategoryInfo("racing").id == AllValue
  {
    var r := CategoryInfo("racing");
    assert r.id == "racing" || r == Categories[0];
  }

  /** A known vehicle type finds its own entry. */
  lemma KnownVehicleTypeInfo()
    ensures VehicleTypeInfo("truck").name == "Xe tải"
  {
    assert VehicleTypes[3].id == "truck";
  }

  /** An unknown vehicle type falls back to the "all" entry. */
  lemma UnknownVehicleTypeInfo()
    ensures VehicleTypeInfo("bus").id == AllValue
  {
    var r := VehicleTypeInfo("bus");
    assert r.id == "bus" || r == VehicleTypes[0];
  }

  /** The page's state: the criteria, the selected ids and the page number. */
  class TemplateLibraryPage {
    const templates: seq<Template>
    var criteria: Criteria
    var selectedTemplates: seq<int>
    var currentPage: int

    /** The page number never drops below one. */
    predicate Valid()
      reads this
    {
      currentPage >= 1
    }

    constructor(library: seq<Template>)
      ensures Valid()
      ensures templates == library && criteria == InitialCriteria
      ensures selectedTemplates == [] && currentPage == 1
    {
      templates := library;
      criteria := InitialCriteria;
      selectedTemplates := [];
      currentPage := 1;
    }

    function Filtered(): (r: seq<Template>)
      reads this
      ensures forall t :: t in r <==> t in templates && Matches(criteria, t)
    {
      FilterTemplates(templates, criteria)
    }

    function Pages(): (n: nat)
      reads this
      ensures n * ItemsPerPage >= |Filtered()|
    {
      TotalPages(|Filtered()|)
    }

    /** The templates displayed for the current page. */
    function Shown(): (r: seq<Template>)
      reads this
      requires Valid()
      ensures |r| <= ItemsPerPage
      ensures forall t :: t in r ==> t in templates && Matches(criteria, t)
    {
      var items := Filtered();
      var page := PageOf(items, currentPage);
      assert forall k :: 0 <= k < |page| ==> page[k] in items;
      page
    }

    /** Typing in the search box or choosing a selector: the page number and selection stay. */
    method SetCriteria(c: Criteria)
      modifies this
      ensures criteria == c
      ensures selectedTemplates == old(selectedTemplates) && currentPage == old(currentPage)
    {
      criteria := c;
    }

    method SelectTemplate(id: int)
      modifies this
      ensures selectedTemplates == ToggleSelection(old(selectedTemplates), id)
      ensures criteria == old(criteria) && currentPage == old(currentPage)
    {
      selectedTemplates := ToggleSelection(selectedTemplates, id);
    }

    method SelectAll()
      requires Valid()
      modifies this
      ensures selectedTemplates == SelectAllResult(old(selectedTemplates), old(Shown()))
      ensures criteria == old(criteria) && currentPage == old(currentPage)
    {
      selectedTemplates := SelectAllResult(selectedTemplates, Shown());
    }

    /**
     * The "previous" button, shown only when there is more than one page:
     * disabled on page one, otherwise `max(1, page - 1)`.
     */
    method PreviousPage()
      requires Valid() && Pages() > 1
      modifies this
      ensures Valid()
      ensures currentPage == if old(currentPage) == 1 then 1 else old(currentPage) - 1
      ensures criteria == old(criteria) && selectedTemplates == old(selectedTemplates)
    {
      if currentPage != 1 {
        currentPage := if currentPage - 1 < 1 then 1 else currentPage - 1;
      }
    }

    /**
     * The "next" button, shown only when there is more than one page:
     * disabled on the last page, otherwise one page on.
     */
    method NextPage()
      requires Valid() && Pages() > 1
      modifies this
      ensures Valid()
      ensures currentPage == if old(currentPage) == old(Pages()) then old(currentPage) else old(currentPage) + 1
      ensures old(currentPage) < old(Pages()) ==> currentPage <= Pages()
      ensures criteria == old(criteria) && selectedTemplates == old(selectedTemplates)
    {
      if currentPage != Pages() {
        currentPage := currentPage + 1;
      }
    }
  }
}
