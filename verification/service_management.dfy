/**
 * The service management page: the icon and colour tables keyed by decal
 * type name, the reshaping of the services the API returns into the rows the
 * page lists, the category buttons built from the decal types, the
 * search/category filter and the counters above the list.
 */
module ServiceManagement {
  import opened Options
  import opened Sequences
  import opened Text

  /** A decal type as the API returns it; its name may be missing. */
  datatype DecalType = DecalType(decalTypeId: int, decalTypeName: Option<string>)

  /** A service as the API returns it. */
  datatype ApiService = ApiService(
    serviceId: int,
    serviceName: string,
    decalType: Option<DecalType>,
    description: Option<string>,
    price: Option<int>,
    isActive: bool,
    createdAt: string,
    updatedAt: string)

  /** The icons the page can show next to a service. */
  datatype Icon = Car | Palette | Shield | Award | Zap | Star | Users

  /** A row of the service list. */
  datatype ServiceRow = ServiceRow(
    id: int,
    title: string,
    category: string,
    description: string,
    price: Option<int>,
    isActive: bool,
    icon: Icon,
    color: string,
    createdAt: string,
    updatedAt: string)

  /** A category button: its id and its caption. */
  datatype CategoryButton = CategoryButton(id: Option<string>, name: Option<string>)

  const OtherCategory := "Khác"
  const DefaultDescription := "Dịch vụ dán decal chuyên nghiệp"
  const DefaultIcon := Car
  const DefaultColor := "bg-blue-500"
  const AllCategory := "all"
  const AllCategoryButton := CategoryButton(Some(AllCategory), Some("Tất cả dịch vụ"))

  const IconTable: map<string, Icon> := map[
    "Decal thể thao" := Car,
    "Decal quảng cáo" := Palette,
    "Decal bảo vệ" := Shield,
    "Decal trang trí" := Award,
    "Decal phản quang" := Zap,
    "Decal cao cấp" := Star,
    "Decal thường" := Users,
    "Decal đặc biệt" := Award
  ]

  const ColorTable: map<string, string> := map[
    "Decal thể thao" := "bg-blue-500",
    "Decal quảng cáo" := "bg-purple-500",
    "Decal bảo vệ" := "bg-green-500",
    "Decal trang trí" := "bg-orange-500",
    "Decal phản quang" := "bg-indigo-500",
    "Decal cao cấp" := "bg-red-500",
    "Decal thường" := "bg-gray-500",
    "Decal đặc biệt" := "bg-yellow-500"
  ]

  /** `service.decalType?.decalTypeName`: missing when there is no decal type or it has no name. */
  function DecalTypeName(s: ApiService): (name: Option<string>)
    ensures name.Some? <==> s.decalType.Some? && s.decalType.value.decalTypeName.Some?
    ensures name.Some? ==> name.value == s.decalType.value.decalTypeName.value
  {
    match s.decalType
    case None => None
    case Some(d) => d.decalTypeName
  }

  /** `iconMap[name] || Car`: the tabled icon, or the car for a missing or unknown name. */
  function ServiceIcon(name: Option<string>): (icon: Icon)
    ensures name.Some? && name.value in IconTable ==> icon == IconTable[name.value]
    ensures name.None? || name.value !in IconTable ==> icon == DefaultIcon
  {
    if name.Some? && name.value in IconTable then IconTable[name.value] else DefaultIcon
  }

  /** `colorMap[name] || 'bg-blue-500'`: the tabled colour, or blue for a missing or unknown name. */
  function ServiceColor(name: Option<string>): (color: string)
    ensures name.Some? && name.value in ColorTable ==> color == ColorTable[name.value]
    ensures name.None? || name.value !in ColorTable ==> color == DefaultColor
    ensures color != ""
  {
    if name.Some? && name.value in ColorTable then OrElse(Some(ColorTable[name.value]), DefaultColor)
    else DefaultColor
  }

  /** The two tables know the same decal type names, so a name has an icon iff it has a colour of its own. */
  lemma TablesCoverSameNames()
    ensures IconTable.Keys == ColorTable.Keys
  {
  }

  /** Lookups for a tabled name, an unknown name and a missing name. */
  lemma ServiceLookups()
    ensures ServiceIcon(Some("Decal đặc biệt")) == Award && ServiceColor(Some("Decal đặc biệt")) == "bg-yellow-500"
    ensures ServiceIcon(Some("Decal 3D")) == Car && ServiceColor(Some("Decal 3D")) == DefaultColor
    ensures ServiceIcon(None) == Car && ServiceColor(None) == DefaultColor
  {
  }

  /** One element of `transformedServices`. */
  function TransformService(s: ApiService): (row: ServiceRow)
    ensures row.id == s.serviceId && row.title == s.serviceName
    ensures row.price == s.price && row.isActive == s.isActive
    ensures row.createdAt == s.createdAt && row.updatedAt == s.updatedAt
    ensures !Truthy(DecalTypeName(s)) ==> row.category == OtherCategory
    ensures Truthy(DecalTypeName(s)) ==> row.category == DecalTypeName(s).value
    ensures !Truthy(s.description) ==> row.description == DefaultDescription
    ensures Truthy(s.description) ==> row.description == s.description.value
    ensures row.icon == ServiceIcon(DecalTypeName(s)) && row.color == ServiceColor(DecalTypeName(s))
  {
    var name := DecalTypeName(s);
    ServiceRow(
      s.serviceId, s.serviceName, OrElse(name, OtherCategory), OrElse(s.description, DefaultDescription),
      s.price, s.isActive, ServiceIcon(name), ServiceColor(name), s.createdAt, s.updatedAt)
  }

  /** `transformedServices`: one row per service, in the same order. */
  function TransformServices(services: seq<ApiService>): (rows: seq<ServiceRow>)
    ensures |rows| == |services|
    ensures forall i :: 0 <= i < |services| ==> rows[i] == TransformService(services[i])
  {
    MapSeq(services, TransformService)
  }

  /** Every row has a category and a description, whatever the API left out. */
  lemma RowsHaveCategoryAndDescription(services: seq<ApiService>)
    ensures forall row :: row in TransformServices(services) ==> row.category != "" && row.description != ""
  {
  }

  function ButtonFor(d: DecalType): CategoryButton
  {
    CategoryButton(d.decalTypeName, d.decalTypeName)
  }

  /** `categories`: the "all" button followed by one button per decal type, in order. */
  function CategoryButtons(decalTypes: seq<DecalType>): (r: seq<CategoryButton>)
    ensures |r| == |decalTypes| + 1
    ensures r[0] == AllCategoryButton
    ensures forall i :: 0 <= i < |decalTypes| ==> r[i + 1].id == decalTypes[i].decalTypeName && r[i + 1].name == decalTypes[i].decalTypeName
  {
    [AllCategoryButton] + MapSeq(decalTypes, ButtonFor)
  }

  /** The search term occurs in the title or the description, ignoring the case of ASCII letters. */
  predicate MatchesSearch(row: ServiceRow, term: string) {
    Includes(Lower(row.title), Lower(term)) || Includes(Lower(row.description), Lower(term))
  }

  /** The selected category is "all" or the row's own category (a button without a name matches nothing). */
  predicate MatchesCategory(row: ServiceRow, selected: Option<string>) {
    selected == Some(AllCategory) || selected == Some(row.category)
  }

  function RowFilter(term: string, selected: Option<string>): ServiceRow -> bool
  {
    row => MatchesSearch(row, term) && MatchesCategory(row, selected)
  }

  /** `filteredServices`: the rows passing the search and the category, in list order. */
  function FilterServices(rows: seq<ServiceRow>, term: string, selected: Option<string>): (r: seq<ServiceRow>)
    ensures IsSubsequence(r, rows)
    ensures forall row :: row in r <==> row in rows && MatchesSearch(row, term) && MatchesCategory(row, selected)
  {
    Filter(rows, RowFilter(term, selected))
  }

  /** The page's opening state (empty search, "all" selected) lists every service. */
  lemma InitialFilterKeepsAll(rows: seq<ServiceRow>)
    ensures FilterServices(rows, "", Some(AllCategory)) == rows
  {
    forall i | 0 <= i < |rows|
      ensures RowFilter("", Some(AllCategory))(rows[i])
    {
      IncludesEmpty(Lower(rows[i].title));
    }
    FilterKeepsAll(rows, RowFilter("", Some(AllCategory)));
  }

  /** Choosing the button of a decal type without a name empties the list. */
  lemma NamelessCategoryMatchesNothing(rows: seq<ServiceRow>, term: string)
    ensures FilterServices(rows, term, None) == []
  {
    FilterKeepsNone(rows, RowFilter(term, None));
  }

  function IsActiveService(s: ApiService): bool
  {
    s.isActive
  }

  /** The "active services" counter. */
  function ActiveCount(services: seq<ApiService>): (n: nat)
    ensures n <= |services|
    ensures n == 0 <==> forall i :: 0 <= i < |services| ==> !services[i].isActive
  {
    var active := Filter(services, IsActiveService);
    assert forall i :: 0 <= i < |services| && services[i].isActive ==> services[i] in active;
    assert active != [] ==> active[0] in active;
    |active|
  }

  /** The counter of listed services never exceeds the counter of all services. */
  lemma ListedCountBounded(services: seq<ApiService>, term: string, selected: Option<string>)
    ensures |FilterServices(TransformServices(services), term, selected)| <= |services|
  {
  }
}
