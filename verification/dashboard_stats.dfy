/**
 * The dashboard statistics service: folds over the orders, customers, stores
 * and employees the backend returned, and the snapshot built from them.
 *
 * A collection that is absent or not an array is `None`. Each grouping is one
 * left-to-right pass that writes `groups[key] = (groups[key] || 0) + weight`
 * into an accumulator dictionary; all four are the one loop `GroupAndSum`,
 * specified by the closed form `GroupTotals`.
 */
module DashboardStats {
  import opened Options
  import opened Sequences

  /** The stage whose orders count as revenue. */
  const TerminalStage := "AcceptanceAndDelivery"
  /** Bucket for an order without a status or stage. */
  const UnknownLabel := "Unknown"
  /** Bucket for a customer without a status. */
  const DefaultCustomerStatus := "Active"

  datatype Order = Order(orderId: string, totalAmount: Option<int>, orderStatus: Option<string>, currentStage: Option<string>)
  datatype Customer = Customer(customerId: string, status: Option<string>)
  datatype Store = Store(storeId: string, storeName: string)
  datatype Employee = Employee(employeeId: string, fullName: string, storeId: string)
  datatype FetchError = FetchError(message: string)

  /** A fetched collection: `None` when the response was absent or not an array. */
  type Fetched<T> = Option<seq<T>>

  /** `order.totalAmount || 0`. */
  function Amount(o: Order): int {
    o.totalAmount.GetOr(0)
  }

  /** `order.orderStatus || 'Unknown'`. */
  function StatusLabel(o: Order): string {
    OrElse(o.orderStatus, UnknownLabel)
  }

  /** `order.currentStage || 'Unknown'`. */
  function StageLabel(o: Order): string {
    OrElse(o.currentStage, UnknownLabel)
  }

  /** `customer.status || 'Active'`. */
  function CustomerStatusLabel(c: Customer): string {
    OrElse(c.status, DefaultCustomerStatus)
  }

  /** `order.currentStage === 'AcceptanceAndDelivery'`. */
  predicate IsCompleted(o: Order) {
    o.currentStage == Some(TerminalStage)
  }

  /** The weight of an element when counting. */
  function One<T>(x: T): int {
    1
  }

  /** `xs?.length || 0`. */
  function Length<T>(xs: Fetched<T>): nat {
    match xs
    case Some(s) => |s|
    case None => 0
  }

  /** The elements of a fetched collection, none when it is absent. */
  function Items<T>(xs: Fetched<T>): seq<T> {
    xs.GetOr([])
  }

  /** `xs.reduce((total, x) => total + w(x), 0)`. */
  function WeightSum<T>(xs: seq<T>, w: T -> int): int {
    if xs == [] then 0 else WeightSum(xs[..|xs| - 1], w) + w(xs[|xs| - 1])
  }

  /** Holds of the elements whose key is `k`. */
  function HasKey<T>(key: T -> string, k: string): T -> bool {
    x => key(x) == k
  }

  /** The keys that occur in `xs`. */
  function KeySet<T>(xs: seq<T>, key: T -> string): set<string> {
    set i | 0 <= i < |xs| :: key(xs[i])
  }

  /** The total weight of the elements whose key is `k`. */
  function KeyWeight<T(==,!new)>(xs: seq<T>, key: T -> string, k: string, w: T -> int): int {
    WeightSum(Filter(xs, HasKey(key, k)), w)
  }

  /** `groups[k] = (groups[k] || 0) + v`. */
  function AddTo(groups: map<string, int>, k: string, v: int): map<string, int> {
    groups[k := (if k in groups then groups[k] else 0) + v]
  }

  /**
   * What a grouping fold produces: one entry per key that occurs, holding the
   * total weight of the elements with that key.
   */
  function GroupTotals<T(==,!new)>(xs: seq<T>, key: T -> string, w: T -> int): (groups: map<string, int>)
    ensures forall k :: k in groups <==> exists i :: 0 <= i < |xs| && key(xs[i]) == k
  {
    map k | k in KeySet(xs, key) :: KeyWeight(xs, key, k, w)
  }

  /** The sum of the values of a dictionary. */
  ghost function Total(m: map<string, int>): int
    decreases |m|
  {
    if m == map[] then 0
    else
      var k :| k in m;
      m[k] + Total(m - {k})
  }

  /** `Total` does not depend on which key it takes first. */
  lemma {:induction false} TotalPick(m: map<string, int>, k: string)
    requires k in m
    ensures Total(m) == m[k] + Total(m - {k})
    decreases |m|
  {
    var j :| j in m && Total(m) == m[j] + Total(m - {j});
    if j != k {
      TotalPick(m - {j}, k);
      TotalPick(m - {k}, j);
      assert m - {j} - {k} == m - {k} - {j};
    }
  }

  /** Adding to one entry adds to the total. */
  lemma TotalAddTo(m: map<string, int>, k: string, v: int)
    ensures Total(AddTo(m, k, v)) == Total(m) + v
  {
    var m' := AddTo(m, k, v);
    TotalPick(m', k);
    assert m' - {k} == m - {k};
    if k in m {
      TotalPick(m, k);
    } else {
      assert m - {k} == m;
    }
  }

  /** Appending an element adds its key to the keys seen. */
  lemma KeySetSnoc<T>(xs: seq<T>, x: T, key: T -> string)
    ensures KeySet(xs + [x], key) == KeySet(xs, key) + {key(x)}
  {
    assert (xs + [x])[|xs|] == x;
    assert forall i :: 0 <= i < |xs| ==> (xs + [x])[i] == xs[i];
  }

  /** Appending an element adds its weight to its own key only. */
  lemma KeyWeightSnoc<T(!new)>(xs: seq<T>, x: T, key: T -> string, k: string, w: T -> int)
    ensures KeyWeight(xs + [x], key, k, w) == KeyWeight(xs, key, k, w) + (if key(x) == k then w(x) else 0)
  {
    var f := Filter(xs, HasKey(key, k));
    FilterSnoc(xs, x, HasKey(key, k));
    if key(x) == k {
      assert (f + [x])[..|f|] == f;
    } else {
      assert f + [] == f;
    }
  }

  /** A key that does not occur has no weight. */
  lemma AbsentKeyWeight<T(!new)>(xs: seq<T>, key: T -> string, k: string, w: T -> int)
    requires k !in KeySet(xs, key)
    ensures KeyWeight(xs, key, k, w) == 0
  {
    FilterKeepsNone(xs, HasKey(key, k));
  }

  /** Appending an element adds its key to the grouping's keys. */
  lemma SnocKeys<T(!new)>(xs: seq<T>, x: T, key: T -> string, w: T -> int)
    ensures GroupTotals(xs + [x], key, w).Keys == AddTo(GroupTotals(xs, key, w), key(x), w(x)).Keys
  {
    KeySetSnoc(xs, x, key);
  }

  /** Appending an element adds its weight to its own key's entry. */
  lemma SnocVal<T(!new)>(xs: seq<T>, x: T, key: T -> string, w: T -> int, k: string)
    requires k in GroupTotals(xs + [x], key, w)
    ensures GroupTotals(xs + [x], key, w)[k] == AddTo(GroupTotals(xs, key, w), key(x), w(x))[k]
  {
    KeyWeightSnoc(xs, x, key, k, w);
    if k !in KeySet(xs, key) {
      AbsentKeyWeight(xs, key, k, w);
    }
  }

  /** One step of the grouping fold: the element's key gains the element's weight. */
  lemma GroupTotalsSnoc<T(!new)>(xs: seq<T>, x: T, key: T -> string, w: T -> int)
    ensures GroupTotals(xs + [x], key, w) == AddTo(GroupTotals(xs, key, w), key(x), w(x))
  {
    SnocKeys(xs, x, key, w);
    forall k | k in GroupTotals(xs + [x], key, w)
      ensures GroupTotals(xs + [x], key, w)[k] == AddTo(GroupTotals(xs, key, w), key(x), w(x))[k]
    {
      SnocVal(xs, x, key, w, k);
    }
  }

  /** Summing the weights of all groups gives the weight of the whole sequence. */
  lemma {:induction false} GroupTotalsTotal<T(!new)>(xs: seq<T>, key: T -> string, w: T -> int)
    ensures Total(GroupTotals(xs, key, w)) == WeightSum(xs, w)
  {
    if xs == [] {
      assert GroupTotals(xs, key, w) == map[];
    } else {
      var init, x := xs[..|xs| - 1], xs[|xs| - 1];
      assert xs == init + [x];
      GroupTotalsTotal(init, key, w);
      GroupTotalsSnoc(init, x, key, w);
      TotalAddTo(GroupTotals(init, key, w), key(x), w(x));
    }
  }

  /** Counting with weight one counts the elements. */
  lemma {:induction false} CountIsLength<T>(xs: seq<T>)
    ensures WeightSum(xs, One) == |xs|
  {
    if xs != [] {
      CountIsLength(xs[..|xs| - 1]);
    }
  }

  /** The counts of a group-by-count add up to the number of elements. */
  lemma CountsSumToLength<T(!new)>(xs: seq<T>, key: T -> string)
    ensures Total(GroupTotals(xs, key, One)) == |xs|
  {
    GroupTotalsTotal(xs, key, One);
    CountIsLength(xs);
  }

  /** Each count is the number of elements with that key, so at least one. */
  lemma CountIsOccurrences<T(!new)>(xs: seq<T>, key: T -> string, k: string)
    requires k in GroupTotals(xs, key, One)
    ensures GroupTotals(xs, key, One)[k] == |Filter(xs, HasKey(key, k))| >= 1
  {
    var f := Filter(xs, HasKey(key, k));
    CountIsLength(f);
    var i :| 0 <= i < |xs| && key(xs[i]) == k;
    assert xs[i] in f;
  }

  /** The elements whose field is missing, empty, or literally the default key. */
  function FalsyOr<T>(field: T -> Option<string>, d: string): T -> bool {
    x => !Truthy(field(x)) || field(x) == Some(d)
  }

  /**
   * With `key(x) == field(x) || d`, the bucket `d` exists as soon as one
   * element lacks the field, and counts exactly the elements that lack it or
   * carry `d` itself.
   */
  lemma DefaultBucket<T(!new)>(xs: seq<T>, key: T -> string, field: T -> Option<string>, d: string)
    requires forall x :: key(x) == OrElse(field(x), d)
    ensures (exists i :: 0 <= i < |xs| && !Truthy(field(xs[i]))) ==> d in GroupTotals(xs, key, One)
    ensures d in GroupTotals(xs, key, One) ==> GroupTotals(xs, key, One)[d] == |Filter(xs, FalsyOr(field, d))|
  {
    if d in GroupTotals(xs, key, One) {
      CountIsOccurrences(xs, key, d);
      FilterCongruent(xs, HasKey(key, d), FalsyOr(field, d));
    }
  }

  /** `calculateRevenueFromCompletedOrders`. */
  function RevenueFromCompletedOrders(orders: Fetched<Order>): int {
    match orders
    case None => 0
    case Some(os) => WeightSum(Filter(os, IsCompleted), Amount)
  }

  /** `calculateAverageOrderValue`: real division, and 0 rather than a division by zero. */
  function AverageOrderValue(orders: Fetched<Order>): (avg: real)
    ensures Items(orders) == [] ==> avg == 0.0
    ensures Items(orders) != [] ==> avg * (|Items(orders)| as real) == WeightSum(Items(orders), Amount) as real
  {
    match orders
    case None => 0.0
    case Some(os) =>
      if |os| == 0 then 0.0
      else (WeightSum(os, Amount) as real) / (|os| as real)
  }

  /** The one grouping loop: each element adds its weight to its key's entry. */
  method GroupAndSum<T(==,!new)>(xs: seq<T>, key: T -> string, w: T -> int) returns (groups: map<string, int>)
    ensures groups == GroupTotals(xs, key, w)
  {
    groups := map[];
    assert GroupTotals(xs[..0], key, w) == map[];
    for i := 0 to |xs|
      invariant groups == GroupTotals(xs[..i], key, w)
    {
      var done, x := xs[..i], xs[i];
      assert xs[..i + 1] == done + [x];
      GroupTotalsSnoc(done, x, key, w);
      groups := AddTo(groups, key(x), w(x));
    }
    assert xs[..|xs|] == xs;
  }

  /** `groupOrdersByStatus`. */
  method GroupOrdersByStatus(orders: Fetched<Order>) returns (groups: map<string, int>)
    ensures groups == GroupTotals(Items(orders), StatusLabel, One)
  {
    groups := GroupAndSum(Items(orders), StatusLabel, One);
  }

  /** `groupOrdersByStage`. */
  method GroupOrdersByStage(orders: Fetched<Order>) returns (groups: map<string, int>)
    ensures groups == GroupTotals(Items(orders), StageLabel, One)
  {
    groups := GroupAndSum(Items(orders), StageLabel, One);
  }

  /** `calculateRevenueByStage`. */
  method RevenueByStage(orders: Fetched<Order>) returns (groups: map<string, int>)
    ensures groups == GroupTotals(Items(orders), StageLabel, Amount)
  {
    groups := GroupAndSum(Items(orders), StageLabel, Amount);
  }

  /** `groupCustomersByStatus`. */
  method GroupCustomersByStatus(customers: Fetched<Customer>) returns (groups: map<string, int>)
    ensures groups == GroupTotals(Items(customers), CustomerStatusLabel, One)
  {
    groups := GroupAndSum(Items(customers), CustomerStatusLabel, One);
  }

  /** Absent or non-array input: every fold yields its identity. */
  lemma AbsentCollectionDefaults(orders: Fetched<Order>, customers: Fetched<Customer>)
    requires orders.None? && customers.None?
    ensures Length(orders) == 0 && Length(customers) == 0
    ensures RevenueFromCompletedOrders(orders) == 0 && AverageOrderValue(orders) == 0.0
    ensures GroupTotals(Items(orders), StatusLabel, One) == map[]
    ensures GroupTotals(Items(orders), StageLabel, One) == map[]
    ensures GroupTotals(Items(orders), StageLabel, Amount) == map[]
    ensures GroupTotals(Items(customers), CustomerStatusLabel, One) == map[]
  {
  }

  /** Order counts by status and by stage both add up to the number of orders. */
  lemma OrderCountsSumToTotal(os: seq<Order>)
    ensures Total(GroupTotals(os, StatusLabel, One)) == |os|
    ensures Total(GroupTotals(os, StageLabel, One)) == |os|
  {
    CountsSumToLength(os, StatusLabel);
    CountsSumToLength(os, StageLabel);
  }

  /** Customer counts by status add up to the number of customers. */
  lemma CustomerCountsSumToTotal(cs: seq<Customer>)
    ensures Total(GroupTotals(cs, CustomerStatusLabel, One)) == |cs|
  {
    CountsSumToLength(cs, CustomerStatusLabel);
  }

  /** Every status present in `ordersByStatus` has a count of at least one. */
  lemma StatusCountsPositive(os: seq<Order>, k: string)
    requires k in GroupTotals(os, StatusLabel, One)
    ensures GroupTotals(os, StatusLabel, One)[k] >= 1
  {
    CountIsOccurrences(os, StatusLabel, k);
  }

  /** Orders without a status are counted under "Unknown". */
  lemma MissingStatusIsUnknown(os: seq<Order>)
    ensures (exists i :: 0 <= i < |os| && !Truthy(os[i].orderStatus)) ==> UnknownLabel in GroupTotals(os, StatusLabel, One)
    ensures UnknownLabel in GroupTotals(os, StatusLabel, One) ==>
              GroupTotals(os, StatusLabel, One)[UnknownLabel] == |Filter(os, FalsyOr((o: Order) => o.orderStatus, UnknownLabel))|
  {
    DefaultBucket(os, StatusLabel, (o: Order) => o.orderStatus, UnknownLabel);
  }

  /** Orders without a stage are counted under "Unknown". */
  lemma MissingStageIsUnknown(os: seq<Order>)
    ensures (exists i :: 0 <= i < |os| && !Truthy(os[i].currentStage)) ==> UnknownLabel in GroupTotals(os, StageLabel, One)
    ensures UnknownLabel in GroupTotals(os, StageLabel, One) ==>
              GroupTotals(os, StageLabel, One)[UnknownLabel] == |Filter(os, FalsyOr((o: Order) => o.currentStage, UnknownLabel))|
  {
    DefaultBucket(os, StageLabel, (o: Order) => o.currentStage, UnknownLabel);
  }

  /** Customers without a status are counted under "Active". */
  lemma MissingCustomerStatusIsActive(cs: seq<Customer>)
    ensures (exists i :: 0 <= i < |cs| && !Truthy(cs[i].status)) ==> DefaultCustomerStatus in GroupTotals(cs, CustomerStatusLabel, One)
    ensures DefaultCustomerStatus in GroupTotals(cs, CustomerStatusLabel, One) ==>
              GroupTotals(cs, CustomerStatusLabel, One)[DefaultCustomerStatus] == |Filter(cs, FalsyOr((c: Customer) => c.status, DefaultCustomerStatus))|
  {
    DefaultBucket(cs, CustomerStatusLabel, (c: Customer) => c.status, DefaultCustomerStatus);
  }

  /** A completed order adds its amount to the revenue; any other order adds nothing. */
  lemma RevenueOfNextOrder(os: seq<Order>, o: Order)
    ensures RevenueFromCompletedOrders(Some(os + [o]))
         == RevenueFromCompletedOrders(Some(os)) + (if IsCompleted(o) then Amount(o) else 0)
  {
    FilterSnoc(os, o, IsCompleted);
    var f := Filter(os, IsCompleted);
    if IsCompleted(o) {
      assert (f + [o])[..|f|] == f;
    } else {
      assert f + [] == f;
    }
  }

  /**
   * `totalRevenue` is the "AcceptanceAndDelivery" entry of `revenueByStage`,
   * or 0 when no order is in that stage.
   */
  lemma RevenueIsTerminalStageEntry(os: seq<Order>)
    ensures var byStage := GroupTotals(os, StageLabel, Amount);
            RevenueFromCompletedOrders(Some(os)) == if TerminalStage in byStage then byStage[TerminalStage] else 0
  {
    forall i | 0 <= i < |os|
      ensures IsCompleted(os[i]) == HasKey(StageLabel, TerminalStage)(os[i])
    {
      assert StageLabel(os[i]) == TerminalStage ==> os[i].currentStage == Some(TerminalStage);
    }
    FilterCongruent(os, IsCompleted, HasKey(StageLabel, TerminalStage));
    if TerminalStage !in KeySet(os, StageLabel) {
      AbsentKeyWeight(os, StageLabel, TerminalStage, Amount);
    }
  }

  /**
   * The per-stage revenues add up to the all-orders total that the average
   * divides: the average is the sum of `revenueByStage` over the number of orders.
   */
  lemma StageRevenuesAddUpToAverageTotal(os: seq<Order>)
    ensures Total(GroupTotals(os, StageLabel, Amount)) == WeightSum(os, Amount)
    ensures os != [] ==> AverageOrderValue(Some(os)) == Total(GroupTotals(os, StageLabel, Amount)) as real / (|os| as real)
  {
    GroupTotalsTotal(os, StageLabel, Amount);
  }

  /** The fetched collections, passed through unchanged. */
  datatype RawData = RawData(orders: Fetched<Order>, customers: Fetched<Customer>, stores: Fetched<Store>, employees: Fetched<Employee>)

  datatype DashboardSnapshot = DashboardSnapshot(
    totalOrders: nat,
    totalCustomers: nat,
    totalStores: nat,
    totalEmployees: nat,
    totalRevenue: int,
    averageOrderValue: real,
    ordersByStatus: map<string, int>,
    ordersByStage: map<string, int>,
    rawData: RawData)

  datatype OrderStats = OrderStats(
    totalOrders: nat,
    totalRevenue: int,
    averageOrderValue: real,
    ordersByStatus: map<string, int>,
    ordersByStage: map<string, int>)

  datatype RevenueStats = RevenueStats(totalRevenue: int, averageOrderValue: real, revenueByStage: map<string, int>)

  datatype CustomerStats = CustomerStats(totalCustomers: nat, customersByStatus: map<string, int>)

  /**
   * `getDashboardStats`: the four fetch outcomes are given. One failure fails
   * the whole call with that error; otherwise the snapshot is computed.
   */
  method GetDashboardStats(
    orders: Result<Fetched<Order>, FetchError>,
    customers: Result<Fetched<Customer>, FetchError>,
    stores: Result<Fetched<Store>, FetchError>,
    employees: Result<Fetched<Employee>, FetchError>)
    returns (r: Result<DashboardSnapshot, FetchError>)
    ensures r.Failure? <==> orders.Failure? || customers.Failure? || stores.Failure? || employees.Failure?
    ensures r.Failure? ==> r.error == if orders.Failure? then orders.error
                                      else if customers.Failure? then customers.error
                                      else if stores.Failure? then stores.error
                                      else employees.error
    ensures r.Success? ==>
      && r.value.totalOrders == Length(orders.value)
      && r.value.totalCustomers == Length(customers.value)
      && r.value.totalStores == Length(stores.value)
      && r.value.totalEmployees == Length(employees.value)
      && r.value.totalRevenue == RevenueFromCompletedOrders(orders.value)
      && r.value.averageOrderValue == AverageOrderValue(orders.value)
      && r.value.ordersByStatus == GroupTotals(Items(orders.value), StatusLabel, One)
      && r.value.ordersByStage == GroupTotals(Items(orders.value), StageLabel, One)
      && r.value.rawData == RawData(orders.value, customers.value, stores.value, employees.value)
  {
    if orders.Failure? {
      return Failure(orders.error);
    }
    if customers.Failure? {
      return Failure(customers.error);
    }
    if stores.Failure? {
      return Failure(stores.error);
    }
    if employees.Failure? {
      return Failure(employees.error);
    }
    var os, cs, ss, es := orders.value, customers.value, stores.value, employees.value;
    var byStatus := GroupOrdersByStatus(os);
    var byStage := GroupOrdersByStage(os);
    r := Success(DashboardSnapshot(
      Length(os), Length(cs), Length(ss), Length(es),
      RevenueFromCompletedOrders(os),
      AverageOrderValue(os),
      byStatus,
      byStage,
      RawData(os, cs, ss, es)));
  }

  /** `getOrderStats`. */
  method GetOrderStats(orders: Result<Fetched<Order>, FetchError>) returns (r: Result<OrderStats, FetchError>)
    ensures r.Failure? <==> orders.Failure?
    ensures r.Failure? ==> r.error == orders.error
    ensures r.Success? ==>
      && r.value.totalOrders == Length(orders.value)
      && r.value.totalRevenue == RevenueFromCompletedOrders(orders.value)
      && r.value.averageOrderValue == AverageOrderValue(orders.value)
      && r.value.ordersByStatus == GroupTotals(Items(orders.value), StatusLabel, One)
      && r.value.ordersByStage == GroupTotals(Items(orders.value), StageLabel, One)
  {
    if orders.Failure? {
      return Failure(orders.error);
    }
    var os := orders.value;
    var byStatus := GroupOrdersByStatus(os);
    var byStage := GroupOrdersByStage(os);
    r := Success(OrderStats(Length(os), RevenueFromCompletedOrders(os), AverageOrderValue(os), byStatus, byStage));
  }

  /** `getRevenueStats`. */
  method GetRevenueStats(orders: Result<Fetched<Order>, FetchError>) returns (r: Result<RevenueStats, FetchError>)
    ensures r.Failure? <==> orders.Failure?
    ensures r.Failure? ==> r.error == orders.error
    ensures r.Success? ==>
      && r.value.totalRevenue == RevenueFromCompletedOrders(orders.value)
      && r.value.averageOrderValue == AverageOrderValue(orders.value)
      && r.value.revenueByStage == GroupTotals(Items(orders.value), StageLabel, Amount)
  {
    if orders.Failure? {
      return Failure(orders.error);
    }
    var os := orders.value;
    var byStage := RevenueByStage(os);
    r := Success(RevenueStats(RevenueFromCompletedOrders(os), AverageOrderValue(os), byStage));
  }

  /** `getCustomerStats`. */
  method GetCustomerStats(customers: Result<Fetched<Customer>, FetchError>) returns (r: Result<CustomerStats, FetchError>)
    ensures r.Failure? <==> customers.Failure?
    ensures r.Failure? ==> r.error == customers.error
    ensures r.Success? ==>
      && r.value.totalCustomers == Length(customers.value)
      && r.value.customersByStatus == GroupTotals(Items(customers.value), CustomerStatusLabel, One)
  {
    if customers.Failure? {
      return Failure(customers.error);
    }
    var cs := customers.value;
    var byStatus := GroupCustomersByStatus(cs);
    r := Success(CustomerStats(Length(cs), byStatus));
  }

  /** Worked example: a delivered order of 1000 and an order of 500 still in design. */
  const DeliveredOrder := Order("1", Some(1000), Some("Pending"), Some(TerminalStage))
  const DesigningOrder := Order("2", Some(500), Some("Pending"), Some("Designing"))

  /** Only the delivered order counts as revenue. */
  lemma ExampleRevenue()
    ensures RevenueFromCompletedOrders(Some([DeliveredOrder, DesigningOrder])) == 1000
  {
    var none: seq<Order> := [];
    assert [DeliveredOrder] == none + [DeliveredOrder];
    assert [DeliveredOrder, DesigningOrder] == [DeliveredOrder] + [DesigningOrder];
    RevenueOfNextOrder(none, DeliveredOrder);
    RevenueOfNextOrder([DeliveredOrder], DesigningOrder);
  }

  /** The average is taken over all orders, delivered or not. */
  lemma ExampleAverage()
    ensures AverageOrderValue(Some([DeliveredOrder, DesigningOrder])) == 750.0
  {
    assert [DeliveredOrder, DesigningOrder][..1] == [DeliveredOrder];
    assert [DeliveredOrder][..0] == [];
    assert WeightSum([DeliveredOrder], Amount) == 1000;
    assert WeightSum([DeliveredOrder, DesigningOrder], Amount) == 1500;
  }

  /** One order in each of the two stages. */
  lemma ExampleStageCounts()
    ensures GroupTotals([DeliveredOrder, DesigningOrder], StageLabel, One) == map[TerminalStage := 1, "Designing" := 1]
  {
    var none: seq<Order> := [];
    assert [DeliveredOrder] == none + [DeliveredOrder];
    assert [DeliveredOrder, DesigningOrder] == [DeliveredOrder] + [DesigningOrder];
    assert GroupTotals(none, StageLabel, One) == map[];
    GroupTotalsSnoc(none, DeliveredOrder, StageLabel, One);
    GroupTotalsSnoc([DeliveredOrder], DesigningOrder, StageLabel, One);
  }
}
