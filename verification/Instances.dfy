/** Listing the instances behind orders: `ListInstances`, `buildInstanceInfo` and `GetProductByID` of
    internal/data/order.go, with the defaults of internal/biz/order.go. */
module Instances {
  import opened Orders
  import opened Booking
  import opened Paging
  import opened Stability

  /** biz.InstanceFilter; an empty string filters nothing. */
  datatype InstanceFilter = InstanceFilter(userId: string, status: string, page: Uint32, pageSize: Uint32)

  datatype InstanceInfo = InstanceInfo(
    instanceId: int, userId: string, orderId: int, productId: int, productName: string,
    spec: ProductSpec, status: string, createdAt: int)

  datatype ProductRow = ProductRow(name: string, description: string, status: string, price: int, specId: int)

  /** The products and product_specs tables, and the orders whose lookups meet a database error. */
  datatype Catalog = Catalog(products: map<int, ProductRow>, specs: map<int, ProductSpec>, broken: set<int>)

  // ---------------------------------------------------------------------------------------------
  // The query
  // ---------------------------------------------------------------------------------------------

  predicate Selects(f: InstanceFilter, r: Row) {
    && r.instanceId.Some?
    && (f.userId != "" ==> r.userId == f.userId)
    && (f.status != "" ==> r.status == f.status)
  }

  /** Primary keys of the rows the filter keeps; `total` counts them. */
  function Selected(t: Table, f: InstanceFilter): set<int> {
    set k | k in t && Selects(f, t[k])
  }

  function Ids(rows: seq<Row>): set<int> {
    set r | r in rows :: r.orderId
  }

  predicate NewestFirst(rows: seq<Row>) {
    forall i, j :: 0 <= i < j < |rows| ==> rows[i].createdAt >= rows[j].createdAt
  }

  /** `ranked` is an order in which the database may hold the whole answer. */
  ghost predicate Answers(ranked: seq<Row>, t: Table, f: InstanceFilter) {
    && (forall i, j :: 0 <= i < j < |ranked| ==> ranked[i].orderId != ranked[j].orderId)
    && (forall i :: 0 <= i < |ranked| ==> ranked[i].orderId in t && t[ranked[i].orderId] == ranked[i])
    && Ids(ranked) == Selected(t, f)
    && NewestFirst(ranked)
  }

  /** Both lookups of an order's product succeed. */
  predicate Known(c: Catalog, r: Row) {
    r.orderId !in c.broken && r.productId in c.products && c.products[r.productId].specId in c.specs
  }

  function InstanceStatus(status: string): string {
    match status
    case "PAID" => "CREATING"
    case "COMPLETED" => "RUNNING"
    case "CANCELLED" => "DELETED"
    case _ => "UNKNOWN"
  }

  function InfoOf(c: Catalog, r: Row): InstanceInfo
    requires Known(c, r) && r.instanceId.Some?
  {
    var p := c.products[r.productId];
    InstanceInfo(r.instanceId.value, r.userId, r.orderId, r.productId, p.name, c.specs[p.specId],
                 InstanceStatus(r.status), r.createdAt)
  }

  /** What the loop over a page builds: rows whose product is not known are skipped with a warning. */
  function Built(c: Catalog, rows: seq<Row>): seq<InstanceInfo> {
    if rows == [] then []
    else Built(c, rows[..|rows| - 1]) + BuiltOne(c, rows[|rows| - 1])
  }

  function BuiltOne(c: Catalog, r: Row): seq<InstanceInfo> {
    if r.instanceId.Some? && Known(c, r) then [InfoOf(c, r)] else []
  }

  function OffsetOf(f: InstanceFilter): (offset: nat)
    requires f.page > 0
    ensures offset == Offset(f.pageSize, f.page)
  {
    (f.page - 1) * f.pageSize % TWO32
  }

  class InstanceRepo {
    var orders: Table

    constructor (orders: Table)
      ensures this.orders == orders
    {
      this.orders := orders;
    }

    method GetProductByID(c: Catalog, productId: int, fails: bool) returns (product: Option<Product>)
      ensures product.Some? <==> !fails && productId in c.products && c.products[productId].specId in c.specs
      ensures product.Some? ==>
                var p, row := product.value, c.products[productId];
                p.id == productId && p.name == row.name && p.description == row.description && p.status == row.status &&
                p.price == row.price && p.specId == row.specId && p.spec == Some(c.specs[row.specId])
    {
      if fails || productId !in c.products {
        return None;
      }
      var row := c.products[productId];
      if row.specId !in c.specs {
        return None;
      }
      product := Some(Product(productId, row.name, row.description, row.status, row.price, row.specId,
                              Some(c.specs[row.specId])));
    }

    method BuildInstanceInfo(c: Catalog, order: Row) returns (info: Option<InstanceInfo>)
      ensures info == if order.instanceId.Some? && Known(c, order) then Some(InfoOf(c, order)) else None
    {
      if order.instanceId.None? {
        return None;
      }
      var product := GetProductByID(c, order.productId, order.orderId in c.broken);
      if product.None? {
        return None;
      }
      var status := "UNKNOWN";
      match order.status {
        case "PAID" => status := "CREATING";
        case "COMPLETED" => status := "RUNNING";
        case "CANCELLED" => status := "DELETED";
        case _ =>
      }
      info := Some(InstanceInfo(order.instanceId.value, order.userId, order.orderId, order.productId,
                                product.value.name, product.value.spec.value, status, order.createdAt));
    }

    /** `ranked` is the database's arrangement; None is an error. */
    method ListInstances(filter: InstanceFilter, c: Catalog, ranked: seq<Row>, countFails: bool, findFails: bool)
      returns (r: Option<(seq<InstanceInfo>, int)>)
      requires filter.page > 0
      requires Answers(ranked, orders, filter)
      ensures r.Some? <==> !countFails && !findFails
      ensures r.Some? ==>
                r.value.0 == Built(c, Page(ranked, filter.pageSize, filter.page)) &&
                r.value.1 == |Selected(orders, filter)|
    {
      if countFails {
        return None;
      }
      var total := |Selected(orders, filter)|;
      var offset := OffsetOf(filter);
      if findFails {
        return None;
      }
      var found := Window(ranked, offset, filter.pageSize);
      var instances: seq<InstanceInfo> := [];
      for i := 0 to |found|
        invariant instances == Built(c, found[..i])
      {
        var instance := BuildInstanceInfo(c, found[i]);
        BuiltNext(c, found, i);
        if instance.None? {
          continue;
        }
        instances := instances + [instance.value];
      }
      assert found[..|found|] == found;
      r := Some((instances, total));
    }
  }

  class InstanceUsecase {
    const repo: InstanceRepo

    constructor (repo: InstanceRepo)
      ensures this.repo == repo
    {
      this.repo := repo;
    }

    method ListInstances(filter: InstanceFilter, c: Catalog, ranked: seq<Row>, countFails: bool, findFails: bool)
      returns (r: Option<(seq<InstanceInfo>, int)>)
      requires Answers(ranked, repo.orders, filter)
      ensures r.Some? <==> !countFails && !findFails
      ensures r.Some? ==>
                r.value.0 == Built(c, Page(ranked, OrElse(filter.pageSize, 20), OrElse(filter.page, 1))) &&
                r.value.1 == |Selected(repo.orders, filter)|
    {
      var f := filter;
      if f.page == 0 {
        f := f.(page := 1);
      }
      if f.pageSize == 0 {
        f := f.(pageSize := 20);
      }
      SameSelection(ranked, repo.orders, filter, f);
      r := repo.ListInstances(f, c, ranked, countFails, findFails);
    }
  }

  /** What is selected, and counted, does not depend on the page. */
  lemma SameSelection(ranked: seq<Row>, t: Table, f: InstanceFilter, g: InstanceFilter)
    requires f.userId == g.userId && f.status == g.status
    ensures Selected(t, f) == Selected(t, g)
    ensures Answers(ranked, t, f) <==> Answers(ranked, t, g)
  {
    forall k | k in t ensures Selects(f, t[k]) == Selects(g, t[k]) {}
    assert Selected(t, f) == Selected(t, g);
  }

  lemma BuiltNext(c: Catalog, rows: seq<Row>, i: nat)
    requires i < |rows|
    ensures Built(c, rows[..i + 1]) == Built(c, rows[..i]) + BuiltOne(c, rows[i])
  {
    assert rows[..i + 1][..i] == rows[..i];
  }

  // ---------------------------------------------------------------------------------------------
  // What a reader of all pages sees
  // ---------------------------------------------------------------------------------------------

  lemma AnswersHaveInstances(ranked: seq<Row>, t: Table, f: InstanceFilter)
    requires Answers(ranked, t, f)
    ensures forall i :: 0 <= i < |ranked| ==> Selects(f, ranked[i])
  {
    forall i | 0 <= i < |ranked| ensures Selects(f, ranked[i]) {
      assert ranked[i].orderId in Ids(ranked);
      assert ranked[i].orderId in Selected(t, f);
    }
  }

  lemma {:induction false} BuiltAppend(c: Catalog, a: seq<Row>, b: seq<Row>)
    ensures Built(c, a + b) == Built(c, a) + Built(c, b)
  {
    if b == [] {
      assert a + b == a;
    } else {
      BuiltAppend(c, a, b[..|b| - 1]);
      BuiltLast(c, a, b);
    }
  }

  lemma BuiltLast(c: Catalog, a: seq<Row>, b: seq<Row>)
    requires b != []
    ensures Built(c, a + b) == Built(c, a + b[..|b| - 1]) + BuiltOne(c, b[|b| - 1])
    ensures Built(c, b) == Built(c, b[..|b| - 1]) + BuiltOne(c, b[|b| - 1])
  {
    assert (a + b)[..|a + b| - 1] == a + b[..|b| - 1];
  }

  /** What requests for the first n pages return, one after the other. */
  function Browsed(ranked: seq<Row>, c: Catalog, size: nat, n: nat): seq<InstanceInfo> {
    if n == 0 then [] else Browsed(ranked, c, size, n - 1) + Built(c, Page(ranked, size, Asked(n)))
  }

  lemma BrowsedNext(c: Catalog, before: seq<InstanceInfo>, after: seq<InstanceInfo>, read: seq<Row>, readOn: seq<Row>,
                    page: seq<Row>)
    requires before == Built(c, read) && after == before + Built(c, page) && readOn == read + page
    ensures after == Built(c, readOn)
  {
    BuiltAppend(c, read, page);
  }

  lemma OneMorePage(ranked: seq<Row>, c: Catalog, size: nat, n: nat, page: seq<Row>)
    requires n > 0 && page == Page(ranked, size, Asked(n))
    ensures Browsed(ranked, c, size, n) == Browsed(ranked, c, size, n - 1) + Built(c, page)
    ensures Reading(ranked, size, n) == Reading(ranked, size, n - 1) + page
  {}

  /** What is listed of the rows read so far. */
  ghost predicate ListsReading(browsed: seq<InstanceInfo>, c: Catalog, read: seq<Row>) {
    browsed == Built(c, read)
  }

  lemma NothingBrowsed(ranked: seq<Row>, c: Catalog, size: nat)
    ensures ListsReading(Browsed(ranked, c, size, 0), c, Reading(ranked, size, 0))
  {}

  lemma BrowsedStep(ranked: seq<Row>, c: Catalog, size: nat, n: nat)
    requires n > 0 && ListsReading(Browsed(ranked, c, size, n - 1), c, Reading(ranked, size, n - 1))
    ensures ListsReading(Browsed(ranked, c, size, n), c, Reading(ranked, size, n))
  {
    var page := Page(ranked, size, Asked(n));
    OneMorePage(ranked, c, size, n, page);
    BrowsedNext(c, Browsed(ranked, c, size, n - 1), Browsed(ranked, c, size, n), Reading(ranked, size, n - 1),
                Reading(ranked, size, n), page);
  }

  lemma {:induction false} BrowsedIsReading(ranked: seq<Row>, c: Catalog, size: nat, n: nat)
    ensures ListsReading(Browsed(ranked, c, size, n), c, Reading(ranked, size, n))
  {
    if n == 0 {
      NothingBrowsed(ranked, c, size);
    } else {
      BrowsedIsReading(ranked, c, size, n - 1);
      BrowsedStep(ranked, c, size, n);
    }
  }

  /** The infos are built from rows taken in order, and a row is passed over only if its product is not
      known. */
  ghost predicate BuiltFrom(c: Catalog, rows: seq<Row>, at: seq<nat>, infos: seq<InstanceInfo>) {
    && |at| == |infos|
    && (forall j :: 0 <= j < |at| ==> TakenFrom(c, rows, at[j], infos[j]))
    && (forall i, j :: 0 <= i < j < |at| ==> at[i] < at[j])
    && (forall i :: 0 <= i < |rows| && Known(c, rows[i]) ==> i in at)
  }

  predicate TakenFrom(c: Catalog, rows: seq<Row>, i: nat, info: InstanceInfo) {
    i < |rows| && Known(c, rows[i]) && rows[i].instanceId.Some? && Describes(c, rows[i], info)
  }

  /** Column by column: ids, user and time of the order, name and specification of its product, and the state
      of the instance by the status of the order. */
  predicate Describes(c: Catalog, r: Row, info: InstanceInfo) {
    && r.instanceId == Some(info.instanceId) && info.userId == r.userId && info.orderId == r.orderId
    && info.productId == r.productId && info.createdAt == r.createdAt
    && r.productId in c.products && info.productName == c.products[r.productId].name
    && c.products[r.productId].specId in c.specs && info.spec == c.specs[c.products[r.productId].specId]
    && (r.status == "PAID" ==> info.status == "CREATING")
    && (r.status == "COMPLETED" ==> info.status == "RUNNING")
    && (r.status == "CANCELLED" ==> info.status == "DELETED")
    && (r.status !in ["PAID", "COMPLETED", "CANCELLED"] ==> info.status == "UNKNOWN")
  }

  lemma InfoDescribes(c: Catalog, r: Row)
    requires Known(c, r) && r.instanceId.Some?
    ensures Describes(c, r, InfoOf(c, r))
  {}

  lemma {:induction false} BuiltInOrder(c: Catalog, rows: seq<Row>) returns (at: seq<nat>)
    requires forall i :: 0 <= i < |rows| ==> rows[i].instanceId.Some?
    ensures BuiltFrom(c, rows, at, Built(c, rows))
  {
    at := [];
    if rows != [] {
      var n := |rows| - 1;
      at := BuiltInOrder(c, rows[..n]);
      BuiltOneMore(c, rows, at, Built(c, rows[..n]));
      if Known(c, rows[n]) {
        at := at + [n];
      }
    }
  }

  lemma TakenStays(c: Catalog, rows: seq<Row>, n: nat, i: nat, info: InstanceInfo)
    requires n <= |rows| && TakenFrom(c, rows[..n], i, info)
    ensures TakenFrom(c, rows, i, info) && i < n
  {}

  /** The infos taken so far, seen from a longer list of rows. */
  lemma BuiltSoFar(c: Catalog, rows: seq<Row>, n: nat, at: seq<nat>, infos: seq<InstanceInfo>)
    requires n <= |rows| && BuiltFrom(c, rows[..n], at, infos)
    ensures |at| == |infos| && (forall j :: 0 <= j < |at| ==> at[j] < n)
    ensures forall j :: 0 <= j < |at| ==> TakenFrom(c, rows, at[j], infos[j])
    ensures forall i, j :: 0 <= i < j < |at| ==> at[i] < at[j]
    ensures forall i :: 0 <= i < n && Known(c, rows[i]) ==> i in at
  {
    forall j | 0 <= j < |at| ensures at[j] < n && TakenFrom(c, rows, at[j], infos[j]) {
      TakenStays(c, rows, n, at[j], infos[j]);
    }
    forall i | 0 <= i < n && Known(c, rows[i]) ensures i in at {
      assert rows[..n][i] == rows[i];
    }
  }

  lemma BuiltOneMore(c: Catalog, rows: seq<Row>, at: seq<nat>, infos: seq<InstanceInfo>)
    requires rows != [] && rows[|rows| - 1].instanceId.Some? && BuiltFrom(c, rows[..|rows| - 1], at, infos)
    ensures BuiltFrom(c, rows, if Known(c, rows[|rows| - 1]) then at + [|rows| - 1] else at,
                      infos + BuiltOne(c, rows[|rows| - 1]))
  {
    var n := |rows| - 1;
    BuiltSoFar(c, rows, n, at, infos);
    if Known(c, rows[n]) {
      InfoDescribes(c, rows[n]);
      OneMoreTaken(c, rows, at, infos, InfoOf(c, rows[n]));
    } else {
      assert infos + BuiltOne(c, rows[n]) == infos;
    }
  }

  lemma OneMoreTaken(c: Catalog, rows: seq<Row>, at: seq<nat>, infos: seq<InstanceInfo>, info: InstanceInfo)
    requires rows != [] && |at| == |infos| && TakenFrom(c, rows, |rows| - 1, info)
    requires forall j :: 0 <= j < |at| ==> at[j] < |rows| - 1 && TakenFrom(c, rows, at[j], infos[j])
    requires forall i, j :: 0 <= i < j < |at| ==> at[i] < at[j]
    requires forall i :: 0 <= i < |rows| - 1 && Known(c, rows[i]) ==> i in at
    ensures BuiltFrom(c, rows, at + [|rows| - 1], infos + [info])
  {
    var at', infos' := at + [|rows| - 1], infos + [info];
    forall j | 0 <= j < |at'| ensures TakenFrom(c, rows, at'[j], infos'[j]) {
      if j < |at| {
        assert TakenFrom(c, rows, at[j], infos[j]);
      }
    }
  }

  /** Order ids of the selected rows whose product or specification cannot be read. */
  function Lost(t: Table, f: InstanceFilter, c: Catalog): set<int> {
    set k | k in t && Selects(f, t[k]) && !Known(c, t[k])
  }

  function OrderIds(infos: seq<InstanceInfo>): set<int> {
    set i | i in infos :: i.orderId
  }

  /** The orders listed and the orders lost are the selected ones, and no order is listed twice. */
  lemma ListedOrLost(t: Table, f: InstanceFilter, c: Catalog, ranked: seq<Row>)
    requires Answers(ranked, t, f)
    ensures OrderIds(Built(c, ranked)) == Selected(t, f) - Lost(t, f, c)
    ensures |Built(c, ranked)| == |OrderIds(Built(c, ranked))|
  {
    AnswersHaveInstances(ranked, t, f);
    var infos := Built(c, ranked);
    var at := BuiltInOrder(c, ranked);
    ListedIds(t, f, c, ranked, at, infos);
    DistinctIds(t, f, c, ranked, at, infos);
    CountIds(infos);
  }

  /** Which orders a filter selects: those with an instance, of the user and in the status asked for, if any. */
  lemma SelectedIff(t: Table, f: InstanceFilter, k: int)
    ensures k in Selected(t, f) <==>
            k in t && t[k].instanceId.Some? && (f.userId == "" || t[k].userId == f.userId) &&
            (f.status == "" || t[k].status == f.status)
  {}

  /** Every info listed describes a selected order, and every selected order whose product and specification
      can be read is described. */
  lemma ListedDescribes(t: Table, f: InstanceFilter, c: Catalog, ranked: seq<Row>)
    requires Answers(ranked, t, f)
    ensures forall info :: info in Built(c, ranked) ==>
              exists k :: k in Selected(t, f) && k !in c.broken && Describes(c, t[k], info)
    ensures forall k :: k in Selected(t, f) && k !in c.broken && t[k].productId in c.products &&
                        c.products[t[k].productId].specId in c.specs ==>
              exists info :: info in Built(c, ranked) && Describes(c, t[k], info)
  {
    AnswersHaveInstances(ranked, t, f);
    var infos := Built(c, ranked);
    var at := BuiltInOrder(c, ranked);
    forall info | info in infos ensures exists k :: k in Selected(t, f) && k !in c.broken && Describes(c, t[k], info) {
      var j :| 0 <= j < |infos| && infos[j] == info;
      assert TakenFrom(c, ranked, at[j], infos[j]);
      assert ranked[at[j]].orderId in Ids(ranked);
    }
    forall k | k in Selected(t, f) && k !in c.broken && t[k].productId in c.products &&
               c.products[t[k].productId].specId in c.specs
      ensures exists info :: info in infos && Describes(c, t[k], info)
    {
      var i := PlaceOf(t, f, ranked, k);
      assert Known(c, ranked[i]);
      var j :| 0 <= j < |at| && at[j] == i;
      assert TakenFrom(c, ranked, at[j], infos[j]);
    }
  }

  lemma PlaceOf(t: Table, f: InstanceFilter, ranked: seq<Row>, k: int) returns (i: nat)
    requires Answers(ranked, t, f) && k in Selected(t, f)
    ensures i < |ranked| && ranked[i] == t[k] && t[k].orderId == k
  {
    assert k in Ids(ranked);
    i :| 0 <= i < |ranked| && ranked[i].orderId == k;
  }

  lemma ListedIds(t: Table, f: InstanceFilter, c: Catalog, ranked: seq<Row>, at: seq<nat>, infos: seq<InstanceInfo>)
    requires Answers(ranked, t, f) && BuiltFrom(c, ranked, at, infos)
    ensures OrderIds(infos) == Selected(t, f) - Lost(t, f, c)
  {
    forall k | k in OrderIds(infos) ensures k in Selected(t, f) - Lost(t, f, c) {
      var j :| 0 <= j < |infos| && infos[j].orderId == k;
      assert TakenFrom(c, ranked, at[j], infos[j]);
      assert ranked[at[j]].orderId in Ids(ranked);
    }
    forall k | k in Selected(t, f) - Lost(t, f, c) ensures k in OrderIds(infos) {
      assert k in Ids(ranked);
      var i :| 0 <= i < |ranked| && ranked[i].orderId == k;
      assert Known(c, ranked[i]);
      var j :| 0 <= j < |at| && at[j] == i;
      assert TakenFrom(c, ranked, at[j], infos[j]);
    }
  }

  lemma DistinctIds(t: Table, f: InstanceFilter, c: Catalog, ranked: seq<Row>, at: seq<nat>, infos: seq<InstanceInfo>)
    requires Answers(ranked, t, f) && BuiltFrom(c, ranked, at, infos)
    ensures forall i, j :: 0 <= i < j < |infos| ==> infos[i].orderId != infos[j].orderId
    ensures forall i, j :: 0 <= i < j < |infos| ==> infos[i].createdAt >= infos[j].createdAt
  {
    forall i, j | 0 <= i < j < |infos|
      ensures infos[i].orderId != infos[j].orderId && infos[i].createdAt >= infos[j].createdAt
    {
      assert TakenFrom(c, ranked, at[i], infos[i]) && TakenFrom(c, ranked, at[j], infos[j]);
      assert at[i] < at[j];
    }
  }

  lemma {:induction false} CountIds(infos: seq<InstanceInfo>)
    requires forall i, j :: 0 <= i < j < |infos| ==> infos[i].orderId != infos[j].orderId
    ensures |OrderIds(infos)| == |infos|
  {
    if infos != [] {
      var rest, last := infos[..|infos| - 1], infos[|infos| - 1];
      CountIds(rest);
      assert last.orderId !in OrderIds(rest);
      assert OrderIds(infos) == OrderIds(rest) + {last.orderId} by {
        assert infos == rest + [last];
      }
    }
  }

  /** A reader that asks for every page of an unchanging answer gets exactly the selected orders whose
      product can be read, each once and newest first, as long as the number of the last page and its offset
      fit in 32 bits; `total` exceeds their number by the lost ones. */
  lemma PagesTile(t: Table, f: InstanceFilter, c: Catalog, ranked: seq<Row>, size: nat, n: nat)
    requires Answers(ranked, t, f) && size > 0 && n == PageCount(|ranked|, size) && (n > 0 ==> !TooFar(size, n))
    ensures Browsed(ranked, c, size, n) == Built(c, ranked)
    ensures OrderIds(Built(c, ranked)) == Selected(t, f) - Lost(t, f, c)
    ensures |Selected(t, f)| - |Browsed(ranked, c, size, n)| == |Lost(t, f, c)|
    ensures forall i, j :: 0 <= i < j < |Built(c, ranked)| ==>
              Built(c, ranked)[i].createdAt >= Built(c, ranked)[j].createdAt
  {
    BrowsedIsReading(ranked, c, size, n);
    AllRead(t, f, ranked, size, n);
    ListedOrLost(t, f, c, ranked);
    LostCount(t, f, c);
    AnswersHaveInstances(ranked, t, f);
    var at := BuiltInOrder(c, ranked);
    DistinctIds(t, f, c, ranked, at, Built(c, ranked));
  }

  lemma AllRead(t: Table, f: InstanceFilter, ranked: seq<Row>, size: nat, n: nat)
    requires Answers(ranked, t, f) && size > 0 && n == PageCount(|ranked|, size) && (n > 0 ==> !TooFar(size, n))
    ensures Reading(ranked, size, n) == ranked
  {
    if n > 0 {
      Paging.PagesTileIff(ranked, size, n);
    }
  }

  lemma LostCount(t: Table, f: InstanceFilter, c: Catalog)
    ensures |Selected(t, f)| - |Selected(t, f) - Lost(t, f, c)| == |Lost(t, f, c)|
  {
    assert Selected(t, f) == (Selected(t, f) - Lost(t, f, c)) + Lost(t, f, c);
  }

  /** Where no lookup fails that condition is exact: beyond it some order is listed twice. */
  lemma PagesTileIff(t: Table, f: InstanceFilter, c: Catalog, ranked: seq<Row>, size: nat, n: nat)
    requires Answers(ranked, t, f) && size > 0 && n == PageCount(|ranked|, size)
    requires Lost(t, f, c) == {}
    ensures Browsed(ranked, c, size, n) == Built(c, ranked) <==> (n > 0 ==> !TooFar(size, n))
  {
    if n > 0 && TooFar(size, n) {
      CountBounds(|ranked|, size);
      ReadingRepeats(ranked, size, n);
      BrowsedIsReading(ranked, c, size, n);
      ReadFrom(ranked, size, n);
      AnswersHaveInstances(ranked, t, f);
      ListedOrLost(t, f, c, ranked);
      TwiceListed(t, f, c, ranked, Reading(ranked, size, n));
    } else {
      PagesTile(t, f, c, ranked, size, n);
    }
  }

  lemma {:induction false} ReadFrom(ranked: seq<Row>, size: nat, n: nat)
    ensures forall r :: r in Reading(ranked, size, n) ==> r in ranked
  {
    if n > 0 {
      ReadFrom(ranked, size, n - 1);
    }
  }

  /** Where no lookup fails a row makes an info, at its place. */
  lemma {:induction false} BuiltOfKnown(c: Catalog, rows: seq<Row>)
    requires forall r :: r in rows ==> Known(c, r) && r.instanceId.Some?
    ensures |Built(c, rows)| == |rows| && forall i :: 0 <= i < |rows| ==> Built(c, rows)[i].orderId == rows[i].orderId
  {
    if rows != [] {
      BuiltOfKnown(c, rows[..|rows| - 1]);
    }
  }

  lemma TwiceListed(t: Table, f: InstanceFilter, c: Catalog, ranked: seq<Row>, read: seq<Row>)
    requires Answers(ranked, t, f) && Lost(t, f, c) == {} && !Distinct(read)
    requires forall r :: r in read ==> r in ranked
    ensures Built(c, read) != Built(c, ranked)
  {
    AnswersHaveInstances(ranked, t, f);
    forall r | r in ranked ensures Known(c, r) && r.instanceId.Some? {
      assert r.orderId !in Lost(t, f, c);
    }
    BuiltOfKnown(c, ranked);
    BuiltOfKnown(c, read);
    var i, j :| 0 <= i < j < |read| && read[i] == read[j];
    assert Built(c, read)[i].orderId == Built(c, read)[j].orderId;
  }

  // ---------------------------------------------------------------------------------------------
  // Orders created at the same time
  // ---------------------------------------------------------------------------------------------

  /** The rows selected. */
  function Rows(t: Table, f: InstanceFilter): set<Row> {
    set k | k in Selected(t, f) :: t[k]
  }

  function Newer(): (Row, Row) -> bool {
    (r: Row, s: Row) => r.createdAt >= s.createdAt
  }

  lemma NewerIsPreorder()
    ensures Preorder(Newer())
  {}

  /** If the query has an answer at all, its answers are the arrangements of the selected rows. */
  lemma AnswersAre(ranked: seq<Row>, t: Table, f: InstanceFilter, b: seq<Row>)
    requires Answers(ranked, t, f)
    ensures Answers(b, t, f) <==> Arranges(b, Rows(t, f), Newer())
  {
    KeyedRows(ranked, t, f);
    if Answers(b, t, f) {
      AnswerArranges(b, t, f);
    }
    if Arranges(b, Rows(t, f), Newer()) {
      ArrangementAnswers(b, t, f);
    }
  }

  lemma KeyedRows(ranked: seq<Row>, t: Table, f: InstanceFilter)
    requires Answers(ranked, t, f)
    ensures forall k :: k in Selected(t, f) ==> t[k].orderId == k
  {
    forall k | k in Selected(t, f) ensures t[k].orderId == k {
      assert k in Ids(ranked);
    }
  }

  lemma AnswerArranges(b: seq<Row>, t: Table, f: InstanceFilter)
    requires Answers(b, t, f)
    ensures Arranges(b, Rows(t, f), Newer())
  {
    forall r | r in b ensures r in Rows(t, f) {
      assert r.orderId in Ids(b);
    }
    forall r | r in Rows(t, f) ensures r in b {
      var k :| k in Selected(t, f) && t[k] == r;
      assert k in Ids(b);
    }
  }

  lemma ArrangementAnswers(b: seq<Row>, t: Table, f: InstanceFilter)
    requires Arranges(b, Rows(t, f), Newer()) && forall k :: k in Selected(t, f) ==> t[k].orderId == k
    ensures Answers(b, t, f)
  {
    forall i | 0 <= i < |b| ensures b[i].orderId in Selected(t, f) && t[b[i].orderId] == b[i] {
      assert b[i] in Contents(b);
    }
    forall k | k in Selected(t, f) ensures k in Ids(b) {
      assert t[k] in Contents(b);
    }
  }

  /** When the database may arrange orders of one creation time anew for each page: a reader of all pages is
      sure to be shown every selected order once exactly if no such tie straddles a page border, and the number
      of the last page and its offset fit in 32 bits. */
  lemma ReadsCompleteIff(t: Table, f: InstanceFilter, ranked: seq<Row>, size: nat, n: nat)
    requires Answers(ranked, t, f) && size > 0 && n == PageCount(|ranked|, size)
    ensures EveryReadComplete(Rows(t, f), Newer(), size, n)
      <==> (forall p: nat :: 0 < Border(size, p) < |ranked| ==>
              ranked[Border(size, p) - 1].createdAt != ranked[Border(size, p)].createdAt)
           && (n > 0 ==> !TooFar(size, n))
  {
    NewerIsPreorder();
    AnswerArranges(ranked, t, f);
    Stability.ReadsCompleteIff(ranked, Rows(t, f), Newer(), size, n);
    forall p: nat | 0 < Border(size, p) < |ranked|
      ensures Tied(ranked[Border(size, p) - 1], ranked[Border(size, p)], Newer()) <==>
              ranked[Border(size, p) - 1].createdAt == ranked[Border(size, p)].createdAt
    {
      assert Newer()(ranked[Border(size, p) - 1], ranked[Border(size, p)]);
    }
  }
}
