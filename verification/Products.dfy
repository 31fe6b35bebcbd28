/** Listing products: `ListProduct`'s filter in internal/service/product.go and `List` in
    internal/data/product.go. */
module Products {
  import opened Orders
  import opened Booking
  import opened Paging
  import opened Stability

  /** v1.ListProductReq without the mask. Enumerations of the wire format may hold any number. */
  datatype Request = Request(minPrice: int, maxPrice: int, sortBy: int, sortOrder: int, page: Uint32, pageSize: Uint32)

  /** biz.ProductFilter. */
  datatype Filter = Filter(minPrice: Option<int>, maxPrice: Option<int>, sortBy: int, sortOrder: int,
                           page: Uint32, pageSize: Uint32)

  const UNSPECIFIED := 0
  const SORT_BY_PRICE := 1
  const SORT_BY_CPU := 2
  const SORT_BY_MEMORY := 3
  const SORT_BY_GPU := 4
  const ASC := 1
  const DESC := 2

  function MapSortBy(sortBy: int): int {
    if sortBy == SORT_BY_PRICE || sortBy == SORT_BY_CPU || sortBy == SORT_BY_MEMORY || sortBy == SORT_BY_GPU
    then sortBy else UNSPECIFIED
  }

  function MapSortOrder(order: int): int {
    if order == ASC || order == DESC then order else UNSPECIFIED
  }

  function Bound(price: int): Option<int> {
    if price > 0 then Some(price) else None
  }

  function FilterOf(req: Request): Filter {
    Filter(Bound(req.minPrice), Bound(req.maxPrice), MapSortBy(req.sortBy), MapSortOrder(req.sortOrder),
           OrElse(req.page, 1), OrElse(req.pageSize, 20))
  }

  method BuildFilter(req: Request) returns (filter: Filter)
    ensures filter == FilterOf(req)
  {
    filter := Filter(None, None, MapSortBy(req.sortBy), MapSortOrder(req.sortOrder), 0, 0);
    if req.minPrice > 0 {
      filter := filter.(minPrice := Some(req.minPrice));
    }
    if req.maxPrice > 0 {
      filter := filter.(maxPrice := Some(req.maxPrice));
    }
    var page := req.page;
    if page == 0 {
      page := 1;
    }
    var pageSize := req.pageSize;
    if pageSize == 0 {
      pageSize := 20;
    }
    filter := filter.(page := page, pageSize := pageSize);
  }

  // ---------------------------------------------------------------------------------------------
  // Ordering
  // ---------------------------------------------------------------------------------------------

  datatype Column = Price | Cpu | Memory | Gpu

  /** What follows ORDER BY; without a column the database is free. */
  datatype Ordering = Unordered | By(column: Column, descending: bool)

  /** None is an error. */
  function BuildProductOrder(sortBy: int, order: int): Option<Ordering> {
    if sortBy == UNSPECIFIED then Some(Unordered)
    else if !(SORT_BY_PRICE <= sortBy <= SORT_BY_GPU) then None
    else if order == ASC || order == UNSPECIFIED then Some(By(ColumnOf(sortBy), false))
    else if order == DESC then Some(By(ColumnOf(sortBy), true))
    else None
  }

  function ColumnOf(sortBy: int): Column {
    if sortBy == SORT_BY_PRICE then Price
    else if sortBy == SORT_BY_CPU then Cpu
    else if sortBy == SORT_BY_MEMORY then Memory
    else Gpu
  }

  /** The error branches are dead for the filters the service builds, whatever numbers the request holds:
      a known column is sorted by, downwards only if that was asked for, and anything else by nothing. */
  lemma RequestsNeverFail(req: Request)
    ensures BuildProductOrder(FilterOf(req).sortBy, FilterOf(req).sortOrder)
         == Some(if req.sortBy == 1 then By(Price, req.sortOrder == 2)
                 else if req.sortBy == 2 then By(Cpu, req.sortOrder == 2)
                 else if req.sortBy == 3 then By(Memory, req.sortOrder == 2)
                 else if req.sortBy == 4 then By(Gpu, req.sortOrder == 2)
                 else Unordered)
    ensures FilterOf(req).page == (if req.page == 0 then 1 else req.page)
    ensures FilterOf(req).pageSize == (if req.pageSize == 0 then 20 else req.pageSize)
  {}

  /** Which filters do fail, if some other caller builds them. */
  lemma OrderingFailsIff(sortBy: int, order: int)
    ensures BuildProductOrder(sortBy, order).None?
      <==> sortBy != UNSPECIFIED && (MapSortBy(sortBy) != sortBy || MapSortOrder(order) != order)
  {}

  /** productListRow, a product joined with its specification. */
  datatype ListRow = ListRow(
    id: int, name: string, description: string, status: string, price: int, specId: int,
    specCpu: int, specMemory: int, specGpu: int, specImage: string, specConfigJson: string)

  function Key(r: ListRow, c: Column): int {
    match c
    case Price => r.price
    case Cpu => r.specCpu
    case Memory => r.specMemory
    case Gpu => r.specGpu
  }

  predicate Before(a: ListRow, b: ListRow, o: Ordering) {
    match o
    case Unordered => true
    case By(c, descending) => if descending then Key(a, c) >= Key(b, c) else Key(a, c) <= Key(b, c)
  }

  function Order(o: Ordering): (ListRow, ListRow) -> bool {
    (a, b) => Before(a, b, o)
  }

  // ---------------------------------------------------------------------------------------------
  // The query
  // ---------------------------------------------------------------------------------------------

  predicate InRange(r: ListRow, f: Filter) {
    && (f.minPrice.Some? ==> f.minPrice.value <= r.price)
    && (f.maxPrice.Some? ==> r.price <= f.maxPrice.value)
  }

  function Matching(rows: set<ListRow>, f: Filter): set<ListRow> {
    set r | r in rows && InRange(r, f)
  }

  /** `ranked` is an order in which the database may hold the answer to the whole query: every
      matching row once, sorted as asked, rows that compare equal in any order. */
  ghost predicate Answers(ranked: seq<ListRow>, rows: set<ListRow>, f: Filter, o: Ordering) {
    Arranges(ranked, Matching(rows, f), Order(o))
  }

  function ToProduct(r: ListRow): Product {
    Product(r.id, r.name, r.description, r.status, r.price, r.specId,
            Some(ProductSpec(r.specCpu, r.specMemory, r.specGpu, r.specImage, r.specConfigJson)))
  }

  function ToProducts(rows: seq<ListRow>): seq<Product> {
    seq(|rows|, i requires 0 <= i < |rows| => ToProduct(rows[i]))
  }

  /** The rows one call returns: a page size of 0 asks for everything. */
  function Listed(ranked: seq<ListRow>, f: Filter): seq<ListRow> {
    if f.pageSize > 0 then Page(ranked, f.pageSize, OrElse(f.page, 1)) else ranked
  }

  /** Which column an answer is sorted by, and which way: the numbers are those of the wire format. */
  lemma AnswerIsSorted(rows: set<ListRow>, req: Request, o: Ordering, ranked: seq<ListRow>, i: nat, j: nat)
    requires BuildProductOrder(FilterOf(req).sortBy, FilterOf(req).sortOrder) == Some(o)
    requires Answers(ranked, rows, FilterOf(req), o) && i < j < |ranked|
    ensures var up := req.sortOrder != 2;
            && (req.sortBy == 1 ==> if up then ranked[i].price <= ranked[j].price else ranked[i].price >= ranked[j].price)
            && (req.sortBy == 2 ==>
                  if up then ranked[i].specCpu <= ranked[j].specCpu else ranked[i].specCpu >= ranked[j].specCpu)
            && (req.sortBy == 3 ==>
                  if up then ranked[i].specMemory <= ranked[j].specMemory else ranked[i].specMemory >= ranked[j].specMemory)
            && (req.sortBy == 4 ==>
                  if up then ranked[i].specGpu <= ranked[j].specGpu else ranked[i].specGpu >= ranked[j].specGpu)
  {
    RequestsNeverFail(req);
    assert Order(o)(ranked[i], ranked[j]);
  }

  /** The product of a row, column by column. */
  lemma ProductIs(r: ListRow)
    ensures var p := ToProduct(r);
            && p.id == r.id && p.name == r.name && p.description == r.description && p.status == r.status
            && p.price == r.price && p.specId == r.specId && p.spec.Some?
            && p.spec.value.cpu == r.specCpu && p.spec.value.memory == r.specMemory && p.spec.value.gpu == r.specGpu
            && p.spec.value.image == r.specImage && p.spec.value.configJson == r.specConfigJson
  {}

  /** Without a page size the whole answer is listed, whatever the page. */
  lemma NoSizeListsAll(ranked: seq<ListRow>, f: Filter)
    requires f.pageSize == 0
    ensures Listed(ranked, f) == ranked
  {}

  class ProductRepo {
    var rows: set<ListRow>

    constructor ()
      ensures rows == {}
    {
      rows := {};
    }

    /** `ranked` is the database's arrangement; None is an error. */
    method List(filter: Filter, ranked: seq<ListRow>, countFails: bool, scanFails: bool)
      returns (r: Option<(seq<Product>, int)>)
      requires var o := BuildProductOrder(filter.sortBy, filter.sortOrder);
               o.Some? ==> Answers(ranked, rows, filter, o.value)
      ensures r.Some? <==> !countFails && !scanFails && BuildProductOrder(filter.sortBy, filter.sortOrder).Some?
      ensures r.Some? ==> r.value.0 == ToProducts(Listed(ranked, filter)) && r.value.1 == |Matching(rows, filter)|
    {
      if countFails {
        return None;
      }
      var total := |Matching(rows, filter)|;
      var orderBy := BuildProductOrder(filter.sortBy, filter.sortOrder);
      if orderBy.None? {
        return None;
      }
      var found := ranked;
      if filter.pageSize > 0 {
        var page := filter.page;
        if page == 0 {
          page := 1;
        }
        var offset := filter.pageSize * (page - 1) % TWO32;
        found := Window(ranked, offset, filter.pageSize);
      }
      if scanFails {
        return None;
      }
      var products: seq<Product> := [];
      for i := 0 to |found|
        invariant products == ToProducts(found[..i])
      {
        var row := found[i];
        products := products +
        [Product(row.id, row.name, row.description, row.status, row.price, row.specId,
                 Some(ProductSpec(row.specCpu, row.specMemory, row.specGpu, row.specImage, row.specConfigJson)))];
      }
      assert found[..|found|] == found;
      r := Some((products, total));
    }
  }

  // ---------------------------------------------------------------------------------------------
  // What a reader of all pages sees
  // ---------------------------------------------------------------------------------------------

  /** What requests for the first n pages return, one after the other. */
  function Browsed(ranked: seq<ListRow>, req: Request, n: nat): seq<Product> {
    if n == 0 then []
    else Browsed(ranked, req, n - 1) + ToProducts(Listed(ranked, FilterOf(req.(page := n % TWO32))))
  }

  lemma Together(a: seq<ListRow>, b: seq<ListRow>)
    ensures ToProducts(a) + ToProducts(b) == ToProducts(a + b)
  {}

  lemma {:induction false} BrowsedIsReading(ranked: seq<ListRow>, req: Request, n: nat)
    ensures Browsed(ranked, req, n) == ToProducts(Reading(ranked, FilterOf(req).pageSize, n))
  {
    if n > 0 {
      var size := FilterOf(req).pageSize;
      BrowsedIsReading(ranked, req, n - 1);
      Together(Reading(ranked, size, n - 1), Page(ranked, size, Asked(n)));
    }
  }

  /** Rows that differ give products that differ. */
  lemma SameProducts(a: seq<ListRow>, b: seq<ListRow>)
    requires ToProducts(a) == ToProducts(b)
    ensures a == b
  {
    assert |a| == |b|;
    forall i | 0 <= i < |a| ensures a[i] == b[i] {
      assert ToProducts(a)[i] == ToProduct(a[i]) && ToProducts(b)[i] == ToProduct(b[i]);
    }
  }

  /** A reader that asks for every page of an unchanging answer gets exactly the products in the price
      range, each once and sorted as requested, and `total` of them, if and only if the number of the last
      page and its offset fit in 32 bits. */
  lemma PagesTileIff(rows: set<ListRow>, req: Request, o: Ordering, ranked: seq<ListRow>, size: nat, n: nat)
    requires BuildProductOrder(FilterOf(req).sortBy, FilterOf(req).sortOrder) == Some(o)
    requires Answers(ranked, rows, FilterOf(req), o)
    requires size == FilterOf(req).pageSize && n == PageCount(|ranked|, size)
    ensures |ranked| == |Matching(rows, FilterOf(req))|
    ensures Browsed(ranked, req, n) == ToProducts(ranked) <==> n == 0 || (size * (n - 1) < TWO32 && n < TWO32)
  {
    CountRows(ranked);
    BrowsedIsReading(ranked, req, n);
    if ranked != [] {
      Paging.PagesTileIff(ranked, size, n);
      if Browsed(ranked, req, n) == ToProducts(ranked) {
        SameProducts(Reading(ranked, size, n), ranked);
      }
    }
  }

  /** A price bound that is not positive is no bound. */
  lemma MatchingIff(rows: set<ListRow>, req: Request, r: ListRow)
    requires r in rows
    ensures r in Matching(rows, FilterOf(req))
      <==> (req.minPrice <= 0 || req.minPrice <= r.price) && (req.maxPrice <= 0 || r.price <= req.maxPrice)
  {}

  lemma OrderIsPreorder(o: Ordering)
    ensures Preorder(Order(o))
  {}

  /** Neighbouring rows on two sides of a page border. */
  predicate KeysDiffer(ranked: seq<ListRow>, o: Ordering, i: nat)
    requires 0 < i < |ranked|
  {
    o.By? && Key(ranked[i - 1], o.column) != Key(ranked[i], o.column)
  }

  /** And when the database may arrange rows with equal keys anew for each page: a reader of all pages is sure
      to see every product in the price range once exactly if, moreover, the rows on the two sides of every page
      border have different keys; without a sort column, exactly if everything fits on one page. */
  lemma ReadsCompleteIff(rows: set<ListRow>, f: Filter, o: Ordering, ranked: seq<ListRow>, size: nat, n: nat)
    requires Answers(ranked, rows, f, o) && size > 0 && n == PageCount(|ranked|, size)
    ensures EveryReadComplete(Matching(rows, f), Order(o), size, n)
      <==> (forall p: nat :: 0 < Border(size, p) < |ranked| ==> KeysDiffer(ranked, o, Border(size, p)))
           && (n > 0 ==> !TooFar(size, n))
  {
    OrderIsPreorder(o);
    Stability.ReadsCompleteIff(ranked, Matching(rows, f), Order(o), size, n);
    forall p: nat | 0 < Border(size, p) < |ranked|
      ensures Tied(ranked[Border(size, p) - 1], ranked[Border(size, p)], Order(o)) <==>
              !KeysDiffer(ranked, o, Border(size, p))
    {
    }
  }
}
