/** The ListProduct call of internal/service/product.go: filter, repository and mask together. */
module ProductService {
  import opened Orders
  import opened Booking
  import opened Paging
  import opened Products
  import opened FieldMask

  datatype Reply = Reply(products: seq<Message>, page: Uint32, pageSize: Uint32, total: int)

  function StatusToInt32(status: string): int {
    if status == "ENABLED" then 1 else 0
  }

  function ToProto(p: Product): Message {
    Message(p.id, p.name, p.description, StatusToInt32(p.status), p.price, p.spec)
  }

  function Replied(rows: seq<ListRow>, mask: Option<seq<string>>): seq<Message> {
    seq(|rows|, i requires 0 <= i < |rows| => Project(ToProto(ToProduct(rows[i])), KeptUnder(mask)))
  }

  /** What a reply without a mask says of a row, column by column: an enabled product is shown as 1, any other as
      0. A mask then takes fields away, as `FieldMask.MaskSays` tells. */
  lemma MessageIs(r: ListRow, mask: Option<seq<string>>)
    requires mask.None? || mask.value == []
    ensures |Replied([r], mask)| == 1
    ensures var m := Replied([r], mask)[0];
            && m.id == r.id && m.name == r.name && m.description == r.description && m.price == r.price
            && m.status == (if r.status == "ENABLED" then 1 else 0) && m.spec.Some?
            && m.spec.value.cpu == r.specCpu && m.spec.value.memory == r.specMemory && m.spec.value.gpu == r.specGpu
            && m.spec.value.image == r.specImage && m.spec.value.configJson == r.specConfigJson
  {
    assert KeptUnder(mask).fields == FIELDS;
  }

  /** Under a mask, the message of a row is what the mask leaves of it, and rows keep their order. */
  lemma RepliesAreMasked(rows: seq<ListRow>, mask: Option<seq<string>>, i: nat)
    requires i < |rows|
    ensures |Replied(rows, mask)| == |rows|
    ensures Some(Replied(rows, mask)[i]) == Masked(Some(Replied([rows[i]], None)[0]), mask)
  {
    MaskSays(ToProto(ToProduct(rows[i])), [""]);
    assert Some(Project(ToProto(ToProduct(rows[i])), KeptUnder(None))) == Masked(Some(ToProto(ToProduct(rows[i]))), None);
  }

  /** None is an error, and only the database can cause one. */
  method ListProduct(repo: ProductRepo, req: Request, mask: Option<seq<string>>, ghost o: Ordering,
                     ranked: seq<ListRow>,
                     countFails: bool, scanFails: bool)
    returns (r: Option<Reply>)
    requires BuildProductOrder(FilterOf(req).sortBy, FilterOf(req).sortOrder) == Some(o)
    requires Answers(ranked, repo.rows, FilterOf(req), o)
    ensures r.Some? <==> !countFails && !scanFails
    ensures r.Some? ==>
              r.value == Reply(Replied(Page(ranked, FilterOf(req).pageSize, FilterOf(req).page), mask),
                               FilterOf(req).page, FilterOf(req).pageSize, |Matching(repo.rows, FilterOf(req))|)
  {
    var filter := BuildFilter(req);
    var listed := repo.List(filter, ranked, countFails, scanFails);
    if listed.None? {
      return None;
    }
    var (products, total) := listed.value;
    var result: seq<Message> := [];
    for i := 0 to |products|
      invariant |result| == i
      invariant forall j :: 0 <= j < i ==> result[j] == Project(ToProto(products[j]), KeptUnder(mask))
    {
      var masked := ApplyProductMask(Some(ToProto(products[i])), mask);
      result := result + [masked.value];
    }
    r := Some(Reply(result, filter.page, filter.pageSize, total));
  }
}
