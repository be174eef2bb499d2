/** The catalogue rules: creation, the merchant and customer views of a
    product, the publish/unpublish state machine, direct stock edits, the
    optimistic (version-guarded) stock adjustment and the product list. */
module ProductService {
  import opened Model
  import opened Seqs
  import opened ProductDao

  /** The ways a catalogue operation can fail. */
  datatype ProductError =
    | Store(cause: DbError)        // forwarded from the table
    | AlreadyPublished
    | AlreadyUnpublished
    | NegativeStock                // a direct stock edit below 0
    | StockLockedWhilePublished    // stock is edited only while off the shelf
    | NotEnoughStock               // a stock adjustment that would go below 0

  /** The merchant-facing view of a row: every column except the id, the
      version and the update time. */
  function ToProductInfo(p: Product): (info: ProductInfo)
    ensures ProductFromInfo(info, p.id, p.version, p.updatedAt) == p
  {
    ProductInfo(p.name, p.category, p.price, p.desc, p.stock, p.picInfo,
                p.dimensions, p.material, p.weight, p.capacity, p.careInstructions, p.status)
  }

  /** The row Create builds from a request, before the table assigns the id. */
  function ProductFromInfo(info: ProductInfo, id: int, version: int, updatedAt: int): Product
  {
    Product(id, info.name, info.category, info.price, info.desc, info.stock, info.picInfo,
            info.dimensions, info.material, info.weight, info.capacity, info.careInstructions,
            info.status, version, updatedAt)
  }

  /** Building a row from a request and viewing it again gives the request back. */
  lemma InfoRoundTrip(info: ProductInfo, id: int, version: int, updatedAt: int)
    ensures ToProductInfo(ProductFromInfo(info, id, version, updatedAt)) == info
  {
  }

  /** The list view of a row. */
  function ToSimplified(p: Product): (s: ProductSimplifiedInfo)
    ensures s.id == p.id && s.name == p.name && s.category == p.category && s.price == p.price
    ensures s.desc == p.desc && s.stock == p.stock && s.picInfo == p.picInfo && s.status == p.status
  {
    ProductSimplifiedInfo(p.id, p.name, p.category, p.price, p.desc, p.stock, p.picInfo, p.status)
  }

  /** Stores a new product under a fresh id; -1 on failure. A new row starts
      at version 0. */
  method Create(products: ProductTable, info: ProductInfo, now: int) returns (id: int, err: Option<DbError>)
    requires products.Valid()
    modifies products
    ensures products.Valid() && products.failing == old(products.failing)
    ensures CreateCall in products.failing ==>
              id == -1 && err == Some(Unavailable) && products.rows == old(products.rows)
    ensures CreateCall !in products.failing ==>
              && err == None && id == old(products.nextId) && id > 0
              && products.rows == old(products.rows) + [ProductFromInfo(info, id, 0, now)]
              && FindProduct(products.rows, id).Some?
              && ToProductInfo(FindProduct(products.rows, id).value) == info
  {
    var newId;
    newId, err := products.CreateProduct(ProductFromInfo(info, 0, 0, 0), now);
    if err.Some? {
      return -1, err;
    }
    InfoRoundTrip(info, newId, 0, now);
    return newId, None;
  }

  /** The merchant view: any product, on the shelf or not. A missing id is
      the table's not-found error, so the answer is never "no product, no
      error". */
  method GetProductByID(products: ProductTable, id: int) returns (r: Result<Option<ProductInfo>, DbError>)
    ensures r != Ok(None)
    ensures r.Err? <==> GetByIdCall in products.failing || FindProduct(products.rows, id).None?
    ensures GetByIdCall !in products.failing && FindProduct(products.rows, id).None? ==> r == Err(RecordNotFound)
    ensures r.Ok? ==> r == Ok(Some(ToProductInfo(FindProduct(products.rows, id).value)))
  {
    var found := products.GetProductByID(id);
    if found.Err? {
      return Err(found.error);
    }
    r := Ok(Some(ToProductInfo(found.value)));
  }

  /** The customer view: like the merchant view, except that a product with
      status 0 comes back as "nothing, no error". Only status 0 is hidden. */
  method GetPublishedProductByID(products: ProductTable, id: int) returns (r: Result<Option<ProductInfo>, DbError>)
    ensures r.Err? <==> GetByIdCall in products.failing || FindProduct(products.rows, id).None?
    ensures GetByIdCall !in products.failing && FindProduct(products.rows, id).None? ==> r == Err(RecordNotFound)
    ensures r == Ok(None) <==>
              && GetByIdCall !in products.failing && FindProduct(products.rows, id).Some?
              && FindProduct(products.rows, id).value.status == ProductStatusUnpublished
    ensures r.Ok? && r.value.Some? ==>
              && r.value.value == ToProductInfo(FindProduct(products.rows, id).value)
              && r.value.value.status != ProductStatusUnpublished
  {
    var found := products.GetProductByID(id);
    if found.Err? {
      return Err(found.error);
    }
    if found.value.status == ProductStatusUnpublished {
      return Ok(None);
    }
    r := Ok(Some(ToProductInfo(found.value)));
  }

  // ---------------------------------------------------------------------
  // Publish / unpublish

  function AlreadyIn(status: int): ProductError
  {
    if status == ProductStatusPublished then AlreadyPublished else AlreadyUnpublished
  }

  /** The outcome of moving product `id` to status `target` (1 to publish,
      0 to unpublish). */
  function StatusChangeOutcome(rows: seq<Product>, failing: set<ProductCall>, id: int, target: int): (r: Option<ProductError>)
    ensures r.None? <==>
              && GetByIdCall !in failing && StatusCall !in failing
              && FindProduct(rows, id).Some? && FindProduct(rows, id).value.status != target
    ensures GetByIdCall !in failing && FindProduct(rows, id).None? ==> r == Some(Store(RecordNotFound))
    ensures GetByIdCall !in failing && FindProduct(rows, id).Some? && FindProduct(rows, id).value.status == target ==>
              r == Some(AlreadyIn(target))
  {
    if GetByIdCall in failing then Some(Store(Unavailable))
    else match FindProduct(rows, id)
      case None => Some(Store(RecordNotFound))
      case Some(p) =>
        if p.status == target then Some(AlreadyIn(target))
        else if StatusCall in failing then Some(Store(Unavailable))
        else None
  }

  /** Shared body of PublishProduct and UnpublishProduct. */
  method ChangeStatus(products: ProductTable, id: int, target: int, now: int) returns (err: Option<ProductError>)
    requires products.Valid()
    modifies products
    ensures products.Valid() && products.failing == old(products.failing) && products.nextId == old(products.nextId)
    ensures err == StatusChangeOutcome(old(products.rows), products.failing, id, target)
    ensures err.Some? ==> products.rows == old(products.rows)
    ensures err.None? ==>
              && products.rows == UpdateWhere(old(products.rows), id, None, SetStatus(target), now)
              && FindProduct(products.rows, id) ==
                 Some(FindProduct(old(products.rows), id).value.(status := target, updatedAt := now))
  {
    var found := products.GetProductByID(id);
    if found.Err? {
      return Some(Store(found.error));
    }
    if found.value.status == target {
      return Some(AlreadyIn(target));
    }
    ghost var before := products.rows;
    UpdateWhereFind(before, products.nextId, id, None, SetStatus(target), now);
    var dbErr := products.UpdateProductStatus(id, target, now);
    if dbErr.Some? {
      return Some(Store(dbErr.value));
    }
    return None;
  }

  /** Puts a product on the shelf; one already there is an error and is not written. */
  method PublishProduct(products: ProductTable, id: int, now: int) returns (err: Option<ProductError>)
    requires products.Valid()
    modifies products
    ensures products.Valid() && products.failing == old(products.failing) && products.nextId == old(products.nextId)
    ensures err == StatusChangeOutcome(old(products.rows), products.failing, id, ProductStatusPublished)
    ensures err.Some? ==> products.rows == old(products.rows)
    ensures err.None? ==>
              && products.rows == UpdateWhere(old(products.rows), id, None, SetStatus(ProductStatusPublished), now)
              && FindProduct(products.rows, id) ==
                 Some(FindProduct(old(products.rows), id).value.(status := ProductStatusPublished, updatedAt := now))
  {
    err := ChangeStatus(products, id, ProductStatusPublished, now);
  }

  /** Takes a product off the shelf; one already off is an error and is not written. */
  method UnpublishProduct(products: ProductTable, id: int, now: int) returns (err: Option<ProductError>)
    requires products.Valid()
    modifies products
    ensures products.Valid() && products.failing == old(products.failing) && products.nextId == old(products.nextId)
    ensures err == StatusChangeOutcome(old(products.rows), products.failing, id, ProductStatusUnpublished)
    ensures err.Some? ==> products.rows == old(products.rows)
    ensures err.None? ==>
              && products.rows == UpdateWhere(old(products.rows), id, None, SetStatus(ProductStatusUnpublished), now)
              && FindProduct(products.rows, id) ==
                 Some(FindProduct(old(products.rows), id).value.(status := ProductStatusUnpublished, updatedAt := now))
  {
    err := ChangeStatus(products, id, ProductStatusUnpublished, now);
  }

  /** Publishing an off-shelf product succeeds, a second publish is then
      refused as already published, and unpublishing succeeds. */
  lemma PublishStateMachine(rows: seq<Product>, nextId: int, id: int, t1: int)
    requires ProductRowsKeyed(rows, nextId)
    requires FindProduct(rows, id).Some? && FindProduct(rows, id).value.status == ProductStatusUnpublished
    ensures StatusChangeOutcome(rows, {}, id, ProductStatusPublished).None?
    ensures var r1 := UpdateWhere(rows, id, None, SetStatus(ProductStatusPublished), t1);
            && StatusChangeOutcome(r1, {}, id, ProductStatusPublished) == Some(AlreadyPublished)
            && StatusChangeOutcome(r1, {}, id, ProductStatusUnpublished).None?
  {
    UpdateWhereFind(rows, nextId, id, None, SetStatus(ProductStatusPublished), t1);
  }

  /** Publishing an off-shelf product and unpublishing it again restores the
      table except for the row's update time: status, stock and every other
      row are back where they were. */
  lemma PublishUnpublishRoundTrip(rows: seq<Product>, nextId: int, id: int, t1: int, t2: int)
    requires ProductRowsKeyed(rows, nextId)
    requires FindProduct(rows, id).Some? && FindProduct(rows, id).value.status == ProductStatusUnpublished
    ensures var r1 := UpdateWhere(rows, id, None, SetStatus(ProductStatusPublished), t1);
            var r2 := UpdateWhere(r1, id, None, SetStatus(ProductStatusUnpublished), t2);
            && |r2| == |rows|
            && (forall i :: 0 <= i < |rows| ==>
                  r2[i] == if rows[i].id == id then rows[i].(updatedAt := t2) else rows[i])
            && FindProduct(r2, id) == Some(FindProduct(rows, id).value.(updatedAt := t2))
  {
    var r1 := UpdateWhere(rows, id, None, SetStatus(ProductStatusPublished), t1);
    var r2 := UpdateWhere(r1, id, None, SetStatus(ProductStatusUnpublished), t2);
    var p := FindProduct(rows, id).value;
    forall i | 0 <= i < |rows|
      ensures r2[i] == if rows[i].id == id then rows[i].(updatedAt := t2) else rows[i]
    {
      if rows[i].id == id {
        FindProductKeyed(rows, nextId, i);
        assert rows[i] == p;
        assert r1[i] == Assign(rows[i], SetStatus(ProductStatusPublished), t1);
        assert r2[i] == Assign(r1[i], SetStatus(ProductStatusUnpublished), t2);
      }
    }
    UpdateWhereFind(rows, nextId, id, None, SetStatus(ProductStatusPublished), t1);
    UpdateWhereFind(r1, nextId, id, None, SetStatus(ProductStatusUnpublished), t2);
  }

  // ---------------------------------------------------------------------
  // Stock

  /** The outcome of a direct stock edit: a negative value is refused before
      any lookup, then the product must exist and be off the shelf. */
  function StockChangeOutcome(rows: seq<Product>, failing: set<ProductCall>, id: int, newStock: int): (r: Option<ProductError>)
    ensures newStock < 0 ==> r == Some(NegativeStock)
    ensures r.None? <==>
              && newStock >= 0 && GetByIdCall !in failing && StockCall !in failing
              && FindProduct(rows, id).Some? && FindProduct(rows, id).value.status == ProductStatusUnpublished
    ensures newStock >= 0 && GetByIdCall !in failing && FindProduct(rows, id).Some?
            && FindProduct(rows, id).value.status != ProductStatusUnpublished ==>
              r == Some(StockLockedWhilePublished)
  {
    if newStock < 0 then Some(NegativeStock)
    else if GetByIdCall in failing then Some(Store(Unavailable))
    else match FindProduct(rows, id)
      case None => Some(Store(RecordNotFound))
      case Some(p) =>
        if p.status != ProductStatusUnpublished then Some(StockLockedWhilePublished)
        else if StockCall in failing then Some(Store(Unavailable))
        else None
  }

  /** Sets the stock of an off-shelf product; 0 is allowed. */
  method UpdateProductStock(products: ProductTable, id: int, newStock: int, now: int) returns (err: Option<ProductError>)
    requires products.Valid()
    modifies products
    ensures products.Valid() && products.failing == old(products.failing) && products.nextId == old(products.nextId)
    ensures err == StockChangeOutcome(old(products.rows), products.failing, id, newStock)
    ensures err.Some? ==> products.rows == old(products.rows)
    ensures err.None? ==>
              && products.rows == UpdateWhere(old(products.rows), id, None, SetStock(newStock), now)
              && FindProduct(products.rows, id) ==
                 Some(FindProduct(old(products.rows), id).value.(stock := newStock, updatedAt := now))
    ensures StockNonNegative(old(products.rows)) ==> StockNonNegative(products.rows)
  {
    if newStock < 0 {
      return Some(NegativeStock);
    }
    var found := products.GetProductByID(id);
    if found.Err? {
      return Some(Store(found.error));
    }
    if found.value.status != ProductStatusUnpublished {
      return Some(StockLockedWhilePublished);
    }
    ghost var before := products.rows;
    UpdateWhereFind(before, products.nextId, id, None, SetStock(newStock), now);
    if StockNonNegative(before) {
      StockStaysNonNegative(before, id, None, SetStock(newStock), now);
    }
    var dbErr := products.UpdateProductStock(id, newStock, now);
    if dbErr.Some? {
      return Some(Store(dbErr.value));
    }
    return None;
  }

  /** Adds `delta` (possibly negative) to the stock of product `id`: reads
      the row, refuses a result below 0 without writing, and otherwise
      writes the new stock guarded by the version it read. */
  method UpdateStockWithCAS(products: ProductTable, id: int, delta: int, now: int) returns (err: Option<ProductError>)
    requires products.Valid()
    modifies products
    ensures products.Valid() && products.failing == old(products.failing) && products.nextId == old(products.nextId)
    ensures GetByIdCall in products.failing ==> err == Some(Store(Unavailable)) && products.rows == old(products.rows)
    ensures GetByIdCall !in products.failing && FindProduct(old(products.rows), id).None? ==>
              err == Some(Store(RecordNotFound)) && products.rows == old(products.rows)
    ensures GetByIdCall !in products.failing && FindProduct(old(products.rows), id).Some? ==>
              var p := FindProduct(old(products.rows), id).value;
              && (p.stock + delta < 0 ==> err == Some(NotEnoughStock) && products.rows == old(products.rows))
              && (p.stock + delta >= 0 && CasCall in products.failing ==>
                    err == Some(Store(Unavailable)) && products.rows == old(products.rows))
              && (p.stock + delta >= 0 && CasCall !in products.failing ==>
                    && err == None
                    && products.rows == UpdateWhere(old(products.rows), id, Some(p.version), SetStock(p.stock + delta), now))
    ensures err.None? ==>
              && FindProduct(products.rows, id).Some?
              && FindProduct(products.rows, id).value.stock == FindProduct(old(products.rows), id).value.stock + delta
              && FindProduct(products.rows, id).value.stock >= 0
    ensures StockNonNegative(old(products.rows)) ==> StockNonNegative(products.rows)
  {
    var found := products.GetProductByID(id);
    if found.Err? {
      return Some(Store(found.error));
    }
    var p := found.value;
    if p.stock + delta < 0 {
      return Some(NotEnoughStock);
    }
    var newStock := p.stock + delta;
    ghost var before := products.rows;
    UpdateWhereFind(before, products.nextId, id, Some(p.version), SetStock(newStock), now);
    if StockNonNegative(before) {
      StockStaysNonNegative(before, id, Some(p.version), SetStock(newStock), now);
    }
    var dbErr := products.UpdateStockWithCAS(id, p.version, newStock, now);
    if dbErr.Some? {
      return Some(Store(dbErr.value));
    }
    return None;
  }

  // ---------------------------------------------------------------------
  // Listing

  /** One page of the list view. `page` and `ordered` are the rows and the
      admissible ordering the table answered with; on a failure the count
      is -1 and the list empty. */
  method GetProductList(products: ProductTable, q: ListProductQuery)
    returns (list: seq<ProductSimplifiedInfo>, count: int, err: Option<DbError>, ghost page: seq<Product>, ghost ordered: seq<Product>)
    ensures err.Some? <==> ListCall in products.failing
    ensures err.Some? ==> list == [] && count == -1
    ensures err.None? ==>
              && count == |Matching(products.rows, q)|
              && multiset(ordered) == multiset(Matching(products.rows, q))
              && OrderedBy(ordered, q.orderBy == 0)
              && page == Window(ordered, q.offset, if q.limit == 0 then 10 else q.limit)
              && |list| == |page|
              && (forall i :: 0 <= i < |list| ==> list[i] == ToSimplified(page[i]))
    ensures err.None? ==> forall i :: 0 <= i < |list| ==>
              && (q.keyword != "" ==> Contains(list[i].name, q.keyword))
              && (q.category != "" ==> list[i].category == q.category)
              && (q.isCustomer ==> list[i].status == ProductStatusPublished)
  {
    var r;
    r, ordered := products.ListProduct(q);
    if r.Err? {
      return [], -1, Some(r.error), [], [];
    }
    page := r.value.products;
    var rows := r.value.products;
    var a := new ProductSimplifiedInfo[|rows|];
    for k := 0 to |rows|
      invariant forall i :: 0 <= i < k ==> a[i] == ToSimplified(rows[i])
    {
      a[k] := ToSimplified(rows[k]);
    }
    list, count, err := a[..], r.value.total, None;
    forall i | 0 <= i < |list| ensures Matches(q, page[i]) {
    }
  }
}
