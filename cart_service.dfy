/** The cart engine: add/update/delete of cart lines validated against the
    product catalogue, the cart view and the price estimate. */
module CartService {
  import opened Model
  import opened Seqs
  import opened ProductDao
  import opened CartItemDao

  const ProductStatusOnline := 1

  /** Cents: free shipping above $300.00, otherwise a flat $8.00. */
  const FreeShipPrice := 30000
  const ShipPrice := 800

  /** CartItemDetail.Status. */
  const CartItemStatusNormal := 1
  const CartItemStatusOutOfStock := 2

  /** The business errors of the cart, with the codes the API reports. */
  datatype CartError = ProductNotExist | InsufficientStock | DatabaseError | CartItemNotExist
  {
    function Code(): int
    {
      match this
      case ProductNotExist => -1
      case InsufficientStock => -2
      case DatabaseError => -3
      case CartItemNotExist => -10
    }
  }

  /** One line of the cart view, enriched with the live product. */
  datatype CartItemDetail = CartItemDetail(
    id: int,
    productInfo: ProductSimplifiedInfo,
    quantity: int,
    totalPrice: int,
    status: int,
    selected: bool)

  datatype CartList = CartList(cartItems: seq<CartItemDetail>, selectedItemCount: int, selectedPrice: int)

  datatype PriceEstimate = PriceEstimate(productPrice: int, shippingPrice: int, tax: int, total: int)

  /** The request body of add/update; AddItem rewrites it in place. */
  class CartItemBasic {
    var id: int
    var userId: int
    var productId: int
    var quantity: int
    var selected: bool

    constructor (id: int, userId: int, productId: int, quantity: int, selected: bool)
      ensures this.id == id && this.userId == userId && this.productId == productId
      ensures this.quantity == quantity && this.selected == selected
    {
      this.id := id;
      this.userId := userId;
      this.productId := productId;
      this.quantity := quantity;
      this.selected := selected;
    }
  }

  // ---------------------------------------------------------------------
  // Pricing

  /** 9% of the subtotal with Go's integer division, which truncates toward zero. */
  function TaxPrice(productPrice: int): (tax: int)
    ensures productPrice >= 0 ==> 0 <= tax && 100 * tax <= 9 * productPrice < 100 * tax + 100
    ensures productPrice < 0 ==> tax <= 0 && 100 * tax - 100 < 9 * productPrice <= 100 * tax
  {
    if productPrice >= 0 then productPrice * 9 / 100 else -((-productPrice * 9) / 100)
  }

  function ShipmentPrice(productPrice: int): (fee: int)
    ensures fee == 0 <==> productPrice > FreeShipPrice
    ensures fee == 0 || fee == ShipPrice
  {
    if productPrice > FreeShipPrice then 0 else ShipPrice
  }

  /** The four figures EstimatePrice derives from a subtotal. */
  function Estimate(productPrice: int): (e: PriceEstimate)
    ensures e.productPrice == productPrice
    ensures e.total == e.productPrice + e.shippingPrice + e.tax
    ensures e.shippingPrice == (if productPrice > FreeShipPrice then 0 else ShipPrice)
    ensures productPrice >= 0 ==> 0 <= e.tax && 100 * e.tax <= 9 * productPrice < 100 * e.tax + 100
    ensures productPrice < 0 ==> e.tax <= 0 && 100 * e.tax - 100 < 9 * productPrice <= 100 * e.tax
    ensures productPrice == 0 ==> e == PriceEstimate(0, ShipPrice, 0, ShipPrice)
  {
    var ship := ShipmentPrice(productPrice);
    var tax := TaxPrice(productPrice);
    PriceEstimate(productPrice, ship, tax, ship + tax + productPrice)
  }

  // ---------------------------------------------------------------------
  // Cart view

  function SelectStatusOf(selected: bool): int
  {
    if selected then CartItemStatusSelected else CartItemStatusUnselected
  }

  function BuildCartItemDetail(product: Product, item: CartItem): (d: CartItemDetail)
    ensures d.id == item.id && d.quantity == item.quantity
    ensures d.totalPrice == product.price * item.quantity
    ensures d.status == CartItemStatusOutOfStock <==> item.quantity > product.stock
    ensures d.status == CartItemStatusNormal || d.status == CartItemStatusOutOfStock
    ensures d.selected <==> item.selectStatus == CartItemStatusSelected
    ensures d.productInfo.id == product.id && d.productInfo.name == product.name
    ensures d.productInfo.price == product.price && d.productInfo.stock == product.stock
    ensures d.productInfo.category == product.category && d.productInfo.picInfo == product.picInfo
    ensures d.productInfo.desc == "" && d.productInfo.status == 0
  {
    CartItemDetail(
      item.id,
      ProductSimplifiedInfo(product.id, product.name, product.category, product.price, "", product.stock, product.picInfo, 0),
      item.quantity,
      product.price * item.quantity,
      if item.quantity > product.stock then CartItemStatusOutOfStock else CartItemStatusNormal,
      item.selectStatus == CartItemStatusSelected)
  }

  function UserQuery(userId: int): CartItem { CartItem(0, userId, 0, 0, 0) }

  function SelectedQuery(userId: int): CartItem { CartItem(0, userId, 0, 0, CartItemStatusSelected) }

  function UserProductQuery(userId: int, productId: int): CartItem { CartItem(0, userId, productId, 0, 0) }

  /** The rows GetCartItems and GetCartSelectedItemCnt read. */
  function UserRows(rows: seq<CartItem>, userId: int): seq<CartItem>
  {
    QueryResult(rows, UserQuery(userId))
  }

  /** The rows EstimatePrice reads. */
  function SelectedRows(rows: seq<CartItem>, userId: int): seq<CartItem>
  {
    QueryResult(rows, SelectedQuery(userId))
  }

  function ProductIdsOf(rows: seq<CartItem>): (ids: seq<int>)
    ensures |ids| == |rows|
    ensures forall i :: 0 <= i < |rows| ==> ids[i] == rows[i].productId
  {
    if rows == [] then [] else ProductIdsOf(rows[..|rows| - 1]) + [rows[|rows| - 1].productId]
  }

  /** `productId2Item`: each product id maps to the LAST row carrying it. */
  function IndexByProduct(rows: seq<CartItem>): (m: map<int, CartItem>)
    ensures forall k :: k in m ==> m[k] in rows && m[k].productId == k
    ensures forall i :: 0 <= i < |rows| ==> rows[i].productId in m
  {
    if rows == [] then map[]
    else
      var init := IndexByProduct(rows[..|rows| - 1]);
      assert forall i :: 0 <= i < |rows| - 1 ==> rows[..|rows| - 1][i] == rows[i];
      init[rows[|rows| - 1].productId := rows[|rows| - 1]]
  }

  /** The detail entries built while walking the fetched products in order. */
  function CartLines(fetched: seq<Product>, index: map<int, CartItem>): seq<CartItemDetail>
  {
    if fetched == [] then []
    else
      var init := CartLines(fetched[..|fetched| - 1], index);
      var p := fetched[|fetched| - 1];
      if p.status == ProductStatusOnline && p.id in index then init + [BuildCartItemDetail(p, index[p.id])]
      else init
  }

  /** The ids of fetched products that are not on the shelf. */
  function StaleIds(fetched: seq<Product>): seq<int>
  {
    if fetched == [] then []
    else
      var p := fetched[|fetched| - 1];
      StaleIds(fetched[..|fetched| - 1]) + (if p.status != ProductStatusOnline then [p.id] else [])
  }

  function SelectedCount(lines: seq<CartItemDetail>): int
  {
    if lines == [] then 0
    else SelectedCount(lines[..|lines| - 1]) + (if lines[|lines| - 1].selected then 1 else 0)
  }

  function SelectedPrice(lines: seq<CartItemDetail>): int
  {
    if lines == [] then 0
    else SelectedPrice(lines[..|lines| - 1]) + (if lines[|lines| - 1].selected then lines[|lines| - 1].totalPrice else 0)
  }

  /** EstimatePrice's subtotal: price x quantity of every selected line whose
      fetched product is on the shelf. */
  function Subtotal(fetched: seq<Product>, index: map<int, CartItem>): int
  {
    if fetched == [] then 0
    else Subtotal(fetched[..|fetched| - 1], index) + SubtotalTerm(fetched[|fetched| - 1], index)
  }

  /** What one fetched product adds to the subtotal. */
  function SubtotalTerm(p: Product, index: map<int, CartItem>): int
  {
    if p.status == ProductStatusOnline && p.id in index && index[p.id].selectStatus == CartItemStatusSelected
    then p.price * index[p.id].quantity
    else 0
  }

  ghost predicate SortedById(s: seq<CartItemDetail>)
  {
    forall i, j :: 0 <= i < j < |s| ==> s[i].id <= s[j].id
  }

  /** `sort.Slice(ret.CartItems, by ID)`, in place. */
  method SortById(a: array<CartItemDetail>)
    modifies a
    ensures SortedById(a[..])
    ensures multiset(a[..]) == multiset(old(a[..]))
  {
    var i := 0;
    while i < a.Length
      invariant 0 <= i <= a.Length
      invariant forall k, l :: 0 <= k < l < i ==> a[k].id <= a[l].id
      invariant multiset(a[..]) == multiset(old(a[..]))
    {
      InsertAt(a, i);
      i := i + 1;
    }
  }

  /** Moves `a[i]` down into the sorted prefix `a[..i]`. */
  method InsertAt(a: array<CartItemDetail>, i: int)
    requires 0 <= i < a.Length
    requires forall k, l :: 0 <= k < l < i ==> a[k].id <= a[l].id
    modifies a
    ensures forall k, l :: 0 <= k < l <= i ==> a[k].id <= a[l].id
    ensures multiset(a[..]) == multiset(old(a[..]))
  {
    var j := i;
    while j > 0 && a[j - 1].id > a[j].id
      invariant 0 <= j <= i
      invariant forall k, l :: 0 <= k < l <= i && l != j ==> a[k].id <= a[l].id
      invariant forall k, l :: 0 <= k < j < l <= i ==> a[k].id <= a[l].id
      invariant multiset(a[..]) == multiset(old(a[..]))
    {
      Swap(a, j - 1, j);
      j := j - 1;
    }
  }

  method Swap(a: array<CartItemDetail>, i: int, j: int)
    requires 0 <= i < a.Length && 0 <= j < a.Length
    modifies a
    ensures a[i] == old(a[j]) && a[j] == old(a[i])
    ensures forall k :: 0 <= k < a.Length && k != i && k != j ==> a[k] == old(a[k])
    ensures multiset(a[..]) == multiset(old(a[..]))
  {
    a[i], a[j] := a[j], a[i];
  }

  /** The id list and the productId -> line index built from the fetched rows. */
  method IndexLines(items: seq<CartItem>) returns (productIds: seq<int>, index: map<int, CartItem>)
    ensures productIds == ProductIdsOf(items)
    ensures index == IndexByProduct(items)
  {
    productIds, index := [], map[];
    var i := 0;
    while i < |items|
      invariant 0 <= i <= |items|
      invariant productIds == ProductIdsOf(items[..i])
      invariant index == IndexByProduct(items[..i])
    {
      assert items[..i + 1][..i] == items[..i];
      productIds := productIds + [items[i].productId];
      index := index[items[i].productId := items[i]];
      i := i + 1;
    }
    assert items[..i] == items;
  }

  /** Walks the fetched products once, collecting the lines to show, their
      selected count and subtotal, and the off-shelf product ids. */
  method CollectLines(fetched: seq<Product>, index: map<int, CartItem>)
    returns (lines: seq<CartItemDetail>, count: int, price: int, stale: seq<int>)
    ensures lines == CartLines(fetched, index)
    ensures count == SelectedCount(lines) && price == SelectedPrice(lines)
    ensures stale == StaleIds(fetched)
  {
    lines, count, price, stale := [], 0, 0, [];
    var k := 0;
    while k < |fetched|
      invariant 0 <= k <= |fetched|
      invariant lines == CartLines(fetched[..k], index)
      invariant stale == StaleIds(fetched[..k])
      invariant count == SelectedCount(lines)
      invariant price == SelectedPrice(lines)
    {
      assert fetched[..k + 1][..k] == fetched[..k];
      var product := fetched[k];
      if product.status != ProductStatusOnline {
        stale := stale + [product.id];
      } else if product.id in index {
        var item := index[product.id];
        var detail := BuildCartItemDetail(product, item);
        assert (lines + [detail])[..|lines|] == lines;
        lines := lines + [detail];
        if item.selectStatus == CartItemStatusSelected {
          count := count + 1;
          price := price + detail.totalPrice;
        }
      }
      k := k + 1;
    }
    assert fetched[..k] == fetched;
  }

  /** Builds the cart view of `userId`: lines whose product came back on the
      shelf, sorted by line id, with the selected count and subtotal. The ids
      of fetched products that are off the shelf come back in `stale`, for
      DeleteStaleItems to purge. */
  method GetCartItems(carts: CartItemTable, products: ProductTable, userId: int)
    returns (r: Result<CartList, DbError>, stale: seq<int>)
    ensures r.Err? <==>
              QueryCall in carts.failing || (UserRows(carts.rows, userId) != [] && GetByIdsCall in products.failing)
    ensures r.Err? ==> stale == []
    ensures r.Ok? ==>
              var rows := UserRows(carts.rows, userId);
              var fetched := ByIds(products.rows, ProductIdsOf(rows));
              var lines := CartLines(fetched, IndexByProduct(rows));
              && SortedById(r.value.cartItems)
              && multiset(r.value.cartItems) == multiset(lines)
              && r.value.selectedItemCount == SelectedCount(lines)
              && r.value.selectedPrice == SelectedPrice(lines)
              && stale == StaleIds(fetched)
  {
    var items, err := carts.QueryItems(UserQuery(userId));
    if err.Some? {
      return Err(err.value), [];
    }
    if |items| == 0 {
      assert ByIds(products.rows, ProductIdsOf(items)) == [];
      return Ok(CartList([], 0, 0)), [];
    }
    var productIds, index := IndexLines(items);
    var fetchedR := products.GetProductByIDs(productIds);
    if fetchedR.Err? {
      return Err(fetchedR.error), [];
    }
    var lines, count, price;
    lines, count, price, stale := CollectLines(fetchedR.value, index);
    var a := new CartItemDetail[|lines|](j requires 0 <= j < |lines| => lines[j]);
    assert a[..] == lines;
    SortById(a);
    r := Ok(CartList(a[..], count, price));
  }

  /** Counts the user's selected lines, whatever the state of their products. */
  method GetCartSelectedItemCnt(carts: CartItemTable, userId: int) returns (cnt: int, err: Option<DbError>)
    ensures err.Some? <==> QueryCall in carts.failing
    ensures err.Some? ==> cnt == 0
    ensures err.None? ==> cnt == |Filter(UserRows(carts.rows, userId), IsSelectedLine)|
  {
    var items;
    items, err := carts.QueryItems(UserQuery(userId));
    if err.Some? {
      return 0, err;
    }
    cnt := 0;
    var i := 0;
    while i < |items|
      invariant 0 <= i <= |items|
      invariant cnt == |Filter(items[..i], IsSelectedLine)|
    {
      assert items[..i + 1][..i] == items[..i];
      if items[i].selectStatus == CartItemStatusSelected {
        cnt := cnt + 1;
      }
      i := i + 1;
    }
    assert items[..i] == items;
  }

  function IsSelectedLine(r: CartItem): bool
  {
    r.selectStatus == CartItemStatusSelected
  }

  /** The subtotal loop of EstimatePrice. */
  method SumSelected(fetched: seq<Product>, index: map<int, CartItem>) returns (productPrice: int)
    ensures productPrice == Subtotal(fetched, index)
  {
    productPrice := 0;
    var k := 0;
    while k < |fetched|
      invariant 0 <= k <= |fetched|
      invariant productPrice == Subtotal(fetched[..k], index)
    {
      assert fetched[..k + 1][..k] == fetched[..k];
      var product := fetched[k];
      if product.status == ProductStatusOnline && product.id in index {
        var item := index[product.id];
        if item.selectStatus == CartItemStatusSelected {
          productPrice := productPrice + product.price * item.quantity;
        }
      }
      k := k + 1;
    }
    assert fetched[..k] == fetched;
  }

  /** Prices the user's selected lines. With no selected line every figure is
      0; otherwise the subtotal covers the lines whose product is on the
      shelf, and shipping is charged even when that subtotal is 0. */
  method EstimatePrice(carts: CartItemTable, products: ProductTable, userId: int)
    returns (r: Result<PriceEstimate, DbError>)
    ensures r.Err? <==>
              QueryCall in carts.failing || (SelectedRows(carts.rows, userId) != [] && GetByIdsCall in products.failing)
    ensures r.Ok? && SelectedRows(carts.rows, userId) == [] ==> r.value == PriceEstimate(0, 0, 0, 0)
    ensures r.Ok? && SelectedRows(carts.rows, userId) != [] ==>
              var rows := SelectedRows(carts.rows, userId);
              r.value == Estimate(Subtotal(ByIds(products.rows, ProductIdsOf(rows)), IndexByProduct(rows)))
  {
    var items, err := carts.QueryItems(SelectedQuery(userId));
    if err.Some? {
      return Err(err.value);
    }
    if |items| == 0 {
      return Ok(PriceEstimate(0, 0, 0, 0));
    }
    var productIds, index := IndexLines(items);
    var fetchedR := products.GetProductByIDs(productIds);
    if fetchedR.Err? {
      return Err(fetchedR.error);
    }
    var productPrice := SumSelected(fetchedR.value, index);
    var shipping := ShipmentPrice(productPrice);
    var tax := TaxPrice(productPrice);
    r := Ok(PriceEstimate(productPrice, shipping, tax, shipping + tax + productPrice));
  }

  // ---------------------------------------------------------------------
  // Validation and writes

  /** Product `productId` exists and is on the shelf. */
  function OnShelf(rows: seq<Product>, productId: int): bool
  {
    FindProduct(rows, productId).Some? && FindProduct(rows, productId).value.status == ProductStatusOnline
  }

  /** The outcome of checkProductWithItem: the product must exist, be on the
      shelf and hold at least `quantity`; a missing row and an off-shelf
      product are both ProductNotExist. */
  function ProductCheck(rows: seq<Product>, failing: set<ProductCall>, productId: int, quantity: int): (r: Option<CartError>)
    ensures GetByIdCall in failing ==> r == Some(DatabaseError)
    ensures GetByIdCall !in failing && !OnShelf(rows, productId) ==> r == Some(ProductNotExist)
    ensures GetByIdCall !in failing && OnShelf(rows, productId) && FindProduct(rows, productId).value.stock < quantity ==>
              r == Some(InsufficientStock)
    ensures r.None? <==>
              GetByIdCall !in failing && OnShelf(rows, productId) && FindProduct(rows, productId).value.stock >= quantity
    ensures r != Some(CartItemNotExist)
  {
    if GetByIdCall in failing then Some(DatabaseError)
    else match FindProduct(rows, productId)
      case None => Some(ProductNotExist)
      case Some(p) =>
        if p.status != ProductStatusOnline then Some(ProductNotExist)
        else if p.stock < quantity then Some(InsufficientStock)
        else None
  }

  method CheckProductWithItem(products: ProductTable, item: CartItemBasic) returns (err: Option<CartError>)
    ensures err == ProductCheck(products.rows, products.failing, item.productId, item.quantity)
  {
    var r := products.GetProductByID(item.productId);
    if r.Err? {
      if r.error == RecordNotFound {
        return Some(ProductNotExist);
      }
      return Some(DatabaseError);
    }
    var product := r.value;
    if product.status != ProductStatusOnline {
      return Some(ProductNotExist);
    }
    if product.stock < item.quantity {
      return Some(InsufficientStock);
    }
    return None;
  }

  /** Line `id` exists and belongs to `userId`. */
  function OwnedLine(rows: seq<CartItem>, id: int, userId: int): bool
  {
    FindItem(rows, id).Some? && FindItem(rows, id).value.userId == userId
  }

  /** The outcome of UpdateItem for a request naming line `id`, user
      `userId`, product `productId` and `quantity`. The product checked is the
      one in the request, not the one stored on the line. */
  function UpdateOutcome(
    cartRows: seq<CartItem>, cartFailing: set<CartCall>,
    productRows: seq<Product>, productFailing: set<ProductCall>,
    id: int, userId: int, productId: int, quantity: int): (r: Option<CartError>)
    ensures GetItemCall in cartFailing ==> r == Some(DatabaseError)
    ensures GetItemCall !in cartFailing && !OwnedLine(cartRows, id, userId) ==> r == Some(CartItemNotExist)
    ensures GetItemCall !in cartFailing && OwnedLine(cartRows, id, userId) ==>
              var check := ProductCheck(productRows, productFailing, productId, quantity);
              && (check.Some? ==> r == check)
              && (check.None? && UpdateItemCall in cartFailing ==> r == Some(DatabaseError))
              && (check.None? && UpdateItemCall !in cartFailing ==> r == None)
    ensures r.None? ==>
              && OwnedLine(cartRows, id, userId)
              && OnShelf(productRows, productId)
              && FindProduct(productRows, productId).value.stock >= quantity
  {
    if GetItemCall in cartFailing then Some(DatabaseError)
    else match FindItem(cartRows, id)
      case None => Some(CartItemNotExist)
      case Some(line) =>
        if line.userId != userId then Some(CartItemNotExist)
        else
          var check := ProductCheck(productRows, productFailing, productId, quantity);
          if check.Some? then check
          else if UpdateItemCall in cartFailing then Some(DatabaseError)
          else None
  }

  /** The table with line `id` given a new quantity and selection. */
  function SetLine(rows: seq<CartItem>, id: int, quantity: int, selectStatus: int): (r: seq<CartItem>)
    ensures |r| == |rows|
    ensures forall i :: 0 <= i < |rows| ==>
              r[i].id == rows[i].id && r[i].userId == rows[i].userId && r[i].productId == rows[i].productId
    ensures forall i :: 0 <= i < |rows| && rows[i].id != id ==> r[i] == rows[i]
    ensures forall i :: 0 <= i < |rows| && rows[i].id == id ==>
              r[i].quantity == quantity && r[i].selectStatus == selectStatus
  {
    seq(|rows|, i requires 0 <= i < |rows| =>
      if rows[i].id == id then rows[i].(quantity := quantity, selectStatus := selectStatus) else rows[i])
  }

  /** Saving the found line with new quantity and selection is SetLine. */
  lemma {:induction false} SaveFoundIsSetLine(rows: seq<CartItem>, nextId: int, id: int, quantity: int, selectStatus: int)
    requires CartRowsKeyed(rows, nextId)
    requires FindItem(rows, id).Some?
    ensures var row := FindItem(rows, id).value.(quantity := quantity, selectStatus := selectStatus);
            && FindItem(rows, row.id).Some?
            && !KeyTakenByOther(rows, row)
            && ReplaceRow(rows, row) == SetLine(rows, id, quantity, selectStatus)
  {
    var found := FindItem(rows, id).value;
    var row := found.(quantity := quantity, selectStatus := selectStatus);
    var k :| 0 <= k < |rows| && rows[k] == found;
    OwnKeyNotTaken(rows, nextId, k, row);
    var a, b := ReplaceRow(rows, row), SetLine(rows, id, quantity, selectStatus);
    forall i | 0 <= i < |rows| ensures a[i] == b[i] {
      IdsUnique(rows, nextId, i, k);
    }
  }

  /** A line holding the pair is found by AddItem's lookup query. */
  lemma KeyedLineIsQueried(rows: seq<CartItem>, userId: int, productId: int)
    ensures HasKey(rows, userId, productId) ==> QueryResult(rows, UserProductQuery(userId, productId)) != []
  {
    if HasKey(rows, userId, productId) {
      var j :| 0 <= j < |rows| && rows[j].userId == userId && rows[j].productId == productId;
      assert rows[j] in QueryResult(rows, UserProductQuery(userId, productId));
    }
  }

  /** Re-validates the line and the product, then overwrites only the line's
      quantity and selection. */
  method UpdateItem(carts: CartItemTable, products: ProductTable, item: CartItemBasic) returns (err: Option<CartError>)
    requires carts.Valid()
    modifies carts
    ensures carts.Valid() && carts.failing == old(carts.failing) && carts.nextId == old(carts.nextId)
    ensures err == UpdateOutcome(old(carts.rows), carts.failing, products.rows, products.failing,
                                 item.id, item.userId, item.productId, item.quantity)
    ensures err.None? ==> carts.rows == SetLine(old(carts.rows), item.id, item.quantity, SelectStatusOf(item.selected))
    ensures err.Some? ==> carts.rows == old(carts.rows)
  {
    var existing, dbErr := carts.GetItemById(item.id);
    if dbErr.Some? {
      return Some(DatabaseError);
    }
    if existing.None? || existing.value.userId != item.userId {
      return Some(CartItemNotExist);
    }
    err := CheckProductWithItem(products, item);
    if err.Some? {
      return err;
    }
    var row := existing.value.(quantity := item.quantity, selectStatus := SelectStatusOf(item.selected));
    SaveFoundIsSetLine(carts.rows, carts.nextId, item.id, item.quantity, SelectStatusOf(item.selected));
    dbErr := carts.UpdateItem(row);
    if dbErr.Some? {
      return Some(DatabaseError);
    }
    return None;
  }

  /** Merges into the user's existing line for the product (quantity summed,
      line selected, then validated and saved as UpdateItem does), or
      validates and creates a new selected line whose id is written back into
      the request. */
  method AddItem(carts: CartItemTable, products: ProductTable, item: CartItemBasic) returns (err: Option<CartError>)
    requires carts.Valid()
    modifies carts, item
    ensures carts.Valid() && carts.failing == old(carts.failing)
    ensures item.userId == old(item.userId) && item.productId == old(item.productId)
    ensures QueryCall in carts.failing ==>
              && err == Some(DatabaseError) && carts.rows == old(carts.rows)
              && item.id == old(item.id) && item.quantity == old(item.quantity) && item.selected == old(item.selected)
    ensures QueryCall !in carts.failing && QueryResult(old(carts.rows), UserProductQuery(item.userId, item.productId)) != [] ==>
              var existing := QueryResult(old(carts.rows), UserProductQuery(item.userId, item.productId))[0];
              && item.id == existing.id
              && item.quantity == old(item.quantity) + existing.quantity
              && item.selected
              && carts.nextId == old(carts.nextId)
              && err == UpdateOutcome(old(carts.rows), carts.failing, products.rows, products.failing,
                                      item.id, item.userId, item.productId, item.quantity)
              && (err.None? ==> carts.rows == SetLine(old(carts.rows), item.id, item.quantity, CartItemStatusSelected))
              && (err.Some? ==> carts.rows == old(carts.rows))
    ensures QueryCall !in carts.failing && QueryResult(old(carts.rows), UserProductQuery(item.userId, item.productId)) == [] ==>
              var check := ProductCheck(products.rows, products.failing, item.productId, old(item.quantity));
              && item.quantity == old(item.quantity) && item.selected == old(item.selected)
              && (check.Some? ==>
                    err == check && carts.rows == old(carts.rows) && item.id == old(item.id))
              && (check.None? && CreateItemCall in carts.failing ==>
                    err == Some(DatabaseError) && carts.rows == old(carts.rows) && item.id == old(item.id))
              && (check.None? && CreateItemCall !in carts.failing ==>
                    && err == None
                    && item.id == old(carts.nextId)
                    && carts.rows == old(carts.rows) +
                         [CartItem(item.id, item.userId, item.productId,
                                   if item.quantity == 0 then 1 else item.quantity, CartItemStatusSelected)])
  {
    var existing, dbErr := carts.QueryItems(UserProductQuery(item.userId, item.productId));
    if dbErr.Some? {
      return Some(DatabaseError);
    }
    if |existing| > 0 {
      item.id := existing[0].id;
      item.quantity := item.quantity + existing[0].quantity;
      item.selected := true;
      err := UpdateItem(carts, products, item);
      return;
    }
    err := CheckProductWithItem(products, item);
    if err.Some? {
      return;
    }
    KeyedLineIsQueried(carts.rows, item.userId, item.productId);
    var itemId;
    itemId, dbErr := carts.CreateItem(CartItem(0, item.userId, item.productId, item.quantity, CartItemStatusSelected));
    if dbErr.Some? {
      return Some(DatabaseError);
    }
    item.id := itemId;
    return None;
  }

  /** Deletes line `itemId`; absent ids succeed and id 0 is refused. The
      store deletes by id alone, so the line need not belong to `userId`. */
  method DeleteItem(carts: CartItemTable, itemId: int, userId: int) returns (err: Option<DbError>)
    requires carts.Valid()
    modifies carts
    ensures carts.Valid() && carts.failing == old(carts.failing)
    ensures itemId == 0 ==> err == Some(MissingWhereClause) && carts.rows == old(carts.rows)
    ensures itemId != 0 && DeleteByIdCall in carts.failing ==> err == Some(Unavailable) && carts.rows == old(carts.rows)
    ensures itemId != 0 && DeleteByIdCall !in carts.failing ==> err == None && carts.rows == WithoutId(old(carts.rows), itemId)
  {
    err := carts.DeleteItemById(itemId, userId);
  }

  /** Bulk removal of the user's lines for `productIds`; an empty list is a
      successful no-op that does not reach the store. */
  method DeleteItemByProductIds(carts: CartItemTable, userId: int, productIds: seq<int>) returns (err: Option<DbError>)
    requires carts.Valid()
    modifies carts
    ensures carts.Valid() && carts.failing == old(carts.failing)
    ensures productIds == [] ==> err == None && carts.rows == old(carts.rows)
    ensures productIds != [] && DeleteByProductIdsCall in carts.failing ==>
              err == Some(Unavailable) && carts.rows == old(carts.rows)
    ensures productIds != [] && DeleteByProductIdsCall !in carts.failing ==>
              err == None && carts.rows == WithoutProducts(old(carts.rows), userId, productIds)
  {
    if |productIds| == 0 {
      return None;
    }
    err := carts.DeleteByProductIds(userId, productIds);
  }

  /** The clean-up GetCartItems schedules for stale products: a direct store
      delete whose failure is only logged, so it is dropped here. */
  method DeleteStaleItems(carts: CartItemTable, userId: int, stale: seq<int>)
    requires carts.Valid()
    modifies carts
    ensures carts.Valid()
    ensures DeleteByProductIdsCall in carts.failing ==> carts.rows == old(carts.rows)
    ensures DeleteByProductIdsCall !in carts.failing ==> carts.rows == WithoutProducts(old(carts.rows), userId, stale)
  {
    var _ := carts.DeleteByProductIds(userId, stale);
  }

  // ---------------------------------------------------------------------
  // Properties of the cart view and the estimate

  /** At most one line per (user, product). */
  lemma SameKeySameLine(rows: seq<CartItem>, nextId: int, a: CartItem, b: CartItem)
    requires CartRowsKeyed(rows, nextId)
    requires a in rows && b in rows && a.userId == b.userId && a.productId == b.productId
    ensures a == b
  {
    var i :| 0 <= i < |rows| && rows[i] == a;
    var j :| 0 <= j < |rows| && rows[j] == b;
  }

  lemma ProductIdOfMember(rows: seq<CartItem>, r: CartItem)
    ensures r in rows ==> r.productId in ProductIdsOf(rows)
  {
    if r in rows {
      var k :| 0 <= k < |rows| && rows[k] == r;
      assert ProductIdsOf(rows)[k] == r.productId;
    }
  }

  /** The stale list holds exactly the ids of the fetched products that are
      off the shelf. */
  lemma {:induction false} StaleIdsMembers(fetched: seq<Product>, x: int)
    ensures x in StaleIds(fetched) <==>
              exists i :: 0 <= i < |fetched| && fetched[i].status != ProductStatusOnline && fetched[i].id == x
  {
    if fetched != [] {
      var init := fetched[..|fetched| - 1];
      StaleIdsMembers(init, x);
      if exists i :: 0 <= i < |init| && init[i].status != ProductStatusOnline && init[i].id == x {
        var i :| 0 <= i < |init| && init[i].status != ProductStatusOnline && init[i].id == x;
        assert fetched[i] == init[i];
      }
      if exists i :: 0 <= i < |fetched| && fetched[i].status != ProductStatusOnline && fetched[i].id == x {
        var i :| 0 <= i < |fetched| && fetched[i].status != ProductStatusOnline && fetched[i].id == x;
        assert i < |init| ==> init[i] == fetched[i];
      }
    }
  }

  /** The clean-up GetCartItems schedules removes exactly the user's lines
      whose product is in the table but off the shelf; every other line,
      the user's lines for products missing from the table included, stays. */
  lemma StaleLinesCleared(cartRows: seq<CartItem>, productRows: seq<Product>, userId: int, x: CartItem)
    ensures var rows := UserRows(cartRows, userId);
            var stale := StaleIds(ByIds(productRows, ProductIdsOf(rows)));
            x in WithoutProducts(cartRows, userId, stale) <==>
            x in cartRows && !(x.userId == userId &&
                               exists p :: p in productRows && p.id == x.productId && p.status != ProductStatusOnline)
  {
    var rows := UserRows(cartRows, userId);
    var fetched := ByIds(productRows, ProductIdsOf(rows));
    StaleIdsMembers(fetched, x.productId);
    if x in cartRows && x.userId == userId {
      assert MatchesItemQuery(UserQuery(userId), x);
      ProductIdOfMember(rows, x);
      if p :| p in productRows && p.id == x.productId && p.status != ProductStatusOnline {
        assert p in fetched;
        var k :| 0 <= k < |fetched| && fetched[k] == p;
      }
    }
  }

  /** CartLines holds exactly the details of the fetched on-shelf products
      that have a line in the index. */
  lemma {:induction false} CartLinesMembers(fetched: seq<Product>, index: map<int, CartItem>, d: CartItemDetail)
    ensures d in CartLines(fetched, index) <==>
              exists i :: 0 <= i < |fetched| && fetched[i].status == ProductStatusOnline && fetched[i].id in index
                          && d == BuildCartItemDetail(fetched[i], index[fetched[i].id])
  {
    if fetched != [] {
      var init := fetched[..|fetched| - 1];
      CartLinesMembers(init, index, d);
      assert forall i :: 0 <= i < |init| ==> init[i] == fetched[i];
    }
  }

  /** For a real user id over a table with unique (user, product) keys, the
      cart view holds one entry per line of the user whose product is on the
      shelf, built from that line and that product, and nothing else. */
  lemma CartViewExact(cartRows: seq<CartItem>, nextId: int, productRows: seq<Product>, userId: int, d: CartItemDetail)
    requires CartRowsKeyed(cartRows, nextId)
    requires userId != 0
    ensures var rows := UserRows(cartRows, userId);
            d in CartLines(ByIds(productRows, ProductIdsOf(rows)), IndexByProduct(rows)) <==>
            exists r, p :: r in cartRows && p in productRows && r.userId == userId && r.productId == p.id
                           && p.status == ProductStatusOnline && d == BuildCartItemDetail(p, r)
  {
    var rows := UserRows(cartRows, userId);
    var fetched := ByIds(productRows, ProductIdsOf(rows));
    var index := IndexByProduct(rows);
    CartLinesMembers(fetched, index, d);
    if d in CartLines(fetched, index) {
      var i :| 0 <= i < |fetched| && fetched[i].status == ProductStatusOnline && fetched[i].id in index
               && d == BuildCartItemDetail(fetched[i], index[fetched[i].id]);
      var p := fetched[i];
      var r := index[p.id];
      assert p in productRows;
      assert r in cartRows && MatchesItemQuery(UserQuery(userId), r);
    }
    if exists r, p :: r in cartRows && p in productRows && r.userId == userId && r.productId == p.id
                      && p.status == ProductStatusOnline && d == BuildCartItemDetail(p, r) {
      var r, p :| r in cartRows && p in productRows && r.userId == userId && r.productId == p.id
                  && p.status == ProductStatusOnline && d == BuildCartItemDetail(p, r);
      assert MatchesItemQuery(UserQuery(userId), r);
      ProductIdOfMember(rows, r);
      var j :| 0 <= j < |productRows| && productRows[j] == p;
      assert IdIn(ProductIdsOf(rows))(productRows[j]);
      var i :| 0 <= i < |fetched| && fetched[i] == p;
      var line := index[p.id];
      assert line in cartRows && MatchesItemQuery(UserQuery(userId), line);
      SameKeySameLine(cartRows, nextId, line, r);
    }
  }

  /** Within one index, the view's selected subtotal is the estimate's. */
  lemma {:induction false} ViewPriceIsSubtotal(fetched: seq<Product>, index: map<int, CartItem>)
    ensures SelectedPrice(CartLines(fetched, index)) == Subtotal(fetched, index)
  {
    if fetched != [] {
      var init, p := fetched[..|fetched| - 1], fetched[|fetched| - 1];
      ViewPriceIsSubtotal(init, index);
      if p.status == ProductStatusOnline && p.id in index {
        var lines := CartLines(init, index);
        var d := BuildCartItemDetail(p, index[p.id]);
        assert (lines + [d])[..|lines|] == lines;
      }
    }
  }

  /** Subtotals over two `IN` lists agree when every product adds the same to both. */
  lemma {:induction false} SubtotalOverIds(
    ps: seq<Product>, ids1: seq<int>, idx1: map<int, CartItem>, ids2: seq<int>, idx2: map<int, CartItem>)
    requires forall i :: 0 <= i < |ps| ==>
               (if ps[i].id in ids1 then SubtotalTerm(ps[i], idx1) else 0) ==
               (if ps[i].id in ids2 then SubtotalTerm(ps[i], idx2) else 0)
    ensures Subtotal(ByIds(ps, ids1), idx1) == Subtotal(ByIds(ps, ids2), idx2)
  {
    if ps != [] {
      var init, p := ps[..|ps| - 1], ps[|ps| - 1];
      assert forall i :: 0 <= i < |init| ==> init[i] == ps[i];
      SubtotalOverIds(init, ids1, idx1, ids2, idx2);
      SubtotalOfLastId(ps, ids1, idx1);
      SubtotalOfLastId(ps, ids2, idx2);
    }
  }

  /** Peels the last product off an `IN` subtotal. */
  lemma SubtotalOfLastId(ps: seq<Product>, ids: seq<int>, index: map<int, CartItem>)
    requires ps != []
    ensures Subtotal(ByIds(ps, ids), index) ==
            Subtotal(ByIds(ps[..|ps| - 1], ids), index) +
            (if ps[|ps| - 1].id in ids then SubtotalTerm(ps[|ps| - 1], index) else 0)
  {
    var f := ByIds(ps[..|ps| - 1], ids);
    assert (f + [ps[|ps| - 1]])[..|f|] == f;
  }

  /** For a real user id over a table with unique keys, the selected
      subtotal the cart view shows equals the subtotal EstimatePrice
      charges, although one reads all of the user's lines and the other only
      the selected ones. */
  lemma CartAndEstimateAgree(cartRows: seq<CartItem>, nextId: int, productRows: seq<Product>, userId: int)
    requires CartRowsKeyed(cartRows, nextId)
    requires userId != 0
    ensures var view := UserRows(cartRows, userId);
            var sel := SelectedRows(cartRows, userId);
            SelectedPrice(CartLines(ByIds(productRows, ProductIdsOf(view)), IndexByProduct(view))) ==
            Subtotal(ByIds(productRows, ProductIdsOf(sel)), IndexByProduct(sel))
  {
    var view, sel := UserRows(cartRows, userId), SelectedRows(cartRows, userId);
    var ids1, idx1 := ProductIdsOf(view), IndexByProduct(view);
    var ids2, idx2 := ProductIdsOf(sel), IndexByProduct(sel);
    ViewPriceIsSubtotal(ByIds(productRows, ids1), idx1);
    forall i | 0 <= i < |productRows|
      ensures (if productRows[i].id in ids1 then SubtotalTerm(productRows[i], idx1) else 0) ==
              (if productRows[i].id in ids2 then SubtotalTerm(productRows[i], idx2) else 0)
    {
      var p := productRows[i];
      if p.id in ids2 {
        SelectedLineInView(cartRows, nextId, userId, p.id);
      } else if p.id in ids1 {
        UnselectedLineInView(cartRows, userId, p.id);
      }
    }
    SubtotalOverIds(productRows, ids1, idx1, ids2, idx2);
  }

  /** A product with a selected line of the user has that same line in the
      index of all the user's lines. */
  lemma SelectedLineInView(cartRows: seq<CartItem>, nextId: int, userId: int, productId: int)
    requires CartRowsKeyed(cartRows, nextId)
    requires userId != 0
    requires productId in ProductIdsOf(SelectedRows(cartRows, userId))
    ensures productId in ProductIdsOf(UserRows(cartRows, userId))
    ensures productId in IndexByProduct(UserRows(cartRows, userId))
    ensures productId in IndexByProduct(SelectedRows(cartRows, userId))
    ensures IndexByProduct(UserRows(cartRows, userId))[productId] == IndexByProduct(SelectedRows(cartRows, userId))[productId]
  {
    var view, sel := UserRows(cartRows, userId), SelectedRows(cartRows, userId);
    var k :| 0 <= k < |sel| && ProductIdsOf(sel)[k] == productId;
    var s := sel[k];
    assert s in cartRows && MatchesItemQuery(SelectedQuery(userId), s);
    assert MatchesItemQuery(UserQuery(userId), s);
    ProductIdOfMember(view, s);
    var a, b := IndexByProduct(view)[productId], IndexByProduct(sel)[productId];
    assert a in cartRows && MatchesItemQuery(UserQuery(userId), a);
    assert b in cartRows && MatchesItemQuery(SelectedQuery(userId), b);
    SameKeySameLine(cartRows, nextId, a, s);
    SameKeySameLine(cartRows, nextId, b, s);
  }

  /** A product whose user line is not among the selected ones has an
      unselected line. */
  lemma UnselectedLineInView(cartRows: seq<CartItem>, userId: int, productId: int)
    requires userId != 0
    requires productId in IndexByProduct(UserRows(cartRows, userId))
    requires productId !in ProductIdsOf(SelectedRows(cartRows, userId))
    ensures IndexByProduct(UserRows(cartRows, userId))[productId].selectStatus != CartItemStatusSelected
  {
    var r := IndexByProduct(UserRows(cartRows, userId))[productId];
    assert r in cartRows && MatchesItemQuery(UserQuery(userId), r);
    ProductIdOfMember(SelectedRows(cartRows, userId), r);
    assert r.selectStatus == CartItemStatusSelected ==> MatchesItemQuery(SelectedQuery(userId), r);
  }

  /** GetCartSelectedItemCnt counts exactly the rows EstimatePrice prices. */
  lemma SelectedCountIsSelectedRows(rows: seq<CartItem>, userId: int)
    ensures Filter(UserRows(rows, userId), IsSelectedLine) == SelectedRows(rows, userId)
  {
    FilterFilter(rows, ItemQueryFilter(UserQuery(userId)), IsSelectedLine, ItemQueryFilter(SelectedQuery(userId)));
  }

  /** Selected lines none of whose products is on the shelf still pay
      shipping: the estimate is 0 + 800 + 0 = 800. */
  lemma {:induction false} OffShelfEstimate(fetched: seq<Product>, index: map<int, CartItem>)
    requires forall i :: 0 <= i < |fetched| ==> fetched[i].status != ProductStatusOnline
    ensures Subtotal(fetched, index) == 0
    ensures Estimate(Subtotal(fetched, index)) == PriceEstimate(0, ShipPrice, 0, ShipPrice)
  {
    if fetched != [] {
      OffShelfEstimate(fetched[..|fetched| - 1], index);
    }
  }
}
