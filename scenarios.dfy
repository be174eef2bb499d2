/** Whole-flow runs of the services over small concrete tables. */
module Scenarios {
  import opened Model
  import opened ProductDao
  import opened CartItemDao
  import opened CartService
  import opened ProductService

  function Mug(price: int, stock: int, status: int): Product
  {
    Product(0, "mug", "cups", price, "", stock, "", "", "", "", "", "", status, 0, 0)
  }

  /** Two selected lines, the second product off the shelf: only the first
      is charged, 100 x 2 = 200, plus 18 tax and 800 shipping. */
  method EstimateIgnoresOffShelf() returns (r: Result<PriceEstimate, DbError>)
    ensures r == Ok(PriceEstimate(200, 800, 18, 1018))
  {
    var products := new ProductTable();
    var p1, _ := products.CreateProduct(Mug(100, 10, ProductStatusPublished), 0);
    var p2, _ := products.CreateProduct(Mug(200, 10, -1), 0);
    assert products.rows == [Mug(100, 10, ProductStatusPublished).(id := 1), Mug(200, 10, -1).(id := 2)];
    var carts := new CartItemTable();
    var _, _ := carts.CreateItem(CartItem(0, 1, p1, 2, CartItemStatusSelected));
    assert !HasKey(carts.rows, 1, p2);
    var _, _ := carts.CreateItem(CartItem(0, 1, p2, 1, CartItemStatusSelected));
    assert carts.rows == [CartItem(1, 1, 1, 2, CartItemStatusSelected), CartItem(2, 1, 2, 1, CartItemStatusSelected)];
    OffShelfFixture(products.rows, carts.rows);
    EstimateOf200();
    r := EstimatePrice(carts, products, 1);
  }

  /** The cart table of EstimateIgnoresOffShelf, evaluated step by step. */
  lemma OffShelfCart(cartRows: seq<CartItem>)
    requires cartRows == [CartItem(1, 1, 1, 2, CartItemStatusSelected), CartItem(2, 1, 2, 1, CartItemStatusSelected)]
    ensures SelectedRows(cartRows, 1) == cartRows
    ensures ProductIdsOf(cartRows) == [1, 2]
    ensures IndexByProduct(cartRows) == map[1 := cartRows[0], 2 := cartRows[1]]
  {
    assert cartRows[..1] == [cartRows[0]] && [cartRows[0]][..0] == [];
  }

  /** The product side of EstimateIgnoresOffShelf: only product 1 is charged. */
  lemma OffShelfFixture(productRows: seq<Product>, cartRows: seq<CartItem>)
    requires productRows == [Mug(100, 10, ProductStatusPublished).(id := 1), Mug(200, 10, -1).(id := 2)]
    requires cartRows == [CartItem(1, 1, 1, 2, CartItemStatusSelected), CartItem(2, 1, 2, 1, CartItemStatusSelected)]
    ensures SelectedRows(cartRows, 1) == cartRows
    ensures Subtotal(ByIds(productRows, ProductIdsOf(cartRows)), IndexByProduct(cartRows)) == 200
  {
    OffShelfCart(cartRows);
    var p1 := productRows[0];
    assert productRows[..1] == [p1] && [p1][..0] == [];
    assert ByIds(productRows, [1, 2]) == productRows;
    assert Subtotal([p1], IndexByProduct(cartRows)) == 200;
  }

  /** Adding 2 and then 3 of the same product leaves one selected line of 5. */
  method AddTwiceMerges() returns (e1: Option<CartError>, e2: Option<CartError>, lines: seq<CartItem>)
    ensures e1 == None && e2 == None
    ensures lines == [CartItem(1, 7, 1, 5, CartItemStatusSelected)]
  {
    var products := new ProductTable();
    var _, _ := products.CreateProduct(Mug(100, 10, ProductStatusPublished), 0);
    var carts := new CartItemTable();
    e1 := AddToEmptyCart(carts, products);
    e2 := AddToMergedLine(carts, products);
    lines := carts.rows;
  }

  /** The first add of AddTwiceMerges: a new selected line of 2. */
  method AddToEmptyCart(carts: CartItemTable, products: ProductTable) returns (e: Option<CartError>)
    requires carts.Valid() && carts.rows == [] && carts.failing == {} && carts.nextId == 1
    requires products.rows == [Mug(100, 10, ProductStatusPublished).(id := 1)] && products.failing == {}
    modifies carts
    ensures e == None
    ensures carts.Valid() && carts.failing == {} && carts.rows == [CartItem(1, 7, 1, 2, CartItemStatusSelected)]
  {
    var first := new CartItemBasic(0, 7, 1, 2, false);
    MergeFixture(products.rows, carts.rows);
    e := AddItem(carts, products, first);
  }

  /** The second add of AddTwiceMerges: 3 more merge into the line of 2. */
  method AddToMergedLine(carts: CartItemTable, products: ProductTable) returns (e: Option<CartError>)
    requires carts.Valid() && carts.rows == [CartItem(1, 7, 1, 2, CartItemStatusSelected)] && carts.failing == {}
    requires products.rows == [Mug(100, 10, ProductStatusPublished).(id := 1)] && products.failing == {}
    modifies carts
    ensures e == None
    ensures carts.rows == [CartItem(1, 7, 1, 5, CartItemStatusSelected)]
  {
    var second := new CartItemBasic(0, 7, 1, 3, false);
    MergeFixture(products.rows, carts.rows);
    e := AddItem(carts, products, second);
  }

  /** The lookups AddTwiceMerges makes, evaluated. */
  lemma MergeFixture(productRows: seq<Product>, cartRows: seq<CartItem>)
    requires productRows == [Mug(100, 10, ProductStatusPublished).(id := 1)]
    requires cartRows == [] || cartRows == [CartItem(1, 7, 1, 2, CartItemStatusSelected)]
    ensures QueryResult(cartRows, UserProductQuery(7, 1)) == cartRows
    ensures ProductCheck(productRows, {}, 1, 2) == None
    ensures cartRows != [] ==>
              && UpdateOutcome(cartRows, {}, productRows, {}, 1, 7, 1, 5) == None
              && SetLine(cartRows, 1, 5, CartItemStatusSelected) == [CartItem(1, 7, 1, 5, CartItemStatusSelected)]
  {
    if cartRows != [] {
      assert cartRows[..0] == [];
    }
  }

  /** Publishing an off-shelf product, publishing it again and unpublishing it. */
  method PublishTwiceThenUnpublish() returns (e1: Option<ProductError>, e2: Option<ProductError>, e3: Option<ProductError>)
    ensures e1 == None && e2 == Some(AlreadyPublished) && e3 == None
  {
    var products := new ProductTable();
    var id, _ := products.CreateProduct(Mug(100, 10, ProductStatusUnpublished), 0);
    e1 := PublishProduct(products, id, 1);
    e2 := PublishProduct(products, id, 2);
    e3 := UnpublishProduct(products, id, 3);
  }

  lemma EstimateOf200()
    ensures Estimate(200) == PriceEstimate(200, 800, 18, 1018)
  {
    assert TaxPrice(200) == 18;
  }

  /** A subtotal of 200.00: 9% tax is 18.00 and shipping is charged, 226.00 in all. */
  lemma EstimateOf20000()
    ensures Estimate(20000) == PriceEstimate(20000, 800, 1800, 22600)
  {
    var e := Estimate(20000);
    assert 100 * e.tax <= 180000 < 100 * e.tax + 100;
  }
}
