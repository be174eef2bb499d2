/** The `shopping_cart_items` table and the statements the cart-item DAO
    issues against it. */
module CartItemDao {
  import opened Model
  import opened Seqs

  /** The table operations, one per DAO method; `CartItemTable.failing` names
      those the database currently rejects. */
  datatype CartCall =
    | CreateItemCall
    | UpdateItemCall
    | DeleteByIdCall
    | DeleteByProductIdsCall
    | GetItemCall
    | QueryCall

  function LineIdBefore(a: CartItem, b: CartItem): bool
  {
    a.id < b.id
  }

  /** The unique index `idx_user_product` on (user_id, product_id). */
  function DifferentKey(a: CartItem, b: CartItem): bool
  {
    a.userId != b.userId || a.productId != b.productId
  }

  /** Primary keys are positive, strictly increasing in row order and below
      the next auto-increment value; no two rows share (user, product). */
  ghost predicate CartRowsKeyed(rows: seq<CartItem>, nextId: int)
  {
    && nextId > 0
    && Pairwise(rows, LineIdBefore)
    && Pairwise(rows, DifferentKey)
    && forall i :: 0 <= i < |rows| ==> 0 < rows[i].id < nextId
  }

  /** `First(&item, id)`. */
  function FindItem(rows: seq<CartItem>, id: int): (r: Option<CartItem>)
    ensures r.Some? ==> r.value in rows && r.value.id == id
    ensures r.None? <==> forall i :: 0 <= i < |rows| ==> rows[i].id != id
  {
    if rows == [] then None
    else if rows[0].id == id then Some(rows[0])
    else FindItem(rows[1..], id)
  }

  /** Is (userId, productId) already held by a row? */
  function HasKey(rows: seq<CartItem>, userId: int, productId: int): bool
  {
    exists i :: 0 <= i < |rows| && rows[i].userId == userId && rows[i].productId == productId
  }

  /** Would writing `row` collide with a different row on the unique index? */
  function KeyTakenByOther(rows: seq<CartItem>, row: CartItem): bool
  {
    exists i :: 0 <= i < |rows| && rows[i].id != row.id && !DifferentKey(rows[i], row)
  }

  /** A struct used as a gorm condition: only its non-zero fields constrain. */
  function MatchesItemQuery(q: CartItem, r: CartItem): bool
  {
    && (q.id != 0 ==> r.id == q.id)
    && (q.userId != 0 ==> r.userId == q.userId)
    && (q.productId != 0 ==> r.productId == q.productId)
    && (q.quantity != 0 ==> r.quantity == q.quantity)
    && (q.selectStatus != 0 ==> r.selectStatus == q.selectStatus)
  }

  function ItemQueryFilter(q: CartItem): CartItem -> bool
  {
    (r: CartItem) => MatchesItemQuery(q, r)
  }

  /** `Where(query).Find(&items)`. */
  function QueryResult(rows: seq<CartItem>, q: CartItem): (r: seq<CartItem>)
    ensures forall i :: 0 <= i < |r| ==> r[i] in rows && MatchesItemQuery(q, r[i])
    ensures forall x :: x in rows && MatchesItemQuery(q, x) ==> x in r
  {
    Filter(rows, ItemQueryFilter(q))
  }

  /** The table after `Save(row)` found a row with `row.id`. */
  function ReplaceRow(rows: seq<CartItem>, row: CartItem): (r: seq<CartItem>)
    ensures |r| == |rows|
    ensures forall i :: 0 <= i < |rows| ==> r[i].id == rows[i].id
    ensures forall i :: 0 <= i < |rows| ==> r[i] == if rows[i].id == row.id then row else rows[i]
  {
    seq(|rows|, i requires 0 <= i < |rows| => if rows[i].id == row.id then row else rows[i])
  }

  function OtherId(id: int): CartItem -> bool
  {
    (r: CartItem) => r.id != id
  }

  /** The table after `DELETE ... WHERE id = ?`. */
  function WithoutId(rows: seq<CartItem>, id: int): (r: seq<CartItem>)
    ensures forall x :: x in r <==> x in rows && x.id != id
  {
    Filter(rows, OtherId(id))
  }

  /** Deleting an id no row holds changes nothing. */
  lemma WithoutAbsentId(rows: seq<CartItem>, id: int)
    requires forall i :: 0 <= i < |rows| ==> rows[i].id != id
    ensures WithoutId(rows, id) == rows
  {
    FilterAll(rows, OtherId(id));
  }

  /** Deleting the same (user, products) selection twice is deleting it once. */
  lemma WithoutProductsIdempotent(rows: seq<CartItem>, userId: int, productIds: seq<int>)
    ensures WithoutProducts(WithoutProducts(rows, userId, productIds), userId, productIds) ==
            WithoutProducts(rows, userId, productIds)
  {
    var keep := NotBought(userId, productIds);
    FilterFilter(rows, keep, keep, keep);
  }

  function NotBought(userId: int, productIds: seq<int>): CartItem -> bool
  {
    (r: CartItem) => !(r.userId == userId && r.productId in productIds)
  }

  /** The table after `DELETE ... WHERE user_id = ? AND product_id IN ?`. */
  function WithoutProducts(rows: seq<CartItem>, userId: int, productIds: seq<int>): (r: seq<CartItem>)
    ensures forall x :: x in r <==> x in rows && !(x.userId == userId && x.productId in productIds)
  {
    Filter(rows, NotBought(userId, productIds))
  }

  /** Deleting rows keeps the keys well formed. */
  lemma FilterKeepsKeyed(rows: seq<CartItem>, nextId: int, keep: CartItem -> bool)
    requires CartRowsKeyed(rows, nextId)
    ensures CartRowsKeyed(Filter(rows, keep), nextId)
  {
    FilterPairwise(rows, keep, LineIdBefore);
    FilterPairwise(rows, keep, DifferentKey);
  }

  /** A row rewritten with its own id, user and product never collides. */
  lemma {:induction false} OwnKeyNotTaken(rows: seq<CartItem>, nextId: int, k: int, row: CartItem)
    requires CartRowsKeyed(rows, nextId)
    requires 0 <= k < |rows|
    requires row.id == rows[k].id && row.userId == rows[k].userId && row.productId == rows[k].productId
    ensures !KeyTakenByOther(rows, row)
  {
    forall i | 0 <= i < |rows| && rows[i].id != row.id ensures DifferentKey(rows[i], row) {
      if i < k {
        assert DifferentKey(rows[i], rows[k]);
      } else {
        assert i != k;
        assert DifferentKey(rows[k], rows[i]);
      }
    }
  }

  /** Two positions holding the same id are the same position. */
  lemma IdsUnique(rows: seq<CartItem>, nextId: int, i: int, k: int)
    requires CartRowsKeyed(rows, nextId)
    requires 0 <= i < |rows| && 0 <= k < |rows|
    ensures rows[i].id == rows[k].id ==> i == k
  {
    assert i < k ==> LineIdBefore(rows[i], rows[k]);
    assert k < i ==> LineIdBefore(rows[k], rows[i]);
  }

  /** With unique keys, the row found for an id is the one holding it. */
  lemma {:induction false} FindItemKeyed(rows: seq<CartItem>, nextId: int, k: int)
    requires CartRowsKeyed(rows, nextId)
    requires 0 <= k < |rows|
    ensures FindItem(rows, rows[k].id) == Some(rows[k])
  {
    if k > 0 {
      assert LineIdBefore(rows[0], rows[k]);
      assert CartRowsKeyed(rows[1..], nextId) by {
        forall i, j | 0 <= i < j < |rows| - 1
          ensures LineIdBefore(rows[1..][i], rows[1..][j]) && DifferentKey(rows[1..][i], rows[1..][j])
        {
          assert LineIdBefore(rows[i + 1], rows[j + 1]) && DifferentKey(rows[i + 1], rows[j + 1]);
        }
      }
      FindItemKeyed(rows[1..], nextId, k - 1);
    }
  }

  /** The row gorm inserts for `item` under `id`: a zero quantity is left
      out of the INSERT, so the column default `1` is stored. */
  function Inserted(item: CartItem, id: int): (r: CartItem)
    ensures r.id == id && r.userId == item.userId && r.productId == item.productId
    ensures r.selectStatus == item.selectStatus
    ensures r.quantity == (if item.quantity == 0 then 1 else item.quantity)
    ensures r.quantity != 0
  {
    item.(id := id, quantity := if item.quantity == 0 then 1 else item.quantity)
  }

  /** The DAO's view of the `shopping_cart_items` table. */
  class CartItemTable {
    var rows: seq<CartItem>
    var nextId: int
    var failing: set<CartCall>

    ghost predicate Valid()
      reads this
    {
      CartRowsKeyed(rows, nextId)
    }

    constructor ()
      ensures Valid() && rows == [] && nextId == 1 && failing == {}
    {
      rows := [];
      nextId := 1;
      failing := {};
    }

    /** Inserts `item` under the next auto-increment id; -1 on failure,
        including a second row for the same (user, product). A zero quantity
        is stored as the column default, 1. */
    method CreateItem(item: CartItem) returns (id: int, err: Option<DbError>)
      requires Valid()
      modifies this
      ensures Valid() && failing == old(failing)
      ensures CreateItemCall in failing ==>
                id == -1 && err == Some(Unavailable) && rows == old(rows) && nextId == old(nextId)
      ensures CreateItemCall !in failing && HasKey(old(rows), item.userId, item.productId) ==>
                id == -1 && err == Some(DuplicateKey) && rows == old(rows) && nextId == old(nextId)
      ensures CreateItemCall !in failing && !HasKey(old(rows), item.userId, item.productId) ==>
                && err == None && id == old(nextId) && id > 0
                && rows == old(rows) + [Inserted(item, id)]
                && nextId == old(nextId) + 1
    {
      if CreateItemCall in failing {
        return -1, Some(Unavailable);
      }
      if HasKey(rows, item.userId, item.productId) {
        return -1, Some(DuplicateKey);
      }
      id := nextId;
      ghost var before := rows;
      rows := rows + [Inserted(item, id)];
      nextId := nextId + 1;
      err := None;
      forall i, j | 0 <= i < j < |rows|
        ensures LineIdBefore(rows[i], rows[j]) && DifferentKey(rows[i], rows[j])
      {
        if j < |before| {
          assert LineIdBefore(before[i], before[j]) && DifferentKey(before[i], before[j]);
        }
      }
    }

    /** `Save(item)` for a row that already exists: every column is
        overwritten; an id with no row is a no-op that still succeeds. */
    method UpdateItem(item: CartItem) returns (err: Option<DbError>)
      requires Valid()
      modifies this
      ensures Valid() && failing == old(failing) && nextId == old(nextId)
      ensures UpdateItemCall in failing ==> err == Some(Unavailable) && rows == old(rows)
      ensures UpdateItemCall !in failing && FindItem(old(rows), item.id).None? ==>
                err == None && rows == old(rows)
      ensures UpdateItemCall !in failing && FindItem(old(rows), item.id).Some? && KeyTakenByOther(old(rows), item) ==>
                err == Some(DuplicateKey) && rows == old(rows)
      ensures UpdateItemCall !in failing && FindItem(old(rows), item.id).Some? && !KeyTakenByOther(old(rows), item) ==>
                err == None && rows == ReplaceRow(old(rows), item)
    {
      if UpdateItemCall in failing {
        return Some(Unavailable);
      }
      if FindItem(rows, item.id).None? {
        return None;
      }
      if KeyTakenByOther(rows, item) {
        return Some(DuplicateKey);
      }
      ghost var before := rows;
      rows := ReplaceRow(rows, item);
      err := None;
      forall i, j | 0 <= i < j < |rows|
        ensures LineIdBefore(rows[i], rows[j]) && DifferentKey(rows[i], rows[j])
      {
        assert LineIdBefore(before[i], before[j]) && DifferentKey(before[i], before[j]);
      }
    }

    /** `Delete(&ShoppingCartItem{ID: id, UserID: userId})`: gorm deletes by
        primary key alone, so `userId` does not restrict the delete; deleting
        an absent id succeeds, and a zero id leaves no WHERE clause, which gorm
        refuses before the statement reaches the database. */
    method DeleteItemById(id: int, userId: int) returns (err: Option<DbError>)
      requires Valid()
      modifies this
      ensures Valid() && failing == old(failing) && nextId == old(nextId)
      ensures id == 0 ==> err == Some(MissingWhereClause) && rows == old(rows)
      ensures id != 0 && DeleteByIdCall in failing ==> err == Some(Unavailable) && rows == old(rows)
      ensures id != 0 && DeleteByIdCall !in failing ==> err == None && rows == WithoutId(old(rows), id)
    {
      if id == 0 {
        return Some(MissingWhereClause);
      }
      if DeleteByIdCall in failing {
        return Some(Unavailable);
      }
      FilterKeepsKeyed(rows, nextId, OtherId(id));
      rows := WithoutId(rows, id);
      err := None;
    }

    /** Deletes this user's rows for the listed products. */
    method DeleteByProductIds(userId: int, productIds: seq<int>) returns (err: Option<DbError>)
      requires Valid()
      modifies this
      ensures Valid() && failing == old(failing) && nextId == old(nextId)
      ensures DeleteByProductIdsCall in failing ==> err == Some(Unavailable) && rows == old(rows)
      ensures DeleteByProductIdsCall !in failing ==>
                err == None && rows == WithoutProducts(old(rows), userId, productIds)
    {
      if DeleteByProductIdsCall in failing {
        return Some(Unavailable);
      }
      FilterKeepsKeyed(rows, nextId, NotBought(userId, productIds));
      rows := WithoutProducts(rows, userId, productIds);
      err := None;
    }

    /** A missing row is (nil, nil); only other failures are errors. */
    method GetItemById(id: int) returns (item: Option<CartItem>, err: Option<DbError>)
      ensures GetItemCall in failing ==> item == None && err == Some(Unavailable)
      ensures GetItemCall !in failing ==> err == None && item == FindItem(rows, id)
      ensures item.Some? ==> item.value in rows && item.value.id == id
    {
      if GetItemCall in failing {
        return None, Some(Unavailable);
      }
      item := FindItem(rows, id);
      err := None;
    }

    /** The rows matching the non-zero fields of `query`. */
    method QueryItems(query: CartItem) returns (items: seq<CartItem>, err: Option<DbError>)
      ensures QueryCall in failing ==> items == [] && err == Some(Unavailable)
      ensures QueryCall !in failing ==> err == None && items == QueryResult(rows, query)
      ensures forall i :: 0 <= i < |items| ==> items[i] in rows && MatchesItemQuery(query, items[i])
    {
      if QueryCall in failing {
        return [], Some(Unavailable);
      }
      items := QueryResult(rows, query);
      err := None;
    }
  }
}
