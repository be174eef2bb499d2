/** The `products` table and the statements the product DAO issues against it. */
module ProductDao {
  import opened Model
  import opened Seqs

  /** The table operations, one per DAO method; `ProductTable.failing` names
      those the database currently rejects. */
  datatype ProductCall =
    | CreateCall
    | CasCall
    | GetByIdCall
    | GetByIdsCall
    | StatusCall
    | StockCall
    | ListCall

  function ProductIdBefore(a: Product, b: Product): bool
  {
    a.id < b.id
  }

  /** Primary keys are positive, strictly increasing in row order and below
      the next auto-increment value. */
  ghost predicate ProductRowsKeyed(rows: seq<Product>, nextId: int)
  {
    && nextId > 0
    && Pairwise(rows, ProductIdBefore)
    && forall i :: 0 <= i < |rows| ==> 0 < rows[i].id < nextId
  }

  /** `SELECT ... WHERE id = ? LIMIT 1`. */
  function FindProduct(rows: seq<Product>, id: int): (r: Option<Product>)
    ensures r.Some? ==> r.value in rows && r.value.id == id
    ensures r.None? <==> forall i :: 0 <= i < |rows| ==> rows[i].id != id
  {
    if rows == [] then None
    else if rows[0].id == id then Some(rows[0])
    else FindProduct(rows[1..], id)
  }

  /** With unique keys, the row found for `id` is the one holding it. */
  lemma {:induction false} FindProductKeyed(rows: seq<Product>, nextId: int, k: int)
    requires ProductRowsKeyed(rows, nextId)
    requires 0 <= k < |rows|
    ensures FindProduct(rows, rows[k].id) == Some(rows[k])
  {
    if k > 0 {
      assert ProductIdBefore(rows[0], rows[k]);
      assert ProductRowsKeyed(rows[1..], nextId) by {
        forall i, j | 0 <= i < j < |rows| - 1 ensures ProductIdBefore(rows[1..][i], rows[1..][j]) {
          assert ProductIdBefore(rows[i + 1], rows[j + 1]);
        }
      }
      FindProductKeyed(rows[1..], nextId, k - 1);
    }
  }

  /** The single-column assignments of the DAO's UPDATE statements. */
  datatype Assignment = SetStock(stock: int) | SetStatus(status: int)

  /** A row after `UPDATE products SET <column> = ?`; gorm refreshes
      `updated_at` on every such update. */
  function Assign(p: Product, a: Assignment, now: int): (r: Product)
    ensures a.SetStock? ==> r.stock == a.stock && r.(stock := p.stock, updatedAt := p.updatedAt) == p
    ensures a.SetStatus? ==> r.status == a.status && r.(status := p.status, updatedAt := p.updatedAt) == p
    ensures r.updatedAt == now
  {
    match a
    case SetStock(s) => p.(stock := s, updatedAt := now)
    case SetStatus(s) => p.(status := s, updatedAt := now)
  }

  /** Does the WHERE clause `id = ? [AND version = ?]` select `p`? */
  function Targets(p: Product, id: int, version: Option<int>): bool
  {
    p.id == id && (version.None? || p.version == version.value)
  }

  /** The table after `UPDATE products SET <a> WHERE id = ? [AND version = ?]`. */
  function UpdateWhere(rows: seq<Product>, id: int, version: Option<int>, a: Assignment, now: int): (r: seq<Product>)
    ensures |r| == |rows|
    ensures forall i :: 0 <= i < |rows| ==> r[i].id == rows[i].id && r[i].version == rows[i].version
    ensures forall i :: 0 <= i < |rows| && !Targets(rows[i], id, version) ==> r[i] == rows[i]
    ensures forall i :: 0 <= i < |rows| && Targets(rows[i], id, version) ==> r[i] == Assign(rows[i], a, now)
  {
    seq(|rows|, i requires 0 <= i < |rows| => if Targets(rows[i], id, version) then Assign(rows[i], a, now) else rows[i])
  }

  /** Number of rows the UPDATE touches is non-zero. */
  function Affects(rows: seq<Product>, id: int, version: Option<int>): bool
  {
    exists i :: 0 <= i < |rows| && Targets(rows[i], id, version)
  }

  /** An UPDATE that selects no row leaves the table as it was: a CAS whose
      version is stale is a silent no-op. */
  lemma UpdateWhereMissNoop(rows: seq<Product>, id: int, version: Option<int>, a: Assignment, now: int)
    requires !Affects(rows, id, version)
    ensures UpdateWhere(rows, id, version, a, now) == rows
  {
    var r := UpdateWhere(rows, id, version, a, now);
    assert forall i :: 0 <= i < |rows| ==> r[i] == rows[i];
  }

  /** An UPDATE keeps the keys, and reading the row back yields the assigned row. */
  lemma {:induction false} UpdateWhereFind(rows: seq<Product>, nextId: int, id: int, version: Option<int>, a: Assignment, now: int)
    requires ProductRowsKeyed(rows, nextId)
    ensures ProductRowsKeyed(UpdateWhere(rows, id, version, a, now), nextId)
    ensures FindProduct(rows, id).Some? && Targets(FindProduct(rows, id).value, id, version) ==>
              FindProduct(UpdateWhere(rows, id, version, a, now), id) == Some(Assign(FindProduct(rows, id).value, a, now))
    ensures FindProduct(rows, id).Some? && !Targets(FindProduct(rows, id).value, id, version) ==>
              FindProduct(UpdateWhere(rows, id, version, a, now), id) == FindProduct(rows, id)
    ensures FindProduct(rows, id).None? ==> FindProduct(UpdateWhere(rows, id, version, a, now), id).None?
  {
    var r := UpdateWhere(rows, id, version, a, now);
    assert ProductRowsKeyed(r, nextId) by {
      forall i, j | 0 <= i < j < |r| ensures ProductIdBefore(r[i], r[j]) {
        assert ProductIdBefore(rows[i], rows[j]);
      }
    }
    var f := FindProduct(rows, id);
    if f.Some? {
      var k :| 0 <= k < |rows| && rows[k] == f.value;
      FindProductKeyed(rows, nextId, k);
      FindProductKeyed(r, nextId, k);
    }
  }

  /** No row holds a negative stock (the invariant of the data model). */
  ghost predicate StockNonNegative(rows: seq<Product>)
  {
    forall i :: 0 <= i < |rows| ==> rows[i].stock >= 0
  }

  /** Writing a non-negative stock, or any status, keeps every stock non-negative. */
  lemma StockStaysNonNegative(rows: seq<Product>, id: int, version: Option<int>, a: Assignment, now: int)
    requires StockNonNegative(rows)
    requires a.SetStock? ==> a.stock >= 0
    ensures StockNonNegative(UpdateWhere(rows, id, version, a, now))
  {
  }

  /** The query parameters of ListProduct. */
  datatype ListProductQuery = ListProductQuery(
    keyword: string,
    category: string,
    offset: int,
    limit: int,
    isCustomer: bool,
    orderBy: int)  // 0: updated_at descending, otherwise ascending

  datatype ProductPage = ProductPage(products: seq<Product>, total: int)

  /** `name LIKE '%keyword%'`, read as a plain substring test. */
  function Contains(name: string, keyword: string): (b: bool)
    ensures b <==> exists i :: 0 <= i <= |name| && keyword <= name[i..]
  {
    if keyword <= name then
      assert keyword <= name[0..];
      true
    else if name == [] then
      false
    else
      var b := Contains(name[1..], keyword);
      assert forall i :: 1 <= i <= |name| ==> name[i..] == name[1..][i - 1..];
      assert b ==> exists i :: 0 <= i <= |name| && keyword <= name[i..] by {
        if b {
          var i :| 0 <= i <= |name[1..]| && keyword <= name[1..][i..];
          assert name[1..][i..] == name[i + 1..];
        }
      }
      b
  }

  /** The WHERE clauses ListProduct adds, each only when its parameter is set. */
  function Matches(q: ListProductQuery, p: Product): bool
  {
    && (q.keyword != "" ==> Contains(p.name, q.keyword))
    && (q.category != "" ==> p.category == q.category)
    && (q.isCustomer ==> p.status == ProductStatusPublished)
  }

  function MatchesQuery(q: ListProductQuery): Product -> bool
  {
    (p: Product) => Matches(q, p)
  }

  /** The rows ListProduct counts. */
  function Matching(rows: seq<Product>, q: ListProductQuery): seq<Product>
  {
    Filter(rows, MatchesQuery(q))
  }

  /** `ORDER BY updated_at DESC` when `newestFirst`, else `ORDER BY updated_at`. */
  function Precedes(a: Product, b: Product, newestFirst: bool): bool
  {
    if newestFirst then a.updatedAt >= b.updatedAt else a.updatedAt <= b.updatedAt
  }

  ghost predicate OrderedBy(s: seq<Product>, newestFirst: bool)
  {
    forall i, j :: 0 <= i < j < |s| ==> Precedes(s[i], s[j], newestFirst)
  }

  function InsertOrdered(p: Product, s: seq<Product>, newestFirst: bool): (r: seq<Product>)
    requires OrderedBy(s, newestFirst)
    ensures OrderedBy(r, newestFirst)
    ensures multiset(r) == multiset(s) + multiset{p}
  {
    if s == [] || Precedes(p, s[0], newestFirst) then
      ConsOrdered(p, s, newestFirst);
      [p] + s
    else
      TailOrdered(s, newestFirst);
      var rest := InsertOrdered(p, s[1..], newestFirst);
      InsertStep(p, s, rest, newestFirst);
      [s[0]] + rest
  }

  lemma TailOrdered(s: seq<Product>, newestFirst: bool)
    requires s != [] && OrderedBy(s, newestFirst)
    ensures OrderedBy(s[1..], newestFirst)
  {
    forall i, j | 0 <= i < j < |s| - 1 ensures Precedes(s[1..][i], s[1..][j], newestFirst) {
      assert s[1..][i] == s[i + 1] && s[1..][j] == s[j + 1];
    }
  }

  /** Inserting behind the head: the head still leads. */
  lemma InsertStep(p: Product, s: seq<Product>, rest: seq<Product>, newestFirst: bool)
    requires s != [] && OrderedBy(s, newestFirst) && !Precedes(p, s[0], newestFirst)
    requires OrderedBy(rest, newestFirst) && multiset(rest) == multiset(s[1..]) + multiset{p}
    ensures OrderedBy([s[0]] + rest, newestFirst)
    ensures multiset([s[0]] + rest) == multiset(s) + multiset{p}
  {
    assert s == [s[0]] + s[1..];
    forall x | x in multiset(rest) ensures Precedes(s[0], x, newestFirst) {
      if x != p {
        assert x in multiset(s[1..]);
        var k :| 0 <= k < |s[1..]| && s[1..][k] == x;
        assert s[k + 1] == x;
      }
    }
    ConsOrdered(s[0], rest, newestFirst);
  }

  /** An element that precedes everything in an ordered sequence may lead it. */
  lemma ConsOrdered(a: Product, t: seq<Product>, newestFirst: bool)
    requires OrderedBy(t, newestFirst)
    requires forall x | x in multiset(t) :: Precedes(a, x, newestFirst)
    ensures OrderedBy([a] + t, newestFirst)
  {
    var r := [a] + t;
    forall i, j | 0 <= i < j < |r| ensures Precedes(r[i], r[j], newestFirst) {
      if i == 0 {
        assert r[j] == t[j - 1] && t[j - 1] in multiset(t);
      } else {
        assert r[i] == t[i - 1] && r[j] == t[j - 1];
      }
    }
  }

  /** One order the database may return the rows in (ties among equal
      `updated_at` are broken arbitrarily). */
  function SortByUpdate(s: seq<Product>, newestFirst: bool): (r: seq<Product>)
    ensures OrderedBy(r, newestFirst)
    ensures multiset(r) == multiset(s)
  {
    if s == [] then []
    else
      assert s == [s[0]] + s[1..];
      InsertOrdered(s[0], SortByUpdate(s[1..], newestFirst), newestFirst)
  }

  function Min(a: int, b: int): int { if a < b then a else b }

  /** `OFFSET offset LIMIT limit`: a non-positive offset skips nothing and a
      negative limit (gorm drops it) takes everything after the offset. */
  function Window(s: seq<Product>, offset: int, limit: int): (r: seq<Product>)
    ensures var start := if offset > 0 then Min(offset, |s|) else 0;
            && |r| == (if limit < 0 then |s| - start else Min(limit, |s| - start))
            && forall i :: 0 <= i < |r| ==> r[i] == s[start + i]
  {
    var start := if offset > 0 then Min(offset, |s|) else 0;
    var end := if limit < 0 then |s| else Min(start + limit, |s|);
    s[start..end]
  }

  /** The DAO's view of the `products` table. */
  class ProductTable {
    var rows: seq<Product>
    var nextId: int
    var failing: set<ProductCall>

    ghost predicate Valid()
      reads this
    {
      ProductRowsKeyed(rows, nextId)
    }

    constructor ()
      ensures Valid() && rows == [] && nextId == 1 && failing == {}
    {
      rows := [];
      nextId := 1;
      failing := {};
    }

    /** Inserts `p` under the next auto-increment id and returns that id. */
    method CreateProduct(p: Product, now: int) returns (id: int, err: Option<DbError>)
      requires Valid()
      modifies this
      ensures Valid() && failing == old(failing)
      ensures CreateCall in failing ==>
                id == 0 && err == Some(Unavailable) && rows == old(rows) && nextId == old(nextId)
      ensures CreateCall !in failing ==>
                && err == None && id == old(nextId) && id > 0
                && rows == old(rows) + [p.(id := id, updatedAt := now)]
                && nextId == old(nextId) + 1
                && FindProduct(rows, id) == Some(p.(id := id, updatedAt := now))
    {
      if CreateCall in failing {
        return 0, Some(Unavailable);
      }
      id := nextId;
      var row := p.(id := id, updatedAt := now);
      rows := rows + [row];
      nextId := nextId + 1;
      err := None;
      assert ProductRowsKeyed(rows, nextId) by {
        forall i, j | 0 <= i < j < |rows| ensures ProductIdBefore(rows[i], rows[j]) {
          if j < |rows| - 1 {
            assert ProductIdBefore(old(rows)[i], old(rows)[j]);
          }
        }
      }
      FindProductKeyed(rows, nextId, |rows| - 1);
    }

    /** `UPDATE products SET stock = newStock WHERE id = ? AND version = ?`;
        the number of rows affected is not looked at and the version is
        left as it is. */
    method UpdateStockWithCAS(id: int, version: int, newStock: int, now: int) returns (err: Option<DbError>)
      requires Valid()
      modifies this
      ensures Valid() && failing == old(failing) && nextId == old(nextId)
      ensures CasCall in failing ==> err == Some(Unavailable) && rows == old(rows)
      ensures CasCall !in failing ==>
                err == None && rows == UpdateWhere(old(rows), id, Some(version), SetStock(newStock), now)
    {
      if CasCall in failing {
        return Some(Unavailable);
      }
      UpdateWhereFind(rows, nextId, id, Some(version), SetStock(newStock), now);
      rows := UpdateWhere(rows, id, Some(version), SetStock(newStock), now);
      err := None;
    }

    /** `First` by id: a missing row is an error, never an empty answer. */
    method GetProductByID(id: int) returns (r: Result<Product, DbError>)
      ensures GetByIdCall in failing ==> r == Err(Unavailable)
      ensures GetByIdCall !in failing && FindProduct(rows, id).None? ==> r == Err(RecordNotFound)
      ensures GetByIdCall !in failing && FindProduct(rows, id).Some? ==>
                r.Ok? && r.value in rows && r.value.id == id
      ensures r.Ok? ==> Some(r.value) == FindProduct(rows, id)
    {
      if GetByIdCall in failing {
        return Err(Unavailable);
      }
      var f := FindProduct(rows, id);
      if f.None? {
        return Err(RecordNotFound);
      }
      r := Ok(f.value);
    }

    /** `WHERE id IN ids`: the rows whose id is listed, absent ids omitted. */
    method GetProductByIDs(ids: seq<int>) returns (r: Result<seq<Product>, DbError>)
      ensures GetByIdsCall in failing <==> r.Err?
      ensures r.Err? ==> r.error == Unavailable
      ensures r.Ok? ==> r.value == ByIds(rows, ids)
      ensures r.Ok? ==> forall p :: p in rows && p.id in ids ==> p in r.value
      ensures r.Ok? ==> forall i :: 0 <= i < |r.value| ==> r.value[i] in rows && r.value[i].id in ids
    {
      if GetByIdsCall in failing {
        return Err(Unavailable);
      }
      r := Ok(ByIds(rows, ids));
    }

    /** `UPDATE products SET status = ? WHERE id = ?`; no row matched is an error. */
    method UpdateProductStatus(id: int, status: int, now: int) returns (err: Option<DbError>)
      requires Valid()
      modifies this
      ensures Valid() && failing == old(failing) && nextId == old(nextId)
      ensures StatusCall in failing ==> err == Some(Unavailable) && rows == old(rows)
      ensures StatusCall !in failing && !Affects(old(rows), id, None) ==>
                err == Some(NoRowsAffected) && rows == old(rows)
      ensures StatusCall !in failing && Affects(old(rows), id, None) ==>
                err == None && rows == UpdateWhere(old(rows), id, None, SetStatus(status), now)
    {
      if StatusCall in failing {
        return Some(Unavailable);
      }
      if !Affects(rows, id, None) {
        return Some(NoRowsAffected);
      }
      UpdateWhereFind(rows, nextId, id, None, SetStatus(status), now);
      rows := UpdateWhere(rows, id, None, SetStatus(status), now);
      err := None;
    }

    /** `UPDATE products SET stock = ? WHERE id = ?`; no row matched is an error. */
    method UpdateProductStock(id: int, stock: int, now: int) returns (err: Option<DbError>)
      requires Valid()
      modifies this
      ensures Valid() && failing == old(failing) && nextId == old(nextId)
      ensures StockCall in failing ==> err == Some(Unavailable) && rows == old(rows)
      ensures StockCall !in failing && !Affects(old(rows), id, None) ==>
                err == Some(NoRowsAffected) && rows == old(rows)
      ensures StockCall !in failing && Affects(old(rows), id, None) ==>
                err == None && rows == UpdateWhere(old(rows), id, None, SetStock(stock), now)
    {
      if StockCall in failing {
        return Some(Unavailable);
      }
      if !Affects(rows, id, None) {
        return Some(NoRowsAffected);
      }
      UpdateWhereFind(rows, nextId, id, None, SetStock(stock), now);
      rows := UpdateWhere(rows, id, None, SetStock(stock), now);
      err := None;
    }

    /** Filters, orders and pages the table. `total` counts every matching
        row; the page is the window of one admissible ordering, `ordered`. */
    method ListProduct(q: ListProductQuery) returns (r: Result<ProductPage, DbError>, ghost ordered: seq<Product>)
      ensures ListCall in failing <==> r.Err?
      ensures r.Ok? ==>
                && r.value.total == |Matching(rows, q)|
                && multiset(ordered) == multiset(Matching(rows, q))
                && OrderedBy(ordered, q.orderBy == 0)
                && r.value.products == Window(ordered, q.offset, if q.limit == 0 then 10 else q.limit)
      ensures r.Ok? ==> forall i :: 0 <= i < |r.value.products| ==>
                r.value.products[i] in rows && Matches(q, r.value.products[i])
      ensures r.Ok? && q.limit >= 0 ==> |r.value.products| <= (if q.limit == 0 then 10 else q.limit)
    {
      var limit := q.limit;
      if limit == 0 {
        limit := 10;
      }
      if ListCall in failing {
        return Err(Unavailable), [];
      }
      var matching := Matching(rows, q);
      var sorted := SortByUpdate(matching, q.orderBy == 0);
      ordered := sorted;
      var page := Window(sorted, q.offset, limit);
      forall i | 0 <= i < |page| ensures page[i] in rows && Matches(q, page[i]) {
        assert page[i] in multiset(ordered);
        assert page[i] in multiset(matching);
      }
      r := Ok(ProductPage(page, |matching|));
    }
  }

  function IdIn(ids: seq<int>): Product -> bool
  {
    (p: Product) => p.id in ids
  }

  /** The rows `WHERE id IN ids`, in table order. */
  function ByIds(rows: seq<Product>, ids: seq<int>): seq<Product>
  {
    Filter(rows, IdIn(ids))
  }
}
