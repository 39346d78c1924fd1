/**
 * CatalogServices: the catalog table, the queries over it (filter, order by
 * Name, skip/take paging, picture URIs) and the create, update and delete
 * operations with their result codes.
 *
 * The CatalogContext's CatalogItems table is the sequence `table` (queries)
 * or the field `catalogItems` (operations that write it); the number of rows
 * SaveChangesAsync reports is a parameter `saved`.
 */
module Catalog {
  import Wrappers
  import opened Int32
  import opened Text
  import opened Paging

  /** A C# null reference or an empty `int?`. */
  datatype Nullable<T> = Null | NonNull(value: T)

  datatype CatalogItem = CatalogItem(
    id: int,
    name: string,
    description: string,
    price: real,
    pictureFileName: string,
    pictureUri: string,
    catalogTypeId: int,
    catalogBrandId: int,
    availableStock: int,
    onReorder: bool)

  /** The StaticValue status codes the service answers with. */
  datatype StatusCode = SuccessReturnModel | SuccessReturnNotModel | NotFoundCode

  /** The StaticValue error messages. */
  datatype CatalogError = ProductNotFound

  /** Common.Result.Response<T>. */
  datatype Response<T> = Success(data: T, statusCode: StatusCode) | Fail(error: CatalogError, statusCode: StatusCode)

  datatype NoContent = NoContent

  /** PaginatedItemsViewModel<CatalogItemDto>. */
  datatype PaginatedItems = PaginatedItems(pageIndex: int, pageSize: int, count: int, data: seq<CatalogItem>)

  /** SingleOrDefault throws when two rows match. */
  datatype QueryFault = MoreThanOneElement

  datatype Outcome<T> = Returned(value: T) | Threw(fault: QueryFault)

  // ---------------------------------------------------------------- picture URIs

  /** `item.PictureUri = baseUri + item.PictureFileName`, nothing else changed. */
  function WithPictureUri(item: CatalogItem, baseUri: string): (r: CatalogItem)
    ensures r.pictureUri == baseUri + item.pictureFileName
    ensures r.(pictureUri := item.pictureUri) == item
  {
    item.(pictureUri := baseUri + item.pictureFileName)
  }

  /** One list entry after ChangeUriPlaceHolder: null entries stay null. */
  function PlaceUri(entry: Nullable<CatalogItem>, baseUri: string): Nullable<CatalogItem> {
    if entry.NonNull? then NonNull(WithPictureUri(entry.value, baseUri)) else Null
  }

  /** Placing the URIs twice is placing them once. */
  lemma PlaceUriIdempotent(entry: Nullable<CatalogItem>, baseUri: string)
    ensures PlaceUri(PlaceUri(entry, baseUri), baseUri) == PlaceUri(entry, baseUri)
  {
  }

  /** ChangeUriPlaceHolder on a list with no null entry. */
  function WithUris(items: seq<CatalogItem>, baseUri: string): (r: seq<CatalogItem>)
    ensures |r| == |items|
    ensures forall i :: 0 <= i < |items| ==> r[i] == WithPictureUri(items[i], baseUri)
  {
    seq(|items|, i requires 0 <= i < |items| => WithPictureUri(items[i], baseUri))
  }

  lemma WithUrisMembers(items: seq<CatalogItem>, baseUri: string)
    ensures forall x :: x in WithUris(items, baseUri) ==>
      x.pictureUri == baseUri + x.pictureFileName
      && exists y :: y in items && x == WithPictureUri(y, baseUri)
  {
    var r := WithUris(items, baseUri);
    forall x | x in r
      ensures x.pictureUri == baseUri + x.pictureFileName
      ensures exists y :: y in items && x == WithPictureUri(y, baseUri)
    {
      var i :| 0 <= i < |r| && r[i] == x;
      assert items[i] in items;
    }
  }

  // ---------------------------------------------------------------- filtering

  /** Queryable.Where, keeping the order of the rows. */
  function Where(s: seq<CatalogItem>, p: CatalogItem -> bool): (r: seq<CatalogItem>)
    ensures |r| <= |s|
    ensures forall x :: x in r <==> x in s && p(x)
    decreases |s|
  {
    if s == [] then []
    else if p(s[0]) then [s[0]] + Where(s[1..], p)
    else Where(s[1..], p)
  }

  /**
   * Where keeps every matching row as often as the input holds it and drops
   * every other, so |Where(s, p)| counts the matching rows.
   */
  lemma {:induction false} WhereCounts(s: seq<CatalogItem>, p: CatalogItem -> bool)
    ensures forall x :: multiset(Where(s, p))[x] == if p(x) then multiset(s)[x] else 0
    decreases |s|
  {
    if s != [] {
      WhereCounts(s[1..], p);
      assert s == [s[0]] + s[1..];
    }
  }

  lemma {:induction false} WhereAll(s: seq<CatalogItem>, p: CatalogItem -> bool)
    requires forall x :: x in s ==> p(x)
    ensures Where(s, p) == s
    decreases |s|
  {
    if s != [] {
      WhereAll(s[1..], p);
      assert s == [s[0]] + s[1..];
    }
  }

  /** Two filters in a row are one filter on both conditions. */
  lemma {:induction false} WhereWhere(s: seq<CatalogItem>, p: CatalogItem -> bool, q: CatalogItem -> bool, pq: CatalogItem -> bool)
    requires forall x :: pq(x) == (p(x) && q(x))
    ensures Where(Where(s, p), q) == Where(s, pq)
    decreases |s|
  {
    if s != [] {
      WhereWhere(s[1..], p, q, pq);
    }
  }

  /** The optional brand filter: no brand id given matches every item. */
  predicate BrandMatches(item: CatalogItem, catalogBrandId: Nullable<int>) {
    catalogBrandId.Null? || item.catalogBrandId == catalogBrandId.value
  }

  // ---------------------------------------------------------------- ordering by Name

  /** Every name is ordinally at most every later name. */
  predicate SortedByName(s: seq<CatalogItem>) {
    forall i, j :: 0 <= i < j < |s| ==> OrdinalLeq(s[i].name, s[j].name)
  }

  function InsertByName(x: CatalogItem, s: seq<CatalogItem>): (r: seq<CatalogItem>)
    requires SortedByName(s)
    ensures multiset(r) == multiset(s) + multiset{x}
    ensures SortedByName(r)
    decreases |s|
  {
    if s == [] then [x]
    else if OrdinalLeq(x.name, s[0].name) then
      HeadBelowSorted(x, s);
      [x] + s
    else
      var rest := InsertByName(x, s[1..]);
      InsertBehindHead(x, s, rest);
      [s[0]] + rest
  }

  /** An item ordered before the head of a sorted sequence can go in front. */
  lemma HeadBelowSorted(x: CatalogItem, s: seq<CatalogItem>)
    requires SortedByName(s) && s != [] && OrdinalLeq(x.name, s[0].name)
    ensures SortedByName([x] + s)
  {
    forall i, j | 0 <= i < j < |[x] + s|
      ensures OrdinalLeq(([x] + s)[i].name, ([x] + s)[j].name)
    {
      if i == 0 && j > 1 {
        OrdinalLeqTransitive(x.name, s[0].name, s[j - 1].name);
      }
    }
  }

  /** The recursive case of InsertByName keeps the head in front. */
  lemma InsertBehindHead(x: CatalogItem, s: seq<CatalogItem>, rest: seq<CatalogItem>)
    requires SortedByName(s) && s != [] && !OrdinalLeq(x.name, s[0].name)
    requires SortedByName(rest) && multiset(rest) == multiset(s[1..]) + multiset{x}
    ensures multiset([s[0]] + rest) == multiset(s) + multiset{x}
    ensures SortedByName([s[0]] + rest)
  {
    OrdinalLeqTotal(x.name, s[0].name);
    assert s == [s[0]] + s[1..];
    var r := [s[0]] + rest;
    forall i, j | 0 <= i < j < |r|
      ensures OrdinalLeq(r[i].name, r[j].name)
    {
      if i == 0 {
        var y := rest[j - 1];
        assert y in multiset(rest);
        if y != x {
          assert y in multiset(s[1..]);
          var k :| 0 <= k < |s[1..]| && s[1..][k] == y;
          assert s[k + 1] == y;
        }
      } else {
        assert r[i] == rest[i - 1] && r[j] == rest[j - 1];
      }
    }
  }

  /** OrderBy((x: CatalogItem) => x.Name) under an ordinal collation: a sorted permutation. */
  function SortByName(s: seq<CatalogItem>): (r: seq<CatalogItem>)
    ensures multiset(r) == multiset(s) && |r| == |s|
    ensures SortedByName(r)
    decreases |s|
  {
    if s == [] then []
    else
      assert s == [s[0]] + s[1..];
      InsertByName(s[0], SortByName(s[1..]))
  }

  lemma SortedSlice(s: seq<CatalogItem>, start: int, end: int)
    requires SortedByName(s) && 0 <= start <= end <= |s|
    ensures SortedByName(s[start..end])
  {
    forall i, j | 0 <= i < j < end - start
      ensures OrdinalLeq(s[start..end][i].name, s[start..end][j].name)
    {
      assert s[start..end][i] == s[start + i] && s[start..end][j] == s[start + j];
    }
  }

  lemma SortedWithUris(s: seq<CatalogItem>, baseUri: string)
    requires SortedByName(s)
    ensures SortedByName(WithUris(s, baseUri))
  {
  }

  // ---------------------------------------------------------------- paged queries

  /** A page after ChangeUriPlaceHolder: a slice of `rows`, at most max(pageSize, 0) long, with URIs set. */
  lemma PageMembers(rows: seq<CatalogItem>, baseUri: string, pageSize: int, pageIndex: int)
    requires IsInt32(pageSize) && IsInt32(pageIndex)
    ensures var data := WithUris(Page(rows, pageSize, pageIndex), baseUri);
            && |data| <= (if pageSize > 0 then pageSize else 0)
            && (forall x :: x in data ==> x.pictureUri == baseUri + x.pictureFileName)
            && (forall x :: x in data ==> exists y :: y in rows && x == WithPictureUri(y, baseUri))
  {
    var page := Page(rows, pageSize, pageIndex);
    WithUrisMembers(page, baseUri);
    PageWithin(rows, pageSize, pageIndex);
  }

  /**
   * GetItemsAsync: the whole table's count, and one page of the table ordered
   * by Name.
   */
  function GetItems(table: seq<CatalogItem>, baseUri: string, pageSize: int, pageIndex: int): (r: Response<PaginatedItems>)
    requires IsInt32(pageSize) && IsInt32(pageIndex)
    ensures r.Success? && r.statusCode == SuccessReturnModel
    ensures r.data.pageIndex == pageIndex && r.data.pageSize == pageSize
    ensures r.data.count == |table|
    ensures |r.data.data| <= if pageSize > 0 then pageSize else 0
    ensures SortedByName(r.data.data)
    ensures forall x :: x in r.data.data ==> x.pictureUri == baseUri + x.pictureFileName
    ensures forall x :: x in r.data.data ==> exists y :: y in table && x == WithPictureUri(y, baseUri)
    ensures r.data.data == WithUris(Page(SortByName(table), pageSize, pageIndex), baseUri)
  {
    var page := Page(SortByName(table), pageSize, pageIndex);
    OrderedPageMembers(table, baseUri, pageSize, pageIndex);
    Success(PaginatedItems(pageIndex, pageSize, |table|, WithUris(page, baseUri)), SuccessReturnModel)
  }

  /** A page of sorted rows, URIs set, is sorted. */
  lemma OrderedPageSorted(ordered: seq<CatalogItem>, baseUri: string, pageSize: int, pageIndex: int)
    requires IsInt32(pageSize) && IsInt32(pageIndex) && SortedByName(ordered)
    ensures SortedByName(WithUris(Page(ordered, pageSize, pageIndex), baseUri))
  {
    var page := Page(ordered, pageSize, pageIndex);
    var off := Offset(pageSize, pageIndex);
    var start := if off <= 0 then 0 else if off >= |ordered| then |ordered| else off;
    assert start + |page| <= |ordered| && page == ordered[start..start + |page|];
    SortedSlice(ordered, start, start + |page|);
    SortedWithUris(page, baseUri);
  }

  /** A page of the table ordered by name, URIs set: short enough, still sorted, and drawn from the table. */
  lemma OrderedPageMembers(table: seq<CatalogItem>, baseUri: string, pageSize: int, pageIndex: int)
    requires IsInt32(pageSize) && IsInt32(pageIndex)
    ensures var data := WithUris(Page(SortByName(table), pageSize, pageIndex), baseUri);
            && |data| <= (if pageSize > 0 then pageSize else 0)
            && SortedByName(data)
            && (forall x :: x in data ==> x.pictureUri == baseUri + x.pictureFileName)
            && (forall x :: x in data ==> exists y :: y in table && x == WithPictureUri(y, baseUri))
  {
    var ordered := SortByName(table);
    var page := Page(ordered, pageSize, pageIndex);
    OrderedPageSorted(ordered, baseUri, pageSize, pageIndex);
    PageMembers(ordered, baseUri, pageSize, pageIndex);
    var data := WithUris(page, baseUri);
    forall x | x in data ensures exists y :: y in table && x == WithPictureUri(y, baseUri) {
      var y :| y in ordered && x == WithPictureUri(y, baseUri);
      assert y in multiset(ordered);
    }
  }

  /** The data of GetItems' pages 0 to count - 1, one after another. */
  function GetItemsPages(table: seq<CatalogItem>, baseUri: string, pageSize: int, count: nat): seq<CatalogItem>
    requires IsInt32(pageSize) && pageSize > 0 && IsInt32(count) && IsInt32(pageSize * count)
  {
    if count == 0 then []
    else
      PreviousOffset(pageSize, count);
      GetItemsPages(table, baseUri, pageSize, count - 1) + GetItems(table, baseUri, pageSize, count - 1).data.data
  }

  /**
   * Asking GetItems for pages 0, 1, ... until they cover the table, while the
   * offset fits in 32 bits, lists every row once, ordered by name, with its URI set.
   */
  lemma GetItemsPagesTile(table: seq<CatalogItem>, baseUri: string, pageSize: int, count: nat)
    requires IsInt32(pageSize) && pageSize > 0 && IsInt32(count) && IsInt32(pageSize * count)
    requires pageSize * count >= |table|
    ensures GetItemsPages(table, baseUri, pageSize, count) == WithUris(SortByName(table), baseUri)
  {
    GetItemsPagesArePages(table, baseUri, pageSize, count);
    PagesTile(SortByName(table), pageSize, count);
    assert SortByName(table)[..|table|] == SortByName(table);
  }

  lemma {:induction false} GetItemsPagesArePages(table: seq<CatalogItem>, baseUri: string, pageSize: int, count: nat)
    requires IsInt32(pageSize) && pageSize > 0 && IsInt32(count) && IsInt32(pageSize * count)
    ensures GetItemsPages(table, baseUri, pageSize, count) == WithUris(Pages(SortByName(table), pageSize, count), baseUri)
  {
    if count > 0 {
      PreviousOffset(pageSize, count);
      GetItemsPagesArePages(table, baseUri, pageSize, count - 1);
      GetItemsPagesStep(table, baseUri, pageSize, count);
    }
  }

  /** One more GetItems page extends the URI-set pages by one more page. */
  lemma GetItemsPagesStep(table: seq<CatalogItem>, baseUri: string, pageSize: int, count: nat)
    requires IsInt32(pageSize) && pageSize > 0 && IsInt32(count) && IsInt32(pageSize * count) && count > 0
    requires IsInt32(pageSize * (count - 1))
    requires GetItemsPages(table, baseUri, pageSize, count - 1) == WithUris(Pages(SortByName(table), pageSize, count - 1), baseUri)
    ensures GetItemsPages(table, baseUri, pageSize, count) == WithUris(Pages(SortByName(table), pageSize, count), baseUri)
  {
    var ordered := SortByName(table);
    var earlier := Pages(ordered, pageSize, count - 1);
    var last := Page(ordered, pageSize, count - 1);
    assert Pages(ordered, pageSize, count) == earlier + last;
    WithUrisAppend(earlier, last, baseUri);
  }

  lemma WithUrisAppend(a: seq<CatalogItem>, b: seq<CatalogItem>, baseUri: string)
    ensures WithUris(a + b, baseUri) == WithUris(a, baseUri) + WithUris(b, baseUri)
  {
    assert forall i :: 0 <= i < |a| + |b| ==> WithUris(a + b, baseUri)[i] == (WithUris(a, baseUri) + WithUris(b, baseUri))[i];
  }

  /**
   * `if (catalogBrandId.HasValue) root = root.Where((x: CatalogItem) => x.CatalogBrandId == catalogBrandId)`:
   * the same rows as filtering on BrandMatches.
   */
  function BrandFiltered(root: seq<CatalogItem>, catalogBrandId: Nullable<int>): (r: seq<CatalogItem>)
    ensures r == Where(root, (x: CatalogItem) => BrandMatches(x, catalogBrandId))
  {
    if catalogBrandId.NonNull? then
      WhereSame(root, (x: CatalogItem) => x.catalogBrandId == catalogBrandId.value, (x: CatalogItem) => BrandMatches(x, catalogBrandId));
      Where(root, (x: CatalogItem) => x.catalogBrandId == catalogBrandId.value)
    else
      WhereAll(root, (x: CatalogItem) => BrandMatches(x, catalogBrandId));
      root
  }

  lemma {:induction false} WhereSame(s: seq<CatalogItem>, p: CatalogItem -> bool, q: CatalogItem -> bool)
    requires forall x :: p(x) == q(x)
    ensures Where(s, p) == Where(s, q)
    decreases |s|
  {
    if s != [] {
      WhereSame(s[1..], p, q);
    }
  }

  /**
   * ItemByBrandIdAsync: the optional brand filter is applied before both the
   * count and the page; rows keep the table's order.
   */
  function ItemByBrandId(table: seq<CatalogItem>, baseUri: string, catalogBrandId: Nullable<int>, pageSize: int, pageIndex: int)
    : (r: Response<PaginatedItems>)
    requires IsInt32(pageSize) && IsInt32(pageIndex)
    ensures r.Success? && r.statusCode == SuccessReturnModel
    ensures r.data.pageIndex == pageIndex && r.data.pageSize == pageSize
    ensures r.data.count == |Where(table, (x: CatalogItem) => BrandMatches(x, catalogBrandId))|
    ensures |r.data.data| <= if pageSize > 0 then pageSize else 0
    ensures forall x :: x in r.data.data ==> BrandMatches(x, catalogBrandId)
    ensures forall x :: x in r.data.data ==> x.pictureUri == baseUri + x.pictureFileName
    ensures forall x :: x in r.data.data ==>
      exists y :: y in table && BrandMatches(y, catalogBrandId) && x == WithPictureUri(y, baseUri)
    ensures r.data.data ==
      WithUris(Page(Where(table, (x: CatalogItem) => BrandMatches(x, catalogBrandId)), pageSize, pageIndex), baseUri)
  {
    var root := BrandFiltered(table, catalogBrandId);
    PageMembers(root, baseUri, pageSize, pageIndex);
    Success(PaginatedItems(pageIndex, pageSize, |root|, WithUris(Page(root, pageSize, pageIndex), baseUri)), SuccessReturnModel)
  }

  /** The type filter of ItemByTypeIdAndBrandIdAsync together with the optional brand filter. */
  predicate TypeAndBrandMatch(item: CatalogItem, catalogTypeId: int, catalogBrandId: Nullable<int>) {
    item.catalogTypeId == catalogTypeId && BrandMatches(item, catalogBrandId)
  }

  /**
   * ItemByTypeIdAndBrandIdAsync: the type filter and the optional brand
   * filter are applied before both the count and the page.
   */
  function ItemByTypeIdAndBrandId(
    table: seq<CatalogItem>, baseUri: string, catalogTypeId: int, catalogBrandId: Nullable<int>,
    pageSize: int, pageIndex: int): (r: Response<PaginatedItems>)
    requires IsInt32(pageSize) && IsInt32(pageIndex)
    ensures r.Success? && r.statusCode == SuccessReturnModel
    ensures r.data.pageIndex == pageIndex && r.data.pageSize == pageSize
    ensures r.data.count == |Where(table, (x: CatalogItem) => TypeAndBrandMatch(x, catalogTypeId, catalogBrandId))|
    ensures |r.data.data| <= if pageSize > 0 then pageSize else 0
    ensures forall x :: x in r.data.data ==> TypeAndBrandMatch(x, catalogTypeId, catalogBrandId)
    ensures forall x :: x in r.data.data ==> x.pictureUri == baseUri + x.pictureFileName
    ensures forall x :: x in r.data.data ==>
      exists y :: y in table && TypeAndBrandMatch(y, catalogTypeId, catalogBrandId) && x == WithPictureUri(y, baseUri)
    ensures r.data.data ==
      WithUris(Page(Where(table, (x: CatalogItem) => TypeAndBrandMatch(x, catalogTypeId, catalogBrandId)), pageSize, pageIndex), baseUri)
  {
    var byType := Where(table, (x: CatalogItem) => x.catalogTypeId == catalogTypeId);
    var root := BrandFiltered(byType, catalogBrandId);
    WhereWhere(table, (x: CatalogItem) => x.catalogTypeId == catalogTypeId, (x: CatalogItem) => BrandMatches(x, catalogBrandId),
               (x: CatalogItem) => TypeAndBrandMatch(x, catalogTypeId, catalogBrandId));
    PageMembers(root, baseUri, pageSize, pageIndex);
    Success(PaginatedItems(pageIndex, pageSize, |root|, WithUris(Page(root, pageSize, pageIndex), baseUri)), SuccessReturnModel)
  }

  /**
   * ItemWithNameAsync: the count is of the items whose Name starts with
   * `name`, but the page is GetItems' page of the whole table.
   */
  function ItemWithName(table: seq<CatalogItem>, baseUri: string, name: string, pageSize: int, pageIndex: int)
    : (r: Response<PaginatedItems>)
    requires IsInt32(pageSize) && IsInt32(pageIndex)
    ensures r.Success? && r.statusCode == SuccessReturnModel
    ensures r.data.pageIndex == pageIndex && r.data.pageSize == pageSize
    ensures r.data.count == |Where(table, (x: CatalogItem) => StartsWith(x.name, name))|
    ensures r.data.data == GetItems(table, baseUri, pageSize, pageIndex).data.data
  {
    var count := |Where(table, (x: CatalogItem) => StartsWith(x.name, name))|;
    var page := Page(SortByName(table), pageSize, pageIndex);
    Success(PaginatedItems(pageIndex, pageSize, count, WithUris(page, baseUri)), SuccessReturnModel)
  }

  /** The page of ItemWithName can hold items the count leaves out: here a count of 0 beside a page of one. */
  lemma ItemWithNamePageIgnoresName()
    ensures var item := CatalogItem(1, "Mug", "", 5.0, "mug.png", "", 1, 1, 10, false);
            var r := ItemWithName([item], "/pics/", "Hat", 10, 0);
            r.data.count == 0 && r.data.data == [WithPictureUri(item, "/pics/")]
  {
    var item := CatalogItem(1, "Mug", "", 5.0, "mug.png", "", 1, 1, 10, false);
    assert !StartsWith(item.name, "Hat");
    assert [item][1..] == [];
    assert Where([item], (x: CatalogItem) => StartsWith(x.name, "Hat")) == [];
    assert SortByName([item]) == InsertByName(item, []) == [item];
    assert Page([item], 10, 0) == [item];
    assert WithUris([item], "/pics/") == [WithPictureUri(item, "/pics/")];
  }

  // ---------------------------------------------------------------- lookup by id

  /** How SingleOrDefault((x: CatalogItem) => x.Id == id) ends. */
  datatype Single = NoMatch | Unique(index: nat) | ManyMatches

  function FindSingle(table: seq<CatalogItem>, id: int): (r: Single)
    ensures r.NoMatch? <==> forall i :: 0 <= i < |table| ==> table[i].id != id
    ensures r.Unique? ==> r.index < |table| && table[r.index].id == id
    ensures r.Unique? ==> forall j :: 0 <= j < |table| && j != r.index ==> table[j].id != id
    ensures r.ManyMatches? ==> exists i, j :: 0 <= i < j < |table| && table[i].id == id && table[j].id == id
    decreases |table|
  {
    if table == [] then NoMatch
    else
      var rest := FindSingle(table[1..], id);
      assert forall i :: 0 < i < |table| ==> table[i] == table[1..][i - 1];
      match rest
      case NoMatch => if table[0].id == id then Unique(0) else NoMatch
      case Unique(i) =>
        if table[0].id == id then
          assert table[i + 1].id == id;
          ManyMatches
        else Unique(i + 1)
      case ManyMatches =>
        var i, j :| 0 <= i < j < |table[1..]| && table[1..][i].id == id && table[1..][j].id == id;
        assert table[i + 1].id == id && table[j + 1].id == id;
        ManyMatches
  }

  /** Id is the table's key: no two rows share one. */
  predicate UniqueIds(table: seq<CatalogItem>) {
    forall i, j :: 0 <= i < j < |table| ==> table[i].id != table[j].id
  }

  /**
   * ItemByIdAsync: null when no row has the id; otherwise the row with its
   * picture URI (SingleOrDefault throws when two rows have it).
   */
  function ItemById(table: seq<CatalogItem>, baseUri: string, id: int): (r: Outcome<Nullable<Response<CatalogItem>>>)
    ensures r == Returned(Null) <==> forall i :: 0 <= i < |table| ==> table[i].id != id
    ensures r.Returned? && r.value.NonNull? ==>
      exists i :: 0 <= i < |table| && table[i].id == id
        && r.value.value == Success(WithPictureUri(table[i], baseUri), SuccessReturnModel)
    ensures UniqueIds(table) ==> r.Returned?
  {
    match FindSingle(table, id)
    case NoMatch => Returned(Null)
    case Unique(i) => Returned(NonNull(Success(WithPictureUri(table[i], baseUri), SuccessReturnModel)))
    case ManyMatches => Threw(MoreThanOneElement)
  }

  // ---------------------------------------------------------------- lookup by a list of ids

  predicate AllParse(pieces: seq<string>) {
    forall i :: 0 <= i < |pieces| ==> TryParseInt32(pieces[i]).Some?
  }

  /** The comma-separated pieces of `ids`, each parsed; Null when any piece fails to parse. */
  function ParsedIds(ids: string): (r: Nullable<seq<int>>)
    ensures var pieces := Split(ids, ',');
            && (r.NonNull? ==>
                 |r.value| == |pieces| && forall i :: 0 <= i < |pieces| ==> TryParseInt32(pieces[i]) == Wrappers.Some(r.value[i]))
            && (r.Null? <==> !AllParse(pieces))
  {
    var pieces := Split(ids, ',');
    if !AllParse(pieces) then Null
    else NonNull(seq(|pieces|, i requires 0 <= i < |pieces| => TryParseInt32(pieces[i]).value))
  }

  lemma NoCommaInIntToString(n: int)
    ensures ',' !in IntToString(n)
  {
    var digits := NatToDigits(if n < 0 then -n else n);
    assert forall i :: 0 <= i < |digits| ==> IsDigit(digits[i]);
    if n < 0 {
      assert IntToString(n) == ['-'] + digits;
    }
  }

  /** Int32.ToString of each id. */
  function IdStrings(values: seq<int>): (pieces: seq<string>)
    ensures |pieces| == |values|
    ensures forall i :: 0 <= i < |values| ==> pieces[i] == IntToString(values[i])
  {
    seq(|values|, i requires 0 <= i < |values| => IntToString(values[i]))
  }

  /** `string.Join(",", values)` for a list of ids. */
  function JoinIds(values: seq<int>): string
    requires |values| >= 1
  {
    Join(IdStrings(values), ',')
  }

  lemma ParsedIdsOfPieces(ids: string, values: seq<int>)
    requires |values| == |Split(ids, ',')|
    requires forall i :: 0 <= i < |values| ==> TryParseInt32(Split(ids, ',')[i]) == Wrappers.Some(values[i])
    ensures ParsedIds(ids) == NonNull(values)
  {
    var pieces := Split(ids, ',');
    assert AllParse(pieces);
    var r := ParsedIds(ids);
    assert r.NonNull?;
    var parsed := r.value;
    assert |parsed| == |values|;
    forall i | 0 <= i < |values| ensures parsed[i] == values[i] {
      assert TryParseInt32(pieces[i]) == Wrappers.Some(parsed[i]);
      assert TryParseInt32(pieces[i]) == Wrappers.Some(values[i]);
    }
    assert parsed == values;
  }

  /** Every non-empty list of 32-bit ids, written with commas, parses back to itself. */
  lemma ParsedIdsOfJoin(values: seq<int>)
    requires |values| >= 1
    requires forall i :: 0 <= i < |values| ==> IsInt32(values[i])
    ensures ParsedIds(JoinIds(values)) == NonNull(values)
  {
    var pieces := IdStrings(values);
    forall i | 0 <= i < |pieces| ensures ',' !in pieces[i] {
      NoCommaInIntToString(values[i]);
    }
    SplitJoin(pieces, ',');
    forall i | 0 <= i < |pieces| ensures TryParseInt32(pieces[i]) == Wrappers.Some(values[i]) {
      TryParseIntToString(values[i]);
    }
    ParsedIdsOfPieces(JoinIds(values), values);
  }

  /**
   * GetItemsByIdsAsync: an empty list when any piece of `ids` is not an
   * Int32; otherwise exactly the rows whose id is among the parsed values,
   * with their picture URIs.
   */
  function GetItemsByIds(table: seq<CatalogItem>, baseUri: string, ids: string): (r: Response<seq<CatalogItem>>)
    ensures r.Success? && r.statusCode == SuccessReturnModel
    ensures ParsedIds(ids).Null? ==> r.data == []
    ensures ParsedIds(ids).NonNull? ==>
      forall x :: x in r.data <==>
        exists y :: y in table && y.id in ParsedIds(ids).value && x == WithPictureUri(y, baseUri)
  {
    match ParsedIds(ids)
    case Null => Success([], SuccessReturnModel)
    case NonNull(values) =>
      var selected := Where(table, (x: CatalogItem) => x.id in values);
      var data := WithUris(selected, baseUri);
      WithUrisMembers(selected, baseUri);
      forall y | y in table && y.id in values ensures WithPictureUri(y, baseUri) in data {
        var k :| 0 <= k < |selected| && selected[k] == y;
        assert data[k] == WithPictureUri(y, baseUri);
      }
      Success(data, SuccessReturnModel)
  }

  // ---------------------------------------------------------------- the service

  /** The row CreateProductAsync adds: six fields copied from the request, the key from the id generator. */
  function NewItem(product: CatalogItem, newId: int): CatalogItem {
    CatalogItem(newId, product.name, product.description, product.price, product.pictureFileName, "",
                product.catalogTypeId, product.catalogBrandId, 0, false)
  }

  /** The row UpdateProductAsync writes: every field of the request except the unmapped PictureUri. */
  function Stored(product: CatalogItem): CatalogItem {
    product.(pictureUri := "")
  }

  class CatalogServices {
    /** CatalogContext.CatalogItems. */
    var catalogItems: seq<CatalogItem>
    /** CatalogSettings.PicBaseUrl. */
    const picBaseUrl: string

    ghost predicate Valid()
      reads this
    {
      UniqueIds(catalogItems)
    }

    constructor (catalogItems: seq<CatalogItem>, picBaseUrl: string)
      requires UniqueIds(catalogItems)
      ensures Valid() && this.catalogItems == catalogItems && this.picBaseUrl == picBaseUrl
    {
      this.catalogItems := catalogItems;
      this.picBaseUrl := picBaseUrl;
    }

    /**
     * ChangeUriPlaceHolder: sets every non-null item's picture URI in place
     * and returns the same list.
     */
    method ChangeUriPlaceHolder(items: array<Nullable<CatalogItem>>) returns (r: array<Nullable<CatalogItem>>)
      modifies items
      ensures r == items
      ensures forall i :: 0 <= i < items.Length ==> items[i] == PlaceUri(old(items[i]), picBaseUrl)
    {
      var baseUri := picBaseUrl;
      var k := 0;
      while k < items.Length
        invariant 0 <= k <= items.Length
        invariant forall i :: 0 <= i < k ==> items[i] == PlaceUri(old(items[i]), baseUri)
        invariant forall i :: k <= i < items.Length ==> items[i] == old(items[i])
      {
        if items[k].NonNull? {
          items[k] := NonNull(WithPictureUri(items[k].value, baseUri));
        }
        k := k + 1;
      }
      r := items;
    }

    /**
     * CreateProductAsync: adds NewItem(product, newId), `newId` being the key
     * the id generator hands out; success when SaveChanges wrote rows.
     */
    method CreateProduct(product: CatalogItem, newId: int, saved: int) returns (r: Response<CatalogItem>)
      requires Valid()
      requires forall i :: 0 <= i < |catalogItems| ==> catalogItems[i].id != newId
      modifies this
      ensures Valid()
      ensures saved > 0 ==>
        && catalogItems == old(catalogItems) + [NewItem(product, newId)]
        && r == Success(NewItem(product, newId), SuccessReturnModel)
        && ItemById(catalogItems, picBaseUrl, newId)
             == Returned(NonNull(Success(WithPictureUri(NewItem(product, newId), picBaseUrl), SuccessReturnModel)))
      ensures saved <= 0 ==> catalogItems == old(catalogItems) && r == Fail(ProductNotFound, NotFoundCode)
    {
      var item := NewItem(product, newId);
      if saved > 0 {
        catalogItems := catalogItems + [item];
        assert catalogItems[|catalogItems| - 1] == item;
        r := Success(item, SuccessReturnModel);
      } else {
        r := Fail(ProductNotFound, NotFoundCode);
      }
    }

    /**
     * UpdateProductAsync: false, and nothing changed, when no row has the id;
     * otherwise the row is replaced and the answer says whether SaveChanges
     * wrote it.
     */
    method UpdateProduct(product: CatalogItem, saved: int) returns (r: Response<bool>)
      requires Valid()
      modifies this
      ensures Valid()
      ensures var found := FindSingle(old(catalogItems), product.id);
              && (found.NoMatch? ==> r == Success(false, SuccessReturnModel) && catalogItems == old(catalogItems))
              && (found.Unique? && saved > 0 ==>
                    && r == Success(true, SuccessReturnModel)
                    && catalogItems == old(catalogItems)[found.index := Stored(product)])
              && (found.Unique? && saved <= 0 ==> r == Success(false, SuccessReturnModel) && catalogItems == old(catalogItems))
              && !found.ManyMatches?
      ensures r == Success(true, SuccessReturnModel) ==>
        ItemById(catalogItems, picBaseUrl, product.id)
          == Returned(NonNull(Success(WithPictureUri(Stored(product), picBaseUrl), SuccessReturnModel)))
    {
      var found := FindSingle(catalogItems, product.id);
      if found.NoMatch? {
        return Success(false, SuccessReturnModel);
      }
      assert found.Unique?;
      if saved > 0 {
        catalogItems := catalogItems[found.index := Stored(product)];
        assert UniqueIds(catalogItems);
        var after := ItemById(catalogItems, picBaseUrl, product.id);
        assert catalogItems[found.index].id == product.id;
        assert after.Returned? && after.value.NonNull?;
        r := Success(true, SuccessReturnModel);
      } else {
        r := Success(false, SuccessReturnModel);
      }
    }

    /**
     * DeleteProductAsync: success, and nothing changed, when no row has the
     * id; otherwise the row is removed, and the answer is a failure when
     * SaveChanges wrote nothing.
     */
    method DeleteProduct(id: int, saved: int) returns (r: Response<NoContent>)
      requires Valid()
      modifies this
      ensures Valid()
      ensures var found := FindSingle(old(catalogItems), id);
              && (found.NoMatch? ==> r == Success(NoContent, SuccessReturnNotModel) && catalogItems == old(catalogItems))
              && (found.Unique? && saved > 0 ==>
                    && r == Success(NoContent, SuccessReturnNotModel)
                    && catalogItems == old(catalogItems)[..found.index] + old(catalogItems)[found.index + 1..])
              && (found.Unique? && saved <= 0 ==> r == Fail(ProductNotFound, NotFoundCode) && catalogItems == old(catalogItems))
              && !found.ManyMatches?
      ensures r.Success? ==> ItemById(catalogItems, picBaseUrl, id) == Returned(Null)
    {
      var found := FindSingle(catalogItems, id);
      if found.NoMatch? {
        return Success(NoContent, SuccessReturnNotModel);
      }
      assert found.Unique?;
      if saved <= 0 {
        return Fail(ProductNotFound, NotFoundCode);
      }
      ghost var before := catalogItems;
      catalogItems := catalogItems[..found.index] + catalogItems[found.index + 1..];
      assert forall i :: 0 <= i < |catalogItems| ==>
        catalogItems[i] == before[if i < found.index then i else i + 1];
      r := Success(NoContent, SuccessReturnNotModel);
    }
  }
}
