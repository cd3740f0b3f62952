/** Pagination of a subject's tokens (src/jwt/service.rs). */
module Listing {
  import opened Prelude
  import opened Claims
  import opened TokenTables

  datatype ListRequest = ListRequest(
    offset: Option<int>,
    limit: Option<int>,
    byRow: bool,
    issuedAfter: Option<Instant>,
    issuedBefore: Option<Instant>,
    expiresAfter: Option<Instant>,
    expiresBefore: Option<Instant>,
    jwtName: Option<Text>)

  datatype Pagination = Pagination(total: nat, offset: int, limit: int, page: int, size: int, totalPages: int)

  const I64_MAX: int := 0x7FFF_FFFF_FFFF_FFFF

  /** The value of an i64 product whose overflow wraps. */
  function Wrap64(x: int): int {
    var r := x % 0x1_0000_0000_0000_0000;
    if r <= I64_MAX then r else r - 0x1_0000_0000_0000_0000
  }

  function Clamp(x: int, lo: int, hi: int): int {
    if x < lo then lo else if x > hi then hi else x
  }

  function PageSize(req: ListRequest): (size: int)
    ensures 1 <= size <= 200
  {
    Clamp(if req.limit.Some? then req.limit.value else 20, 1, 200)
  }

  function RequestedOffset(req: ListRequest): (p: int)
    ensures p >= 0
  {
    if req.offset.Some? && req.offset.value > 0 then req.offset.value else 0
  }

  function RowOffset(req: ListRequest): int {
    if req.byRow then RequestedOffset(req) else Wrap64(RequestedOffset(req) * PageSize(req))
  }

  function Page(req: ListRequest): int {
    if req.byRow then RequestedOffset(req) / PageSize(req) else RequestedOffset(req)
  }

  function TotalPages(total: nat, size: int): int
    requires size >= 1
  {
    (total + size - 1) / size
  }

  /** What a request asks for: the given limit within 1 and 200, or 20; the given
      offset, or 0, counted in rows or in pages. The page number is the row offset
      divided by the page size, in both modes, as long as the product fits; it fits
      exactly up to this page, and beyond it is off by a multiple of 2^64. */
  lemma RequestMeans(req: ListRequest, p: int)
    requires p == (if req.offset.Some? && req.offset.value >= 0 then req.offset.value else 0) <= I64_MAX
    ensures var size := PageSize(req);
            && (req.limit == None ==> size == 20)
            && (forall n :: req.limit == Some(n) ==> size == if n < 1 then 1 else if n <= 200 then n else 200)
            && (req.byRow ==> RowOffset(req) == p && Page(req) == p / size)
            && (!req.byRow ==>
                  && Page(req) == p
                  && (RowOffset(req) == p * size <==> p <= 0x7FFF_FFFF_FFFF_FFFF / size)
                  && (RowOffset(req) == p * size ==> Page(req) == RowOffset(req) / size)
                  && (RowOffset(req) - p * size) % 0x1_0000_0000_0000_0000 == 0)
  {
    var size := PageSize(req);
    if !req.byRow {
      ProductBound(p, size, I64_MAX);
      WrapIsCongruent(p * size);
      if p * size <= I64_MAX {
        assert p * size >= 0;
        DivideProduct(p, size);
      }
    }
  }

  lemma WrapIsCongruent(x: int)
    ensures (Wrap64(x) - x) % 0x1_0000_0000_0000_0000 == 0 && Wrap64(x) <= I64_MAX
    ensures 0 <= x <= I64_MAX ==> Wrap64(x) == x
  {
    var m := 0x1_0000_0000_0000_0000;
    var q := x / m;
    assert x == q * m + x % m;
    assert Wrap64(x) - x == -q * m || Wrap64(x) - x == (-q - 1) * m;
  }

  lemma ProductBound(p: nat, size: int, max: nat)
    requires size >= 1
    ensures p * size <= max <==> p <= max / size
  {
    var q := max / size;
    assert max == q * size + max % size;
    if p <= q {
      MultiplyMonotone(p, q, size);
    } else {
      MultiplyMonotone(q + 1, p, size);
      assert (q + 1) * size == q * size + size;
    }
  }

  lemma MultiplyMonotone(a: int, b: int, c: int)
    requires a <= b && c >= 0
    ensures a * c <= b * c
  {
  }

  lemma DivideProduct(p: int, size: int)
    requires size >= 1
    ensures p * size / size == p
  {
    QuotientUnique(p * size, size, p);
  }

  lemma QuotientUnique(x: int, size: int, p: int)
    requires size >= 1 && p * size <= x < (p + 1) * size
    ensures x / size == p
  {
    var q := x / size;
    assert x == q * size + x % size;
    assert (q + 1) * size == q * size + size;
    if q < p {
      MultiplyMonotone(q + 1, p, size);
    } else if q > p {
      MultiplyMonotone(p + 1, q, size);
    }
  }

  /** The number of pages is the exact ceiling: the last one is needed and enough. */
  lemma TotalPagesIsCeiling(total: nat, size: int)
    requires size >= 1
    ensures TotalPages(total, size) >= 0
    ensures total <= TotalPages(total, size) * size
    ensures total > 0 ==> (TotalPages(total, size) - 1) * size < total
    ensures TotalPages(total, size) == 0 <==> total == 0
  {
    var t := TotalPages(total, size);
    var x := total + size - 1;
    assert x == t * size + x % size;
    assert (t - 1) * size == t * size - size;
    if total == 0 {
      QuotientUnique(x, size, 0);
    } else {
      assert t != 0;
    }
  }

  function Min(a: int, b: int): int {
    if a <= b then a else b
  }

  /** ... LIMIT limit OFFSET offset */
  function Slice<T>(rows: seq<T>, offset: nat, limit: nat): seq<T> {
    rows[Min(offset, |rows|)..Min(offset + limit, |rows|)]
  }

  /** Pages 0 to n - 1, one after the other. */
  function Pages<T>(rows: seq<T>, size: nat, n: nat): seq<T> {
    if n == 0 then [] else Pages(rows, size, n - 1) + Slice(rows, (n - 1) * size, size)
  }

  lemma {:induction false} PagesArePrefix<T>(rows: seq<T>, size: nat, n: nat)
    ensures Pages(rows, size, n) == rows[..Min(n * size, |rows|)]
  {
    if n > 0 {
      PagesArePrefix(rows, size, n - 1);
      assert n * size == (n - 1) * size + size;
    }
  }

  /** Reading all the pages reads the whole listing, each row once. */
  lemma AllPagesAreTheListing<T>(rows: seq<T>, size: int)
    requires size >= 1
    ensures TotalPages(|rows|, size) >= 0
    ensures Pages(rows, size, TotalPages(|rows|, size)) == rows
  {
    TotalPagesIsCeiling(|rows|, size);
    PagesArePrefix(rows, size, TotalPages(|rows|, size));
  }

  // ----------------------------------------------------------- the query itself

  predicate Matches(row: MetaRow, subject: Text, req: ListRequest) {
    && row.subject == Some(subject)
    && (req.issuedAfter.Some? ==> row.issuedAt >= req.issuedAfter.value)
    && (req.issuedBefore.Some? ==> row.issuedAt <= req.issuedBefore.value)
    && (req.expiresAfter.Some? ==> row.expiresAt >= req.expiresAfter.value)
    && (req.expiresBefore.Some? ==> row.expiresAt <= req.expiresBefore.value)
    && (req.jwtName.Some? ==> row.jwtName == req.jwtName)
  }

  function Matching(meta: seq<MetaRow>, subject: Text, req: ListRequest): seq<MetaRow> {
    if meta == [] then []
    else Matching(meta[..|meta| - 1], subject, req)
         + (if Matches(meta[|meta| - 1], subject, req) then [meta[|meta| - 1]] else [])
  }

  /** SELECT ... WHERE ... ORDER BY issued_at DESC leaves the order of equal
      instants to the database, so any such sequence is an answer. */
  ghost predicate IsAnswer(rows: seq<MetaRow>, meta: seq<MetaRow>, subject: Text, req: ListRequest) {
    && multiset(rows) == multiset(Matching(meta, subject, req))
    && forall i, k :: 0 <= i < k < |rows| ==> rows[i].issuedAt >= rows[k].issuedAt
  }

  lemma {:induction false} MatchingRows(meta: seq<MetaRow>, subject: Text, req: ListRequest, row: MetaRow)
    ensures row in Matching(meta, subject, req) <==> row in meta && Matches(row, subject, req)
  {
    if meta != [] {
      var n := |meta| - 1;
      MatchingRows(meta[..n], subject, req, row);
      assert meta == meta[..n] + [meta[n]];
    }
  }

  /** Over all pages a listing shows a row exactly when it is the subject's and
      passes the filters. */
  lemma ListingShowsMatchingRows(rows: seq<MetaRow>, meta: seq<MetaRow>, subject: Text, req: ListRequest, row: MetaRow)
    requires IsAnswer(rows, meta, subject, req)
    ensures TotalPages(|rows|, PageSize(req)) >= 0
    ensures row in Pages(rows, PageSize(req), TotalPages(|rows|, PageSize(req)))
            <==> && row in meta && row.subject == Some(subject)
                 && (req.issuedAfter.Some? ==> req.issuedAfter.value <= row.issuedAt)
                 && (req.issuedBefore.Some? ==> row.issuedAt <= req.issuedBefore.value)
                 && (req.expiresAfter.Some? ==> req.expiresAfter.value <= row.expiresAt)
                 && (req.expiresBefore.Some? ==> row.expiresAt <= req.expiresBefore.value)
                 && (req.jwtName.Some? ==> row.jwtName == Some(req.jwtName.value))
  {
    AllPagesAreTheListing(rows, PageSize(req));
    MatchingRows(meta, subject, req, row);
    assert row in rows <==> row in multiset(rows);
    assert row in Matching(meta, subject, req) <==> row in multiset(Matching(meta, subject, req));
  }
}
