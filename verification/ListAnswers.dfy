/** What the pages of a listing show, request by request (src/jwt/service.rs). */
module ListAnswers {
  import opened Prelude
  import opened TokenTables
  import opened Listing
  import opened JwtService

  /** A row appears with its own fields and with the state it is in: revoked as soon as
      it is denylisted, else expired once its instant of expiry is past. */
  lemma SummaryTells(db: Db, row: MetaRow, now: Instant)
    ensures var t := Summary(db, row, now);
            && t.jti == row.jwtUuid && t.subject == row.subject && t.jwtName == row.jwtName
            && t.issuedAt == row.issuedAt && t.expiresAt == row.expiresAt
            && t.issuer == row.issuer && t.audience == row.audience
            && (t.status == ListRevoked <==> row.jwtUuid in db.deny)
            && (t.status == ListExpired <==> row.jwtUuid !in db.deny && row.expiresAt < now)
            && (t.status == ListActive <==> row.jwtUuid !in db.deny && now <= row.expiresAt)
            && (row.jwtUuid in db.deny ==> t.revokedAt == Some(db.deny[row.jwtUuid].denylistedAt)
                                           && t.revocationReason == db.deny[row.jwtUuid].reason)
            && (row.jwtUuid !in db.deny ==> t.revokedAt == None && t.revocationReason == None)
  {
  }

  /** The request for page `k`: that page, or the first of its rows. */
  function ForPage(req: ListRequest, k: nat): ListRequest {
    req.(offset := Some(if req.byRow then k * PageSize(req) else k))
  }

  /** The tokens of the answers to the requests for pages 0 to n - 1, joined. */
  function Answered(db: Db, req: ListRequest, now: Instant, rows: seq<MetaRow>, n: nat): seq<TokenSummary> {
    if n == 0 then []
    else
      Answered(db, req, now, rows, n - 1)
      + (match ListAnswer(db, ForPage(req, n - 1), now, rows) case None => [] case Some(r) => r.tokens)
  }

  lemma PageRequestFits(req: ListRequest, k: nat, total: nat)
    requires total <= I64_MAX && k < TotalPages(total, PageSize(req))
    ensures RowOffset(ForPage(req, k)) == k * PageSize(req) && PageSize(ForPage(req, k)) == PageSize(req)
    ensures Page(ForPage(req, k)) == k && 0 <= k * PageSize(req) < total
  {
    var size := PageSize(req);
    TotalPagesIsCeiling(total, size);
    MultiplyMonotone(k, TotalPages(total, size) - 1, size);
    assert k * size >= 0;
    DivideProduct(k, size);
    WrapIsCongruent(k * size);
  }

  lemma PageShows(db: Db, req: ListRequest, now: Instant, rows: seq<MetaRow>, k: nat)
    requires |rows| <= I64_MAX && k < TotalPages(|rows|, PageSize(req))
    ensures 0 <= k * PageSize(req) < |rows|
    ensures var size := PageSize(req);
            var r := ListAnswer(db, ForPage(req, k), now, rows);
            && r.Some? && r.value.tokens == Summaries(db, rows[k * size..Min(k * size + size, |rows|)], now)
            && r.value.pagination == Pagination(|rows|, k * size, size, k, size, TotalPages(|rows|, size))
  {
    PageRequestFits(req, k, |rows|);
  }

  lemma SummariesJoin(db: Db, a: seq<MetaRow>, b: seq<MetaRow>, now: Instant)
    ensures Summaries(db, a + b, now) == Summaries(db, a, now) + Summaries(db, b, now)
  {
  }

  /** How many rows the first `n` pages show. */
  function ShownBy(size: int, total: nat, n: nat): int {
    Min(n * size, total)
  }

  lemma PageIsNext(db: Db, req: ListRequest, now: Instant, rows: seq<MetaRow>, n: nat)
    requires |rows| <= I64_MAX && n < TotalPages(|rows|, PageSize(req))
    ensures var size := PageSize(req);
            var from, to := ShownBy(size, |rows|, n), ShownBy(size, |rows|, n + 1);
            ShowsBetween(db, req, now, rows, n, from, to)
  {
    var size := PageSize(req);
    PageShows(db, req, now, rows, n);
    assert (n + 1) * size == n * size + size;
  }

  /** The answer for page `k` shows the rows from one bound to the next. */
  predicate ShowsBetween(db: Db, req: ListRequest, now: Instant, rows: seq<MetaRow>, k: nat, from: int, to: int) {
    && 0 <= from <= to <= |rows|
    && ListAnswer(db, ForPage(req, k), now, rows).Some?
    && ListAnswer(db, ForPage(req, k), now, rows).value.tokens == Summaries(db, rows[from..to], now)
  }

  lemma {:induction false} AnsweredIsPrefix(db: Db, req: ListRequest, now: Instant, rows: seq<MetaRow>,
                                            bounds: seq<int>, n: nat)
    requires n < |bounds| && bounds[0] == 0
    requires forall k :: 0 <= k < n ==> ShowsBetween(db, req, now, rows, k, bounds[k], bounds[k + 1])
    ensures 0 <= bounds[n] <= |rows| && Answered(db, req, now, rows, n) == Summaries(db, rows[..bounds[n]], now)
  {
    if n > 0 {
      AnsweredIsPrefix(db, req, now, rows, bounds, n - 1);
      assert ShowsBetween(db, req, now, rows, n - 1, bounds[n - 1], bounds[n - 1 + 1]);
      AnsweredOneMore(db, req, now, rows, n - 1, bounds[n - 1], bounds[n]);
    }
  }

  lemma AnsweredOneMore(db: Db, req: ListRequest, now: Instant, rows: seq<MetaRow>, n: nat, from: int, to: int)
    requires ShowsBetween(db, req, now, rows, n, from, to)
    requires Answered(db, req, now, rows, n) == Summaries(db, rows[..from], now)
    ensures Answered(db, req, now, rows, n + 1) == Summaries(db, rows[..to], now)
  {
    SummariesUpTo(db, now, rows, from, to);
  }

  lemma SummariesUpTo(db: Db, now: Instant, rows: seq<MetaRow>, from: int, to: int)
    requires 0 <= from <= to <= |rows|
    ensures Summaries(db, rows[..to], now) == Summaries(db, rows[..from], now) + Summaries(db, rows[from..to], now)
  {
    assert rows[..to] == rows[..from] + rows[from..to];
    SummariesJoin(db, rows[..from], rows[from..to], now);
  }

  /** Asking for page 0, 1, and so on up to the last page that every answer announces
      shows the whole listing, every row once and in order, in both modes. */
  lemma AnswersAreTheListing(db: Db, req: ListRequest, now: Instant, rows: seq<MetaRow>)
    requires |rows| <= I64_MAX
    ensures TotalPages(|rows|, PageSize(req)) >= 0
    ensures Answered(db, req, now, rows, TotalPages(|rows|, PageSize(req))) == Summaries(db, rows, now)
    ensures forall k :: 0 <= k < TotalPages(|rows|, PageSize(req)) ==>
              var r := ListAnswer(db, ForPage(req, k), now, rows);
              r.Some? && r.value.pagination
                         == Pagination(|rows|, k * PageSize(req), PageSize(req), k, PageSize(req),
                                       TotalPages(|rows|, PageSize(req)))
  {
    var pages := TotalPages(|rows|, PageSize(req));
    TotalPagesIsCeiling(|rows|, PageSize(req));
    var size := PageSize(req);
    var bounds := seq(pages + 1, k requires 0 <= k => ShownBy(size, |rows|, k));
    forall k | 0 <= k < pages
      ensures ShowsBetween(db, req, now, rows, k, bounds[k], bounds[k + 1])
    {
      PageIsNext(db, req, now, rows, k);
    }
    AnsweredIsPrefix(db, req, now, rows, bounds, pages);
    assert bounds[pages] == |rows| && rows[..|rows|] == rows;
    forall k | 0 <= k < pages
      ensures var r := ListAnswer(db, ForPage(req, k), now, rows);
              r.Some? && r.value.pagination
                         == Pagination(|rows|, k * PageSize(req), PageSize(req), k, PageSize(req), pages)
    {
      PageShows(db, req, now, rows, k);
    }
  }
}
