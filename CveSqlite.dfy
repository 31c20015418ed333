/** `SQLiteManager` of dataSync/cveSync/cveSqlite.py. The database file is
    modelled by its three tables, held in the manager's fields: `cve_summary`
    (one row per CVE, keyed by `cve_id`), the child table `affected_packages`
    and the append-only audit table `sync_tracking`. Each table is a sequence
    in rowid order. The functions define what each SQL statement does; the
    class methods run the Python code around those statements. */
module CveSqlite {
  import opened PyStr
  import opened PyJson
  import opened CveParser

  // ---------------------------------------------------------------------
  // Stored values and rows

  /** A value of the REAL column `cvss_score`: NULL, a number, or text. */
  datatype SqlValue = SqlNull | SqlNum(n: int) | SqlText(t: string)

  /** A `cve_summary` row. TEXT columns hold NULL (`None`) or text. The
      `created_at`/`updated_at` timestamps are not read back by any query
      and are not kept. */
  datatype SummaryRow = SummaryRow(
    cveId: Option<string>, title: Option<string>, description: Option<string>,
    publishedDate: Option<string>, lastUpdated: Option<string>, cvssScore: SqlValue,
    severity: Option<string>, state: Option<string>)

  /** An `affected_packages` row (its AUTOINCREMENT id is its position). */
  datatype PackageRow = PackageRow(
    cveId: Option<string>, vendor: Option<string>, product: Option<string>,
    version: Option<string>, status: Option<string>, versionConstraint: string)

  /** A `sync_tracking` row. Rows are kept in insertion order, which is the
      order of their `created_at` timestamps. */
  datatype SyncRow = SyncRow(
    syncType: string, targetSystem: string, lastSyncDate: string,
    processedCount: int, failedCount: int)

  /** The two tables an upsert writes. */
  datatype Tables = Tables(summary: seq<SummaryRow>, packages: seq<PackageRow>)

  // ---------------------------------------------------------------------
  // Binding parameters (sqlite3 adapts None, bool, int and str; a dict or a
  // list cannot be bound, and an int is bound as a signed 64-bit INTEGER)

  /** Whether sqlite3 can bind integer `n`: it must fit a signed 64-bit
      INTEGER, otherwise binding raises `OverflowError`. */
  predicate FitsInt64(n: int) {
    -0x8000_0000_0000_0000 <= n < 0x8000_0000_0000_0000
  }

  /** A parameter bound for a TEXT column: numbers are stored as their text
      (TEXT affinity), `True`/`False` as `"1"`/`"0"`. */
  function BindText(j: Json): (r: Result<Option<string>>)
    ensures r.Raise? <==> j.Arr? || j.Obj? || (j.Num? && !FitsInt64(j.n))
    ensures j.Num? && !FitsInt64(j.n) ==> r == Raise(OverflowError)
    ensures r == Ok(None) <==> j.Null?
    ensures j.Str? ==> r == Ok(Some(j.s))
  {
    match j
    case Null => Ok(None)
    case Bool(b) => Ok(Some(if b then "1" else "0"))
    case Num(n) => if FitsInt64(n) then Ok(Some(IntToString(n))) else Raise(OverflowError)
    case Str(s) => Ok(Some(s))
    case _ => Raise(ProgrammingError)
  }

  /** A parameter bound for the REAL column `cvss_score`. */
  function BindReal(j: Json): (r: Result<SqlValue>)
    ensures r.Raise? <==> j.Arr? || j.Obj? || (j.Num? && !FitsInt64(j.n))
    ensures j.Num? && !FitsInt64(j.n) ==> r == Raise(OverflowError)
    ensures r == Ok(SqlNull) <==> j.Null?
    ensures j.Num? && FitsInt64(j.n) ==> r == Ok(SqlNum(j.n))
  {
    match j
    case Null => Ok(SqlNull)
    case Bool(b) => Ok(SqlNum(if b then 1 else 0))
    case Num(n) => if FitsInt64(n) then Ok(SqlNum(n)) else Raise(OverflowError)
    case Str(s) => Ok(SqlText(s))
    case _ => Raise(ProgrammingError)
  }

  // ---------------------------------------------------------------------
  // upsert_cve (cveSqlite.py:69-128)

  /** Line 71: `{}` and a record whose state is `"REJECTED"` are not written. */
  predicate Skipped(cve: ParseOutcome) {
    match cve
    case Failed => true
    case Tombstone(state, _) => state == "REJECTED"
    case Parsed(r) => r.state == "REJECTED"
  }

  /** Lines 81-95: the summary row written for a record, or the binding
      failure. A tombstone dict has no `metadata` and no `text`. */
  function SummaryOf(cve: ParseOutcome): Result<SummaryRow>
    requires !cve.Failed?
  {
    match cve
    case Tombstone(state, id) =>
      var cveId :- BindText(id);
      Ok(SummaryRow(cveId, None, None, None, None, SqlNull, None, Some(state)))
    case Parsed(r) =>
      var cveId :- BindText(r.id);
      var title :- BindText(r.metadata.title);
      var publishedDate :- BindText(r.metadata.publishedDate);
      var lastUpdated :- BindText(r.metadata.lastUpdated);
      var score :- BindReal(r.metadata.cvssScore);
      var severity :- BindText(r.metadata.severity);
      Ok(SummaryRow(cveId, title, Some(r.text), publishedDate, lastUpdated, score, severity, Some(r.state)))
  }

  /** Line 100: the `affected_packages` of a record. */
  function AffectedOf(cve: ParseOutcome): seq<AffectedRow> {
    if cve.Parsed? then cve.rec.metadata.affectedPackages else []
  }

  /** Lines 101-105: the version constraint of a package row. */
  function VersionConstraint(pkg: AffectedRow): (r: string)
    ensures r == "" <==> !Truthy(pkg.lessThanOrEqual) && !Truthy(pkg.lessThan)
  {
    if Truthy(pkg.lessThanOrEqual) then "<= " + Show(pkg.lessThanOrEqual)
    else if Truthy(pkg.lessThan) then "< " + Show(pkg.lessThan)
    else ""
  }

  /** Lines 107-118: the child row inserted for one package of record `cveId`. */
  function PackageRowOf(cveId: Option<string>, pkg: AffectedRow): Result<PackageRow> {
    var vendor :- BindText(pkg.vendor);
    var product :- BindText(pkg.product);
    var version :- BindText(pkg.version);
    var status :- BindText(pkg.status);
    Ok(PackageRow(cveId, vendor, product, version, status, VersionConstraint(pkg)))
  }

  function PackageRowFor(cveId: Option<string>): AffectedRow -> Result<PackageRow> {
    (pkg: AffectedRow) => PackageRowOf(cveId, pkg)
  }

  /** Lines 100-118: the child rows inserted for a record, in order. */
  function PackageRowsOf(cveId: Option<string>, pkgs: seq<AffectedRow>): Result<seq<PackageRow>> {
    AppendEach(PackageRowFor(cveId), [], pkgs)
  }

  /** `cve_id = id` on a summary row, and its negation. */
  function KeyIs(id: string): SummaryRow -> bool { (row: SummaryRow) => row.cveId == Some(id) }
  function KeyIsNot(id: string): SummaryRow -> bool { (row: SummaryRow) => row.cveId != Some(id) }

  /** `cve_id = id` on a child row, and its negation. */
  function ChildOf(id: string): PackageRow -> bool { (p: PackageRow) => p.cveId == Some(id) }
  function NotChildOf(id: string): PackageRow -> bool { (p: PackageRow) => p.cveId != Some(id) }

  /** The summary rows whose `cve_id` is not `id`. */
  function WithoutKey(summary: seq<SummaryRow>, id: string): seq<SummaryRow> {
    Filter(KeyIsNot(id), summary)
  }

  /** The summary rows whose `cve_id` is `id`. */
  function RowsWithKey(summary: seq<SummaryRow>, id: string): seq<SummaryRow> {
    Filter(KeyIs(id), summary)
  }

  /** `INSERT OR REPLACE`: a row with the same non-NULL key is deleted and the
      new row is added at the end. A NULL key never conflicts. */
  function ReplaceSummary(summary: seq<SummaryRow>, row: SummaryRow): seq<SummaryRow> {
    (if row.cveId.Some? then WithoutKey(summary, row.cveId.value) else summary) + [row]
  }

  /** The child rows of record `id`. */
  function PackagesOf(packages: seq<PackageRow>, id: string): seq<PackageRow> {
    Filter(ChildOf(id), packages)
  }

  /** Line 98: `DELETE ... WHERE cve_id = ?`; with a NULL parameter the
      comparison is never true and nothing is deleted. */
  function DeletePackages(packages: seq<PackageRow>, cveId: Option<string>): seq<PackageRow> {
    if cveId.None? then packages else Filter(NotChildOf(cveId.value), packages)
  }

  /** Lines 81-120: the statements of a write, or the exception one of them raises. */
  function Written(t: Tables, cve: ParseOutcome): Result<Tables>
    requires !cve.Failed?
  {
    var row :- SummaryOf(cve);
    var added :- PackageRowsOf(row.cveId, AffectedOf(cve));
    Ok(Tables(ReplaceSummary(t.summary, row), DeletePackages(t.packages, row.cveId) + added))
  }

  /** Lines 69-128: the tables after `upsert_cve` and its return value. An
      exception rolls the transaction back. */
  function Upsert(t: Tables, cve: ParseOutcome): (r: (Tables, bool))
    ensures Skipped(cve) ==> r == (t, true)
    ensures !r.1 ==> r.0 == t
  {
    if Skipped(cve) then (t, true)
    else
      match Written(t, cve)
      case Ok(next) => (next, true)
      case Raise(_) => (t, false)
  }

  // ---------------------------------------------------------------------
  // bulk_upsert_cves (cveSqlite.py:130-141)

  /** One iteration of the loop of lines 136-140: the tables and the two
      counts after one more record. */
  function Tally(acc: (Tables, nat, nat), cve: ParseOutcome): (Tables, nat, nat) {
    var (next, ok) := Upsert(acc.0, cve);
    if ok then (next, acc.1 + 1, acc.2) else (next, acc.1, acc.2 + 1)
  }

  /** The tables after upserting `batch` in order, with the success and
      failure counts. */
  function Bulk(t: Tables, batch: seq<ParseOutcome>): (Tables, nat, nat)
    decreases |batch|
  {
    if batch == [] then (t, 0, 0)
    else Tally(Bulk(t, batch[..|batch| - 1]), batch[|batch| - 1])
  }

  // ---------------------------------------------------------------------
  // Ordering by cvss_score, LIKE and LIMIT

  /** SQLite's order on `cvss_score` values: NULL, then numbers, then text. */
  predicate ScoreBelow(a: SqlValue, b: SqlValue) {
    match a
    case SqlNull => !b.SqlNull?
    case SqlNum(x) => (b.SqlNum? && x < b.n) || b.SqlText?
    case SqlText(x) => b.SqlText? && LexLess(x, b.t)
  }

  /** `ORDER BY cvss_score DESC`: no row has a higher score than one before it. */
  predicate SortedByScore(rows: seq<SummaryRow>) {
    forall i, j | 0 <= i < j < |rows| :: !ScoreBelow(rows[i].cvssScore, rows[j].cvssScore)
  }

  /** Places `row` after every row whose score is not below its own. */
  function InsertByScore(sorted: seq<SummaryRow>, row: SummaryRow): (r: seq<SummaryRow>)
    ensures multiset(r) == multiset(sorted) + multiset{row}
    decreases |sorted|
  {
    if sorted == [] then [row]
    else if ScoreBelow(sorted[0].cvssScore, row.cvssScore) then [row] + sorted
    else
      assert sorted == [sorted[0]] + sorted[1..];
      [sorted[0]] + InsertByScore(sorted[1..], row)
  }

  /** `ORDER BY cvss_score DESC`; rows with equal scores keep rowid order
      (SQLite leaves their order unspecified; the properties below do not
      depend on it). */
  function SortByScore(rows: seq<SummaryRow>): (r: seq<SummaryRow>)
    ensures multiset(r) == multiset(rows)
    decreases |rows|
  {
    if rows == [] then []
    else
      assert rows == rows[..|rows| - 1] + [rows[|rows| - 1]];
      InsertByScore(SortByScore(rows[..|rows| - 1]), rows[|rows| - 1])
  }

  /** `LIMIT n`: a negative limit means no limit. */
  function Limit<T>(xs: seq<T>, n: int): (r: seq<T>)
    ensures n < 0 ==> r == xs
    ensures 0 <= n ==> |r| == if n < |xs| then n else |xs|
    ensures r == xs[..|r|]
  {
    if n < 0 || |xs| <= n then xs else xs[..n]
  }

  /** SQLite's `LIKE` folds ASCII letters only. */
  function FoldCase(c: char): char {
    if 'A' <= c <= 'Z' then (c as int + 32) as char else c
  }

  /** `s LIKE pattern` with no ESCAPE clause: `%` matches any run of
      characters, `_` any one character, and any other character itself up
      to ASCII case. */
  predicate Like(pattern: string, s: string)
    decreases |pattern| + |s|
  {
    if pattern == [] then s == []
    else if pattern[0] == '%' then Like(pattern[1..], s) || (s != [] && Like(pattern, s[1..]))
    else s != [] && (pattern[0] == '_' || FoldCase(pattern[0]) == FoldCase(s[0])) && Like(pattern[1..], s[1..])
  }

  /** A TEXT value `LIKE` a pattern; NULL matches nothing. */
  predicate LikeValue(pattern: string, v: Option<string>) {
    v.Some? && Like(pattern, v.value)
  }

  // ---------------------------------------------------------------------
  // The queries

  /** The greatest of `xs` in BINARY collation, which `MAX` uses on TEXT. */
  function MaxText(xs: seq<string>): Option<string>
    decreases |xs|
  {
    if xs == [] then None
    else
      var rest := MaxText(xs[..|xs| - 1]);
      if rest.None? || LexLess(rest.value, xs[|xs| - 1]) then Some(xs[|xs| - 1]) else rest
  }

  /** The non-NULL `last_updated` values, in rowid order. */
  function LastUpdatedValues(summary: seq<SummaryRow>): (r: seq<string>)
    ensures forall x :: x in r <==> exists row | row in summary :: row.lastUpdated == Some(x)
    decreases |summary|
  {
    if summary == [] then []
    else
      var init := summary[..|summary| - 1];
      var last := summary[|summary| - 1];
      assert summary == init + [last];
      LastUpdatedValues(init) + (if last.lastUpdated.Some? then [last.lastUpdated.value] else [])
  }

  /** An audit row of `syncType` for `targetSystem`. */
  predicate IsSyncFor(row: SyncRow, syncType: string, targetSystem: string) {
    row.syncType == syncType && row.targetSystem == targetSystem
  }

  /** Lines 172-181: the `last_sync_date` of the latest audit row for
      `(syncType, targetSystem)`. */
  function LastSyncDate(log: seq<SyncRow>, syncType: string, targetSystem: string): (r: Option<string>)
    ensures r.None? <==> forall row | row in log :: !IsSyncFor(row, syncType, targetSystem)
    ensures r.Some? ==> exists i | 0 <= i < |log| ::
      IsSyncFor(log[i], syncType, targetSystem) && log[i].lastSyncDate == r.value &&
      forall j | i < j < |log| :: !IsSyncFor(log[j], syncType, targetSystem)
    decreases |log|
  {
    if log == [] then None
    else
      var last := log[|log| - 1];
      if IsSyncFor(last, syncType, targetSystem) then Some(last.lastSyncDate)
      else
        var init := log[..|log| - 1];
        assert log == init + [last];
        var r := LastSyncDate(init, syncType, targetSystem);
        assert r.Some? ==> exists i | 0 <= i < |log| ::
          IsSyncFor(log[i], syncType, targetSystem) && log[i].lastSyncDate == r.value &&
          forall j | i < j < |log| :: !IsSyncFor(log[j], syncType, targetSystem) by {
          if r.Some? {
            var i :| 0 <= i < |init| && IsSyncFor(init[i], syncType, targetSystem) && init[i].lastSyncDate == r.value &&
              forall j | i < j < |init| :: !IsSyncFor(init[j], syncType, targetSystem);
            assert log[i] == init[i];
            assert forall j | i < j < |log| :: !IsSyncFor(log[j], syncType, targetSystem) by {
              forall j | i < j < |log| ensures !IsSyncFor(log[j], syncType, targetSystem) {
                if j < |init| { assert log[j] == init[j]; }
              }
            }
          }
        }
        r
  }

  /** Lines 199-205: `description LIKE '%q%' OR title LIKE '%q%'`. */
  function SearchMatch(query: string): SummaryRow -> bool {
    (row: SummaryRow) => LikeValue("%" + query + "%", row.description) || LikeValue("%" + query + "%", row.title)
  }

  /** A CVE with a child row whose product is `LIKE pattern`: the join on
      `cve_id` (NULL keys join nothing). */
  predicate HasProductLike(packages: seq<PackageRow>, pattern: string, row: SummaryRow) {
    row.cveId.Some? && exists p | p in packages :: p.cveId == row.cveId && LikeValue(pattern, p.product)
  }

  /** Lines 271-276: the join with `p.product LIKE '%product%'`. `DISTINCT`
      keeps each summary row once, however many of its child rows match. */
  function ProductMatch(packages: seq<PackageRow>, product: string): SummaryRow -> bool {
    (row: SummaryRow) => HasProductLike(packages, "%" + product + "%", row)
  }

  /** Lines 298-301: `severity IN ('HIGH', 'CRITICAL') AND cvss_score IS NOT NULL`. */
  predicate IsHighSeverity(row: SummaryRow) {
    (row.severity == Some("HIGH") || row.severity == Some("CRITICAL")) && !row.cvssScore.SqlNull?
  }

  /** `WHERE keep ORDER BY cvss_score DESC LIMIT limit`. */
  function Select(keep: SummaryRow -> bool, summary: seq<SummaryRow>, limit: int): seq<SummaryRow> {
    Limit(SortByScore(Filter(keep, summary)), limit)
  }

  function SearchRows(summary: seq<SummaryRow>, query: string, limit: int): seq<SummaryRow> {
    Select(SearchMatch(query), summary, limit)
  }

  function ProductRows(summary: seq<SummaryRow>, packages: seq<PackageRow>, product: string, limit: int): seq<SummaryRow> {
    Select(ProductMatch(packages, product), summary, limit)
  }

  function HighSeverityRows(summary: seq<SummaryRow>, limit: int): seq<SummaryRow> {
    Select(IsHighSeverity, summary, limit)
  }

  /** Line 228: the summary row of `id`, if any. */
  function FindRow(summary: seq<SummaryRow>, id: string): (r: Option<SummaryRow>)
    ensures r.Some? ==> r.value in summary && r.value.cveId == Some(id)
    ensures r.None? <==> forall row | row in summary :: row.cveId != Some(id)
    decreases |summary|
  {
    if summary == [] then None
    else if summary[0].cveId == Some(id) then Some(summary[0])
    else
      assert summary == [summary[0]] + summary[1..];
      FindRow(summary[1..], id)
  }

  // ---------------------------------------------------------------------
  // The dicts the queries return

  /** Lines 209-216. */
  datatype SearchHit = SearchHit(
    cveId: Option<string>, title: Option<string>, description: Option<string>,
    cvssScore: SqlValue, severity: Option<string>, publishedDate: Option<string>)

  /** Lines 282-288 and 308-314. */
  datatype CveBrief = CveBrief(
    cveId: Option<string>, title: Option<string>, cvssScore: SqlValue,
    severity: Option<string>, publishedDate: Option<string>)

  /** Lines 244-250. */
  datatype PackageInfo = PackageInfo(
    vendor: Option<string>, product: Option<string>, version: Option<string>,
    status: Option<string>, versionConstraint: string)

  /** Lines 254-264. */
  datatype CveDetail = CveDetail(
    cveId: Option<string>, title: Option<string>, description: Option<string>,
    publishedDate: Option<string>, lastUpdated: Option<string>, cvssScore: SqlValue,
    severity: Option<string>, state: Option<string>, affectedPackages: seq<PackageInfo>)

  function HitOf(row: SummaryRow): SearchHit {
    SearchHit(row.cveId, row.title, row.description, row.cvssScore, row.severity, row.publishedDate)
  }

  function BriefOf(row: SummaryRow): CveBrief {
    CveBrief(row.cveId, row.title, row.cvssScore, row.severity, row.publishedDate)
  }

  function InfoOf(p: PackageRow): PackageInfo {
    PackageInfo(p.vendor, p.product, p.version, p.status, p.versionConstraint)
  }

  function DetailOf(row: SummaryRow, packages: seq<PackageInfo>): CveDetail {
    CveDetail(row.cveId, row.title, row.description, row.publishedDate, row.lastUpdated,
              row.cvssScore, row.severity, row.state, packages)
  }

  function HitsOf(rows: seq<SummaryRow>): seq<SearchHit> {
    seq(|rows|, i requires 0 <= i < |rows| => HitOf(rows[i]))
  }

  function BriefsOf(rows: seq<SummaryRow>): seq<CveBrief> {
    seq(|rows|, i requires 0 <= i < |rows| => BriefOf(rows[i]))
  }

  function InfosOf(rows: seq<PackageRow>): seq<PackageInfo> {
    seq(|rows|, i requires 0 <= i < |rows| => InfoOf(rows[i]))
  }

  // ---------------------------------------------------------------------
  // The PRIMARY KEY of cve_summary

  /** No two summary rows share a non-NULL `cve_id`. */
  predicate UniqueKeys(summary: seq<SummaryRow>) {
    forall i, j | 0 <= i < j < |summary| :: summary[i].cveId.Some? ==> summary[i].cveId != summary[j].cveId
  }

  /** A row whose key no earlier row has may be appended. */
  lemma UniqueKeysSnoc(summary: seq<SummaryRow>, row: SummaryRow)
    requires UniqueKeys(summary)
    requires row.cveId.Some? ==> forall x | x in summary :: x.cveId != row.cveId
    ensures UniqueKeys(summary + [row])
  {
    var s := summary + [row];
    forall i, j | 0 <= i < j < |s| && s[i].cveId.Some?
      ensures s[i].cveId != s[j].cveId
    {
      assert s[i] == summary[i];
      if j == |summary| {
        assert summary[i] in summary;
      } else {
        assert s[j] == summary[j];
      }
    }
  }

  /** The rows after the first have unique keys, none of them the first's. */
  lemma UniqueKeysTail(summary: seq<SummaryRow>)
    requires UniqueKeys(summary) && summary != []
    ensures UniqueKeys(summary[1..])
    ensures summary[0].cveId.Some? ==> forall x | x in summary[1..] :: x.cveId != summary[0].cveId
  {
    var rest := summary[1..];
    forall i, j | 0 <= i < j < |rest| && rest[i].cveId.Some?
      ensures rest[i].cveId != rest[j].cveId
    {
      assert rest[i] == summary[i + 1] && rest[j] == summary[j + 1];
    }
    forall x | x in rest && summary[0].cveId.Some?
      ensures x.cveId != summary[0].cveId
    {
      var j :| 0 <= j < |rest| && rest[j] == x;
      assert summary[j + 1] == x;
    }
  }

  /** Filtering keeps keys unique. */
  lemma {:induction false} UniqueKeysFilter(keep: SummaryRow -> bool, summary: seq<SummaryRow>)
    requires UniqueKeys(summary)
    ensures UniqueKeys(Filter(keep, summary))
    decreases |summary|
  {
    if summary != [] {
      var rest := summary[1..];
      UniqueKeysTail(summary);
      UniqueKeysFilter(keep, rest);
      var tail := Filter(keep, rest);
      if keep(summary[0]) {
        var h := summary[0];
        var s := [h] + tail;
        forall i, j | 0 <= i < j < |s| && s[i].cveId.Some?
          ensures s[i].cveId != s[j].cveId
        {
          assert s[j] == tail[j - 1];
          if i > 0 {
            assert s[i] == tail[i - 1];
          } else {
            assert tail[j - 1] in tail;
          }
        }
      }
    }
  }

  /** `INSERT OR REPLACE` keeps keys unique. */
  lemma ReplaceKeepsUniqueKeys(summary: seq<SummaryRow>, row: SummaryRow)
    requires UniqueKeys(summary)
    ensures UniqueKeys(ReplaceSummary(summary, row))
  {
    if row.cveId.Some? {
      UniqueKeysFilter(KeyIsNot(row.cveId.value), summary);
      UniqueKeysSnoc(WithoutKey(summary, row.cveId.value), row);
    } else {
      UniqueKeysSnoc(summary, row);
    }
  }

  /** Every upsert keeps keys unique. */
  lemma UpsertKeepsUniqueKeys(t: Tables, cve: ParseOutcome)
    requires UniqueKeys(t.summary)
    ensures UniqueKeys(Upsert(t, cve).0.summary)
  {
    if !Skipped(cve) && Written(t, cve).Ok? {
      ReplaceKeepsUniqueKeys(t.summary, SummaryOf(cve).value);
    }
  }

  // ---------------------------------------------------------------------
  // SQLiteManager

  /** Lines 10-15 and 69-317: the three tables of the database file and the
      operations on them. Each operation opens its own connection, so one
      call is one transaction. */
  class SqliteManager {
    var summary: seq<SummaryRow>
    var packages: seq<PackageRow>
    var syncLog: seq<SyncRow>

    /** The PRIMARY KEY constraint of `cve_summary`. */
    ghost predicate Valid()
      reads this
    {
      UniqueKeys(summary)
    }

    function Contents(): Tables
      reads this
    {
      Tables(summary, packages)
    }

    /** Lines 13-15: the tables are those of the database file;
        `CREATE TABLE IF NOT EXISTS` keeps the rows already there. */
    constructor (summary0: seq<SummaryRow>, packages0: seq<PackageRow>, syncLog0: seq<SyncRow>)
      requires UniqueKeys(summary0)
      ensures Valid()
      ensures summary == summary0 && packages == packages0 && syncLog == syncLog0
    {
      summary, packages, syncLog := summary0, packages0, syncLog0;
    }

    /** Lines 69-128. */
    method UpsertCve(cve: ParseOutcome) returns (ok: bool)
      requires Valid()
      modifies this
      ensures Valid()
      ensures (Contents(), ok) == Upsert(old(Contents()), cve)
      ensures syncLog == old(syncLog)
    {
      if Skipped(cve) {
        return true;
      }
      var savedSummary, savedPackages := summary, packages;
      var row := SummaryOf(cve);
      if row.Ok? {
        summary := ReplaceSummary(summary, row.value);
        packages := DeletePackages(packages, row.value.cveId);
        ok := InsertPackages(row.value.cveId, AffectedOf(cve));
      } else {
        ok := false;
      }
      if ok {
        ReplaceKeepsUniqueKeys(savedSummary, row.value);
      } else {
        // conn.rollback()
        summary, packages := savedSummary, savedPackages;
      }
    }

    /** Lines 100-118: inserts the child rows of record `cveId` one by one
        and stops at the first that cannot be bound. */
    method InsertPackages(cveId: Option<string>, pkgs: seq<AffectedRow>) returns (ok: bool)
      modifies this
      ensures summary == old(summary) && syncLog == old(syncLog)
      ensures ok <==> PackageRowsOf(cveId, pkgs).Ok?
      ensures ok ==> packages == old(packages) + PackageRowsOf(cveId, pkgs).value
    {
      var i := 0;
      assert packages[|packages|..] == [] && pkgs[0..] == pkgs;
      while i < |pkgs|
        invariant 0 <= i <= |pkgs|
        invariant summary == old(summary) && syncLog == old(syncLog)
        invariant |old(packages)| <= |packages| && packages[..|old(packages)|] == old(packages)
        invariant PackageRowsOf(cveId, pkgs) == AppendEach(PackageRowFor(cveId), packages[|old(packages)|..], pkgs[i..])
      {
        assert pkgs[i..][0] == pkgs[i] && pkgs[i..][1..] == pkgs[i + 1..];
        var added := PackageRowOf(cveId, pkgs[i]);
        if added.Raise? {
          return false;
        }
        assert (packages + [added.value])[|old(packages)|..] == packages[|old(packages)|..] + [added.value];
        packages := packages + [added.value];
        i := i + 1;
      }
      assert packages == old(packages) + packages[|old(packages)|..];
      ok := true;
    }

    /** Lines 130-141. */
    method BulkUpsertCves(batch: seq<ParseOutcome>) returns (successCount: nat, failedCount: nat)
      requires Valid()
      modifies this
      ensures Valid()
      ensures (Contents(), successCount, failedCount) == Bulk(old(Contents()), batch)
      ensures syncLog == old(syncLog)
    {
      ghost var t0 := Contents();
      successCount, failedCount := 0, 0;
      assert batch[..0] == [];
      for i := 0 to |batch|
        invariant Valid()
        invariant (Contents(), successCount, failedCount) == Bulk(t0, batch[..i])
        invariant syncLog == old(syncLog)
      {
        assert batch[..i + 1][..i] == batch[..i] && batch[..i + 1][i] == batch[i];
        assert Bulk(t0, batch[..i + 1]) == Tally(Bulk(t0, batch[..i]), batch[i]);
        ghost var before := (Contents(), successCount, failedCount);
        var ok := UpsertCve(batch[i]);
        if ok {
          successCount := successCount + 1;
        } else {
          failedCount := failedCount + 1;
        }
        assert (Contents(), successCount, failedCount) == Tally(before, batch[i]);
      }
      assert batch[..|batch|] == batch;
    }

    /** Lines 143-152: the greatest non-NULL `last_updated`; `None` when
        there is none or it is empty. */
    function GetMaxUpdatedTimestamp(): (r: Option<string>)
      reads this
      ensures r.Some? ==> r.value != "" && exists row | row in summary :: row.lastUpdated == r
      ensures r.Some? ==> forall row | row in summary && row.lastUpdated.Some? :: !LexLess(r.value, row.lastUpdated.value)
      ensures r.None? <==> forall row | row in summary && row.lastUpdated.Some? :: row.lastUpdated.value == ""
    {
      var values := LastUpdatedValues(summary);
      MaxTextIsGreatest(values);
      var m := MaxText(values);
      if m.Some? && m.value != "" then m else None
    }

    /** Lines 154-165; `now` is the UTC time of the call in ISO format. */
    method LogSync(syncType: string, targetSystem: string, now: string, processedCount: int, failedCount: int)
      modifies this
      ensures syncLog == old(syncLog) + [SyncRow(syncType, targetSystem, now, processedCount, failedCount)]
      ensures summary == old(summary) && packages == old(packages)
      ensures Valid() == old(Valid())
      ensures GetLastSyncDate(syncType, targetSystem) == Some(now)
      ensures forall st, ts | st != syncType || ts != targetSystem ::
        GetLastSyncDate(st, ts) == old(GetLastSyncDate(st, ts))
    {
      syncLog := syncLog + [SyncRow(syncType, targetSystem, now, processedCount, failedCount)];
      forall st, ts | st != syncType || ts != targetSystem
        ensures LastSyncDate(syncLog, st, ts) == LastSyncDate(old(syncLog), st, ts)
      {
        assert syncLog[..|syncLog| - 1] == old(syncLog);
      }
    }

    /** Lines 167-181. */
    function GetLastSyncDate(syncType: string, targetSystem: string): Option<string>
      reads this
    {
      LastSyncDate(syncLog, syncType, targetSystem)
    }

    /** Lines 183-192. */
    function GetCveCount(): nat
      reads this
    {
      |summary|
    }

    /** Lines 194-219. */
    method SearchCves(query: string, limit: int) returns (results: seq<SearchHit>)
      ensures results == HitsOf(SearchRows(summary, query, limit))
    {
      var rows := SearchRows(summary, query, limit);
      results := [];
      for i := 0 to |rows|
        invariant |results| == i
        invariant forall k | 0 <= k < i :: results[k] == HitOf(rows[k])
      {
        results := results + [HitOf(rows[i])];
      }
    }

    /** Lines 221-264. */
    method GetCveById(cveId: string) returns (r: Option<CveDetail>)
      ensures r.None? <==> FindRow(summary, cveId).None?
      ensures r.Some? ==> r.value == DetailOf(FindRow(summary, cveId).value, InfosOf(PackagesOf(packages, cveId)))
    {
      var row := FindRow(summary, cveId);
      if row.None? {
        return None;
      }
      var rows := PackagesOf(packages, cveId);
      var infos := [];
      for i := 0 to |rows|
        invariant |infos| == i
        invariant forall k | 0 <= k < i :: infos[k] == InfoOf(rows[k])
      {
        infos := infos + [InfoOf(rows[i])];
      }
      r := Some(DetailOf(row.value, infos));
    }

    /** Lines 266-291. */
    method GetCvesByProduct(product: string, limit: int) returns (results: seq<CveBrief>)
      ensures results == BriefsOf(ProductRows(summary, packages, product, limit))
    {
      var rows := ProductRows(summary, packages, product, limit);
      results := [];
      for i := 0 to |rows|
        invariant |results| == i
        invariant forall k | 0 <= k < i :: results[k] == BriefOf(rows[k])
      {
        results := results + [BriefOf(rows[i])];
      }
    }

    /** Lines 293-317. */
    method GetHighSeverityCves(limit: int) returns (results: seq<CveBrief>)
      ensures results == BriefsOf(HighSeverityRows(summary, limit))
    {
      var rows := HighSeverityRows(summary, limit);
      results := [];
      for i := 0 to |rows|
        invariant |results| == i
        invariant forall k | 0 <= k < i :: results[k] == BriefOf(rows[k])
      {
        results := results + [BriefOf(rows[i])];
      }
    }
  }

  /** `MAX` picks an element no other element is greater than. */
  lemma {:induction false} MaxTextIsGreatest(xs: seq<string>)
    ensures MaxText(xs).Some? <==> xs != []
    ensures MaxText(xs).Some? ==> MaxText(xs).value in xs && forall x | x in xs :: !LexLess(MaxText(xs).value, x)
    decreases |xs|
  {
    if xs != [] {
      var init := xs[..|xs| - 1];
      var last := xs[|xs| - 1];
      assert xs == init + [last];
      MaxTextIsGreatest(init);
      var rest := MaxText(init);
      if rest.None? || LexLess(rest.value, last) {
        forall x | x in xs ensures !LexLess(last, x) {
          if x == last {
            LexLessIrreflexive(x);
          } else if LexLess(last, x) {
            LexLessTransitive(rest.value, last, x);
          }
        }
      }
    }
  }
}
