/** Properties of the SQLite storage model: what an upsert leaves in the
    tables, what a batch counts, and what each query returns. */
module CveSqliteProps {
  import opened PyStr
  import opened PyJson
  import opened CveParser
  import opened CveParserProps
  import opened CveSqlite

  // ---------------------------------------------------------------------
  // When an upsert succeeds

  /** A value sqlite3 can bind: anything but a list, a dict or an integer
      outside 64 bits. */
  predicate Scalar(j: Json) {
    !j.Arr? && !j.Obj? && (j.Num? ==> FitsInt64(j.n))
  }

  /** The four package fields bound for a child row are bindable. */
  predicate PackageBindable(pkg: AffectedRow) {
    Scalar(pkg.vendor) && Scalar(pkg.product) && Scalar(pkg.version) && Scalar(pkg.status)
  }

  /** Every value `upsert_cve` binds for a record is bindable. */
  predicate Bindable(cve: ParseOutcome) {
    match cve
    case Failed => true
    case Tombstone(_, id) => Scalar(id)
    case Parsed(r) =>
      Scalar(r.id) && Scalar(r.metadata.title) && Scalar(r.metadata.publishedDate) &&
      Scalar(r.metadata.lastUpdated) && Scalar(r.metadata.cvssScore) && Scalar(r.metadata.severity) &&
      forall pkg | pkg in r.metadata.affectedPackages :: PackageBindable(pkg)
  }

  lemma PackageRowsOk(cveId: Option<string>, pkgs: seq<AffectedRow>)
    ensures PackageRowsOf(cveId, pkgs).Ok? <==> forall pkg | pkg in pkgs :: PackageBindable(pkg)
  {
    AppendEachOk(PackageRowFor(cveId), [], pkgs);
    assert forall pkg :: PackageRowFor(cveId)(pkg).Ok? <==> PackageBindable(pkg);
  }

  /** `upsert_cve` returns `True` exactly for the records it skips and the
      records all of whose values can be bound; otherwise the transaction
      is rolled back. */
  lemma UpsertSucceedsIff(t: Tables, cve: ParseOutcome)
    ensures Upsert(t, cve).1 <==> Skipped(cve) || Bindable(cve)
    ensures !Upsert(t, cve).1 ==> Upsert(t, cve).0 == t
  {
    if !Skipped(cve) && SummaryOf(cve).Ok? {
      PackageRowsOk(SummaryOf(cve).value.cveId, AffectedOf(cve));
    }
  }

  /** The key `upsert_cve` writes, if it writes one. */
  function WrittenKey(t: Tables, cve: ParseOutcome): Option<string> {
    if Skipped(cve) || Written(t, cve).Raise? then None else SummaryOf(cve).value.cveId
  }

  /** The parser hands the storage layer no rejected record to write: a
      tombstone always carries state `"REJECTED"`, so `upsert_cve` skips an
      extracted outcome exactly when it is not a parsed record, leaving the
      tables unchanged and reporting success. */
  lemma UpsertSkipsExactlyUnparsed(doc: Json, ext: Externals, t: Tables)
    ensures Skipped(Extract(doc, ext)) <==> !Extract(doc, ext).Parsed?
    ensures !Extract(doc, ext).Parsed? ==> Upsert(t, Extract(doc, ext)) == (t, true)
  {
    TombstoneExactlyWhenRejected(doc, ext);
  }

  // ---------------------------------------------------------------------
  // What a successful upsert leaves in the tables

  lemma PackageRowsKeyed(cveId: Option<string>, pkgs: seq<AffectedRow>, added: seq<PackageRow>)
    requires PackageRowsOf(cveId, pkgs) == Ok(added)
    ensures |added| == |pkgs|
    ensures forall p | p in added :: p.cveId == cveId
    ensures forall j | 0 <= j < |pkgs| :: added[j].versionConstraint == VersionConstraint(pkgs[j])
  {
    AppendEachShape(PackageRowFor(cveId), [], pkgs, added);
    forall j | 0 <= j < |pkgs|
      ensures added[j].cveId == cveId && added[j].versionConstraint == VersionConstraint(pkgs[j])
    {
      assert PackageRowFor(cveId)(pkgs[j]) == Ok(added[0 + j]);
      PackageRowKeyed(cveId, pkgs[j], added[j]);
    }
  }

  lemma PackageRowKeyed(cveId: Option<string>, pkg: AffectedRow, row: PackageRow)
    requires PackageRowOf(cveId, pkg) == Ok(row)
    ensures row.cveId == cveId && row.versionConstraint == VersionConstraint(pkg)
  {
  }

  /** After an upsert that writes key `k`, the summary holds exactly one row
      with that key, the one just written, and the child rows of `k` are
      exactly the rows built from the record's packages, in order: reading
      the CVE back gives what was written. */
  lemma UpsertThenRead(t: Tables, cve: ParseOutcome, k: string)
    requires WrittenKey(t, cve) == Some(k)
    ensures var after := Upsert(t, cve).0;
      RowsWithKey(after.summary, k) == [SummaryOf(cve).value] &&
      FindRow(after.summary, k) == Some(SummaryOf(cve).value) &&
      PackagesOf(after.packages, k) == PackageRowsOf(Some(k), AffectedOf(cve)).value
  {
    var row := SummaryOf(cve).value;
    var added := PackageRowsOf(Some(k), AffectedOf(cve)).value;
    var after := Upsert(t, cve).0;
    assert after == Tables(WithoutKey(t.summary, k) + [row], Filter(NotChildOf(k), t.packages) + added);
    FilterAppend(KeyIs(k), WithoutKey(t.summary, k), [row]);
    FilterNone(KeyIs(k), WithoutKey(t.summary, k));
    assert Filter(KeyIs(k), [row]) == [row] + Filter(KeyIs(k), []);
    FilterKeeps(KeyIs(k), after.summary, FindRow(after.summary, k).value);
    PackageRowsKeyed(Some(k), AffectedOf(cve), added);
    FilterAppend(ChildOf(k), Filter(NotChildOf(k), t.packages), added);
    FilterNone(ChildOf(k), Filter(NotChildOf(k), t.packages));
    FilterAll(ChildOf(k), added);
  }

  /** An upsert leaves the summary row and the child rows of every other
      key as they were. */
  lemma UpsertKeepsOtherKeys(t: Tables, cve: ParseOutcome, k: string)
    requires WrittenKey(t, cve) != Some(k)
    ensures RowsWithKey(Upsert(t, cve).0.summary, k) == RowsWithKey(t.summary, k)
    ensures PackagesOf(Upsert(t, cve).0.packages, k) == PackagesOf(t.packages, k)
  {
    if !Skipped(cve) && Written(t, cve).Ok? {
      var row := SummaryOf(cve).value;
      var added := PackageRowsOf(row.cveId, AffectedOf(cve)).value;
      PackageRowsKeyed(row.cveId, AffectedOf(cve), added);
      var kept := if row.cveId.Some? then WithoutKey(t.summary, row.cveId.value) else t.summary;
      FilterAppend(KeyIs(k), kept, [row]);
      assert Filter(KeyIs(k), [row]) == [] + Filter(KeyIs(k), []);
      FilterAppend(ChildOf(k), DeletePackages(t.packages, row.cveId), added);
      FilterNone(ChildOf(k), added);
      if row.cveId.Some? {
        FilterFilter(KeyIs(k), KeyIsNot(row.cveId.value), t.summary);
        FilterFilter(ChildOf(k), NotChildOf(row.cveId.value), t.packages);
      }
    }
  }

  /** Under the PRIMARY KEY, at most one row has a given key. */
  lemma {:induction false} AtMostOneRowPerKey(summary: seq<SummaryRow>, k: string)
    requires UniqueKeys(summary)
    ensures |RowsWithKey(summary, k)| == if exists row | row in summary :: row.cveId == Some(k) then 1 else 0
    decreases |summary|
  {
    if summary != [] {
      UniqueKeysTail(summary);
      AtMostOneRowPerKey(summary[1..], k);
      assert summary == [summary[0]] + summary[1..];
      if summary[0].cveId == Some(k) {
        FilterNone(KeyIs(k), summary[1..]);
      }
    }
  }

  /** `get_cve_count` grows by one exactly when an upsert writes a key not
      yet in the table (or a NULL key); a replace, a skip and a failure
      leave it unchanged. */
  lemma UpsertCount(t: Tables, cve: ParseOutcome)
    requires UniqueKeys(t.summary)
    ensures |Upsert(t, cve).0.summary| == |t.summary| +
      (if !Skipped(cve) && Written(t, cve).Ok? &&
          (WrittenKey(t, cve).None? || forall row | row in t.summary :: row.cveId != WrittenKey(t, cve))
       then 1 else 0)
  {
    if !Skipped(cve) && Written(t, cve).Ok? {
      var row := SummaryOf(cve).value;
      if row.cveId.Some? {
        var k := row.cveId.value;
        FilterSplit(KeyIs(k), KeyIsNot(k), t.summary);
        AtMostOneRowPerKey(t.summary, k);
      }
    }
  }

  /** No child row names a CVE that has no summary row. */
  predicate ChildrenHaveParents(t: Tables) {
    forall p | p in t.packages && p.cveId.Some? :: exists row | row in t.summary :: row.cveId == p.cveId
  }

  /** An upsert writes the parent row with its children and deletes the
      children of the row it replaces, so every child keeps a parent. */
  lemma UpsertKeepsParents(t: Tables, cve: ParseOutcome)
    requires ChildrenHaveParents(t)
    ensures ChildrenHaveParents(Upsert(t, cve).0)
  {
    if !Skipped(cve) && Written(t, cve).Ok? {
      var row := SummaryOf(cve).value;
      var added := PackageRowsOf(row.cveId, AffectedOf(cve)).value;
      var after := Upsert(t, cve).0;
      PackageRowsKeyed(row.cveId, AffectedOf(cve), added);
      forall p | p in after.packages && p.cveId.Some?
        ensures exists x | x in after.summary :: x.cveId == p.cveId
      {
        if p in added {
          assert row in after.summary;
        } else {
          assert p in DeletePackages(t.packages, row.cveId);
          var parent :| parent in t.summary && parent.cveId == p.cveId;
          if row.cveId.Some? {
            FilterKeeps(KeyIsNot(row.cveId.value), t.summary, parent);
          }
          assert parent in after.summary;
        }
      }
    }
  }

  // ---------------------------------------------------------------------
  // bulk_upsert_cves

  /** Every record of a batch is counted once, as a success or a failure. */
  lemma {:induction false} BulkCounts(t: Tables, batch: seq<ParseOutcome>)
    ensures Bulk(t, batch).1 + Bulk(t, batch).2 == |batch|
    decreases |batch|
  {
    if batch != [] {
      BulkCounts(t, batch[..|batch| - 1]);
    }
  }

  /** A record that can be neither skipped nor written. */
  predicate Unwritable(cve: ParseOutcome) {
    !Skipped(cve) && !Bindable(cve)
  }

  /** The failures of a batch are exactly its unwritable records, whatever
      the tables held before. */
  lemma {:induction false} BulkFailures(t: Tables, batch: seq<ParseOutcome>)
    ensures Bulk(t, batch).2 == |Filter(Unwritable, batch)|
    decreases |batch|
  {
    if batch != [] {
      var init := batch[..|batch| - 1];
      var last := batch[|batch| - 1];
      BulkFailures(t, init);
      TallyFailures(Bulk(t, init), last);
      assert batch == init + [last];
      FilterAppend(Unwritable, init, [last]);
      assert Filter(Unwritable, [last]) == (if Unwritable(last) then [last] else []) + Filter(Unwritable, []);
    }
  }

  lemma TallyFailures(acc: (Tables, nat, nat), cve: ParseOutcome)
    ensures Tally(acc, cve).2 == acc.2 + if Unwritable(cve) then 1 else 0
  {
    UpsertSucceedsIff(acc.0, cve);
  }

  /** Running two batches one after the other is running their
      concatenation; the counts add up. */
  lemma {:induction false} BulkAppend(t: Tables, xs: seq<ParseOutcome>, ys: seq<ParseOutcome>)
    ensures Bulk(t, xs + ys).0 == Bulk(Bulk(t, xs).0, ys).0
    ensures Bulk(t, xs + ys).1 == Bulk(t, xs).1 + Bulk(Bulk(t, xs).0, ys).1
    ensures Bulk(t, xs + ys).2 == Bulk(t, xs).2 + Bulk(Bulk(t, xs).0, ys).2
    decreases |ys|
  {
    if ys == [] {
      assert xs + ys == xs;
    } else {
      var init := ys[..|ys| - 1];
      BulkAppend(t, xs, init);
      assert (xs + ys)[..|xs + ys| - 1] == xs + init;
      assert (xs + ys)[|xs + ys| - 1] == ys[|ys| - 1];
    }
  }

  /** A batch keeps the PRIMARY KEY and every child's parent. */
  lemma {:induction false} BulkKeepsInvariants(t: Tables, batch: seq<ParseOutcome>)
    requires UniqueKeys(t.summary) && ChildrenHaveParents(t)
    ensures UniqueKeys(Bulk(t, batch).0.summary) && ChildrenHaveParents(Bulk(t, batch).0)
    decreases |batch|
  {
    if batch != [] {
      var init := batch[..|batch| - 1];
      BulkKeepsInvariants(t, init);
      UpsertKeepsUniqueKeys(Bulk(t, init).0, batch[|batch| - 1]);
      UpsertKeepsParents(Bulk(t, init).0, batch[|batch| - 1]);
    }
  }

  // ---------------------------------------------------------------------
  // ORDER BY cvss_score DESC

  lemma ScoreBelowIrreflexive(a: SqlValue)
    ensures !ScoreBelow(a, a)
  {
    if a.SqlText? {
      LexLessIrreflexive(a.t);
    }
  }

  lemma ScoreBelowTransitive(a: SqlValue, b: SqlValue, c: SqlValue)
    requires ScoreBelow(a, b) && ScoreBelow(b, c)
    ensures ScoreBelow(a, c)
  {
    if a.SqlText? {
      LexLessTransitive(a.t, b.t, c.t);
    }
  }

  lemma SortedCons(h: SummaryRow, rows: seq<SummaryRow>)
    requires SortedByScore(rows)
    requires forall x | x in rows :: !ScoreBelow(h.cvssScore, x.cvssScore)
    ensures SortedByScore([h] + rows)
  {
    var s := [h] + rows;
    forall i, j | 0 <= i < j < |s|
      ensures !ScoreBelow(s[i].cvssScore, s[j].cvssScore)
    {
      assert s[j] == rows[j - 1];
      if i == 0 {
        assert rows[j - 1] in rows;
      } else {
        assert s[i] == rows[i - 1];
      }
    }
  }

  lemma {:induction false} InsertKeepsSorted(sorted: seq<SummaryRow>, row: SummaryRow)
    requires SortedByScore(sorted)
    ensures SortedByScore(InsertByScore(sorted, row))
    decreases |sorted|
  {
    if sorted == [] {
    } else if ScoreBelow(sorted[0].cvssScore, row.cvssScore) {
      forall x | x in sorted
        ensures !ScoreBelow(row.cvssScore, x.cvssScore)
      {
        var j :| 0 <= j < |sorted| && sorted[j] == x;
        if ScoreBelow(row.cvssScore, x.cvssScore) {
          ScoreBelowTransitive(sorted[0].cvssScore, row.cvssScore, x.cvssScore);
          if j == 0 {
            ScoreBelowIrreflexive(x.cvssScore);
          }
        }
      }
      SortedCons(row, sorted);
    } else {
      var rest := sorted[1..];
      assert SortedByScore(rest) by {
        forall i, j | 0 <= i < j < |rest|
          ensures !ScoreBelow(rest[i].cvssScore, rest[j].cvssScore)
        {
          assert rest[i] == sorted[i + 1] && rest[j] == sorted[j + 1];
        }
      }
      InsertKeepsSorted(rest, row);
      var ins := InsertByScore(rest, row);
      forall x | x in ins
        ensures !ScoreBelow(sorted[0].cvssScore, x.cvssScore)
      {
        assert x in multiset(ins);
        if x != row {
          assert x in multiset(rest);
          var j :| 0 <= j < |rest| && rest[j] == x;
          assert sorted[j + 1] == x;
        }
      }
      SortedCons(sorted[0], ins);
    }
  }

  /** The sort orders rows by descending score. */
  lemma {:induction false} SortByScoreSorted(rows: seq<SummaryRow>)
    ensures SortedByScore(SortByScore(rows))
    decreases |rows|
  {
    if rows != [] {
      SortByScoreSorted(rows[..|rows| - 1]);
      InsertKeepsSorted(SortByScore(rows[..|rows| - 1]), rows[|rows| - 1]);
    }
  }

  /** `WHERE keep ORDER BY cvss_score DESC LIMIT limit` returns matching rows
      of the table, highest score first, no more than `limit` of them, and
      all of them when the limit does not bite. */
  lemma SelectSpec(keep: SummaryRow -> bool, summary: seq<SummaryRow>, limit: int)
    ensures forall row | row in Select(keep, summary, limit) :: keep(row) && row in summary
    ensures SortedByScore(Select(keep, summary, limit))
    ensures 0 <= limit ==> |Select(keep, summary, limit)| <= limit
    ensures multiset(Select(keep, summary, limit)) <= multiset(summary)
    ensures limit < 0 || |Filter(keep, summary)| <= limit ==>
      multiset(Select(keep, summary, limit)) == multiset(Filter(keep, summary))
  {
    var matching := Filter(keep, summary);
    var sorted := SortByScore(matching);
    var r := Select(keep, summary, limit);
    SortByScoreSorted(matching);
    FilterSubMultiset(keep, summary);
    assert sorted == r + sorted[|r|..];
    assert multiset(sorted) == multiset(r) + multiset(sorted[|r|..]);
    forall row | row in r
      ensures keep(row) && row in summary
    {
      assert row in multiset(matching);
    }
    assert SortedByScore(r) by {
      forall i, j | 0 <= i < j < |r|
        ensures !ScoreBelow(r[i].cvssScore, r[j].cvssScore)
      {
        assert r[i] == sorted[i] && r[j] == sorted[j];
      }
    }
  }

  /** A limited query returns the highest-scoring matches: no row it leaves
      out scores higher than any row it returns. */
  lemma SelectTopK(keep: SummaryRow -> bool, summary: seq<SummaryRow>, limit: int)
    ensures var sorted := SortByScore(Filter(keep, summary));
      var r := Select(keep, summary, limit);
      multiset(r) + multiset(sorted[|r|..]) == multiset(Filter(keep, summary)) &&
      forall x, y | x in r && y in sorted[|r|..] :: !ScoreBelow(x.cvssScore, y.cvssScore)
  {
    var sorted := SortByScore(Filter(keep, summary));
    var r := Select(keep, summary, limit);
    var rest := sorted[|r|..];
    SortByScoreSorted(Filter(keep, summary));
    assert sorted == r + rest;
    forall x, y | x in r && y in rest
      ensures !ScoreBelow(x.cvssScore, y.cvssScore)
    {
      var i :| 0 <= i < |r| && r[i] == x;
      var j :| 0 <= j < |rest| && rest[j] == y;
      assert sorted[i] == x && sorted[|r| + j] == y;
    }
  }

  // ---------------------------------------------------------------------
  // LIKE

  /** A pattern without `%` and `_` matches only itself, up to ASCII case. */
  predicate NoWildcards(q: string) {
    forall c | c in q :: c != '%' && c != '_'
  }

  lemma {:induction false} LikePercent(s: string)
    ensures Like("%", s)
    decreases |s|
  {
    assert "%"[1..] == [];
    if s != [] {
      LikePercent(s[1..]);
    }
  }

  lemma {:induction false} LikeSkips(p: string, a: string, t: string)
    requires Like(p, t)
    ensures Like("%" + p, a + t)
    decreases |a|
  {
    assert ("%" + p)[0] == '%' && ("%" + p)[1..] == p;
    if a != [] {
      LikeSkips(p, a[1..], t);
      assert (a + t)[1..] == a[1..] + t;
    } else {
      assert a + t == t;
    }
  }

  lemma {:induction false} LikeLiteral(q: string, p: string, t: string)
    requires NoWildcards(q) && Like(p, t)
    ensures Like(q + p, q + t)
    decreases |q|
  {
    if q == [] {
      assert q + p == p && q + t == t;
    } else {
      assert q[0] in q;
      assert NoWildcards(q[1..]) by {
        forall c | c in q[1..] ensures c != '%' && c != '_' {
          assert c in q;
        }
      }
      LikeLiteral(q[1..], p, t);
      assert (q + p)[0] == q[0] && (q + p)[1..] == q[1..] + p;
      assert (q + t)[0] == q[0] && (q + t)[1..] == q[1..] + t;
    }
  }

  /** `s LIKE '%q%'` holds whenever `q`, free of wildcards, occurs in `s`;
      for `q = ""` that is every string. */
  lemma LikeFindsSubstring(q: string, s: string)
    requires NoWildcards(q) && Contains(s, q)
    ensures Like("%" + q + "%", s)
  {
    var i :| 0 <= i <= |s| - |q| && OccursAt(s, q, i);
    var b := s[i + |q|..];
    LikePercent(b);
    LikeLiteral(q, "%", b);
    LikeSkips(q + "%", s[..i], q + b);
    assert s == s[..i] + (q + b);
    assert "%" + q + "%" == "%" + (q + "%");
  }

  // ---------------------------------------------------------------------
  // The queries

  /** `search_cves` returns rows of the table whose description or title
      contains the query, by descending score, at most `limit` of them;
      with no limit it returns every row whose description or title holds
      the (wildcard-free) query as a substring. */
  lemma SearchSpec(summary: seq<SummaryRow>, query: string, limit: int, row: SummaryRow)
    ensures forall x | x in SearchRows(summary, query, limit) ::
      x in summary && (LikeValue("%" + query + "%", x.description) || LikeValue("%" + query + "%", x.title))
    ensures SortedByScore(SearchRows(summary, query, limit))
    ensures 0 <= limit ==> |SearchRows(summary, query, limit)| <= limit
    ensures row in summary && NoWildcards(query) && limit < 0 &&
      ((row.description.Some? && Contains(row.description.value, query)) ||
       (row.title.Some? && Contains(row.title.value, query)))
      ==> row in SearchRows(summary, query, limit)
  {
    SelectSpec(SearchMatch(query), summary, limit);
    if row in summary && NoWildcards(query) && limit < 0 {
      if row.description.Some? && Contains(row.description.value, query) {
        LikeFindsSubstring(query, row.description.value);
      }
      if row.title.Some? && Contains(row.title.value, query) {
        LikeFindsSubstring(query, row.title.value);
      }
      if SearchMatch(query)(row) {
        FilterKeeps(SearchMatch(query), summary, row);
        assert row in multiset(Filter(SearchMatch(query), summary));
      }
    }
  }

  /** Under the PRIMARY KEY two different rows have different keys. */
  lemma UniqueKeysDistinct(a: seq<SummaryRow>, x: SummaryRow, y: SummaryRow)
    requires UniqueKeys(a) && x in a && y in a && x != y && x.cveId.Some?
    ensures x.cveId != y.cveId
  {
    var i :| 0 <= i < |a| && a[i] == x;
    var j :| 0 <= j < |a| && a[j] == y;
  }

  /** Rows with unique keys stay unique in any sub-multiset. */
  lemma UniqueKeysSubMultiset(a: seq<SummaryRow>, b: seq<SummaryRow>)
    requires UniqueKeys(a) && multiset(b) <= multiset(a)
    ensures UniqueKeys(b)
  {
    forall i, j | 0 <= i < j < |b| && b[i].cveId.Some?
      ensures b[i].cveId != b[j].cveId
    {
      assert b[i] in multiset(a) && b[j] in multiset(a);
      if b[i] == b[j] {
        assert b == b[..j] + b[j..];
        assert b[i] in b[..j] && b[j] in b[j..];
        assert multiset(b)[b[i]] >= 2;
        AtMostOnce(a, b[i]);
      } else {
        UniqueKeysDistinct(a, b[i], b[j]);
      }
    }
  }

  /** Under the PRIMARY KEY a row with a key occurs at most once. */
  lemma {:induction false} AtMostOnce(a: seq<SummaryRow>, x: SummaryRow)
    requires UniqueKeys(a) && x.cveId.Some?
    ensures multiset(a)[x] <= 1
    decreases |a|
  {
    if a != [] {
      UniqueKeysTail(a);
      AtMostOnce(a[1..], x);
      assert a == [a[0]] + a[1..];
      if a[0] == x {
        assert x !in a[1..];
      }
    }
  }

  /** `get_cves_by_product` returns CVEs with a child row whose product
      matches, by descending score, at most `limit` of them, no CVE twice,
      and all of them when the limit does not bite. */
  lemma ProductSpec(summary: seq<SummaryRow>, packages: seq<PackageRow>, product: string, limit: int)
    requires UniqueKeys(summary)
    ensures forall x | x in ProductRows(summary, packages, product, limit) :: (x in summary && x.cveId.Some? &&
      exists p | p in packages :: p.cveId == x.cveId && LikeValue("%" + product + "%", p.product))
    ensures SortedByScore(ProductRows(summary, packages, product, limit))
    ensures 0 <= limit ==> |ProductRows(summary, packages, product, limit)| <= limit
    ensures UniqueKeys(ProductRows(summary, packages, product, limit))
    ensures limit < 0 ==> forall x | x in summary && ProductMatch(packages, product)(x) ::
      x in ProductRows(summary, packages, product, limit)
  {
    SelectSpec(ProductMatch(packages, product), summary, limit);
    UniqueKeysSubMultiset(summary, ProductRows(summary, packages, product, limit));
    if limit < 0 {
      forall x | x in summary && ProductMatch(packages, product)(x)
        ensures x in ProductRows(summary, packages, product, limit)
      {
        FilterKeeps(ProductMatch(packages, product), summary, x);
        assert x in multiset(Filter(ProductMatch(packages, product), summary));
      }
    }
  }

  /** `get_high_severity_cves` returns HIGH and CRITICAL CVEs with a score,
      highest first, at most `limit` of them, and all of them when the limit
      does not bite. */
  lemma HighSeveritySpec(summary: seq<SummaryRow>, limit: int)
    ensures forall x | x in HighSeverityRows(summary, limit) ::
      x in summary && !x.cvssScore.SqlNull? && (x.severity == Some("HIGH") || x.severity == Some("CRITICAL"))
    ensures SortedByScore(HighSeverityRows(summary, limit))
    ensures 0 <= limit ==> |HighSeverityRows(summary, limit)| <= limit
    ensures limit < 0 ==> forall x | x in summary && IsHighSeverity(x) :: x in HighSeverityRows(summary, limit)
  {
    SelectSpec(IsHighSeverity, summary, limit);
    if limit < 0 {
      forall x | x in summary && IsHighSeverity(x)
        ensures x in HighSeverityRows(summary, limit)
      {
        FilterKeeps(IsHighSeverity, summary, x);
        assert x in multiset(Filter(IsHighSeverity, summary));
      }
    }
  }

  /** Under the PRIMARY KEY, `get_cve_by_id` finds the one row with the key. */
  lemma FindRowUnique(summary: seq<SummaryRow>, row: SummaryRow, k: string)
    requires UniqueKeys(summary) && row in summary && row.cveId == Some(k)
    ensures FindRow(summary, k) == Some(row)
  {
    var found := FindRow(summary, k).value;
    var i :| 0 <= i < |summary| && summary[i] == row;
    var j :| 0 <= j < |summary| && summary[j] == found;
  }
}
