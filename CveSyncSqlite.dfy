/** `run_full_sync` of dataSync/cveSync/cveSyncSqlite.py: parse every CVE
    file of the downloaded year archive, upsert the parsed records in one
    batch and record the run in the audit table. */
module CveSyncSqlite {
  import opened PyJson
  import opened CveParser
  import opened CveParserProps
  import opened CveSqlite
  import opened CveSqliteProps

  /** One file of the archive: its JSON document, or `None` when opening or
      decoding it raised (lines 25-32 log that and go on). */
  type CveFile = Option<Json>

  /** `CVEParser.extract_cve_data` with the embedding model of the run. */
  function Parser(ext: Externals): Json -> ParseOutcome {
    doc => Extract(doc, ext)
  }

  /** Lines 22-32: the batch handed to `bulk_upsert_cves`. A file whose
      parse gives `{}` is falsy and is left out. */
  function BatchOf(files: seq<CveFile>, parse: Json -> ParseOutcome): (batch: seq<ParseOutcome>)
    ensures |batch| <= |files|
    ensures forall x | x in batch :: !x.Failed?
    decreases |files|
  {
    if files == [] then []
    else
      var init := BatchOf(files[..|files| - 1], parse);
      var last := files[|files| - 1];
      if last.Some? && !parse(last.value).Failed? then init + [parse(last.value)] else init
  }

  /** The tables after the batch of `files`, with the counts logged. */
  function Sync(t: Tables, files: seq<CveFile>, ext: Externals): (Tables, nat, nat) {
    Bulk(t, BatchOf(files, Parser(ext)))
  }

  /** Lines 22-32. */
  method BuildBatch(files: seq<CveFile>, ext: Externals) returns (batch: seq<ParseOutcome>)
    ensures batch == BatchOf(files, Parser(ext))
  {
    batch := [];
    for i := 0 to |files|
      invariant batch == BatchOf(files[..i], Parser(ext))
    {
      BatchOfStep(files, i, Parser(ext));
      if files[i].Some? {
        var parsed := ExtractCveData(files[i].value, ext);
        if !parsed.Failed? {
          batch := batch + [parsed];
        }
      }
    }
    assert files[..|files|] == files;
  }

  lemma BatchOfStep(files: seq<CveFile>, i: nat, parse: Json -> ParseOutcome)
    requires i < |files|
    ensures BatchOf(files[..i + 1], parse) == BatchOf(files[..i], parse) +
      if files[i].Some? && !parse(files[i].value).Failed? then [parse(files[i].value)] else []
  {
    assert files[..i + 1][..i] == files[..i] && files[..i + 1][i] == files[i];
  }

  /** Lines 11-36. `archive` is the outcome of downloading and listing the
      year archive, an exception that ends the run; `ext` stands for the
      embedding model; `now` is the time `log_sync` reads. The success and
      failure counts are returned where the source logs them. */
  method RunFullSync(db: SqliteManager, archive: Result<seq<CveFile>>, ext: Externals, now: string)
    returns (r: Result<(nat, nat)>)
    requires db.Valid()
    modifies db
    ensures db.Valid()
    ensures archive.Raise? ==> r == Raise(archive.error) && unchanged(db)
    ensures archive.Ok? ==>
      var result := Sync(old(db.Contents()), archive.value, ext);
      r == Ok((result.1, result.2)) && db.Contents() == result.0 &&
      db.syncLog == old(db.syncLog) + [SyncRow("FULL", "SQLite", now, result.1, result.2)]
  {
    if archive.Raise? {
      return Raise(archive.error);
    }
    var batch := BuildBatch(archive.value, ext);
    var success, failed := db.BulkUpsertCves(batch);
    db.LogSync("FULL", "SQLite", now, success, failed);
    return Ok((success, failed));
  }

  // ---------------------------------------------------------------------
  // Properties

  /** The batch of two runs of files is the two batches one after the other. */
  lemma {:induction false} BatchOfAppend(xs: seq<CveFile>, ys: seq<CveFile>, parse: Json -> ParseOutcome)
    ensures BatchOf(xs + ys, parse) == BatchOf(xs, parse) + BatchOf(ys, parse)
    decreases |ys|
  {
    if ys == [] {
      assert xs + ys == xs;
    } else {
      BatchOfAppend(xs, ys[..|ys| - 1], parse);
      assert (xs + ys)[..|xs + ys| - 1] == xs + ys[..|ys| - 1];
      assert (xs + ys)[|xs + ys| - 1] == ys[|ys| - 1];
    }
  }

  /** Every record of the batch is what the parser made of a readable file. */
  lemma {:induction false} BatchFromFiles(files: seq<CveFile>, parse: Json -> ParseOutcome)
    ensures forall x | x in BatchOf(files, parse) :: exists doc | Some(doc) in files :: x == parse(doc)
    decreases |files|
  {
    if files != [] {
      var init := files[..|files| - 1];
      BatchFromFiles(init, parse);
      assert files == init + [files[|files| - 1]];
    }
  }

  /** A readable file whose parse succeeds contributes its record. */
  lemma {:induction false} ParsedFileInBatch(files: seq<CveFile>, parse: Json -> ParseOutcome, doc: Json)
    requires Some(doc) in files && !parse(doc).Failed?
    ensures parse(doc) in BatchOf(files, parse)
    decreases |files|
  {
    var init := files[..|files| - 1];
    assert files == init + [files[|files| - 1]];
    if files[|files| - 1] != Some(doc) {
      ParsedFileInBatch(init, parse, doc);
    }
  }

  /** A run counts every record of its batch once; the failures are exactly
      the parsed records with a value sqlite3 cannot bind: tombstones of
      rejected CVEs are skipped and count as successes. */
  lemma SyncCounts(t: Tables, files: seq<CveFile>, ext: Externals)
    ensures Sync(t, files, ext).1 + Sync(t, files, ext).2 == |BatchOf(files, Parser(ext))| <= |files|
    ensures Sync(t, files, ext).2 == |Filter(Unwritable, BatchOf(files, Parser(ext)))|
    ensures forall x | x in Filter(Unwritable, BatchOf(files, Parser(ext))) :: x.Parsed?
  {
    var batch := BatchOf(files, Parser(ext));
    BulkCounts(t, batch);
    BulkFailures(t, batch);
    BatchFromFiles(files, Parser(ext));
    forall x | x in Filter(Unwritable, batch)
      ensures x.Parsed?
    {
      var doc :| Some(doc) in files && x == Parser(ext)(doc);
      UpsertSkipsExactlyUnparsed(doc, ext, t);
    }
  }

  /** A run keeps the PRIMARY KEY and every child's parent. */
  lemma SyncKeepsInvariants(t: Tables, files: seq<CveFile>, ext: Externals)
    requires UniqueKeys(t.summary) && ChildrenHaveParents(t)
    ensures UniqueKeys(Sync(t, files, ext).0.summary) && ChildrenHaveParents(Sync(t, files, ext).0)
  {
    BulkKeepsInvariants(t, BatchOf(files, Parser(ext)));
  }
}
