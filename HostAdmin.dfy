/** The package-list upload of `HostAdmin.upload_packages`
    (cveapp/admin.py:47-56): the decoded file is split into lines, a header
    line is dropped, and every line with at least two comma-separated fields
    becomes a `(host_id, package_name, installed_date)` row. */
module HostAdmin {
  import opened PyStr
  import opened PyJson

  /** A row for the `host_packages` table. */
  datatype HostPackage = HostPackage(hostId: int, packageName: string, installedDate: string)

  /** Line 49: the first line is taken for a header when, lowercased, it
      starts with `packagename`, or when it holds a comma. */
  predicate IsHeader(line: string) {
    StartsWith(Lower(line), "packagename") || ',' in line
  }

  /** Line 53: `[p.strip() for p in line.split(',')]`. */
  function Fields(line: string): seq<string> {
    var pieces := Split(line, ',');
    seq(|pieces|, i requires 0 <= i < |pieces| => Strip(pieces[i]))
  }

  /** Lines 53-56: the row one line yields, if it has two fields. */
  function RowOf(hostId: int, line: string): Option<HostPackage> {
    var parts := Fields(line);
    if |parts| >= 2 then Some(HostPackage(hostId, parts[0], parts[1])) else None
  }

  function RowFor(hostId: int): string -> Option<HostPackage> {
    line => RowOf(hostId, line)
  }

  /** Lines 51-56: the rows of `lines`, in order. */
  function RowsOf(hostId: int, lines: seq<string>): seq<HostPackage> {
    Collect(RowFor(hostId), lines)
  }

  /** Lines 47-50: the lines left once a header is dropped. */
  function BodyLines(text: string): seq<string> {
    var lines := SplitLines(text);
    if lines != [] && IsHeader(lines[0]) then lines[1..] else lines
  }

  /** Lines 47-56: the rows an upload of `text` yields for host `hostId`.
      Decoding the uploaded bytes as UTF-8 is not part of this model. */
  method ParseUpload(hostId: int, text: string) returns (rows: seq<HostPackage>)
    ensures rows == RowsOf(hostId, BodyLines(text))
  {
    var lines := SplitLines(text);
    if |lines| > 0 && IsHeader(lines[0]) {
      lines := lines[1..];
    }
    rows := [];
    for i := 0 to |lines|
      invariant rows == RowsOf(hostId, lines[..i])
    {
      CollectStep(RowFor(hostId), lines, i);
      var parts := Fields(lines[i]);
      if |parts| >= 2 {
        rows := rows + [HostPackage(hostId, parts[0], parts[1])];
      }
    }
    assert lines[..|lines|] == lines;
  }

  // ---------------------------------------------------------------------
  // Properties

  /** A line yields a row exactly when it holds a comma. */
  lemma RowOfIff(hostId: int, line: string)
    ensures RowOf(hostId, line).Some? <==> ',' in line
  {
    SplitHasTwoPieces(line, ',');
  }

  /** A row's package name is the stripped text before the line's first
      comma and its date the stripped text between the first comma and the
      next one (or the end); neither holds a comma or surrounding
      whitespace, and further fields are ignored. */
  lemma RowOfFields(hostId: int, line: string)
    requires RowOf(hostId, line).Some?
    ensures var r := RowOf(hostId, line).value;
      var name := UpTo(line, ',');
      r.hostId == hostId &&
      |name| < |line| &&
      r.packageName == Strip(name) &&
      r.installedDate == Strip(UpTo(line[|name| + 1..], ','))
    ensures ',' !in RowOf(hostId, line).value.packageName && ',' !in RowOf(hostId, line).value.installedDate
    ensures Strip(RowOf(hostId, line).value.packageName) == RowOf(hostId, line).value.packageName
    ensures Strip(RowOf(hostId, line).value.installedDate) == RowOf(hostId, line).value.installedDate
  {
    var r := RowOf(hostId, line).value;
    var pieces := Split(line, ',');
    RowOfIff(hostId, line);
    SplitAtFirst(line, ',');
    var name := UpTo(line, ',');
    SplitAtFirst(line[|name| + 1..], ',');
    assert pieces[1] == pieces[1..][0];
    StripIdempotent(pieces[0]);
    StripIdempotent(pieces[1]);
    StripKeepsOut(pieces[0], ',');
    StripKeepsOut(pieces[1], ',');
  }

  /** Stripping removes characters and adds none. */
  lemma StripKeepsOut(s: string, c: char)
    requires c !in s
    ensures c !in Strip(s)
  {
    var i, j :| 0 <= i <= j <= |s| && Strip(s) == s[i..j];
  }

  /** A line whose first two pieces are `a` and `b` yields their stripped text. */
  lemma RowOfPieces(hostId: int, line: string, a: string, b: string, rest: seq<string>)
    requires Split(line, ',') == [a, b] + rest
    ensures RowOf(hostId, line) == Some(HostPackage(hostId, Strip(a), Strip(b)))
  {
  }

  /** A line written as `name,date,...` from fields free of commas gives
      back the first two fields when they carry no surrounding whitespace. */
  lemma RowRoundTrip(hostId: int, name: string, date: string, extra: seq<string>)
    requires forall field | field in [name, date] + extra :: ',' !in field
    requires Strip(name) == name && Strip(date) == date
    ensures RowOf(hostId, Join([name, date] + extra, ',')) == Some(HostPackage(hostId, name, date))
  {
    SplitJoin([name, date] + extra, ',');
    RowOfPieces(hostId, Join([name, date] + extra, ','), name, date, extra);
  }

  /** Rows of consecutive runs of lines follow each other. */
  lemma RowsOfAppend(hostId: int, xs: seq<string>, ys: seq<string>)
    ensures RowsOf(hostId, xs + ys) == RowsOf(hostId, xs) + RowsOf(hostId, ys)
  {
    CollectAppend(RowFor(hostId), xs, ys);
  }

  /** There are no more rows than lines, each row carries the host's id and
      comes from a line that yields it. */
  lemma RowsFromLines(hostId: int, lines: seq<string>)
    ensures |RowsOf(hostId, lines)| <= |lines|
    ensures forall r | r in RowsOf(hostId, lines) ::
      r.hostId == hostId && exists line | line in lines :: RowOf(hostId, line) == Some(r)
  {
    CollectFrom(RowFor(hostId), lines);
    forall r | r in RowsOf(hostId, lines)
      ensures r.hostId == hostId
    {
      var line :| line in lines && RowFor(hostId)(line) == Some(r);
      RowOfHost(hostId, line);
    }
  }

  lemma RowOfHost(hostId: int, line: string)
    ensures RowOf(hostId, line).Some? ==> RowOf(hostId, line).value.hostId == hostId
  {
  }

  /** The first line of an upload never yields a row: a line that could
      yield one holds a comma and is taken for a header, so a file without a
      header loses its first data line. */
  lemma FirstLineNeverYieldsRow(hostId: int, text: string)
    ensures SplitLines(text) == [] ==> RowsOf(hostId, BodyLines(text)) == []
    ensures SplitLines(text) != [] ==> RowsOf(hostId, BodyLines(text)) == RowsOf(hostId, SplitLines(text)[1..])
  {
    var lines := SplitLines(text);
    if lines != [] && !IsHeader(lines[0]) {
      RowOfIff(hostId, lines[0]);
      assert RowFor(hostId)(lines[0]).None?;
      CollectStep(RowFor(hostId), lines, 0);
      assert lines[..0] == [];
      RowsOfAppend(hostId, lines[..1], lines[1..]);
      assert lines[..1] + lines[1..] == lines;
    }
  }
}
