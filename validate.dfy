/**
 * validate_csv_file over an already parsed file: the header comparison, the
 * empty-field check with its allowlist, the pipe check and the cut-off after
 * 100 errors.
 */
module CsvCheck {
  import opened Opt

  /**
   * A parsed data row: the value of each header field. A short row gets the
   * filler None for the fields it lacks, as csv.DictReader gives it.
   */
  type Row = map<string, Option<string>>

  /** A CSV file as the validator finds it: absent, without a header line (empty), or a header and its rows. */
  datatype CsvFile = Absent | Headerless | Parsed(header: seq<string>, rows: seq<Row>)

  /** The errors the validator collects; rows are numbered from 1. */
  datatype Issue =
    | MissingFields(fields: set<string>)
    | EmptyField(row: nat, field: string)
    | PipeFound(row: nat, field: string)
    | Truncated

  datatype Warning = ExtraFields(fields: set<string>)

  const MaxErrors: nat := 100

  /** Required fields that may be empty. */
  const EmptyAllowed: set<string> := {
    "parent_id", "level", "description", "rating_avg",
    "address_line_2", "technical_info", "guarantee_info",
    "manufacturer_name", "confirmed_at", "paid_at",
    "shipped_at", "delivered_at", "completed_at",
    "days_to_ship", "days_to_deliver", "authorized_at",
    "comment", "introduction", "first_order_date"}

  function MissingOf(header: seq<string>, required: seq<string>): set<string> {
    set f | f in required && f !in header
  }

  function ExtraOf(header: seq<string>, required: seq<string>): set<string> {
    set f | f in header && f !in required
  }

  /** The header comparison: required fields the header lacks are an error. */
  function HeaderIssues(header: seq<string>, required: seq<string>): seq<Issue> {
    var missing := MissingOf(header, required);
    if missing != {} then [MissingFields(missing)] else []
  }

  /** The header comparison: fields beyond the required ones are only a warning. */
  function HeaderWarnings(header: seq<string>, required: seq<string>): seq<Warning> {
    var extra := ExtraOf(header, required);
    if extra != {} then [ExtraFields(extra)] else []
  }

  /** A field the row lacks or holds the empty string in; the filler None is neither. */
  predicate IsEmptyValue(row: Row, f: string) {
    f !in row || row[f] == Some("")
  }

  /** The empty-field check of one row, in the order of the required fields. */
  function EmptyIssues(i: nat, row: Row, fields: seq<string>): seq<Issue>
    decreases |fields|
  {
    if fields == [] then []
    else
      var f := fields[|fields| - 1];
      EmptyIssues(i, row, fields[..|fields| - 1]) +
        if IsEmptyValue(row, f) && f !in EmptyAllowed then [EmptyField(i, f)] else []
  }

  /** The keys of a row in iteration order: the header fields, each at its first occurrence. */
  function Dedup(header: seq<string>): seq<string>
    decreases |header|
  {
    if header == [] then []
    else
      var d := Dedup(header[..|header| - 1]);
      var f := header[|header| - 1];
      if f in d then d else d + [f]
  }

  /** A non-empty value holding the delimiter. */
  predicate HasPipe(row: Row, f: string) {
    f in row && row[f].Some? && '|' in row[f].value
  }

  /** The pipe check of one row, in key order. */
  function PipeIssues(i: nat, row: Row, keys: seq<string>): seq<Issue>
    decreases |keys|
  {
    if keys == [] then []
    else
      var f := keys[|keys| - 1];
      PipeIssues(i, row, keys[..|keys| - 1]) + if HasPipe(row, f) then [PipeFound(i, f)] else []
  }

  function RowIssues(i: nat, row: Row, header: seq<string>, required: seq<string>): seq<Issue> {
    EmptyIssues(i, row, required) + PipeIssues(i, row, Dedup(header))
  }

  /** The issues of the first m rows, in order. */
  function AllRowIssues(header: seq<string>, required: seq<string>, rows: seq<Row>, m: nat): seq<Issue>
    requires m <= |rows|
  {
    if m == 0 then [] else AllRowIssues(header, required, rows, m - 1) + RowIssues(m, rows[m - 1], header, required)
  }

  /**
   * The row loop from row k on, with the errors so far: stop after the first
   * row at whose end there are at least MaxErrors errors, appending the
   * truncation notice. The second component is row_count.
   */
  function Scan(header: seq<string>, required: seq<string>, rows: seq<Row>, k: nat, errors: seq<Issue>): (seq<Issue>, nat)
    requires k <= |rows|
    decreases |rows| - k
  {
    if k == |rows| then (errors, k)
    else
      var e := errors + RowIssues(k + 1, rows[k], header, required);
      if |e| >= MaxErrors then (e + [Truncated], k + 1) else Scan(header, required, rows, k + 1, e)
  }

  datatype Report = Report(valid: bool, errors: seq<Issue>, warnings: seq<Warning>, rowCount: nat)

  /** What validate_csv_file computes: an absent file and one without a header line fail outright. */
  function Validate(file: CsvFile, required: seq<string>): Report {
    match file
    case Absent => Report(false, [], [], 0)
    case Headerless => Report(false, [], [], 0)
    case Parsed(header, rows) =>
      var r := Scan(header, required, rows, 0, HeaderIssues(header, required));
      Report(r.0 == [], r.0, HeaderWarnings(header, required), r.1)
  }

  /** validate_csv_file: the header check, then the row loop with its two field loops and the early stop. */
  method ValidateCsvFile(file: CsvFile, required: seq<string>)
    returns (valid: bool, errors: seq<Issue>, warnings: seq<Warning>, rowCount: nat)
    ensures Report(valid, errors, warnings, rowCount) == Validate(file, required)
  {
    if file.Absent? || file.Headerless? {
      return false, [], [], 0;
    }
    var header, rows := file.header, file.rows;
    errors, warnings, rowCount := [], [], 0;
    var missing := MissingOf(header, required);
    var extra := ExtraOf(header, required);
    if missing != {} {
      errors := errors + [MissingFields(missing)];
    }
    if extra != {} {
      warnings := warnings + [ExtraFields(extra)];
    }
    assert errors == HeaderIssues(header, required);
    var keys := DedupKeys(header);
    var k := 0;
    while k < |rows|
      invariant 0 <= k <= |rows| && rowCount == k
      invariant Scan(header, required, rows, k, errors) == Scan(header, required, rows, 0, HeaderIssues(header, required))
    {
      var i := k + 1;
      var row := rows[k];
      rowCount := i;
      var before := errors;
      errors := CheckRequired(i, row, required, errors);
      errors := CheckPipes(i, row, keys, errors);
      assert errors == before + RowIssues(i, row, header, required);
      if |errors| >= MaxErrors {
        errors := errors + [Truncated];
        break;
      }
      k := k + 1;
    }
    valid := errors == [];
  }

  /** The empty-field loop of one row. */
  method CheckRequired(i: nat, row: Row, required: seq<string>, errors: seq<Issue>) returns (errors': seq<Issue>)
    ensures errors' == errors + EmptyIssues(i, row, required)
  {
    errors' := errors;
    var j := 0;
    while j < |required|
      invariant 0 <= j <= |required|
      invariant errors' == errors + EmptyIssues(i, row, required[..j])
    {
      var field := required[j];
      if field !in row || row[field] == Some("") {
        if field !in EmptyAllowed {
          errors' := errors' + [EmptyField(i, field)];
        }
      }
      assert required[..j + 1][..j] == required[..j];
      j := j + 1;
    }
    assert required[..j] == required;
  }

  /** The pipe loop of one row, over its keys. */
  method CheckPipes(i: nat, row: Row, keys: seq<string>, errors: seq<Issue>) returns (errors': seq<Issue>)
    ensures errors' == errors + PipeIssues(i, row, keys)
  {
    errors' := errors;
    var j := 0;
    while j < |keys|
      invariant 0 <= j <= |keys|
      invariant errors' == errors + PipeIssues(i, row, keys[..j])
    {
      var field := keys[j];
      if field in row && row[field].Some? && row[field].value != "" && '|' in row[field].value {
        errors' := errors' + [PipeFound(i, field)];
      }
      assert keys[..j + 1][..j] == keys[..j];
      j := j + 1;
    }
    assert keys[..j] == keys;
  }

  /** The keys of a DictReader row: the header fields without repeats, in the order they first appear. */
  method DedupKeys(header: seq<string>) returns (keys: seq<string>)
    ensures keys == Dedup(header)
  {
    keys := [];
    var k := 0;
    while k < |header|
      invariant 0 <= k <= |header|
      invariant keys == Dedup(header[..k])
    {
      assert header[..k + 1][..k] == header[..k];
      if header[k] !in keys {
        keys := keys + [header[k]];
      }
      k := k + 1;
    }
    assert header[..k] == header;
  }

  // ---------------------------------------------------------------------------
  // Properties
  // ---------------------------------------------------------------------------

  /** The row keys are the header fields, each once. */
  lemma {:induction false} DedupFacts(header: seq<string>)
    ensures forall f :: f in Dedup(header) <==> f in header
    ensures forall a, b :: 0 <= a < b < |Dedup(header)| ==> Dedup(header)[a] != Dedup(header)[b]
    decreases |header|
  {
    if header != [] {
      var n := |header| - 1;
      DedupFacts(header[..n]);
      assert header == header[..n] + [header[n]];
    }
  }

  /** The empty-field check flags exactly the required fields, off the allowlist, that the row lacks or leaves empty. */
  lemma {:induction false} EmptyIssuesExact(i: nat, row: Row, fields: seq<string>)
    ensures forall e :: e in EmptyIssues(i, row, fields) ==> e.EmptyField? && e.row == i
    ensures forall f :: EmptyField(i, f) in EmptyIssues(i, row, fields) <==>
      f in fields && f !in EmptyAllowed && IsEmptyValue(row, f)
    decreases |fields|
  {
    if fields != [] {
      var n := |fields| - 1;
      EmptyIssuesExact(i, row, fields[..n]);
      assert fields == fields[..n] + [fields[n]];
    }
  }

  /** The pipe check flags exactly the keys whose value holds a '|'. */
  lemma {:induction false} PipeIssuesExact(i: nat, row: Row, keys: seq<string>)
    ensures forall e :: e in PipeIssues(i, row, keys) ==> e.PipeFound? && e.row == i
    ensures forall f :: PipeFound(i, f) in PipeIssues(i, row, keys) <==> f in keys && HasPipe(row, f)
    decreases |keys|
  {
    if keys != [] {
      var n := |keys| - 1;
      PipeIssuesExact(i, row, keys[..n]);
      assert keys == keys[..n] + [keys[n]];
    }
  }

  /**
   * The checks of row i name row i only: an empty required field off the
   * allowlist, or a header field whose value holds a '|'.
   */
  lemma RowIssuesExact(i: nat, row: Row, header: seq<string>, required: seq<string>)
    ensures forall e :: e in RowIssues(i, row, header, required) ==> (e.EmptyField? || e.PipeFound?) && e.row == i
    ensures forall f :: EmptyField(i, f) in RowIssues(i, row, header, required) <==>
      f in required && f !in EmptyAllowed && IsEmptyValue(row, f)
    ensures forall f :: PipeFound(i, f) in RowIssues(i, row, header, required) <==> f in header && HasPipe(row, f)
  {
    EmptyIssuesExact(i, row, required);
    PipeIssuesExact(i, row, Dedup(header));
    DedupFacts(header);
  }

  /** The issues of the first m rows are all row issues, never the truncation notice. */
  lemma {:induction false} AllRowIssuesNoNotice(header: seq<string>, required: seq<string>, rows: seq<Row>, m: nat)
    requires m <= |rows|
    ensures Truncated !in AllRowIssues(header, required, rows, m)
    ensures AllRowIssues(header, required, rows, m) == [] <==>
      forall k :: 0 <= k < m ==> RowIssues(k + 1, rows[k], header, required) == []
  {
    if m > 0 {
      AllRowIssuesNoNotice(header, required, rows, m - 1);
      RowIssuesExact(m, rows[m - 1], header, required);
    }
  }

  /** The row loop from row k on, when the first k rows did not reach the cut-off. */
  lemma {:induction false} ScanFrom(header: seq<string>, required: seq<string>, rows: seq<Row>, k: nat)
    requires k <= |rows|
    requires forall m :: 0 <= m <= k ==> |HeaderIssues(header, required) + AllRowIssues(header, required, rows, m)| < MaxErrors
    ensures var h := HeaderIssues(header, required);
      var r := Scan(header, required, rows, k, h + AllRowIssues(header, required, rows, k));
      && k <= r.1 <= |rows|
      && (forall m :: 0 <= m < r.1 ==> |h + AllRowIssues(header, required, rows, m)| < MaxErrors)
      && (if |h + AllRowIssues(header, required, rows, r.1)| >= MaxErrors
          then r.0 == h + AllRowIssues(header, required, rows, r.1) + [Truncated]
          else r.0 == h + AllRowIssues(header, required, rows, r.1) && r.1 == |rows|)
    decreases |rows| - k
  {
    var h := HeaderIssues(header, required);
    if k < |rows| {
      var e := h + AllRowIssues(header, required, rows, k) + RowIssues(k + 1, rows[k], header, required);
      assert e == h + AllRowIssues(header, required, rows, k + 1);
      if |e| < MaxErrors {
        ScanFrom(header, required, rows, k + 1);
      }
    }
  }

  /**
   * row_count rows are scanned: the loop stops after the first row at whose
   * end there are at least MaxErrors errors and then appends exactly one
   * truncation notice, and otherwise scans every row.
   */
  lemma ScanOutcome(header: seq<string>, required: seq<string>, rows: seq<Row>)
    ensures var h := HeaderIssues(header, required);
      var r := Scan(header, required, rows, 0, h);
      && r.1 <= |rows|
      && (forall m :: 0 <= m < r.1 ==> |h + AllRowIssues(header, required, rows, m)| < MaxErrors)
      && (if |h + AllRowIssues(header, required, rows, r.1)| >= MaxErrors
          then r.0 == h + AllRowIssues(header, required, rows, r.1) + [Truncated]
          else r.0 == h + AllRowIssues(header, required, rows, r.1) && r.1 == |rows|)
      && (Truncated in r.0 <==> r.0 != [] && r.0[|r.0| - 1] == Truncated)
  {
    var h := HeaderIssues(header, required);
    assert h + AllRowIssues(header, required, rows, 0) == h;
    ScanFrom(header, required, rows, 0);
    var r := Scan(header, required, rows, 0, h);
    AllRowIssuesNoNotice(header, required, rows, r.1);
  }

  /**
   * A file passes exactly when it exists, has a header with every required
   * field, and no row has an empty required field off the allowlist or a
   * value holding a '|'. Extra header fields do not matter.
   */
  lemma ValidIff(file: CsvFile, required: seq<string>)
    ensures Validate(file, required).valid <==>
      && file.Parsed?
      && (forall f :: f in required ==> f in file.header)
      && forall k :: 0 <= k < |file.rows| ==> RowIssues(k + 1, file.rows[k], file.header, required) == []
  {
    if file.Parsed? {
      var header, rows := file.header, file.rows;
      var h := HeaderIssues(header, required);
      ScanOutcome(header, required, rows);
      var r := Scan(header, required, rows, 0, h);
      AllRowIssuesNoNotice(header, required, rows, r.1);
      AllRowIssuesNoNotice(header, required, rows, |rows|);
      if forall f :: f in required ==> f in header {
        assert MissingOf(header, required) == {};
      } else {
        var f :| f in required && f !in header;
        assert f in MissingOf(header, required);
      }
    }
  }

  /** Extra header fields give one warning naming them and by themselves do not fail the file. */
  lemma ExtraFieldsOnlyWarn(header: seq<string>, rows: seq<Row>, required: seq<string>)
    requires forall f :: f in required ==> f in header
    requires forall k :: 0 <= k < |rows| ==> RowIssues(k + 1, rows[k], header, required) == []
    ensures var r := Validate(Parsed(header, rows), required);
      && r.valid
      && r.warnings == if ExtraOf(header, required) == {} then [] else [ExtraFields(ExtraOf(header, required))]
  {
    ValidIff(Parsed(header, rows), required);
  }

  /** A short row's missing required cells read as the filler None and are not reported as empty. */
  lemma ShortRowNotFlagged()
    ensures Validate(Parsed(["id", "name"], [map["id" := Some("1"), "name" := None]]), ["id", "name"]).valid
  {
    var header, required := ["id", "name"], ["id", "name"];
    var row: Row := map["id" := Some("1"), "name" := None];
    assert MissingOf(header, required) == {} by {
      forall f | f in required ensures f in header { }
    }
    assert Dedup(header) == header by {
      assert header[..1] == ["id"];
      assert Dedup(header[..1]) == ["id"] by {
        assert header[..1][..0] == [];
      }
    }
    assert required[..1] == ["id"];
    assert required[..1][..0] == [];
    assert EmptyIssues(1, row, required) == [];
    assert header[..1][..0] == [];
    assert PipeIssues(1, row, header) == [];
  }
}
