/**
 * The CSV row rule shared by the two NAMASTE ingestion commands: each parsed
 * row is validated and normalised into a NAMASTE code or counted as skipped,
 * and an ingestion with no accepted row fails before anything is inserted.
 * A parsed row maps each CSV header to the cell's text; a column the file
 * lacks is a missing key.
 */
module IngestNamaste {
  import opened Wrappers
  import opened Strings
  import opened Terminology

  type Row = map<string, string>

  const DefaultSystem: string := "https://namaste.ayush.gov.in/codes"
  const NoCodesMessage: string := "No valid NAMASTE codes found in CSV file"

  /** A cell is truthy when the column exists and the text is not empty (before trimming). */
  predicate Present(row: Row, key: string) {
    key in row && row[key] != ""
  }

  /** The required-fields check of the `data` handler. */
  predicate Accepted(row: Row) {
    Present(row, "code") && Present(row, "name") && Present(row, "description")
  }

  /** The NAMASTE code an accepted row becomes. */
  function Normalise(row: Row): (c: NamasteCode)
    requires Accepted(row)
    ensures c.code == Trim(row["code"]) && c.name == Trim(row["name"]) && c.description == Trim(row["description"])
    ensures c.category.Some? <==> "category" in row
    ensures c.category.Some? ==> c.category.value == Trim(row["category"])
    ensures c.system == DefaultSystem <==> "system" !in row || Trim(row["system"]) in {"", DefaultSystem}
    ensures c.system != DefaultSystem ==> c.system == Trim(row["system"])
  {
    var system := if "system" in row then Trim(row["system"]) else "";
    NamasteCode(
      Trim(row["code"]), Trim(row["name"]), Trim(row["description"]),
      if "category" in row then Some(Trim(row["category"])) else None,
      if system != "" then system else DefaultSystem)
  }

  /** Every text field of a normalised code is trimmed and its system is never empty. */
  lemma NormalisedIsTrimmed(row: Row)
    requires Accepted(row)
    ensures var c := Normalise(row);
      && Trim(c.code) == c.code && Trim(c.name) == c.name && Trim(c.description) == c.description
      && Trim(c.system) == c.system && c.system != ""
      && (c.category.Some? ==> Trim(c.category.value) == c.category.value)
  {
    var c := Normalise(row);
    TrimIdempotent(row["code"]);
    TrimIdempotent(row["name"]);
    TrimIdempotent(row["description"]);
    if "category" in row {
      TrimIdempotent(row["category"]);
    }
    if "system" in row {
      TrimIdempotent(row["system"]);
    }
    DefaultSystemTrimmed();
  }

  lemma DefaultSystemTrimmed()
    ensures Trim(DefaultSystem) == DefaultSystem
  {
    var s := DefaultSystem;
    assert s[0] == 'h' && s[|s| - 1] == 's';
    TrimOfTrimmed(s);
  }

  /**
   * The required-fields test looks at the untrimmed cells: a row whose name is only spaces is accepted
   * and counted, and its normalised code, the one that goes into the CodeSystem, has an empty name.
   */
  lemma BlankNameAccepted()
    ensures var row := map["code" := "NAM001", "name" := "  ", "description" := "Indigestion"];
      Accepted(row) && Normalise(row).name == ""
  {
    TrimOfSpaces();
  }

  lemma TrimOfSpaces()
    ensures Trim("  ") == ""
  {
    var s := "  ";
    assert s[1..] == " " && s[1..][1..] == "";
    assert TrimStart(s) == "";
  }

  /** What the rows of a file accept, in file order. */
  function AcceptedCodes(rows: seq<Row>): seq<NamasteCode> {
    if rows == [] then []
    else
      var init, last := rows[..|rows| - 1], rows[|rows| - 1];
      AcceptedCodes(init) + (if Accepted(last) then [Normalise(last)] else [])
  }

  /** How many rows of a file are skipped. */
  function SkippedRows(rows: seq<Row>): nat {
    if rows == [] then 0
    else
      var init, last := rows[..|rows| - 1], rows[|rows| - 1];
      SkippedRows(init) + (if Accepted(last) then 0 else 1)
  }

  /** Each row is either accepted or skipped, never both. */
  lemma {:induction false} EveryRowCounted(rows: seq<Row>)
    ensures |AcceptedCodes(rows)| + SkippedRows(rows) == |rows|
  {
    if rows != [] {
      EveryRowCounted(rows[..|rows| - 1]);
    }
  }

  /** Nothing is accepted exactly when no row passes the required-fields check. */
  lemma {:induction false} NothingAccepted(rows: seq<Row>)
    ensures AcceptedCodes(rows) == [] <==> forall k :: 0 <= k < |rows| ==> !Accepted(rows[k])
  {
    if rows != [] {
      var init := rows[..|rows| - 1];
      NothingAccepted(init);
      assert forall k :: 0 <= k < |init| ==> rows[k] == init[k];
    }
  }

  /** The state of one ingestion run: the accepted codes and the two counters. */
  class Ingestion {
    var results: seq<NamasteCode>
    var processed: nat
    var skipped: nat

    constructor ()
      ensures results == [] && processed == 0 && skipped == 0
    {
      results, processed, skipped := [], 0, 0;
    }

    predicate Valid()
      reads this
    {
      processed == |results|
    }

    /** The `data` handler: one parsed row. */
    method OnData(row: Row)
      modifies this
      ensures Accepted(row) ==>
        results == old(results) + [Normalise(row)] && processed == old(processed) + 1 && skipped == old(skipped)
      ensures !Accepted(row) ==>
        results == old(results) && processed == old(processed) && skipped == old(skipped) + 1
      ensures old(Valid()) ==> Valid()
    {
      if !Accepted(row) {
        skipped := skipped + 1;
        return;
      }
      results := results + [Normalise(row)];
      processed := processed + 1;
    }

    /** The emptiness check of the `end` handler, made before any insert. */
    method OnEnd() returns (r: Result<seq<NamasteCode>, string>)
      ensures r.Failure? <==> results == []
      ensures r.Failure? ==> r.error == NoCodesMessage
      ensures r.Success? ==> r.value == results
    {
      if |results| == 0 {
        return Failure(NoCodesMessage);
      }
      return Success(results);
    }
  }

  /** Feeds every row of a file to a fresh ingestion and ends it. */
  method IngestRows(rows: seq<Row>) returns (r: Result<seq<NamasteCode>, string>, processed: nat, skipped: nat)
    ensures processed == |AcceptedCodes(rows)| && skipped == SkippedRows(rows) && processed + skipped == |rows|
    ensures r == if AcceptedCodes(rows) == [] then Failure(NoCodesMessage) else Success(AcceptedCodes(rows))
  {
    var run := new Ingestion();
    for i := 0 to |rows|
      invariant run.results == AcceptedCodes(rows[..i]) && run.Valid()
      invariant run.skipped == SkippedRows(rows[..i])
    {
      assert rows[..i + 1][..i] == rows[..i];
      run.OnData(rows[i]);
    }
    assert rows[..|rows|] == rows;
    EveryRowCounted(rows);
    r := run.OnEnd();
    processed, skipped := run.processed, run.skipped;
  }
}
