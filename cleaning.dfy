/**
 * `WhatsAppBot.clean_data`: turns an uploaded lead table into the list of
 * recipients the campaign may message, plus a summary report.
 *
 * The table is a sequence of text records (every cell already the text
 * pandas' `astype(str)` gives, so a missing cell reads `"nan"`). The
 * `phonenumbers` library is an oracle: `PhoneLib` holds arbitrary functions
 * for `parse` (`None` for `NumberParseException`), `is_valid_number` and
 * `format_number(..., E164)`, and nothing is assumed about them.
 */
module Cleaning {
  import opened Wrappers
  import opened Text
  import Columns

  // ---------------------------------------------------------------------------
  // Data model
  // ---------------------------------------------------------------------------

  /** A spreadsheet: a header and rows of text cells. */
  datatype Table = Table(columns: seq<string>, rows: seq<seq<string>>)

  /** Every row has one cell per column, and column names are distinct (`read_csv` renames duplicates). */
  predicate WellFormed(t: Table) {
    && (forall row :: row in t.rows ==> |row| == |t.columns|)
    && (forall i, j :: 0 <= i < j < |t.columns| ==> t.columns[i] != t.columns[j])
  }

  /** pandas' `DataFrame.empty`: no rows or no columns. */
  predicate IsEmpty(t: Table) {
    |t.rows| == 0 || |t.columns| == 0
  }

  datatype PhoneNumber = PhoneNumber(countryCode: nat, nationalNumber: nat)

  datatype PhoneLib = PhoneLib(
    parse: string -> Option<PhoneNumber>,
    isValidNumber: PhoneNumber -> bool,
    formatE164: PhoneNumber -> string)

  datatype Status = Valid | InvalidFormat | InvalidParse

  function StatusLabel(s: Status): string {
    match s
    case Valid => "Valid"
    case InvalidFormat => "Invalid (Format)"
    case InvalidParse => "Invalid (Parse Error)"
  }

  /** One surviving input row: the stripped phone and name cells. */
  datatype Record = Record(phone: string, name: string)

  /** One row of the cleaned table (`Name`, `Phone`, `Status`). */
  datatype Lead = Lead(name: string, phone: string, status: Status)

  datatype Report = Report(
    totalRows: nat, validRows: nat, invalidRows: nat, removedRows: nat,
    phoneColumn: string, nameColumn: string)

  /**
   * What `clean_data` gives back: the valid leads with the report, an error
   * report (`{"error": ...}` with no table), or the `KeyError` pandas raises
   * when a chosen column is not in the table.
   */
  datatype CleanOutcome =
    | Cleaned(leads: seq<Lead>, report: Report)
    | Rejected(error: string)
    | MissingColumn(column: string)

  const EmptyInputError := "Empty dataframe provided"
  const NoPhoneColumnError := "❌ Could not identify the Phone Number column. Please rename it manually to 'Phone'."
  const NothingLeftError := "No valid data after cleaning"
  const DefaultName := "Business Owner"
  /** Fewer digits than this and a row is skipped without being parsed. */
  const MinDigits := 5

  // ---------------------------------------------------------------------------
  // Row filtering and de-duplication (vectorised pandas operations)
  // ---------------------------------------------------------------------------

  /** The phone and name cells of every row, stripped. */
  function Records(rows: seq<seq<string>>, phoneIndex: nat, nameIndex: nat): (r: seq<Record>)
    requires forall row :: row in rows ==> phoneIndex < |row| && nameIndex < |row|
    ensures |r| == |rows|
    ensures forall k :: 0 <= k < |rows| ==> r[k] == Record(Strip(rows[k][phoneIndex]), Strip(rows[k][nameIndex]))
  {
    seq(|rows|, k requires 0 <= k < |rows| => Record(Strip(rows[k][phoneIndex]), Strip(rows[k][nameIndex])))
  }

  predicate IsBlankPhone(phone: string) {
    phone == "" || phone == "nan"
  }

  /** Drop the rows whose phone is empty or `nan`. */
  function DropBlank(recs: seq<Record>): (r: seq<Record>)
    ensures |r| <= |recs|
    ensures forall x :: x in r ==> x in recs && !IsBlankPhone(x.phone)
    ensures forall x :: x in recs && !IsBlankPhone(x.phone) ==> x in r
  {
    if |recs| == 0 then []
    else (if IsBlankPhone(recs[0].phone) then [] else [recs[0]]) + DropBlank(recs[1..])
  }

  predicate HasPhone(recs: seq<Record>, phone: string) {
    exists i :: 0 <= i < |recs| && recs[i].phone == phone
  }

  /** Index of the first record carrying `phone`. */
  function FirstWithPhone(recs: seq<Record>, phone: string): (i: nat)
    requires HasPhone(recs, phone)
    ensures i < |recs| && recs[i].phone == phone
    ensures forall j :: 0 <= j < i ==> recs[j].phone != phone
  {
    if recs[0].phone == phone then 0
    else
      assert HasPhone(recs[1..], phone) by {
        var i :| 0 <= i < |recs| && recs[i].phone == phone;
        assert recs[1..][i - 1].phone == phone;
      }
      1 + FirstWithPhone(recs[1..], phone)
  }

  /** `drop_duplicates(subset=[phone])`: keep the first record of every phone string. */
  function DropDuplicates(recs: seq<Record>): seq<Record> {
    if |recs| == 0 then []
    else
      var init := recs[..|recs| - 1];
      var last := recs[|recs| - 1];
      if HasPhone(init, last.phone) then DropDuplicates(init) else DropDuplicates(init) + [last]
  }

  lemma {:induction false} DropDuplicatesSubset(recs: seq<Record>)
    ensures |DropDuplicates(recs)| <= |recs|
    ensures forall x :: x in DropDuplicates(recs) ==> x in recs
  {
    if |recs| > 0 {
      var init := recs[..|recs| - 1];
      DropDuplicatesSubset(init);
      assert forall x :: x in init ==> x in recs;
    }
  }

  /** No two kept records share a phone string. */
  lemma {:induction false} DropDuplicatesDistinct(recs: seq<Record>)
    ensures forall i, j :: 0 <= i < j < |DropDuplicates(recs)| ==>
              DropDuplicates(recs)[i].phone != DropDuplicates(recs)[j].phone
  {
    if |recs| > 0 {
      var init := recs[..|recs| - 1];
      var last := recs[|recs| - 1];
      DropDuplicatesDistinct(init);
      DropDuplicatesSubset(init);
      var d := DropDuplicates(init);
      if !HasPhone(init, last.phone) {
        forall i | 0 <= i < |d| ensures d[i].phone != last.phone {
          assert d[i] in init;
          var k :| 0 <= k < |init| && init[k] == d[i];
        }
      }
    }
  }

  /** Every phone string of the input survives in some kept record. */
  lemma {:induction false} DropDuplicatesComplete(recs: seq<Record>)
    ensures forall k :: 0 <= k < |recs| ==> HasPhone(DropDuplicates(recs), recs[k].phone)
  {
    if |recs| > 0 {
      var init := recs[..|recs| - 1];
      var last := recs[|recs| - 1];
      DropDuplicatesComplete(init);
      var d := DropDuplicates(init);
      var r := DropDuplicates(recs);
      assert d <= r;
      forall k | 0 <= k < |recs| ensures HasPhone(r, recs[k].phone) {
        if k < |recs| - 1 {
          assert recs[k] == init[k];
          assert HasPhone(d, init[k].phone);
          var j :| 0 <= j < |d| && d[j].phone == init[k].phone;
          assert r[j] == d[j];
        } else if HasPhone(init, last.phone) {
          var i :| 0 <= i < |init| && init[i].phone == last.phone;
          var j :| 0 <= j < |d| && d[j].phone == init[i].phone;
          assert r[j] == d[j];
        } else {
          assert r[|r| - 1] == last;
        }
      }
    }
  }

  /** First occurrence wins: each kept record is the earliest input record with its phone. */
  lemma {:induction false} DropDuplicatesKeepsFirst(recs: seq<Record>)
    ensures forall q :: 0 <= q < |DropDuplicates(recs)| ==>
              HasPhone(recs, DropDuplicates(recs)[q].phone)
              && DropDuplicates(recs)[q] == recs[FirstWithPhone(recs, DropDuplicates(recs)[q].phone)]
  {
    if |recs| > 0 {
      var init := recs[..|recs| - 1];
      var last := recs[|recs| - 1];
      DropDuplicatesKeepsFirst(init);
      var d := DropDuplicates(init);
      var r := DropDuplicates(recs);
      forall q | 0 <= q < |r|
        ensures HasPhone(recs, r[q].phone) && r[q] == recs[FirstWithPhone(recs, r[q].phone)]
      {
        if q < |d| {
          assert r[q] == d[q];
          var p := d[q].phone;
          var i := FirstWithPhone(init, p);
          assert recs[i] == init[i];
          assert HasPhone(recs, p);
          FirstWithPhoneOfPrefix(recs, init, p);
        } else {
          assert r[q] == last && !HasPhone(init, last.phone);
          assert HasPhone(recs, last.phone) by { assert recs[|recs| - 1].phone == last.phone; }
        }
      }
    }
  }

  /** The kept records appear in the order of their first occurrences. */
  lemma {:induction false} DropDuplicatesInOrder(recs: seq<Record>)
    ensures forall i, j :: 0 <= i < j < |DropDuplicates(recs)| ==>
              HasPhone(recs, DropDuplicates(recs)[i].phone) && HasPhone(recs, DropDuplicates(recs)[j].phone)
              && FirstWithPhone(recs, DropDuplicates(recs)[i].phone) < FirstWithPhone(recs, DropDuplicates(recs)[j].phone)
  {
    DropDuplicatesKeepsFirst(recs);
    if |recs| > 0 {
      var init := recs[..|recs| - 1];
      var last := recs[|recs| - 1];
      DropDuplicatesInOrder(init);
      DropDuplicatesKeepsFirst(init);
      var d := DropDuplicates(init);
      var r := DropDuplicates(recs);
      forall i, j | 0 <= i < j < |r|
        ensures FirstWithPhone(recs, r[i].phone) < FirstWithPhone(recs, r[j].phone)
      {
        assert r[i] == d[i];
        FirstWithPhoneOfPrefix(recs, init, d[i].phone);
        if j < |d| {
          assert r[j] == d[j];
          FirstWithPhoneOfPrefix(recs, init, d[j].phone);
        } else {
          assert r[j] == last && !HasPhone(init, last.phone);
        }
      }
    }
  }

  lemma FirstWithPhoneOfPrefix(recs: seq<Record>, init: seq<Record>, phone: string)
    requires init <= recs && HasPhone(init, phone)
    ensures HasPhone(recs, phone)
    ensures FirstWithPhone(recs, phone) == FirstWithPhone(init, phone)
  {
    var i := FirstWithPhone(init, phone);
    assert recs[i] == init[i];
  }

  /** The rows that reach the normalisation loop: blanks dropped, then duplicates. */
  function Prepare(recs: seq<Record>): seq<Record> {
    DropDuplicates(DropBlank(recs))
  }

  // ---------------------------------------------------------------------------
  // Per-row normalisation
  // ---------------------------------------------------------------------------

  /** `name[:-4]` when the name ends in `.csv` in any case. */
  function TrimCsv(name: string): (r: string)
    ensures EndsWith(Lower(name), ".csv") ==> |r| == |name| - 4 && name == r + name[|name| - 4..]
    ensures !EndsWith(Lower(name), ".csv") ==> r == name
  {
    if EndsWith(Lower(name), ".csv") then name[..|name| - 4] else name
  }

  /** The name a valid row gets: its own, unless empty or `nan`. */
  function ValidName(name: string): (r: string)
    ensures r != "" && Lower(r) != "nan"
    ensures r == name || r == DefaultName
  {
    if name != "" && Lower(name) != "nan" then name
    else
      assert Lower(DefaultName)[0] == 'b';
      DefaultName
  }

  /**
   * The default-country-code heuristic. A number already carrying `+` is
   * left alone; a number longer than ten characters not starting with `0`
   * is taken to carry its country code and only gains `+`; anything else
   * gets the default code prepended.
   */
  function WithCountryCode(clean: string, code: string): (r: string)
    ensures EndsWith(r, clean)
    ensures StartsWith(clean, "+") ==> r == clean
    ensures StartsWith(code, "+") ==> StartsWith(r, "+")
    ensures !StartsWith(clean, "+") && |clean| > 10 && !StartsWith(clean, "0") ==> r == "+" + clean
    ensures !StartsWith(clean, "+") && (|clean| <= 10 || StartsWith(clean, "0")) ==> r == code + clean
  {
    if StartsWith(clean, "+") then clean
    else if |clean| > 10 && !StartsWith(clean, "0") then
      assert ("+" + clean)[..1] == "+";
      "+" + clean
    else
      assert (code + clean)[|code + clean| - |clean|..] == clean;
      assert StartsWith(code, "+") ==> (code + clean)[..1] == code[..1];
      code + clean
  }

  /**
   * One row of the normalisation loop. `None` is the `continue` for a phone
   * with fewer than five digits; otherwise the parser decides the status.
   */
  function NormalizeRow(rec: Record, code: string, lib: PhoneLib): Option<Lead> {
    var name := TrimCsv(rec.name);
    var clean := KeepDigitsAndPlus(rec.phone);
    if |WithoutPlus(clean)| < MinDigits then None
    else
      var candidate := WithCountryCode(clean, code);
      match lib.parse(candidate)
      case None => Some(Lead(name, candidate, InvalidParse))
      case Some(n) =>
        if lib.isValidNumber(n) then Some(Lead(ValidName(name), lib.formatE164(n), Valid))
        else Some(Lead(name, candidate, InvalidFormat))
  }

  /** A row is skipped exactly when its phone has fewer than five digits. */
  lemma TooShortSkipped(rec: Record, code: string, lib: PhoneLib)
    ensures NormalizeRow(rec, code, lib).None? <==> DigitCount(rec.phone) < MinDigits
  {
    CleanedLengthIsDigitCount(rec.phone);
  }

  /**
   * What a produced lead holds: a valid lead carries the oracle's E.164 text
   * and a presentable name; an invalid one carries the number handed to the
   * parser and the (`.csv`-trimmed) name unchanged.
   */
  lemma NormalizedLead(rec: Record, code: string, lib: PhoneLib)
    requires NormalizeRow(rec, code, lib).Some?
    ensures var l := NormalizeRow(rec, code, lib).value;
            var candidate := WithCountryCode(KeepDigitsAndPlus(rec.phone), code);
            && (l.status == Valid <==> lib.parse(candidate).Some? && lib.isValidNumber(lib.parse(candidate).value))
            && (l.status == InvalidParse <==> lib.parse(candidate).None?)
            && (l.status == Valid ==>
                  && l.phone == lib.formatE164(lib.parse(candidate).value)
                  && l.name == ValidName(TrimCsv(rec.name))
                  && l.name != "" && Lower(l.name) != "nan")
            && (l.status != Valid ==> l.phone == candidate && l.name == TrimCsv(rec.name))
  {
  }

  /** The leads the loop produces for the records, in order. */
  function NormalizeAll(recs: seq<Record>, code: string, lib: PhoneLib): seq<Lead> {
    if |recs| == 0 then []
    else NormalizeAll(recs[..|recs| - 1], code, lib) + RowLeads(recs[|recs| - 1], code, lib)
  }

  function RowLeads(rec: Record, code: string, lib: PhoneLib): seq<Lead> {
    match NormalizeRow(rec, code, lib)
    case None => []
    case Some(l) => [l]
  }

  /** Number of records skipped as too short. */
  function ShortCount(recs: seq<Record>): nat {
    if |recs| == 0 then 0
    else ShortCount(recs[..|recs| - 1]) + (if DigitCount(recs[|recs| - 1].phone) < MinDigits then 1 else 0)
  }

  /** Every record yields one lead except the too-short ones, which yield none. */
  lemma {:induction false} NormalizeAllLength(recs: seq<Record>, code: string, lib: PhoneLib)
    ensures ShortCount(recs) <= |recs|
    ensures |NormalizeAll(recs, code, lib)| == |recs| - ShortCount(recs)
  {
    if |recs| > 0 {
      NormalizeAllLength(recs[..|recs| - 1], code, lib);
      TooShortSkipped(recs[|recs| - 1], code, lib);
    }
  }

  /** Every lead comes from one of the records. */
  lemma {:induction false} NormalizeAllFromRecords(recs: seq<Record>, code: string, lib: PhoneLib)
    ensures forall l :: l in NormalizeAll(recs, code, lib) ==>
              exists rec :: rec in recs && NormalizeRow(rec, code, lib) == Some(l)
  {
    if |recs| > 0 {
      var init := recs[..|recs| - 1];
      NormalizeAllFromRecords(init, code, lib);
      assert forall x :: x in init ==> x in recs;
      assert recs[|recs| - 1] in recs;
    }
  }

  /** `cleaned_df[cleaned_df['Status'] == 'Valid']`. */
  function ValidOnly(leads: seq<Lead>): seq<Lead> {
    if |leads| == 0 then []
    else ValidOnly(leads[..|leads| - 1]) + (if leads[|leads| - 1].status == Valid then [leads[|leads| - 1]] else [])
  }

  /** The valid filter keeps exactly the valid leads. */
  lemma {:induction false} ValidOnlyExact(leads: seq<Lead>)
    ensures |ValidOnly(leads)| <= |leads|
    ensures forall l :: l in ValidOnly(leads) <==> l in leads && l.status == Valid
  {
    if |leads| > 0 {
      var init := leads[..|leads| - 1];
      ValidOnlyExact(init);
      assert leads == init + [leads[|leads| - 1]];
    }
  }

  // ---------------------------------------------------------------------------
  // The whole of clean_data
  // ---------------------------------------------------------------------------

  /** The report for `total` surviving rows of which the loop produced `cleaned`. */
  function Summarize(total: nat, cleaned: seq<Lead>, choice: Columns.ColumnChoice): (r: Report)
    requires |cleaned| <= total
    ensures r.validRows + r.removedRows == r.totalRows
    ensures r.validRows + r.invalidRows == |cleaned|
    ensures r.invalidRows <= r.removedRows
  {
    ValidOnlyExact(cleaned);
    var valid := |ValidOnly(cleaned)|;
    Report(total, valid, |cleaned| - valid, total - valid, choice.phone, choice.name)
  }

  /** The surviving records for a resolved pair of columns. */
  function PreparedRecords(t: Table, choice: Columns.ColumnChoice): seq<Record>
    requires WellFormed(t) && choice.phone in t.columns && choice.name in t.columns
  {
    var pi := Columns.IndexIn(t.columns, choice.phone);
    var ni := Columns.IndexIn(t.columns, choice.name);
    Prepare(Records(t.rows, pi, ni))
  }

  /** `clean_data(dataframe, default_country_code, phone_col, name_col)` as a value. */
  function Clean(t: Table, code: string, phoneCol: string, nameCol: string, lib: PhoneLib): CleanOutcome
    requires WellFormed(t)
  {
    if IsEmpty(t) then Rejected(EmptyInputError)
    else match Columns.ResolveColumns(t.columns, t.rows[0], phoneCol, nameCol)
      case None => Rejected(NoPhoneColumnError)
      case Some(choice) =>
        if choice.phone !in t.columns then MissingColumn(choice.phone)
        else if choice.name !in t.columns then MissingColumn(choice.name)
        else
          var recs := PreparedRecords(t, choice);
          var cleaned := NormalizeAll(recs, code, lib);
          if |cleaned| == 0 then Rejected(NothingLeftError)
          else
            NormalizeAllLength(recs, code, lib);
            Cleaned(ValidOnly(cleaned), Summarize(|recs|, cleaned, choice))
  }

  function Zip(names: seq<string>, phones: seq<string>, statuses: seq<Status>): (r: seq<Lead>)
    requires |names| == |phones| == |statuses|
    ensures |r| == |names|
    ensures forall k :: 0 <= k < |r| ==> r[k] == Lead(names[k], phones[k], statuses[k])
  {
    seq(|names|, k requires 0 <= k < |names| => Lead(names[k], phones[k], statuses[k]))
  }

  lemma ZipAppend(names: seq<string>, phones: seq<string>, statuses: seq<Status>, lead: Lead)
    requires |names| == |phones| == |statuses|
    ensures Zip(names + [lead.name], phones + [lead.phone], statuses + [lead.status])
         == Zip(names, phones, statuses) + [lead]
  {
    var a := Zip(names + [lead.name], phones + [lead.phone], statuses + [lead.status]);
    var b := Zip(names, phones, statuses) + [lead];
    assert |a| == |b|;
    forall k | 0 <= k < |a| ensures a[k] == b[k] {
    }
  }

  /**
   * The row loop of `clean_data`: walks the records appending to the three
   * parallel lists `cleaned_phones`, `cleaned_names` and `statuses`.
   */
  method NormalizeRows(recs: seq<Record>, code: string, lib: PhoneLib)
    returns (phones: seq<string>, names: seq<string>, statuses: seq<Status>)
    ensures |phones| == |names| == |statuses|
    ensures Zip(names, phones, statuses) == NormalizeAll(recs, code, lib)
  {
    phones := [];
    names := [];
    statuses := [];
    for i := 0 to |recs|
      invariant |phones| == |names| == |statuses|
      invariant Zip(names, phones, statuses) == NormalizeAll(recs[..i], code, lib)
    {
      assert recs[..i + 1][..i] == recs[..i];
      assert NormalizeAll(recs[..i + 1], code, lib)
          == NormalizeAll(recs[..i], code, lib) + RowLeads(recs[i], code, lib);
      var phone := recs[i].phone;
      var name := TrimCsv(recs[i].name);
      var clean := KeepDigitsAndPlus(phone);
      if |WithoutPlus(clean)| < MinDigits {
        continue;
      }
      var candidate := WithCountryCode(clean, code);
      var parsed := lib.parse(candidate);
      var lead: Lead;
      if parsed.None? {
        lead := Lead(name, candidate, InvalidParse);
      } else if lib.isValidNumber(parsed.value) {
        lead := Lead(ValidName(name), lib.formatE164(parsed.value), Valid);
      } else {
        lead := Lead(name, candidate, InvalidFormat);
      }
      assert RowLeads(recs[i], code, lib) == [lead];
      ZipAppend(names, phones, statuses, lead);
      phones, names, statuses := phones + [lead.phone], names + [lead.name], statuses + [lead.status];
    }
    assert recs[..|recs|] == recs;
  }

  /**
   * The engine's procedure: filter, then walk the rows appending to three
   * parallel lists (`cleaned_phones`, `cleaned_names`, `statuses`), then keep
   * the valid rows and build the report.
   */
  method CleanData(t: Table, code: string, phoneCol: string, nameCol: string, lib: PhoneLib)
    returns (out: CleanOutcome)
    requires WellFormed(t)
    ensures out == Clean(t, code, phoneCol, nameCol, lib)
  {
    if IsEmpty(t) {
      return Rejected(EmptyInputError);
    }
    var found := Columns.ResolveColumns(t.columns, t.rows[0], phoneCol, nameCol);
    if found.None? {
      return Rejected(NoPhoneColumnError);
    }
    var choice := found.value;
    if choice.phone !in t.columns {
      return MissingColumn(choice.phone);
    }
    if choice.name !in t.columns {
      return MissingColumn(choice.name);
    }
    var recs := PreparedRecords(t, choice);
    var phones, names, statuses := NormalizeRows(recs, code, lib);
    var cleaned := Zip(names, phones, statuses);
    if |cleaned| == 0 {
      return Rejected(NothingLeftError);
    }
    NormalizeAllLength(recs, code, lib);
    out := Cleaned(ValidOnly(cleaned), Summarize(|recs|, cleaned, choice));
  }

  // ---------------------------------------------------------------------------
  // Properties of clean_data
  // ---------------------------------------------------------------------------

  lemma EmptyTableRejected(t: Table, code: string, phoneCol: string, nameCol: string, lib: PhoneLib)
    requires WellFormed(t) && IsEmpty(t)
    ensures Clean(t, code, phoneCol, nameCol, lib) == Rejected(EmptyInputError)
  {
  }

  /**
   * The report's counts: the total is the number of rows left after
   * filtering and de-duplication, valid + removed is the total, the invalid
   * rows are the produced rows that are not valid, the too-short rows are in
   * neither count, and the returned table holds exactly the valid leads.
   */
  lemma ReportCounts(t: Table, code: string, phoneCol: string, nameCol: string, lib: PhoneLib)
    requires WellFormed(t)
    requires Clean(t, code, phoneCol, nameCol, lib).Cleaned?
    ensures var out := Clean(t, code, phoneCol, nameCol, lib);
            var choice := Columns.ResolveColumns(t.columns, t.rows[0], phoneCol, nameCol).value;
            var recs := PreparedRecords(t, choice);
            && out.report.totalRows == |recs|
            && out.report.validRows == |out.leads|
            && out.report.validRows + out.report.removedRows == out.report.totalRows
            && out.report.validRows + out.report.invalidRows + ShortCount(recs) == out.report.totalRows
            && out.report.invalidRows <= out.report.removedRows
            && out.report.phoneColumn == choice.phone && out.report.nameColumn == choice.name
            && (forall l :: l in out.leads ==> l.status == Valid)
  {
    var choice := Columns.ResolveColumns(t.columns, t.rows[0], phoneCol, nameCol).value;
    CleanedShape(t, code, phoneCol, nameCol, lib);
    SummaryCounts(PreparedRecords(t, choice), code, lib, choice);
  }

  /** A cleaned result is the valid filter of the loop's leads with their summary. */
  lemma CleanedShape(t: Table, code: string, phoneCol: string, nameCol: string, lib: PhoneLib)
    requires WellFormed(t)
    requires Clean(t, code, phoneCol, nameCol, lib).Cleaned?
    ensures !IsEmpty(t) && Columns.ResolveColumns(t.columns, t.rows[0], phoneCol, nameCol).Some?
    ensures var choice := Columns.ResolveColumns(t.columns, t.rows[0], phoneCol, nameCol).value;
            && choice.phone in t.columns && choice.name in t.columns
            && var recs := PreparedRecords(t, choice);
            var cleaned := NormalizeAll(recs, code, lib);
            && |cleaned| <= |recs|
            && Clean(t, code, phoneCol, nameCol, lib) == Cleaned(ValidOnly(cleaned), Summarize(|recs|, cleaned, choice))
  {
    var choice := Columns.ResolveColumns(t.columns, t.rows[0], phoneCol, nameCol).value;
    NormalizeAllLength(PreparedRecords(t, choice), code, lib);
  }

  /** The counts of the summary of `recs`, and the validity of the filtered leads. */
  lemma SummaryCounts(recs: seq<Record>, code: string, lib: PhoneLib, choice: Columns.ColumnChoice)
    ensures var cleaned := NormalizeAll(recs, code, lib);
            && |cleaned| <= |recs|
            && var r := Summarize(|recs|, cleaned, choice);
            && r.totalRows == |recs|
            && r.validRows == |ValidOnly(cleaned)|
            && r.validRows + r.removedRows == r.totalRows
            && r.validRows + r.invalidRows + ShortCount(recs) == r.totalRows
            && r.invalidRows <= r.removedRows
            && r.phoneColumn == choice.phone && r.nameColumn == choice.name
            && (forall l :: l in ValidOnly(cleaned) ==> l.status == Valid)
  {
    NormalizeAllLength(recs, code, lib);
    ValidOnlyExact(NormalizeAll(recs, code, lib));
  }

  /** When every surviving row is too short, the result is the "No valid data" error. */
  lemma AllTooShortRejected(t: Table, code: string, phoneCol: string, nameCol: string, lib: PhoneLib)
    requires WellFormed(t) && !IsEmpty(t)
    requires Columns.ResolveColumns(t.columns, t.rows[0], phoneCol, nameCol).Some?
    requires var choice := Columns.ResolveColumns(t.columns, t.rows[0], phoneCol, nameCol).value;
             choice.phone in t.columns && choice.name in t.columns
             && var recs := PreparedRecords(t, choice);
             forall k :: 0 <= k < |recs| ==> DigitCount(recs[k].phone) < MinDigits
    ensures Clean(t, code, phoneCol, nameCol, lib) == Rejected(NothingLeftError)
  {
    var choice := Columns.ResolveColumns(t.columns, t.rows[0], phoneCol, nameCol).value;
    var recs := PreparedRecords(t, choice);
    AllShortCount(recs);
    NormalizeAllLength(recs, code, lib);
  }

  lemma {:induction false} AllShortCount(recs: seq<Record>)
    requires forall k :: 0 <= k < |recs| ==> DigitCount(recs[k].phone) < MinDigits
    ensures ShortCount(recs) == |recs|
  {
    if |recs| > 0 {
      AllShortCount(recs[..|recs| - 1]);
    }
  }

  /**
   * When rows survive but the oracle rejects every one, the result is an
   * empty table with a report and no error.
   */
  lemma AllInvalidGivesEmptyTable(t: Table, code: string, phoneCol: string, nameCol: string, lib: PhoneLib)
    requires WellFormed(t) && !IsEmpty(t)
    requires Columns.ResolveColumns(t.columns, t.rows[0], phoneCol, nameCol).Some?
    requires var choice := Columns.ResolveColumns(t.columns, t.rows[0], phoneCol, nameCol).value;
             choice.phone in t.columns && choice.name in t.columns
             && var recs := PreparedRecords(t, choice);
             && |recs| > 0 && DigitCount(recs[0].phone) >= MinDigits
             && forall n :: !lib.isValidNumber(n)
    ensures Clean(t, code, phoneCol, nameCol, lib).Cleaned?
    ensures Clean(t, code, phoneCol, nameCol, lib).leads == []
    ensures Clean(t, code, phoneCol, nameCol, lib).report.validRows == 0
  {
    var choice := Columns.ResolveColumns(t.columns, t.rows[0], phoneCol, nameCol).value;
    var recs := PreparedRecords(t, choice);
    var cleaned := NormalizeAll(recs, code, lib);
    NoValidLeads(recs, code, lib);
    FirstRecordYields(recs, code, lib);
    NormalizeAllLength(recs, code, lib);
    assert Clean(t, code, phoneCol, nameCol, lib) == Cleaned(ValidOnly(cleaned), Summarize(|recs|, cleaned, choice));
    assert ValidOnly(cleaned) == [] by {
      NoValidLeads(recs, code, lib);
      NothingValidKept(cleaned);
    }
  }

  lemma {:induction false} NothingValidKept(leads: seq<Lead>)
    requires forall l :: l in leads ==> l.status != Valid
    ensures ValidOnly(leads) == []
  {
    if |leads| > 0 {
      var init := leads[..|leads| - 1];
      assert forall l :: l in init ==> l in leads;
      NothingValidKept(init);
      assert leads[|leads| - 1] in leads;
    }
  }

  lemma {:induction false} NoValidLeads(recs: seq<Record>, code: string, lib: PhoneLib)
    requires forall n :: !lib.isValidNumber(n)
    ensures forall l :: l in NormalizeAll(recs, code, lib) ==> l.status != Valid
  {
    if |recs| > 0 {
      var init := recs[..|recs| - 1];
      NoValidLeads(init, code, lib);
      var rec := recs[|recs| - 1];
      var last := RowLeads(rec, code, lib);
      if NormalizeRow(rec, code, lib).Some? {
        NormalizedLead(rec, code, lib);
        var candidate := WithCountryCode(KeepDigitsAndPlus(rec.phone), code);
        if lib.parse(candidate).Some? {
          assert !lib.isValidNumber(lib.parse(candidate).value);
        }
        assert last == [NormalizeRow(rec, code, lib).value];
      }
      assert NormalizeAll(recs, code, lib) == NormalizeAll(init, code, lib) + last;
    }
  }

  lemma {:induction false} FirstRecordYields(recs: seq<Record>, code: string, lib: PhoneLib)
    requires |recs| > 0 && DigitCount(recs[0].phone) >= MinDigits
    ensures |NormalizeAll(recs, code, lib)| > 0
  {
    if |recs| == 1 {
      TooShortSkipped(recs[0], code, lib);
    } else {
      var init := recs[..|recs| - 1];
      assert init[0] == recs[0];
      FirstRecordYields(init, code, lib);
    }
  }

  /**
   * Two rows with the same phone string leave exactly one record with that
   * phone, and it is the first such row, never the later one of the two.
   */
  lemma DuplicatePhonesCollapse(recs: seq<Record>, i: nat, j: nat)
    requires i < j < |recs| && recs[i].phone == recs[j].phone
    ensures HasPhone(DropDuplicates(recs), recs[i].phone)
    ensures FirstWithPhone(recs, recs[i].phone) <= i
    ensures forall q :: 0 <= q < |DropDuplicates(recs)| && DropDuplicates(recs)[q].phone == recs[i].phone ==>
              DropDuplicates(recs)[q] == recs[FirstWithPhone(recs, recs[i].phone)]
    ensures forall q, q' :: 0 <= q < q' < |DropDuplicates(recs)| && DropDuplicates(recs)[q].phone == recs[i].phone ==>
              DropDuplicates(recs)[q'].phone != recs[i].phone
  {
    var p := recs[i].phone;
    assert HasPhone(recs, p) by {
      assert recs[i].phone == p;
    }
    DropDuplicatesComplete(recs);
    DropDuplicatesKeepsFirst(recs);
    DropDuplicatesDistinct(recs);
  }

  /**
   * A national number of at most ten digits, written in groups separated by
   * a space (`"98765 43210"`), reaches the parser as the default code
   * followed by its digits (`"+919876543210"` for `+91`).
   */
  lemma GroupedNationalNumberGetsDefaultCode(a: string, b: string, code: string)
    requires forall i :: 0 <= i < |a| ==> IsDigit(a[i])
    requires forall i :: 0 <= i < |b| ==> IsDigit(b[i])
    requires |a| + |b| <= 10
    ensures WithCountryCode(KeepDigitsAndPlus(a + " " + b), code) == code + a + b
  {
    var digits := a + b;
    assert KeepDigitsAndPlus(a + " " + b) == digits by {
      KeepSeparatedDigits(a, b);
    }
    assert WithCountryCode(digits, code) == code + digits by {
      assert forall i :: 0 <= i < |digits| ==> IsDigit(digits[i]);
      ShortNationalNumberGetsDefaultCode(digits, code);
    }
    assert code + digits == code + a + b;
  }

  /** Ten digits or fewer, with no `+`, always get the default code. */
  lemma ShortNationalNumberGetsDefaultCode(digits: string, code: string)
    requires forall i :: 0 <= i < |digits| ==> IsDigit(digits[i])
    requires |digits| <= 10
    ensures WithCountryCode(digits, code) == code + digits
  {
    if |digits| > 0 {
      assert IsDigit(digits[0]);
      assert digits[..1] != "+";
    }
  }

  /** Cleaning digit groups separated by a space joins the groups. */
  lemma KeepSeparatedDigits(a: string, b: string)
    requires forall i :: 0 <= i < |a| ==> IsDigit(a[i])
    requires forall i :: 0 <= i < |b| ==> IsDigit(b[i])
    ensures KeepDigitsAndPlus(a + " " + b) == a + b
  {
    KeepAllDigits(a);
    KeepAllDigits(b);
    assert KeepDigitsAndPlus(" ") == [] by {
      assert !IsDigit(' ');
    }
    KeepConcat(a, " ");
    assert KeepDigitsAndPlus(a + " ") == a;
    KeepConcat(a + " ", b);
    assert KeepDigitsAndPlus(a + " " + b) == KeepDigitsAndPlus(a + " ") + KeepDigitsAndPlus(b);
  }

  lemma {:induction false} KeepConcat(a: string, b: string)
    ensures KeepDigitsAndPlus(a + b) == KeepDigitsAndPlus(a) + KeepDigitsAndPlus(b)
  {
    if |a| > 0 {
      assert (a + b)[1..] == a[1..] + b;
      KeepConcat(a[1..], b);
    } else {
      assert a + b == b;
    }
  }

  lemma {:induction false} KeepAllDigits(s: string)
    requires forall i :: 0 <= i < |s| ==> IsDigit(s[i])
    ensures KeepDigitsAndPlus(s) == s
  {
    if |s| > 0 {
      KeepAllDigits(s[1..]);
    }
  }
}
