/**
 * Choosing which spreadsheet columns hold the phone number and the business
 * name: the engine's automatic discovery inside `clean_data`, and the
 * wizard's prediction that pre-selects the two drop-downs.
 */
module Columns {
  import opened Wrappers
  import opened Text

  /** Index of the first element satisfying `p`: Python's `next(...)` / `for ... break`. */
  function FirstWhere(xs: seq<string>, p: string -> bool): (r: Option<nat>)
    ensures r.Some? ==> r.value < |xs| && p(xs[r.value])
                        && forall j :: 0 <= j < r.value ==> !p(xs[j])
    ensures r.None? ==> forall j :: 0 <= j < |xs| ==> !p(xs[j])
  {
    if |xs| == 0 then None
    else if p(xs[0]) then Some(0)
    else match FirstWhere(xs[1..], p)
      case None => None
      case Some(k) => Some(k + 1)
  }

  /** Any index with the first-match property is the one `FirstWhere` returns. */
  lemma FirstWhereIs(xs: seq<string>, p: string -> bool, r: Option<nat>)
    requires r.Some? ==> r.value < |xs| && p(xs[r.value]) && forall j :: 0 <= j < r.value ==> !p(xs[j])
    requires r.None? ==> forall j :: 0 <= j < |xs| ==> !p(xs[j])
    ensures FirstWhere(xs, p) == r
  {
  }

  /** The element `FirstWhere` picks, if any. */
  function FirstElement(xs: seq<string>, p: string -> bool): (r: Option<string>)
    ensures r.Some? ==> r.value in xs && p(r.value)
    ensures r.None? ==> forall x :: x in xs ==> !p(x)
  {
    match FirstWhere(xs, p)
    case None => None
    case Some(i) => Some(xs[i])
  }

  /** The first element satisfying `p` is the one `FirstElement` picks. */
  lemma FirstElementAt(xs: seq<string>, p: string -> bool, i: nat)
    requires i < |xs| && p(xs[i]) && forall j :: 0 <= j < i ==> !p(xs[j])
    ensures FirstElement(xs, p) == Some(xs[i])
  {
    FirstWhereIs(xs, p, Some(i));
  }

  /** The lower-cased column name is one of `keys`. */
  predicate IsKeyword(keys: seq<string>, column: string) {
    Lower(column) in keys
  }

  /** Some key of `keys` occurs inside the lower-cased column name. */
  predicate HasKeyword(keys: seq<string>, column: string) {
    exists k :: k in keys && Contains(Lower(column), k)
  }

  predicate IsUnnamed(column: string) {
    Contains(Lower(column), "unnamed")
  }

  /** The columns that are not pandas' `Unnamed: n` placeholders, in order. */
  function NamedColumns(columns: seq<string>): (r: seq<string>)
    ensures forall c :: c in r <==> c in columns && !IsUnnamed(c)
  {
    if |columns| == 0 then []
    else (if IsUnnamed(columns[0]) then [] else [columns[0]]) + NamedColumns(columns[1..])
  }

  /**
   * Searching the named columns finds the first column of the header that
   * is not `unnamed` and passes the test.
   */
  lemma {:induction false} FirstNamedAt(columns: seq<string>, p: string -> bool, i: nat)
    requires i < |columns| && !IsUnnamed(columns[i]) && p(columns[i])
    requires forall j :: 0 <= j < i ==> IsUnnamed(columns[j]) || !p(columns[j])
    ensures FirstElement(NamedColumns(columns), p) == Some(columns[i])
    decreases i
  {
    var named := NamedColumns(columns);
    var rest := NamedColumns(columns[1..]);
    assert named == (if IsUnnamed(columns[0]) then [] else [columns[0]]) + rest;
    if i == 0 {
      assert named[0] == columns[0];
      FirstElementAt(named, p, 0);
    } else {
      assert forall j :: 0 <= j < i - 1 ==> columns[1..][j] == columns[j + 1];
      FirstNamedAt(columns[1..], p, i - 1);
      if IsUnnamed(columns[0]) {
        assert named == rest;
      } else {
        assert named == [columns[0]] + rest;
        var k := FirstWhere(rest, p).value;
        assert rest[k] == columns[i];
        FirstElementAt(named, p, k + 1);
      }
    }
  }

  /** A column matched exactly by one of `keys`, none of them empty, has a non-empty name. */
  lemma ExactColumnNonEmpty(keys: seq<string>, column: string)
    requires "" !in keys
    requires IsKeyword(keys, column)
    ensures column != ""
  {
    assert |Lower(column)| == |column|;
  }

  /** A column containing one of `keys`, none of them empty, has a non-empty name. */
  lemma KeywordColumnNonEmpty(keys: seq<string>, column: string)
    requires "" !in keys
    requires HasKeyword(keys, column)
    ensures column != ""
  {
    var k :| k in keys && Contains(Lower(column), k);
    assert k != "";
    assert |Lower(column)| == |column|;
  }

  /** `col.lower() in ['business name', 'name', 'business', 'company name']`, the exact-name test of both the engine and the wizard. */
  predicate ExactName(column: string) {
    IsKeyword(ExactNameColumns, column)
  }

  lemma ExactNameNonEmpty(column: string)
    requires ExactName(column)
    ensures column != ""
  {
    ExactColumnNonEmpty(ExactNameColumns, column);
  }

  // ---------------------------------------------------------------------------
  // Discovery inside clean_data (whatsapp_engine.py)
  // ---------------------------------------------------------------------------

  const EnginePhoneKeywords: seq<string> :=
    ["phone", "mobile", "contact", "tel", "number", "whatsapp", "cell", "digits", "ph"]
  const EngineNameKeywords: seq<string> :=
    ["business", "company", "name", "client", "customer", "lead", "title", "shop", "cafe", "restaurant", "store"]
  const ExactNameColumns: seq<string> := ["business name", "name", "business", "company name"]

  /** `key == col` for a phone keyword. */
  predicate EnginePhoneExact(column: string) {
    IsKeyword(EnginePhoneKeywords, column)
  }

  /** `key in col` for a phone keyword. */
  predicate EnginePhoneKeyword(column: string) {
    HasKeyword(EnginePhoneKeywords, column)
  }

  /** `key in col.lower()` for a name keyword. */
  predicate EngineNameKeyword(column: string) {
    HasKeyword(EngineNameKeywords, column)
  }

  /** `len(digits) >= 10` for the digits of a first-row cell. */
  predicate TenDigits(cell: string) {
    DigitCount(cell) >= 10
  }

  /** Phone column by its name: an exact keyword first, then a keyword inside the name. */
  function PhoneColumnByName(columns: seq<string>): Option<string> {
    match FirstElement(columns, EnginePhoneExact)
    case Some(c) => Some(c)
    case None => FirstElement(columns, EnginePhoneKeyword)
  }

  /** Name column by its name, ignoring `unnamed` columns: an exact name first, then a keyword. */
  function NameColumnByName(columns: seq<string>): Option<string> {
    var named := NamedColumns(columns);
    match FirstElement(named, ExactName)
    case Some(c) => Some(c)
    case None => FirstElement(named, EngineNameKeyword)
  }

  /**
   * The column over the first first-row cell holding at least ten digits.
   * `df[col]` is read by position: header names are distinct because
   * `read_csv` renames duplicates.
   */
  function PhoneColumnByDigits(columns: seq<string>, firstRow: seq<string>): (r: Option<string>)
    requires |firstRow| == |columns|
    ensures r.Some? ==> exists i :: 0 <= i < |columns| && r.value == columns[i] && TenDigits(firstRow[i])
                                    && forall j :: 0 <= j < i ==> !TenDigits(firstRow[j])
    ensures r.None? ==> forall i :: 0 <= i < |firstRow| ==> !TenDigits(firstRow[i])
  {
    match FirstWhere(firstRow, TenDigits)
    case None => None
    case Some(i) => Some(columns[i])
  }

  /** Position of a column in the header (the first one with that name). */
  function IndexIn(columns: seq<string>, c: string): (i: nat)
    requires c in columns
    ensures i < |columns| && columns[i] == c
    ensures forall j :: 0 <= j < i ==> columns[j] != c
  {
    if columns[0] == c then 0 else 1 + IndexIn(columns[1..], c)
  }

  /** Python's truthiness of a string: `""` counts as "not chosen". */
  function OrElse(chosen: string, fallback: Option<string>): string {
    if chosen != "" then chosen else fallback.GetOr("")
  }

  datatype ColumnChoice = ColumnChoice(phone: string, name: string)

  /**
   * The column pair `clean_data` settles on. A caller's non-empty choice wins;
   * otherwise the phone column is found by name, then by a ten-digit sample;
   * without one there is no result. The name column is found by name, then is
   * the first column other than the phone column, and as a last resort the
   * phone column itself.
   */
  function ResolveColumns(columns: seq<string>, firstRow: seq<string>, phoneCol: string, nameCol: string)
    : (r: Option<ColumnChoice>)
    requires |firstRow| == |columns|
    ensures r.Some? ==> r.value.phone != "" && r.value.name != ""
    ensures r.Some? && phoneCol != "" ==> r.value.phone == phoneCol
    ensures r.Some? && nameCol != "" ==> r.value.name == nameCol
    ensures r.Some? && phoneCol == "" ==> r.value.phone in columns
    ensures r.Some? && nameCol == "" ==> r.value.name in columns || r.value.name == r.value.phone
    ensures r.None? <==> phoneCol == "" && OrElse("", PhoneColumnByName(columns)) == ""
                         && OrElse("", PhoneColumnByDigits(columns, firstRow)) == ""
  {
    var phone0 := OrElse(phoneCol, PhoneColumnByName(columns));
    var name0 := OrElse(nameCol, NameColumnByName(columns));
    var phone := OrElse(phone0, PhoneColumnByDigits(columns, firstRow));
    if phone == "" then None
    else
      var name1 := OrElse(name0, FirstElement(columns, c => c != phone));
      var name := if name1 != "" then name1 else phone;
      Some(ColumnChoice(phone, name))
  }

  /**
   * An exact keyword beats a keyword inside another name, even when the
   * latter column comes first.
   */
  lemma ExactPhoneMatchWins(columns: seq<string>, firstRow: seq<string>, i: nat)
    requires |firstRow| == |columns| && i < |columns|
    requires EnginePhoneExact(columns[i])
    requires forall j :: 0 <= j < i ==> !EnginePhoneExact(columns[j])
    ensures ResolveColumns(columns, firstRow, "", "").Some?
    ensures ResolveColumns(columns, firstRow, "", "").value.phone == columns[i]
  {
    FirstElementAt(columns, EnginePhoneExact, i);
    ExactColumnNonEmpty(EnginePhoneKeywords, columns[i]);
  }

  /** Without an exact phone keyword, the first column containing one is the phone column. */
  lemma KeywordPhoneFirst(columns: seq<string>, firstRow: seq<string>, nameCol: string, i: nat)
    requires |firstRow| == |columns| && i < |columns|
    requires forall c :: c in columns ==> !EnginePhoneExact(c)
    requires EnginePhoneKeyword(columns[i]) && forall j :: 0 <= j < i ==> !EnginePhoneKeyword(columns[j])
    ensures ResolveColumns(columns, firstRow, "", nameCol).Some?
    ensures ResolveColumns(columns, firstRow, "", nameCol).value.phone == columns[i]
  {
    FirstElementAt(columns, EnginePhoneKeyword, i);
    KeywordColumnNonEmpty(EnginePhoneKeywords, columns[i]);
  }

  /**
   * With no phone keyword in any header, the phone column is the one over
   * the first first-row cell with ten digits; an empty header there leaves
   * no phone column.
   */
  lemma DigitPhoneFallback(columns: seq<string>, firstRow: seq<string>, nameCol: string, i: nat)
    requires |firstRow| == |columns| && i < |columns|
    requires forall c :: c in columns ==> !EnginePhoneExact(c) && !EnginePhoneKeyword(c)
    requires TenDigits(firstRow[i]) && forall j :: 0 <= j < i ==> !TenDigits(firstRow[j])
    ensures ResolveColumns(columns, firstRow, "", nameCol).Some? <==> columns[i] != ""
    ensures columns[i] != "" ==> ResolveColumns(columns, firstRow, "", nameCol).value.phone == columns[i]
  {
    FirstWhereIs(firstRow, TenDigits, Some(i));
  }

  /**
   * There is no phone column exactly when the caller named none, no header
   * holds a phone keyword, and the first first-row cell with ten digits, if
   * any, sits under an empty header.
   */
  lemma NoPhoneColumnIff(columns: seq<string>, firstRow: seq<string>, phoneCol: string, nameCol: string)
    requires |firstRow| == |columns|
    ensures ResolveColumns(columns, firstRow, phoneCol, nameCol).None? <==>
            && phoneCol == ""
            && (forall c :: c in columns ==> !EnginePhoneExact(c) && !EnginePhoneKeyword(c))
            && (forall i :: 0 <= i < |columns| && TenDigits(firstRow[i]) && (forall j :: 0 <= j < i ==> !TenDigits(firstRow[j]))
                  ==> columns[i] == "")
  {
    match FirstElement(columns, EnginePhoneExact)
    case Some(c) => ExactColumnNonEmpty(EnginePhoneKeywords, c);
    case None =>
      match FirstElement(columns, EnginePhoneKeyword)
      case Some(c) => KeywordColumnNonEmpty(EnginePhoneKeywords, c);
      case None =>
        match FirstWhere(firstRow, TenDigits)
        case Some(i) =>
          forall k | 0 <= k < |columns| && TenDigits(firstRow[k]) && (forall j :: 0 <= j < k ==> !TenDigits(firstRow[j]))
            ensures k == i
          {
          }
        case None =>
  }

  /** A name column found by an exact name is the first such column that is not `unnamed`. */
  lemma ExactNameFirst(columns: seq<string>, firstRow: seq<string>, phoneCol: string, i: nat)
    requires |firstRow| == |columns| && i < |columns|
    requires !IsUnnamed(columns[i]) && ExactName(columns[i])
    requires forall j :: 0 <= j < i ==> IsUnnamed(columns[j]) || !ExactName(columns[j])
    ensures var r := ResolveColumns(columns, firstRow, phoneCol, "");
            r.Some? ==> r.value.name == columns[i]
  {
    FirstNamedAt(columns, ExactName, i);
    ExactNameNonEmpty(columns[i]);
  }

  /** Without an exact name, the name column is the first column that is not `unnamed` and contains a name keyword. */
  lemma KeywordNameFirst(columns: seq<string>, firstRow: seq<string>, phoneCol: string, i: nat)
    requires |firstRow| == |columns| && i < |columns|
    requires forall c :: c in columns && !IsUnnamed(c) ==> !ExactName(c)
    requires !IsUnnamed(columns[i]) && EngineNameKeyword(columns[i])
    requires forall j :: 0 <= j < i ==> IsUnnamed(columns[j]) || !EngineNameKeyword(columns[j])
    ensures var r := ResolveColumns(columns, firstRow, phoneCol, "");
            r.Some? ==> r.value.name == columns[i]
  {
    FirstNamedAt(columns, EngineNameKeyword, i);
    KeywordColumnNonEmpty(EngineNameKeywords, columns[i]);
  }

  /**
   * Without a name found by name, the name column is the first column other
   * than the phone column, and the phone column itself when every column is
   * the phone column or that first other column has an empty header.
   */
  lemma DefaultNameColumn(columns: seq<string>, firstRow: seq<string>, phoneCol: string, i: nat)
    requires |firstRow| == |columns|
    requires forall c :: c in columns && !IsUnnamed(c) ==> !ExactName(c) && !EngineNameKeyword(c)
    ensures var r := ResolveColumns(columns, firstRow, phoneCol, "");
            r.Some? && i < |columns| && columns[i] != r.value.phone && (forall j :: 0 <= j < i ==> columns[j] == r.value.phone)
            ==> r.value.name == (if columns[i] == "" then r.value.phone else columns[i])
    ensures var r := ResolveColumns(columns, firstRow, phoneCol, "");
            r.Some? && (forall c :: c in columns ==> c == r.value.phone) ==> r.value.name == r.value.phone
  {
    var r := ResolveColumns(columns, firstRow, phoneCol, "");
    if r.Some? && i < |columns| && columns[i] != r.value.phone && (forall j :: 0 <= j < i ==> columns[j] == r.value.phone) {
      var phone := r.value.phone;
      FirstElementAt(columns, c => c != phone, i);
    }
  }

  /** A column named like a name keyword is never passed over for an `Unnamed: n` column. */
  lemma NameByNameIsNamed(columns: seq<string>)
    ensures NameColumnByName(columns).Some? ==> !IsUnnamed(NameColumnByName(columns).value)
    ensures NameColumnByName(columns).Some? ==> NameColumnByName(columns).value in columns
  {
  }

  // ---------------------------------------------------------------------------
  // Prediction in the upload step (app.py)
  // ---------------------------------------------------------------------------

  const AppPhoneKeywords: seq<string> := ["phone", "mobile", "number", "whatsapp", "contact"]
  const AppNameKeywords: seq<string> := ["business", "name", "company", "lead", "client"]

  /**
   * The pre-selected phone column: the first whose lower-cased name is a
   * keyword, else the first containing one, else the first column. With no
   * column at all the wizard fails on `df.columns[0]`, hence `None`.
   */
  function PredictPhone(columns: seq<string>): (r: Option<string>)
    ensures r.None? <==> |columns| == 0
    ensures r.Some? ==> r.value in columns
    ensures r.Some? && (exists c :: c in columns && AppPhoneExact(c))
            ==> AppPhoneExact(r.value)
    ensures r.Some? && (exists c :: c in columns && AppPhoneKeyword(c))
            ==> AppPhoneKeyword(r.value) || AppPhoneExact(r.value)
  {
    if |columns| == 0 then None
    else match FirstElement(columns, AppPhoneExact)
      case Some(c) => Some(c)
      case None => Some(FirstElement(columns, AppPhoneKeyword).GetOr(columns[0]))
  }

  /**
   * The pre-selected name column: among the columns that are not `unnamed`,
   * an exact name, else a keyword, else the first of them; when every column
   * is `unnamed`, the first column.
   */
  function PredictName(columns: seq<string>): (r: Option<string>)
    ensures r.None? <==> |columns| == 0
    ensures r.Some? ==> r.value in columns
    ensures r.Some? && (exists c :: c in columns && !IsUnnamed(c)) ==> !IsUnnamed(r.value)
    ensures r.Some? && (exists c :: c in columns && !IsUnnamed(c) && ExactName(c))
            ==> ExactName(r.value)
    ensures r.Some? && (exists c :: c in columns && !IsUnnamed(c) && AppNameKeyword(c))
            ==> ExactName(r.value) || AppNameKeyword(r.value)
  {
    var named := NamedColumns(columns);
    if |columns| == 0 then None
    else match FirstElement(named, ExactName)
      case Some(c) => Some(c)
      case None =>
        if |named| > 0 then Some(FirstElement(named, AppNameKeyword).GetOr(named[0]))
        else Some(columns[0])
  }

  /** `k == c.lower()` for a phone keyword of the wizard. */
  predicate AppPhoneExact(column: string) {
    IsKeyword(AppPhoneKeywords, column)
  }

  /** `k in c.lower()` for a phone keyword of the wizard. */
  predicate AppPhoneKeyword(column: string) {
    HasKeyword(AppPhoneKeywords, column)
  }

  /** `k in c.lower()` for a name keyword of the wizard. */
  predicate AppNameKeyword(column: string) {
    HasKeyword(AppNameKeywords, column)
  }

  /** The prediction takes the FIRST exact keyword column, in header order. */
  lemma PredictPhoneFirstExact(columns: seq<string>, i: nat)
    requires i < |columns| && AppPhoneExact(columns[i])
    requires forall j :: 0 <= j < i ==> !AppPhoneExact(columns[j])
    ensures PredictPhone(columns) == Some(columns[i])
  {
    FirstElementAt(columns, AppPhoneExact, i);
  }

  /** Without an exact keyword, the prediction takes the FIRST column containing a phone keyword. */
  lemma PredictPhoneFirstKeyword(columns: seq<string>, i: nat)
    requires i < |columns|
    requires forall c :: c in columns ==> !AppPhoneExact(c)
    requires AppPhoneKeyword(columns[i]) && forall j :: 0 <= j < i ==> !AppPhoneKeyword(columns[j])
    ensures PredictPhone(columns) == Some(columns[i])
  {
    FirstElementAt(columns, AppPhoneKeyword, i);
  }

  /** The name prediction takes the FIRST exact name among the columns that are not `unnamed`. */
  lemma PredictNameFirstExact(columns: seq<string>, i: nat)
    requires i < |columns| && !IsUnnamed(columns[i]) && ExactName(columns[i])
    requires forall j :: 0 <= j < i ==> IsUnnamed(columns[j]) || !ExactName(columns[j])
    ensures PredictName(columns) == Some(columns[i])
  {
    FirstNamedAt(columns, ExactName, i);
  }

  /** Without an exact name, the name prediction takes the FIRST named column containing a name keyword. */
  lemma PredictNameFirstKeyword(columns: seq<string>, i: nat)
    requires i < |columns|
    requires forall c :: c in columns && !IsUnnamed(c) ==> !ExactName(c)
    requires !IsUnnamed(columns[i]) && AppNameKeyword(columns[i])
    requires forall j :: 0 <= j < i ==> IsUnnamed(columns[j]) || !AppNameKeyword(columns[j])
    ensures PredictName(columns) == Some(columns[i])
  {
    FirstNamedAt(columns, AppNameKeyword, i);
  }

  /** With no phone keyword anywhere, the phone prediction is the first column. */
  lemma PhoneFallback(columns: seq<string>)
    requires |columns| > 0
    requires forall c :: c in columns ==> !AppPhoneExact(c) && !AppPhoneKeyword(c)
    ensures PredictPhone(columns) == Some(columns[0])
  {
  }

  /** When every column is `unnamed`, the name prediction is the first column. */
  lemma AllUnnamedFallback(columns: seq<string>)
    requires |columns| > 0
    requires forall c :: c in columns ==> IsUnnamed(c)
    ensures PredictName(columns) == Some(columns[0])
  {
  }

  /** With no name keyword among the named columns, the name prediction is the first named column. */
  lemma NamedFallback(columns: seq<string>)
    requires NamedColumns(columns) != []
    requires forall c :: c in NamedColumns(columns) ==> !ExactName(c) && !AppNameKeyword(c)
    ensures PredictName(columns) == Some(NamedColumns(columns)[0])
  {
    var named := NamedColumns(columns);
    assert FirstElement(named, ExactName).None? && FirstElement(named, AppNameKeyword).None? by {
      forall x | x in named
        ensures !ExactName(x) && !AppNameKeyword(x)
      {
      }
    }
  }
}
