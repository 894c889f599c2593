/**
 * `CSVHandler`: the location and language tables, filled from CSV rows, and
 * the 1-based selection of an entry. File reading is left to the caller: a
 * row is the dictionary `csv.DictReader` yields, column name to cell text.
 */
module CsvTables {
  import opened Wrappers
  import opened OrderedDict

  type Row = map<string, string>

  datatype CsvError =
    | MissingColumn(column: string)   // KeyError on `row[column]`
    | NotAnInteger(text: string)      // ValueError from `int(...)`
    | InvalidOptionType               // ValueError from `get_options`
    | ChoiceOutOfRange                // IndexError from `list(...)[choice - 1]`

  const Location := "location"
  const Language := "language"

  predicate IsDigit(c: char) {
    '0' <= c <= '9'
  }

  predicate AllDigits(s: string) {
    forall i :: 0 <= i < |s| ==> IsDigit(s[i])
  }

  /** The text `int` accepts here: decimal digits, optionally after one sign. */
  predicate SignedDigits(s: string) {
    || (|s| > 0 && AllDigits(s))
    || (|s| > 1 && (s[0] == '-' || s[0] == '+') && AllDigits(s[1..]))
  }

  function DigitsValue(s: string): (n: nat)
    requires AllDigits(s)
  {
    if s == [] then 0 else assert IsDigit(s[|s| - 1]); 10 * DigitsValue(s[..|s| - 1]) + (s[|s| - 1] as int - '0' as int)
  }

  /** `int(s)` on a sign followed by decimal digits. */
  function ParseInt(s: string): (r: Option<int>)
    ensures r.Some? <==> SignedDigits(s)
    ensures r.Some? && r.value < 0 ==> s[0] == '-'
  {
    if |s| > 1 && (s[0] == '-' || s[0] == '+') && AllDigits(s[1..]) then
      var magnitude: int := DigitsValue(s[1..]);
      Some(if s[0] == '-' then -magnitude else magnitude)
    else if |s| > 0 && AllDigits(s) then
      Some(DigitsValue(s))
    else
      None
  }

  /** The decimal digits of `n`, without leading zeros. */
  function Digits(n: nat): (s: string)
    ensures |s| > 0 && AllDigits(s)
  {
    if n < 10 then [('0' as int + n) as char] else Digits(n / 10) + [('0' as int + n % 10) as char]
  }

  /** `str(n)`: a `-` for a negative number, then the digits of its magnitude. */
  function Show(n: int): (s: string)
    ensures SignedDigits(s)
  {
    if n < 0 then "-" + Digits(-n) else Digits(n)
  }

  lemma {:induction false} DigitsValueOfDigits(n: nat)
    ensures DigitsValue(Digits(n)) == n
  {
    if n >= 10 {
      DigitsValueOfDigits(n / 10);
      var s := Digits(n);
      assert s[..|s| - 1] == Digits(n / 10);
    }
  }

  lemma ParseUnsigned(d: string)
    requires |d| > 0 && AllDigits(d)
    ensures ParseInt(d) == Some(DigitsValue(d))
  {
    assert IsDigit(d[0]);
  }

  lemma ParseNegative(d: string)
    requires |d| > 0 && AllDigits(d)
    ensures ParseInt("-" + d) == Some(-(DigitsValue(d) as int))
  {
    var s := "-" + d;
    assert s[0] == '-' && s[1..] == d;
  }

  /** Parsing a printed integer gives that integer back: `int(str(n)) == n`. */
  lemma ParseShow(n: int)
    ensures ParseInt(Show(n)) == Some(n)
  {
    if n < 0 {
      DigitsValueOfDigits(-n);
      ParseNegative(Digits(-n));
    } else {
      DigitsValueOfDigits(n);
      ParseUnsigned(Digits(n));
    }
  }

  function ParseLocationCode(text: string): Result<int, CsvError> {
    match ParseInt(text)
    case Some(n) => Ok(n)
    case None => Err(NotAnInteger(text))
  }

  function KeepLanguageCode(text: string): Result<string, CsvError> {
    Ok(text)
  }

  /**
   * `data[row[nameColumn]] = parse(row[codeColumn])`: Python evaluates the
   * right-hand side first, so the code column is read and parsed before the
   * name column.
   */
  function RowEntry<C>(row: Row, nameColumn: string, codeColumn: string, parse: string -> Result<C, CsvError>)
    : Result<(string, C), CsvError>
  {
    if codeColumn !in row then Err(MissingColumn(codeColumn))
    else match parse(row[codeColumn])
      case Err(e) => Err(e)
      case Ok(code) =>
        if nameColumn !in row then Err(MissingColumn(nameColumn)) else Ok((row[nameColumn], code))
  }

  /** The entries of all rows in order, or the error of the first row that fails. */
  function Entries<C>(rows: seq<Row>, nameColumn: string, codeColumn: string, parse: string -> Result<C, CsvError>)
    : (r: Result<seq<(string, C)>, CsvError>)
    ensures r.Ok? ==> |r.value| == |rows|
    ensures r.Ok? ==> forall i :: 0 <= i < |rows| ==> RowEntry(rows[i], nameColumn, codeColumn, parse) == Ok(r.value[i])
    ensures r.Err? ==> exists i :: 0 <= i < |rows| && RowEntry(rows[i], nameColumn, codeColumn, parse) == Err(r.error)
  {
    if rows == [] then Ok([])
    else
      var init := rows[..|rows| - 1];
      match Entries(init, nameColumn, codeColumn, parse)
      case Err(e) => Err(e)
      case Ok(ps) =>
        match RowEntry(rows[|rows| - 1], nameColumn, codeColumn, parse)
        case Err(e) => Err(e)
        case Ok(p) => Ok(ps + [p])
  }

  /** The table a load produces: the dictionary built from the entries. */
  function Table<C>(rows: seq<Row>, nameColumn: string, codeColumn: string, parse: string -> Result<C, CsvError>)
    : Result<ODict<string, C>, CsvError>
  {
    match Entries(rows, nameColumn, codeColumn, parse)
    case Err(e) => Err(e)
    case Ok(ps) => Ok(FromPairs(ps))
  }

  lemma {:induction false} EntriesErrSticky<C>(rows: seq<Row>, n: nat, nameColumn: string, codeColumn: string,
                                               parse: string -> Result<C, CsvError>)
    requires n <= |rows|
    requires Entries(rows[..n], nameColumn, codeColumn, parse).Err?
    ensures Entries(rows, nameColumn, codeColumn, parse) == Entries(rows[..n], nameColumn, codeColumn, parse)
  {
    if n < |rows| {
      EntriesErrSticky(rows[..|rows| - 1], n, nameColumn, codeColumn, parse);
      assert rows[..|rows| - 1][..n] == rows[..n];
    } else {
      assert rows[..n] == rows;
    }
  }

  /** The loop that fills `data`, row by row; the first failing row aborts it. */
  method BuildTable<C>(rows: seq<Row>, nameColumn: string, codeColumn: string, parse: string -> Result<C, CsvError>)
    returns (r: Result<ODict<string, C>, CsvError>)
    ensures r == Table(rows, nameColumn, codeColumn, parse)
  {
    var data := Empty<string, C>();
    ghost var ps: seq<(string, C)> := [];
    var i := 0;
    while i < |rows|
      invariant 0 <= i <= |rows|
      invariant Entries(rows[..i], nameColumn, codeColumn, parse) == Ok(ps)
      invariant data == FromPairs(ps)
    {
      assert rows[..i + 1][..i] == rows[..i];
      var entry := RowEntry(rows[i], nameColumn, codeColumn, parse);
      if entry.Err? {
        EntriesErrSticky(rows, i + 1, nameColumn, codeColumn, parse);
        return Err(entry.error);
      }
      data := data.Put(entry.value.0, entry.value.1);
      ps := ps + [entry.value];
      i := i + 1;
    }
    assert rows[..i] == rows;
    r := Ok(data);
  }

  /** A table's code, whichever table it comes from. */
  datatype Code = LocationCode(n: int) | LanguageCode(s: string)

  datatype Options = LocationOptions(locations: ODict<string, int>) | LanguageOptions(languages: ODict<string, string>) {
    function Names(): seq<string> {
      match this
      case LocationOptions(t) => t.keys
      case LanguageOptions(t) => t.keys
    }
  }

  class CsvHandler {
    var locations: ODict<string, int>
    var languages: ODict<string, string>

    ghost predicate Valid()
      reads this
    {
      locations.Valid() && languages.Valid()
    }

    constructor ()
      ensures Valid() && locations == Empty() && languages == Empty()
    {
      locations := Empty();
      languages := Empty();
    }

    /**
     * `load_csv(path, csv_type)` over the rows of the file: replaces the
     * table `csv_type` names, wholesale, and leaves the other one alone. A
     * row that raises leaves both tables as they were, and so does an
     * unrecognised `csv_type`.
     */
    method LoadCsv(rows: seq<Row>, csvType: string) returns (outcome: Result<(), CsvError>)
      requires Valid()
      modifies this
      ensures Valid()
      ensures csvType == Location ==>
        match Table(rows, "location_name", "location_code", ParseLocationCode)
        case Ok(t) => outcome == Ok(()) && locations == t && languages == old(languages)
        case Err(e) => outcome == Err(e) && locations == old(locations) && languages == old(languages)
      ensures csvType == Language ==>
        match Table(rows, "language_name", "language_code", KeepLanguageCode)
        case Ok(t) => outcome == Ok(()) && languages == t && locations == old(locations)
        case Err(e) => outcome == Err(e) && locations == old(locations) && languages == old(languages)
      ensures csvType != Location && csvType != Language ==>
        outcome == Ok(()) && locations == old(locations) && languages == old(languages)
    {
      outcome := Ok(());
      if csvType == Location {
        var r := BuildTable(rows, "location_name", "location_code", ParseLocationCode);
        match r
        case Ok(t) => locations := t;
        case Err(e) => outcome := Err(e);
      } else if csvType == Language {
        var r := BuildTable(rows, "language_name", "language_code", KeepLanguageCode);
        match r
        case Ok(t) => languages := t;
        case Err(e) => outcome := Err(e);
      }
    }

    /** `get_options(option_type)` */
    function GetOptions(optionType: string): (r: Result<Options, CsvError>)
      reads this
      ensures r.Err? <==> optionType != Location && optionType != Language
      ensures optionType == Location ==> r == Ok(LocationOptions(locations))
      ensures optionType == Language ==> r == Ok(LanguageOptions(languages))
    {
      if optionType == Location then Ok(LocationOptions(locations))
      else if optionType == Language then Ok(LanguageOptions(languages))
      else Err(InvalidOptionType)
    }

    /**
     * The selection in `get_user_choice`, for an already parsed `choice`:
     * `list(options.keys())[choice - 1]` with Python's negative indexing.
     */
    function GetUserChoice(optionType: string, choice: int): (r: Result<(string, Code), CsvError>)
      reads this
      requires Valid()
      ensures optionType != Location && optionType != Language ==> r == Err(InvalidOptionType)
      ensures optionType == Location ==>
        var names := locations.keys;
        && (r.Ok? <==> 1 - |names| <= choice <= |names|)
        && (r.Ok? ==> r.value.0 in locations.entries && r.value.1 == LocationCode(locations.entries[r.value.0]))
        && (1 <= choice <= |names| ==> r.value.0 == names[choice - 1])
        && (1 - |names| <= choice <= 0 ==> r.value.0 == names[|names| + choice - 1])
      ensures optionType == Language ==>
        var names := languages.keys;
        && (r.Ok? <==> 1 - |names| <= choice <= |names|)
        && (r.Ok? ==> r.value.0 in languages.entries && r.value.1 == LanguageCode(languages.entries[r.value.0]))
        && (1 <= choice <= |names| ==> r.value.0 == names[choice - 1])
        && (1 - |names| <= choice <= 0 ==> r.value.0 == names[|names| + choice - 1])
      ensures r.Err? ==> r.error == InvalidOptionType || r.error == ChoiceOutOfRange
    {
      match GetOptions(optionType)
      case Err(e) => Err(e)
      case Ok(options) =>
        var names := options.Names();
        var index := choice - 1;
        if index < -|names| || |names| <= index then Err(ChoiceOutOfRange)
        else
          var name := names[if index < 0 then |names| + index else index];
          match options
          case LocationOptions(t) => Ok((name, LocationCode(t.entries[name])))
          case LanguageOptions(t) => Ok((name, LanguageCode(t.entries[name])))
    }
  }

  /** For duplicate names the last row wins: the loaded code is that of the last row with the name. */
  lemma LastRowWins<C>(rows: seq<Row>, nameColumn: string, codeColumn: string, parse: string -> Result<C, CsvError>,
                       i: int, name: string, code: C)
    requires 0 <= i < |rows|
    requires RowEntry(rows[i], nameColumn, codeColumn, parse) == Ok((name, code))
    requires forall j :: i < j < |rows| ==> nameColumn in rows[j] ==> rows[j][nameColumn] != name
    requires Table(rows, nameColumn, codeColumn, parse).Ok?
    ensures name in Table(rows, nameColumn, codeColumn, parse).value.entries
    ensures Table(rows, nameColumn, codeColumn, parse).value.entries[name] == code
  {
    var ps := Entries(rows, nameColumn, codeColumn, parse).value;
    FromPairsLastWins(ps);
    assert LastFor(ps, i) by {
      forall j | i < j < |ps| ensures ps[j].0 != ps[i].0 {
        assert RowEntry(rows[j], nameColumn, codeColumn, parse) == Ok(ps[j]);
      }
    }
  }

  /** Names are listed in the order of the rows in which they first appear. */
  lemma NamesInFirstRowOrder<C>(rows: seq<Row>, nameColumn: string, codeColumn: string,
                                parse: string -> Result<C, CsvError>)
    requires Table(rows, nameColumn, codeColumn, parse).Ok?
    ensures var ps := Entries(rows, nameColumn, codeColumn, parse).value;
      var names := Table(rows, nameColumn, codeColumn, parse).value.keys;
      forall a, b :: 0 <= a < b < |names| ==> FirstAt(ps, names[a]) < FirstAt(ps, names[b])
  {
    FromPairsFirstOrder(Entries(rows, nameColumn, codeColumn, parse).value);
  }
}
