/**
 * `WebTools.save_to_csv_file` (web_tools.py): accepts a dict, a list of dicts,
 * JSON text or `- **Key**: value` bullet text, writes a header of the 13 lead
 * fields and one row per record, and fills an empty Search Query with the
 * query recovered from the output file name.
 */
module WebCsv {
  import opened Wrappers
  import opened Str
  import opened Payloads

  /** The header, in column order. */
  const Fieldnames: seq<string> := [
    "Search Query", "Company Name", "URL", "Primary Services", "AI Mentions",
    "Decision Makers", "Email", "Phone", "LinkedIn", "Instagram",
    "Physical Address", "AI Interest Score", "Qualification Notes"
  ]

  /** A written CSV file: its header and its rows, each row the cells in header order. */
  datatype CsvFile = CsvFile(header: seq<string>, rows: seq<seq<string>>)

  /** Why the writer raises its `ValueError`. */
  datatype SaveError =
    | NoParentDirectory             // os.makedirs("") for a path with no directory part
    | UnparsableText                // text that is neither JSON nor holds a bullet line
    | NotListOrMapping              // data that is no dict, str or list
    | RowsNotIterable               // JSON number, boolean or null: `for row in data` fails
    | RowNotMapping                 // `dict(row)` fails on an element
    | ExtraFields(keys: set<string>) // the csv writer refuses keys outside the header

  /** What `for row in data` walks over, or that it cannot walk. */
  datatype Rows = Rows(items: seq<Item>) | NotIterable

  /** The result of a call: the file as left on disk (None when it was never
      opened) and the error raised (None when the call returned True). */
  datatype Outcome = Outcome(file: Option<CsvFile>, error: Option<SaveError>)

  /** The rows written before the loop stopped, and the error that stopped it. */
  datatype Written = Written(rows: seq<seq<string>>, error: Option<SaveError>)

  /** `os.path.basename`: the text after the last `/`. */
  function Basename(path: string): string
  {
    var parts := Split(path, "/");
    parts[|parts| - 1]
  }

  /** `os.path.dirname(path)` is non-empty exactly when the path has a `/`. */
  predicate HasDirectory(path: string)
  {
    Contains(path, "/")
  }

  /** The words that are not empty, in order. */
  function NonEmptyWords(ws: seq<string>): (r: seq<string>)
    ensures forall i | 0 <= i < |r| :: r[i] != ""
  {
    if ws == [] then []
    else if ws[|ws| - 1] == "" then NonEmptyWords(ws[..|ws| - 1])
    else NonEmptyWords(ws[..|ws| - 1]) + [ws[|ws| - 1]]
  }

  /** The search query recovered from the output file name: the part of the base
      name before the first `_leads_`, its non-empty `_`-separated words joined
      by single spaces. */
  function DerivedQuery(outputFile: string): string
  {
    var stem := Split(Basename(outputFile), "_leads_")[0];
    Join(NonEmptyWords(Split(stem, "_")), " ")
  }

  /** What the loop over rows is given, or the error raised before the file is opened. */
  function Dispatch(data: Payload): Result<Rows, SaveError>
  {
    match data
    case PMapping(m) => Ok(Rows([Mapping(m)]))
    case PList(items) => Ok(Rows(items))
    case PText(text, json) => DispatchText(text, json)
    case POther(_) => Err(NotListOrMapping)
  }

  /** A text: what `json.loads` gives, or else the bullet record when there is one. */
  function DispatchText(text: string, json: Json): Result<Rows, SaveError>
  {
    match json
    case JObject(m) => Ok(Rows([Mapping(m)]))
    case JArray(items) => Ok(Rows(items))
    case JString(s) => Ok(Rows(seq(|s|, _ => NonMapping)))
    case JScalar => Ok(NotIterable)
    case DecodeError => FromBullets(MergeBullets(Kinds(Lines(text))))
  }

  /** The bullet record as the only row, or a ValueError when it is empty. */
  function FromBullets(record: Record): Result<Rows, SaveError>
  {
    if |record| == 0 then Err(UnparsableText) else Ok(Rows([Mapping(record)]))
  }

  /** The copy of a record with a missing or falsy Search Query set to `query`. */
  function FillQuery(m: Record, query: string): Record
  {
    if "Search Query" !in m || !Truthy(m["Search Query"]) then m["Search Query" := StrValue(query)] else m
  }

  /** The cells of a record in header order, `""` for a missing field. */
  function RowCells(m: Record): (cells: seq<string>)
    ensures |cells| == |Fieldnames|
  {
    seq(|Fieldnames|, i requires 0 <= i < |Fieldnames| => CellOf(m, Fieldnames[i]))
  }

  /** The keys of a record that are not in the header. */
  function ExtraKeys(m: Record): set<string>
  {
    set k | k in m && k !in Fieldnames
  }

  /** `csv.DictWriter.writerow` with the default `extrasaction="raise"`: the
      cells in header order, or a ValueError naming the keys outside the header. */
  function CsvRow(m: Record): Result<seq<string>, SaveError>
  {
    if ExtraKeys(m) == {} then Ok(RowCells(m)) else Err(ExtraFields(ExtraKeys(m)))
  }

  /** One row written, or the error raised while writing it. */
  function WriteRow(item: Item, query: string): Result<seq<string>, SaveError>
  {
    match item
    case NonMapping => Err(RowNotMapping)
    case Mapping(m) => CsvRow(FillQuery(m, query))
  }

  /** The rows written in order, up to the first row that raises. */
  function WriteAll(items: seq<Item>, query: string): Written
  {
    if items == [] then Written([], None)
    else
      match WriteRow(items[0], query)
      case Err(e) => Written([], Some(e))
      case Ok(row) =>
        var rest := WriteAll(items[1..], query);
        Written([row] + rest.rows, rest.error)
  }

  /** The whole call, from its arguments to the file left behind and the error raised. */
  function SaveSpec(data: Payload, outputFile: string): Outcome
  {
    if !HasDirectory(outputFile) then Outcome(None, Some(NoParentDirectory))
    else
      match Dispatch(data)
      case Err(e) => Outcome(None, Some(e))
      case Ok(NotIterable) => Outcome(Some(CsvFile(Fieldnames, [])), Some(RowsNotIterable))
      case Ok(Rows(items)) =>
        var w := WriteAll(items, DerivedQuery(outputFile));
        Outcome(Some(CsvFile(Fieldnames, w.rows)), w.error)
  }

  // ---------------------------------------------------------------------------
  // The writer

  /** The bullet-text fallback: every bullet line of the text into one record. */
  method ParseBullets(text: string) returns (record: Record)
    ensures record == MergeBullets(Kinds(Lines(text)))
  {
    var lines := Split(text, "\n");
    record := map[];
    for i := 0 to |lines|
      invariant record == MergeBullets(Kinds(lines[..i]))
    {
      var line := Strip(lines[i]);
      ReadLine(record, lines[i]);
      MergePrefixStep(lines, i);
      if IsBullet(line) {
        record := record[BulletKey(line) := StrValue(BulletValue(line))];
      }
    }
    assert lines[..|lines|] == lines;
  }

  /** The type dispatch that precedes opening the file. */
  method DispatchPayload(data: Payload) returns (r: Result<Rows, SaveError>)
    ensures r == Dispatch(data)
  {
    match data {
      case PMapping(m) =>
        r := Ok(Rows([Mapping(m)]));
      case PList(items) =>
        r := Ok(Rows(items));
      case PText(text, json) =>
        match json {
          case JObject(m) =>
            r := Ok(Rows([Mapping(m)]));
          case JArray(items) =>
            r := Ok(Rows(items));
          case JString(s) =>
            r := Ok(Rows(seq(|s|, _ => NonMapping)));
          case JScalar =>
            r := Ok(NotIterable);
          case DecodeError =>
            var record := ParseBullets(text);
            if |record| == 0 {
              r := Err(UnparsableText);
            } else {
              r := Ok(Rows([Mapping(record)]));
            }
        }
      case POther(_) =>
        r := Err(NotListOrMapping);
    }
  }

  /** The copy of a row that is written: its Search Query set when missing or falsy. */
  method FillSearchQuery(fields: Record, query: string) returns (rowData: Record)
    ensures rowData == FillQuery(fields, query)
  {
    rowData := fields;
    if "Search Query" !in rowData || !Truthy(rowData["Search Query"]) {
      rowData := rowData["Search Query" := StrValue(query)];
    }
  }

  /** The writing loop: a copy of each row, its Search Query filled, written in
      order until a row raises. */
  method WriteRows(items: seq<Item>, query: string) returns (written: seq<seq<string>>, error: Option<SaveError>)
    ensures Written(written, error) == WriteAll(items, query)
    ensures forall k | 0 <= k < |written| :: |written[k]| == |Fieldnames|
  {
    ghost var w := WriteAll(items, query);
    WriteAllPrefix(items, query);
    WriteAllWidth(items, query);
    written := [];
    for i := 0 to |items|
      invariant i <= |w.rows| && written == w.rows[..i]
    {
      WriteAllAt(items, query, i);
      if items[i].NonMapping? {
        return written, Some(RowNotMapping);
      }
      var rowData := FillSearchQuery(items[i].fields, query);
      assert WriteRow(items[i], query) == CsvRow(rowData);
      match CsvRow(rowData) {
        case Err(e) =>
          return written, Some(e);
        case Ok(row) =>
          assert w.rows[i] == row;
          assert w.rows[..i + 1] == w.rows[..i] + [w.rows[i]];
          written := written + [row];
      }
    }
    error := None;
  }

  method SaveToCsvFile(data: Payload, outputFile: string) returns (file: Option<CsvFile>, error: Option<SaveError>)
    ensures Outcome(file, error) == SaveSpec(data, outputFile)
    ensures file.Some? ==> file.value.header == Fieldnames
    ensures file.Some? ==> forall r | r in file.value.rows :: |r| == |Fieldnames|
  {
    if !HasDirectory(outputFile) {
      return None, Some(NoParentDirectory);
    }
    var query := DerivedQuery(outputFile);
    var rows := DispatchPayload(data);
    match rows {
      case Err(e) =>
        return None, Some(e);
      case Ok(NotIterable) =>
        return Some(CsvFile(Fieldnames, [])), Some(RowsNotIterable);
      case Ok(Rows(items)) =>
        var written;
        written, error := WriteRows(items, query);
        file := Some(CsvFile(Fieldnames, written));
    }
  }

  // ---------------------------------------------------------------------------
  // Lemmas

  /** The rows written from position `i` on, one step of the loop. */
  lemma WriteAllStep(items: seq<Item>, i: nat, query: string)
    requires i < |items|
    ensures WriteAll(items[i..], query) ==
      match WriteRow(items[i], query)
      case Err(e) => Written([], Some(e))
      case Ok(row) => Written([row] + WriteAll(items[i + 1..], query).rows, WriteAll(items[i + 1..], query).error)
  {
    assert items[i..][0] == items[i] && items[i..][1..] == items[i + 1..];
  }

  /** Every row written has one cell per header field. */
  lemma WriteAllWidth(items: seq<Item>, query: string)
    ensures forall k | 0 <= k < |WriteAll(items, query).rows| :: |WriteAll(items, query).rows[k]| == |Fieldnames|
  {
    var rows := WriteAll(items, query).rows;
    WriteAllPrefix(items, query);
    forall k | 0 <= k < |rows|
      ensures |rows[k]| == |Fieldnames|
    {
      assert WriteRow(items[k], query) == Ok(rows[k]);
    }
  }

  /** What the writing loop meets at row `i`, having written the first `i` rows. */
  lemma WriteAllAt(items: seq<Item>, query: string, i: nat)
    requires i < |items| && i <= |WriteAll(items, query).rows|
    ensures var w := WriteAll(items, query);
      && (WriteRow(items[i], query).Err? ==>
        i == |w.rows| && w.error == Some(WriteRow(items[i], query).error))
      && (WriteRow(items[i], query).Ok? ==>
        i < |w.rows| && w.rows[i] == WriteRow(items[i], query).value)
  {
    WriteAllPrefix(items, query);
  }

  /** The loop writes, in input order, one row for each item before the first
      failing one, and stops there: a failure leaves a valid prefix on disk. */
  lemma {:induction false} WriteAllPrefix(items: seq<Item>, query: string)
    ensures |WriteAll(items, query).rows| <= |items|
    ensures forall k | 0 <= k < |WriteAll(items, query).rows| ::
      WriteRow(items[k], query) == Ok(WriteAll(items, query).rows[k])
    ensures WriteAll(items, query).error.None? <==> |WriteAll(items, query).rows| == |items|
    ensures WriteAll(items, query).error.Some? ==>
      WriteRow(items[|WriteAll(items, query).rows|], query) == Err(WriteAll(items, query).error.value)
  {
    if items != [] && WriteRow(items[0], query).Ok? {
      WriteAllPrefix(items[1..], query);
      var rest := WriteAll(items[1..], query);
      forall k | 0 < k <= |rest.rows| ensures items[k] == items[1..][k - 1] { }
    }
  }

  /** A complete record whose Search Query is set is written unchanged. */
  lemma CompleteRowUnchanged(m: Record, query: string)
    requires forall k | k in m :: k in Fieldnames
    requires forall i | 0 <= i < |Fieldnames| :: Fieldnames[i] in m && m[Fieldnames[i]].StrValue?
    requires m[Fieldnames[0]].s != ""
    ensures WriteRow(Mapping(m), query) ==
      Ok(seq(|Fieldnames|, i requires 0 <= i < |Fieldnames| => m[Fieldnames[i]].s))
  {
    assert Fieldnames[0] == "Search Query";
    assert FillQuery(m, query) == m;
    assert forall k :: k !in ExtraKeys(m);
    assert ExtraKeys(m) == {};
    assert RowCells(m) == seq(|Fieldnames|, i requires 0 <= i < |Fieldnames| => m[Fieldnames[i]].s);
  }

  /** A list of complete records reaches the file unchanged, values and order. */
  lemma StructuredRoundTrip(items: seq<Item>, outputFile: string)
    requires HasDirectory(outputFile)
    requires forall j | 0 <= j < |items| ::
      && items[j].Mapping?
      && (forall k | k in items[j].fields :: k in Fieldnames)
      && (forall i | 0 <= i < |Fieldnames| ::
            Fieldnames[i] in items[j].fields && items[j].fields[Fieldnames[i]].StrValue?)
      && items[j].fields[Fieldnames[0]].s != ""
    ensures SaveSpec(PList(items), outputFile).error.None?
    ensures SaveSpec(PList(items), outputFile).file ==
      Some(CsvFile(Fieldnames, seq(|items|, j requires 0 <= j < |items| =>
        seq(|Fieldnames|, i requires 0 <= i < |Fieldnames| => items[j].fields[Fieldnames[i]].s))))
  {
    var query := DerivedQuery(outputFile);
    var expected := seq(|items|, j requires 0 <= j < |items| =>
      seq(|Fieldnames|, i requires 0 <= i < |Fieldnames| => items[j].fields[Fieldnames[i]].s));
    var w := WriteAll(items, query);
    WriteAllPrefix(items, query);
    forall j | 0 <= j < |items|
      ensures WriteRow(items[j], query) == Ok(expected[j])
    {
      CompleteRowUnchanged(items[j].fields, query);
    }
    assert w.rows == expected;
  }

  /** Every written row carries the query derived from the file name when its
      record had no (or a falsy) Search Query, and its own value otherwise. */
  lemma SearchQueryColumn(items: seq<Item>, outputFile: string, j: nat)
    requires HasDirectory(outputFile) && j < |items|
    requires SaveSpec(PList(items), outputFile).file.Some?
    requires j < |SaveSpec(PList(items), outputFile).file.value.rows|
    ensures items[j].Mapping?
    ensures |SaveSpec(PList(items), outputFile).file.value.rows[j]| == |Fieldnames|
    ensures SaveSpec(PList(items), outputFile).file.value.rows[j][0] ==
      var m := items[j].fields;
      if "Search Query" !in m || !Truthy(m["Search Query"]) then DerivedQuery(outputFile)
      else Cell(m["Search Query"])
  {
    WriteAllPrefix(items, DerivedQuery(outputFile));
  }

  /** A single record becomes exactly one row, or raises before writing any. */
  lemma OneRecordOneRow(m: Record, query: string)
    ensures WriteAll([Mapping(m)], query) ==
      if ExtraKeys(FillQuery(m, query)) == {} then Written([RowCells(FillQuery(m, query))], None)
      else Written([], Some(ExtraFields(ExtraKeys(FillQuery(m, query)))))
  {
    assert [Mapping(m)][1..] == [];
  }

  /** Text that is not JSON: one record of all its bullet lines, written as a
      dict would be, or a ValueError before the file is opened when there is none. */
  lemma BulletFallback(text: string, outputFile: string)
    requires HasDirectory(outputFile)
    ensures SaveSpec(PText(text, DecodeError), outputFile) ==
      if |MergeBullets(Kinds(Lines(text)))| == 0 then Outcome(None, Some(UnparsableText))
      else SaveSpec(PMapping(MergeBullets(Kinds(Lines(text)))), outputFile)
  {
    var record := MergeBullets(Kinds(Lines(text)));
    assert Dispatch(PText(text, DecodeError)) == FromBullets(record);
    if |record| != 0 {
      assert Dispatch(PText(text, DecodeError)) == Dispatch(PMapping(record));
      SameDispatch(PText(text, DecodeError), PMapping(record), outputFile);
    }
  }

  /** The file and the error depend on the payload only through its dispatch. */
  lemma SameDispatch(a: Payload, b: Payload, outputFile: string)
    requires Dispatch(a) == Dispatch(b)
    ensures SaveSpec(a, outputFile) == SaveSpec(b, outputFile)
  {
  }

  /** A dict, and the JSON text of a dict, both become exactly one row. */
  lemma MappingIsOneRow(m: Record, text: string, outputFile: string)
    requires HasDirectory(outputFile)
    ensures SaveSpec(PMapping(m), outputFile) == SaveSpec(PText(text, JObject(m)), outputFile)
    ensures SaveSpec(PMapping(m), outputFile).file.Some?
    ensures |SaveSpec(PMapping(m), outputFile).file.value.rows| <= 1
    ensures SaveSpec(PMapping(m), outputFile).error.None? <==> ExtraKeys(FillQuery(m, DerivedQuery(outputFile))) == {}
  {
    OneRecordOneRow(m, DerivedQuery(outputFile));
  }
}
