/**
 * `save_task` (main.py): accepts a dict, a list of dicts, JSON text or bullet
 * text split into records at blank lines, resolves the five contact columns
 * from a legacy `"Contact Info"` string or the record's own fields, and writes
 * the 12 lead columns (no Search Query). It reports failure by returning False.
 */
module TaskCsv {
  import opened Wrappers
  import opened Str
  import opened Payloads
  import WebCsv

  /** The header, in column order. */
  const Fieldnames: seq<string> := [
    "Company Name", "URL", "Primary Services", "AI Mentions", "Decision Makers",
    "Email", "Phone", "LinkedIn", "Instagram", "Physical Address",
    "AI Interest Score", "Qualification Notes"
  ]

  /** The legacy contact string: segments separated by `" | "`, each opened by one of five tags. */
  const PartSep: string := " | "
  const EmailsTag: string := "Emails:"
  const PhonesTag: string := "Phones:"
  const LinkedInTag: string := "LinkedIn:"
  const InstagramTag: string := "Instagram:"
  const AddressTag: string := "Address:"

  /** The five values read from a legacy contact string. */
  datatype LegacyContact = LegacyContact(email: string, phone: string, linkedin: string, instagram: string, address: string)

  /** What the writing loop is given: the rows, an object it cannot walk, or
      the early `return False` for data of the wrong shape. */
  datatype Input = Items(items: seq<Item>) | NotIterable | Invalid

  /** The rows written up to the first failing one, and whether every row was written. */
  datatype TaskWritten = TaskWritten(rows: seq<seq<string>>, complete: bool)

  /** A written CSV file: where, its header and its rows. */
  datatype TaskFile = TaskFile(path: string, header: seq<string>, rows: seq<seq<string>>)

  /** The result of a call: the value returned and the file left on disk. */
  datatype TaskOutcome = TaskOutcome(ok: bool, file: Option<TaskFile>)

  // ---------------------------------------------------------------------------
  // Legacy "Contact Info"

  /** The index of the last segment that starts with `tag`, if any. */
  function LastTagged(parts: seq<string>, tag: string): (r: Option<nat>)
    ensures r.Some? ==> r.value < |parts| && StartsWith(parts[r.value], tag)
  {
    if parts == [] then None
    else if StartsWith(parts[|parts| - 1], tag) then Some(|parts| - 1)
    else LastTagged(parts[..|parts| - 1], tag)
  }

  /** A segment's value: the tag removed wherever it occurs, then trimmed. */
  function Remainder(part: string, tag: string): string
    requires tag != []
  {
    Strip(Replace(part, tag, ""))
  }

  /** The value a tag receives: that of the last segment starting with it, or `""`. */
  function TagValue(parts: seq<string>, tag: string): string
    requires tag != []
  {
    match LastTagged(parts, tag)
    case None => ""
    case Some(j) => Remainder(parts[j], tag)
  }

  /** The five values of a legacy contact string. */
  function ParsedContact(contact: string): LegacyContact
  {
    var parts := Split(contact, PartSep);
    LegacyContact(TagValue(parts, EmailsTag), TagValue(parts, PhonesTag), TagValue(parts, LinkedInTag),
                  TagValue(parts, InstagramTag), TagValue(parts, AddressTag))
  }

  /** The legacy string that carries five values, one segment per tag. */
  function FormatContact(c: LegacyContact): string
  {
    Join([EmailsTag + " " + c.email, PhonesTag + " " + c.phone, LinkedInTag + " " + c.linkedin,
          InstagramTag + " " + c.instagram, AddressTag + " " + c.address], PartSep)
  }

  /** Python's `a or b` on two cell texts. */
  function Or(a: string, b: string): string
  {
    if a != "" then a else b
  }

  /** The five contact values a record offers before the fallback: parsed from a
      string "Contact Info" (absent counts as `""`), else the record's own fields. */
  function ContactOf(m: Record): LegacyContact
  {
    var contact := if "Contact Info" in m then m["Contact Info"] else StrValue("");
    match contact
    case StrValue(s) => ParsedContact(s)
    case OtherValue(_, _) =>
      LegacyContact(CellOf(m, "Email"), CellOf(m, "Phone"), CellOf(m, "LinkedIn"),
                    CellOf(m, "Instagram"), CellOf(m, "Physical Address"))
  }

  /** The 12 cells written for a record; each contact column takes the value
      offered by `ContactOf` when non-empty, else the record's own field. */
  function TaskRow(m: Record): (cells: seq<string>)
    ensures |cells| == |Fieldnames|
  {
    var c := ContactOf(m);
    [CellOf(m, "Company Name"), CellOf(m, "URL"), CellOf(m, "Primary Services"),
     CellOf(m, "AI Mentions"), CellOf(m, "Decision Makers"),
     Or(c.email, CellOf(m, "Email")), Or(c.phone, CellOf(m, "Phone")), Or(c.linkedin, CellOf(m, "LinkedIn")),
     Or(c.instagram, CellOf(m, "Instagram")), Or(c.address, CellOf(m, "Physical Address")),
     CellOf(m, "AI Interest Score"), CellOf(m, "Qualification Notes")]
  }

  // ---------------------------------------------------------------------------
  // The call

  /** The shape check that precedes writing. */
  function TaskDispatch(data: Payload): Input
  {
    match data
    case PMapping(m) => Items([Mapping(m)])
    case PList(items) => Items(items)
    case PText(text, json) => TextInput(text, json)
    case POther(Some(items)) => Items(items)
    case POther(None) => NotIterable
  }

  function TextInput(text: string, json: Json): Input
  {
    match json
    case JObject(m) => Items([Mapping(m)])
    case JArray(items) => Items(items)
    case JString(_) => Invalid
    case JScalar => Invalid
    case DecodeError => FromRecords(BulletRecords(Kinds(Lines(text))))
  }

  /** The bullet records as rows, or `return False` when there is none. */
  function FromRecords(rs: seq<Record>): Input
  {
    if |rs| == 0 then Invalid else Items(seq(|rs|, i requires 0 <= i < |rs| => Mapping(rs[i])))
  }

  /** The path written: the one given, or a timestamped default when it is empty. */
  function OutputPath(outputFile: string, timestamp: string): string
  {
    if outputFile == "" then "lead_generation_output/leads_" + timestamp + ".csv" else outputFile
  }

  /** The rows written in order, up to the first item that is not a dict. */
  function WriteTaskRows(items: seq<Item>): TaskWritten
  {
    if items == [] then TaskWritten([], true)
    else
      match items[0]
      case NonMapping => TaskWritten([], false)
      case Mapping(m) =>
        var rest := WriteTaskRows(items[1..]);
        TaskWritten([TaskRow(m)] + rest.rows, rest.complete)
  }

  /** The whole call, from its arguments to the value returned and the file left behind. */
  function TaskSave(data: Payload, outputFile: string, timestamp: string): TaskOutcome
  {
    var path := OutputPath(outputFile, timestamp);
    match TaskDispatch(data)
    case Invalid => TaskOutcome(false, None)
    case NotIterable =>
      if WebCsv.HasDirectory(path) then TaskOutcome(false, Some(TaskFile(path, Fieldnames, [])))
      else TaskOutcome(false, None)
    case Items(items) =>
      if WebCsv.HasDirectory(path) then
        var w := WriteTaskRows(items);
        TaskOutcome(w.complete, Some(TaskFile(path, Fieldnames, w.rows)))
      else TaskOutcome(false, None)
  }

  // ---------------------------------------------------------------------------
  // The writer

  /** Bullet text into records: a blank line closes the record being built. */
  method ParseBulletRecords(text: string) returns (records: seq<Record>)
    ensures records == BulletRecords(Kinds(Lines(text)))
  {
    var lines := Split(text, "\n");
    records := [];
    var current: Record := map[];
    for i := 0 to |lines|
      invariant var gs := Groups(Kinds(lines[..i]));
        records == NonEmptyMerges(gs[..|gs| - 1]) && current == MergeBullets(gs[|gs| - 1])
    {
      KindsPrefixStep(lines, i);
      GroupStep(Kinds(lines[..i]), Classify(lines[i]));
      ClassifyShape(lines[i]);
      var line := Strip(lines[i]);
      if line == "" {
        if |current| != 0 {
          records := records + [current];
          current := map[];
        }
      } else {
        ReadLine(current, lines[i]);
        if IsBullet(line) {
          current := current[BulletKey(line) := StrValue(BulletValue(line))];
        }
      }
    }
    assert lines[..|lines|] == lines;
    CloseLastGroup(Kinds(lines));
    if |current| != 0 {
      records := records + [current];
    }
  }

  /** The legacy contact string read segment by segment; a later segment with
      the same tag overwrites an earlier one. */
  method ParseContactInfo(contact: string) returns (c: LegacyContact)
    ensures c == ParsedContact(contact)
  {
    var email, phone, linkedin, instagram, address := "", "", "", "", "";
    var parts := Split(contact, PartSep);
    for i := 0 to |parts|
      invariant email == TagValue(parts[..i], EmailsTag)
      invariant phone == TagValue(parts[..i], PhonesTag)
      invariant linkedin == TagValue(parts[..i], LinkedInTag)
      invariant instagram == TagValue(parts[..i], InstagramTag)
      invariant address == TagValue(parts[..i], AddressTag)
    {
      var part := parts[i];
      TagsExclusive(part);
      TagValueStep(parts, i, EmailsTag);
      TagValueStep(parts, i, PhonesTag);
      TagValueStep(parts, i, LinkedInTag);
      TagValueStep(parts, i, InstagramTag);
      TagValueStep(parts, i, AddressTag);
      if StartsWith(part, EmailsTag) {
        email := Remainder(part, EmailsTag);
      } else if StartsWith(part, PhonesTag) {
        phone := Remainder(part, PhonesTag);
      } else if StartsWith(part, LinkedInTag) {
        linkedin := Remainder(part, LinkedInTag);
      } else if StartsWith(part, InstagramTag) {
        instagram := Remainder(part, InstagramTag);
      } else if StartsWith(part, AddressTag) {
        address := Remainder(part, AddressTag);
      }
    }
    assert parts[..|parts|] == parts;
    c := LegacyContact(email, phone, linkedin, instagram, address);
  }

  /** The cells written for one record. */
  method BuildRow(m: Record) returns (cells: seq<string>)
    ensures cells == TaskRow(m)
  {
    var contact := if "Contact Info" in m then m["Contact Info"] else StrValue("");
    var c: LegacyContact;
    if contact.StrValue? {
      c := ParseContactInfo(contact.s);
    } else {
      c := LegacyContact(CellOf(m, "Email"), CellOf(m, "Phone"), CellOf(m, "LinkedIn"),
                         CellOf(m, "Instagram"), CellOf(m, "Physical Address"));
    }
    var email, phone, linkedin, instagram, address := c.email, c.phone, c.linkedin, c.instagram, c.address;
    cells := [
      CellOf(m, "Company Name"), CellOf(m, "URL"), CellOf(m, "Primary Services"),
      CellOf(m, "AI Mentions"), CellOf(m, "Decision Makers"),
      Or(email, CellOf(m, "Email")), Or(phone, CellOf(m, "Phone")), Or(linkedin, CellOf(m, "LinkedIn")),
      Or(instagram, CellOf(m, "Instagram")), Or(address, CellOf(m, "Physical Address")),
      CellOf(m, "AI Interest Score"), CellOf(m, "Qualification Notes")
    ];
  }

  /** Text that is not JSON: its bullet records, or `return False` when there is none. */
  method BulletInput(text: string) returns (input: Input)
    ensures input == FromRecords(BulletRecords(Kinds(Lines(text))))
  {
    var records := ParseBulletRecords(text);
    if |records| == 0 {
      input := Invalid;
    } else {
      input := Items(seq(|records|, i requires 0 <= i < |records| => Mapping(records[i])));
    }
  }

  method DispatchData(data: Payload) returns (input: Input)
    ensures input == TaskDispatch(data)
  {
    match data {
      case PMapping(m) =>
        input := Items([Mapping(m)]);
      case PList(items) =>
        input := Items(items);
      case PText(text, json) =>
        input := TextData(text, json);
      case POther(Some(items)) =>
        input := Items(items);
      case POther(None) =>
        input := NotIterable;
    }
  }

  /** A text: what `json.loads` gives when it is an object or an array, else
      `return False`; the bullet records when it is not JSON. */
  method TextData(text: string, json: Json) returns (input: Input)
    ensures input == TextInput(text, json)
  {
    match json {
      case JObject(m) =>
        input := Items([Mapping(m)]);
      case JArray(items) =>
        input := Items(items);
      case JString(_) =>
        input := Invalid;
      case JScalar =>
        input := Invalid;
      case DecodeError =>
        input := BulletInput(text);
    }
  }

  method SaveTask(data: Payload, outputFile: string, timestamp: string) returns (ok: bool, file: Option<TaskFile>)
    ensures TaskOutcome(ok, file) == TaskSave(data, outputFile, timestamp)
  {
    var input := DispatchData(data);
    if input.Invalid? {
      return false, None;
    }
    var path := outputFile;
    if path == "" {
      path := "lead_generation_output/leads_" + timestamp + ".csv";
    }
    if !WebCsv.HasDirectory(path) {
      return false, None;
    }
    if input.NotIterable? {
      return false, Some(TaskFile(path, Fieldnames, []));
    }
    var rows, complete := WriteRows(input.items);
    return complete, Some(TaskFile(path, Fieldnames, rows));
  }

  /** The writing loop: one row per record, in order, until an element is not a dict. */
  method WriteRows(items: seq<Item>) returns (rows: seq<seq<string>>, complete: bool)
    ensures TaskWritten(rows, complete) == WriteTaskRows(items)
  {
    rows := [];
    for i := 0 to |items|
      invariant WriteTaskRows(items) ==
        TaskWritten(rows + WriteTaskRows(items[i..]).rows, WriteTaskRows(items[i..]).complete)
    {
      WriteTaskRowsStep(items, i);
      if items[i].NonMapping? {
        assert rows + WriteTaskRows(items[i..]).rows == rows;
        return rows, false;
      }
      var cells := BuildRow(items[i].fields);
      ghost var rest := WriteTaskRows(items[i + 1..]);
      assert rows + [cells] + rest.rows == rows + ([cells] + rest.rows);
      rows := rows + [cells];
    }
    assert items[|items|..] == [];
    assert rows + WriteTaskRows(items[|items|..]).rows == rows;
    complete := true;
  }

  // ---------------------------------------------------------------------------
  // Lemmas

  /** The rows written from position `i` on, one step of the loop. */
  lemma WriteTaskRowsStep(items: seq<Item>, i: nat)
    requires i < |items|
    ensures WriteTaskRows(items[i..]) ==
      match items[i]
      case NonMapping => TaskWritten([], false)
      case Mapping(m) => TaskWritten([TaskRow(m)] + WriteTaskRows(items[i + 1..]).rows, WriteTaskRows(items[i + 1..]).complete)
  {
    assert items[i..][0] == items[i] && items[i..][1..] == items[i + 1..];
  }

  /** A segment starts with at most one of the five tags (their first letters differ). */
  lemma TagsExclusive(part: string)
    ensures StartsWith(part, EmailsTag) ==> part[0] == 'E'
    ensures StartsWith(part, PhonesTag) ==> part[0] == 'P'
    ensures StartsWith(part, LinkedInTag) ==> part[0] == 'L'
    ensures StartsWith(part, InstagramTag) ==> part[0] == 'I'
    ensures StartsWith(part, AddressTag) ==> part[0] == 'A'
  {
    if |part| > 0 {
      assert forall n | 1 <= n <= |part| :: part[..n][0] == part[0];
    }
  }

  /** The segment a tag is read from is the LAST one that starts with it, and
      there is none exactly when no segment starts with it. */
  lemma {:induction false} LastTaggedIsLast(parts: seq<string>, tag: string)
    ensures LastTagged(parts, tag).None? <==> forall j | 0 <= j < |parts| :: !StartsWith(parts[j], tag)
    ensures LastTagged(parts, tag).Some? ==>
      forall j | LastTagged(parts, tag).value < j < |parts| :: !StartsWith(parts[j], tag)
  {
    if parts != [] {
      var n := |parts| - 1;
      var init := parts[..n];
      LastTaggedIsLast(init, tag);
      assert forall j | 0 <= j < n :: init[j] == parts[j];
    }
  }

  /** One more segment read. */
  lemma TagValueStep(parts: seq<string>, i: nat, tag: string)
    requires tag != [] && i < |parts|
    ensures TagValue(parts[..i + 1], tag) ==
      if StartsWith(parts[i], tag) then Remainder(parts[i], tag) else TagValue(parts[..i], tag)
  {
    assert parts[..i + 1][..i] == parts[..i];
  }

  /** A value carried by the only segment that starts with its tag is read back. */
  lemma FieldRoundTrip(parts: seq<string>, j: nat, tag: string, v: string)
    requires tag != [] && tag[0] != ' '
    requires j < |parts| && parts[j] == tag + " " + v
    requires forall j' | 0 <= j' < |parts| && j' != j :: !StartsWith(parts[j'], tag)
    requires IsStripped(v) && !Contains(v, tag)
    ensures TagValue(parts, tag) == v
  {
    assert parts[j][..|tag|] == tag;
    LastTaggedIsLast(parts, tag);
    RemovePrefixAndStrip(tag, v);
  }

  /** The five segments of a formatted legacy string. */
  function ContactParts(c: LegacyContact): seq<string>
  {
    [EmailsTag + " " + c.email, PhonesTag + " " + c.phone, LinkedInTag + " " + c.linkedin,
     InstagramTag + " " + c.instagram, AddressTag + " " + c.address]
  }

  lemma FormatSplits(c: LegacyContact)
    requires '|' !in c.email && '|' !in c.phone && '|' !in c.linkedin && '|' !in c.instagram && '|' !in c.address
    ensures Split(FormatContact(c), PartSep) == ContactParts(c)
  {
    var parts := ContactParts(c);
    assert FormatContact(c) == Join(parts, PartSep);
    forall k | 0 <= k < |parts|
      ensures PartSep[1] !in parts[k]
    {
    }
    SplitJoinBySecondChar(parts, PartSep);
  }

  /** Segment `k` of a formatted string opens with the `k`-th letter of "EPLIA". */
  lemma PartInitials(c: LegacyContact)
    ensures forall k | 0 <= k < 5 :: ContactParts(c)[k][0] == "EPLIA"[k]
  {
  }

  /** Segment `j`'s tag opens no other segment, since the five segments start
      with five different letters. */
  lemma OthersUntagged(c: LegacyContact, j: nat, tag: string)
    requires j < 5 && |tag| > 0 && tag[0] == "EPLIA"[j]
    ensures forall j' | 0 <= j' < 5 && j' != j :: !StartsWith(ContactParts(c)[j'], tag)
  {
    PartInitials(c);
    forall j' | 0 <= j' < 5 && j' != j
      ensures !StartsWith(ContactParts(c)[j'], tag)
    {
      var part := ContactParts(c)[j'];
      assert part[0] != tag[0];
      if |tag| <= |part| {
        assert part[..|tag|][0] == part[0];
      }
    }
  }

  /** A legacy string carrying five stripped values, each free of `|` and of its
      own tag, is read back into exactly those values. */
  lemma ContactRoundTrip(c: LegacyContact)
    requires '|' !in c.email && '|' !in c.phone && '|' !in c.linkedin && '|' !in c.instagram && '|' !in c.address
    requires IsStripped(c.email) && IsStripped(c.phone) && IsStripped(c.linkedin)
    requires IsStripped(c.instagram) && IsStripped(c.address)
    requires !Contains(c.email, EmailsTag) && !Contains(c.phone, PhonesTag) && !Contains(c.linkedin, LinkedInTag)
    requires !Contains(c.instagram, InstagramTag) && !Contains(c.address, AddressTag)
    ensures ParsedContact(FormatContact(c)) == c
  {
    var parts := ContactParts(c);
    FormatSplits(c);
    OthersUntagged(c, 0, EmailsTag);
    OthersUntagged(c, 1, PhonesTag);
    OthersUntagged(c, 2, LinkedInTag);
    OthersUntagged(c, 3, InstagramTag);
    OthersUntagged(c, 4, AddressTag);
    FieldRoundTrip(parts, 0, EmailsTag, c.email);
    FieldRoundTrip(parts, 1, PhonesTag, c.phone);
    FieldRoundTrip(parts, 2, LinkedInTag, c.linkedin);
    FieldRoundTrip(parts, 3, InstagramTag, c.instagram);
    FieldRoundTrip(parts, 4, AddressTag, c.address);
  }

  /** Without a "Contact Info" key every column is the record's own field (or `""`):
      the empty default parses to five empty values. */
  lemma AbsentContactInfo(m: Record)
    requires "Contact Info" !in m
    ensures TaskRow(m) == seq(|Fieldnames|, i requires 0 <= i < |Fieldnames| => CellOf(m, Fieldnames[i]))
  {
    var parts := Split("", PartSep);
    assert parts == [""];
    assert parts[..0] == [];
    assert ParsedContact("") == LegacyContact("", "", "", "", "");
  }

  /** The default file name always has a directory part, so only an explicitly
      given bare file name makes the call fail at `os.makedirs`. */
  lemma DefaultPathHasDirectory(timestamp: string)
    ensures OutputPath("", timestamp) == "lead_generation_output/leads_" + timestamp + ".csv"
    ensures WebCsv.HasDirectory(OutputPath("", timestamp))
  {
    var p := OutputPath("", timestamp);
    assert p[22..][..1] == "/";
  }

  /** The loop writes `TaskRow` of each record in input order and stops at the
      first element that is not a dict. */
  lemma {:induction false} WriteTaskRowsPrefix(items: seq<Item>)
    ensures var w := WriteTaskRows(items);
      && |w.rows| <= |items|
      && (forall k | 0 <= k < |w.rows| :: items[k].Mapping? && w.rows[k] == TaskRow(items[k].fields))
      && (w.complete <==> |w.rows| == |items|)
      && (!w.complete ==> items[|w.rows|].NonMapping?)
  {
    if items != [] && items[0].Mapping? {
      WriteTaskRowsPrefix(items[1..]);
      var rest := WriteTaskRows(items[1..]);
      forall k | 0 < k <= |rest.rows| ensures items[k] == items[1..][k - 1] { }
    }
  }

  /** The writer finishes exactly when every element is a dict, and it then
      holds one row per element, in order. */
  lemma WriteTaskRowsAll(items: seq<Item>)
    ensures WriteTaskRows(items).complete <==> forall k | 0 <= k < |items| :: items[k].Mapping?
    ensures var w := WriteTaskRows(items);
      w.complete ==> |w.rows| == |items| && forall k | 0 <= k < |items| :: w.rows[k] == TaskRow(items[k].fields)
  {
    WriteTaskRowsPrefix(items);
  }

  /** `save_task` returns True exactly when the data has a usable shape, the path
      has a directory part and every row is a dict; the file then holds one
      row per record, in order. */
  lemma TaskSaveResult(data: Payload, outputFile: string, timestamp: string)
    ensures var r := TaskSave(data, outputFile, timestamp);
      var input := TaskDispatch(data);
      r.ok <==> (input.Items? && WebCsv.HasDirectory(OutputPath(outputFile, timestamp))
                 && forall j | 0 <= j < |input.items| :: input.items[j].Mapping?)
    ensures var r := TaskSave(data, outputFile, timestamp);
      var input := TaskDispatch(data);
      r.ok ==>
        && r.file.Some?
        && r.file.value.path == OutputPath(outputFile, timestamp)
        && r.file.value.header == Fieldnames
        && |r.file.value.rows| == |input.items|
        && forall k | 0 <= k < |input.items| ::
             input.items[k].Mapping? && r.file.value.rows[k] == TaskRow(input.items[k].fields)
  {
    var input := TaskDispatch(data);
    if input.Items? {
      WriteTaskRowsPrefix(input.items);
    }
  }

  /** JSON text that is neither an object nor an array makes the call return
      False without writing anything. */
  lemma NonContainerJsonRejected(text: string, json: Json, outputFile: string, timestamp: string)
    requires json.JString? || json.JScalar?
    ensures TaskSave(PText(text, json), outputFile, timestamp) == TaskOutcome(false, None)
  {
  }

  /** The two writers agree on a record in the current format: web_tools.py's
      row is the Search Query cell followed by exactly main.py's row. */
  lemma WritersAgree(m: Record, query: string)
    requires "Contact Info" !in m
    requires WebCsv.ExtraKeys(WebCsv.FillQuery(m, query)) == {}
    ensures WebCsv.CsvRow(WebCsv.FillQuery(m, query)).Ok?
    ensures WebCsv.CsvRow(WebCsv.FillQuery(m, query)).value[1..] == TaskRow(m)
  {
    AbsentContactInfo(m);
    var row := WebCsv.RowCells(WebCsv.FillQuery(m, query));
    assert WebCsv.CsvRow(WebCsv.FillQuery(m, query)) == Ok(row);
    RowTail(m, query);
  }

  /** web_tools.py's row past its Search Query cell, as the record's own fields. */
  lemma RowTail(m: Record, query: string)
    ensures WebCsv.RowCells(WebCsv.FillQuery(m, query))[1..]
         == seq(|Fieldnames|, i requires 0 <= i < |Fieldnames| => CellOf(m, Fieldnames[i]))
  {
    SharedCells(m, query);
  }

  /** Past the Search Query column, web_tools.py's cells are the record's own fields. */
  lemma SharedCells(m: Record, query: string)
    ensures forall i | 0 <= i < |Fieldnames| ::
      WebCsv.RowCells(WebCsv.FillQuery(m, query))[i + 1] == CellOf(m, Fieldnames[i])
  {
    assert WebCsv.Fieldnames[1..] == Fieldnames;
    assert "Search Query" !in Fieldnames;
    forall i | 0 <= i < |Fieldnames|
      ensures WebCsv.RowCells(WebCsv.FillQuery(m, query))[i + 1] == CellOf(m, Fieldnames[i])
    {
      assert WebCsv.Fieldnames[i + 1] == Fieldnames[i];
      FillQueryKeeps(m, query, Fieldnames[i]);
    }
  }

  lemma FillQueryKeeps(m: Record, query: string, k: string)
    requires k != "Search Query"
    ensures CellOf(WebCsv.FillQuery(m, query), k) == CellOf(m, k)
  {
  }
}
