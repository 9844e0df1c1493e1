/**
 * The CSV file name `run_lead_generation` (app.py) builds from the search
 * query, and how `WebTools.save_to_csv_file` (web_tools.py) reads the query
 * back out of it.
 */
module AppFilenames {
  import opened Str
  import WebCsv

  /** The characters a safe query keeps. */
  predicate Allowed(c: char)
  {
    IsAlnum(c) || c == ' ' || c == '-' || c == '_'
  }

  /** The allowed characters of `s`, in order. */
  function Filter(s: string): (r: string)
    ensures |r| <= |s|
    ensures forall i | 0 <= i < |r| :: Allowed(r[i])
  {
    if s == [] then [] else (if Allowed(s[0]) then [s[0]] else []) + Filter(s[1..])
  }

  /** The file-name form of a query: allowed characters only, trailing spaces
      trimmed, spaces made underscores, at most 50 characters. */
  function SafeQuery(query: string): string
  {
    Take(Replace(RStrip(Filter(query)), " ", "_"), 50)
  }

  /** The separator between the query and the timestamp in a file name. */
  const LeadsMarker: string := "_leads_"

  function CsvFilename(safeQuery: string, timestamp: string): string
  {
    safeQuery + LeadsMarker + timestamp + ".csv"
  }

  /** `os.path.join('static', 'downloads', name)` */
  function OutputFile(name: string): string
  {
    "static/downloads/" + name
  }

  /** A query word the round trip keeps: non-empty ASCII letters and digits. */
  predicate IsWord(w: string)
  {
    w != [] && forall i | 0 <= i < |w| :: IsAlnum(w[i])
  }

  // ---------------------------------------------------------------------------
  // Lemmas

  /** Filtering distributes over concatenation, so the kept characters stay in order. */
  lemma {:induction false} FilterConcat(a: string, b: string)
    ensures Filter(a + b) == Filter(a) + Filter(b)
    decreases |a|
  {
    if a != [] {
      FilterConcat(a[1..], b);
      assert (a + b)[0] == a[0];
      assert (a + b)[1..] == a[1..] + b;
      var h := if Allowed(a[0]) then [a[0]] else [];
      calc {
        Filter(a + b);
        h + Filter(a[1..] + b);
        h + (Filter(a[1..]) + Filter(b));
        (h + Filter(a[1..])) + Filter(b);
      }
    } else {
      assert a + b == b;
    }
  }

  /** A character survives filtering exactly when it occurs and is allowed. */
  lemma {:induction false} FilterMembers(s: string, c: char)
    ensures c in Filter(s) <==> c in s && Allowed(c)
    decreases |s|
  {
    if s != [] {
      FilterMembers(s[1..], c);
      assert s == [s[0]] + s[1..];
    }
  }

  /** A string of allowed characters is its own filtering. */
  lemma {:induction false} FilterAllowed(s: string)
    requires forall i | 0 <= i < |s| :: Allowed(s[i])
    ensures Filter(s) == s
    decreases |s|
  {
    if s != [] {
      FilterAllowed(s[1..]);
      assert s == [s[0]] + s[1..];
    }
  }

  /** What a safe query is: file-name characters only (letters, digits, `-` and
      `_`, no space), at most 50 of them, each the filtered and right-trimmed
      query's character at the same place with a space turned into `_`. */
  lemma SafeQueryShape(query: string)
    ensures |SafeQuery(query)| <= 50
    ensures forall i | 0 <= i < |SafeQuery(query)| ::
      IsAlnum(SafeQuery(query)[i]) || SafeQuery(query)[i] == '-' || SafeQuery(query)[i] == '_'
    ensures |SafeQuery(query)| == if |RStrip(Filter(query))| <= 50 then |RStrip(Filter(query))| else 50
    ensures forall i | 0 <= i < |SafeQuery(query)| ::
      SafeQuery(query)[i] == if RStrip(Filter(query))[i] == ' ' then '_' else RStrip(Filter(query))[i]
    ensures |RStrip(Filter(query))| <= 50 && SafeQuery(query) != "" ==>
      !IsSpace(RStrip(Filter(query))[|SafeQuery(query)| - 1])
  {
    var trimmed := RStrip(Filter(query));
    ReplaceCharAt(trimmed, ' ', '_');
  }

  /** Words that are all letters and digits, joined by single spaces and at most
      50 characters long, become the same words joined by `_`. */
  lemma SafeOfWords(ws: seq<string>)
    requires ws != [] && forall k | 0 <= k < |ws| :: IsWord(ws[k])
    requires |Join(ws, " ")| <= 50
    ensures SafeQuery(Join(ws, " ")) == Join(ws, "_")
  {
    var q := Join(ws, " ");
    JoinPreserves(ws, " ", Allowed);
    FilterAllowed(q);
    JoinLast(ws, " ");
    assert RStrip(q) == q;
    forall k | 0 <= k < |ws|
      ensures ' ' !in ws[k]
    {
      assert forall i | 0 <= i < |ws[k]| :: ws[k][i] != ' ';
    }
    SplitJoin(ws, ' ');
    JoinLength(ws, " ", "_");
  }

  /** The base name of a downloads path is the file name itself. */
  lemma BasenameOfOutput(name: string)
    requires '/' !in name
    ensures WebCsv.Basename(OutputFile(name)) == name
  {
    assert OutputFile(name) == "static" + ['/'] + ("downloads" + ['/'] + name);
    SplitWordThenSep("static", "downloads" + ['/'] + name, '/');
    SplitWordThenSep("downloads", name, '/');
    SplitNoChar(name, '/');
  }

  /** No occurrence of a separator that opens with `_` starts inside an underscore-free string. */
  lemma NoUnderscoreNoMatch(x: string, y: string, sep: string)
    requires sep != [] && sep[0] == '_' && '_' !in x
    ensures NoMatchWithin(x, y, sep)
  {
    forall i | 0 <= i < |x|
      ensures !StartsWith((x + y)[i..], sep)
    {
      if |sep| <= |(x + y)[i..]| {
        assert (x + y)[i..][..|sep|][0] == x[i] != '_';
      }
    }
  }

  /** `_` + a word other than "leads" + `_...` does not open with the marker. */
  lemma WordIsNotMarker(w: string, t: string)
    requires IsWord(w) && w != "leads" && t != [] && t[0] == '_'
    ensures !StartsWith("_" + w + t, LeadsMarker)
  {
    var y := "_" + w + t;
    if |y| >= |LeadsMarker| {
      var head := y[..|LeadsMarker|];
      if |w| < 5 {
        assert head[1 + |w|] == '_' != LeadsMarker[1 + |w|];
      } else if |w| > 5 {
        assert head[6] == w[5] != LeadsMarker[6];
      } else {
        var p :| 0 <= p < 5 && w[p] != "leads"[p];
        assert head[1 + p] == w[p] != LeadsMarker[1 + p];
      }
    }
  }

  /** No marker starts inside an underscore-joined query followed by `_...`,
      as long as no word after the first is "leads". */
  lemma {:induction false} NoMarkerInJoin(ws: seq<string>, y: string)
    requires ws != [] && forall k | 0 <= k < |ws| :: IsWord(ws[k])
    requires forall k | 1 <= k < |ws| :: ws[k] != "leads"
    requires y != [] && y[0] == '_'
    ensures NoMatchWithin(Join(ws, "_"), y, LeadsMarker)
    decreases |ws|
  {
    var w := ws[0];
    assert '_' !in w by { assert forall i | 0 <= i < |w| :: w[i] != '_'; }
    if |ws| == 1 {
      NoUnderscoreNoMatch(w, y, LeadsMarker);
    } else {
      var rest := Join(ws[1..], "_");
      assert Join(ws, "_") == w + ("_" + rest);
      NoMarkerInJoin(ws[1..], y);
      JoinFirstWord(ws[1..], "_");
      var t := rest[|ws[1]|..] + y;
      assert t[0] == '_';
      assert rest == ws[1] + rest[|ws[1]|..];
      assert "_" + rest + y == "_" + ws[1] + t;
      WordIsNotMarker(ws[1], t);
      assert NoMatchWithin("_", rest + y, LeadsMarker) by {
        assert ("_" + (rest + y))[0..] == "_" + ws[1] + t;
      }
      NoMatchConcat("_", rest, y, LeadsMarker);
      NoUnderscoreNoMatch(w, "_" + rest + y, LeadsMarker);
      assert "_" + rest + y == ("_" + rest) + y;
      NoMatchConcat(w, "_" + rest, y, LeadsMarker);
    }
  }

  /** The part of `query_leads_rest` before the first marker is the underscore-joined query. */
  lemma StemBeforeMarker(ws: seq<string>, r: string)
    requires ws != [] && forall k | 0 <= k < |ws| :: IsWord(ws[k])
    requires forall k | 1 <= k < |ws| :: ws[k] != "leads"
    ensures Split(Join(ws, "_") + LeadsMarker + r, LeadsMarker)[0] == Join(ws, "_")
  {
    NoMarkerInJoin(ws, LeadsMarker + r);
    SplitAtSeparator(Join(ws, "_"), r, LeadsMarker);
  }

  /** The join of several words continues its first word with the separator. */
  lemma JoinFirstWord(ws: seq<string>, sep: string)
    requires ws != []
    ensures |ws| == 1 ==> Join(ws, sep) == ws[0]
    ensures |ws| > 1 ==> Join(ws, sep) == ws[0] + sep + Join(ws[1..], sep)
  {
  }

  /** All words non-empty: nothing to drop. */
  lemma {:induction false} NonEmptyWordsKeeps(ws: seq<string>)
    requires forall k | 0 <= k < |ws| :: ws[k] != ""
    ensures WebCsv.NonEmptyWords(ws) == ws
    decreases |ws|
  {
    if ws != [] {
      NonEmptyWordsKeeps(ws[..|ws| - 1]);
      assert ws[..|ws| - 1] + [ws[|ws| - 1]] == ws;
    }
  }

  /** The file name carries the query back to web_tools.py: a query of letter
      and digit words separated by single spaces, at most 50 characters long,
      with no word after the first equal to "leads", is recovered exactly. */
  lemma QueryRoundTrip(ws: seq<string>, timestamp: string)
    requires ws != [] && forall k | 0 <= k < |ws| :: IsWord(ws[k])
    requires forall k | 1 <= k < |ws| :: ws[k] != "leads"
    requires |Join(ws, " ")| <= 50
    requires '/' !in timestamp
    ensures WebCsv.DerivedQuery(OutputFile(CsvFilename(SafeQuery(Join(ws, " ")), timestamp))) == Join(ws, " ")
  {
    SafeOfWords(ws);
    var safe := Join(ws, "_");
    var name := CsvFilename(safe, timestamp);
    JoinPreserves(ws, "_", c => c != '/');
    assert '/' !in safe by { assert forall i | 0 <= i < |safe| :: safe[i] != '/'; }
    assert '/' !in name by { assert forall i | 0 <= i < |name| :: name[i] != '/'; }
    BasenameOfOutput(name);
    assert name == safe + LeadsMarker + (timestamp + ".csv");
    StemBeforeMarker(ws, timestamp + ".csv");
    forall k | 0 <= k < |ws|
      ensures '_' !in ws[k]
    {
      assert forall i | 0 <= i < |ws[k]| :: ws[k][i] != '_';
    }
    SplitJoin(ws, '_');
    NonEmptyWordsKeeps(ws);
  }

  /** "top leads" has the file-name form "top_leads". */
  lemma TopLeadsIsSafe()
    ensures SafeQuery("top leads") == "top_leads"
  {
    var ws := ["top", "leads"];
    assert Join(ws, " ") == "top leads";
    assert Join(ws, "_") == "top_leads";
    assert IsWord("top") && IsWord("leads");
    SafeOfWords(ws);
  }

  /** A file name stem "top_leads" is read back as the query "top". */
  lemma TopLeadsReadsBack(timestamp: string)
    requires '/' !in timestamp
    ensures WebCsv.DerivedQuery(OutputFile(CsvFilename("top_leads", timestamp))) == "top"
  {
    var name := CsvFilename("top_leads", timestamp);
    assert '/' !in name by { assert forall i | 0 <= i < |name| :: name[i] != '/'; }
    BasenameOfOutput(name);
    var rest := "leads_" + timestamp + ".csv";
    assert name == "top" + LeadsMarker + rest;
    NoUnderscoreNoMatch("top", LeadsMarker + rest, LeadsMarker);
    SplitAtSeparator("top", rest, LeadsMarker);
    var stem := Split(WebCsv.Basename(OutputFile(name)), LeadsMarker)[0];
    assert stem == "top";
    SplitNoChar("top", '_');
    var words := Split(stem, "_");
    assert words == ["top"];
    assert WebCsv.NonEmptyWords(words) == ["top"] by {
      assert words[..0] == [];
    }
  }

  /** A query whose second word is "leads" loses it: "top leads" comes back as "top". */
  lemma LeadsWordIsLost(timestamp: string)
    requires '/' !in timestamp
    ensures WebCsv.DerivedQuery(OutputFile(CsvFilename(SafeQuery("top leads"), timestamp))) == "top"
  {
    TopLeadsIsSafe();
    TopLeadsReadsBack(timestamp);
  }
}
