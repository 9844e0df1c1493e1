/**
 * The loosely structured agent output that reaches the two CSV writers
 * (`WebTools.save_to_csv_file` in web_tools.py and `save_task` in main.py),
 * and the `- **Key**: value` bullet-text fallback parser both of them use
 * when the text is not JSON.
 */
module Payloads {
  import opened Wrappers
  import opened Str

  /** A value held in a record. `StrValue` is a Python `str`; `OtherValue` is any
      other value, given by the text the csv module writes for it (`""` for
      `None`, `str(v)` otherwise) and by its truthiness. */
  datatype Value = StrValue(s: string) | OtherValue(cell: string, truthy: bool)

  /** A Python dict read from agent output, keyed by field name. */
  type Record = map<string, Value>

  /** An element of a list payload: a dict, or anything else. */
  datatype Item = Mapping(fields: Record) | NonMapping

  /** The outcome of `json.loads` on a text, taken as given: an object, an
      array, a string, any other scalar (number, boolean, null), or a
      `JSONDecodeError`. */
  datatype Json = JObject(fields: Record) | JArray(items: seq<Item>) | JString(s: string) | JScalar | DecodeError

  /** What a writer is called with: a dict, a list, a text together with what
      `json.loads` makes of it, or any other object. For another object,
      `iterated` is what `for row in data` yields from it when it is iterable
      (a tuple, a set, a generator), and `None` when it is not (a number,
      `None`). */
  datatype Payload = PMapping(fields: Record) | PList(items: seq<Item>) | PText(text: string, json: Json) | POther(iterated: Option<seq<Item>>)

  /** The text the csv module writes for a value. */
  function Cell(v: Value): string
  {
    match v
    case StrValue(s) => s
    case OtherValue(c, _) => c
  }

  /** Python truthiness of a value. */
  predicate Truthy(v: Value)
  {
    match v
    case StrValue(s) => s != ""
    case OtherValue(_, t) => t
  }

  /** `row.get(key, "")` as written by the csv module. */
  function CellOf(r: Record, key: string): string
  {
    if key in r then Cell(r[key]) else ""
  }

  /** The lines of a text: `text.split("\n")`. */
  function Lines(text: string): seq<string>
  {
    Split(text, "\n")
  }

  const BulletPrefix: string := "- **"
  const KeySep: string := "**:"

  /** A stripped line that the parsers read as a bullet. */
  predicate IsBullet(line: string)
  {
    StartsWith(line, BulletPrefix) && Contains(line, KeySep)
  }

  /** The key of a bullet: the text before the first `**:`, with every `- **`
      removed, stripped. */
  function BulletKey(line: string): string
    requires IsBullet(line)
  {
    Strip(Replace(Split(line, KeySep)[0], BulletPrefix, ""))
  }

  /** The value of a bullet: the text between the first and the second `**:`, stripped. */
  function BulletValue(line: string): string
    requires IsBullet(line)
  {
    SplitContains(line, KeySep);
    Strip(Split(line, KeySep)[1])
  }

  /** How the parsers read one line once stripped: blank, a bullet, or neither. */
  datatype LineKind = Blank | Bullet(key: string, value: string) | Ignored

  function Classify(line: string): LineKind
  {
    var l := Strip(line);
    if l == "" then Blank
    else if IsBullet(l) then Bullet(BulletKey(l), BulletValue(l))
    else Ignored
  }

  /** The kinds of the lines of a text, in order. */
  function Kinds(lines: seq<string>): (ks: seq<LineKind>)
    ensures |ks| == |lines|
    ensures forall i | 0 <= i < |lines| :: ks[i] == Classify(lines[i])
  {
    seq(|lines|, i requires 0 <= i < |lines| => Classify(lines[i]))
  }

  /** The record made of every bullet, a later key overwriting an earlier one;
      all other lines, blank ones included, contribute nothing. */
  function MergeBullets(ks: seq<LineKind>): Record
  {
    if ks == [] then map[] else Absorb(MergeBullets(ks[..|ks| - 1]), ks[|ks| - 1])
  }

  /** One line read into a record: `record[key] = value` for a bullet. */
  function Absorb(m: Record, kind: LineKind): Record
  {
    match kind
    case Bullet(k, v) => m[k := StrValue(v)]
    case _ => m
  }

  /** The lines cut into groups at every blank line. */
  function Groups(ks: seq<LineKind>): (gs: seq<seq<LineKind>>)
    ensures |gs| >= 1
  {
    if ks == [] then [[]]
    else
      var gs := Groups(ks[..|ks| - 1]);
      var last := ks[|ks| - 1];
      if last.Blank? then gs + [[]]
      else gs[..|gs| - 1] + [gs[|gs| - 1] + [last]]
  }

  /** The merged record of every group that has at least one bullet, in order. */
  function NonEmptyMerges(gs: seq<seq<LineKind>>): seq<Record>
  {
    if gs == [] then []
    else
      var rs := NonEmptyMerges(gs[..|gs| - 1]);
      var m := MergeBullets(gs[|gs| - 1]);
      if |m| == 0 then rs else rs + [m]
  }

  /** The records that main.py reads from bullet text: one per blank-line
      separated group that holds a bullet. */
  function BulletRecords(ks: seq<LineKind>): seq<Record>
  {
    NonEmptyMerges(Groups(ks))
  }

  /** The records folded into one, later keys overwriting earlier ones. */
  function UnionAll(rs: seq<Record>): Record
  {
    if rs == [] then map[] else UnionAll(rs[..|rs| - 1]) + rs[|rs| - 1]
  }

  // ---------------------------------------------------------------------------
  // Lemmas

  /** A key is in the merged record exactly when some line is a bullet with that
      key, and its value is the value of the LAST such line. */
  lemma {:induction false} MergeBulletsLastWins(ks: seq<LineKind>, k: string)
    ensures k in MergeBullets(ks) <==> exists j | 0 <= j < |ks| :: ks[j].Bullet? && ks[j].key == k
    ensures k in MergeBullets(ks) ==>
      exists j | 0 <= j < |ks| ::
        && ks[j].Bullet? && ks[j].key == k
        && MergeBullets(ks)[k] == StrValue(ks[j].value)
        && forall j' | j < j' < |ks| :: !(ks[j'].Bullet? && ks[j'].key == k)
  {
    if ks != [] {
      var n := |ks| - 1;
      var init := ks[..n];
      MergeBulletsLastWins(init, k);
      assert forall j | 0 <= j < n :: init[j] == ks[j];
      if ks[n].Bullet? && ks[n].key == k {
        assert MergeBullets(ks)[k] == StrValue(ks[n].value);
      } else if k in MergeBullets(ks) {
        var j :| 0 <= j < n && init[j].Bullet? && init[j].key == k
          && MergeBullets(init)[k] == StrValue(init[j].value)
          && forall j' | j < j' < n :: !(init[j'].Bullet? && init[j'].key == k);
        assert MergeBullets(ks)[k] == MergeBullets(init)[k];
        assert forall j' | j < j' < |ks| :: !(ks[j'].Bullet? && ks[j'].key == k);
      }
    }
  }

  /** main.py's records never include an empty one. */
  lemma {:induction false} BulletRecordsNonEmpty(gs: seq<seq<LineKind>>)
    ensures forall i | 0 <= i < |NonEmptyMerges(gs)| :: |NonEmptyMerges(gs)[i]| != 0
  {
    if gs != [] {
      BulletRecordsNonEmpty(gs[..|gs| - 1]);
    }
  }

  lemma UnionAllLast(gs: seq<seq<LineKind>>)
    requires gs != []
    ensures UnionAll(NonEmptyMerges(gs)) ==
            UnionAll(NonEmptyMerges(gs[..|gs| - 1])) + MergeBullets(gs[|gs| - 1])
  {
    var rs := NonEmptyMerges(gs[..|gs| - 1]);
    var m := MergeBullets(gs[|gs| - 1]);
    if |m| == 0 {
      assert m == map[];
      assert UnionAll(rs) + m == UnionAll(rs);
    } else {
      assert (rs + [m])[..|rs|] == rs;
    }
  }

  lemma MergeSnoc(g: seq<LineKind>, kind: LineKind)
    ensures MergeBullets(g + [kind]) == Absorb(MergeBullets(g), kind)
  {
    assert (g + [kind])[..|g|] == g;
  }

  /** Reading one more line into the merged record. */
  lemma MergeKindsSnoc(lines: seq<string>, line: string)
    ensures MergeBullets(Kinds(lines + [line])) == Absorb(MergeBullets(Kinds(lines)), Classify(line))
  {
    var ks := Kinds(lines + [line]);
    assert ks[..|lines|] == Kinds(lines);
    assert ks[|lines|] == Classify(line);
  }

  /** The merged record of the first `i + 1` lines, from that of the first `i`. */
  lemma MergePrefixStep(lines: seq<string>, i: nat)
    requires i < |lines|
    ensures MergeBullets(Kinds(lines[..i + 1])) == Absorb(MergeBullets(Kinds(lines[..i])), Classify(lines[i]))
  {
    assert lines[..i + 1] == lines[..i] + [lines[i]];
    MergeKindsSnoc(lines[..i], lines[i]);
  }

  /** Classifying one more line appends its own kind and leaves the kinds of
      the earlier lines as they were. */
  lemma KindsSnoc(lines: seq<string>, line: string)
    ensures Kinds(lines + [line]) == Kinds(lines) + [Classify(line)]
  {
    var ks := Kinds(lines + [line]);
    assert ks[..|lines|] == Kinds(lines);
    assert ks == ks[..|lines|] + [ks[|lines|]];
  }

  /** The line kinds of the first `i + 1` lines. */
  lemma KindsPrefixStep(lines: seq<string>, i: nat)
    requires i < |lines|
    ensures Kinds(lines[..i + 1]) == Kinds(lines[..i]) + [Classify(lines[i])]
  {
    assert lines[..i + 1] == lines[..i] + [lines[i]];
    KindsSnoc(lines[..i], lines[i]);
  }

  /** One more line added to the groups. */
  lemma GroupsSnoc(ks: seq<LineKind>, kind: LineKind)
    ensures Groups(ks + [kind]) ==
      var gs := Groups(ks);
      if kind.Blank? then gs + [[]] else gs[..|gs| - 1] + [gs[|gs| - 1] + [kind]]
  {
    assert (ks + [kind])[..|ks|] == ks;
  }

  lemma NonEmptyMergesSnoc(gs: seq<seq<LineKind>>, g: seq<LineKind>)
    ensures NonEmptyMerges(gs + [g]) ==
      NonEmptyMerges(gs) + if |MergeBullets(g)| == 0 then [] else [MergeBullets(g)]
  {
    assert (gs + [g])[..|gs|] == gs;
  }

  lemma ClassifyShape(line: string)
    ensures IsBullet(Strip(line)) ==> Classify(line) == Bullet(BulletKey(Strip(line)), BulletValue(Strip(line)))
    ensures !IsBullet(Strip(line)) ==> !Classify(line).Bullet?
    ensures Classify(line).Blank? <==> Strip(line) == ""
  {
  }

  lemma AbsorbBullet(m: Record, k: string, v: string)
    ensures Absorb(m, Bullet(k, v)) == m[k := StrValue(v)]
  {
  }

  /** What main.py's loop keeps, the finished records and the record being
      built, after one more line: a blank line closes the current record (kept
      when non-empty), any other line is read into it. */
  lemma GroupStep(ks: seq<LineKind>, kind: LineKind)
    ensures var gs := Groups(ks);
      var gs' := Groups(ks + [kind]);
      var closed := NonEmptyMerges(gs[..|gs| - 1]);
      var current := MergeBullets(gs[|gs| - 1]);
      && (kind.Blank? ==>
        NonEmptyMerges(gs'[..|gs'| - 1]) == (if |current| != 0 then closed + [current] else closed)
        && MergeBullets(gs'[|gs'| - 1]) == map[])
      && (!kind.Blank? ==>
        NonEmptyMerges(gs'[..|gs'| - 1]) == closed
        && MergeBullets(gs'[|gs'| - 1]) == Absorb(current, kind))
  {
    var gs := Groups(ks);
    var g := gs[|gs| - 1];
    GroupsSnoc(ks, kind);
    if kind.Blank? {
      NonEmptyMergesSnoc(gs[..|gs| - 1], g);
      assert gs[..|gs| - 1] + [g] == gs;
      assert (gs + [[]])[..|gs|] == gs;
    } else {
      MergeSnoc(g, kind);
      var gs' := gs[..|gs| - 1] + [g + [kind]];
      assert gs'[..|gs'| - 1] == gs[..|gs| - 1];
    }
  }

  /** At the end of the text the record being built is kept when non-empty. */
  lemma CloseLastGroup(ks: seq<LineKind>)
    ensures var gs := Groups(ks);
      var current := MergeBullets(gs[|gs| - 1]);
      BulletRecords(ks) == NonEmptyMerges(gs[..|gs| - 1]) + (if |current| == 0 then [] else [current])
  {
  }

  /** One line read into a record, as the parsers' loop bodies do it. */
  lemma ReadLine(m: Record, line: string)
    ensures IsBullet(Strip(line)) ==>
      Absorb(m, Classify(line)) == m[BulletKey(Strip(line)) := StrValue(BulletValue(Strip(line)))]
    ensures !IsBullet(Strip(line)) ==> Absorb(m, Classify(line)) == m
  {
    ClassifyShape(line);
    if IsBullet(Strip(line)) {
      AbsorbBullet(m, BulletKey(Strip(line)), BulletValue(Strip(line)));
    }
  }

  lemma AbsorbUnion(a: Record, m: Record, kind: LineKind)
    ensures a + Absorb(m, kind) == Absorb(a + m, kind)
  {
  }

  /** The two parsers agree: folding main.py's per-group records together gives
      the single record web_tools.py builds from the same text. */
  lemma {:induction false} RecordsUnionIsMerge(ks: seq<LineKind>)
    ensures UnionAll(BulletRecords(ks)) == MergeBullets(ks)
  {
    if ks != [] {
      var n := |ks| - 1;
      var init := ks[..n];
      var last := ks[n];
      var gs := Groups(init);
      RecordsUnionIsMerge(init);
      UnionAllLast(gs);
      if last.Blank? {
        var gs' := gs + [[]];
        assert Groups(ks) == gs';
        assert gs'[..|gs'| - 1] == gs;
        UnionAllLast(gs');
      } else {
        var g := gs[|gs| - 1];
        var gs' := gs[..|gs| - 1] + [g + [last]];
        assert Groups(ks) == gs';
        assert gs'[..|gs'| - 1] == gs[..|gs| - 1];
        UnionAllLast(gs');
        MergeSnoc(g, last);
        AbsorbUnion(UnionAll(NonEmptyMerges(gs[..|gs| - 1])), MergeBullets(g), last);
      }
    }
  }

  /** Lines without a blank one form a single group. */
  lemma {:induction false} GroupsWithoutBlank(ks: seq<LineKind>)
    requires forall i | 0 <= i < |ks| :: !ks[i].Blank?
    ensures Groups(ks) == [ks]
  {
    if ks != [] {
      var init := ks[..|ks| - 1];
      assert forall i | 0 <= i < |init| :: init[i] == ks[i];
      GroupsWithoutBlank(init);
      assert init + [ks[|ks| - 1]] == ks;
    }
  }

  /** Lines without a blank one: main.py yields exactly web_tools.py's single
      record, or nothing when there is no bullet. */
  lemma SingleGroup(ks: seq<LineKind>)
    requires forall i | 0 <= i < |ks| :: !ks[i].Blank?
    ensures Groups(ks) == [ks]
    ensures BulletRecords(ks) == if |MergeBullets(ks)| == 0 then [] else [MergeBullets(ks)]
  {
    GroupsWithoutBlank(ks);
    assert [ks][..0] == [];
    NonEmptyMergesSnoc([], ks);
  }
}
