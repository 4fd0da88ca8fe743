/** The substitution context handed to the document template: the form's fields, the
    ordered result table, and one `<key>_value` / `<key>_unit` pair per test. */
module ReportContext {
  import opened Text
  import opened Normalizer
  import opened Tables
  import opened Forms

  /** One line of the result table. */
  datatype ResultEntry = ResultEntry(name: string, value: Cell, unit: Cell)

  /** A context value: a form field, a lab cell, or the whole result table. */
  datatype Field = Scalar(text: string) | Value(cell: Cell) | Table(entries: seq<ResultEntry>)

  type Context = map<string, Field>

  /** The table line of a matched row: the stripped test name, the value as the display
      rule shows it for that stripped name, and the unit. */
  function EntryOf(row: LabRow, parse: Parser): (e: ResultEntry)
    ensures e.name == Strip(row.testName) && e.unit == row.unit
    ensures e.value == AlteredResult(e.name, row.value, parse)
    ensures e.name == "CRP" && Below(row.value, parse, 6.0) ==> e.value == Str(CrpToken)
    ensures e.name == "RF" && Below(row.value, parse, 10.0) ==> e.value == Str(RfToken)
    ensures (!(e.name == "CRP" && Below(row.value, parse, 6.0))
             && !(e.name == "RF" && Below(row.value, parse, 10.0))) ==> e.value == row.value
  {
    var name := Strip(row.testName);
    ResultEntry(name, AlteredResult(name, row.value, parse), row.unit)
  }

  /** The result table: one entry per matched row, in the same order. */
  function Entries(rows: seq<LabRow>, parse: Parser): (entries: seq<ResultEntry>)
    ensures |entries| == |rows|
    ensures forall i :: 0 <= i < |rows| ==> entries[i] == EntryOf(rows[i], parse)
  {
    if rows == [] then [] else [EntryOf(rows[0], parse)] + Entries(rows[1..], parse)
  }

  /** The template field stem of a test: lower-cased, then every character outside
      `[a-zA-Z0-9_]` replaced by an underscore. */
  function TestKey(name: string): (key: string)
    ensures |key| == |Lower(name)| == |name|
    ensures forall i :: 0 <= i < |key| ==> IsKeyChar(key[i]) && !IsUpper(key[i])
    ensures forall i :: 0 <= i < |name| ==>
      key[i] == (if IsKeyChar(LowerChar(name[i])) then LowerChar(name[i]) else '_')
    ensures Sanitize(key) == key
  {
    var key := Sanitize(Lower(name));
    SanitizeIdempotent(Lower(name));
    key
  }

  /** The key stem of a matched row: its stripped test name made into a key. */
  function Stem(row: LabRow): string {
    TestKey(Strip(row.testName))
  }

  function ValueKey(row: LabRow): string {
    Stem(row) + "_value"
  }

  function UnitKey(row: LabRow): string {
    Stem(row) + "_unit"
  }

  /** What one matched row writes into `named_results`: its key stem, its displayed
      value and its unit. */
  datatype Write = Write(stem: string, value: Cell, unit: Cell)

  function WriteOf(row: LabRow, parse: Parser): Write {
    Write(Stem(row), EntryOf(row, parse).value, row.unit)
  }

  /** The writes of the matched rows, in row order. */
  function Writes(rows: seq<LabRow>, parse: Parser): (ws: seq<Write>)
    ensures |ws| == |rows|
    ensures forall i :: 0 <= i < |rows| ==> ws[i] == WriteOf(rows[i], parse)
  {
    if rows == [] then [] else [WriteOf(rows[0], parse)] + Writes(rows[1..], parse)
  }

  /** Performs the writes in order on an empty dictionary; each write sets
      `<stem>_value` and then `<stem>_unit`. */
  function WriteAll(ws: seq<Write>): (named: Context)
    ensures forall k :: k in named <==>
      exists w :: w in ws && (k == w.stem + "_value" || k == w.stem + "_unit")
    decreases |ws|
  {
    if ws == [] then map[]
    else
      var init := ws[..|ws| - 1];
      var last := ws[|ws| - 1];
      assert forall w :: w in ws <==> w in init || w == last;
      WriteAll(init)[last.stem + "_value" := Value(last.value)][last.stem + "_unit" := Value(last.unit)]
  }

  /** `named_results` as the loop at generate_report builds it. */
  function NamedResults(rows: seq<LabRow>, parse: Parser): Context {
    WriteAll(Writes(rows, parse))
  }

  /** A value key and a unit key never coincide, whatever the stems. */
  lemma ValueAndUnitKeysDiffer(x: string, y: string)
    ensures x + "_value" != y + "_unit"
  {
    var v := x + "_value";
    var u := y + "_unit";
    assert v[|v| - 1] == 'e';
    assert u[|u| - 1] == 't';
  }

  /** Equal keys with the same suffix have equal stems. */
  lemma SuffixCancels(x: string, y: string, suffix: string)
    requires x + suffix == y + suffix
    ensures x == y
  {
    assert x == (x + suffix)[..|x|];
    assert y == (y + suffix)[..|y|];
  }

  /** The later write wins: a write survives when no later write has the same stem. */
  lemma {:induction false} LaterWriteWins(ws: seq<Write>, i: int)
    requires 0 <= i < |ws|
    requires forall j :: i < j < |ws| ==> ws[j].stem != ws[i].stem
    ensures ws[i].stem + "_value" in WriteAll(ws)
    ensures WriteAll(ws)[ws[i].stem + "_value"] == Value(ws[i].value)
    ensures ws[i].stem + "_unit" in WriteAll(ws)
    ensures WriteAll(ws)[ws[i].stem + "_unit"] == Value(ws[i].unit)
    decreases |ws|
  {
    var n := |ws| - 1;
    var init := ws[..n];
    var last := ws[n];
    var vk, uk := ws[i].stem + "_value", ws[i].stem + "_unit";
    ValueAndUnitKeysDiffer(last.stem, last.stem);
    if i < n {
      ValueAndUnitKeysDiffer(ws[i].stem, last.stem);
      ValueAndUnitKeysDiffer(last.stem, ws[i].stem);
      if vk == last.stem + "_value" {
        SuffixCancels(ws[i].stem, last.stem, "_value");
      }
      if uk == last.stem + "_unit" {
        SuffixCancels(ws[i].stem, last.stem, "_unit");
      }
      assert init[i] == ws[i];
      LaterWriteWins(init, i);
    }
  }

  /** The later row wins: the value and unit of a matched row reach the template when no
      later matched row has the same key stem. */
  lemma LaterRowWins(rows: seq<LabRow>, parse: Parser, i: int)
    requires 0 <= i < |rows|
    requires forall j :: i < j < |rows| ==> Stem(rows[j]) != Stem(rows[i])
    ensures ValueKey(rows[i]) in NamedResults(rows, parse)
    ensures NamedResults(rows, parse)[ValueKey(rows[i])] == Value(EntryOf(rows[i], parse).value)
    ensures UnitKey(rows[i]) in NamedResults(rows, parse)
    ensures NamedResults(rows, parse)[UnitKey(rows[i])] == Value(rows[i].unit)
  {
    var ws := Writes(rows, parse);
    LaterWriteWins(ws, i);
  }

  /** The keys of `named_results` are exactly the value and unit keys of the matched rows. */
  lemma NamedKeysFromRows(rows: seq<LabRow>, parse: Parser, k: string)
    ensures k in NamedResults(rows, parse) <==>
      exists row :: row in rows && (k == ValueKey(row) || k == UnitKey(row))
  {
    var ws := Writes(rows, parse);
    if k in NamedResults(rows, parse) {
      var w :| w in ws && (k == w.stem + "_value" || k == w.stem + "_unit");
      var i :| 0 <= i < |ws| && ws[i] == w;
      assert rows[i] in rows;
    }
    if exists row :: row in rows && (k == ValueKey(row) || k == UnitKey(row)) {
      var row :| row in rows && (k == ValueKey(row) || k == UnitKey(row));
      var i :| 0 <= i < |rows| && rows[i] == row;
      assert ws[i] in ws;
    }
  }

  /** Every key `named_results` contributes ends in `_value` or `_unit`. */
  lemma NamedKeysSuffixed(rows: seq<LabRow>, parse: Parser, k: string)
    ensures k in NamedResults(rows, parse) ==> EndsWith(k, "_value") || EndsWith(k, "_unit")
  {
    if k in NamedResults(rows, parse) {
      var w :| w in Writes(rows, parse) && (k == w.stem + "_value" || k == w.stem + "_unit");
      if k == w.stem + "_value" {
        assert k[|k| - |"_value"|..] == "_value";
      } else {
        assert k[|k| - |"_unit"|..] == "_unit";
      }
    }
  }

  /** The eleven fields the template always receives. */
  const FixedKeys: set<string> := {
    "barcode", "patient_name", "gender", "dob", "test_package", "results",
    "collected_on", "report_on", "recieved_on", "hospital_number", "address"
  }

  /** A string whose last character differs from the suffix's does not end in it. */
  lemma LastCharDiffers(k: string, suffix: string)
    requires |k| >= 1 && |suffix| >= 1 && k[|k| - 1] != suffix[|suffix| - 1]
    ensures !EndsWith(k, suffix)
  {
    if |suffix| <= |k| {
      assert k[|k| - |suffix|..][|suffix| - 1] == k[|k| - 1];
    }
  }

  /** A string whose second-to-last character differs from the suffix's does not end in it. */
  lemma SecondLastCharDiffers(k: string, suffix: string)
    requires |k| >= 2 && |suffix| >= 2 && k[|k| - 2] != suffix[|suffix| - 2]
    ensures !EndsWith(k, suffix)
  {
    if |suffix| <= |k| {
      assert k[|k| - |suffix|..][|suffix| - 2] == k[|k| - 2];
    }
  }

  /** None of the fixed fields ends in `_value` or `_unit`. */
  lemma FixedKeysUnsuffixed(k: string)
    requires k in FixedKeys
    ensures !EndsWith(k, "_value") && !EndsWith(k, "_unit")
  {
    LastCharDiffers(k, "_unit");
    if k[|k| - 1] == 'e' {
      SecondLastCharDiffers(k, "_value");
    } else {
      LastCharDiffers(k, "_value");
    }
  }

  /** The value of fixed field `k` of the context. */
  function FixedField(c: Form, results: seq<ResultEntry>, k: string): Field {
    if k == "barcode" then Scalar(c.barcode)
    else if k == "patient_name" then Scalar(c.name)
    else if k == "gender" then Scalar(c.gender)
    else if k == "dob" then Scalar(c.dob)
    else if k == "test_package" then Scalar(c.package)
    else if k == "results" then Table(results)
    else if k == "collected_on" then Scalar(c.collectedOn)
    else if k == "report_on" then Scalar(c.reportOn)
    else if k == "recieved_on" then Scalar(c.recievedOn)
    else if k == "hospital_number" then Scalar(c.hospitalNumber)
    else Scalar(c.address)
  }

  /** The fixed part of the context, from the cleaned form and the result table. */
  function BaseContext(c: Form, results: seq<ResultEntry>): (ctx: Context)
    ensures ctx.Keys == FixedKeys
  {
    map k | k in FixedKeys :: FixedField(c, results, k)
  }

  /** `{ ...fixed fields..., **named_results }`: the per-test entries are merged last,
      yet never displace a fixed field, because their keys all carry a suffix no fixed
      field has. */
  function BuildContext(c: Form, rows: seq<LabRow>, parse: Parser): (ctx: Context)
    ensures ctx.Keys == FixedKeys + NamedResults(rows, parse).Keys
    ensures forall k :: k in FixedKeys ==> ctx[k] == BaseContext(c, Entries(rows, parse))[k]
    ensures forall k :: k in NamedResults(rows, parse) ==> ctx[k] == NamedResults(rows, parse)[k]
  {
    var base := BaseContext(c, Entries(rows, parse));
    var named := NamedResults(rows, parse);
    forall k | k in FixedKeys ensures k !in named {
      FixedKeysUnsuffixed(k);
      if k in named {
        NamedKeysSuffixed(rows, parse, k);
      }
    }
    base + named
  }

  /** What `FixedField` gives for each fixed key: the stripped form field, or the
      result table. */
  lemma FixedFieldsOfForm(f: Form, results: seq<ResultEntry>)
    ensures
      && FixedField(Cleaned(f), results, "barcode") == Scalar(Strip(f.barcode))
      && FixedField(Cleaned(f), results, "patient_name") == Scalar(Strip(f.name))
      && FixedField(Cleaned(f), results, "gender") == Scalar(Strip(f.gender))
      && FixedField(Cleaned(f), results, "dob") == Scalar(Strip(f.dob))
      && FixedField(Cleaned(f), results, "hospital_number") == Scalar(Strip(f.hospitalNumber))
      && FixedField(Cleaned(f), results, "address") == Scalar(Strip(f.address))
      && FixedField(Cleaned(f), results, "test_package") == Scalar(Strip(f.package))
      && FixedField(Cleaned(f), results, "results") == Table(results)
      && FixedField(Cleaned(f), results, "collected_on") == Scalar(Strip(f.collectedOn))
      && FixedField(Cleaned(f), results, "report_on") == Scalar(Strip(f.reportOn))
      && FixedField(Cleaned(f), results, "recieved_on") == Scalar(Strip(f.recievedOn))
  {
  }

  /** The patient's fields reach the context stripped, each under its own key:
      the name as `patient_name`, the hospital number as `hospital_number`. */
  lemma PatientFieldsInContext(f: Form, rows: seq<LabRow>, parse: Parser)
    ensures var ctx := BuildContext(Cleaned(f), rows, parse);
      && ctx["barcode"] == Scalar(Strip(f.barcode))
      && ctx["patient_name"] == Scalar(Strip(f.name))
      && ctx["gender"] == Scalar(Strip(f.gender))
      && ctx["dob"] == Scalar(Strip(f.dob))
      && ctx["hospital_number"] == Scalar(Strip(f.hospitalNumber))
      && ctx["address"] == Scalar(Strip(f.address))
  {
    var c := Cleaned(f);
    FixedFieldsOfForm(f, Entries(rows, parse));
    FixedFieldInContext(c, rows, parse, "barcode");
    FixedFieldInContext(c, rows, parse, "patient_name");
    FixedFieldInContext(c, rows, parse, "gender");
    FixedFieldInContext(c, rows, parse, "dob");
    FixedFieldInContext(c, rows, parse, "hospital_number");
    FixedFieldInContext(c, rows, parse, "address");
  }

  /** The report's fields reach the context stripped, each under its own key (the
      package as `test_package`), and `results` holds the result table of the matched rows. */
  lemma ReportFieldsInContext(f: Form, rows: seq<LabRow>, parse: Parser)
    ensures var ctx := BuildContext(Cleaned(f), rows, parse);
      && ctx["test_package"] == Scalar(Strip(f.package))
      && ctx["results"] == Table(Entries(rows, parse))
      && ctx["collected_on"] == Scalar(Strip(f.collectedOn))
      && ctx["report_on"] == Scalar(Strip(f.reportOn))
      && ctx["recieved_on"] == Scalar(Strip(f.recievedOn))
  {
    var c := Cleaned(f);
    FixedFieldsOfForm(f, Entries(rows, parse));
    FixedFieldInContext(c, rows, parse, "test_package");
    FixedFieldInContext(c, rows, parse, "results");
    FixedFieldInContext(c, rows, parse, "collected_on");
    FixedFieldInContext(c, rows, parse, "report_on");
    FixedFieldInContext(c, rows, parse, "recieved_on");
  }

  /** The fields a report is identified by: the result table, the barcode, the patient's
      name and the package, as the (cleaned) form holds them. */
  lemma SummaryFieldsInContext(c: Form, rows: seq<LabRow>, parse: Parser)
    ensures var ctx := BuildContext(c, rows, parse);
      && ctx["results"] == Table(Entries(rows, parse))
      && ctx["barcode"] == Scalar(c.barcode)
      && ctx["patient_name"] == Scalar(c.name)
      && ctx["test_package"] == Scalar(c.package)
  {
    FixedFieldInContext(c, rows, parse, "results");
    FixedFieldInContext(c, rows, parse, "barcode");
    FixedFieldInContext(c, rows, parse, "patient_name");
    FixedFieldInContext(c, rows, parse, "test_package");
  }

  /** A fixed field of the context holds the value `FixedField` gives it. */
  lemma FixedFieldInContext(c: Form, rows: seq<LabRow>, parse: Parser, k: string)
    requires k in FixedKeys
    ensures k in BuildContext(c, rows, parse)
    ensures BuildContext(c, rows, parse)[k] == FixedField(c, Entries(rows, parse), k)
  {
  }

  /** The fixed fields other than `patient_name` and `gender` do not depend on the
      form's name and gender. */
  lemma FixedFieldIgnoresNameAndGender(c: Form, d: Form, results: seq<ResultEntry>, k: string)
    requires c.(name := d.name, gender := d.gender) == d
    requires k != "patient_name" && k != "gender"
    ensures FixedField(c, results, k) == FixedField(d, results, k)
  {
  }

  /** Only the `patient_name` and `gender` fields of the context depend on the form's
      name and gender. */
  lemma ContextIgnoresNameAndGender(c: Form, d: Form, rows: seq<LabRow>, parse: Parser)
    requires c.(name := d.name, gender := d.gender) == d
    ensures BuildContext(c, rows, parse).Keys == BuildContext(d, rows, parse).Keys
    ensures forall k :: k in BuildContext(c, rows, parse) && k != "patient_name" && k != "gender" ==>
      BuildContext(c, rows, parse)[k] == BuildContext(d, rows, parse)[k]
  {
    var results := Entries(rows, parse);
    var named := NamedResults(rows, parse);
    var cc, dc := BuildContext(c, rows, parse), BuildContext(d, rows, parse);
    forall k | k in cc && k != "patient_name" && k != "gender"
      ensures cc[k] == dc[k]
    {
      if k in FixedKeys {
        FixedFieldIgnoresNameAndGender(c, d, results, k);
      }
    }
  }

  /** A worked row: " CRP " with reading 4 and unit "mg/L". */
  function LowCrpRow(): LabRow {
    LabRow("B1", " CRP ", Num(4.0), Str("mg/L"))
  }

  lemma PaddedCrpStrips()
    ensures Strip(" CRP ") == "CRP"
  {
    assert TrimLeft(" CRP ") == "CRP " by {
      assert " CRP "[1..] == "CRP ";
    }
    assert TrimRight("CRP ") == "CRP" by {
      assert "CRP "[..3] == "CRP";
    }
  }

  lemma CrpKeyIsLowerCase()
    ensures TestKey("CRP") == "crp"
  {
    assert Lower("CRP") == "crp";
  }

  /** The sheet name is stripped before the display rule runs, so " CRP " with reading
      4 is shown as the "below 6" token, and its fields are `crp_value` and `crp_unit`. */
  lemma LowCrpRowEntry(parse: Parser)
    ensures var row := LowCrpRow();
      && ValueKey(row) == "crp_value" && UnitKey(row) == "crp_unit"
      && EntryOf(row, parse) == ResultEntry("CRP", Str(CrpToken), Str("mg/L"))
  {
    PaddedCrpStrips();
    CrpKeyIsLowerCase();
    assert Stem(LowCrpRow()) == "crp";
  }

  /** The same row alone in the table puts the token under `crp_value` and its unit
      under `crp_unit`. */
  lemma LowCrpRowNamed(parse: Parser)
    ensures var named := NamedResults([LowCrpRow()], parse);
      && "crp_value" in named && named["crp_value"] == Value(Str(CrpToken))
      && "crp_unit" in named && named["crp_unit"] == Value(Str("mg/L"))
  {
    LowCrpRowEntry(parse);
    LaterRowWins([LowCrpRow()], parse, 0);
  }
}
