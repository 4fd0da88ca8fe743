/** The pure middle of report generation: validate the form, resolve the package, pick
    the lab rows, note the missing tests and build the template context. */
module Assembly {
  import opened Outcomes
  import opened Text
  import opened Normalizer
  import opened Tables
  import opened Forms
  import opened ReportContext

  /** The conditions that stop generation, each shown to the operator as a message box. */
  datatype Error =
    | MissingFields
    | NoTestsForPackage(package: string)
    | NoData(missing: seq<string>)
    | TemplateNotFound(path: string)

  /** A successful assembly: the template context and the (informational) missing tests. */
  datatype Report = Report(context: Context, missing: seq<string>)

  /** `package.lower().strip()` of the already stripped package field. */
  function PackageKey(c: Form): string {
    Strip(Lower(c.package))
  }

  /** The package key is the typed package, stripped and lower-cased: the second strip
      of `package.lower().strip()` removes nothing. */
  lemma PackageKeyOfForm(f: Form)
    ensures PackageKey(Cleaned(f)) == Lower(Strip(f.package))
  {
    StripAfterLowerOfStripped(f.package);
  }

  /** The checks in the source's order: required fields, then the package's tests,
      then the lab rows. */
  function Assemble(form: Form, packages: seq<PackageRow>, lab: seq<LabRow>, parse: Parser)
    : (out: Result<Report, Error>)
    ensures out.Err? ==> !out.error.TemplateNotFound?
    ensures out.Ok? ==> HasRequiredFields(Cleaned(form))
  {
    var c := Cleaned(form);
    if !HasRequiredFields(c) then Err(MissingFields) else Lookup(c, packages, lab, parse)
  }

  /** The package lookup, on a form whose required fields are present. */
  function Lookup(c: Form, packages: seq<PackageRow>, lab: seq<LabRow>, parse: Parser)
    : (out: Result<Report, Error>)
    ensures out.Err? ==> out.error.NoTestsForPackage? || out.error.NoData?
    ensures out.Err? && out.error.NoTestsForPackage? <==> RequiredTests(packages, PackageKey(c)) == []
  {
    var required := RequiredTests(packages, PackageKey(c));
    if required == [] then Err(NoTestsForPackage(c.package)) else Collect(c, required, lab, parse)
  }

  /** The lab-row selection for a non-empty list of required tests. The missing-test
      notice is computed before the emptiness check, so the `NoData` error carries it. */
  function Collect(c: Form, required: seq<string>, lab: seq<LabRow>, parse: Parser)
    : (out: Result<Report, Error>)
    ensures out.Err? ==> out.error.NoData?
    ensures out.Err? <==> MatchingRows(lab, c.barcode, required) == []
  {
    var rows := MatchingRows(lab, c.barcode, required);
    var missing := MissingTests(required, FoundTests(rows));
    if rows == [] then Err(NoData(missing))
    else Ok(Report(BuildContext(c, rows, parse), missing))
  }

  /** The first check: generation stops with `MissingFields` exactly when one of the
      eight required fields is blank, whatever the tables hold. */
  lemma MissingFieldsFirst(form: Form, packages: seq<PackageRow>, lab: seq<LabRow>, parse: Parser)
    ensures Assemble(form, packages, lab, parse) == Err(MissingFields)
        <==> !HasRequiredFields(Cleaned(form))
  {
    if HasRequiredFields(Cleaned(form)) {
      assert Assemble(form, packages, lab, parse) == Lookup(Cleaned(form), packages, lab, parse);
    }
  }

  /** Name and gender are never required: forms that differ only there pass or fail
      alike, and on success their contexts differ at most in those two fields. */
  lemma NameAndGenderOptional(f: Form, g: Form, packages: seq<PackageRow>, lab: seq<LabRow>, parse: Parser)
    requires f.(name := g.name, gender := g.gender) == g
    ensures var a, b := Assemble(f, packages, lab, parse), Assemble(g, packages, lab, parse);
      && a.Ok? == b.Ok?
      && (a.Err? ==> a == b)
      && (a.Ok? ==>
            && a.value.missing == b.value.missing
            && a.value.context.Keys == b.value.context.Keys
            && forall k :: k in a.value.context && k != "patient_name" && k != "gender"
                 ==> a.value.context[k] == b.value.context[k])
  {
    var cf, cg := Cleaned(f), Cleaned(g);
    assert cf.(name := cg.name, gender := cg.gender) == cg;
    if HasRequiredFields(cf) {
      assert PackageKey(cf) == PackageKey(cg);
      var required := RequiredTests(packages, PackageKey(cf));
      if required != [] {
        var rows := MatchingRows(lab, cf.barcode, required);
        assert Collect(cf, required, lab, parse).Ok? == Collect(cg, required, lab, parse).Ok?;
        ContextIgnoresNameAndGender(cf, cg, rows, parse);
      }
    }
  }

  /** The second check: with the fields present, generation stops with
      `NoTestsForPackage` exactly when no package row names the package (after strip and
      lower-case) with a test. */
  lemma NoTestsIffUnknownPackage(form: Form, packages: seq<PackageRow>, lab: seq<LabRow>, parse: Parser)
    requires HasRequiredFields(Cleaned(form))
    ensures var out := Assemble(form, packages, lab, parse);
      (out.Err? && out.error.NoTestsForPackage?) <==>
        forall row :: row in packages ==> !InPackage(row, PackageKey(Cleaned(form)))
    ensures var out := Assemble(form, packages, lab, parse);
      out.Err? && out.error.NoTestsForPackage? ==> out.error.package == Cleaned(form).package
  {
    NoRequiredTestsIff(packages, PackageKey(Cleaned(form)));
  }

  /** The third check: with the fields present and the package known, generation stops
      with `NoData` exactly when no lab row of the barcode reports a required test; the
      error then lists every required test as missing. */
  lemma NoDataIffNothingFound(form: Form, packages: seq<PackageRow>, lab: seq<LabRow>, parse: Parser)
    requires HasRequiredFields(Cleaned(form))
    requires RequiredTests(packages, PackageKey(Cleaned(form))) != []
    ensures var c := Cleaned(form);
      var required := RequiredTests(packages, PackageKey(c));
      var out := Assemble(form, packages, lab, parse);
      && ((out.Err? && out.error.NoData?) <==>
            forall row :: row in lab && Strip(row.barcode) == c.barcode ==> Normalized(row.testName) !in required)
      && (out.Err? && out.error.NoData? ==> out.error.missing == required)
  {
    var c := Cleaned(form);
    var required := RequiredTests(packages, PackageKey(c));
    var rows := MatchingRows(lab, c.barcode, required);
    assert Assemble(form, packages, lab, parse) == Collect(c, required, lab, parse);
    if rows != [] {
      assert rows[0] in rows;
    } else {
      MissingAllWhenNoneFound(required, FoundTests(rows));
    }
  }

  /** With nothing found, every required test is missing, in package order. */
  lemma {:induction false} MissingAllWhenNoneFound(required: seq<string>, found: set<string>)
    requires found == {}
    ensures MissingTests(required, found) == required
  {
    if required != [] {
      MissingAllWhenNoneFound(required[1..], found);
      assert required == [required[0]] + required[1..];
    }
  }

  /** What a successful collection hands to the template: the form fields, the result
      table with one entry per matched row in sheet order, one value and unit key per
      matched row, and the missing-test list: the required tests, in package order and
      with their duplicates, that no lab row of the barcode reports. */
  lemma CollectedReport(c: Form, required: seq<string>, lab: seq<LabRow>, parse: Parser)
    ensures var rows := MatchingRows(lab, c.barcode, required);
      var out := Collect(c, required, lab, parse);
      out.Ok? ==>
        && rows != []
        && out.value.context["results"] == Table(Entries(rows, parse))
        && out.value.context["barcode"] == Scalar(c.barcode)
        && out.value.context["patient_name"] == Scalar(c.name)
        && out.value.context["test_package"] == Scalar(c.package)
        && out.value.context.Keys == FixedKeys + NamedResults(rows, parse).Keys
        && out.value.missing == MissingTests(required, FoundTests(rows))
        && (forall t :: t in out.value.missing <==>
              t in required && forall row :: row in lab && Strip(row.barcode) == c.barcode ==> Normalized(row.testName) != t)
  {
    var rows := MatchingRows(lab, c.barcode, required);
    if rows != [] {
      var ctx := BuildContext(c, rows, parse);
      var missing := MissingTests(required, FoundTests(rows));
      assert Collect(c, required, lab, parse) == Ok(Report(ctx, missing));
      SummaryFieldsInContext(c, rows, parse);
      MissingIffUnreported(lab, c.barcode, required);
    }
  }

  /** A successful assembly is the collection for the cleaned form and the package's
      non-empty list of required tests. */
  lemma AssembledReport(form: Form, packages: seq<PackageRow>, lab: seq<LabRow>, parse: Parser)
    ensures var c := Cleaned(form);
      var required := RequiredTests(packages, PackageKey(c));
      Assemble(form, packages, lab, parse).Ok? ==>
        && HasRequiredFields(c)
        && required != []
        && Assemble(form, packages, lab, parse) == Collect(c, required, lab, parse)
  {
  }

  /** The context of a successful assembly is built from the cleaned form and the lab
      rows matched for the package's required tests, and its missing-test list is that
      of the package's required tests against the matched rows. */
  lemma AssembledContext(form: Form, packages: seq<PackageRow>, lab: seq<LabRow>, parse: Parser)
    ensures var c := Cleaned(form);
      var required := RequiredTests(packages, PackageKey(c));
      var rows := MatchingRows(lab, c.barcode, required);
      Assemble(form, packages, lab, parse).Ok? ==>
        && Assemble(form, packages, lab, parse).value.context == BuildContext(c, rows, parse)
        && Assemble(form, packages, lab, parse).value.missing == MissingTests(required, FoundTests(rows))
  {
    var c := Cleaned(form);
    var required := RequiredTests(packages, PackageKey(c));
    AssembledReport(form, packages, lab, parse);
    if Assemble(form, packages, lab, parse).Ok? {
      var rows := MatchingRows(lab, c.barcode, required);
      assert Collect(c, required, lab, parse)
          == Ok(Report(BuildContext(c, rows, parse), MissingTests(required, FoundTests(rows))));
    }
  }
}
