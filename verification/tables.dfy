/** The two lookups of report generation: the tests a package requires, and the lab
    rows of one barcode that report one of them. */
module Tables {
  import opened Outcomes
  import opened Text
  import opened Normalizer

  /** A row of the packages sheet. The test cell may be empty (`dropna` skips it). */
  datatype PackageRow = PackageRow(package: string, testName: Option<string>)

  /** A row of the lab-results sheet; `barcode` is the cell as `astype(str)` renders it. */
  datatype LabRow = LabRow(barcode: string, testName: string, value: Cell, unit: Cell)

  /** `.str.strip().str.lower()`: the form in which test and package names are compared. */
  function Normalized(name: string): string {
    Lower(Strip(name))
  }

  /** The package row names the selected package and has a test. */
  predicate InPackage(row: PackageRow, packageCleaned: string) {
    Normalized(row.package) == packageCleaned && row.testName.Some?
  }

  /** The required tests of a package, normalized, in sheet order (duplicates kept). */
  function RequiredTests(packages: seq<PackageRow>, packageCleaned: string): (tests: seq<string>)
    ensures |tests| <= |packages|
    ensures forall t :: t in tests <==>
      exists row :: row in packages && InPackage(row, packageCleaned) && t == Normalized(row.testName.value)
  {
    if packages == [] then []
    else
      var rest := RequiredTests(packages[1..], packageCleaned);
      assert forall row :: row in packages <==> row == packages[0] || row in packages[1..];
      if InPackage(packages[0], packageCleaned) then
        [Normalized(packages[0].testName.value)] + rest
      else
        rest
  }

  /** Required tests keep the sheet's order: the tests of a concatenation of package
      rows are the concatenation of their tests. */
  lemma {:induction false} RequiredTestsAppend(a: seq<PackageRow>, b: seq<PackageRow>, packageCleaned: string)
    ensures RequiredTests(a + b, packageCleaned)
         == RequiredTests(a, packageCleaned) + RequiredTests(b, packageCleaned)
  {
    if a == [] {
      assert a + b == b;
    } else {
      var ab := a + b;
      assert ab[0] == a[0];
      assert ab[1..] == a[1..] + b;
      RequiredTestsAppend(a[1..], b, packageCleaned);
      var tail := RequiredTests(a[1..], packageCleaned);
      var tb := RequiredTests(b, packageCleaned);
      if InPackage(a[0], packageCleaned) {
        var head := Normalized(a[0].testName.value);
        assert RequiredTests(ab, packageCleaned) == [head] + (tail + tb);
        assert RequiredTests(a, packageCleaned) == [head] + tail;
      } else {
        assert RequiredTests(ab, packageCleaned) == tail + tb;
        assert RequiredTests(a, packageCleaned) == tail;
      }
    }
  }

  /** A package has no required tests exactly when no package row names it with a test. */
  lemma {:induction false} NoRequiredTestsIff(packages: seq<PackageRow>, packageCleaned: string)
    ensures RequiredTests(packages, packageCleaned) == [] <==>
      forall row :: row in packages ==> !InPackage(row, packageCleaned)
  {
    if packages != [] {
      NoRequiredTestsIff(packages[1..], packageCleaned);
      assert forall row :: row in packages <==> row == packages[0] || row in packages[1..];
    }
  }

  /** The lab row belongs to the barcode and reports one of the required tests. */
  predicate Selected(row: LabRow, barcode: string, required: seq<string>) {
    Strip(row.barcode) == barcode && Normalized(row.testName) in required
  }

  /** The lab rows for `barcode` that report a required test, in sheet order. */
  function MatchingRows(lab: seq<LabRow>, barcode: string, required: seq<string>): (rows: seq<LabRow>)
    ensures |rows| <= |lab|
    ensures forall row :: row in rows <==> row in lab && Selected(row, barcode, required)
  {
    if lab == [] then []
    else
      var rest := MatchingRows(lab[1..], barcode, required);
      assert forall row :: row in lab <==> row == lab[0] || row in lab[1..];
      if Selected(lab[0], barcode, required) then [lab[0]] + rest else rest
  }

  /** The distinct normalized test names among the matched rows. */
  function FoundTests(rows: seq<LabRow>): (found: set<string>)
    ensures forall row :: row in rows ==> Normalized(row.testName) in found
    ensures forall t :: t in found ==> exists row :: row in rows && t == Normalized(row.testName)
  {
    set row | row in rows :: Normalized(row.testName)
  }

  /** The required tests, in package order, that were not found. */
  function MissingTests(required: seq<string>, found: set<string>): (missing: seq<string>)
    ensures |missing| <= |required|
    ensures forall t :: t in missing <==> t in required && t !in found
  {
    if required == [] then []
    else
      var rest := MissingTests(required[1..], found);
      assert forall t :: t in required <==> t == required[0] || t in required[1..];
      if required[0] !in found then [required[0]] + rest else rest
  }

  /** Filtering keeps sheet order: the matches of a concatenation are the
      concatenation of the matches. */
  lemma {:induction false} MatchingRowsAppend(a: seq<LabRow>, b: seq<LabRow>, barcode: string, required: seq<string>)
    ensures MatchingRows(a + b, barcode, required)
         == MatchingRows(a, barcode, required) + MatchingRows(b, barcode, required)
  {
    if a == [] {
      assert a + b == b;
    } else {
      var ab := a + b;
      assert ab[0] == a[0];
      assert ab[1..] == a[1..] + b;
      MatchingRowsAppend(a[1..], b, barcode, required);
      var tail := MatchingRows(a[1..], barcode, required);
      var mb := MatchingRows(b, barcode, required);
      if Selected(a[0], barcode, required) {
        assert MatchingRows(ab, barcode, required) == [a[0]] + (tail + mb);
        assert MatchingRows(a, barcode, required) == [a[0]] + tail;
      } else {
        assert MatchingRows(ab, barcode, required) == tail + mb;
        assert MatchingRows(a, barcode, required) == tail;
      }
    }
  }

  /** The missing tests keep the package's order: missing tests of a concatenation are
      the concatenation of the missing tests. */
  lemma {:induction false} MissingTestsAppend(a: seq<string>, b: seq<string>, found: set<string>)
    ensures MissingTests(a + b, found) == MissingTests(a, found) + MissingTests(b, found)
  {
    if a != [] {
      assert (a + b)[1..] == a[1..] + b;
      MissingTestsAppend(a[1..], b, found);
    } else {
      assert a + b == b;
    }
  }

  /** Required tests are partitioned: a required test is missing exactly when no lab row of
      the barcode reports it, and found (among the matched rows) exactly when one does. */
  lemma FoundOrMissing(lab: seq<LabRow>, barcode: string, required: seq<string>, t: string)
    requires t in required
    ensures var found := FoundTests(MatchingRows(lab, barcode, required));
      && (t in found <==> exists row :: row in lab && Strip(row.barcode) == barcode && Normalized(row.testName) == t)
      && (t in MissingTests(required, found) <==> t !in found)
  {
    var rows := MatchingRows(lab, barcode, required);
    if exists row :: row in lab && Strip(row.barcode) == barcode && Normalized(row.testName) == t {
      var row :| row in lab && Strip(row.barcode) == barcode && Normalized(row.testName) == t;
      assert row in rows;
    }
  }

  /** The missing tests are exactly the required tests that no lab row of the barcode
      reports. */
  lemma MissingIffUnreported(lab: seq<LabRow>, barcode: string, required: seq<string>)
    ensures var missing := MissingTests(required, FoundTests(MatchingRows(lab, barcode, required)));
      forall t :: t in missing <==>
        t in required && forall row :: row in lab && Strip(row.barcode) == barcode ==> Normalized(row.testName) != t
  {
    forall t | t in required {
      FoundOrMissing(lab, barcode, required, t);
    }
  }

  /** Every test found among the matched rows is a required test. */
  lemma FoundAreRequired(lab: seq<LabRow>, barcode: string, required: seq<string>)
    ensures forall t :: t in FoundTests(MatchingRows(lab, barcode, required)) ==> t in required
  {
  }
}
