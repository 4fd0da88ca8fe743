/** The file names around template rendering: the template chosen by package name and
    the Word report written per barcode. The rendering itself is not modelled. */
module Output {
  import opened Outcomes
  import opened Text
  import opened Normalizer
  import opened Tables
  import opened Forms
  import opened Assembly

  const TemplatePrefix: string := "templates/template_"
  const ReportPrefix: string := "reports/report_"
  const DocxSuffix: string := ".docx"

  /** `templates/template_<package>.docx`, with the package as typed (stripped, not
      lower-cased). */
  function TemplatePath(package: string): string {
    TemplatePrefix + package + DocxSuffix
  }

  /** `reports/report_<barcode>.docx`. */
  function ReportPath(barcode: string): string {
    ReportPrefix + barcode + DocxSuffix
  }

  /** The barcode a report path was made from. */
  function BarcodeOf(path: string): string
    requires |path| >= |ReportPrefix| + |DocxSuffix|
  {
    path[|ReportPrefix|..|path| - |DocxSuffix|]
  }

  /** The barcode can be read back from the report path. */
  lemma ReportPathRoundTrip(barcode: string)
    ensures |ReportPath(barcode)| == |ReportPrefix| + |barcode| + |DocxSuffix|
    ensures BarcodeOf(ReportPath(barcode)) == barcode
  {
    var p := ReportPath(barcode);
    assert p[|ReportPrefix|..|p| - |DocxSuffix|] == barcode;
  }

  /** Two barcodes give the same report path string exactly when they are equal. */
  lemma ReportPathInjective(a: string, b: string)
    ensures ReportPath(a) == ReportPath(b) <==> a == b
  {
    if ReportPath(a) == ReportPath(b) {
      ReportPathRoundTrip(a);
      ReportPathRoundTrip(b);
    }
  }

  /** What a successful generation writes: the assembled report, the template it used and
      the report file. */
  datatype Generated = Generated(report: Report, template: string, document: string)

  /** Assembly followed by the template check; `templateExists` stands for
      `os.path.exists`. Nothing is written when either step fails. */
  function Generate(form: Form, packages: seq<PackageRow>, lab: seq<LabRow>, parse: Parser,
                    templateExists: string -> bool): (out: Result<Generated, Error>)
    ensures var assembled := Assemble(form, packages, lab, parse);
      assembled.Err? ==> out == Err(assembled.error)
    ensures var assembled := Assemble(form, packages, lab, parse);
      out.Ok? ==> && assembled == Ok(out.value.report)
                  && templateExists(out.value.template)
                  && out.value.template == TemplatePath(Strip(form.package))
                  && out.value.document == ReportPath(Strip(form.barcode))
    ensures var assembled := Assemble(form, packages, lab, parse);
      assembled.Ok? ==> (out.Ok? <==> templateExists(TemplatePath(Strip(form.package))))
    ensures var assembled := Assemble(form, packages, lab, parse);
      var template := TemplatePath(Strip(form.package));
      assembled.Ok? && !templateExists(template) ==> out == Err(TemplateNotFound(template))
    ensures out.Err? && out.error.TemplateNotFound? ==>
      && Assemble(form, packages, lab, parse).Ok?
      && out.error.path == TemplatePath(Strip(form.package))
      && !templateExists(out.error.path)
  {
    match Assemble(form, packages, lab, parse)
    case Err(e) => Err(e)
    case Ok(report) =>
      var c := Cleaned(form);
      var template := TemplatePath(c.package);
      if !templateExists(template) then Err(TemplateNotFound(template))
      else Ok(Generated(report, template, ReportPath(c.barcode)))
  }
}
