/** The values the operator typed into the form, and the presence check that gates
    report generation. */
module Forms {
  import opened Text

  /** The form as the widgets hold it (field names follow the form, including its
      spelling "recieved"). */
  datatype Form = Form(
    barcode: string,
    name: string,
    gender: string,
    dob: string,
    package: string,
    collectedOn: string,
    reportOn: string,
    recievedOn: string,
    hospitalNumber: string,
    address: string)

  /** Every field is read with `.strip()` before use. */
  function Cleaned(f: Form): Form
  {
    Form(Strip(f.barcode), Strip(f.name), Strip(f.gender), Strip(f.dob), Strip(f.package),
         Strip(f.collectedOn), Strip(f.reportOn), Strip(f.recievedOn),
         Strip(f.hospitalNumber), Strip(f.address))
  }

  /** The eight fields generation insists on; name and gender are optional. */
  predicate HasRequiredFields(c: Form) {
    && c.barcode != "" && c.dob != "" && c.package != "" && c.collectedOn != ""
    && c.reportOn != "" && c.recievedOn != "" && c.hospitalNumber != "" && c.address != ""
  }

  /** A raw form passes the presence check exactly when none of the eight required
      fields is blank or whitespace only. */
  lemma RequiredFieldsIffNotBlank(f: Form)
    ensures HasRequiredFields(Cleaned(f)) <==>
      && !AllSpace(f.barcode) && !AllSpace(f.dob) && !AllSpace(f.package)
      && !AllSpace(f.collectedOn) && !AllSpace(f.reportOn) && !AllSpace(f.recievedOn)
      && !AllSpace(f.hospitalNumber) && !AllSpace(f.address)
  {
    StripSpec(f.barcode);
    StripSpec(f.dob);
    StripSpec(f.package);
    StripSpec(f.collectedOn);
    StripSpec(f.reportOn);
    StripSpec(f.recievedOn);
    StripSpec(f.hospitalNumber);
    StripSpec(f.address);
  }
}
