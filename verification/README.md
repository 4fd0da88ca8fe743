# Lab report assembly, modelled in Dafny

The report generator is a desktop form. The operator picks a specimen barcode and a
test package, and the program fills a Word template with that barcode's lab results.
This project models the logic behind the form as pure functions over sequences of
spreadsheet rows:

- **Result normaliser** (`get_altered_result`). A CRP reading below 6 is displayed as
  `&lt;6`. An RF reading below 10 is displayed as `&lt;10`. Every other value is
  passed through unchanged.
- **Report assembly** (the middle of `generate_report`). The steps are:
  - strip the form fields and check that the eight required ones are present;
  - resolve the package's required tests (stripped, then lower-cased);
  - select the lab rows of the barcode that report a required test;
  - list the missing tests;
  - build the result table and the `<key>_value` / `<key>_unit` template fields;
  - merge everything into the template context.
- **Output names.** The template is `templates/template_<package>.docx` and the report
  is `reports/report_<barcode>.docx`. The template-existence check is part of the model.

Modules, one per concern:

- `Outcomes` (outcomes.dfy): `Option` and `Result`.
- `Text` (text.dfy): Python's `str.strip()` (the full `isspace` set), `str.lower()`,
  and the key substitution `re.sub(r'[^a-zA-Z0-9_]', '_', ...)`.
- `Normalizer` (normalizer.dfy): a cell is `Num(real) | Str(string) | Blank`. `Blank`
  is an empty spreadsheet cell, which pandas reads as NaN. Python's `float()` on strings
  is a parameter `parse: string -> Option<real>`, where `None` stands for `ValueError`.
- `Tables` (tables.dfy): package rows, lab rows, required/matching/found/missing tests.
- `Forms` (forms.dfy): the form record, field stripping and the presence check.
- `ReportContext` (context.dfy): the result table, the template keys, `named_results`
  and the merged context dictionary.
- `Assembly` (assembly.dfy): `Assemble`, with the errors `MissingFields`,
  `NoTestsForPackage`, `NoData` and `TemplateNotFound`.
- `Output` (output.dfy): the template and report paths, and `Generate`.

Two facts about the program shape the model:

- A per-test key never displaces a fixed context field. Every per-test key ends in
  `_value` or `_unit`, and none of the eleven fixed fields does. So a test named
  "Patient Name" yields `patient_name_value`, not `patient_name`
  (`ReportContext.BuildContext`).
- An empty cell (pandas NaN) is truthy, and `float()` accepts it. NaN is below no
  bound, so an empty value comes back unchanged (`Normalizer.PassThrough`).

## Model

| member | source | states |
|---|---|---|
| Text.TrimLeftSpec | generate_report_gui.py:126-136 | the left trim drops a prefix made only of whitespace and keeps a suffix that does not start with whitespace |
| Text.TrimRightSpec | generate_report_gui.py:126-136 | the right trim drops a suffix made only of whitespace and keeps a prefix that does not end with whitespace |
| Text.StripSpec | generate_report_gui.py:126-136 | `.strip()` returns the infix of its input that has only whitespace on either side and that neither starts nor ends with whitespace; the result is empty exactly when the input is all whitespace |
| Text.StripIdempotent | generate_report_gui.py:126-136 | stripping an already stripped field changes nothing |
| Text.StripAfterLowerOfStripped | generate_report_gui.py:130-131 | lower-casing a stripped string exposes no whitespace at its ends, so `package.lower().strip()` of the stripped package strips nothing more |
| Text.Lower | generate_report_gui.py:131 | `.lower()` keeps the length, folds each character on its own, and leaves no upper-case letter |
| Text.LowerIdempotent | generate_report_gui.py:150 | lower-casing twice is lower-casing once |
| Text.Sanitize | generate_report_gui.py:191 | the substitution keeps the length, keeps every `[a-zA-Z0-9_]` character in place, and puts `_` at every other position |
| Text.SanitizeIdempotent | generate_report_gui.py:191 | sanitising a key a second time leaves it unchanged |
| Normalizer.AlteredResult | generate_report_gui.py:15-26 | with the truthiness guard and the `< 10 or == 0` test as written: a CRP reading below 6 gives `&lt;6`, an RF reading below 10 gives `&lt;10`, and any other input comes back unchanged |
| Normalizer.CrpThreshold | generate_report_gui.py:22-23 | for test "CRP", numbers below 6 become `&lt;6` and numbers of 6 or more are returned unchanged |
| Normalizer.RfThreshold | generate_report_gui.py:24-26 | for test "RF", numbers below 10 (zero included) become `&lt;10` and numbers of 10 or more are returned unchanged |
| Normalizer.PassThrough | generate_report_gui.py:16-20 | the value is returned unchanged when the name is empty, the value is the empty string, `float()` rejects it, the cell is empty, or the name is not exactly "CRP" or "RF" |
| Normalizer.OnlyTokensIntroduced | generate_report_gui.py:15-26 | the rule returns either its input or one of the two tokens, nothing else |
| Normalizer.AlteredResultIdempotent | generate_report_gui.py:15-26 | when `float()` rejects the tokens, applying the rule to its own output changes nothing |
| Tables.RequiredTests | generate_report_gui.py:148-150 | a name is a required test exactly when some package row has the same package after strip and lower-case, has a non-empty test cell, and that test normalises to the name |
| Tables.RequiredTestsAppend | generate_report_gui.py:148-150 | required tests follow the package sheet's order |
| Tables.NoRequiredTestsIff | generate_report_gui.py:148-154 | the required list is empty exactly when no package row names the package with a test |
| Tables.MatchingRows | generate_report_gui.py:157-165 | a lab row is selected exactly when its stripped barcode equals the form's barcode and its stripped, lower-cased test name is required |
| Tables.MatchingRowsAppend | generate_report_gui.py:157-165 | selection is a stable filter: the rows of a concatenation are the concatenation of the rows, so sheet order is kept |
| Tables.MissingTests | generate_report_gui.py:169 | a test is missing exactly when it is required and not found |
| Tables.MissingTestsAppend | generate_report_gui.py:169 | missing tests follow the package's order |
| Tables.FoundOrMissing | generate_report_gui.py:157-169 | a required test is found exactly when some lab row of the barcode reports it, and it is missing exactly when it is not found, never both |
| Tables.MissingIffUnreported | generate_report_gui.py:157-169 | the missing tests are exactly the required tests that no lab row of the barcode reports |
| Tables.FoundAreRequired | generate_report_gui.py:157-168 | every found test is a required test |
| Forms.RequiredFieldsIffNotBlank | generate_report_gui.py:126-141 | the presence check passes exactly when none of barcode, dob, package, collected, reported, received, hospital number or address is blank or whitespace only |
| ReportContext.EntryOf | generate_report_gui.py:187-194 | a result line carries the stripped test name and the row's unit, and its value is the display rule applied to the row's value under the stripped name: `&lt;6` when that name is "CRP" and the reading is below 6, `&lt;10` when it is "RF" and the reading is below 10, the row's value otherwise |
| ReportContext.Entries | generate_report_gui.py:186-194 | the result table has one line per selected row, in the same order |
| ReportContext.TestKey | generate_report_gui.py:191 | the key has the name's length; at each position it holds the lower-cased character when that is in `[a-zA-Z0-9_]` and `_` otherwise, so it holds only `[a-z0-9_]` and is unchanged by a second sanitisation |
| ReportContext.Writes | generate_report_gui.py:186-193 | the dictionary writes follow the selected rows one for one, in order |
| ReportContext.WriteAll | generate_report_gui.py:192-193 | the dictionary's keys are exactly the `_value` and `_unit` keys of the writes |
| ReportContext.LaterWriteWins | generate_report_gui.py:192-193 | a write survives, both value and unit, when no later write has the same stem |
| ReportContext.LowCrpRowEntry | generate_report_gui.py:186-194 | a sheet row " CRP " with reading 4 is stripped to "CRP" before the display rule runs, so its result line shows `&lt;6`, and its fields are `crp_value` and `crp_unit` |
| ReportContext.LowCrpRowNamed | generate_report_gui.py:186-193 | that row alone puts `&lt;6` under `crp_value` and its unit under `crp_unit` |
| ReportContext.LaterRowWins | generate_report_gui.py:186-193 | a selected row's displayed value and unit reach `named_results` when no later selected row sanitises to the same key |
| ReportContext.NamedKeysFromRows | generate_report_gui.py:186-193 | the keys of `named_results` are exactly the value and unit keys of the selected rows |
| ReportContext.NamedKeysSuffixed | generate_report_gui.py:192-193 | every key of `named_results` ends in `_value` or `_unit` |
| ReportContext.FixedKeysUnsuffixed | generate_report_gui.py:197-208 | none of the eleven fixed context fields ends in `_value` or `_unit` |
| ReportContext.PatientFieldsInContext | generate_report_gui.py:197-208 | the barcode, name, gender, date of birth, hospital number and address reach the context stripped, under `barcode`, `patient_name`, `gender`, `dob`, `hospital_number` and `address` |
| ReportContext.ReportFieldsInContext | generate_report_gui.py:197-208 | the package and the collected, reported and received dates reach the context stripped, under `test_package`, `collected_on`, `report_on` and `recieved_on`, and `results` holds the result table of the matched rows |
| Assembly.AssembledContext | generate_report_gui.py:157-210 | the context of a successful assembly is the one built from the cleaned form and the lab rows matched for the package's required tests, and its missing-test list is `MissingTests` of those required tests against the matched rows' names |
| ReportContext.BuildContext | generate_report_gui.py:197-210 | the context's keys are the fixed fields plus the `named_results` keys; every fixed field keeps its own value and every per-test key keeps its `named_results` value |
| ReportContext.ContextIgnoresNameAndGender | generate_report_gui.py:197-210 | the form's name and gender affect only the `patient_name` and `gender` fields of the context |
| Assembly.Assemble | generate_report_gui.py:125-180 | assembly never fails on the template, and succeeds only when the required fields are present |
| Assembly.Lookup | generate_report_gui.py:147-154 | once the fields are present, generation fails on the package exactly when it has no required tests; otherwise the only possible error is `NoData` |
| Assembly.Collect | generate_report_gui.py:157-180 | once the package is resolved, generation fails exactly when no lab row was selected, and the error is `NoData` |
| Assembly.PackageKeyOfForm | generate_report_gui.py:130-131 | the key used to look up the package is the typed package, stripped and then lower-cased |
| Assembly.MissingFieldsFirst | generate_report_gui.py:139-141 | generation stops with `MissingFields` exactly when a required field is blank, whatever the tables hold |
| Assembly.NameAndGenderOptional | generate_report_gui.py:126-210 | forms that differ only in name and gender give the same error or both succeed, with the same missing tests, and with contexts that differ at most in `patient_name` and `gender` |
| Assembly.NoTestsIffUnknownPackage | generate_report_gui.py:147-154 | with the fields present, generation stops with `NoTestsForPackage(package)` exactly when no package row names the package with a test |
| Assembly.NoDataIffNothingFound | generate_report_gui.py:157-180 | with the fields present and the package known, generation stops with `NoData` exactly when no lab row of the barcode reports a required test, and the error lists every required test as missing |
| Assembly.MissingAllWhenNoneFound | generate_report_gui.py:168-169 | with nothing found, the missing tests are the required tests in order |
| Assembly.CollectedReport | generate_report_gui.py:157-210 | on success, the context holds the result table of the selected rows (at least one), the form's barcode, name and package, and exactly the fixed and per-test keys; the missing-test list is `MissingTests` of the required tests against the selected rows' names, so it keeps package order and duplicates (`MissingTestsAppend`), and a test is on it exactly when it is required and no lab row of the barcode reports it |
| Assembly.AssembledReport | generate_report_gui.py:138-180 | success implies the fields were present and the package has required tests, and the outcome is the collection for them |
| Output.ReportPathRoundTrip | generate_report_gui.py:222 | the barcode can be read back from its report path |
| Output.ReportPathInjective | generate_report_gui.py:222 | two barcodes give the same report path string exactly when they are equal |
| Output.Generate | generate_report_gui.py:212-222 | assembly errors pass through unchanged; after a successful assembly, generation succeeds exactly when the template exists, and a missing template gives `TemplateNotFound` with its path; on success the report is written to `reports/report_<stripped barcode>.docx` from the existing template `templates/template_<stripped package>.docx` |

## Left out

- Autofill from a barcode (`autofill_patient_info`, generate_report_gui.py lines 42-108) is a separate event
  handler and is not modelled. This includes the date-of-birth parsing with
  `datetime.strptime` and the `datetime.now()` dates. A pandas date cell is a
  `datetime`, and for such a cell line 84 reads `parsed` before it is assigned.
- `refresh_form`, the tkinter widgets and the message boxes are user-interface code.
  The model takes a `Form` value as input and returns errors as values.
- The message texts are not modelled. This covers the title-cased, comma-joined list
  of missing tests (lines 171-176). The list itself is modelled.
- Loading the three spreadsheets (lines 30-38) is file I/O. The tables are parameters.
  The barcode cell is taken as the string that `astype(str)` renders. Test and package
  cells in the lab and package sheets are taken to be strings. The package sheet's
  empty test cells are modelled, because `dropna` skips them.
- `DocxTemplate` rendering, `os.makedirs`, `doc.save` and the PDF conversion
  (lines 218-234) are foreign library calls with filesystem effects. Template
  existence is a parameter `templateExists` of `Output.Generate`. The PDF path and
  the conversion warning are not modelled.
- Value and unit cells are taken to be numbers, strings or empty. A pandas date or
  time cell (`Timestamp`, `time`) makes `float()` raise `TypeError`. Line 19 catches
  only `ValueError`, so such a cell aborts generation at line 190. That crash is not
  modelled.
- Output.ReportPathInjective: distinct barcodes give distinct path strings, not
  necessarily distinct files. On a case-insensitive file system, such as the usual
  ones on Windows and macOS where the PDF conversion runs, `ab1` and `AB1` write the
  same file. A barcode containing `/` writes into a subdirectory of `reports`. The
  file system is not modelled.
- Python `float()` on strings is a parameter, so its NaN, exponent and whitespace
  rules are not modelled. A string that parses to NaN acts like a rejected one,
  because NaN is below no bound.
- Normalizer.AlteredResult: readings are exact reals, not IEEE doubles. A value that
  differs from a threshold only by float rounding may be compared differently.
- Text.Lower: folds only the ASCII letters A-Z. Python's `str.lower()` also folds
  other Unicode letters, and can change the length for a few of them, such as U+0130.
- The dictionary's insertion order is not modelled. The context is a `map`, and only
  its keys and values matter to the template.
- The filter at lines 157-160 is repeated verbatim at lines 162-165. It is modelled
  once.
