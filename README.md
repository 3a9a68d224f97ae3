# metadata_server: the metadata record and its README generator

A small web application records dataset metadata (who provides the data, its
format, how aggregated it is) and offers each record as a README file of
Dublin Core `<meta>` tags. This project models the two parts of it that hold
logic and proves what they do:

- `Models` (`models.dfy`): the `MetaData` record, the `max_length` bound and
  optionality of each of its four fields, Django's per-field validation
  errors derived from those declarations, and the 13-entry
  `data_format_choices` list.
- `Plugins` (`plugins.dfy`): `MetadataPlugin.generate_readme`, which picks
  the effective format and renders the Creator, Format and Description lines
  (Dublin Core Metadata Element Set 1.1, ISO 15836) into a `text/plain`
  attachment named `README_<data_provider>.txt`. `ParseReadme` reads such a
  text back; it is the inverse the generator is proved against.
- `Text` (`text.dfy`): Python's `split` and `join` on one character, with
  the round-trip lemmas between them. `Wrappers` (`wrappers.dfy`): `Option`,
  the model of a value that may be `None`.

Three facts about the code that shape the model:

- The choice list is declared (models.py:4-18) but never passed to the
  `data_format` field (models.py:22), so any non-empty string of at most 20
  characters is accepted (`Models.DataFormatNotTiedToChoices`).
- No rule ties `other_data_format` to a format of "other": the field is
  optional whatever the format is (models.py:23,
  `Models.OtherDataFormatOptional`), and the generator then reports an empty
  format or the text `None` (`Plugins.AlternateFormatUnchecked`).
- The attachment is named after the data provider (plugins.py:27,
  `Plugins.ResponseShape`).

## Model

| member | source | states |
|---|---|---|
| Models.CheckField | metadata_server_app/models.py:21-24 | a field yields at most one error, and none exactly when a missing value is allowed (`null=True`), a present value is non-empty or allowed blank (`blank=True`), and within its `max_length`; a missing value in a field without `null=True` is a null error |
| Models.FieldErrorsEmptyIffValid | metadata_server_app/models.py:21-24 | validation reports no error if and only if provider (1..100), format (1..20), alternate format (absent or at most 20) and aggregation (1..100) all meet their declarations |
| Models.FieldErrorsJustified | metadata_server_app/models.py:21-24 | every reported error names a field that really is missing, blank or over its bound, with the declared limit and the actual length; every field that breaks its declaration is reported; at most four errors |
| Models.DataFormatChoicesShape | metadata_server_app/models.py:4-18 | the choice list has 13 distinct entries, each value equal to its label, and "other" is one of them |
| Models.ChoiceFitsDataFormat | metadata_server_app/models.py:4-22 | every listed format has 1 to 20 characters, so putting it in `data_format` keeps a valid record valid |
| Models.DataFormatNotTiedToChoices | metadata_server_app/models.py:22 | any non-empty format of at most 20 characters is accepted, including one not in the list ("parquet") |
| Models.OtherDataFormatOptional | metadata_server_app/models.py:23 | the alternate format may be absent or blank in a valid record, even when the format is "other" |
| Plugins.ReadmeLines | metadata_server_app/plugins.py:21-25 | the text splits on newlines into exactly three lines, Creator, Format, Description in that order, starting with `<` and ending with `>` (no blank line or indentation around them) |
| Plugins.ReadmeTemplateText | metadata_server_app/plugins.py:21-25 | the text is the template's three lines, with provider, effective format and aggregation inserted, joined by single newlines |
| Plugins.ReadmeRoundTrip | metadata_server_app/plugins.py:22-24 | reading the README back yields exactly the provider, the effective format text and the aggregation: no escaping of quotes or angle brackets, nothing altered |
| Plugins.ParseReadmeSound | metadata_server_app/plugins.py:21-25 | any text that reads back as a README has newline-free values and is exactly their rendering, so generator and reader are inverse |
| Plugins.FormatLineContent | metadata_server_app/plugins.py:16-23 | the Format content is `other_data_format` when the format is "other" (rendered `None` when absent) and `data_format` otherwise |
| Plugins.OtherDataFormatIgnored | metadata_server_app/plugins.py:16-19 | when the format is not "other", changing the alternate format leaves the whole response unchanged |
| Plugins.AlternateFormatUnchecked | metadata_server_app/plugins.py:16-23 | under "other", a blank alternate format gives `content=""` and an absent one gives `content="None"` on the Format line |
| Plugins.ResponseShape | metadata_server_app/plugins.py:26-27 | a response is produced exactly when the provider holds no carriage return; it is `text/plain`, its body reads back as the record's values, and its `Content-Disposition` header names the attachment `README_` + provider + `.txt`; otherwise `BadHeaderError` carries that header |
| Plugins.HeaderLineBreaks | metadata_server_app/plugins.py:27 | the `Content-Disposition` value holds a line break exactly when the provider does |
| Plugins.CarriageReturnInProviderRejected | metadata_server_app/plugins.py:27 | a provider with a carriage return makes the header assignment raise `BadHeaderError`, whatever the other fields hold |
| Plugins.ResponseDeterminedByFields | metadata_server_app/plugins.py:15-29 | records that agree on provider, effective format text and aggregation give the same outcome (the id and everything else are not read), and equal responses come only from records that agree on them |
| Plugins.ValidFormatContentFits | metadata_server_app/plugins.py:16-19 | for a valid record the Format content has at most 20 characters |
| Plugins.CsvExample | metadata_server_app/plugins.py:15-25 | provider "Acme", format "csv", aggregation "row-level" gives the three lines with `content="csv"` on the Format line |
| Plugins.ParquetExample | metadata_server_app/plugins.py:15-25 | format "other" with alternate "parquet" gives `content="parquet"` on the Format line |

## Left out

- Plugins.Readme: defined only when provider, effective format text and aggregation contain no newline. Then `textwrap.dedent` removes the same eight-space indent from every line and `strip` removes the outer line breaks. With a newline inside a value the common indent changes, which is library behaviour not modelled here.
- Plugins.GenerateReadme: carries the same newline-free precondition as `Readme`.
- The plugin registry (`MetadataPluginSpec`, the hook markers, `get_plugin_manager`): plumbing of the pluggy library; the generator is modelled as a plain function.
- `HttpResponse` internals: the response is a record of body, content type and `Content-Disposition` header. The encoding of the body to bytes is not modelled.
- Plugins.ResponseShape: for a provider with characters outside Latin-1, Django MIME-encodes the header value (`=?utf-8?b?...?=`), so the header sent does not literally hold `README_<provider>.txt`; the model keeps the unencoded value. A carriage return in the provider is modelled (`BadHeaderError`); a newline is excluded by the precondition shared with `Readme`.
- Request handling, form rendering, redirects, routing and saving (views.py, urls.py, forms.py): web-framework I/O. forms.py adds no validation of its own.
- The `strip=True` keyword at models.py:21, 22 and 24: Django's model `CharField` has no `strip` parameter, so as written the class body raises `TypeError` when it runs and the record class never loads (read from Django's API, not executed). The model follows what the `max_length`, `blank` and `null` declarations evidently intend. Whitespace trimming of submitted values comes from the form's `forms.CharField` default and is not modelled; values are taken as already cleaned.
- A conditional "other requires an alternate format" rule and enumeration membership: neither exists in the code.
- Character counting: lengths count Unicode scalar values, as Python's `len` counts code points; database-specific enforcement of `max_length` is not modelled.
