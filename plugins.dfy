/**
 The README generator (`MetadataPlugin.generate_readme` in
 metadata_server_app/plugins.py): a metadata record becomes a plain-text
 attachment of three Dublin Core `<meta>` tags (Creator, Format,
 Description), named after the data provider.

 `generate_readme` builds the text with `textwrap.dedent` over an indented
 template and strips it. When none of the three inserted values contains a
 newline, every template line keeps the same eight-space indent, so the
 result is the three tags joined by "\n"; that is the case modelled here
 (`NewlineFree`). `ParseReadme` reads such a text back and is the partner
 the generator is proved against.
 */
module Plugins {
  import opened Wrappers
  import opened Text
  import opened Models

  /** The `data_format` value that selects the free-text alternate format. */
  const OtherFormat := "other"

  const CreatorTag := "DC.Creator"
  const FormatTag := "DC.Format"
  const DescriptionTag := "DC.Description"

  /** The format to report: the alternate format under "other", otherwise `data_format` itself. */
  function EffectiveFormat(m: MetaData): Option<string>
  {
    if m.dataFormat == OtherFormat then m.otherDataFormat else Some(m.dataFormat)
  }

  /** How an f-string renders a value that may be `None`. */
  function PyStr(v: Option<string>): string
  {
    match v
    case None => "None"
    case Some(s) => s
  }

  /** The three values a README carries, in line order. */
  datatype ReadmeFields = ReadmeFields(creator: string, format: string, description: string)

  function FieldsOf(m: MetaData): ReadmeFields
  {
    ReadmeFields(m.dataProvider, PyStr(EffectiveFormat(m)), m.degreeOfAggregation)
  }

  predicate FieldsNewlineFree(f: ReadmeFields)
  {
    '\n' !in f.creator && '\n' !in f.format && '\n' !in f.description
  }

  /** The inserted values hold no line break, so the template's indentation is uniform. */
  predicate NewlineFree(m: MetaData)
  {
    FieldsNewlineFree(FieldsOf(m))
  }

  /** One HTML meta tag; the content is inserted as it is, with no escaping. */
  function MetaTag(name: string, content: string): string
  {
    "<meta name=\"" + name + "\" content=\"" + content + "\">"
  }

  function TagPrefix(name: string): string
  {
    "<meta name=\"" + name + "\" content=\""
  }

  const TagSuffix := "\">"

  function TagLines(f: ReadmeFields): seq<string>
  {
    [MetaTag(CreatorTag, f.creator), MetaTag(FormatTag, f.format), MetaTag(DescriptionTag, f.description)]
  }

  function Render(f: ReadmeFields): string
  {
    Join(TagLines(f), '\n')
  }

  /** A rendering is the three tags with a line break between neighbours, and nothing before or after. */
  lemma RenderIsThreeLines(f: ReadmeFields)
    ensures Render(f) == MetaTag(CreatorTag, f.creator) + "\n" + MetaTag(FormatTag, f.format) + "\n" + MetaTag(DescriptionTag, f.description)
  {
    var lines := TagLines(f);
    assert lines[1..][1..] == [lines[2]];
    assert Join(lines[1..], '\n') == lines[1] + "\n" + lines[2];
  }

  /** The README text: the dedented, stripped template, for values without line breaks. */
  function Readme(m: MetaData): string
    requires NewlineFree(m)
  {
    Render(FieldsOf(m))
  }

  /** The reply to a download: body, content type, and the `Content-Disposition` header. */
  datatype Response = Response(body: string, contentType: string, contentDisposition: string)

  const DispositionPrefix := "attachment; filename=\""
  const DispositionSuffix := "\""

  function ReadmeFilename(m: MetaData): string
  {
    "README_" + m.dataProvider + ".txt"
  }

  /** The value assigned to the `Content-Disposition` header. */
  function DispositionHeader(m: MetaData): string
  {
    DispositionPrefix + ReadmeFilename(m) + DispositionSuffix
  }

  /** The header holds a line break exactly when the provider does. */
  lemma HeaderLineBreaks(m: MetaData)
    ensures ('\r' in DispositionHeader(m) || '\n' in DispositionHeader(m))
      <==> ('\r' in m.dataProvider || '\n' in m.dataProvider)
  {
    var pre := DispositionPrefix + "README_";
    var post := ".txt" + DispositionSuffix;
    assert DispositionHeader(m) == pre + m.dataProvider + post;
    assert '\r' !in pre && '\n' !in pre;
    assert '\r' !in post && '\n' !in post;
  }

  /** Django refuses to set a header whose value holds a line break, raising `BadHeaderError`. */
  datatype HeaderError = BadHeaderError(header: string)

  /** `generate_readme`: the README as a plain-text attachment, or the error that setting its header raises. */
  function GenerateReadme(m: MetaData): Result<Response, HeaderError>
    requires NewlineFree(m)
  {
    var header := DispositionHeader(m);
    if '\r' in header || '\n' in header then Err(BadHeaderError(header))
    else Ok(Response(Readme(m), "text/plain", header))
  }

  // Reading a README back.

  /** The content of a line `<meta name="name" content="...">`, taken between the fixed prefix and `">`. */
  function ParseMetaTag(name: string, line: string): Option<string>
  {
    var p := TagPrefix(name);
    if |line| >= |p| + |TagSuffix| && line[..|p|] == p && line[|line| - |TagSuffix|..] == TagSuffix
    then Some(line[|p|..|line| - |TagSuffix|])
    else None
  }

  /** The three values of a README text, or None when it is not three tags in the fixed order. */
  function ParseReadme(text: string): Option<ReadmeFields>
  {
    var lines := Split(text, '\n');
    if |lines| != 3 then None
    else
      match (ParseMetaTag(CreatorTag, lines[0]), ParseMetaTag(FormatTag, lines[1]), ParseMetaTag(DescriptionTag, lines[2]))
      case (Some(c), Some(f), Some(d)) => Some(ReadmeFields(c, f, d))
      case _ => None
  }

  /** The file name inside a `Content-Disposition: attachment; filename="..."` header. */
  function AttachmentFilename(header: string): Option<string>
  {
    var p := DispositionPrefix;
    if |header| >= |p| + |DispositionSuffix| && header[..|p|] == p
       && header[|header| - |DispositionSuffix|..] == DispositionSuffix
    then Some(header[|p|..|header| - |DispositionSuffix|])
    else None
  }

  // Properties.

  /** Reading a tag back yields its content, whatever characters it holds. */
  lemma MetaTagRoundTrip(name: string, content: string)
    ensures ParseMetaTag(name, MetaTag(name, content)) == Some(content)
  {
  }

  /** A line that reads as a tag is exactly that tag. */
  lemma MetaTagParsed(name: string, line: string, content: string)
    requires ParseMetaTag(name, line) == Some(content)
    ensures MetaTag(name, content) == line
  {
  }

  lemma MetaTagNewlineFree(name: string, content: string)
    requires '\n' !in name && '\n' !in content
    ensures '\n' !in MetaTag(name, content)
  {
  }

  /** The text splits on "\n" into exactly the three tags, Creator, Format, Description, none of them empty. */
  lemma ReadmeLines(m: MetaData)
    requires NewlineFree(m)
    ensures Split(Readme(m), '\n') == [
      MetaTag(CreatorTag, m.dataProvider),
      MetaTag(FormatTag, PyStr(EffectiveFormat(m))),
      MetaTag(DescriptionTag, m.degreeOfAggregation)]
    ensures Readme(m)[0] == '<' && Readme(m)[|Readme(m)| - 1] == '>'
  {
    var f := FieldsOf(m);
    MetaTagNewlineFree(CreatorTag, f.creator);
    MetaTagNewlineFree(FormatTag, f.format);
    MetaTagNewlineFree(DescriptionTag, f.description);
    SplitJoin(TagLines(f), '\n');
    RenderIsThreeLines(f);
    var text := Readme(m);
    var first := MetaTag(CreatorTag, f.creator);
    var last := MetaTag(DescriptionTag, f.description);
    assert text[0] == first[0];
    assert text[|text| - 1] == last[|last| - 1];
  }

  /** Reading the README back gives each value exactly as stored: nothing is escaped or altered. */
  lemma ReadmeRoundTrip(m: MetaData)
    requires NewlineFree(m)
    ensures ParseReadme(Readme(m)) == Some(ReadmeFields(m.dataProvider, PyStr(EffectiveFormat(m)), m.degreeOfAggregation))
  {
    ReadmeLines(m);
    MetaTagRoundTrip(CreatorTag, m.dataProvider);
    MetaTagRoundTrip(FormatTag, PyStr(EffectiveFormat(m)));
    MetaTagRoundTrip(DescriptionTag, m.degreeOfAggregation);
  }

  /** Any text that reads back as a README is exactly the rendering of what it reads as. */
  lemma ParseReadmeSound(text: string, f: ReadmeFields)
    requires ParseReadme(text) == Some(f)
    ensures FieldsNewlineFree(f)
    ensures Render(f) == text
  {
    var lines := Split(text, '\n');
    MetaTagParsed(CreatorTag, lines[0], f.creator);
    MetaTagParsed(FormatTag, lines[1], f.format);
    MetaTagParsed(DescriptionTag, lines[2], f.description);
    assert TagLines(f) == lines;
    JoinSplit(text, '\n');
    assert '\n' !in lines[0] && '\n' !in lines[1] && '\n' !in lines[2];
    assert f.creator == lines[0][|TagPrefix(CreatorTag)|..|lines[0]| - 2];
    assert f.format == lines[1][|TagPrefix(FormatTag)|..|lines[1]| - 2];
    assert f.description == lines[2][|TagPrefix(DescriptionTag)|..|lines[2]| - 2];
  }

  /** The Format line carries the alternate format under "other" (rendered `None` when absent), otherwise `data_format`. */
  lemma FormatLineContent(m: MetaData)
    requires NewlineFree(m)
    ensures ParseReadme(Readme(m)).Some?
    ensures m.dataFormat == "other" ==> ParseReadme(Readme(m)).value.format == PyStr(m.otherDataFormat)
    ensures m.dataFormat != "other" ==> ParseReadme(Readme(m)).value.format == m.dataFormat
  {
    ReadmeRoundTrip(m);
  }

  /** Unless the format is "other", the alternate format never affects the response. */
  lemma OtherDataFormatIgnored(m: MetaData, alt: Option<string>)
    requires m.dataFormat != "other"
    requires NewlineFree(m)
    ensures NewlineFree(m.(otherDataFormat := alt))
    ensures GenerateReadme(m.(otherDataFormat := alt)) == GenerateReadme(m)
  {
  }

  /** The alternate format is never checked: blank gives an empty Format content, absent gives "None". */
  lemma AlternateFormatUnchecked(m: MetaData)
    requires m.dataFormat == "other"
    requires NewlineFree(m)
    ensures |Split(Readme(m), '\n')| == 3
    ensures m.otherDataFormat == Some("") ==> Split(Readme(m), '\n')[1] == "<meta name=\"DC.Format\" content=\"\">"
    ensures m.otherDataFormat == None ==> Split(Readme(m), '\n')[1] == "<meta name=\"DC.Format\" content=\"None\">"
  {
    ReadmeLines(m);
    TagText(m.dataProvider, PyStr(EffectiveFormat(m)), m.degreeOfAggregation);
  }

  /** The response: `text/plain`, a body reading back as the record's values, an attachment named `README_<provider>.txt`. */
  lemma ResponseShape(m: MetaData)
    requires NewlineFree(m)
    ensures GenerateReadme(m).Ok? <==> '\r' !in m.dataProvider
    ensures GenerateReadme(m).Ok? ==> GenerateReadme(m).value.contentType == "text/plain"
    ensures GenerateReadme(m).Ok? ==> ParseReadme(GenerateReadme(m).value.body) == Some(FieldsOf(m))
    ensures AttachmentFilename(DispositionHeader(m)) == Some("README_" + m.dataProvider + ".txt")
    ensures GenerateReadme(m).Ok? ==> GenerateReadme(m).value.contentDisposition == DispositionHeader(m)
    ensures GenerateReadme(m).Err? ==> GenerateReadme(m).error == BadHeaderError(DispositionHeader(m))
  {
    ReadmeRoundTrip(m);
    HeaderLineBreaks(m);
    var h := DispositionHeader(m);
    var name := ReadmeFilename(m);
    assert h == DispositionPrefix + name + DispositionSuffix;
    assert h[..|DispositionPrefix|] == DispositionPrefix;
    assert h[|h| - |DispositionSuffix|..] == DispositionSuffix;
    assert h[|DispositionPrefix|..|h| - |DispositionSuffix|] == name;
  }

  /**
   Records that agree on provider, effective format text and aggregation give the same outcome, so
   nothing else (the id included) is read; and equal responses come only from records that agree on them.
   */
  lemma ResponseDeterminedByFields(m1: MetaData, m2: MetaData)
    requires NewlineFree(m1) && NewlineFree(m2)
    ensures FieldsOf(m1) == FieldsOf(m2) ==> GenerateReadme(m1) == GenerateReadme(m2)
    ensures GenerateReadme(m1).Ok? && GenerateReadme(m1) == GenerateReadme(m2) ==> FieldsOf(m1) == FieldsOf(m2)
  {
    if GenerateReadme(m1).Ok? && GenerateReadme(m1) == GenerateReadme(m2) {
      ReadmeRoundTrip(m1);
      ReadmeRoundTrip(m2);
    }
  }

  /** A carriage return in the provider makes the header assignment fail, whatever the other fields hold. */
  lemma CarriageReturnInProviderRejected(m: MetaData)
    requires NewlineFree(m)
    requires '\r' in m.dataProvider
    ensures GenerateReadme(m) == Err(BadHeaderError(DispositionHeader(m)))
  {
    HeaderLineBreaks(m);
  }

  /** A valid record's Format content fits the 20-character bound of both format fields. */
  lemma ValidFormatContentFits(m: MetaData)
    requires Valid(m)
    ensures |PyStr(EffectiveFormat(m))| <= 20
  {
  }

  /** The three tag lines spelled out. */
  lemma TagText(creator: string, format: string, description: string)
    ensures MetaTag(CreatorTag, creator) == "<meta name=\"DC.Creator\" content=\"" + creator + "\">"
    ensures MetaTag(FormatTag, format) == "<meta name=\"DC.Format\" content=\"" + format + "\">"
    ensures MetaTag(DescriptionTag, description) == "<meta name=\"DC.Description\" content=\"" + description + "\">"
  {
  }

  /** The README is the template's three lines with the values inserted, no indentation and no blank line around them. */
  lemma ReadmeTemplateText(m: MetaData)
    requires NewlineFree(m)
    ensures Readme(m) ==
      "<meta name=\"DC.Creator\" content=\"" + m.dataProvider + "\">\n"
      + "<meta name=\"DC.Format\" content=\"" + PyStr(EffectiveFormat(m)) + "\">\n"
      + "<meta name=\"DC.Description\" content=\"" + m.degreeOfAggregation + "\">"
  {
    var f := FieldsOf(m);
    RenderIsThreeLines(f);
    TagText(f.creator, f.format, f.description);
    var a := "<meta name=\"DC.Creator\" content=\"" + f.creator;
    var b := "<meta name=\"DC.Format\" content=\"" + f.format;
    var c := "<meta name=\"DC.Description\" content=\"" + f.description;
    assert Render(f) == (a + "\">") + "\n" + (b + "\">") + "\n" + (c + "\">");
    assert a + "\">" + "\n" == a + "\">\n";
    assert b + "\">" + "\n" == b + "\">\n";
  }

  /** The worked example: a listed format reaches the Format line as it is. */
  lemma CsvExample(m: MetaData)
    requires m == MetaData(1, "Acme", "csv", None, "row-level")
    ensures NewlineFree(m)
    ensures Readme(m) ==
      "<meta name=\"DC.Creator\" content=\"" + "Acme" + "\">\n"
      + "<meta name=\"DC.Format\" content=\"" + "csv" + "\">\n"
      + "<meta name=\"DC.Description\" content=\"" + "row-level" + "\">"
  {
    ReadmeTemplateText(m);
  }

  /** The worked example: under "other" the alternate format is reported. */
  lemma ParquetExample(m: MetaData)
    requires m == MetaData(2, "Acme", "other", Some("parquet"), "row-level")
    ensures NewlineFree(m)
    ensures Readme(m) ==
      "<meta name=\"DC.Creator\" content=\"" + "Acme" + "\">\n"
      + "<meta name=\"DC.Format\" content=\"" + "parquet" + "\">\n"
      + "<meta name=\"DC.Description\" content=\"" + "row-level" + "\">"
  {
    ReadmeTemplateText(m);
  }
}
