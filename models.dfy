/**
 The stored metadata record (`MetaData` in metadata_server_app/models.py):
 four character fields, their length bounds and optionality, and the list of
 format choices that the model declares.

 What the record's declarations enforce is what Django's model validation
 derives from them: `max_length` on every field, a non-empty value on the
 three fields declared without `blank=True`, and nothing at all on a missing
 `other_data_format` (`blank=True, null=True`). The choice list is never
 handed to the `data_format` field, so membership in it is not enforced, and
 no rule ties `other_data_format` to a `data_format` of "other".
 */
module Models {
  import opened Wrappers

  /** `data_format_choices`: (value, label) pairs, in declaration order. */
  const DataFormatChoices: seq<(string, string)> := [
    ("csv", "csv"),
    ("xlsx", "xlsx"),
    ("tsv", "tsv"),
    ("json", "json"),
    ("xml", "xml"),
    ("txt", "txt"),
    ("md", "md"),
    ("tex", "tex"),
    ("jpeg", "jpeg"),
    ("png", "png"),
    ("zip", "zip"),
    ("tar", "tar"),
    ("other", "other")
  ]

  /** The stored values of the choice list. */
  function ChoiceValues(): set<string>
  {
    set i | 0 <= i < |DataFormatChoices| :: DataFormatChoices[i].0
  }

  /** The record's fields; `id` is the primary key Django adds to every model. */
  datatype MetaData = MetaData(
    id: nat,
    dataProvider: string,
    dataFormat: string,
    otherDataFormat: Option<string>,
    degreeOfAggregation: string)

  datatype Field = DataProvider | DataFormat | OtherDataFormat | DegreeOfAggregation

  /** The `max_length` each field is declared with. */
  function MaxLength(f: Field): nat
  {
    match f
    case DataProvider => 100
    case DataFormat => 20
    case OtherDataFormat => 20
    case DegreeOfAggregation => 100
  }

  /** The value a field holds in a record; only `other_data_format` can be `None`. */
  function FieldValue(m: MetaData, f: Field): Option<string>
  {
    match f
    case DataProvider => Some(m.dataProvider)
    case DataFormat => Some(m.dataFormat)
    case OtherDataFormat => m.otherDataFormat
    case DegreeOfAggregation => Some(m.degreeOfAggregation)
  }

  /** Fields declared without `blank=True` and `null=True` must hold a non-empty value. */
  predicate Required(f: Field)
  {
    f != OtherDataFormat
  }

  /** The record satisfies every constraint its field declarations impose. */
  predicate Valid(m: MetaData)
  {
    && 0 < |m.dataProvider| <= 100
    && 0 < |m.dataFormat| <= 20
    && (m.otherDataFormat.Some? ==> |m.otherDataFormat.value| <= 20)
    && 0 < |m.degreeOfAggregation| <= 100
  }

  /** A validation error on one field, as model validation reports it. */
  datatype FieldError =
    | Null(field: Field)
    | Blank(field: Field)
    | TooLong(field: Field, limit: nat, length: nat)

  /**
   The errors on one field: a missing value where `null=True` is not declared,
   a blank value where `blank=True` is not declared, or a value over its bound.
   */
  function CheckField(f: Field, v: Option<string>): (errs: seq<FieldError>)
    ensures |errs| <= 1
    ensures errs == [] <==>
      && (v.None? ==> !Required(f))
      && (v.Some? ==> (|v.value| > 0 || !Required(f)) && |v.value| <= MaxLength(f))
  {
    match v
    case None => if Required(f) then [Null(f)] else []
    case Some(s) =>
      if |s| == 0 && Required(f) then [Blank(f)]
      else if |s| > MaxLength(f) then [TooLong(f, MaxLength(f), |s|)]
      else []
  }

  /** Model validation of a record: the errors of each field in declaration order. */
  function FieldErrors(m: MetaData): seq<FieldError>
  {
    CheckField(DataProvider, FieldValue(m, DataProvider))
    + CheckField(DataFormat, FieldValue(m, DataFormat))
    + CheckField(OtherDataFormat, FieldValue(m, OtherDataFormat))
    + CheckField(DegreeOfAggregation, FieldValue(m, DegreeOfAggregation))
  }

  /** An error is justified by the record: its field really is blank, or really over its bound. */
  predicate Justified(m: MetaData, e: FieldError)
  {
    match e
    case Null(f) => Required(f) && FieldValue(m, f) == None
    case Blank(f) => Required(f) && FieldValue(m, f) == Some("")
    case TooLong(f, limit, length) =>
      && FieldValue(m, f).Some?
      && limit == MaxLength(f)
      && length == |FieldValue(m, f).value| > limit
  }

  /** Validation reports nothing exactly when the record is valid. */
  lemma FieldErrorsEmptyIffValid(m: MetaData)
    ensures FieldErrors(m) == [] <==> Valid(m)
  {
  }

  /**
   Every reported error names a field that breaks its declaration, every field that
   breaks its declaration is reported, and each field is reported at most once.
   */
  lemma FieldErrorsJustified(m: MetaData)
    ensures |FieldErrors(m)| <= 4
    ensures forall i :: 0 <= i < |FieldErrors(m)| ==> Justified(m, FieldErrors(m)[i])
    ensures forall f: Field :: CheckField(f, FieldValue(m, f)) != [] ==> CheckField(f, FieldValue(m, f))[0] in FieldErrors(m)
  {
  }

  /** The choice list: thirteen distinct entries, each stored value equal to its label, "other" among them. */
  lemma DataFormatChoicesShape()
    ensures |DataFormatChoices| == 13
    ensures forall i :: 0 <= i < |DataFormatChoices| ==> DataFormatChoices[i].0 == DataFormatChoices[i].1
    ensures forall i, j :: 0 <= i < j < |DataFormatChoices| ==> DataFormatChoices[i].0 != DataFormatChoices[j].0
    ensures "other" in ChoiceValues()
  {
    assert DataFormatChoices[12].0 == "other";
  }

  /** Every listed format fits the `data_format` bound: choosing it keeps a valid record valid. */
  lemma ChoiceFitsDataFormat(m: MetaData, c: string)
    requires Valid(m)
    requires c in ChoiceValues()
    ensures 0 < |c| <= MaxLength(DataFormat)
    ensures Valid(m.(dataFormat := c))
  {
  }

  /** Any non-empty `data_format` of at most 20 characters is accepted, listed or not. */
  lemma DataFormatNotTiedToChoices(m: MetaData, f: string)
    requires Valid(m)
    requires 0 < |f| <= MaxLength(DataFormat)
    ensures Valid(m.(dataFormat := f))
    ensures "parquet" !in ChoiceValues() && Valid(m.(dataFormat := "parquet"))
  {
  }

  /** `other_data_format` may be absent or blank whatever `data_format` is, "other" included. */
  lemma OtherDataFormatOptional(m: MetaData)
    requires Valid(m)
    ensures Valid(m.(otherDataFormat := None))
    ensures Valid(m.(otherDataFormat := Some("")))
    ensures Valid(m.(dataFormat := "other", otherDataFormat := None))
  {
  }
}
