/** The article form: the field clean-up applied before submitting, the
    validation schema, and the values the form starts from. The form
    library hands the schema every empty string as a missing value, so an
    empty field fails a "required" rule. */
module ArticleForm {
  import opened Values
  import opened Text
  import opened Domain

  /** `trimString`: trims strings and leaves every other value alone. */
  function TrimString(v: JsValue): (r: JsValue)
    ensures v.Str? ==> r == Str(Trim(v.s))
    ensures !v.Str? ==> r == v
  {
    if v.Str? then Str(Trim(v.s)) else v
  }

  /** Cleaning twice is cleaning once. */
  lemma TrimStringIdempotent(v: JsValue)
    ensures TrimString(TrimString(v)) == TrimString(v)
  {
    if v.Str? {
      TrimIdempotent(v.s);
    }
  }

  /** The value the schema sees for a field: an empty string is missing. */
  function Prepared(v: JsValue): JsValue
  {
    if v == Str("") then Undefined else v
  }

  /** The field holds a value once empty strings count as missing. */
  predicate Filled(v: JsValue)
  {
    !(Prepared(v).Undefined? || Prepared(v).Null?)
  }

  /** A numeric field after the schema's conversion: missing, not a
      number, or a number. Text is read with its surrounding white space
      removed. */
  datatype Cast = Missing | NotNumeric | Numeric(n: int)

  function NumberCast(v: JsValue): (c: Cast)
    ensures c.Missing? <==> !Filled(v)
    ensures v.Num? ==> c == Numeric(v.n)
  {
    match Prepared(v)
    case Undefined => Missing
    case Null => Missing
    case Num(n) => Numeric(n)
    case Bool(_) => NotNumeric
    case Str(s) => if DecimalValue(Trim(s)).Some? then Numeric(DecimalValue(Trim(s)).value) else NotNumeric
  }

  /** A field error: one of the schema's messages, or the conversion
      failure of a numeric field. */
  datatype FieldError = Says(message: string) | NotANumber

  const NameRequired: string := "El nombre del artículo es requerido"
  const DescriptionRequired: string := "La descripción es requerida"
  const NoOuterSpaces: string := "No puede tener espacios al inicio o al final"
  const QuantityBelowZero: string := "La cantidad debe ser mayor o igual a 0"
  const QuantityRequired: string := "La cantidad es requerida"
  const CategoryRequired: string := "La categoría es requerida"

  datatype ArticleValues = ArticleValues(
    id: JsValue,
    articleName: JsValue,
    description: JsValue,
    quantity: JsValue,
    category: JsValue)

  /** A required text field that must equal its own trim. */
  function TextRule(v: JsValue, required: string): (e: Option<FieldError>)
    ensures e.None? <==> Filled(v) && (v.Str? ==> v.s == Trim(v.s))
    ensures !Filled(v) ==> e == Some(Says(required))
    ensures Filled(v) && v.Str? && v.s != Trim(v.s) ==> e == Some(Says(NoOuterSpaces))
  {
    if !Filled(v) then Some(Says(required))
    else if v.Str? && v.s != Trim(v.s) then Some(Says(NoOuterSpaces))
    else None
  }

  /** A required numeric field with an optional lower bound. */
  function NumberRule(v: JsValue, required: string, hasMin: bool, min: int, belowMin: string): (e: Option<FieldError>)
    ensures e.None? <==> NumberCast(v).Numeric? && (hasMin ==> NumberCast(v).n >= min)
    ensures !Filled(v) ==> e == Some(Says(required))
    ensures NumberCast(v).NotNumeric? ==> e == Some(NotANumber)
    ensures hasMin && NumberCast(v).Numeric? && NumberCast(v).n < min ==> e == Some(Says(belowMin))
  {
    match NumberCast(v)
    case Missing => Some(Says(required))
    case NotNumeric => Some(NotANumber)
    case Numeric(n) => if hasMin && n < min then Some(Says(belowMin)) else None
  }

  const ArticleFields: set<string> := {"articleName", "description", "quantity", "category"}

  /** The rule of one field of the schema. */
  function FieldRule(v: ArticleValues, field: string): Option<FieldError>
  {
    if field == "articleName" then TextRule(v.articleName, NameRequired)
    else if field == "description" then TextRule(v.description, DescriptionRequired)
    else if field == "quantity" then NumberRule(v.quantity, QuantityRequired, true, 0, QuantityBelowZero)
    else if field == "category" then NumberRule(v.category, CategoryRequired, false, 0, "")
    else None
  }

  /** The schema: name and description required and free of surrounding
      white space, quantity a number of at least 0, category a number. The
      result maps every failing field to its error. */
  function ArticleSchemaErrors(v: ArticleValues): (errors: map<string, FieldError>)
    ensures errors.Keys <= ArticleFields
    ensures "articleName" !in errors <==> Filled(v.articleName) && (v.articleName.Str? ==> v.articleName.s == Trim(v.articleName.s))
    ensures "description" !in errors <==> Filled(v.description) && (v.description.Str? ==> v.description.s == Trim(v.description.s))
    ensures "quantity" !in errors <==> NumberCast(v.quantity).Numeric? && NumberCast(v.quantity).n >= 0
    ensures "category" !in errors <==> NumberCast(v.category).Numeric?
    ensures forall f :: f in errors ==> FieldRule(v, f) == Some(errors[f])
  {
    map f | f in ArticleFields && FieldRule(v, f).Some? :: FieldRule(v, f).value
  }

  /** The values `handleSubmit` passes on: name and description trimmed,
      every other field as entered. */
  function Cleaned(v: ArticleValues): ArticleValues
  {
    v.(articleName := TrimString(v.articleName), description := TrimString(v.description))
  }

  /** A submission: the form only submits values that pass the schema,
      and passes them on cleaned. */
  function Submitted(v: ArticleValues): (r: Option<ArticleValues>)
    ensures r.Some? <==> ArticleSchemaErrors(v) == map[]
  {
    if ArticleSchemaErrors(v) == map[] then Some(Cleaned(v)) else None
  }

  /** Cleaning changes only the name and description, and only by trimming
      them. */
  lemma CleaningTouchesOnlyText(v: ArticleValues)
    ensures Cleaned(v).id == v.id && Cleaned(v).quantity == v.quantity && Cleaned(v).category == v.category
    ensures v.articleName.Str? ==> Cleaned(v).articleName == Str(Trim(v.articleName.s))
    ensures v.description.Str? ==> Cleaned(v).description == Str(Trim(v.description.s))
    ensures Cleaned(Cleaned(v)) == Cleaned(v)
  {
    TrimStringIdempotent(v.articleName);
    TrimStringIdempotent(v.description);
  }

  /** Since the schema already refuses surrounding white space, the
      clean-up never changes a submission: what is sent is exactly what
      was validated. */
  lemma SubmittedAsValidated(v: ArticleValues)
    requires ArticleSchemaErrors(v) == map[]
    ensures Submitted(v) == Some(v)
  {
    assert "articleName" !in ArticleSchemaErrors(v);
    assert "description" !in ArticleSchemaErrors(v);
  }

  /** A name padded with white space is refused, however the other fields
      are filled. */
  lemma PaddedNameRefused(v: ArticleValues)
    requires v.articleName.Str? && v.articleName.s != "" && v.articleName.s[0] == ' '
    ensures ArticleSchemaErrors(v)["articleName"] == Says(NoOuterSpaces)
  {
    var s := v.articleName.s;
    assert Trim(s) != s by {
      assert IsSpace(s[0]);
      assert |Trim(s)| <= |TrimStart(s)| < |s|;
    }
    assert TextRule(v.articleName, NameRequired) == Some(Says(NoOuterSpaces));
    assert "articleName" in ArticleSchemaErrors(v);
  }

  /** `isEditing`. */
  predicate IsEditing(article: Option<Article>)
  {
    article.Some?
  }

  /** The values the form starts from: those of the article being edited,
      where falsy ones fall back to null, "", 0 and "". */
  function InitialValues(article: Option<Article>): (v: ArticleValues)
    ensures article.None? ==> v == ArticleValues(Null, Str(""), Str(""), Num(0), Str(""))
    ensures article.Some? ==>
      && v.id == (if article.value.id != 0 then Num(article.value.id) else Null)
      && v.articleName == Str(OrElse(article.value.articleName, ""))
      && v.description == Str(OrElse(article.value.description, ""))
      && v.quantity == Num(article.value.quantity)
      && v.category == (if article.value.category.Some? && article.value.category.value.id != 0
                        then Num(article.value.category.value.id) else Str(""))
  {
    if article.None? then ArticleValues(Null, Str(""), Str(""), Num(0), Str(""))
    else
      var a := article.value;
      ArticleValues(
        if a.id != 0 then Num(a.id) else Null,
        Str(OrElse(a.articleName, "")),
        Str(OrElse(a.description, "")),
        Num(a.quantity),
        if a.category.Some? && a.category.value.id != 0 then Num(a.category.value.id) else Str(""))
  }

  /** A new form fails on name, description and category, never on its
      starting quantity 0. */
  lemma NewFormNeedsInput()
    ensures var e := ArticleSchemaErrors(InitialValues(None));
      && e["articleName"] == Says(NameRequired)
      && e["description"] == Says(DescriptionRequired)
      && e["category"] == Says(CategoryRequired)
      && "quantity" !in e
  {
  }

  /** Editing an article whose name and description are present and
      trimmed, whose stock is not negative and whose category has a
      non-zero id starts from values the schema accepts. */
  lemma WellFormedArticleStartsValid(a: Article)
    requires Present(a.articleName) && a.articleName.value == Trim(a.articleName.value)
    requires Present(a.description) && a.description.value == Trim(a.description.value)
    requires a.quantity >= 0
    requires a.category.Some? && a.category.value.id != 0
    ensures ArticleSchemaErrors(InitialValues(Some(a))) == map[]
  {
    var e := ArticleSchemaErrors(InitialValues(Some(a)));
    assert e.Keys == {};
  }
}
