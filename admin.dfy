/** The decision logic of form_designer/admin.py: the `choice_model` check of
    the inline field form and the submission list's title and name columns. */
module Admin {
  import opened Models

  // ---------------------------------------------------------------------------
  // FormDefinitionFieldInlineForm.clean_choice_model

  /** What `clean_choice_model` reads of `cleaned_data`: the `choice_model`
      column (None when null) and the `field_class` entry, None when the key
      is missing because that field did not validate. */
  datatype FieldFormData = FieldFormData(choiceModel: Option<string>, fieldClass: Option<string>)

  const ModelRequired: string := "This field class requires a model."

  /** The `field_class` values that need a model. */
  const ModelChoiceClasses: seq<string> := ["forms.ModelChoiceField", "forms.ModelMultipleChoiceField"]

  /** The cleaned `choice_model`, or the validation error it raises: an
      empty model with a model-choice field class is an error, and anything
      else keeps the model as entered. */
  function CleanChoiceModel(data: FieldFormData): (r: Result<Option<string>, string>)
    ensures r.Success? ==> r.value == data.choiceModel
    ensures r.Failure? ==> r.error == ModelRequired
  {
    if !Truthy(data.choiceModel) && data.fieldClass.Some? && data.fieldClass.value in ModelChoiceClasses then
      Failure(ModelRequired)
    else
      Success(data.choiceModel)
  }

  /** The field class a `field_class` value names, as `get_form_field_init_args`
      dispatches on it. */
  function ClassNamed(path: string): (c: FieldClass)
    ensures c.OtherClass? <==> c == OtherClass(path)
    ensures c.OtherClass? <==> path !in ClassPaths
    ensures ClassPath(c) == path
    ensures c.Canonical()
  {
    match path
    case "forms.CharField" => CharField
    case "forms.EmailField" => EmailField
    case "forms.RegexField" => RegexField
    case "forms.IntegerField" => IntegerField
    case "forms.DecimalField" => DecimalField
    case "forms.ChoiceField" => ChoiceField
    case "forms.MultipleChoiceField" => MultipleChoiceField
    case "forms.ModelChoiceField" => ModelChoiceField
    case "forms.ModelMultipleChoiceField" => ModelMultipleChoiceField
    case "forms.BooleanField" => BooleanField
    case _ => OtherClass(path)
  }

  /** The `field_class` value a class tag stands for. */
  function ClassPath(c: FieldClass): (path: string)
    ensures c.OtherClass? ==> path == c.path
    ensures !c.OtherClass? ==> path in ClassPaths
  {
    match c
    case CharField => "forms.CharField"
    case EmailField => "forms.EmailField"
    case RegexField => "forms.RegexField"
    case IntegerField => "forms.IntegerField"
    case DecimalField => "forms.DecimalField"
    case ChoiceField => "forms.ChoiceField"
    case MultipleChoiceField => "forms.MultipleChoiceField"
    case ModelChoiceField => "forms.ModelChoiceField"
    case ModelMultipleChoiceField => "forms.ModelMultipleChoiceField"
    case BooleanField => "forms.BooleanField"
    case OtherClass(path) => path
  }

  /** Each tag is named by its own path, and so is every path outside the
      table. */
  lemma ClassNamedOfPath(c: FieldClass)
    requires c.Canonical()
    ensures ClassNamed(ClassPath(c)) == c
  {
  }

  /** `clean_choice_model` raises exactly when the model is empty (None or
      blank) and a field class is given whose form field takes a queryset;
      otherwise it returns `choice_model` unchanged. */
  lemma CleanChoiceModelIff(data: FieldFormData)
    ensures CleanChoiceModel(data).Failure?
            <==> !Truthy(data.choiceModel) && data.fieldClass.Some? && ClassNamed(data.fieldClass.value).IsModelChoice()
    ensures CleanChoiceModel(data).Success? ==> CleanChoiceModel(data).value == data.choiceModel
  {
    if data.fieldClass.Some? {
      var path := data.fieldClass.value;
      if ClassNamed(path).IsModelChoice() {
        assert path == "forms.ModelChoiceField" || path == "forms.ModelMultipleChoiceField";
      }
    }
  }

  /** A field class that takes no queryset, or a missing one, never makes
      an empty model an error; nor does a model that is filled in. */
  lemma CleanChoiceModelAccepts(data: FieldFormData)
    requires || data.fieldClass.None?
             || !ClassNamed(data.fieldClass.value).IsModelChoice()
             || Truthy(data.choiceModel)
    ensures CleanChoiceModel(data) == Success(data.choiceModel)
  {
    CleanChoiceModelIff(data);
  }

  // ---------------------------------------------------------------------------
  // FormSubmissionAdmin.form_title and form_name

  const NoFieldsAttached: string := "No fields attached"

  /** `form_title(obj)` for submission `id`, `rows` being the field
      submission table: the title of the submission's form definition, or
      "No fields attached" when it has no field rows. */
  function FormTitle(rows: seq<FormFieldSubmission>, id: nat): (title: string)
    ensures var def := SubmissionDefinition(FieldsOf(rows, id));
      && (def.None? ==> title == NoFieldsAttached)
      && (def.Some? ==> title == TextOf(def.value.title))
  {
    match SubmissionDefinition(FieldsOf(rows, id))
    case Some(def) => TextOf(def.title)
    case None => NoFieldsAttached
  }

  /** `form_name(obj)`: as `form_title`, with the definition's name. */
  function FormName(rows: seq<FormFieldSubmission>, id: nat): (name: string)
    ensures var def := SubmissionDefinition(FieldsOf(rows, id));
      && (def.None? ==> name == NoFieldsAttached)
      && (def.Some? ==> name == def.value.name)
  {
    match SubmissionDefinition(FieldsOf(rows, id))
    case Some(def) => def.name
    case None => NoFieldsAttached
  }

  /** After `log` writes a submission under a fresh id, its title and name
      columns show its definition's when the form data had an entry, and
      "No fields attached" when it had none. */
  lemma ColumnsAfterLog(def: FormDefinition, oldRows: seq<FormFieldSubmission>, id: nat, data: seq<FormDataEntry>)
    requires forall f :: f in def.fields ==> f.formDefinition == def
    requires forall r :: r in oldRows ==> r.submission < id
    requires forall i :: 0 <= i < |data| ==>
               data[i].name in FieldDict(def.fields) && FieldDict(def.fields)[data[i].name].includeResult
    ensures var rows := oldRows + LogRows(id, FieldDict(def.fields), data);
      && FormTitle(rows, id) == (if |data| > 0 then TextOf(def.title) else NoFieldsAttached)
      && FormName(rows, id) == (if |data| > 0 then def.name else NoFieldsAttached)
  {
    LoggedSubmission(def, oldRows, id, data);
  }
}
