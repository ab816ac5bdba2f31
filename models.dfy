/** The records of form_designer/models.py and the decision logic on them:
    field dictionaries, result extraction, logging, recipient splitting and
    templating, the submit-flag name and the field-type policy table.
    ORM relations are sequences; the template engine is a function parameter. */
module Models {

  datatype Option<+T> = None | Some(value: T)

  datatype Result<+T, +E> = Success(value: T) | Failure(error: E)

  // ---------------------------------------------------------------------------
  // Python truthiness and text of nullable text columns

  /** `bool(s)` for a nullable text column: neither None nor empty. */
  predicate Truthy(s: Option<string>) {
    s.Some? && s.value != ""
  }

  /** `s or default` for a nullable text column. */
  function OrElse(s: Option<string>, default: string): string {
    if Truthy(s) then s.value else default
  }

  /** `u'%s' % s` for a nullable text column. */
  function TextOf(s: Option<string>): string {
    if s.Some? then s.value else "None"
  }

  // ---------------------------------------------------------------------------
  // Configuration (app_settings and INSTALLED_APPS) as a value

  /** FORM_DESIGNER_SUBMIT_FLAG_NAME, a format with one `%s`: the text around it. */
  datatype FlagFormat = FlagFormat(before: string, after: string)

  datatype AppSettings = AppSettings(
    submitFlagFormat: FlagFormat,
    defaultFormTemplate: string,   // FORM_DESIGNER_DEFAULT_FORM_TEMPLATE
    notifyInstalled: bool)         // 'django_notify' in INSTALLED_APPS

  // ---------------------------------------------------------------------------
  // Field classes, initial values and the constructor arguments of form fields

  /** The `field_class` tags. The nine the dispatch names, the BooleanField of
      the hidden marker, and any other configured class. A tag is canonical
      when an `OtherClass` never carries one of the known paths. */
  datatype FieldClass =
    | CharField | EmailField | RegexField
    | IntegerField | DecimalField
    | ChoiceField | MultipleChoiceField
    | ModelChoiceField | ModelMultipleChoiceField
    | BooleanField
    | OtherClass(path: string)
  {
    predicate IsMultiple() {
      this == MultipleChoiceField || this == ModelMultipleChoiceField
    }
    predicate IsModelChoice() {
      this == ModelChoiceField || this == ModelMultipleChoiceField
    }
    predicate IsTextLike() {
      this == CharField || this == EmailField || this == RegexField
    }
    predicate IsNumeric() {
      this == IntegerField || this == DecimalField
    }
    predicate IsExplicitChoice() {
      this == ChoiceField || this == MultipleChoiceField
    }
    predicate Canonical() {
      OtherClass? ==> path !in ClassPaths
    }
  }

  /** The `field_class` paths that have their own tag: the nine that
      `get_form_field_init_args` dispatches on, and the marker's BooleanField. */
  const ClassPaths: seq<string> := [
    "forms.CharField", "forms.EmailField", "forms.RegexField",
    "forms.IntegerField", "forms.DecimalField",
    "forms.ChoiceField", "forms.MultipleChoiceField",
    "forms.ModelChoiceField", "forms.ModelMultipleChoiceField",
    "forms.BooleanField"]

  /** A field's initial value: the stored text (or None), or what prefill put there. */
  datatype InitialValue = Null | Scalar(text: string) | Many(items: seq<string>)

  predicate InitialTruthy(v: InitialValue) {
    match v
    case Null => false
    case Scalar(t) => t != ""
    case Many(items) => items != []
  }

  /** A `FormDefinitionFieldChoice`: both columns are nullable. */
  datatype Choice = Choice(labelText: Option<string>, value: Option<string>)

  /** A constructor argument; `NoneArg` is Python's None. */
  datatype ArgValue =
    | NoneArg
    | BoolArg(b: bool)
    | TextArg(text: string)
    | IntArg(i: int)
    | RealArg(r: real)
    | ValueArg(v: InitialValue)
    | ChoicesArg(pairs: seq<(Option<string>, Option<string>)>)
    | QuerysetArg(model: Option<string>)     // all objects of the named model
    | WidgetArg(widget: string)              // an instance of the named widget class

  /** The keyword arguments a form field is constructed with, keyword by
      keyword: `None` when the keyword is not passed at all, `Some(NoneArg)`
      when it is passed as Python's None. (`labelArg` is the `label` keyword,
      a reserved word here.) */
  datatype InitArgs = InitArgs(
    required: Option<ArgValue>, labelArg: Option<ArgValue>, initial: Option<ArgValue>, helpText: Option<ArgValue>,
    maxLength: Option<ArgValue>, minLength: Option<ArgValue>,
    maxValue: Option<ArgValue>, minValue: Option<ArgValue>,
    maxDigits: Option<ArgValue>, decimalPlaces: Option<ArgValue>,
    regex: Option<ArgValue>, choices: Option<ArgValue>,
    queryset: Option<ArgValue>, emptyLabel: Option<ArgValue>,
    widget: Option<ArgValue>)

  /** The empty keyword-argument dictionary. */
  const NoArgs := InitArgs(None, None, None, None, None, None, None, None, None, None, None, None, None, None, None)

  function OptText(s: Option<string>): ArgValue {
    if s.Some? then TextArg(s.value) else NoneArg
  }

  function OptInt(n: Option<int>): ArgValue {
    if n.Some? then IntArg(n.value) else NoneArg
  }

  function OptReal(x: Option<real>): ArgValue {
    if x.Some? then RealArg(x.value) else NoneArg
  }

  /** Python's `int(x)` on a float: truncation toward zero. */
  function IntOf(x: real): (n: int)
    ensures 0.0 <= x ==> n as real <= x < n as real + 1.0
    ensures x < 0.0 ==> n as real - 1.0 < x <= n as real
  {
    if x >= 0.0 then x.Floor else -((-x).Floor)
  }

  function OptIntOf(x: Option<real>): ArgValue {
    if x.Some? then IntArg(IntOf(x.value)) else NoneArg
  }

  /** `(choice.value, choice.label)` for each stored choice, in stored order. */
  function ChoicePairs(choices: seq<Choice>): seq<(Option<string>, Option<string>)> {
    seq(|choices|, i requires 0 <= i < |choices| => (choices[i].value, choices[i].labelText))
  }

  /** The dispatch table of `get_form_field_init_args`, key by key: which keys
      the dictionary holds for field `f` whose initial value is `initial`, and
      what each holds. Every ArgKey is covered, so `args` is determined. */
  predicate InitArgsPolicy(f: FormDefinitionField, initial: InitialValue, args: InitArgs) {
    && CommonArgs(f, initial, args)
    && LengthArgs(f, args)
    && NumberArgs(f, args)
    && RegexArgs(f, args)
    && ChoiceArgs(f, args)
    && ModelArgs(f, args)
    && WidgetArgs(f, args)
  }

  /** Always present: required, label (empty when unset), initial (None when
      falsy) and help text. */
  predicate CommonArgs(f: FormDefinitionField, initial: InitialValue, args: InitArgs) {
    && args.required == Some(BoolArg(f.required))
    && args.labelArg == Some(TextArg(OrElse(f.labelText, "")))
    && args.initial == Some(if InitialTruthy(initial) then ValueArg(initial) else NoneArg)
    && args.helpText == Some(OptText(f.helpText))
  }

  /** Length bounds: text-like classes only. */
  predicate LengthArgs(f: FormDefinitionField, args: InitArgs) {
    && args.maxLength == (if f.fieldClass.IsTextLike() then Some(OptInt(f.maxLength)) else None)
    && args.minLength == (if f.fieldClass.IsTextLike() then Some(OptInt(f.minLength)) else None)
  }

  /** Numeric bounds: truncated to int for IntegerField, as stored for
      DecimalField, which also gets its digit counts. */
  predicate NumberArgs(f: FormDefinitionField, args: InitArgs) {
    var c := f.fieldClass;
    && args.maxValue == (if c == DecimalField then Some(OptReal(f.maxValue))
                         else if c == IntegerField then Some(OptIntOf(f.maxValue)) else None)
    && args.minValue == (if c == DecimalField then Some(OptReal(f.minValue))
                         else if c == IntegerField then Some(OptIntOf(f.minValue)) else None)
    && args.maxDigits == (if c == DecimalField then Some(OptInt(f.maxDigits)) else None)
    && args.decimalPlaces == (if c == DecimalField then Some(OptInt(f.decimalPlaces)) else None)
  }

  /** Pattern: RegexField with a non-empty regex. */
  predicate RegexArgs(f: FormDefinitionField, args: InitArgs) {
    args.regex == (if f.fieldClass == RegexField && Truthy(f.regex) then Some(TextArg(f.regex.value)) else None)
  }

  /** Explicit choices: only when the field has some. */
  predicate ChoiceArgs(f: FormDefinitionField, args: InitArgs) {
    args.choices == (if f.fieldClass.IsExplicitChoice() && |f.choices| > 0
                     then Some(ChoicesArg(ChoicePairs(f.choices))) else None)
  }

  /** Model-backed choices: the queryset, and the empty label for the single kind. */
  predicate ModelArgs(f: FormDefinitionField, args: InitArgs) {
    && args.queryset == (if f.fieldClass.IsModelChoice() then Some(QuerysetArg(f.choiceModel)) else None)
    && args.emptyLabel == (if f.fieldClass == ModelChoiceField then Some(OptText(f.choiceModelEmptyLabel)) else None)
  }

  /** Widget override, when one is configured. */
  predicate WidgetArgs(f: FormDefinitionField, args: InitArgs) {
    args.widget == (if Truthy(f.widget) then Some(WidgetArg(f.widget.value)) else None)
  }

  /** The one argument record the table allows, built keyword by keyword. */
  function PolicyArgs(f: FormDefinitionField, initial: InitialValue): InitArgs {
    var c := f.fieldClass;
    InitArgs(
      required := Some(BoolArg(f.required)),
      labelArg := Some(TextArg(OrElse(f.labelText, ""))),
      initial := Some(if InitialTruthy(initial) then ValueArg(initial) else NoneArg),
      helpText := Some(OptText(f.helpText)),
      maxLength := if c.IsTextLike() then Some(OptInt(f.maxLength)) else None,
      minLength := if c.IsTextLike() then Some(OptInt(f.minLength)) else None,
      maxValue := if c == DecimalField then Some(OptReal(f.maxValue))
                  else if c == IntegerField then Some(OptIntOf(f.maxValue)) else None,
      minValue := if c == DecimalField then Some(OptReal(f.minValue))
                  else if c == IntegerField then Some(OptIntOf(f.minValue)) else None,
      maxDigits := if c == DecimalField then Some(OptInt(f.maxDigits)) else None,
      decimalPlaces := if c == DecimalField then Some(OptInt(f.decimalPlaces)) else None,
      regex := if c == RegexField && Truthy(f.regex) then Some(TextArg(f.regex.value)) else None,
      choices := if c.IsExplicitChoice() && |f.choices| > 0 then Some(ChoicesArg(ChoicePairs(f.choices))) else None,
      queryset := if c.IsModelChoice() then Some(QuerysetArg(f.choiceModel)) else None,
      emptyLabel := if c == ModelChoiceField then Some(OptText(f.choiceModelEmptyLabel)) else None,
      widget := if Truthy(f.widget) then Some(WidgetArg(f.widget.value)) else None)
  }

  /** The table determines the arguments: a record meets it exactly when it is
      `PolicyArgs`. */
  lemma PolicyDetermines(f: FormDefinitionField, initial: InitialValue, args: InitArgs)
    ensures InitArgsPolicy(f, initial, args) <==> args == PolicyArgs(f, initial)
  {
  }

  /** A Django form field: its class and the arguments it was built with. */
  datatype FormField = FormField(fieldClass: FieldClass, args: InitArgs)

  /** `form.fields[key].label`: the `label` argument, None when not given. */
  function FieldLabel(ff: FormField): Option<string> {
    if ff.args.labelArg.Some? && ff.args.labelArg.value.TextArg? then Some(ff.args.labelArg.value.text) else None
  }

  // ---------------------------------------------------------------------------
  // FormDefinition and FormDefinitionField

  class FormDefinition {
    const name: string
    const title: Option<string>
    const action: Option<string>
    const mailTo: Option<string>
    const mailFrom: Option<string>
    const mailSubject: Option<string>
    const successMessage: Option<string>
    const errorMessage: Option<string>
    const logData: bool
    const successRedirect: bool
    const successClear: bool
    const allowGetInitial: bool
    const messageTemplate: Option<string>
    const formTemplateName: Option<string>
    /** The field definitions that point at this definition, in creation
        order; this stands for `fields.all()`, whose ordering by `position`
        is not modelled. */
    var fields: seq<FormDefinitionField>

    /** Every listed field belongs to this definition, and each row is listed once. */
    ghost predicate Valid()
      reads this
    {
      && (forall i :: 0 <= i < |fields| ==> fields[i].formDefinition == this)
      && (forall i, j :: 0 <= i < j < |fields| ==> fields[i] != fields[j])
    }

    constructor (name: string, title: Option<string>, action: Option<string>,
                 mailTo: Option<string>, mailFrom: Option<string>, mailSubject: Option<string>,
                 successMessage: Option<string>, errorMessage: Option<string>,
                 logData: bool, successRedirect: bool, successClear: bool, allowGetInitial: bool,
                 messageTemplate: Option<string>, formTemplateName: Option<string>)
      ensures Valid() && fields == []
      ensures this.name == name && this.title == title && this.action == action
      ensures this.mailTo == mailTo && this.mailFrom == mailFrom && this.mailSubject == mailSubject
      ensures this.successMessage == successMessage && this.errorMessage == errorMessage
      ensures this.logData == logData && this.successRedirect == successRedirect
      ensures this.successClear == successClear && this.allowGetInitial == allowGetInitial
      ensures this.messageTemplate == messageTemplate && this.formTemplateName == formTemplateName
    {
      this.name, this.title, this.action := name, title, action;
      this.mailTo, this.mailFrom, this.mailSubject := mailTo, mailFrom, mailSubject;
      this.successMessage, this.errorMessage := successMessage, errorMessage;
      this.logData, this.successRedirect := logData, successRedirect;
      this.successClear, this.allowGetInitial := successClear, allowGetInitial;
      this.messageTemplate, this.formTemplateName := messageTemplate, formTemplateName;
      fields := [];
    }

    /** `get_field_dict`: name to field; a later field with the same name wins. */
    method GetFieldDict() returns (dict: map<string, FormDefinitionField>)
      ensures dict == FieldDict(fields)
    {
      dict := map[];
      for i := 0 to |fields|
        invariant dict == FieldDict(fields[..i])
      {
        assert fields[..i + 1][..i] == fields[..i];
        dict := dict[fields[i].name := fields[i]];
      }
      assert fields[..|fields|] == fields;
    }

    /** `get_form_data`: one entry per form key that names an included field,
        in form-key order. */
    method GetFormData(form: BoundForm) returns (data: seq<FormDataEntry>)
      requires form.WellFormed()
      requires form.CleanedFor(FieldDict(fields))
      ensures data == FormData(FieldDict(fields), form)
    {
      data := [];
      var fieldDict := GetFieldDict();
      for i := 0 to |form.keys|
        invariant data == FormDataPrefix(fieldDict, form, i)
      {
        var key := form.keys[i];
        if key in fieldDict && fieldDict[key].includeResult {
          var value := Storable(form.cleanedData[key]);
          data := data + [FormDataEntry(key, FieldLabel(form.fields[key]), value)];
        }
      }
    }

    /** `get_form_data_dict`: entry name to entry value; a later entry wins. */
    static method GetFormDataDict(formData: seq<FormDataEntry>) returns (dict: map<string, string>)
      ensures dict == DataDict(formData)
    {
      dict := map[];
      for i := 0 to |formData|
        invariant dict == DataDict(formData[..i])
      {
        assert formData[..i + 1][..i] == formData[..i];
        dict := dict[formData[i].name := formData[i].value];
      }
      assert formData[..|formData|] == formData;
    }

    /** `log`: one new submission, then one field-submission per entry of
        `get_form_data`, in order. */
    method Log(form: BoundForm, store: SubmissionStore, now: int)
      requires form.WellFormed()
      requires form.CleanedFor(FieldDict(fields))
      requires store.Valid()
      modifies store
      ensures store.Valid()
      ensures store.submissions == old(store.submissions) + [FormSubmission(|old(store.submissions)|, now)]
      ensures store.fieldSubmissions
        == old(store.fieldSubmissions) + LogRows(|old(store.submissions)|, FieldDict(fields), FormData(FieldDict(fields), form))
    {
      var formData := GetFormData(form);
      var fieldDict := GetFieldDict();
      var submission := store.SaveSubmission(now);
      SaveFieldData(store, submission, fieldDict, formData);
    }

    /** The loop of `log`: each entry saved as a field-submission of
        `submission`, naming the definition field of the entry's name. */
    static method SaveFieldData(store: SubmissionStore, submission: nat,
                                fieldDict: map<string, FormDefinitionField>, formData: seq<FormDataEntry>)
      requires store.Valid() && submission < |store.submissions|
      requires forall j :: 0 <= j < |formData| ==> formData[j].name in fieldDict
      modifies store
      ensures store.Valid()
      ensures store.submissions == old(store.submissions)
      ensures store.fieldSubmissions == old(store.fieldSubmissions) + LogRows(submission, fieldDict, formData)
    {
      ghost var rows := LogRows(submission, fieldDict, formData);
      for i := 0 to |formData|
        invariant store.Valid()
        invariant store.submissions == old(store.submissions)
        invariant store.fieldSubmissions == old(store.fieldSubmissions) + rows[..i]
      {
        var fieldSubmission := FormFieldSubmission(submission, fieldDict[formData[i].name], formData[i].value);
        store.SaveFieldSubmission(fieldSubmission);
        PrefixExtend(rows, i);
      }
      assert rows[..|formData|] == rows;
    }

    /** The recipient, sender and subject handling of `send_mail`, after the
        message body: `mail_to` is split, each piece is templated in place. */
    method SendMail(form: BoundForm, renderString: Renderer, renderMessage: MessageRenderer, outbox: Outbox)
      returns (outcome: Result<Mail, MailError>)
      requires mailTo.Some?
      requires form.WellFormed()
      requires form.CleanedFor(FieldDict(fields))
      modifies outbox
      ensures outcome == MailFor(this, FormData(FieldDict(fields), form), renderString, renderMessage)
      ensures outbox.sent == if outcome.Success? then old(outbox.sent) + [outcome.value] else old(outbox.sent)
    {
      var formData := GetFormData(form);
      var message := renderMessage(MessageTemplateFor(this, None), MessageContext(DataDict(formData)), formData);
      if message.SyntaxError? {
        return Failure(MessageTemplateError);
      }
      var contextDict := GetFormDataDict(formData);
      var recipients := SplitRecipients(mailTo.value);
      ghost var pieces := recipients;
      for key := 0 to |recipients|
        invariant |recipients| == |pieces|
        invariant forall k :: 0 <= k < key ==> recipients[k] == StringTemplateReplace(renderString, pieces[k], contextDict)
        invariant forall k :: key <= k < |pieces| ==> recipients[k] == pieces[k]
      {
        recipients := recipients[key := StringTemplateReplace(renderString, recipients[key], contextDict)];
      }
      assert recipients == TemplatedEach(renderString, pieces, contextDict);
      var sender := if Truthy(mailFrom) then Some(StringTemplateReplace(renderString, mailFrom.value, contextDict)) else None;
      var subject := if Truthy(mailSubject) then Some(StringTemplateReplace(renderString, mailSubject.value, contextDict)) else title;
      var mail := Mail(subject, message.text, if Truthy(sender) then sender else None, recipients);
      outbox.Send(mail);
      outcome := Success(mail);
    }

    /** `submit_flag_name`: the formatted name, grown by `_` while some field
        of this definition has that name. */
    method SubmitFlagName(format: FlagFormat) returns (name: string)
      ensures name == SubmitFlag(format, this.name, Names(fields))
      ensures name !in Names(fields)
    {
      var names := Names(fields);
      var base := FlagBase(format, this.name);
      name := base;
      ghost var k: nat := 0;
      while name in names
        invariant name == Underscored(base, k)
        invariant forall j :: 0 <= j < k ==> Underscored(base, j) in names
        decreases LongestName(names) - |name|
      {
        LongerThanAllNotIn(names, name);
        name := name + "_";
        k := k + 1;
      }
      LeastFreeIsFirstFree(base, names, k);
    }
  }

  class FormDefinitionField {
    const formDefinition: FormDefinition
    const fieldClass: FieldClass
    var position: Option<int>
    const name: string
    const labelText: Option<string>
    const required: bool
    const includeResult: bool
    const widget: Option<string>
    var initial: InitialValue
    const helpText: Option<string>
    const choices: seq<Choice>
    const maxLength: Option<int>
    const minLength: Option<int>
    const maxValue: Option<real>
    const minValue: Option<real>
    const maxDigits: Option<int>
    const decimalPlaces: Option<int>
    const regex: Option<string>
    const choiceModel: Option<string>
    const choiceModelEmptyLabel: Option<string>

    /** A new field row of `def`; it joins `def.fields`. */
    constructor (def: FormDefinition, fieldClass: FieldClass, position: Option<int>, name: string,
                 labelText: Option<string>, required: bool, includeResult: bool, widget: Option<string>,
                 initial: InitialValue, helpText: Option<string>, choices: seq<Choice>,
                 maxLength: Option<int>, minLength: Option<int>, maxValue: Option<real>, minValue: Option<real>,
                 maxDigits: Option<int>, decimalPlaces: Option<int>, regex: Option<string>,
                 choiceModel: Option<string>, choiceModelEmptyLabel: Option<string>)
      requires def.Valid() && fieldClass.Canonical()
      modifies def
      ensures def.Valid() && def.fields == old(def.fields) + [this]
      ensures formDefinition == def && this.fieldClass == fieldClass && this.position == position
      ensures this.name == name && this.labelText == labelText && this.required == required
      ensures this.includeResult == includeResult && this.widget == widget && this.initial == initial
      ensures this.helpText == helpText && this.choices == choices
      ensures this.maxLength == maxLength && this.minLength == minLength
      ensures this.maxValue == maxValue && this.minValue == minValue
      ensures this.maxDigits == maxDigits && this.decimalPlaces == decimalPlaces && this.regex == regex
      ensures this.choiceModel == choiceModel && this.choiceModelEmptyLabel == choiceModelEmptyLabel
    {
      formDefinition, this.fieldClass, this.position, this.name := def, fieldClass, position, name;
      this.labelText, this.required, this.includeResult, this.widget := labelText, required, includeResult, widget;
      this.initial, this.helpText, this.choices := initial, helpText, choices;
      this.maxLength, this.minLength, this.maxValue, this.minValue := maxLength, minLength, maxValue, minValue;
      this.maxDigits, this.decimalPlaces, this.regex := maxDigits, decimalPlaces, regex;
      this.choiceModel, this.choiceModelEmptyLabel := choiceModel, choiceModelEmptyLabel;
      new;
      def.fields := def.fields + [this];
    }

    /** The same row loaded again by a query: a new instance holding the
        stored column values. */
    constructor Load(row: FormDefinitionField)
      ensures SameColumns(row) && initial == row.initial && position == row.position
    {
      formDefinition, fieldClass, position, name := row.formDefinition, row.fieldClass, row.position, row.name;
      labelText, required, includeResult, widget := row.labelText, row.required, row.includeResult, row.widget;
      initial, helpText, choices := row.initial, row.helpText, row.choices;
      maxLength, minLength, maxValue, minValue := row.maxLength, row.minLength, row.maxValue, row.minValue;
      maxDigits, decimalPlaces, regex := row.maxDigits, row.decimalPlaces, row.regex;
      choiceModel, choiceModelEmptyLabel := row.choiceModel, row.choiceModelEmptyLabel;
    }

    /** Every column but `position` and `initial`, the two this model lets
        code change, holds the same value in `other`. */
    predicate SameColumns(other: FormDefinitionField) {
      && formDefinition == other.formDefinition && fieldClass == other.fieldClass && name == other.name
      && labelText == other.labelText && required == other.required && includeResult == other.includeResult
      && widget == other.widget && helpText == other.helpText && choices == other.choices
      && maxLength == other.maxLength && minLength == other.minLength
      && maxValue == other.maxValue && minValue == other.minValue
      && maxDigits == other.maxDigits && decimalPlaces == other.decimalPlaces && regex == other.regex
      && choiceModel == other.choiceModel && choiceModelEmptyLabel == other.choiceModelEmptyLabel
    }

    /** `save`: a missing position becomes 0; any other position is kept. */
    method Save()
      modifies this`position
      ensures position == if old(position).None? then Some(0) else old(position)
    {
      if position == None {
        position := Some(0);
      }
    }

    /** `get_form_field_init_args`: the constructor arguments for this field,
        built up class rule by class rule. */
    method GetFormFieldInitArgs() returns (args: InitArgs)
      ensures InitArgsPolicy(this, initial, args)
    {
      args := NoArgs.(
        required := Some(BoolArg(required)),
        labelArg := Some(TextArg(OrElse(labelText, ""))),
        initial := Some(if InitialTruthy(initial) then ValueArg(initial) else NoneArg),
        helpText := Some(OptText(helpText)));
      assert CommonArgs(this, initial, args);
      if fieldClass.IsTextLike() {
        args := args.(maxLength := Some(OptInt(maxLength)), minLength := Some(OptInt(minLength)));
      }
      assert LengthArgs(this, args);
      if fieldClass.IsNumeric() {
        args := args.(maxValue := Some(OptIntOf(maxValue)), minValue := Some(OptIntOf(minValue)));
      }
      if fieldClass == DecimalField {
        args := args.(maxValue := Some(OptReal(maxValue)), minValue := Some(OptReal(minValue)),
                      maxDigits := Some(OptInt(maxDigits)), decimalPlaces := Some(OptInt(decimalPlaces)));
      }
      assert NumberArgs(this, args);
      if fieldClass == RegexField {
        if Truthy(regex) {
          args := args.(regex := Some(TextArg(regex.value)));
        }
      }
      assert RegexArgs(this, args);
      if fieldClass.IsExplicitChoice() {
        if |choices| > 0 {
          args := args.(choices := Some(ChoicesArg(ChoicePairs(choices))));
        }
      }
      assert ChoiceArgs(this, args);
      if fieldClass.IsModelChoice() {
        args := args.(queryset := Some(QuerysetArg(choiceModel)));
      }
      if fieldClass == ModelChoiceField {
        args := args.(emptyLabel := Some(OptText(choiceModelEmptyLabel)));
      }
      assert ModelArgs(this, args);
      if Truthy(widget) {
        args := args.(widget := Some(WidgetArg(widget.value)));
      }
    }
  }

  /** The names of `fields`, in order. */
  function Names(fields: seq<FormDefinitionField>): (names: seq<string>)
    ensures |names| == |fields|
    ensures forall i :: 0 <= i < |fields| ==> names[i] == fields[i].name
  {
    seq(|fields|, i requires 0 <= i < |fields| => fields[i].name)
  }

  /** The dictionary `get_field_dict` builds: each name maps to the LAST field
      of that name. */
  function FieldDict(fields: seq<FormDefinitionField>): (dict: map<string, FormDefinitionField>)
    ensures forall k :: k in dict <==> k in Names(fields)
    ensures forall k :: k in dict ==> dict[k] in fields && dict[k].name == k
  {
    if |fields| == 0 then map[]
    else
      var last := fields[|fields| - 1];
      FieldDict(fields[..|fields| - 1])[last.name := last]
  }

  /** One more field: its name comes last. */
  lemma NamesStep(fields: seq<FormDefinitionField>, i: nat)
    requires i < |fields|
    ensures Names(fields[..i + 1]) == Names(fields[..i]) + [fields[i].name]
  {
  }

  /** Position of the last field named `k`. */
  function LastIndex(fields: seq<FormDefinitionField>, k: string): (i: nat)
    requires k in Names(fields)
    ensures i < |fields| && fields[i].name == k
    ensures forall j :: i < j < |fields| ==> fields[j].name != k
  {
    var n := |fields|;
    if fields[n - 1].name == k then n - 1
    else
      assert k in Names(fields[..n - 1]) by {
        var m :| 0 <= m < n && Names(fields)[m] == k;
        assert Names(fields[..n - 1])[m] == k;
      }
      LastIndex(fields[..n - 1], k)
  }

  /** The dictionary holds, for each name, the last field of that name. */
  lemma {:induction false} FieldDictIsLast(fields: seq<FormDefinitionField>, k: string)
    requires k in Names(fields)
    ensures k in FieldDict(fields) && FieldDict(fields)[k] == fields[LastIndex(fields, k)]
  {
    var n := |fields|;
    if fields[n - 1].name != k {
      var front := fields[..n - 1];
      assert k in Names(front) by {
        var m :| 0 <= m < n && Names(fields)[m] == k;
        assert Names(front)[m] == k;
      }
      FieldDictIsLast(front, k);
    }
  }

  // ---------------------------------------------------------------------------
  // Result extraction: get_form_data and get_form_data_dict

  /** A cleaned value, seen through its text and the result of its
      `__form_data__` method when it has a truthy one. */
  datatype CleanedValue = CleanedValue(text: string, formDataHook: Option<string>)

  /** The value that goes into the form data: `value.__form_data__()` when the
      value has that method, the cleaned value itself otherwise. */
  function Storable(v: CleanedValue): (s: string)
    ensures v.formDataHook.Some? ==> s == v.formDataHook.value
    ensures v.formDataHook.None? ==> s == v.text
  {
    if v.formDataHook.Some? then v.formDataHook.value else v.text
  }

  /** What `get_form_data` reads of a validated form: its fields, in order,
      and its cleaned data. */
  datatype BoundForm = BoundForm(keys: seq<string>, fields: map<string, FormField>, cleanedData: map<string, CleanedValue>)
  {
    predicate WellFormed() {
      forall k :: k in keys ==> k in fields
    }
    /** Every form key naming an included definition field has a cleaned value. */
    predicate CleanedFor(dict: map<string, FormDefinitionField>) {
      forall k :: k in keys && k in dict && dict[k].includeResult ==> k in cleanedData
    }
  }

  datatype FormDataEntry = FormDataEntry(name: string, labelText: Option<string>, value: string)

  function EntryNames(data: seq<FormDataEntry>): (names: seq<string>)
    ensures |names| == |data|
    ensures forall i :: 0 <= i < |data| ==> names[i] == data[i].name
  {
    seq(|data|, i requires 0 <= i < |data| => data[i].name)
  }

  /** The keys of `keys` naming an included definition field, in order. */
  function IncludedKeys(dict: map<string, FormDefinitionField>, keys: seq<string>): (r: seq<string>)
  {
    if |keys| == 0 then []
    else
      var k := keys[|keys| - 1];
      IncludedKeys(dict, keys[..|keys| - 1]) + if k in dict && dict[k].includeResult then [k] else []
  }

  lemma {:induction false} IncludedKeysExact(dict: map<string, FormDefinitionField>, keys: seq<string>, k: string)
    ensures k in IncludedKeys(dict, keys) <==> k in keys && k in dict && dict[k].includeResult
  {
    if |keys| > 0 {
      var front := keys[..|keys| - 1];
      IncludedKeysExact(dict, front, k);
      assert keys == front + [keys[|keys| - 1]];
    }
  }

  /** The form data for the first `n` form keys. */
  function FormDataPrefix(dict: map<string, FormDefinitionField>, form: BoundForm, n: nat): (data: seq<FormDataEntry>)
    requires n <= |form.keys|
    requires form.WellFormed() && form.CleanedFor(dict)
    ensures EntryNames(data) == IncludedKeys(dict, form.keys[..n])
    ensures forall i :: 0 <= i < |data| ==> data[i].name in dict
  {
    if n == 0 then []
    else
      var prev := FormDataPrefix(dict, form, n - 1);
      var key := form.keys[n - 1];
      assert form.keys[..n][..n - 1] == form.keys[..n - 1];
      if key in dict && dict[key].includeResult then
        prev + [FormDataEntry(key, FieldLabel(form.fields[key]), Storable(form.cleanedData[key]))]
      else prev
  }

  /** Each entry of the form data names an included field the form has and
      holds the field's label and its (possibly unwrapped) cleaned value. */
  lemma {:induction false} FormDataPrefixEntries(dict: map<string, FormDefinitionField>, form: BoundForm, n: nat)
    requires n <= |form.keys|
    requires form.WellFormed() && form.CleanedFor(dict)
    ensures forall e :: e in FormDataPrefix(dict, form, n) ==>
              && e.name in dict && dict[e.name].includeResult
              && e.name in form.fields && e.name in form.cleanedData
              && e.labelText == FieldLabel(form.fields[e.name])
              && e.value == Storable(form.cleanedData[e.name])
  {
    if n > 0 {
      FormDataPrefixEntries(dict, form, n - 1);
    }
  }

  /** `get_form_data(form)` given the definition's field dictionary. */
  function FormData(dict: map<string, FormDefinitionField>, form: BoundForm): seq<FormDataEntry>
    requires form.WellFormed() && form.CleanedFor(dict)
  {
    FormDataPrefix(dict, form, |form.keys|)
  }

  /** Exactly the included form keys appear, in form-key order, each with its
      label and its (possibly unwrapped) cleaned value. */
  lemma FormDataExact(dict: map<string, FormDefinitionField>, form: BoundForm)
    requires form.WellFormed() && form.CleanedFor(dict)
    ensures EntryNames(FormData(dict, form)) == IncludedKeys(dict, form.keys)
    ensures forall k :: k in EntryNames(FormData(dict, form)) <==> k in form.keys && k in dict && dict[k].includeResult
    ensures forall e :: e in FormData(dict, form) ==>
              && e.name in form.fields && e.name in form.cleanedData
              && e.labelText == FieldLabel(form.fields[e.name])
              && e.value == Storable(form.cleanedData[e.name])
  {
    assert form.keys[..|form.keys|] == form.keys;
    FormDataPrefixEntries(dict, form, |form.keys|);
    forall k ensures k in EntryNames(FormData(dict, form)) <==> k in form.keys && k in dict && dict[k].includeResult {
      IncludedKeysExact(dict, form.keys, k);
    }
  }

  /** When the form keys are distinct, so are the entry names. */
  lemma {:induction false} FormDataNamesDistinct(dict: map<string, FormDefinitionField>, form: BoundForm, n: nat)
    requires n <= |form.keys|
    requires form.WellFormed() && form.CleanedFor(dict)
    requires forall i, j :: 0 <= i < j < |form.keys| ==> form.keys[i] != form.keys[j]
    ensures forall i, j :: 0 <= i < j < |FormDataPrefix(dict, form, n)| ==>
              FormDataPrefix(dict, form, n)[i].name != FormDataPrefix(dict, form, n)[j].name
  {
    if n > 0 {
      FormDataNamesDistinct(dict, form, n - 1);
      var prev := FormDataPrefix(dict, form, n - 1);
      var key := form.keys[n - 1];
      forall e | e in prev ensures e.name != key {
        var i :| 0 <= i < |prev| && prev[i] == e;
        assert EntryNames(prev)[i] == e.name;
        IncludedKeysExact(dict, form.keys[..n - 1], e.name);
        var m :| 0 <= m < n - 1 && form.keys[..n - 1][m] == e.name;
        assert form.keys[m] == e.name;
      }
    }
  }

  /** The dictionary `get_form_data_dict` builds: name to value, a later entry winning. */
  function DataDict(data: seq<FormDataEntry>): (dict: map<string, string>)
    ensures dict.Keys == set e | e in data :: e.name
  {
    if |data| == 0 then map[]
    else
      var last := data[|data| - 1];
      assert data == data[..|data| - 1] + [last];
      DataDict(data[..|data| - 1])[last.name := last.value]
  }

  /** With distinct names, the dictionary gives back every entry's value. */
  lemma {:induction false} DataDictRecoversValues(data: seq<FormDataEntry>)
    requires forall i, j :: 0 <= i < j < |data| ==> data[i].name != data[j].name
    ensures forall e :: e in data ==> e.name in DataDict(data) && DataDict(data)[e.name] == e.value
  {
    if |data| > 0 {
      var front := data[..|data| - 1];
      DataDictRecoversValues(front);
      assert data == front + [data[|data| - 1]];
      forall e | e in data ensures e.name in DataDict(data) && DataDict(data)[e.name] == e.value {
        if e != data[|data| - 1] {
          assert e in front;
          var i :| 0 <= i < |front| && front[i] == e;
          assert data[i].name != data[|data| - 1].name;
        }
      }
    }
  }

  /** Whatever the names, each name maps to the value of its last entry. */
  lemma {:induction false} DataDictLastWins(data: seq<FormDataEntry>, i: int)
    requires 0 <= i < |data|
    requires forall j :: i < j < |data| ==> data[j].name != data[i].name
    ensures data[i].name in DataDict(data) && DataDict(data)[data[i].name] == data[i].value
  {
    if i < |data| - 1 {
      var front := data[..|data| - 1];
      DataDictLastWins(front, i);
    }
  }

  // ---------------------------------------------------------------------------
  // Templating: string_template_replace and the template choice of compile_message

  /** Outcome of compiling and rendering a template. */
  datatype Rendered = Text(text: string) | SyntaxError

  /** `Template(text).render(Context(ctx))`, as the template engine does it. */
  type Renderer = (string, map<string, string>) -> Rendered

  datatype MessageTemplate = Named(path: string) | Inline(source: string)

  const DefaultMessageTemplate := "txt/formdefinition/data_message.txt"

  /** Renders a message template with the form-data dictionary and `data`. */
  type MessageRenderer = (MessageTemplate, map<string, string>, seq<FormDataEntry>) -> Rendered

  /** `string_template_replace`: the rendered text, or the text itself when it
      does not compile. */
  function StringTemplateReplace(render: Renderer, text: string, ctx: map<string, string>): (r: string)
    ensures render(text, ctx).SyntaxError? ==> r == text
    ensures render(text, ctx).Text? ==> r == render(text, ctx).text
  {
    match render(text, ctx)
    case Text(t) => t
    case SyntaxError => text
  }

  /** The template `compile_message` renders: the named one when given, else
      the default file when the definition has no message template, else the
      definition's own template text. */
  function MessageTemplateFor(def: FormDefinition, template: Option<string>): (t: MessageTemplate)
    ensures Truthy(template) ==> t == Named(template.value)
    ensures !Truthy(template) && !Truthy(def.messageTemplate) ==> t == Named(DefaultMessageTemplate)
    ensures !Truthy(template) && Truthy(def.messageTemplate) ==> t == Inline(def.messageTemplate.value)
  {
    if Truthy(template) then Named(template.value)
    else if !Truthy(def.messageTemplate) then Named(DefaultMessageTemplate)
    else Inline(def.messageTemplate.value)
  }

  /** The message context: the form-data dictionary, whose `data` entry is
      shadowed by the list of entries. */
  function MessageContext(dict: map<string, string>): map<string, string> {
    dict - {"data"}
  }

  // ---------------------------------------------------------------------------
  // Recipients: re.split(r'\s*[,;]+\s*', mail_to)

  /** `\s` of Python's `re` without the UNICODE flag. */
  predicate IsSpace(c: char) {
    c == ' ' || c == '\t' || c == '\n' || c == '\r' || c == '\U{000B}' || c == '\U{000C}'
  }

  predicate IsSeparator(c: char) {
    c == ',' || c == ';'
  }

  /** First separator at or after `from`, or `|s|`. */
  function FirstSeparator(s: string, from: nat): (j: nat)
    requires from <= |s|
    ensures from <= j <= |s|
    ensures forall k :: from <= k < j ==> !IsSeparator(s[k])
    ensures j < |s| ==> IsSeparator(s[j])
    decreases |s| - from
  {
    if from == |s| || IsSeparator(s[from]) then from else FirstSeparator(s, from + 1)
  }

  /** Start of the whitespace run that ends at `j`. */
  function SpaceRunStart(s: string, j: nat): (i: nat)
    requires j <= |s|
    ensures i <= j
    ensures forall k :: i <= k < j ==> IsSpace(s[k])
    ensures i > 0 ==> !IsSpace(s[i - 1])
  {
    if j > 0 && IsSpace(s[j - 1]) then SpaceRunStart(s, j - 1) else j
  }

  /** End of the separator run that starts at `j`. */
  function SeparatorRunEnd(s: string, j: nat): (e: nat)
    requires j <= |s|
    ensures j <= e <= |s|
    ensures forall k :: j <= k < e ==> IsSeparator(s[k])
    ensures e < |s| ==> !IsSeparator(s[e])
    decreases |s| - j
  {
    if j < |s| && IsSeparator(s[j]) then SeparatorRunEnd(s, j + 1) else j
  }

  /** End of the whitespace run that starts at `j`. */
  function SpaceRunEnd(s: string, j: nat): (e: nat)
    requires j <= |s|
    ensures j <= e <= |s|
    ensures forall k :: j <= k < e ==> IsSpace(s[k])
    ensures e < |s| ==> !IsSpace(s[e])
    decreases |s| - j
  {
    if j < |s| && IsSpace(s[j]) then SpaceRunEnd(s, j + 1) else j
  }

  /** The leftmost match of `\s*[,;]+\s*` in `s`, as a start and an end, if any. */
  function FirstDelimiter(s: string): (m: Option<(nat, nat)>)
    ensures m.Some? ==> m.value.0 < m.value.1 <= |s|
    ensures m.None? <==> forall k :: 0 <= k < |s| ==> !IsSeparator(s[k])
  {
    var j := FirstSeparator(s, 0);
    if j == |s| then None
    else Some((SpaceRunStart(s, j), SpaceRunEnd(s, SeparatorRunEnd(s, j))))
  }

  /** The pieces `re.split` returns. */
  function SplitRecipients(s: string): (pieces: seq<string>)
    ensures |pieces| >= 1
    decreases |s|
  {
    var m := FirstDelimiter(s);
    if m.None? then [s] else [s[..m.value.0]] + SplitRecipients(s[m.value.1..])
  }

  /** The separator runs `re.split` removed, in order. */
  function Delimiters(s: string): seq<string>
    decreases |s|
  {
    var m := FirstDelimiter(s);
    if m.None? then [] else [s[m.value.0..m.value.1]] + Delimiters(s[m.value.1..])
  }

  /** `d` matches `\s*[,;]+\s*` in full: whitespace, at least one separator,
      whitespace, and nothing else. */
  predicate IsDelimiter(d: string) {
    var p := SpaceRunEnd(d, 0);
    var q := SeparatorRunEnd(d, p);
    p < q && SpaceRunEnd(d, q) == |d|
  }

  lemma {:induction false} SpaceRunEndIs(d: string, i: nat, e: nat)
    requires i <= e <= |d|
    requires forall k :: i <= k < e ==> IsSpace(d[k])
    requires e < |d| ==> !IsSpace(d[e])
    ensures SpaceRunEnd(d, i) == e
    decreases e - i
  {
    if i < e {
      SpaceRunEndIs(d, i + 1, e);
    }
  }

  lemma {:induction false} SeparatorRunEndIs(d: string, i: nat, e: nat)
    requires i <= e <= |d|
    requires forall k :: i <= k < e ==> IsSeparator(d[k])
    requires e < |d| ==> !IsSeparator(d[e])
    ensures SeparatorRunEnd(d, i) == e
    decreases e - i
  {
    if i < e {
      SeparatorRunEndIs(d, i + 1, e);
    }
  }

  /** `s[a..b]` is the match `re` finds first: it matches the pattern, no
      match can start earlier (no separator comes before it, and no
      whitespace just before it), and it cannot be extended (no whitespace
      follows it, and a separator follows it only after trailing
      whitespace). */
  predicate IsFirstMatch(s: string, a: nat, b: nat) {
    && a < b <= |s|
    && IsDelimiter(s[a..b])
    && (forall k :: 0 <= k < a ==> !IsSeparator(s[k]))
    && (a > 0 ==> !IsSpace(s[a - 1]))
    && (b < |s| ==> !IsSpace(s[b]) && (IsSeparator(s[b]) ==> IsSpace(s[b - 1])))
  }

  /** The match found by `FirstDelimiter` is the leftmost, longest match of
      the pattern. */
  lemma FirstDelimiterMatches(s: string)
    requires FirstDelimiter(s).Some?
    ensures IsFirstMatch(s, FirstDelimiter(s).value.0, FirstDelimiter(s).value.1)
  {
    FirstDelimiterIsDelimiter(s);
  }

  /** The text `FirstDelimiter` finds matches the pattern. */
  lemma FirstDelimiterIsDelimiter(s: string)
    requires FirstDelimiter(s).Some?
    ensures IsDelimiter(s[FirstDelimiter(s).value.0..FirstDelimiter(s).value.1])
  {
    var j := FirstSeparator(s, 0);
    var start, sepEnd := SpaceRunStart(s, j), SeparatorRunEnd(s, j);
    var end := SpaceRunEnd(s, sepEnd);
    var d := s[start..end];
    var p, q := j - start, sepEnd - start;
    assert forall k :: 0 <= k < |d| ==> d[k] == s[start + k];
    SpaceRunEndIs(d, 0, p);
    SeparatorRunEndIs(d, p, q);
    SpaceRunEndIs(d, q, |d|);
  }

  lemma {:induction false} FirstSeparatorIs(s: string, from: nat, j: nat)
    requires from <= j < |s|
    requires forall k :: from <= k < j ==> !IsSeparator(s[k])
    requires IsSeparator(s[j])
    ensures FirstSeparator(s, from) == j
    decreases j - from
  {
    if from < j {
      FirstSeparatorIs(s, from + 1, j);
    }
  }

  lemma {:induction false} SpaceRunStartIs(s: string, i: nat, j: nat)
    requires i <= j <= |s|
    requires forall k :: i <= k < j ==> IsSpace(s[k])
    requires i > 0 ==> !IsSpace(s[i - 1])
    ensures SpaceRunStart(s, j) == i
    decreases j - i
  {
    if i < j {
      SpaceRunStartIs(s, i, j - 1);
    }
  }

  /** The parts of a first match in `s`: whitespace from `a` to the
      separator run `j..e`, then whitespace to `b`; `j` is the first
      separator of `s` and the run cannot be extended. */
  lemma FirstMatchParts(s: string, a: nat, b: nat) returns (j: nat, e: nat)
    requires IsFirstMatch(s, a, b)
    ensures a <= j < e <= b
    ensures forall k :: a <= k < j ==> IsSpace(s[k])
    ensures forall k :: 0 <= k < j ==> !IsSeparator(s[k])
    ensures forall k :: j <= k < e ==> IsSeparator(s[k])
    ensures e < |s| ==> !IsSeparator(s[e])
    ensures forall k :: e <= k < b ==> IsSpace(s[k])
  {
    var d := s[a..b];
    var p := SpaceRunEnd(d, 0);
    var q := SeparatorRunEnd(d, p);
    assert p < q && SpaceRunEnd(d, q) == |d|;
    j, e := a + p, a + q;
    forall k | a <= k < j ensures IsSpace(s[k]) {
      assert s[k] == d[k - a];
    }
    forall k | j <= k < e ensures IsSeparator(s[k]) {
      assert s[k] == d[k - a];
    }
    forall k | e <= k < b ensures IsSpace(s[k]) {
      assert s[k] == d[k - a];
    }
    if e < b {
      assert s[e] == d[q];
    } else if b < |s| {
      assert IsSeparator(s[b - 1]);
    }
  }

  /** The first match is unique: any leftmost, longest match of the pattern
      is the one `FirstDelimiter` finds, so `SplitRecipients` is determined
      by the pattern alone. */
  lemma FirstMatchIsFirstDelimiter(s: string, a: nat, b: nat)
    requires IsFirstMatch(s, a, b)
    ensures FirstDelimiter(s) == Some((a, b))
  {
    var j, e := FirstMatchParts(s, a, b);
    FirstSeparatorIs(s, 0, j);
    SpaceRunStartIs(s, a, j);
    SeparatorRunEndIs(s, j, e);
    SpaceRunEndIs(s, e, b);
  }

  /** Pieces and delimiters interleaved: pieces[0] + delims[0] + pieces[1] + ... */
  function Interleave(pieces: seq<string>, delims: seq<string>): string
    requires |pieces| == |delims| + 1
    decreases |delims|
  {
    if |delims| == 0 then pieces[0]
    else pieces[0] + delims[0] + Interleave(pieces[1..], delims[1..])
  }

  /** One step of the split: the text before the first match, then the rest. */
  lemma SplitStep(s: string, start: nat, end: nat)
    requires FirstDelimiter(s) == Some((start, end))
    ensures SplitRecipients(s) == [s[..start]] + SplitRecipients(s[end..])
    ensures Delimiters(s) == [s[start..end]] + Delimiters(s[end..])
  {
  }

  /** Putting back the first piece and delimiter in front of a reassembled rest. */
  lemma InterleaveStep(s: string, start: nat, end: nat, pieces: seq<string>, delims: seq<string>)
    requires start <= end <= |s|
    requires |pieces| == |delims| + 1
    requires Interleave(pieces, delims) == s[end..]
    ensures Interleave([s[..start]] + pieces, [s[start..end]] + delims) == s
  {
    var p, d := [s[..start]] + pieces, [s[start..end]] + delims;
    assert p[0] == s[..start] && p[1..] == pieces;
    assert d[0] == s[start..end] && d[1..] == delims;
    calc {
      Interleave(p, d);
      p[0] + d[0] + Interleave(p[1..], d[1..]);
      s[..start] + s[start..end] + s[end..];
      { assert s[..start] + s[start..end] == s[..end]; }
      s;
    }
  }

  /** Splitting loses nothing: putting the removed separator runs back between
      the pieces gives the input. */
  lemma {:induction false} SplitReassembles(s: string)
    ensures |SplitRecipients(s)| == |Delimiters(s)| + 1
    ensures Interleave(SplitRecipients(s), Delimiters(s)) == s
    decreases |s|
  {
    var m := FirstDelimiter(s);
    if m.Some? {
      var start, end := m.value.0, m.value.1;
      SplitReassembles(s[end..]);
      SplitStep(s, start, end);
      InterleaveStep(s, start, end, SplitRecipients(s[end..]), Delimiters(s[end..]));
    }
  }

  /** Every separator run that splitting removes matches the pattern. */
  lemma {:induction false} DelimitersMatch(s: string)
    ensures forall i :: 0 <= i < |Delimiters(s)| ==> IsDelimiter(Delimiters(s)[i])
    decreases |s|
  {
    var m := FirstDelimiter(s);
    if m.Some? {
      var start, end := m.value.0, m.value.1;
      DelimitersMatch(s[end..]);
      FirstDelimiterMatches(s);
      assert IsDelimiter(s[start..end]);
      assert Delimiters(s) == [s[start..end]] + Delimiters(s[end..]);
    }
  }

  /** No piece contains `,` or `;`. */
  lemma {:induction false} SplitPiecesHaveNoSeparator(s: string)
    ensures forall p :: p in SplitRecipients(s) ==> forall k :: 0 <= k < |p| ==> !IsSeparator(p[k])
    decreases |s|
  {
    match FirstDelimiter(s)
    case None =>
    case Some((start, end)) =>
      SplitPiecesHaveNoSeparator(s[end..]);
      var j := FirstSeparator(s, 0);
      assert forall k :: 0 <= k < start ==> s[..start][k] == s[k];
  }

  /** A single recipient exactly when there is no separator; it is then the whole text. */
  lemma SplitSingleIffNoSeparator(s: string)
    ensures |SplitRecipients(s)| == 1 <==> forall k :: 0 <= k < |s| ==> !IsSeparator(s[k])
    ensures (forall k :: 0 <= k < |s| ==> !IsSeparator(s[k])) ==> SplitRecipients(s) == [s]
  {
  }

  // ---------------------------------------------------------------------------
  // The mail send_mail hands to the transport

  datatype Mail = Mail(subject: Option<string>, body: string, sender: Option<string>, recipients: seq<string>)

  /** `compile_message` raised: the message template did not compile. */
  datatype MailError = MessageTemplateError

  /** What `send_mail` sends for `data`, or the error it raises. */
  function MailFor(def: FormDefinition, data: seq<FormDataEntry>, renderString: Renderer, renderMessage: MessageRenderer)
    : (outcome: Result<Mail, MailError>)
    requires def.mailTo.Some?
  {
    var ctx := DataDict(data);
    var message := renderMessage(MessageTemplateFor(def, None), MessageContext(ctx), data);
    if message.SyntaxError? then Failure(MessageTemplateError)
    else
      var pieces := SplitRecipients(def.mailTo.value);
      var sender := if Truthy(def.mailFrom) then Some(StringTemplateReplace(renderString, def.mailFrom.value, ctx)) else None;
      Success(Mail(
        if Truthy(def.mailSubject) then Some(StringTemplateReplace(renderString, def.mailSubject.value, ctx)) else def.title,
        message.text,
        if Truthy(sender) then sender else None,
        TemplatedEach(renderString, pieces, ctx)))
  }

  /** Each address templated against the form data, in order. */
  function TemplatedEach(renderString: Renderer, pieces: seq<string>, ctx: map<string, string>): (r: seq<string>)
    ensures |r| == |pieces|
    ensures forall i :: 0 <= i < |pieces| ==> r[i] == StringTemplateReplace(renderString, pieces[i], ctx)
  {
    seq(|pieces|, i requires 0 <= i < |pieces| => StringTemplateReplace(renderString, pieces[i], ctx))
  }

  /** The address and header rules of `send_mail`: the recipients, the
      subject, the body (the compiled message) and the sender, which is the
      templated `mail_from` unless that is empty or renders empty. */
  lemma MailRules(def: FormDefinition, data: seq<FormDataEntry>, renderString: Renderer, renderMessage: MessageRenderer)
    requires def.mailTo.Some?
    ensures var outcome := MailFor(def, data, renderString, renderMessage);
      && (outcome.Failure? <==> renderMessage(MessageTemplateFor(def, None), MessageContext(DataDict(data)), data).SyntaxError?)
      && (outcome.Success? ==>
            var mail := outcome.value;
            var pieces := SplitRecipients(def.mailTo.value);
            && |mail.recipients| == |pieces|
            && (forall i :: 0 <= i < |pieces| ==>
                  && (forall k :: 0 <= k < |pieces[i]| ==> !IsSeparator(pieces[i][k]))
                  && mail.recipients[i] == StringTemplateReplace(renderString, pieces[i], DataDict(data)))
            && ((forall k :: 0 <= k < |def.mailTo.value| ==> !IsSeparator(def.mailTo.value[k])) ==> |mail.recipients| == 1)
            && (!Truthy(def.mailSubject) ==> mail.subject == def.title)
            && (Truthy(def.mailSubject) ==> mail.subject == Some(StringTemplateReplace(renderString, def.mailSubject.value, DataDict(data))))
            && mail.body == renderMessage(MessageTemplateFor(def, None), MessageContext(DataDict(data)), data).text
            && (!Truthy(def.mailFrom) ==> mail.sender == None)
            && (Truthy(def.mailFrom) ==>
                  var sender := StringTemplateReplace(renderString, def.mailFrom.value, DataDict(data));
                  mail.sender == if sender != "" then Some(sender) else None)
            && (mail.sender.Some? ==> mail.sender.value != ""))
  {
    var pieces := SplitRecipients(def.mailTo.value);
    SplitPiecesHaveNoSeparator(def.mailTo.value);
    SplitSingleIffNoSeparator(def.mailTo.value);
    forall i | 0 <= i < |pieces| ensures forall k :: 0 <= k < |pieces[i]| ==> !IsSeparator(pieces[i][k]) {
      assert pieces[i] in pieces;
    }
  }

  /** Where `send_mail` hands its mail to the transport. */
  class Outbox {
    var sent: seq<Mail>

    constructor ()
      ensures sent == []
    {
      sent := [];
    }

    method Send(mail: Mail)
      modifies this
      ensures sent == old(sent) + [mail]
    {
      sent := sent + [mail];
    }
  }

  // ---------------------------------------------------------------------------
  // submit_flag_name

  function FlagBase(format: FlagFormat, name: string): string {
    format.before + name + format.after
  }

  function Underscored(base: string, k: nat): (s: string)
    ensures |s| == |base| + k
    ensures s[..|base|] == base
    ensures forall i :: |base| <= i < |s| ==> s[i] == '_'
  {
    base + seq(k, _ => '_')
  }

  function LongestName(names: seq<string>): (m: nat)
    ensures forall s :: s in names ==> |s| <= m
  {
    if |names| == 0 then 0
    else
      var m := LongestName(names[1..]);
      assert forall s :: s in names ==> s == names[0] || s in names[1..];
      if |names[0]| > m then |names[0]| else m
  }

  lemma LongerThanAllNotIn(names: seq<string>, name: string)
    requires name in names
    ensures |name| <= LongestName(names)
  {
  }

  /** The count the `while` loop of `submit_flag_name` stops at, starting
      from `k` underscores. */
  function FirstFree(base: string, names: seq<string>, k: nat): nat
    decreases LongestName(names) + 1 - (|base| + k)
  {
    if Underscored(base, k) !in names then k
    else
      LongerThanAllNotIn(names, Underscored(base, k));
      FirstFree(base, names, k + 1)
  }

  /** `FirstFree` finds the least count from `k` on whose underscored name
      is free: that name is free and every smaller one from `k` is taken. */
  lemma {:induction false} FirstFreeIsLeast(base: string, names: seq<string>, k: nat)
    ensures var r := FirstFree(base, names, k);
      && k <= r
      && Underscored(base, r) !in names
      && forall j :: k <= j < r ==> Underscored(base, j) in names
    decreases LongestName(names) + 1 - (|base| + k)
  {
    if Underscored(base, k) in names {
      LongerThanAllNotIn(names, Underscored(base, k));
      FirstFreeIsLeast(base, names, k + 1);
    }
  }

  /** The marker name: the formatted name plus the fewest underscores that
      make it differ from every name in `names`. */
  function SubmitFlag(format: FlagFormat, defName: string, names: seq<string>): string {
    Underscored(FlagBase(format, defName), FirstFree(FlagBase(format, defName), names, 0))
  }

  /** Any count whose name is free, with every smaller count taken, is the one
      `FirstFree` finds. */
  lemma LeastFreeIsFirstFree(base: string, names: seq<string>, k: nat)
    requires Underscored(base, k) !in names
    requires forall j :: 0 <= j < k ==> Underscored(base, j) in names
    ensures Underscored(base, k) == Underscored(base, FirstFree(base, names, 0))
  {
    FirstFreeIsLeast(base, names, 0);
  }

  /** The marker name is the formatted name followed by underscores only, it
      equals no field name, and one underscore fewer would collide. */
  lemma SubmitFlagIsLeastFree(format: FlagFormat, defName: string, names: seq<string>)
    ensures var flag := SubmitFlag(format, defName, names);
            var base := FlagBase(format, defName);
      && flag !in names
      && |flag| >= |base| && flag[..|base|] == base
      && (forall i :: |base| <= i < |flag| ==> flag[i] == '_')
      && (forall j :: 0 <= j < |flag| - |base| ==> Underscored(base, j) in names)
  {
    FirstFreeIsLeast(FlagBase(format, defName), names, 0);
  }

  // ---------------------------------------------------------------------------
  // Submissions

  /** A FormSubmission row; `id` is its position in the store. */
  datatype FormSubmission = FormSubmission(id: nat, created: int)

  datatype FormFieldSubmission = FormFieldSubmission(submission: nat, definitionField: FormDefinitionField, value: string)

  /** The FormSubmission and FormFieldSubmission tables. */
  class SubmissionStore {
    var submissions: seq<FormSubmission>
    var fieldSubmissions: seq<FormFieldSubmission>

    ghost predicate Valid()
      reads this
    {
      && (forall i :: 0 <= i < |submissions| ==> submissions[i].id == i)
      && (forall r :: r in fieldSubmissions ==> r.submission < |submissions|)
    }

    constructor ()
      ensures Valid() && submissions == [] && fieldSubmissions == []
    {
      submissions, fieldSubmissions := [], [];
    }

    /** `FormSubmission().save()`. */
    method SaveSubmission(now: int) returns (id: nat)
      requires Valid()
      modifies this
      ensures Valid()
      ensures id == |old(submissions)|
      ensures submissions == old(submissions) + [FormSubmission(id, now)]
      ensures fieldSubmissions == old(fieldSubmissions)
    {
      id := |submissions|;
      submissions := submissions + [FormSubmission(id, now)];
    }

    /** `FormFieldSubmission(...).save()`. */
    method SaveFieldSubmission(row: FormFieldSubmission)
      requires Valid() && row.submission < |submissions|
      modifies this
      ensures Valid()
      ensures submissions == old(submissions)
      ensures fieldSubmissions == old(fieldSubmissions) + [row]
    {
      fieldSubmissions := fieldSubmissions + [row];
    }
  }

  /** The rows `log` writes for `data` under submission `id`. */
  function LogRows(id: nat, dict: map<string, FormDefinitionField>, data: seq<FormDataEntry>): (rows: seq<FormFieldSubmission>)
    requires forall i :: 0 <= i < |data| ==> data[i].name in dict
    ensures |rows| == |data|
    ensures forall i :: 0 <= i < |data| ==>
              rows[i] == FormFieldSubmission(id, dict[data[i].name], data[i].value)
  {
    seq(|data|, i requires 0 <= i < |data| => FormFieldSubmission(id, dict[data[i].name], data[i].value))
  }

  lemma PrefixExtend<T>(s: seq<T>, i: nat)
    requires i < |s|
    ensures s[..i + 1] == s[..i] + [s[i]]
  {
  }

  /** `submission.fields.all()`: the field-submissions of submission `id`, in
      creation order. */
  function FieldsOf(rows: seq<FormFieldSubmission>, id: nat): seq<FormFieldSubmission> {
    if |rows| == 0 then []
    else FieldsOf(rows[..|rows| - 1], id) + if rows[|rows| - 1].submission == id then [rows[|rows| - 1]] else []
  }

  /** Every row of `submission.fields.all()` is a row of the table and
      belongs to that submission. */
  lemma {:induction false} FieldsOfBelong(rows: seq<FormFieldSubmission>, id: nat)
    ensures forall x :: x in FieldsOf(rows, id) ==> x in rows && x.submission == id
  {
    if |rows| > 0 {
      var front := rows[..|rows| - 1];
      FieldsOfBelong(front, id);
      assert forall x :: x in front ==> x in rows;
    }
  }

  lemma {:induction false} FieldsOfAppend(a: seq<FormFieldSubmission>, b: seq<FormFieldSubmission>, id: nat)
    ensures FieldsOf(a + b, id) == FieldsOf(a, id) + FieldsOf(b, id)
    decreases |b|
  {
    if |b| == 0 {
      assert a + b == a;
    } else {
      var front := b[..|b| - 1];
      FieldsOfAppend(a, front, id);
      assert (a + b)[..|a + b| - 1] == a + front;
    }
  }

  lemma {:induction false} FieldsOfNone(rows: seq<FormFieldSubmission>, id: nat)
    requires forall r :: r in rows ==> r.submission != id
    ensures FieldsOf(rows, id) == []
  {
    if |rows| > 0 {
      FieldsOfNone(rows[..|rows| - 1], id);
    }
  }

  lemma {:induction false} FieldsOfAll(rows: seq<FormFieldSubmission>, id: nat)
    requires forall i :: 0 <= i < |rows| ==> rows[i].submission == id
    ensures FieldsOf(rows, id) == rows
  {
    if |rows| > 0 {
      var front := rows[..|rows| - 1];
      FieldsOfAll(front, id);
      assert FieldsOf(rows, id) == front + [rows[|rows| - 1]];
      assert front + [rows[|rows| - 1]] == rows;
    }
  }

  /** `FormSubmission.form_definition`: the definition of the first
      field-submission's field, None when there is none. */
  function SubmissionDefinition(rows: seq<FormFieldSubmission>): (def: Option<FormDefinition>)
    ensures def.None? <==> |rows| == 0
    ensures def.Some? ==> def.value == rows[0].definitionField.formDefinition
  {
    if |rows| > 0 then Some(rows[0].definitionField.formDefinition) else None
  }

  /** Rows appended under a fresh id are exactly that submission's fields. */
  lemma FreshSubmissionFields(oldRows: seq<FormFieldSubmission>, rows: seq<FormFieldSubmission>, id: nat)
    requires forall r :: r in oldRows ==> r.submission < id
    requires forall i :: 0 <= i < |rows| ==> rows[i].submission == id
    ensures FieldsOf(oldRows + rows, id) == rows
  {
    FieldsOfAppend(oldRows, rows, id);
    FieldsOfNone(oldRows, id);
    FieldsOfAll(rows, id);
  }

  /** After `log`, the new submission's field-submissions are exactly the rows
      written for the form data, one per entry, each naming the included
      definition field of the entry's name and holding its value; its form
      definition is `def` when there was at least one entry and None otherwise. */
  lemma LoggedSubmission(def: FormDefinition, oldRows: seq<FormFieldSubmission>, id: nat, data: seq<FormDataEntry>)
    requires forall f :: f in def.fields ==> f.formDefinition == def
    requires forall r :: r in oldRows ==> r.submission < id
    requires forall i :: 0 <= i < |data| ==>
               data[i].name in FieldDict(def.fields) && FieldDict(def.fields)[data[i].name].includeResult
    ensures FieldsOf(oldRows + LogRows(id, FieldDict(def.fields), data), id) == LogRows(id, FieldDict(def.fields), data)
    ensures forall i :: 0 <= i < |data| ==>
              var row := LogRows(id, FieldDict(def.fields), data)[i];
              && row.definitionField.name == data[i].name
              && row.definitionField.includeResult
              && row.definitionField in def.fields
              && row.value == data[i].value
    ensures SubmissionDefinition(FieldsOf(oldRows + LogRows(id, FieldDict(def.fields), data), id))
            == if |data| > 0 then Some(def) else None
  {
    var dict := FieldDict(def.fields);
    var rows := LogRows(id, dict, data);
    FreshSubmissionFields(oldRows, rows, id);
    if |data| > 0 {
      assert rows[0].definitionField in def.fields;
    }
  }

  // ---------------------------------------------------------------------------
  // FormFieldSubmission display: choice_label and __unicode__

  /** `choice_label`: `u'%s' % label` of the first of `choices` whose value
      is `value` (a null value matches nothing), None when there is none. A
      null label gives the text "None". */
  function ChoiceLabel(choices: seq<Choice>, value: string): (r: Option<string>)
    ensures r.None? <==> forall c :: c in choices ==> c.value != Some(value)
    ensures r.Some? ==> exists i :: 0 <= i < |choices| && choices[i].value == Some(value)
                                        && TextOf(choices[i].labelText) == r.value
                                        && forall j :: 0 <= j < i ==> choices[j].value != Some(value)
  {
    if |choices| == 0 then None
    else if choices[0].value == Some(value) then Some(TextOf(choices[0].labelText))
    else
      var rest := ChoiceLabel(choices[1..], value);
      if rest.Some? then
        var i :| 0 <= i < |choices[1..]| && choices[1..][i].value == Some(value) && TextOf(choices[1..][i].labelText) == rest.value
                 && forall j :: 0 <= j < i ==> choices[1..][j].value != Some(value);
        assert TextOf(choices[i + 1].labelText) == rest.value;
        rest
      else rest
  }

  /** The value as `__unicode__` shows it: whole when shorter than 10
      characters, else its first 10 characters and `...`. */
  function Truncated(value: string): (r: string)
    ensures |value| < 10 ==> r == value
    ensures |value| >= 10 ==> |r| == 13 && r[..10] == value[..10] && r[10..] == "..."
  {
    if |value| < 10 then value else value[..10] + "..."
  }

  /** `FormDefinitionField.__unicode__`: the label, or the name when it has none. */
  function FieldText(f: FormDefinitionField): string {
    OrElse(f.labelText, f.name)
  }

  /** `FormFieldSubmission.__unicode__`, given the text of its submission:
      the field's text and the truncated value, then `=` and the choice label
      only when the value matches a choice with a non-empty label, then the
      submission in parentheses. */
  function FieldSubmissionText(row: FormFieldSubmission, submissionText: string): (r: string)
    ensures var head := FieldText(row.definitionField) + ": " + Truncated(row.value);
            var tail := " (" + submissionText + ")";
            var chosen := ChoiceLabel(row.definitionField.choices, row.value);
      && |head| + |tail| <= |r| && r[..|head|] == head && r[|r| - |tail|..] == tail
      && (chosen.None? || chosen.value == "" ==> |r| == |head| + |tail|)
      && (chosen.Some? && chosen.value != "" ==> r[|head|..|r| - |tail|] == "=" + chosen.value)
  {
    var chosen := ChoiceLabel(row.definitionField.choices, row.value);
    var head := FieldText(row.definitionField) + ": " + Truncated(row.value);
    var choice := if Truthy(chosen) then "=" + chosen.value else "";
    var tail := " (" + submissionText + ")";
    var r := head + choice + tail;
    assert r[..|head|] == head && r[|head|..|r| - |tail|] == choice && r[|r| - |tail|..] == tail;
    r
  }
}
