/** The form class and the request handling of form_designer/views.py:
    a Django form built from a form definition, prefill from the query
    string, and the submit / validate / log / mail / redirect decisions. */
module Views {
  import opened Models

  // ---------------------------------------------------------------------------
  // Requests

  /** A QueryDict: every key holds a non-empty list of values. */
  type QueryDict = m: map<string, seq<string>> | forall k :: k in m ==> |m[k]| > 0 witness map[]

  /** `q.get(k)`: the last value given for `k`, None when there is none. */
  function Get(q: QueryDict, k: string): Option<string> {
    if k in q then Some(q[k][|q[k]| - 1]) else None
  }

  datatype HttpMethod = GET | POST | OtherMethod(name: string)

  /** A request method as `request.method` compares it: "GET" and "POST"
      always have their own tag. */
  type Method = m: HttpMethod | m.OtherMethod? ==> m.name != "GET" && m.name != "POST" witness GET

  datatype Request = Request(verb: Method, query: QueryDict, body: QueryDict)

  // ---------------------------------------------------------------------------
  // Prefill of initial values (add_defined_field)

  /** The initial value `add_defined_field` leaves on a field named `name` of
      class `fieldClass` whose initial value was `current`. */
  function Prefilled(fieldClass: FieldClass, name: string, current: InitialValue, initialData: Option<QueryDict>)
    : InitialValue
  {
    if initialData.Some? && initialData.value != map[] && name in initialData.value then
      if !fieldClass.IsMultiple() then Scalar(Get(initialData.value, name).value)
      else Many(initialData.value[name])
    else current
  }

  /** A query-string value replaces the stored initial value exactly when the
      field's name is a key: the whole list for the two multiple-choice
      classes, the last value otherwise. Prefilling twice changes nothing. */
  lemma PrefillRules(fieldClass: FieldClass, name: string, current: InitialValue, initialData: Option<QueryDict>)
    ensures var v := Prefilled(fieldClass, name, current, initialData);
      && (initialData.None? || name !in initialData.value ==> v == current)
      && (initialData.Some? && name in initialData.value && fieldClass.IsMultiple() ==>
            v == Many(initialData.value[name]) && InitialTruthy(v))
      && (initialData.Some? && name in initialData.value && !fieldClass.IsMultiple() ==>
            v == Scalar(initialData.value[name][|initialData.value[name]| - 1]))
      && Prefilled(fieldClass, name, v, initialData) == v
  {
  }

  // ---------------------------------------------------------------------------
  // The hidden submit marker

  /** `forms.BooleanField(required=False, initial=1, widget=widgets.HiddenInput)`. */
  const MarkerField := FormField(BooleanField, NoArgs.(
    required := Some(BoolArg(false)),
    initial := Some(IntArg(1)),
    widget := Some(WidgetArg("widgets.HiddenInput"))))

  /** `names` with repeats dropped, each kept where it first occurs: the key
      order of a dictionary assigned `names` in turn. */
  function FirstOccurrences(names: seq<string>): (r: seq<string>)
    ensures forall x :: x in r <==> x in names
    ensures forall i, j :: 0 <= i < j < |r| ==> r[i] != r[j]
  {
    if |names| == 0 then []
    else
      var front := FirstOccurrences(names[..|names| - 1]);
      var x := names[|names| - 1];
      assert forall y :: y in names <==> y in names[..|names| - 1] || y == x by {
        assert names == names[..|names| - 1] + [x];
      }
      if x in front then front else front + [x]
  }

  lemma FirstOccurrencesStep(names: seq<string>, x: string)
    ensures FirstOccurrences(names + [x])
         == if x in FirstOccurrences(names) then FirstOccurrences(names) else FirstOccurrences(names) + [x]
  {
    assert (names + [x])[..|names|] == names;
  }

  /** Where `x` first occurs in `names`. */
  function FirstIndex(names: seq<string>, x: string): (i: nat)
    requires x in names
    ensures i < |names| && names[i] == x && x !in names[..i]
  {
    var front := names[..|names| - 1];
    if x in front then
      var i := FirstIndex(front, x);
      assert names[..i] == front[..i];
      i
    else
      assert names == front + [names[|names| - 1]];
      |names| - 1
  }

  /** The names are kept in the order of their first occurrences. */
  lemma {:induction false} FirstOccurrencesOrder(names: seq<string>)
    ensures forall i, j :: 0 <= i < j < |FirstOccurrences(names)| ==>
              FirstIndex(names, FirstOccurrences(names)[i]) < FirstIndex(names, FirstOccurrences(names)[j])
  {
    if |names| > 0 {
      var front := names[..|names| - 1];
      var x := names[|names| - 1];
      var r, r' := FirstOccurrences(names), FirstOccurrences(front);
      FirstOccurrencesOrder(front);
      forall i, j | 0 <= i < j < |r| ensures FirstIndex(names, r[i]) < FirstIndex(names, r[j]) {
        assert r[i] in r' && FirstIndex(names, r[i]) == FirstIndex(front, r[i]);
        if j < |r'| {
          assert FirstIndex(names, r[j]) == FirstIndex(front, r[j]);
        } else {
          assert r[j] == x && x !in front;
        }
      }
    }
  }

  /** The initial values the definition fields hold now. */
  ghost function Initials(all: seq<FormDefinitionField>): (r: seq<InitialValue>)
    reads all
    ensures |r| == |all|
  {
    seq(|all|, j requires 0 <= j < |all| reads all => all[j].initial)
  }

  /** The initial values of `all` once each was prefilled from `initialData`,
      starting from `initials`. */
  function PrefilledAll(all: seq<FormDefinitionField>, initials: seq<InitialValue>, initialData: Option<QueryDict>)
    : (r: seq<InitialValue>)
    requires |initials| == |all|
    ensures |r| == |all|
  {
    seq(|all|, j requires 0 <= j < |all| => Prefilled(all[j].fieldClass, all[j].name, initials[j], initialData))
  }

  /** The Django field `add_defined_field` builds for `f` holding `initial`. */
  function FormFieldFor(f: FormDefinitionField, initial: InitialValue): FormField {
    FormField(f.fieldClass, PolicyArgs(f, initial))
  }

  lemma SameColumnsSameField(a: FormDefinitionField, b: FormDefinitionField, initial: InitialValue)
    requires a.SameColumns(b)
    ensures FormFieldFor(a, initial) == FormFieldFor(b, initial)
  {
  }

  /** The fields a form gets from adding the first `n` of `all` in turn,
      `initials[j]` being the initial value of `all[j]` when it is added: a
      later field of the same name replaces an earlier one. */
  function BuiltFields(all: seq<FormDefinitionField>, initials: seq<InitialValue>, n: nat): map<string, FormField>
    requires |initials| == |all| && n <= |all|
  {
    if n == 0 then map[]
    else BuiltFields(all, initials, n - 1)[all[n - 1].name := FormFieldFor(all[n - 1], initials[n - 1])]
  }

  /** Each name of the first `n` fields is a key, and no other. */
  lemma {:induction false} BuiltFieldsKeys(all: seq<FormDefinitionField>, initials: seq<InitialValue>, n: nat)
    requires |initials| == |all| && n <= |all|
    ensures forall k :: k in BuiltFields(all, initials, n) <==> exists j :: 0 <= j < n && all[j].name == k
  {
    if n > 0 {
      var m := n - 1;
      BuiltFieldsKeys(all, initials, m);
      forall k
        ensures k in BuiltFields(all, initials, n) <==> exists j :: 0 <= j < n && all[j].name == k
      {
        if k == all[m].name {
          assert all[m].name == k;
        } else if exists j :: 0 <= j < n && all[j].name == k {
          var j :| 0 <= j < n && all[j].name == k;
          assert j < m && all[j].name == k;
        }
      }
    }
  }

  /** The field under a name is built from the last of the first `n` fields
      with that name. */
  lemma {:induction false} BuiltFieldsLast(all: seq<FormDefinitionField>, initials: seq<InitialValue>, n: nat, j: nat)
    requires |initials| == |all| && j < n <= |all|
    requires forall l :: j < l < n ==> all[l].name != all[j].name
    ensures all[j].name in BuiltFields(all, initials, n)
    ensures BuiltFields(all, initials, n)[all[j].name] == FormFieldFor(all[j], initials[j])
  {
    if j < n - 1 {
      BuiltFieldsLast(all, initials, n - 1, j);
    }
  }

  /** The built form holds a field under exactly the names of the definition
      fields, and each is built from the field `get_field_dict` keeps for that
      name, the last one, with that field's initial value. */
  lemma BuiltFieldsLastWins(all: seq<FormDefinitionField>, initials: seq<InitialValue>)
    requires |initials| == |all|
    ensures forall k :: k in BuiltFields(all, initials, |all|) <==> k in FieldDict(all)
    ensures forall k :: k in FieldDict(all) ==>
              BuiltFields(all, initials, |all|)[k] == FormFieldFor(FieldDict(all)[k], initials[LastIndex(all, k)])
  {
    BuiltFieldsKeys(all, initials, |all|);
    forall k
      ensures k in BuiltFields(all, initials, |all|) <==> k in FieldDict(all)
    {
      if k in FieldDict(all) {
        BuiltFieldsLast(all, initials, |all|, LastIndex(all, k));
      } else {
        assert forall j :: 0 <= j < |all| ==> Names(all)[j] != k;
      }
    }
    forall k | k in FieldDict(all)
      ensures BuiltFields(all, initials, |all|)[k] == FormFieldFor(FieldDict(all)[k], initials[LastIndex(all, k)])
    {
      FieldDictIsLast(all, k);
      BuiltFieldsLast(all, initials, |all|, LastIndex(all, k));
    }
  }

  /** What one request reads of a definition: its name, its field rows in
      the order `FormDefinition.fields` holds them and the initial value each
      row holds. */
  datatype Loaded = Loaded(name: string, rows: seq<FormDefinitionField>, initials: seq<InitialValue>)
  {
    predicate Valid() {
      |initials| == |rows|
    }
  }

  /** The definition as it stands in the current heap. */
  ghost function LoadDefinition(def: FormDefinition): (ld: Loaded)
    reads def, def.fields
    ensures ld.Valid() && ld.name == def.name && ld.rows == def.fields
  {
    Loaded(def.name, def.fields, Initials(def.fields))
  }

  /** A request that changes neither the definition nor its field rows reads
      the definition it started with. */
  twostate lemma LoadUnchanged(def: FormDefinition)
    requires unchanged(def) && unchanged(def.fields)
    ensures LoadDefinition(def) == old(LoadDefinition(def))
  {
    assert Initials(def.fields) == old(Initials(def.fields));
  }

  /** `form_definition.submit_flag_name` under the configured format. */
  function FlagName(ld: Loaded, format: FlagFormat): string {
    SubmitFlag(format, ld.name, Names(ld.rows))
  }

  /** The key order of `DesignedForm(def, ...)`: each field name where it
      first occurs, then the submit flag. */
  function DesignedKeys(ld: Loaded, format: FlagFormat): seq<string> {
    FirstOccurrences(Names(ld.rows)) + [FlagName(ld, format)]
  }

  /** The fields of `DesignedForm(def, initialData, ...)`. */
  function DesignedFields(ld: Loaded, format: FlagFormat, initialData: Option<QueryDict>): map<string, FormField>
    requires ld.Valid()
  {
    BuiltFields(ld.rows, PrefilledAll(ld.rows, ld.initials, initialData), |ld.rows|)[FlagName(ld, format) := MarkerField]
  }

  /** A designed form lists each key once and has a field for exactly its
      keys: one per definition-field name and the marker. The marker's name
      is no field name, so it replaces no defined field; every other field is
      built from the field `get_field_dict` keeps for its name, with that
      field's initial value prefilled from `initialData`. */
  lemma DesignedFieldsShape(ld: Loaded, format: FlagFormat, initialData: Option<QueryDict>)
    requires ld.Valid()
    ensures var keys := DesignedKeys(ld, format);
      && (forall i, j :: 0 <= i < j < |keys| ==> keys[i] != keys[j])
      && (forall k :: k in DesignedFields(ld, format, initialData) <==> k in keys)
    ensures FlagName(ld, format) !in FieldDict(ld.rows)
    ensures forall k :: k in DesignedFields(ld, format, initialData) <==> k in FieldDict(ld.rows) || k == FlagName(ld, format)
    ensures DesignedFields(ld, format, initialData)[FlagName(ld, format)] == MarkerField
    ensures forall k :: k in FieldDict(ld.rows) ==>
              var f := FieldDict(ld.rows)[k];
              DesignedFields(ld, format, initialData)[k]
                == FormFieldFor(f, Prefilled(f.fieldClass, k, ld.initials[LastIndex(ld.rows, k)], initialData))
  {
    var all := ld.rows;
    var flag := FlagName(ld, format);
    var initials := PrefilledAll(all, ld.initials, initialData);
    SubmitFlagIsLeastFree(format, ld.name, Names(all));
    BuiltFieldsLastWins(all, initials);
    forall k | k in FieldDict(all)
      ensures var f := FieldDict(all)[k];
              DesignedFields(ld, format, initialData)[k]
                == FormFieldFor(f, Prefilled(f.fieldClass, k, ld.initials[LastIndex(all, k)], initialData))
    {
      FieldDictIsLast(all, k);
    }
  }

  /** Every key of a designed form has a field. */
  lemma DesignedKeysHaveFields(ld: Loaded, format: FlagFormat, initialData: Option<QueryDict>)
    requires ld.Valid()
    ensures forall k :: k in DesignedKeys(ld, format) ==> k in DesignedFields(ld, format, initialData)
  {
    DesignedFieldsShape(ld, format, initialData);
  }

  // ---------------------------------------------------------------------------
  // DesignedForm

  class DesignedForm {
    /** `self.fields`, a SortedDict: its keys in insertion order, and its values. */
    var keys: seq<string>
    var fields: map<string, FormField>
    /** The bound data, None for an unbound form. */
    const data: Option<QueryDict>

    ghost predicate Valid()
      reads this
    {
      && (forall i, j :: 0 <= i < j < |keys| ==> keys[i] != keys[j])
      && (forall k :: k in fields <==> k in keys)
    }

    /** `DesignedForm(form_definition, initial_data, data)`: the fields of
        the definition, prefilled from `initialData`, then the marker under
        the submit-flag name; `DesignedFieldsShape` spells out what that
        gives. */
    constructor (def: FormDefinition, format: FlagFormat, initialData: Option<QueryDict>, data: Option<QueryDict>)
      ensures Valid() && this.data == data
      ensures keys == DesignedKeys(old(LoadDefinition(def)), format)
      ensures fields == DesignedFields(old(LoadDefinition(def)), format, initialData)
    {
      ghost var ld := LoadDefinition(def);
      keys, fields, this.data := [], map[], data;
      new;
      AddDefinedFields(def.fields, initialData, ld.initials);
      var flag := def.SubmitFlagName(format);
      SetField(flag, MarkerField);
    }

    /** The loop of `__init__`: `add_defined_field` for each field row, as
        `fields.all()` loads it afresh, starting from an empty form. */
    method AddDefinedFields(all: seq<FormDefinitionField>, initialData: Option<QueryDict>,
                            ghost initials: seq<InitialValue>)
      requires keys == [] && fields == map[]
      requires initials == Initials(all)
      modifies this
      ensures Valid()
      ensures keys == FirstOccurrences(Names(all))
      ensures fields == BuiltFields(all, PrefilledAll(all, initials, initialData), |all|)
    {
      ghost var after := PrefilledAll(all, initials, initialData);
      for i := 0 to |all|
        invariant Valid()
        invariant keys == FirstOccurrences(Names(all[..i]))
        invariant fields == BuiltFields(all, after, i)
      {
        AddLoaded(all, i, initialData, after);
      }
      assert all[..|all|] == all;
    }

    /** One turn of the loop in `AddDefinedFields`: load `all[i]` and add it. */
    method AddLoaded(all: seq<FormDefinitionField>, i: nat, initialData: Option<QueryDict>, ghost after: seq<InitialValue>)
      requires i < |all| == |after|
      requires Valid() && keys == FirstOccurrences(Names(all[..i])) && fields == BuiltFields(all, after, i)
      requires after[i] == Prefilled(all[i].fieldClass, all[i].name, all[i].initial, initialData)
      modifies this
      ensures Valid() && keys == FirstOccurrences(Names(all[..i + 1])) && fields == BuiltFields(all, after, i + 1)
    {
      var row := new FormDefinitionField.Load(all[i]);
      AddDefinedField(row, initialData);
      SameColumnsSameField(row, all[i], row.initial);
      NamesStep(all, i);
      FirstOccurrencesStep(Names(all[..i]), all[i].name);
    }

    /** `self.fields[key] = field`: a new key goes last, an existing key keeps
        its place and gets the new field. */
    method SetField(key: string, field: FormField)
      requires Valid()
      modifies this
      ensures Valid()
      ensures fields == old(fields)[key := field]
      ensures keys == if key in old(keys) then old(keys) else old(keys) + [key]
    {
      if key !in fields {
        keys := keys + [key];
      }
      fields := fields[key := field];
    }

    /** `add_defined_field`: prefill `def_field.initial`, then add the field
        built from its policy arguments under its name. */
    method AddDefinedField(defField: FormDefinitionField, initialData: Option<QueryDict>)
      requires Valid()
      modifies this, defField`initial
      ensures Valid()
      ensures defField.initial
              == Prefilled(defField.fieldClass, defField.name, old(defField.initial), initialData)
      ensures fields == old(fields)[defField.name := FormFieldFor(defField, defField.initial)]
      ensures keys == if defField.name in old(keys) then old(keys) else old(keys) + [defField.name]
    {
      if initialData.Some? && initialData.value != map[] && defField.name in initialData.value {
        if !defField.fieldClass.IsMultiple() {
          defField.initial := Scalar(Get(initialData.value, defField.name).value);
        } else {
          defField.initial := Many(initialData.value[defField.name]);
        }
      }
      var args := defField.GetFormFieldInitArgs();
      PolicyDetermines(defField, defField.initial, args);
      SetField(defField.name, FormField(defField.fieldClass, args));
    }
  }

  // ---------------------------------------------------------------------------
  // process_form

  const DefaultSuccessMessage := "Thank you, the data was submitted successfully."
  const DefaultErrorMessage := "The data could not be submitted, please try again."

  /** The data a request submits the form with: the POST data of a POST whose
      POST marker is truthy, the query of a GET whose query marker is truthy,
      nothing otherwise. */
  function SubmittedData(request: Request, flag: string): Option<QueryDict> {
    if request.verb == POST && Truthy(Get(request.body, flag)) then Some(request.body)
    else if request.verb == GET && Truthy(Get(request.query, flag)) then Some(request.query)
    else None
  }

  /** A request is a submission exactly when it is a POST with a truthy POST
      marker or a GET with a truthy query marker; any other method, or a
      marker that is missing or empty, makes it an initial display. */
  lemma SubmissionIff(request: Request, flag: string)
    ensures SubmittedData(request, flag).Some? <==>
              || (request.verb == POST && Truthy(Get(request.body, flag)))
              || (request.verb == GET && Truthy(Get(request.query, flag)))
    ensures request.verb.OtherMethod? ==> SubmittedData(request, flag).None?
    ensures SubmittedData(request, flag).Some? ==>
              SubmittedData(request, flag).value == if request.verb == POST then request.body else request.query
  {
  }

  /** `form.is_valid()` of a form with these fields bound to this data:
      None when the data does not validate, else how each field cleans. */
  type Validator = (map<string, FormField>, QueryDict) -> Option<string -> CleanedValue>

  /** `form.cleaned_data` of a valid form: a cleaned value for every one of
      its fields. */
  function CleanedData(fields: map<string, FormField>, clean: string -> CleanedValue): (cleaned: map<string, CleanedValue>)
    ensures cleaned.Keys == fields.Keys
  {
    map k | k in fields :: clean(k)
  }

  /** The validated form of a submission, None when the request is no
      submission or its data does not validate. It has a field for each of
      its keys and a cleaned value for each of its fields, which is what
      `get_form_data` reads. */
  function Validated(ld: Loaded, format: FlagFormat, request: Request, validate: Validator): (r: Option<BoundForm>)
    requires ld.Valid()
    ensures r.Some? ==> r.value.WellFormed() && r.value.CleanedFor(FieldDict(ld.rows))
  {
    match SubmittedData(request, FlagName(ld, format))
    case None => None
    case Some(data) =>
      var fields := DesignedFields(ld, format, None);
      var keys := DesignedKeys(ld, format);
      match validate(fields, data)
      case None => None
      case Some(clean) =>
        var cleaned := CleanedData(fields, clean);
        DesignedKeysHaveFields(ld, format, None);
        BoundReadable(keys, fields, cleaned, FieldDict(ld.rows));
        Some(BoundForm(keys, fields, cleaned))
  }

  /** A form whose keys all have fields, and whose fields all have cleaned
      values, can be read by `get_form_data`. */
  lemma BoundReadable(keys: seq<string>, fields: map<string, FormField>, cleaned: map<string, CleanedValue>,
                      dict: map<string, FormDefinitionField>)
    requires forall k :: k in keys ==> k in fields
    requires forall k :: k in fields ==> k in cleaned
    ensures BoundForm(keys, fields, cleaned).WellFormed() && BoundForm(keys, fields, cleaned).CleanedFor(dict)
  {
  }

  /** A submission whose data validates is the validated form, bound to
      that data's cleaned values. */
  lemma ValidatedOf(ld: Loaded, format: FlagFormat, request: Request, validate: Validator,
                    data: QueryDict, clean: string -> CleanedValue)
    requires ld.Valid()
    requires SubmittedData(request, FlagName(ld, format)) == Some(data)
    requires validate(DesignedFields(ld, format, None), data) == Some(clean)
    ensures var fields := DesignedFields(ld, format, None);
      Validated(ld, format, request, validate) == Some(BoundForm(DesignedKeys(ld, format), fields, CleanedData(fields, clean)))
  {
  }

  /** A `request.notifications` message, sent instead of the `message`
      context entry when django_notify is installed. */
  datatype Notice = SuccessNotice(text: string) | ErrorNotice(text: string)

  /** How the form in the result is built: `DesignedForm(form_definition,
      initialData, data)`. */
  datatype FormArgs = FormArgs(initialData: Option<QueryDict>, data: Option<QueryDict>)

  /** What `process_form` shows: the message or notice it gives and the
      arguments of the form in the context. */
  datatype Plan = Plan(message: Option<string>, notice: Option<Notice>, form: FormArgs)

  /** How `process_form` passes on its success or error text: as a
      `request.notifications` notice when django_notify is installed, else as
      the `message` context entry. */
  function Feedback(settings: AppSettings, text: string, success: bool): (Option<string>, Option<Notice>) {
    if settings.notifyInstalled then (None, Some(if success then SuccessNotice(text) else ErrorNotice(text)))
    else (Some(text), None)
  }

  /** The branches of `process_form` for a request whose submitted data is
      `submitted`, `valid` telling whether that data validates. */
  function PlanFor(def: FormDefinition, settings: AppSettings, request: Request,
                   submitted: Option<QueryDict>, valid: bool): Plan
  {
    if submitted.None? then
      Plan(None, None, FormArgs(if def.allowGetInitial then Some(request.query) else None, None))
    else if valid then
      var (message, notice) := Feedback(settings, OrElse(def.successMessage, DefaultSuccessMessage), true);
      Plan(message, notice, FormArgs(None, if def.successClear then None else submitted))
    else
      var (message, notice) := Feedback(settings, OrElse(def.errorMessage, DefaultErrorMessage), false);
      Plan(message, notice, FormArgs(None, submitted))
  }

  /** What `process_form` shows. After a valid submission the form is
      rebuilt blank exactly when the definition clears it; an invalid one
      keeps the bound form and gives the error text; an initial display
      prefills from the query exactly when the definition allows it. A
      submission's text goes to the notice exactly when notifications are
      installed, and to the message otherwise. */
  lemma PlanRules(def: FormDefinition, settings: AppSettings, request: Request,
                  submitted: Option<QueryDict>, valid: bool)
    ensures var p := PlanFor(def, settings, request, submitted, valid);
      && (submitted.Some? && valid ==>
            && p.form.initialData.None?
            && (p.form.data.None? <==> def.successClear)
            && (p.message.Some? || p.notice.Some?)
            && (p.message.Some? ==> p.message.value == OrElse(def.successMessage, DefaultSuccessMessage))
            && (p.notice.Some? ==> p.notice.value == SuccessNotice(OrElse(def.successMessage, DefaultSuccessMessage))))
      && (submitted.Some? && !valid ==>
            && p.form == FormArgs(None, submitted)
            && (p.message.Some? || p.notice.Some?)
            && (p.message.Some? ==> p.message.value == OrElse(def.errorMessage, DefaultErrorMessage))
            && (p.notice.Some? ==> p.notice.value == ErrorNotice(OrElse(def.errorMessage, DefaultErrorMessage))))
      && (submitted.None? ==>
            && p.message.None? && p.notice.None?
            && p.form.data.None?
            && (p.form.initialData.Some? <==> def.allowGetInitial)
            && (p.form.initialData.Some? ==> p.form.initialData.value == request.query))
      && (p.message.Some? ==> p.notice.None?)
      && (p.notice.Some? <==> submitted.Some? && settings.notifyInstalled)
  {
  }

  /** A value `process_form` puts in the template context. */
  datatype ContextValue =
    | MessageValue(message: Option<string>)
    | FormValue(form: DesignedForm)
    | DefinitionValue(definition: FormDefinition)
    | TemplateValue(templateName: string)

  /** What `process_form` returns, or the exception it lets through. */
  datatype Response =
    | Redirect(location: string)
    | Context(entries: map<string, ContextValue>)
    | Raised(error: MailError)

  /** The keys, fields and bound data of a form. */
  ghost function Contents(f: DesignedForm): (seq<string>, map<string, FormField>, Option<QueryDict>)
    reads f
  {
    (f.keys, f.fields, f.data)
  }

  /** The keys, fields and bound data of `DesignedForm(def, initialData,
      data)` for a definition loaded as `ld`. */
  function Designed(ld: Loaded, format: FlagFormat, args: FormArgs): (seq<string>, map<string, FormField>, Option<QueryDict>)
    requires ld.Valid()
  {
    (DesignedKeys(ld, format), DesignedFields(ld, format, args.initialData), args.data)
  }

  /** `context.update({'message': ..., 'form': ..., 'form_definition': ...})`. */
  function ShownContext(given: map<string, ContextValue>, message: Option<string>, form: DesignedForm,
                        def: FormDefinition): (entries: map<string, ContextValue>)
    ensures entries.Keys == given.Keys + {"message", "form", "form_definition"}
    ensures forall k :: k in given && k !in {"message", "form", "form_definition"} ==> entries[k] == given[k]
    ensures entries["message"] == MessageValue(message) && entries["form"] == FormValue(form)
    ensures entries["form_definition"] == DefinitionValue(def)
  {
    given["message" := MessageValue(message)]["form" := FormValue(form)]["form_definition" := DefinitionValue(def)]
  }

  /** What `process_form` depends on besides its arguments: the settings,
      form validation, the clock and the two template engines. */
  datatype Environment = Environment(settings: AppSettings, validate: Validator, now: int,
                                     renderString: Renderer, renderMessage: MessageRenderer)

  /** The rows `process_form` can add to: submissions, field submissions
      and the mail sent. */
  datatype Tables = Tables(submissions: seq<FormSubmission>, fieldSubmissions: seq<FormFieldSubmission>,
                           sent: seq<Mail>)

  ghost function TablesOf(store: SubmissionStore, outbox: Outbox): Tables
    reads store, outbox
  {
    Tables(store.submissions, store.fieldSubmissions, outbox.sent)
  }

  /** How `process_form` ends, short of the form object it shows: the mail
      error raised, a redirect, or the context with this message and a form
      built from these arguments. */
  datatype Answer = Raise(error: MailError) | RedirectTo(location: string) | Show(message: Option<string>, form: FormArgs)

  /** Everything `process_form` does: the tables afterwards, the notice
      and the answer. */
  datatype Outcome = Outcome(tables: Tables, notice: Option<Notice>, answer: Answer)

  /** The outcome of `process_form` on a definition loaded as `ld`, the
      tables being `before`: a valid submission leaves the tables as the
      successful-submission steps do and ends as they end; anything else
      leaves the tables alone. The notice and what is shown are the plan's. */
  function Expected(def: FormDefinition, ld: Loaded, request: Request, isCmsPlugin: bool, env: Environment,
                    before: Tables): Outcome
    requires ld.Valid()
  {
    var format := env.settings.submitFlagFormat;
    var bound := Validated(ld, format, request, env.validate);
    var plan := PlanFor(def, env.settings, request, SubmittedData(request, FlagName(ld, format)), bound.Some?);
    if bound.Some? then
      var steps := SuccessSteps(def, ld.rows, bound.value, isCmsPlugin, env, before);
      Outcome(steps.tables, plan.notice, Ended(steps.exit, plan))
    else
      Outcome(before, plan.notice, Show(plan.message, plan.form))
  }

  /** The keys, fields and bound data of a form, as `Contents` gives them. */
  type FormContents = (seq<string>, map<string, FormField>, Option<QueryDict>)

  /** What a caller of `process_form` sees of its response: the exception,
      the redirect, or a context that is the given one updated with a
      message, a form and the definition (the message and the form's
      contents being what is seen); any other context is `Unexpected`. */
  datatype Observation =
    | Raising(error: MailError)
    | Redirecting(location: string)
    | Showing(message: Option<string>, form: FormContents)
    | Unexpected

  /** The form a context response shows, which is what observing it reads. */
  ghost function ShownForm(response: Response): set<DesignedForm> {
    if response.Context? && "form" in response.entries && response.entries["form"].FormValue?
    then {response.entries["form"].form} else {}
  }

  ghost function Observed(response: Response, given: map<string, ContextValue>, def: FormDefinition): Observation
    reads ShownForm(response)
  {
    match response
    case Raised(error) => Raising(error)
    case Redirect(location) => Redirecting(location)
    case Context(entries) =>
      if && "message" in entries && entries["message"].MessageValue?
         && "form" in entries && entries["form"].FormValue?
         && entries == ShownContext(given, entries["message"].message, entries["form"].form, def)
      then Showing(entries["message"].message, Contents(entries["form"].form))
      else Unexpected
  }

  /** What `answer` lets a caller see when the definition is loaded as
      `ld`: for a shown context, the message and the contents of the form
      `DesignedForm` builds from the answer's arguments. */
  function Prescribed(answer: Answer, ld: Loaded, format: FlagFormat): (o: Observation)
    requires ld.Valid()
    ensures o != Unexpected
  {
    match answer
    case Raise(error) => Raising(error)
    case RedirectTo(location) => Redirecting(location)
    case Show(message, args) => Showing(message, Designed(ld, format, args))
  }

  /** A context updated with a message, a form and the definition shows
      that message and that form. */
  lemma ObservedShown(given: map<string, ContextValue>, message: Option<string>, form: DesignedForm, def: FormDefinition)
    ensures Observed(Context(ShownContext(given, message, form, def)), given, def) == Showing(message, Contents(form))
  {
  }

  /** Without a submission nothing is logged or mailed, no notice is
      given, and the context shows no message and a blank form, prefilled
      from the query exactly when the definition allows it. */
  lemma ExpectedInitial(def: FormDefinition, ld: Loaded, request: Request, isCmsPlugin: bool, env: Environment,
                        before: Tables)
    requires ld.Valid()
    requires SubmittedData(request, FlagName(ld, env.settings.submitFlagFormat)).None?
    ensures Expected(def, ld, request, isCmsPlugin, env, before)
            == Outcome(before, None, Show(None, FormArgs(if def.allowGetInitial then Some(request.query) else None, None)))
  {
  }

  /** A submission that does not validate logs and mails nothing; the
      error text (the definition's, else the default) goes to the notice
      when notifications are installed and to the message otherwise, and the
      context shows the form bound to the submitted data. */
  lemma ExpectedInvalid(def: FormDefinition, ld: Loaded, request: Request, isCmsPlugin: bool, env: Environment,
                        before: Tables, submitted: Option<QueryDict>)
    requires ld.Valid()
    requires SubmittedData(request, FlagName(ld, env.settings.submitFlagFormat)) == submitted && submitted.Some?
    requires env.validate(DesignedFields(ld, env.settings.submitFlagFormat, None), submitted.value).None?
    ensures var text := OrElse(def.errorMessage, DefaultErrorMessage);
            var notify := env.settings.notifyInstalled;
      Expected(def, ld, request, isCmsPlugin, env, before)
      == Outcome(before, if notify then Some(ErrorNotice(text)) else None,
                 Show(if notify then None else Some(text), FormArgs(None, submitted)))
  {
  }

  /** What the successful-submission steps leave: the tables, and the
      response that ends the request early, None when it goes on. */
  datatype Steps = Steps(tables: Tables, exit: Option<Response>)

  /** The successful-submission steps on `bound`, the tables being
      `before`: a submission and its field rows logged when the definition
      logs; the mail sent when it has a recipient and the message template
      compiles; the mail error raised when it does not, else a redirect to
      `action or '?'` when the definition redirects outside the CMS plugin. */
  function SuccessSteps(def: FormDefinition, rows: seq<FormDefinitionField>, bound: BoundForm, isCmsPlugin: bool,
                        env: Environment, before: Tables): Steps
    requires bound.WellFormed() && bound.CleanedFor(FieldDict(rows))
  {
    var id := |before.submissions|;
    var dict := FieldDict(rows);
    var mail := if Truthy(def.mailTo) then Some(MailFor(def, FormData(dict, bound), env.renderString, env.renderMessage))
                else None;
    var logged := if def.logData then before.(submissions := before.submissions + [FormSubmission(id, env.now)],
                                              fieldSubmissions := before.fieldSubmissions
                                                                  + LogRows(id, dict, FormData(dict, bound)))
                  else before;
    Steps(if mail.Some? && mail.value.Success? then logged.(sent := logged.sent + [mail.value.value]) else logged,
          if mail.Some? && mail.value.Failure? then Some(Raised(mail.value.error))
          else if def.successRedirect && !isCmsPlugin then Some(Redirect(OrElse(def.action, "?")))
          else None)
  }

  /** The order and conditions of the successful-submission steps: the
      submission is logged exactly when the definition logs, whatever the
      mail then does (the log comes first); a mail is sent exactly when the
      definition has a recipient and its message template compiles, and the
      template error is raised exactly when it does not compile; a redirect,
      to `action` or else `?`, ends the request exactly when nothing was
      raised, the definition redirects and this is not the CMS plugin. */
  lemma SuccessStepsRules(def: FormDefinition, rows: seq<FormDefinitionField>, bound: BoundForm, isCmsPlugin: bool,
                          env: Environment, before: Tables)
    requires bound.WellFormed() && bound.CleanedFor(FieldDict(rows))
    ensures var steps := SuccessSteps(def, rows, bound, isCmsPlugin, env, before);
            var dict := FieldDict(rows);
            var data := FormData(dict, bound);
            var failed := Truthy(def.mailTo) && MailFor(def, data, env.renderString, env.renderMessage).Failure?;
      && (def.logData ==>
            && steps.tables.submissions == before.submissions + [FormSubmission(|before.submissions|, env.now)]
            && steps.tables.fieldSubmissions == before.fieldSubmissions + LogRows(|before.submissions|, dict, data))
      && (!def.logData ==>
            steps.tables.submissions == before.submissions && steps.tables.fieldSubmissions == before.fieldSubmissions)
      && (Truthy(def.mailTo) && MailFor(def, data, env.renderString, env.renderMessage).Success? ==>
            steps.tables.sent == before.sent + [MailFor(def, data, env.renderString, env.renderMessage).value])
      && (!(Truthy(def.mailTo) && MailFor(def, data, env.renderString, env.renderMessage).Success?) ==>
            steps.tables.sent == before.sent)
      && (steps.exit.Some? && steps.exit.value.Raised? <==> failed)
      && (failed ==> steps.exit == Some(Raised(MailFor(def, data, env.renderString, env.renderMessage).error)))
      && (steps.exit.Some? && steps.exit.value.Redirect? <==> !failed && def.successRedirect && !isCmsPlugin)
      && (steps.exit.Some? && steps.exit.value.Redirect? ==> steps.exit.value.location == OrElse(def.action, "?"))
      && (steps.exit.None? <==> !failed && !(def.successRedirect && !isCmsPlugin))
  {
  }

  /** How a valid submission ends: as the steps end it, or else showing
      the plan's message and form. */
  function Ended(exit: Option<Response>, plan: Plan): Answer {
    match exit
    case Some(Raised(error)) => Raise(error)
    case Some(Redirect(location)) => RedirectTo(location)
    case _ => Show(plan.message, plan.form)
  }

  /** A submission that validates runs the successful-submission steps on
      the validated form; the answer is the one those steps end with, else
      the context with the success text and the bound form (a blank one when
      the definition clears it). */
  lemma ExpectedValid(def: FormDefinition, ld: Loaded, request: Request, isCmsPlugin: bool, env: Environment,
                      before: Tables, submitted: Option<QueryDict>, bound: BoundForm)
    requires ld.Valid()
    requires SubmittedData(request, FlagName(ld, env.settings.submitFlagFormat)) == submitted
    requires Validated(ld, env.settings.submitFlagFormat, request, env.validate) == Some(bound)
    ensures bound.WellFormed() && bound.CleanedFor(FieldDict(ld.rows))
    ensures var steps := SuccessSteps(def, ld.rows, bound, isCmsPlugin, env, before);
            var plan := PlanFor(def, env.settings, request, submitted, true);
      Expected(def, ld, request, isCmsPlugin, env, before) == Outcome(steps.tables, plan.notice, Ended(steps.exit, plan))
  {
  }

  /** `process_form(request, form_definition, context, is_cms_plugin)`:
      the branches `PlanFor` chooses, carried out in the source's order. */
  method ProcessForm(request: Request, def: FormDefinition, context: map<string, ContextValue>, isCmsPlugin: bool,
                     env: Environment, store: SubmissionStore, outbox: Outbox)
    returns (response: Response, notice: Option<Notice>)
    requires store.Valid()
    modifies store, outbox
    ensures store.Valid()
    ensures var ld := old(LoadDefinition(def));
            var expected := Expected(def, ld, request, isCmsPlugin, env, old(TablesOf(store, outbox)));
      (TablesOf(store, outbox), notice, Observed(response, context, def))
      == (expected.tables, expected.notice, Prescribed(expected.answer, ld, env.settings.submitFlagFormat))
  {
    ghost var ld := LoadDefinition(def);
    var form, isSubmit := SubmittedForm(request, def, env.settings.submitFlagFormat);
    if isSubmit {
      response, notice := HandleSubmission(request, def, form, context, isCmsPlugin, env, store, outbox, ld, TablesOf(store, outbox));
    } else {
      ExpectedInitial(def, ld, request, isCmsPlugin, env, TablesOf(store, outbox));
      response := InitialDisplay(request, def, context, env.settings.submitFlagFormat, ld);
      notice := None;
    }
  }

  /** The opening of `process_form`: a POST with a truthy POST marker or a
      GET with a truthy query marker is a submission, and the form is built
      bound to that data. */
  method SubmittedForm(request: Request, def: FormDefinition, format: FlagFormat)
    returns (form: DesignedForm?, isSubmit: bool)
    ensures LoadDefinition(def) == old(LoadDefinition(def))
    ensures var ld := old(LoadDefinition(def));
            var submitted := SubmittedData(request, FlagName(ld, format));
      && (isSubmit <==> submitted.Some?)
      && (isSubmit ==> && form != null && fresh(form) && form.data == submitted
                       && Contents(form) == Designed(ld, format, FormArgs(None, form.data)))
  {
    var flag := def.SubmitFlagName(format);
    form := null;
    isSubmit := false;
    if request.verb == POST && Truthy(Get(request.body, flag)) {
      form := new DesignedForm(def, format, None, Some(request.body));
      isSubmit := true;
    }
    LoadUnchanged(def);
    if request.verb == GET && Truthy(Get(request.query, flag)) {
      form := new DesignedForm(def, format, None, Some(request.query));
      isSubmit := true;
    }
    LoadUnchanged(def);
  }

  /** The submission branch of `process_form`: `form.is_valid()` chooses
      between the success and the error steps. */
  method HandleSubmission(request: Request, def: FormDefinition, form: DesignedForm,
                          context: map<string, ContextValue>, isCmsPlugin: bool, env: Environment,
                          store: SubmissionStore, outbox: Outbox, ghost ld: Loaded, ghost before: Tables)
    returns (response: Response, notice: Option<Notice>)
    requires ld == LoadDefinition(def) && store.Valid() && before == TablesOf(store, outbox)
    requires form.data.Some? && SubmittedData(request, FlagName(ld, env.settings.submitFlagFormat)) == form.data
    requires Contents(form) == Designed(ld, env.settings.submitFlagFormat, FormArgs(None, form.data))
    modifies store, outbox
    ensures store.Valid()
    ensures var expected := Expected(def, ld, request, isCmsPlugin, env, old(TablesOf(store, outbox)));
      (TablesOf(store, outbox), notice, Observed(response, context, def))
      == (expected.tables, expected.notice, Prescribed(expected.answer, ld, env.settings.submitFlagFormat))
  {
    var clean := env.validate(form.fields, form.data.value);
    if clean.Some? {
      var cleaned := CleanedData(form.fields, clean.value);
      ValidatedOf(ld, env.settings.submitFlagFormat, request, env.validate, form.data.value, clean.value);
      ghost var bound := BoundForm(form.keys, form.fields, cleaned);
      ExpectedValid(def, ld, request, isCmsPlugin, env, TablesOf(store, outbox), form.data, bound);
      response, notice := ValidSubmission(request, def, form, cleaned, context, isCmsPlugin, env, store, outbox, ld, TablesOf(store, outbox));
    } else {
      ExpectedInvalid(def, ld, request, isCmsPlugin, env, TablesOf(store, outbox), form.data);
      response, notice := InvalidSubmission(request, def, form, context, env, ld);
    }
  }

  /** The valid-submission branch of `process_form`: the success text goes
      to the notice or the message, the steps of `SuccessfulSubmission` run,
      and unless they end the request the context gets the bound form, or a
      blank one when the definition clears it. */
  method ValidSubmission(request: Request, def: FormDefinition, form: DesignedForm, cleaned: map<string, CleanedValue>,
                         context: map<string, ContextValue>, isCmsPlugin: bool, env: Environment,
                         store: SubmissionStore, outbox: Outbox, ghost ld: Loaded, ghost before: Tables)
    returns (response: Response, notice: Option<Notice>)
    requires ld == LoadDefinition(def) && store.Valid() && before == TablesOf(store, outbox)
    requires form.data.Some? && Contents(form) == Designed(ld, env.settings.submitFlagFormat, FormArgs(None, form.data))
    requires var bound := BoundForm(form.keys, form.fields, cleaned);
      bound.WellFormed() && bound.CleanedFor(FieldDict(ld.rows))
    modifies store, outbox
    ensures store.Valid()
    ensures var steps := SuccessSteps(def, ld.rows, BoundForm(form.keys, form.fields, cleaned), isCmsPlugin, env, before);
            var plan := PlanFor(def, env.settings, request, form.data, true);
      (TablesOf(store, outbox), notice, Observed(response, context, def))
      == (steps.tables, plan.notice, Prescribed(Ended(steps.exit, plan), ld, env.settings.submitFlagFormat))
  {
    var format := env.settings.submitFlagFormat;
    var feedback := Feedback(env.settings, OrElse(def.successMessage, DefaultSuccessMessage), true);
    var message := feedback.0;
    notice := feedback.1;
    ghost var plan := PlanFor(def, env.settings, request, form.data, true);
    var exit := SuccessfulSubmission(def, BoundForm(form.keys, form.fields, cleaned), isCmsPlugin, env, store, outbox, ld.rows, before);
    if exit.Some? {
      response := exit.value;
    } else {
      response := ShowSuccess(def, form, message, context, format, ld);
      assert Ended(exit, plan) == Show(message, FormArgs(None, if def.successClear then None else form.data));
    }
  }

  /** The end of the valid-submission branch when nothing redirected: the
      context gets the bound form, or a blank one when the definition
      clears it. */
  method ShowSuccess(def: FormDefinition, form: DesignedForm, message: Option<string>,
                     context: map<string, ContextValue>, format: FlagFormat, ghost ld: Loaded)
    returns (response: Response)
    requires ld == LoadDefinition(def)
    requires Contents(form) == Designed(ld, format, FormArgs(None, form.data))
    ensures Observed(response, context, def)
            == Prescribed(Show(message, FormArgs(None, if def.successClear then None else form.data)), ld, format)
  {
    var shown := form;
    if def.successClear {
      shown := new DesignedForm(def, format, None, None);
    }
    response := Context(ShownContext(context, message, shown, def));
    ObservedShown(context, message, shown, def);
  }

  /** The invalid-submission branch of `process_form`: the error text goes
      to the notice or the message, and the context gets the bound form. */
  method InvalidSubmission(request: Request, def: FormDefinition, form: DesignedForm,
                           context: map<string, ContextValue>, env: Environment, ghost ld: Loaded)
    returns (response: Response, notice: Option<Notice>)
    requires ld == LoadDefinition(def)
    requires form.data.Some? && Contents(form) == Designed(ld, env.settings.submitFlagFormat, FormArgs(None, form.data))
    ensures var plan := PlanFor(def, env.settings, request, form.data, false);
      (notice, Observed(response, context, def))
      == (plan.notice, Prescribed(Show(plan.message, plan.form), ld, env.settings.submitFlagFormat))
  {
    var feedback := Feedback(env.settings, OrElse(def.errorMessage, DefaultErrorMessage), false);
    var message := feedback.0;
    notice := feedback.1;
    response := Context(ShownContext(context, message, form, def));
    ObservedShown(context, message, form, def);
  }

  /** The display of `process_form` when nothing is submitted: a blank
      form, prefilled from the query when the definition allows it. */
  method InitialDisplay(request: Request, def: FormDefinition, context: map<string, ContextValue>,
                        format: FlagFormat, ghost ld: Loaded)
    returns (response: Response)
    requires ld == LoadDefinition(def)
    ensures Observed(response, context, def)
            == Prescribed(Show(None, FormArgs(if def.allowGetInitial then Some(request.query) else None, None)), ld, format)
  {
    var initialData := None;
    if def.allowGetInitial {
      initialData := Some(request.query);
    }
    var form := new DesignedForm(def, format, initialData, None);
    response := Context(ShownContext(context, None, form, def));
    ObservedShown(context, None, form, def);
  }

  /** The successful-submission steps of `process_form`, in order: log when
      the definition logs, mail when it has a recipient (a message template
      that fails to compile raises, after the log), then redirect to `action`
      or `?` when it redirects and this is not the CMS plugin. `exit` is the
      response that ends the request early, None when `process_form` goes on. */
  method SuccessfulSubmission(def: FormDefinition, bound: BoundForm, isCmsPlugin: bool, env: Environment,
                              store: SubmissionStore, outbox: Outbox, ghost rows: seq<FormDefinitionField>, ghost before: Tables)
    returns (exit: Option<Response>)
    requires rows == def.fields && before == TablesOf(store, outbox)
    requires bound.WellFormed() && bound.CleanedFor(FieldDict(rows)) && store.Valid()
    modifies store, outbox
    ensures store.Valid()
    ensures Steps(TablesOf(store, outbox), exit) == SuccessSteps(def, rows, bound, isCmsPlugin, env, before)
    ensures exit.Some? ==> exit.value.Raised? || exit.value.Redirect?
    ensures LoadDefinition(def) == old(LoadDefinition(def))
  {
    if def.logData {
      def.Log(bound, store, env.now);
    }
    if Truthy(def.mailTo) {
      var outcome := def.SendMail(bound, env.renderString, env.renderMessage, outbox);
      LoadUnchanged(def);
      if outcome.Failure? {
        return Some(Raised(outcome.error));
      }
    }
    LoadUnchanged(def);
    if def.successRedirect && !isCmsPlugin {
      return Some(Redirect(OrElse(def.action, "?")));
    }
    exit := None;
  }

  // ---------------------------------------------------------------------------
  // detail

  /** The `form_template` entry `detail` adds: the definition's form
      template when it names one, else the configured default. */
  function FormTemplate(def: FormDefinition, settings: AppSettings): (name: string)
    ensures Truthy(def.formTemplateName) ==> name == def.formTemplateName.value
    ensures !Truthy(def.formTemplateName) ==> name == settings.defaultFormTemplate
  {
    OrElse(def.formTemplateName, settings.defaultFormTemplate)
  }

  /** What `detail` makes of the result of `process_form`: a redirect (or an
      exception) passes through, a context gets `form_template` added. */
  function WithFormTemplate(processed: Response, def: FormDefinition, settings: AppSettings): (r: Response)
    ensures processed.Context? <==> r.Context?
    ensures !processed.Context? ==> r == processed
    ensures processed.Context? ==>
              && r.entries.Keys == processed.entries.Keys + {"form_template"}
              && r.entries["form_template"] == TemplateValue(FormTemplate(def, settings))
              && forall k :: k in processed.entries && k != "form_template" ==> r.entries[k] == processed.entries[k]
  {
    match processed
    case Context(entries) => Context(entries["form_template" := TemplateValue(FormTemplate(def, settings))])
    case _ => processed
  }

  /** `get_object_or_404(FormDefinition, name=object_name)`: the definition
      with that name, None for the 404. */
  function FindDefinition(definitions: seq<FormDefinition>, objectName: string): (r: Option<FormDefinition>)
    ensures r.None? <==> forall d :: d in definitions ==> d.name != objectName
    ensures r.Some? ==> r.value in definitions && r.value.name == objectName
  {
    if |definitions| == 0 then None
    else if definitions[0].name == objectName then Some(definitions[0])
    else FindDefinition(definitions[1..], objectName)
  }

  /** What `detail` answers: no definition of that name, or the response
      `process_form` gave with the form template added. */
  datatype DetailResponse = NotFound | Found(response: Response)

  /** `detail(request, object_name)`: look the definition up, run
      `process_form` on it with an empty context, and add the form template
      to a context it returns. */
  method Detail(request: Request, definitions: seq<FormDefinition>, objectName: string,
                env: Environment, store: SubmissionStore, outbox: Outbox)
    returns (answer: DetailResponse, notice: Option<Notice>, ghost processed: Response)
    requires store.Valid()
    modifies store, outbox
    ensures store.Valid()
    ensures answer.NotFound? <==> FindDefinition(definitions, objectName).None?
    ensures answer.NotFound? ==> unchanged(store) && unchanged(outbox)
    ensures answer.Found? ==>
              var def := FindDefinition(definitions, objectName).value;
              var ld := old(LoadDefinition(def));
              var expected := Expected(def, ld, request, false, env, old(TablesOf(store, outbox)));
              && (TablesOf(store, outbox), notice, Observed(processed, map[], def))
                 == (expected.tables, expected.notice, Prescribed(expected.answer, ld, env.settings.submitFlagFormat))
              && answer.response == WithFormTemplate(processed, def, env.settings)
  {
    var found := FindDefinition(definitions, objectName);
    if found.None? {
      return NotFound, None, Redirect("");
    }
    var result;
    result, notice := ProcessForm(request, found.value, map[], false, env, store, outbox);
    processed := result;
    answer := Found(WithFormTemplate(result, found.value, env.settings));
  }
}
