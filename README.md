# django-form-designer, modelled in Dafny

django-form-designer lets a site administrator define web forms as database
rows. A `FormDefinition` has settings for logging, mailing, redirecting and
clearing, and an ordered set of `FormDefinitionField` rows. A view then
builds a Django form from the definition, validates a submission, logs it as
a `FormSubmission` with one `FormFieldSubmission` per included field, mails
it, and answers with a redirect or a template context.

This project models that core in three modules, one per source file.

- `Models` (`models.dfy`, for `form_designer/models.py`) covers:
  - the definition and field records;
  - `get_field_dict` and `get_form_data`;
  - `log` against a submission store;
  - the decision logic of `send_mail`: recipient splitting on `\s*[,;]+\s*`, templating of each address, sender and subject, and the message-template choice;
  - `submit_flag_name`'s underscore loop;
  - `save`'s default position;
  - the keyword-argument table of `get_form_field_init_args`;
  - `FormSubmission.form_definition`;
  - `FormFieldSubmission.choice_label` and `__unicode__`.
- `Views` (`views.dfy`, for `form_designer/views.py`) covers:
  - the `DesignedForm` constructor and `add_defined_field`, which prefills initial values from the query string;
  - `process_form`, with every branch: submission detection, validation, notice or message, log, mail, redirect, clearing and initial display;
  - `detail`.
- `Admin` (`admin.dfy`, for `form_designer/admin.py`) covers `clean_choice_model` and the `form_title` and `form_name` columns of the submission list.

Several pieces of the environment become parameters of the model:

- The database becomes sequences and two store objects:
  - `FormDefinition.fields` is the reverse relation;
  - `SubmissionStore` holds the two submission tables;
  - `Outbox` holds the sent mail.
- The template engine becomes the `Renderer` and `MessageRenderer` function parameters. Either returns rendered text or a syntax error.
- Django's `form.is_valid()` becomes a `Validator` function parameter. It returns a cleaning function for the form's fields, or None.
- `app_settings` and `INSTALLED_APPS` become the `AppSettings` value.

`process_form` is proved against a reference function, `Views.Expected`, which gives:

- the resulting tables;
- the notice;
- the answer, which is one of: raise, redirect, or show a message and a form built from given arguments.

The lemmas `PlanRules`, `SuccessStepsRules` and `ExpectedInitial`, `ExpectedInvalid` and `ExpectedValid` spell out what that function promises, branch by branch.

The definition has a `method` column (form_designer/models.py:25), but `process_form` never reads it. A POST with a truthy marker in its POST data, or a GET with a truthy marker in its query, is a submission whatever the column says (form_designer/views.py:45-48). The model follows the code.

## Model

| member | source | states |
|---|---|---|
| Models.IntOf | form_designer/models.py:289-290 | `int()` of a float truncates toward zero: the result is within one of the value, on the zero side |
| Models.PolicyDetermines | form_designer/models.py:273-333 | the key-by-key argument table has exactly one solution, so it fixes every keyword argument |
| Models.FormDefinitionField.GetFormFieldInitArgs | form_designer/models.py:273-333 | the arguments returned meet the table: required, label (empty when unset), initial (None when falsy) and help text; length bounds only for text-like classes; bounds truncated to int for IntegerField and taken as stored, with digit counts, for DecimalField; regex only when non-empty; choices only when the field has some; a queryset for the model-choice classes and an empty label for ModelChoiceField only; a widget only when one is configured |
| Models.FormDefinition.constructor | form_designer/models.py:14-34 | a new definition has the given columns and no fields |
| Models.FormDefinition.GetFieldDict | form_designer/models.py:44-48 | the loop builds `FieldDict(fields)` |
| Models.FieldDict | form_designer/models.py:44-48 | the keys are exactly the field names, and each value is a field of that name |
| Models.FieldDictIsLast | form_designer/models.py:44-48 | when two fields share a name, the dictionary keeps the last one |
| Models.Storable | form_designer/models.py:59-61 | a value with a `__form_data__` hook is stored as the hook's result, any other value as its text |
| Models.IncludedKeysExact | form_designer/models.py:57-58 | a form key is reported exactly when the definition has a field of that name with `include_result` set |
| Models.FormDataPrefix | form_designer/models.py:52-63 | after the first n form keys, the entries are the included keys in form order |
| Models.FormDataExact | form_designer/models.py:52-63 | `get_form_data` has one entry per included key, in form order; each entry has the form field's label and the stored cleaned value |
| Models.FormDataNamesDistinct | form_designer/models.py:55-62 | no two entries of the form data share a name |
| Models.FormDefinition.GetFormData | form_designer/models.py:52-63 | the loop returns `FormData` of the field dictionary and the form |
| Models.DataDict | form_designer/models.py:67-71 | the keys of `get_form_data_dict` are the entry names |
| Models.DataDictRecoversValues | form_designer/models.py:67-71 | for entries with distinct names (as form data has, `FormDataNamesDistinct`), each entry's value can be read back under its name |
| Models.DataDictLastWins | form_designer/models.py:67-71 | with repeated names, a name maps to the value of its last entry: a later assignment replaces an earlier one |
| Models.FormDefinition.GetFormDataDict | form_designer/models.py:67-71 | the loop builds `DataDict` of the form data, a later entry of a name replacing an earlier one |
| Models.SubmissionStore.SaveSubmission | form_designer/models.py:110-111 | saving a submission appends one row whose id is the old row count; field rows are unchanged |
| Models.SubmissionStore.SaveFieldSubmission | form_designer/models.py:115-117 | saving a field submission appends that row only |
| Models.LogRows | form_designer/models.py:114-117 | one row per form-data entry, in order, under the new submission, pointing at the entry's definition field and holding its value |
| Models.FormDefinition.SaveFieldData | form_designer/models.py:114-117 | the loop of `log` appends exactly the rows `LogRows` gives, in entry order, and leaves the submissions alone |
| Models.FormDefinition.Log | form_designer/models.py:101-117 | `log` adds one submission stamped `now` and then exactly the field rows `LogRows` gives for the form data |
| Models.FreshSubmissionFields | form_designer/models.py:109-117 | the field rows of a freshly numbered submission are exactly those written after it |
| Models.LoggedSubmission | form_designer/models.py:101-117 | after `log`, the submission's field rows are its logged rows; each names the included field of its entry and holds the entry's value; its form definition is the logging definition exactly when at least one entry was logged |
| Models.StringTemplateReplace | form_designer/models.py:121-127 | the rendered text, or the input unchanged on a template syntax error |
| Models.MessageTemplateFor | form_designer/models.py:75-83 | the named template when one is given, else the default message template when the definition has none, else the definition's inline template |
| Models.FirstDelimiter | form_designer/models.py:137 | a match lies within the text, and there is none exactly when the text has no comma or semicolon; `FirstDelimiterMatches` and `FirstMatchIsFirstDelimiter` prove it is the leftmost, longest match |
| Models.FirstDelimiterMatches | form_designer/models.py:137 | the match found matches `\s*[,;]+\s*` (spaces, one or more separators, spaces); no match starts earlier, since no separator comes before it and no whitespace just before it; and it cannot be extended |
| Models.FirstMatchIsFirstDelimiter | form_designer/models.py:137 | any leftmost, longest match of the pattern is the one found, so the split is fixed by the pattern alone |
| Models.SplitRecipients | form_designer/models.py:137 | splitting always yields at least one piece |
| Models.SplitReassembles | form_designer/models.py:137 | the pieces joined with the matched delimiters give back the original text, with one more piece than delimiters |
| Models.DelimitersMatch | form_designer/models.py:137 | every matched delimiter has the pattern's shape |
| Models.SplitPiecesHaveNoSeparator | form_designer/models.py:137 | no piece contains a comma or a semicolon |
| Models.SplitSingleIffNoSeparator | form_designer/models.py:137 | the split yields one piece exactly when the text has no separator, and that piece is the whole text |
| Models.TemplatedEach | form_designer/models.py:138-139 | each address is templated in place, keeping count and order |
| Models.MailFor | form_designer/models.py:131-154 | reference definition of what `send_mail` sends or raises; `MailRules` states its properties |
| Models.MailRules | form_designer/models.py:131-154 | the mail fails exactly when the message template does not compile. Otherwise: one recipient per split piece, each templated; a single recipient when there is no separator; the subject is the templated `mail_subject`, else the title; the body is the compiled message; the sender is the templated `mail_from`, and None when that is unset or renders empty |
| Models.FormDefinition.SendMail | form_designer/models.py:131-154 | the outcome is `MailFor` of the definition's form data, and the outbox grows by that mail exactly when it succeeds |
| Models.Outbox.Send | form_designer/models.py:153-154 | a sent mail is appended to the outbox |
| Models.Underscored | form_designer/models.py:160-162 | the base followed by exactly k underscores |
| Models.FirstFreeIsLeast | form_designer/models.py:161-162 | the loop stops at the least count from k whose underscored name is no field name |
| Models.LeastFreeIsFirstFree | form_designer/models.py:159-163 | any free count with all smaller counts taken gives the name the loop finds |
| Models.SubmitFlagIsLeastFree | form_designer/models.py:159-163 | the marker name is the formatted name plus underscores; it is no field name, and every shorter candidate is one |
| Models.FormDefinition.SubmitFlagName | form_designer/models.py:159-163 | the method returns `SubmitFlag` of the field names, and that name is free |
| Models.FormDefinitionField.constructor | form_designer/models.py:219-250 | a new field row, whose class tag is canonical (an `OtherClass` never carries a path of `ClassPaths`), has the given columns and is appended to its definition's fields |
| Models.FormDefinitionField.Load | form_designer/models.py:224-250 | a freshly loaded row has the stored columns, initial value and position |
| Models.FormDefinitionField.Save | form_designer/models.py:254-257 | saving sets a missing position to 0 and keeps a given one |
| Models.FieldsOf | form_designer/models.py:377 | reference definition of `submission.fields.all()`: the rows carrying the id, in table order; `FieldsOfBelong`, `FieldsOfAppend`, `FieldsOfNone` and `FieldsOfAll` state its properties |
| Models.FieldsOfBelong | form_designer/models.py:376-377 | a submission's field rows are table rows carrying its id |
| Models.FieldsOfAppend | form_designer/models.py:376-377 | the field rows of a submission distribute over appended tables |
| Models.FieldsOfNone | form_designer/models.py:376-377 | a submission no row points at has no field rows |
| Models.FieldsOfAll | form_designer/models.py:376-377 | rows that all point at a submission are all its field rows |
| Models.SubmissionDefinition | form_designer/models.py:376-377 | None exactly when the submission has no field rows, else the definition of its first field row |
| Models.ChoiceLabel | form_designer/models.py:404-418 | None exactly when no choice has the value (a null value matches nothing), else `u'%s'` of the label of the first choice with that value, "None" for a null label |
| Models.Truncated | form_designer/models.py:397-398 | values shorter than 10 characters are kept, and longer ones become their first 10 characters plus `...` |
| Models.FieldText | form_designer/models.py:343-344 | `FormDefinitionField.__unicode__`: the label when set and non-empty, else the name; used by `FieldSubmissionText` |
| Models.FieldSubmissionText | form_designer/models.py:396-399 | field text, `: `, the truncated value, then `=` and the choice label only when a non-empty label matches, then the submission in parentheses |
| Views.Prefilled | form_designer/views.py:27-31 | reference definition of the initial value `add_defined_field` leaves; `PrefillRules` states its properties |
| Views.PrefillRules | form_designer/views.py:27-31 | a query value replaces the initial value exactly when the name is a key: the whole list for the multiple-choice classes, the last value otherwise; prefilling twice changes nothing |
| Views.FirstOccurrences | form_designer/views.py:19-21 | the form's key order holds exactly the assigned names, each once |
| Views.FirstOccurrencesOrder | form_designer/views.py:19-21 | the keys come in the order of each name's first assignment (`FirstIndex` strictly increases along them) |
| Views.BuiltFieldsKeys | form_designer/views.py:19-20 | after n fields are added, the keys are exactly their names |
| Views.BuiltFieldsLast | form_designer/views.py:19-20 | a name maps to the form field built from the last row of that name |
| Views.BuiltFieldsLastWins | form_designer/views.py:19-32 | the built fields have the same keys as `get_field_dict`, and each is built from the field it keeps |
| Views.DesignedFieldsShape | form_designer/views.py:17-32 | a designed form lists each key once and has a field for exactly its keys: each definition-field name and the marker; the marker's name is no field name and holds the hidden BooleanField; every other field is built from its row with the prefilled initial value |
| Views.DesignedKeysHaveFields | form_designer/views.py:17-21 | every key of a designed form has a field |
| Views.DesignedForm.constructor | form_designer/views.py:17-21 | the new form's keys and fields are those `DesignedKeys` and `DesignedFields` give for the definition and the initial data |
| Views.DesignedForm.AddDefinedFields | form_designer/views.py:19-20 | the loop adds the rows in order, with keys in first-occurrence order and fields as `BuiltFields` gives them |
| Views.DesignedForm.AddLoaded | form_designer/views.py:19-20 | one iteration extends the keys and fields by one row |
| Views.DesignedForm.SetField | form_designer/views.py:21 | assigning a dictionary key replaces its value and appends the key only when it is new |
| Views.DesignedForm.AddDefinedField | form_designer/views.py:26-32 | the row's initial value is prefilled, and its form field is set under its name |
| Views.SubmittedData | form_designer/views.py:43-50 | reference definition of the data a request submits, None for an initial display; `SubmissionIff` states its properties |
| Views.SubmissionIff | form_designer/views.py:43-50 | a request is a submission exactly when it is a POST with a truthy POST marker or a GET with a truthy query marker, and the form is bound to that data |
| Views.CleanedData | form_designer/views.py:53 | the cleaned data has a value for exactly the form's fields |
| Views.Validated | form_designer/views.py:46-53 | a validated form is well formed, and every included field has a cleaned value |
| Views.ValidatedOf | form_designer/views.py:46-53 | a submission whose data validates is the designed form bound to its cleaned values |
| Views.PlanFor | form_designer/views.py:39-77 | reference definition of the message, notice and form arguments per branch; `PlanRules` states its properties |
| Views.PlanRules | form_designer/views.py:39-77 | after success, the success text is shown and the form is blank exactly when clearing is set. After a failed validation, the error text is shown with the bound form. On initial display there is no text, and the query prefills exactly when allowed. The text goes to a notice exactly when notifications are installed, and to the message otherwise |
| Views.ShownContext | form_designer/views.py:79-83 | the context is the given one with `message`, `form` and `form_definition` set and every other key kept |
| Views.ObservedShown | form_designer/views.py:79-85 | an updated context shows its message and its form |
| Views.Expected | form_designer/views.py:38-85 | reference definition of the outcome of `process_form`; `ExpectedInitial`, `ExpectedInvalid` and `ExpectedValid` state it per branch, and `ProcessForm` is proved equal to it |
| Views.ExpectedInitial | form_designer/views.py:73-85 | without a submission, nothing is logged or mailed, and there is no notice and no message; the form is blank, prefilled from the query exactly when allowed |
| Views.ExpectedInvalid | form_designer/views.py:68-72 | an invalid submission changes no table and shows the error text (the definition's, else the default) with the bound form |
| Views.SuccessSteps | form_designer/views.py:59-65 | reference definition of log, mail and redirect after a valid submission; `SuccessStepsRules` states its properties |
| Views.SuccessStepsRules | form_designer/views.py:59-65 | log exactly when `log_data` is set, before the mail. Send the mail exactly when there is a recipient and the message compiles, and raise the template error exactly when it does not. Redirect to `action or '?'` exactly when nothing was raised, redirecting is on and this is not the CMS plugin |
| Views.ExpectedValid | form_designer/views.py:52-67 | a valid submission ends as the success steps end it, else by showing the success text and the cleared or bound form |
| Views.ProcessForm | form_designer/views.py:38-85 | the tables, the notice and what the response shows are exactly those `Expected` gives |
| Views.SubmittedForm | form_designer/views.py:43-50 | a submission's form is a fresh designed form bound to the submitted data |
| Views.HandleSubmission | form_designer/views.py:52-72 | a submission's outcome is the one `Expected` gives |
| Views.ValidSubmission | form_designer/views.py:53-67 | a valid submission leaves the tables as the success steps do and gives the plan's notice and answer |
| Views.SuccessfulSubmission | form_designer/views.py:59-65 | log, mail and redirect leave the tables and exit that `SuccessSteps` gives; an early exit is a raise or a redirect |
| Views.ShowSuccess | form_designer/views.py:66-85 | the context shows the success message and a blank form when clearing is set, else the bound form |
| Views.InvalidSubmission | form_designer/views.py:68-72 | the context shows the error plan's message and the bound form, and the notice is the plan's |
| Views.InitialDisplay | form_designer/views.py:73-85 | the context shows no message and a blank form, prefilled from the query exactly when allowed |
| Views.FormTemplate | form_designer/views.py:97 | the definition's form template when set, else the configured default |
| Views.WithFormTemplate | form_designer/views.py:93-98 | a redirect passes through unchanged; a context gains only `form_template` |
| Views.FindDefinition | form_designer/views.py:91 | None exactly when no definition has the name, else a definition of that name |
| Views.Detail | form_designer/views.py:90-99 | 404 exactly when no definition has the name, and then nothing changes; otherwise `process_form`'s outcome with the form template added |
| Admin.CleanChoiceModel | form_designer/admin.py:21-24 | the model is kept as entered when accepted, and the error is the "requires a model" text |
| Admin.ClassNamed | form_designer/models.py:281-323 | the nine paths `get_form_field_init_args` dispatches on, and `forms.BooleanField` (the submit flag's class, views.py:21), each get their own tag (`ClassPaths`); any other path becomes `OtherClass` of that path, and the tag gives back the path (`ClassPath`) and is canonical |
| Admin.ClassNamedOfPath | form_designer/models.py:281-323 | every tag is what its own path names, so the dispatch table has no two paths for one tag |
| Admin.CleanChoiceModelIff | form_designer/admin.py:21-24 | the check raises exactly when the model is empty and a model-choice field class is given |
| Admin.CleanChoiceModelAccepts | form_designer/admin.py:21-24 | a missing or non-model class, or a filled-in model, is always accepted unchanged |
| Admin.FormTitle | form_designer/admin.py:113-114 | the title text of the submission's definition, or "No fields attached" when it has no field rows |
| Admin.FormName | form_designer/admin.py:119-120 | the name of the submission's definition, or "No fields attached" when it has no field rows |
| Admin.ColumnsAfterLog | form_designer/admin.py:113-120 | after `log`, both columns show the logging definition's values exactly when at least one entry was logged |

## Left out

- The ORM is modelled by sequences and classes. Queries are not modelled, and neither are transactions, database errors or concurrent requests.
- Templates are modelled by function parameters: the Django template language, `Context` and `render_to_response` are not modelled. `compile_message` appears only as the message renderer's result.
- The mail transport is modelled by `Outbox`. SMTP errors and `logging.debug` are not modelled.
- `eval` of `field_class` and `widget` is not modelled: a widget is kept as its class path and a form field as its class tag and arguments.
- Floats are modelled as `real`. Rounding, NaN and infinities are not modelled.
- `ModelNameField.get_model_from_string` and the queryset it returns are not modelled: the queryset is kept as the model name, and lookup errors are not modelled.
- Django's field validation inside `form.is_valid()` is a parameter, not modelled; so are the clock (`now`) and the settings.
- Translation (`ugettext`) is not modelled: the English texts are used.
- `print` statements in `get_form_field_init_args` are not modelled.
- `to_field_list` is not modelled: it is dead code, because it builds a list and returns nothing.
- `____init__` is not modelled: the name is never called as a constructor.
- `count_fields` and the `__unicode__` of `FormDefinition`, `FormDefinitionFieldChoice` and `FormSubmission` are not modelled. `FormSubmission.__unicode__` is a parameter of `FieldSubmissionText`.
- The `method` column is not used by the view code, so the model does not use it either.
- The CMS plugin model is not modelled; `is_cms_plugin` is a parameter.
- The admin `Meta`, `Media`, fieldsets, inlines and site registrations are not modelled: they are declarations, not logic.
- Views.ProcessForm: Python's mutable default argument `context={}` means the same dictionary is updated and returned on every call that omits `context`. The model builds a new context from the given one, so that sharing across requests is not modelled.
- Views.DesignedForm.AddDefinedField: prefill writes `initial` on the row objects `fields.all()` returns. The model loads fresh copies of the rows (`FormDefinitionField.Load`), just as Django re-queries them, and the stored rows are unchanged.
- Models.FormDefinitionField.constructor: `FormDefinition.fields` stands for `fields.all()` in creation order. The ordering by `position` (`Meta.ordering`) is not modelled, because the order of equal and null positions is left to the database. So when rows are created out of position order, the model's order of form keys, form-data entries and log rows, and which row of a duplicate name `get_field_dict` keeps, follow creation order rather than `position`.
- Models.CleanedValue: a cleaned value is modelled by its text and the result of its `__form_data__` hook. The Python object itself, which `get_form_data` puts into the form data and the template context, is not modelled.
- Models.ChoiceLabel: the bare `except` of `choice_label` is modelled only for the no-match case; other database errors are not modelled.
