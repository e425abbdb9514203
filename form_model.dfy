/** The form-field model the widgets are bound to: the field object with the
    option list that the fetch callbacks replace, its form's task and
    process-definition identifiers, the type tag of the original field a
    display widget shows, and the `options.find` lookup by id. */
module FormModel {
  import opened JsValues

  /** One selectable entry of a dropdown, radio or typeahead field. */
  datatype FieldOption = FieldOption(id: string, name: string)

  /** The type tag of a field. `Other` is every tag the display widget has
      no case for (it takes the default branch). */
  datatype FieldType =
    | Boolean
    | FunctionalGroup
    | People
    | Upload
    | Document
    | Typeahead
    | Dropdown
    | RadioButtons
    | Date
    | Amount
    | Hyperlink
    | Other(tag: string)

  /** The `params` bag of a field. `original` is the type of `params.field`
      when that is present and carries a truthy `type`, and None otherwise. */
  datatype Params = Params(showDocumentContent: Value, tableEditable: Value, original: Option<FieldType>)

  /** The identifiers of the form a field belongs to. */
  datatype FormData = FormData(taskId: Option<string>, processDefinitionId: Option<string>)

  /** Which REST call fetches a field's options. */
  datatype FetchPath =
    | ByTask(taskId: string, fieldId: string)
    | ByProcessDefinition(processDefinitionId: Option<string>, fieldId: string)

  /** The fetch path both widgets choose: by task when the form has a truthy
      task id, by process definition otherwise; always for this field. */
  function RestPath(form: FormData, fieldId: string): (p: FetchPath)
    ensures p.fieldId == fieldId
    ensures p.ByTask? <==> Present(form.taskId)
    ensures p.ByTask? ==> p.taskId == form.taskId.value
    ensures p.ByProcessDefinition? ==> p.processDefinitionId == form.processDefinitionId
  {
    if Present(form.taskId) then ByTask(form.taskId.value, fieldId)
    else ByProcessDefinition(form.processDefinitionId, fieldId)
  }

  /** A form field. Only `options` is replaced by the widgets modelled here;
      `value` is a variable because the rest of the form may change it, but
      no widget here writes it. */
  class FormField {
    const id: string
    var value: Value
    var options: Option<seq<FieldOption>>
    const restUrl: Option<string>
    const currency: Option<string>
    const emptyOption: Option<FieldOption>
    const params: Option<Params>
    const form: FormData

    constructor (id: string, value: Value, options: Option<seq<FieldOption>>,
                 restUrl: Option<string>, currency: Option<string>,
                 emptyOption: Option<FieldOption>, params: Option<Params>, form: FormData)
      ensures this.id == id && this.value == value && this.options == options
      ensures this.restUrl == restUrl && this.currency == currency
      ensures this.emptyOption == emptyOption && this.params == params && this.form == form
    {
      this.id := id;
      this.value := value;
      this.options := options;
      this.restUrl := restUrl;
      this.currency := currency;
      this.emptyOption := emptyOption;
      this.params := params;
      this.form := form;
    }
  }

  /** `field.options || []`. */
  function OptionsOrEmpty(options: Option<seq<FieldOption>>): seq<FieldOption> {
    if options.Some? then options.value else []
  }

  /** `item.id === value`: a string id equals only the same string. */
  predicate IdMatches(o: FieldOption, v: Value) {
    v == Str(o.id)
  }

  /** `options.find(item => item.id === value)`, as the index of the first
      option whose id is `v`. */
  function FirstMatch(options: seq<FieldOption>, v: Value): (r: Option<nat>)
    ensures r.Some? ==> r.value < |options| && IdMatches(options[r.value], v)
    ensures r.Some? ==> forall j :: 0 <= j < r.value ==> !IdMatches(options[j], v)
    ensures r.None? <==> forall j :: 0 <= j < |options| ==> !IdMatches(options[j], v)
  {
    if options == [] then None
    else if IdMatches(options[0], v) then Some(0)
    else match FirstMatch(options[1..], v)
      case None => None
      case Some(k) => Some(k + 1)
  }

  /** The display value of a lookup by id: the name of the first option with
      that id, else the raw value verbatim. What is shown is the raw value or
      the name of an option whose id is the raw value, and with no such
      option it is the raw value. */
  function NameOrRaw(options: seq<FieldOption>, raw: Value): (r: Value)
    ensures (forall j :: 0 <= j < |options| ==> !IdMatches(options[j], raw)) ==> r == raw
    ensures r == raw
      || exists j :: 0 <= j < |options| && IdMatches(options[j], raw) && r == Str(options[j].name)
  {
    match FirstMatch(options, raw)
    case Some(k) => Str(options[k].name)
    case None => raw
  }

  /** When some option carries the raw value as its id, the first such
      option's name is shown. */
  lemma NameOrRawFound(options: seq<FieldOption>, raw: Value, k: nat)
    requires k < |options| && IdMatches(options[k], raw)
    requires forall j :: 0 <= j < k ==> !IdMatches(options[j], raw)
    ensures NameOrRaw(options, raw) == Str(options[k].name)
  {
  }
}
