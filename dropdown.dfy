/** The dropdown widget: when its field has a REST url it fetches the
    options, by task or by process definition, and on success replaces the
    field's option list with the optional empty option followed by the
    fetched ones; failures are only logged. */
module Dropdown {
  import opened JsValues
  import opened FormModel

  /** The option list a successful fetch installs: the field's empty option,
      when it has one, then the fetched options (a null result counts as no
      options). */
  function FetchedOptions(emptyOption: Option<FieldOption>, result: Option<seq<FieldOption>>): (r: seq<FieldOption>)
    ensures |r| == |OptionsOrEmpty(result)| + (if emptyOption.Some? then 1 else 0)
    ensures emptyOption.Some? ==> r[0] == emptyOption.value
  {
    (if emptyOption.Some? then [emptyOption.value] else []) + OptionsOrEmpty(result)
  }

  /** With an empty option the list is the empty option followed by the
      result, one longer than the result. */
  lemma FetchedOptionsWithEmpty(e: FieldOption, result: Option<seq<FieldOption>>)
    ensures FetchedOptions(Some(e), result) == [e] + OptionsOrEmpty(result)
    ensures |FetchedOptions(Some(e), result)| == |OptionsOrEmpty(result)| + 1
    ensures FetchedOptions(Some(e), result)[0] == e
    ensures FetchedOptions(Some(e), result)[1..] == OptionsOrEmpty(result)
  {
  }

  /** Without an empty option the list is exactly the result. */
  lemma FetchedOptionsWithoutEmpty(result: seq<FieldOption>)
    ensures FetchedOptions(None, Some(result)) == result
    ensures FetchedOptions(None, None) == []
  {
  }

  /** A null result leaves at most the empty option. */
  lemma FetchedOptionsNullResult(emptyOption: Option<FieldOption>)
    ensures |FetchedOptions(emptyOption, None)| <= 1
    ensures |FetchedOptions(emptyOption, None)| == 1 <==> emptyOption.Some?
  {
  }

  /** Every fetched option appears, in order, after the empty option. */
  lemma FetchedOptionsKeepResult(emptyOption: Option<FieldOption>, result: Option<seq<FieldOption>>, i: nat)
    requires i < |OptionsOrEmpty(result)|
    ensures var k := if emptyOption.Some? then 1 else 0;
      k + i < |FetchedOptions(emptyOption, result)|
      && FetchedOptions(emptyOption, result)[k + i] == OptionsOrEmpty(result)[i]
  {
  }

  /** `getOptionValue`: the value an option is selected by. The empty
      option, and every option whose name is not the field's value, go by
      id; an option whose name is the field's value goes by name. */
  function OptionValue(option: FieldOption, fieldValue: string): (r: string)
    ensures r == option.id || r == option.name
    ensures r != option.id ==> r == option.name && r == fieldValue
  {
    if option.id == "empty" || option.name != fieldValue then option.id else option.name
  }

  /** An option's value is the field's value exactly when its id is, or
      when (not being the empty option) its name is. */
  lemma OptionValueSelects(option: FieldOption, fieldValue: string)
    ensures OptionValue(option, fieldValue) == fieldValue <==>
      option.id == fieldValue || (option.id != "empty" && option.name == fieldValue)
  {
  }

  /** The empty option always goes by its id. */
  lemma EmptyOptionByItsId(option: FieldOption, fieldValue: string)
    requires option.id == "empty"
    ensures OptionValue(option, fieldValue) == "empty"
  {
  }

  class DropdownWidget {
    const field: FormField?
    /** The fetch started by initialisation, whose callbacks are pending. */
    var pending: Option<FetchPath>
    /** Calls of `field.updateForm()`. */
    var formUpdates: nat
    /** Errors passed to the log. */
    var loggedErrors: nat
    /** Calls of `refreshVisibility(field.form)`. */
    var visibilityRefreshes: nat

    constructor (field: FormField?)
      ensures this.field == field && pending == None
      ensures formUpdates == 0 && loggedErrors == 0 && visibilityRefreshes == 0
    {
      this.field := field;
      pending := None;
      formUpdates := 0;
      loggedErrors := 0;
      visibilityRefreshes := 0;
    }

    /** `ngOnInit`: a fetch starts only for a bound field with a REST url, by
        task when the form has a task id, by process definition otherwise. */
    method NgOnInit()
      modifies this`pending
      ensures field != null && Present(field.restUrl) ==>
        pending == Some(RestPath(field.form, field.id))
        && (pending.value.ByTask? <==> Present(field.form.taskId))
      ensures field == null || !Present(field.restUrl) ==> pending == old(pending)
    {
      if field != null && Present(field.restUrl) {
        if Present(field.form.taskId) {
          pending := Some(ByTask(field.form.taskId.value, field.id));
        } else {
          pending := Some(ByProcessDefinition(field.form.processDefinitionId, field.id));
        }
      }
    }

    /** The success callback of either fetch: the options become the empty
        option (if any) followed by the result, and the form is updated. */
    method OnFetchSuccess(result: Option<seq<FieldOption>>)
      requires field != null && pending.Some?
      modifies field`options, this`formUpdates
      ensures field.options == Some(FetchedOptions(field.emptyOption, result))
      ensures field.value == old(field.value)
      ensures formUpdates == old(formUpdates) + 1
    {
      var options: seq<FieldOption> := [];
      if field.emptyOption.Some? {
        options := options + [field.emptyOption.value];
      }
      assert options == (if field.emptyOption.Some? then [field.emptyOption.value] else []);
      field.options := Some(options + OptionsOrEmpty(result));
      formUpdates := formUpdates + 1;
    }

    /** The failure callback of either fetch: the error is logged and the
        options are left as they were. */
    method OnFetchFailure()
      requires field != null && pending.Some?
      modifies this`loggedErrors
      ensures field.options == old(field.options)
      ensures loggedErrors == old(loggedErrors) + 1
    {
      HandleError();
    }

    /** `handleError`: pass the error to the log. */
    method HandleError()
      modifies this`loggedErrors
      ensures loggedErrors == old(loggedErrors) + 1
    {
      loggedErrors := loggedErrors + 1;
    }

    /** `checkVisibility`: refresh the visibility of the field's form. */
    method CheckVisibility()
      requires field != null
      modifies this`visibilityRefreshes
      ensures visibilityRefreshes == old(visibilityRefreshes) + 1
    {
      visibilityRefreshes := visibilityRefreshes + 1;
    }
  }
}
