/** The read-only display widget: on initialisation it turns the bound
    field's raw value into the text shown for it, by the type of the original
    field; for remote option lists it starts a fetch whose callbacks replace
    the field's options and resolve the value by id. */
module DisplayValue {
  import opened JsValues
  import opened FormModel

  /** Collaborators whose code is not part of this model, as the values they
      give for the field being shown:
      - decodeUri: the global `decodeURI`, taken as total on names;
      - dateText: the DATE branch's number test, `moment` parse and format
        with the field's display format; None when the parse is invalid;
      - hyperlinkUrl, hyperlinkText: the inherited `getHyperlinkUrl` and
        `getHyperlinkText` for the field;
      - localOptionName: `field.getOptionName()` when `field.hasOptions()`,
        None when it has none. */
  datatype Host = Host(
    decodeUri: string -> string,
    dateText: Value -> Option<string>,
    hyperlinkUrl: string,
    hyperlinkText: string,
    localOptionName: Option<Value>)

  /** What the display branches read from the bound field. */
  datatype FieldView = FieldView(
    id: string,
    value: Value,
    options: Option<seq<FieldOption>>,
    restUrl: Option<string>,
    currency: Option<string>,
    form: FormData)

  function ViewOf(f: FormField): (v: FieldView)
    reads f
    ensures v.value == f.value && v.options == f.options && v.id == f.id
  {
    FieldView(f.id, f.value, f.options, f.restUrl, f.currency, f.form)
  }

  // ---------------------------------------------------------------------------
  // One resolution rule per field type

  /** BOOLEAN: only the exact string "true" reads as true. */
  function BooleanValue(raw: Value): (r: Value)
    ensures r.Bool?
  {
    if raw == Str("true") then Bool(true) else Bool(false)
  }

  /** FUNCTIONAL_GROUP: the group's name, or null when there is no group. */
  function FunctionalGroupValue(raw: Value): (r: Value)
    ensures r == Null || r == Undefined
      || (raw.Obj? && "name" in raw.props && r == raw.props["name"])
  {
    if Truthy(raw) then Get(raw, "name") else Null
  }

  /** PEOPLE: the person's first and last name, space separated, trimmed; an
      absent person leaves the raw value. */
  function PeopleValue(raw: Value): (r: Value)
    ensures r == raw || (Truthy(raw) && r.Str? && Unpadded(r.s))
  {
    if Truthy(raw) then
      Str(Trim(ToString(Get(raw, "firstName")) + " " + ToString(Get(raw, "lastName"))))
    else raw
  }

  /** The file an UPLOAD or DOCUMENT field shows: its decoded name and its id;
      no file; or the TypeError of reading `name` from a null first entry. */
  datatype FileView = FileFound(name: string, id: Value) | NoFile | FileThrows

  /** UPLOAD: the first entry of the file list (`value || []`). */
  function UploadFile(raw: Value, decodeUri: string -> string): (r: FileView)
    ensures r.FileFound? ==>
      raw.Arr? && |raw.items| > 0 && !Nullish(raw.items[0]) && r.id == Get(raw.items[0], "id")
    ensures r.NoFile? ==> !(raw.Arr? && |raw.items| > 0)
  {
    var files := if Truthy(raw) then raw else Arr([]);
    if files.Arr? && |files.items| > 0 then
      var first := files.items[0];
      if Nullish(first) then FileThrows
      else FileFound(decodeUri(ToString(Get(first, "name"))), Get(first, "id"))
    else NoFile
  }

  /** DOCUMENT: the value itself is the file. */
  function DocumentFile(raw: Value, decodeUri: string -> string): (r: FileView)
    ensures !r.FileThrows?
    ensures r.FileFound? ==> !Nullish(raw) && r.id == Get(raw, "id")
  {
    if Truthy(raw) then FileFound(decodeUri(ToString(Get(raw, "name"))), Get(raw, "id"))
    else NoFile
  }

  /** RADIO_BUTTONS without a REST source: look the raw value up by id in the
      field's own options (missing options read as none). */
  function RadioValue(options: Option<seq<FieldOption>>, raw: Value): (r: Value)
    ensures options.None? ==> r == raw
    ensures r == raw || exists j :: 0 <= j < |OptionsOrEmpty(options)| && r == Str(OptionsOrEmpty(options)[j].name)
  {
    NameOrRaw(OptionsOrEmpty(options), raw)
  }

  /** DATE: a truthy value that parses is shown formatted; otherwise the
      value is left as it is. */
  function DateValue(raw: Value, dateText: Value -> Option<string>): (r: Value)
    ensures r == raw || (Truthy(raw) && r.Str? && dateText(raw) == Some(r.s))
  {
    if Truthy(raw) then
      match dateText(raw)
      case Some(text) => Str(text)
      case None => raw
    else raw
  }

  /** AMOUNT: a truthy amount is prefixed by the currency ("$" by default) and
      a space; a falsy one is left as it is. */
  function AmountValue(currency: Option<string>, raw: Value): (r: Value)
    ensures r == raw || Truthy(raw)
    ensures Truthy(raw) ==>
      var amount := ToString(raw);
      r.Str? && |r.s| > |amount| && r.s[|r.s| - |amount|..] == amount && r.s[|r.s| - |amount| - 1] == ' '
  {
    if Truthy(raw) then Str(OrElse(currency, "$") + " " + ToString(raw)) else raw
  }

  /** What a branch of the type switch does to the widget. */
  datatype Effect =
    | SetValue(v: Value)
    | SetFile(file: FileView)
    | Fetch(path: FetchPath)
    | SetLink(url: string, text: string)

  /** The type switch of initialisation, one case per field type. */
  function BranchEffect(t: FieldType, f: FieldView, host: Host): (r: Effect)
    ensures r.Fetch? <==> t == Typeahead || ((t == Dropdown || t == RadioButtons) && Present(f.restUrl))
    ensures r.Fetch? ==> r.path == RestPath(f.form, f.id)
    ensures r.SetFile? <==> t == Upload || t == Document
    ensures r.SetLink? <==> t == Hyperlink
  {
    match t
    case Boolean => SetValue(BooleanValue(f.value))
    case FunctionalGroup => SetValue(FunctionalGroupValue(f.value))
    case People => SetValue(PeopleValue(f.value))
    case Upload => SetFile(UploadFile(f.value, host.decodeUri))
    case Document => SetFile(DocumentFile(f.value, host.decodeUri))
    case Typeahead => Fetch(RestPath(f.form, f.id))
    case Dropdown =>
      if Present(f.restUrl) then Fetch(RestPath(f.form, f.id))
      else SetValue(if host.localOptionName.Some? then host.localOptionName.value else f.value)
    case RadioButtons =>
      if Present(f.restUrl) then Fetch(RestPath(f.form, f.id))
      else SetValue(RadioValue(f.options, f.value))
    case Date => SetValue(DateValue(f.value, host.dateText))
    case Amount => SetValue(AmountValue(f.currency, f.value))
    case Hyperlink => SetLink(host.hyperlinkUrl, host.hyperlinkText)
    case Other(_) => SetValue(f.value)
  }

  /** The type the switch dispatches on: that of `params.field`, when there
      are params and that field has a truthy type. */
  function OriginalType(params: Option<Params>): Option<FieldType> {
    if params.Some? then params.value.original else None
  }

  /** `!!v` for a param that is not undefined; `current` otherwise. */
  function FlagParam(v: Value, current: bool): (r: bool)
    ensures v == Undefined ==> r == current
    ensures v.Bool? ==> r == v.b
    ensures v == Null || v == Num(0) || v == Str("") ==> !r
    ensures v.Arr? || v.Obj? ==> r
    ensures v.Str? ==> (r <==> v.s != "")
    ensures v.Num? ==> (r <==> v.n != 0)
  {
    if v != Undefined then Truthy(v) else current
  }

  // ---------------------------------------------------------------------------
  // Properties of the rules

  /** BOOLEAN resolves to true exactly for the string "true" and to false for
      every other raw value (the boolean true included). */
  lemma BooleanIff(raw: Value)
    ensures BooleanValue(raw) == Bool(true) <==> raw == Str("true")
    ensures BooleanValue(raw) == Bool(false) <==> raw != Str("true")
  {
  }

  /** FUNCTIONAL_GROUP: any truthy value resolves to its `name` property
      (undefined when it has none, as for a string or a number), a group
      carrying a name to that name, and a falsy value to null. */
  lemma FunctionalGroupResolves(raw: Value)
    ensures Truthy(raw) ==> FunctionalGroupValue(raw) == Get(raw, "name")
    ensures raw.Obj? && "name" in raw.props ==> FunctionalGroupValue(raw) == raw.props["name"]
    ensures !Truthy(raw) ==> FunctionalGroupValue(raw) == Null
  {
  }

  /** PEOPLE with string names: the trimmed "first last". */
  lemma PeopleWithNames(m: map<string, Value>, first: string, last: string)
    requires "firstName" in m && m["firstName"] == Str(first)
    requires "lastName" in m && m["lastName"] == Str(last)
    ensures PeopleValue(Obj(m)) == Str(Trim(first + " " + last))
  {
  }

  /** PEOPLE: names without surrounding white space, the first non-empty,
      are shown exactly as "first last". */
  lemma PeopleExactName(m: map<string, Value>, first: string, last: string)
    requires "firstName" in m && m["firstName"] == Str(first)
    requires "lastName" in m && m["lastName"] == Str(last)
    requires first != [] && last != [] && Unpadded(first) && Unpadded(last)
    ensures PeopleValue(Obj(m)) == Str(first + " " + last)
  {
  }

  /** PEOPLE: an empty last name leaves no trailing space: only the trimmed
      first name is shown. */
  lemma {:induction false} PeopleEmptyLastName(m: map<string, Value>, first: string)
    requires "firstName" in m && m["firstName"] == Str(first)
    requires "lastName" in m && m["lastName"] == Str("")
    ensures PeopleValue(Obj(m)) == Str(Trim(first))
  {
    assert first + " " + "" == first + " ";
    TrimIgnoresTrailing(first, " ");
  }

  /** PEOPLE: a missing last name is printed by the template as the word
      "undefined", not dropped. */
  lemma PeopleMissingLastName(m: map<string, Value>, first: string)
    requires "firstName" in m && m["firstName"] == Str(first)
    requires "lastName" !in m
    requires first != [] && Unpadded(first)
    ensures PeopleValue(Obj(m)) == Str(first + " undefined")
  {
  }

  /** PEOPLE: a missing first name is printed by the template as the word
      "undefined", not dropped. */
  lemma PeopleMissingFirstName(m: map<string, Value>, last: string)
    requires "firstName" !in m
    requires "lastName" in m && m["lastName"] == Str(last)
    requires last != [] && Unpadded(last)
    ensures PeopleValue(Obj(m)) == Str("undefined " + last)
  {
  }

  /** PEOPLE: an absent person leaves the raw value. */
  lemma PeopleAbsent(raw: Value)
    requires !Truthy(raw)
    ensures PeopleValue(raw) == raw
  {
  }

  /** UPLOAD: a non-empty file list shows its first file, with that file's
      id; an empty or absent list shows no file. */
  lemma UploadResolves(raw: Value, decodeUri: string -> string)
    ensures raw.Arr? && |raw.items| > 0 && !Nullish(raw.items[0]) ==>
      UploadFile(raw, decodeUri) ==
        FileFound(decodeUri(ToString(Get(raw.items[0], "name"))), Get(raw.items[0], "id"))
    ensures raw == Arr([]) || !Truthy(raw) ==> UploadFile(raw, decodeUri) == NoFile
    ensures UploadFile(raw, decodeUri) == FileThrows <==>
      raw.Arr? && |raw.items| > 0 && Nullish(raw.items[0])
  {
  }

  /** DOCUMENT: a present file is shown with its id; an absent one shows no
      file. The branch never throws. */
  lemma DocumentResolves(raw: Value, decodeUri: string -> string)
    ensures Truthy(raw) ==>
      DocumentFile(raw, decodeUri) == FileFound(decodeUri(ToString(Get(raw, "name"))), Get(raw, "id"))
    ensures !Truthy(raw) ==> DocumentFile(raw, decodeUri) == NoFile
  {
  }

  /** RADIO_BUTTONS: the name of the first option with the raw value as id;
      the raw value verbatim when there is none; no option list behaves as
      an empty one. */
  lemma RadioResolves(options: seq<FieldOption>, raw: Value, k: nat)
    requires k < |options| && IdMatches(options[k], raw)
    requires forall j :: 0 <= j < k ==> !IdMatches(options[j], raw)
    ensures RadioValue(Some(options), raw) == Str(options[k].name)
    ensures RadioValue(None, raw) == raw
  {
  }

  /** RADIO_BUTTONS: a raw value that is no option's id is shown verbatim. */
  lemma RadioUnknownValue(options: Option<seq<FieldOption>>, raw: Value)
    requires forall j :: 0 <= j < |OptionsOrEmpty(options)| ==> !IdMatches(OptionsOrEmpty(options)[j], raw)
    ensures RadioValue(options, raw) == raw
  {
  }

  /** AMOUNT: a truthy amount gets the currency and a space in front, "$"
      when no currency is set; a falsy amount is unchanged. */
  lemma AmountResolves(currency: Option<string>, raw: Value)
    ensures Truthy(raw) && Present(currency) ==>
      AmountValue(currency, raw) == Str(currency.value + " " + ToString(raw))
    ensures Truthy(raw) && !Present(currency) ==>
      AmountValue(currency, raw) == Str("$ " + ToString(raw))
    ensures !Truthy(raw) ==> AmountValue(currency, raw) == raw
  {
  }

  /** AMOUNT: the amount "100" with no currency shows as "$ 100". */
  lemma AmountExample()
    ensures AmountValue(None, Str("100")) == Str("$ 100")
  {
  }

  /** DATE: a value that does not parse is left as it is. */
  lemma DateInvalidUnchanged(raw: Value, dateText: Value -> Option<string>)
    requires dateText(raw).None?
    ensures DateValue(raw, dateText) == raw
  {
  }

  /** The default branch shows the raw value. */
  lemma DefaultIsRaw(tag: string, f: FieldView, host: Host)
    ensures BranchEffect(Other(tag), f, host) == SetValue(f.value)
  {
  }

  /** The widget fields the type switch writes. */
  datatype Shown = Shown(
    value: Value,
    id: Value,
    hasFile: bool,
    pending: Option<FetchPath>,
    linkUrl: Option<string>,
    linkText: Option<string>)

  /** The one effect that throws: UPLOAD with a null first entry. */
  predicate Throws(e: Effect) {
    e == SetFile(FileThrows)
  }

  /** The fields after a branch's effect, from those before it. A branch that
      throws writes nothing. */
  function Applied(e: Effect, s: Shown): (r: Shown)
    ensures Throws(e) ==> r == s
    ensures !e.SetFile? ==> r.id == s.id && r.hasFile == s.hasFile
    ensures !e.Fetch? ==> r.pending == s.pending
    ensures !e.SetLink? ==> r.linkUrl == s.linkUrl && r.linkText == s.linkText
    ensures e.Fetch? || e.SetLink? ==> r.value == s.value
    ensures e.SetFile? && e.file.FileFound? ==> r.hasFile && r.id == e.file.id
    ensures e.SetValue? ==> r.value == e.v
    ensures e.SetFile? && e.file.FileFound? ==> r.value == Str(e.file.name)
    ensures e == SetFile(NoFile) ==> r.value == Null && !r.hasFile && r.id == s.id
    ensures e.Fetch? ==> r.pending == Some(e.path)
    ensures e.SetLink? ==> r.linkUrl == Some(e.url) && r.linkText == Some(e.text)
  {
    match e
    case SetValue(v) => s.(value := v)
    case SetFile(FileFound(name, fileId)) => s.(value := Str(name), id := fileId, hasFile := true)
    case SetFile(NoFile) => s.(value := Null, hasFile := false)
    case SetFile(FileThrows) => s
    case Fetch(path) => s.(pending := Some(path))
    case SetLink(url, text) => s.(linkUrl := Some(url), linkText := Some(text))
  }


  // ---------------------------------------------------------------------------
  // The widget

  class DisplayValueWidget {
    const field: FormField?
    var value: Value
    var fieldType: Option<FieldType>
    var id: Value
    var linkUrl: Option<string>
    var linkText: Option<string>
    var tableEditable: bool
    var hasFile: bool
    var showDocumentContent: bool
    /** The fetch started by initialisation, whose callbacks are pending. */
    var pending: Option<FetchPath>
    /** Whether the `error` event has been emitted. */
    var errorEmitted: bool
    /** Calls of `refreshEntityVisibility(field)`. */
    var entityRefreshes: nat
    /** Calls of `refreshVisibility(field.form)`. */
    var formRefreshes: nat

    constructor (field: FormField?)
      ensures this.field == field
      ensures value == Undefined && fieldType == None && id == Undefined
      ensures linkUrl == None && linkText == None
      ensures !tableEditable && !hasFile && showDocumentContent
      ensures pending == None && !errorEmitted
      ensures entityRefreshes == 0 && formRefreshes == 0
    {
      this.field := field;
      value := Undefined;
      fieldType := None;
      id := Undefined;
      linkUrl := None;
      linkText := None;
      tableEditable := false;
      hasFile := false;
      showDocumentContent := true;
      pending := None;
      errorEmitted := false;
      entityRefreshes := 0;
      formRefreshes := 0;
    }

    function Current(): Shown
      reads this
    {
      Shown(value, id, hasFile, pending, linkUrl, linkText)
    }

    /** `ngOnInit`. With no field nothing happens. Otherwise the value starts
        as the raw value, the two flag params are copied, and when the
        original field has a type the switch applies that type's effect; the
        only failure is the TypeError of an UPLOAD list whose first entry is
        null, after which the form's visibility is not refreshed. The field
        itself is never written. */
    method NgOnInit(host: Host) returns (thrown: bool)
      modifies this
      ensures field == null ==> !thrown && unchanged(this)
      ensures field != null ==> field.value == old(field.value) && field.options == old(field.options)
      ensures field != null ==>
        var t := OriginalType(field.params);
        var start := old(Current()).(value := field.value);
        && entityRefreshes == old(entityRefreshes) + 1
        && formRefreshes == old(formRefreshes) + (if thrown then 0 else 1)
        && errorEmitted == old(errorEmitted)
        && showDocumentContent == (if field.params.Some?
             then FlagParam(field.params.value.showDocumentContent, old(showDocumentContent))
             else old(showDocumentContent))
        && tableEditable == (if field.params.Some?
             then FlagParam(field.params.value.tableEditable, old(tableEditable))
             else old(tableEditable))
        && fieldType == (if t.Some? then t else old(fieldType))
        && (t.None? ==> !thrown && Current() == start)
        && (t.Some? ==>
             var e := BranchEffect(t.value, ViewOf(field), host);
             thrown == Throws(e) && Current() == Applied(e, start))
    {
      thrown := false;
      if field == null {
        return;
      }
      value := field.value;
      entityRefreshes := entityRefreshes + 1;
      if field.params.Some? {
        thrown := ApplyParams(field.params.value, host);
        if thrown {
          return;
        }
      }
      formRefreshes := formRefreshes + 1;
    }

    /** The `params` part of initialisation: copy the two flags, then switch
        on the original field's type when it has one. */
    method ApplyParams(params: Params, host: Host) returns (thrown: bool)
      requires field != null && field.params == Some(params) && value == field.value
      modifies this`showDocumentContent, this`tableEditable, this`fieldType
      modifies this`value, this`id, this`hasFile, this`pending, this`linkUrl, this`linkText
      ensures showDocumentContent == FlagParam(params.showDocumentContent, old(showDocumentContent))
      ensures tableEditable == FlagParam(params.tableEditable, old(tableEditable))
      ensures fieldType == (if params.original.Some? then params.original else old(fieldType))
      ensures params.original.None? ==> !thrown && Current() == old(Current())
      ensures params.original.Some? ==>
        var e := BranchEffect(params.original.value, ViewOf(field), host);
        thrown == Throws(e) && Current() == Applied(e, old(Current()))
    {
      thrown := false;
      if params.showDocumentContent != Undefined {
        showDocumentContent := Truthy(params.showDocumentContent);
      }
      if params.tableEditable != Undefined {
        tableEditable := Truthy(params.tableEditable);
      }
      if params.original.Some? {
        var t := params.original.value;
        fieldType := Some(t);
        thrown := ApplyType(t, host);
      }
    }

    /** The `switch` on the original field's type, entered with the value
        equal to the raw value. */
    method ApplyType(t: FieldType, host: Host) returns (thrown: bool)
      requires field != null && value == field.value
      modifies this`value, this`id, this`hasFile, this`pending, this`linkUrl, this`linkText
      ensures var e := BranchEffect(t, ViewOf(field), host);
        thrown == Throws(e) && Current() == Applied(e, old(Current()))
    {
      thrown := false;
      match t {
        case Boolean =>
          value := if field.value == Str("true") then Bool(true) else Bool(false);
        case FunctionalGroup =>
          if Truthy(field.value) {
            value := Get(field.value, "name");
          } else {
            value := Null;
          }
        case People =>
          var model := field.value;
          if Truthy(model) {
            var displayName := ToString(Get(model, "firstName")) + " " + ToString(Get(model, "lastName"));
            value := Str(Trim(displayName));
          }
        case Upload =>
          thrown := ShowUpload(host.decodeUri);
        case Document =>
          ShowDocument(host.decodeUri);
        case Typeahead =>
          LoadRestFieldValue();
        case Dropdown =>
          if Present(field.restUrl) {
            LoadRestFieldValue();
          } else {
            value := if host.localOptionName.Some? then host.localOptionName.value else value;
          }
        case RadioButtons =>
          if Present(field.restUrl) {
            LoadRestFieldValue();
          } else {
            LoadRadioButtonValue();
          }
        case Date =>
          if Truthy(value) {
            var parsed := host.dateText(value);
            if parsed.Some? {
              value := Str(parsed.value);
            }
          }
        case Amount =>
          if Truthy(value) {
            var currency := OrElse(field.currency, "$");
            value := Str(currency + " " + ToString(field.value));
          }
        case Hyperlink =>
          linkUrl := Some(host.hyperlinkUrl);
          linkText := Some(host.hyperlinkText);
        case Other(_) =>
          value := field.value;
      }
    }

    /** The UPLOAD case: show the first file of `value || []`. */
    method ShowUpload(decodeUri: string -> string) returns (thrown: bool)
      requires field != null
      modifies this`value, this`id, this`hasFile
      ensures var e := SetFile(UploadFile(field.value, decodeUri));
        thrown == Throws(e) && Current() == Applied(e, old(Current()))
    {
      thrown := false;
      var files := if Truthy(field.value) then field.value else Arr([]);
      if files.Arr? && |files.items| > 0 {
        var first := files.items[0];
        if Nullish(first) {
          thrown := true;
          return;
        }
        value := Str(decodeUri(ToString(Get(first, "name"))));
        id := Get(first, "id");
        hasFile := true;
      } else {
        value := Null;
        hasFile := false;
      }
    }

    /** The DOCUMENT case: the value itself is the file to show. */
    method ShowDocument(decodeUri: string -> string)
      requires field != null
      modifies this`value, this`id, this`hasFile
      ensures Current() == Applied(SetFile(DocumentFile(field.value, decodeUri)), old(Current()))
    {
      var file := field.value;
      if Truthy(file) {
        value := Str(decodeUri(ToString(Get(file, "name"))));
        id := Get(file, "id");
        hasFile := true;
      } else {
        value := Null;
        hasFile := false;
      }
    }

    /** `loadRadioButtonValue`: look the raw value up in the field's own
        options. */
    method LoadRadioButtonValue()
      requires field != null
      modifies this`value
      ensures value == RadioValue(field.options, field.value)
    {
      var options := OptionsOrEmpty(field.options);
      var toSelect := FirstMatch(options, field.value);
      if toSelect.Some? {
        value := Str(options[toSelect.value].name);
      } else {
        value := field.value;
      }
    }

    /** `loadRestFieldValue`: subscribe by task when the form has a task id,
        else by process definition. */
    method LoadRestFieldValue()
      requires field != null
      modifies this`pending
      ensures pending == Some(RestPath(field.form, field.id))
      ensures pending.value.ByTask? <==> Present(field.form.taskId)
    {
      if Present(field.form.taskId) {
        pending := Some(ByTask(field.form.taskId.value, field.id));
      } else {
        pending := Some(ByProcessDefinition(field.form.processDefinitionId, field.id));
      }
    }

    /** The success callback of either fetch: the field's options become the
        result (none for a null result) and the value is resolved by id in
        them, falling back to the raw value; then the form's visibility is
        refreshed. The field's value is not written. */
    method OnFetchSuccess(result: Option<seq<FieldOption>>)
      requires field != null && pending.Some?
      modifies this`value, this`formRefreshes, field`options
      ensures field.options == Some(OptionsOrEmpty(result))
      ensures value == NameOrRaw(OptionsOrEmpty(result), field.value)
      ensures field.value == old(field.value)
      ensures formRefreshes == old(formRefreshes) + 1
    {
      var options := OptionsOrEmpty(result);
      var toSelect := FirstMatch(options, field.value);
      field.options := Some(options);
      if toSelect.Some? {
        value := Str(options[toSelect.value].name);
      } else {
        value := field.value;
      }
      formRefreshes := formRefreshes + 1;
    }

    /** The failure callback of either fetch: the value falls back to the raw
        value; the `error` event is emitted on the task path only. The
        field's options stay as they were. */
    method OnFetchFailure()
      requires field != null && pending.Some?
      modifies this`value, this`errorEmitted
      ensures unchanged(field)
      ensures value == field.value
      ensures errorEmitted == (old(errorEmitted) || pending.value.ByTask?)
      ensures pending.value.ByProcessDefinition? ==> errorEmitted == old(errorEmitted)
    {
      if pending.value.ByTask? {
        errorEmitted := true;
      }
      value := field.value;
    }
  }
}
