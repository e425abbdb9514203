# Form widgets: display value, dropdown options, container expander

A Dafny model of three widgets of the Activiti form renderer
(`ng2-activiti-form`):

- **DisplayValueWidget** shows a read-only field. On initialisation it takes
  the bound field's raw value and rewrites it by the type of the original
  field (`params.field.type`). The rules cover booleans stored as strings,
  functional groups, people, uploads and documents, radio buttons, dates,
  amounts, hyperlinks and a default. TYPEAHEAD fields, and DROPDOWN and
  RADIO_BUTTONS fields with a REST url, fetch their options instead. The
  fetch goes by task when the form has a task id and by process definition
  otherwise. On success the field's options are replaced and the value is
  looked up by id. On failure the value falls back to the raw value, and an
  error event is emitted on the task path only.
- **DropdownWidget** fetches the options of a field with a REST url. On
  success it installs the field's empty option (if any) followed by the
  fetched options. On failure it only logs. `getOptionValue` decides whether
  an option is selected by its id or by its name.
- **ContainerWidget** flips its content's `isExpanded` on a header click,
  when there is content and it is collapsible.

Files:

- `js_values.dfy` (module `JsValues`): the JavaScript values a field can
  hold. It covers truthiness, property reads, template-literal string
  conversion (decimal numbers included) and `String.prototype.trim`.
- `form_model.dfy` (module `FormModel`): the field (a class whose
  `options` the callbacks replace), option, field type, form identifiers,
  the fetch-path choice and the `options.find` lookup by id.
- `display_value.dfy` (module `DisplayValue`): one resolution function
  per field type, their properties, and the widget class.
- `dropdown.dfy` (module `Dropdown`): the option list a fetch
  installs, `getOptionValue`, and the widget class.
- `container.dfy` (module `Container`): the content and the
  widget classes and the click rule.

The widgets are classes whose methods overwrite their fields, as the
source does. Each method's postcondition gives the complete new state in
terms of the pure rule functions. The lemmas state what those rules
promise. Collaborators whose code is not part of this model are given to
`NgOnInit` as a `Host` value. These are `decodeURI`, the `moment`-based
date formatting, the inherited hyperlink helpers and the field's own
option-name lookup. Service calls are split into the start of the fetch
(the widget's `pending` path) and the two callback methods. Side effects on
code outside this model are recorded as counters or flags: visibility refreshes,
`updateForm`, the log and the `error` event.

Behaviour of the code worth noting:

- PEOPLE: a missing first or last name is printed by the template literal
  as the word `undefined` (`PeopleMissingFirstName`, `PeopleMissingLastName`).
- BOOLEAN: the value becomes the boolean `true` or `false`.
- DATE: a value that does not parse keeps the raw value.
- Fetch failure: only the task path emits an error. The process-definition
  path falls back to the raw value silently (`OnFetchFailure`).

## Model

| member | source | states |
|---|---|---|
| `JsValues.Truthy` | ng2-components/ng2-activiti-form/src/components/widgets/display-value/display-value.widget.ts:77 | `if (v)`: null and undefined are falsy, arrays and objects truthy, and a string exactly when it is non-empty, a number exactly when it is non-zero, and a boolean is its own value. |
| `JsValues.Get` | ng2-components/ng2-activiti-form/src/components/widgets/display-value/display-value.widget.ts:78 | Reading a property of a non-null value gives the plain object's own property, and `undefined` for a missing key or a non-object. |
| `JsValues.OrElse` | ng2-components/ng2-activiti-form/src/components/widgets/display-value/display-value.widget.ts:145 | The currency fallback: a present non-empty string is kept; an absent or empty one gives the fallback. |
| `JsValues.NatToString` | ng2-components/ng2-activiti-form/src/components/widgets/display-value/display-value.widget.ts:146 | The decimal text of a number in the template is non-empty, all digits, and has no leading zero. |
| `JsValues.NatToStringRoundTrip` | ng2-components/ng2-activiti-form/src/components/widgets/display-value/display-value.widget.ts:146 | Reading back the digits a number prints as gives the number. |
| `JsValues.IntToString` | ng2-components/ng2-activiti-form/src/components/widgets/display-value/display-value.widget.ts:146 | An integer prints as decimal digits, with a leading minus sign when negative, and the digits read back as its magnitude. The form is canonical: zero is "0" and no other result has a leading zero after the optional sign. |
| `JsValues.ToString` | ng2-components/ng2-activiti-form/src/components/widgets/display-value/display-value.widget.ts:86 | A template literal inserts a string as it is and a number as its decimal text. |
| `JsValues.WhitespaceRunEnd` | ng2-components/ng2-activiti-form/src/components/widgets/display-value/display-value.widget.ts:87 | The white space starting at a position runs up to the result: every character before it is white space, and the result is the end of the text or a non-white-space character. |
| `JsValues.WhitespaceRunStart` | ng2-components/ng2-activiti-form/src/components/widgets/display-value/display-value.widget.ts:87 | The white space ending at a position starts at the result: every character from it is white space, and the result is the start of the text or follows a non-white-space character. |
| `JsValues.TrimStart` | ng2-components/ng2-activiti-form/src/components/widgets/display-value/display-value.widget.ts:87 | Leading-space removal gives a suffix that does not start with white space; every dropped character is white space. |
| `JsValues.TrimEnd` | ng2-components/ng2-activiti-form/src/components/widgets/display-value/display-value.widget.ts:87 | Trailing-space removal gives a prefix that does not end with white space; every dropped character is white space. |
| `JsValues.Trim` | ng2-components/ng2-activiti-form/src/components/widgets/display-value/display-value.widget.ts:87 | `trim()` gives a contiguous slice of its input with no white space at either end. |
| `JsValues.TrimDecomposes` | ng2-components/ng2-activiti-form/src/components/widgets/display-value/display-value.widget.ts:87 | The input is exactly white space, then the trimmed text, then white space. |
| `JsValues.TrimUnpadded` | ng2-components/ng2-activiti-form/src/components/widgets/display-value/display-value.widget.ts:87 | Text with no white space at either end is left unchanged by `trim()`. |
| `JsValues.TrimIdempotent` | ng2-components/ng2-activiti-form/src/components/widgets/display-value/display-value.widget.ts:87 | Trimming twice is the same as trimming once. |
| `JsValues.TrimIgnoresTrailing` | ng2-components/ng2-activiti-form/src/components/widgets/display-value/display-value.widget.ts:86-87 | Appending white space does not change the trimmed result. |
| `FormModel.RestPath` | ng2-components/ng2-activiti-form/src/components/widgets/display-value/display-value.widget.ts:173-179 | The fetch goes by task exactly when the form's task id is truthy, else by process definition, always for this field's id. |
| `FormModel.FirstMatch` | ng2-components/ng2-activiti-form/src/components/widgets/display-value/display-value.widget.ts:165 | `find` gives the first option whose id is the raw value. It gives nothing exactly when no option's id matches. |
| `FormModel.NameOrRaw` | ng2-components/ng2-activiti-form/src/components/widgets/display-value/display-value.widget.ts:164-170 | A lookup by id shows the raw value or the name of an option whose id is the raw value. When no option's id is the raw value, it shows the raw value verbatim. |
| `FormModel.NameOrRawFound` | ng2-components/ng2-activiti-form/src/components/widgets/display-value/display-value.widget.ts:165-167 | When some option's id is the raw value, the first such option's name is shown. |
| `DisplayValue.BooleanValue` | ng2-components/ng2-activiti-form/src/components/widgets/display-value/display-value.widget.ts:73-75 | BOOLEAN always gives a boolean. |
| `DisplayValue.FunctionalGroupValue` | ng2-components/ng2-activiti-form/src/components/widgets/display-value/display-value.widget.ts:76-82 | FUNCTIONAL_GROUP gives null, undefined, or the `name` the group object carries. |
| `DisplayValue.PeopleValue` | ng2-components/ng2-activiti-form/src/components/widgets/display-value/display-value.widget.ts:83-89 | PEOPLE leaves the raw value, or gives text without white space at either end, and only for a truthy value. |
| `DisplayValue.UploadFile` | ng2-components/ng2-activiti-form/src/components/widgets/display-value/display-value.widget.ts:90-99 | UPLOAD finds a file only in a non-empty list whose first entry is not null or undefined, with that entry's id. It finds no file only when there is no non-empty list. |
| `DisplayValue.DocumentFile` | ng2-components/ng2-activiti-form/src/components/widgets/display-value/display-value.widget.ts:101-111 | DOCUMENT never throws. A file it finds is the non-null value itself, with its id. |
| `DisplayValue.RadioValue` | ng2-components/ng2-activiti-form/src/components/widgets/display-value/display-value.widget.ts:122-128 | A local RADIO_BUTTONS value is the raw value or the name of one of the field's options. With no option list it is the raw value. |
| `DisplayValue.DateValue` | ng2-components/ng2-activiti-form/src/components/widgets/display-value/display-value.widget.ts:129-142 | DATE keeps the raw value, or shows the text the date parse gave for a truthy value. |
| `DisplayValue.AmountValue` | ng2-components/ng2-activiti-form/src/components/widgets/display-value/display-value.widget.ts:143-148 | AMOUNT changes only a truthy value. The amount's text then ends the result, after a space. |
| `DisplayValue.BranchEffect` | ng2-components/ng2-activiti-form/src/components/widgets/display-value/display-value.widget.ts:72-156 | The switch starts a fetch exactly for TYPEAHEAD, and for DROPDOWN or RADIO_BUTTONS with a REST url, always on the fetch path of the form and field. It shows a file exactly for UPLOAD and DOCUMENT and sets the link exactly for HYPERLINK. |
| `DisplayValue.FlagParam` | ng2-components/ng2-activiti-form/src/components/widgets/display-value/display-value.widget.ts:62-67 | An undefined param keeps the flag. Otherwise the flag is `!!param`: a boolean is kept, null, 0 and "" give false, arrays and objects give true, any other number and any non-empty string (even "false") give true. |
| `DisplayValue.Applied` | ng2-components/ng2-activiti-form/src/components/widgets/display-value/display-value.widget.ts:72-156 | A branch that throws writes nothing. Only file branches write `id` and `hasFile`, only fetches set the pending path, only HYPERLINK writes the link, and fetches and links leave the value. A plain value write stores that value; a found file shows its decoded name and sets `hasFile` and its id; no file shows null, clears `hasFile` and keeps the id; a fetch records its path and a link stores its url and text. |
| `DisplayValue.BooleanIff` | ng2-components/ng2-activiti-form/src/components/widgets/display-value/display-value.widget.ts:73-75 | BOOLEAN gives true exactly for the string "true", and false for every other raw value. |
| `DisplayValue.FunctionalGroupResolves` | ng2-components/ng2-activiti-form/src/components/widgets/display-value/display-value.widget.ts:76-82 | Any truthy value gives its `name` property: the group's name, or undefined when it has none (a string, a number, an object without `name`). A falsy value gives null. |
| `DisplayValue.PeopleWithNames` | ng2-components/ng2-activiti-form/src/components/widgets/display-value/display-value.widget.ts:83-89 | A person with string names gives `trim(first + " " + last)`. |
| `DisplayValue.PeopleExactName` | ng2-components/ng2-activiti-form/src/components/widgets/display-value/display-value.widget.ts:86-87 | Non-empty names with no surrounding white space are shown exactly as "first last". |
| `DisplayValue.PeopleEmptyLastName` | ng2-components/ng2-activiti-form/src/components/widgets/display-value/display-value.widget.ts:86-87 | An empty last name leaves no trailing space: only the trimmed first name is shown. |
| `DisplayValue.PeopleMissingFirstName` | ng2-components/ng2-activiti-form/src/components/widgets/display-value/display-value.widget.ts:86-87 | A missing first name is printed as "undefined" before the last name. |
| `DisplayValue.PeopleMissingLastName` | ng2-components/ng2-activiti-form/src/components/widgets/display-value/display-value.widget.ts:86-87 | A missing last name is printed as "undefined" after the first name. |
| `DisplayValue.PeopleAbsent` | ng2-components/ng2-activiti-form/src/components/widgets/display-value/display-value.widget.ts:84-85 | An absent person leaves the value equal to the raw value. |
| `DisplayValue.UploadResolves` | ng2-components/ng2-activiti-form/src/components/widgets/display-value/display-value.widget.ts:90-100 | A non-empty file list shows its first file's decoded name and id. An empty or absent list shows no file. The branch throws exactly when the first entry is null or undefined. |
| `DisplayValue.DocumentResolves` | ng2-components/ng2-activiti-form/src/components/widgets/display-value/display-value.widget.ts:101-111 | A present document shows as a file named by the decoded `name` of the value, with the value's `id`; an absent one shows no file. |
| `DisplayValue.RadioResolves` | ng2-components/ng2-activiti-form/src/components/widgets/display-value/display-value.widget.ts:163-171 | A local radio value shows the first option with that id by name. A missing option list shows the raw value. |
| `DisplayValue.RadioUnknownValue` | ng2-components/ng2-activiti-form/src/components/widgets/display-value/display-value.widget.ts:163-171 | A local radio value that is no option's id is shown verbatim. |
| `DisplayValue.AmountResolves` | ng2-components/ng2-activiti-form/src/components/widgets/display-value/display-value.widget.ts:143-148 | A truthy amount becomes `currency + " " + amount`, with "$" when no currency is set. A falsy amount is unchanged. |
| `DisplayValue.AmountExample` | ng2-components/ng2-activiti-form/src/components/widgets/display-value/display-value.widget.ts:143-148 | The amount "100" with no currency is shown as "$ 100". |
| `DisplayValue.DateInvalidUnchanged` | ng2-components/ng2-activiti-form/src/components/widgets/display-value/display-value.widget.ts:129-142 | A date that does not parse leaves the raw value. |
| `DisplayValue.DefaultIsRaw` | ng2-components/ng2-activiti-form/src/components/widgets/display-value/display-value.widget.ts:153-155 | Every other type shows the raw value. |
| `DisplayValue.DisplayValueWidget.constructor` | ng2-components/ng2-activiti-form/src/components/widgets/display-value/display-value.widget.ts:37-50 | The widget starts with no value, type, id or link, `tableEditable` and `hasFile` false, `showDocumentContent` true, and no fetch. |
| `DisplayValue.DisplayValueWidget.NgOnInit` | ng2-components/ng2-activiti-form/src/components/widgets/display-value/display-value.widget.ts:57-161 | With no field, nothing changes. Otherwise the value starts as the raw value and the flag params are copied. With no params or no typed original field, the type stays as it was. Otherwise the type's effect is applied. Visibility is refreshed unless the upload branch threw. The field is never written. |
| `DisplayValue.DisplayValueWidget.ApplyParams` | ng2-components/ng2-activiti-form/src/components/widgets/display-value/display-value.widget.ts:61-157 | `showDocumentContent` and `tableEditable` become `!!param` when the param is defined. `fieldType` is set and the switch applied only for a typed original field. |
| `DisplayValue.DisplayValueWidget.ApplyType` | ng2-components/ng2-activiti-form/src/components/widgets/display-value/display-value.widget.ts:72-156 | The switch writes exactly the fields its type's rule names. |
| `DisplayValue.DisplayValueWidget.ShowUpload` | ng2-components/ng2-activiti-form/src/components/widgets/display-value/display-value.widget.ts:90-100 | The UPLOAD case sets value, id and `hasFile` from the first file, or null and false with no file. It throws and writes nothing when the first entry is null. |
| `DisplayValue.DisplayValueWidget.ShowDocument` | ng2-components/ng2-activiti-form/src/components/widgets/display-value/display-value.widget.ts:101-111 | The DOCUMENT case sets value, id and `hasFile` from a present file, or null and false without one, exactly as `DocumentFile` gives. |
| `DisplayValue.DisplayValueWidget.LoadRadioButtonValue` | ng2-components/ng2-activiti-form/src/components/widgets/display-value/display-value.widget.ts:163-171 | The value becomes the lookup by id in the field's own options, or in none when they are missing. |
| `DisplayValue.DisplayValueWidget.LoadRestFieldValue` | ng2-components/ng2-activiti-form/src/components/widgets/display-value/display-value.widget.ts:173-179 | The pending fetch is by task exactly when the form has a task id. |
| `DisplayValue.DisplayValueWidget.OnFetchSuccess` | ng2-components/ng2-activiti-form/src/components/widgets/display-value/display-value.widget.ts:188-198 | Same on both paths (lines 209-219). The field's options become the result, or empty for a null result. The value is the matching option's name, else the raw value. Visibility is refreshed and the field's value is unchanged. |
| `DisplayValue.DisplayValueWidget.OnFetchFailure` | ng2-components/ng2-activiti-form/src/components/widgets/display-value/display-value.widget.ts:220-223 | The value falls back to the raw value. The error is emitted on the task path only; the process-definition path (lines 199-201) emits nothing. The field is unchanged. |
| `Dropdown.FetchedOptions` | ng2-components/ng2-activiti-form/src/components/widgets/dropdown/dropdown.widget.ts:56-60 | The installed list is the result's length plus one for an empty option, which then comes first. |
| `Dropdown.FetchedOptionsWithEmpty` | ng2-components/ng2-activiti-form/src/components/widgets/dropdown/dropdown.widget.ts:56-60 | With an empty option the list is `[emptyOption] + result`: one longer than the result, starting with the empty option. |
| `Dropdown.FetchedOptionsWithoutEmpty` | ng2-components/ng2-activiti-form/src/components/widgets/dropdown/dropdown.widget.ts:56-60 | Without an empty option the list is exactly the result, or empty for a null result. |
| `Dropdown.FetchedOptionsNullResult` | ng2-components/ng2-activiti-form/src/components/widgets/dropdown/dropdown.widget.ts:60 | A null result gives length at most 1, and 1 exactly when there is an empty option. |
| `Dropdown.FetchedOptionsKeepResult` | ng2-components/ng2-activiti-form/src/components/widgets/dropdown/dropdown.widget.ts:75-79 | Every fetched option appears, in order, right after the empty option if there is one. |
| `Dropdown.OptionValue` | ng2-components/ng2-activiti-form/src/components/widgets/dropdown/dropdown.widget.ts:86-94 | The result is always the id or the name. When it is not the id, it is the name and equals the field's value. |
| `Dropdown.OptionValueSelects` | ng2-components/ng2-activiti-form/src/components/widgets/dropdown/dropdown.widget.ts:88-93 | An option's value equals the field's value exactly when its id does, or when (not being "empty") its name does. |
| `Dropdown.EmptyOptionByItsId` | ng2-components/ng2-activiti-form/src/components/widgets/dropdown/dropdown.widget.ts:88-89 | The option with id "empty" is always selected by its id. |
| `Dropdown.DropdownWidget.NgOnInit` | ng2-components/ng2-activiti-form/src/components/widgets/dropdown/dropdown.widget.ts:38-46 | No fetch starts without a field or a REST url. Otherwise the fetch is by task exactly when the form has a task id. |
| `Dropdown.DropdownWidget.OnFetchSuccess` | ng2-components/ng2-activiti-form/src/components/widgets/dropdown/dropdown.widget.ts:55-62 | Same on both paths (lines 74-81). The field's options become the empty option, if any, followed by the result. The form is updated and the field's value is unchanged. |
| `Dropdown.DropdownWidget.OnFetchFailure` | ng2-components/ng2-activiti-form/src/components/widgets/dropdown/dropdown.widget.ts:63 | The options are left unchanged and the error is logged. |
| `Dropdown.DropdownWidget.HandleError` | ng2-components/ng2-activiti-form/src/components/widgets/dropdown/dropdown.widget.ts:100-102 | Each error is passed to the log once. |
| `Dropdown.DropdownWidget.CheckVisibility` | ng2-components/ng2-activiti-form/src/components/widgets/dropdown/dropdown.widget.ts:96-98 | The form's visibility is refreshed once. |
| `Container.ContainerContent.constructor` | ng2-components/ng2-activiti-form/src/components/widgets/container/container.widget.ts:40-42 | The content is created for the widget's field, with the given collapsibility and expanded state. |
| `Container.AfterClick` | ng2-components/ng2-activiti-form/src/components/widgets/container/container.widget.ts:33-37 | A click negates the expanded state of collapsible content and leaves other content as it was. |
| `Container.TwoClicksRestore` | ng2-components/ng2-activiti-form/src/components/widgets/container/container.widget.ts:35 | Two clicks restore the original expanded state. |
| `Container.ContainerWidget.OnExpanderClicked` | ng2-components/ng2-activiti-form/src/components/widgets/container/container.widget.ts:33-37 | Present collapsible content flips `isExpanded`. Non-collapsible content keeps it. With no content nothing changes, and the click has no precondition. |
| `Container.ContainerWidget.NgOnInit` | ng2-components/ng2-activiti-form/src/components/widgets/container/container.widget.ts:39-43 | A bound field gets fresh content for that field; without a field the content stays unset. |
| `Container.ContainerWidget.ClickTwice` | ng2-components/ng2-activiti-form/src/components/widgets/container/container.widget.ts:35 | Two consecutive clicks on the widget leave `isExpanded` as it was. |

## Left out

- DATE: the number test (`NumberFieldValidator.isNumber`), the `moment` parse and the formatting are given as `Host.dateText`. The model only captures that an invalid parse keeps the raw value. The TypeError that `split` raises on a truthy value that is neither a number nor a string is not modelled.
- `decodeURI` is given as the total function `Host.decodeUri`. Its URIError on malformed escapes is not modelled.
- HYPERLINK: `getHyperlinkUrl` and `getHyperlinkText` are inherited from a component that is not part of this model. Their results are given as `Host.hyperlinkUrl` and `Host.hyperlinkText`.
- Local DROPDOWN in the display widget: `field.hasOptions()` and `field.getOptionName()` are not part of this model. They are given together as `Host.localOptionName`.
- Field type tags: the `FormFieldTypes` constants are not part of this model. The original field's type is given as the `FieldType` enumeration. `Other` stands for every unmatched tag, and `Params.original` is None for a missing or untyped original field.
- Numbers are integers: fractions, NaN, infinities and their string forms are not modelled.
- JsValues.NatToString: the model's numbers are unbounded and always print as plain decimal digits. JavaScript numbers are doubles: integers above 2^53 cannot all be represented, and integers of magnitude 10^21 or more print in exponent form (`${1e21}` is "1e+21"). For such values the AMOUNT and PEOPLE text of the model differs from the program's.
- Property reads model only the own properties of plain objects. The keys the widgets read are not inherited by any value, so this matters only for odd prototypes.
- UPLOAD: a truthy raw value that is not an array is treated as having no files. JavaScript would read its `length`, so a non-empty string would count as a file list.
- The field's `form` is assumed present. A field without a form would throw on `field.form.taskId`.
- `FormService` HTTP calls and Observable subscriptions are modelled as the chosen path (`pending`) plus the two callback methods. The error payload, repeated emissions and cancellation are not modelled.
- `refreshVisibility`, `refreshEntityVisibility`, `updateForm`, `LogService.error` and the `error` EventEmitter are side effects on code that is not part of this model. They are recorded as counters and a flag.
- Container: `setupMaterialComponents` and `ngAfterViewInit` drive the Material Design Lite global `componentHandler`, which is browser plumbing. The source's content class `ContainerWidgetModel` is modelled as `ContainerContent`; its constructor and `isCollapsible()` are not part of this model. Collapsibility and the initial expanded state are passed in when the content is created.
- Angular decorators, templates, styles and lifecycle scheduling are framework plumbing.
