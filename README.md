# Upload adapter and list-properties converters, modelled in Dafny

This project models the two pieces of sequential logic in this CKEditor 5
customisation:

- **The custom simple upload adapter** (`customuploadadapter.ts`). This covers:
  - the plugin's registration gate;
  - the adapter that opens an XMLHttpRequest and sets its headers, credentials
    flag and multipart body;
  - the `abort` guard on the optional request handle;
  - the `error`, `abort` and `load` listeners that settle the upload promise;
  - the progress listener that copies the counters into the file loader.
- **The document-list properties converters** (`converters.js`). This covers:
  - the upcast converter, which sets one list attribute in place on the shallow
    model items of a converted view list and calls `consumable.consume` on the
    view item only if it set any;
  - the downcast converter and `wrapListItemBlock`, which walks the indent
    levels from the item's `listIndent` down to 0 and wraps the block in one list
    element per level the strategy applies to.

Files:

- `wrappers.dfy`: `Option`.
- `json.dfy`: JSON values as the request delivers them, with JavaScript
  truthiness, property reads and the own fields that `{...v}` copies. Array and
  string indices become decimal keys; `DecimalValueOfIndexKey` proves that this
  encoding can be read back.
- `upload_adapter.dfy`: the adapter.
  - The pure decisions (`Init`, `OnLoad`, `Settle`) are functions.
  - The request handle, the file loader and the adapter are classes whose methods
    update their fields.
  - `SendRequest` loops over the configured header names.
- `list_converters.dfy`: the converters.
  - `SetListAttributes` is the in-place loop over an `array` of model items. It
    is proved against the function `UpcastAll`.
  - `WrapListItemBlock` is the descending indent loop. It is proved against
    `ExpectedWrappers`, and the lemmas next to it state what the wrapping does.

Collaborators that belong to the host framework are parameters.
`schema.checkAttribute` is a function. The strategy's `appliesToListItem` and
`getAttributeOnUpcast` are function fields. The answers of `consumable.test` and
`consumable.consume` are values. `conversionApi.convertChildren` is the
`ChildrenConversion` it would return. `ListWalker.first(item, {lowerIndent:
true})` is a chain of items: `chain[k]` is the lower-indent item found at step
`k`, and a chain that ends early means the walker found none.

Points of the adapter's behaviour that the model makes explicit:

- A response with a falsy `success` and no `error` resolves with `urls.default =
  response.images`. It is not rejected.
- The generic message is ``Couldn't upload file: <name>.``.
- The body always carries exactly `smfile` and `format = json`. The
  configuration has no extra body fields.
- The upload request's HTTP status is never inspected. Only the parsed body
  decides the outcome.
- With a truthy `success` and a `data` that is undefined or null, reading
  `response.data.url` throws inside the `load` listener. The promise then never
  settles (`Settlement.Unsettled`).

## Model

| member | source | states |
|---|---|---|
| `Json.OwnFields` | packages/ckeditor5-build-classic/custom-plugins/UploadAdapter/customuploadadapter.ts:100 | What `...response` copies: an object's fields, an array's elements or a string's characters under their decimal index keys, and nothing for null, booleans and numbers. For an array or a string the index keys are exactly the keys. |
| `UploadAdapter.Init` | packages/ckeditor5-build-classic/custom-plugins/UploadAdapter/customuploadadapter.ts:25-40 | With no configuration, nothing is registered and nothing is logged. With a falsy `uploadUrl`, exactly the warning `simple-upload-adapter-missing-uploadurl` is logged and no factory is installed. Otherwise a factory is installed that captures those options. |
| `UploadAdapter.RegisteredFactoryHasEndpoint` | packages/ckeditor5-build-classic/custom-plugins/UploadAdapter/customuploadadapter.ts:32-39 | An installed factory always has a non-empty endpoint. `init` never both warns and installs a factory, and logs at most one warning. |
| `UploadAdapter.OnLoad` | packages/ckeditor5-build-classic/custom-plugins/UploadAdapter/customuploadadapter.ts:86-103 | The upload rejects exactly when the body is falsy or `error` is truthy. The message is then a truthy `error.message`, else the generic text. The listener throws exactly when `success` is truthy and `data` is undefined or null. Otherwise the upload resolves with every response field except `urls`. `urls.default` is `data.url` when `success` is truthy and `images` otherwise. |
| `UploadAdapter.Settle` | packages/ckeditor5-build-classic/custom-plugins/UploadAdapter/customuploadadapter.ts:84-86 | A transport error rejects with the generic text. An abort rejects with no message. A load is settled by `OnLoad`. |
| `UploadAdapter.OnlyAbortRejectsWithoutMessage` | packages/ckeditor5-build-classic/custom-plugins/UploadAdapter/customuploadadapter.ts:84-91 | For every event, the upload rejects with no message if and only if the event is an abort. This is what lets callers tell cancellation apart from failure. |
| `UploadAdapter.ResolvedObjectKeepsResponse` | packages/ckeditor5-build-classic/custom-plugins/UploadAdapter/customuploadadapter.ts:99-102 | The resolved object has exactly the response's own keys plus `urls`. Every response field other than `urls` is unchanged. `urls` is the normalised `{default: …}`, which overrides a `urls` field from the response. An undefined `urls.default` is shown as an empty object, although JavaScript keeps an own `default` key holding `undefined`. |
| `UploadAdapter.SuccessResolvesWithDataUrl` | packages/ckeditor5-build-classic/custom-plugins/UploadAdapter/customuploadadapter.ts:95 | `{success: true, data: {url: "http://x/1.png"}}` resolves with `urls.default == "http://x/1.png"`. |
| `UploadAdapter.ErrorRejectsWithServerMessage` | packages/ckeditor5-build-classic/custom-plugins/UploadAdapter/customuploadadapter.ts:89-91 | `{success: false, error: {message: "too big"}}` rejects with `"too big"`. |
| `UploadAdapter.FalsySuccessWithoutErrorResolves` | packages/ckeditor5-build-classic/custom-plugins/UploadAdapter/customuploadadapter.ts:95 | `{success: false, images: …}` without `error` resolves with `urls.default` taken from `images`. |
| `UploadAdapter.NullBodyRejectsWithGenericText` | packages/ckeditor5-build-classic/custom-plugins/UploadAdapter/customuploadadapter.ts:82-91 | A `null` body, which is what the request delivers for an unparsable response, rejects with ``Couldn't upload file: <name>.``. |
| `UploadAdapter.UploadBody` | packages/ckeditor5-build-classic/custom-plugins/UploadAdapter/customuploadadapter.ts:128-133 | The form body has exactly two entries: the file under `smfile`, then `format = json`. |
| `UploadAdapter.OnProgress` | packages/ckeditor5-build-classic/custom-plugins/UploadAdapter/customuploadadapter.ts:105-111 | When the length is computable, `uploadTotal` becomes the event's total and `uploaded` its loaded count. Otherwise the loader is unchanged. |
| `UploadAdapter.Adapter.constructor` | packages/ckeditor5-build-classic/custom-plugins/UploadAdapter/customuploadadapter.ts:48-51 | The adapter keeps the loader and the options and has no request yet. |
| `UploadAdapter.Adapter.Abort` | packages/ckeditor5-build-classic/custom-plugins/UploadAdapter/customuploadadapter.ts:62-66 | Without a request it changes nothing. Otherwise it aborts the current request once and changes nothing else about it. |
| `UploadAdapter.Adapter.InitRequest` | packages/ckeditor5-build-classic/custom-plugins/UploadAdapter/customuploadadapter.ts:68-73 | Creates a fresh request, opened as an asynchronous `POST` to `uploadUrl` with response type `json`. Nothing has been set or sent on it yet. |
| `UploadAdapter.Adapter.InitListeners` | packages/ckeditor5-build-classic/custom-plugins/UploadAdapter/customuploadadapter.ts:75-113 | The request's events now report on this file. The progress listener is attached only when the request has an upload target. Nothing else about the request changes. |
| `UploadAdapter.Adapter.SendRequest` | packages/ckeditor5-build-classic/custom-plugins/UploadAdapter/customuploadadapter.ts:115-137 | Each configured header is set exactly once, with its value, and no other header is set. `withCredentials` is true only when configured true, so it defaults to false. The body sent is `UploadBody(file)`. |
| `UploadAdapter.Adapter.Upload` | packages/ckeditor5-build-classic/custom-plugins/UploadAdapter/customuploadadapter.ts:53-60 | Opens a fresh request. With a file, it attaches the listeners, sets the headers and credentials and sends the body. With a null file, no listener, header or credentials flag is set and nothing is sent. Only the request handle of the adapter changes; its loader and options stay as they were. |
| `ListPropertiesConverters.UpcastAllAt` | packages/ckeditor5-list/src/documentlistproperties/converters.js:39-55 | The upcast keeps the items' number and positions and converts each item on its own. |
| `ListPropertiesConverters.UpcastChangesOnlyReceivers` | packages/ckeditor5-list/src/documentlistproperties/converters.js:39-53 | An item receives the attribute only if the schema allows it, the strategy applies and the item lacks the attribute. Such an item gets the attribute with the single upcast value and keeps everything else. Every other item is unchanged. |
| `ListPropertiesConverters.UpcastIdempotent` | packages/ckeditor5-list/src/documentlistproperties/converters.js:48-51 | After an upcast no item receives the attribute again, so a second upcast changes nothing and does not call `consumable.consume`. |
| `ListPropertiesConverters.SetListAttributes` | packages/ckeditor5-list/src/documentlistproperties/converters.js:37-55 | The in-place loop leaves the items equal to `UpcastAll` of the old items. The `applied` flag is true if and only if some item received the attribute. |
| `ListPropertiesConverters.UpcastConverter` | packages/ckeditor5-list/src/documentlistproperties/converters.js:23-61 | When the test answers exactly `false`, nothing changes and `consumable.consume` is not called. Otherwise a missing model range is first taken from the converted children. The range's items become `UpcastAll` of the old items. `consumable.consume` is called if and only if some item received the attribute. When a range was already in place, the children are not converted and their range is left alone. |
| `ListPropertiesConverters.VisitedLevels` | packages/ckeditor5-list/src/documentlistproperties/converters.js:102-120 | The loop visits exactly `listIndent + 1` levels, down to indent 0, when the lower-indent chain is long enough. Otherwise it visits the levels down to where the chain ends, `|chain| + 1` in all. It visits none without `listIndent`. |
| `ListPropertiesConverters.NoIndentNoWrappers` | packages/ckeditor5-list/src/documentlistproperties/converters.js:92-94 | An item without `listIndent` is not wrapped. |
| `ListPropertiesConverters.WrappersUpToLevels` | packages/ckeditor5-list/src/documentlistproperties/converters.js:102-124 | After `k` levels there are at most `k` elements. Each element is the element of one of those levels, namely the level its indent gives. The strategy applies to that level, and the element carries the level item's `listType` and property value. |
| `ListPropertiesConverters.WrappersUpToComplete` | packages/ckeditor5-list/src/documentlistproperties/converters.js:102-108 | Every one of the first `k` levels the strategy applies to contributes its element. |
| `ListPropertiesConverters.WrappersUpToDescending` | packages/ckeditor5-list/src/documentlistproperties/converters.js:102-124 | The elements of the first `k` levels have strictly descending indents, all in `(listIndent - k, listIndent]`. |
| `ListPropertiesConverters.WrapListItemBlockShape` | packages/ckeditor5-list/src/documentlistproperties/converters.js:91-124 | At most `listIndent + 1` elements. Indents descend strictly, stay between 0 and `listIndent`, and never go below where the lower-indent chain ends. Each element carries its level's item's `listType` and property value. Every visited level the strategy applies to is wrapped. |
| `ListPropertiesConverters.AllLevelsWrapped` | packages/ckeditor5-list/src/documentlistproperties/converters.js:102-108 | When the strategy applies at every visited level, there is one element per level. |
| `ListPropertiesConverters.WrapAllAddsWrappers` | packages/ckeditor5-list/src/documentlistproperties/converters.js:107 | Successive `wrap` calls add exactly the given list elements around the range, each new one outermost. |
| `ListPropertiesConverters.WrapListItemBlock` | packages/ckeditor5-list/src/documentlistproperties/converters.js:91-125 | The descending indent loop, with its two early exits, yields the range wrapped in `ExpectedWrappers`, innermost first. |
| `ListPropertiesConverters.DowncastConverter` | packages/ckeditor5-list/src/documentlistproperties/converters.js:72-88 | If consuming the list item fails, the view is left as it was. Otherwise the block's element is wrapped in exactly `ExpectedWrappers`, innermost first. |

## Left out

- XMLHttpRequest, FormData, promises and `loader.file`:
  - The request object is a class that records the calls made on it.
  - A listener's effect on the promise is a `Settlement` value.
  - The file the loader's promise yields is a parameter of `Upload`.
  - The asynchronous ordering between `upload`, events and `abort` is not
    modelled. The browser delivers at most one of `load`, `error` and `abort`,
    and `Settle` describes that one.
- `console.log` (`customuploadadapter.ts:93`) has no effect on the outcome and is
  not modelled. `logWarning` is the `warnings` sequence of `Registration`.
- A null file is modelled only up to the thrown `TypeError`. `_initListeners`
  throws on `file.name`, so the upload promise rejects with that error. `Upload`
  reports that nothing was sent, but the error value itself is not modelled.
- The counters the progress handler copies are not checked against each other.
  The source does not enforce `uploaded <= uploadTotal` and neither does the
  model.
- The adapter keeps no upload state beyond the optional request handle, and
  the model has none either. Timeouts and retries do not exist in this code.
- Json.Prop: reads only own enumerable properties. Non-enumerable and
  inherited properties (`length`, prototype methods) are not represented,
  because none of the keys the adapter reads is one of them. Reading a property
  of `null` throws in JavaScript. `Prop` requires a non-null value, so no
  contract can read through null.
- Json.OwnFields: a string's characters are Unicode scalar values, while
  JavaScript indexes strings by UTF-16 code unit. So a character outside the
  Basic Multilingual Plane gives one index key in the model and two in
  `{...s}`.
- UploadAdapter.Adapter.SendRequest: sets the headers in an unspecified order.
  The source follows `Object.keys` insertion order
  (`customuploadadapter.ts:122`). The model has no insertion order for the
  header map, so it promises only that each header is set exactly once.
- Json.Truthy: every JSON number, at any depth, is an exact `real`, not an
  IEEE double. A numeral whose magnitude is below about 2.5e-324 rounds to
  ±0 in JavaScript and is falsy there, but it is truthy in the model. So
  `{"error": 1e-400, ...}` rejects in the model and does not in the source.
  Numerals past the double range become `Infinity` in JavaScript. That does not
  change their truthiness.
- `listIndent` is always a number. A non-numeric `listIndent` and JavaScript's
  coercion of it are not modelled.
- Host-framework internals are opaque:
  - `findMappedViewElement` is the `viewElement` parameter of
    `DowncastConverter`.
  - `createListElement` and `setAttributeOnDowncast` are the
    `ListViewElement` record of indent, list type and property value.
  - The internals of `ListWalker`, the schema and view consumables are not
    modelled. What `consumable.consume` takes is up to the host. It takes
    nothing when `consumable.test` answered `null`, because the view item
    has no such consumable. The converter still sets the attribute and still
    makes the call.
- The upcast's item array holds only the range's shallow items, as
  `getItems({shallow: true})` yields them. Descendants of those elements are
  not part of it. Flat sibling items that came from nested lists are in the
  array. They are skipped by the `hasAttribute` check (`converters.js:48-50`)
  because the nested list's own conversion already set the attribute.
- `packages/ckeditor5-build-classic/src/ckeditor.ts` and `build/ckeditor.d.ts` are
  plugin lists, toolbar layouts and type declarations. `headingui.ts` is UI
  wiring, and `tests/manual/all-types.js` is manual bootstrapping. None of them
  is part of this model.
