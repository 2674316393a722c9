# autoserver core, modelled in Dafny

This project models the self-contained decision logic of autoserver, a
Node.js server that exposes a database through GraphQL and HTTP. Each core
source file is one Dafny module:

- expanding actions into commands: `replace` to read then update; `delete`
  choosing the delete command; firing a read command;
- compiling a GraphQL selection set into the `select` argument string;
- the validators and decision rules: pagination input, the database
  adapter chosen for each model, a database's runtime features, the nodes
  of inline functions (JSL), interface negotiation, HTTP method and
  payload handling;
- the rules of the two JSON schemas: the server configuration and a
  command's arguments, written as predicates;
- the normalisers and record builders: IDL command names and type defaults,
  format lookup, standard error objects, GraphQL error bodies, request-info
  records and console request messages.

JavaScript values are the datatype `Values.Value`. Objects are maps from
keys to values, so key order is not modelled. A key whose value is
`undefined` counts as absent wherever JavaScript or Ajv treat it so
(`Values.Present`). Thrown errors are the `Err` side of `Outcomes.Result`,
each carrying the message and reason the source builds. Library calls and
modules outside this model are function parameters: `lodash` helpers are
written out, but `type-is`, `path.extname`, the body parsers, `getReason`,
`extractSimpleIds`, `dataToFilter`, `getCurrentData`, the token `decode`,
the JSL validators and rules, `getWordsList` and the next layers are all
parameters. Constants defined in other modules (`MODEL_TYPES`, `COMMANDS`,
`FEATURES`, the format adapter table) are parameters too.

The two pieces that update a record in place are classes with `modifies`
clauses:

- `DeleteAction.ActionInput`, updated by `DeleteAction.Delete`;
- `InterfaceNegotiator.Info`, updated by `InterfaceNegotiator.Negotiate`.

`normalizeIdl` is the class `IdlNormalize.Idl` with the method
`IdlNormalize.NormalizeIdl`. The two loops in the source are methods proved
against the functions that specify them:

- `PaginationInput.GetInputData`;
- `HttpParams.GetPayload`.

The payload pipeline takes its string handler as a parameter.
`HttpParams.TextHandlerAsWritten` is the code as written, and
`HttpParams.TextHandler` is the corrected handler (see "## Findings").

Shared modules:

- `Values` holds JavaScript values and the object helpers (`omit`,
  `omitBy`, `Object.assign`).
- `Outcomes` holds `Option`, `Result` and the error kinds.
- `Text` holds string joining and prefix/suffix lemmas, plus the line
  terminators and white space of JavaScript regular expressions.

## Model

| member | source | states |
|---|---|---|
| ReplaceAction.ReadCommand | src/middleware/action/execute/actions/replace.js:6-11 | the read step's command is `read` and its only argument is `filter`, computed from the action's arguments |
| ReplaceAction.UpdateCommand | src/middleware/action/execute/actions/replace.js:13-23 | the update step's command is `update`; its only arguments are `newData` (the action's `data`) and `currentData` (`getCurrentData` over that data and the read response's `data`) |
| ReplaceAction.ReplaceCommands | src/middleware/action/execute/actions/replace.js:31-34 | `replace` is one step per entry of its table, and no step carries a `data` argument |
| ReplaceAction.ReplaceIsReadThenUpdate | src/middleware/action/execute/actions/replace.js:31-34 | exactly two steps, read first, then an update fed by the read response |
| ReplaceAction.UpdateDependsOnReadData | src/middleware/action/execute/actions/replace.js:13-14 | the read step ignores the read response; the update step changes if and only if `getCurrentData` gives a different `currentData` |
| GraphqlSelect.ParseSelects | src/operations/handlers/graphql/handler/definition/select.js:9-22 | succeeds exactly when the walk of the selection set succeeds; the result is its entries joined with `,`, and an error passes through unchanged |
| GraphqlSelect.ParseSelectionSet | src/operations/handlers/graphql/handler/definition/select.js:24-36 | definition: no selection set gives no entry, otherwise the entries of its selections; its properties are the rows `NeverMissingKnown`, `EntriesUnderPath` and `VariablesOnlyAtTopLevel` |
| GraphqlSelect.ParseSelections | src/operations/handlers/graphql/handler/definition/select.js:32-35 | definition of the filter, map and concatenation over the selections, the first error stopping the walk; its properties are the rows `SelectionsConcat`, `RejectedContributesNothing`, `NeverMissingKnownSeq` and `EntriesUnderPathSeq` |
| GraphqlSelect.ParseSelection | src/operations/handlers/graphql/handler/definition/select.js:38-57 | definition: dispatch on the selection's kind, nested calls receiving no variables; its properties are the rows `NeverMissingKnownSel` and `EntriesUnderPathSel` |
| GraphqlSelect.ParseField | src/operations/handlers/graphql/handler/definition/select.js:59-75 | definition: the field's own entry, then its children's under the path extended by its name; its property is the row `FieldEntries` |
| GraphqlSelect.GetSelect | src/operations/handlers/graphql/handler/definition/select.js:77-82 | definition of one entry; its property is the row `GetSelectShape` |
| GraphqlSelect.ParseFragmentSpread | src/operations/handlers/graphql/handler/definition/select.js:84-95 | definition: the named fragment's entries at the same path, or `SYNTAX_VALIDATION` when no fragment has the name; its properties are the rows `SpreadKeepsPath` and `NoSyntaxErrorInBodyOfKnown` |
| GraphqlSelect.ParseInlineFragment | src/operations/handlers/graphql/handler/definition/select.js:97-99 | definition: the inline fragment's entries at the same path; covered by the rows `NeverMissingKnownSel` and `EntriesUnderPathSel` |
| GraphqlSelect.FindFragment | src/operations/handlers/graphql/handler/definition/select.js:85 | the index of the first fragment with the name, or none when no fragment has it |
| GraphqlSelect.GetSelectShape | src/operations/handlers/graphql/handler/definition/select.js:77-82 | an entry is the parent path and field name joined with `.`, followed by `=alias` when there is an alias |
| GraphqlSelect.SpreadKeepsPath | src/operations/handlers/graphql/handler/definition/select.js:84-95 | a spread fails with `SYNTAX_VALIDATION` if and only if no fragment has its name; otherwise it is the walk of the first such fragment's body under the same parent path, without variables and with no entry of its own |
| GraphqlSelect.NoSyntaxErrorInBodyOfKnown | src/operations/handlers/graphql/handler/definition/select.js:84-99 | a fragment that exists is never reported missing, in any nested walk |
| GraphqlSelect.NeverMissingKnown | src/operations/handlers/graphql/handler/definition/select.js:24-36 | walking a selection set never reports a fragment that exists as missing |
| GraphqlSelect.NeverMissingKnownSeq | src/operations/handlers/graphql/handler/definition/select.js:32-35 | the same for a list of selections |
| GraphqlSelect.NeverMissingKnownSel | src/operations/handlers/graphql/handler/definition/select.js:38-57 | the same for one selection of any kind |
| GraphqlSelect.SelectionsConcat | src/operations/handlers/graphql/handler/definition/select.js:32-35 | the entries of two selection lists in a row are the entries of the first followed by those of the second, so entry order follows selection order |
| GraphqlSelect.RejectedContributesNothing | src/operations/handlers/graphql/handler/definition/select.js:33 | a selection rejected by `applyDirectives` contributes no entry and cannot fail |
| GraphqlSelect.VariablesOnlyAtTopLevel | src/operations/handlers/graphql/handler/definition/select.js:24-36 | variables matter only through `applyDirectives` on the top-level selections: two variable sets those directives agree on give the same entries |
| GraphqlSelect.EntriesUnderPath | src/operations/handlers/graphql/handler/definition/select.js:24-36 | every entry of a selection set lies under its parent path |
| GraphqlSelect.EntriesUnderPathSeq | src/operations/handlers/graphql/handler/definition/select.js:32-35 | the same for a list of selections |
| GraphqlSelect.EntriesUnderPathSel | src/operations/handlers/graphql/handler/definition/select.js:38-57 | the same for one selection of any kind |
| GraphqlSelect.FieldEntries | src/operations/handlers/graphql/handler/definition/select.js:59-75 | a field's own entry comes first, and every descendant entry lies under the path extended by the field name, never by its alias |
| ReadCommand.IsEmptyCommand | src/middleware/sequencer/main/read/command.js:33-36 | true if and only if the extracted ids are an empty array |
| ReadCommand.ForwardedArgs | src/middleware/sequencer/main/read/command.js:8-18 | the arguments minus `data`, plus `internal`, which defaults to `false`; every other argument is unchanged |
| ReadCommand.ReadRequest | src/middleware/sequencer/main/read/command.js:14-26 | no request when the command is empty; otherwise the input plus `commandPath` joined with `.`, the action's `modelName`, the forwarded arguments and `command.type`, every other field unchanged |
| ReadCommand.FireReadCommand | src/middleware/sequencer/main/read/command.js:7-30 | an empty command gives `[]` without calling the next layer; otherwise the next layer's `response.data`, failing if and only if `response` is missing or `null` |
| DeleteAction.FindDeleteCommand | src/middleware/action/execute/delete.js:14-17 | the index of the first command of type `delete` whose `multiple` equals the action's, or none when there is none |
| DeleteAction.DeleteCommand | src/middleware/action/execute/delete.js:14-17 | definition: the command `FindDeleteCommand` finds, or `undefined`; its properties are the rows `FindDeleteCommand`, `NonBooleanMultipleFindsNothing` and `Delete` |
| DeleteAction.NonBooleanMultipleFindsNothing | src/middleware/action/execute/delete.js:14-17 | when `action.multiple` is not a boolean no command is found |
| DeleteAction.ActionInput.constructor | src/middleware/action/execute/delete.js:10-11 | an input record with the given command, arguments, action and other fields |
| DeleteAction.Delete | src/middleware/action/execute/delete.js:10-25 | the input's command becomes the chosen delete command and `args.pagination` becomes `action.multiple`; the other arguments and fields are unchanged; the next layer receives the updated input and its response is returned as is |
| PaginationInput.ChooseSchema | src/middleware/pagination/validation/input.js:19-26 | the full schema when full pagination is allowed, else the limited one when the output must be paginated, else the restricted one |
| PaginationInput.PageSizeOk | src/middleware/pagination/validation/input.js:88-92 | definition: `page_size`, when set, is an integer between 0 and the maximum page size |
| PaginationInput.PageOk | src/middleware/pagination/validation/input.js:94-97 | definition: `page`, when set, is an integer of at least 1 |
| PaginationInput.TokenOk | src/middleware/pagination/validation/input.js:43-77 | definition: a decoded token is `''`, or an object with `parts`, an `orderBy` array of items equal to the current one, and a `filter` string equal to the current one |
| PaginationInput.Accepts | src/middleware/pagination/validation/input.js:39-135 | definition of what each of the three schemas accepts; its properties are the rows `SchemasNested` and `SchemasReject` |
| PaginationInput.SchemasNested | src/middleware/pagination/validation/input.js:39-135 | whatever the restricted schema accepts the limited one accepts, and whatever the limited one accepts the full one accepts |
| PaginationInput.SchemasReject | src/middleware/pagination/validation/input.js:103-135 | the restricted schema rejects any of `before`, `after`, `page`, `page_size`; the limited one rejects `before`, `after` and `page` |
| PaginationInput.DecodeErrorPersists | src/middleware/pagination/validation/input.js:153-169 | once a token fails, the whole decoding fails with that error |
| PaginationInput.DecodeTokens | src/middleware/pagination/validation/input.js:153-168 | definition of the loop over the token names, in order, the first failure stopping it; its property is the row `DecodeErrorPersists` |
| PaginationInput.InputData | src/middleware/pagination/validation/input.js:138-171 | definition of what `getInputData` computes; its properties are the rows `BothDirectionsRejected`, `PageWithCursorRejected`, `BadTokenRejected` and `InputDataSuccess`, and `GetInputData` computes it |
| PaginationInput.GetInputData | src/middleware/pagination/validation/input.js:138-171 | the loop computes the specification of the input data: the two conflict errors, then each token checked and decoded in turn |
| PaginationInput.BothDirectionsRejected | src/middleware/pagination/validation/input.js:140-145 | `before` together with `after` is rejected with the both-directions error |
| PaginationInput.PageWithCursorRejected | src/middleware/pagination/validation/input.js:146-151 | `page` together with one of `before`/`after` is rejected with the both-pagination-types error |
| PaginationInput.BadTokenRejected | src/middleware/pagination/validation/input.js:153-166 | a set, non-empty token that is not a string, or that does not decode, is rejected with the error naming it |
| PaginationInput.InputDataSuccess | src/middleware/pagination/validation/input.js:139-170 | on success the keys are the arguments' keys, other arguments are unchanged, absent or `''` tokens stay as they are and every other token is replaced by its decoded value |
| PaginationInput.ValidatePaginationInput | src/middleware/pagination/validation/input.js:11-36 | throws exactly when the input data fails, with its error; is valid exactly when the chosen schema accepts the decoded data |
| IdlNormalize.ExpandCommandName | src/idl/normalize.js:107-112 | a name matching `/(One)\|(Many)$/` is kept; any other name X becomes `XOne`, `XMany`; every result matches the pattern |
| IdlNormalize.NormalizeCommandNames | src/idl/normalize.js:106-113 | the output is between one and two times as long as the input, and every name in it matches the pattern |
| IdlNormalize.NormalizeConcat | src/idl/normalize.js:106-113 | normalising a concatenation is concatenating the normalised parts, so input order is kept |
| IdlNormalize.NormalizeFullNames | src/idl/normalize.js:106-113 | names that all match the pattern are left unchanged |
| IdlNormalize.NormalizeIdempotent | src/idl/normalize.js:106-113 | normalising twice is normalising once |
| IdlNormalize.NormalizeMembers | src/idl/normalize.js:106-113 | a name is in the output if and only if it is one of the expansions of an input name |
| IdlNormalize.DefaultsAreNormal | src/idl/normalize.js:116-124 | the default command names exclude `deleteMany` and are already normalised |
| IdlNormalize.GetActions | src/idl/normalize.js:127-133 | exactly the names of the actions whose required commands are all present |
| IdlNormalize.GetActionsConcat | src/idl/normalize.js:127-133 | the action names keep declaration order |
| IdlNormalize.TagAttribute | src/idl/normalize.js:32-39 | a property gets `modelType: 'attribute'`, as does its truthy `items`; its other keys are unchanged |
| IdlNormalize.TagModel | src/idl/normalize.js:31-40 | a model gets `modelType: 'model'` and keeps its property names; its other keys are unchanged |
| IdlNormalize.AddModelType | src/idl/normalize.js:30-41 | every model is tagged `model` and every one of its properties `attribute`, with the same model names |
| IdlNormalize.ArrayTypeDefault | src/idl/normalize.js:48-51 | `type: 'array'` is added if and only if `type` is falsy and `items` truthy |
| IdlNormalize.TopLevelDefaults | src/idl/normalize.js:56-59 | a model, and only a model, gets `type: 'object'` and `model` defaulting to its key |
| IdlNormalize.AttributeTypeDefault | src/idl/normalize.js:64-68 | an attribute without a type, and only one, gets `object` when it has a model and `string` otherwise |
| IdlNormalize.CommandsDefaults | src/idl/normalize.js:80-87 | the commands become the normalised commands, or the normalised defaults when missing; the actions are those allowed by the normalised commands |
| IdlNormalize.ReferredModel | src/idl/normalize.js:93 | a string naming a model refers to that model; anything else refers to nothing |
| IdlNormalize.Dereference | src/idl/normalize.js:92-99 | no change for a model referring to itself; otherwise the referred model's keys that the node does not already set |
| IdlNormalize.DereferenceSelf | src/idl/normalize.js:94-96 | a self-reference would add nothing, which is why it is skipped |
| IdlNormalize.Idl.constructor | src/idl/normalize.js:12 | an IDL with the given commands, models and other fields |
| IdlNormalize.NormalizeIdl | src/idl/normalize.js:12-25 | the commands become the normalised (or default) names, the models are tagged and then transformed, the other fields are unchanged, and the result is the JSL compilation of the new IDL |
| DatabaseMap.Listing | src/run/database/map.js:20 | exactly the adapters whose `models` list the name |
| DatabaseMap.Options | src/run/database/map.js:38 | one `db.<type>.models` option per adapter, in order |
| DatabaseMap.ValidateAdapters | src/run/database/map.js:36-43 | fails if and only if more than one adapter lists the model |
| DatabaseMap.ValidateRestAdapters | src/run/database/map.js:45-57 | passes if and only if exactly one adapter lists `...`; zero gives the no-database error, several the `...` error |
| DatabaseMap.FindAdapter | src/run/database/map.js:14-34 | the chosen adapter is one of the adapters and, unless it is the only one, lists the model or `...`; every failure is `CONF_VALIDATION` |
| DatabaseMap.SingleAdapterServesAll | src/run/database/map.js:15-17 | a lone adapter serves every model, whatever its `models` say |
| DatabaseMap.ListingOfOne | src/run/database/map.js:20 | a model listed by one adapter only has that adapter as its listing |
| DatabaseMap.ListingOfNone | src/run/database/map.js:20 | a model listed by no adapter has an empty listing |
| DatabaseMap.ListingOfTwo | src/run/database/map.js:20 | a model listed by two adapters has at least two in its listing |
| DatabaseMap.UniqueListingChosen | src/run/database/map.js:20-24 | the one adapter listing the model is chosen |
| DatabaseMap.ListedTwiceRejected | src/run/database/map.js:26 | a model listed by two adapters is rejected with the targeted-twice error |
| DatabaseMap.RestAdapterChosen | src/run/database/map.js:29-33 | a model nobody lists goes to the only adapter listing `...`, and fails when there is no such adapter or several |
| DatabaseMap.MapAdapters | src/run/database/map.js:8-11 | succeeds if and only if every model gets an adapter; the map has exactly the model names as keys, each mapped to its adapter's type; a failure is the first model's failure |
| DatabaseMap.GetAdaptersMap | src/run/database/map.js:7-12 | the same, with `findAdapter` choosing each model's adapter |
| RuntimeFeatures.Unsupported | src/databases/features/runtime.js:31 | exactly the features of `FEATURES` the database does not support |
| RuntimeFeatures.FirstColon | src/databases/features/runtime.js:39 | the position of the first `:` at or after a start, or the end |
| RuntimeFeatures.LineEnd | src/databases/features/runtime.js:39 | the position of the first line terminator at or after a start, or the end |
| RuntimeFeatures.ValidatorName | src/databases/features/runtime.js:39 | definition: the feature with its first `:` and the rest of that line removed; its property is the row `ValidatorNameIsPrefix` |
| RuntimeFeatures.ValidatorNameIsPrefix | src/databases/features/runtime.js:39 | for a one-line feature, the validator name is the part before its first `:`, or the whole feature |
| RuntimeFeatures.Messages | src/databases/features/runtime.js:31-43 | fails, with a not-a-function error, if and only if an unsupported feature has no validator |
| RuntimeFeatures.FirstMessage | src/databases/features/runtime.js:31-34 | there is no message if and only if every validator gives none; otherwise the first message is that of the first validator giving one |
| RuntimeFeatures.GetErrorMessage | src/databases/features/runtime.js:28-35 | definition: the first message of the unsupported features' validators, or none; its properties are the rows `FirstMessage` and `ReportsFirstMessage` |
| RuntimeFeatures.ValidateRuntimeFeatures | src/databases/features/runtime.js:11-24 | passes if and only if there is no message; a message is reported as `<message> because the collection '<name>' does not support it`; the error of a missing validator is reported unchanged |
| RuntimeFeatures.AllSupportedPasses | src/databases/features/runtime.js:17-19 | a database supporting every feature passes, whatever the validators |
| RuntimeFeatures.NothingUnsupported | src/databases/features/runtime.js:31 | supporting every feature leaves nothing unsupported |
| RuntimeFeatures.OnlyUnsupportedChecked | src/databases/features/runtime.js:31-32 | validators of supported features play no part |
| RuntimeFeatures.ReportsFirstMessage | src/databases/features/runtime.js:28-35 | the reported message is the first one, in `FEATURES` order, that a validator gives |
| Formats.FindFormat | src/formats/get.js:18 | the index of the first format satisfying the test, or none when no format does |
| Formats.SafeFormats | src/formats/get.js:69 | exactly the formats not marked `unsafe` |
| Formats.SafeFormatsConcat | src/formats/get.js:69 | the filter keeps the order of the formats |
| Formats.GetFormats | src/formats/get.js:62-71 | every format when not safe, exactly the safe ones when safe |
| Formats.MimeMatches | src/formats/get.js:39-41 | an entry of `mimes` matches `mime`, tested both ways round; its properties are the rows `MimeMatchesSome` and `MimeMatchesSymmetric` |
| Formats.MimeMatchesSome | src/formats/get.js:39-41 | the test holds if and only if some entry of `mimes` matches `mime` one way round or the other, as `mimes.some` does; no entry, no match |
| Formats.MimeMatchesSymmetric | src/formats/get.js:39-41 | the MIME test is symmetric in its two types |
| Formats.GetByMime | src/formats/get.js:13-33 | succeeds if and only if some allowed format matches through `mimes` or `mimeExtensions`; the result is the first `mimes` match, else the first `mimeExtensions` match; else the unsupported-format error naming the MIME type |
| Formats.MimesPreferred | src/formats/get.js:18-30 | a format matching through `mimes` beats every format matching only through `mimeExtensions`, whatever their order |
| Formats.UnknownMimeRejected | src/formats/get.js:32 | a MIME type no allowed format matches is unsupported |
| Formats.FileExt | src/formats/get.js:47 | `extname(path).slice(1)`: the extension without its first character (the dot), and `''` when there is no extension |
| Formats.GetByExt | src/formats/get.js:44-57 | the first allowed format listing the extension without its dot; otherwise `Unsupported format: '.<ext>'` |
| Formats.GetFormat | src/formats/get.js:74-84 | the adapter's format, or its error; with `safe` a format marked `unsafe` is rejected, naming its title |
| Formats.AllMimes | src/formats/get.js:93-97 | a MIME type is listed if and only if some format has it in `mimes` or `mimeExtensions` |
| Formats.AllMimesConcat | src/formats/get.js:93-97 | the list is the in-order concatenation, format by format |
| Formats.GetMimes | src/formats/get.js:91-99 | the MIME types of exactly the allowed formats, all of them in order when not safe |
| HttpParams.MethodMap | src/middleware/protocol/params/http/index.js:38-44 | GET, POST, PUT, PATCH, DELETE map to find, create, replace, update, delete, and nothing else maps |
| HttpParams.GetMethod | src/middleware/protocol/params/http/index.js:30-37 | the mapped method with the HTTP method kept, or `UNSUPPORTED_METHOD` naming it |
| HttpParams.GetParams | src/middleware/protocol/params/http/index.js:57-71 | the keys of both sources, query parameters winning over application headers, each value passed through `transtype` |
| HttpParams.TextHandlerAsWritten | src/middleware/protocol/params/http/index.js:119-123 | the string handler as written: a string body becomes `null`, anything else passes through |
| HttpParams.TextHandler | src/middleware/protocol/params/http/index.js:119-123 | the string handler as intended: a non-empty string body is the payload, and nothing else is |
| HttpParams.TextBodyLostAsWritten | src/middleware/protocol/params/http/index.js:83-123 | with the handler as written, a `text/plain` body `hello` leaves every handler falsy and the payload fails with `HTTP_WRONG_CONTENT_TYPE`; with the intended handler it is the payload |
| HttpParams.StringBodyNeverPayloadAsWritten | src/middleware/protocol/params/http/index.js:83-123 | with the handler as written, a string body is skipped: after a falsy JSON and urlencoded result the payload is decided by the binary and GraphQL handlers alone |
| HttpParams.NoHandlerError | src/middleware/protocol/params/http/index.js:92-98 | `HTTP_NO_CONTENT_TYPE` if and only if the content type is missing or empty, else `HTTP_WRONG_CONTENT_TYPE` naming it |
| HttpParams.HasPayload | src/middleware/protocol/params/http/index.js:101-104 | definition: `Content-Length` is a number above 0, or `Transfer-Encoding` is set; its consequences are the rows `PayloadCases` and `JsonFirst` |
| HttpParams.Handler | src/middleware/protocol/params/http/index.js:107-137 | definition of the five handlers in order (JSON, urlencoded, the string handler given as a parameter, binary as text, GraphQL as `{ query }`); used by `FirstBody` |
| HttpParams.FirstBody | src/middleware/protocol/params/http/index.js:86-89 | the first handler giving a truthy body, or none when no handler does, for any string handler |
| HttpParams.Payload | src/middleware/protocol/params/http/index.js:83-99 | definition of what `getPayload` returns, for a given string handler (the code as written is the instance `TextHandlerAsWritten`); its properties are the rows `PayloadCases`, `JsonFirst`, `TextBodyKept` and `TextBodyLostAsWritten` |
| HttpParams.GetPayload | src/middleware/protocol/params/http/index.js:83-99 | the loop computes `Payload` for the string handler it is given, the code as written being the instance `TextHandlerAsWritten` |
| HttpParams.PayloadCases | src/middleware/protocol/params/http/index.js:83-104 | for any string handler, no payload gives `undefined`; otherwise the result is a truthy body, or, when every handler fails, one of the two content-type errors |
| HttpParams.JsonFirst | src/middleware/protocol/params/http/index.js:109-112 | a JSON body wins over every other handler, whatever the string handler |
| HttpParams.TextBodyKept | src/middleware/protocol/params/http/index.js:119-123 | with the intended handler, a string body is the payload when the JSON and urlencoded parsers give nothing |
| HttpParams.HttpFillParams | src/middleware/protocol/params/http/index.js:16-24 | a method error wins, then a payload error; on success the method, the parameters and the payload are those of the three steps, the payload being `Payload` for the given string handler |
| InterfaceNegotiator.FindInterface | src/middleware/interface_negotiator/index.js:13 | a route names an interface if and only if it is one of `graphql`, `graphiql`, `graphqlprint`, and then it is that interface |
| InterfaceNegotiator.Info.constructor | src/middleware/interface_negotiator/index.js:12 | request info with no interface set yet |
| InterfaceNegotiator.Negotiate | src/middleware/interface_negotiator/index.js:10-22 | an unknown route fails with `UNSUPPORTED_INTERFACE`, the message ending with the route's text, and changes nothing; otherwise `info.interface` is set before the next layer runs and its response is returned unchanged, and reading the interface back gives the route |
| InterfaceNegotiator.InterfaceNegotiation | src/middleware/interface_negotiator/index.js:23 | definition: the stored interface read back; `Negotiate`'s contract ties it to the route |
| InterfaceNegotiator.KnownRoutes | src/middleware/interface_negotiator/index.js:25-33 | each of the three routes selects its own interface |
| InterfaceNegotiator.RouteText | src/middleware/interface_negotiator/index.js:15 | the route in the error message: a string route as it is, any other value through JavaScript's string conversion |
| JslValidate.ThrowError | src/jsl/validate/validate.js:41-48 | a JSL error of the given type whose message embeds the JSL text and the message in the three-line template |
| JslValidate.JslMessage | src/jsl/validate/validate.js:43-45 | definition of the three-line message template; its properties are the rows `ThrowError` and `JslMessageInjective` |
| JslValidate.JslMessageInjective | src/jsl/validate/validate.js:43-45 | two messages give the same error text only if they are equal |
| JslValidate.ValidateNode | src/jsl/validate/validate.js:26-39 | a missing or falsy rule rejects the node with "Cannot use the following node"; `true` accepts; a rule function rejects with the string it returns and accepts otherwise; any other truthy rule throws, not being a function |
| JslValidate.EmptyMessageRejects | src/jsl/validate/validate.js:35-38 | a rule returning the empty string still rejects the node |
| JslValidate.ValidateNodes | src/jsl/validate/validate.js:14-24 | the nodes pass if and only if each passes; otherwise the error is that of the first failing node |
| StandardError.NameOf | src/error/standard.js:54 | a falsy value is kept; a truthy one gives its `name` |
| StandardError.StatusOrDefault | src/error/standard.js:13 | `status` defaults to `SERVER_ERROR` when absent |
| StandardError.Details | src/error/standard.js:35-36 | the inner error's `stack` when set, else the outer `stack`; a `null` inner error throws |
| StandardError.LastFields | src/error/standard.js:61-64 | exactly `request_id` from `requestId` and `details` |
| StandardError.GetStandardError | src/error/standard.js:9-71 | throws if and only if the log info or the inner error is `null`; the result has no `undefined` value and is the base fields overridden by `extra`, overridden by `request_id` and `details` |
| StandardError.StandardErrorLast | src/error/standard.js:61-64 | `request_id` and `details` always win over `extra` |
| StandardError.StandardErrorExtra | src/error/standard.js:60 | every other key of `extra` wins over the base fields |
| StandardError.StandardErrorBase | src/error/standard.js:41-59 | a key `extra` does not set keeps its base value |
| StandardError.StandardErrorDefaults | src/error/standard.js:13-58 | unless `extra` overrides them, `status` defaults to `SERVER_ERROR`, `action` and `command` are the names of their objects and `description` is the error message |
| GraphqlResponse.ExtraContent | src/rpc/handlers/graphql/response.js:20-24 | exactly the error keys that are not destructured and are not `status`, with their values |
| GraphqlResponse.GetError | src/rpc/handlers/graphql/response.js:14-30 | no `undefined` value, and `stack` always comes from `details` |
| GraphqlResponse.GetErrorSpecFields | src/rpc/handlers/graphql/response.js:17-25 | `status` comes from `protocolstatus`; `title` and `type` are kept |
| GraphqlResponse.GetErrorMessage | src/rpc/handlers/graphql/response.js:17-25 | `message` comes from `description`, unless the error has its own `message`, which wins |
| GraphqlResponse.GetErrorExtra | src/rpc/handlers/graphql/response.js:24-25 | every extra key other than `status` and `stack` keeps its value |
| GraphqlResponse.GetErrorKeys | src/rpc/handlers/graphql/response.js:24-27 | every key is one of the five GraphQL fields or an extra key of the error |
| GraphqlResponse.TransformError | src/rpc/handlers/graphql/response.js:6-11 | throws if and only if the content has no error; otherwise exactly `data: null` and an `errors` list of one element, the GraphQL form of the error |
| RequestInfo.ResponseData | src/events/request_info/builder.js:38-40 | the content's `data` for a model type, failing on missing content; the whole content otherwise |
| RequestInfo.ErrorReason | src/events/request_info/builder.js:41 | a falsy error is kept; a truthy one is replaced by its reason |
| RequestInfo.BuildRequestinfo | src/events/request_info/builder.js:7-72 | throws if and only if `response` is `null`, or the response type is a model type without content; otherwise every field is copied, with `status` defaulting to `SERVER_ERROR`, `topArgs` renamed `args`, `modelName` renamed `model`, `response.type` as `responsetype`, the response data and the error's reason |
| RequestInfo.NoResponseStillRecorded | src/events/request_info/builder.js:30-40 | a request without a response is still recorded, with no response data |
| RequestMessage.Shown | src/log/adapters/console/request_message.js:35 | each part converted to text, in order |
| RequestMessage.Kept | src/log/adapters/console/request_message.js:34 | exactly the truthy parts |
| RequestMessage.KeptConcat | src/log/adapters/console/request_message.js:34 | the filter keeps the order of the parts |
| RequestMessage.SuffixText | src/log/adapters/console/request_message.js:48-58 | `summary` on success; otherwise `commandpath` without a description, and `commandpath - description` with one |
| RequestMessage.RpcTitle | src/log/adapters/console/request_message.js:39-46 | nothing when `rpc` is undefined, otherwise its title |
| RequestMessage.Default | src/log/adapters/console/request_message.js:11-13 | definition: an `undefined` value takes the default, any other value is kept |
| RequestMessage.Parts | src/log/adapters/console/request_message.js:11-33 | definition of the seven parts: status (default `SUCCESS`), `-`, protocol title, method, RPC title, path, suffix; its properties are the rows `MessageStartsWithStatus` and `MessageEndsWithSuffix` |
| RequestMessage.Message | src/log/adapters/console/request_message.js:34-35 | definition: the truthy parts converted to text and joined by spaces; its properties are the rows `Kept`, `Shown`, `StartsWithFirst` and `EndsWithLast` |
| RequestMessage.GetRequestMessage | src/log/adapters/console/request_message.js:6-37 | throws if and only if `error` is `null`; otherwise the truthy parts `[status, '-', protocol title, method, rpc title, path, suffix]` joined with spaces |
| RequestMessage.StartsWithFirst | src/log/adapters/console/request_message.js:25-35 | a message whose first part is a non-empty string followed by `-` starts with `<first> -` |
| RequestMessage.EndsWithLast | src/log/adapters/console/request_message.js:25-35 | a message whose last part is truthy and not alone ends with a space and that part |
| RequestMessage.MessageStartsWithStatus | src/log/adapters/console/request_message.js:13-35 | the message starts with `<status> -`, and with `SUCCESS -` when the error has no status |
| RequestMessage.MessageEndsWithSuffix | src/log/adapters/console/request_message.js:25-35 | a truthy suffix ends the message |
| RequestMessage.FailureEndsWithDescription | src/log/adapters/console/request_message.js:53-57 | a failure with a description ends with `<commandpath> - <description>` |
| ConfigSchema.ValidName | src/config/reducers/syntax/config_schema.js:502-505 | definition: a lower-case letter followed by lower-case letters, digits and `_`; its properties are the rows `NamesDisjoint` and `NameLimits` |
| ConfigSchema.ValidUserName | src/config/reducers/syntax/config_schema.js:506-509 | definition: `$` followed by a valid name; its property is the row `UserNameOf` |
| ConfigSchema.ValidUserOpName | src/config/reducers/syntax/config_schema.js:510-513 | definition: `__` followed by a valid name; its property is the row `UserOpNameOf` |
| ConfigSchema.ValidClientCollname | src/config/reducers/syntax/config_schema.js:527-536 | definition: a valid name of at most 100 characters; its property is the row `NameLimits` |
| ConfigSchema.ValidAttributeName | src/config/reducers/syntax/config_schema.js:537-551 | definition: a collection name other than `all`; its property is the row `NameLimits` |
| ConfigSchema.ValidClientCollnames | src/config/reducers/syntax/config_schema.js:514-526 | definition: one collection name, or an array of them |
| ConfigSchema.ConfigFunc | src/config/reducers/syntax/config_schema.js:491-501 | definition: a function, or a string written as a parenthesised single line |
| ConfigSchema.ConfigFuncString | src/config/reducers/syntax/config_schema.js:468-480 | definition: a function, or a string not written as one; its property is the row `ConfigFuncStringShape` |
| ConfigSchema.ConfigFuncBoolean | src/config/reducers/syntax/config_schema.js:481-490 | definition: a configuration function or a boolean |
| ConfigSchema.AuthorizeOk | src/config/reducers/syntax/config_schema.js:193-205 | definition: an object, or an array of objects |
| ConfigSchema.MessageOk | src/config/reducers/syntax/config_schema.js:244-266 | definition: a function, or a string reading as a `must` sentence, possibly quoted in parentheses; its properties are the rows `MustSentenceAccepted`, `QuotedSentenceAccepted` and `MustMessageShape` |
| ConfigSchema.JsonSchemaType | src/config/reducers/syntax/config_schema.js:556-577 | definition: a JSON Schema type name, or an array of them |
| ConfigSchema.ValidationOk | src/config/reducers/syntax/config_schema.js:236-276 | definition: an object whose keys are user names and whose entries hold only `test` (a string-valued configuration function), `message` (as `MessageOk`) and `type` (a JSON Schema type) |
| ConfigSchema.OperatorAttributeOk | src/config/reducers/syntax/config_schema.js:289-311 | definition: distinct types, all simple or all multiple, and exactly one of the two; its property is the row `OperatorAttributeCases` |
| ConfigSchema.OperatorArgumentOk | src/config/reducers/syntax/config_schema.js:312-334 | definition: distinct argument types |
| ConfigSchema.PatchOperatorsOk | src/config/reducers/syntax/config_schema.js:277-341 | definition: an object whose keys are user operator names and whose entries require `apply` and hold only `apply`, `check`, `attribute` and `argument`, the last two as above |
| ConfigSchema.LogOk | src/config/reducers/syntax/config_schema.js:342-370 | definition: one log adapter, or an array of them, each an object holding only a string `provider`, an object `opts` and a `level` among `silent`, `info`, `log`, `warn`, `error` |
| ConfigSchema.PluginsOk | src/config/reducers/syntax/config_schema.js:215-235 | definition: an array of objects, each holding only a `plugin` that is a string or a function, an `enabled` boolean and an `opts` object keyed by valid names |
| ConfigSchema.ParamsOk | src/config/reducers/syntax/config_schema.js:209-214 | definition: an object whose keys are user names |
| ConfigSchema.LimitsOk | src/config/reducers/syntax/config_schema.js:371-393 | definition: `pagesize` a non-negative integer, `maxmodels` an integer, `maxpayload` a string or an integer, and no other key; its property is the row `LimitsRules` |
| ConfigSchema.IdAttributeOk | src/config/reducers/syntax/config_schema.js:111-138 | definition: the constraints on the `id` attribute; its properties are the rows `IdAttributeRules` and `IdAttributeAllowsAnyKey` |
| ConfigSchema.AliasOk | src/config/reducers/syntax/config_schema.js:146-160 | definition: an attribute name, or an array of them |
| ConfigSchema.AttributeOk | src/config/reducers/syntax/config_schema.js:139-192 | definition: an object with only the allowed keys, each of its shape |
| ConfigSchema.AttributesOk | src/config/reducers/syntax/config_schema.js:94-108 | definition: at most 50 attributes named by attribute names, `id` checked as the id attribute and the others as attributes; its property is the row `TooManyAttributes` |
| ConfigSchema.CollectionOk | src/config/reducers/syntax/config_schema.js:74-110 | definition: an object with only the allowed keys and with `attributes`; its property is the row `CollectionNeedsAttributes` |
| ConfigSchema.CollectionsOk | src/config/reducers/syntax/config_schema.js:21-28 | definition: an object whose keys are collection names and whose values are collections |
| ConfigSchema.TopLevelOk | src/config/reducers/syntax/config_schema.js:2-72 | definition: the types of the top-level keys other than `collections` and `limits` |
| ConfigSchema.ConfigOk | src/config/reducers/syntax/config_schema.js:2-72 | definition of the whole configuration schema, unknown top-level keys allowed only when they start with `$`; its properties are the rows `ConfigRequired`, `UnknownKeyRejected` and `UserKeyFree` |
| ConfigSchema.UserNameOf | src/config/reducers/syntax/config_schema.js:502-509 | a user name is `$` followed by a valid name |
| ConfigSchema.UserOpNameOf | src/config/reducers/syntax/config_schema.js:502-513 | a user operator name is `__` followed by a valid name |
| ConfigSchema.NamesDisjoint | src/config/reducers/syntax/config_schema.js:502-513 | no string is two of a valid name, a user name and a user operator name |
| ConfigSchema.NameLimits | src/config/reducers/syntax/config_schema.js:527-551 | names longer than 100 characters are rejected, `all` is a collection name but not an attribute name, and every attribute name is a collection name |
| ConfigSchema.ConfigFuncStringShape | src/config/reducers/syntax/config_schema.js:468-480 | a string-valued config function is a function or a string |
| ConfigSchema.MustSentenceAccepted | src/config/reducers/syntax/config_schema.js:244-266 | a message starting with `must` and a white-space character is accepted |
| ConfigSchema.QuotedSentenceAccepted | src/config/reducers/syntax/config_schema.js:244-266 | a parenthesised, quoted one-line `must` sentence is accepted |
| ConfigSchema.MustMessageShape | src/config/reducers/syntax/config_schema.js:244-266 | a string message that is accepted starts with `must`, or is parenthesised |
| ConfigSchema.OperatorAttributeCases | src/config/reducers/syntax/config_schema.js:289-311 | an operator's `attribute` list is one simple type or one or more multiple types: an empty list and a mixed list are rejected, a single type of either kind is accepted |
| ConfigSchema.LimitsRules | src/config/reducers/syntax/config_schema.js:371-393 | any `limits` key outside `pagesize`, `maxmodels`, `maxpayload` is rejected, and `pagesize` is an integer of at least 0 |
| ConfigSchema.IdAttributeRules | src/config/reducers/syntax/config_schema.js:111-138 | the `id` attribute is an object with no `value` or `readonly`, a `string` type if any, and `validate.required` not `false` |
| ConfigSchema.IdAttributeAllowsAnyKey | src/config/reducers/syntax/config_schema.js:111-138 | any key other than the four constrained ones may be added to the `id` attribute |
| ConfigSchema.TooManyAttributes | src/config/reducers/syntax/config_schema.js:94-108 | more than 50 attributes are rejected |
| ConfigSchema.CollectionNeedsAttributes | src/config/reducers/syntax/config_schema.js:74-110 | a collection without `attributes` is rejected |
| ConfigSchema.ConfigRequired | src/config/reducers/syntax/config_schema.js:2-20 | an accepted configuration sets `engine`, an integer of at least 0, and `collections`, and its `env` is `dev` or `production` |
| ConfigSchema.UnknownKeyRejected | src/config/reducers/syntax/config_schema.js:69-72 | an unknown top-level key not starting with `$` is rejected |
| ConfigSchema.UserKeyFree | src/config/reducers/syntax/config_schema.js:69-72 | a key starting with `$` may hold anything |
| ArgsSchema.DynamicVarsOk | src/middleware/action/validate_args/args_schema.js:5-24 | definition: an object, `requiredArgs` and `validArgs` string arrays and `pagesize` an integer when set |
| ArgsSchema.DynamicVar | src/middleware/action/validate_args/args_schema.js:28 | definition: what a `$data` reference `/dynamicVars/<key>` reads, `undefined` when there is nothing |
| ArgsSchema.RequiredOk | src/middleware/action/validate_args/args_schema.js:27-29 | definition: when `requiredArgs` is an array, each of its names is set; its property is the row `RequiredArguments` |
| ArgsSchema.NamesOk | src/middleware/action/validate_args/args_schema.js:30-34 | definition: when `validArgs` is an array, each argument name is in it; its properties are the rows `ArgumentKeys` and `InvalidArgumentRejected` |
| ArgsSchema.FilterOk | src/middleware/action/validate_args/args_schema.js:50-61 | definition: an object, or an array of objects |
| ArgsSchema.PageSizeOk | src/middleware/action/validate_args/args_schema.js:72-78 | definition: an integer of at least 1, and at most `dynamicVars.pagesize` when that is a number; its property is the row `PageSizeBounded` |
| ArgsSchema.ArgumentsOk | src/middleware/action/validate_args/args_schema.js:25-95 | definition of `arguments`; its properties are the rows `ArgumentKeys`, `ArgumentTypes` and `ArgumentsDataFree` |
| ArgsSchema.MultipleIf | src/middleware/action/validate_args/args_schema.js:97-109 | definition: the `if` holds unless `dynamicVars` is an object whose `multiple` is set to something other than `true` |
| ArgsSchema.RootDataOk | src/middleware/action/validate_args/args_schema.js:110-129 | definition: the root `data` checked by the `then` or the `else`; its property is the row `RootDataRule` |
| ArgsSchema.ArgsSchemaOk | src/middleware/action/validate_args/args_schema.js:1-131 | definition of the whole arguments schema; the rows below are its properties |
| ArgsSchema.ArgumentKeys | src/middleware/action/validate_args/args_schema.js:30-94 | every argument is one the schema declares and, when `validArgs` is given, one of those |
| ArgsSchema.InvalidArgumentRejected | src/middleware/action/validate_args/args_schema.js:30-34 | an argument outside `validArgs` is rejected, even one the schema declares |
| ArgsSchema.RequiredArguments | src/middleware/action/validate_args/args_schema.js:27-29 | every name in `requiredArgs` is set |
| ArgsSchema.ArgumentTypes | src/middleware/action/validate_args/args_schema.js:36-94 | the string and boolean arguments have those types, `filter` is an object or an array of objects, `page` and `pagesize` are integers of at least 1 |
| ArgsSchema.PageSizeBounded | src/middleware/action/validate_args/args_schema.js:72-78 | `pagesize` lies between 1 and `dynamicVars.pagesize` |
| ArgsSchema.RootDataRule | src/middleware/action/validate_args/args_schema.js:97-129 | the root `data` is an array of objects when `multiple` is `true` or not set, and an object when it is set to anything else |
| ArgsSchema.ArgumentsDataFree | src/middleware/action/validate_args/args_schema.js:36-94 | `arguments.data` is not constrained: replacing it keeps the arguments accepted |

## Left out

- I/O, timing and concurrency: reading headers (case-insensitively), parsing bodies and query strings, `transtype`, `log.perf`, and the `async`/`await` sequencing. Their results are inputs of the model.
- Key order of objects: a map has none, so the order the source builds keys in ("order matters" in `getStandardError`) is not modelled.
- Object identity: the self-reference test of the IDL `model` transform compares values, not object identity.
- JavaScript coercions outside the shown code: `String(x)` of a non-string message part and `Number(x)` of `Content-Length` are parameters (`toText`, `toNumber`), and `NaN` is `None`.
- GraphqlResponse.GetError: an error that is a primitive (its characters spread as keys) and an `extra` that is not an object are not modelled; errors are records.
- StandardError.GetStandardError: the model takes `log.logInfo` directly, so a `log` that is itself `undefined` or `null` (where destructuring throws) is not modelled; nor is an `extra` that is a string or an array, whose characters or items `Object.assign` would copy under index keys: a non-object `extra` adds no key.
- The `throwError` of `getThrowError({ action, modelName })` (used by `validatePaginationInput` and `getInputData`): it is defined elsewhere, so the `INPUT_VALIDATION` errors carry the message the pagination code builds, without whatever that wrapper adds around it.
- GraphqlSelect.ParseSelects: fragment spreads recurse into fragment bodies that are not smaller, so a depth budget stands for the call stack, and running out of it is an error. A cyclic fragment overflows the stack in the source.
- GraphqlSelect.ParseSelection: a selection's `kind` is always one of the three parsers' kinds, and a field's name is always present.
- `getProtocol`, `getRpc`, `getReason`, `getGenericProps` and `normalizeError`: they are defined elsewhere and are parameters or inputs (the standard error takes the normalised error, its reason and its title).
- The JSL tree walk (`findNodeAt` over `acorn`'s tree), `parseNode`, `getGlobalKeys` and `printNode`: the walk's visiting order is given as a list of nodes, and the printer is a parameter.
- `compileIdlJsl` and the `transform` driver of `normalizeModels`: they are parameters of `NormalizeIdl`; each transform it applies is modelled on its own.
- `getWordsList`: a parameter that renders the option list of a database error.
- The JSON Schema meta-schema (`config_schema.js` lines 578-770) and the `type`/`validate` sub-schemas of an attribute: the model checks the other keys of an attribute only.
- The `$data` references of the attribute type schema (`/collTypes`) and of the meta-schema (`/customValidationNames`) belong to the parts left out above.
- `minLength` on arrays and other keywords of the wrong type for their value are vacuous in JSON Schema, and are vacuous in the model too.
- The remaining files of the repository (the pipeline glue, logging buffer, request ids, persistence, rendering, process hooks) are not part of this model.

## Findings

| source | as written | input that shows it | evidently intended | confidence | as-written member | corrected member |
|---|---|---|---|---|---|---|
| src/middleware/protocol/params/http/index.js:119-123 | the string handler returns `null` for a string body and passes anything else through | a `text/plain` body `hello` with `Content-Length: 5`, which only the string parser reads: every handler is falsy and the request fails with `HTTP_WRONG_CONTENT_TYPE` | a string body is the payload (`typeof textBody === 'string' ? textBody : null`), as the binary handler beside it does | not executed | HttpParams.TextBodyLostAsWritten | HttpParams.TextHandler |

The regular expression `/(One)|(Many)$/` of `normalizeCommandNames` reads as
"contains `One`, or ends with `Many`". The model keeps that reading:
`findOneBy` counts as a full name.
