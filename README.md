# goagen_proto in Dafny

goagen_proto is a goa (v1) generator that turns an API design into a
proto3 file. This project models its core. The model covers the translation
layer of `params.go`. That layer turns the design graph into services,
RPCs, responses and fields, and then into the text lines of the proto file.
The model also covers the decision logic of `generator.go`: defaulting and
errors in `Generator.Generate`, which template blocks are written and in
what order, and the generated-file list.

Modules, one per file, in dependency order:

- `Wrappers` (`wrappers.dfy`): `Option` and `Result`.
- `StringOps` (`strings.dfy`): the parts of Go's string library the core
  uses. These are string order `<`, `strings.Index`, `strings.Contains`,
  `strings.Replace(…, 1)` and `%d` formatting.
- `Sorting` (`sorting.dfy`): `sort.Sort` and `sort.Strings`, as one
  in-place sort of an array by a string key.
- `Design` (`design.dfy`): the goa design graph as plain values. It has
  kinds, attributes, objects, actions, resources, views, media types and
  the API. It also has the two goa name transforms as the parameter
  `Naming`.
- `Fields` (`fields.dfy`): `Param`, `convertTypeString`, `repeatable`,
  `enumValues` and `newParam`.
- `MediaTypes` (`media_types.dfy`): `Response`, `toIdentifierName` and
  `parseMediaTypes`.
- `Actions` (`actions.dfy`): `RPCDefinition`, `parseAction`, `getResponse`
  and the name order of `AlphabeticalName`.
- `Services` (`services.dfy`): `ServiceDefinition`, `getResources`,
  `getActions` and `parseResources`.
- `Render` (`render.dfy`): `ServiceName`, `GetRPCs`, `RequestName`,
  `ResponseName`, `RequestDefinition`, `ResponseDefinition`,
  `MessageField` and `EnumField`.
- `ProtoGenerator` (`generator.dfy`): the `Generator` class with its
  fields `Scheme`, `Host` and `genfiles`, and a `Writer` class. The
  `Writer` records each template execution as a (template name, data)
  block.

Go ranges over maps in an order it leaves unspecified. The model takes
that order as a given sequence. This covers the attributes of an object,
the responses of an action and the resources of the API. The resource
names are collected with an arbitrary choice (`:|`), and are then sorted.
`codegen.Goify` and `design.CanonicalIdentifier` are the two arrows of a
`Naming` value, and nothing is assumed about them.

Two properties of the request fields follow the code closely:

- `sort.Sort` (params.go:101) is not stable. The model promises only that
  the request fields are sorted by name and are a permutation of the raw
  fields. It proves the result unique when the names are distinct.
- The path, query and payload fields are concatenated with no
  deduplication (params.go:79-98). The model does the same.

## Model

| member | source | states |
|---|---|---|
| StringOps.Index | params.go:338-339 | `strings.Index`: -1 exactly when the pattern occurs nowhere; otherwise the first index at which it occurs |
| StringOps.Contains | params.go:342 | `strings.Contains` holds exactly when the pattern occurs at some index |
| StringOps.LessTotal | params.go:306 | Go's string order is total on distinct strings |
| StringOps.LessTransitive | params.go:306 | Go's string order is transitive |
| StringOps.LessAsymmetric | params.go:306 | Go's string order is asymmetric |
| StringOps.ReplaceAbsent | params.go:338-339 | `strings.Replace(…, 1)` with a pattern that occurs nowhere leaves the string unchanged |
| StringOps.ReplaceFirstOccurrence | params.go:338-339 | `strings.Replace(…, 1)` replaces the first occurrence of the pattern and keeps the text before and after it |
| StringOps.DecimalString | params.go:278 | `%d` of a natural number is a non-empty string of decimal digits |
| StringOps.DecimalRoundTrip | params.go:278 | reading back a number written with `%d` gives the number |
| Sorting.Swap | params.go:305 | `Swap` exchanges two slots, keeps the others and keeps the multiset |
| Sorting.SortBy | params.go:101-102 | sorting in place by a string key gives a non-decreasing sequence that is a permutation of the input |
| Sorting.SortedPermutationUnique | params.go:302-306 | two sorted permutations of one sequence with distinct keys are equal, so with distinct names the sort has one outcome |
| Sorting.DistinctKeysPermutation | params.go:101-102 | a permutation keeps keys distinct |
| Fields.KindLabel | params.go:234-260 | the kind table gives one of its nine labels, and "any" for user types, media types and every kind it does not list |
| Fields.Repeatable | params.go:218-224 | exactly the Any and Array kinds are repeatable; every kind the table labels "array" is repeatable, and a repeatable kind's table label is "any" or "array"; a type override changes `Kind` but not `Repeat` |
| Fields.ConvertTypeString | params.go:226-261 | a `struct:field:grpctype` override gives its first value whatever the kind; otherwise the kind table decides |
| Fields.EnumValues | params.go:325-331 | a string list is kept as is; any other value gives an empty enum |
| Fields.NewParam | params.go:308-323 | `Name` is `Goify(a,false)`, `CamelCaseName` is `Goify(a,true)`, `Kind` comes from the type conversion, `Repeat` holds exactly for Any and Array, the description is copied, and `Enum` holds the string values only when validation and values are present |
| Fields.MediaTypeParam | params.go:116-124 | a view field is the `newParam` field without enum and never repeated |
| MediaTypes.ToIdentifierName | params.go:336-343 | the stream flag holds exactly when the canonical identifier contains "type=collection" |
| MediaTypes.CollectionIdentifierName | params.go:333-343 | `application/vnd.<base>; type=collection`, with no ';' in base, gives `(Goify(base,true), true)` |
| MediaTypes.SingleIdentifierName | params.go:333-343 | `application/vnd.<base>`, with neither ';' nor '=' in base, gives `(Goify(base,true), false)` |
| MediaTypes.UnaffixedIdentifierName | params.go:338-340 | an identifier with neither affix is goified unchanged, because a missing pattern leaves the string as is |
| MediaTypes.StripLeadingPrefix | params.go:339 | removing the first vendor prefix from `application/vnd.<rest>` leaves `rest` |
| MediaTypes.StripTrailingSuffix | params.go:338 | removing the first collection suffix removes the trailing one when the base has no ';' |
| MediaTypes.FoldStopsAtError | params.go:110-141 | once a media type reports an error, later media types are not visited |
| MediaTypes.ParseMediaTypes | params.go:108-143 | the loop builds exactly the map and error of the media-type pass |
| MediaTypes.RecordViews | params.go:114-134 | visiting the views overwrites the identifier's entry view by view |
| MediaTypes.BuildViewParams | params.go:116-125 | one field per view attribute, in iteration order |
| MediaTypes.FoldError | params.go:108-143 | the pass fails exactly when some non-error media type fails, and then with the first such error |
| MediaTypes.FoldKeys | params.go:111-113 | without an error, an identifier has a response exactly when some non-error media type with a view carries it |
| MediaTypes.FoldResponsesWellFormed | params.go:115-135 | each response is filed under its own identifier, is named by `toIdentifierName`, and has fields without enum that are never repeated |
| MediaTypes.ViewResponseWellFormed | params.go:115-134 | the response for one view has those same three properties |
| MediaTypes.LastViewWins | params.go:126-131 | the response of an identifier comes from the last view of the last media type that carries it |
| Actions.FirstResponse | params.go:145-158 | none exactly when no declared response has a non-empty media type with a recorded response; otherwise the first such one, with the value recorded for it |
| Actions.GetResponse | params.go:145-158 | the scan returns the first qualifying response |
| Actions.AppendParams | params.go:79-98 | appending one object adds one field per attribute, in iteration order |
| Actions.ParseAction | params.go:70-106 | no error path; the name is `Goify(action.Name,true)`; the fields are a permutation of path, query and payload fields, sorted by `Name`; the response is the first match |
| Actions.SortByName | params.go:101 | `AlphabeticalName` sorting gives a sorted permutation |
| Actions.ParseActionDeterministic | params.go:70-106 | for one iteration order of the parameter maps, when the raw field names are distinct, `parseAction` has exactly one result |
| Actions.ImagePermutation | params.go:79-98 | iterating a sequence in another order permutes the values built from it |
| Actions.ObjectParamsPermutation | params.go:80-84 | iterating an object's attributes in another order permutes its fields |
| Actions.RawQueryPermutation | params.go:79-98 | iterating the path, query and payload objects in other orders permutes the raw request fields |
| Actions.QueryOrderIndependent | params.go:79-102 | when the field names are distinct, the sorted request fields do not depend on the iteration order of the three parameter maps |
| Actions.EmptyQuery | params.go:79-98 | the request has no field exactly when path, query and payload contribute none |
| Services.ResourceMap | params.go:345-352 | each resource is filed under its own name, and each value is a resource of the API |
| Services.ResourceMapKeys | params.go:345-352 | the map's names are exactly the API's resource names |
| Services.LastResourceWins | params.go:347-350 | with duplicate names, the last resource wins |
| Services.GetResources | params.go:345-352 | the loop builds exactly that map |
| Services.GetActions | params.go:354-361 | the actions in goa's iteration order |
| Services.CollectKeys | params.go:43-46 | ranging over the map collects each name once |
| Services.SortStrings | params.go:47 | `sort.Strings` gives a sorted permutation |
| Services.SortedKeys | params.go:43-47 | the visited names are the map's names, strictly ascending |
| Services.SortedSetAscending | params.go:43-47 | a sorted listing of a set is strictly ascending and lists exactly that set |
| Services.ParseActions | params.go:52-59 | one RPC per action, in action order, each a result of `parseAction` |
| Services.ParseResources | params.go:34-68 | a media-type error gives an empty list with that error; otherwise one service per distinct resource name, strictly ascending, each built from the resource kept for that name, with one RPC per action in order |
| Services.ServiceNamesDeterministic | params.go:43-65 | two results on one API list the same services, by name and resource, in the same order |
| Services.AscendingSetUnique | params.go:47-48 | a strictly ascending sequence is determined by its set of names |
| Render.ServiceName | params.go:160-162 | the service name is the goified resource name followed by "Service" |
| Render.RequestName | params.go:179-184 | "Empty" exactly when the request has no field; otherwise `Goify(parent,true) + Name + "Type"` |
| Render.ResponseName | params.go:185-194 | "Empty" without a response; "stream " followed by the response name for a collection; the response name otherwise |
| Render.GetRPCs | params.go:164-170 | one line per RPC, in order, naming the RPC, its request and its response |
| Render.EmptyRequestOfParsedAction | params.go:179-184 | a parsed action asks for "Empty" exactly when none of its parameter sources contributes a field |
| Render.EnumHeader | params.go:289 | the intended header is "enum ", then the field's name, then " {" |
| Render.WriteEnum | params.go:290-295 | the loop writes the header, the entries numbered from 0 in order, then "}" |
| Render.EnumFieldAsWritten | params.go:288-298 | as written, every enum block opens with `enum %!s(MISSING) {` |
| Render.AsWrittenEnumLosesName | params.go:289 | as written, two enum fields with the same values give the same block, whatever their names |
| Render.AsWrittenDiffersFromIntended | params.go:288-298 | as written, the block of every enum field whose name is not the marker `%!s(MISSING)` differs from the block with the field's name in its header |
| Render.IntendedEnumKeepsName | params.go:289 | with the intended header, the block determines the enum's name among fields with the same values |
| Render.EnumBlocksDistinct | params.go:289 | with the intended header, names that differ and have no space give distinct blocks |
| Render.EnumField | params.go:288-298 | the corrected `EnumField` writes the block with the intended header |
| Render.MessageField | params.go:273-286 | the enum block if the field has values, then `kind name = i;`, then ` // description` when the description is not empty |
| Render.WriteDefinition | params.go:196-216 | one line per field, and line k is the field line of field k numbered k+1 |
| Render.RequestDefinition | params.go:196-204 | the request fields as field lines numbered from 1 |
| Render.ResponseDefinition | params.go:206-216 | requires a response; its fields as field lines numbered from 1 |
| Render.FieldNumberReadBack | params.go:278 | the number of a plain field line can be read back from the end of the line |
| Render.FieldNumbersDistinct | params.go:198-200 | fields at distinct positions get distinct numbers |
| ProtoGenerator.Writer.constructor | generator.go:109 | a fresh writer holds no block |
| ProtoGenerator.Writer.ExecuteTemplate | generator.go:145 | a template execution appends one block |
| ProtoGenerator.DefaultScheme | generator.go:82-87 | the scheme is never empty; a set scheme is kept; an empty one becomes the API's first scheme when that is not empty, and "http" otherwise |
| ProtoGenerator.DefaultHost | generator.go:88-90 | a set host is kept; an empty one becomes the API's host; the result is empty exactly when both are empty |
| ProtoGenerator.RpcMessagesShape | generator.go:166-191 | a block belongs to an RPC's messages exactly when the request is not empty and the block is the request, or the owned response; a request message is never named "Empty" |
| ProtoGenerator.RpcsMessagesMembers | generator.go:166-191 | a block is among the messages of a list of RPCs exactly when one of them emits it |
| ProtoGenerator.MessageBlocksMembers | generator.go:165-192 | a block is among the messages of the services exactly when the RPCs of one service emit it |
| ProtoGenerator.MessagesOfRpc | generator.go:166-191 | every RPC with a non-empty request has its request message written, and its owned response too; an RPC with an empty request writes nothing, not even its response |
| ProtoGenerator.MessageOrigin | generator.go:164-195 | every written message is a request of an RPC with a non-empty request, or the owned response of such an RPC |
| ProtoGenerator.Generator.constructor | generator.go:57-62 | the generator starts with the given API, directory, scheme and host, and an empty file list |
| ProtoGenerator.Generator.Generate | generator.go:68-136 | missing API: error first, nothing changed; scheme and host defaulted; empty host: error with the file list untouched; media-type error: error with the file list cleared; success: `api.proto` appended to the file list, which is returned, and header, services and messages written in that order |
| ProtoGenerator.Generator.ApplyDefaults | generator.go:82-90 | the scheme and host become their defaulted values, and nothing else changes |
| ProtoGenerator.Generator.WriteFile | generator.go:120-132 | header, then services, then messages, on one writer |
| ProtoGenerator.Generator.GenerateHeader | generator.go:138-149 | one "header" block with the API, host and scheme |
| ProtoGenerator.Generator.GenerateServices | generator.go:151-162 | one "service" block per service, in list order, with the service name and the RPC lines |
| ProtoGenerator.Generator.GenerateMessages | generator.go:164-195 | the messages of every RPC of every service, in order |
| ProtoGenerator.Generator.GenerateRpcMessages | generator.go:166-191 | the messages of one service's RPCs, in order |
| ProtoGenerator.Generator.GenerateRpcMessage | generator.go:167-190 | nothing for an empty request; otherwise the request message, then the response message when the response is present and not a stream |
| ProtoGenerator.Generator.Cleanup | generator.go:198-203 | the file list is emptied and nothing else changes |

## Left out

- The package-level `Generate` and `NewGenerator` are left out. They cover
  flag parsing, `codegen.CheckVersion` and option functions, which are
  process setup outside the core.
- ProtoGenerator.Generator.Generate: does not model the failures of
  `os.MkdirAll`, `openFile`, `newTemplate`, template execution and
  `bufio` flushing. Those are file-system and template-engine I/O.
  Deleting the listed files in `Cleanup` is I/O too. Only the list is
  modelled.
- The `go utils.Catch(...)` cleanup goroutine is left out. It is
  concurrency and signal handling.
- `templates.go` is not part of this model. Template execution is
  recorded as a (template name, data) block, and the surrounding template
  text is not rendered.
- `codegen.Goify`, `design.CanonicalIdentifier` and goa's iteration
  primitives (`IterateMediaTypes`, `IterateViews`, `IterateResources`,
  `IterateActions`, `ToObject`) are foreign code. The name transforms are
  parameters, and the iterations are given sequences. A view-iteration
  error is an optional error of the media type.
- Go's map iteration order is an input sequence. The relative order of
  request fields with equal names after the unstable sort is not
  specified, as in Go. The response `getResponse` picks depends on the
  iteration order of the action's responses, and no lemma claims
  otherwise.
- Fields.ConvertTypeString: an empty `struct:field:grpctype` list makes
  the source panic, so the model requires a non-empty list instead. The
  same requirement reaches `NewParam`, `ParseAction`, `ParseMediaTypes`,
  `ParseResources` and `Generate`. It covers the view attributes of
  non-error media types (`AllMediaTypesOk`) and the attributes of actions
  of the resources `getResources` keeps (`KeptResourcesOk`). Error media
  types are skipped before conversion (params.go:112-114), and a resource
  replaced by a later one of the same name is dropped (params.go:348), so
  nothing is required of either. `KeptResourcesOk` is required only when
  the media-type pass succeeds, and `Generate` requires both only when
  the defaulted host is not empty. Those are the only paths on which the
  source converts them.
- MediaTypes.ParseMediaTypes: requires every non-error media type to be
  convertible, including those after the first failing one. The source
  never visits those (`FoldStopsAtError`), so it could not panic on them.
  The pass is defined as a fold over the whole list, which needs every
  element well-formed.
- Services.ParseResources: inherits the requirement on media types after
  the first failing one from `ParseMediaTypes`.
- ProtoGenerator.Generator.Generate: inherits the requirement on media
  types after the first failing one from `ParseMediaTypes`.
- Go's nil and empty slices are not told apart. No reader in the core
  does so. `Response.Params == nil` in `ResponseDefinition` gives the
  same empty definition as an empty list.
- The `original` pointer of `Param` is left out. The core sets it
  (params.go:119, params.go:310) but never reads it. The `Response.Name`
  and `RPCDefinition.Base` fields are left out too; the core never sets
  or reads them. `Comment` and `FuncName` are left out as well. They are
  constant and identity accessors that no core code calls.
- Render.MessageField: writes the enum block with the corrected header
  `enum <CamelCaseName> {`. As written, the source emits
  `enum %!s(MISSING) {` (params.go:276, params.go:289); see Findings. The
  members below build on `MessageField` through `FieldLine`. For a field
  with enum values, they therefore describe the corrected text, not the
  text the program writes:
- Render.WriteDefinition: field lines carry the corrected enum header.
- Render.RequestDefinition: field lines carry the corrected enum header.
- Render.ResponseDefinition: field lines carry the corrected enum header.
- ProtoGenerator.RpcMessagesShape: request and response message blocks
  carry the corrected enum header.
- ProtoGenerator.RpcsMessagesMembers: the message blocks carry the
  corrected enum header.
- ProtoGenerator.MessageBlocksMembers: the message blocks carry the
  corrected enum header.
- ProtoGenerator.MessagesOfRpc: the message blocks carry the corrected
  enum header.
- ProtoGenerator.MessageOrigin: the message blocks carry the corrected
  enum header.
- ProtoGenerator.Generator.Generate: the message blocks of the written
  file carry the corrected enum header.
- ProtoGenerator.Generator.WriteFile: the message blocks carry the
  corrected enum header.
- ProtoGenerator.Generator.GenerateMessages: the message blocks carry the
  corrected enum header.
- ProtoGenerator.Generator.GenerateRpcMessages: the message blocks carry
  the corrected enum header.
- ProtoGenerator.Generator.GenerateRpcMessage: the message blocks carry
  the corrected enum header.
- Go's `int` field numbers are naturals here. `MessageField` is only
  called with numbers from 1 upward.

## Findings

| source | as written | input that shows it | evidently intended | confidence | as-written member | corrected member |
|---|---|---|---|---|---|---|
| params.go:289 | `fmt.Sprintf("enum %s {")` has a verb and no argument, so every enum block starts with `enum %!s(MISSING) {` | a field `sex` with enum values `male`, `female`, `other` gives `enum %!s(MISSING) {male = 0;female = 1;other = 2;}` | the enum header carries the field's name, as in `enum Sex {` | high that the header is wrong whenever `EnumField` is reached; the example reaches it only if goa stores the enum values as a `[]string` (params.go:326), since any other type gives an empty enum and `MessageField` (params.go:275) writes no block, and the shown source does not fix that type; medium that `CamelCaseName` is the intended name; not executed | Render.EnumFieldAsWritten, Render.AsWrittenEnumLosesName, Render.AsWrittenDiffersFromIntended | Render.EnumField, Render.IntendedEnumKeepsName, Render.EnumBlocksDistinct |
