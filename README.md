# cloudcat schema interpreter and request rules, in Dafny

cloudcat extracts structured data from documents with a declarative schema. A schema
node has a type (`string`, `integer`, `number`, `boolean`, `object`, `array`), an
optional secondary format, optional child properties, a `Rule` that selects leaf
strings and an `Init` program that selects the element contexts of an object or array.

This project models the parts below.

- **The core interpreter** (`core/analyzer.go`), in `core.dfy`:
  - `analyze` routes on the node's type. Leaf strings are extracted and coerced in two
    stages, and each failing stage returns early.
  - An object is built from its first resolved element. An array is built with one
    object per resolved element.
  - The process-wide formatter slot is set and read through `SetFormatter` and
    `GetFormatter`.
- **The default `FormatHandler`** (`defaultFormatHandler.Format`), in `formatting.dfy`.
  The same code appears in both analyzers, so it is defined once.
- **The older interpreter** (`analyzer/analyzer.go`), in `legacy.dfy`:
  - It routes like the core, but it logs errors and carries on with whatever value the
    failing call returned.
  - Its `processObject` indexes `[0]` unchecked. Its `processInit` asserts `[]string` on
    a nil content. Both can panic.
  - `ExecuteSchema` recovers from a panic with a nil result.
- **Request building** (`jsmodules/http/http.go`), in `http.dfy`:
  - `validMethod`, against the `Method` rule of section 5.1.1 of RFC 2616 and `tchar`
    of section 3.2.6 of RFC 7230.
  - The Content-Type header each body kind writes into the caller's header map
    (`handleBody`).
  - How `doRequest` reads the `method`, `url`, `headers`, `body` and `cache` options.

`values.dfy` holds the shared data model.

- `Schema` and `Properties`: a nil property map is distinct from an empty one.
- `Value` stands for a Go `any` as it occurs during a pass.
- `Attempt<T>` is a Go `(T, error)` pair. Both interpreters keep using the value after
  an error, so the value is kept alongside the failure flag.

The rule and init evaluators (`Rule.GetString(s)`, `Init.GetElement(s)`) and the library
conversions (`cast.To*E`, `json.Unmarshal`) are taken as parameters (`Extractors`,
`Casts`). A user-installed formatter is a `CustomHandler` carrying an arbitrary function.

Most operations have two parts:

- a function that states what it computes;
- a method that runs it as the source does, stage by stage and filling maps and slices
  in loops, and is proved to compute exactly that function.

`analyzeInit`, `processInit` and `validMethod` are straight-line case analyses with no
loop of their own, so they are functions only. The properties are lemmas about the
functions.

Where a reader might expect otherwise, the model follows the code:

- A failing rule returns the value the rule returned (for a string rule, a string),
  not an absent value.
- "Has properties" means a non-nil property map, and it may be empty.
- An Array leaf with a secondary format converts each extracted string on its own
  (`Format` on a `[]string`). It does not decode the rule's output as one JSON document.

## Model

| member | source | states |
|---|---|---|
| Formatting.FormatString | core/analyzer.go:218-240 | string→String is the identity and never fails; Integer, Number and Boolean give exactly the library conversion's value and error; Array and Object give the decoded list or map without error, and nil with an error when decoding fails; an unknown type returns the string with an error |
| Formatting.DefaultFormat | core/analyzer.go:216-255 | identity on string→String; a `[]string` never fails and gives a list of the same length; a map never fails and keeps its key set; any other input comes back unchanged with an error |
| Formatting.ListFormatIsElementwise | core/analyzer.go:241-246 | entry i of a converted `[]string` is the conversion of string i on its own, error dropped |
| Formatting.MapFormatIsEntrywise | core/analyzer.go:247-252 | each entry of a converted map is the conversion of the old entry under the same key, error dropped |
| Formatting.DefaultFormatFailure | core/analyzer.go:216-255 | the default handler fails iff the input shape is unhandled, or it is a string whose conversion to the requested type fails (an unknown type always fails) |
| Formatting.StringFormatFixesStringTrees | core/analyzer.go:247-252 | converting to String leaves strings, and maps of such values at any depth, unchanged and without error |
| Formatting.DefaultFormatM | analyzer/analyzer.go:150-189 | the loop form of `Format` (a slice filled slot by slot, a map key by key, per-item errors dropped) computes exactly `DefaultFormat`; the legacy handler is the same code as the core one |
| Formatting.FormatWith | core/analyzer.go:207-211 | calling `Format` on the installed handler gives what that handler specifies |
| Core.FormatterSlot.constructor | core/analyzer.go:19-21 | the slot starts out holding the default handler |
| Core.FormatterSlot.SetFormatter | core/analyzer.go:23-26 | after the call the slot holds exactly the given handler |
| Core.FormatterSlot.SetFormatterAsWritten | core/analyzer.go:23-26 | as written, `Store` panics on any handler not of the default handler's concrete type, and the slot keeps its handler |
| Core.CustomHandlerPanics | core/analyzer.go:17-26 | the default handler can be stored, a custom handler cannot |
| Core.SwapThenAnalyze | core/analyzer.go:23-43 | after installing any handler, a new pass formats with that handler |
| Core.FormatterSlot.GetFormatter | core/analyzer.go:28-31 | returns the handler the slot holds, that is, the last one set or else the default |
| Core.AnalyzeInit | core/analyzer.go:168-205 | without Init: a `[]string` is returned unchanged, a string becomes a singleton, and anything else gives no elements; with Init: GetElements for an Array node and a singleton of GetElement otherwise; any Init error gives no elements |
| Core.AnalyzeString | core/analyzer.go:68-112 | under any handler: a failing rule returns its own value at once; a String node is the rule's string, passed through the secondary format when there is one; an Array leaf is the rule's strings, passed through the secondary format when there is one; a scalar's failed type coercion returns its value without the secondary format, and a clean one is followed by the secondary format when there is one |
| Core.AnalyzeRoutes | core/analyzer.go:52-61 | String/Integer/Number/Boolean go to the leaf extractor, Object and Array to their builders, and any other type gives nil |
| Core.ObjectFromFirstElement | core/analyzer.go:123-134 | an object with properties is nil iff no element was resolved; otherwise it is a map with exactly the property keys, each field analysed against the first element |
| Core.ObjectOnOwnElement | core/analyzer.go:155-157 | the bare Object node built for an array element evaluates its fields against that element alone |
| Core.ArrayOfObjects | core/analyzer.go:151-160 | an array with properties is a list of exactly one entry per resolved element, in order; entry i has exactly the property keys, each field analysed against element i |
| Core.AbsentVersusEmpty | core/analyzer.go:123-160 | with no resolved element an Object node is nil, while an Array node is the empty list, never nil |
| Core.WithoutProperties | core/analyzer.go:135-165 | without properties, an Object or Array node is the leaf extraction of a clone relabelled Object or Array when it has a rule, and nil when it has none |
| Core.ScalarLeafCoercion | core/analyzer.go:83-109 | with the default handler, a scalar leaf whose rule succeeded is the library conversion's result, even when that conversion fails; the secondary format applies only after a clean conversion |
| Core.ArrayLeafFormatsEachString | core/analyzer.go:75-109 | with the default handler, an Array leaf with a format is a list converting each extracted string on its own, same count and order |
| Core.AnalyzeConforms | core/analyzer.go:46-166 | every result has the shape its schema prescribes, at every depth: strings for plain String leaves, exact key sets for objects, lists of such maps for arrays, nil for unknown types and for builders with neither properties nor rule |
| Core.FieldsConformFor | core/analyzer.go:128-134 | the map of an object's fields has exactly the property keys, each value of its schema's shape |
| Core.FormatterIndependent | core/analyzer.go:90-109 | replacing the installed formatter cannot change the result of a schema none of whose nodes calls `Format` |
| Core.FieldsIndependent | core/analyzer.go:130-132 | the same, field by field, for an object's map |
| Core.AnalyzeDocument | core/analyzer.go:33-43 | the public entry on a document string computes `Analyze` with the handler currently in the slot |
| Core.ExecAnalyze | core/analyzer.go:46-62 | the routing procedure computes exactly `Analyze` |
| Core.ExecAnalyzeString | core/analyzer.go:68-112 | reassigning `ret` stage by stage with early returns and reading the formatter at each coercion computes exactly `AnalyzeString` |
| Core.ExecAnalyzeObject | core/analyzer.go:117-140 | filling the object map field by field, in any order, computes exactly `AnalyzeObject` |
| Core.ExecAnalyzeArray | core/analyzer.go:145-166 | filling the result slice element by element, in order, computes exactly `AnalyzeArray` |
| Legacy.ProcessInit | analyzer/analyzer.go:113-139 | it panics iff there is no Init and the content is nil; without Init, a `[]string` is returned unchanged, a string becomes a singleton, and anything else gives none; with Init, the GetElements or singleton GetElement output is used even when Init reported an error |
| Legacy.Analyzer.constructor | analyzer/analyzer.go:17-22 | a new analyzer formats with the default handler |
| Legacy.Analyzer.ExecuteSchema | analyzer/analyzer.go:24-33 | a pass over a document string; a panic anywhere gives nil |
| Legacy.Analyzer.Process | analyzer/analyzer.go:35-46 | the routing procedure computes exactly `ProcessValue` |
| Legacy.Analyzer.ProcessString | analyzer/analyzer.go:48-76 | reassigning `result` at each stage, with errors only logged, computes exactly `ProcessStringValue` |
| Legacy.Analyzer.ProcessObject | analyzer/analyzer.go:78-93 | the field loop over element `[0]`, with no length check, computes exactly `ProcessObjectValue`, a panic included |
| Legacy.Analyzer.ProcessArray | analyzer/analyzer.go:95-111 | the element loop computes exactly `ProcessArrayValue`, a panic included |
| Legacy.ProcessRoutes | analyzer/analyzer.go:35-46 | `process` routes exactly like the core `analyze` |
| Legacy.StringStepIgnoresErrors | analyzer/analyzer.go:48-76 | a legacy leaf is the core leaf computed with every rule and format error dropped |
| Legacy.LegacyIsCoreIgnoringErrors | analyzer/analyzer.go:35-46 | on a document string, the legacy interpreter never panics and computes exactly what the core one computes once all rule, init and format errors are dropped |
| Legacy.ObjectIgnoringErrors | analyzer/analyzer.go:78-93 | the same for an object node |
| Legacy.ArrayIgnoringErrors | analyzer/analyzer.go:95-111 | the same for an array node |
| Legacy.FieldsIgnoringErrors | analyzer/analyzer.go:83-85 | the same for an object's field map |
| Legacy.NeverPanicsFromEntry | analyzer/analyzer.go:24-33 | `ExecuteSchema` never reaches its recovery on a document string, so its result is the processed value |
| Legacy.EmptyElementsPanic | analyzer/analyzer.go:78-80 | an object node without Init panics over an empty `[]string` and over a nil content |
| Legacy.ObjectMapsItsFields | analyzer/analyzer.go:78-87 | over a document string an object node is a map with exactly the property keys, each processed against the first element, even when Init reported an error |
| Legacy.ArrayOnePerElement | analyzer/analyzer.go:95-105 | over a document string an array node is one map per element, in order: entry i has exactly the property keys, each field processed against element i, even when Init reported an error |
| Legacy.RuleErrorPolicyDiffers | analyzer/analyzer.go:57-73 | a String leaf whose rule failed is the rule's string in the core, but the legacy interpreter still converts it by its format |
| Legacy.InitErrorPolicyDiffers | analyzer/analyzer.go:134-138 | an object whose Init failed is nil in the core, but the legacy interpreter still builds a map from the element Init returned |
| Http.IndexNonToken | jsmodules/http/http.go:199-201 | the index of the first non-token character, or -1 iff every character is a token character |
| Http.ValidMethodIsToken | jsmodules/http/http.go:185-202 | a method is valid iff it is non-empty and every character is a `tchar`; the empty string is invalid |
| Http.UpperLettersValid | jsmodules/http/http.go:186-198 | any non-empty run of upper-case letters is a valid method |
| Http.SeparatorsInvalid | jsmodules/http/http.go:196-201 | any method with a space, a tab or a line break anywhere in it is invalid |
| Http.ToUpper | jsmodules/http/http.go:109 | upper-casing keeps the length and maps each character on its own |
| Http.UpperCharToken | jsmodules/http/http.go:109 | upper-casing one character is idempotent, and gives a token character exactly for token characters, dotless i and long s |
| Http.UpperCaseValidity | jsmodules/http/http.go:104-112 | upper-casing is idempotent; the check after it accepts a method option iff it is non-empty and made of token characters, dotless i and long s; every valid method in any letter case is accepted |
| Http.LongSBecomesPost | jsmodules/http/http.go:104-112 | the option "po" + long s + "t" is not a valid method itself, yet it is upper-cased to POST and accepted |
| Http.BodyHeaderRules | jsmodules/http/http.go:205-256 | URLSearchParams sets Content-Type to the literal `application/x-www-form-url`; a JSON object sets `application/json`; string, bytes, ArrayBuffer and nil bodies leave the map unchanged; any other body type is an unsupported-type error; form data sets the multipart type with its boundary |
| Http.Headers.constructor | jsmodules/http/http.go:94 | the header map starts as the given map |
| Http.Headers.Set | jsmodules/http/http.go:236 | setting one header changes that key and nothing else |
| Http.HandleBody | jsmodules/http/http.go:205-256 | the caller's header map afterwards is the body's Content-Type rule applied to the old map, and the error is exactly the body's error |
| Http.PrepareRequest | jsmodules/http/http.go:85-139 | updating method, URL and header map option by option, with the first bad option ending the call, computes exactly `Prepare` |
| Http.MethodOptionRule | jsmodules/http/http.go:104-113 | without a `method` option the caller's method is kept; with one, the request method is its upper-cased form and is valid; an invalid upper-cased method is rejected with that method |
| Http.CacheOptionRule | jsmodules/http/http.go:132-139 | the `cache` option sets Cache-Control and Pragma to the same string |
| Http.BodyHeaderSurvives | jsmodules/http/http.go:120-131 | a body's Content-Type is in the header map `doRequest` builds, including when a `headers` option was given, because the body is handled after it |
| Http.UrlOptionRule | jsmodules/http/http.go:114-119 | the `url` option is used only when the call's URL is empty |

## Left out

- Logging is not modelled: `ctx.Logger()`, `slog` and the messages.
- The `path` argument is not modelled. It reaches only the log records, so no result depends on it.
- Foreign faults inside `Rule` or `Init` are not modelled. The core's `Analyze` recovers from them with a nil result and a logged stack.
- Core.FormatterSlot.SetFormatter: installs any handler, as the formatter swap intends; the source's `atomic.Value.Store` panics on a handler of another concrete type than the default one (see Findings and `SetFormatterAsWritten`), and on nil, which has no counterpart here.
- Concurrency is not modelled. The formatter slot is an `atomic.Value` in the source and a plain field here, and a pass reads the same handler at every coercion.
- Go randomises the iteration order over `Properties`. Only log order depends on it, so results are maps.
- The selector engines behind `Rule` and `Init`, `cast.ToIntE`, `cast.ToFloat64E`, `cast.ToBoolE` and `json.Unmarshal` are parameters. Floating-point parsing is not modelled, and a float is kept as its bits.
- The nil `[]string` and the empty `[]string` are not distinguished. Both are the empty sequence.
- The schema type's own file is not part of this model (`CloneWithType`, `NewSchema`, `SetProperty`). Their behaviour is taken from how the analyzers use them.
- Http.ToUpper: maps ASCII letters, dotless i and long s as `strings.ToUpper` does, and keeps every other character. The source maps other non-ASCII letters to their own upper-case forms; none of those is a token character, so the method check agrees, but the rejected method's text may differ.
- `handleBody`'s body encoding is not modelled: the multipart writer, the random boundary and `json.Marshal`. The boundary and the encoders' failures are parameters of `Body`.
- Option values that are not strings are not modelled. Each option holds the outcome of its `cast` conversion.
- Everything after the options in `doRequest` is not modelled, because it is runtime plumbing and network I/O:
  - the goja runtime (`call.Argument`, `Export`, `js.Throw`);
  - the `proxy` and `signal` options and `url.Parse`;
  - `http.NewRequestWithContext`;
  - header canonicalisation by `req.Header.Set`: when the map holds two spellings of one header (say `content-type` from the `headers` option and the body's `Content-Type`), which value the request carries depends on Go's map iteration order;
  - `fetch.Do` and `NewResponse`.

## Findings

| source | as written | input that shows it | evidently intended | confidence | as-written member | corrected member |
|---|---|---|---|---|---|---|
| core/analyzer.go:17-26 | `SetFormatter` stores the handler in an `atomic.Value` whose first value is a `*defaultFormatHandler`; `Store` panics on a value of any other concrete type | `SetFormatter` with any custom `FormatHandler` implementation | the host application replaces the formatter, and later passes format with it | high; not executed | Core.FormatterSlot.SetFormatterAsWritten, Core.CustomHandlerPanics | Core.FormatterSlot.SetFormatter, Core.SwapThenAnalyze |
