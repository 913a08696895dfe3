# Start options builder and greeter activity, modelled in Dafny

This project models two parts of the repository.

The first is the functional-options builder in `starter/option.go`. An
`Option` is a Go closure that writes one field of Temporal's
`client.StartWorkflowOptions` through a pointer. There are nineteen setter
constructors, one for each field the builder offers: `ID`, `TaskQueue`, the three
timeouts, the two workflow-ID policies, `WorkflowExecutionErrorWhenAlreadyStarted`,
`RetryPolicy`, `CronSchedule`, `Memo`, `SearchAttributes`,
`TypedSearchAttributes`, `EnableEagerStart`, `StartDelay`, `StaticSummary`,
`StaticDetails`, `VersioningOverride` and `Priority`. `NewOptions` starts from a
struct whose only non-zero field is the task queue, applies the options in
order, and returns the struct by value.

The second is the example activity `GreeterActivityServer.SayHello` from
`example/worker/main.go`. It formats `"Hello, %s! (count: %d)"` with the
request's name and count, and returns twice the count in `int32` arithmetic.

Files:

- `go_int.dfy` (module `GoInt`) covers Go's `int32`/`int64` and the
  wrap-around of `int32` multiplication.
- `temporal.dfy` (module `Temporal`) holds stand-ins for the SDK types the
  options carry. Durations are `int64` values and the enums are `int32`
  codes. `map[string]any` is either nil or a map. Every other SDK type is an
  opaque identity, where identity 0 is Go's zero value.
- `start_options.dfy` (module `StartOptions`) models the builder in two forms:
  - the options struct as a value (`StartWorkflowOptions`);
  - an `Option` datatype with one constructor per setter;
  - `Set`, `Fold` and `Build`, which say what an option, a sequence of
    options and `NewOptions` compute;
  - the class `OptionsStruct`, the addressable struct that the closures
    update in place. It has one setter method per option, plus `Apply`;
  - the method `NewOptions`, whose loop applies the options to one such
    struct and is proved equal to `Build`.
- `fmt.dfy` (module `Fmt`) covers the decimal rendering done by `%d`, with a
  decimal reader as its inverse. It also models `Sprintf` for format strings
  whose directives are `%s`, `%d`, `%v` and `%%`. This includes Go's
  `%!verb(type=value)`, `%!verb(MISSING)`, `%!(NOVERB)` and `%!(EXTRA ...)`
  outputs.
- `greeter.dfy` (module `Greeter`) models `SayHello` and its properties.

## Model

| member | source | states |
|---|---|---|
| StartOptions.Initial | starter/option.go:148-151 | the starting struct has the task queue argument in `TaskQueue` and the zero value in every other field |
| StartOptions.Set | starter/option.go:14-145 | running an option's closure on the struct: the record with the option's own field replaced by its argument; the contract states that the target field holds the argument, and `GetSet` adds that every other field is unchanged |
| StartOptions.GetSet | starter/option.go:11-145 | after one option, the field it targets holds the option's argument and every other field keeps its old content |
| StartOptions.SetWritesOnlyTarget | starter/option.go:11-145 | each option writes its argument into exactly its own field and changes no other field |
| StartOptions.LastWriteWins | starter/option.go:11-145 | of two options on the same field, applied one after the other, only the second has an effect |
| StartOptions.SetIdempotent | starter/option.go:11-145 | applying the same option twice gives the same struct as applying it once |
| StartOptions.SetsCommute | starter/option.go:11-145 | two options on different fields give the same struct in either order |
| StartOptions.Fold | starter/option.go:152-154 | the options applied left to right: no options leave the struct as it was, and the field of the last option holds that option's argument |
| StartOptions.FoldAppend | starter/option.go:152-154 | applying `s1 + s2` is applying `s1` and then `s2` |
| StartOptions.FoldSnoc | starter/option.go:152-154 | applying one more option after a sequence is one extra `Set` step |
| StartOptions.FoldUntouched | starter/option.go:152-154 | a field that no option in the sequence targets keeps its value |
| StartOptions.FoldLastWriter | starter/option.go:152-154 | a field ends up holding the argument of the last option in the sequence that targets it |
| StartOptions.Build | starter/option.go:148-156 | the struct `NewOptions` returns, `Fold` from `Initial(tq)`: with no options its task queue is `tq`, otherwise the field of the last option holds that option's argument |
| StartOptions.BuildWithoutOptions | starter/option.go:148-155 | `NewOptions(tq)` with no options yields the struct with only `TaskQueue` set to `tq` |
| StartOptions.BuildTaskQueue | starter/option.go:148-154 | through the `TaskQueue` setter (lines 21-25), the result's task queue is the argument `tq` when no `TaskQueue` option is given, and otherwise the queue of the last `TaskQueue` option |
| StartOptions.BuildAppend | starter/option.go:148-155 | building with `o1 + o2` equals applying `o2` to the result built with `o1` |
| StartOptions.NewOptions | starter/option.go:148-156 | the loop that applies each option to one mutable struct returns exactly `Build(tq, opts)` |
| StartOptions.OptionsStruct.constructor | starter/option.go:149-151 | a fresh struct literal whose value is the starting struct for the task queue |
| StartOptions.OptionsStruct.Apply | starter/option.go:153 | calling an option on the struct changes its value to `Set(old value, option)` |
| StartOptions.OptionsStruct.SetID | starter/option.go:14-18 | the closure of `ID` writes the workflow ID and nothing else |
| StartOptions.OptionsStruct.SetTaskQueue | starter/option.go:21-25 | the closure of `TaskQueue` writes the task queue and nothing else |
| StartOptions.OptionsStruct.SetWorkflowExecutionTimeout | starter/option.go:28-32 | the closure writes the execution timeout and nothing else |
| StartOptions.OptionsStruct.SetWorkflowRunTimeout | starter/option.go:35-39 | the closure writes the run timeout and nothing else |
| StartOptions.OptionsStruct.SetWorkflowTaskTimeout | starter/option.go:42-46 | the closure writes the task timeout and nothing else |
| StartOptions.OptionsStruct.SetWorkflowIDReusePolicy | starter/option.go:49-53 | the closure writes the ID reuse policy and nothing else |
| StartOptions.OptionsStruct.SetWorkflowIDConflictPolicy | starter/option.go:56-60 | the closure writes the ID conflict policy and nothing else |
| StartOptions.OptionsStruct.SetWorkflowExecutionErrorWhenAlreadyStarted | starter/option.go:63-67 | the closure writes the already-started flag and nothing else |
| StartOptions.OptionsStruct.SetRetryPolicy | starter/option.go:70-74 | the closure writes the retry policy pointer and nothing else |
| StartOptions.OptionsStruct.SetCronSchedule | starter/option.go:77-81 | the closure writes the cron schedule and nothing else |
| StartOptions.OptionsStruct.SetMemo | starter/option.go:84-88 | the closure writes the memo map and nothing else |
| StartOptions.OptionsStruct.SetSearchAttributes | starter/option.go:92-96 | the closure writes the untyped search attributes and nothing else |
| StartOptions.OptionsStruct.SetTypedSearchAttributes | starter/option.go:99-103 | the closure writes the typed search attributes and nothing else |
| StartOptions.OptionsStruct.SetEnableEagerStart | starter/option.go:106-110 | the closure writes the eager-start flag and nothing else |
| StartOptions.OptionsStruct.SetStartDelay | starter/option.go:113-117 | the closure writes the start delay and nothing else |
| StartOptions.OptionsStruct.SetStaticSummary | starter/option.go:120-124 | the closure writes the static summary and nothing else |
| StartOptions.OptionsStruct.SetStaticDetails | starter/option.go:127-131 | the closure writes the static details and nothing else |
| StartOptions.OptionsStruct.SetVersioningOverride | starter/option.go:134-138 | the closure writes the versioning override and nothing else |
| StartOptions.OptionsStruct.SetPriority | starter/option.go:141-145 | the closure writes the priority and nothing else |
| GoInt.WrapInt32 | example/worker/main.go:72 | the result is the unique int32 congruent to the input modulo 2^32, and equals the input when the input is in range |
| GoInt.Int32Congruent | example/worker/main.go:72 | two int32 values congruent modulo 2^32 are equal, so the wrapped result is determined |
| GoInt.MulInt32 | example/worker/main.go:72 | int32 `a * b` is congruent to the exact product, and equals it when there is no overflow |
| Fmt.Digits | example/worker/main.go:71 | the decimal digits of a natural number are non-empty, all digits, and start with `0` only for zero |
| Fmt.FormatInt | example/worker/main.go:71 | the `%d` text starts with `-` exactly for negative values and is a canonical decimal numeral |
| Fmt.FormatIntRoundTrip | example/worker/main.go:71 | reading back the `%d` text of any integer gives that integer |
| Fmt.ParseIntCanonical | example/worker/main.go:71 | every canonical numeral is read as some value whose `%d` text is the numeral again |
| Fmt.Sprintf | example/worker/main.go:71 | Go's `Sprintf` on `%s`, `%d`, `%v` and `%%`: literal text is copied; `Fmt.Directive` handles a `%` (giving `%` for `%%`, `%!(NOVERB)` for a trailing `%`, `%!verb(MISSING)` when the arguments have run out); `Fmt.FormatArg` renders one verb on one argument, or `%!verb(type=value)` when the verb does not suit the type; unused arguments end in `%!(EXTRA ...)`. Its properties are stated by `Fmt.SprintfNoPercent`, `Fmt.SprintfLiteral` and `Fmt.SprintfStringThenInt` |
| Fmt.SprintfNoPercent | example/worker/main.go:71 | a format without `%` is copied unchanged, followed by the note for the unused arguments |
| Fmt.SprintfLiteral | example/worker/main.go:71 | `Sprintf` copies literal text without a `%` unchanged and consumes no argument |
| Fmt.SprintfStringThenInt | example/worker/main.go:71 | a format with one `%s` and one `%d` around literal parts renders as the parts with the string and then the decimal integer filled in |
| Greeter.RenderGreeting | example/worker/main.go:71 | the greeting format renders as `Hello, ` + name + `! (count: ` + decimal count + `)` |
| Greeter.SayHello | example/worker/main.go:69-73 | the activity never returns an error; the message is the greeting; the result is congruent to twice the count modulo 2^32 |
| Greeter.SayHelloIgnoresContext | example/worker/main.go:69-73 | the response does not depend on the context |
| Greeter.SayHelloWorld | example/worker/main.go:69-73 | the request `{World, 5}` gives `Hello, World! (count: 5)` and result 10 |
| Greeter.SayHelloNoOverflow | example/worker/main.go:72 | when `2 * count` fits in an int32, the result is exactly `2 * count` |
| Greeter.SayHelloWraps | example/worker/main.go:72 | at the int32 boundaries the product wraps: 2^30 gives -2^31, 2^31-1 gives -2, -2^31 gives 0 |
| Greeter.SayHelloCountReadable | example/worker/main.go:71 | the text between `(count: ` and `)` in the message reads back as the request's count |

## Left out

- `cmd/protoc-gen-golemporal/constant/const.go` only declares constants for the code generator; it is not part of this model.
- `example/starter/main.go` and the `main` function of the worker are not part of this model. They connect to a Temporal server, register workers and log, which are I/O.
- `HelloWorkflow` in the worker is not part of this model. It uses the Temporal workflow runtime (activity options, futures, the logger).
- The code generator, the generated clients and the HTTP gateway are not part of this model.
- The SDK's own types (`temporal.RetryPolicy`, `temporal.SearchAttributes`, `client.VersioningOverride`, `temporal.Priority`) are opaque identities. The builder only stores them.
- `map[string]any` arguments (`Memo`, `SearchAttributes`) are stored by reference in Go. The model stores map values, so later mutation of the caller's map through an alias is not captured.
- `client.StartWorkflowOptions` has fields that no setter writes. The model's struct has exactly the nineteen fields that the setters write. Every other field stays at its zero value in `NewOptions`.
- `Option` is an exported function type, so a caller may pass any closure of that type: a hand-written one that writes several fields, none, or reads the struct, or a nil one, which makes Go panic when `NewOptions` calls it. The model's options are exactly the nineteen setters. StartOptions.LastWriteWins, StartOptions.SetIdempotent, StartOptions.SetsCommute, StartOptions.FoldUntouched, StartOptions.FoldLastWriter and StartOptions.BuildTaskQueue hold only for these nineteen setters.
- A nil `*HelloRequest` makes `SayHello` panic; the model's request is always present.
- Fmt.Sprintf: only the directives `%s`, `%d`, `%v` and `%%` are modelled, on string and int32 arguments. Flags, width, precision and argument indexes are not modelled, so the precondition `SupportedFormat` restricts the format strings. Go accepts every format string. The greeting format is one of the supported ones.
- Go strings are byte sequences. The model uses `seq<char>` and does not model UTF-8 encoding.
- Concurrency, retries and timeouts of the workflow runtime are not modelled.
