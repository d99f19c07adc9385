# CommandDotNet execution core — a Dafny model

This project models three small pieces of CommandDotNet, a framework for
command-line applications that runs each invocation through a pipeline of
middleware stages:

- **ExecutionContext** (`execution_context.dfy`, module `Execution`): the
  per-run record. The constructor keeps the original arguments and tokens and
  starts the live token stream from them. `ShouldExitWithCode` sets the
  one-way should-exit latch and records the exit code. The token stream, parse
  result and execution config can be set. The class's state is also given as
  a value (`ContextState`), with a pure `Step`/`Apply` semantics over a
  sequence of updates. Each method is proved to take exactly one `Step`, and
  the lemmas about `Apply` state what holds across any sequence of calls: the
  latch never resets, the last exit code wins, and the original input never
  changes.
- **The debug directive** (`debug_directive.dfy`, module `Directives`, with
  `decimal_text.dfy` for how the process id is written). `UseDebugDirective`
  stores a `DebugDirectiveContext` whose wait flag is
  `waitForDebuggerToAttach ?? !InTestHarness`. It then registers
  `AttachDebugger` at stage `PreTransformTokens` with order `int.MinValue`.
  `AttachDebugger` checks the tokens for a `debug` directive. When one is
  present it reads the wait policy, writes one announcement line naming the
  process id, and spins while waiting is on and no debugger is attached. In
  every case that does not fault, it calls `next` exactly once with the
  unchanged context and returns `next`'s result.
- **Attribute-container queries** (`custom_attributes.dfy`, module
  `Extensions`): `HasAttribute<T>`, `GetCustomAttributes<T>` and
  `GetCustomAttribute<T>` over a container that may be null and whose
  attribute provider may be null. Each query is modelled with its error
  outcome: `ArgumentNullException` for a null container or a null
  `SingleOrDefault` source, and `InvalidOperationException` for more than one
  match.

`primitives.dfy` holds the CLR `int` (`int32`) and the nullable wrapper.
`tokens.dfy` holds the token stream as far as the directive check needs it.

Three behaviours of the code are worth stating up front:
- `AttachDebugger` passes the context to `next` unchanged, so the `[debug]`
  token stays in the stream for the stages after it.
- The wait is a busy spin on `Debugger.IsAttached`, because the
  `Task.Delay(500)` inside the loop is never awaited.
- `GetCustomAttributes` returns null, not an empty sequence, when the
  container's attribute provider is null.

## Model

| member | source | states |
|---|---|---|
| `Execution.ExecutionContext.constructor` | CommandDotNet/Execution/ExecutionContext.cs:7-27 | Original holds exactly the given args and tokens. Tokens equals the original tokens. ShouldExit is false and ExitCode is 0. Nothing is parsed or configured yet. The context owns a fresh context store. |
| `Execution.ExecutionContext.ShouldExitWithCode` | CommandDotNet/Execution/ExecutionContext.cs:29-33 | Afterwards ShouldExit is true and ExitCode is the given code. Every other part of the state is unchanged. |
| `Execution.ExecutionContext.SetTokens` | CommandDotNet/Execution/ExecutionContext.cs:12 | Replaces only the token stream. Original, the latch and the code are unchanged. |
| `Execution.ExecutionContext.SetParseResult` | CommandDotNet/Execution/ExecutionContext.cs:16 | Replaces only the parse result. |
| `Execution.ExecutionContext.SetExecutionConfig` | CommandDotNet/Execution/ExecutionContext.cs:14 | Replaces only the execution config. |
| `Execution.ShouldExitIffSomeExit` | CommandDotNet/Execution/ExecutionContext.cs:7-33 | After any sequence of updates, ShouldExit is true exactly when it was true before or some update was an exit request. |
| `Execution.LatchIsMonotonic` | CommandDotNet/Execution/ExecutionContext.cs:7-33 | Once ShouldExit is set, no sequence of updates clears it. |
| `Execution.ExitCodeIsLastRequested` | CommandDotNet/Execution/ExecutionContext.cs:29-33 | ExitCode is the code of the last exit request, so later requests overwrite earlier ones. |
| `Execution.NoExitRequestKeepsExitState` | CommandDotNet/Execution/ExecutionContext.cs:7-16 | The setters alone never change ShouldExit or ExitCode. |
| `Execution.OriginalIsFixed` | CommandDotNet/Execution/ExecutionContext.cs:10-26 | No update, including replacing Tokens, changes Original or AppSettings. |
| `Execution.TokensAreLastSet` | CommandDotNet/Execution/ExecutionContext.cs:12 | The token stream is the one given by the last SetTokens. |
| `Execution.NoSetTokensKeepsTokens` | CommandDotNet/Execution/ExecutionContext.cs:12-25 | Without a SetTokens, the token stream stays the one the run started with. |
| `DecimalText.Int32ToDecimal` | CommandDotNet/Directives/DebugDirective.cs:32-34 | The text of an interpolated `int` starts with '-' exactly when the number is negative. The rest is all digits, with no leading zero. Its partner `ReadBackInt32` reads the number back. |
| `DecimalText.NatDecimalRoundTrip` | CommandDotNet/Directives/DebugDirective.cs:34 | Reading back the decimal text of a number gives the number. |
| `DecimalText.ReadBackInt32` | CommandDotNet/Directives/DebugDirective.cs:32-34 | The text an interpolated `int` becomes reads back as that `int`, whatever non-digit text follows it. |
| `Directives.WaitFlag` | CommandDotNet/Directives/DebugDirective.cs:19 | The stored wait flag is the explicit argument when one is given, and `!InTestHarness` otherwise. |
| `Directives.NothingOrderedBeforeDebug` | CommandDotNet/Directives/DebugDirective.cs:20 | The debug middleware is registered in PreTransformTokens, and no registration in that stage has a strictly lower order than int.MinValue. |
| `Directives.Announcement` | CommandDotNet/Directives/DebugDirective.cs:30-34 | The announced line starts with "Attach your debugger to process ". The process id can be read back from the text that follows the prefix. The line ends with the process name in parentheses and a full stop. |
| `Directives.AppConfigBuilder.UseDebugDirective` | CommandDotNet/Directives/DebugDirective.cs:15-22 | On success, the context data holds `DebugDirectiveContext(arg ?? !InTestHarness)` and exactly one registration `(AttachDebugger, PreTransformTokens, int.MinValue)` is appended. A second add of the policy faults and registers nothing. |
| `Directives.AttachDebugger` | CommandDotNet/Directives/DebugDirective.cs:25-43 | Without the directive: no output, no spin and no read of the context data. `next` is called exactly once with the unchanged context, and its result is returned. With the directive but no stored policy: Get faults, nothing is written and `next` is not called. With the directive and a stored policy: exactly one announcement line is written, and the loop spins only while waiting is on and no debugger is attached. Only after that is `next` called, exactly once, with the unchanged context (directive token included). That call sees the announcement already on the console and, when waiting is on, an attached debugger. Its result is returned. |
| `Extensions.OfType` | CommandDotNet/Extensions/CustomAttributesContainerExtensions.cs:37 | The filtered attributes are all of type T, are all drawn from the provider's list, and include every attribute of type T in that list. |
| `Extensions.OfTypeCount` | CommandDotNet/Extensions/CustomAttributesContainerExtensions.cs:37 | Each attribute of type T occurs in the result exactly as often as in the provider's list. Every other attribute occurs zero times. |
| `Extensions.OfTypeAppend` | CommandDotNet/Extensions/CustomAttributesContainerExtensions.cs:37 | Filtering a concatenation filters each part in turn, so the original order is kept. |
| `Extensions.OfTypeLength` | CommandDotNet/Extensions/CustomAttributesContainerExtensions.cs:27 | The filtered list is empty exactly when no attribute is of type T. It has two or more elements exactly when two positions hold attributes of type T. |
| `Extensions.SingleOrDefault` | CommandDotNet/Extensions/CustomAttributesContainerExtensions.cs:27 | `Enumerable.SingleOrDefault` gives null exactly for an empty source and the sole element exactly for a one-element source. It throws ArgumentNullException("source") exactly for a null source, and InvalidOperationException exactly for two or more elements. |
| `Extensions.HasAttribute` | CommandDotNet/Extensions/CustomAttributesContainerExtensions.cs:10-18 | A null container throws ArgumentNullException("container"). A null provider gives false. Otherwise the result is true exactly when some attribute is of type T. |
| `Extensions.GetCustomAttributes` | CommandDotNet/Extensions/CustomAttributesContainerExtensions.cs:30-38 | A null container throws ArgumentNullException("container"). A null provider gives null, not an empty sequence. Otherwise the result is exactly the filtered list `OfType(attrs, T)`: only attributes of type T, all drawn from the list, each as often as in the list, and empty exactly when none is of type T. `OfTypeAppend` fixes their order as the list's order. |
| `Extensions.GetCustomAttribute` | CommandDotNet/Extensions/CustomAttributesContainerExtensions.cs:20-28 | A null container throws ArgumentNullException("container"). A null provider throws ArgumentNullException("source") from SingleOrDefault. Otherwise the result is null for no match, InvalidOperationException for two or more matches, and for exactly one match the attribute every match equals. |
| `Extensions.QueriesAgree` | CommandDotNet/Extensions/CustomAttributesContainerExtensions.cs:17-37 | On a container with a provider, HasAttribute is false exactly when GetCustomAttributes is empty, and then GetCustomAttribute is null. When HasAttribute is true, GetCustomAttribute is not null. |

## Left out

- TokenCollection is not part of this model. `HasDirective` stands in for `TryGetDirective("debug", out _)`: a directive token whose value is exactly `debug`. Case-insensitive matching and the `name:value` form, if TokenCollection supports them, are not modelled.
- ContextData is not part of this model. Only the `DebugDirectiveContext` entry of the app configuration's store is kept. `ContextData.Add` is taken to refuse a second entry of the same type, and `Get` to fault on a missing one. ExecutionContext's own store is modelled only as a fresh object per context.
- ParseResult, ExecutionConfig and AppSettings are abstract types. MiddlewareStages is not part of this model: only `PreTransformTokens` is named, and every other stage is an `OtherStage`.
- Execution.ExecutionContext.SetTokens: the C# setter also accepts null; the model's token stream is never null.
- AppRunner.Configure and UseMiddleware are not part of this model. `UseDebugDirective` models the effect of the configuration callback when it runs, not its deferral until the app is built. The middleware executor and its ordering are out of scope.
- `InTestHarness` is a static mutable flag in the source. Here it is a parameter of registration.
- Process.GetCurrentProcess, Debugger.IsAttached and Console.Out are OS and console I/O. The process is a `ProcessInfo` parameter. The console is a `Console` object that appends lines. The debugger is a `Debugger` object that reports "attached" after a given number of polls.
- Directives.AttachDebugger: an environment where a debugger never attaches makes the source spin forever. The model covers only environments where one attaches after finitely many polls. The 500 ms delay has no effect in the source (it is not awaited) and is not modelled.
- The async `Task<int>` plumbing: middleware results are plain `int`, and `next` is a total function of the context.
- Culture-specific number formatting: the process id is written with ASCII digits and a leading `-`.
- Reflection: attributes are `(type tag, value)` pairs, matched by exact tag. Subtype matching and attribute inheritance are not modelled. The provider's own `HasAttribute<T>()` is taken to mean "some attribute of type T".
- CommandDotNet/Attributes/ArguementAttribute.cs holds four auto-properties and no behaviour. Attribute payloads are a type parameter.
