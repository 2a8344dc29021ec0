# logger: a Dafny model

This project is a Dafny model of `index.js` of the Node.js package `logger`
(SoapStuff/logger). The package is a process-wide logging facility:

- Named loggers are handed out by a get-or-create function. A default logger
  called "Logger" is created at start-up.
- Each logger has three operations, `log`, `warning` and `assert`.
- Each operation writes one console line or nothing. A shared options
  record, changed only by `setOptions`, decides which.
- At start-up the `--logger-*` flags of the argument list are read into an
  options object, and that object is applied with `setOptions`.

The modules follow the parts of the source:

| file | module | what it holds |
|---|---|---|
| `js_builtins.dfy` | `JsBuiltins` | The JavaScript built-ins the core relies on: `indexOf`, `lastIndexOf`, `slice`, the decimal part of `parseInt`, and the decimal text `${n}` of an integer. |
| `console.dfy` | `Console` | What is handed to the console. `Formatted(template)` stands for the external `colours.formatter(template)`. |
| `options_store.dfy` | `OptionsStore` | The `options` record as a class, with `setOptions` written step by step. `Apply` is the pure function that specifies it. |
| `format.dfy` | `Format` | `_getString_` and the call-site getters `__from_file` and `__from_function`. This file also holds the two partners of the line builder. `ReadPlainLine` reads a plain line back into its parts. `StripMarkup` is what a reader sees of a colour template. |
| `logging.dfy` | `Logging` | The gates, the class `Logger`, and the registry class `Registry`, which holds a `map` and the get-or-create method. It also holds the as-written model of the registry's property lookup (see Findings). |
| `command_line.dfy` | `CommandLine` | The `init` function. `Parse` and `ParseNotices` say what it reads and prints. The class `ArgumentParser` does the reading step by step. `Render` writes an options object as flags, and `ParseRender` proves that parsing reads it back. |

Every method that changes state is proved against a pure function of the old
state:

- `Options.SetOptions` ends with `Snapshot() == Apply(old(Snapshot()), json)`.
- `ReadArguments` returns `Parse(args)` and `ParseNotices(args)`.

The source's promises are then proved as lemmas about `Apply`, `Parse`,
`PlainLine` and the gates.

An input object of `setOptions` is a `Settings` value. It has one `Field` per
boolean property, which is `Undefined`, `Boolean(b)` or `NonBoolean`. Its
`loggers` is an `Option` that is `Some` exactly when the property is an
array. A payload is an already converted `string`. A call site comes in as
the `RawFrame` the runtime would report.

Some behaviour of the code that the model keeps:

- In stack mode the call site is written `file:function:line`
  (`index.js:78`, `index.js:83`).
- `__from_file` keeps only what follows the last backslash
  (`index.js:199-201`). A path with `/` separators is kept whole.
- There is no stored `enable` field. `enable: false` clears four other
  fields, and `enable: true` does nothing (`index.js:126-132`).
- The source prints the stack notice at most once per process. Every
  application of a boolean `stack` defines `global.__stack`, without
  `configurable` (`index.js:171`, `index.js:210`). So the second one throws a
  `TypeError` before the notice at `index.js:138` is printed. The model
  leaves that throw out, and differs from the source after it in three
  ways: the model prints the notice again, it applies the rest of the
  settings, and it keeps writing call sites where the source throws a
  `ReferenceError` (see "## Left out").
- The empty string is accepted by the `Logger` constructor. The
  get-or-create function treats it as falsy and returns the default logger
  (`index.js:97`).

## Model

| member | source | states |
|---|---|---|
| OptionsStore.Options.constructor | index.js:6-14 | The initial options are `stack` false, `all`, `logs`, `asserts`, `warnings` and `colour` true, and an empty allow-list. |
| OptionsStore.Options.SetOptions | index.js:123-163 | The stored options become `Apply(old options, json)`. The stack notice is printed exactly when `enable` is not `false` and `stack` is `true`. |
| OptionsStore.Options.SetFlags | index.js:134-158 | Each boolean property replaces its stored flag only when it holds a boolean. `stack: true` prints the notice. |
| OptionsStore.Options.SetAllowList | index.js:159-162 | An array replaces the allow-list. It turns `all` off only when `all` is undefined in the same call. Otherwise nothing changes. |
| OptionsStore.EnableFalseShortCircuits | index.js:126-132 | After `enable: false`, `all`, `logs`, `warnings` and `asserts` are false. `stack`, `colour` and the allow-list are kept. The result is the same as for `{enable: false}` alone, and nothing is printed. |
| OptionsStore.EnableOtherwiseIgnored | index.js:126 | Any `enable` other than `false` has the same effect as leaving it out. |
| OptionsStore.BooleanOnlyUpdates | index.js:134-158 | Each of `stack`, `asserts`, `warnings`, `logs` and `colour` becomes the supplied value exactly when it is a boolean, and is otherwise unchanged. |
| OptionsStore.LoggersAndAll | index.js:144-162 | A boolean `all` is stored. A non-boolean `all` is neither stored nor forces anything. With `all` undefined, `all` stays on only when it was on and no array is given. The allow-list is the array when one is given. |
| OptionsStore.ApplyIdempotent | index.js:123-163 | Applying the same options object twice gives the same stored options as applying it once. |
| Logging.Selected | index.js:50 | A logger is selected exactly when `all` is on or its name is in the allow-list. |
| Logging.LogGate | index.js:50 | `log` writes exactly when `(all or name in allow-list) and logs`. |
| Logging.WarningGate | index.js:61 | `warning` writes exactly when `(all or name in allow-list) and warnings`. |
| Logging.AssertIgnoresSelection | index.js:39 | Changing `all` or the allow-list never changes whether `assert` writes. |
| Logging.Logger.constructor | index.js:25-29 | The logger keeps its name and the shared options. |
| Logging.Logger.Log | index.js:49-54 | When the log gate is open, exactly one black line is written, coloured as the `colour` option says, in the current stack mode. Otherwise nothing is written. |
| Logging.Logger.Warning | index.js:60-65 | The same as `log`, in red and gated by `warnings`. |
| Logging.Logger.Assert | index.js:38-42 | When `asserts` is on, exactly one assert event with the assertion and the uncoloured line is written, whatever `all`, the allow-list and `colour` say. Otherwise nothing is written. |
| Logging.Registry.constructor | index.js:229 | At start-up the registry holds exactly the keys "Logger" and "default". Both hold one fresh logger named "Logger". |
| Logging.Registry.Construct | index.js:25-31 | A non-string name fails with "Type mismatch, name should be a string." and changes nothing. A string name registers a fresh logger under that name, over any earlier one. |
| Logging.Registry.GetLogger | index.js:96-107 | A falsy name gives the default logger. Any other non-string fails with "Name must be a string". A registered name gives the same logger, with nothing changed. An unregistered name adds exactly one fresh logger under it. The registry invariant is kept. |
| Logging.SharedOnlyByDefault | index.js:229 | Two different keys share a logger only when they are "Logger" and "default". |
| Logging.DisabledIsSilent | index.js:126-132 | After `enable: false`, none of `log`, `warning` and `assert` writes, for any logger. |
| Logging.AllowListSelects | index.js:159-162 | An allow-list given without `all` opens the log gate exactly for the listed names while `logs` is on, and the warning gate exactly for them while `warnings` is on. |
| Logging.AllOverridesAllowList | index.js:144-162 | With `all: true` in the same call, the log and warning gates of every name are just `logs` and `warnings`, whatever the allow-list. |
| Logging.PrototypeNameEscapesAsWritten | index.js:103-106 | As written, the lookup on a plain object returns the inherited `Object.prototype` member for an unregistered name such as "toString". No logger is created. |
| Logging.AsWrittenAgreesElsewhere | index.js:103-106 | For any name that is not an inherited `Object.prototype` property, the as-written lookup creates a logger exactly when the name is unregistered, and otherwise returns the registered logger, as `Registry.GetLogger` does. |
| Format.BaseName | index.js:199-201 | The file name is the suffix after the last backslash. It has no backslash and is preceded by one when it is shorter than the path. It is the whole path when there is no backslash. |
| Format.FunctionLabel | index.js:193 | The function name is the runtime's name when there is one and it is not empty. It is "anonymous" when the name is missing or empty. It is never empty. |
| Format.GetString | index.js:75-87 | The formatter is used exactly when `useColour` holds. When the name, payload, file and function have no markup, the visible text is the plain line either way. |
| Format.TemplateShowsPlainLine | index.js:78-80 | Erasing the `@{...}` tokens from the colour template leaves exactly the plain line of the same stack mode. |
| Format.ReadPlainLineInverts | index.js:82-85 | A plain line reads back as its name, its payload and, in stack mode, its call site. This needs a name without `]` and, in stack mode, file and function names without `:`. |
| JsBuiltins.IndexOf | index.js:262 | `indexOf` is -1 exactly when the value is absent. Otherwise it is the position of the first occurrence. |
| JsBuiltins.IndexOfFirst | index.js:247 | A value first found at `i` has `indexOf` equal to `i`. |
| JsBuiltins.Slice | index.js:255 | A slice from a start inside the list is the run from the start up to the end or to the list's end, whichever comes first. A start past the end gives the empty list. |
| JsBuiltins.NatToString | index.js:83 | The decimal text of a line number is non-empty digits without a leading zero, and it denotes the number. |
| JsBuiltins.ParseIntOfIntToString | index.js:250-253 | `parseInt` reads back the decimal text of any integer, also when a non-digit follows. |
| JsBuiltins.ParseInt | index.js:250-251 | `parseInt` reads an optional `-` or `+` and then the longest decimal-digit prefix. It gives `None` for NaN. A result exists only when a digit follows the sign. A value after `-` is never positive, and a value without `-` is never negative. |
| JsBuiltins.ParseIntNaN | index.js:250-251 | `parseInt` gives NaN exactly when no digit follows the optional `-` or `+`, as for "", "-", "+", "-x" and "undefined". |
| CommandLine.FlagValue | index.js:264-268 | Exactly the tokens "true" and "false" give a boolean, "true" giving true and "false" giving false. Anything else, including no token, leaves the slot undefined. |
| CommandLine.WithSlot | index.js:268 | Storing a flag's value sets that slot and leaves the other six slots and the allow-list unchanged. |
| CommandLine.BooleanFirstOccurrence | index.js:260-271 | A boolean flag is decided by the token after its first occurrence. It is stored exactly when that token is "true" or "false", with value `token == "true"`. Otherwise an advisory naming the token, or "undefined", is printed. |
| CommandLine.BooleanAbsent | index.js:262-263 | An absent flag leaves its slot unset and prints nothing. |
| CommandLine.ArrayWindow | index.js:245-258 | A positive count `n` after the first `--logger-loggers` at `i` gives the window `args[i+2 .. min(i+2+n, len)]`. A count that is not positive, NaN or missing leaves the allow-list unset and prints an advisory with the count. |
| CommandLine.ParseRender | index.js:233-271 | The flags rendered from an options object of booleans and a non-empty allow-list of non-option names parse back to that object, with no advisory. |
| CommandLine.ArgumentParser.constructor | index.js:231-233 | Reading starts from the empty options object `{}`. |
| CommandLine.ArgumentParser.GetBooleanOption | index.js:260-271 | The options object becomes `Store(old, f, BooleanOption(args, f))`, and the advisory `BooleanNotice(args, f)` is appended. |
| CommandLine.ArgumentParser.GetArrayOption | index.js:245-258 | The allow-list becomes `ArrayOption(args)` when that exists, and `ArrayNotice(args)` is appended. |
| CommandLine.ReadBooleans | index.js:235-241 | Reading the seven boolean flags in order into `{}` gives the boolean slots of `Parse(args)`, no allow-list, and prints their advisories in flag order. |
| CommandLine.ReadArguments | index.js:235-242 | Reading the seven boolean flags and then `loggers`, in order, gives `Parse(args)` and prints `ParseNotices(args)`. |
| CommandLine.Init | index.js:228-273 | After start-up the registry is valid with its two default keys, and the options are `Apply(Defaults, Parse(args))`. What is printed is the flag advisories in order, then the stack notice of `setOptions`. |

## Left out

- `colours.formatter` is an external library: a coloured line is the event `Formatted(template)`, and only its template is modelled (`StripMarkup` gives the visible text when the template's own markup is the only markup in it).
- `console.log` and `console.assert` are the output: each operation returns the events it hands to the console, and what `console.assert` does with a falsy assertion is left to the runtime.
- `enableStack` and `disableStack` (`index.js:169-215`) redefine getters on `global` through the V8 stack-trace API; stack mode is the boolean `stack`, and the frame of the caller is a `RawFrame` parameter. Because those getters are defined without `configurable`, a second `setOptions` that applies `stack` would throw a `TypeError` from `Object.defineProperty`. That throw is not modelled; its effects are listed on the `Options.SetOptions` line below.
- JavaScript's conversion `${object}` of an arbitrary payload is not modelled: the payload is already a string.
- ParseInt: models an optional sign followed by the longest run of decimal digits; it does not skip leading white space or read `0x` prefixes, and numbers beyond JavaScript's safe integer range are not rounded.
- Options.SetOptions: the `TypeError` thrown by a second application of a boolean `stack` (`index.js:171`, `index.js:210`) is not modelled. In the source that throw has three effects that the model does not have. (1) The new `stack` value is already stored (`index.js:135`), but the notice at `index.js:138` is not printed. (2) Lines `index.js:144-162` of that call never run, so the `all`, `asserts`, `warnings`, `logs`, `colour` and `loggers` of the same call are ignored; `Apply` applies them. (3) When `disableStack` ran first, through `--logger-stack false` at start-up (`index.js:273`) or an earlier `stack: false`, a later `stack: true` throws at `index.js:171`, before `__from_line`, `__from_function` and `__from_file` are defined (`index.js:185-203`). `options.stack` is then true, so every later `log`, `warning` or `assert` that passes its gate throws a `ReferenceError` at `index.js:78` or `index.js:83`. The model writes a line with a call site instead.
- Options.SetOptions: a call with no object, such as `setOptions()` or `setOptions(null)`, throws a `TypeError` when `json.enable` is read (`index.js:126`). A `Settings` value is always an object, so that throw is not modelled.
- Options.SetOptions: a `loggers` array with elements that are not strings is accepted and stored as it is (`index.js:159-161`). `Settings` holds only string names, so such an array is not modelled. The gates would behave as for the array of its string elements, because `indexOf` of a logger's name never matches a non-string.
- Options.SetAllowList: stores the array as a value; that the source keeps the caller's array by reference, so later changes to it are seen, is not modelled.
- `process.argv` is the parameter `args` of `Init`.
- The getters `__from_file`, `__from_function` and `__from_line` each capture the stack anew (`index.js:185-203`); the model reads all three from one `RawFrame` of the caller.
- The doc comment of `setOptions` calls the colour property `colours`; the model follows the code, which reads `colour` (`index.js:156`).
- `tests/test.js` only prints through an external test runner and holds nothing to model.

## Findings

| source | as written | input that shows it | evidently intended | confidence | as-written member | corrected member |
|---|---|---|---|---|---|---|
| index.js:4, index.js:103-106 | `loggers` is a plain object `{}`, so `loggers[name]` also finds what every object inherits from `Object.prototype`; a name such as "toString" finds an inherited member, which is truthy, and that member is returned instead of a logger. It is a function for "toString", and the object `Object.prototype` for "__proto__" | `getLogger("toString")` (likewise "constructor", "valueOf", "hasOwnProperty", ...) on a registry without that key | a fresh `Logger` named "toString" is created, registered and returned, as for any other new name | not executed | Logging.PrototypeNameEscapesAsWritten | Logging.Registry.GetLogger |
