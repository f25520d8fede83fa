# LogModule logging facade — Dafny model

This project models `LogsManager`, the structured-logging facade of LogModule. It has six public
operations, `Information`, `Error`, `Warning`, `Debug`, `Fatal` and `Trace`. Each one forwards its
level, message, component name, correlation id, caller member name and caller line number to one
private routine, `LogWithContext`. That routine does three things:

1. It normalises the component name to a fixed width of 20 characters (counted as Unicode
   characters in this model; see `Services.Normalize` under "## Left out"). An empty name becomes 20
   spaces. A longer name is cut down to its last 20 characters. A shorter name is right-aligned
   behind spaces.
2. It pushes four properties onto the ambient logging context: `ComponentName`, `CorrelationId`,
   `MemberName` and `LineNumber`. The `using` blocks dispose them again in reverse order.
3. It writes the message to the backend channel chosen by the level. Trace goes to the verbose
   channel.

Files:

- `wrappers.dfy` (module `Wrappers`): `Option`, and `Outcome`, which says whether a call that may
  throw ends normally or with an error.
- `backend.dfy` (module `Backend`): a recording stand-in for the external logging library. It holds
  the channels, the property values and the event that the backend receives. `LogContext` is a
  class whose `stack` field is the ambient property stack. `Logger` is a class whose `writes`
  field records every accepted write together with a snapshot of the context. When its
  `sinkError` field is set, every write fails with that error. `Visible` gives the value an event
  carries for a property name; the innermost property of that name wins.
- `services.dfy` (module `Services`): the facade itself. It holds the normalisation functions, the
  `LogType` enumeration, the level-to-channel map `ChannelOf` with its inverse `LevelOf`, the
  `Scope` of four pushed properties, and the class `LogsManager`.

The normalisation is pure, so it is written as functions. `NormalizedFrom` describes the result
case by case. `Normalize` is proved to satisfy it, and `NormalizedFromUnique` proves that nothing
else does. `LogWithContext` changes state, so it is a method. It pushes the four properties, writes
in a `match` that mirrors the source's `switch`, and pops the properties again. Its postcondition
says three things. The context stack is the same afterwards as before, on the failing path too. A
successful call appends exactly one event to the channel `ChannelOf(level)`. That event carries
the message unchanged and sees the old stack with the four new properties on top. A failing call
returns the backend's error unchanged and records nothing. Each public method states the same thing
with its own channel written out, so the contracts also show that no method swaps `message` and
`componentName`.

Choices the code settles:

- The width is the constant 20 (`LogModule/Services/LogsManager.cs:10`). `Normalize` takes the width
  as a `nat`, so a negative width cannot arise. A width of 0 gives the empty string.
- The level enumeration is declared in the order Information, Error, Warning, Debug, Fatal, Trace,
  and nothing uses it as an ordering.
- The "unknown level falls back to Information" default branch cannot be reached. The enumeration is
  private and every value is handled, so the exhaustive `match` has no default case.

## Model

| member | source | states |
|---|---|---|
| `Services.Spaces` | LogModule/Services/LogsManager.cs:68 | the padding string has exactly the requested length and consists of spaces only |
| `Services.Normalize` | LogModule/Services/LogsManager.cs:67-71 | the result has exactly `w` characters; an empty name gives all spaces; a name longer than `w` gives a suffix of it (its last `w` characters); a non-empty name of at most `w` characters gives `w - |name|` spaces followed by the name unchanged |
| `Services.NormalizeComponentName` | LogModule/Services/LogsManager.cs:10 | at the facade's fixed width every normalised component name has length exactly 20 and has the case-by-case shape above |
| `Services.NormalizedFromUnique` | LogModule/Services/LogsManager.cs:67-71 | any string with the case-by-case shape equals `Normalize`'s result, so the description and the function agree in both directions |
| `Services.SpacesUnique` | LogModule/Services/LogsManager.cs:68 | a string of spaces only is the padding string of its own length |
| `Services.NormalizeIdempotent` | LogModule/Services/LogsManager.cs:67-71 | normalising an already normalised name returns it unchanged |
| `Services.PaymentServiceExample` | LogModule/Services/LogsManager.cs:71 | the 14-character name "PaymentService" is padded with six leading spaces |
| `Services.ChannelOf` | LogModule/Services/LogsManager.cs:77-99 | the channel chosen for a level maps back to that level, and only Trace goes to the verbose channel |
| `Services.ChannelOfBijective` | LogModule/Services/LogsManager.cs:77-99 | distinct levels go to distinct channels and every backend channel is reached by exactly one level, so no write needs the default branch |
| `Services.ScopeShadowsOuter` | LogModule/Services/LogsManager.cs:72-75 | over any enclosing context, an event written inside the scope sees this call's normalised component name, correlation id, member name and line number, and every other property as before |
| `Services.LogsManager.constructor` | LogModule/Services/LogsManager.cs:9 | the facade writes to the logger it is given |
| `Services.LogsManager.LogWithContext` | LogModule/Services/LogsManager.cs:66-101 | the context stack is restored on both paths; success appends exactly one event on `ChannelOf(level)` with the message unchanged and the old stack plus the four properties in push order; failure returns the backend error and records nothing |
| `Services.LogsManager.Information` | LogModule/Services/LogsManager.cs:22-26 | one write to the Information channel with the caller's message, normalised component name and pass-through correlation id, member name and line number; context restored |
| `Services.LogsManager.Error` | LogModule/Services/LogsManager.cs:29-33 | the same, on the Error channel |
| `Services.LogsManager.Warning` | LogModule/Services/LogsManager.cs:36-40 | the same, on the Warning channel |
| `Services.LogsManager.Debug` | LogModule/Services/LogsManager.cs:43-47 | the same, on the Debug channel |
| `Services.LogsManager.Fatal` | LogModule/Services/LogsManager.cs:50-54 | the same, on the Fatal channel |
| `Services.LogsManager.Trace` | LogModule/Services/LogsManager.cs:57-61 | the same, on the Verbose channel and never the Debug channel |
| `Services.NoLeakAfterFailure` | LogModule/Services/LogsManager.cs:72-100 | after a call at any level whose write fails, the next call at any level writes one event that carries only its own message and four properties on top of the context both calls started from |

## Left out

- Services.Normalize: counts Unicode scalar values (Dafny characters), whereas C#'s `Length`,
  `[^20..]` and `PadLeft(20)` count UTF-16 code units. A name holding characters above U+FFFF is
  therefore padded and cut differently; C# may even cut such a character in half, which a Dafny
  string cannot represent. For names made of characters up to U+FFFF the two agree.
- The logging library itself: sinks, formatting, filtering, and how it enriches events. `Backend` is
  a recording stand-in for it. `Backend.Visible` assumes that the innermost property of a name wins.
- Backend failures are modelled as a returned `Outcome` that the facade passes on unchanged, and not
  as exceptions. The four disposals run on both paths, which is what the `using` blocks guarantee.
  What makes a write fail is outside the model; the `sinkError` field stands for it.
- The ambient context is per thread or task in LogModule. The model has one single-threaded
  stack, which the facade receives in its constructor. Isolation between concurrent calls is not
  modelled.
- `[CallerMemberName]` and `[CallerLineNumber]` are filled in by the compiler. Here they are ordinary
  parameters with the interface's defaults, `""` and `0`.
- Null strings: a Dafny string is never null. The null case of `string.IsNullOrEmpty` is therefore
  covered by the empty case, and `$"{message}"` is the message itself.
- The line number is a 32-bit integer in C#. It is only passed through, never computed on,
  so the model uses `int`.
- `LogModule/Configuration/LogManagerFactory.cs` is not part of this model. It wires up dependency
  injection, builds the global logger from configuration and writes a startup message.
- `LogModule/Model/LogConfig.cs` is not part of this model. It is a settings record that
  `LogsManager` does not read; only its default width of 20 matches the constant used here.
- `LogModule/Interfaces/ILogsManager.cs` only supplies parameter order and defaults. Its usage
  example calls a method that does not exist, so it is not modelled.
