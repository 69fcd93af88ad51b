# logga, modelled in Dafny

A model of the leveled logger in `logga.go`. The logger has seven ordered severity
levels. Its configuration is one mutable record: threshold, formatter, time layout
and output writer. Four option constructors each overwrite one field of it.
`NewLogger` applies the options in order over fixed defaults, and `SetOption` applies
one more option to a live logger. There are five severity methods. Each one hands
its fixed level to the dispatch routine `printf`, which admits a call iff
`level >= threshold`. It then builds one `LogRecord` (message, formatted time, level
name) and hands it to the active formatter together with the active writer.
`Fatalf` then exits the process with status 1, whether or not anything was written.

Modules, one per component:

- `Levels` (`levels.dfy`): the `Level` enumeration and its `iota` ordinals. It also
  holds the admission test and the `levelDescription` table, looked up with Go's
  empty-string default for a missing key.
- `Records` (`records.dfy`): `LogRecord`, `Formatter`, `Writer` and the constants
  NewLogger uses. It gives the text the default template renders, with a decoder
  proved to be its inverse. It also gives the member names and order of the JSON
  formatter's object, with a decoder for them.
- `Options` (`options.dfy`): the configuration record and the four options, with
  what each writes. `ApplyAll` is left-to-right option folding, and
  `LastWriterWins` is proved against a reference definition (the last option in the
  list that writes a field).
- `Dispatch` (`dispatch.dfy`): the effects of `printf` and of each severity method
  as functions of the configuration. `Run` gives one caller's whole call sequence,
  which ends at the first `Fatalf`. `DispatchScenarios` holds two concrete call
  sequences.
- `Loggers` (`logger.dfy`): the `Logger` class, with the configuration fields and a
  `trace` field. The constructor is `NewLogger`. `Apply` is one option closure
  writing through the pointer. It also has `SetOption`, `Printf` and the five
  severity methods. Each method's postcondition gives the new fields and trace in
  terms of the `Options` and `Dispatch` functions. `ExampleProgram` is the call
  sequence of `examples/main.go`.

The outside world is abstracted like this:

- The writer's output becomes the logger's `trace`. Each entry is
  `Formatted(formatter, record, writer)`, or `Exited(code)` for the process exit.
- The clock is a `Clock` parameter: a function from a layout to the current time in
  that layout. A record's `Time` is therefore `now(timeFormat)`.
- The severity methods take the message after `fmt.Sprintf` has interpolated its
  arguments.

Points of the code's behaviour worth noting:

- The Warning level's name is `"WARNING"` (logga.go:77).
- Info has no entry in `levelDescription`, so its records carry the empty string
  (logga.go:75-80).
- `NewLogger` never sets the threshold, so it keeps the zero value `All`
  (logga.go:66, 111).
- `Fatalf` exits even when its record was suppressed (logga.go:143-146).

## Model

| member | source | states |
|---|---|---|
| `Levels.Ordinal` | logga.go:65-73 | each level's `iota` value is below 7 and is its position in the list All, Debug, Info, Warning, Error, Fatal, Off |
| `Levels.FromOrdinal` | logga.go:65-73 | an integer names a level iff it lies in 0..6, and then it names the level with that ordinal |
| `Levels.StrictlyIncreasing` | logga.go:65-73 | the seven levels are listed in strictly increasing order of their values, which are exactly 0..6 |
| `Levels.OrdinalRoundTrip` | logga.go:65-73 | converting a level to its integer and back gives the same level |
| `Levels.Admits` | logga.go:149 | a call at `level` is admitted iff the threshold is `level` or a level listed before it |
| `Levels.AdmitsIsTotalOrder` | logga.go:149 | the `level >= threshold` test is reflexive, total, antisymmetric and transitive over the levels |
| `Levels.ThresholdExtremes` | logga.go:149 | threshold All admits every level; threshold Off admits none of the five severity levels |
| `Levels.Describe` | logga.go:75-80 | the looked-up name is empty exactly for All, Info and Off, and every name is upper-case letters only |
| `Levels.DescriptionTable` | logga.go:75-80 | Debug, Warning, Error and Fatal are named DEBUG, WARNING, ERROR and FATAL; Info, All and Off get the empty string |
| `Levels.DescriptionInjective` | logga.go:75-80 | two levels with the same non-empty name are the same level |
| `Records.DefaultLayout` | logga.go:114 | the default template's output starts with the level name followed by ` - `, ends with the message and a newline, and is exactly as long as the three fields, two separators and the newline |
| `Records.ParseDefaultLayoutSound` | logga.go:114 | whatever the decoder accepts is exactly the default-template rendering of the record it returns |
| `Records.DefaultLayoutRoundTrip` | logga.go:114 | a record whose level name and time contain no space is recovered from its default-template rendering `Level - Time - Message\n` |
| `Records.JsonFields` | logga.go:24-28 | the JSON object of a record has exactly three members, named message, time and level, in that order |
| `Records.JsonRoundTrip` | logga.go:57-63 | decoding the JSON formatter's members recovers the record |
| `Records.Render` | logga.go:53-63 | a rendering is known exactly for the default template and the JSON formatter. The JSON members decode back to the record; the default-template line parses back to the record when its level name and time contain no space |
| `Options.ApplyTo` | logga.go:82-108 | an option puts its value in its own field and leaves every other field unchanged |
| `Options.ApplyIdempotent` | logga.go:82-108 | applying an option twice is the same as applying it once |
| `Options.ApplyAll` | logga.go:115-117 | applying the options in order leaves every field that no option writes as it was |
| `Options.NewConfig` | logga.go:110-118 | a new logger's layout is always RFC 3339, and its threshold, formatter and writer are All, the default template and standard error unless some option writes them |
| `Options.LastFor` | logga.go:115-117 | the option it picks for a field is one of the given options and writes that field; it finds none exactly when no option writes the field |
| `Options.ApplyAllSnoc` | logga.go:115-117 | applying a list and then one more option is the same as applying the extended list |
| `Options.LastWriterWins` | logga.go:115-117 | after applying a list, each field holds the value of the last option that writes it, or its starting value if none does |
| `Options.TimeFormatIsFixed` | logga.go:82-117 | no option changes the time layout, so every logger keeps the layout it starts with |
| `Options.NewConfigDefaults` | logga.go:110-114 | with no options, the configuration is threshold All, the default template, the RFC 3339 layout and standard error |
| `Options.LaterLevelOverrides` | logga.go:115-117 | `WithLevel(Debug)` followed by `WithLevel(Error)` leaves the threshold at Error |
| `Dispatch.Printf` | logga.go:148-157 | printf writes one effect iff `level >= threshold`, otherwise none. That effect hands the active formatter and writer a record of the message, the clock in the configured layout, and the level's name |
| `Dispatch.FixedLevel` | logga.go:127-146 | Debugf, Infof, Warningf, Errorf and Fatalf dispatch at Debug, Info, Warning, Error and Fatal respectively, each a severity level and no two the same |
| `Dispatch.Call` | logga.go:127-146 | a severity call writes one record iff its level is admitted, handing the configured formatter and writer the message, the clock in the configured layout and the method's level name. It exits exactly once if it is Fatalf, and then as its last effect with status 1, even when the record was suppressed. It never exits otherwise |
| `Dispatch.CountsPartition` | logga.go:143-157 | every effect is either a record handed to a formatter or an exit |
| `Dispatch.ThresholdOffAndAll` | logga.go:127-149 | under threshold Off no severity method writes anything; under threshold All each writes one record |
| `Dispatch.InfoRecordHasEmptyLevel` | logga.go:150-155 | an admitted Infof writes a record whose level name is the empty string |
| `Dispatch.Run` | logga.go:121-146 | a caller's call sequence, cut at the first Fatalf: any exit it contains is its last effect and has status 1 |
| `Dispatch.RunExitsOnceAtEnd` | logga.go:143-146 | over a sequence of calls, the process exits at most once and only as the last effect, and it exits iff some call is Fatalf |
| `Dispatch.RunUnderOff` | logga.go:148-149 | with threshold Off and no call changing it, a call sequence writes nothing |
| `Dispatch.RunUnderAll` | logga.go:148-149 | with threshold All and no call changing it, every severity call that runs writes exactly one record |
| `DispatchScenarios.WarningThreshold` | logga.go:110-157 | with threshold Warning, `Debugf("d")` writes nothing. `Warningf` with message `w:3` then writes one WARNING record with the default template to standard error |
| `DispatchScenarios.JsonToCustomWriter` | logga.go:96-157 | with the JSON formatter and a caller's writer, `Errorf("boom")` hands exactly one ERROR record to that formatter and writer |
| `Loggers.Logger.constructor` | logga.go:110-119 | a new logger's fields are the defaults with every option applied in order, and nothing has been written |
| `Loggers.Logger.Apply` | logga.go:82-108 | an option closure changes only the field the option names, as `ApplyTo` says, and returns a nil error |
| `Loggers.Logger.SetOption` | logga.go:121-125 | applies exactly one option to the live logger's configuration |
| `Loggers.Logger.Printf` | logga.go:148-157 | appends to the trace exactly what `Dispatch.Printf` says for the current configuration, and changes no configuration field |
| `Loggers.Logger.Debugf` | logga.go:127-129 | delegates to printf at Debug and does nothing else |
| `Loggers.Logger.Infof` | logga.go:131-133 | delegates to printf at Info and does nothing else |
| `Loggers.Logger.Warningf` | logga.go:135-137 | delegates to printf at Warning and does nothing else |
| `Loggers.Logger.Errorf` | logga.go:139-141 | delegates to printf at Error and does nothing else |
| `Loggers.Logger.Fatalf` | logga.go:143-146 | delegates to printf at Fatal, then appends one exit with status 1 |
| `Loggers.ExampleProgram` | examples/main.go:8-20 | with threshold Error, the Debugf and Warningf calls write nothing. Errorf and Fatalf each write one record to standard output with the example's template, and then the process exits |

## Left out

- The `sync.Mutex` in `SetOption`, and the race between `SetOption` and a
  concurrent `printf`: the model is sequential.
- The `text/template` engine and template parsing, including the parse error
  `newTextFormatter` ignores. A text formatter is identified by its template text.
  Only the default template's output is modelled, as a plain concatenation.
- The `encoding/json` engine: string escaping and the encoder's trailing newline.
  Only the member names and their order are modelled.
- `fmt.Sprintf`: the severity methods receive the message already interpolated.
- `time.Now`: the clock is a parameter.
- Writes to the real `io.Writer`, and the ignored write errors: the trace records
  which formatter was handed which record and writer.
- `os.Exit`, modelled as an `Exited(1)` effect. `Run` stops at the first Fatalf.
  The `Logger` class still lets a caller make calls after an `Exited` entry; in a
  real process those calls never happen.
- The `Logger` interface and Go's value receivers on the severity methods. Their
  only effect, that printf reads a snapshot of the configuration, holds trivially
  in a sequential model.
- Integer values of `Level` outside 0..6, which Go's `type Level int` allows: the
  `Level` datatype has only the seven named constants.
- `Records.DefaultLayoutRoundTrip`: proved only for records whose level name and
  time contain no space. Every level name qualifies, and so does any RFC 3339 time;
  with a space in either, the decoder cannot tell where the field ends.
- The websocket example server: network I/O.
- Caller-defined options. `Option` is an open `func(Logger) error` type
  (logga.go:22); the model has only the four built-in options. So it does not
  capture a nil option, which panics when called (logga.go:116, 124). Nor does it
  capture an option that returns an error, which both call sites discard, or one
  that logs while the logger is being built. `Error.Failure` is therefore never
  produced, and the constructor always promises an empty trace.
- Formatters that do not return. `WithFormatter(nil)` stores a nil formatter
  (logga.go:98), and the next admitted call panics at logga.go:151; in `Fatalf`
  that panic comes before `os.Exit(1)` (logga.go:145). A caller's `Format` that
  panics has the same effect. The model assumes `Format` returns, so `Call` on
  Fatalf always ends in `Exited(1)`.
