/** The logger object: its configuration fields, NewLogger, SetOption, the
    option closures, printf and the five severity methods. The writer's
    contents and the process exit are recorded in `trace`. */
module Loggers {

  import opened Levels
  import opened Records
  import opened Options
  import Dispatch

  /** Go's `error`: every built-in option returns Nil. */
  datatype Error = Nil | Failure(reason: string)

  class Logger {
    var level: Level
    var formatter: Formatter
    var timeFormat: string
    var out: Writer
    /** What the logger has done to the world so far, oldest first: each record
        handed to a formatter (with the writer it was to write to) and each exit. */
    var trace: seq<Dispatch.Effect>

    /** The configuration a severity method works on (it is a value receiver). */
    function Snapshot(): Config
      reads this
    {
      Config(level, formatter, timeFormat, out)
    }

    /** `NewLogger(opts...)`: the defaults, then every option in order. */
    constructor (opts: seq<Option>)
      ensures Snapshot() == NewConfig(opts)
      ensures trace == []
    {
      level := All;
      out := Stderr;
      timeFormat := RFC3339;
      formatter := Text(DEFAULT_TEMPLATE);
      trace := [];
      new;
      for i := 0 to |opts|
        invariant Snapshot() == ApplyAll(DEFAULTS, opts[..i])
        invariant trace == []
      {
        assert opts[..i + 1] == opts[..i] + [opts[i]];
        ApplyAllSnoc(DEFAULTS, opts[..i], opts[i]);
        var err := Apply(opts[i]);
      }
      assert opts[..|opts|] == opts;
    }

    /** Calling the closure an option constructor returned, on this logger. */
    method Apply(o: Option) returns (err: Error)
      modifies this`level, this`formatter, this`out
      ensures Snapshot() == ApplyTo(old(Snapshot()), o)
      ensures err == Nil
    {
      match o {
        case WithLevel(l) => level := l;
        case WithMessageTemplate(t) => formatter := Text(t);
        case WithFormatter(f) => formatter := f;
        case WithOutput(w) => out := w;
      }
      err := Nil;
    }

    /** Applies one option to the live logger; the option's error is dropped. */
    method SetOption(o: Option)
      modifies this`level, this`formatter, this`out
      ensures Snapshot() == ApplyTo(old(Snapshot()), o)
    {
      var err := Apply(o);
    }

    /** The dispatch routine: an admitted call hands one record to the formatter. */
    method Printf(lvl: Level, message: string, now: Dispatch.Clock)
      modifies this`trace
      ensures trace == old(trace) + Dispatch.Printf(Snapshot(), lvl, message, now)
    {
      if Ordinal(lvl) >= Ordinal(level) {
        var record := LogRecord(message, now(timeFormat), Describe(lvl));
        trace := trace + [Dispatch.Formatted(formatter, record, out)];
      }
    }

    method Debugf(message: string, now: Dispatch.Clock)
      modifies this`trace
      ensures trace == old(trace) + Dispatch.Call(Snapshot(), Dispatch.Entry.Debugf, message, now)
    {
      Printf(Debug, message, now);
    }

    method Infof(message: string, now: Dispatch.Clock)
      modifies this`trace
      ensures trace == old(trace) + Dispatch.Call(Snapshot(), Dispatch.Entry.Infof, message, now)
    {
      Printf(Info, message, now);
    }

    method Warningf(message: string, now: Dispatch.Clock)
      modifies this`trace
      ensures trace == old(trace) + Dispatch.Call(Snapshot(), Dispatch.Entry.Warningf, message, now)
    {
      Printf(Warning, message, now);
    }

    method Errorf(message: string, now: Dispatch.Clock)
      modifies this`trace
      ensures trace == old(trace) + Dispatch.Call(Snapshot(), Dispatch.Entry.Errorf, message, now)
    {
      Printf(Error, message, now);
    }

    /** Dispatches at level Fatal, then exits the process with status 1. */
    method Fatalf(message: string, now: Dispatch.Clock)
      modifies this`trace
      ensures trace == old(trace) + Dispatch.Call(Snapshot(), Dispatch.Entry.Fatalf, message, now)
    {
      Printf(Fatal, message, now);
      trace := trace + [Dispatch.Exited(1)];
    }
  }

  const EXAMPLE_TEMPLATE: string := "{{.Level}} - {{.Time}} -  {{.Message}}\n"

  const EXAMPLE_OPTIONS: seq<Option> :=
    [WithLevel(Error), WithMessageTemplate(EXAMPLE_TEMPLATE), WithOutput(Stdout)]

  const EXAMPLE_CONFIG: Config := Config(Error, Text(EXAMPLE_TEMPLATE), RFC3339, Stdout)

  lemma ExampleConfig()
    ensures NewConfig(EXAMPLE_OPTIONS) == EXAMPLE_CONFIG
  {
    var opts := EXAMPLE_OPTIONS;
    var c1 := ApplyTo(DEFAULTS, opts[0]);
    var c2 := ApplyTo(c1, opts[1]);
    var c3 := ApplyTo(c2, opts[2]);
    assert opts[1..][1..][1..] == [];
    assert ApplyAll(c2, opts[1..][1..]) == ApplyAll(c3, []);
    assert ApplyAll(c1, opts[1..]) == ApplyAll(c2, opts[1..][1..]);
    assert ApplyAll(DEFAULTS, opts) == ApplyAll(c1, opts[1..]);
  }

  /** The example program: threshold Error, its own template, standard output.
      The two Debugf calls and the Warningf call write nothing; Errorf and Fatalf
      each write one record, and then the process exits. */
  method ExampleProgram(now: Dispatch.Clock) returns (trace: seq<Dispatch.Effect>)
    ensures trace == [
      Dispatch.Formatted(Text(EXAMPLE_TEMPLATE), LogRecord("Error message: 4", now(RFC3339), "ERROR"), Stdout),
      Dispatch.Formatted(Text(EXAMPLE_TEMPLATE), LogRecord("Fatal message: 5", now(RFC3339), "FATAL"), Stdout),
      Dispatch.Exited(1)]
  {
    var logger := new Logger(EXAMPLE_OPTIONS);
    ExampleConfig();
    DescriptionTable();
    logger.Debugf("Debug message: 1", now);
    logger.Debugf("Info message: 2", now);
    logger.Warningf("Warning message: 3", now);
    assert logger.trace == [];
    logger.Errorf("Error message: 4", now);
    logger.Fatalf("Fatal message: 5", now);
    trace := logger.trace;
  }
}
