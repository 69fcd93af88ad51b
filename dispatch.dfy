/** What a log call does to the outside world: the dispatch routine `printf`,
    the five severity methods, and a sequence of calls made by one caller. */
module Dispatch {

  import opened Levels
  import opened Records
  import opened Options

  /** The current time rendered in a given layout: `time.Now().Format(layout)`. */
  type Clock = string -> string

  /** One observable effect of the logger: a formatter invoked on a record and a
      writer, or the process exiting with a status code. */
  datatype Effect =
    | Formatted(formatter: Formatter, record: LogRecord, out: Writer)
    | Exited(code: int)

  function CountFormatted(t: seq<Effect>): (n: nat)
    ensures n <= |t|
  {
    if t == [] then 0 else (if t[0].Formatted? then 1 else 0) + CountFormatted(t[1..])
  }

  function CountExits(t: seq<Effect>): (n: nat)
    ensures n <= |t|
  {
    if t == [] then 0 else (if t[0].Exited? then 1 else 0) + CountExits(t[1..])
  }

  /** `printf(level, ...)` under configuration `c`, with `message` the result of
      interpolating the call's arguments and `now` the clock. An admitted call
      hands exactly one record to the active formatter and writer; any other call
      has no effect. */
  function Printf(c: Config, level: Level, message: string, now: Clock): (t: seq<Effect>)
    ensures |t| == (if Ordinal(level) >= Ordinal(c.level) then 1 else 0)
    ensures forall i :: 0 <= i < |t| ==>
      && t[i].Formatted?
      && t[i].formatter == c.formatter && t[i].out == c.out
      && t[i].record.Message == message
      && t[i].record.Time == now(c.timeFormat)
      && t[i].record.Level == Describe(level)
  {
    if Admits(c.level, level) then
      [Formatted(c.formatter, LogRecord(message, now(c.timeFormat), Describe(level)), c.out)]
    else []
  }

  /** The five severity methods. */
  datatype Entry = Debugf | Infof | Warningf | Errorf | Fatalf

  /** The level each severity method passes to printf. */
  function FixedLevel(e: Entry): (l: Level)
    ensures IsSeverity(l)
    ensures e == Debugf <==> l == Debug
    ensures e == Infof <==> l == Info
    ensures e == Warningf <==> l == Warning
    ensures e == Errorf <==> l == Error
    ensures e == Fatalf <==> l == Fatal
  {
    match e
    case Debugf => Debug
    case Infof => Info
    case Warningf => Warning
    case Errorf => Error
    case Fatalf => Fatal
  }

  /** A call of severity method `e`: printf at its level, then, for Fatalf only, an
      exit with status 1 whether or not anything was written. */
  function Call(c: Config, e: Entry, message: string, now: Clock): (t: seq<Effect>)
    ensures CountFormatted(t) == (if Admits(c.level, FixedLevel(e)) then 1 else 0)
    ensures CountExits(t) == (if e == Fatalf then 1 else 0)
    ensures e == Fatalf ==> t[|t| - 1] == Exited(1)
    ensures forall i :: 0 <= i < |t| && t[i].Exited? ==> e == Fatalf && i == |t| - 1 && t[i].code == 1
    ensures forall i :: 0 <= i < |t| && t[i].Formatted? ==>
      && t[i].formatter == c.formatter && t[i].out == c.out
      && t[i].record == LogRecord(message, now(c.timeFormat), Describe(FixedLevel(e)))
  {
    var p := Printf(c, FixedLevel(e), message, now);
    if e == Fatalf then
      CountAppend(p, [Exited(1)]);
      p + [Exited(1)]
    else p
  }

  lemma {:induction false} CountAppend(s: seq<Effect>, t: seq<Effect>)
    ensures CountFormatted(s + t) == CountFormatted(s) + CountFormatted(t)
    ensures CountExits(s + t) == CountExits(s) + CountExits(t)
    decreases |s|
  {
    if s != [] {
      assert (s + t)[1..] == s[1..] + t;
      CountAppend(s[1..], t);
    } else {
      assert s + t == t;
    }
  }

  /** Every effect is either a formatter call or an exit. */
  lemma {:induction false} CountsPartition(t: seq<Effect>)
    ensures CountFormatted(t) + CountExits(t) == |t|
    decreases |t|
  {
    if t != [] {
      CountsPartition(t[1..]);
    }
  }

  /** Threshold Off silences every severity method (Fatalf still exits), and
      threshold All lets every one of them through. */
  lemma ThresholdOffAndAll(c: Config, e: Entry, message: string, now: Clock)
    ensures c.level == Off ==> CountFormatted(Call(c, e, message, now)) == 0
    ensures c.level == All ==> CountFormatted(Call(c, e, message, now)) == 1
  {
  }

  /** An admitted Infof writes a record whose level name is empty. */
  lemma InfoRecordHasEmptyLevel(c: Config, message: string, now: Clock)
    requires Admits(c.level, Info)
    ensures Printf(c, Info, message, now)[0].record.Level == ""
  {
  }

  /** One step of a caller: a call of a severity method, or SetOption. */
  datatype Step =
    | Log(entry: Entry, message: string, now: Clock)
    | SetOption(option: Option)

  predicate IsFatal(s: Step) {
    s.Log? && s.entry == Fatalf
  }

  /** The effects of running `steps` one after another on a logger with
      configuration `c`. The process ends at the first Fatalf, so nothing after it
      runs. */
  function Run(c: Config, steps: seq<Step>): (t: seq<Effect>)
    ensures forall i :: 0 <= i < |t| && t[i].Exited? ==> i == |t| - 1 && t[i].code == 1
    decreases |steps|
  {
    if steps == [] then []
    else match steps[0]
      case SetOption(o) => Run(ApplyTo(c, o), steps[1..])
      case Log(e, m, now) =>
        var head := Call(c, e, m, now);
        if e == Fatalf then head
        else
          var tail := Run(c, steps[1..]);
          assert forall i :: 0 <= i < |head| ==> !head[i].Exited?;
          assert forall i :: |head| <= i < |head + tail| ==> (head + tail)[i] == tail[i - |head|];
          head + tail
  }

  /** The number of severity-method calls that run: all of them, or those up to
      and including the first Fatalf. */
  function LoggedCalls(steps: seq<Step>): (n: nat)
    ensures n <= |steps|
    decreases |steps|
  {
    if steps == [] then 0
    else if steps[0].SetOption? then LoggedCalls(steps[1..])
    else if IsFatal(steps[0]) then 1
    else 1 + LoggedCalls(steps[1..])
  }

  /** The process exits at most once, as the very last effect, and it exits iff
      some step is a Fatalf. */
  lemma {:induction false} RunExitsOnceAtEnd(c: Config, steps: seq<Step>)
    ensures var t := Run(c, steps);
      && CountExits(t) == (if exists i :: 0 <= i < |steps| && IsFatal(steps[i]) then 1 else 0)
      && forall i :: 0 <= i < |t| - 1 ==> !t[i].Exited?
    decreases |steps|
  {
    if steps != [] {
      var t := Run(c, steps);
      var rest := steps[1..];
      assert forall i :: 1 <= i < |steps| ==> steps[i] == rest[i - 1];
      match steps[0]
      case SetOption(o) =>
        RunExitsOnceAtEnd(ApplyTo(c, o), rest);
      case Log(e, m, now) =>
        var head := Call(c, e, m, now);
        if e == Fatalf {
          assert t == head;
          var p := Printf(c, Fatal, m, now);
          assert head == p + [Exited(1)];
        } else {
          RunExitsOnceAtEnd(c, rest);
          var tail := Run(c, rest);
          assert t == head + tail;
          CountAppend(head, tail);
          assert head == Printf(c, FixedLevel(e), m, now);
        }
    }
  }

  /** A step that changes the threshold. */
  predicate SetsLevel(s: Step) {
    s.SetOption? && s.option.WithLevel?
  }

  /** With threshold Off and no step changing it, a caller's steps write nothing. */
  lemma {:induction false} RunUnderOff(c: Config, steps: seq<Step>)
    requires c.level == Off
    requires forall i :: 0 <= i < |steps| ==> !SetsLevel(steps[i])
    ensures CountFormatted(Run(c, steps)) == 0
    decreases |steps|
  {
    if steps != [] {
      var rest := steps[1..];
      assert forall i :: 0 <= i < |rest| ==> rest[i] == steps[i + 1];
      match steps[0]
      case SetOption(o) =>
        RunUnderOff(ApplyTo(c, o), rest);
      case Log(e, m, now) =>
        if e != Fatalf {
          RunUnderOff(c, rest);
          CountAppend(Call(c, e, m, now), Run(c, rest));
        }
    }
  }

  /** With threshold All and no step changing it, every severity-method call that
      runs writes exactly one record. */
  lemma {:induction false} RunUnderAll(c: Config, steps: seq<Step>)
    requires c.level == All
    requires forall i :: 0 <= i < |steps| ==> !SetsLevel(steps[i])
    ensures CountFormatted(Run(c, steps)) == LoggedCalls(steps)
    decreases |steps|
  {
    if steps != [] {
      var rest := steps[1..];
      assert forall i :: 0 <= i < |rest| ==> rest[i] == steps[i + 1];
      match steps[0]
      case SetOption(o) =>
        RunUnderAll(ApplyTo(c, o), rest);
      case Log(e, m, now) =>
        if e != Fatalf {
          RunUnderAll(c, rest);
          CountAppend(Call(c, e, m, now), Run(c, rest));
        }
    }
  }
}

/** Two concrete call sequences, run from NewLogger's configuration. */
module DispatchScenarios {

  import opened Levels
  import opened Records
  import opened Options
  import opened Dispatch

  /** Threshold Warning: Debugf writes nothing, Warningf writes one record with the
      default template to standard error. */
  lemma WarningThreshold(now: Clock)
    ensures Run(NewConfig([WithLevel(Warning)]), [Log(Debugf, "d", now), Log(Warningf, "w:3", now)])
         == [Formatted(Text(DEFAULT_TEMPLATE), LogRecord("w:3", now(RFC3339), "WARNING"), Stderr)]
  {
    var c := NewConfig([WithLevel(Warning)]);
    assert c == Config(Warning, Text(DEFAULT_TEMPLATE), RFC3339, Stderr) by {
      assert [WithLevel(Warning)][1..] == [];
    }
    var steps := [Log(Debugf, "d", now), Log(Warningf, "w:3", now)];
    var rest := steps[1..];
    assert rest == [Log(Warningf, "w:3", now)] && rest[1..] == [];
    assert Call(c, Debugf, "d", now) == [];
    assert Run(c, rest) == Call(c, Warningf, "w:3", now) + Run(c, []);
    assert Run(c, steps) == Call(c, Debugf, "d", now) + Run(c, rest);
  }

  /** The JSON formatter on a writer of the caller's: Errorf writes one record,
      named ERROR, to that writer. */
  lemma JsonToCustomWriter(now: Clock, sink: nat)
    ensures Run(NewConfig([WithFormatter(Json), WithOutput(Custom(sink))]), [Log(Errorf, "boom", now)])
         == [Formatted(Json, LogRecord("boom", now(RFC3339), "ERROR"), Custom(sink))]
  {
    var opts := [WithFormatter(Json), WithOutput(Custom(sink))];
    var c1 := ApplyTo(DEFAULTS, opts[0]);
    var c := ApplyTo(c1, opts[1]);
    assert NewConfig(opts) == c by {
      assert opts[1..] == [WithOutput(Custom(sink))] && opts[1..][1..] == [];
      assert ApplyAll(c1, opts[1..]) == ApplyAll(c, []);
    }
    var steps := [Log(Errorf, "boom", now)];
    assert steps[1..] == [];
    assert Run(c, steps) == Call(c, Errorf, "boom", now) + Run(c, []);
  }
}
