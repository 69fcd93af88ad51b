/** The record handed to a formatter, the formatters and sinks a logger can be
    configured with, the text the default template renders, and the field
    layout of the JSON formatter. */
module Records {

  import opened Optionals

  /** One accepted log call: interpolated message, formatted time, level name. */
  datatype LogRecord = LogRecord(Message: string, Time: string, Level: string)

  /** A formatter, identified by what it is built from; the template and JSON
      engines behind the first two are not part of this model. */
  datatype Formatter =
    | Text(template: string)   // a text/template built from this template text
    | Json                     // the JSONFormatter
    | Plugin(id: nat)          // any other Formatter implementation a caller supplies

  /** The writer a logger sends its output to. */
  datatype Writer = Stderr | Stdout | Custom(id: nat)

  /** The template NewLogger installs when no formatter option is given. */
  const DEFAULT_TEMPLATE: string := "{{.Level}} - {{.Time}} - {{.Message}}\n"

  /** Go's `time.RFC3339` layout. */
  const RFC3339: string := "2006-01-02T15:04:05Z07:00"

  const SEPARATOR: string := " - "

  /** The text the default template renders for `r`: the three fields in the order
      Level, Time, Message, separated by " - " and ended by a newline. */
  function DefaultLayout(r: LogRecord): (s: string)
    ensures |s| == |r.Level| + |r.Time| + |r.Message| + 2 * |SEPARATOR| + 1
    ensures s[..|r.Level|] == r.Level && s[|r.Level|..|r.Level| + |SEPARATOR|] == SEPARATOR
    ensures s[|s| - 1 - |r.Message|..|s| - 1] == r.Message && s[|s| - 1] == '\n'
  {
    r.Level + SEPARATOR + r.Time + SEPARATOR + r.Message + "\n"
  }

  predicate NoSpace(s: string) {
    forall i :: 0 <= i < |s| ==> s[i] != ' '
  }

  /** The position of the first space in `s`, or `|s|` when there is none. */
  function IndexOfSpace(s: string): (k: nat)
    ensures k <= |s|
    ensures forall i :: 0 <= i < k ==> s[i] != ' '
    ensures k < |s| ==> s[k] == ' '
  {
    if s == [] || s[0] == ' ' then 0 else 1 + IndexOfSpace(s[1..])
  }

  /** Splits `s` at its first space, provided a separator " - " starts there. */
  function SplitAtSeparator(s: string): (r: Optional<(string, string)>)
    ensures r.Some? ==> NoSpace(r.value.0) && s == r.value.0 + SEPARATOR + r.value.1
  {
    var i := IndexOfSpace(s);
    if i + |SEPARATOR| <= |s| && s[i..i + |SEPARATOR|] == SEPARATOR then
      assert s == s[..i] + s[i..i + |SEPARATOR|] + s[i + |SEPARATOR|..];
      Some((s[..i], s[i + |SEPARATOR|..]))
    else None
  }

  lemma {:induction false} SplitAtSeparatorOfJoin(a: string, b: string)
    requires NoSpace(a)
    ensures SplitAtSeparator(a + SEPARATOR + b) == Some((a, b))
  {
    var s := a + SEPARATOR + b;
    assert s[|a|] == ' ';
    assert forall i :: 0 <= i < |a| ==> s[i] == a[i];
    assert s[|a|..|a| + |SEPARATOR|] == SEPARATOR;
    assert s[..|a|] == a;
    assert s[|a| + |SEPARATOR|..] == b;
  }

  /** Reads a line written by the default template back into a record. The level
      and the time are taken up to the first space, so this decoder is defined for
      renderings whose level name and time contain no space. */
  function ParseDefaultLayout(s: string): Optional<LogRecord> {
    var first := SplitAtSeparator(s);
    if first.None? then None
    else
      var second := SplitAtSeparator(first.value.1);
      if second.None? then None
      else
        var line := second.value.1;
        if line != [] && line[|line| - 1] == '\n' then
          Some(LogRecord(line[..|line| - 1], second.value.0, first.value.0))
        else None
  }

  /** The decoder accepts only renderings: what it returns renders back to its input. */
  lemma ParseDefaultLayoutSound(s: string)
    ensures ParseDefaultLayout(s).Some? ==> DefaultLayout(ParseDefaultLayout(s).value) == s
  {
    var first := SplitAtSeparator(s);
    if first.Some? {
      var second := SplitAtSeparator(first.value.1);
      if second.Some? {
        var line := second.value.1;
        if line != [] && line[|line| - 1] == '\n' {
          var message := line[..|line| - 1];
          assert line == message + "\n";
          JoinFields(first.value.0, second.value.0, message);
        }
      }
    }
  }

  lemma JoinFields(level: string, time: string, message: string)
    ensures level + SEPARATOR + (time + SEPARATOR + (message + "\n"))
         == DefaultLayout(LogRecord(message, time, level))
  {
  }

  /** Round trip: when neither the level name nor the time holds a space, the
      rendering of a record reads back as that record. */
  lemma {:induction false} DefaultLayoutRoundTrip(r: LogRecord)
    requires NoSpace(r.Level) && NoSpace(r.Time)
    ensures ParseDefaultLayout(DefaultLayout(r)) == Some(r)
  {
    var line := r.Message + "\n";
    var rest := r.Time + SEPARATOR + line;
    assert DefaultLayout(r) == r.Level + SEPARATOR + rest;
    SplitAtSeparatorOfJoin(r.Level, rest);
    SplitAtSeparatorOfJoin(r.Time, line);
    assert line[..|line| - 1] == r.Message;
  }

  /** The names the JSONFormatter uses for the record's fields, in field order. */
  const JSON_KEYS: seq<string> := ["message", "time", "level"]

  /** The JSON object the JSONFormatter writes for `r`, as its list of members. */
  function JsonFields(r: LogRecord): (fields: seq<(string, string)>)
    ensures |fields| == |JSON_KEYS|
    ensures forall i :: 0 <= i < |fields| ==> fields[i].0 == JSON_KEYS[i]
  {
    [("message", r.Message), ("time", r.Time), ("level", r.Level)]
  }

  /** The value of the first member named `key`. */
  function Lookup(fields: seq<(string, string)>, key: string): (v: Optional<string>)
    ensures v.Some? <==> exists i :: 0 <= i < |fields| && fields[i].0 == key
  {
    if fields == [] then None
    else if fields[0].0 == key then Some(fields[0].1)
    else
      var v := Lookup(fields[1..], key);
      assert forall i :: 1 <= i < |fields| ==> fields[i] == fields[1..][i - 1];
      v
  }

  /** Decodes a JSON object with the three members a LogRecord needs. */
  function DecodeJsonFields(fields: seq<(string, string)>): Optional<LogRecord>
  {
    var m, t, l := Lookup(fields, "message"), Lookup(fields, "time"), Lookup(fields, "level");
    if m.Some? && t.Some? && l.Some? then Some(LogRecord(m.value, t.value, l.value)) else None
  }

  /** Round trip: decoding what the JSONFormatter writes recovers the record. */
  lemma JsonRoundTrip(r: LogRecord)
    ensures DecodeJsonFields(JsonFields(r)) == Some(r)
  {
    var fields := JsonFields(r);
    assert fields[1..] == [("time", r.Time), ("level", r.Level)];
    assert fields[1..][1..] == [("level", r.Level)];
    assert Lookup(fields[1..][1..], "level") == Some(r.Level);
    assert Lookup(fields[1..], "level") == Some(r.Level);
    assert Lookup(fields[1..], "time") == Some(r.Time);
  }

  /** What a built-in formatter writes for a record: a line of text for the default
      template, the object's members for the JSON formatter. */
  datatype Rendering = Line(text: string) | Object(members: seq<(string, string)>)

  /** The output of the formatters whose rendering this model knows: the default text
      template and the JSON formatter. Each reads back as the record it was given. */
  function Render(f: Formatter, r: LogRecord): (out: Optional<Rendering>)
    ensures out.Some? <==> f == Text(DEFAULT_TEMPLATE) || f == Json
    ensures f == Json ==> out.value.Object? && DecodeJsonFields(out.value.members) == Some(r)
    ensures f == Text(DEFAULT_TEMPLATE) ==>
      && out.value.Line?
      && (NoSpace(r.Level) && NoSpace(r.Time) ==> ParseDefaultLayout(out.value.text) == Some(r))
  {
    if f == Json then
      JsonRoundTrip(r);
      Some(Object(JsonFields(r)))
    else if f == Text(DEFAULT_TEMPLATE) then
      if NoSpace(r.Level) && NoSpace(r.Time) then
        DefaultLayoutRoundTrip(r);
        Some(Line(DefaultLayout(r)))
      else Some(Line(DefaultLayout(r)))
    else None
  }
}
