/** The logger's configuration, the four built-in options, and how NewLogger
    folds a list of options over the defaults. */
module Options {

  import opened Optionals
  import opened Levels
  import opened Records

  /** The configuration fields of a logger (everything but its mutex). */
  datatype Config = Config(level: Level, formatter: Formatter, timeFormat: string, out: Writer)

  /** What NewLogger sets before it applies any option: the zero level All, the
      default template, the RFC 3339 layout and standard error. */
  const DEFAULTS: Config := Config(All, Text(DEFAULT_TEMPLATE), RFC3339, Stderr)

  /** The built-in options. */
  datatype Option =
    | WithLevel(level: Level)
    | WithMessageTemplate(tmplText: string)
    | WithFormatter(fmt: Formatter)
    | WithOutput(out: Writer)

  datatype Field = LevelField | FormatterField | TimeFormatField | OutField

  /** The one field an option writes. */
  function Target(o: Option): Field {
    match o
    case WithLevel(_) => LevelField
    case WithMessageTemplate(_) => FormatterField
    case WithFormatter(_) => FormatterField
    case WithOutput(_) => OutField
  }

  /** `c` and `d` hold the same value in field `f`. */
  predicate AgreeOn(c: Config, d: Config, f: Field) {
    match f
    case LevelField => c.level == d.level
    case FormatterField => c.formatter == d.formatter
    case TimeFormatField => c.timeFormat == d.timeFormat
    case OutField => c.out == d.out
  }

  /** The value `o` puts in its field is the one `c` holds there. */
  predicate Holds(o: Option, c: Config) {
    match o
    case WithLevel(l) => c.level == l
    case WithMessageTemplate(t) => c.formatter == Text(t)
    case WithFormatter(f) => c.formatter == f
    case WithOutput(w) => c.out == w
  }

  /** What applying `o` to a logger whose configuration is `c` leaves behind: the
      option's value in its own field, every other field untouched. */
  function ApplyTo(c: Config, o: Option): (d: Config)
    ensures Holds(o, d)
    ensures forall f :: f != Target(o) ==> AgreeOn(c, d, f)
  {
    match o
    case WithLevel(l) => c.(level := l)
    case WithMessageTemplate(t) => c.(formatter := Text(t))
    case WithFormatter(f) => c.(formatter := f)
    case WithOutput(w) => c.(out := w)
  }

  /** The options applied one after another, first to last. */
  function ApplyAll(c: Config, opts: seq<Option>): (d: Config)
    ensures forall f :: NoneWrites(opts, f) ==> AgreeOn(c, d, f)
    decreases |opts|
  {
    if opts == [] then c
    else
      assert forall f :: NoneWrites(opts, f) ==> NoneWrites(opts[1..], f) && f != Target(opts[0]);
      ApplyAll(ApplyTo(c, opts[0]), opts[1..])
  }

  /** No option in `opts` writes field `f`. */
  predicate NoneWrites(opts: seq<Option>, f: Field) {
    forall i :: 0 <= i < |opts| ==> Target(opts[i]) != f
  }

  /** The configuration of `NewLogger(opts...)`: the time layout is always RFC 3339,
      and every field no option writes keeps its default. */
  function NewConfig(opts: seq<Option>): (c: Config)
    ensures c.timeFormat == RFC3339
    ensures NoneWrites(opts, LevelField) ==> c.level == All
    ensures NoneWrites(opts, FormatterField) ==> c.formatter == Text(DEFAULT_TEMPLATE)
    ensures NoneWrites(opts, OutField) ==> c.out == Stderr
  {
    assert NoneWrites(opts, TimeFormatField);
    ApplyAll(DEFAULTS, opts)
  }

  /** The last option in `opts` that writes field `f`, if any. */
  function LastFor(opts: seq<Option>, f: Field): (r: Optional<Option>)
    ensures r.Some? ==> Target(r.value) == f && r.value in opts
    ensures r.None? <==> NoneWrites(opts, f)
    decreases |opts|
  {
    if opts == [] then None
    else if Target(opts[|opts| - 1]) == f then Some(opts[|opts| - 1])
    else LastFor(opts[..|opts| - 1], f)
  }

  /** Applying one more option after a list is applying it to the list's result. */
  lemma {:induction false} ApplyAllSnoc(c: Config, opts: seq<Option>, o: Option)
    ensures ApplyAll(c, opts + [o]) == ApplyTo(ApplyAll(c, opts), o)
    decreases |opts|
  {
    if opts == [] {
      assert opts + [o] == [o];
    } else {
      assert (opts + [o])[1..] == opts[1..] + [o];
      ApplyAllSnoc(ApplyTo(c, opts[0]), opts[1..], o);
    }
  }

  /** Last writer wins: for every field, the configuration after applying `opts`
      holds the value of the last option that writes that field, and the starting
      value where no option writes it. */
  lemma {:induction false} LastWriterWins(c: Config, opts: seq<Option>, f: Field)
    ensures LastFor(opts, f).Some? ==> Holds(LastFor(opts, f).value, ApplyAll(c, opts))
    ensures LastFor(opts, f).None? ==> AgreeOn(c, ApplyAll(c, opts), f)
    decreases |opts|
  {
    if opts != [] {
      var init, o := opts[..|opts| - 1], opts[|opts| - 1];
      assert opts == init + [o];
      ApplyAllSnoc(c, init, o);
      LastWriterWins(c, init, f);
      if Target(o) != f {
        var before := ApplyAll(c, init);
        var after := ApplyTo(before, o);
        assert AgreeOn(before, after, f);
        match LastFor(init, f)
        case None =>
        case Some(p) =>
          assert Holds(p, before);
          assert Target(p) == f;
      }
    }
  }

  /** No option writes the time layout, so every logger keeps RFC 3339. */
  lemma {:induction false} TimeFormatIsFixed(c: Config, opts: seq<Option>)
    ensures ApplyAll(c, opts).timeFormat == c.timeFormat
    decreases |opts|
  {
    if opts != [] {
      TimeFormatIsFixed(ApplyTo(c, opts[0]), opts[1..]);
    }
  }

  /** With no options NewLogger yields exactly the defaults. */
  lemma NewConfigDefaults()
    ensures NewConfig([]) == Config(All, Text("{{.Level}} - {{.Time}} - {{.Message}}\n"), "2006-01-02T15:04:05Z07:00", Stderr)
  {
  }

  /** The threshold of `NewLogger(WithLevel(Debug), WithLevel(Error))` is Error. */
  lemma LaterLevelOverrides()
    ensures NewConfig([WithLevel(Debug), WithLevel(Error)]).level == Error
  {
  }

  /** Applying the same option twice is the same as applying it once. */
  lemma ApplyIdempotent(c: Config, o: Option)
    ensures ApplyTo(ApplyTo(c, o), o) == ApplyTo(c, o)
  {
  }
}
