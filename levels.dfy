/** Severity levels of the logger: an ordered enumeration whose ordinals are
    assigned by `iota`, the admission rule, and the table of level names. */
module Levels {

  import opened Optionals

  datatype Level = All | Debug | Info | Warning | Error | Fatal | Off

  /** Every level, in increasing order of severity. */
  const LEVELS: seq<Level> := [All, Debug, Info, Warning, Error, Fatal, Off]

  /** The integer value `iota` gives each constant: All is the zero value. */
  function Ordinal(l: Level): (n: nat)
    ensures n < |LEVELS| && LEVELS[n] == l
  {
    match l
    case All => 0
    case Debug => 1
    case Info => 2
    case Warning => 3
    case Error => 4
    case Fatal => 5
    case Off => 6
  }

  /** The level whose integer value is `n`, if there is one. */
  function FromOrdinal(n: int): (r: Optional<Level>)
    ensures r.Some? <==> 0 <= n < |LEVELS|
    ensures r.Some? ==> Ordinal(r.value) == n
  {
    if 0 <= n < |LEVELS| then Some(LEVELS[n]) else None
  }

  /** The dispatch test: a call at `level` goes through iff `level >= threshold`. */
  predicate Admits(threshold: Level, level: Level)
    ensures Admits(threshold, level) <==> threshold in LEVELS[..Ordinal(level) + 1]
  {
    Ordinal(level) >= Ordinal(threshold)
  }

  /** The levels a severity method can log at (All and Off are thresholds only). */
  predicate IsSeverity(l: Level) {
    l != All && l != Off
  }

  /** The `levelDescription` table; Info has no entry. */
  const LEVEL_DESCRIPTION: map<Level, string> :=
    map[Debug := "DEBUG", Warning := "WARNING", Error := "ERROR", Fatal := "FATAL"]

  /** `levelDescription[l]`: a missing key yields Go's zero string. */
  function Describe(l: Level): (name: string)
    ensures name == "" <==> l == All || l == Info || l == Off
    ensures forall i :: 0 <= i < |name| ==> 'A' <= name[i] <= 'Z'
  {
    if l in LEVEL_DESCRIPTION then LEVEL_DESCRIPTION[l]
    else
      assert l != Debug && l != Warning && l != Error && l != Fatal;
      ""
  }

  /** The levels are listed in strictly increasing order of their ordinals,
      and the ordinals are exactly 0..6. */
  lemma StrictlyIncreasing(i: nat, j: nat)
    requires i < j < |LEVELS|
    ensures Ordinal(LEVELS[i]) == i && Ordinal(LEVELS[j]) == j
    ensures Ordinal(LEVELS[i]) < Ordinal(LEVELS[j])
  {
  }

  /** `Ordinal` and `FromOrdinal` are inverse on the seven constants. */
  lemma OrdinalRoundTrip(l: Level)
    ensures FromOrdinal(Ordinal(l)) == Some(l)
  {
  }

  /** Admission is a total preorder that orders levels exactly like their ordinals. */
  lemma AdmitsIsTotalOrder(a: Level, b: Level, c: Level)
    ensures Admits(a, a)
    ensures Admits(a, b) || Admits(b, a)
    ensures Admits(a, b) && Admits(b, a) ==> a == b
    ensures Admits(a, b) && Admits(b, c) ==> Admits(a, c)
  {
  }

  /** Threshold All admits every level; threshold Off admits no severity level. */
  lemma ThresholdExtremes(l: Level)
    ensures Admits(All, l)
    ensures IsSeverity(l) ==> !Admits(Off, l)
  {
  }

  /** The table names Debug, Warning, Error and Fatal with distinct names, and gives
      Info (like All and Off) the empty name. */
  lemma DescriptionTable()
    ensures Describe(Debug) == "DEBUG" && Describe(Warning) == "WARNING"
    ensures Describe(Error) == "ERROR" && Describe(Fatal) == "FATAL"
    ensures Describe(Info) == "" && Describe(All) == "" && Describe(Off) == ""
  {
  }

  /** Two levels that both have a name have the same name only if they are the same. */
  lemma DescriptionInjective(a: Level, b: Level)
    requires Describe(a) != "" && Describe(a) == Describe(b)
    ensures a == b
  {
  }
}
