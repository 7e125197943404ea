/**
 Changes of one account that overlap. Each reads its token version and later writes it back raised by
 one; requests run side by side, so others may read and write in between.
 */
module VersionRaces {

  /** What a change read, and how many others have written since. */
  datatype Reading = Reading(version: nat, since: nat)

  datatype State = State(version: nat, open: map<nat, Reading>)

  datatype Event = Read(id: nat) | Write(id: nat)

  predicate Enabled(s: State, e: Event) { if e.Read? then e.id !in s.open else e.id in s.open }

  function Next(s: State, e: Event): State
    requires Enabled(s, e)
  {
    match e
    case Read(id) => s.(open := s.open[id := Reading(s.version, 0)])
    case Write(id) =>
      State(s.open[id].version + 1,
            map k | k in s.open && k != id :: Reading(s.open[k].version, s.open[k].since + 1))
  }

  predicate Play(s: State, es: seq<Event>)
    decreases |es|
  {
    es == [] || (Enabled(s, es[0]) && Play(Next(s, es[0]), es[1..]))
  }

  function Run(s: State, es: seq<Event>): State
    requires Play(s, es)
    decreases |es|
  {
    if es == [] then s else Run(Next(s, es[0]), es[1..])
  }

  /** No change writes after two others have since it read. */
  predicate AtMostOneBetween(s: State, es: seq<Event>)
    requires Play(s, es)
    decreases |es|
  {
    es == [] ||
    ((es[0].Write? ==> s.open[es[0].id].since <= 1) && AtMostOneBetween(Next(s, es[0]), es[1..]))
  }

  /** The version is never behind what was read, nor further ahead than there were writes. */
  ghost predicate InStep(s: State) {
    forall id :: id in s.open ==> s.open[id].version <= s.version <= s.open[id].version + s.open[id].since
  }

  /** A write takes the version back exactly if it has risen by two or more since its read. */
  lemma {:induction false} LowersIff(s: State, id: nat)
    requires Enabled(s, Write(id))
    ensures Next(s, Write(id)).version < s.version <==> s.version >= s.open[id].version + 2
    ensures s.version == s.open[id].version ==> Next(s, Write(id)).version == s.version + 1
  {
  }

  /** Over every run in which no change writes after two others have since it read, the version never goes back. */
  lemma {:induction false} OneBetweenIsSafe(s: State, es: seq<Event>)
    requires InStep(s) && Play(s, es) && AtMostOneBetween(s, es)
    ensures InStep(Run(s, es)) && s.version <= Run(s, es).version
    decreases |es|
  {
    if es != [] {
      OneBetweenIsSafe(Next(s, es[0]), es[1..]);
    }
  }

  lemma {:induction false} First(s: State, e: Event, es: seq<Event>)
    requires Enabled(s, e) && Play(Next(s, e), es)
    ensures Play(s, [e] + es) && Run(s, [e] + es) == Run(Next(s, e), es)
  {
  }

  lemma {:induction false} Two(s: State, a: Event, b: Event)
    requires Enabled(s, a) && Enabled(Next(s, a), b)
    ensures Play(s, [a, b]) && Run(s, [a, b]) == Next(Next(s, a), b)
  {
    First(Next(s, a), b, []);
    First(s, a, [b] + []);
    assert [a] + ([b] + []) == [a, b];
  }

  const READS := [Read(0), Read(1)]
  const SIX := [Write(1), Read(2)]
  const SEVEN := [Write(2), Write(0)]

  /**
   With two in between it does: once the second of three overlapping changes has written, tokens are
   issued for version 6, which the third makes 7 and the first, that had read 5, makes 6 again. A
   token that was refused for its version is accepted once more.
   */
  lemma {:induction false} RefusedVersionComesBack()
    ensures Play(State(5, map[]), READS)
    ensures var s := Run(State(5, map[]), READS);
      && Play(s, SIX) && Run(s, SIX).version == 6
      && Play(Run(s, SIX), SEVEN) && Next(Run(s, SIX), Write(2)).version == 7 && Run(Run(s, SIX), SEVEN).version == 6
  {
    var s := State(5, map[]);
    Two(s, Read(0), Read(1));
    var s2 := Next(Next(s, Read(0)), Read(1));
    assert s2 == State(5, map[0 := Reading(5, 0), 1 := Reading(5, 0)]);
    Two(s2, Write(1), Read(2));
    var s4 := Next(Next(s2, Write(1)), Read(2));
    assert s4 == State(6, map[0 := Reading(5, 1), 2 := Reading(6, 0)]);
    Two(s4, Write(2), Write(0));
  }
}
