/**
 Putting the limits on systemd units. Every call to systemd may fail; what was set successfully is
 recorded, so that a later pass touches only what changed.
 */
module LimitsApplier {
  import opened Wrappers
  import opened LimitsNames
  import opened LimitsConfig

  // ---------------------------------------------------------------- properties of one unit

  /** One `Property=value` of a set-property call; None stands for infinity or an empty value. */
  datatype Assignment =
    | CpuQuota(percent: Option<nat>)
    | MemoryHigh(mb: Option<nat>)
    | MemoryMax(mb: Option<nat>)
    | MemorySwapMax(off: bool)
    | TasksMax(tasks: Option<nat>)
    | ReadReset
    | WriteReset
    | ReadMax(path: string, mbps: nat)
    | WriteMax(path: string, mbps: nat)

  type Properties = seq<Assignment>

  function OrUnlimited(n: nat): Option<nat> { if n == 0 then None else Some(n) }

  function HighMark(memory: nat): nat { if memory * 9 / 10 > 1 then memory * 9 / 10 else 1 }

  function PropertiesOf(l: Limits, ioPath: string): Properties {
    [CpuQuota(OrUnlimited(l.cpu)),
     MemoryHigh(if l.memory == 0 then None else Some(HighMark(l.memory))),
     MemoryMax(OrUnlimited(l.memory)),
     MemorySwapMax(l.memory != 0),
     TasksMax(OrUnlimited(l.tasks)),
     ReadReset,
     WriteReset]
    + (ReadCap(l, ioPath) + WriteCap(l, ioPath))
  }

  function ReadCap(l: Limits, ioPath: string): Properties {
    if l.read == 0 then [] else [ReadMax(ioPath, l.read)]
  }

  function WriteCap(l: Limits, ioPath: string): Properties {
    if l.write == 0 then [] else [WriteMax(ioPath, l.write)]
  }

  /** What systemd holds for a unit. Bandwidth limits are lists, one entry a path. */
  datatype UnitState = UnitState(
    cpu: Option<nat>, high: Option<nat>, max: Option<nat>, swapOff: bool, tasks: Option<nat>,
    readCaps: map<string, nat>, writeCaps: map<string, nat>)

  const DEFAULT := UnitState(None, None, None, false, None, map[], map[])

  /** An empty bandwidth value clears the list, any other adds to it; the rest are replaced. */
  function Assign(u: UnitState, a: Assignment): UnitState {
    match a
    case CpuQuota(percent) => u.(cpu := percent)
    case MemoryHigh(mb) => u.(high := mb)
    case MemoryMax(mb) => u.(max := mb)
    case MemorySwapMax(off) => u.(swapOff := off)
    case TasksMax(tasks) => u.(tasks := tasks)
    case ReadReset => u.(readCaps := map[])
    case WriteReset => u.(writeCaps := map[])
    case ReadMax(path, mbps) => u.(readCaps := u.readCaps[path := mbps])
    case WriteMax(path, mbps) => u.(writeCaps := u.writeCaps[path := mbps])
  }

  function AssignAll(u: UnitState, props: Properties): UnitState
    decreases |props|
  {
    if props == [] then u else AssignAll(Assign(u, props[0]), props[1..])
  }

  /** What a set of limits means, whatever the unit held before. */
  function Meaning(l: Limits, ioPath: string): UnitState {
    UnitState(
      OrUnlimited(l.cpu),
      if l.memory == 0 then None else Some(HighMark(l.memory)), OrUnlimited(l.memory), l.memory != 0,
      OrUnlimited(l.tasks),
      if l.read == 0 then map[] else map[ioPath := l.read],
      if l.write == 0 then map[] else map[ioPath := l.write])
  }

  lemma {:induction false} AssignAllAppend(u: UnitState, a: Properties, b: Properties)
    ensures AssignAll(u, a + b) == AssignAll(AssignAll(u, a), b)
    decreases |a|
  {
    if a == [] {
      assert a + b == b;
    } else {
      assert (a + b)[1..] == a[1..] + b;
      AssignAllAppend(Assign(u, a[0]), a[1..], b);
    }
  }

  lemma {:induction false} AssignFour(u: UnitState, a: Assignment, b: Assignment, c: Assignment, d: Assignment,
                                      rest: Properties)
    ensures AssignAll(u, [a, b, c, d] + rest) == AssignAll(Assign(Assign(Assign(Assign(u, a), b), c), d), rest)
  {
    var p := [a, b, c, d] + rest;
    assert p[1..] == [b, c, d] + rest;
    assert p[1..][1..] == [c, d] + rest;
    assert p[1..][1..][1..] == [d] + rest;
    assert p[1..][1..][1..][1..] == rest;
    AssignAllAppend(u, [a, b, c, d], rest);
    var u1 := Assign(u, a);
    var u2 := Assign(u1, b);
    var u3 := Assign(u2, c);
    assert AssignAll(u, p) == AssignAll(u1, p[1..]) == AssignAll(u2, p[1..][1..]);
    assert AssignAll(u2, p[1..][1..]) == AssignAll(u3, p[1..][1..][1..]) == AssignAll(Assign(u3, d), rest);
  }

  lemma {:induction false} AssignThree(u: UnitState, a: Assignment, b: Assignment, c: Assignment)
    ensures AssignAll(u, [a, b, c]) == Assign(Assign(Assign(u, a), b), c)
  {
    var p := [a, b, c];
    assert p[1..] == [b, c] && p[1..][1..] == [c] && p[1..][1..][1..] == [];
    var u1 := Assign(u, a);
    assert AssignAll(u1, p[1..]) == AssignAll(Assign(u1, b), p[1..][1..]);
  }

  /** The lists of bandwidth limits a unit ends with: cleared, then at most one path. */
  lemma {:induction false} AssignBandwidth(u: UnitState, l: Limits, ioPath: string)
    requires u.readCaps == map[] && u.writeCaps == map[]
    ensures AssignAll(u, ReadCap(l, ioPath) + WriteCap(l, ioPath)) ==
              u.(readCaps := if l.read == 0 then map[] else map[ioPath := l.read],
                 writeCaps := if l.write == 0 then map[] else map[ioPath := l.write])
  {
    AssignAllAppend(u, ReadCap(l, ioPath), WriteCap(l, ioPath));
    var u1 := AssignAll(u, ReadCap(l, ioPath));
    assert l.read != 0 ==> [ReadMax(ioPath, l.read)][1..] == [] && u1 == Assign(u, ReadMax(ioPath, l.read));
    assert l.write != 0 ==> [WriteMax(ioPath, l.write)][1..] == [] &&
                            AssignAll(u1, WriteCap(l, ioPath)) == Assign(u1, WriteMax(ioPath, l.write));
  }

  /**
   A successful call leaves the unit with exactly these limits, nothing of what it held before;
   processes are throttled no later than they are stopped; and no limits at all is the default.
   */
  lemma {:induction false} PropertiesReplaceEverything(u: UnitState, l: Limits, ioPath: string)
    ensures AssignAll(u, PropertiesOf(l, ioPath)) == Meaning(l, ioPath)
    ensures l.memory > 0 ==>
              var m := Meaning(l, ioPath); m.high.Some? && m.max.Some? && 1 <= m.high.value <= m.max.value
    ensures Meaning(l, ioPath) == DEFAULT <==> l == UNLIMITED
  {
    var p := PropertiesOf(l, ioPath);
    var tail := ReadCap(l, ioPath) + WriteCap(l, ioPath);
    assert p == [p[0], p[1], p[2], p[3]] + (p[4..7] + tail);
    AssignFour(u, p[0], p[1], p[2], p[3], p[4..7] + tail);
    var u4 := Assign(Assign(Assign(Assign(u, p[0]), p[1]), p[2]), p[3]);
    AssignAllAppend(u4, p[4..7], tail);
    assert p[4..7] == [p[4], p[5], p[6]];
    AssignThree(u4, p[4], p[5], p[6]);
    AssignBandwidth(Assign(Assign(Assign(u4, p[4]), p[5]), p[6]), l, ioPath);
    assert ioPath in map[ioPath := l.read] && ioPath in map[ioPath := l.write];
  }

  /** A list of properties that leaves nothing of what the unit held before. */
  ghost predicate Total(props: Properties) {
    exists l, ioPath :: props == PropertiesOf(l, ioPath)
  }

  ghost function StateFor(props: Properties): UnitState { AssignAll(DEFAULT, props) }

  lemma {:induction false} TotalIgnoresThePast(u: UnitState, props: Properties)
    requires Total(props)
    ensures AssignAll(u, props) == StateFor(props)
  {
    var l, ioPath :| props == PropertiesOf(l, ioPath);
    PropertiesReplaceEverything(u, l, ioPath);
    PropertiesReplaceEverything(DEFAULT, l, ioPath);
  }

  // ---------------------------------------------------------------- all units

  type Live = map<string, UnitState>
  type Recorded = map<string, Properties>

  function StateOf(live: Live, unit: string): UnitState {
    if unit in live then live[unit] else DEFAULT
  }

  /** The units a pass calls systemd for. */
  predicate Called(applied: Recorded, wanted: Recorded, force: bool, unit: string) {
    if unit in wanted then force || unit !in applied || applied[unit] != wanted[unit] else unit in applied
  }

  predicate Changed(applied: Recorded, wanted: Recorded, force: bool, failed: set<string>, unit: string) {
    Called(applied, wanted, force, unit) && unit !in failed
  }

  function EntryOf(r: Recorded, unit: string): Option<Properties> {
    if unit in r then Some(r[unit]) else None
  }

  /** What the record says of a unit after a pass: only a successful call changes it. */
  function NextEntry(applied: Recorded, wanted: Recorded, force: bool, failed: set<string>, unit: string)
    : Option<Properties>
  {
    EntryOf(if Changed(applied, wanted, force, failed, unit) then wanted else applied, unit)
  }

  function NextApplied(applied: Recorded, wanted: Recorded, force: bool, failed: set<string>): Recorded {
    map unit | unit in applied.Keys + wanted.Keys && NextEntry(applied, wanted, force, failed, unit).Some?
      :: NextEntry(applied, wanted, force, failed, unit).value
  }

  function NextState(live: Live, applied: Recorded, wanted: Recorded, unlimited: Properties,
                     force: bool, failed: set<string>, unit: string): UnitState {
    if !Changed(applied, wanted, force, failed, unit) then StateOf(live, unit)
    else AssignAll(StateOf(live, unit), if unit in wanted then wanted[unit] else unlimited)
  }

  /** The systemd state a set of wanted properties describes: everything else is unlimited. */
  ghost function Target(wanted: Recorded, unit: string): UnitState {
    if unit in wanted then StateFor(wanted[unit]) else DEFAULT
  }

  ghost predicate AllTotal(r: Recorded) { forall unit :: unit in r ==> Total(r[unit]) }

  /** What is recorded is what systemd holds. */
  ghost predicate Agrees(applied: Recorded, live: Live) {
    && AllTotal(applied)
    && forall unit :: unit in applied ==> StateOf(live, unit) == StateFor(applied[unit])
  }

  /** Every limited unit is recorded. */
  ghost predicate Covers(applied: Recorded, live: Live) {
    forall unit :: unit !in applied ==> StateOf(live, unit) == DEFAULT
  }

  /** `live'` is what a pass makes of `live`. */
  ghost predicate Passed(live: Live, live': Live, applied: Recorded, wanted: Recorded, unlimited: Properties,
                         force: bool, failed: set<string>) {
    forall unit :: StateOf(live', unit) == NextState(live, applied, wanted, unlimited, force, failed, unit)
  }

  lemma {:induction false} UnlimitedIsDefault(ioPath: string)
    ensures Total(PropertiesOf(UNLIMITED, ioPath)) && StateFor(PropertiesOf(UNLIMITED, ioPath)) == DEFAULT
  {
    PropertiesReplaceEverything(DEFAULT, UNLIMITED, ioPath);
  }

  // ---------------------------------------------------------------- what a pass keeps and reaches

  /** Whatever fails, the record stays true and complete. */
  lemma {:induction false} PassKeepsTheRecordTrue(live: Live, live': Live, applied: Recorded, wanted: Recorded,
                                                  ioPath: string, force: bool, failed: set<string>)
    requires AllTotal(wanted) && Agrees(applied, live) && Covers(applied, live)
    requires Passed(live, live', applied, wanted, PropertiesOf(UNLIMITED, ioPath), force, failed)
    ensures var applied' := NextApplied(applied, wanted, force, failed);
            Agrees(applied', live') && Covers(applied', live')
  {
    forall unit
      ensures var entry := NextEntry(applied, wanted, force, failed, unit);
        if entry.Some? then Total(entry.value) && StateOf(live', unit) == StateFor(entry.value)
        else StateOf(live', unit) == DEFAULT
    {
      assert StateOf(live', unit) ==
             NextState(live, applied, wanted, PropertiesOf(UNLIMITED, ioPath), force, failed, unit);
      UnitStaysTrue(live, applied, wanted, ioPath, force, failed, unit);
    }
  }

  /** What a pass leaves a unit with is what it leaves in the record, if anything. */
  lemma {:induction false} UnitStaysTrue(live: Live, applied: Recorded, wanted: Recorded, ioPath: string, force: bool,
                                         failed: set<string>, unit: string)
    requires unit in wanted ==> Total(wanted[unit])
    requires unit in applied ==> Total(applied[unit]) && StateOf(live, unit) == StateFor(applied[unit])
    requires unit !in applied ==> StateOf(live, unit) == DEFAULT
    ensures var entry := NextEntry(applied, wanted, force, failed, unit);
      var state := NextState(live, applied, wanted, PropertiesOf(UNLIMITED, ioPath), force, failed, unit);
      if entry.Some? then Total(entry.value) && state == StateFor(entry.value) else state == DEFAULT
  {
    UnlimitedIsDefault(ioPath);
    TotalIgnoresThePast(StateOf(live, unit),
                        if unit in wanted then wanted[unit] else PropertiesOf(UNLIMITED, ioPath));
  }

  /** With no failed call every wanted unit has its limits and every other unit has none. */
  lemma {:induction false} PassReachesTarget(live: Live, live': Live, applied: Recorded, wanted: Recorded,
                                             ioPath: string, force: bool)
    requires AllTotal(wanted) && Covers(applied, live) && (!force ==> Agrees(applied, live))
    requires Passed(live, live', applied, wanted, PropertiesOf(UNLIMITED, ioPath), force, {})
    ensures forall unit :: StateOf(live', unit) == Target(wanted, unit)
  {
    UnlimitedIsDefault(ioPath);
    forall unit ensures StateOf(live', unit) == Target(wanted, unit) {
      UnitReachesTarget(live, applied, wanted, ioPath, force, unit);
    }
  }

  /** With no failed call the record becomes what was wanted. */
  lemma {:induction false} PassRecordsWanted(applied: Recorded, wanted: Recorded, force: bool)
    ensures NextApplied(applied, wanted, force, {}) == wanted
  {
  }

  lemma {:induction false} UnitReachesTarget(live: Live, applied: Recorded, wanted: Recorded, ioPath: string,
                                             force: bool, unit: string)
    requires unit in wanted ==> Total(wanted[unit])
    requires unit !in applied ==> StateOf(live, unit) == DEFAULT
    requires !force && unit in applied ==> StateOf(live, unit) == StateFor(applied[unit])
    ensures NextState(live, applied, wanted, PropertiesOf(UNLIMITED, ioPath), force, {}, unit) == Target(wanted, unit)
  {
    UnlimitedIsDefault(ioPath);
    TotalIgnoresThePast(StateOf(live, unit),
                        if unit in wanted then wanted[unit] else PropertiesOf(UNLIMITED, ioPath));
  }

  /**
   With no failed call, an incremental pass and a forced one reach the same systemd state: every
   wanted unit has its limits and every other unit, the dropped ones included, has none.
   */
  lemma {:induction false} IncrementalReachesWhatForcedReaches(live: Live, inc: Live, forced: Live, applied: Recorded,
                                            wanted: Recorded, ioPath: string)
    requires AllTotal(wanted) && Agrees(applied, live) && Covers(applied, live)
    requires Passed(live, inc, applied, wanted, PropertiesOf(UNLIMITED, ioPath), false, {})
    requires Passed(live, forced, applied, wanted, PropertiesOf(UNLIMITED, ioPath), true, {})
    ensures forall unit :: StateOf(inc, unit) == StateOf(forced, unit) == Target(wanted, unit)
    ensures NextApplied(applied, wanted, false, {}) == NextApplied(applied, wanted, true, {}) == wanted
  {
    PassReachesTarget(live, inc, applied, wanted, ioPath, false);
    PassReachesTarget(live, forced, applied, wanted, ioPath, true);
    PassRecordsWanted(applied, wanted, false);
    PassRecordsWanted(applied, wanted, true);
  }

  /** After a reboot nothing is limited and the record may say anything: a forced pass repairs it. */
  lemma {:induction false} ForcedPassAfterReboot(live': Live, applied: Recorded, wanted: Recorded, ioPath: string)
    requires AllTotal(wanted)
    requires Passed(map[], live', applied, wanted, PropertiesOf(UNLIMITED, ioPath), true, {})
    ensures NextApplied(applied, wanted, true, {}) == wanted
    ensures Agrees(wanted, live') && Covers(wanted, live')
    ensures forall unit :: StateOf(live', unit) == Target(wanted, unit)
  {
    PassReachesTarget(map[], live', applied, wanted, ioPath, true);
    PassRecordsWanted(applied, wanted, true);
  }

  /** The units an incremental pass makes no call for. */
  predicate Skipped(applied: Recorded, wanted: Recorded, unit: string) {
    !Called(applied, wanted, false, unit)
  }

  /**
   In general an incremental pass with no failed call reaches its target exactly when the units it
   skips are already where they should be.
   */
  lemma {:induction false} IncrementalReachesTargetIff(live: Live, live': Live, applied: Recorded, wanted: Recorded,
                                                       ioPath: string)
    requires AllTotal(wanted)
    requires Passed(live, live', applied, wanted, PropertiesOf(UNLIMITED, ioPath), false, {})
    ensures (forall unit :: StateOf(live', unit) == Target(wanted, unit)) <==>
            forall unit :: Skipped(applied, wanted, unit) ==> StateOf(live, unit) == Target(wanted, unit)
  {
    var unlimited := PropertiesOf(UNLIMITED, ioPath);
    UnlimitedIsDefault(ioPath);
    forall unit
      ensures Skipped(applied, wanted, unit) ==> StateOf(live', unit) == StateOf(live, unit)
      ensures !Skipped(applied, wanted, unit) ==> StateOf(live', unit) == Target(wanted, unit)
    {
      assert StateOf(live', unit) == NextState(live, applied, wanted, unlimited, false, {}, unit);
      TotalIgnoresThePast(StateOf(live, unit), if unit in wanted then wanted[unit] else unlimited);
    }
  }

  /** One pass of a run: a configuration, whether it is forced, and the calls that failed. */
  datatype Pass = Pass(wanted: Recorded, ioPath: string, force: bool, failed: set<string>)

  /** The states systemd goes through over a run, starting from `states[0]`. */
  ghost predicate IsRun(applied: Recorded, passes: seq<Pass>, states: seq<Live>)
    decreases |passes|
  {
    && |states| == |passes| + 1
    && (passes != [] ==>
          && AllTotal(passes[0].wanted)
          && Passed(states[0], states[1], applied, passes[0].wanted, PropertiesOf(UNLIMITED, passes[0].ioPath),
                    passes[0].force, passes[0].failed)
          && IsRun(NextApplied(applied, passes[0].wanted, passes[0].force, passes[0].failed),
                   passes[1..], states[1..]))
  }

  function RecordAfter(applied: Recorded, passes: seq<Pass>): Recorded
    decreases |passes|
  {
    if passes == [] then applied
    else RecordAfter(NextApplied(applied, passes[0].wanted, passes[0].force, passes[0].failed), passes[1..])
  }

  /** Over every run of passes, with any failures, the record agrees with systemd and misses nothing. */
  lemma {:induction false} RunKeepsTheRecordTrue(applied: Recorded, passes: seq<Pass>, states: seq<Live>)
    requires IsRun(applied, passes, states)
    requires Agrees(applied, states[0]) && Covers(applied, states[0])
    ensures Agrees(RecordAfter(applied, passes), states[|passes|])
    ensures Covers(RecordAfter(applied, passes), states[|passes|])
    decreases |passes|
  {
    if passes != [] {
      var p := passes[0];
      PassKeepsTheRecordTrue(states[0], states[1], applied, p.wanted, p.ioPath, p.force, p.failed);
      RunKeepsTheRecordTrue(NextApplied(applied, p.wanted, p.force, p.failed), passes[1..], states[1..]);
    }
  }

  /** Incremental passes that all want what the record says the unit has. */
  ghost predicate WantsAsRecorded(passes: seq<Pass>, unit: string, props: Properties) {
    forall i :: 0 <= i < |passes| ==>
      !passes[i].force && unit in passes[i].wanted && passes[i].wanted[unit] == props
  }

  /**
   The failing case: after a reboot the forced call for a unit fails and its old record stays. From
   then on, over every run of incremental passes, failures or not, the unit has no limits for as long
   as the same ones are wanted for it.
   */
  lemma {:induction false} StaleRecordIsNeverRepaired(applied: Recorded, wanted: Recorded, failed: set<string>,
                                                      passes: seq<Pass>, states: seq<Live>, unit: string)
    requires unit in applied && unit in wanted && applied[unit] == wanted[unit] && unit in failed
    requires IsRun(NextApplied(applied, wanted, true, failed), passes, states)
    requires StateOf(states[0], unit) == DEFAULT && WantsAsRecorded(passes, unit, wanted[unit])
    ensures StateOf(states[|passes|], unit) == DEFAULT
    ensures StateFor(wanted[unit]) != DEFAULT ==> StateOf(states[|passes|], unit) != Target(wanted, unit)
  {
    assert EntryOf(NextApplied(applied, wanted, true, failed), unit) == Some(wanted[unit]);
    SkippedStaysAsItIs(NextApplied(applied, wanted, true, failed), passes, states, unit, wanted[unit]);
  }

  lemma {:induction false} SkippedStaysAsItIs(applied: Recorded, passes: seq<Pass>, states: seq<Live>, unit: string,
                                              props: Properties)
    requires IsRun(applied, passes, states) && EntryOf(applied, unit) == Some(props)
    requires WantsAsRecorded(passes, unit, props)
    ensures StateOf(states[|passes|], unit) == StateOf(states[0], unit)
    decreases |passes|
  {
    if passes != [] {
      var p := passes[0];
      assert !p.force && unit in p.wanted && p.wanted[unit] == props;
      SkippedStaysAsItIs(NextApplied(applied, p.wanted, p.force, p.failed), passes[1..], states[1..], unit, props);
    }
  }

  // ---------------------------------------------------------------- the wanted units of a configuration

  /** The unit is an account's own slice, or the login slice of one of its uids. */
  ghost predicate BelongsTo(c: Config, account: string, unit: string)
    requires account in c.accounts
  {
    || unit == account
    || (c.accounts[account].sessions && exists u: nat :: u in c.accounts[account].uids && unit == UserSlice(u))
  }

  /** Each unit carries the limits of exactly one group or account, and there is no other unit. */
  ghost predicate Carries(c: Config, wanted: Recorded) {
    && (forall g :: g in c.groups ==> g in wanted && wanted[g] == PropertiesOf(c.groups[g], c.ioPath))
    && (forall a, unit :: a in c.accounts && BelongsTo(c, a, unit) ==>
          unit in wanted && wanted[unit] == PropertiesOf(c.accounts[a].limits, c.ioPath))
    && (forall unit :: unit in wanted ==>
          unit in c.groups || exists a :: a in c.accounts && BelongsTo(c, a, unit))
  }

  /** A unit of an account is its slice or a login slice, which is no slice of the tree. */
  lemma {:induction false} UnitKinds(c: Config, a: string, unit: string)
    requires WellFormed(c) && a in c.accounts && BelongsTo(c, a, unit)
    ensures unit !in c.groups
    ensures unit != a ==> unit !in c.accounts
  {
    if unit != a {
      var u: nat :| u in c.accounts[a].uids && unit == UserSlice(u);
      if unit in c.groups || unit in c.accounts { SliceIsNotLogin(unit, u); }
    }
  }

  /** Account and login slices never collide, so no unit has two owners. */
  lemma {:induction false} OneOwner(c: Config, a: string, b: string, unit: string)
    requires WellFormed(c) && a in c.accounts && b in c.accounts
    requires BelongsTo(c, a, unit) && BelongsTo(c, b, unit)
    ensures a == b && unit !in c.groups
  {
    UnitKinds(c, a, unit);
    UnitKinds(c, b, unit);
    if unit != a {
      assert unit != b;
      LoginOwners(c, a, b, unit);
    }
  }

  lemma {:induction false} LoginOwners(c: Config, a: string, b: string, unit: string)
    requires WellFormed(c) && a in c.accounts && b in c.accounts && unit != a && unit != b
    requires BelongsTo(c, a, unit) && BelongsTo(c, b, unit)
    ensures a == b
  {
    var u: nat :| u in c.accounts[a].uids && unit == UserSlice(u);
    var v: nat :| v in c.accounts[b].uids && unit == UserSlice(v);
    UserSliceInjective(u, v);
    SharedUidSameAccount(c, a, b, u);
  }

  // ---------------------------------------------------------------- building the wanted units

  /** The units of the groups and of the accounts in `done`, and those of no other account. */
  ghost predicate CarriesSome(c: Config, wanted: Recorded, done: set<string>) {
    && done <= c.accounts.Keys
    && (forall g :: g in c.groups ==> g in wanted && wanted[g] == PropertiesOf(c.groups[g], c.ioPath))
    && (forall a, unit :: a in done && BelongsTo(c, a, unit) ==>
          unit in wanted && wanted[unit] == PropertiesOf(c.accounts[a].limits, c.ioPath))
    && (forall unit :: unit in wanted ==> unit in c.groups || exists a :: a in done && BelongsTo(c, a, unit))
  }

  /** Every unit of the account is set, and what was there for other units stays. */
  ghost predicate SetsAccount(c: Config, before: Recorded, after: Recorded, account: string)
    requires account in c.accounts
  {
    && (forall unit :: BelongsTo(c, account, unit) ==>
          unit in after && after[unit] == PropertiesOf(c.accounts[account].limits, c.ioPath))
    && (forall unit :: !BelongsTo(c, account, unit) ==>
          (unit in after <==> unit in before) && (unit in before ==> after[unit] == before[unit]))
  }

  function WithUnits(before: Recorded, units: set<string>, props: Properties): Recorded {
    map unit | unit in before.Keys + units :: if unit in units then props else before[unit]
  }

  function LoginSlices(uids: set<int>): set<string> {
    set u | u in uids && u >= 0 :: UserSlice(u)
  }

  lemma {:induction false} LoginSlicesGrow(uids: set<int>, u: nat)
    ensures LoginSlices(uids + {u}) == LoginSlices(uids) + {UserSlice(u)}
  {
  }

  /** The login slices of an account's uids get the account's limits. */
  method SetLogins(before: Recorded, uids: set<int>, props: Properties) returns (wanted: Recorded)
    requires forall u :: u in uids ==> u >= 0
    ensures wanted == WithUnits(before, LoginSlices(uids), props)
  {
    wanted := before;
    var left := uids;
    while left != {}
      invariant left <= uids && forall u :: u in left ==> u >= 0
      invariant wanted == WithUnits(before, LoginSlices(uids - left), props)
      decreases left
    {
      var uid: int :| uid in left;
      LoginSlicesGrow(uids - left, uid);
      assert uids - (left - {uid}) == uids - left + {uid};
      wanted := wanted[UserSlice(uid) := props];
      left := left - {uid};
    }
    assert uids - left == uids;
  }

  method SetAccount(c: Config, account: string, before: Recorded) returns (wanted: Recorded)
    requires WellFormed(c) && account in c.accounts
    ensures SetsAccount(c, before, wanted, account)
  {
    var props := PropertiesOf(c.accounts[account].limits, c.ioPath);
    var uids := if c.accounts[account].sessions then c.accounts[account].uids else {};
    assert OwnsItsUids(c, account);
    wanted := SetLogins(before[account := props], uids, props);
  }

  lemma {:induction false} OneMoreAccountCarried(c: Config, before: Recorded, after: Recorded, done: set<string>,
                                                 account: string)
    requires WellFormed(c) && account in c.accounts && account !in done
    requires CarriesSome(c, before, done) && SetsAccount(c, before, after, account)
    ensures CarriesSome(c, after, done + {account})
  {
    forall g | g in c.groups ensures g in after && after[g] == PropertiesOf(c.groups[g], c.ioPath) {
      if BelongsTo(c, account, g) { OneOwner(c, account, account, g); }
    }
    forall a, unit | a in done + {account} && BelongsTo(c, a, unit)
      ensures unit in after && after[unit] == PropertiesOf(c.accounts[a].limits, c.ioPath)
    {
      if BelongsTo(c, account, unit) { OneOwner(c, a, account, unit); }
    }
    forall unit | unit in after
      ensures unit in c.groups || exists a :: a in done + {account} && BelongsTo(c, a, unit)
    {
      if !BelongsTo(c, account, unit) {
        assert unit in before;
      }
    }
  }

  /** The three loops at the start of a pass. */
  method BuildWanted(c: Config) returns (wanted: Recorded)
    requires WellFormed(c)
    ensures Carries(c, wanted) && AllTotal(wanted)
  {
    wanted := map g | g in c.groups :: PropertiesOf(c.groups[g], c.ioPath);
    var left: set<string>, done: set<string> := c.accounts.Keys, {};
    while left != {}
      invariant left + done == c.accounts.Keys && left !! done
      invariant CarriesSome(c, wanted, done)
      decreases left
    {
      var account :| account in left;
      ghost var before := wanted;
      wanted := SetAccount(c, account, wanted);
      OneMoreAccountCarried(c, before, wanted, done, account);
      left, done := left - {account}, done + {account};
    }
    assert done == c.accounts.Keys;
    forall unit | unit in wanted ensures Total(wanted[unit]) {
      if unit !in c.groups {
        var a :| a in c.accounts && BelongsTo(c, a, unit);
        assert wanted[unit] == PropertiesOf(c.accounts[a].limits, c.ioPath);
      }
    }
  }

  /** `Carries` leaves no choice: a configuration has one set of wanted units. */
  lemma {:induction false} WantedIsUnique(c: Config, w1: Recorded, w2: Recorded)
    requires Carries(c, w1) && Carries(c, w2)
    ensures w1 == w2
  {
  }

  // ---------------------------------------------------------------- from the document to systemd

  /** A limit as the document has it, if it sets one. */
  function Asked(raw: Json, key: string): Option<nat> {
    if raw.Object? && key in raw.fields && raw.fields[key].Int? && raw.fields[key].i > 0 then Some(raw.fields[key].i)
    else None
  }

  function OnPath(ioPath: string, asked: Option<nat>): map<string, nat> {
    if asked.Some? then map[ioPath := asked.value] else map[]
  }

  /** Nine tenths, rounded down, and at least one. */
  predicate NineTenths(high: nat, memory: nat) {
    if memory < 2 then high == 1 else 10 * high <= 9 * memory < 10 * (high + 1)
  }

  /** The unit has the limits written there, and throttles at nine tenths of its memory. */
  predicate Holds(u: UnitState, raw: Json, ioPath: string) {
    var memory := Asked(raw, "memory_mb");
    && u.cpu == Asked(raw, "cpu_percent")
    && u.max == memory && u.swapOff == memory.Some?
    && (if memory.Some? then u.high.Some? && NineTenths(u.high.value, memory.value) else u.high.None?)
    && u.tasks == Asked(raw, "process_limit")
    && u.readCaps == OnPath(ioPath, Asked(raw, "io_read_mbps"))
    && u.writeCaps == OnPath(ioPath, Asked(raw, "io_write_mbps"))
  }

  lemma {:induction false} SaidIsMeant(raw: Json, l: Limits, ioPath: string)
    requires SaysLimits(raw, l)
    ensures Holds(Meaning(l, ioPath), raw, ioPath)
  {
  }

  lemma {:induction false} SaidIsHeld(raw: Json, l: Limits, ioPath: string, u: UnitState)
    requires SaysLimits(raw, l) && u == StateFor(PropertiesOf(l, ioPath))
    ensures Holds(u, raw, ioPath)
  {
    PropertiesReplaceEverything(DEFAULT, l, ioPath);
    SaidIsMeant(raw, l, ioPath);
  }

  /** The unit has the limits of the item, and so have the login slices of its uids unless it says otherwise. */
  ghost predicate AccountHeld(live: Live, name: string, item: Json, ioPath: string)
    requires item.Object?
  {
    var raw := Get(item.fields, "limits");
    && Holds(StateOf(live, name), raw, ioPath)
    && (("sessions" in item.fields ==> Truthy(item.fields["sessions"])) ==>
          forall u: nat :: ListsUid(item, u) ==> Holds(StateOf(live, UserSlice(u)), raw, ioPath))
  }

  /**
   From the document to systemd: after a pass in which no call fails, the slice of every group and of
   every account has the limits that the last item of its name gives under their keys.
   */
  lemma {:induction false} DocumentReachesSystemd(data: Json, live: Live, live': Live, applied: Recorded,
                                                  wanted: Recorded, force: bool)
    requires Valid(data) && Carries(ConfigOf(data), wanted) && AllTotal(wanted)
    requires Covers(applied, live) && (!force ==> Agrees(applied, live))
    requires Passed(live, live', applied, wanted, PropertiesOf(UNLIMITED, ConfigOf(data).ioPath), force, {})
    ensures var ioPath := ConfigOf(data).ioPath;
      && (var items := Items(data.fields, "groups").value;
          forall name, i :: LastNamed(items, name, i) ==>
            Holds(StateOf(live', name), Get(items[i].fields, "limits"), ioPath))
      && (var items := Items(data.fields, "accounts").value;
          forall name, i :: LastNamed(items, name, i) ==> AccountHeld(live', name, items[i], ioPath))
  {
    var c := ConfigOf(data);
    AcceptedSays(data);
    PassReachesTarget(live, live', applied, wanted, c.ioPath, force);
    var groups, accounts := Items(data.fields, "groups").value, Items(data.fields, "accounts").value;
    forall name, i | LastNamed(groups, name, i)
      ensures Holds(StateOf(live', name), Get(groups[i].fields, "limits"), c.ioPath)
    {
      SaidIsHeld(Get(groups[i].fields, "limits"), c.groups[name], c.ioPath, StateOf(live', name));
    }
    forall name, i | LastNamed(accounts, name, i) ensures AccountHeld(live', name, accounts[i], c.ioPath) {
      AccountIsHeld(c, live', wanted, name, accounts[i]);
    }
  }

  lemma {:induction false} AccountIsHeld(c: Config, live: Live, wanted: Recorded, name: string, item: Json)
    requires Carries(c, wanted) && forall unit :: StateOf(live, unit) == Target(wanted, unit)
    requires item.Object? && name in c.accounts && AccountSaid(item, c.accounts[name])
    ensures AccountHeld(live, name, item, c.ioPath)
  {
    var raw, account := Get(item.fields, "limits"), c.accounts[name];
    forall unit | BelongsTo(c, name, unit) ensures Holds(StateOf(live, unit), raw, c.ioPath) {
      SaidIsHeld(raw, account.limits, c.ioPath, StateOf(live, unit));
    }
    assert BelongsTo(c, name, name);
    if account.sessions {
      forall u: nat | ListsUid(item, u) ensures Holds(StateOf(live, UserSlice(u)), raw, c.ioPath) {
        assert u in account.uids && BelongsTo(c, name, UserSlice(u));
      }
    }
  }

  // ---------------------------------------------------------------- the objects

  /** How a call ends: a call that times out raises, and may or may not have had its effect. */
  datatype Answer = Done | Refused | TimedOut

  /**
   systemd, as seen through set-property: a call replaces the unit's state or changes nothing.
   `failed` holds the units of the current pass whose state a call did not replace.
   */
  class Systemd {
    var live: Live
    ghost var failed: set<string>

    constructor ()
      ensures live == map[] && failed == {}
    {
      live, failed := map[], {};
    }

    method SetProperties(unit: string, props: Properties) returns (answer: Answer)
      modifies this
      ensures
        || (live == old(live)[unit := AssignAll(StateOf(old(live), unit), props)] && failed == old(failed))
        || (live == old(live) && failed == old(failed) + {unit})
      ensures answer.Done? ==>
                live == old(live)[unit := AssignAll(StateOf(old(live), unit), props)] && failed == old(failed)
      ensures answer.Refused? ==> live == old(live) && failed == old(failed) + {unit}
    {
      answer := *;
      var effect := *;
      if answer.Done? || (answer.TimedOut? && effect) {
        live := live[unit := AssignAll(StateOf(live, unit), props)];
      } else {
        failed := failed + {unit};
      }
    }
  }

  ghost predicate Untouched(applied: Recorded, live: Live, failed: set<string>, applied0: Recorded, live0: Live,
                            unit: string) {
    EntryOf(applied, unit) == EntryOf(applied0, unit) && StateOf(live, unit) == StateOf(live0, unit) && unit !in failed
  }

  ghost predicate DealtWith(applied: Recorded, live: Live, failed: set<string>, applied0: Recorded, live0: Live,
                            wanted: Recorded, unlimited: Properties, force: bool, unit: string) {
    && EntryOf(applied, unit) == NextEntry(applied0, wanted, force, failed, unit)
    && StateOf(live, unit) == NextState(live0, applied0, wanted, unlimited, force, failed, unit)
  }

  /** In the middle of a pass: the units in `done` have been dealt with, the others are as they were. */
  ghost predicate HalfWay(applied: Recorded, live: Live, failed: set<string>, applied0: Recorded, live0: Live,
                          wanted: Recorded, unlimited: Properties, force: bool, done: set<string>) {
    forall unit ::
      if unit in done then DealtWith(applied, live, failed, applied0, live0, wanted, unlimited, force, unit)
      else Untouched(applied, live, failed, applied0, live0, unit)
  }

  lemma {:induction false} UnitFailed(applied: Recorded, live: Live, failed: set<string>, applied0: Recorded,
                                      live0: Live, wanted: Recorded, unlimited: Properties, force: bool,
                                      done: set<string>, unit: string)
    requires HalfWay(applied, live, failed, applied0, live0, wanted, unlimited, force, done) && unit !in done
    ensures HalfWay(applied, live, failed + {unit}, applied0, live0, wanted, unlimited, force, done + {unit})
  {
  }

  lemma {:induction false} UnitChanged(applied: Recorded, live: Live, failed: set<string>, applied0: Recorded,
                                       live0: Live, wanted: Recorded, unlimited: Properties, force: bool,
                                       done: set<string>, unit: string)
    requires HalfWay(applied, live, failed, applied0, live0, wanted, unlimited, force, done) && unit !in done
    requires Called(applied, wanted, force, unit)
    ensures HalfWay(if unit in wanted then applied[unit := wanted[unit]] else applied - {unit},
                    live[unit := AssignAll(StateOf(live, unit), if unit in wanted then wanted[unit] else unlimited)],
                    failed, applied0, live0, wanted, unlimited, force, done + {unit})
  {
  }

  /** One more unit: the call succeeds, fails, or is not needed. */
  lemma {:induction false} UnitDealtWith(applied: Recorded, live: Live, failed: set<string>, applied0: Recorded,
                                         live0: Live, wanted: Recorded, unlimited: Properties, force: bool,
                                         done: set<string>, unit: string)
    requires HalfWay(applied, live, failed, applied0, live0, wanted, unlimited, force, done) && unit !in done
    ensures Called(applied, wanted, force, unit) ==>
              HalfWay(applied, live, failed + {unit}, applied0, live0, wanted, unlimited, force, done + {unit})
    ensures Called(applied, wanted, force, unit) ==>
              HalfWay(if unit in wanted then applied[unit := wanted[unit]] else applied - {unit},
                      live[unit := AssignAll(StateOf(live, unit), if unit in wanted then wanted[unit] else unlimited)],
                      failed, applied0, live0, wanted, unlimited, force, done + {unit})
    ensures !Called(applied, wanted, force, unit) ==>
              HalfWay(applied, live, failed, applied0, live0, wanted, unlimited, force, done + {unit})
  {
    UnitFailed(applied, live, failed, applied0, live0, wanted, unlimited, force, done, unit);
    if Called(applied, wanted, force, unit) {
      UnitChanged(applied, live, failed, applied0, live0, wanted, unlimited, force, done, unit);
    } else {
      assert Untouched(applied, live, failed, applied0, live0, unit);
    }
  }

  /** A pass that stops here leaves systemd as one in which the calls still to come fail. */
  lemma {:induction false} RestNotReached(applied: Recorded, live: Live, failed: set<string>, applied0: Recorded,
                                          live0: Live, wanted: Recorded, unlimited: Properties, force: bool,
                                          done: set<string>)
    requires HalfWay(applied, live, failed, applied0, live0, wanted, unlimited, force, done)
    ensures Passed(live0, live, applied0, wanted, unlimited, force, failed + (applied0.Keys + wanted.Keys - done))
  {
    var all := failed + (applied0.Keys + wanted.Keys - done);
    forall unit ensures StateOf(live, unit) == NextState(live0, applied0, wanted, unlimited, force, all, unit) {
      assert if unit in done
             then DealtWith(applied, live, failed, applied0, live0, wanted, unlimited, force, unit)
             else Untouched(applied, live, failed, applied0, live0, unit);
    }
  }

  lemma {:induction false} CutIsAPass(applied: Recorded, live: Live, failed: set<string>, live': Live,
                                      failed': set<string>, applied0: Recorded, live0: Live, wanted: Recorded,
                                      unlimited: Properties, force: bool, done: set<string>, unit: string)
    requires HalfWay(applied, live, failed, applied0, live0, wanted, unlimited, force, done) && unit !in done
    requires Called(applied, wanted, force, unit)
    requires
      || (failed' == failed &&
          live' == live[unit := AssignAll(StateOf(live, unit), if unit in wanted then wanted[unit] else unlimited)])
      || (failed' == failed + {unit} && live' == live)
    ensures Passed(live0, live', applied0, wanted, unlimited, force,
                   failed' + (applied0.Keys + wanted.Keys - (done + {unit})))
  {
    UnitDealtWith(applied, live, failed, applied0, live0, wanted, unlimited, force, done, unit);
    var took := live[unit := AssignAll(StateOf(live, unit), if unit in wanted then wanted[unit] else unlimited)];
    var applied' := if unit in wanted then applied[unit := wanted[unit]] else applied - {unit};
    if failed' == failed && live' == took {
      RestNotReached(applied', live', failed', applied0, live0, wanted, unlimited, force, done + {unit});
    } else {
      RestNotReached(applied, live', failed', applied0, live0, wanted, unlimited, force, done + {unit});
    }
  }

  lemma {:induction false} PassIsOver(applied: Recorded, live: Live, failed: set<string>, applied0: Recorded,
                                      live0: Live, wanted: Recorded, unlimited: Properties, force: bool)
    requires HalfWay(applied, live, failed, applied0, live0, wanted, unlimited, force, applied0.Keys + wanted.Keys)
    ensures applied == NextApplied(applied0, wanted, force, failed)
    ensures Passed(live0, live, applied0, wanted, unlimited, force, failed)
  {
    var next := NextApplied(applied0, wanted, force, failed);
    forall unit
      ensures EntryOf(applied, unit) == EntryOf(next, unit)
      ensures StateOf(live, unit) == NextState(live0, applied0, wanted, unlimited, force, failed, unit)
    {
      assert if unit in applied0.Keys + wanted.Keys
             then DealtWith(applied, live, failed, applied0, live0, wanted, unlimited, force, unit)
             else Untouched(applied, live, failed, applied0, live0, unit);
    }
    forall unit
      ensures unit in applied <==> unit in next
      ensures unit in applied ==> applied[unit] == next[unit]
    {
      assert EntryOf(applied, unit) == EntryOf(next, unit);
    }
  }

  /** The units below hosting.slice in the cgroup tree, and the recorded ones, are released. */
  ghost predicate Released(live: Live, live': Live, units: set<string>, unlimited: Properties, failed: set<string>) {
    forall unit :: StateOf(live', unit) ==
      if unit in units && unit !in failed then AssignAll(StateOf(live, unit), unlimited) else StateOf(live, unit)
  }

  lemma {:induction false} OneMoreReleased(live0: Live, live: Live, live': Live, done: set<string>,
                                           unlimited: Properties, failed: set<string>, failed': set<string>, unit: string)
    requires Released(live0, live, done, unlimited, failed) && unit !in done && unit !in failed
    requires
      || (live' == live[unit := AssignAll(StateOf(live, unit), unlimited)] && failed' == failed)
      || (live' == live && failed' == failed + {unit})
    ensures Released(live0, live', done + {unit}, unlimited, failed')
  {
  }

  class Applier {
    var applied: Recorded
    /** What the next process will load: an unreadable file is an empty record. */
    var saved: Recorded

    constructor (loaded: Recorded)
      ensures applied == saved == loaded
    {
      applied, saved := loaded, loaded;
    }

    /** Writes a file beside the record and renames it: all of it is saved, or none. */
    method Save() returns (ok: bool)
      modifies this`saved
      ensures saved == if ok then applied else old(saved)
    {
      ok := *;
      if ok { saved := applied; }
    }

    /** A pass: it is cut short by a call that times out, and by a record that cannot be saved. */
    method Apply(c: Config, systemd: Systemd, force: bool)
      returns (finished: bool, ghost wanted: Recorded, ghost failed: set<string>)
      requires WellFormed(c) && applied == saved
      modifies this, systemd
      ensures Carries(c, wanted) && AllTotal(wanted)
      ensures Passed(old(systemd.live), systemd.live, old(applied), wanted, PropertiesOf(UNLIMITED, c.ioPath),
                     force, failed)
      ensures if finished then applied == saved == NextApplied(old(applied), wanted, force, failed)
              else saved == old(saved)
    {
      systemd.failed := {};
      var units := BuildWanted(c);
      wanted := units;
      var unlimited := PropertiesOf(UNLIMITED, c.ioPath);
      finished := DropUnwanted(systemd, units, unlimited, force);
      if finished {
        finished := SetWanted(systemd, units, unlimited, force, old(applied), old(systemd.live));
      }
      failed := systemd.failed;
      if finished { finished := Save(); }
    }

    /** The first loop: recorded units that are no longer wanted lose their limits. */
    method DropUnwanted(systemd: Systemd, wanted: Recorded, unlimited: Properties, force: bool)
      returns (finished: bool)
      requires systemd.failed == {}
      modifies this`applied, systemd
      ensures finished ==>
                HalfWay(applied, systemd.live, systemd.failed, old(applied), old(systemd.live), wanted, unlimited, force,
                        old(applied).Keys - wanted.Keys)
      ensures !finished ==>
                Passed(old(systemd.live), systemd.live, old(applied), wanted, unlimited, force, systemd.failed)
    {
      var left := applied.Keys;
      while left != {}
        invariant left <= old(applied).Keys
        invariant HalfWay(applied, systemd.live, systemd.failed, old(applied), old(systemd.live), wanted, unlimited,
                          force, old(applied).Keys - wanted.Keys - left)
        decreases left
      {
        var unit :| unit in left;
        ghost var done := old(applied).Keys - wanted.Keys - left;
        left := left - {unit};
        if unit !in wanted {
          UnitDealtWith(applied, systemd.live, systemd.failed, old(applied), old(systemd.live), wanted, unlimited,
                        force, done, unit);
          ghost var live, failed := systemd.live, systemd.failed;
          var answer := systemd.SetProperties(unit, unlimited);
          if answer.TimedOut? {
            CutIsAPass(applied, live, failed, systemd.live, systemd.failed, old(applied), old(systemd.live), wanted,
                       unlimited, force, done, unit);
            systemd.failed := systemd.failed + (old(applied).Keys + wanted.Keys - (done + {unit}));
            return false;
          }
          if answer.Done? { applied := applied - {unit}; }
          assert old(applied).Keys - wanted.Keys - left == done + {unit};
        } else {
          assert old(applied).Keys - wanted.Keys - left == done;
        }
      }
      finished := true;
    }

    /** The second loop: wanted units are set where the record differs, or all of them when forced. */
    method SetWanted(systemd: Systemd, wanted: Recorded, unlimited: Properties, force: bool,
                     ghost applied0: Recorded, ghost live0: Live) returns (finished: bool)
      requires HalfWay(applied, systemd.live, systemd.failed, applied0, live0, wanted, unlimited, force,
                       applied0.Keys - wanted.Keys)
      modifies this`applied, systemd
      ensures finished ==> applied == NextApplied(applied0, wanted, force, systemd.failed)
      ensures Passed(live0, systemd.live, applied0, wanted, unlimited, force, systemd.failed)
    {
      var left := wanted.Keys;
      ghost var done := applied0.Keys - wanted.Keys;
      while left != {}
        invariant left <= wanted.Keys && done == applied0.Keys + wanted.Keys - left
        invariant HalfWay(applied, systemd.live, systemd.failed, applied0, live0, wanted, unlimited, force, done)
        decreases left
      {
        var unit :| unit in left;
        left := left - {unit};
        UnitDealtWith(applied, systemd.live, systemd.failed, applied0, live0, wanted, unlimited, force, done, unit);
        if force || unit !in applied || applied[unit] != wanted[unit] {
          ghost var live, failed := systemd.live, systemd.failed;
          var answer := systemd.SetProperties(unit, wanted[unit]);
          if answer.TimedOut? {
            CutIsAPass(applied, live, failed, systemd.live, systemd.failed, applied0, live0, wanted, unlimited, force,
                       done, unit);
            systemd.failed := systemd.failed + (applied0.Keys + wanted.Keys - (done + {unit}));
            return false;
          }
          if answer.Done? { applied := applied[unit := wanted[unit]]; }
        }
        done := done + {unit};
      }
      PassIsOver(applied, systemd.live, systemd.failed, applied0, live0, wanted, unlimited, force);
      finished := true;
    }

    /** Every recorded unit and every slice found in the tree loses its limits, and the record is emptied. */
    method Release(systemd: Systemd, found: set<string>, ioPath: string) returns (finished: bool)
      requires applied == saved
      modifies this, systemd
      ensures Released(old(systemd.live), systemd.live, old(applied).Keys + found, PropertiesOf(UNLIMITED, ioPath),
                       systemd.failed)
      ensures if finished then applied == saved == map[] else saved == old(saved)
    {
      var unlimited := PropertiesOf(UNLIMITED, ioPath);
      var units := applied.Keys + found;
      systemd.failed := {};
      var left := units;
      while left != {}
        invariant left <= units && saved == old(saved)
        invariant systemd.failed !! left
        invariant Released(old(systemd.live), systemd.live, units - left, unlimited, systemd.failed)
        decreases left
      {
        var unit :| unit in left;
        ghost var live, failed := systemd.live, systemd.failed;
        var answer := systemd.SetProperties(unit, unlimited);
        OneMoreReleased(old(systemd.live), live, systemd.live, units - left, unlimited, failed, systemd.failed, unit);
        left := left - {unit};
        assert units - left == units - (left + {unit}) + {unit};
        if answer.TimedOut? {
          assert units - left + left == units;
          systemd.failed := systemd.failed + left;
          return false;
        }
      }
      assert units - left == units;
      applied := map[];
      finished := Save();
    }
  }

  /**
   A release forgets every unit even when a call failed. It leaves the server unlimited, and the
   empty record complete, exactly when each limited unit was reached and its call succeeded.
   */
  lemma {:induction false} ReleaseIsCompleteIff(live: Live, live': Live, units: set<string>, ioPath: string,
                                                failed: set<string>)
    requires Released(live, live', units, PropertiesOf(UNLIMITED, ioPath), failed)
    ensures Covers(map[], live') <==>
            forall unit :: StateOf(live, unit) != DEFAULT ==> unit in units && unit !in failed
  {
    var unlimited := PropertiesOf(UNLIMITED, ioPath);
    UnlimitedIsDefault(ioPath);
    forall unit
      ensures StateOf(live', unit) == DEFAULT <==>
              (StateOf(live, unit) != DEFAULT ==> unit in units && unit !in failed)
    {
      TotalIgnoresThePast(StateOf(live, unit), unlimited);
    }
  }
}
