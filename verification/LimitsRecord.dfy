/**
 The record on disk. A pass saves it at its end, so a pass that is cut short (by a call that times out,
 or by a record that cannot be saved) leaves limits that no record knows of. The next process starts
 from the old record, and its first pass is a forced one.
 */
module LimitsRecord {
  import opened LimitsNames
  import opened LimitsConfig
  import opened LimitsApplier

  /** What outlives a process. */
  datatype World = World(saved: Recorded, live: Live)

  datatype Step = Saved(pass: Pass) | Cut(pass: Pass)

  /** The calls that are not made because the pass was cut short are among its failed ones. */
  ghost predicate Stepped(w: World, w': World, step: Step) {
    var p := step.pass;
    && AllTotal(p.wanted)
    && Passed(w.live, w'.live, w.saved, p.wanted, PropertiesOf(UNLIMITED, p.ioPath), p.force, p.failed)
    && w'.saved == if step.Saved? then NextApplied(w.saved, p.wanted, p.force, p.failed) else w.saved
  }

  ghost predicate IsHistory(steps: seq<Step>, worlds: seq<World>) {
    && |worlds| == |steps| + 1
    && (forall i: nat :: i < |steps| ==> Stepped(worlds[i], worlds[i + 1], steps[i]))
    && (forall i: nat :: i + 1 < |steps| && steps[i].Cut? ==> steps[i + 1].pass.force)
  }

  /** The unit has limits that the record does not know of. */
  ghost predicate Lost(w: World, unit: string) { unit !in w.saved && StateOf(w.live, unit) != DEFAULT }

  /** The pass wants the unit, and no call for it went wrong. */
  predicate Sets(step: Step, unit: string) { unit in step.pass.wanted && unit !in step.pass.failed }

  /** The step gives limits to a unit that is not in the record, and does not record it. */
  ghost predicate Loses(w: World, step: Step, unit: string) {
    step.Cut? && unit !in w.saved && Sets(step, unit) && StateFor(step.pass.wanted[unit]) != DEFAULT
  }

  /** Exactly what one step loses, and what it finds again. */
  lemma {:induction false} LostAfterIff(w: World, w': World, step: Step, unit: string)
    requires Stepped(w, w', step)
    ensures Lost(w', unit) <==> Loses(w, step, unit) || (Lost(w, unit) && !Sets(step, unit))
  {
    var p := step.pass;
    var unlimited := PropertiesOf(UNLIMITED, p.ioPath);
    UnlimitedIsDefault(p.ioPath);
    assert StateOf(w'.live, unit) == NextState(w.live, w.saved, p.wanted, unlimited, p.force, p.failed, unit);
    TotalIgnoresThePast(StateOf(w.live, unit), if unit in p.wanted then p.wanted[unit] else unlimited);
    if step.Saved? {
      assert EntryOf(w'.saved, unit) == NextEntry(w.saved, p.wanted, p.force, p.failed, unit);
    }
  }

  /** The unit was lost at that step, and no later one set it. */
  ghost predicate LostSince(steps: seq<Step>, worlds: seq<World>, unit: string, i: nat)
    requires |worlds| == |steps| + 1 && i < |steps|
  {
    Loses(worlds[i], steps[i], unit) && forall j: nat :: i < j < |steps| ==> !Sets(steps[j], unit)
  }

  /** A pass that was cut short gave the unit its limits, and none since has set it. */
  ghost predicate GivenBlindly(steps: seq<Step>, worlds: seq<World>, unit: string)
    requires |worlds| == |steps| + 1
  {
    exists i: nat :: i < |steps| && LostSince(steps, worlds, unit, i)
  }

  lemma {:induction false} LostSinceGrows(steps: seq<Step>, worlds: seq<World>, unit: string, i: nat)
    requires |worlds| == |steps| + 1 && i + 1 < |steps|
    ensures LostSince(steps, worlds, unit, i) <==>
            LostSince(steps[..|steps| - 1], worlds[..|steps|], unit, i) && !Sets(steps[|steps| - 1], unit)
  {
  }

  /**
   Over every history from a record that misses nothing: a unit has limits that no record knows of
   exactly if a pass that was cut short gave them to it and no pass since has set it.
   */
  lemma {:induction false} LostOverRunIff(steps: seq<Step>, worlds: seq<World>, unit: string)
    requires IsHistory(steps, worlds) && !Lost(worlds[0], unit)
    ensures Lost(worlds[|steps|], unit) <==> GivenBlindly(steps, worlds, unit)
    decreases |steps|
  {
    if steps != [] {
      var n := |steps| - 1;
      LostOverRunIff(steps[..n], worlds[..n + 1], unit);
      LostAfterIff(worlds[n], worlds[n + 1], steps[n], unit);
      LostSoFar(steps, worlds, unit);
    }
  }

  lemma {:induction false} LostSoFar(steps: seq<Step>, worlds: seq<World>, unit: string)
    requires |worlds| == |steps| + 1 && steps != []
    ensures var n := |steps| - 1;
      GivenBlindly(steps, worlds, unit) <==>
      || Loses(worlds[n], steps[n], unit)
      || (GivenBlindly(steps[..n], worlds[..n + 1], unit) && !Sets(steps[n], unit))
  {
    var n := |steps| - 1;
    forall i: nat | i < n
      ensures LostSince(steps, worlds, unit, i) <==>
              LostSince(steps[..n], worlds[..n + 1], unit, i) && !Sets(steps[n], unit)
    {
      LostSinceGrows(steps, worlds, unit, i);
    }
    assert Loses(worlds[n], steps[n], unit) <==> LostSince(steps, worlds, unit, n);
    if GivenBlindly(steps, worlds, unit) {
      var i: nat :| i < |steps| && LostSince(steps, worlds, unit, i);
      assert i < n ==> LostSince(steps[..n], worlds[..n + 1], unit, i);
    }
    if GivenBlindly(steps[..n], worlds[..n + 1], unit) && !Sets(steps[n], unit) {
      var i: nat :| i < n && LostSince(steps[..n], worlds[..n + 1], unit, i);
      assert LostSince(steps, worlds, unit, i);
    }
  }

  /**
   From any record and any state of systemd: a forced pass without failures reaches its target
   exactly if it wants every unit that was lost.
   */
  lemma {:induction false} ForcedPassReachesTargetIff(w: World, w': World, p: Pass)
    requires Stepped(w, w', Saved(p)) && p.force && p.failed == {}
    ensures (forall unit :: StateOf(w'.live, unit) == Target(p.wanted, unit)) <==>
            forall unit :: Lost(w, unit) ==> unit in p.wanted
  {
    forall unit ensures StateOf(w'.live, unit) == Target(p.wanted, unit) <==> (Lost(w, unit) ==> unit in p.wanted) {
      var unlimited := PropertiesOf(UNLIMITED, p.ioPath);
      UnlimitedIsDefault(p.ioPath);
      assert StateOf(w'.live, unit) == NextState(w.live, w.saved, p.wanted, unlimited, p.force, p.failed, unit);
      TotalIgnoresThePast(StateOf(w.live, unit), if unit in p.wanted then p.wanted[unit] else unlimited);
    }
  }

  /**
   However often passes for the same units are cut short: the first forced one that is not, and in
   which no call fails, leaves every unit as wanted.
   */
  lemma {:induction false} SameUnitsAreRepaired(steps: seq<Step>, worlds: seq<World>, w': World, p: Pass)
    requires IsHistory(steps, worlds) && Covers(worlds[0].saved, worlds[0].live)
    requires forall i: nat :: i < |steps| ==> steps[i].pass.wanted.Keys == p.wanted.Keys
    requires Stepped(worlds[|steps|], w', Saved(p)) && p.force && p.failed == {}
    ensures forall unit :: StateOf(w'.live, unit) == Target(p.wanted, unit)
  {
    forall unit | Lost(worlds[|steps|], unit) ensures unit in p.wanted {
      LostOverRunIff(steps, worlds, unit);
      var i: nat :| i < |steps| && LostSince(steps, worlds, unit, i);
      assert unit in steps[i].pass.wanted.Keys;
    }
    ForcedPassReachesTargetIff(worlds[|steps|], w', p);
  }

  /** What systemd holds once every wanted unit has been set. */
  ghost function AllSet(wanted: Recorded): Live { map unit | unit in wanted :: StateFor(wanted[unit]) }

  /**
   A login slice that is lost, here when the first record cannot be saved, and not wanted when the
   next process starts: its limits outlive that process and a release, in which nothing fails and
   which looks for slices below hosting.slice only.
   */
  lemma {:induction false} LostLoginSliceSurvives(wanted: Recorded, ioPath: string, uid: nat, found: set<string>,
                                                  after: Live)
    requires AllTotal(wanted) && UserSlice(uid) in wanted && StateFor(wanted[UserSlice(uid)]) != DEFAULT
    requires UserSlice(uid) !in found
    requires Released(AllSet(wanted), after, found, PropertiesOf(UNLIMITED, ioPath), {})
    ensures var start, later := World(map[], map[]), World(map[], AllSet(wanted));
      var first, second := Cut(Pass(wanted, ioPath, true, {})), Saved(Pass(map[], ioPath, true, {}));
      IsHistory([first, second], [start, later, later])
    ensures StateOf(after, UserSlice(uid)) == StateFor(wanted[UserSlice(uid)])
  {
    assert NextApplied(map[], map[], true, {}) == map[];
  }
}
