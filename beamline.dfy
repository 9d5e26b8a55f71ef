/** macros/beamline.py: the vacuum check, the two detector switches (which reconfigure
    the acquisition record through `acqconf`), and the `fix` and `end_of_the_day`
    sequences. */
module Beamline {
  import opened Host
  import opened General

  // ---- pressure_check

  /** What a gauge that cannot be read is taken to show (lines 52-63). */
  const Unreachable: real := 9999.0

  /** The three thresholds, in mbar (lines 66-68). */
  const PxsLimit: real := 1.0e-5
  const CcdLimit: real := 1.0e-6
  const OpticsLimit: real := 1.0e-5

  /** A gauge reading: the pressure, or None when reading the device raised. */
  function Reading(gauge: Option<real>): real {
    match gauge
    case Some(p) => p
    case None => Unreachable
  }

  /** `pressure_check` (lines 51-87): all three pressures strictly below their limits.
      An unreachable gauge can never pass, since its sentinel is above every limit. */
  function PressureCheck(ccd: Option<real>, pxs: Option<real>, optics: Option<real>): (ok: bool)
    ensures ok <==>
      pxs.Some? && pxs.value < PxsLimit &&
      ccd.Some? && ccd.value < CcdLimit &&
      optics.Some? && optics.value < OpticsLimit
  {
    Reading(pxs) < PxsLimit && Reading(ccd) < CcdLimit && Reading(optics) < OpticsLimit
  }

  /** The check is monotone: lowering any reading never turns a pass into a failure. */
  lemma PressureCheckMonotone(ccd: real, pxs: real, optics: real, ccd': real, pxs': real, optics': real)
    requires ccd' <= ccd && pxs' <= pxs && optics' <= optics
    ensures PressureCheck(Some(ccd), Some(pxs), Some(optics)) ==> PressureCheck(Some(ccd'), Some(pxs'), Some(optics'))
  {
  }

  // ---- fix

  /** The three macros `fix` runs (lines 10-12). */
  const FixSequence: seq<Name> := ["laser_ready_mode", "tape_off", "target_off"]

  /** `fix`: laser_ready_mode, tape_off, target_off, stopping at the first one that
      raises, whose exception ends `fix`. */
  function Fix(broken: set<Name>): (run: Run)
    ensures run.Ok() <==> forall i :: 0 <= i < |FixSequence| ==> FixSequence[i] !in broken
    ensures run.trace <= FixSequence && run.notices == []
    ensures run.Ok() ==> run.trace == FixSequence
    ensures !run.Ok() ==>
      var k := FirstBroken(FixSequence, broken);
      k < |FixSequence| && run.trace == FixSequence[..k + 1] && run.error == Some(MacroFailed(FixSequence[k]))
  {
    PerformCalls(FixSequence, broken);
    Perform(Calls(FixSequence), broken)
  }

  // ---- switch_to_mte and switch_to_pilc_only

  /** The `acqconf` arguments of `switch_to_mte` (line 37), in FlagKeys order: the
      integers 1 and 0 it passes are the Boolean parameters True and False. */
  const MteFlags: seq<Option<bool>> :=
    [Some(true), Some(true), Some(true), Some(true), Some(true), Some(true), Some(true), Some(true), Some(false), Some(false)]

  /** The `acqconf` arguments of `switch_to_pilc_only` (line 49): checkCamTemp is 0. */
  const PilcFlags: seq<Option<bool>> :=
    [Some(true), Some(true), Some(false), Some(true), Some(true), Some(true), Some(true), Some(true), Some(false), Some(false)]

  /** A prompt that is never consulted, since both switches pass every flag. */
  function NoPrompt(k: Key, stored: Field): bool {
    false
  }

  /** The record `switch_to_mte` stores: every flag given, so no prompt is asked and no
      KeyError can occur; checkCamTemp on, darkModeLaser and autoShutterPump off, the other
      seven flags on, and every other key, waitTime among them, carried over. */
  lemma MteRecord(r: Record, ask: Prompt)
    ensures Answerable(r, MteFlags)
    ensures var m := Merged(r, MteFlags, ask);
      (forall k :: k in FlagKeys ==> k in m) &&
      m[CheckCamTemp] == Flag(true) && m[DarkModeLaser] == Flag(false) && m[AutoShutterPump] == Flag(false) &&
      (forall i :: 0 <= i < 8 ==> m[FlagKeys[i]] == Flag(true)) &&
      (forall k :: k !in FlagKeys ==> (k in m <==> k in r) && (k in r ==> m[k] == r[k]))
  {
    assert Answerable(r, MteFlags);
    MergedRecord(r, MteFlags, ask);
    assert FlagKeys[2] == CheckCamTemp && FlagKeys[8] == DarkModeLaser && FlagKeys[9] == AutoShutterPump;
  }

  /** `switch_to_pilc_only` stores the same record as `switch_to_mte` except that
      checkCamTemp is off. */
  lemma PilcRecord(r: Record, ask: Prompt)
    ensures Answerable(r, PilcFlags) && Answerable(r, MteFlags)
    ensures Merged(r, PilcFlags, ask) == Merged(r, MteFlags, ask)[CheckCamTemp := Flag(false)]
  {
    assert Answerable(r, PilcFlags) && Answerable(r, MteFlags);
    assert FlagKeys[2] == CheckCamTemp && PilcFlags[2] == Some(false);
    MergedDifferAt(r, PilcFlags, MteFlags, 2, ask);
  }

  /** Two full sets of flags that differ at one position store records that differ at
      that key only. */
  lemma MergedDifferAt(r: Record, f: seq<Option<bool>>, g: seq<Option<bool>>, i: nat, ask: Prompt)
    requires |f| == |g| == |FlagKeys| && i < |FlagKeys|
    requires forall j :: 0 <= j < |FlagKeys| ==> f[j].Some? && g[j].Some?
    requires forall j :: 0 <= j < |FlagKeys| && j != i ==> f[j] == g[j]
    ensures Answerable(r, f) && Answerable(r, g)
    ensures Merged(r, f, ask) == Merged(r, g, ask)[FlagKeys[i] := Flag(f[i].value)]
  {
    assert Answerable(r, f) && Answerable(r, g);
    var p := Merged(r, f, ask);
    var m := Merged(r, g, ask)[FlagKeys[i] := Flag(f[i].value)];
    MergedRecord(r, f, ask);
    MergedRecord(r, g, ask);
    forall k | k in p
      ensures k in m && p[k] == m[k]
    {
      if k in FlagKeys {
        var j :| 0 <= j < |FlagKeys| && FlagKeys[j] == k;
      }
    }
    assert p.Keys == m.Keys;
  }

  /** A switch: set_meas with the measurement group, then `acqconf` with the fixed
      flags and no wait time (so `waittime` prompts, seeded with the stored waitTime).
      The trigger-mode write to the timer controller is not modelled. */
  method Switch(s: Session, setMeas: Name, flags: seq<Option<bool>>, askTime: TimePrompt) returns (st: Status)
    requires |flags| == |FlagKeys| && forall i :: 0 <= i < |flags| ==> flags[i].Some?
    modifies s
    ensures s.notices == old(s.notices)
    ensures setMeas in s.broken ==>
      st == Raised(MacroFailed(setMeas)) && s.env == old(s.env) && s.trace == old(s.trace) + [setMeas]
    ensures setMeas !in s.broken ==>
      var r := Loaded(old(s.env));
      var m := Merged(r, flags, NoPrompt);
      s.trace == old(s.trace) + [setMeas, "acqconf", "waittime"] &&
      if WaitTime in r then
        st == Done && s.env == old(s.env).(acqConf := Some(m[WaitTime := Number(NewWaitTime(r, None, askTime))]))
      else
        st == Raised(KeyMissing(WaitTime)) && s.env == old(s.env).(acqConf := Some(m))
  {
    var ok := s.Exec(setMeas);
    if !ok {
      return Raised(MacroFailed(setMeas));
    }
    s.trace := s.trace + ["acqconf"];
    assert Answerable(Loaded(s.env), flags);
    st := AcqConf(s, flags, None, NoPrompt, askTime);
  }

  /** `switch_to_mte` (lines 25-38). */
  method SwitchToMte(s: Session, askTime: TimePrompt) returns (st: Status)
    modifies s
    ensures s.notices == old(s.notices)
    ensures "set_meas spectroscopy_mgmt" in s.broken ==>
      st == Raised(MacroFailed("set_meas spectroscopy_mgmt")) && s.env == old(s.env) &&
      s.trace == old(s.trace) + ["set_meas spectroscopy_mgmt"]
    ensures "set_meas spectroscopy_mgmt" !in s.broken ==>
      var r := Loaded(old(s.env));
      var m := Merged(r, MteFlags, NoPrompt);
      s.trace == old(s.trace) + ["set_meas spectroscopy_mgmt", "acqconf", "waittime"] &&
      if WaitTime in r then
        st == Done && s.env == old(s.env).(acqConf := Some(m[WaitTime := Number(NewWaitTime(r, None, askTime))]))
      else
        st == Raised(KeyMissing(WaitTime)) && s.env == old(s.env).(acqConf := Some(m))
  {
    st := Switch(s, "set_meas spectroscopy_mgmt", MteFlags, askTime);
  }

  /** `switch_to_pilc_only` (lines 41-49). */
  method SwitchToPilcOnly(s: Session, askTime: TimePrompt) returns (st: Status)
    modifies s
    ensures s.notices == old(s.notices)
    ensures "set_meas pilc_only" in s.broken ==>
      st == Raised(MacroFailed("set_meas pilc_only")) && s.env == old(s.env) &&
      s.trace == old(s.trace) + ["set_meas pilc_only"]
    ensures "set_meas pilc_only" !in s.broken ==>
      var r := Loaded(old(s.env));
      var m := Merged(r, PilcFlags, NoPrompt);
      s.trace == old(s.trace) + ["set_meas pilc_only", "acqconf", "waittime"] &&
      if WaitTime in r then
        st == Done && s.env == old(s.env).(acqConf := Some(m[WaitTime := Number(NewWaitTime(r, None, askTime))]))
      else
        st == Raised(KeyMissing(WaitTime)) && s.env == old(s.env).(acqConf := Some(m))
  {
    st := Switch(s, "set_meas pilc_only", PilcFlags, askTime);
  }

  // ---- end_of_the_day

  /** The unguarded first move (line 124). */
  const WaveplateHome: Name := "umv thindisk_laser_wp 0"

  /** The seven guarded groups of lines 126-168, each with the warning its handler reports. */
  const Groups: seq<seq<Name>> := [
    ["tape_off", "target_off"],
    ["laser_sleep_mode", "shutter_disable", "shutter_manual", "laser_off"],
    ["umv mag_curr_spec 0"],
    ["mte_temp_set 19"],
    ["pressure_check"],
    ["sync"],
    ["start_puzzing_all"]
  ]
  const GroupNotices: seq<Notice> :=
    [TapeTargetNotOff, ShutterNotClosed, MagnetNotOff, CcdNotHeated, NoPressures, SyncFailed, RobotUnreachable]

  /** Guarded groups one after the other: each group stops at its first failing macro,
      reports its warning, and the next group runs regardless. */
  function Guarded(groups: seq<seq<Name>>, ns: seq<Notice>, broken: set<Name>): (run: Run)
    requires |groups| == |ns|
    ensures run.Ok()
  {
    if groups == [] then Run([], [], None)
    else Then(Attempt(Calls(groups[0]), ns[0], broken), Guarded(groups[1..], ns[1..], broken))
  }

  /** What one guarded group dispatches: up to and including its first failing macro. */
  function GroupTrace(group: seq<Name>, broken: set<Name>): seq<Name> {
    var k := FirstBroken(group, broken);
    if k == |group| then group else group[..k + 1]
  }

  /** One guarded group: its trace stops at the first failure, and it reports its
      warning iff one of its macros failed. */
  lemma AttemptCalls(group: seq<Name>, n: Notice, broken: set<Name>)
    ensures Attempt(Calls(group), n, broken).trace == GroupTrace(group, broken)
    ensures Attempt(Calls(group), n, broken).notices ==
      if FirstBroken(group, broken) < |group| then [n] else []
  {
    PerformCalls(group, broken);
  }

  /** Every group gets its turn: the first macro of every non-empty group is
      dispatched, whatever fails before it, and the sequence never raises. */
  lemma {:induction false} GuardedReachesEveryGroup(groups: seq<seq<Name>>, ns: seq<Notice>, broken: set<Name>)
    requires |groups| == |ns|
    ensures forall j :: 0 <= j < |groups| && groups[j] != [] ==> groups[j][0] in Guarded(groups, ns, broken).trace
  {
    if groups != [] {
      GuardedReachesEveryGroup(groups[1..], ns[1..], broken);
      var head := Attempt(Calls(groups[0]), ns[0], broken);
      var rest := Guarded(groups[1..], ns[1..], broken);
      assert Guarded(groups, ns, broken).trace == head.trace + rest.trace;
      AttemptCalls(groups[0], ns[0], broken);
      if groups[0] != [] {
        assert GroupTrace(groups[0], broken)[0] == groups[0][0];
      }
      forall j | 1 <= j < |groups| && groups[j] != []
        ensures groups[j][0] in Guarded(groups, ns, broken).trace
      {
        assert groups[1..][j - 1] == groups[j];
      }
    }
  }

  /** The trace of the guarded groups is the groups' traces one after the other. */
  lemma {:induction false} GuardedTrace(groups: seq<seq<Name>>, ns: seq<Notice>, broken: set<Name>)
    requires |groups| == |ns|
    ensures Guarded(groups, ns, broken).trace == GroupTraces(groups, broken)
  {
    if groups != [] {
      GuardedTrace(groups[1..], ns[1..], broken);
      AttemptCalls(groups[0], ns[0], broken);
    }
  }

  function GroupTraces(groups: seq<seq<Name>>, broken: set<Name>): seq<Name> {
    if groups == [] then [] else GroupTrace(groups[0], broken) + GroupTraces(groups[1..], broken)
  }

  /** `end_of_the_day` (lines 124-168): the waveplate move, unguarded, aborts everything
      when it fails; otherwise the seven guarded groups run in order and the macro ends
      normally. The countdown before it (lines 118-122) only prints and sleeps. */
  method EndOfTheDay(s: Session) returns (st: Status)
    modifies s
    ensures s.env == old(s.env)
    ensures WaveplateHome in s.broken ==>
      st == Raised(MacroFailed(WaveplateHome)) && s.trace == old(s.trace) + [WaveplateHome] && s.notices == old(s.notices)
    ensures WaveplateHome !in s.broken ==>
      st == Done &&
      s.trace == old(s.trace) + [WaveplateHome] + Guarded(Groups, GroupNotices, s.broken).trace &&
      s.notices == old(s.notices) + Guarded(Groups, GroupNotices, s.broken).notices
  {
    var ok := s.Exec(WaveplateHome);
    if !ok {
      return Raised(MacroFailed(WaveplateHome));
    }
    GuardedBlocks(s, Groups, GroupNotices);
    st := Done;
  }

  /** Lines 126-168: the seven try/except blocks, one after the other. */
  method GuardedBlocks(s: Session, groups: seq<seq<Name>>, ns: seq<Notice>)
    requires |groups| == |ns| == 7
    modifies s
    ensures s.env == old(s.env)
    ensures s.trace == old(s.trace) + Guarded(groups, ns, s.broken).trace
    ensures s.notices == old(s.notices) + Guarded(groups, ns, s.broken).notices
  {
    ghost var t := s.trace;
    ghost var n := s.notices;
    Block(s, groups, ns, 0, t, n);
    Block(s, groups, ns, 1, t, n);
    Block(s, groups, ns, 2, t, n);
    Block(s, groups, ns, 3, t, n);
    Block(s, groups, ns, 4, t, n);
    Block(s, groups, ns, 5, t, n);
    Block(s, groups, ns, 6, t, n);
    assert groups[7..] == [] && ns[7..] == [];
  }

  /** The `i`-th try/except block of a guarded sequence: what it dispatches and reports
      is appended, and the blocks run so far followed by the blocks still to come make
      up the whole sequence. */
  method Block(s: Session, groups: seq<seq<Name>>, ns: seq<Notice>, i: nat, ghost t: seq<Name>, ghost n: seq<Notice>)
    requires |groups| == |ns| && i < |groups|
    requires s.trace + Guarded(groups[i..], ns[i..], s.broken).trace == t + Guarded(groups, ns, s.broken).trace
    requires s.notices + Guarded(groups[i..], ns[i..], s.broken).notices == n + Guarded(groups, ns, s.broken).notices
    modifies s
    ensures s.env == old(s.env)
    ensures s.trace + Guarded(groups[i + 1..], ns[i + 1..], s.broken).trace == t + Guarded(groups, ns, s.broken).trace
    ensures s.notices + Guarded(groups[i + 1..], ns[i + 1..], s.broken).notices == n + Guarded(groups, ns, s.broken).notices
  {
    var run := Attempt(Calls(groups[i]), ns[i], s.broken);
    GuardedAt(groups, ns, i, s.broken);
    s.Append(run);
  }

  /** One step of the fold: the `i`-th group, then the ones after it. */
  lemma GuardedAt(groups: seq<seq<Name>>, ns: seq<Notice>, i: nat, broken: set<Name>)
    requires |groups| == |ns| && i < |groups|
    ensures Guarded(groups[i..], ns[i..], broken).trace ==
      Attempt(Calls(groups[i]), ns[i], broken).trace + Guarded(groups[i + 1..], ns[i + 1..], broken).trace
    ensures Guarded(groups[i..], ns[i..], broken).notices ==
      Attempt(Calls(groups[i]), ns[i], broken).notices + Guarded(groups[i + 1..], ns[i + 1..], broken).notices
  {
    assert groups[i..][1..] == groups[i + 1..] && ns[i..][1..] == ns[i + 1..];
  }

  /** The example of the guarded groups: when tape_off fails, target_off is skipped and
      the tape warning is reported, yet laser_sleep_mode still runs, as do the first
      macros of all later groups. */
  lemma TapeFailureSkipsTargetOnly(broken: set<Name>)
    requires "tape_off" in broken
    ensures "target_off" !in Guarded(Groups, GroupNotices, broken).trace
    ensures "laser_sleep_mode" in Guarded(Groups, GroupNotices, broken).trace
    ensures forall j :: 0 <= j < |Groups| ==> Groups[j][0] in Guarded(Groups, GroupNotices, broken).trace
    ensures TapeTargetNotOff in Guarded(Groups, GroupNotices, broken).notices
  {
    GroupsFacts();
    GuardedReachesEveryGroup(Groups, GroupNotices, broken);
    FirstMacroFails(Groups, GroupNotices, broken);
    GuardedTrace(Groups[1..], GroupNotices[1..], broken);
    NotInGroupTraces(Groups[1..], broken, "target_off");
  }

  /** The shape of the seven groups that the example above relies on. */
  lemma GroupsFacts()
    ensures |Groups| == |GroupNotices| == 7
    ensures forall j :: 0 <= j < |Groups| ==> Groups[j] != []
    ensures Groups[0] == ["tape_off", "target_off"] && Groups[1][0] == "laser_sleep_mode"
    ensures forall j :: 0 <= j < |Groups[1..]| ==> "target_off" !in Groups[1..][j]
    ensures GroupNotices[0] == TapeTargetNotOff
  {
  }

  /** When the first macro of the first group fails, that group dispatches nothing else,
      reports its warning, and the remaining groups run as if it were not there. */
  lemma FirstMacroFails(groups: seq<seq<Name>>, ns: seq<Notice>, broken: set<Name>)
    requires |groups| == |ns| && groups != [] && groups[0] != [] && groups[0][0] in broken
    ensures Guarded(groups, ns, broken).trace == [groups[0][0]] + Guarded(groups[1..], ns[1..], broken).trace
    ensures ns[0] in Guarded(groups, ns, broken).notices
  {
    AttemptCalls(groups[0], ns[0], broken);
    assert groups[0][..1] == [groups[0][0]];
  }

  /** A name in none of the groups is in none of their traces. */
  lemma {:induction false} NotInGroupTraces(groups: seq<seq<Name>>, broken: set<Name>, x: Name)
    requires forall j :: 0 <= j < |groups| ==> x !in groups[j]
    ensures x !in GroupTraces(groups, broken)
  {
    if groups != [] {
      NotInGroupTraces(groups[1..], broken, x);
      var g := groups[0];
      var k := FirstBroken(g, broken);
      if k < |g| {
        assert forall y :: y in g[..k + 1] ==> y in g;
      }
    }
  }
}
