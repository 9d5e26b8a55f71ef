/** macros/scans.py: `snap`, the guarded single acquisition, and the two dark-image
    macros, which override nine flags of the stored record for one acquisition and then
    put the saved copy back. */
module Scans {
  import opened Host
  import opened User

  /** The shortest integration time `snap` accepts, in seconds (one shot). */
  const MinIntegration: real := 0.01

  /** The nine keys the dark-image macros override (lines 90-98 and 113-121). */
  const OverrideKeys: set<Key> :=
    {CheckTape, CheckTarget, StartTape, StopTape, StartTarget, StopTarget, AutoModeLaser, DarkModeLaser, AutoShutterPump}

  /** The dark-image override, one assignment per line of the source. */
  function Override(r: Record): (o: Record)
    ensures o.Keys == r.Keys + OverrideKeys
  {
    r[CheckTape := Flag(false)]
     [CheckTarget := Flag(false)]
     [StartTape := Flag(false)]
     [StopTape := Flag(false)]
     [StartTarget := Flag(false)]
     [StopTarget := Flag(false)]
     [AutoModeLaser := Flag(false)]
     [DarkModeLaser := Flag(true)]
     [AutoShutterPump := Flag(false)]
  }

  /** The override sets darkModeLaser and clears the other eight keys it names; every
      other key (waitTime and checkCamTemp among them) keeps its presence and value. */
  lemma OverrideFields(r: Record)
    ensures Override(r).Keys == r.Keys + OverrideKeys
    ensures forall k :: k in OverrideKeys ==> Override(r)[k] == Flag(k == DarkModeLaser)
    ensures forall k :: k !in OverrideKeys && k in r ==> Override(r)[k] == r[k]
    ensures WaitTime !in OverrideKeys && CheckCamTemp !in OverrideKeys
  {
    OverrideSets(r);
    OverrideKeeps(r);
  }

  /** The values of the nine overridden keys. */
  lemma OverrideSets(r: Record)
    ensures forall k :: k in OverrideKeys ==> Override(r)[k] == Flag(k == DarkModeLaser)
  {
  }

  /** Keys outside the override keep their values. */
  lemma OverrideKeeps(r: Record)
    ensures forall k :: k !in OverrideKeys && k in r ==> Override(r)[k] == r[k]
  {
  }

  /** Overriding twice is overriding once. */
  lemma OverrideIdempotent(r: Record)
    ensures Override(Override(r)) == Override(r)
  {
    OverrideFields(r);
    OverrideFields(Override(r));
  }

  /** The acquisition of `snap` and `dark_image_acquire` (lines 75-77, 125-127):
      user_pre_scan, user_pre_acq and ct, each only if the previous one succeeded. */
  function Acquisition(env: Env, broken: set<Name>): Run {
    Then(Then(RunHook(UserPreScan, env, broken), RunHook(UserPreAcq, env, broken)), Leaf("ct", broken))
  }

  /** The acquisition always dispatches user_pre_scan first and, when it succeeds, ct last. */
  lemma AcquisitionEnds(env: Env, broken: set<Name>)
    ensures |Acquisition(env, broken).trace| > 0 && Acquisition(env, broken).trace[0] == "user_pre_scan"
    ensures Acquisition(env, broken).Ok() ==> Acquisition(env, broken).trace[|Acquisition(env, broken).trace| - 1] == "ct"
  {
    var a := RunHook(UserPreScan, env, broken);
    var b := RunHook(UserPreAcq, env, broken);
    ThenFacts(a, b);
    ThenFacts(Then(a, b), Leaf("ct", broken));
  }

  /** `snap` (lines 74-80): below one shot it only warns; otherwise the acquisition
      followed by user_post_scan. It never changes the environment. */
  function Snap(integTime: real, env: Env, broken: set<Name>): (run: Run)
    ensures integTime < MinIntegration ==> run == Run([], [ShortIntegration], None)
    ensures integTime >= MinIntegration ==> |run.trace| > 0 && run.trace[0] == "user_pre_scan"
    ensures integTime >= MinIntegration && env.acqConf.None? ==>
      run == Run(["user_pre_scan"], [], Some(EnvMissing(AcqConfVar)))
  {
    if integTime >= MinIntegration then
      Then(Acquisition(env, broken), RunHook(UserPostScan, env, broken))
    else
      Run([], [ShortIntegration], None)
  }

  /** `snap` at or above one shot runs user_pre_scan, user_pre_acq, ct and user_post_scan
      in that order, each only if the one before returned: when all four succeed the
      trace is their four traces one after the other; when one fails, nothing after it
      is dispatched and its exception ends `snap`. */
  lemma SnapOrder(integTime: real, env: Env, broken: set<Name>)
    requires integTime >= MinIntegration
    ensures var pre := RunHook(UserPreScan, env, broken);
      var acq := RunHook(UserPreAcq, env, broken);
      var post := RunHook(UserPostScan, env, broken);
      var run := Snap(integTime, env, broken);
      pre.trace[0] == "user_pre_scan" && acq.trace[0] == "user_pre_acq" && post.trace[0] == "user_post_scan" &&
      (pre.Ok() && acq.Ok() && "ct" !in broken && post.Ok() ==>
        run.Ok() && run.trace == pre.trace + acq.trace + ["ct"] + post.trace) &&
      (!pre.Ok() ==> run == pre) &&
      (pre.Ok() && !acq.Ok() ==> run.trace == pre.trace + acq.trace && run.error == acq.error) &&
      (pre.Ok() && acq.Ok() && "ct" in broken ==>
        run.trace == pre.trace + acq.trace + ["ct"] && run.error == Some(MacroFailed("ct"))) &&
      (pre.Ok() && acq.Ok() && "ct" !in broken && !post.Ok() ==> run.error == post.error)
  {
    var a := RunHook(UserPreScan, env, broken);
    var b := RunHook(UserPreAcq, env, broken);
    var c := Leaf("ct", broken);
    var d := RunHook(UserPostScan, env, broken);
    ThenFacts(a, b);
    ThenFacts(Then(a, b), c);
    if a.Ok() && b.Ok() && c.Ok() && d.Ok() {
      ThenChain(a, b, c, d);
    }
  }

  /** A hook whose body is clean runs to its end and dispatches all of its body. */
  lemma CleanHook(h: Hook, env: Env, broken: set<Name>)
    requires env.acqConf.Some? && Clean(HookBody(h, env.acqConf.value), broken)
    ensures RunHook(h, env, broken).Ok()
    ensures RunHook(h, env, broken).trace == [HookName(h)] + Dispatched(HookBody(h, env.acqConf.value))
  {
  }

  lemma ThenChain(a: Run, b: Run, c: Run, d: Run)
    requires a.Ok() && b.Ok() && c.Ok() && d.Ok()
    ensures Then(Then(Then(a, b), c), d).Ok()
    ensures Then(Then(Then(a, b), c), d).trace == a.trace + b.trace + c.trace + d.trace
  {
  }

  /** The unbound-variable quirk seen from `snap`: without startTape the first hook
      raises and neither ct nor user_post_scan is dispatched. */
  lemma SnapMissingStartTape(integTime: real, r: Record, broken: set<Name>)
    requires integTime >= MinIntegration && StartTape !in r
    ensures var run := Snap(integTime, Env(Some(r), None), broken);
      run.error == Some(Unbound("start_tape")) && run.trace == ["user_pre_scan"] &&
      run.notices == [MissingKey(StartTape)]
  {
    var steps := PreScan(r);
    assert steps == [Warn(StartTape), Raise(Unbound("start_tape"))];
    assert steps[1..] == [Raise(Unbound("start_tape"))];
    assert Perform(steps, broken) == Run([], [MissingKey(StartTape)], Some(Unbound("start_tape")));
  }

  /** Under the dark override `user_pre_scan` always completes, dispatching only
      laser_dark_mode and then acqrep. */
  lemma DarkPreScan(r: Record)
    ensures !Raises(PreScan(Override(r)))
    ensures Dispatched(PreScan(Override(r))) == ["laser_dark_mode", "acqrep"]
  {
    OverrideFields(r);
    PreScanDecision(Override(r));
  }

  /** Under the dark override `user_pre_acq` never dispatches tape_check; it dispatches
      ccd_check iff the saved record asks for it, and sleeps as the saved record says. */
  lemma DarkPreAcq(r: Record)
    ensures !Raises(PreAcq(Override(r)))
    ensures Dispatched(PreAcq(Override(r))) == if Flagged(r, CheckCamTemp) then ["ccd_check"] else []
    ensures Pauses(PreAcq(Override(r))) == Pauses(PreAcq(r))
  {
    OverrideFields(r);
    PreAcqDecision(Override(r));
    PreAcqDecision(r);
  }

  lemma PrefixExtend(s: seq<Name>, t: seq<Name>, u: seq<Name>)
    requires s <= t
    ensures s <= t + u
  {
    assert (t + u)[..|s|] == t[..|s|];
  }

  lemma PrefixAfter(s: seq<Name>, t: seq<Name>, u: seq<Name>)
    requires t <= u
    ensures s + t <= s + u
  {
    assert (s + u)[..|s + t|] == s + u[..|t|];
  }

  lemma PrefixMembers(s: seq<Name>, t: seq<Name>, x: Name)
    requires s <= t && x !in t
    ensures x !in s
  {
  }

  /** The acquisition over a record whose two hooks raise nowhere: its trace is a prefix
      of the two hooks' names with what they dispatch, then ct; and all of it when none
      of the dispatched macros fails. */
  lemma AcquisitionTrace(d: Record, broken: set<Name>, scan: seq<Name>, acq: seq<Name>)
    requires !Raises(PreScan(d)) && Dispatched(PreScan(d)) == scan
    requires !Raises(PreAcq(d)) && Dispatched(PreAcq(d)) == acq
    ensures Acquisition(Env(Some(d), None), broken).trace <= ["user_pre_scan"] + scan + ["user_pre_acq"] + acq + ["ct"]
    ensures (forall x :: x in scan + acq ==> x !in broken) && "ct" !in broken ==>
      Acquisition(Env(Some(d), None), broken).Ok() &&
      Acquisition(Env(Some(d), None), broken).trace == ["user_pre_scan"] + scan + ["user_pre_acq"] + acq + ["ct"]
  {
    var env := Env(Some(d), None);
    var a := RunHook(UserPreScan, env, broken);
    var b := RunHook(UserPreAcq, env, broken);
    assert HookBody(UserPreScan, d) == PreScan(d) && HookBody(UserPreAcq, d) == PreAcq(d);
    var x, y := ["user_pre_scan"] + scan, ["user_pre_acq"] + acq;
    assert x + y + ["ct"] == ["user_pre_scan"] + scan + ["user_pre_acq"] + acq + ["ct"];
    ChainPrefix(a, b, Leaf("ct", broken), x, y, ["ct"]);
    if (forall x :: x in scan + acq ==> x !in broken) && "ct" !in broken {
      CleanHooks(d, broken, scan, acq);
    }
  }

  /** Both hook bodies are clean when they raise nowhere and none of their dispatches fails. */
  lemma CleanHooks(d: Record, broken: set<Name>, scan: seq<Name>, acq: seq<Name>)
    requires !Raises(PreScan(d)) && Dispatched(PreScan(d)) == scan
    requires !Raises(PreAcq(d)) && Dispatched(PreAcq(d)) == acq
    requires forall x :: x in scan + acq ==> x !in broken
    ensures Clean(PreScan(d), broken) && Clean(PreAcq(d), broken)
  {
    forall i | 0 <= i < |scan| ensures scan[i] !in broken { assert scan[i] in scan + acq; }
    forall i | 0 <= i < |acq| ensures acq[i] !in broken { assert acq[i] in scan + acq; }
    CleanDispatches(PreScan(d), broken);
    CleanDispatches(PreAcq(d), broken);
  }

  /** Three runs one after the other, each a prefix of its full trace and the whole of it
      on success: the chain is a prefix of the three full traces, all of them when every
      run succeeds. */
  lemma ChainPrefix(a: Run, b: Run, c: Run, x: seq<Name>, y: seq<Name>, z: seq<Name>)
    requires a.trace <= x && (a.Ok() ==> a.trace == x)
    requires b.trace <= y && (b.Ok() ==> b.trace == y)
    requires c.trace == z
    ensures Then(Then(a, b), c).trace <= x + y + z
    ensures a.Ok() && b.Ok() && c.Ok() ==> Then(Then(a, b), c).Ok() && Then(Then(a, b), c).trace == x + y + z
  {
    ThenFacts(a, b);
    ThenFacts(Then(a, b), c);
    if !a.Ok() {
      assert x + y + z == x + (y + z);
      PrefixExtend(a.trace, x, y + z);
    } else if !b.Ok() {
      PrefixAfter(x, b.trace, y);
      PrefixExtend(x + b.trace, x + y, z);
    }
  }

  /** The dispatches of the acquisition under the dark override when nothing fails. */
  function DarkSequence(r: Record): seq<Name> {
    ["user_pre_scan"] + ["laser_dark_mode", "acqrep"] + ["user_pre_acq"] +
    (if Flagged(r, CheckCamTemp) then ["ccd_check"] else []) + ["ct"]
  }

  /** The acquisition under the dark override, whatever fails: its trace is a prefix of
      the dark-mode sequence, so it never turns the tape or the target on, nor checks
      the tape, nor selects the scan laser mode; when none of laser_dark_mode, acqrep,
      ccd_check and ct fails, its trace is the whole sequence. */
  lemma DarkAcquisition(r: Record, broken: set<Name>)
    ensures Acquisition(Env(Some(Override(r)), None), broken).trace <= DarkSequence(r)
    ensures forall x :: x in {"tape_on", "target_on", "tape_check", "laser_scan_mode"} ==>
      x !in Acquisition(Env(Some(Override(r)), None), broken).trace
    ensures "laser_dark_mode" !in broken && "acqrep" !in broken && "ccd_check" !in broken && "ct" !in broken ==>
      Acquisition(Env(Some(Override(r)), None), broken).Ok() &&
      Acquisition(Env(Some(Override(r)), None), broken).trace == DarkSequence(r)
  {
    DarkTrace(r, broken);
    if "laser_dark_mode" !in broken && "acqrep" !in broken && "ccd_check" !in broken && "ct" !in broken {
      DarkClean(r, broken);
    }
    DarkSequenceAvoids(r);
    forall x | x in {"tape_on", "target_on", "tape_check", "laser_scan_mode"}
      ensures x !in Acquisition(Env(Some(Override(r)), None), broken).trace
    {
      PrefixMembers(Acquisition(Env(Some(Override(r)), None), broken).trace, DarkSequence(r), x);
    }
  }

  /** The trace part of `DarkAcquisition`, from the two dark hook bodies. */
  lemma DarkTrace(r: Record, broken: set<Name>)
    ensures Acquisition(Env(Some(Override(r)), None), broken).trace <= DarkSequence(r)
  {
    var cc: seq<Name> := if Flagged(r, CheckCamTemp) then ["ccd_check"] else [];
    DarkPreScan(r);
    DarkPreAcq(r);
    AcquisitionTrace(Override(r), broken, ["laser_dark_mode", "acqrep"], cc);
    assert DarkSequence(r) == ["user_pre_scan"] + ["laser_dark_mode", "acqrep"] + ["user_pre_acq"] + cc + ["ct"];
  }

  /** The clean part of `DarkAcquisition`: with none of its macros failing, the dark
      acquisition runs the whole sequence. */
  lemma DarkClean(r: Record, broken: set<Name>)
    requires "laser_dark_mode" !in broken && "acqrep" !in broken && "ccd_check" !in broken && "ct" !in broken
    ensures Acquisition(Env(Some(Override(r)), None), broken).Ok()
    ensures Acquisition(Env(Some(Override(r)), None), broken).trace == DarkSequence(r)
  {
    DarkPreScan(r);
    DarkPreAcq(r);
    CleanAcquisition(Override(r), broken, if Flagged(r, CheckCamTemp) then ["ccd_check"] else []);
  }

  lemma CleanAcquisition(d: Record, broken: set<Name>, cc: seq<Name>)
    requires !Raises(PreScan(d)) && Dispatched(PreScan(d)) == ["laser_dark_mode", "acqrep"]
    requires !Raises(PreAcq(d)) && Dispatched(PreAcq(d)) == cc
    requires "laser_dark_mode" !in broken && "acqrep" !in broken && "ct" !in broken
    requires cc == [] || (cc == ["ccd_check"] && "ccd_check" !in broken)
    ensures Acquisition(Env(Some(d), None), broken).Ok()
    ensures Acquisition(Env(Some(d), None), broken).trace == ["user_pre_scan"] + ["laser_dark_mode", "acqrep"] + ["user_pre_acq"] + cc + ["ct"]
  {
    assert forall x :: x in ["laser_dark_mode", "acqrep"] + cc ==> x !in broken;
    AcquisitionTrace(d, broken, ["laser_dark_mode", "acqrep"], cc);
  }




  /** None of the tape, target or scan-laser macros is in the dark-mode sequence. */
  lemma DarkSequenceAvoids(r: Record)
    ensures forall x :: x in {"tape_on", "target_on", "tape_check", "laser_scan_mode"} ==> x !in DarkSequence(r)
  {
  }

  /** A body that raises nowhere is clean when none of the macros it dispatches fails. */
  lemma {:induction false} CleanDispatches(steps: seq<Step>, broken: set<Name>)
    requires !Raises(steps)
    requires forall i :: 0 <= i < |Dispatched(steps)| ==> Dispatched(steps)[i] !in broken
    ensures Clean(steps, broken)
  {
    if steps != [] {
      var rest := Dispatched(steps[1..]);
      var here: seq<Name> := if steps[0].Dispatch? then [steps[0].name] else [];
      assert Dispatched(steps) == here + rest;
      if steps[0].Dispatch? {
        assert Dispatched(steps)[0] == steps[0].name;
      }
      forall i | 0 <= i < |rest|
        ensures rest[i] !in broken
      {
        assert rest[i] == Dispatched(steps)[i + |here|];
      }
      CleanDispatches(steps[1..], broken);
    }
  }

  /** `dark_image_pump` (lines 87-104): overrides the stored record, runs the timed
      scan (a macro outside the model), and writes the saved copy back only if the
      scan returned; a failing scan leaves the override stored. */
  method DarkImagePump(s: Session) returns (st: Status)
    modifies s
    ensures old(s.env).acqConf.None? ==>
      st == Raised(EnvMissing(AcqConfVar)) && s.env == old(s.env) && s.trace == old(s.trace) && s.notices == old(s.notices)
    ensures old(s.env).acqConf.Some? ==>
      s.trace == old(s.trace) + ["timescan"] && s.notices == old(s.notices) &&
      if "timescan" in s.broken then
        st == Raised(MacroFailed("timescan")) && s.env == old(s.env).(acqConf := Some(Override(old(s.env).acqConf.value)))
      else
        st == Done && s.env == old(s.env)
  {
    if s.env.acqConf.None? {
      return Raised(EnvMissing(AcqConfVar));
    }
    var acqConf := s.env.acqConf.value;
    var acqConfBefore := acqConf;
    acqConf := Override(acqConf);
    s.env := s.env.(acqConf := Some(acqConf));
    var ok := s.Exec("timescan");
    if !ok {
      return Raised(MacroFailed("timescan"));
    }
    s.env := s.env.(acqConf := Some(acqConfBefore));
    st := Done;
  }

  /** `dark_image_acquire` (lines 110-131): the acquisition runs under the override;
      only if it returns is the saved copy written back, and then user_post_scan runs
      against the original flags. */
  method DarkImageAcquire(s: Session) returns (st: Status)
    modifies s
    ensures old(s.env).acqConf.None? ==>
      st == Raised(EnvMissing(AcqConfVar)) && s.env == old(s.env) && s.trace == old(s.trace) && s.notices == old(s.notices)
    ensures old(s.env).acqConf.Some? ==>
      var dark := old(s.env).(acqConf := Some(Override(old(s.env).acqConf.value)));
      var acq := Acquisition(dark, s.broken);
      var post := RunHook(UserPostScan, old(s.env), s.broken);
      if !acq.Ok() then
        st == StatusOf(acq) && s.env == dark &&
        s.trace == old(s.trace) + acq.trace && s.notices == old(s.notices) + acq.notices
      else
        st == StatusOf(post) && s.env == old(s.env) &&
        s.trace == old(s.trace) + acq.trace + post.trace && s.notices == old(s.notices) + acq.notices + post.notices
  {
    if s.env.acqConf.None? {
      return Raised(EnvMissing(AcqConfVar));
    }
    var acqConf := s.env.acqConf.value;
    var acqConfBefore := acqConf;
    acqConf := Override(acqConf);
    s.env := s.env.(acqConf := Some(acqConf));
    var acq := Acquisition(s.env, s.broken);
    s.Append(acq);
    if !acq.Ok() {
      return StatusOf(acq);
    }
    s.env := s.env.(acqConf := Some(acqConfBefore));
    var post := RunHook(UserPostScan, s.env, s.broken);
    s.Append(post);
    st := StatusOf(post);
  }

  /** user_post_scan inside `dark_image_acquire` sees the saved record, not the
      override: it stops the tape, the target and the laser as the original flags say. */
  lemma DarkPostScanSeesOriginal(r: Record, broken: set<Name>)
    requires AutoModeLaser in r && Clean(PostScan(r), broken)
    ensures RunHook(UserPostScan, Env(Some(r), None), broken).Ok()
    ensures RunHook(UserPostScan, Env(Some(r), None), broken).trace ==
      ["user_post_scan"] +
      (if Flagged(r, StopTape) then ["tape_off"] else []) +
      (if Flagged(r, StopTarget) then ["target_off"] else []) +
      (if Flagged(r, AutoModeLaser) then ["laser_ready_mode"] else [])
  {
    CleanHook(UserPostScan, Env(Some(r), None), broken);
    PostScanDecision(r);
  }
}
