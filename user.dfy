/** macros/user.py: the hooks the scan machinery runs around acquisitions and motor
    moves. The three scan hooks are decision rules from the acquisition record to the
    macros they dispatch; the two move hooks close and reopen the pump shutter through
    the `autoClosePump` environment flag. */
module User {
  import opened Host

  /** A swallowed KeyError for `k` reports a warning. */
  function WarnIfMissing(r: Record, k: Key): seq<Step> {
    if k in r then [] else [Warn(k)]
  }

  /** Dispatch `name` iff `cond`. */
  function When(cond: bool, name: Name): seq<Step> {
    if cond then [Dispatch(name)] else []
  }

  /** `user_pre_acq` (lines 14-41): every key defaults (waitTime to 0, the checks to
      False) with a warning; tape_check, then ccd_check; then a sleep if waitTime > 0. */
  function PreAcq(r: Record): (steps: seq<Step>)
    ensures !Raises(steps)
  {
    PreAcqLookupsFacts(r);
    PreAcqChecksFacts(r);
    PreAcqSleepFacts(r);
    CleanAppend(PreAcqLookups(r), PreAcqChecks(r), {});
    CleanAppend(PreAcqLookups(r) + PreAcqChecks(r), PreAcqSleep(r), {});
    PreAcqLookups(r) + PreAcqChecks(r) + PreAcqSleep(r)
  }

  /** Lines 15-31: the three lookups, each warning when its key is missing. */
  function PreAcqLookups(r: Record): seq<Step> {
    WarnIfMissing(r, WaitTime) + WarnIfMissing(r, CheckTape) + WarnIfMissing(r, CheckCamTemp)
  }

  /** Lines 33-37. */
  function PreAcqChecks(r: Record): seq<Step> {
    When(Flagged(r, CheckTape), "tape_check") + When(Flagged(r, CheckCamTemp), "ccd_check")
  }

  /** Lines 39-41: `waittime > 0`, with a missing waitTime read as 0. */
  function PreAcqSleep(r: Record): seq<Step> {
    if WaitTime in r && Positive(r[WaitTime]) then [Pause(r[WaitTime])] else []
  }

  /** `user_pre_scan` (lines 47-77). A missing startTape or darkModeLaser, or a missing
      autoModeLaser when the dark mode is off, leaves the local variable unbound and the
      next `if` raises; target_on is gated on start_tape, and start_target is never used. */
  function PreScan(r: Record): seq<Step> {
    WarnIfMissing(r, StartTape) +
    if StartTape !in r then [Raise(Unbound("start_tape"))]
    else TapeAndTarget(r, Truthy(r[StartTape])) + LaserSteps(r)
  }

  /** Lines 53-61: tape_on, the startTarget lookup, then target_on under the same test. */
  function TapeAndTarget(r: Record, startTape: bool): seq<Step> {
    When(startTape, "tape_on") + WarnIfMissing(r, StartTarget) + When(startTape, "target_on")
  }

  /** Lines 63-77: the laser mode, then acqrep. */
  function LaserSteps(r: Record): seq<Step> {
    WarnIfMissing(r, DarkModeLaser) +
    if DarkModeLaser !in r then [Raise(Unbound("dark_mode_laser"))]
    else if Truthy(r[DarkModeLaser]) then [Dispatch("laser_dark_mode"), Dispatch("acqrep")]
    else AutoLaserSteps(r)
  }

  /** Lines 70-77: the auto mode, consulted only when the dark mode is off. */
  function AutoLaserSteps(r: Record): seq<Step> {
    WarnIfMissing(r, AutoModeLaser) +
    if AutoModeLaser !in r then [Raise(Unbound("auto_mode_laser"))]
    else When(Truthy(r[AutoModeLaser]), "laser_scan_mode") + [Dispatch("acqrep")]
  }

  /** `user_post_scan` (lines 98-124): stopTape and stopTarget default to False with a
      warning; a missing autoModeLaser leaves its local unbound and raises. */
  function PostScan(r: Record): (steps: seq<Step>)
    ensures forall i :: 0 <= i < |steps| && steps[i].Raise? ==> i == |steps| - 1 && AutoModeLaser !in r
  {
    StopSteps(r, StopTape, "tape_off") + StopSteps(r, StopTarget, "target_off") + ReadySteps(r)
  }

  /** Lines 100-116: a lookup defaulting to False, then the macro iff the flag is set. */
  function StopSteps(r: Record, k: Key, name: Name): seq<Step> {
    WarnIfMissing(r, k) + When(Flagged(r, k), name)
  }

  /** Lines 118-124: no default, so a missing autoModeLaser raises. */
  function ReadySteps(r: Record): seq<Step> {
    WarnIfMissing(r, AutoModeLaser) +
    if AutoModeLaser !in r then [Raise(Unbound("auto_mode_laser"))]
    else When(Truthy(r[AutoModeLaser]), "laser_ready_mode")
  }

  /** Appending to a body that does not raise keeps the last step and what raises before it. */
  lemma EndsWith(a: seq<Step>, b: seq<Step>)
    requires b != [] && !Raises(a)
    ensures (a + b)[|a + b| - 1] == b[|b| - 1]
    ensures Raises((a + b)[..|a + b| - 1]) <==> Raises(b[..|b| - 1])
  {
    assert (a + b)[..|a + b| - 1] == a + b[..|b| - 1];
    CleanAppend(a, b[..|b| - 1], {});
  }

  /** The laser part of `user_pre_scan` raises only at its end, and otherwise ends with acqrep. */
  lemma LaserStepsEnd(r: Record)
    ensures LaserSteps(r) != [] && !Raises(LaserSteps(r)[..|LaserSteps(r)| - 1])
    ensures !LaserSteps(r)[|LaserSteps(r)| - 1].Raise? ==> LaserSteps(r)[|LaserSteps(r)| - 1] == Dispatch("acqrep")
  {
    WarnFacts(r, DarkModeLaser);
    WarnFacts(r, AutoModeLaser);
    var tail: seq<Step> :=
      if DarkModeLaser !in r then [Raise(Unbound("dark_mode_laser"))]
      else if Truthy(r[DarkModeLaser]) then [Dispatch("laser_dark_mode"), Dispatch("acqrep")]
      else AutoLaserSteps(r);
    if DarkModeLaser in r && !Truthy(r[DarkModeLaser]) {
      var last: seq<Step> :=
        if AutoModeLaser !in r then [Raise(Unbound("auto_mode_laser"))]
        else When(Truthy(r[AutoModeLaser]), "laser_scan_mode") + [Dispatch("acqrep")];
      if AutoModeLaser in r {
        WhenFacts(Truthy(r[AutoModeLaser]), "laser_scan_mode");
        EndsWith(When(Truthy(r[AutoModeLaser]), "laser_scan_mode"), [Dispatch("acqrep")]);
      }
      EndsWith(WarnIfMissing(r, AutoModeLaser), last);
    }
    EndsWith(WarnIfMissing(r, DarkModeLaser), tail);
  }

  /** `user_pre_scan` can raise only as its last step (an unbound local ends the hook), and
      when it does not raise, its last step dispatches acqrep. */
  lemma PreScanShape(r: Record)
    ensures PreScan(r) != [] && !Raises(PreScan(r)[..|PreScan(r)| - 1])
    ensures !PreScan(r)[|PreScan(r)| - 1].Raise? ==> PreScan(r)[|PreScan(r)| - 1] == Dispatch("acqrep")
  {
    var w := WarnIfMissing(r, StartTape);
    WarnFacts(r, StartTape);
    if StartTape !in r {
      assert PreScan(r) == w + [Raise(Unbound("start_tape"))];
      EndsWith(w, [Raise(Unbound("start_tape"))]);
    } else {
      var t := TapeAndTarget(r, Truthy(r[StartTape]));
      assert PreScan(r) == w + (t + LaserSteps(r));
      TapeAndTargetFacts(r, Truthy(r[StartTape]));
      LaserStepsEnd(r);
      EndsWith(t, LaserSteps(r));
      EndsWith(w, t + LaserSteps(r));
    }
  }

  /** `[k]` when `k` is missing from `r`: the key a lookup of it warns about. */
  function Absent(r: Record, k: Key): seq<Key> {
    if k in r then [] else [k]
  }

  lemma WhenFacts(cond: bool, name: Name)
    ensures Dispatched(When(cond, name)) == if cond then [name] else []
    ensures Warned(When(cond, name)) == [] && Pauses(When(cond, name)) == [] && !Raises(When(cond, name))
  {
  }

  lemma WarnFacts(r: Record, k: Key)
    ensures Dispatched(WarnIfMissing(r, k)) == [] && Pauses(WarnIfMissing(r, k)) == []
    ensures Warned(WarnIfMissing(r, k)) == Absent(r, k)
    ensures !Raises(WarnIfMissing(r, k))
  {
  }

  /** The facts of the concatenation of two bodies, in one call. */
  lemma Append(a: seq<Step>, b: seq<Step>)
    ensures Dispatched(a + b) == Dispatched(a) + Dispatched(b)
    ensures Warned(a + b) == Warned(a) + Warned(b)
    ensures Pauses(a + b) == Pauses(a) + Pauses(b)
    ensures Raises(a + b) <==> Raises(a) || Raises(b)
  {
    DispatchedAppend(a, b);
    WarnedAppend(a, b);
    PausesAppend(a, b);
    CleanAppend(a, b, {});
  }

  lemma Append3(a: seq<Step>, b: seq<Step>, c: seq<Step>)
    ensures Dispatched(a + b + c) == Dispatched(a) + Dispatched(b) + Dispatched(c)
    ensures Warned(a + b + c) == Warned(a) + Warned(b) + Warned(c)
    ensures Pauses(a + b + c) == Pauses(a) + Pauses(b) + Pauses(c)
    ensures Raises(a + b + c) <==> Raises(a) || Raises(b) || Raises(c)
  {
    Append(a, b);
    Append(a + b, c);
  }

  /** `user_pre_acq` never raises; it dispatches tape_check iff checkTape is set, then
      ccd_check iff checkCamTemp is set; it warns about exactly the missing keys among
      waitTime, checkTape and checkCamTemp, in that order; it sleeps once, for waitTime,
      iff that is positive (a missing waitTime counts as 0). */
  lemma PreAcqDecision(r: Record)
    ensures !Raises(PreAcq(r))
    ensures Dispatched(PreAcq(r)) ==
      (if Flagged(r, CheckTape) then ["tape_check"] else []) +
      (if Flagged(r, CheckCamTemp) then ["ccd_check"] else [])
    ensures Warned(PreAcq(r)) == Absent(r, WaitTime) + Absent(r, CheckTape) + Absent(r, CheckCamTemp)
    ensures Pauses(PreAcq(r)) == if WaitTime in r && Positive(r[WaitTime]) then [r[WaitTime]] else []
  {
    PreAcqLookupsFacts(r);
    PreAcqChecksFacts(r);
    PreAcqSleepFacts(r);
    Append3(PreAcqLookups(r), PreAcqChecks(r), PreAcqSleep(r));
  }

  lemma PreAcqSleepFacts(r: Record)
    ensures !Raises(PreAcqSleep(r)) && Dispatched(PreAcqSleep(r)) == [] && Warned(PreAcqSleep(r)) == []
    ensures Pauses(PreAcqSleep(r)) == if WaitTime in r && Positive(r[WaitTime]) then [r[WaitTime]] else []
  {
    if WaitTime in r && Positive(r[WaitTime]) {
      assert PreAcqSleep(r)[1..] == [];
    }
  }

  lemma PreAcqLookupsFacts(r: Record)
    ensures !Raises(PreAcqLookups(r)) && Dispatched(PreAcqLookups(r)) == [] && Pauses(PreAcqLookups(r)) == []
    ensures Warned(PreAcqLookups(r)) == Absent(r, WaitTime) + Absent(r, CheckTape) + Absent(r, CheckCamTemp)
  {
    WarnFacts(r, WaitTime); WarnFacts(r, CheckTape); WarnFacts(r, CheckCamTemp);
    Append3(WarnIfMissing(r, WaitTime), WarnIfMissing(r, CheckTape), WarnIfMissing(r, CheckCamTemp));
  }

  lemma PreAcqChecksFacts(r: Record)
    ensures !Raises(PreAcqChecks(r)) && Warned(PreAcqChecks(r)) == [] && Pauses(PreAcqChecks(r)) == []
    ensures Dispatched(PreAcqChecks(r)) ==
      (if Flagged(r, CheckTape) then ["tape_check"] else []) +
      (if Flagged(r, CheckCamTemp) then ["ccd_check"] else [])
  {
    WhenFacts(Flagged(r, CheckTape), "tape_check"); WhenFacts(Flagged(r, CheckCamTemp), "ccd_check");
    Append(When(Flagged(r, CheckTape), "tape_check"), When(Flagged(r, CheckCamTemp), "ccd_check"));
  }

  /** `user_pre_acq` never consults checkTarget. */
  lemma PreAcqIgnoresCheckTarget(r: Record, v: Field)
    ensures PreAcq(r[CheckTarget := v]) == PreAcq(r)
    ensures PreAcq(r - {CheckTarget}) == PreAcq(r)
  {
  }

  /** The record lets `user_pre_scan` run to its end: startTape and darkModeLaser are
      present, and so is autoModeLaser unless the dark mode is on. */
  predicate PreScanCompletes(r: Record) {
    StartTape in r && DarkModeLaser in r && (Truthy(r[DarkModeLaser]) || AutoModeLaser in r)
  }

  /** The laser macro `user_pre_scan` selects: dark mode wins over auto mode. */
  function LaserMacro(r: Record): seq<Name>
    requires DarkModeLaser in r && (Truthy(r[DarkModeLaser]) || AutoModeLaser in r)
  {
    if Truthy(r[DarkModeLaser]) then ["laser_dark_mode"]
    else if Truthy(r[AutoModeLaser]) then ["laser_scan_mode"]
    else []
  }

  lemma TapeAndTargetFacts(r: Record, startTape: bool)
    ensures !Raises(TapeAndTarget(r, startTape))
    ensures Dispatched(TapeAndTarget(r, startTape)) == if startTape then ["tape_on", "target_on"] else []
    ensures Warned(TapeAndTarget(r, startTape)) == Absent(r, StartTarget)
  {
    var a := When(startTape, "tape_on");
    var b := WarnIfMissing(r, StartTarget);
    var c := When(startTape, "target_on");
    WhenFacts(startTape, "tape_on"); WarnFacts(r, StartTarget); WhenFacts(startTape, "target_on");
    Append(a, b); Append(a + b, c);
  }

  lemma AutoLaserFacts(r: Record)
    ensures Raises(AutoLaserSteps(r)) <==> AutoModeLaser !in r
    ensures AutoModeLaser in r ==>
      Dispatched(AutoLaserSteps(r)) == (if Truthy(r[AutoModeLaser]) then ["laser_scan_mode"] else []) + ["acqrep"]
    ensures Warned(AutoLaserSteps(r)) == Absent(r, AutoModeLaser)
  {
    var a := WarnIfMissing(r, AutoModeLaser);
    WarnFacts(r, AutoModeLaser);
    if AutoModeLaser in r {
      var b := When(Truthy(r[AutoModeLaser]), "laser_scan_mode");
      WhenFacts(Truthy(r[AutoModeLaser]), "laser_scan_mode");
      Append(b, [Dispatch("acqrep")]);
      Append(a, b + [Dispatch("acqrep")]);
    } else {
      Append(a, [Raise(Unbound("auto_mode_laser"))]);
    }
  }

  lemma LaserFacts(r: Record)
    ensures Raises(LaserSteps(r)) <==> !(DarkModeLaser in r && (Truthy(r[DarkModeLaser]) || AutoModeLaser in r))
    ensures DarkModeLaser in r && (Truthy(r[DarkModeLaser]) || AutoModeLaser in r) ==>
      Dispatched(LaserSteps(r)) == LaserMacro(r) + ["acqrep"]
    ensures Warned(LaserSteps(r)) == LaserWarnings(r)
  {
    var a := WarnIfMissing(r, DarkModeLaser);
    WarnFacts(r, DarkModeLaser);
    var tail: seq<Step> :=
      if DarkModeLaser !in r then [Raise(Unbound("dark_mode_laser"))]
      else if Truthy(r[DarkModeLaser]) then [Dispatch("laser_dark_mode"), Dispatch("acqrep")]
      else AutoLaserSteps(r);
    AutoLaserFacts(r);
    Append(a, tail);
    if DarkModeLaser !in r {
      assert Raises(tail);
    } else if Truthy(r[DarkModeLaser]) {
      assert tail[1..] == [Dispatch("acqrep")] && tail[1..][1..] == [];
      assert Dispatched(tail) == ["laser_dark_mode"] + Dispatched(tail[1..]);
    }
  }

  /** `user_pre_scan`'s decision table: tape_on and target_on both iff startTape, then at
      most one laser macro, then always acqrep; it raises iff the record is incomplete,
      and without startTape it raises before dispatching anything. */
  lemma PreScanDecision(r: Record)
    ensures Raises(PreScan(r)) <==> !PreScanCompletes(r)
    ensures PreScanCompletes(r) ==>
      Dispatched(PreScan(r)) ==
        (if Truthy(r[StartTape]) then ["tape_on", "target_on"] else []) + LaserMacro(r) + ["acqrep"]
    ensures StartTape !in r ==> Dispatched(PreScan(r)) == []
  {
    var w := WarnIfMissing(r, StartTape);
    WarnFacts(r, StartTape);
    if StartTape !in r {
      Append(w, [Raise(Unbound("start_tape"))]);
    } else {
      var t := TapeAndTarget(r, Truthy(r[StartTape]));
      TapeAndTargetFacts(r, Truthy(r[StartTape]));
      LaserFacts(r);
      Append(t, LaserSteps(r));
      Append(w, t + LaserSteps(r));
      assert PreScan(r) == w + (t + LaserSteps(r));
      assert Dispatched(PreScan(r)) == Dispatched(t) + Dispatched(LaserSteps(r));
    }
  }

  /** The missing keys among darkModeLaser and, with the dark mode off, autoModeLaser. */
  function LaserWarnings(r: Record): seq<Key> {
    Absent(r, DarkModeLaser) + if DarkModeLaser in r && !Truthy(r[DarkModeLaser]) then Absent(r, AutoModeLaser) else []
  }

  /** `user_pre_scan` warns about each missing key it looks up, in lookup order: startTape;
      then, unless that one was missing and raised, startTarget, darkModeLaser and, with
      the dark mode off, autoModeLaser. A missing startTarget is only warned about. */
  lemma PreScanWarnings(r: Record)
    ensures Warned(PreScan(r)) ==
      Absent(r, StartTape) + if StartTape in r then Absent(r, StartTarget) + LaserWarnings(r) else []
  {
    var w := WarnIfMissing(r, StartTape);
    WarnFacts(r, StartTape);
    if StartTape !in r {
      Append(w, [Raise(Unbound("start_tape"))]);
    } else {
      var t := TapeAndTarget(r, Truthy(r[StartTape]));
      TapeAndTargetFacts(r, Truthy(r[StartTape]));
      LaserFacts(r);
      Append(t, LaserSteps(r));
      Append(w, t + LaserSteps(r));
    }
  }

  /** In `user_pre_scan` target_on goes with tape_on, since both test startTape, and the
      value of startTarget changes nothing. */
  lemma PreScanTargetFollowsTape(r: Record, v: Field)
    requires StartTarget in r
    ensures PreScan(r[StartTarget := v]) == PreScan(r)
    ensures PreScanCompletes(r) ==> ("target_on" in Dispatched(PreScan(r)) <==> "tape_on" in Dispatched(PreScan(r)))
  {
    PreScanDecision(r);
  }

  /** The dark mode strictly dominates: with darkModeLaser set, laser_dark_mode is
      dispatched whatever autoModeLaser says (present or not), and laser_scan_mode is not. */
  lemma PreScanDarkDominates(r: Record, v: Field)
    requires StartTape in r && Flagged(r, DarkModeLaser)
    ensures !Raises(PreScan(r))
    ensures "laser_dark_mode" in Dispatched(PreScan(r)) && "laser_scan_mode" !in Dispatched(PreScan(r))
    ensures PreScan(r[AutoModeLaser := v]) == PreScan(r)
    ensures PreScan(r - {AutoModeLaser}) == PreScan(r)
  {
    PreScanDecision(r);
  }

  /** `user_post_scan` never consults darkModeLaser. */
  lemma PostScanIgnoresDarkMode(r: Record, v: Field)
    ensures PostScan(r[DarkModeLaser := v]) == PostScan(r)
    ensures PostScan(r - {DarkModeLaser}) == PostScan(r)
  {
  }

  /** `user_post_scan`: tape_off iff stopTape, target_off iff stopTarget, laser_ready_mode
      iff autoModeLaser; it raises iff autoModeLaser is missing (after the first two have
      been dispatched). */
  lemma PostScanDecision(r: Record)
    ensures Raises(PostScan(r)) <==> AutoModeLaser !in r
    ensures Dispatched(PostScan(r)) ==
      (if Flagged(r, StopTape) then ["tape_off"] else []) +
      (if Flagged(r, StopTarget) then ["target_off"] else []) +
      (if Flagged(r, AutoModeLaser) then ["laser_ready_mode"] else [])
    ensures Warned(PostScan(r)) == Absent(r, StopTape) + Absent(r, StopTarget) + Absent(r, AutoModeLaser)
  {
    StopFacts(r, StopTape, "tape_off");
    StopFacts(r, StopTarget, "target_off");
    var w := WarnIfMissing(r, AutoModeLaser);
    WarnFacts(r, AutoModeLaser);
    if AutoModeLaser in r {
      WhenFacts(Truthy(r[AutoModeLaser]), "laser_ready_mode");
      Append(w, When(Truthy(r[AutoModeLaser]), "laser_ready_mode"));
    } else {
      Append(w, [Raise(Unbound("auto_mode_laser"))]);
    }
    Append3(StopSteps(r, StopTape, "tape_off"), StopSteps(r, StopTarget, "target_off"), ReadySteps(r));
  }

  lemma StopFacts(r: Record, k: Key, name: Name)
    ensures !Raises(StopSteps(r, k, name))
    ensures Dispatched(StopSteps(r, k, name)) == if Flagged(r, k) then [name] else []
    ensures Warned(StopSteps(r, k, name)) == Absent(r, k)
  {
    WarnFacts(r, k);
    WhenFacts(Flagged(r, k), name);
    Append(WarnIfMissing(r, k), When(Flagged(r, k), name));
  }

  /** The three scan hooks, dispatched by name. */
  datatype Hook = UserPreAcq | UserPreScan | UserPostScan

  function HookName(h: Hook): Name {
    match h
    case UserPreAcq => "user_pre_acq"
    case UserPreScan => "user_pre_scan"
    case UserPostScan => "user_post_scan"
  }

  function HookBody(h: Hook, r: Record): seq<Step> {
    match h
    case UserPreAcq => PreAcq(r)
    case UserPreScan => PreScan(r)
    case UserPostScan => PostScan(r)
  }

  /** execMacro of a hook: recorded under its name; its unguarded getEnv raises when no
      record is stored; otherwise its body runs against the stored record. */
  function RunHook(h: Hook, env: Env, broken: set<Name>): (run: Run)
    ensures |run.trace| > 0 && run.trace[0] == HookName(h)
    ensures env.acqConf.None? ==> run == Run([HookName(h)], [], Some(EnvMissing(AcqConfVar)))
    ensures env.acqConf.Some? ==>
      run.Ok() == Clean(HookBody(h, env.acqConf.value), broken) &&
      run.trace <= [HookName(h)] + Dispatched(HookBody(h, env.acqConf.value)) &&
      (run.Ok() ==> run.trace == [HookName(h)] + Dispatched(HookBody(h, env.acqConf.value)))
  {
    match env.acqConf
    case None => Run([HookName(h)], [], Some(EnvMissing(AcqConfVar)))
    case Some(r) =>
      var body := Perform(HookBody(h, r), broken);
      PerformSpec(HookBody(h, r), broken);
      Run([HookName(h)] + body.trace, body.notices, body.error)
  }
  /** A hook reports, in order, the first of the warnings its body issues: all of them
      when it runs to its end, fewer only when a dispatch or a raise stops it; without
      acqConf it reports none. */
  lemma RunHookNotices(h: Hook, env: Env, broken: set<Name>)
    ensures env.acqConf.None? ==> RunHook(h, env, broken).notices == []
    ensures env.acqConf.Some? ==>
      var body, run := HookBody(h, env.acqConf.value), RunHook(h, env, broken);
      run.notices <= Missing(Warned(body)) &&
      (run.Ok() ==> run.notices == Missing(Warned(body)))
  {
    if env.acqConf.Some? {
      PerformSpec(HookBody(h, env.acqConf.value), broken);
    }
  }

  /** A hook whose only failure is the final raise of its body (the unbound local after a
      missing startTape, darkModeLaser or autoModeLaser) still dispatches and reports all
      of its body before that raise, and fails with that exception. */
  lemma RunHookRaisesLast(h: Hook, env: Env, broken: set<Name>)
    ensures env.acqConf.Some? ==>
      var body, run := HookBody(h, env.acqConf.value), RunHook(h, env, broken);
      body != [] && body[|body| - 1].Raise? && Clean(body[..|body| - 1], broken) ==>
        run.trace == [HookName(h)] + Dispatched(body) &&
        run.notices == Missing(Warned(body)) &&
        run.error == Some(body[|body| - 1].error)
  {
    if env.acqConf.Some? {
      var body := HookBody(h, env.acqConf.value);
      if body != [] && body[|body| - 1].Raise? && Clean(body[..|body| - 1], broken) {
        RaisesLast(body, broken);
      }
    }
  }



  // ---- Motor names: a motor needs the shutter when its lower-cased, stripped name is listed

  /** The motors a move of which needs the pump shutter closed. */
  const ShutterMotors: set<string> := {"h", "k", "l", "th", "tth", "q", "thc"}

  /** The characters `str.strip()` removes when given no argument: those `str.isspace()`
      accepts (the ASCII whitespace, the four ASCII separators and the Unicode spaces). */
  const Whitespace: set<char> :=
    {'\t', '\n', '\U{0B}', '\U{0C}', '\r', '\U{1C}', '\U{1D}', '\U{1E}', '\U{1F}', ' ',
     '\U{85}', '\U{A0}', '\U{1680}', '\U{2000}', '\U{2001}', '\U{2002}', '\U{2003}',
     '\U{2004}', '\U{2005}', '\U{2006}', '\U{2007}', '\U{2008}', '\U{2009}', '\U{200A}',
     '\U{2028}', '\U{2029}', '\U{202F}', '\U{205F}', '\U{3000}'}

  function LowerChar(c: char): char {
    if 'A' <= c <= 'Z' then (c as int - 'A' as int + 'a' as int) as char else c
  }

  /** `str.lower()` on ASCII letters. */
  function Lower(s: string): string {
    if s == [] then [] else [LowerChar(s[0])] + Lower(s[1..])
  }

  /** Leading characters of `ws` removed: `str.lstrip(ws)`. */
  function TrimStart(s: string, ws: set<char>): string {
    if s != [] && s[0] in ws then TrimStart(s[1..], ws) else s
  }

  /** Trailing characters of `ws` removed: `str.rstrip(ws)`. */
  function TrimEnd(s: string, ws: set<char>): string {
    if s != [] && s[|s| - 1] in ws then TrimEnd(s[..|s| - 1], ws) else s
  }

  /** `str.strip(ws)`; with no argument Python strips `Whitespace`. */
  function Strip(s: string, ws: set<char>): string {
    TrimEnd(TrimStart(s, ws), ws)
  }

  /** Lowercasing keeps the length and maps every character. */
  lemma {:induction false} LowerSpec(s: string)
    ensures |Lower(s)| == |s|
    ensures forall i :: 0 <= i < |s| ==> Lower(s)[i] == LowerChar(s[i])
  {
    if s != [] {
      LowerSpec(s[1..]);
    }
  }

  /** TrimStart keeps a suffix that does not start with a character of `ws`, and drops
      only such characters. */
  lemma {:induction false} TrimStartSpec(s: string, ws: set<char>)
    ensures |TrimStart(s, ws)| <= |s| && TrimStart(s, ws) == s[|s| - |TrimStart(s, ws)|..]
    ensures forall i :: 0 <= i < |s| - |TrimStart(s, ws)| ==> s[i] in ws
    ensures TrimStart(s, ws) != [] ==> TrimStart(s, ws)[0] !in ws
  {
    if s != [] && s[0] in ws {
      TrimStartSpec(s[1..], ws);
    }
  }

  /** TrimEnd keeps a prefix that does not end with a character of `ws`, and drops only
      such characters. */
  lemma {:induction false} TrimEndSpec(s: string, ws: set<char>)
    ensures |TrimEnd(s, ws)| <= |s| && TrimEnd(s, ws) == s[..|TrimEnd(s, ws)|]
    ensures forall i :: |TrimEnd(s, ws)| <= i < |s| ==> s[i] in ws
    ensures TrimEnd(s, ws) != [] ==> TrimEnd(s, ws)[|TrimEnd(s, ws)| - 1] !in ws
  {
    if s != [] && s[|s| - 1] in ws {
      TrimEndSpec(s[..|s| - 1], ws);
    }
  }

  /** What `strip` keeps is the part of `s` between its leading and its trailing
      characters of `ws`, with none of them at either end; stripping twice changes
      nothing. */
  lemma StripSlice(s: string, ws: set<char>)
    ensures exists i, j ::
      (0 <= i <= j <= |s| && Strip(s, ws) == s[i..j] &&
       (forall k :: 0 <= k < i ==> s[k] in ws) &&
       (forall k :: j <= k < |s| ==> s[k] in ws))
    ensures Strip(s, ws) != [] ==> Strip(s, ws)[0] !in ws && Strip(s, ws)[|Strip(s, ws)| - 1] !in ws
    ensures Strip(Strip(s, ws), ws) == Strip(s, ws)
  {
    StripBounds(s, ws);
    StripEnds(s, ws);
    StripTwice(s, ws);
  }

  lemma StripBounds(s: string, ws: set<char>)
    ensures exists i, j ::
      (0 <= i <= j <= |s| && Strip(s, ws) == s[i..j] &&
       (forall k :: 0 <= k < i ==> s[k] in ws) &&
       (forall k :: j <= k < |s| ==> s[k] in ws))
  {
    var u := TrimStart(s, ws);
    TrimStartSpec(s, ws);
    var i := |s| - |u|;
    var t := TrimEnd(u, ws);
    TrimEndSpec(u, ws);
    assert s[i..i + |t|] == t;
    forall k | i + |t| <= k < |s| ensures s[k] in ws {
      assert s[k] == u[k - i];
    }
  }

  lemma StripEnds(s: string, ws: set<char>)
    ensures Strip(s, ws) != [] ==> Strip(s, ws)[0] !in ws && Strip(s, ws)[|Strip(s, ws)| - 1] !in ws
  {
    var u := TrimStart(s, ws);
    TrimStartSpec(s, ws);
    TrimEndSpec(u, ws);
    if TrimEnd(u, ws) != [] {
      assert TrimEnd(u, ws)[0] == u[0];
    }
  }

  lemma StripTwice(s: string, ws: set<char>)
    ensures Strip(Strip(s, ws), ws) == Strip(s, ws)
  {
    var t := Strip(s, ws);
    StripEnds(s, ws);
    if t != [] {
      assert TrimStart(t, ws) == t;
    }
    TrimEndSpec(t, ws);
    assert TrimEnd(t, ws) == t;
  }

  predicate NeedsShutter(motor: Name) {
    Strip(Lower(motor), Whitespace) in ShutterMotors
  }

  /** The loop over the parent macro's motors (lines 174-178 and 211-222): true iff one
      of them, lowercased and stripped, is a reciprocal-space or theta motor. */
  method AnyShutterMotor(motors: seq<Name>) returns (found: bool)
    ensures found <==> exists i :: 0 <= i < |motors| && NeedsShutter(motors[i])
  {
    found := false;
    for i := 0 to |motors|
      invariant found <==> exists j :: 0 <= j < i && NeedsShutter(motors[j])
    {
      if NeedsShutter(motors[i]) {
        found := true;
      }
    }
  }

  // ---- The pump shutter mirror, `proxy.mffstate`, polled until it reads 0 or 1

  predicate Settled(state: int) { state == 0 || state == 1 }

  /** The first settled reading, if the readings ever settle. */
  function FirstSettled(readings: seq<int>): Option<int> {
    if readings == [] then None
    else if Settled(readings[0]) then Some(readings[0])
    else FirstSettled(readings[1..])
  }

  /** The polling loop of lines 182-185 and 227-230 over the successive readings of the
      mirror. It stops at the first reading in {0, 1}; when the readings run out first,
      the source is still polling (the loop has no bound), which is None here. */
  method PollMirror(readings: seq<int>) returns (state: Option<int>, polls: nat)
    ensures state == FirstSettled(readings)
    ensures state.Some? <==> exists i :: 0 <= i < |readings| && Settled(readings[i])
    ensures polls <= |readings|
    ensures state.Some? ==> polls < |readings| && state.value == readings[polls] && Settled(state.value)
    ensures forall j :: 0 <= j < polls ==> !Settled(readings[j])
  {
    var i := 0;
    while i < |readings| && !Settled(readings[i])
      invariant 0 <= i <= |readings|
      invariant forall j :: 0 <= j < i ==> !Settled(readings[j])
      invariant FirstSettled(readings) == FirstSettled(readings[i..])
    {
      assert readings[i..][1..] == readings[i + 1..];
      i := i + 1;
    }
    polls := i;
    if i < |readings| {
      state := Some(readings[i]);
    } else {
      state := None;
    }
  }

  /** The pump-shutter protocol is engaged for this move: autoShutterPump is set (missing
      counts as False), a parent macro exists and it moves a shutter motor. */
  predicate Engaged(r: Record, parent: Option<seq<Name>>) {
    Flagged(r, AutoShutterPump) && parent.Some? &&
    exists i :: 0 <= i < |parent.value| && NeedsShutter(parent.value[i])
  }

  function ShutterWarning(r: Record): seq<Notice> {
    if AutoShutterPump in r then [] else [MissingKey(AutoShutterPump)]
  }

  /** `user_pre_move` (lines 162-188): when engaged and the mirror settles open (1), sets
      autoClosePump := True and then dispatches pump_off; otherwise leaves the
      environment and the trace alone. `parent` is the parent macro's motor names, None
      when there is no parent; `mirror` is the successive mirror readings. */
  method PreMove(s: Session, parent: Option<seq<Name>>, mirror: seq<int>) returns (st: Status)
    modifies s
    ensures old(s.env).acqConf.None? ==>
      st == Raised(EnvMissing(AcqConfVar)) && s.env == old(s.env) && s.trace == old(s.trace) && s.notices == old(s.notices)
    ensures old(s.env).acqConf.Some? ==>
      var r := old(s.env).acqConf.value;
      s.notices == old(s.notices) + ShutterWarning(r) &&
      if !Engaged(r, parent) then st == Done && s.env == old(s.env) && s.trace == old(s.trace)
      else if FirstSettled(mirror).None? then st == Polling && s.env == old(s.env) && s.trace == old(s.trace)
      else if FirstSettled(mirror).value == 1 then
        s.env == old(s.env).(autoClosePump := Some(true)) && s.trace == old(s.trace) + ["pump_off"] &&
        st == (if "pump_off" in s.broken then Raised(MacroFailed("pump_off")) else Done)
      else st == Done && s.env == old(s.env) && s.trace == old(s.trace)
  {
    if s.env.acqConf.None? {
      return Raised(EnvMissing(AcqConfVar));
    }
    var acqConf := s.env.acqConf.value;
    var autoShutterPump := Flag(false);
    if AutoShutterPump in acqConf {
      autoShutterPump := acqConf[AutoShutterPump];
    } else {
      s.notices := s.notices + [MissingKey(AutoShutterPump)];
    }
    st := Done;
    if Truthy(autoShutterPump) && parent.Some? {
      var closePumpShutter := AnyShutterMotor(parent.value);
      if closePumpShutter {
        var mirrorState, _ := PollMirror(mirror);
        if mirrorState.None? {
          return Polling;
        }
        if mirrorState.value == 1 {
          s.env := s.env.(autoClosePump := Some(true));
          var ok := s.Exec("pump_off");
          if !ok {
            st := Raised(MacroFailed("pump_off"));
          }
        }
      }
    }
  }

  /** `user_post_move` (lines 197-233): when autoShutterPump is set and a parent exists,
      reads autoClosePump (unguarded getEnv); when that is set and the parent moves a
      shutter motor and the mirror settles closed (0), clears the flag and then
      dispatches pump_on. In every other case the flag stays as it was. */
  method PostMove(s: Session, parent: Option<seq<Name>>, mirror: seq<int>) returns (st: Status)
    modifies s
    ensures old(s.env).acqConf.None? ==>
      st == Raised(EnvMissing(AcqConfVar)) && s.env == old(s.env) && s.trace == old(s.trace) && s.notices == old(s.notices)
    ensures old(s.env).acqConf.Some? ==>
      var r := old(s.env).acqConf.value;
      var flag := old(s.env).autoClosePump;
      s.notices == old(s.notices) + ShutterWarning(r) &&
      if !(Flagged(r, AutoShutterPump) && parent.Some?) then st == Done && s.env == old(s.env) && s.trace == old(s.trace)
      else if flag.None? then st == Raised(EnvMissing(AutoClosePumpVar)) && s.env == old(s.env) && s.trace == old(s.trace)
      else if !flag.value || !Engaged(r, parent) then st == Done && s.env == old(s.env) && s.trace == old(s.trace)
      else if FirstSettled(mirror).None? then st == Polling && s.env == old(s.env) && s.trace == old(s.trace)
      else if FirstSettled(mirror).value == 0 then
        s.env == old(s.env).(autoClosePump := Some(false)) && s.trace == old(s.trace) + ["pump_on"] &&
        st == (if "pump_on" in s.broken then Raised(MacroFailed("pump_on")) else Done)
      else st == Done && s.env == old(s.env) && s.trace == old(s.trace)
  {
    if s.env.acqConf.None? {
      return Raised(EnvMissing(AcqConfVar));
    }
    var acqConf := s.env.acqConf.value;
    var autoShutterPump := Flag(false);
    if AutoShutterPump in acqConf {
      autoShutterPump := acqConf[AutoShutterPump];
    } else {
      s.notices := s.notices + [MissingKey(AutoShutterPump)];
    }
    st := Done;
    if Truthy(autoShutterPump) && parent.Some? {
      if s.env.autoClosePump.None? {
        return Raised(EnvMissing(AutoClosePumpVar));
      }
      if s.env.autoClosePump.value {
        var openPumpShutter := AnyShutterMotor(parent.value);
        if openPumpShutter {
          var mirrorState, _ := PollMirror(mirror);
          if mirrorState.None? {
            return Polling;
          }
          if mirrorState.value == 0 {
            s.env := s.env.(autoClosePump := Some(false));
            var ok := s.Exec("pump_on");
            if !ok {
              st := Raised(MacroFailed("pump_on"));
            }
          }
        }
      }
    }
  }

  /** The two-step protocol around one move: pre-move finds the shutter open and closes
      it, post-move finds it closed and reopens it; the flag ends cleared. */
  method MoveWithPumpShutter(s: Session, motors: seq<Name>, before: seq<int>, after: seq<int>)
    returns (pre: Status, post: Status)
    requires s.env.acqConf.Some? && Flagged(s.env.acqConf.value, AutoShutterPump)
    requires exists i :: 0 <= i < |motors| && NeedsShutter(motors[i])
    requires FirstSettled(before) == Some(1) && FirstSettled(after) == Some(0)
    requires "pump_off" !in s.broken && "pump_on" !in s.broken
    modifies s
    ensures pre == Done && post == Done
    ensures s.trace == old(s.trace) + ["pump_off", "pump_on"]
    ensures s.env == old(s.env).(autoClosePump := Some(false))
    ensures s.notices == old(s.notices)
  {
    pre := PreMove(s, Some(motors), before);
    post := PostMove(s, Some(motors), after);
  }
}
