# Acquisition configuration and scan hooks of the MBI SXR spectroscopy beamline

This project models, in Dafny, the Sardana macros that drive an acquisition on the
soft-X-ray spectroscopy beamline:

- `acqconf` and `waittime` keep the acquisition record `acqConf` in the macro server's
  environment: ten flags and a wait time;
- the scan hooks `user_pre_acq`, `user_pre_scan` and `user_post_scan` read that record
  and decide which beamline macros to dispatch around an acquisition (tape, target,
  laser modes, checks);
- the move hooks `user_pre_move` and `user_post_move` close the pump shutter before a
  move of a reciprocal-space or theta motor and reopen it afterwards, remembering in
  the environment flag `autoClosePump` that they did;
- `snap` runs one guarded acquisition; `dark_image_pump` and `dark_image_acquire` run
  one under a temporary "dark" override of nine flags and then put the saved record
  back;
- `pressure_check` compares three vacuum gauges with their limits; `switch_to_mte` and
  `switch_to_pilc_only` change the measurement group and reconfigure the record;
  `fix` and `end_of_the_day` are fixed sequences, the latter made of guarded groups.

The files follow the macro files:

- `host.dfy` (module `Host`) is the macro server as the macros see it:
  - the record (`Key`, `Field`, `Record`) and the two environment variables (`Env`);
  - warnings (`Notice`) and exceptions (`Error`);
  - what a run dispatched (`Run`, `Perform`, `Attempt`);
  - a `Session` class whose environment, dispatch trace and reported warnings the
    imperative macros update in place.
- `general.dfy` (module `General`): `acqconf` as a method that resolves the ten flags in
  three groups, exactly as the source does, then stores the record and runs `waittime`.
  It is proved against the specification function `Merged`.
- `user.dfy` (module `User`) holds two kinds of model:
  - the three scan hooks as pure decision functions from the record to a list of steps
    (dispatch, warn, sleep, raise);
  - the two move hooks, as methods with the motor loop and the mirror polling loop.
- `scans.dfy` (module `Scans`): `snap` as a function over the hook runs; the two
  dark-image macros as methods over the session.
- `beamline.dfy` (module `Beamline`): `pressure_check` and `fix` as functions; the two
  switches and `end_of_the_day` as methods.

Devices, the operator and the macros dispatched by name are inputs:

- the answers to prompts are functions `Prompt` and `TimePrompt`;
- the mirror (`mffstate`) is the sequence of its successive readings;
- a gauge is an `Option<real>`, None when reading it raises;
- every macro outside the model is a name in the trace, and the session's `broken`
  set says which of them raise.

The model keeps the source's behaviour where it is surprising:

- `user_pre_scan` gates `target_on` on `startTape`; `startTarget` is read but never used.
- A missing `startTape`, `darkModeLaser`, or (with the dark mode off) `autoModeLaser`
  makes `user_pre_scan` raise, because its local variable is left unbound. A missing
  `autoModeLaser` does the same in `user_post_scan`.
- The dark-image macros restore the saved record with a plain statement, not in a
  `finally`, so a failing acquisition leaves the override stored.
- The mirror polling loop has no bound.

## Model

| member | source | states |
|---|---|---|
| General.MergeWrites | macros/general.py:41-133 | the record after the first n flags are resolved has the loaded keys plus those n flags; each of them holds its answer, every other key its loaded value |
| General.Merged | macros/general.py:41-133 | the record `acqconf` stores has exactly the loaded keys plus the ten flag keys |
| General.MergedRecord | macros/general.py:36-133 | the record `acqconf` stores has the loaded keys plus the ten flags; a supplied flag is stored as given, a None flag is the prompt answer seeded with the old value, every other key (waitTime among them) carries over unchanged |
| General.ResolveInPlace | macros/general.py:41-127 | resolving a flag against the record as it stands mid-way (earlier flags already written) agrees with resolving it against the loaded record; it fails exactly at the first unanswerable flag |
| General.CheckGroup | macros/general.py:41-67 | the three check flags: no error iff the first three are answerable, and then the record has them written as `Merge` says; otherwise the KeyError names the first unanswerable flag |
| General.TapeTargetGroup | macros/general.py:69-103 | the same for startTape, stopTape, startTarget, stopTarget |
| General.LaserGroup | macros/general.py:105-131 | the same for autoModeLaser, darkModeLaser, autoShutterPump |
| General.MergeFlags | macros/general.py:41-131 | all ten flags: no error iff every None flag has a stored default, then the record is `Merged`; otherwise a KeyError for the first flag without a default |
| General.NewWaitTime | macros/general.py:167-180 | the stored wait time is the argument when given, otherwise a prompt answer within [0, 100] |
| General.WaitTimeMacro | macros/general.py:163-181 | `waittime`: raises when no record is stored (unguarded getEnv), raises KeyError when prompting without a stored waitTime, otherwise stores the record with only waitTime changed |
| General.AcqConf | macros/general.py:21-135 | `acqconf` starts from {} when loading fails; a KeyError while prompting leaves the environment and trace untouched; otherwise it stores the merged record and dispatches `waittime`, with the result `waittime` gives |
| User.PreAcq | macros/user.py:14-41 | the steps of `user_pre_acq` contain no raise: every lookup is guarded |
| User.PreScanShape | macros/user.py:47-77 | `user_pre_scan` raises only as its last step, and when it does not raise its last step dispatches acqrep |
| User.PostScan | macros/user.py:98-124 | `user_post_scan` raises only as its last step, and only when autoModeLaser is missing |
| User.PreAcqDecision | macros/user.py:14-41 | `user_pre_acq` never raises; it dispatches tape_check iff checkTape, then ccd_check iff checkCamTemp; it warns about exactly the missing keys among waitTime, checkTape, checkCamTemp, in order; it sleeps for waitTime iff waitTime > 0 |
| User.PreAcqIgnoresCheckTarget | macros/user.py:14-41 | changing or removing checkTarget does not change what `user_pre_acq` does |
| User.PreScanDecision | macros/user.py:47-77 | the lookups of `user_pre_scan` itself raise iff startTape or darkModeLaser is missing, or autoModeLaser is missing with the dark mode off; when complete it dispatches tape_on and target_on iff startTape, then at most one laser macro (dark wins), then acqrep; without startTape it dispatches nothing |
| User.PreScanWarnings | macros/user.py:47-73 | `user_pre_scan` warns about exactly the missing keys it looks up, in order (lines 52, 59, 66, 73): startTape; then, unless that one raised, startTarget, darkModeLaser and, with the dark mode off, autoModeLaser |
| User.PreScanTargetFollowsTape | macros/user.py:56-61 | the value of startTarget changes nothing, and target_on is dispatched iff tape_on is |
| User.PreScanDarkDominates | macros/user.py:63-75 | with darkModeLaser set, laser_dark_mode is dispatched and laser_scan_mode is not, whatever autoModeLaser is or whether it exists |
| User.PostScanDecision | macros/user.py:98-124 | `user_post_scan` raises iff autoModeLaser is missing; it dispatches tape_off iff stopTape, target_off iff stopTarget, laser_ready_mode iff autoModeLaser, in that order, warning about the missing keys |
| User.PostScanIgnoresDarkMode | macros/user.py:98-124 | changing or removing darkModeLaser does not change what `user_post_scan` does |
| User.RunHook | macros/user.py:10-124 | a dispatched hook is recorded under its name; with no stored record its getEnv raises; otherwise it completes iff its body is clean, and its trace is a prefix of everything its body dispatches (the whole of it on success) |
| User.RunHookNotices | macros/user.py:44-124 | the warnings a hook reports are, in order, the first of those its body issues, all of them when the hook completes, and none without a stored record |
| User.RunHookRaisesLast | macros/user.py:49-123 | when the only failure of a hook is the exception ending its body (the unbound local after the warning for a missing startTape, darkModeLaser or autoModeLaser), it still dispatches all of the body, reports every one of its warnings, and fails with that exception |
| User.LowerSpec | macros/user.py:177 | `lower()` keeps the length and lowercases each character |
| User.TrimStartSpec | macros/user.py:177 | the leading trim drops only characters of the stripped set and keeps a suffix that does not start with one |
| User.TrimEndSpec | macros/user.py:177 | the trailing trim drops only characters of the stripped set and keeps a prefix that does not end with one |
| User.StripSlice | macros/user.py:177 | `strip(ws)` keeps the slice between the leading and the trailing characters of `ws`, has none of them at either end, and is idempotent; `NeedsShutter` strips the characters `strip()` removes by default |
| User.AnyShutterMotor | macros/user.py:174-178 | the motor loop yields true iff some motor name, lowercased and stripped, is one of h, k, l, th, tth, q, thc |
| User.PollMirror | macros/user.py:181-185 | the polling loop stops at the first reading in {0, 1} and returns it, after only unsettled readings; when no reading settles it is still polling |
| User.PreMove | macros/user.py:156-188 | `user_pre_move`: raises without a stored record; warns on a missing autoShutterPump; sets autoClosePump := True and then dispatches pump_off iff the protocol is engaged and the mirror settles at 1; otherwise changes nothing |
| User.PostMove | macros/user.py:191-233 | `user_post_move`: with autoShutterPump and a parent, reads autoClosePump (raising when it was never set); clears it and dispatches pump_on iff it is set, a shutter motor moves and the mirror settles at 0; otherwise the flag stays as it was |
| User.MoveWithPumpShutter | macros/user.py:156-233 | a move with the shutter open before and closed after dispatches pump_off then pump_on and leaves autoClosePump cleared |
| Scans.Override | macros/scans.py:90-98 | the dark override adds its nine keys and removes none |
| Scans.OverrideFields | macros/scans.py:87-100 | the dark override sets darkModeLaser true and the other eight keys it names false; waitTime, checkCamTemp and every other key keep their presence and value |
| Scans.OverrideIdempotent | macros/scans.py:90-98 | applying the override twice gives the same record as applying it once |
| Scans.Snap | macros/scans.py:71-80 | below 0.01 s `snap` only warns; otherwise its trace starts with user_pre_scan, and with no stored record that first hook raises |
| Scans.SnapOrder | macros/scans.py:74-78 | `snap` runs user_pre_scan, user_pre_acq, ct, user_post_scan in that order, each one only if the one before returned; the trace on success is their traces one after the other, and the first failure's exception ends `snap` |
| Scans.SnapMissingStartTape | macros/scans.py:74-78 | without startTape the first hook warns and raises the unbound-variable error, so ct and user_post_scan never run |
| Scans.DarkPreScan | macros/scans.py:113-125 | under the override `user_pre_scan` never raises and dispatches laser_dark_mode then acqrep only |
| Scans.DarkPreAcq | macros/scans.py:113-126 | under the override `user_pre_acq` never raises, dispatches no tape_check, dispatches ccd_check iff the saved record asks for it, and sleeps as the saved record says |
| Scans.AcquisitionEnds | macros/scans.py:125-127 | the acquisition of `snap` and `dark_image_acquire` always dispatches user_pre_scan first, and when it succeeds its last dispatch is ct |
| Scans.AcquisitionTrace | macros/scans.py:125-127 | when the two hooks raise nowhere, the acquisition's trace is a prefix of the hooks' names with their dispatches and ct, and all of it when none of those macros fails |
| Scans.DarkAcquisition | macros/scans.py:110-127 | the acquisition under the override, whatever fails, never dispatches tape_on, target_on, tape_check or laser_scan_mode; when laser_dark_mode, acqrep, ccd_check and ct all succeed it dispatches the whole dark sequence |
| Scans.DarkImagePump | macros/scans.py:84-104 | `dark_image_pump`: raises without a stored record; stores the override, runs timescan, and restores the saved record only when timescan returns, leaving the override stored otherwise |
| Scans.DarkImageAcquire | macros/scans.py:107-131 | `dark_image_acquire`: the acquisition runs under the override; when it fails the override stays stored and user_post_scan does not run; otherwise the saved record is restored and user_post_scan runs against it |
| Scans.DarkPostScanSeesOriginal | macros/scans.py:129-131 | the user_post_scan run after the restore stops tape, target and laser as the original record says |
| Beamline.PressureCheck | macros/beamline.py:50-87 | true iff all three gauges were read and pxs < 1e-5, ccd < 1e-6 and optics < 1e-5; an unreadable gauge (9999.0) always fails |
| Beamline.PressureCheckMonotone | macros/beamline.py:84-87 | lowering any reading never turns a pass into a failure |
| Beamline.Fix | macros/beamline.py:8-12 | `fix` dispatches laser_ready_mode, tape_off, target_off in order; it stops right after the first one that raises, and that exception ends it |
| Beamline.MteRecord | macros/beamline.py:37 | the arguments of `switch_to_mte` need no prompt; the stored record has checkCamTemp on, darkModeLaser and autoShutterPump off, the other seven flags on, and every other key carried over |
| Beamline.PilcRecord | macros/beamline.py:49 | `switch_to_pilc_only` stores the same record as `switch_to_mte` except that checkCamTemp is off |
| Beamline.Switch | macros/beamline.py:30-37 | a switch: a failing set_meas ends it with the environment unchanged; otherwise acqconf stores the merged record and waittime prompts, raising KeyError when the record has no waitTime |
| Beamline.SwitchToMte | macros/beamline.py:24-38 | `switch_to_mte`: the switch with measurement group spectroscopy_mgmt and flags (1,1,1,1,1,1,1,1,0,0) |
| Beamline.SwitchToPilcOnly | macros/beamline.py:40-49 | `switch_to_pilc_only`: the switch with measurement group pilc_only and flags (1,1,0,1,1,1,1,1,0,0) |
| Beamline.Guarded | macros/beamline.py:126-168 | a sequence of try/except groups never raises |
| Beamline.AttemptCalls | macros/beamline.py:126-130 | a guarded group dispatches up to and including its first failing macro, and reports its warning iff one failed |
| Beamline.GuardedReachesEveryGroup | macros/beamline.py:126-168 | the first macro of every group is dispatched, whatever fails before it |
| Beamline.GuardedTrace | macros/beamline.py:126-168 | the trace of the guarded groups is the groups' own traces one after the other |
| Beamline.EndOfTheDay | macros/beamline.py:116-168 | `end_of_the_day`: a failing waveplate move aborts everything; otherwise the seven guarded groups run in order, the macro ends normally and the environment is untouched |
| Beamline.GuardedBlocks | macros/beamline.py:126-168 | the seven try/except blocks run one after the other append exactly the guarded groups' trace and warnings |
| Beamline.Block | macros/beamline.py:126-130 | one try/except block appends its group's trace and warning, keeping the runs-so-far-plus-rest invariant |
| Beamline.TapeFailureSkipsTargetOnly | macros/beamline.py:126-138 | when tape_off fails, target_off is skipped and the tape warning is reported, while laser_sleep_mode and the first macro of every later group still run |

## Left out

- Output: `self.output`, `self.debug` and the operator messages are not modelled; only
  warnings appear, as `Notice` values.
- GroupNotices: the handler of the magnet group of `end_of_the_day`
  (macros/beamline.py:142-145) reports with `self.output`, not a warning. The model still
  records its message as the notice `MagnetNotOff`, like the other groups' warnings.
- PreScanDecision: `acqrep`, dispatched last by `user_pre_scan` (macros/user.py:77), is
  not modelled. It does its own unguarded `getEnv` and nine key lookups
  (macros/general.py:144-157), so on an incomplete record it raises KeyError. The model
  treats it as a name like any other, whose failure the `broken` set fixes, and does not
  tie that failure to the record. The raise conditions stated are those of
  `user_pre_scan`'s own lookups.
- Time: `sleep` takes no modelled time. A sleep of `user_pre_acq` appears as a `Pause`
  step, and the dispatch trace does not record it.
- The countdown of `end_of_the_day` (macros/beamline.py:118-122) only prints and sleeps,
  so it is not modelled.
- Floating point: times and pressures are Dafny `real`s. `"{:0.3f}"` formatting of the
  integration time is not modelled, so `ct` and `timescan` are recorded without their
  arguments.
- Macros outside the model (`ct`, `timescan`, `tape_on`, `set_meas`, `umv` and the rest)
  are names in the trace whose failure is given by the `broken` set, which fixes one
  outcome per name. `timescan` runs no hooks in the model.
- `pressure_check` inside `end_of_the_day` is such a name. Its own body never raises,
  and its result is ignored there.
- Devices: the trigger-mode write to the timer controller in the two switches is not
  modelled, nor is reading the gauges themselves. A `DeviceProxy` read of the mirror that
  raises is not modelled either; the mirror supplies readings only.
- PollMirror: finitely many readings are given. When none settles, the model reports
  `Polling`, the state of a loop still waiting, rather than running forever.
- Lower: only ASCII letters are lowercased; Unicode case mapping is not modelled.
- Strip: the set `strip()` removes by default, `Whitespace`, is written out as the 29
  characters `str.isspace()` accepts; it is not derived from the Unicode database.
- The environment holds only the two variables these macros use, `acqConf` and
  `autoClosePump`, with their intended types. Ill-typed stored values are not modelled.
- Record keys are a datatype: the eleven named keys, plus `Other(name)` for any other key.
- Key: a record that holds `Other(name)` where `name` spells one of the eleven named keys (say `Other("startTape")`) stands for no Python dict; the model does not exclude such records, and their `Other` entries are never looked up.
- `getEnv` is taken to return a copy of the stored record. A mutation before `setEnv`
  therefore never reaches the environment by aliasing.
- Concurrency between macro sessions sharing the environment is not modelled; the code
  has no locking.
- Not modelled: `fluenceconf`, `fluencerep`, `powerconf`, `powerrep`, `roirep`,
  `init_sardana`, `mte_spec_fix`, `user_post_scan_sync`, `sync`, `start_puzzing_all`,
  `stop_puzzing` and the other scan wrappers. They only format output, copy files, or
  talk to devices. `acqrep` is not modelled either; see PreScanDecision above.
