/** macros/general.py: `acqconf` merges ten flags into the stored acquisition record
    and hands the wait time on to `waittime`, which stores it. */
module General {
  import opened Host

  /** The ten flags `acqconf` takes, in its argument and prompt order. */
  const FlagKeys: seq<Key> := [CheckTape, CheckTarget, CheckCamTemp, StartTape, StopTape,
                               StartTarget, StopTarget, AutoModeLaser, DarkModeLaser, AutoShutterPump]

  /** An answer to the wait-time prompt, which only accepts values in [0, 100]. */
  type WaitAnswer = t: real | 0.0 <= t <= 100.0

  /** The operator answering a yes/no prompt seeded with the stored value as default. */
  type Prompt = (Key, Field) -> bool

  /** The operator answering the wait-time prompt seeded with the stored value. */
  type TimePrompt = Field -> WaitAnswer

  lemma FlagKeysDistinct()
    ensures forall i, j :: 0 <= i < j < |FlagKeys| ==> FlagKeys[i] != FlagKeys[j]
    ensures WaitTime !in FlagKeys
  {
  }

  /** The record `acqconf` starts from: the stored one, or {} when getEnv raises. */
  function Loaded(env: Env): Record {
    match env.acqConf
    case Some(r) => r
    case None => map[]
  }

  /** Every flag left as None has a stored value to seed its prompt with. */
  predicate Answerable(r: Record, flags: seq<Option<bool>>)
    requires |flags| == |FlagKeys|
  {
    AnswerableUpTo(r, flags, |FlagKeys|)
  }

  /** The same for the first `n` flags. */
  predicate AnswerableUpTo(r: Record, flags: seq<Option<bool>>, n: nat)
    requires |flags| == |FlagKeys| && n <= |FlagKeys|
  {
    forall i :: 0 <= i < n && flags[i].None? ==> FlagKeys[i] in r
  }

  /** Flag i is the first one whose prompt has no stored default (KeyError). */
  predicate FirstUnanswerable(r: Record, flags: seq<Option<bool>>, i: int)
    requires |flags| == |FlagKeys|
  {
    0 <= i < |FlagKeys| && flags[i].None? && FlagKeys[i] !in r &&
    forall j :: 0 <= j < i && flags[j].None? ==> FlagKeys[j] in r
  }

  /** The value flag `k` gets: the argument, or the operator's answer to a prompt whose
      default is the value stored in `r`. */
  function Answer(r: Record, arg: Option<bool>, k: Key, ask: Prompt): bool
    requires arg.None? ==> k in r
  {
    match arg
    case Some(b) => b
    case None => ask(k, r[k])
  }

  /** `r` with its first `n` flags overwritten by their answers; every answer is taken
      against the loaded record `r`. */
  function Merge(r: Record, flags: seq<Option<bool>>, ask: Prompt, n: nat): Record
    requires |flags| == |FlagKeys| && n <= |FlagKeys| && AnswerableUpTo(r, flags, n)
  {
    if n == 0 then r
    else Merge(r, flags, ask, n - 1)[FlagKeys[n - 1] := Flag(Answer(r, flags[n - 1], FlagKeys[n - 1], ask))]
  }

  /** The record `acqconf` writes back before it runs `waittime`. */
  function Merged(r: Record, flags: seq<Option<bool>>, ask: Prompt): (m: Record)
    requires |flags| == |FlagKeys| && Answerable(r, flags)
    ensures forall k :: k in m <==> k in r || k in FlagKeys
  {
    MergeWrites(r, flags, ask, |FlagKeys|);
    assert FlagKeys[..|FlagKeys|] == FlagKeys;
    Merge(r, flags, ask, |FlagKeys|)
  }

  lemma {:induction false} MergeWrites(r: Record, flags: seq<Option<bool>>, ask: Prompt, n: nat)
    requires |flags| == |FlagKeys| && n <= |FlagKeys| && AnswerableUpTo(r, flags, n)
    ensures forall k :: k in Merge(r, flags, ask, n) <==> k in r || k in FlagKeys[..n]
    ensures forall i :: 0 <= i < n ==>
      Merge(r, flags, ask, n)[FlagKeys[i]] == Flag(Answer(r, flags[i], FlagKeys[i], ask))
    ensures forall k :: k in r && k !in FlagKeys[..n] ==> Merge(r, flags, ask, n)[k] == r[k]
  {
    if n > 0 {
      MergeWrites(r, flags, ask, n - 1);
      FlagKeysDistinct();
      assert FlagKeys[..n] == FlagKeys[..n - 1] + [FlagKeys[n - 1]];
    }
  }

  /** What `acqconf` stores, key by key: a supplied argument is stored as given, a None
      argument is replaced by the answer to a prompt seeded with the old value, and every
      other key (waitTime among them) carries over unchanged. */
  lemma MergedRecord(r: Record, flags: seq<Option<bool>>, ask: Prompt)
    requires |flags| == |FlagKeys| && Answerable(r, flags)
    ensures forall k :: k in Merged(r, flags, ask) <==> k in r || k in FlagKeys
    ensures forall i :: 0 <= i < |FlagKeys| && flags[i].Some? ==>
      Merged(r, flags, ask)[FlagKeys[i]] == Flag(flags[i].value)
    ensures forall i :: 0 <= i < |FlagKeys| && flags[i].None? ==>
      Merged(r, flags, ask)[FlagKeys[i]] == Flag(ask(FlagKeys[i], r[FlagKeys[i]]))
    ensures forall k :: k in r && k !in FlagKeys ==> Merged(r, flags, ask)[k] == r[k]
    ensures WaitTime in r ==> Merged(r, flags, ask)[WaitTime] == r[WaitTime]
  {
    MergeWrites(r, flags, ask, |FlagKeys|);
    FlagKeysDistinct();
    assert FlagKeys[..|FlagKeys|] == FlagKeys;
  }

  /** One `if x is None: x = self.input(..., default_value=acqConf[k])` against the record
      as it stands: the `Answer`, or None for the KeyError of a missing default. */
  function Resolve(rec: Record, arg: Option<bool>, k: Key, ask: Prompt): Option<bool> {
    if arg.None? && k !in rec then None else Some(Answer(rec, arg, k, ask))
  }

  /** The wait time `waittime` stores: the argument, or a prompt answer seeded with the
      stored value and bounded to [0, 100]. */
  function NewWaitTime(r: Record, time: Option<real>, askTime: TimePrompt): (t: real)
    requires time.Some? || WaitTime in r
    ensures time.Some? ==> t == time.value
    ensures time.None? ==> 0.0 <= t <= 100.0
  {
    match time
    case Some(t) => t
    case None => askTime(r[WaitTime])
  }

  /** `waittime`: reloads the record (unguarded getEnv), takes the time from its argument
      or from a prompt, and writes back the record with only waitTime changed. */
  method WaitTimeMacro(s: Session, time: Option<real>, askTime: TimePrompt) returns (st: Status)
    modifies s
    ensures s.trace == old(s.trace) && s.notices == old(s.notices)
    ensures old(s.env).acqConf.None? ==> st == Raised(EnvMissing(AcqConfVar)) && s.env == old(s.env)
    ensures old(s.env).acqConf.Some? && time.None? && WaitTime !in old(s.env).acqConf.value ==>
      st == Raised(KeyMissing(WaitTime)) && s.env == old(s.env)
    ensures old(s.env).acqConf.Some? && (time.Some? || WaitTime in old(s.env).acqConf.value) ==>
      var r := old(s.env).acqConf.value;
      st == Done && s.env == old(s.env).(acqConf := Some(r[WaitTime := Number(NewWaitTime(r, time, askTime))]))
  {
    if s.env.acqConf.None? {
      return Raised(EnvMissing(AcqConfVar));
    }
    var acqConf := s.env.acqConf.value;
    var t: real;
    if time.None? {
      if WaitTime !in acqConf {
        return Raised(KeyMissing(WaitTime));
      }
      t := askTime(acqConf[WaitTime]);
    } else {
      t := time.value;
    }
    acqConf := acqConf[WaitTime := Number(t)];
    s.env := s.env.(acqConf := Some(acqConf));
    st := Done;
  }

  /** Resolving flag `n` against the record as `acqconf` holds it at that point (the
      loaded record with the first `m` flags already written) agrees with resolving it
      against the loaded record, since the flags are distinct keys. */
  lemma ResolveInPlace(r0: Record, flags: seq<Option<bool>>, ask: Prompt, m: nat, n: nat, acqConf: Record)
    requires |flags| == |FlagKeys| && m <= n < |FlagKeys| && AnswerableUpTo(r0, flags, n)
    requires acqConf == Merge(r0, flags, ask, m)
    ensures Resolve(acqConf, flags[n], FlagKeys[n], ask).None? <==> FirstUnanswerable(r0, flags, n)
    ensures Resolve(acqConf, flags[n], FlagKeys[n], ask).None? ==> !Answerable(r0, flags)
    ensures Resolve(acqConf, flags[n], FlagKeys[n], ask).Some? ==>
      AnswerableUpTo(r0, flags, n + 1) &&
      Resolve(acqConf, flags[n], FlagKeys[n], ask).value == Answer(r0, flags[n], FlagKeys[n], ask)
  {
    MergeWrites(r0, flags, ask, m);
    FlagKeysDistinct();
    assert FlagKeys[n] !in FlagKeys[..m];
  }

  /** Lines 41-67: the three pre-acquisition checks. */
  method CheckGroup(r0: Record, flags: seq<Option<bool>>, ask: Prompt, acqConf: Record)
    returns (rec: Record, err: Option<Error>)
    requires |flags| == |FlagKeys| && AnswerableUpTo(r0, flags, 0) && acqConf == Merge(r0, flags, ask, 0)
    ensures err.None? <==> AnswerableUpTo(r0, flags, 3)
    ensures err.None? ==> rec == Merge(r0, flags, ask, 3)
    ensures err.Some? ==> !Answerable(r0, flags)
    ensures err.Some? ==> exists i :: FirstUnanswerable(r0, flags, i) && err == Some(KeyMissing(FlagKeys[i]))
  {
    ResolveInPlace(r0, flags, ask, 0, 0, acqConf);
    var checkTape := Resolve(acqConf, flags[0], CheckTape, ask);
    if checkTape.None? {
      assert FirstUnanswerable(r0, flags, 0);
      return acqConf, Some(KeyMissing(CheckTape));
    }
    ResolveInPlace(r0, flags, ask, 0, 1, acqConf);
    var checkTarget := Resolve(acqConf, flags[1], CheckTarget, ask);
    if checkTarget.None? {
      assert FirstUnanswerable(r0, flags, 1);
      return acqConf, Some(KeyMissing(CheckTarget));
    }
    ResolveInPlace(r0, flags, ask, 0, 2, acqConf);
    var checkCamTemp := Resolve(acqConf, flags[2], CheckCamTemp, ask);
    if checkCamTemp.None? {
      assert FirstUnanswerable(r0, flags, 2);
      return acqConf, Some(KeyMissing(CheckCamTemp));
    }
    rec := acqConf;
    rec := rec[CheckTape := Flag(checkTape.value)];
    rec := rec[CheckTarget := Flag(checkTarget.value)];
    rec := rec[CheckCamTemp := Flag(checkCamTemp.value)];
    assert rec == Merge(r0, flags, ask, 3) by {
      assert Merge(r0, flags, ask, 1) == Merge(r0, flags, ask, 0)[CheckTape := Flag(checkTape.value)];
      assert Merge(r0, flags, ask, 2) == Merge(r0, flags, ask, 1)[CheckTarget := Flag(checkTarget.value)];
    }
    err := None;
  }

  /** Lines 69-103: starting and stopping tape and target. */
  method TapeTargetGroup(r0: Record, flags: seq<Option<bool>>, ask: Prompt, acqConf: Record)
    returns (rec: Record, err: Option<Error>)
    requires |flags| == |FlagKeys| && AnswerableUpTo(r0, flags, 3) && acqConf == Merge(r0, flags, ask, 3)
    ensures err.None? <==> AnswerableUpTo(r0, flags, 7)
    ensures err.None? ==> rec == Merge(r0, flags, ask, 7)
    ensures err.Some? ==> !Answerable(r0, flags)
    ensures err.Some? ==> exists i :: FirstUnanswerable(r0, flags, i) && err == Some(KeyMissing(FlagKeys[i]))
  {
    ResolveInPlace(r0, flags, ask, 3, 3, acqConf);
    var startTape := Resolve(acqConf, flags[3], StartTape, ask);
    if startTape.None? {
      assert FirstUnanswerable(r0, flags, 3);
      return acqConf, Some(KeyMissing(StartTape));
    }
    ResolveInPlace(r0, flags, ask, 3, 4, acqConf);
    var stopTape := Resolve(acqConf, flags[4], StopTape, ask);
    if stopTape.None? {
      assert FirstUnanswerable(r0, flags, 4);
      return acqConf, Some(KeyMissing(StopTape));
    }
    ResolveInPlace(r0, flags, ask, 3, 5, acqConf);
    var startTarget := Resolve(acqConf, flags[5], StartTarget, ask);
    if startTarget.None? {
      assert FirstUnanswerable(r0, flags, 5);
      return acqConf, Some(KeyMissing(StartTarget));
    }
    ResolveInPlace(r0, flags, ask, 3, 6, acqConf);
    var stopTarget := Resolve(acqConf, flags[6], StopTarget, ask);
    if stopTarget.None? {
      assert FirstUnanswerable(r0, flags, 6);
      return acqConf, Some(KeyMissing(StopTarget));
    }
    rec := acqConf;
    rec := rec[StartTape := Flag(startTape.value)];
    rec := rec[StopTape := Flag(stopTape.value)];
    rec := rec[StartTarget := Flag(startTarget.value)];
    rec := rec[StopTarget := Flag(stopTarget.value)];
    assert rec == Merge(r0, flags, ask, 7) by {
      assert Merge(r0, flags, ask, 4) == Merge(r0, flags, ask, 3)[StartTape := Flag(startTape.value)];
      assert Merge(r0, flags, ask, 5) == Merge(r0, flags, ask, 4)[StopTape := Flag(stopTape.value)];
      assert Merge(r0, flags, ask, 6) == Merge(r0, flags, ask, 5)[StartTarget := Flag(startTarget.value)];
    }
    err := None;
  }

  /** Lines 105-131: the laser modes and the pump shutter. */
  method LaserGroup(r0: Record, flags: seq<Option<bool>>, ask: Prompt, acqConf: Record)
    returns (rec: Record, err: Option<Error>)
    requires |flags| == |FlagKeys| && AnswerableUpTo(r0, flags, 7) && acqConf == Merge(r0, flags, ask, 7)
    ensures err.None? <==> AnswerableUpTo(r0, flags, 10)
    ensures err.None? ==> rec == Merge(r0, flags, ask, 10)
    ensures err.Some? ==> !Answerable(r0, flags)
    ensures err.Some? ==> exists i :: FirstUnanswerable(r0, flags, i) && err == Some(KeyMissing(FlagKeys[i]))
  {
    ResolveInPlace(r0, flags, ask, 7, 7, acqConf);
    var autoModeLaser := Resolve(acqConf, flags[7], AutoModeLaser, ask);
    if autoModeLaser.None? {
      assert FirstUnanswerable(r0, flags, 7);
      return acqConf, Some(KeyMissing(AutoModeLaser));
    }
    ResolveInPlace(r0, flags, ask, 7, 8, acqConf);
    var darkModeLaser := Resolve(acqConf, flags[8], DarkModeLaser, ask);
    if darkModeLaser.None? {
      assert FirstUnanswerable(r0, flags, 8);
      return acqConf, Some(KeyMissing(DarkModeLaser));
    }
    ResolveInPlace(r0, flags, ask, 7, 9, acqConf);
    var autoShutterPump := Resolve(acqConf, flags[9], AutoShutterPump, ask);
    if autoShutterPump.None? {
      assert FirstUnanswerable(r0, flags, 9);
      return acqConf, Some(KeyMissing(AutoShutterPump));
    }
    rec := acqConf;
    rec := rec[AutoModeLaser := Flag(autoModeLaser.value)];
    rec := rec[DarkModeLaser := Flag(darkModeLaser.value)];
    rec := rec[AutoShutterPump := Flag(autoShutterPump.value)];
    assert rec == Merge(r0, flags, ask, 10) by {
      assert Merge(r0, flags, ask, 8) == Merge(r0, flags, ask, 7)[AutoModeLaser := Flag(autoModeLaser.value)];
      assert Merge(r0, flags, ask, 9) == Merge(r0, flags, ask, 8)[DarkModeLaser := Flag(darkModeLaser.value)];
    }
    err := None;
  }

  /** Lines 41-131 of `acqconf`: the ten flags prompted for where None and written into
      the loaded record in three groups, or the KeyError of the first prompt that has no
      stored default. */
  method MergeFlags(r0: Record, flags: seq<Option<bool>>, ask: Prompt) returns (rec: Record, err: Option<Error>)
    requires |flags| == |FlagKeys|
    ensures err.None? <==> Answerable(r0, flags)
    ensures err.None? ==> rec == Merged(r0, flags, ask)
    ensures err.Some? ==> exists i :: FirstUnanswerable(r0, flags, i) && err == Some(KeyMissing(FlagKeys[i]))
  {
    rec, err := CheckGroup(r0, flags, ask, r0);
    if err.Some? { return; }
    rec, err := TapeTargetGroup(r0, flags, ask, rec);
    if err.Some? { return; }
    rec, err := LaserGroup(r0, flags, ask, rec);
  }

  /** `acqconf`: loads the record ({} if that fails), merges the flags, stores the record,
      then dispatches `waittime` with the given time. A KeyError while merging leaves the
      environment as it was. */
  method AcqConf(s: Session, flags: seq<Option<bool>>, waitTime: Option<real>, ask: Prompt, askTime: TimePrompt)
    returns (st: Status)
    requires |flags| == |FlagKeys|
    modifies s
    ensures s.notices == old(s.notices)
    ensures !Answerable(Loaded(old(s.env)), flags) ==>
      s.env == old(s.env) && s.trace == old(s.trace) &&
      exists i :: FirstUnanswerable(Loaded(old(s.env)), flags, i) && st == Raised(KeyMissing(FlagKeys[i]))
    ensures Answerable(Loaded(old(s.env)), flags) ==>
      var r := Loaded(old(s.env));
      var m := Merged(r, flags, ask);
      s.trace == old(s.trace) + ["waittime"] &&
      if waitTime.Some? || WaitTime in r then
        st == Done && s.env == old(s.env).(acqConf := Some(m[WaitTime := Number(NewWaitTime(r, waitTime, askTime))]))
      else
        st == Raised(KeyMissing(WaitTime)) && s.env == old(s.env).(acqConf := Some(m))
  {
    var r0 := Loaded(s.env);
    var acqConf, err := MergeFlags(r0, flags, ask);
    if err.Some? {
      return Raised(err.value);
    }
    s.env := s.env.(acqConf := Some(acqConf));
    s.trace := s.trace + ["waittime"];
    MergedRecord(r0, flags, ask);
    st := WaitTimeMacro(s, waitTime, askTime);
  }
}
