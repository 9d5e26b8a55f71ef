/** The macro server the macros run in, reduced to what they observe of it: the two
    environment variables they read and write, the dispatcher that runs other macros
    by name, and the warnings they report. Devices, prompts and timing are left to the
    callers, which pass readings and answers in as values. */
module Host {

  datatype Option<T> = None | Some(value: T)

  /** A key of the acquisition record: the eleven keys the macros name, and any other
      key a stored record may carry. */
  datatype Key =
    | WaitTime         // "waitTime"
    | CheckTape        // "checkTape"
    | CheckTarget      // "checkTarget"
    | CheckCamTemp     // "checkCamTemp"
    | StartTape        // "startTape"
    | StopTape         // "stopTape"
    | StartTarget      // "startTarget"
    | StopTarget       // "stopTarget"
    | AutoModeLaser    // "autoModeLaser"
    | DarkModeLaser    // "darkModeLaser"
    | AutoShutterPump  // "autoShutterPump"
    | Other(name: string)

  type Name = string

  // The two environment variables.
  const AcqConfVar: string := "acqConf"
  const AutoClosePumpVar: string := "autoClosePump"

  /** A value held in the acquisition record: a boolean flag or a number (the wait time). */
  datatype Field = Flag(b: bool) | Number(x: real)

  /** Python truthiness of a stored value, as in `if check_tape:`. */
  predicate Truthy(f: Field) {
    match f
    case Flag(b) => b
    case Number(x) => x != 0.0
  }

  /** Python's `value > 0`, where a boolean compares as 0 or 1. */
  predicate Positive(f: Field) {
    match f
    case Flag(b) => b
    case Number(x) => x > 0.0
  }

  /** The acquisition record `acqConf`: keys may be missing. */
  type Record = map<Key, Field>

  /** True iff key `k` is present in `r` and its value is truthy. */
  predicate Flagged(r: Record, k: Key) {
    k in r && Truthy(r[k])
  }

  /** The process-wide environment restricted to the two variables these macros use;
      None means the variable was never set (getEnv raises). */
  datatype Env = Env(acqConf: Option<Record>, autoClosePump: Option<bool>)

  /** Warnings and status lines a run reports to the operator. */
  datatype Notice =
    | MissingKey(key: Key)      // "env variable acqConf/<key> not found!"
    | ShortIntegration          // snap with an integration time below one shot
    | TapeTargetNotOff
    | ShutterNotClosed
    | MagnetNotOff
    | CcdNotHeated
    | NoPressures
    | SyncFailed
    | RobotUnreachable

  /** The exceptions that end a macro. */
  datatype Error =
    | EnvMissing(variable: string)    // getEnv of a variable that was never set
    | KeyMissing(key: Key)         // KeyError on a record lookup
    | Unbound(local: string)       // UnboundLocalError after a swallowed KeyError
    | MacroFailed(name: Name)      // a dispatched macro raised

  /** How a state-changing macro ended; Polling means it is still waiting on a device. */
  datatype Status = Done | Raised(error: Error) | Polling

  /** What a macro that does not change the environment did: the macros it dispatched in
      order (nested dispatches included), what it reported, and the exception it ended
      with, if any. */
  datatype Run = Run(trace: seq<Name>, notices: seq<Notice>, error: Option<Error>) {
    predicate Ok() { error.None? }
  }

  /** Run `a`, then `b` only if `a` did not raise. */
  function Then(a: Run, b: Run): Run {
    if a.Ok() then Run(a.trace + b.trace, a.notices + b.notices, b.error) else a
  }

  /** The completed part of `Then(a, b)`: b's trace is added only when `a` succeeded. */
  lemma ThenFacts(a: Run, b: Run)
    ensures Then(a, b).trace == a.trace + (if a.Ok() then b.trace else [])
    ensures Then(a, b).Ok() <==> a.Ok() && b.Ok()
  {
  }

  /** execMacro of a macro outside the model: recorded, and raises iff broken. */
  function Leaf(n: Name, broken: set<Name>): Run {
    Run([n], [], if n in broken then Some(MacroFailed(n)) else None)
  }

  function StatusOf(r: Run): Status {
    match r.error
    case None => Done
    case Some(e) => Raised(e)
  }

  /** One step of a macro body: dispatch a macro, warn about a missing key, sleep, or raise. */
  datatype Step = Dispatch(name: Name) | Warn(key: Key) | Pause(time: Field) | Raise(error: Error)

  /** The names a body dispatches if every step runs. */
  function Dispatched(steps: seq<Step>): seq<Name> {
    if steps == [] then []
    else (if steps[0].Dispatch? then [steps[0].name] else []) + Dispatched(steps[1..])
  }

  /** The keys a body warns about if every step runs. */
  function Warned(steps: seq<Step>): seq<Key> {
    if steps == [] then []
    else (if steps[0].Warn? then [steps[0].key] else []) + Warned(steps[1..])
  }

  /** The sleeps a body performs if every step runs. */
  function Pauses(steps: seq<Step>): seq<Field> {
    if steps == [] then []
    else (if steps[0].Pause? then [steps[0].time] else []) + Pauses(steps[1..])
  }

  /** Some step of the body raises. */
  predicate Raises(steps: seq<Step>) {
    steps != [] && (steps[0].Raise? || Raises(steps[1..]))
  }

  /** No step raises and no dispatched macro is one that fails. */
  predicate Clean(steps: seq<Step>, broken: set<Name>) {
    steps == [] ||
    (!steps[0].Raise? && (steps[0].Dispatch? ==> steps[0].name !in broken) && Clean(steps[1..], broken))
  }

  /** A body that only dispatches `names`, one after the other. */
  function Calls(names: seq<Name>): (steps: seq<Step>)
    ensures |steps| == |names|
    ensures forall i :: 0 <= i < |names| ==> steps[i] == Dispatch(names[i])
  {
    if names == [] then [] else [Dispatch(names[0])] + Calls(names[1..])
  }

  /** Executes a body: every dispatch is recorded, a dispatch of a broken macro or a
      Raise ends the body with that exception, and sleeping takes no modelled time. */
  function Perform(steps: seq<Step>, broken: set<Name>): Run {
    if steps == [] then Run([], [], None)
    else
      match steps[0]
      case Dispatch(n) =>
        if n in broken then Run([n], [], Some(MacroFailed(n)))
        else var rest := Perform(steps[1..], broken); Run([n] + rest.trace, rest.notices, rest.error)
      case Warn(k) =>
        var rest := Perform(steps[1..], broken); Run(rest.trace, [MissingKey(k)] + rest.notices, rest.error)
      case Pause(_) => Perform(steps[1..], broken)
      case Raise(e) => Run([], [], Some(e))
  }

  /** `try: <steps> except: warning(n)` — the exception is swallowed and reported. */
  function Attempt(steps: seq<Step>, n: Notice, broken: set<Name>): (r: Run)
    ensures r.Ok()
  {
    var body := Perform(steps, broken);
    Run(body.trace, body.notices + (if body.Ok() then [] else [n]), None)
  }

  lemma {:induction false} DispatchedAppend(a: seq<Step>, b: seq<Step>)
    ensures Dispatched(a + b) == Dispatched(a) + Dispatched(b)
  {
    if a == [] {
      assert a + b == b;
    } else {
      assert (a + b)[1..] == a[1..] + b;
      DispatchedAppend(a[1..], b);
    }
  }

  lemma {:induction false} WarnedAppend(a: seq<Step>, b: seq<Step>)
    ensures Warned(a + b) == Warned(a) + Warned(b)
  {
    if a == [] {
      assert a + b == b;
    } else {
      var head: seq<Key> := if a[0].Warn? then [a[0].key] else [];
      assert (a + b)[0] == a[0];
      assert (a + b)[1..] == a[1..] + b;
      WarnedAppend(a[1..], b);
      assert Warned(a + b) == head + Warned(a[1..] + b);
      assert Warned(a) == head + Warned(a[1..]);
    }
  }

  lemma {:induction false} PausesAppend(a: seq<Step>, b: seq<Step>)
    ensures Pauses(a + b) == Pauses(a) + Pauses(b)
  {
    if a == [] {
      assert a + b == b;
    } else {
      var head: seq<Field> := if a[0].Pause? then [a[0].time] else [];
      assert (a + b)[0] == a[0];
      assert (a + b)[1..] == a[1..] + b;
      PausesAppend(a[1..], b);
      assert Pauses(a + b) == head + Pauses(a[1..] + b);
      assert Pauses(a) == head + Pauses(a[1..]);
    }
  }

  lemma {:induction false} CleanAppend(a: seq<Step>, b: seq<Step>, broken: set<Name>)
    ensures Raises(a + b) <==> Raises(a) || Raises(b)
    ensures Clean(a + b, broken) <==> Clean(a, broken) && Clean(b, broken)
  {
    if a == [] {
      assert a + b == b;
    } else {
      assert (a + b)[1..] == a[1..] + b;
      CleanAppend(a[1..], b, broken);
    }
  }

  /** A body completes without exception exactly when it is clean; then its trace is
      everything it dispatches and it reports every warning. Otherwise its trace is a
      prefix of what it would dispatch. */
  lemma {:induction false} PerformSpec(steps: seq<Step>, broken: set<Name>)
    ensures Perform(steps, broken).Ok() <==> Clean(steps, broken)
    ensures Perform(steps, broken).trace <= Dispatched(steps)
    ensures Clean(steps, broken) ==> Perform(steps, broken).trace == Dispatched(steps)
    ensures Clean(steps, broken) ==> Perform(steps, broken).notices == Missing(Warned(steps))
    ensures Perform(steps, broken).notices <= Missing(Warned(steps))
  {
    PerformNotices(steps, broken);
    if steps != [] {
      PerformSpec(steps[1..], broken);
      var rest := Perform(steps[1..], broken);
      match steps[0]
      case Dispatch(n) =>
        assert Dispatched(steps) == [n] + Dispatched(steps[1..]);
        assert Warned(steps) == Warned(steps[1..]);
        if n !in broken {
          assert Perform(steps, broken) == Run([n] + rest.trace, rest.notices, rest.error);
        }
      case Warn(k) =>
        assert Dispatched(steps) == Dispatched(steps[1..]);
        assert Warned(steps) == [k] + Warned(steps[1..]);
        assert Perform(steps, broken) == Run(rest.trace, [MissingKey(k)] + rest.notices, rest.error);
        assert Missing(Warned(steps)) == [MissingKey(k)] + Missing(Warned(steps[1..])) by {
          assert Warned(steps)[1..] == Warned(steps[1..]);
        }
      case Pause(_) =>
        assert Dispatched(steps) == Dispatched(steps[1..]);
        assert Warned(steps) == Warned(steps[1..]);
      case Raise(e) =>
    }
  }

  lemma PrefixCons<T>(x: T, s: seq<T>, t: seq<T>)
    requires s <= t
    ensures [x] + s <= [x] + t
  {
    assert ([x] + t)[..|[x] + s|] == [x] + t[..|s|];
  }

  /** Whatever happens, the warnings reported are the first of those the body would report. */
  lemma {:induction false} PerformNotices(steps: seq<Step>, broken: set<Name>)
    ensures Perform(steps, broken).notices <= Missing(Warned(steps))
  {
    if steps != [] {
      PerformNotices(steps[1..], broken);
      StepHead(steps);
      var rest := Perform(steps[1..], broken);
      match steps[0]
      case Dispatch(n) =>
      case Warn(k) =>
        assert Perform(steps, broken).notices == [MissingKey(k)] + rest.notices;
        PrefixCons(MissingKey(k), rest.notices, Missing(Warned(steps[1..])));
      case Pause(_) =>
      case Raise(e) =>
    }
  }


  /** One step that neither raises nor dispatches a failing macro, then the rest. */
  lemma PerformCons(x: Step, t: seq<Step>, broken: set<Name>)
    requires !x.Raise? && (x.Dispatch? ==> x.name !in broken)
    ensures Perform([x] + t, broken).trace == (if x.Dispatch? then [x.name] else []) + Perform(t, broken).trace
    ensures Perform([x] + t, broken).notices == (if x.Warn? then [MissingKey(x.key)] else []) + Perform(t, broken).notices
    ensures Perform([x] + t, broken).error == Perform(t, broken).error
  {
    assert ([x] + t)[0] == x && ([x] + t)[1..] == t;
  }

  /** After a clean prefix, a body goes on as its rest does: the prefix's dispatches and
      warnings come first, and the rest decides the outcome. */
  lemma {:induction false} PerformAppend(a: seq<Step>, b: seq<Step>, broken: set<Name>)
    requires Clean(a, broken)
    ensures Perform(a + b, broken).trace == Dispatched(a) + Perform(b, broken).trace
    ensures Perform(a + b, broken).notices == Missing(Warned(a)) + Perform(b, broken).notices
    ensures Perform(a + b, broken).error == Perform(b, broken).error
  {
    if a == [] {
      assert a + b == b;
    } else {
      var x, t := a[0], a[1..] + b;
      assert a + b == [x] + t;
      PerformAppend(a[1..], b, broken);
      PerformCons(x, t, broken);
      StepHead(a);
      var pb := Perform(b, broken);
      Assoc(if x.Dispatch? then [x.name] else [], Dispatched(a[1..]), pb.trace);
      Assoc(if x.Warn? then [MissingKey(x.key)] else [], Missing(Warned(a[1..])), pb.notices);
    }
  }

  /** What the first step of a body adds to its dispatches and its warnings. */
  lemma StepHead(a: seq<Step>)
    requires a != []
    ensures Dispatched(a) == (if a[0].Dispatch? then [a[0].name] else []) + Dispatched(a[1..])
    ensures Missing(Warned(a)) == (if a[0].Warn? then [MissingKey(a[0].key)] else []) + Missing(Warned(a[1..]))
  {
    if a[0].Warn? {
      var w := Warned(a[1..]);
      assert Warned(a) == [a[0].key] + w;
      assert ([a[0].key] + w)[1..] == w;
    }
  }

  lemma Assoc<T>(p: seq<T>, q: seq<T>, r: seq<T>)
    ensures p + (q + r) == (p + q) + r
  {
  }


  /** A body whose only failure is its final Raise dispatches and reports everything
      before it, then ends with that exception. */
  lemma RaisesLast(steps: seq<Step>, broken: set<Name>)
    requires steps != [] && steps[|steps| - 1].Raise? && Clean(steps[..|steps| - 1], broken)
    ensures Perform(steps, broken) ==
      Run(Dispatched(steps), Missing(Warned(steps)), Some(steps[|steps| - 1].error))
  {
    var a, e := steps[..|steps| - 1], steps[|steps| - 1];
    assert steps == a + [e];
    PerformAppend(a, [e], broken);
    DispatchedAppend(a, [e]);
    WarnedAppend(a, [e]);
  }

  /** The warnings for a list of missing keys. */
  function Missing(keys: seq<Key>): (ns: seq<Notice>)
    ensures |ns| == |keys| && forall i :: 0 <= i < |keys| ==> ns[i] == MissingKey(keys[i])
  {
    if keys == [] then [] else [MissingKey(keys[0])] + Missing(keys[1..])
  }

  /** The position of the first broken name, or |names| if there is none. */
  function FirstBroken(names: seq<Name>, broken: set<Name>): (k: nat)
    ensures k <= |names|
    ensures k < |names| ==> names[k] in broken
    ensures forall j :: 0 <= j < k ==> names[j] !in broken
  {
    if names == [] then 0
    else if names[0] in broken then 0
    else 1 + FirstBroken(names[1..], broken)
  }

  /** A run of plain dispatches stops right after the first broken macro. */
  lemma {:induction false} PerformCalls(names: seq<Name>, broken: set<Name>)
    ensures var k := FirstBroken(names, broken);
      Perform(Calls(names), broken) ==
        if k == |names| then Run(names, [], None)
        else Run(names[..k + 1], [], Some(MacroFailed(names[k])))
  {
    if names != [] {
      if names[0] !in broken {
        var rest := names[1..];
        var k := FirstBroken(rest, broken);
        PerformCalls(rest, broken);
        var r: Run := if k == |rest| then Run(rest, [], None) else Run(rest[..k + 1], [], Some(MacroFailed(rest[k])));
        assert Perform(Calls(rest), broken) == r;
        CallsCons(names, broken);
        ConsSlice(names, k + 1);
        if k < |rest| {
          assert Perform(Calls(names), broken) == Run(names[..k + 2], [], Some(MacroFailed(names[k + 1])));
        } else {
          assert Perform(Calls(names), broken) == Run(names, [], None);
        }
      } else {
        assert Calls(names)[0] == Dispatch(names[0]);
        ConsSlice(names, 0);
        assert Perform(Calls(names), broken) == Run(names[..1], [], Some(MacroFailed(names[0])));
      }
    }
  }


  lemma ConsSlice<T>(s: seq<T>, j: nat)
    requires s != []
    ensures j < |s| ==> [s[0]] + s[1..][..j] == s[..j + 1]
    ensures [s[0]] + s[1..] == s
  {
    assert s == [s[0]] + s[1..];
  }

  /** The first name of a run of dispatches, when it is not broken, is dispatched and the
      rest runs as it would alone. */
  lemma CallsCons(names: seq<Name>, broken: set<Name>)
    requires names != [] && names[0] !in broken
    ensures var r := Perform(Calls(names[1..]), broken);
      Perform(Calls(names), broken) == Run([names[0]] + r.trace, r.notices, r.error)
    ensures FirstBroken(names, broken) == 1 + FirstBroken(names[1..], broken)
  {
    assert Calls(names) == [Dispatch(names[0])] + Calls(names[1..]);
    PerformCons(Dispatch(names[0]), Calls(names[1..]), broken);
  }



  /** The session a macro runs in: the stored environment, every macro dispatched so far,
      every warning reported so far, and the macros outside the model whose execution
      raises. */
  class Session {
    var env: Env
    var trace: seq<Name>
    var notices: seq<Notice>
    const broken: set<Name>

    constructor (env0: Env, broken: set<Name>)
      ensures env == env0 && trace == [] && notices == [] && this.broken == broken
    {
      env := env0;
      trace := [];
      notices := [];
      this.broken := broken;
    }

    /** execMacro(name) of a macro outside the model: recorded, and raises iff broken. */
    method Exec(name: Name) returns (ok: bool)
      modifies this
      ensures ok == (name !in broken)
      ensures trace == old(trace) + [name] && notices == old(notices) && env == old(env)
    {
      trace := trace + [name];
      ok := name !in broken;
    }

    /** Records what a macro that leaves the environment alone did. */
    method Append(r: Run)
      modifies this
      ensures trace == old(trace) + r.trace && notices == old(notices) + r.notices && env == old(env)
    {
      trace := trace + r.trace;
      notices := notices + r.notices;
    }
  }
}
