/** The action engine: the loop of `main` that walks the list of actions
    once, in order, runs the commands of every action whose name equals the
    pointer at the moment it is reached, and overwrites each action's
    result log. `If` and `Go` commands move the pointer. */
module Engine {
  import opened Text
  import opened Wrappers
  import opened Files
  import opened Messages
  import opened Classifier
  import opened Extractor
  import opened Conditions

  /** One entry of the JSON list: its name, its commands and its result
      log (`resultOfExectuion`). */
  datatype Action = Action(name: string, params: seq<string>, log: Log)

  /** What running commands has produced so far: the file system, the
      pointer (`nextAction`) and the log of the current action. */
  datatype Effect = Effect(fs: FileSystem, pointer: string, log: Log)

  /** The state of the whole engine. */
  datatype Machine = Machine(fs: FileSystem, pointer: string, actions: seq<Action>)

  /** A state, and whether the program is still running (false once it
      has panicked). */
  datatype Stage = Stage(m: Machine, completed: bool)

  /** The name the pointer holds before the first action is reached. */
  const FirstAction := "Action1"

  /** The commands that move the pointer. */
  predicate Jumps(cmd: string) {
    Classify(cmd) == Some(If) || Classify(cmd) == Some(Go)
  }

  /** An action without `If` or `Go` commands. */
  predicate Steady(a: Action) {
    forall j :: 0 <= j < |a.params| ==> !Jumps(a.params[j])
  }

  /** The commands that touch the file system. */
  predicate Touches(cmd: string) {
    Classify(cmd) == Some(Create) || Classify(cmd) == Some(Rename) ||
    Classify(cmd) == Some(Delete) || Classify(cmd) == Some(Write)
  }

  // ---------------------------------------------------------------------
  // One command.
  // ---------------------------------------------------------------------

  /** `createFile`, `renameFile`, `deleteFile`, `getFileCreationTime`,
      `writeTextInFile` and `goToNextActionOrCondition` on the operands the
      extractor found; each produces one log fragment. */
  function Operate(env: Env, fs: FileSystem, pointer: string, c: Command, o: Operands,
                   posName: nat, posParam: nat): (e: Effect)
    requires c != If
    ensures |e.log| == 1
    ensures e.pointer != pointer ==> c == Go
    ensures e.fs != fs ==> c == Create || c == Rename || c == Delete || c == Write
  {
    match c
    case Create =>
      (match CreateFile(fs, o.first, env.now)
       case None => Effect(fs, pointer, [CreateFailed(o.first, posParam, posName)])
       case Some(fs') => Effect(fs', pointer, [Created(o.first, posParam, posName)]))
    case Rename =>
      (match RenameFile(fs, o.first, o.second, env.now)
       case None => Effect(fs, pointer, [RenameFailed(o.first, o.second, posParam, posName)])
       case Some(fs') => Effect(fs', pointer, [Renamed(o.first, o.second, posParam, posName)]))
    case Delete =>
      (match DeleteFile(fs, o.first)
       case None => Effect(fs, pointer, [DeleteFailed(o.first, posParam, posName)])
       case Some(fs') => Effect(fs', pointer, [Deleted(o.first, posParam, posName)]))
    case Get =>
      Effect(fs, pointer, [Stat(TimeCreationOfFile(fs, env.platform, o.first, posName, posParam).0)])
    case Write =>
      (match AppendText(fs, o.first, o.second, env.now)
       case None => Effect(fs, pointer, [OpenFailed(o.first, o.second, posParam, posName)])
       case Some(fs') => Effect(fs', pointer, [Written(o.second, o.first, posParam, posName)]))
    case Go =>
      Effect(fs, o.second, [Switched(o.second, posParam, posName)])
  }

  /** One pass of the inner loop of `main`: classify the command, then run
      the case of the `switch` it selects. An unknown command leaves the
      classifier's message as its log. */
  function Exec(env: Env, fs: FileSystem, pointer: string, cmd: string, posName: nat, posParam: nat)
    : (r: Outcome<Effect>)
    ensures Classify(cmd).None? ==> r == Done(Effect(fs, pointer, [CommandNotFound(posParam, posName)]))
    ensures Classify(cmd) == Some(If) ==>
      (r.Panic? <==> Condition(env, fs, cmd, posName, posParam).Panic?) &&
      (r.Done? ==> r.value == Effect(fs, Condition(env, fs, cmd, posName, posParam).value.next,
                                     Condition(env, fs, cmd, posName, posParam).value.log))
    ensures Classify(cmd) == Some(Go) ==>
      (r.Panic? <==> Extract(cmd).Panic?) &&
      (r.Done? ==> r.value == Effect(fs, Extract(cmd).value.second,
                                     [Switched(Extract(cmd).value.second, posParam, posName)]))
    ensures r.Done? && r.value.pointer != pointer ==> Jumps(cmd)
    ensures r.Done? && r.value.fs != fs ==> Touches(cmd)
    ensures r.Done? ==> |r.value.log| <= 1
  {
    match Classify(cmd)
    case None => Done(Effect(fs, pointer, [CommandNotFound(posParam, posName)]))
    case Some(c) =>
      if c == If then
        match Condition(env, fs, cmd, posName, posParam)
        case Panic => Panic
        case Done(v) => Done(Effect(fs, v.next, v.log))
      else
        match Extract(cmd)
        case Panic => Panic
        case Done(o) => Done(Operate(env, fs, pointer, c, o, posName, posParam))
  }

  // ---------------------------------------------------------------------
  // One action, and the whole run.
  // ---------------------------------------------------------------------

  /** The inner loop of `main` from command `posParam` on: every command
      runs, whatever the earlier ones did to the pointer, and its fragment
      is appended to the log. A panic stops the loop with the file system
      as the commands before it left it. */
  function RunParams(env: Env, e: Effect, params: seq<string>, posName: nat, posParam: nat): (r: Pass)
    requires posParam <= |params|
    decreases |params| - posParam
  {
    if posParam == |params| then Pass(e, true)
    else
      match Exec(env, e.fs, e.pointer, params[posParam], posName, posParam)
      case Panic => Pass(e, false)
      case Done(x) => RunParams(env, Effect(x.fs, x.pointer, e.log + x.log), params, posName, posParam + 1)
  }

  /** An effect, and whether the commands that produced it all finished. */
  datatype Pass = Pass(e: Effect, completed: bool)

  /** One pass of the outer loop of `main`: run the action when its name is
      the pointer, then store its log (`rewriteFile`); an action that is not
      run gets the empty log. */
  function Visit(env: Env, m: Machine, posName: nat): (r: Stage)
    requires posName < |m.actions|
    ensures |r.m.actions| == |m.actions|
    ensures forall k :: 0 <= k < |m.actions| ==>
      r.m.actions[k].name == m.actions[k].name && r.m.actions[k].params == m.actions[k].params
    ensures forall k :: 0 <= k < |m.actions| && k != posName ==> r.m.actions[k] == m.actions[k]
    ensures m.actions[posName].name != m.pointer ==>
      r == Stage(m.(actions := m.actions[posName := m.actions[posName].(log := [])]), true)
  {
    var a := m.actions[posName];
    if a.name != m.pointer then Stage(m.(actions := m.actions[posName := a.(log := [])]), true)
    else
      var p := RunParams(env, Effect(m.fs, m.pointer, []), a.params, posName, 0);
      if !p.completed then Stage(Machine(p.e.fs, p.e.pointer, m.actions), false)
      else Stage(Machine(p.e.fs, p.e.pointer, m.actions[posName := a.(log := p.e.log)]), true)
  }

  /** The state after the first `n` actions have been visited; once the
      program has panicked nothing changes any more. */
  function Upto(env: Env, m0: Machine, n: nat): (r: Stage)
    requires n <= |m0.actions|
    ensures |r.m.actions| == |m0.actions|
    ensures forall k :: 0 <= k < |m0.actions| ==>
      r.m.actions[k].name == m0.actions[k].name && r.m.actions[k].params == m0.actions[k].params
    ensures forall k :: n <= k < |m0.actions| ==> r.m.actions[k] == m0.actions[k]
    decreases n
  {
    if n == 0 then Stage(m0, true)
    else
      var st := Upto(env, m0, n - 1);
      if !st.completed then st else Visit(env, st.m, n - 1)
  }

  /** The run of `main`: every action visited once, in order, with the
      pointer starting at "Action1". */
  function RunAll(env: Env, fs: FileSystem, actions: seq<Action>): Stage {
    Upto(env, Machine(fs, FirstAction, actions), |actions|)
  }

  /** Once the program has panicked, visiting further actions changes
      nothing. */
  lemma {:induction false} UptoHalted(env: Env, m0: Machine, n: nat, n': nat)
    requires n <= n' <= |m0.actions| && !Upto(env, m0, n).completed
    ensures Upto(env, m0, n') == Upto(env, m0, n)
    decreases n' - n
  {
    if n' > n {
      UptoHalted(env, m0, n, n' - 1);
    }
  }

  // ---------------------------------------------------------------------
  // Properties of a run.
  // ---------------------------------------------------------------------

  /** A program still running after `n` visits was running after every
      earlier one. */
  lemma {:induction false} UptoCompletedBefore(env: Env, m0: Machine, k: nat, n: nat)
    requires k <= n <= |m0.actions| && Upto(env, m0, n).completed
    ensures Upto(env, m0, k).completed
    decreases n - k
  {
    if k < n {
      UptoCompletedBefore(env, m0, k, n - 1);
    }
  }

  /** The visit of action `k` is its last change: later visits leave it
      alone. */
  lemma {:induction false} UptoKeeps(env: Env, m0: Machine, k: nat, n: nat)
    requires k < n <= |m0.actions|
    ensures Upto(env, m0, n).m.actions[k] == Upto(env, m0, k + 1).m.actions[k]
    decreases n - k
  {
    if n > k + 1 {
      UptoKeepsStep(env, m0, k, n);
      UptoKeeps(env, m0, k, n - 1);
    }
  }

  /** Visit `n - 1` leaves every earlier action alone. */
  lemma UptoKeepsStep(env: Env, m0: Machine, k: nat, n: nat)
    requires k + 1 < n <= |m0.actions|
    ensures Upto(env, m0, n).m.actions[k] == Upto(env, m0, n - 1).m.actions[k]
  {
  }

  /** Action `a`, the `k`-th, as its visit on machine `before` leaves it:
      with the log of its commands when its name is the pointer, with the
      empty log otherwise. */
  function Visited(env: Env, before: Machine, a: Action, k: nat): Action {
    if a.name == before.pointer then
      a.(log := RunParams(env, Effect(before.fs, before.pointer, []), a.params, k, 0).e.log)
    else a.(log := [])
  }

  /** Every action is visited exactly once, in order: its final log is the
      log of its own commands when its name equals the pointer at the
      moment it is reached, and empty otherwise. */
  lemma VisitedOnce(env: Env, m0: Machine, k: nat)
    requires k < |m0.actions| && Upto(env, m0, |m0.actions|).completed
    ensures Upto(env, m0, |m0.actions|).m.actions[k] == Visited(env, Upto(env, m0, k).m, m0.actions[k], k)
  {
    UptoKeeps(env, m0, k, |m0.actions|);
    VisitedAt(env, m0, k, |m0.actions|);
  }

  /** What the visit of action `k` leaves in it, when the program is still
      running at visit `n`. */
  lemma VisitedAt(env: Env, m0: Machine, k: nat, n: nat)
    requires k < n <= |m0.actions| && Upto(env, m0, n).completed
    ensures Upto(env, m0, k + 1).m.actions[k] == Visited(env, Upto(env, m0, k).m, m0.actions[k], k)
  {
    UptoCompletedBefore(env, m0, k + 1, n);
  }

  /** A command that is not `If` or `Go` leaves the pointer as it found it,
      and what a command does to the file system and the log does not
      depend on the pointer. */
  lemma ExecIgnoresPointer(env: Env, fs: FileSystem, p1: string, p2: string, cmd: string, posName: nat, posParam: nat)
    ensures var r1 := Exec(env, fs, p1, cmd, posName, posParam);
      var r2 := Exec(env, fs, p2, cmd, posName, posParam);
      r1.Done? == r2.Done? &&
      (r1.Done? ==> r1.value.fs == r2.value.fs && r1.value.log == r2.value.log &&
                    (Jumps(cmd) ==> r1.value.pointer == r2.value.pointer) &&
                    (!Jumps(cmd) ==> r1.value.pointer == p1 && r2.value.pointer == p2))
  {
    match Classify(cmd)
    case None =>
    case Some(c) =>
      if c != If {
        match Extract(cmd)
        case Panic =>
        case Done(o) => OperateIgnoresPointer(env, fs, p1, p2, c, o, posName, posParam);
      }
  }

  lemma OperateIgnoresPointer(env: Env, fs: FileSystem, p1: string, p2: string, c: Command, o: Operands,
                              posName: nat, posParam: nat)
    requires c != If
    ensures var e1 := Operate(env, fs, p1, c, o, posName, posParam);
      var e2 := Operate(env, fs, p2, c, o, posName, posParam);
      e1.fs == e2.fs && e1.log == e2.log &&
      (c == Go ==> e1.pointer == e2.pointer) && (c != Go ==> e1.pointer == p1 && e2.pointer == p2)
  {
    match c
    case Create =>
    case Rename =>
    case Delete =>
    case Get =>
    case Write =>
    case Go =>
  }

  /** A jump inside an action does not stop it: the commands after it run
      exactly as they would have with any other pointer, and once a command
      has jumped, the pointer the action leaves no longer depends on where
      it started. */
  lemma {:induction false} RunIgnoresPointer(env: Env, fs: FileSystem, p1: string, p2: string, log: Log,
                                             params: seq<string>, posName: nat, posParam: nat)
    requires posParam <= |params|
    ensures var r1 := RunParams(env, Effect(fs, p1, log), params, posName, posParam);
      var r2 := RunParams(env, Effect(fs, p2, log), params, posName, posParam);
      r1.completed == r2.completed && r1.e.fs == r2.e.fs && r1.e.log == r2.e.log &&
      (r1.completed && r1.e.pointer != r2.e.pointer ==> r1.e.pointer == p1 && r2.e.pointer == p2)
    decreases |params| - posParam
  {
    if posParam < |params| {
      var cmd := params[posParam];
      ExecIgnoresPointer(env, fs, p1, p2, cmd, posName, posParam);
      var r1 := Exec(env, fs, p1, cmd, posName, posParam);
      var r2 := Exec(env, fs, p2, cmd, posName, posParam);
      if r1.Done? {
        var x1, x2 := r1.value, r2.value;
        if Jumps(cmd) {
          assert Effect(x2.fs, x2.pointer, log + x2.log) == Effect(x1.fs, x1.pointer, log + x1.log);
        } else {
          RunIgnoresPointer(env, x1.fs, p1, p2, log + x1.log, params, posName, posParam + 1);
        }
      }
    }
  }

  /** Each command adds at most one fragment to the log, after those of
      the commands before it. */
  lemma {:induction false} RunLogGrows(env: Env, e: Effect, params: seq<string>, posName: nat, posParam: nat)
    requires posParam <= |params|
    ensures var r := RunParams(env, e, params, posName, posParam);
      |e.log| <= |r.e.log| <= |e.log| + |params| - posParam && r.e.log[..|e.log|] == e.log
    decreases |params| - posParam
  {
    if posParam < |params| {
      match Exec(env, e.fs, e.pointer, params[posParam], posName, posParam)
      case Panic =>
      case Done(x) =>
        var e' := Effect(x.fs, x.pointer, e.log + x.log);
        RunLogGrows(env, e', params, posName, posParam + 1);
        var r := RunParams(env, e', params, posName, posParam + 1);
        assert r.e.log[..|e.log|] == r.e.log[..|e'.log|][..|e.log|];
    }
  }

  /** An action without `If` or `Go` commands leaves the pointer alone. */
  lemma {:induction false} NoJumpKeepsPointer(env: Env, e: Effect, params: seq<string>, posName: nat, posParam: nat)
    requires posParam <= |params|
    requires forall j :: posParam <= j < |params| ==> !Jumps(params[j])
    ensures RunParams(env, e, params, posName, posParam).e.pointer == e.pointer
    decreases |params| - posParam
  {
    if posParam < |params| {
      match Exec(env, e.fs, e.pointer, params[posParam], posName, posParam)
      case Panic =>
      case Done(x) =>
        NoJumpKeepsPointer(env, Effect(x.fs, x.pointer, e.log + x.log), params, posName, posParam + 1);
    }
  }

  /** Across actions without `If` or `Go` commands the pointer does not
      move, whether they are run or skipped. */
  lemma {:induction false} PointerStays(env: Env, m0: Machine, a: nat, b: nat)
    requires a <= b <= |m0.actions| && Upto(env, m0, b).completed
    requires forall k :: a <= k < b ==> Steady(m0.actions[k])
    ensures Upto(env, m0, b).m.pointer == Upto(env, m0, a).m.pointer
    decreases b - a
  {
    if a < b {
      PointerStays(env, m0, a + 1, b);
      PointerStep(env, m0, a, b);
    }
  }

  /** One action without `If` or `Go` commands, visited in a run that is
      still going at visit `n`, leaves the pointer alone. */
  lemma PointerStep(env: Env, m0: Machine, k: nat, n: nat)
    requires k < n <= |m0.actions| && Upto(env, m0, n).completed
    requires Steady(m0.actions[k])
    ensures Upto(env, m0, k + 1).m.pointer == Upto(env, m0, k).m.pointer
  {
    UptoCompletedBefore(env, m0, k + 1, n);
    var st := Upto(env, m0, k).m;
    var act := st.actions[k];
    assert act.params == m0.actions[k].params;
    if act.name == st.pointer {
      NoJumpKeepsPointer(env, Effect(st.fs, st.pointer, []), act.params, k, 0);
    }
  }

  /** Two actions with the same name: when the pointer holds that name at
      the first and nothing in between jumps, the second one runs too. */
  lemma DuplicateNameRuns(env: Env, m0: Machine, k1: nat, k2: nat)
    requires k1 < k2 < |m0.actions| && m0.actions[k1].name == m0.actions[k2].name
    requires Upto(env, m0, k2).completed && Upto(env, m0, k1).m.pointer == m0.actions[k1].name
    requires forall k :: k1 <= k < k2 ==> Steady(m0.actions[k])
    ensures Upto(env, m0, k2).m.pointer == m0.actions[k2].name
  {
    PointerStays(env, m0, k1, k2);
  }

  /** When no action is named like the pointer, nothing runs: the file
      system and the pointer are untouched and every log visited so far is
      empty. */
  lemma {:induction false} NothingRuns(env: Env, m0: Machine, n: nat)
    requires n <= |m0.actions|
    requires forall k :: 0 <= k < |m0.actions| ==> m0.actions[k].name != m0.pointer
    ensures var r := Upto(env, m0, n);
      r.completed && r.m.fs == m0.fs && r.m.pointer == m0.pointer &&
      forall k :: 0 <= k < n ==> r.m.actions[k].log == []
    decreases n
  {
    if n > 0 {
      NothingRuns(env, m0, n - 1);
      NothingRunsStep(env, m0, n);
    }
  }

  /** When the pointer is still the initial one, visit `n - 1` only clears
      the log of its action. */
  lemma NothingRunsStep(env: Env, m0: Machine, n: nat)
    requires 0 < n <= |m0.actions| && Upto(env, m0, n - 1).completed
    requires Upto(env, m0, n - 1).m.pointer == m0.pointer && m0.actions[n - 1].name != m0.pointer
    ensures var r := Upto(env, m0, n);
      var before := Upto(env, m0, n - 1).m;
      r.completed && r.m == before.(actions := before.actions[n - 1 := before.actions[n - 1].(log := [])])
  {
  }

  /** A script with no action named "Action1" runs no command at all. */
  lemma NoFirstAction(env: Env, fs: FileSystem, actions: seq<Action>)
    requires forall k :: 0 <= k < |actions| ==> actions[k].name != FirstAction
    ensures RunAll(env, fs, actions).completed && RunAll(env, fs, actions).m.fs == fs
    ensures forall k :: 0 <= k < |actions| ==>
      RunAll(env, fs, actions).m.actions[k] == actions[k].(log := [])
  {
    NothingRuns(env, Machine(fs, FirstAction, actions), |actions|);
  }

  /** Two action lists with the same names and commands, whatever their
      logs. */
  predicate SameScript(as0: seq<Action>, as1: seq<Action>) {
    |as0| == |as1| &&
    forall k :: 0 <= k < |as0| ==> as0[k].name == as1[k].name && as0[k].params == as1[k].params
  }

  /** An action none of whose commands creates, renames, deletes or writes
      a file. */
  predicate ReadOnly(a: Action) {
    forall j :: 0 <= j < |a.params| ==> !Touches(a.params[j])
  }

  /** Commands that touch no file leave the file system as it was. */
  lemma {:induction false} NoTouchKeepsFiles(env: Env, e: Effect, params: seq<string>, posName: nat, posParam: nat)
    requires posParam <= |params|
    requires forall j :: posParam <= j < |params| ==> !Touches(params[j])
    ensures RunParams(env, e, params, posName, posParam).e.fs == e.fs
    decreases |params| - posParam
  {
    if posParam < |params| {
      match Exec(env, e.fs, e.pointer, params[posParam], posName, posParam)
      case Panic =>
      case Done(x) =>
        NoTouchKeepsFiles(env, Effect(x.fs, x.pointer, e.log + x.log), params, posName, posParam + 1);
    }
  }

  /** A script of read-only actions leaves the file system as it was, run
      to the end or stopped by a panic. */
  lemma {:induction false} ReadOnlyKeepsFiles(env: Env, m0: Machine, n: nat)
    requires n <= |m0.actions|
    requires forall k :: 0 <= k < |m0.actions| ==> ReadOnly(m0.actions[k])
    ensures Upto(env, m0, n).m.fs == m0.fs
    decreases n
  {
    if n > 0 {
      ReadOnlyKeepsFiles(env, m0, n - 1);
      var st := Upto(env, m0, n - 1);
      if st.completed {
        var a := st.m.actions[n - 1];
        assert a.params == m0.actions[n - 1].params;
        if a.name == st.m.pointer {
          NoTouchKeepsFiles(env, Effect(st.m.fs, st.m.pointer, []), a.params, n - 1, 0);
        }
      }
    }
  }

  /** Two runs started on the action lists `as0` and `as1` are at the same
      point: both still going or both stopped, with the same files and
      pointer, and every action equal in both or untouched in both. */
  predicate Mirror(as0: seq<Action>, as1: seq<Action>, r0: Stage, r1: Stage) {
    r0.completed == r1.completed && r0.m.fs == r1.m.fs && r0.m.pointer == r1.m.pointer &&
    |r0.m.actions| == |as0| && |r1.m.actions| == |as1| && |as0| == |as1| &&
    forall k :: 0 <= k < |as0| ==>
      r0.m.actions[k] == r1.m.actions[k] || (r0.m.actions[k] == as0[k] && r1.m.actions[k] == as1[k])
  }

  /** Mirrored runs stay mirrored through a further mirrored step. */
  lemma MirrorThen(as0: seq<Action>, as1: seq<Action>, s0: Stage, s1: Stage, r0: Stage, r1: Stage)
    requires Mirror(as0, as1, s0, s1) && Mirror(s0.m.actions, s1.m.actions, r0, r1)
    ensures Mirror(as0, as1, r0, r1)
  {
    forall k | 0 <= k < |as0|
      ensures r0.m.actions[k] == r1.m.actions[k] || (r0.m.actions[k] == as0[k] && r1.m.actions[k] == as1[k])
    {
      if r0.m.actions[k] != r1.m.actions[k] {
        assert r0.m.actions[k] == s0.m.actions[k] && r1.m.actions[k] == s1.m.actions[k];
      }
    }
  }

  /** A visit does not read the logs: on two machines that differ only in
      the logs of their actions, it does the same, and leaves each action
      either equal in both or untouched in both. */
  lemma VisitIgnoresLogs(env: Env, m0: Machine, m1: Machine, n: nat)
    requires n < |m0.actions| && m0.fs == m1.fs && m0.pointer == m1.pointer
    requires SameScript(m0.actions, m1.actions)
    ensures Mirror(m0.actions, m1.actions, Visit(env, m0, n), Visit(env, m1, n))
  {
    var a0, a1 := m0.actions[n], m1.actions[n];
    assert a0.(log := []) == a1.(log := []);
    if a0.name == m0.pointer {
      var p := RunParams(env, Effect(m0.fs, m0.pointer, []), a0.params, n, 0);
      assert a0.(log := p.e.log) == a1.(log := p.e.log);
    }
  }

  /** A run does not read the logs it overwrites: started on two action
      lists with the same names and commands, it runs the same commands and
      leaves every action equal in both runs, or untouched in both. */
  lemma {:induction false} UptoIgnoresLogs(env: Env, m0: Machine, m1: Machine, n: nat)
    requires n <= |m0.actions| && m0.fs == m1.fs && m0.pointer == m1.pointer
    requires SameScript(m0.actions, m1.actions)
    ensures Mirror(m0.actions, m1.actions, Upto(env, m0, n), Upto(env, m1, n))
    decreases n
  {
    if n > 0 {
      UptoIgnoresLogs(env, m0, m1, n - 1);
      var s0, s1 := Upto(env, m0, n - 1), Upto(env, m1, n - 1);
      if s0.completed {
        MirrorStep(env, m0, m1, s0, s1, n - 1);
      }
    }
  }

  /** Visit `k` of two mirrored runs that are still going. */
  lemma MirrorStep(env: Env, m0: Machine, m1: Machine, s0: Stage, s1: Stage, k: nat)
    requires k < |m0.actions| && SameScript(m0.actions, m1.actions)
    requires s0 == Upto(env, m0, k) && s1 == Upto(env, m1, k)
    requires Mirror(m0.actions, m1.actions, s0, s1) && s0.completed
    ensures Mirror(m0.actions, m1.actions, Visit(env, s0.m, k), Visit(env, s1.m, k))
  {
    assert SameScript(s0.m.actions, s1.m.actions);
    VisitIgnoresLogs(env, s0.m, s1.m, k);
    MirrorThen(m0.actions, m1.actions, s0, s1, Visit(env, s0.m, k), Visit(env, s1.m, k));
  }

  /** Running a script whose commands touch no file a second time, on the
      action list and the files the first run left, gives back exactly the
      state of the first run: the same logs, pointer and files. */
  lemma Idempotent(env: Env, fs: FileSystem, actions: seq<Action>)
    requires forall k :: 0 <= k < |actions| ==> ReadOnly(actions[k])
    ensures RunAll(env, fs, actions).m.fs == fs
    ensures var first := RunAll(env, fs, actions);
      RunAll(env, first.m.fs, first.m.actions) == first
  {
    var m0 := Machine(fs, FirstAction, actions);
    var first := Upto(env, m0, |actions|);
    ReadOnlyKeepsFiles(env, m0, |actions|);
    var m1 := Machine(fs, FirstAction, first.m.actions);
    assert SameScript(actions, first.m.actions);
    UptoIgnoresLogs(env, m0, m1, |actions|);
    var second := Upto(env, m1, |actions|);
    assert second.m.actions == first.m.actions;
  }

  // ---------------------------------------------------------------------
  // The program.
  // ---------------------------------------------------------------------

  /** The state of `main`: the action list read from the JSON file, the
      pointer `nextAction` and the file system the commands act on. */
  class Interpreter {
    const actions: array<Action>
    var pointer: string
    var fs: FileSystem

    /** After reading the JSON file: `nextAction` is "Action1". */
    constructor (actions: array<Action>, fs: FileSystem)
      ensures this.actions == actions && this.fs == fs && pointer == FirstAction
    {
      this.actions := actions;
      this.fs := fs;
      pointer := FirstAction;
    }

    function State(): Machine
      reads this, actions
    {
      Machine(fs, pointer, actions[..])
    }

    /** `rewriteFile`: the log of action `posName` is replaced; nothing else
        in the list changes. */
    method RewriteFile(posName: nat, resultText: Log)
      requires posName < actions.Length
      modifies actions
      ensures actions[..] == old(actions[..])[posName := old(actions[posName]).(log := resultText)]
    {
      actions[posName] := actions[posName].(log := resultText);
    }

    /** `goToNextActionOrCondition`: the pointer becomes the second operand
        of the command. */
    method GoToNextAction(posName: nat, posParam: nat) returns (r: Outcome<Log>)
      requires posName < actions.Length && posParam < |actions[posName].params|
      modifies this
      ensures fs == old(fs)
      ensures var cmd := actions[posName].params[posParam];
        (Extract(cmd).Panic? ==> r.Panic? && pointer == old(pointer)) &&
        (Extract(cmd).Done? ==>
           pointer == Extract(cmd).value.second && r == Done([Switched(pointer, posParam, posName)]))
    {
      var names := ExtractOperands(actions[posName].params[posParam]);
      if names.Panic? {
        return Panic;
      }
      pointer := names.value.second;
      r := Done([Switched(pointer, posParam, posName)]);
    }

    /** The file commands of the `switch`, on the operands the extractor
        found. */
    method FileCommand(env: Env, c: Command, o: Operands, posName: nat, posParam: nat) returns (log: Log)
      requires c != If && c != Go
      modifies this
      ensures var e := Operate(env, old(fs), pointer, c, o, posName, posParam);
        fs == e.fs && log == e.log && pointer == old(pointer)
    {
      match c
      case Create =>
        var r := CreateFile(fs, o.first, env.now);
        if r.None? {
          log := [CreateFailed(o.first, posParam, posName)];
        } else {
          fs, log := r.value, [Created(o.first, posParam, posName)];
        }
      case Rename =>
        var r := RenameFile(fs, o.first, o.second, env.now);
        if r.None? {
          log := [RenameFailed(o.first, o.second, posParam, posName)];
        } else {
          fs, log := r.value, [Renamed(o.first, o.second, posParam, posName)];
        }
      case Delete =>
        var r := DeleteFile(fs, o.first);
        if r.None? {
          log := [DeleteFailed(o.first, posParam, posName)];
        } else {
          fs, log := r.value, [Deleted(o.first, posParam, posName)];
        }
      case Get =>
        var stat := TimeCreationOfFile(fs, env.platform, o.first, posName, posParam);
        log := [Stat(stat.0)];
      case Write =>
        var r := AppendText(fs, o.first, o.second, env.now);
        if r.None? {
          log := [OpenFailed(o.first, o.second, posParam, posName)];
        } else {
          fs, log := r.value, [Written(o.second, o.first, posParam, posName)];
        }
    }

    /** One pass of the inner loop: the command `posParam` of action
        `posName`, dispatched on its keyword. */
    method ExecCommand(env: Env, posName: nat, posParam: nat) returns (r: Outcome<Log>)
      requires posName < actions.Length && posParam < |actions[posName].params|
      modifies this
      ensures var e := Exec(env, old(fs), old(pointer), actions[posName].params[posParam], posName, posParam);
        (e.Panic? ==> r.Panic? && fs == old(fs) && pointer == old(pointer)) &&
        (e.Done? ==> r == Done(e.value.log) && fs == e.value.fs && pointer == e.value.pointer)
    {
      var cmd := actions[posName].params[posParam];
      match Classify(cmd)
      case None =>
        r := Done([CommandNotFound(posParam, posName)]);
      case Some(c) =>
        if c == If {
          var v := Conditions.Conditions(env, fs, cmd, posName, posParam);
          if v.Panic? {
            return Panic;
          }
          pointer := v.value.next;
          r := Done(v.value.log);
        } else if c == Go {
          r := GoToNextAction(posName, posParam);
        } else {
          var names := ExtractOperands(cmd);
          if names.Panic? {
            return Panic;
          }
          var log := FileCommand(env, c, names.value, posName, posParam);
          r := Done(log);
        }
    }

    /** The inner loop of `main`: run every command of action `posName` and
        collect their fragments in order. */
    method RunAction(env: Env, posName: nat) returns (log: Log, completed: bool)
      requires posName < actions.Length
      modifies this
      ensures var p := RunParams(env, Effect(old(fs), old(pointer), []), actions[posName].params, posName, 0);
        fs == p.e.fs && pointer == p.e.pointer && log == p.e.log && completed == p.completed
    {
      log := [];
      var posParam := 0;
      while posParam < |actions[posName].params|
        invariant posParam <= |actions[posName].params|
        invariant RunParams(env, Effect(fs, pointer, log), actions[posName].params, posName, posParam) ==
                  RunParams(env, Effect(old(fs), old(pointer), []), actions[posName].params, posName, 0)
        decreases |actions[posName].params| - posParam
      {
        var interim := ExecCommand(env, posName, posParam);
        if interim.Panic? {
          return log, false;
        }
        log := log + interim.value;
        posParam := posParam + 1;
      }
      completed := true;
    }

    /** The outer loop of `main`: visit every action once, in order; run it
        when its name is the pointer, and store its log, empty when it was
        not run. A panic stops the program. */
    method Run(env: Env) returns (completed: bool)
      modifies this, actions
      ensures Stage(State(), completed) == Upto(env, old(State()), actions.Length)
    {
      var posName := 0;
      while posName < actions.Length
        invariant posName <= actions.Length
        invariant Upto(env, old(State()), posName) == Stage(State(), true)
        decreases actions.Length - posName
      {
        var ok := VisitAction(env, posName);
        if !ok {
          UptoHalted(env, old(State()), posName + 1, actions.Length);
          return false;
        }
        posName := posName + 1;
      }
      completed := true;
    }

    /** One pass of the outer loop: action `posName` runs when its name is
        the pointer, and its log, empty when it did not run, is stored
        unless the run panicked. */
    method VisitAction(env: Env, posName: nat) returns (completed: bool)
      requires posName < actions.Length
      modifies this, actions
      ensures Stage(State(), completed) == Visit(env, old(State()), posName)
    {
      var log: Log := [];
      if pointer == actions[posName].name {
        log, completed := RunAction(env, posName);
        if !completed {
          return;
        }
      }
      RewriteFile(posName, log);
      completed := true;
    }
  }
}
