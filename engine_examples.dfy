/** A three-action script run from start to end. */
module EngineExamples {
  import opened Wrappers
  import opened Files
  import opened Messages
  import opened Classifier
  import opened Extractor
  import opened Conditions
  import opened ExtractorExamples
  import opened Engine

  /** Action1 creates x.txt and jumps to Action3; Action2, which would
      delete it, is skipped; Action3 runs the command `last`. */
  function Script(last: string): seq<Action> {
    [Action("Action1", ["Create file x.txt", "Go to Action3"], []),
     Action("Action2", ["Delete file x.txt"], []),
     Action("Action3", [last], [])]
  }

  const WriteLast := "Write file x.txt text hello world"
  const GetLast := "Get file x.txt"

  lemma CreateCommand()
    ensures Classify("Create file x.txt") == Some(Create)
    ensures Extract("Create file x.txt") == Done(Operands("x.txt", ""))
  {
    assert "Create file x.txt"[..6] == "Create";
    ClassifyExactly("Create file x.txt", Create);
    ExtractorExamples.CreateFile();
  }

  lemma GoCommand()
    ensures Classify("Go to Action3") == Some(Go)
    ensures Extract("Go to Action3") == Done(Operands("", "Action3"))
  {
    assert "Go to Action3"[..2] == "Go";
    ClassifyExactly("Go to Action3", Go);
    GoTo();
  }

  lemma WriteCommand()
    ensures Classify("Write file x.txt text hello world") == Some(Write)
    ensures Extract("Write file x.txt text hello world") == Done(Operands("x.txt", "hello world"))
  {
    assert "Write file x.txt text hello world"[..5] == "Write";
    ClassifyExactly("Write file x.txt text hello world", Write);
    ExtractorExamples.WriteFile();
  }

  /** The state after Action1: x.txt exists and `nextAction` is "Action3". */
  function AfterFirst(env: Env, fs: FileSystem, last: string): Machine {
    Machine(fs["x.txt" := FileInfo("", env.now)], "Action3",
            Script(last)[0 := Script(last)[0].(log := [Created("x.txt", 0, 0), Switched("Action3", 1, 0)])])
  }

  /** Action1 runs: x.txt is created and the pointer moves to Action3. */
  lemma FirstVisit(env: Env, fs: FileSystem, last: string)
    ensures Upto(env, Machine(fs, FirstAction, Script(last)), 1) == Stage(AfterFirst(env, fs, last), true)
  {
    CreateCommand();
    GoCommand();
    var e0 := Effect(fs, FirstAction, []);
    var e1 := Effect(fs["x.txt" := FileInfo("", env.now)], FirstAction, [Created("x.txt", 0, 0)]);
    assert Exec(env, fs, FirstAction, "Create file x.txt", 0, 0) ==
           Done(Effect(fs["x.txt" := FileInfo("", env.now)], FirstAction, [Created("x.txt", 0, 0)]));
    assert RunParams(env, e0, Script(last)[0].params, 0, 0) == RunParams(env, e1, Script(last)[0].params, 0, 1);
    var e2 := Effect(e1.fs, "Action3", [Created("x.txt", 0, 0), Switched("Action3", 1, 0)]);
    assert RunParams(env, e1, Script(last)[0].params, 0, 1) == RunParams(env, e2, Script(last)[0].params, 0, 2);
  }

  /** The state after Action2, which is skipped and gets the empty log. */
  function AfterSecond(env: Env, fs: FileSystem, last: string): Machine {
    var m1 := AfterFirst(env, fs, last);
    m1.(actions := m1.actions[1 := m1.actions[1].(log := [])])
  }

  lemma SecondVisit(env: Env, fs: FileSystem, last: string)
    ensures Upto(env, Machine(fs, FirstAction, Script(last)), 2) == Stage(AfterSecond(env, fs, last), true)
  {
    FirstVisit(env, fs, last);
  }

  /** What is left of the run after Action2 is the visit of Action3. */
  lemma LastVisit(env: Env, fs: FileSystem, last: string)
    ensures RunAll(env, fs, Script(last)) == Visit(env, AfterSecond(env, fs, last), 2)
  {
    SecondVisit(env, fs, last);
    assert RunAll(env, fs, Script(last)) == Upto(env, Machine(fs, FirstAction, Script(last)), 3);
  }

  /** Action3 runs and appends its text to the empty x.txt. */
  lemma ThirdVisit(env: Env, m: Machine)
    requires |m.actions| == 3 && m.actions[2] == Script(WriteLast)[2] && m.pointer == "Action3"
    requires "x.txt" in m.fs && m.fs["x.txt"].text == ""
    ensures Visit(env, m, 2) ==
      Stage(Machine(m.fs["x.txt" := FileInfo("hello world", env.now)], "Action3",
                    m.actions[2 := m.actions[2].(log := [Written("hello world", "x.txt", 0, 2)])]), true)
  {
    WriteExec(env, m.fs);
    var e0 := Effect(m.fs, "Action3", []);
    var e1 := Effect(m.fs["x.txt" := FileInfo("hello world", env.now)], "Action3",
                     [Written("hello world", "x.txt", 0, 2)]);
    assert RunParams(env, e0, m.actions[2].params, 2, 0) == RunParams(env, e1, m.actions[2].params, 2, 1);
  }

  /** The write command of Action3, run on an empty x.txt. */
  lemma WriteExec(env: Env, fs: FileSystem)
    requires "x.txt" in fs && fs["x.txt"].text == ""
    ensures Exec(env, fs, "Action3", "Write file x.txt text hello world", 2, 0) ==
      Done(Effect(fs["x.txt" := FileInfo("hello world", env.now)], "Action3",
                  [Written("hello world", "x.txt", 0, 2)]))
  {
    WriteCommand();
    assert fs["x.txt"].text + "hello world" == "hello world";
  }

  /** The whole run: Action2 is skipped with an empty log, and x.txt ends
      up holding the text Action3 wrote. */
  lemma WholeRun(env: Env, fs: FileSystem)
    ensures RunAll(env, fs, Script(WriteLast)) ==
      Stage(Machine(fs["x.txt" := FileInfo("hello world", env.now)], "Action3",
                    [Action("Action1", ["Create file x.txt", "Go to Action3"],
                            [Created("x.txt", 0, 0), Switched("Action3", 1, 0)]),
                     Action("Action2", ["Delete file x.txt"], []),
                     Action("Action3", ["Write file x.txt text hello world"],
                            [Written("hello world", "x.txt", 0, 2)])]), true)
  {
    LastVisit(env, fs, WriteLast);
    var m2 := AfterSecond(env, fs, WriteLast);
    ThirdVisit(env, m2);
    FinalLogs(env, fs);
    FinalFiles(env, fs);
  }

  /** The logs after the run, spelled out. */
  lemma FinalLogs(env: Env, fs: FileSystem)
    ensures var m2 := AfterSecond(env, fs, WriteLast);
      m2.actions[2 := m2.actions[2].(log := [Written("hello world", "x.txt", 0, 2)])] ==
      [Action("Action1", ["Create file x.txt", "Go to Action3"],
              [Created("x.txt", 0, 0), Switched("Action3", 1, 0)]),
       Action("Action2", ["Delete file x.txt"], []),
       Action("Action3", ["Write file x.txt text hello world"],
              [Written("hello world", "x.txt", 0, 2)])]
  {
  }

  /** Writing into the file Action1 created leaves only the written text. */
  lemma FinalFiles(env: Env, fs: FileSystem)
    ensures AfterSecond(env, fs, WriteLast).fs["x.txt" := FileInfo("hello world", env.now)] ==
            fs["x.txt" := FileInfo("hello world", env.now)]
  {
  }
  lemma GetCommand()
    ensures Classify(GetLast) == Some(Get)
    ensures Extract(GetLast) == Done(Operands("x.txt", ""))
  {
    assert GetLast[..3] == "Get";
    ClassifyExactly(GetLast, Get);
    ExtractorExamples.GetFile();
  }

  /** What `Get` reports about the x.txt Action1 created: its creation
      time on linux, the "unable to find" message elsewhere. */
  function Report(env: Env): StatMessage {
    if env.platform == Linux then CreationTime("x.txt", env.now, "linux", 0, 2)
    else NoCreationTime(OsName(env.platform), "x.txt", 0, 2)
  }

  /** Action3 runs `Get file x.txt`: it logs the report and changes
      neither the files nor the pointer. */
  lemma GetVisit(env: Env, m: Machine)
    requires |m.actions| == 3 && m.actions[2] == Script(GetLast)[2] && m.pointer == "Action3"
    requires "x.txt" in m.fs && m.fs["x.txt"].ctime == env.now
    ensures Visit(env, m, 2) ==
      Stage(m.(actions := m.actions[2 := m.actions[2].(log := [Stat(Report(env))])]), true)
  {
    GetCommand();
    var e0 := Effect(m.fs, "Action3", []);
    var e1 := Effect(m.fs, "Action3", [Stat(Report(env))]);
    assert Exec(env, m.fs, "Action3", GetLast, 2, 0) == Done(e1);
    assert RunParams(env, e0, m.actions[2].params, 2, 0) == RunParams(env, e1, m.actions[2].params, 2, 1);
  }

  /** The script with `Get` in Action3: Action1 creates x.txt and jumps,
      Action2, which would delete it, is skipped, and Action3 reports the
      time at which x.txt was created. */
  lemma GetRun(env: Env, fs: FileSystem)
    ensures RunAll(env, fs, Script(GetLast)) ==
      Stage(Machine(fs["x.txt" := FileInfo("", env.now)], "Action3",
                    [Action("Action1", ["Create file x.txt", "Go to Action3"],
                            [Created("x.txt", 0, 0), Switched("Action3", 1, 0)]),
                     Action("Action2", ["Delete file x.txt"], []),
                     Action("Action3", ["Get file x.txt"], [Stat(Report(env))])]), true)
  {
    LastVisit(env, fs, GetLast);
    GetVisit(env, AfterSecond(env, fs, GetLast));
  }
}
