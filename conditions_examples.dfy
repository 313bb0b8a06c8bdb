/** The condition evaluator on a typical file condition. */
module ConditionsExamples {
  import opened Text
  import opened Wrappers
  import opened Files
  import opened Messages
  import opened Extractor
  import opened Conditions
  import opened ConditionShapes

  /** "If file r.txt more then 2024-01-01 00:00:00 go to A2 else go to A3" */
  function RecentFile(): string {
    FileCommand("r.txt", "more ", "then", "2024-01-01 00:00:00", "A2", "A3")
  }

  /** The operator of the example is "more". */
  lemma RecentFileOperator()
    ensures Operator(RecentFile()) == Some(More)
  {
    var s := RecentFile();
    assert s[..18] == "If file r.txt" + " more";
    EndsWithPrefixContains(s, 18, "more");
  }

  /** The parts of the example are free of keywords where the scan and the
      extractor need them to be. */
  lemma RecentFilePlain()
    ensures Plain("r.txt" + "more " + "then") && Plain("o to " + "A2" + " else go to " + "A3")
  {
    assert Plain("r.txtmore then");
    RecentFileBranchesPlain();
  }

  lemma RecentFileBranchesPlain()
    ensures Plain("o to " + "A2" + " else go to " + "A3")
  {
    assert Plain("o to A2 else go to A3");
  }

  lemma RecentFileCalm()
    ensures Calm("If file " + "r.txt" + " " + "more " + "then" + " " + "2024-01-01 00:00:00" + " go to", false)
    ensures Calm("A2" + " else go to", false)
  {
    RecentFileHead();
    RecentFileStamp();
    CalmConcat("If file " + "r.txt more " + "then ", "2024-01-01 " + "00:00:00 go to", false);
    assert "If file " + "r.txt more " + "then " + ("2024-01-01 " + "00:00:00 go to") ==
           "If file " + "r.txt" + " " + "more " + "then" + " " + "2024-01-01 00:00:00" + " go to";
    assert Calm("A2 else go to", false);
  }

  /** The timestamp of the example and the "go to" after it. */
  lemma RecentFileStamp()
    ensures Calm("2024-01-01 " + "00:00:00 go to", false)
  {
    assert Calm("2024-01-01 ", false);
    assert Calm("00:00:00 go to", false);
    CalmConcat("2024-01-01 ", "00:00:00 go to", false);
  }

  /** The opening of the example up to its time keyword. */
  lemma RecentFileHead()
    ensures Calm("If file " + "r.txt more " + "then ", false)
  {
    assert Calm("If file ", false);
    assert Calm("r.txt more ", false);
    assert Calm("then ", false);
    CalmConcat("If file ", "r.txt more ", false);
    CalmConcat("If file " + "r.txt more ", "then ", false);
  }

  /** On Linux, with r.txt present, the script goes on with A2 exactly when
      r.txt was created after the parsed timestamp, and with A3 otherwise. */
  lemma RecentFileOnLinux(env: Env, fs: FileSystem, t0: Time)
    requires env.platform == Linux && "r.txt" in fs
    requires env.parse("2024-01-01 00:00:00") == Some(t0)
    ensures Condition(env, fs, RecentFile(), 1, 0).Done?
    ensures Condition(env, fs, RecentFile(), 1, 0).value.next == if fs["r.txt"].ctime > t0 then "A2" else "A3"
  {
    RecentFileOperator();
    RecentFilePlain();
    RecentFileCalm();
    FileConditionBranch(env, fs, "r.txt", "more ", "then", "2024-01-01 00:00:00", "A2", "A3", More, 1, 0);
  }

  /** Without r.txt the file's time is the zero time, which is after no
      parsed timestamp of the common era: the script goes on with A3. */
  lemma RecentFileMissing(env: Env, fs: FileSystem, t0: Time)
    requires "r.txt" !in fs && env.parse("2024-01-01 00:00:00") == Some(t0) && t0 >= ZeroTime
    ensures Condition(env, fs, RecentFile(), 1, 0).Done?
    ensures Condition(env, fs, RecentFile(), 1, 0).value.next == "A3"
  {
    RecentFileOperator();
    RecentFilePlain();
    RecentFileCalm();
    FileConditionBranch(env, fs, "r.txt", "more ", "then", "2024-01-01 00:00:00", "A2", "A3", More, 1, 0);
  }
}
