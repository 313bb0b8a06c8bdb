/** The extractor on the commands of a typical script. */
module ExtractorExamples {
  import opened Text
  import opened Wrappers
  import opened Extractor

  /** A command that begins with "If" is an `If` command. */
  lemma IfPrefix(p: string, r: string)
    requires |p| >= 2 && p[0] == 'I' && p[1] == 'f'
    ensures IsIf(p + r)
  {
    assert (p + r)[..2] == "If";
  }

  lemma CreateFile()
    ensures Extract("Create file x.txt") == Done(Operands("x.txt", ""))
  {
    assert "Create file x.txt" == "Create " + "file " + "x.txt";
    assert "Create file x.txt"[0] == 'C';
    assert Calm("Create file", true);
    FileOnly("Create ", "x.txt");
  }

  lemma GetFile()
    ensures Extract("Get file x.txt") == Done(Operands("x.txt", ""))
  {
    assert "Get file x.txt" == "Get " + "file " + "x.txt";
    assert "Get file x.txt"[0] == 'G';
    assert Calm("Get file", true);
    FileOnly("Get ", "x.txt");
  }

  lemma RenameFile()
    ensures Extract("Rename file x.txt to b.txt") == Done(Operands("x.txt", "b.txt"))
  {
    assert "Rename file x.txt to b.txt" == "Rename " + "file " + "x.txt" + " " + "" + "to" + " " + "b.txt";
    assert "Rename file x.txt to b.txt"[0] == 'R';
    assert Calm("Rename file", true);
    assert Calm("x.txt " + "" + "to", true);
    assert Calm("b.txt", true);
    FileThenRest("Rename ", "x.txt", "", "to", "b.txt");
  }

  lemma WriteFile()
    ensures Extract("Write file x.txt text hello world") == Done(Operands("x.txt", "hello world"))
  {
    assert "Write file x.txt text hello world" ==
           "Write " + "file " + "x.txt" + " " + "" + "text" + " " + "hello world";
    assert "Write file x.txt text hello world"[0] == 'W';
    assert Calm("Write file", true);
    assert Calm("x.txt " + "" + "text", true);
    assert Calm("hello world", true);
    FileThenRest("Write ", "x.txt", "", "text", "hello world");
  }

  lemma GoTo()
    ensures Extract("Go to Action3") == Done(Operands("", "Action3"))
  {
    assert "Go to Action3" == "Go " + "to" + " " + "Action3";
    assert "Go to Action3"[1] == 'o';
    assert Calm("Go to", true);
    assert Calm("Action3", true);
    RestOnly("Go ", "to", "Action3");
  }

  /** The written text itself holds "to ": only what follows it is written. */
  lemma WriteTextWithTo()
    ensures Extract("Write file x.txt text go to bed") == Done(Operands("x.txt", "bed"))
  {
    assert "Write file x.txt text go to bed" ==
           "Write " + "file " + "x.txt" + " " + "" + "text" + " " + "go " + "to" + " " + "bed";
    assert "Write file x.txt text go to bed"[0] == 'W';
    assert Calm("Write file", true);
    assert Calm("x.txt " + "" + "text", true);
    assert Calm("go " + "to", true);
    assert Calm("bed", true);
    LastRestWins("Write ", "x.txt", "", "text", "go ", "to", "bed");
  }

  /** The condition "If file r.txt more then 2024-01-01 00:00:00 go to A2
      else go to A3", written in pieces. */
  lemma IfCondition()
    ensures Extract("If file " + "r.txt more " + "then " + "2024-01-01 " + "00:00:00 " +
                    "go to A2 " + "else go to A3") ==
            Done(Operands("A2", "A3"))
  {
    var pre := "If file " + "r.txt more " + "then " + "2024-01-01 " + "00:00:00 " + "go ";
    var s := pre + "to " + "A2" + " " + "else go " + "to " + "A3";
    var head := "If file " + "r.txt more " + "then " + "2024-01-01 " + "00:00:00 ";
    IfConditionHead();
    assert Calm("A2" + " " + "else go " + "to", false);
    assert "go to A2 " + "else go to A3" == "go " + "to " + "A2" + " " + "else go " + "to " + "A3";
    assert head + "go to A2 " + "else go to A3" == head + ("go to A2 " + "else go to A3");
    assert s == head + ("go " + "to " + "A2" + " " + "else go " + "to " + "A3");
    IfPrefix(pre, "to " + "A2" + " " + "else go " + "to " + "A3");
    assert pre + ("to " + "A2" + " " + "else go " + "to " + "A3") == s;
    IfBranches(pre, "A2", "else go ", "A3");
  }

  /** No keyword of the extractor ends in the condition before the first "to". */
  lemma IfConditionHead()
    ensures Calm("If file " + "r.txt more " + "then " + "2024-01-01 " + "00:00:00 " + "go " + "to", false)
  {
    assert Calm("If file ", false);
    assert Calm("r.txt more ", false);
    assert Calm("then ", false);
    assert Calm("2024-01-01 ", false);
    assert Calm("00:00:00 ", false);
    assert Calm("go to", false);
    CalmConcat("If file ", "r.txt more ", false);
    CalmConcat("If file " + "r.txt more ", "then ", false);
    CalmConcat("If file " + "r.txt more " + "then ", "2024-01-01 ", false);
    CalmConcat("If file " + "r.txt more " + "then " + "2024-01-01 ", "00:00:00 ", false);
    CalmConcat("If file " + "r.txt more " + "then " + "2024-01-01 " + "00:00:00 ", "go to", false);
    assert "If file " + "r.txt more " + "then " + "2024-01-01 " + "00:00:00 " + "go " + "to" ==
           "If file " + "r.txt more " + "then " + "2024-01-01 " + "00:00:00 " + "go to";
  }
}
