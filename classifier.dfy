/** The command classifier `extractCommandFromParams`: a command is known by
    the first keyword of a fixed list that begins it. */
module Classifier {
  import opened Text
  import opened Wrappers

  /** The seven commands of the language. */
  datatype Command = Create | Rename | Delete | Get | Write | If | Go

  /** The keyword list, in the order the classifier tries it. */
  const Commands: seq<Command> := [Create, Rename, Delete, Get, Write, If, Go]

  function Keyword(c: Command): (k: string)
    ensures |k| >= 2
  {
    match c
    case Create => "Create"
    case Rename => "Rename"
    case Delete => "Delete"
    case Get => "Get"
    case Write => "Write"
    case If => "If"
    case Go => "Go"
  }

  /** The first command of `cs` whose keyword begins `cmd`. */
  function FirstPrefix(cmd: string, cs: seq<Command>): (r: Option<Command>)
    ensures r.Some? ==> r.value in cs && StartsWith(cmd, Keyword(r.value))
  {
    if cs == [] then None
    else if StartsWith(cmd, Keyword(cs[0])) then Some(cs[0])
    else FirstPrefix(cmd, cs[1..])
  }

  /** The search finds nothing exactly when no keyword of the list begins
      the command. */
  lemma {:induction false} FirstPrefixNone(cmd: string, cs: seq<Command>)
    ensures FirstPrefix(cmd, cs).None? <==> forall k :: 0 <= k < |cs| ==> !StartsWith(cmd, Keyword(cs[k]))
  {
    if cs != [] && !StartsWith(cmd, Keyword(cs[0])) {
      var tail := cs[1..];
      assert forall k :: 0 <= k < |tail| ==> tail[k] == cs[k + 1];
      FirstPrefixNone(cmd, tail);
    }
  }

  /** The command a parameter string holds, if any. */
  function Classify(cmd: string): Option<Command> {
    FirstPrefix(cmd, Commands)
  }

  /** "Command not found at %d param %d action; " */
  function NotFoundText(posParam: nat, posName: nat): string {
    "Command not found at " + NatText(posParam) + " param " + NatText(posName) + " action; "
  }

  /** The pair of strings the classifier returns: the keyword and an empty
      message, or an empty keyword and the "not found" message. */
  function ExtractCommand(cmd: string, posName: nat, posParam: nat): (string, string) {
    match Classify(cmd)
    case Some(c) => (Keyword(c), "")
    case None => ("", NotFoundText(posParam, posName))
  }

  /** The result is the first keyword of the list that begins the command:
      every keyword before it in the list does not. */
  lemma {:induction false} FirstPrefixIsFirst(cmd: string, cs: seq<Command>, j: nat)
    requires j < |cs| && FirstPrefix(cmd, cs) == Some(cs[j])
    requires forall k :: 0 <= k < j ==> cs[k] != cs[j]
    ensures forall k :: 0 <= k < j ==> !StartsWith(cmd, Keyword(cs[k]))
  {
    if j > 0 {
      var tail := cs[1..];
      assert cs[0] != cs[j];
      assert FirstPrefix(cmd, tail) == Some(tail[j - 1]);
      forall k | 0 <= k < j - 1 ensures tail[k] != tail[j - 1] {
        assert tail[k] == cs[k + 1];
      }
      FirstPrefixIsFirst(cmd, tail, j - 1);
      forall k | 0 <= k < j ensures !StartsWith(cmd, Keyword(cs[k])) {
        if k > 0 {
          assert cs[k] == tail[k - 1];
        }
      }
    }
  }

  /** No keyword is a prefix of another, so a command begins with at most one
      of them: "first" is also "only". */
  lemma KeywordsExclusive(cmd: string, c1: Command, c2: Command)
    requires StartsWith(cmd, Keyword(c1)) && StartsWith(cmd, Keyword(c2))
    ensures c1 == c2
  {
    assert cmd[0] == Keyword(c1)[0] == Keyword(c2)[0];
    assert cmd[1] == Keyword(c1)[1] == Keyword(c2)[1];
  }

  /** The classifier finds `c` exactly when the keyword of `c` begins the
      command. */
  lemma ClassifyExactly(cmd: string, c: Command)
    ensures Classify(cmd) == Some(c) <==> StartsWith(cmd, Keyword(c))
  {
    assert c in Commands;
    var j :| 0 <= j < |Commands| && Commands[j] == c;
    FirstPrefixNone(cmd, Commands);
    if StartsWith(cmd, Keyword(c)) {
      assert !forall k :: 0 <= k < |Commands| ==> !StartsWith(cmd, Keyword(Commands[k]));
      KeywordsExclusive(cmd, c, Classify(cmd).value);
    }
  }

  /** The message is empty exactly when a command is found; otherwise the
      keyword is empty and the message names the positions. */
  lemma ExtractCommandResult(cmd: string, posName: nat, posParam: nat)
    ensures var (command, message) := ExtractCommand(cmd, posName, posParam);
      (message == "" <==> Classify(cmd).Some?) &&
      (Classify(cmd).Some? ==> command == Keyword(Classify(cmd).value)) &&
      (Classify(cmd).None? ==>
         command == "" && |message| > 0 && forall c :: !StartsWith(cmd, Keyword(c)))
  {
    if Classify(cmd).None? {
      forall c ensures !StartsWith(cmd, Keyword(c)) {
        ClassifyExactly(cmd, c);
      }
    }
  }

  /** The classifier's answer is the first command of the list whose keyword
      begins the parameter. */
  lemma ClassifyFirst(cmd: string, j: nat)
    requires j < |Commands| && Classify(cmd) == Some(Commands[j])
    ensures StartsWith(cmd, Keyword(Commands[j]))
    ensures forall k :: 0 <= k < j ==> !StartsWith(cmd, Keyword(Commands[k]))
  {
    CommandsDistinct(j);
    FirstPrefixIsFirst(cmd, Commands, j);
  }

  /** Each command appears once in the list. */
  lemma CommandsDistinct(j: nat)
    requires j < |Commands|
    ensures forall k :: 0 <= k < j ==> Commands[k] != Commands[j]
  {
  }
}
