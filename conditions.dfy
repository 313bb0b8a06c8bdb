/** The condition evaluator `conditions`: it finds the two branch names with
    the operand extractor, scans the command once more for the two times to
    compare ("current time " or "file NAME " for the first, the text after
    "then " or "equals " up to the next 'g' for the second), and picks a
    branch by the first operator word the command contains. */
module Conditions {
  import opened Text
  import opened Wrappers
  import opened Files
  import opened Messages
  import opened Extractor

  /** What the evaluator takes from outside the command: the clock
      (`time.Now`), the platform (`runtime.GOOS`) and the timestamp parser
      (`time.Parse` with layout "2006-01-02 15:04:05"). */
  datatype Env = Env(now: Time, platform: Platform, parse: string -> Option<Time>)

  /** `time.Parse` whose error is dropped: a text that does not parse gives
      the zero time. */
  function ParseOrZero(env: Env, text: string): Time {
    match env.parse(text)
    case Some(t) => t
    case None => ZeroTime
  }

  /** Where the first time of the comparison comes from: nowhere yet (the
      zero time), the clock ("current time "), or the file named last
      ("file NAME "). */
  datatype Source = Unset | Clock | FileTime(name: string)

  /** The scan's variables between two iterations of the outer loop: the
      index, the accumulator, the source of the first time, the file looked
      up last (its message is the error text) and the timestamp text the
      second time is parsed from. The file system, the clock and the parser
      do not change during a scan, so the times themselves follow from
      these (`LeftTime`, `RightTime`, `ErrText`). */
  datatype Probe = Probe(i: nat, acc: string, from: Source, lastFile: Option<string>, stamp: Option<string>)

  const Begin := Probe(0, "", Unset, None, None)

  function LeftTime(env: Env, fs: FileSystem, from: Source, posName: nat, posParam: nat): Time {
    match from
    case Unset => ZeroTime
    case Clock => env.now
    case FileTime(name) => TimeCreationOfFile(fs, env.platform, name, posName, posParam).1
  }

  function RightTime(env: Env, stamp: Option<string>): Time {
    match stamp
    case None => ZeroTime
    case Some(text) => ParseOrZero(env, text)
  }

  /** The error text: empty until a file is looked up, then the message of
      the last lookup. */
  function ErrText(env: Env, fs: FileSystem, lastFile: Option<string>, posName: nat, posParam: nat): string {
    match lastFile
    case None => ""
    case Some(name) => RenderStat(TimeCreationOfFile(fs, env.platform, name, posName, posParam).0)
  }

  predicate NowKey(acc: string) {
    EndsWith(acc, "current time ")
  }

  predicate FileKey(acc: string) {
    EndsWith(acc, "file ")
  }

  predicate TimeKey(acc: string) {
    EndsWith(acc, "then ") || EndsWith(acc, "equals ")
  }

  /** One pass of the outer loop body, including its final `i++`. After
      the character is appended and "current time " is checked:
      - the file block, after "file ": read the name up to the next space (a
        name that runs to the end of the command indexes past it) and make
        that file the source of the first time and the last file looked up;
        the index is left on the space;
      - the timestamp block, after "then " or "equals ": read up to the next
        'g' (the one of "go to"; none indexes past the end) and keep the text
        without its last character (an empty text slices to -1) for the
        second time; the index is left on the 'g'.
      The timestamp block is checked after the file block, as in the source;
      since the file block leaves a name without a space in the accumulator,
      it never follows it in the same pass (`NameNoKey`). */
  function ProbeStep(s: string, p: Probe): (r: Outcome<Probe>)
    requires p.i < |s|
    ensures r.Done? ==> p.i < r.value.i <= |s|
  {
    var acc := p.acc + [s[p.i]];
    Blocks(s, p.(acc := acc, from := if NowKey(acc) then Clock else p.from))
  }

  /** The two blocks and the final `i++`. */
  function Blocks(s: string, p: Probe): (r: Outcome<Probe>)
    requires p.i < |s|
    ensures r.Done? ==> p.i < r.value.i <= |s|
  {
    if FileKey(p.acc) then
      var k := CharFrom(s, p.i + 1, ' ');
      if k == |s| then Panic
      else
        var name := s[p.i + 1..k];
        TimeBlockThenNext(s, p.(i := k, acc := name, from := FileTime(name), lastFile := Some(name)))
    else TimeBlockThenNext(s, p)
  }

  /** The timestamp block and the final `i++`. */
  function TimeBlockThenNext(s: string, p: Probe): (r: Outcome<Probe>)
    requires p.i < |s|
    ensures r.Done? ==> p.i < r.value.i <= |s|
  {
    if TimeKey(p.acc) then
      var k := CharFrom(s, p.i + 1, 'g');
      if k == |s| || k == p.i + 1 then Panic
      else Done(p.(i := k + 1, acc := s[p.i + 1..k], stamp := Some(s[p.i + 1..k - 1])))
    else Done(p.(i := p.i + 1))
  }

  /** The rest of the scan from `p`. */
  function ProbeFrom(s: string, p: Probe): Outcome<Probe>
    requires p.i <= |s|
    decreases |s| - p.i
  {
    if p.i == |s| then Done(p)
    else
      match ProbeStep(s, p)
      case Panic => Panic
      case Done(next) => ProbeFrom(s, next)
  }

  /** The word that selects each operator. */
  function OpWord(op: Op): string {
    match op
    case More => "more"
    case Less => "less"
    case Equals => "equals"
  }

  /** The order in which the `switch` tries the operators. */
  function Rank(op: Op): nat {
    match op
    case More => 0
    case Less => 1
    case Equals => 2
  }

  /** The operator: the first of "more", "less", "equals" that occurs
      anywhere in the command. */
  function Operator(s: string): Option<Op> {
    if Contains(s, "more") then Some(More)
    else if Contains(s, "less") then Some(Less)
    else if Contains(s, "equals") then Some(Equals)
    else None
  }

  /** The operator found occurs in the command, none is found exactly when
      no operator word occurs, and the one found is the first in the order
      of the `switch` among those that occur. */
  lemma OperatorIsFirst(s: string)
    ensures Operator(s).Some? ==> Contains(s, OpWord(Operator(s).value))
    ensures Operator(s).None? <==> forall op :: !Contains(s, OpWord(op))
    ensures forall op :: Contains(s, OpWord(op)) ==> Operator(s).Some? && Rank(Operator(s).value) <= Rank(op)
  {
  }

  /** `After`, `Before` and `Equal` on the two times. */
  predicate Holds(op: Op, left: Time, right: Time) {
    match op
    case More => left > right
    case Less => left < right
    case Equals => left == right
  }

  /** The evaluator's two results: the name the caller assigns to its next
      action and the log fragment. */
  datatype Verdict = Verdict(next: string, log: Log)

  /** The text returned in place of an action name when no operator word
      occurs. */
  function NoOperatorText(posParam: nat, posName: nat, err: string): string {
    "Some erros happend while working with conditions by " + NatText(posParam) + " param " +
    NatText(posName) + " condition err:" + err + "; "
  }

  /** The `switch`: with an operator, the first branch when the comparison
      holds and the second otherwise; with none, the error text and an
      empty log. */
  function Decide(s: string, names: Operands, left: Time, right: Time, err: string,
                  posName: nat, posParam: nat): (v: Verdict)
    ensures Operator(s).None? ==> v == Verdict(NoOperatorText(posParam, posName, err), [])
    ensures Operator(s).Some? ==>
      var h := Holds(Operator(s).value, left, right);
      (h ==> v.next == names.first) && (!h ==> v.next == names.second) &&
      v.log == [Compared(Operator(s).value, h, left, right, v.next, posParam, posName)]
  {
    match Operator(s)
    case None => Verdict(NoOperatorText(posParam, posName, err), [])
    case Some(op) =>
      var h := Holds(op, left, right);
      var next := if h then names.first else names.second;
      Verdict(next, [Compared(op, h, left, right, next, posParam, posName)])
  }

  /** The evaluator on one `If` command. */
  function Condition(env: Env, fs: FileSystem, s: string, posName: nat, posParam: nat): Outcome<Verdict> {
    match Extract(s)
    case Panic => Panic
    case Done(names) =>
      match ProbeFrom(s, Begin)
      case Panic => Panic
      case Done(p) =>
        Done(Decide(s, names, LeftTime(env, fs, p.from, posName, posParam), RightTime(env, p.stamp),
                    ErrText(env, fs, p.lastFile, posName, posParam), posName, posParam))
  }

  /** The inner loops of the scan: read characters from `from` on until `c`;
      running off the end is the source's index panic. */
  method ReadUntil(s: string, from: nat, c: char) returns (found: bool, word: string, k: nat)
    requires from <= |s|
    ensures k == CharFrom(s, from, c) && word == s[from..k]
    ensures found <==> k < |s|
  {
    k, word := from, "";
    while k < |s| && s[k] != c
      invariant from <= k <= |s|
      invariant word == s[from..k]
      invariant forall j :: from <= j < k ==> s[j] != c
      decreases |s| - k
    {
      word := word + [s[k]];
      k := k + 1;
    }
    found := k < |s|;
    CharFromIs(s, from, c, k);
  }

  /** The file block of the loop body: read the name, then take the file's
      time as the first time and its message as the error text. */
  method FileBlock(env: Env, fs: FileSystem, s: string, p: Probe, posName: nat, posParam: nat)
    returns (r: Outcome<Probe>, left: Time, err: string)
    requires p.i < |s|
    ensures var k := CharFrom(s, p.i + 1, ' ');
      (k == |s| ==> r.Panic?) &&
      (k < |s| ==> r == Done(p.(i := k, acc := s[p.i + 1..k], from := FileTime(s[p.i + 1..k]),
                                lastFile := Some(s[p.i + 1..k]))))
    ensures r.Done? ==> ' ' !in r.value.acc
    ensures r.Done? ==>
      left == LeftTime(env, fs, r.value.from, posName, posParam) &&
      err == ErrText(env, fs, r.value.lastFile, posName, posParam)
  {
    var found, name, k := ReadUntil(s, p.i + 1, ' ');
    if !found {
      return Panic, ZeroTime, "";
    }
    assert forall m :: 0 <= m < |name| ==> name[m] == s[p.i + 1 + m];
    var stat := TimeCreationOfFile(fs, env.platform, name, posName, posParam);
    err, left := RenderStat(stat.0), stat.1;
    r := Done(p.(i := k, acc := name, from := FileTime(name), lastFile := Some(name)));
  }

  /** The timestamp block of the loop body: read up to the 'g', then parse
      the text without its last character as the second time. */
  method TimeBlock(env: Env, s: string, p: Probe) returns (r: Outcome<Probe>, right: Time)
    requires p.i < |s|
    ensures var k := CharFrom(s, p.i + 1, 'g');
      (k == |s| || k == p.i + 1 ==> r.Panic?) &&
      (p.i + 1 < k < |s| ==> r == Done(p.(i := k, acc := s[p.i + 1..k], stamp := Some(s[p.i + 1..k - 1]))))
    ensures r.Done? ==> right == RightTime(env, r.value.stamp)
  {
    var found, lit, k := ReadUntil(s, p.i + 1, 'g');
    if !found || lit == [] {
      return Panic, ZeroTime;
    }
    assert lit[..|lit| - 1] == s[p.i + 1..k - 1];
    right := ParseOrZero(env, lit[..|lit| - 1]);
    r := Done(p.(i := k, acc := lit, stamp := Some(lit[..|lit| - 1])));
  }

  /** A word read up to a space holds none, so no keyword ends it. */
  lemma NameNoKey(name: string)
    requires ' ' !in name
    ensures !TimeKey(name)
  {
    if |name| > 0 {
      assert name[|name| - 1] in name;
    }
  }

  /** One pass of the outer loop body: append a character and check for
      "current time ", then run the two blocks. */
  method Iteration(env: Env, fs: FileSystem, s: string, p: Probe, left0: Time, right0: Time, err0: string,
                   posName: nat, posParam: nat)
    returns (r: Outcome<Probe>, left: Time, right: Time, err: string)
    requires p.i < |s|
    requires left0 == LeftTime(env, fs, p.from, posName, posParam)
    requires right0 == RightTime(env, p.stamp)
    requires err0 == ErrText(env, fs, p.lastFile, posName, posParam)
    ensures r == ProbeStep(s, p)
    ensures r.Done? ==>
      left == LeftTime(env, fs, r.value.from, posName, posParam) &&
      right == RightTime(env, r.value.stamp) &&
      err == ErrText(env, fs, r.value.lastFile, posName, posParam)
  {
    left := left0;
    var q := p.(acc := p.acc + [s[p.i]]);
    if EndsWith(q.acc, "current time ") {
      q := q.(from := Clock);
      left := env.now;
    }
    r, left, right, err := RunBlocks(env, fs, s, q, left, right0, err0, posName, posParam);
  }

  /** The file block, the timestamp block and the final `i++`, in the
      source's order. */
  method RunBlocks(env: Env, fs: FileSystem, s: string, p: Probe, left0: Time, right0: Time, err0: string,
                   posName: nat, posParam: nat)
    returns (r: Outcome<Probe>, left: Time, right: Time, err: string)
    requires p.i < |s|
    requires left0 == LeftTime(env, fs, p.from, posName, posParam)
    requires right0 == RightTime(env, p.stamp)
    requires err0 == ErrText(env, fs, p.lastFile, posName, posParam)
    ensures r == Blocks(s, p)
    ensures r.Done? ==>
      left == LeftTime(env, fs, r.value.from, posName, posParam) &&
      right == RightTime(env, r.value.stamp) &&
      err == ErrText(env, fs, r.value.lastFile, posName, posParam)
  {
    left, right, err := left0, right0, err0;
    var q := p;
    if EndsWith(q.acc, "file ") {
      var read;
      read, left, err := FileBlock(env, fs, s, q, posName, posParam);
      if read.Panic? {
        return Panic, left, right, err;
      }
      q := read.value;
    }
    r, right := RunTimeBlock(env, s, q, right0);
  }

  /** The timestamp block and the final `i++`, once the file block is
      behind. */
  method RunTimeBlock(env: Env, s: string, p: Probe, right0: Time) returns (r: Outcome<Probe>, right: Time)
    requires p.i < |s|
    requires right0 == RightTime(env, p.stamp)
    ensures r == TimeBlockThenNext(s, p)
    ensures r.Done? ==> right == RightTime(env, r.value.stamp)
  {
    right := right0;
    var q := p;
    if EndsWith(q.acc, "then ") || EndsWith(q.acc, "equals ") {
      var read;
      read, right := TimeBlock(env, s, q);
      if read.Panic? {
        return Panic, right;
      }
      q := read.value;
    }
    r := Done(q.(i := q.i + 1));
  }

  /** `conditions` as the source writes it: extract the branch names, scan
      the command with its two inner loops, keeping the two times and the
      error text up to date, then switch on the operator. */
  method Conditions(env: Env, fs: FileSystem, s: string, posName: nat, posParam: nat)
    returns (r: Outcome<Verdict>)
    ensures r == Condition(env, fs, s, posName, posParam)
  {
    var names := ExtractOperands(s);
    if names.Panic? {
      return Panic;
    }
    var left, right, err := ZeroTime, ZeroTime, "";
    var p := Begin;
    while p.i < |s|
      invariant p.i <= |s|
      invariant ProbeFrom(s, p) == ProbeFrom(s, Begin)
      invariant left == LeftTime(env, fs, p.from, posName, posParam)
      invariant right == RightTime(env, p.stamp)
      invariant err == ErrText(env, fs, p.lastFile, posName, posParam)
      decreases |s| - p.i
    {
      var next;
      next, left, right, err := Iteration(env, fs, s, p, left, right, err, posName, posParam);
      if next.Panic? {
        return Panic;
      }
      p := next.value;
    }
    return Done(Decide(s, names.value, left, right, err, posName, posParam));
  }
}
