/** The operand extractor `extractNamesFromParamsforActions`: a left-to-right
    scan of one command string that accumulates characters and reacts to the
    keywords "file ", "to " and "text " appearing at the end of the
    accumulator. */
module Extractor {
  import opened Text
  import opened Wrappers

  /** The two strings the extractor returns: a file name (or, for `If`, the
      true-branch action) and a second file name, free text or action name. */
  datatype Operands = Operands(first: string, second: string)

  /** The scan's variables between two iterations of the outer loop: the
      index `i`, the accumulator, the capture counter and both results. */
  datatype Scan = Scan(i: nat, acc: string, counter: nat, first: string, second: string)

  const Start := Scan(0, "", 0, "", "")

  predicate IsIf(s: string) {
    StartsWith(s, "If")
  }

  /** The condition that starts a capture: "file " outside `If` commands,
      "to " inside them. */
  predicate Triggers(s: string, acc: string) {
    (EndsWith(acc, "file ") && !IsIf(s)) || (EndsWith(acc, "to ") && IsIf(s))
  }

  /** The condition that makes the rest of the line the second operand. */
  predicate TakesRest(acc: string) {
    EndsWith(acc, "text ") || EndsWith(acc, "to ")
  }

  /** Where the inner capture loop started at `from` stops: just after the
      first space, or at the end of the string. */
  function WordEnd(s: string, from: nat): (j: nat)
    requires from <= |s|
    ensures from <= j <= |s|
    ensures forall k :: from <= k < j - 1 ==> s[k] != ' '
    ensures j < |s| ==> j > from && s[j - 1] == ' '
  {
    var k := CharFrom(s, from, ' ');
    if k < |s| then k + 1 else |s|
  }

  /** The first half of one pass of the outer loop: append the next
      character and, when a keyword triggers, run the capture. */
  function Absorb(s: string, st: Scan): (r: Scan)
    requires st.i < |s|
    ensures st.i <= r.i <= |s|
  {
    var acc := st.acc + [s[st.i]];
    if Triggers(s, acc) then Captured(s, st) else st.(acc := acc)
  }

  /** The capture block: the word after position `st.i` is read and stored. */
  function Captured(s: string, st: Scan): (r: Scan)
    requires st.i < |s|
    ensures st.i <= r.i <= |s|
  {
    var j := WordEnd(s, st.i + 1);
    Stored(st, s[st.i + 1..j], j)
  }

  /** The end of the capture block, once `word` has been read and the index
      stands at `j`: the word becomes the accumulator and, by the counter's
      new value, the first operand (less its trailing space, with the index
      wound back onto that space) or the second; later captures store
      nothing. */
  function Stored(st: Scan, word: string, j: nat): (r: Scan)
    requires |word| <= j
    ensures j - 1 <= r.i <= j
  {
    var counter := st.counter + 1;
    if counter == 1 then
      if EndsWith(word, " ") then Scan(j - 1, word, counter, word[..|word| - 1], st.second)
      else Scan(j, word, counter, word, st.second)
    else if counter == 2 then Scan(j, word, counter, st.first, word)
    else Scan(j, word, counter, st.first, st.second)
  }

  /** One pass of the outer loop body, including its final `i++`. */
  function Step(s: string, st: Scan): (r: Outcome<Scan>)
    requires st.i < |s|
    ensures r.Done? ==> st.i < r.value.i <= |s| + 1
  {
    var st1 := Absorb(s, st);
    if TakesRest(st1.acc) then
      if st1.i + 1 <= |s| then
        Done(st1.(i := st1.i + 1, second := s[st1.i + 1..]))
      else
        Panic
    else
      Done(st1.(i := st1.i + 1))
  }

  /** The rest of the scan from state `st`. */
  function ExtractFrom(s: string, st: Scan): Outcome<Operands>
    requires st.i <= |s| + 1
    decreases |s| + 1 - st.i
  {
    if st.i >= |s| then Done(Operands(st.first, st.second))
    else
      match Step(s, st)
      case Panic => Panic
      case Done(next) => ExtractFrom(s, next)
  }

  /** The extractor's result on a whole command string. */
  function Extract(s: string): Outcome<Operands> {
    ExtractFrom(s, Start)
  }

  /** The inner capture loop: it appends characters from `from` on and stops
      once the accumulator ends with a space or the string is exhausted. */
  method ReadWord(s: string, from: nat) returns (word: string, j: nat)
    requires from <= |s|
    ensures j == WordEnd(s, from) && word == s[from..j]
  {
    word, j := "", from;
    EndsWithChar(word, ' ');
    while j < |s| && !EndsWith(word, " ")
      invariant from <= j <= |s|
      invariant word == s[from..j]
      invariant forall m :: from <= m < j - 1 ==> s[m] != ' '
      invariant EndsWith(word, " ") <==> j > from && s[j - 1] == ' '
      decreases |s| - j
    {
      word := word + [s[j]];
      j := j + 1;
      EndsWithChar(word, ' ');
    }
    WordEndIs(s, from, j);
  }

  /** Where the inner capture loop stops, read off its exit condition. */
  lemma WordEndIs(s: string, from: nat, j: nat)
    requires from <= j <= |s|
    requires forall m :: from <= m < j - 1 ==> s[m] != ' '
    requires j == |s| || (j > from && s[j - 1] == ' ')
    ensures j == WordEnd(s, from)
  {
    if j > from && s[j - 1] == ' ' {
      CharFromIs(s, from, ' ', j - 1);
    } else {
      CharFromIs(s, from, ' ', |s|);
    }
  }

  /** The capture block of the loop body (run when a keyword triggers): read
      the word, count the capture and store it by the counter's value. */
  method Capture(s: string, st: Scan) returns (r: Scan)
    requires st.i < |s|
    ensures r == Captured(s, st)
  {
    var acc, i := ReadWord(s, st.i + 1);
    r := Store(st, acc, i);
  }

  /** The bookkeeping after the inner loop: count the capture and store the
      word by the counter's value. */
  method Store(st: Scan, acc: string, i: nat) returns (r: Scan)
    requires |acc| <= i
    ensures r == Stored(st, acc, i)
  {
    var j, counter, first, second := i, st.counter + 1, st.first, st.second;
    if counter == 1 {
      first := acc;
      if EndsWith(acc, " ") {
        first := acc[..|acc| - 1];
        j := j - 1;
      }
    } else if counter == 2 {
      second := acc;
    }
    r := Scan(j, acc, counter, first, second);
  }

  /** The first half of the loop body: append the character, and capture
      the next word when a keyword triggers. */
  method AbsorbChar(s: string, st: Scan) returns (r: Scan)
    requires st.i < |s|
    ensures r == Absorb(s, st)
  {
    if Triggers(s, st.acc + [s[st.i]]) {
      r := Capture(s, st);
    } else {
      r := st.(acc := st.acc + [s[st.i]]);
    }
  }

  /** The scan as the source writes it: an accumulator built character by
      character, an inner capture loop that advances the index, a counter of
      captures and an index wound back by one after the first capture. */
  method ExtractOperands(s: string) returns (o: Outcome<Operands>)
    ensures o == Extract(s)
  {
    var st := Start;
    while st.i < |s|
      invariant st.i <= |s| + 1
      invariant ExtractFrom(s, st) == Extract(s)
      decreases |s| + 1 - st.i
    {
      var next := Iteration(s, st);
      if next.Panic? {
        return Panic;
      }
      st := next.value;
    }
    return Done(Operands(st.first, st.second));
  }

  /** One pass of the outer loop body: append the character (capturing the
      next word when a keyword triggers), take the rest of the line after
      "text " or "to ", and step past the character. */
  method Iteration(s: string, st: Scan) returns (r: Outcome<Scan>)
    requires st.i < |s|
    ensures r == Step(s, st)
  {
    var next := AbsorbChar(s, st);
    if TakesRest(next.acc) {
      if next.i + 1 > |s| {
        return Panic;
      }
      next := next.(second := s[next.i + 1..]);
    }
    return Done(next.(i := next.i + 1));
  }

  // ---------------------------------------------------------------------
  // Calm stretches: where no keyword ends, the scan only accumulates.
  // ---------------------------------------------------------------------

  /** The word that ends just before position `k` of `t` ends in "to", in
      "text" or (when `withFile`) in "file": were `t[k]` a space, a keyword
      would end there. Stated character by character. */
  predicate KeyBefore(t: string, k: nat, withFile: bool)
    requires k <= |t|
  {
    (k >= 2 && t[k - 2] == 't' && t[k - 1] == 'o') ||
    (k >= 4 && t[k - 4] == 't' && t[k - 3] == 'e' && t[k - 2] == 'x' && t[k - 1] == 't') ||
    (withFile && k >= 4 && t[k - 4] == 'f' && t[k - 3] == 'i' && t[k - 2] == 'l' && t[k - 1] == 'e')
  }

  /** No keyword ends at any space of `t` at or after position `from`. */
  predicate CalmFrom(t: string, from: nat, withFile: bool) {
    forall k {:trigger KeyBefore(t, k, withFile)} ::
      from <= k < |t| && t[k] == ' ' ==> !KeyBefore(t, k, withFile)
  }

  predicate Calm(t: string, withFile: bool) {
    CalmFrom(t, 0, withFile)
  }

  /** The accumulator is empty or ends at a word boundary. */
  predicate AtBoundary(acc: string) {
    acc == [] || acc[|acc| - 1] == ' '
  }

  /** A keyword that ends at position `k` of `u` is seen by KeyBefore. */
  lemma KeywordAt(u: string, k: nat, withFile: bool)
    requires k < |u|
    ensures TakesRest(u[..k + 1]) || (withFile && EndsWith(u[..k + 1], "file ")) ==>
              u[k] == ' ' && KeyBefore(u, k, withFile)
  {
    var a := u[..k + 1];
    if EndsWith(a, "to ") {
      assert a[|a| - 3..][0] == 't' && a[|a| - 3..][1] == 'o' && a[|a| - 3..][2] == ' ';
    }
    if EndsWith(a, "text ") {
      assert a[|a| - 5..][0] == 't' && a[|a| - 5..][1] == 'e' && a[|a| - 5..][2] == 'x';
      assert a[|a| - 5..][3] == 't' && a[|a| - 5..][4] == ' ';
    }
    if withFile && EndsWith(a, "file ") {
      assert a[|a| - 5..][0] == 'f' && a[|a| - 5..][1] == 'i' && a[|a| - 5..][2] == 'l';
      assert a[|a| - 5..][3] == 'e' && a[|a| - 5..][4] == ' ';
    }
  }

  /** A calm stretch of input is absorbed into the accumulator, one
      character per outer iteration, with no capture and no rest taken. */
  lemma {:induction false} QuietRun(s: string, st: Scan, j: nat)
    requires st.i <= j <= |s|
    requires CalmFrom(st.acc + s[st.i..j], |st.acc|, !IsIf(s))
    ensures ExtractFrom(s, st) == ExtractFrom(s, st.(i := j, acc := st.acc + s[st.i..j]))
    decreases j - st.i
  {
    var u := st.acc + s[st.i..j];
    if st.i == j {
      assert u == st.acc;
    } else {
      var acc := st.acc + [s[st.i]];
      assert acc == u[..|st.acc| + 1];
      KeywordAt(u, |st.acc|, !IsIf(s));
      assert !Triggers(s, acc);
      var next := st.(i := st.i + 1, acc := acc);
      assert Step(s, st) == Done(next);
      assert next.acc + s[next.i..j] == u;
      QuietRun(s, next, j);
    }
  }

  /** Keywords hold no space before their last character, so one that ends
      after a word boundary lies wholly after it. */
  lemma KeyBeforeShift(acc: string, seg: string, k: nat, withFile: bool)
    requires AtBoundary(acc) && |acc| <= k < |acc + seg|
    requires KeyBefore(acc + seg, k, withFile)
    ensures KeyBefore(seg, k - |acc|, withFile)
  {
    var u := acc + seg;
    assert k - 1 >= |acc| && u[k - 1] == seg[k - 1 - |acc|];
    assert k - 2 >= |acc| && u[k - 2] == seg[k - 2 - |acc|];
    if k >= 4 && u[k - 2] != 't' {
      assert k - 3 >= |acc| && u[k - 3] == seg[k - 3 - |acc|];
      assert k - 4 >= |acc| && u[k - 4] == seg[k - 4 - |acc|];
    }
  }

  /** A calm segment read after a word boundary stays calm. */
  lemma CalmAfterBoundary(acc: string, seg: string, withFile: bool)
    requires AtBoundary(acc) && Calm(seg, withFile)
    ensures CalmFrom(acc + seg, |acc|, withFile)
  {
    var u := acc + seg;
    forall k | |acc| <= k < |u| && u[k] == ' '
      ensures !KeyBefore(u, k, withFile)
    {
      assert seg[k - |acc|] == ' ';
      if KeyBefore(u, k, withFile) {
        KeyBeforeShift(acc, seg, k, withFile);
      }
    }
  }

  /** Calm pieces that meet at a word boundary make a calm whole. */
  lemma CalmConcat(a: string, b: string, withFile: bool)
    requires AtBoundary(a) && Calm(a, withFile) && Calm(b, withFile)
    ensures Calm(a + b, withFile)
  {
    CalmAfterBoundary(a, b, withFile);
    var u := a + b;
    forall k | 0 <= k < |a| && u[k] == ' '
      ensures !KeyBefore(u, k, withFile)
    {
      assert forall m :: 0 <= m <= k ==> u[m] == a[m];
      assert a[k] == ' ' && !KeyBefore(a, k, withFile);
    }
  }

  // ---------------------------------------------------------------------
  // Single events of the scan: a capture, a rest taken.
  // ---------------------------------------------------------------------

  /** The calm part after a word's space. */
  lemma CalmFromTail(w: string, rest: string)
    requires Calm(w + rest, false)
    ensures CalmFrom(w + rest, |w|, false)
  {
  }

  /** The scan reads a calm prefix of the command without reacting. */
  lemma Reach(s: string, n: nat)
    requires n <= |s| && Calm(s[..n], !IsIf(s))
    ensures ExtractFrom(s, Start) == ExtractFrom(s, Scan(n, s[..n], 0, "", ""))
  {
    assert Start.acc + s[0..n] == s[..n];
    QuietRun(s, Start, n);
  }

  /** A word of a calm stretch, with its space, is no keyword. */
  lemma WordNotKey(name: string, tail: string, withFile: bool)
    requires Calm(name + " " + tail, withFile)
    ensures !TakesRest(name + " ") && (withFile ==> !EndsWith(name + " ", "file "))
  {
    var u := name + " " + tail;
    assert u[..|name| + 1] == name + " ";
    KeywordAt(u, |name|, withFile);
  }

  /** A keyword ends with a space, so an accumulator without one matches none. */
  lemma NoSpaceNoKeyword(w: string)
    requires ' ' !in w
    ensures !TakesRest(w) && !EndsWith(w, "file ") && !EndsWith(w, " ")
  {
    if |w| > 0 {
      assert w[|w| - 1] in w;
    }
  }

  /** One pass of the loop moves the scan from `st` to `next`. */
  lemma StepTo(s: string, st: Scan, next: Scan)
    requires st.i < |s| && Step(s, st) == Done(next)
    ensures ExtractFrom(s, st) == ExtractFrom(s, next)
  {
  }

  /** The inner loop stops right after the space that ends `name`. */
  lemma WordEndAfter(s: string, from: nat, name: string)
    requires from + |name| < |s|
    requires s[from..from + |name|] == name && s[from + |name|] == ' ' && ' ' !in name
    ensures WordEnd(s, from) == from + |name| + 1
    ensures s[from..WordEnd(s, from)] == name + " "
  {
    forall j | from <= j < from + |name| ensures s[j] != ' ' {
      assert s[j] == name[j - from];
    }
    CharFromIs(s, from, ' ', from + |name|);
  }

  /** The inner loop runs to the end of a string with no space left. */
  lemma WordEndLast(s: string, from: nat)
    requires from <= |s| && ' ' !in s[from..]
    ensures WordEnd(s, from) == |s|
  {
    forall j | from <= j < |s| ensures s[j] != ' ' {
      assert s[j] == s[from..][j - from];
    }
    CharFromIs(s, from, ' ', |s|);
  }

  /** A capture whose word is followed by a space. The first capture drops
      the space and winds the index back onto it; a later capture keeps the
      space in the word and does not wind back, so the character after the
      space is never read. */
  lemma CaptureSpaced(s: string, st: Scan, name: string)
    requires st.i + 2 + |name| <= |s|
    requires Triggers(s, st.acc + [s[st.i]])
    requires s[st.i + 1..st.i + 1 + |name|] == name && s[st.i + 1 + |name|] == ' ' && ' ' !in name
    requires !TakesRest(name + " ")
    ensures ExtractFrom(s, st) == ExtractFrom(s, AfterSpaced(st, name))
  {
    AbsorbSpaced(s, st, name);
    var next := AfterSpaced(st, name);
    assert Step(s, st) == Done(next);
    StepTo(s, st, next);
  }

  /** The capture block on a word followed by a space. */
  lemma AbsorbSpaced(s: string, st: Scan, name: string)
    requires st.i + 2 + |name| <= |s|
    requires Triggers(s, st.acc + [s[st.i]])
    requires s[st.i + 1..st.i + 1 + |name|] == name && s[st.i + 1 + |name|] == ' ' && ' ' !in name
    ensures Absorb(s, st) == AfterSpaced(st, name).(i := AfterSpaced(st, name).i - 1)
  {
    var word := name + " ";
    WordEndAfter(s, st.i + 1, name);
    assert word[..|word| - 1] == name;
    assert EndsWith(word, " ");
  }

  /** The state after a capture of `name` followed by a space. */
  function AfterSpaced(st: Scan, name: string): Scan {
    var word := name + " ";
    if st.counter == 0 then Scan(st.i + 2 + |name|, word, 1, name, st.second)
    else Scan(st.i + 3 + |name|, word, st.counter + 1, st.first,
              if st.counter == 1 then word else st.second)
  }

  /** The capture itself, when the word runs to the end of the command. */
  lemma AbsorbLast(s: string, st: Scan)
    requires st.i < |s| && Triggers(s, st.acc + [s[st.i]])
    requires ' ' !in s[st.i + 1..]
    ensures var word := s[st.i + 1..];
      Absorb(s, st) == Scan(|s|, word, st.counter + 1,
                            if st.counter == 0 then word else st.first,
                            if st.counter == 1 then word else st.second)
  {
    WordEndLast(s, st.i + 1);
    NoSpaceNoKeyword(s[st.i + 1..]);
  }

  /** A capture that runs to the end of the command. */
  lemma CaptureLast(s: string, st: Scan)
    requires st.i < |s| && Triggers(s, st.acc + [s[st.i]])
    requires ' ' !in s[st.i + 1..]
    ensures ExtractFrom(s, st) ==
      Done(Operands(if st.counter == 0 then s[st.i + 1..] else st.first,
                    if st.counter == 1 then s[st.i + 1..] else st.second))
  {
    AbsorbLast(s, st);
    NoSpaceNoKeyword(s[st.i + 1..]);
    var mid := Absorb(s, st);
    StepTo(s, st, mid.(i := |s| + 1));
  }

  /** The accumulator comes to end with "to " or "text " without a capture:
      the rest of the line after the index becomes the second operand. */
  lemma RestAt(s: string, st: Scan)
    requires st.i < |s|
    requires !Triggers(s, st.acc + [s[st.i]]) && TakesRest(st.acc + [s[st.i]])
    ensures ExtractFrom(s, st) ==
      ExtractFrom(s, Scan(st.i + 1, st.acc + [s[st.i]], st.counter, st.first, s[st.i + 1..]))
  {
    StepTo(s, st, Scan(st.i + 1, st.acc + [s[st.i]], st.counter, st.first, s[st.i + 1..]));
  }

  /** A rest keyword: "to" or "text", followed by a space in the command. */
  predicate RestKey(key: string) {
    key == "to" || key == "text"
  }

  /** An accumulator that ends with "to " or "text " takes the rest of the
      line and does not end with "file ". */
  lemma KeywordEnds(p: string, key: string)
    requires RestKey(key)
    ensures TakesRest(p + key + " ") && !EndsWith(p + key + " ", "file ")
  {
    var a := p + key + " ";
    assert a[|a| - |key| - 1..] == key + " ";
    assert a[|a| - 2] == 'o' || a[|a| - 2] == 't';
    if |a| >= 5 {
      assert a[|a| - 5..][3] == a[|a| - 2];
    }
  }

  /** The accumulator reaches "to " or "text " after a calm stretch `mid`
      (outside `If` commands): the rest of the line becomes the second
      operand. */
  lemma TakeRest(s: string, st: Scan, mid: string, key: string)
    requires !IsIf(s) && RestKey(key)
    requires st.i + |mid| + |key| < |s|
    requires s[st.i..st.i + |mid| + |key|] == mid + key && s[st.i + |mid| + |key|] == ' '
    requires CalmFrom(st.acc + mid + key, |st.acc|, true)
    ensures ExtractFrom(s, st) ==
      ExtractFrom(s, Scan(st.i + |mid| + |key| + 1, st.acc + mid + key + " ", st.counter, st.first,
                          s[st.i + |mid| + |key| + 1..]))
  {
    var w := mid + key;
    var p := st.(i := st.i + |w|, acc := st.acc + w);
    TakeRestParts(s, st, mid, key);
    assert Scan(p.i + 1, p.acc + [s[p.i]], p.counter, p.first, s[p.i + 1..]) ==
      Scan(st.i + |mid| + |key| + 1, st.acc + mid + key + " ", st.counter, st.first,
           s[st.i + |mid| + |key| + 1..]);
    RestAfter(s, st, p, w);
  }

  /** The facts about the command that TakeRest feeds to RestAfter. */
  lemma TakeRestParts(s: string, st: Scan, mid: string, key: string)
    requires !IsIf(s) && RestKey(key)
    requires st.i + |mid| + |key| < |s|
    requires s[st.i..st.i + |mid| + |key|] == mid + key && s[st.i + |mid| + |key|] == ' '
    requires CalmFrom(st.acc + mid + key, |st.acc|, true)
    ensures var w := mid + key;
      s[st.i..st.i + |w|] == w && CalmFrom(st.acc + w, |st.acc|, !IsIf(s)) &&
      st.acc + w + [s[st.i + |w|]] == st.acc + mid + key + " " &&
      !Triggers(s, st.acc + w + [s[st.i + |w|]]) && TakesRest(st.acc + w + [s[st.i + |w|]])
  {
    assert st.acc + (mid + key) == st.acc + mid + key;
    KeywordEnds(st.acc + mid, key);
  }

  /** A calm piece `w`, then a rest keyword ending at the next character;
      `p` is the scan's state once `w` is absorbed. */
  lemma RestAfter(s: string, st: Scan, p: Scan, w: string)
    requires st.i + |w| <= |s| && s[st.i..st.i + |w|] == w
    requires CalmFrom(st.acc + w, |st.acc|, !IsIf(s))
    requires p == st.(i := st.i + |w|, acc := st.acc + w)
    requires p.i < |s| && !Triggers(s, p.acc + [s[p.i]]) && TakesRest(p.acc + [s[p.i]])
    ensures ExtractFrom(s, st) ==
      ExtractFrom(s, Scan(p.i + 1, p.acc + [s[p.i]], p.counter, p.first, s[p.i + 1..]))
  {
    RestAt(s, p);
    QuietPiece(s, st, w);
  }

  /** A calm piece `w` of the command at the scan's index is absorbed. */
  lemma QuietPiece(s: string, st: Scan, w: string)
    requires st.i + |w| <= |s| && s[st.i..st.i + |w|] == w
    requires CalmFrom(st.acc + w, |st.acc|, !IsIf(s))
    ensures ExtractFrom(s, st) == ExtractFrom(s, st.(i := st.i + |w|, acc := st.acc + w))
  {
    QuietRun(s, st, st.i + |w|);
  }

  /** The last rest keyword of the command: its rest is the second operand. */
  lemma RestToEnd(s: string, st: Scan, mid: string, key: string, rest: string)
    requires !IsIf(s) && RestKey(key) && st.i <= |s|
    requires s[st.i..] == mid + key + " " + rest
    requires CalmFrom(st.acc + mid + key, |st.acc|, true) && Calm(rest, true)
    ensures ExtractFrom(s, st) == Done(Operands(st.first, rest))
  {
    RestToEndParts(s, st, mid, key, rest);
    QuietEnd(s, Scan(st.i + |mid| + |key| + 1, st.acc + mid + key + " ", st.counter, st.first,
                     s[st.i + |mid| + |key| + 1..]));
    TakeRest(s, st, mid, key);
  }

  /** The facts about the command that RestToEnd feeds to TakeRest and
      QuietEnd. */
  lemma RestToEndParts(s: string, st: Scan, mid: string, key: string, rest: string)
    requires st.i <= |s| && s[st.i..] == mid + key + " " + rest && Calm(rest, true)
    ensures st.i + |mid| + |key| < |s|
    ensures s[st.i..st.i + |mid| + |key|] == mid + key && s[st.i + |mid| + |key|] == ' '
    ensures s[st.i + |mid| + |key| + 1..] == rest && Calm(s[st.i + |mid| + |key| + 1..], true)
    ensures AtBoundary(st.acc + mid + key + " ")
  {
    var t := s[st.i..];
    var n := |mid| + |key|;
    assert s[st.i..st.i + n] == t[..n] == mid + key;
    assert s[st.i + n] == t[n] == ' ';
    assert s[st.i + n + 1..] == t[n + 1..] == rest;
  }

  /** Two rest keywords: the second one's rest replaces the first's. */
  lemma RestTwiceToEnd(s: string, st: Scan, mid: string, key: string,
                       text: string, key2: string, rest: string)
    requires !IsIf(s) && RestKey(key) && RestKey(key2) && st.i <= |s|
    requires s[st.i..] == mid + key + " " + text + key2 + " " + rest
    requires CalmFrom(st.acc + mid + key, |st.acc|, true)
    requires Calm(text + key2, true) && Calm(rest, true)
    ensures ExtractFrom(s, st) == Done(Operands(st.first, rest))
  {
    RestTwiceParts(s, st, mid, key, text, key2, rest);
    var st2 := Scan(st.i + |mid| + |key| + 1, st.acc + mid + key + " ", st.counter, st.first,
                    s[st.i + |mid| + |key| + 1..]);
    TakeRest(s, st, mid, key);
    RestToEnd(s, st2, text, key2, rest);
  }

  /** The facts about the command that RestTwiceToEnd feeds to TakeRest and
      RestToEnd. */
  lemma RestTwiceParts(s: string, st: Scan, mid: string, key: string,
                       text: string, key2: string, rest: string)
    requires st.i <= |s| && RestKey(key)
    requires s[st.i..] == mid + key + " " + text + key2 + " " + rest
    requires Calm(text + key2, true)
    ensures st.i + |mid| + |key| < |s|
    ensures s[st.i..st.i + |mid| + |key|] == mid + key && s[st.i + |mid| + |key|] == ' '
    ensures var st2 := Scan(st.i + |mid| + |key| + 1, st.acc + mid + key + " ", st.counter, st.first,
                            s[st.i + |mid| + |key| + 1..]);
      st2.i <= |s| && s[st2.i..] == text + key2 + " " + rest &&
      CalmFrom(st2.acc + text + key2, |st2.acc|, true)
  {
    var t := s[st.i..];
    var n := |mid| + |key|;
    var k := st.i + n + 1;
    assert t == (mid + key + " ") + (text + key2 + " " + rest);
    assert s[k..] == t[n + 1..] == text + key2 + " " + rest;
    assert s[st.i..st.i + n] == t[..n] == mid + key;
    assert s[st.i + n] == t[n] == ' ';
    var acc := st.acc + mid + key + " ";
    CalmAfterBoundary(acc, text + key2, true);
    assert acc + text + key2 == acc + (text + key2);
  }

  /** The scan ends quietly: a calm tail after a word boundary changes neither
      operand. */
  lemma QuietEnd(s: string, st: Scan)
    requires st.i <= |s| && AtBoundary(st.acc) && Calm(s[st.i..], !IsIf(s))
    ensures ExtractFrom(s, st) == Done(Operands(st.first, st.second))
  {
    CalmAfterBoundary(st.acc, s[st.i..], !IsIf(s));
    assert s[st.i..|s|] == s[st.i..];
    QuietRun(s, st, |s|);
  }

  // ---------------------------------------------------------------------
  // The command shapes of the language, and what the extractor returns.
  // ---------------------------------------------------------------------

  /** `<verb…> file NAME`: the name is the first operand, the second is empty. */
  lemma {:induction false} FileOnly(pre: string, name: string)
    requires !IsIf(pre + "file " + name)
    requires Calm(pre + "file", true) && ' ' !in name
    ensures Extract(pre + "file " + name) == Done(Operands(name, ""))
  {
    var s := pre + "file " + name;
    var j := |pre| + 4;
    assert s[0..j] == pre + "file";
    assert Start.acc + s[0..j] == pre + "file";
    QuietRun(s, Start, j);
    var st := Scan(j, pre + "file", 0, "", "");
    assert st.acc + [s[j]] == pre + "file ";
    assert s[j + 1..] == name;
    CaptureLast(s, st);
  }

  /** The state after `file NAME ` has been read outside `If` commands. */
  lemma {:induction false} FileName(s: string, pre: string, name: string, tail: string)
    requires s == pre + "file " + name + " " + tail && !IsIf(s)
    requires Calm(pre + "file", true) && ' ' !in name && !TakesRest(name + " ")
    ensures ExtractFrom(s, Start) ==
      ExtractFrom(s, Scan(|pre| + 6 + |name|, name + " ", 1, name, ""))
  {
    var j := |pre| + 4;
    assert s[..j] == pre + "file";
    var st := Scan(j, s[..j], 0, "", "");
    assert st.acc + [s[j]] == pre + "file ";
    assert s[j + 1..j + 1 + |name|] == name;
    assert s[j + 1 + |name|] == ' ';
    assert AfterSpaced(st, name) == Scan(|pre| + 6 + |name|, name + " ", 1, name, "");
    FirstSpaced(s, j, st, name);
  }

  /** The scan reads a calm prefix of `n` characters, then captures `name`
      followed by a space; `st` is the state after the prefix. */
  lemma FirstSpaced(s: string, n: nat, st: Scan, name: string)
    requires n <= |s| && Calm(s[..n], !IsIf(s))
    requires st == Scan(n, s[..n], 0, "", "")
    requires st.i + 2 + |name| <= |s|
    requires Triggers(s, st.acc + [s[st.i]])
    requires s[st.i + 1..st.i + 1 + |name|] == name && s[st.i + 1 + |name|] == ' ' && ' ' !in name
    requires !TakesRest(name + " ")
    ensures ExtractFrom(s, Start) == ExtractFrom(s, AfterSpaced(st, name))
  {
    Reach(s, n);
    CaptureSpaced(s, st, name);
  }

  /** `<verb…> file NAME <mid…>to REST` and `… text REST`: the name, with its
      terminating space removed, and the whole rest of the line. */
  lemma {:induction false} FileThenRest(pre: string, name: string, mid: string, key: string, rest: string)
    requires RestKey(key)
    requires !IsIf(pre + "file " + name + " " + mid + key + " " + rest)
    requires Calm(pre + "file", true) && ' ' !in name
    requires Calm(name + " " + mid + key, true) && Calm(rest, true)
    ensures Extract(pre + "file " + name + " " + mid + key + " " + rest) == Done(Operands(name, rest))
  {
    var s := pre + "file " + name + " " + mid + key + " " + rest;
    var tail := mid + key + " " + rest;
    assert s == pre + "file " + name + " " + tail;
    FileTailParts(s, pre, name, mid, key, tail);
    FileName(s, pre, name, tail);
    RestToEnd(s, Scan(|pre| + 6 + |name|, name + " ", 1, name, ""), mid, key, rest);
  }

  /** The facts about `<verb…> file NAME <mid…><key>…` that the shapes after
      the file name need. */
  lemma FileTailParts(s: string, pre: string, name: string, mid: string, key: string, tail: string)
    requires s == pre + "file " + name + " " + tail
    requires Calm(name + " " + mid + key, true)
    ensures s[|pre| + 6 + |name|..] == tail && !TakesRest(name + " ")
    ensures CalmFrom(name + " " + mid + key, |name + " "|, true)
  {
    assert name + " " + (mid + key) == name + " " + mid + key;
    WordNotKey(name, mid + key, true);
    assert s == (pre + "file " + name + " ") + tail;
  }

  /** `<verb…> to REST` with no "file ": no first operand, the rest of the
      line as the second (the shape of `Go to ACTION`). */
  lemma {:induction false} RestOnly(pre: string, key: string, rest: string)
    requires RestKey(key)
    requires !IsIf(pre + key + " " + rest)
    requires Calm(pre + key, true) && Calm(rest, true)
    ensures Extract(pre + key + " " + rest) == Done(Operands("", rest))
  {
    var s := pre + key + " " + rest;
    assert s[0..] == pre + key + " " + rest;
    assert Start.acc + pre + key == pre + key;
    RestToEnd(s, Start, pre, key, rest);
  }

  /** A keyword inside the second operand restarts it: the LAST "to " or
      "text " decides the second operand, so `Write file F text go to bed`
      writes only "bed". */
  lemma {:induction false} LastRestWins(pre: string, name: string, mid: string, key: string,
                                         text: string, key2: string, rest: string)
    requires RestKey(key) && RestKey(key2)
    requires !IsIf(pre + "file " + name + " " + mid + key + " " + text + key2 + " " + rest)
    requires Calm(pre + "file", true) && ' ' !in name
    requires Calm(name + " " + mid + key, true)
    requires Calm(text + key2, true) && Calm(rest, true)
    ensures Extract(pre + "file " + name + " " + mid + key + " " + text + key2 + " " + rest) ==
            Done(Operands(name, rest))
  {
    var s := pre + "file " + name + " " + mid + key + " " + text + key2 + " " + rest;
    var tail := mid + key + " " + text + key2 + " " + rest;
    assert s == pre + "file " + name + " " + tail;
    FileTailParts(s, pre, name, mid, key, tail);
    FileName(s, pre, name, tail);
    RestTwiceToEnd(s, Scan(|pre| + 6 + |name|, name + " ", 1, name, ""), mid, key, text, key2, rest);
  }

  /** The state after `to A ` has been read inside an `If` command. */
  lemma {:induction false} ToName(s: string, pre: string, a: string, tail: string)
    requires s == pre + "to " + a + " " + tail && IsIf(s)
    requires Calm(pre + "to", false) && ' ' !in a && !TakesRest(a + " ")
    ensures ExtractFrom(s, Start) == ExtractFrom(s, Scan(|pre| + 4 + |a|, a + " ", 1, a, ""))
  {
    var j := |pre| + 2;
    assert s[..j] == pre + "to";
    var st := Scan(j, s[..j], 0, "", "");
    assert st.acc + [s[j]] == pre + "to ";
    assert s[j + 1..j + 1 + |a|] == a;
    assert s[j + 1 + |a|] == ' ';
    assert AfterSpaced(st, a) == Scan(|pre| + 4 + |a|, a + " ", 1, a, "");
    FirstSpaced(s, j, st, a);
  }

  /** A calm stretch ending in "to" is absorbed. */
  lemma QuietTo(s: string, st: Scan, mid: string)
    requires st.i + |mid| + 2 <= |s| && s[st.i..st.i + |mid| + 2] == mid + "to"
    requires CalmFrom(st.acc + mid + "to", |st.acc|, !IsIf(s))
    ensures ExtractFrom(s, st) ==
      ExtractFrom(s, st.(i := st.i + |mid| + 2, acc := st.acc + mid + "to"))
  {
    assert st.acc + s[st.i..st.i + |mid| + 2] == st.acc + mid + "to";
    QuietRun(s, st, st.i + |mid| + 2);
  }

  /** `If … to A <mid…>to B`: inside `If` commands only "to " starts a
      capture ("file " does not); the first capture is the true branch, the
      second the false branch. */
  lemma {:induction false} IfBranches(pre: string, a: string, mid: string, b: string)
    requires IsIf(pre + "to " + a + " " + mid + "to " + b)
    requires Calm(pre + "to", false) && ' ' !in a && ' ' !in b
    requires Calm(a + " " + mid + "to", false)
    ensures Extract(pre + "to " + a + " " + mid + "to " + b) == Done(Operands(a, b))
  {
    var s := pre + "to " + a + " " + mid + "to " + b;
    var tail := mid + "to " + b;
    assert s == pre + "to " + a + " " + tail;
    assert a + " " + (mid + "to") == a + " " + mid + "to";
    WordNotKey(a, mid + "to", false);
    ToName(s, pre, a, tail);
    assert ExtractFrom(s, Start) == ExtractFrom(s, Scan(|pre| + 4 + |a|, a + " ", 1, a, ""));
    assert s == (pre + "to " + a + " ") + mid + "to " + b;
    CalmFromTail(a + " ", mid + "to");
    LastCapture(s, Scan(|pre| + 4 + |a|, a + " ", 1, a, ""), pre + "to " + a + " ", mid, b);
    assert Extract(s) == ExtractFrom(s, Start);
  }

  /** Inside an `If`, a calm stretch ending in "to " and a final word. */
  lemma LastCapture(s: string, st: Scan, p: string, mid: string, b: string)
    requires IsIf(s) && s == p + mid + "to " + b && st.i == |p| && ' ' !in b
    requires CalmFrom(st.acc + mid + "to", |st.acc|, false)
    ensures ExtractFrom(s, st) ==
      Done(Operands(if st.counter == 0 then b else st.first, if st.counter == 1 then b else st.second))
  {
    var k := st.i + |mid| + 2;
    assert s == (p + mid + "to") + " " + b;
    assert s[st.i..k] == mid + "to";
    assert s[k] == ' ';
    assert s[k + 1..] == b;
    QuietTo(s, st, mid);
    var st3 := st.(i := k, acc := st.acc + mid + "to");
    assert st3.acc + [s[k]] == st.acc + mid + "to ";
    CaptureLast(s, st3);
  }

  /** The second capture of an `If` command, followed by a space and one
      more character `x`: the space stays in the word, `x` is skipped, and a
      later calm stretch ending in "to" is absorbed. */
  lemma SecondSpaced(s: string, st: Scan, p: string, b: string, x: char, mid2: string, tail: string)
    requires IsIf(s) && st.counter == 1 && st.i == |p|
    requires s == p + " " + b + " " + [x] + mid2 + "to" + tail
    requires Triggers(s, st.acc + [' '])
    requires ' ' !in b && Calm(b + " " + mid2 + "to", false)
    ensures ExtractFrom(s, st) ==
      ExtractFrom(s, Scan(|p| + 5 + |b| + |mid2|, b + " " + mid2 + "to", 2, st.first, b + " "))
  {
    assert s == (p + " ") + b + " " + [x] + mid2 + "to" + tail;
    assert s[st.i] == ' ';
    assert s[st.i + 1..st.i + 1 + |b|] == b;
    assert s[st.i + 1 + |b|] == ' ';
    assert b + " " + (mid2 + "to") == b + " " + mid2 + "to";
    WordNotKey(b, mid2 + "to", false);
    var st4 := Scan(st.i + 3 + |b|, b + " ", 2, st.first, b + " ");
    assert AfterSpaced(st, b) == st4;
    assert s == (p + " " + b + " " + [x]) + mid2 + "to" + tail;
    assert s[st4.i..st4.i + |mid2| + 2] == mid2 + "to";
    CalmFromTail(b + " ", mid2 + "to");
    assert st4.(i := st4.i + |mid2| + 2, acc := st4.acc + mid2 + "to") ==
           Scan(|p| + 5 + |b| + |mid2|, b + " " + mid2 + "to", 2, st.first, b + " ");
    SpacedThenQuiet(s, st, st4, b, mid2);
  }

  /** A capture of `b` followed by a space, then a calm stretch ending in
      "to"; `st4` is the state after the capture. */
  lemma SpacedThenQuiet(s: string, st: Scan, st4: Scan, b: string, mid2: string)
    requires st.i + 2 + |b| <= |s|
    requires Triggers(s, st.acc + [s[st.i]])
    requires s[st.i + 1..st.i + 1 + |b|] == b && s[st.i + 1 + |b|] == ' ' && ' ' !in b
    requires !TakesRest(b + " ")
    requires st4 == AfterSpaced(st, b)
    requires st4.i + |mid2| + 2 <= |s| && s[st4.i..st4.i + |mid2| + 2] == mid2 + "to"
    requires CalmFrom(st4.acc + mid2 + "to", |st4.acc|, !IsIf(s))
    ensures ExtractFrom(s, st) ==
      ExtractFrom(s, st4.(i := st4.i + |mid2| + 2, acc := st4.acc + mid2 + "to"))
  {
    CaptureSpaced(s, st, b);
    QuietTo(s, st4, mid2);
  }

  /** After the first capture of an `If`: a calm stretch, a second capture
      followed by a space, and a third capture running to the end. */
  lemma SecondThenThird(s: string, st: Scan, p: string, mid: string, b: string, x: char,
                        mid2: string, c: string)
    requires IsIf(s) && st.counter == 1 && st.i == |p|
    requires s == p + mid + "to " + b + " " + [x] + mid2 + "to " + c
    requires CalmFrom(st.acc + mid + "to", |st.acc|, false)
    requires ' ' !in b && ' ' !in c && Calm(b + " " + mid2 + "to", false)
    ensures ExtractFrom(s, st) == Done(Operands(st.first, b + " "))
  {
    var k := st.i + |mid| + 2;
    var q := p + mid + "to";
    assert s == q + " " + b + " " + [x] + mid2 + "to" + (" " + c);
    assert s[st.i..k] == mid + "to";
    var st3 := Scan(k, st.acc + mid + "to", 1, st.first, st.second);
    assert st.(i := k, acc := st.acc + mid + "to") == st3;
    assert st3.acc + [' '] == st.acc + mid + "to ";
    QuietTo(s, st, mid);
    SpacedThenLast(s, st3, q, b, x, mid2, c);
  }

  /** The second capture of an `If` command, followed by a space and one
      more character, then a third capture that runs to the end. */
  lemma SpacedThenLast(s: string, st3: Scan, q: string, b: string, x: char, mid2: string, c: string)
    requires IsIf(s) && st3.counter == 1 && st3.i == |q|
    requires s == q + " " + b + " " + [x] + mid2 + "to" + (" " + c)
    requires Triggers(s, st3.acc + [' '])
    requires ' ' !in b && ' ' !in c && Calm(b + " " + mid2 + "to", false)
    ensures ExtractFrom(s, st3) == Done(Operands(st3.first, b + " "))
  {
    var st5 := Scan(|q| + 5 + |b| + |mid2|, b + " " + mid2 + "to", 2, st3.first, b + " ");
    ThirdCaptureParts(s, st5, q, b, x, mid2, c);
    SecondSpaced(s, st3, q, b, x, mid2, " " + c);
    CaptureLast(s, st5);
  }

  /** Where the third capture of SpacedThenLast starts, and that it triggers. */
  lemma ThirdCaptureParts(s: string, st5: Scan, q: string, b: string, x: char, mid2: string, c: string)
    requires IsIf(s) && s == q + " " + b + " " + [x] + mid2 + "to" + (" " + c)
    requires st5.i == |q| + 5 + |b| + |mid2| && st5.acc == b + " " + mid2 + "to"
    requires ' ' !in c
    ensures st5.i < |s| && Triggers(s, st5.acc + [s[st5.i]]) && ' ' !in s[st5.i + 1..]
  {
    var m := st5.i;
    assert s == (q + " " + b + " " + [x] + mid2 + "to") + " " + c;
    assert s[m] == ' ' && s[m + 1..] == c;
    assert st5.acc + [s[m]] == b + " " + mid2 + "to ";
  }

  /** `If … to A <mid…>to B X<mid2…>to C`: a third capture assigns nothing;
      the second capture, being followed by a space, keeps that space, and
      the character X after it is skipped by the scan. */
  lemma {:induction false} IfThirdCapture(pre: string, a: string, mid: string, b: string,
                                           x: char, mid2: string, c: string)
    requires IsIf(pre + "to " + a + " " + mid + "to " + b + " " + [x] + mid2 + "to " + c)
    requires Calm(pre + "to", false) && ' ' !in a && ' ' !in b && ' ' !in c
    requires Calm(a + " " + mid + "to", false) && Calm(b + " " + mid2 + "to", false)
    ensures Extract(pre + "to " + a + " " + mid + "to " + b + " " + [x] + mid2 + "to " + c) ==
            Done(Operands(a, b + " "))
  {
    var s := pre + "to " + a + " " + mid + "to " + b + " " + [x] + mid2 + "to " + c;
    var tail := mid + "to " + b + " " + [x] + mid2 + "to " + c;
    assert s == pre + "to " + a + " " + tail;
    assert a + " " + (mid + "to") == a + " " + mid + "to";
    WordNotKey(a, mid + "to", false);
    ToName(s, pre, a, tail);
    assert ExtractFrom(s, Start) == ExtractFrom(s, Scan(|pre| + 4 + |a|, a + " ", 1, a, ""));
    assert s == (pre + "to " + a + " ") + mid + "to " + b + " " + [x] + mid2 + "to " + c;
    CalmFromTail(a + " ", mid + "to");
    SecondThenThird(s, Scan(|pre| + 4 + |a|, a + " ", 1, a, ""), pre + "to " + a + " ", mid, b, x, mid2, c);
    assert Extract(s) == ExtractFrom(s, Start);
  }

  // ---------------------------------------------------------------------
  // Properties of every command string.
  // ---------------------------------------------------------------------

  /** `t` occurs in `s` as a contiguous piece. */
  ghost predicate IsSlice(t: string, s: string) {
    exists a, b :: 0 <= a <= b <= |s| && t == s[a..b]
  }

  /** What the scan keeps true of its results. */
  ghost predicate Sound(s: string, st: Scan) {
    ' ' !in st.first && IsSlice(st.first, s) && IsSlice(st.second, s)
  }

  /** The word the inner loop reads holds no space but, possibly, its last
      character. */
  lemma WordShape(s: string, from: nat)
    requires from <= |s|
    ensures var j := WordEnd(s, from);
      var word := s[from..j];
      (EndsWith(word, " ") ==> word[..|word| - 1] == s[from..j - 1] && ' ' !in word[..|word| - 1]) &&
      (!EndsWith(word, " ") ==> ' ' !in word)
  {
    var j := WordEnd(s, from);
    var word := s[from..j];
    assert |word| == j - from;
    if EndsWith(word, " ") {
      var w := word[..|word| - 1];
      forall m | 0 <= m < |w| ensures w[m] != ' ' {
        assert w[m] == s[from + m];
      }
    } else {
      forall m | 0 <= m < |word| ensures word[m] != ' ' {
        assert word[m] == s[from + m];
        if m == |word| - 1 {
          assert word[|word| - 1..] == [word[m]];
        }
      }
    }
  }

  lemma AbsorbSound(s: string, st: Scan)
    requires st.i < |s| && Sound(s, st)
    ensures Sound(s, Absorb(s, st))
  {
    if Triggers(s, st.acc + [s[st.i]]) {
      CapturedSound(s, st);
    }
  }

  lemma CapturedSound(s: string, st: Scan)
    requires st.i < |s| && Sound(s, st)
    ensures Sound(s, Captured(s, st))
  {
    var from := st.i + 1;
    var j := WordEnd(s, from);
    WordShape(s, from);
    SliceOf(s, from, j);
    if EndsWith(s[from..j], " ") {
      SliceOf(s, from, j - 1);
    }
    StoredSound(s, st, s[from..j], j);
  }

  lemma SliceOf(s: string, a: nat, b: nat)
    requires a <= b <= |s|
    ensures IsSlice(s[a..b], s)
  {
  }

  /** Storing a word that is a piece of `s`, and holds no space but possibly
      its last one, keeps the scan sound. */
  lemma StoredSound(s: string, st: Scan, word: string, j: nat)
    requires |word| <= j && Sound(s, st) && IsSlice(word, s)
    requires EndsWith(word, " ") ==> IsSlice(word[..|word| - 1], s) && ' ' !in word[..|word| - 1]
    requires !EndsWith(word, " ") ==> ' ' !in word
    ensures Sound(s, Stored(st, word, j))
  {
  }

  lemma StepSound(s: string, st: Scan)
    requires st.i < |s| && Sound(s, st)
    ensures Step(s, st).Done? ==> Sound(s, Step(s, st).value)
  {
    AbsorbSound(s, st);
    var st1 := Absorb(s, st);
    if TakesRest(st1.acc) && st1.i + 1 <= |s| {
      assert s[st1.i + 1..] == s[st1.i + 1..|s|];
    }
  }

  lemma {:induction false} ExtractFromSound(s: string, st: Scan)
    requires st.i <= |s| + 1 && Sound(s, st)
    ensures ExtractFrom(s, st).Done? ==> ' ' !in ExtractFrom(s, st).value.first
    ensures ExtractFrom(s, st).Done? ==>
              IsSlice(ExtractFrom(s, st).value.first, s) && IsSlice(ExtractFrom(s, st).value.second, s)
    decreases |s| + 1 - st.i
  {
    if st.i < |s| {
      StepSound(s, st);
      if Step(s, st).Done? {
        ExtractFromSound(s, Step(s, st).value);
      }
    }
  }

  /** The first operand never holds a space, and both operands are pieces
      of the command string. */
  lemma OperandsAreSlices(s: string)
    ensures Extract(s).Done? ==> ' ' !in Extract(s).value.first
    ensures Extract(s).Done? ==>
              IsSlice(Extract(s).value.first, s) && IsSlice(Extract(s).value.second, s)
  {
    assert "" == s[0..0];
    ExtractFromSound(s, Start);
  }

  /** A keyword that ends at a space of `s` occurs in `s`. */
  lemma KeyBeforeContains(s: string, k: nat, withFile: bool)
    requires k < |s| && s[k] == ' ' && KeyBefore(s, k, withFile)
    ensures Contains(s, "to ") || Contains(s, "text ") || Contains(s, "file ")
  {
    if k >= 2 && s[k - 2] == 't' && s[k - 1] == 'o' {
      OccursAt(s, k, "to ");
    } else if k >= 4 && s[k - 4] == 't' && s[k - 3] == 'e' && s[k - 2] == 'x' && s[k - 1] == 't' {
      OccursAt(s, k, "text ");
    } else {
      OccursAt(s, k, "file ");
    }
  }

  /** `w` spelled out character by character up to position `k` occurs in `s`. */
  lemma OccursAt(s: string, k: nat, w: string)
    requires |w| <= k + 1 <= |s|
    requires forall m :: 0 <= m < |w| ==> s[k + 1 - |w| + m] == w[m]
    ensures Contains(s, w)
  {
    var p := s[..k + 1];
    assert p[k + 1 - |w|..] == w;
    EndsWithPrefixContains(s, k + 1, w);
  }

  /** A command with none of the keywords has two empty operands. */
  lemma NoKeywordNoOperands(s: string)
    requires !Contains(s, "to ") && !Contains(s, "text ") && !Contains(s, "file ")
    ensures Extract(s) == Done(Operands("", ""))
  {
    forall k | 0 <= k < |s| && s[k] == ' '
      ensures !KeyBefore(s, k, !IsIf(s))
    {
      if KeyBefore(s, k, !IsIf(s)) {
        KeyBeforeContains(s, k, !IsIf(s));
      }
    }
    assert s[0..] == s;
    QuietEnd(s, Start);
  }
}
