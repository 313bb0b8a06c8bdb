/** What the condition evaluator computes on the command shapes of the
    language ("If file NAME … then STAMP go to A else go to B", "If current
    time …"), and on commands that hold no keyword at all. */
module ConditionShapes {
  import opened Text
  import opened Wrappers
  import opened Files
  import opened Messages
  import opened Extractor
  import opened Conditions

  // ---------------------------------------------------------------------
  // Plain stretches: where no keyword ends, the scan only accumulates.
  // ---------------------------------------------------------------------

  /** The word that ends just before position `k` of `t` ends in "file",
      "then", "time" or "equals": were `t[k]` a space, a keyword of the scan
      could end there ("time" stands for "current time"). */
  predicate TimeWordBefore(t: string, k: nat)
    requires k <= |t|
  {
    (k >= 4 && t[k - 4] == 'f' && t[k - 3] == 'i' && t[k - 2] == 'l' && t[k - 1] == 'e') ||
    (k >= 4 && t[k - 4] == 't' && t[k - 3] == 'h' && t[k - 2] == 'e' && t[k - 1] == 'n') ||
    (k >= 4 && t[k - 4] == 't' && t[k - 3] == 'i' && t[k - 2] == 'm' && t[k - 1] == 'e') ||
    (k >= 6 && t[k - 6] == 'e' && t[k - 5] == 'q' && t[k - 4] == 'u' && t[k - 3] == 'a' &&
     t[k - 2] == 'l' && t[k - 1] == 's')
  }

  /** No keyword of the scan ends at a space of `t` at or after `from`. */
  predicate PlainFrom(t: string, from: nat) {
    forall k {:trigger TimeWordBefore(t, k)} ::
      from <= k < |t| && t[k] == ' ' ==> !TimeWordBefore(t, k)
  }

  predicate Plain(t: string) {
    PlainFrom(t, 0)
  }

  /** The characters of a suffix of `u[..k + 1]`, read in `u`. */
  lemma SuffixAt(u: string, k: nat, w: string)
    requires k < |u| && EndsWith(u[..k + 1], w)
    ensures forall j :: k + 1 - |w| <= j <= k ==> u[j] == w[j - (k + 1 - |w|)]
  {
    var a := u[..k + 1];
    forall j | k + 1 - |w| <= j <= k
      ensures u[j] == w[j - (k + 1 - |w|)]
    {
      assert a[|a| - |w|..][j - (k + 1 - |w|)] == a[j];
    }
  }

  /** A keyword that ends at position `k` of `u` is seen by TimeWordBefore. */
  lemma TimeWordAt(u: string, k: nat)
    requires k < |u|
    ensures NowKey(u[..k + 1]) || FileKey(u[..k + 1]) || TimeKey(u[..k + 1]) ==>
              u[k] == ' ' && TimeWordBefore(u, k)
  {
    var a := u[..k + 1];
    if NowKey(a) {
      KeyWordAt(u, k, "current time ");
    } else if FileKey(a) {
      KeyWordAt(u, k, "file ");
    } else if EndsWith(a, "then ") {
      KeyWordAt(u, k, "then ");
    } else if EndsWith(a, "equals ") {
      KeyWordAt(u, k, "equals ");
    }
  }

  /** One keyword of the scan ending at position `k` of `u`. */
  lemma KeyWordAt(u: string, k: nat, w: string)
    requires k < |u| && EndsWith(u[..k + 1], w)
    requires w in {"current time ", "file ", "then ", "equals "}
    ensures u[k] == ' ' && TimeWordBefore(u, k)
  {
    SuffixAt(u, k, w);
  }

  /** A plain stretch `w` of the input at the scan's position is absorbed
      into the accumulator, one character per outer iteration, leaving the
      sources of both times alone. */
  lemma {:induction false} PlainRun(s: string, p: Probe, w: string)
    requires p.i + |w| <= |s| && s[p.i..p.i + |w|] == w
    requires PlainFrom(p.acc + w, |p.acc|)
    ensures ProbeFrom(s, p) == ProbeFrom(s, Probe(p.i + |w|, p.acc + w, p.from, p.lastFile, p.stamp))
    decreases |w|
  {
    if w == [] {
      assert p.acc + w == p.acc;
    } else {
      var next := Probe(p.i + 1, p.acc + [w[0]], p.from, p.lastFile, p.stamp);
      PlainStepParts(s, p, w, next);
      PlainStep(s, p, next);
      PlainRun(s, next, w[1..]);
    }
  }

  /** One character of a plain stretch: no keyword ends at it. */
  lemma PlainStepParts(s: string, p: Probe, w: string, next: Probe)
    requires |w| > 0 && p.i + |w| <= |s| && s[p.i..p.i + |w|] == w
    requires PlainFrom(p.acc + w, |p.acc|)
    requires next == Probe(p.i + 1, p.acc + [w[0]], p.from, p.lastFile, p.stamp)
    ensures p.i < |s| && next.acc == p.acc + [s[p.i]]
    ensures !NowKey(next.acc) && !FileKey(next.acc) && !TimeKey(next.acc)
    ensures next.i + |w[1..]| <= |s| && s[next.i..next.i + |w[1..]|] == w[1..]
    ensures PlainFrom(next.acc + w[1..], |next.acc|)
    ensures Probe(next.i + |w[1..]|, next.acc + w[1..], next.from, next.lastFile, next.stamp) ==
      Probe(p.i + |w|, p.acc + w, p.from, p.lastFile, p.stamp)
  {
    var u := p.acc + w;
    assert s[p.i] == w[0];
    assert next.acc == u[..|p.acc| + 1];
    TimeWordAt(u, |p.acc|);
    assert next.acc + w[1..] == u;
  }

  /** A character after which no keyword ends is only accumulated. */
  lemma PlainStep(s: string, p: Probe, next: Probe)
    requires p.i < |s| && next == Probe(p.i + 1, p.acc + [s[p.i]], p.from, p.lastFile, p.stamp)
    requires !NowKey(next.acc) && !FileKey(next.acc) && !TimeKey(next.acc)
    ensures ProbeFrom(s, p) == ProbeFrom(s, next)
  {
    assert ProbeStep(s, p) == Done(next);
  }

  /** Keywords hold no space, so one that ends after a word boundary lies
      wholly after it. */
  lemma TimeWordShift(acc: string, seg: string, k: nat)
    requires AtBoundary(acc) && |acc| <= k < |acc + seg|
    requires TimeWordBefore(acc + seg, k)
    ensures TimeWordBefore(seg, k - |acc|)
  {
    var u := acc + seg;
    assert forall m :: |acc| <= m < |u| ==> u[m] == seg[m - |acc|];
    assert acc == [] || u[|acc| - 1] == ' ';
  }

  /** A plain segment read after a word boundary stays plain. */
  lemma PlainAfterBoundary(acc: string, seg: string)
    requires AtBoundary(acc) && Plain(seg)
    ensures PlainFrom(acc + seg, |acc|)
  {
    var u := acc + seg;
    forall k | |acc| <= k < |u| && u[k] == ' '
      ensures !TimeWordBefore(u, k)
    {
      assert seg[k - |acc|] == ' ';
      if TimeWordBefore(u, k) {
        TimeWordShift(acc, seg, k);
      }
    }
  }

  /** Plain pieces that meet at a word boundary make a plain whole. */
  lemma PlainConcat(a: string, b: string)
    requires AtBoundary(a) && Plain(a) && Plain(b)
    ensures Plain(a + b)
  {
    PlainAfterBoundary(a, b);
    var u := a + b;
    forall k | 0 <= k < |a| && u[k] == ' '
      ensures !TimeWordBefore(u, k)
    {
      assert forall m :: 0 <= m <= k ==> u[m] == a[m];
      assert a[k] == ' ' && !TimeWordBefore(a, k);
    }
  }

  // ---------------------------------------------------------------------
  // Single events of the scan.
  // ---------------------------------------------------------------------

  /** Keywords end with a space, so a word without one matches none. */
  lemma NoSpaceNoTimeKey(w: string)
    requires ' ' !in w
    ensures !NowKey(w) && !FileKey(w) && !TimeKey(w)
  {
    if |w| > 0 {
      assert w[|w| - 1] in w;
    }
  }

  /** "then " and "equals " exclude the other two keywords. */
  lemma TimeKeyOnly(acc: string)
    requires TimeKey(acc)
    ensures !NowKey(acc) && !FileKey(acc)
  {
    if EndsWith(acc, "then ") {
      assert acc[|acc| - 5..][3] == acc[|acc| - 2];
    } else {
      assert acc[|acc| - 7..][5] == acc[|acc| - 2];
    }
    if |acc| >= 13 {
      assert acc[|acc| - 13..][11] == acc[|acc| - 2];
    }
    if |acc| >= 5 {
      assert acc[|acc| - 5..][3] == acc[|acc| - 2];
    }
  }

  /** "current time " excludes the other keywords. */
  lemma NowKeyOnly(acc: string)
    requires NowKey(acc)
    ensures !FileKey(acc) && !TimeKey(acc)
  {
    assert acc[|acc| - 13..][11] == acc[|acc| - 2];
    assert acc[|acc| - 13..][10] == acc[|acc| - 3];
    assert acc[|acc| - 5..][2] == acc[|acc| - 3];
    assert acc[|acc| - 5..][3] == acc[|acc| - 2];
    assert acc[|acc| - 7..][5] == acc[|acc| - 2];
  }

  /** An accumulator that ends with "then " or "equals ". */
  lemma TimeKeyEnds(x: string, kw: string)
    requires kw == "then" || kw == "equals"
    ensures TimeKey(x + kw + " ")
  {
    var a := x + kw + " ";
    assert a[|a| - |kw| - 1..] == kw + " ";
  }

  /** The file block on "file NAME ": the file becomes the source of the
      first time and the last file looked up; the space after the name is
      skipped. */
  lemma FileAt(s: string, p: Probe, name: string)
    requires p.i + 1 + |name| < |s|
    requires FileKey(p.acc + [s[p.i]])
    requires s[p.i + 1..p.i + 1 + |name|] == name && s[p.i + 1 + |name|] == ' ' && ' ' !in name
    ensures ProbeFrom(s, p) ==
      ProbeFrom(s, Probe(p.i + 2 + |name|, name, FileTime(name), Some(name), p.stamp))
  {
    forall j | p.i + 1 <= j < p.i + 1 + |name|
      ensures s[j] != ' '
    {
      assert s[j] == name[j - p.i - 1];
    }
    CharFromIs(s, p.i + 1, ' ', p.i + 1 + |name|);
    NoSpaceNoTimeKey(name);
    assert ProbeStep(s, p) == Done(Probe(p.i + 2 + |name|, name, FileTime(name), Some(name), p.stamp));
  }

  /** The timestamp block on "then LIT g" or "equals LIT g": LIT without its
      last character becomes the timestamp text; the 'g' is skipped. */
  lemma TimeAt(s: string, p: Probe, lit: string)
    requires p.i + 1 + |lit| < |s| && |lit| > 0
    requires TimeKey(p.acc + [s[p.i]])
    requires s[p.i + 1..p.i + 1 + |lit|] == lit && s[p.i + 1 + |lit|] == 'g' && 'g' !in lit
    ensures ProbeFrom(s, p) ==
      ProbeFrom(s, Probe(p.i + 2 + |lit|, lit, p.from, p.lastFile, Some(lit[..|lit| - 1])))
  {
    forall j | p.i + 1 <= j < p.i + 1 + |lit|
      ensures s[j] != 'g'
    {
      assert s[j] == lit[j - p.i - 1];
    }
    CharFromIs(s, p.i + 1, 'g', p.i + 1 + |lit|);
    TimeKeyOnly(p.acc + [s[p.i]]);
    assert lit[..|lit| - 1] == s[p.i + 1..p.i + |lit|];
    assert ProbeStep(s, p) == Done(Probe(p.i + 2 + |lit|, lit, p.from, p.lastFile, Some(lit[..|lit| - 1])));
  }

  /** "current time ": the clock becomes the source of the first time. */
  lemma NowAt(s: string, p: Probe)
    requires p.i < |s| && NowKey(p.acc + [s[p.i]])
    ensures ProbeFrom(s, p) == ProbeFrom(s, p.(i := p.i + 1, acc := p.acc + [s[p.i]], from := Clock))
  {
    NowKeyOnly(p.acc + [s[p.i]]);
    assert ProbeStep(s, p) == Done(p.(i := p.i + 1, acc := p.acc + [s[p.i]], from := Clock));
  }

  /** The scan ends quietly after a word boundary. */
  lemma PlainEnd(s: string, q: Probe)
    requires q.i <= |s| && AtBoundary(q.acc) && Plain(s[q.i..])
    ensures ProbeFrom(s, q) == Done(q.(i := |s|, acc := q.acc + s[q.i..]))
  {
    PlainAfterBoundary(q.acc, s[q.i..]);
    assert s[q.i..q.i + |s[q.i..]|] == s[q.i..];
    PlainRun(s, q, s[q.i..]);
  }

  /** At index `i` of `s` lie `mid`, the keyword `kw`, a space, `lit` and
      the 'g' that ends the timestamp block. */
  predicate TimeAhead(s: string, i: nat, mid: string, kw: string, lit: string) {
    var j0 := i + |mid| + |kw|;
    j0 + 1 + |lit| < |s| &&
    s[i..j0] == mid + kw && s[j0] == ' ' && s[j0 + 1..j0 + 1 + |lit|] == lit && s[j0 + 1 + |lit|] == 'g'
  }

  /** A plain stretch, then "then " or "equals ", then a timestamp text up to
      the 'g' of "go". */
  lemma TimeProbe(s: string, q: Probe, mid: string, kw: string, lit: string)
    requires TimeAhead(s, q.i, mid, kw, lit)
    requires kw == "then" || kw == "equals"
    requires PlainFrom(q.acc + mid + kw, |q.acc|) && |lit| > 0 && 'g' !in lit
    ensures ProbeFrom(s, q) ==
      ProbeFrom(s, Probe(q.i + |mid| + |kw| + 2 + |lit|, lit, q.from, q.lastFile, Some(lit[..|lit| - 1])))
  {
    var p := Probe(q.i + |mid + kw|, q.acc + (mid + kw), q.from, q.lastFile, q.stamp);
    TimeProbeParts(s, q, p, mid, kw, lit);
    TimeAfter(s, q, p, mid + kw, lit);
  }

  /** A plain piece `w`, a time keyword ending in it, then the timestamp
      block; `p` is the scan's state once `w` is absorbed. */
  lemma TimeAfter(s: string, q: Probe, p: Probe, w: string, lit: string)
    requires q.i + |w| <= |s| && s[q.i..q.i + |w|] == w && PlainFrom(q.acc + w, |q.acc|)
    requires p == Probe(q.i + |w|, q.acc + w, q.from, q.lastFile, q.stamp)
    requires p.i + 1 + |lit| < |s| && |lit| > 0
    requires TimeKey(p.acc + [s[p.i]])
    requires s[p.i + 1..p.i + 1 + |lit|] == lit && s[p.i + 1 + |lit|] == 'g' && 'g' !in lit
    ensures ProbeFrom(s, q) ==
      ProbeFrom(s, Probe(p.i + 2 + |lit|, lit, p.from, p.lastFile, Some(lit[..|lit| - 1])))
  {
    TimeAt(s, p, lit);
    PlainRun(s, q, w);
  }

  /** The facts about the command that TimeProbe feeds to PlainRun and
      TimeAt, in the terms TimeAfter takes them. */
  lemma TimeProbeParts(s: string, q: Probe, p: Probe, mid: string, kw: string, lit: string)
    requires TimeAhead(s, q.i, mid, kw, lit)
    requires kw == "then" || kw == "equals"
    requires PlainFrom(q.acc + mid + kw, |q.acc|)
    requires p == Probe(q.i + |mid + kw|, q.acc + (mid + kw), q.from, q.lastFile, q.stamp) && |lit| > 0
    ensures q.i + |mid + kw| <= |s| && s[q.i..q.i + |mid + kw|] == mid + kw &&
      PlainFrom(q.acc + (mid + kw), |q.acc|)
    ensures p.i + 1 + |lit| < |s| && TimeKey(p.acc + [s[p.i]])
    ensures s[p.i + 1..p.i + 1 + |lit|] == lit && s[p.i + 1 + |lit|] == 'g'
    ensures Probe(p.i + 2 + |lit|, lit, p.from, p.lastFile, Some(lit[..|lit| - 1])) ==
      Probe(q.i + |mid| + |kw| + 2 + |lit|, lit, q.from, q.lastFile, Some(lit[..|lit| - 1]))
  {
    var j0 := q.i + |mid + kw|;
    assert s[j0] == ' ';
    assert q.acc + (mid + kw) == q.acc + mid + kw;
    assert q.acc + (mid + kw) + [s[j0]] == q.acc + mid + kw + " ";
    TimeKeyEnds(q.acc + mid, kw);
  }

  /** Where the pieces of "…then LIT g…" lie in the command. */
  lemma TimeLayout(s: string, pre: string, mid: string, kw: string, lit: string, rest: string)
    requires s == pre + mid + kw + " " + lit + "g" + rest
    ensures TimeAhead(s, |pre|, mid, kw, lit)
  {
    assert s == (pre + mid + kw) + " " + lit + "g" + rest;
  }

  // ---------------------------------------------------------------------
  // The condition shapes of the language.
  // ---------------------------------------------------------------------

  /** "If file NAME " opens the command `s`. */
  predicate FileAhead(s: string, name: string) {
    9 + |name| <= |s| && s[..7] == "If file" && s[7] == ' ' &&
    s[8..8 + |name|] == name && s[8 + |name|] == ' '
  }

  lemma FileLayout(s: string, name: string, tail: string)
    requires s == "If file " + name + " " + tail
    ensures FileAhead(s, name)
  {
    assert s == "If file" + " " + name + " " + tail;
  }

  /** The state after "If file NAME " has been read. */
  lemma FileProbe(s: string, name: string)
    requires FileAhead(s, name) && ' ' !in name
    ensures ProbeFrom(s, Begin) == ProbeFrom(s, Probe(9 + |name|, name, FileTime(name), Some(name), None))
  {
    var p := Probe(7, "If file", Unset, None, None);
    assert p.acc + [s[7]] == "If file ";
    assert FileKey("If file ");
    FileAt(s, p, name);
    assert s == "If file" + s[7..];
    IfFileOpening(s, s[7..]);
  }

  /** "If file" is read without reacting. */
  lemma IfFileOpening(s: string, tail: string)
    requires s == "If file" + tail
    ensures ProbeFrom(s, Begin) == ProbeFrom(s, Probe(7, "If file", Unset, None, None))
  {
    assert s[0..7] == "If file";
    assert Plain("If file");
    assert Begin.acc + "If file" == "If file";
    PlainRun(s, Begin, "If file");
  }

  /** The state after "If current time " has been read. */
  lemma NowProbe(s: string, tail: string)
    requires s == "If current time " + tail
    ensures ProbeFrom(s, Begin) == ProbeFrom(s, Probe(16, "If current time ", Clock, None, None))
  {
    var p := Probe(15, "If current time", Unset, None, None);
    assert s == "If current time" + s[15..];
    assert p.acc + [s[p.i]] == "If current time ";
    assert NowKey("If current time ");
    assert p.(i := p.i + 1, acc := p.acc + [s[p.i]], from := Clock) ==
      Probe(16, "If current time ", Clock, None, None);
    NowAt(s, p);
    IfNowOpening(s, s[15..]);
  }

  /** "If current time" is read without reacting. */
  lemma IfNowOpening(s: string, tail: string)
    requires s == "If current time" + tail
    ensures ProbeFrom(s, Begin) == ProbeFrom(s, Probe(15, "If current time", Unset, None, None))
  {
    assert s[0..15] == "If current time";
    assert Plain("If current time");
    assert Begin.acc + "If current time" == "If current time";
    PlainRun(s, Begin, "If current time");
  }

  /** After the timestamp block: a plain rest of the command changes nothing. */
  lemma StampToEnd(s: string, q: Probe, pre: string, mid: string, kw: string, stamp: string, rest: string)
    requires s == pre + mid + kw + " " + stamp + " g" + rest && q.i == |pre|
    requires kw == "then" || kw == "equals"
    requires PlainFrom(q.acc + mid + kw, |q.acc|) && 'g' !in stamp && Plain(rest)
    ensures ProbeFrom(s, q) == Done(Probe(|s|, stamp + " " + rest, q.from, q.lastFile, Some(stamp)))
  {
    var lit := stamp + " ";
    assert s == pre + mid + kw + " " + lit + "g" + rest;
    TimeLayout(s, pre, mid, kw, lit, rest);
    TimeProbe(s, q, mid, kw, lit);
    var q2 := Probe(q.i + |mid| + |kw| + 2 + |lit|, lit, q.from, q.lastFile, Some(lit[..|lit| - 1]));
    assert lit[..|lit| - 1] == stamp;
    assert s == (pre + mid + kw + " " + lit + "g") + rest;
    assert s[q2.i..] == rest;
    PlainEnd(s, q2);
    assert q2.acc + s[q2.i..] == stamp + " " + rest;
  }

  /** "If file NAME <mid…>then STAMP g<rest…>": the file is the source of
      the first time and its message the error text; STAMP is parsed for
      the second time. */
  lemma FileScan(name: string, mid: string, kw: string, stamp: string, rest: string)
    requires kw == "then" || kw == "equals"
    requires ' ' !in name && 'g' !in stamp
    requires Plain(name + mid + kw) && Plain(rest)
    ensures var s := "If file " + name + " " + mid + kw + " " + stamp + " g" + rest;
      ProbeFrom(s, Begin).Done? && ProbeFrom(s, Begin).value.from == FileTime(name) &&
      ProbeFrom(s, Begin).value.lastFile == Some(name) && ProbeFrom(s, Begin).value.stamp == Some(stamp)
  {
    var s := "If file " + name + " " + mid + kw + " " + stamp + " g" + rest;
    var tail := mid + kw + " " + stamp + " g" + rest;
    assert s == "If file " + name + " " + tail;
    FileLayout(s, name, tail);
    FileProbe(s, name);
    var q := Probe(9 + |name|, name, FileTime(name), Some(name), None);
    var pre := "If file " + name + " ";
    assert s == pre + mid + kw + " " + stamp + " g" + rest;
    StampToEnd(s, q, pre, mid, kw, stamp, rest);
  }

  /** "If current time <mid…>then STAMP g<rest…>": the clock is the source
      of the first time and no file is looked up. */
  lemma NowScan(mid: string, kw: string, stamp: string, rest: string)
    requires kw == "then" || kw == "equals"
    requires 'g' !in stamp && Plain(mid + kw) && Plain(rest)
    ensures var s := "If current time " + mid + kw + " " + stamp + " g" + rest;
      ProbeFrom(s, Begin).Done? && ProbeFrom(s, Begin).value.from == Clock &&
      ProbeFrom(s, Begin).value.lastFile == None && ProbeFrom(s, Begin).value.stamp == Some(stamp)
  {
    var s := "If current time " + mid + kw + " " + stamp + " g" + rest;
    var tail := mid + kw + " " + stamp + " g" + rest;
    var q := Probe(16, "If current time ", Clock, None, None);
    NowScanParts(s, tail, q, mid, kw, stamp, rest);
    NowProbe(s, tail);
    StampToEnd(s, q, "If current time ", mid, kw, stamp, rest);
  }

  /** The layout facts NowScan passes on to NowProbe and StampToEnd. */
  lemma NowScanParts(s: string, tail: string, q: Probe, mid: string, kw: string, stamp: string, rest: string)
    requires s == "If current time " + mid + kw + " " + stamp + " g" + rest
    requires tail == mid + kw + " " + stamp + " g" + rest
    requires q == Probe(16, "If current time ", Clock, None, None) && Plain(mid + kw)
    ensures s == "If current time " + tail && q.i == |"If current time "|
    ensures PlainFrom(q.acc + mid + kw, |q.acc|)
  {
    PlainAfterBoundary(q.acc, mid + kw);
    assert q.acc + (mid + kw) == q.acc + mid + kw;
  }

  // ---------------------------------------------------------------------
  // Whole conditions.
  // ---------------------------------------------------------------------

  /** "If file NAME <mid>then STAMP go to A else go to B" (or "equals" in
      place of "then"). */
  function FileCommand(name: string, mid: string, kw: string, stamp: string, a: string, b: string): string {
    "If file " + name + " " + mid + kw + " " + stamp + " go to " + a + " else go to " + b
  }

  /** The creation time the evaluator reads for `name`: the recorded one on
      Linux, the zero time when the file is missing or the system is not
      Linux. */
  function CreationOrZero(env: Env, fs: FileSystem, name: string): Time {
    if name in fs && env.platform == Linux then fs[name].ctime else ZeroTime
  }

  /** On a file condition the evaluator compares the file's creation time
      with the parsed STAMP, picks between A and B, and passes on the
      message of the file lookup as its error text. */
  lemma FileCondition(env: Env, fs: FileSystem, name: string, mid: string, kw: string, stamp: string,
                      a: string, b: string, posName: nat, posParam: nat)
    requires kw == "then" || kw == "equals"
    requires ' ' !in name && 'g' !in stamp && ' ' !in a && ' ' !in b
    requires Plain(name + mid + kw) && Plain("o to " + a + " else go to " + b)
    requires Calm("If file " + name + " " + mid + kw + " " + stamp + " go to", false)
    requires Calm(a + " else go to", false)
    ensures var s := FileCommand(name, mid, kw, stamp, a, b);
      var stat := TimeCreationOfFile(fs, env.platform, name, posName, posParam);
      Condition(env, fs, s, posName, posParam) ==
        Done(Decide(s, Operands(a, b), stat.1, ParseOrZero(env, stamp), RenderStat(stat.0), posName, posParam))
  {
    var s := FileCommand(name, mid, kw, stamp, a, b);
    var rest := "o to " + a + " else go to " + b;
    assert s == "If file " + name + " " + mid + kw + " " + stamp + " g" + rest;
    FileScan(name, mid, kw, stamp, rest);
    FileOperands(name, mid, kw, stamp, a, b);
  }

  /** The operands of a file condition are A and B. */
  lemma FileOperands(name: string, mid: string, kw: string, stamp: string, a: string, b: string)
    requires ' ' !in a && ' ' !in b
    requires Calm("If file " + name + " " + mid + kw + " " + stamp + " go to", false)
    requires Calm(a + " else go to", false)
    ensures Extract(FileCommand(name, mid, kw, stamp, a, b)) == Done(Operands(a, b))
  {
    var s := FileCommand(name, mid, kw, stamp, a, b);
    var pre := "If file " + name + " " + mid + kw + " " + stamp + " go ";
    assert s == pre + "to " + a + " " + "else go " + "to " + b;
    assert pre + "to" == "If file " + name + " " + mid + kw + " " + stamp + " go to";
    assert a + " " + "else go " + "to" == a + " else go to";
    assert s[..2] == "If";
    IfBranches(pre, a, "else go ", b);
  }

  /** With an operator word present and two different targets, the file
      condition leads to A exactly when the comparison of the file's
      creation time with STAMP holds. */
  lemma FileConditionBranch(env: Env, fs: FileSystem, name: string, mid: string, kw: string, stamp: string,
                            a: string, b: string, op: Op, posName: nat, posParam: nat)
    requires kw == "then" || kw == "equals"
    requires ' ' !in name && 'g' !in stamp && ' ' !in a && ' ' !in b && a != b
    requires Plain(name + mid + kw) && Plain("o to " + a + " else go to " + b)
    requires Calm("If file " + name + " " + mid + kw + " " + stamp + " go to", false)
    requires Calm(a + " else go to", false)
    requires Operator(FileCommand(name, mid, kw, stamp, a, b)) == Some(op)
    ensures var r := Condition(env, fs, FileCommand(name, mid, kw, stamp, a, b), posName, posParam);
      r.Done? && (r.value.next == a <==> Holds(op, CreationOrZero(env, fs, name), ParseOrZero(env, stamp))) &&
      (r.value.next == a || r.value.next == b)
  {
    FileCondition(env, fs, name, mid, kw, stamp, a, b, posName, posParam);
  }

  /** "If current time <mid>then STAMP go to A else go to B". */
  function NowCommand(mid: string, kw: string, stamp: string, a: string, b: string): string {
    "If current time " + mid + kw + " " + stamp + " go to " + a + " else go to " + b
  }

  /** On a clock condition the evaluator compares the current time with the
      parsed STAMP and its error text is empty. */
  lemma NowCondition(env: Env, fs: FileSystem, mid: string, kw: string, stamp: string,
                     a: string, b: string, posName: nat, posParam: nat)
    requires kw == "then" || kw == "equals"
    requires 'g' !in stamp && ' ' !in a && ' ' !in b
    requires Plain(mid + kw) && Plain("o to " + a + " else go to " + b)
    requires Calm("If current time " + mid + kw + " " + stamp + " go to", false)
    requires Calm(a + " else go to", false)
    ensures var s := NowCommand(mid, kw, stamp, a, b);
      Condition(env, fs, s, posName, posParam) ==
        Done(Decide(s, Operands(a, b), env.now, ParseOrZero(env, stamp), "", posName, posParam))
  {
    var s := NowCommand(mid, kw, stamp, a, b);
    var rest := "o to " + a + " else go to " + b;
    assert s == "If current time " + mid + kw + " " + stamp + " g" + rest;
    NowScan(mid, kw, stamp, rest);
    NowOperands(mid, kw, stamp, a, b);
  }

  /** The operands of a clock condition are A and B. */
  lemma NowOperands(mid: string, kw: string, stamp: string, a: string, b: string)
    requires ' ' !in a && ' ' !in b
    requires Calm("If current time " + mid + kw + " " + stamp + " go to", false)
    requires Calm(a + " else go to", false)
    ensures Extract(NowCommand(mid, kw, stamp, a, b)) == Done(Operands(a, b))
  {
    var s := NowCommand(mid, kw, stamp, a, b);
    var pre := "If current time " + mid + kw + " " + stamp + " go ";
    assert s == pre + "to " + a + " " + "else go " + "to " + b;
    assert pre + "to" == "If current time " + mid + kw + " " + stamp + " go to";
    assert a + " " + "else go " + "to" == a + " else go to";
    assert s[..2] == "If";
    IfBranches(pre, a, "else go ", b);
  }

  /** With an operator word present and two different targets, the clock
      condition leads to A exactly when the comparison of the current time
      with STAMP holds. */
  lemma NowConditionBranch(env: Env, fs: FileSystem, mid: string, kw: string, stamp: string,
                           a: string, b: string, op: Op, posName: nat, posParam: nat)
    requires kw == "then" || kw == "equals"
    requires 'g' !in stamp && ' ' !in a && ' ' !in b && a != b
    requires Plain(mid + kw) && Plain("o to " + a + " else go to " + b)
    requires Calm("If current time " + mid + kw + " " + stamp + " go to", false)
    requires Calm(a + " else go to", false)
    requires Operator(NowCommand(mid, kw, stamp, a, b)) == Some(op)
    ensures var r := Condition(env, fs, NowCommand(mid, kw, stamp, a, b), posName, posParam);
      r.Done? && (r.value.next == a <==> Holds(op, env.now, ParseOrZero(env, stamp))) &&
      (r.value.next == a || r.value.next == b)
  {
    NowCondition(env, fs, mid, kw, stamp, a, b, posName, posParam);
  }

  /** A command in which no keyword of the scan ends is only accumulated. */
  lemma QuietScan(s: string)
    requires Plain(s)
    ensures ProbeFrom(s, Begin) == Done(Probe(|s|, s, Unset, None, None))
  {
    assert Begin.acc + s == s && s[0..|s|] == s;
    PlainRun(s, Begin, s);
  }

  /** Without "file", "current time", "then" or "equals" the evaluator
      compares the zero time with itself: "equals" takes the first branch,
      "more" and "less" the second, and the error text is empty. */
  lemma QuietCondition(env: Env, fs: FileSystem, s: string, names: Operands, op: Op, posName: nat, posParam: nat)
    requires Plain(s) && Extract(s) == Done(names) && Operator(s) == Some(op)
    ensures Condition(env, fs, s, posName, posParam).Done?
    ensures Condition(env, fs, s, posName, posParam).value.next ==
      if op == Equals then names.first else names.second
  {
    QuietScan(s);
  }
}
