/** The string primitives the interpreter relies on: Go's strings.HasPrefix,
    strings.HasSuffix and strings.Contains, a left-to-right character search,
    and decimal rendering of the integers its messages print with %d. */
module Text {

  /** strings.HasPrefix */
  predicate StartsWith(s: string, prefix: string) {
    |prefix| <= |s| && s[..|prefix|] == prefix
  }

  /** strings.HasSuffix */
  predicate EndsWith(s: string, suffix: string) {
    |suffix| <= |s| && s[|s| - |suffix|..] == suffix
  }

  /** A one-character suffix is the last character. */
  lemma EndsWithChar(w: string, c: char)
    ensures EndsWith(w, [c]) <==> |w| > 0 && w[|w| - 1] == c
  {
    if |w| > 0 && w[|w| - 1] == c {
      assert w[|w| - 1..] == [c];
    }
  }

  /** strings.Contains, written as a search that can be unfolded on literals */
  predicate Contains(s: string, w: string)
    decreases |s|
  {
    StartsWith(s, w) || (|s| > 0 && Contains(s[1..], w))
  }

  /** Index of the first `c` at or after `from`, or |s| when there is none. */
  function CharFrom(s: string, from: nat, c: char): (k: nat)
    requires from <= |s|
    ensures from <= k <= |s|
    ensures k < |s| ==> s[k] == c
    ensures forall j :: from <= j < k ==> s[j] != c
    decreases |s| - from
  {
    if from == |s| || s[from] == c then from else CharFrom(s, from + 1, c)
  }

  /** CharFrom finds exactly the first `c` at or after `from`. */
  lemma CharFromIs(s: string, from: nat, c: char, k: nat)
    requires from <= k <= |s|
    requires k < |s| ==> s[k] == c
    requires forall j :: from <= j < k ==> s[j] != c
    ensures CharFrom(s, from, c) == k
  {
  }

  /** An occurrence of `w` that ends at position `k` of `s` makes `s` contain `w`. */
  lemma {:induction false} EndsWithPrefixContains(s: string, k: nat, w: string)
    requires k <= |s| && EndsWith(s[..k], w)
    ensures Contains(s, w)
    decreases k
  {
    if k == |w| {
      assert s[..|w|] == s[..k][k - |w|..];
    } else {
      assert |s| > 0;
      assert s[1..][..k - 1][k - 1 - |w|..] == s[..k][k - |w|..];
      EndsWithPrefixContains(s[1..], k - 1, w);
    }
  }

  /** Decimal digits of a natural number, as %d prints it. */
  function NatText(n: nat): (r: string)
    ensures |r| > 0
    ensures forall j :: 0 <= j < |r| ==> '0' <= r[j] <= '9'
    decreases n
  {
    if n < 10 then [Digit(n)] else NatText(n / 10) + [Digit(n % 10)]
  }

  function Digit(d: nat): (c: char)
    requires d < 10
    ensures '0' <= c <= '9'
  {
    ['0', '1', '2', '3', '4', '5', '6', '7', '8', '9'][d]
  }

  /** Decimal text of a signed integer, as %d prints it. */
  function IntText(n: int): (r: string)
    ensures |r| > 0
  {
    if n < 0 then "-" + NatText(-n) else NatText(n)
  }
}

/** Go's two ways of failing that the interpreter exhibits: an absent value,
    and a run-time panic (an index or slice bound out of range). */
module Wrappers {

  datatype Option<+T> = None | Some(value: T)

  /** `Panic` is the point where the Go program would abort with
      "index out of range" or "slice bounds out of range". */
  datatype Outcome<+T> = Panic | Done(value: T)
}
