/** Python's `sep.join(xs)` and `s.split(sep)` for a one-character separator. */
module Text {

  /** `sep.join(xs)`. */
  function Join(sep: char, xs: seq<string>): (r: string)
    ensures |xs| == 0 ==> r == ""
    ensures |xs| > 0 ==> |r| >= |xs[0]|
    ensures (forall i :: 0 <= i < |xs| ==> sep !in xs[i]) && |xs| <= 1 ==> sep !in r
  {
    if |xs| == 0 then ""
    else if |xs| == 1 then xs[0]
    else xs[0] + [sep] + Join(sep, xs[1..])
  }

  /** Every character of the joined string comes from an element or is the separator. */
  lemma {:induction false} JoinChars(sep: char, xs: seq<string>, c: char)
    requires c != sep && forall i :: 0 <= i < |xs| ==> c !in xs[i]
    ensures c !in Join(sep, xs)
  {
    if |xs| > 1 {
      JoinChars(sep, xs[1..], c);
    }
  }

  /** The first position of `c` in `s`, or `|s|` when there is none. */
  function IndexOf(c: char, s: string): (i: nat)
    ensures i <= |s|
    ensures i < |s| ==> s[i] == c
    ensures forall j :: 0 <= j < i ==> s[j] != c
  {
    if |s| == 0 then 0
    else if s[0] == c then 0
    else 1 + IndexOf(c, s[1..])
  }

  /** `s.split(sep)`: never empty; `"".split(",") == [""]`. */
  function Split(sep: char, s: string): (r: seq<string>)
    ensures |r| >= 1
    decreases |s|
  {
    var i := IndexOf(sep, s);
    if i == |s| then [s] else [s[..i]] + Split(sep, s[i + 1..])
  }

  /** IndexOf finds the first occurrence when the text before it is free of `c`. */
  lemma IndexOfAfter(c: char, a: string, b: string)
    requires c !in a
    ensures IndexOf(c, a + [c] + b) == |a|
  {
    var s := a + [c] + b;
    var i := IndexOf(c, s);
    assert s[|a|] == c;
  }

  /** Split cuts at the first separator. */
  lemma SplitCons(sep: char, a: string, rest: string)
    requires sep !in a
    ensures Split(sep, a + [sep] + rest) == [a] + Split(sep, rest)
  {
    var s := a + [sep] + rest;
    IndexOfAfter(sep, a, rest);
    assert s[..|a|] == a;
    assert s[|a| + 1..] == rest;
  }

  /** Splitting undoes joining when no element contains the separator. */
  lemma {:induction false} SplitJoin(sep: char, xs: seq<string>)
    requires |xs| >= 1
    requires forall i :: 0 <= i < |xs| ==> sep !in xs[i]
    ensures Split(sep, Join(sep, xs)) == xs
  {
    if |xs| == 1 {
      assert IndexOf(sep, xs[0]) == |xs[0]|;
    } else {
      SplitCons(sep, xs[0], Join(sep, xs[1..]));
      SplitJoin(sep, xs[1..]);
      assert xs == [xs[0]] + xs[1..];
    }
  }
}
