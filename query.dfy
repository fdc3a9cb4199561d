/** Pure pieces of the query string that `URLBuilder.toString` assembles:
    the dictionary's iteration order, its reversal, and the `&`-separated
    list of `key=value` entries, with an independent splitter as its inverse. */
module Query {

  /** No key occurs twice in `s`. */
  predicate NoDups(s: seq<string>)
  {
    forall i, j :: 0 <= i < j < |s| ==> s[i] != s[j]
  }

  /** `order` is one possible iteration order of the dictionary `m`:
      each of its keys exactly once, and nothing else. */
  predicate IsOrderOf(order: seq<string>, m: map<string, string>)
  {
    && NoDups(order)
    && |order| == |m|
    && (forall k :: k in m ==> k in order)
    && (forall k :: k in order ==> k in m)
  }

  /** `s` back to front, as Swift's `reversed()` yields it. */
  function Reversed(s: seq<string>): (r: seq<string>)
  {
    seq(|s|, k requires 0 <= k < |s| => s[|s| - 1 - k])
  }

  /** Reversing an iteration order gives an iteration order of the same dictionary. */
  lemma ReversedIsOrder(order: seq<string>, m: map<string, string>)
    requires IsOrderOf(order, m)
    ensures IsOrderOf(Reversed(order), m)
  {
    var r := Reversed(order);
    forall k | k in order
      ensures k in r
    {
      var i :| 0 <= i < |order| && order[i] == k;
      assert r[|order| - 1 - i] == k;
    }
  }

  /** The parts separated by `&`, with no separator before the first part
      and none after the last. */
  function Join(parts: seq<string>): (joined: string)
  {
    if |parts| == 0 then ""
    else if |parts| == 1 then parts[0]
    else Join(parts[..|parts| - 1]) + "&" + parts[|parts| - 1]
  }

  /** Joining one more part adds it after a separator, unless it is the first. */
  lemma JoinStep(parts: seq<string>, i: nat)
    requires i < |parts|
    ensures Join(parts[..i + 1]) == if i == 0 then parts[0] else Join(parts[..i]) + "&" + parts[i]
  {
    assert parts[..i + 1][..i] == parts[..i];
  }

  /** The separator written after part `i` of `n`: `&` unless it is the last. */
  function SepAfter(i: nat, n: nat): (sep: string)
  {
    if i + 1 < n then "&" else ""
  }

  /** The text after writing the first `i` parts one by one, each followed
      by a separator unless it is the last of all the parts. */
  function Written(parts: seq<string>, i: nat): (text: string)
    requires i <= |parts|
  {
    if i == 0 then "" else Join(parts[..i]) + SepAfter(i - 1, |parts|)
  }

  /** Writing part `i` and its separator extends the text by one part. */
  lemma WrittenStep(head: string, parts: seq<string>, i: nat, text: string)
    requires i < |parts|
    requires text == parts[i] + SepAfter(i, |parts|)
    ensures head + Written(parts, i) + text == head + Written(parts, i + 1)
  {
    var last := SepAfter(i, |parts|);
    JoinStep(parts, i);
    if i > 0 {
      assert head + (Join(parts[..i]) + "&") + (parts[i] + last)
        == head + (Join(parts[..i]) + "&" + parts[i] + last);
    } else {
      assert Written(parts, 0) == "";
    }
  }

  /** Once every part is written, the text is their join: no trailing separator. */
  lemma WrittenAll(parts: seq<string>)
    ensures Written(parts, |parts|) == Join(parts)
  {
    if |parts| > 0 {
      assert parts[..|parts|] == parts;
    }
  }

  /** Splits a string at every `&`; there is always at least one piece. */
  function Split(s: string): (r: seq<string>)
    ensures |r| > 0
  {
    if s == [] then [""]
    else if s[0] == '&' then [""] + Split(s[1..])
    else
      var rest := Split(s[1..]);
      [[s[0]] + rest[0]] + rest[1..]
  }

  /** Number of occurrences of `c` in `s`. */
  function Count(s: string, c: char): (n: nat)
  {
    if s == [] then 0 else (if s[0] == c then 1 else 0) + Count(s[1..], c)
  }

  /** Number of occurrences of `c` across all the parts. */
  function CountAll(parts: seq<string>, c: char): (n: nat)
  {
    if parts == [] then 0 else CountAll(parts[..|parts| - 1], c) + Count(parts[|parts| - 1], c)
  }

  lemma {:induction false} CountAppend(a: string, b: string, c: char)
    ensures Count(a + b, c) == Count(a, c) + Count(b, c)
  {
    if a != [] {
      assert (a + b)[1..] == a[1..] + b;
      CountAppend(a[1..], b, c);
    } else {
      assert a + b == b;
    }
  }

  /** Joining n > 0 parts adds exactly n - 1 separators to those the parts
      already hold. */
  lemma {:induction false} JoinSeparators(parts: seq<string>)
    requires |parts| > 0
    ensures Count(Join(parts), '&') == CountAll(parts, '&') + |parts| - 1
  {
    if |parts| > 1 {
      var init := parts[..|parts| - 1];
      JoinSeparators(init);
      CountAppend(Join(init), "&", '&');
      CountAppend(Join(init) + "&", parts[|parts| - 1], '&');
      assert CountAll([], '&') == 0;
      assert init[..|init| - 1] == parts[..|parts| - 2];
    } else {
      assert parts[..0] == [];
    }
  }

  /** The joined string ends with the last part: no trailing separator. */
  lemma {:induction false} JoinEndsWithLast(parts: seq<string>)
    requires |parts| > 0
    ensures |Join(parts)| >= |parts[|parts| - 1]|
    ensures Join(parts)[|Join(parts)| - |parts[|parts| - 1]|..] == parts[|parts| - 1]
  {
  }

  lemma {:induction false} SplitNoSeparator(p: string)
    requires '&' !in p
    ensures Split(p) == [p]
  {
    if p != [] {
      SplitNoSeparator(p[1..]);
      assert [p[0]] + p[1..] == p;
    }
  }

  /** A separator between two strings splits them apart. */
  lemma {:induction false} SplitAtSeparator(a: string, b: string)
    ensures Split(a + "&" + b) == Split(a) + Split(b)
  {
    if a == [] {
      assert a + "&" + b == "&" + b;
      assert ("&" + b)[1..] == b;
    } else {
      assert (a + "&" + b)[0] == a[0];
      assert (a + "&" + b)[1..] == a[1..] + "&" + b;
      SplitAtSeparator(a[1..], b);
    }
  }

  /** Splitting undoes joining when no part holds a separator of its own. */
  lemma {:induction false} SplitJoin(parts: seq<string>)
    requires |parts| > 0
    requires forall i :: 0 <= i < |parts| ==> '&' !in parts[i]
    ensures Split(Join(parts)) == parts
  {
    var last := parts[|parts| - 1];
    SplitNoSeparator(last);
    if |parts| > 1 {
      var init := parts[..|parts| - 1];
      SplitJoin(init);
      SplitAtSeparator(Join(init), last);
      assert init + [last] == parts;
    }
  }
}
