/** String helpers with Python's meaning: `sep.join(parts)`, and the parse of
    a ", "-separated list that undoes it. */
module Text {

  /** Python's `sep.join(parts)`: the parts in order with `sep` between each
      neighbouring pair; the empty list joins to the empty string. */
  function Join(sep: string, parts: seq<string>): string
  {
    if |parts| == 0 then ""
    else if |parts| == 1 then parts[0]
    else parts[0] + sep + Join(sep, parts[1..])
  }

  /** Total number of characters in `parts`. */
  function TotalLength(parts: seq<string>): nat
  {
    if |parts| == 0 then 0 else |parts[0]| + TotalLength(parts[1..])
  }

  /** Index of the first occurrence of `c` in `s`. */
  function FirstIndex(s: string, c: char): (i: nat)
    requires c in s
    ensures i < |s| && s[i] == c
    ensures c !in s[..i]
  {
    if s[0] == c then 0 else 1 + FirstIndex(s[1..], c)
  }

  /** Reads a comma-separated list back into its items: the string is cut at
      every ',' and the single space that follows a comma, if any, is dropped.
      A string without a comma is a one-item list. */
  function SplitList(s: string): (items: seq<string>)
    ensures |items| >= 1
    decreases |s|
  {
    if ',' !in s then [s]
    else
      var i := FirstIndex(s, ',');
      var rest := s[i + 1..];
      [s[..i]] + SplitList(if |rest| > 0 && rest[0] == ' ' then rest[1..] else rest)
  }

  /** No item of `parts` contains a comma. */
  predicate CommaFree(parts: seq<string>)
  {
    forall k :: 0 <= k < |parts| ==> ',' !in parts[k]
  }

  /** Joining one more part at the end adds the separator and that part. */
  lemma {:induction false} JoinSnoc(sep: string, parts: seq<string>, p: string)
    ensures Join(sep, parts + [p]) == if |parts| == 0 then p else Join(sep, parts) + sep + p
    decreases |parts|
  {
    if |parts| <= 1 {
      if |parts| == 1 {
        assert (parts + [p])[1..] == [p];
      }
    } else {
      assert (parts + [p])[1..] == parts[1..] + [p];
      JoinSnoc(sep, parts[1..], p);
    }
  }

  /** The length of a join: every part plus one separator per gap. */
  lemma {:induction false} JoinLength(sep: string, parts: seq<string>)
    requires |parts| >= 1
    ensures |Join(sep, parts)| == TotalLength(parts) + |sep| * (|parts| - 1)
    decreases |parts|
  {
    if |parts| > 1 {
      JoinLength(sep, parts[1..]);
    }
  }

  /** In `a + [c] + b` with no `c` in `a`, the first `c` is the one after `a`. */
  lemma {:induction false} FirstIndexPastFree(a: string, c: char, b: string)
    requires c !in a
    ensures c in a + [c] + b
    ensures FirstIndex(a + [c] + b, c) == |a|
    decreases |a|
  {
    var s := a + [c] + b;
    assert s[|a|] == c;
    if |a| > 0 {
      assert s[1..] == a[1..] + [c] + b;
      assert c != a[0];
      FirstIndexPastFree(a[1..], c, b);
    }
  }

  /** One step of `SplitList`: a comma-free head, a comma and a space are
      read as the first item. */
  lemma SplitListStep(a: string, j: string)
    requires ',' !in a
    ensures SplitList(a + [','] + (" " + j)) == [a] + SplitList(j)
  {
    var s := a + [','] + (" " + j);
    FirstIndexPastFree(a, ',', " " + j);
    assert s[..|a|] == a;
    assert s[|a| + 1..] == " " + j;
    assert (" " + j)[1..] == j;
  }

  lemma CommaFreeTail(parts: seq<string>)
    requires |parts| >= 1 && CommaFree(parts)
    ensures CommaFree(parts[1..]) && ',' !in parts[0]
  {
    assert ',' !in parts[0];
    forall k | 0 <= k < |parts[1..]|
      ensures ',' !in parts[1..][k]
    {
      assert parts[1..][k] == parts[k + 1];
    }
  }

  /** `SplitList` undoes `", ".join` on a non-empty list of comma-free items. */
  lemma {:induction false} SplitJoin(parts: seq<string>)
    requires |parts| >= 1
    requires CommaFree(parts)
    ensures SplitList(Join(", ", parts)) == parts
    decreases |parts|
  {
    CommaFreeTail(parts);
    if |parts| > 1 {
      var j := Join(", ", parts[1..]);
      assert parts[0] + [','] + (" " + j) == Join(", ", parts);
      SplitListStep(parts[0], j);
      SplitJoin(parts[1..]);
      assert [parts[0]] + parts[1..] == parts;
    }
  }
}
