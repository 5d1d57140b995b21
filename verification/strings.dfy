/** Searching in strings, shared by the parsers that read back what the relay produces. */
module Strings {

  /** ASCII control characters: below the space, and DEL. */
  predicate IsControl(c: char)
  {
    (c as int) < 0x20 || (c as int) == 0x7F
  }

  /** The index of the first character of `s` that lies in `stop`, or `|s|` when there is none. */
  function IndexOfAny(s: string, stop: set<char>): (i: nat)
    ensures i <= |s|
    ensures i < |s| ==> s[i] in stop
    ensures forall k :: 0 <= k < i ==> s[k] !in stop
  {
    if s == [] then 0
    else if s[0] in stop then 0
    else 1 + IndexOfAny(s[1..], stop)
  }

  /** A prefix holding none of the stop characters is skipped over entirely. */
  lemma {:induction false} IndexOfAnySkips(a: string, b: string, stop: set<char>)
    requires forall k :: 0 <= k < |a| ==> a[k] !in stop
    ensures IndexOfAny(a + b, stop) == |a| + IndexOfAny(b, stop)
  {
    if a == [] {
      assert a + b == b;
    } else {
      assert (a + b)[0] == a[0] && (a + b)[1..] == a[1..] + b;
      IndexOfAnySkips(a[1..], b, stop);
    }
  }

  /** A string with none of the stop characters is searched to its end. */
  lemma IndexOfAnyAbsent(s: string, stop: set<char>)
    requires forall k :: 0 <= k < |s| ==> s[k] !in stop
    ensures IndexOfAny(s, stop) == |s|
  {
  }
}
