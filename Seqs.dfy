/** The java.util.List operations the message tree uses, on sequences. */
module Seqs {

  /** Position of the first element identical to x (List.indexOf without an equals override). */
  function IndexOf<T(==)>(s: seq<T>, x: T): (i: nat)
    requires x in s
    ensures i < |s| && s[i] == x && x !in s[..i]
  {
    if s[0] == x then 0 else 1 + IndexOf(s[1..], x)
  }

  /** List.remove(int) on an index already known to be in range. */
  function RemoveAt<T>(s: seq<T>, i: nat): (r: seq<T>)
    requires i < |s|
    ensures |r| == |s| - 1
    ensures forall k :: 0 <= k < i ==> r[k] == s[k]
    ensures forall k :: i <= k < |r| ==> r[k] == s[k + 1]
    ensures multiset(r) == multiset(s) - multiset{s[i]}
  {
    assert s == s[..i] + [s[i]] + s[i + 1..];
    s[..i] + s[i + 1..]
  }

  /** List.remove(Object): drop the first element identical to x; no change when x is absent. */
  function RemoveFirst<T(==)>(s: seq<T>, x: T): (r: seq<T>)
    ensures x !in s ==> r == s
    ensures x in s ==> |r| == |s| - 1 && multiset(r) == multiset(s) - multiset{x}
    ensures x in s ==> exists i :: 0 <= i < |s| && s[i] == x && x !in s[..i] && r == s[..i] + s[i + 1..]
  {
    if x in s then RemoveAt(s, IndexOf(s, x)) else s
  }

  /** Appending an element that was not in the list and then removing it restores the list. */
  lemma {:induction false} RemoveFirstUndoesAppend<T>(s: seq<T>, x: T)
    requires x !in s
    ensures RemoveFirst(s + [x], x) == s
  {
    var t := s + [x];
    assert t[|s|] == x;
    assert t[..|s|] == s;
    var i := IndexOf(t, x);
    assert i == |s|;
  }

  /** When x is already present, append-then-remove takes out the earlier copy instead. */
  lemma AppendThenRemoveMovesEarlierCopy<T>(a: T, x: T)
    requires a != x
    ensures RemoveFirst([x, a] + [x], x) == [a, x] != [x, a]
  {
    assert IndexOf([x, a, x], x) == 0;
    assert ([x, a] + [x])[1..] == [a, x];
  }
}
