/** The array operations the gauge model performs on its lists:
    `indexOf` / the hand-written identity search, and `splice(i, 1)` of the
    first match. Two elements match when they are `===`: the same object
    for references, the same value for strings and numbers. */
module Lists {

  /** Index of the first element equal to x, or -1 when there is none. */
  function FirstIndexOf<T(==)>(s: seq<T>, x: T): (i: int)
    ensures -1 <= i < |s|
    ensures i == -1 <==> x !in s
    ensures 0 <= i ==> s[i] == x && x !in s[..i]
  {
    if |s| == 0 then -1
    else if s[0] == x then 0
    else
      var j := FirstIndexOf(s[1..], x);
      assert s[1..][..if j < 0 then 0 else j] == s[1..if j < 0 then 1 else j + 1];
      if j == -1 then -1 else j + 1
  }

  /** The list with the first element equal to x taken out; unchanged when
      x does not occur. */
  function RemoveFirst<T(==)>(s: seq<T>, x: T): seq<T> {
    var i := FirstIndexOf(s, x);
    if i == -1 then s else s[..i] + s[i + 1..]
  }

  /** The search loop: scan from the front, stop at the first match. */
  method IndexOf<T(==)>(s: seq<T>, x: T) returns (index: int)
    ensures index == FirstIndexOf(s, x)
  {
    index := -1;
    var i := 0;
    while i < |s|
      invariant 0 <= i <= |s|
      invariant x !in s[..i]
    {
      if s[i] == x {
        index := i;
        assert s[..i + 1] == s[..i] + [x];
        return;
      }
      assert s[..i + 1] == s[..i] + [s[i]];
      i := i + 1;
    }
    assert s[..i] == s;
  }

  /** Removing an absent element is a no-op. */
  lemma RemoveAbsent<T>(s: seq<T>, x: T)
    requires x !in s
    ensures RemoveFirst(s, x) == s
  {
  }

  /** Removing a present element takes out exactly one occurrence of it,
      the first: everything before it and everything after it stays, in
      order. */
  lemma {:induction false} RemovePresent<T>(s: seq<T>, x: T)
    requires x in s
    ensures var r, i := RemoveFirst(s, x), FirstIndexOf(s, x);
      |r| == |s| - 1 &&
      r[..i] == s[..i] && x !in r[..i] &&
      r[i..] == s[i + 1..] &&
      multiset(r) + multiset{x} == multiset(s)
  {
    var i := FirstIndexOf(s, x);
    var r := RemoveFirst(s, x);
    assert s == s[..i] + [x] + s[i + 1..];
    assert r[..i] == s[..i];
    assert r[i..] == s[i + 1..];
  }

  /** Removing x from a list that starts with x gives back the rest. */
  lemma RemoveFromFront<T>(x: T, s: seq<T>)
    ensures RemoveFirst([x] + s, x) == s
  {
    assert ([x] + s)[1..] == s;
  }

  /** Appending x and then removing x gives back the list when x was not in
      it yet; when it was, it is the earlier copy that goes. */
  lemma {:induction false} AppendThenRemove<T>(s: seq<T>, x: T)
    ensures x !in s ==> RemoveFirst(s + [x], x) == s
    ensures x in s ==> RemoveFirst(s + [x], x) == RemoveFirst(s, x) + [x]
  {
    var t := s + [x];
    var i := FirstIndexOf(t, x);
    if x !in s {
      assert t[..|s|] == s;
      assert i == |s|;
    } else {
      var j := FirstIndexOf(s, x);
      assert t[..j] == s[..j] && t[j] == x;
      assert i == j;
      assert t[i + 1..] == s[j + 1..] + [x];
    }
  }
}
