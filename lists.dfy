/** The Python list operations the session table uses. */
module Lists {

  /** No element occurs twice. */
  predicate NoDups<T(==)>(s: seq<T>) {
    s == [] || (s[0] !in s[1..] && NoDups(s[1..]))
  }

  /** `list.index(x)`: the position of the first occurrence. */
  function IndexOf<T(==)>(s: seq<T>, x: T): (i: nat)
    requires x in s
    ensures i < |s| && s[i] == x && x !in s[..i]
  {
    if s[0] == x then 0
    else
      assert s[1..][..IndexOf(s[1..], x)] == s[1..IndexOf(s[1..], x) + 1];
      IndexOf(s[1..], x) + 1
  }

  /** `list.remove(x)` on a list holding `x` drops its first occurrence and
      keeps the rest in order; on a list without `x` Python raises, which
      callers model. */
  function RemoveFirst<T(==)>(s: seq<T>, x: T): (r: seq<T>)
    ensures x !in s ==> r == s
    ensures x in s ==> r == s[..IndexOf(s, x)] + s[IndexOf(s, x) + 1..]
  {
    if s == [] then []
    else
      assert s == [s[0]] + s[1..];
      if s[0] == x then s[1..]
      else
        var t := s[1..];
        if x in t then
          var i := IndexOf(t, x);
          assert IndexOf(s, x) == i + 1;
          assert s[..i + 1] == [s[0]] + t[..i];
          assert s[i + 2..] == t[i + 1..];
          [s[0]] + RemoveFirst(t, x)
        else
          [s[0]] + RemoveFirst(t, x)
  }

  /** The removal takes one occurrence of `x` out of the list's multiset,
      and nothing else. */
  lemma {:induction false} RemoveFirstMultiset<T>(s: seq<T>, x: T)
    ensures multiset(RemoveFirst(s, x)) == multiset(s) - multiset{x}
  {
    if s != [] {
      assert s == [s[0]] + s[1..];
      if s[0] != x {
        RemoveFirstMultiset(s[1..], x);
        assert RemoveFirst(s, x) == [s[0]] + RemoveFirst(s[1..], x);
      }
    }
  }

  /** On a duplicate-free list the removal is exact: one element shorter
      when it was there, the removed element gone, still free of duplicates. */
  lemma {:induction false} RemoveFirstNoDups<T>(s: seq<T>, x: T)
    requires NoDups(s)
    ensures x in s ==> |RemoveFirst(s, x)| == |s| - 1
    ensures x !in RemoveFirst(s, x) && NoDups(RemoveFirst(s, x))
  {
    if s != [] {
      assert s == [s[0]] + s[1..];
      if s[0] != x {
        RemoveFirstNoDups(s[1..], x);
        var t := RemoveFirst(s[1..], x);
        RemoveFirstMultiset(s[1..], x);
        assert multiset(t) <= multiset(s[1..]);
        assert s[0] !in multiset(t);
        assert ([s[0]] + t)[1..] == t;
      }
    }
  }

  /** Removing what was just appended to a list that lacked it gives the list
      back: a session started and then stopped leaves the table as it was. */
  lemma {:induction false} RemoveAppended<T>(s: seq<T>, x: T)
    requires x !in s
    ensures RemoveFirst(s + [x], x) == s
  {
    if s != [] {
      assert (s + [x])[1..] == s[1..] + [x];
      RemoveAppended(s[1..], x);
    }
  }

  /** Appending an absent element keeps a list free of duplicates. */
  lemma {:induction false} NoDupsAppend<T>(s: seq<T>, x: T)
    requires NoDups(s) && x !in s
    ensures NoDups(s + [x])
  {
    if s != [] {
      assert (s + [x])[1..] == s[1..] + [x];
      NoDupsAppend(s[1..], x);
    }
  }
}
