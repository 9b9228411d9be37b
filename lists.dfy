/** The package and program lists: the linear search the mutations share and
    the removal of a name's first occurrence. */
module Lists {

  /** No name occurs twice in `s`. */
  predicate Distinct(s: seq<string>) {
    forall i, j :: 0 <= i < j < |s| ==> s[i] != s[j]
  }

  /** The search loop of the add and remove operations: stops at the first
      position holding `x`. When `x` is absent, `index` keeps its zero value. */
  method IndexOf(s: seq<string>, x: string) returns (found: bool, index: nat)
    ensures found <==> x in s
    ensures found ==> index < |s| && s[index] == x && x !in s[..index]
    ensures !found ==> index == 0
  {
    found, index := false, 0;
    var i := 0;
    while i < |s|
      invariant 0 <= i <= |s|
      invariant x !in s[..i]
    {
      if s[i] == x {
        found, index := true, i;
        return;
      }
      i := i + 1;
    }
  }

  /** `s` without the first occurrence of `x`; `s` itself when `x` is absent. */
  function RemoveFirst(s: seq<string>, x: string): (r: seq<string>)
    ensures |r| == if x in s then |s| - 1 else |s|
  {
    if s == [] then []
    else if s[0] == x then s[1..]
    else [s[0]] + RemoveFirst(s[1..], x)
  }

  /** Removal takes exactly one copy of `x` out of the multiset of names, none
      when `x` is absent, and leaves every other name's count as it was. */
  lemma {:induction false} RemoveFirstMultiset(s: seq<string>, x: string)
    ensures multiset(RemoveFirst(s, x)) == multiset(s) - multiset{x}
  {
    if s != [] {
      assert s == [s[0]] + s[1..];
      if s[0] != x {
        RemoveFirstMultiset(s[1..], x);
      }
    }
  }

  /** A prefix without `x` is kept as it is; removal acts on what follows it. */
  lemma {:induction false} RemoveFirstAfterPrefix(p: seq<string>, q: seq<string>, x: string)
    requires x !in p
    ensures RemoveFirst(p + q, x) == p + RemoveFirst(q, x)
  {
    if p == [] {
      assert p + q == q;
    } else {
      assert (p + q)[0] == p[0] && (p + q)[1..] == p[1..] + q;
      RemoveFirstAfterPrefix(p[1..], q, x);
      assert p == [p[0]] + p[1..];
    }
  }

  /** Removing the first occurrence at position `i` is the splice `s[..i] + s[i+1..]`:
      the names before and after it keep their order. */
  lemma RemoveFirstAt(s: seq<string>, x: string, i: nat)
    requires i < |s| && s[i] == x && x !in s[..i]
    ensures RemoveFirst(s, x) == s[..i] + s[i + 1..]
  {
    assert s == s[..i] + s[i..];
    RemoveFirstAfterPrefix(s[..i], s[i..], x);
    assert s[i..][1..] == s[i + 1..];
  }

  /** Removing an absent name changes nothing. */
  lemma {:induction false} RemoveFirstAbsent(s: seq<string>, x: string)
    requires x !in s
    ensures RemoveFirst(s, x) == s
  {
    if s != [] {
      RemoveFirstAbsent(s[1..], x);
    }
  }

  /** Cutting position `i` out of a duplicate-free list leaves a duplicate-free
      list that no longer holds `s[i]`. */
  lemma SpliceKeepsDistinct(s: seq<string>, i: nat)
    requires Distinct(s) && i < |s|
    ensures Distinct(s[..i] + s[i + 1..])
    ensures s[i] !in s[..i] + s[i + 1..]
  {
  }

  /** On a list without duplicates, removal keeps it duplicate-free and leaves
      no occurrence of the removed name behind. */
  lemma RemoveFirstKeepsDistinct(s: seq<string>, x: string)
    requires Distinct(s)
    ensures Distinct(RemoveFirst(s, x))
    ensures x !in RemoveFirst(s, x)
  {
    if x in s {
      var i :| 0 <= i < |s| && s[i] == x;
      RemoveFirstAt(s, x, i);
      SpliceKeepsDistinct(s, i);
    } else {
      RemoveFirstAbsent(s, x);
    }
  }

  /** Appending a name that is absent keeps a list duplicate-free. */
  lemma AppendAbsentKeepsDistinct(s: seq<string>, x: string)
    requires Distinct(s) && x !in s
    ensures Distinct(s + [x])
  {
  }

  /** Removing a name that was just appended to a list without it gives the list back. */
  lemma RemoveFirstUndoesAppend(s: seq<string>, x: string)
    requires x !in s
    ensures RemoveFirst(s + [x], x) == s
  {
    assert (s + [x])[..|s|] == s;
    RemoveFirstAt(s + [x], x, |s|);
  }
}
