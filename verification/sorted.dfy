/**
 * Strictly ascending sequences of numbers: the shape of the manager's cached
 * index of start numbers, and the two edits (insert one number, drop one
 * number) that every add and remove performs on it.
 */
module SortedSeq {

  /** The set of numbers occurring in `s`. */
  function Elems(s: seq<int>): (r: set<int>) {
    set x | x in s
  }

  /** Ascending with no repetition. */
  predicate StrictlyAscending(s: seq<int>) {
    forall i, j :: 0 <= i < j < |s| ==> s[i] < s[j]
  }

  /** No number occurs twice. */
  predicate Distinct(s: seq<int>) {
    forall i, j :: 0 <= i < j < |s| ==> s[i] != s[j]
  }

  /** The head of a non-empty ascending sequence is its least element. */
  lemma HeadIsLeast(s: seq<int>)
    requires StrictlyAscending(s) && |s| > 0
    ensures forall x :: x in Elems(s) ==> s[0] <= x
  {
  }

  /** The last element of a non-empty ascending sequence is its greatest element. */
  lemma LastIsGreatest(s: seq<int>)
    requires StrictlyAscending(s) && |s| > 0
    ensures forall x :: x in Elems(s) ==> x <= s[|s| - 1]
  {
  }

  /** Dropping the head of an ascending sequence removes exactly that number from its elements. */
  lemma TailElems(s: seq<int>)
    requires StrictlyAscending(s) && |s| > 0
    ensures StrictlyAscending(s[1..])
    ensures Elems(s[1..]) == Elems(s) - {s[0]}
  {
  }

  /** Only the empty sequence has no elements. */
  lemma ElemsEmpty(s: seq<int>)
    ensures Elems(s) == {} <==> s == []
  {
    if s != [] {
      assert s[0] in Elems(s);
    }
  }

  /** Walking an ascending sequence: the next number is present and is dropped from what remains. */
  lemma NextOfSuffix(s: seq<int>, i: nat)
    requires StrictlyAscending(s) && i < |s|
    ensures s[i] in Elems(s[i..])
    ensures Elems(s[i + 1..]) == Elems(s[i..]) - {s[i]}
  {
  }

  /**
   * A finite set of numbers has only one strictly ascending listing: the
   * cached index is determined by the key set alone.
   */
  lemma {:induction false} AscendingUnique(a: seq<int>, b: seq<int>)
    requires StrictlyAscending(a) && StrictlyAscending(b)
    requires Elems(a) == Elems(b)
    ensures a == b
  {
    ElemsEmpty(a);
    ElemsEmpty(b);
    if a != [] && b != [] {
      HeadIsLeast(a);
      HeadIsLeast(b);
      assert a[0] in Elems(b) && b[0] in Elems(a);
      assert a[0] == b[0];
      TailElems(a);
      TailElems(b);
      AscendingUnique(a[1..], b[1..]);
      assert a == [a[0]] + a[1..];
      assert b == [b[0]] + b[1..];
    }
  }

  /** Dropping the head of an ascending sequence leaves only numbers above the head. */
  lemma TailAbove(s: seq<int>)
    requires StrictlyAscending(s) && |s| > 0
    ensures forall y :: y in Elems(s[1..]) ==> s[0] < y
  {
  }

  /** Putting a number below every element in front keeps a sequence ascending. */
  lemma ConsAscending(h: int, t: seq<int>)
    requires StrictlyAscending(t)
    requires forall y :: y in Elems(t) ==> h < y
    ensures StrictlyAscending([h] + t)
    ensures Elems([h] + t) == {h} + Elems(t)
  {
    assert forall j :: 0 <= j < |t| ==> t[j] in Elems(t);
  }

  /** `x` inserted into an ascending sequence at the place that keeps it ascending. */
  function InsertSorted(s: seq<int>, x: int): (r: seq<int>)
    requires StrictlyAscending(s) && x !in s
    ensures StrictlyAscending(r)
    ensures Elems(r) == Elems(s) + {x}
    ensures |r| == |s| + 1
  {
    if s == [] then [x]
    else if x < s[0] then
      HeadIsLeast(s);
      ConsAscending(x, s);
      [x] + s
    else
      TailElems(s);
      TailAbove(s);
      var rest := InsertSorted(s[1..], x);
      ConsAscending(s[0], rest);
      [s[0]] + rest
  }

  /** An ascending sequence with `x` taken out. */
  function Without(s: seq<int>, x: int): (r: seq<int>)
    requires StrictlyAscending(s)
    ensures StrictlyAscending(r)
    ensures Elems(r) == Elems(s) - {x}
  {
    if s == [] then []
    else if s[0] == x then
      TailElems(s);
      s[1..]
    else
      TailElems(s);
      TailAbove(s);
      var rest := Without(s[1..], x);
      ConsAscending(s[0], rest);
      [s[0]] + rest
  }

  /**
   * An index rebuilt after a new key `x` was added is the old index with `x`
   * inserted in place: nothing else moves.
   */
  lemma {:induction false} IndexAfterInsert(before: seq<int>, after: seq<int>, x: int)
    requires StrictlyAscending(before) && StrictlyAscending(after) && x !in before
    requires Elems(after) == Elems(before) + {x}
    ensures after == InsertSorted(before, x)
  {
    AscendingUnique(after, InsertSorted(before, x));
  }

  /**
   * An index rebuilt after key `x` was removed is the old index with exactly
   * `x` taken out.
   */
  lemma {:induction false} IndexAfterRemove(before: seq<int>, after: seq<int>, x: int)
    requires StrictlyAscending(before) && StrictlyAscending(after)
    requires Elems(after) == Elems(before) - {x}
    ensures after == Without(before, x)
  {
    AscendingUnique(after, Without(before, x));
  }
}
