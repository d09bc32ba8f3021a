/**
 * The list operations the feedback player applies to its feedback list, with
 * the semantics of a .NET List<T>: Insert, RemoveAt, IndexOf and Remove (the
 * first occurrence, compared by reference), and an out-of-range index reported
 * as an error instead of performed.
 */
module ListEdits {

  /** How a list operation ended: done, or an ArgumentOutOfRangeException. */
  datatype Outcome = Done | OutOfRange

  /** List.Insert(i, x): x now sits at i, everything before i stays, everything from i moves up one. */
  function Inserted<T>(s: seq<T>, i: int, x: T): (r: seq<T>)
    requires 0 <= i <= |s|
    ensures |r| == |s| + 1 && r[i] == x
    ensures forall j :: 0 <= j < i ==> r[j] == s[j]
    ensures forall j :: i <= j < |s| ==> r[j + 1] == s[j]
    ensures multiset(r) == multiset(s) + multiset{x}
  {
    assert s == s[..i] + s[i..];
    s[..i] + [x] + s[i..]
  }

  /** Inserting at the end is appending. */
  lemma InsertAtEnd<T>(s: seq<T>, x: T)
    ensures Inserted(s, |s|, x) == s + [x]
  {
    assert s[|s|..] == [];
  }

  /** List.RemoveAt(i): the element at i is gone, everything after it moves down one. */
  function RemovedAt<T>(s: seq<T>, i: int): (r: seq<T>)
    requires 0 <= i < |s|
    ensures |r| == |s| - 1
    ensures forall j :: 0 <= j < i ==> r[j] == s[j]
    ensures forall j :: i <= j < |r| ==> r[j] == s[j + 1]
    ensures multiset(r) == multiset(s) - multiset{s[i]}
  {
    assert s == s[..i] + [s[i]] + s[i + 1..];
    s[..i] + s[i + 1..]
  }

  /** List.IndexOf(x): the first index holding x, or -1 when there is none. */
  function IndexOf<T(==)>(s: seq<T>, x: T): (k: int)
    ensures -1 <= k < |s|
    ensures k == -1 <==> x !in s
    ensures 0 <= k ==> s[k] == x && x !in s[..k]
    decreases |s|
  {
    if s == [] then -1
    else if s[0] == x then 0
    else
      var k := IndexOf(s[1..], x);
      assert forall y :: y in s[1..] ==> y in s;
      assert x in s ==> x in s[1..] by {
        if x in s {
          var j :| 0 <= j < |s| && s[j] == x;
          assert s[1..][j - 1] == x;
        }
      }
      if k == -1 then -1
      else
        assert s[..k + 1] == [s[0]] + s[1..][..k];
        k + 1
  }

  /** List.Remove(x): without x the list is unchanged; otherwise only the first x is removed
      and the others keep their order. */
  function Removed<T(==)>(s: seq<T>, x: T): (r: seq<T>)
    ensures x !in s ==> r == s
    ensures x in s ==> |r| == |s| - 1
    ensures x in s ==> var k := IndexOf(s, x); r == s[..k] + s[k + 1..] && x !in s[..k]
    ensures multiset(r) == multiset(s) - multiset{x}
  {
    var k := IndexOf(s, x);
    if k < 0 then s else RemovedAt(s, k)
  }

  /** Moving the element at `from` to `to`: List.RemoveAt(from), then List.Insert(to, it). */
  function Reordered<T>(s: seq<T>, from: int, to: int): (r: seq<T>)
    requires 0 <= from < |s| && 0 <= to < |s|
    ensures |r| == |s| && r[to] == s[from]
    ensures multiset(r) == multiset(s)
    ensures RemovedAt(r, to) == RemovedAt(s, from)
  {
    var rest := RemovedAt(s, from);
    var r := Inserted(rest, to, s[from]);
    assert RemovedAt(r, to) == rest;
    r
  }
}
