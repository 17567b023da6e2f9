/** Tables keyed by integer row ids, and the scan that evaluates a WHERE clause over them. */
module Tables {

  /** Row ids in strictly ascending order: the order of a scan over a table's rowids. */
  predicate Increasing(ids: seq<nat>) {
    forall i, j :: 0 <= i < j < |ids| ==> ids[i] < ids[j]
  }

  /** Every row of `m` has an id below `bound`, so `bound` is free for the next insert. */
  predicate IdsBelow<T>(m: map<nat, T>, bound: nat) {
    forall k :: k in m ==> k < bound
  }

  /** `after` is `before` with exactly one new row `row`, stored under the unused id `id`. */
  predicate InsertedRow<T(==)>(before: map<nat, T>, after: map<nat, T>, id: nat, row: T) {
    id !in before && after == before[id := row]
  }

  /** The ids in `[from, bound)` of the rows of `m` that satisfy `keep`, in ascending order. */
  function Select<T>(m: map<nat, T>, keep: (nat, T) -> bool, from: nat, bound: nat): (ids: seq<nat>)
    decreases bound - from
    ensures Increasing(ids)
    ensures forall i :: 0 <= i < |ids| ==> from <= ids[i] < bound && ids[i] in m && keep(ids[i], m[ids[i]])
    ensures forall k :: from <= k < bound && k in m && keep(k, m[k]) ==> k in ids
  {
    if from >= bound then []
    else
      var rest := Select(m, keep, from + 1, bound);
      if from in m && keep(from, m[from]) then [from] + rest else rest
  }

  lemma HeadIsMember(a: seq<nat>)
    requires a != []
    ensures a[0] in a
  {
  }

  /** An ascending listing is determined by the ids it contains: two ascending sequences
      with the same members are the same sequence. */
  lemma {:induction false} IncreasingUnique(a: seq<nat>, b: seq<nat>)
    requires Increasing(a) && Increasing(b)
    requires forall x :: x in a <==> x in b
    ensures a == b
  {
    if a != [] && b == [] {
      HeadIsMember(a);
      assert false;
    } else if a == [] && b != [] {
      HeadIsMember(b);
      assert false;
    } else if a != [] {
      SameHead(a, b);
      SameTail(a, b);
      IncreasingUnique(a[1..], b[1..]);
      assert a == [a[0]] + a[1..] && b == [b[0]] + b[1..];
    }
  }

  /** Two non-empty ascending listings with the same members start with the same id. */
  lemma SameHead(a: seq<nat>, b: seq<nat>)
    requires Increasing(a) && Increasing(b) && a != [] && b != []
    requires forall x :: x in a <==> x in b
    ensures a[0] == b[0]
  {
    assert a[0] in b;
    var j :| 0 <= j < |b| && b[j] == a[0];
    assert b[0] in a;
    var i :| 0 <= i < |a| && a[i] == b[0];
  }

  /** ... and, past that id, they still have the same members. */
  lemma SameTail(a: seq<nat>, b: seq<nat>)
    requires Increasing(a) && Increasing(b) && a != [] && b != [] && a[0] == b[0]
    requires forall x :: x in a <==> x in b
    ensures forall x :: x in a[1..] <==> x in b[1..]
  {
    forall x
      ensures x in a[1..] <==> x in b[1..]
    {
      if x in a[1..] {
        var k :| 1 <= k < |a| && a[k] == x;
        assert x in b && x != b[0];
      }
      if x in b[1..] {
        var k :| 1 <= k < |b| && b[k] == x;
        assert x in a && x != a[0];
      }
    }
  }

  /** An element found at two positions of a sequence occurs there at least twice. */
  lemma RepeatCount<T>(s: seq<T>, i: nat, j: nat)
    requires i < j < |s| && s[i] == s[j]
    ensures multiset(s)[s[i]] >= 2
  {
    assert s == s[..j] + s[j..];
    assert s[i] in s[..j];
    assert s[j] in s[j..];
  }

  /** Leaving the `k`-th id out of an ascending listing leaves every other id in, in order. */
  lemma IncreasingWithout(ids: seq<nat>, k: nat)
    requires Increasing(ids) && k < |ids|
    ensures Increasing(ids[..k] + ids[k + 1..])
    ensures forall q :: q in ids[..k] + ids[k + 1..] <==> q in ids && q != ids[k]
  {
    var rest := ids[..k] + ids[k + 1..];
    forall q | q in ids && q != ids[k]
      ensures q in rest
    {
      var j :| 0 <= j < |ids| && ids[j] == q;
      if j < k {
        assert rest[j] == q;
      } else {
        assert rest[j - 1] == q;
      }
    }
  }
}
