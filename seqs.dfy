/** Queries over a table held as a sequence of rows: `findOne` is the first
    matching row in table order, `findAll` the matching rows in order,
    `count` their number. */
module Seqs {
  import opened Common

  /** The index of the first element satisfying `p`. */
  function FirstWhere<T>(s: seq<T>, p: T -> bool): (r: Option<nat>)
    ensures r.Some? ==> r.value < |s| && p(s[r.value]) && forall j :: 0 <= j < r.value ==> !p(s[j])
    ensures r.None? ==> forall j :: 0 <= j < |s| ==> !p(s[j])
  {
    if s == [] then None
    else if p(s[0]) then Some(0)
    else
      var r := FirstWhere(s[1..], p);
      if r.Some? then Some(r.value + 1) else None
  }

  /** The elements satisfying `p`, in their original order. */
  function Filter<T>(s: seq<T>, p: T -> bool): (r: seq<T>)
    ensures |r| <= |s|
    ensures forall i :: 0 <= i < |r| ==> p(r[i]) && r[i] in s
    ensures forall i :: 0 <= i < |s| && p(s[i]) ==> s[i] in r
  {
    if s == [] then []
    else
      var rest := Filter(s[1..], p);
      assert forall i :: 1 <= i < |s| ==> s[i] == s[1..][i - 1];
      if p(s[0]) then [s[0]] + rest else rest
  }

  /** The number of elements satisfying `p`. */
  function Count<T>(s: seq<T>, p: T -> bool): (n: nat)
    ensures n <= |s|
    ensures n == 0 <==> forall i :: 0 <= i < |s| ==> !p(s[i])
  {
    if s == [] then 0
    else
      assert forall i :: 1 <= i < |s| ==> s[i] == s[1..][i - 1];
      (if p(s[0]) then 1 else 0) + Count(s[1..], p)
  }

  /** Counting is the length of the filtered table. */
  lemma {:induction false} CountIsFilterLength<T>(s: seq<T>, p: T -> bool)
    ensures Count(s, p) == |Filter(s, p)|
  {
    if s != [] {
      CountIsFilterLength(s[1..], p);
    }
  }

  lemma {:induction false} CountAppend<T>(s: seq<T>, x: T, p: T -> bool)
    ensures Count(s + [x], p) == Count(s, p) + (if p(x) then 1 else 0)
  {
    if s != [] {
      assert (s + [x])[1..] == s[1..] + [x];
      CountAppend(s[1..], x, p);
    } else {
      assert [x][1..] == [];
    }
  }

  /** Removing one element removes it from the count when it matched. */
  lemma {:induction false} CountRemove<T>(s: seq<T>, i: nat, p: T -> bool)
    requires i < |s|
    ensures Count(s[..i] + s[i + 1..], p) == Count(s, p) - (if p(s[i]) then 1 else 0)
  {
    if i == 0 {
      assert s[..0] + s[1..] == s[1..];
    } else {
      assert (s[..i] + s[i + 1..])[0] == s[0];
      assert (s[..i] + s[i + 1..])[1..] == s[1..][..i - 1] + s[1..][i..];
      CountRemove(s[1..], i - 1, p);
    }
  }

  /** Two predicates that agree on every element count the same. */
  lemma {:induction false} CountSame<T>(s: seq<T>, p: T -> bool, q: T -> bool)
    requires forall i :: 0 <= i < |s| ==> p(s[i]) == q(s[i])
    ensures Count(s, p) == Count(s, q)
  {
    if s != [] {
      assert forall i :: 1 <= i < |s| ==> s[i] == s[1..][i - 1];
      CountSame(s[1..], p, q);
    }
  }

  /** Two predicates that agree on every element filter the same. */
  lemma {:induction false} FilterSame<T>(s: seq<T>, p: T -> bool, q: T -> bool)
    requires forall i :: 0 <= i < |s| ==> p(s[i]) == q(s[i])
    ensures Filter(s, p) == Filter(s, q)
  {
    if s != [] {
      assert forall i :: 1 <= i < |s| ==> s[i] == s[1..][i - 1];
      FilterSame(s[1..], p, q);
    }
  }

  /** Counting by a disjunction of two exclusive conditions adds their counts. */
  lemma {:induction false} CountSplit<T>(s: seq<T>, p: T -> bool, a: T -> bool, b: T -> bool)
    requires forall i :: 0 <= i < |s| ==> (p(s[i]) <==> a(s[i]) || b(s[i])) && !(a(s[i]) && b(s[i]))
    ensures Count(s, p) == Count(s, a) + Count(s, b)
  {
    if s != [] {
      assert forall i :: 1 <= i < |s| ==> s[i] == s[1..][i - 1];
      CountSplit(s[1..], p, a, b);
    }
  }

  /** The sequence in reverse order (`ORDER BY created_at DESC` over a table kept in creation order). */
  function Reverse<T>(s: seq<T>): (r: seq<T>)
    ensures |r| == |s|
    ensures forall i :: 0 <= i < |s| ==> r[i] == s[|s| - 1 - i]
    ensures forall i :: 0 <= i < |r| ==> r[i] in s
  {
    if s == [] then [] else Reverse(s[1..]) + [s[0]]
  }

  /** `LIMIT limit OFFSET offset` as SQLite reads it: a negative offset
      counts as 0 and a negative limit as no limit at all. */
  function Window<T>(s: seq<T>, offset: int, limit: int): (r: seq<T>)
    ensures |r| <= |s|
    ensures forall i :: 0 <= i < |r| ==> r[i] in s
    ensures 0 <= offset && 0 < limit ==> |r| == if offset >= |s| then 0 else if offset + limit <= |s| then limit else |s| - offset
    ensures 0 <= offset && 0 < limit ==> forall i :: 0 <= i < |r| ==> r[i] == s[offset + i]
    ensures limit < 0 ==> r == s[if offset < 0 then 0 else if offset > |s| then |s| else offset..]
    ensures limit == 0 ==> r == []
  {
    var lo := if offset < 0 then 0 else if offset > |s| then |s| else offset;
    var hi := if limit < 0 then |s| else if limit == 0 then lo else if lo + limit > |s| then |s| else lo + limit;
    s[lo..hi]
  }

  /** With pages of `limit` rows, element `k` is row `k % limit` of the
      window that starts at `(k / limit) * limit`. */
  lemma WindowHolds<T>(s: seq<T>, limit: int, k: nat)
    requires limit > 0 && k < |s|
    ensures 0 <= (k / limit) * limit <= k
    ensures k % limit < |Window(s, (k / limit) * limit, limit)|
    ensures Window(s, (k / limit) * limit, limit)[k % limit] == s[k]
  {
    var offset := (k / limit) * limit;
    var j := k % limit;
    assert offset + j == k;
    assert 0 <= j < limit;
    assert 0 <= offset by {
      assert k / limit >= 0;
    }
  }
}
