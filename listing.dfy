/** The two queries every collection of the backend answers: the records a
    filter keeps (`find({ userId })`) and the same records ordered by a
    timestamp, newest first (`.sort({ createdAt: -1 })`). */
module Listing {
  import opened Wrappers

  /** The records `keep` accepts, in store order. */
  function Filter<R(!new)>(rs: seq<R>, keep: R -> bool): (out: seq<R>)
    ensures |out| <= |rs|
    ensures forall r :: r in out <==> r in rs && keep(r)
    ensures forall r :: multiset(out)[r] == if keep(r) then multiset(rs)[r] else 0
  {
    if rs == [] then []
    else
      var rest := Filter(rs[1..], keep);
      assert rs == [rs[0]] + rs[1..];
      if keep(rs[0]) then [rs[0]] + rest else rest
  }

  predicate NewestFirstBy<R>(rs: seq<R>, stamp: R -> int) {
    forall i, j :: 0 <= i < j < |rs| ==> stamp(rs[i]) >= stamp(rs[j])
  }

  /** Puts `r` in front of the first record that is not newer than it. */
  function Insert<R(!new)>(r: R, rs: seq<R>, stamp: R -> int): (out: seq<R>)
    requires NewestFirstBy(rs, stamp)
    ensures NewestFirstBy(out, stamp)
    ensures multiset(out) == multiset(rs) + multiset{r}
    ensures |out| == |rs| + 1
    ensures forall x :: x in out <==> x in rs || x == r
    ensures out[0] == r || (rs != [] && out[0] == rs[0])
  {
    if rs == [] || stamp(r) >= stamp(rs[0]) then [r] + rs
    else
      var tail := Insert(r, rs[1..], stamp);
      assert rs == [rs[0]] + rs[1..];
      [rs[0]] + tail
  }

  /** The records ordered newest first; records with the same stamp may come
      in any order, as a database sort leaves them. */
  function NewestFirst<R(!new)>(rs: seq<R>, stamp: R -> int): (out: seq<R>)
    ensures NewestFirstBy(out, stamp)
    ensures multiset(out) == multiset(rs)
    ensures |out| == |rs|
    ensures forall r :: r in out <==> r in rs
  {
    if rs == [] then []
    else
      assert rs == [rs[0]] + rs[1..];
      Insert(rs[0], NewestFirst(rs[1..], stamp), stamp)
  }

  /** `findOne(...).sort({ stamp: -1 })`: a newest record, or none. */
  function Newest<R(!new)>(rs: seq<R>, stamp: R -> int): (o: Option<R>)
    ensures o.None? <==> rs == []
    ensures o.Some? ==> o.value in rs
    ensures o.Some? ==> forall r :: r in rs ==> stamp(r) <= stamp(o.value)
  {
    var sorted := NewestFirst(rs, stamp);
    if sorted == [] then None
    else
      assert sorted[0] in multiset(rs);
      assert forall r :: r in rs ==> r in multiset(sorted);
      Some(sorted[0])
  }
}
