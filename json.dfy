/** `JSON.stringify` followed by `JSON.parse`, as a request body makes the
    trip from an axios call to the server's JSON parser: undefined object
    properties vanish, undefined array entries become null, and NaN and the
    infinities become null. */
module Json {
  import opened Js

  /** A value that survives the trip unchanged. */
  predicate Safe(v: Value) {
    match v
    case Undefined => false
    case Number(n) => n.Finite?
    case Array(items) => forall i :: 0 <= i < |items| ==> Safe(items[i])
    case Object(m) => forall k :: k in m ==> Safe(m[k])
    case _ => true
  }

  /** The value that arrives for `v`; undefined stays undefined, which at
      the top of an object means the property is absent. */
  function Trip(v: Value): (r: Value)
    ensures v.Undefined? <==> r.Undefined?
    ensures !v.Undefined? ==> Safe(r)
    ensures v.Number? && !v.n.Finite? ==> r == Null
  {
    match v
    case Undefined => Undefined
    case Number(n) => if n.Finite? then v else Null
    case Array(items) =>
      Array(seq(|items|, i requires 0 <= i < |items| => if items[i].Undefined? then Null else Trip(items[i])))
    case Object(m) =>
      Object(map k | k in m && !m[k].Undefined? :: Trip(m[k]))
    case _ => v
  }

  /** A safe value makes the trip unchanged. */
  lemma {:induction false} SafeTripIsIdentity(v: Value)
    requires Safe(v)
    ensures Trip(v) == v
  {
    match v
    case Array(items) =>
      forall i | 0 <= i < |items| ensures Trip(items[i]) == items[i] {
        SafeTripIsIdentity(items[i]);
      }
      assert Trip(v).items == items;
    case Object(m) =>
      forall k | k in m ensures Trip(m[k]) == m[k] {
        SafeTripIsIdentity(m[k]);
      }
      assert Trip(v).fields == m;
    case _ =>
  }

  /** Making the trip twice is making it once. */
  lemma TripIdempotent(v: Value)
    ensures Trip(Trip(v)) == Trip(v)
  {
    if !v.Undefined? {
      SafeTripIsIdentity(Trip(v));
    }
  }

  /** The properties of an object body as the server reads them. */
  function Body(m: map<string, Value>): (b: map<string, Value>)
    ensures b.Keys <= m.Keys
    ensures forall k :: k in b ==> Safe(b[k])
    ensures forall k :: Get(b, k) == Trip(Get(m, k))
    ensures forall k :: Safe(Get(m, k)) ==> Get(b, k) == Get(m, k)
  {
    assert forall k :: Safe(Get(m, k)) ==> Trip(Get(m, k)) == Get(m, k) by {
      forall k | Safe(Get(m, k)) {
        SafeTripIsIdentity(Get(m, k));
      }
    }
    map k | k in m && !m[k].Undefined? :: Trip(m[k])
  }
}
