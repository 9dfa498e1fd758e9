/** The vitals collection: the two routes that save a user's vitals (they
    run the same ten-field check) and the lookup of the latest entry. */
module Vitals {
  import opened Wrappers
  import opened Js
  import opened Listing

  const VitalFields: seq<string> := [
    "age", "gender", "weight", "height", "smokingStatus", "alcoholConsumption",
    "cholesterolLevel", "bloodPressure", "fastingBloodSugar", "chestPainType"]

  /** The handler's chain of ten truthiness tests: none of the ten fields
      is falsy. */
  predicate Complete(body: map<string, Value>): (b: bool)
    ensures b <==> forall k :: k in VitalFields ==> Truthy(Get(body, k))
  {
    && Truthy(Get(body, "age")) && Truthy(Get(body, "gender")) && Truthy(Get(body, "weight"))
    && Truthy(Get(body, "height")) && Truthy(Get(body, "smokingStatus"))
    && Truthy(Get(body, "alcoholConsumption")) && Truthy(Get(body, "cholesterolLevel"))
    && Truthy(Get(body, "bloodPressure")) && Truthy(Get(body, "fastingBloodSugar"))
    && Truthy(Get(body, "chestPainType"))
  }

  /** A stored entry: the ten fields as sent, tagged with the caller. */
  datatype VitalsRecord = VitalsRecord(id: nat, userId: nat, fields: map<string, Value>, createdAt: nat)

  /** The JSON of a POST reply; `success` is false on every failure. */
  datatype PostReply = PostReply(status: nat, message: string, success: bool, vitalsId: Option<nat>)

  datatype LatestReply = LatestVitals(vitals: VitalsRecord) | NoVitals(message: string)

  /** The destructured request fields. */
  function VitalsOf(body: map<string, Value>): (fields: map<string, Value>)
    ensures fields.Keys == set k | k in VitalFields
    ensures forall k :: k in fields ==> fields[k] == Get(body, k)
  {
    map k | k in VitalFields :: Get(body, k)
  }

  /** A numeric zero is falsy: an age of 0 is reported as a missing field. */
  lemma ZeroCountsAsMissing(body: map<string, Value>, field: string)
    requires field in VitalFields && Get(body, field) == Number(Finite(0.0))
    ensures !Complete(body)
  {
  }

  class VitalsStore {
    var records: seq<VitalsRecord>
    var nextId: nat

    ghost predicate Valid()
      reads this
    {
      forall i :: 0 <= i < |records| ==> records[i].id < nextId
    }

    constructor ()
      ensures Valid() && records == []
    {
      records := [];
      nextId := 0;
    }

    /** `POST /`: 400 when a field is falsy, else a new record whose id is
        returned as `vitalsId`. */
    method Post(caller: nat, body: map<string, Value>, now: nat) returns (reply: PostReply)
      requires Valid()
      modifies this
      ensures Valid()
      ensures reply.success <==> reply.status == 201
      ensures !Complete(body) ==>
                reply == PostReply(400, "All fields are required", false, None) && unchanged(this)
      ensures Complete(body) ==>
                reply == PostReply(201, "Vitals saved successfully", true, Some(old(nextId))) &&
                records == old(records) + [VitalsRecord(old(nextId), caller, VitalsOf(body), now)]
    {
      var i := 0;
      while i < |VitalFields|
        invariant 0 <= i <= |VitalFields|
        invariant forall j :: 0 <= j < i ==> Truthy(Get(body, VitalFields[j]))
      {
        if !Truthy(Get(body, VitalFields[i])) {
          return PostReply(400, "All fields are required", false, None);
        }
        i := i + 1;
      }
      var rec := VitalsRecord(nextId, caller, VitalsOf(body), now);
      records := records + [rec];
      nextId := nextId + 1;
      reply := PostReply(201, "Vitals saved successfully", true, Some(rec.id));
    }

    /** `findOne({ userId }).sort({ createdAt: -1 })`. */
    function Latest(caller: nat): (reply: LatestReply)
      reads this
      ensures reply.NoVitals? <==> forall r :: r in records ==> r.userId != caller
      ensures reply.NoVitals? ==> reply.message == "No vitals found for this user"
      ensures reply.LatestVitals? ==>
                reply.vitals in records && reply.vitals.userId == caller &&
                forall r :: r in records && r.userId == caller ==> r.createdAt <= reply.vitals.createdAt
    {
      var mine := Filter(records, (r: VitalsRecord) => r.userId == caller);
      match Newest(mine, (r: VitalsRecord) => r.createdAt)
      case None =>
        assert forall r :: r in records && r.userId == caller ==> r in mine;
        NoVitals("No vitals found for this user")
      case Some(v) => LatestVitals(v)
    }
  }

  /** An entry saved at a time no earlier than the caller's others is what
      the next lookup finds (up to a tie on the timestamp). */
  lemma SavedIsLatest(rs: seq<VitalsRecord>, rec: VitalsRecord)
    requires forall r :: r in rs ==> r.createdAt <= rec.createdAt
    ensures var n := Newest(Filter(rs + [rec], (r: VitalsRecord) => r.userId == rec.userId),
                            (r: VitalsRecord) => r.createdAt);
            n.Some? && n.value.userId == rec.userId && n.value.createdAt == rec.createdAt
  {
    var mine := Filter(rs + [rec], (r: VitalsRecord) => r.userId == rec.userId);
    assert rec in mine;
  }
}
