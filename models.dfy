/** The two record types of the NEO database (models.py): a near-Earth object
    and one of its close approaches to Earth. */
module Models {
  import opened Wrappers

  /** A Python float as the data set uses it: a number, or the not-a-number
      value that stands for "unknown". */
  datatype Float = NaN | Num(x: real)

  /** Python truthiness of a float: only zero is falsy, NaN is truthy. */
  predicate FloatTruthy(f: Float) {
    f != Num(0.0)
  }

  /** Python truthiness of an optional string: `None` and `""` are falsy. */
  predicate Truthy(s: Option<string>) {
    s.Some? && s.value != ""
  }

  /** The datetime that `cd_to_datetime` parses from a calendar-date string,
      held opaquely by the string it came from. */
  datatype Timestamp = Timestamp(calendarDate: string)

  /** What a caller passes for a keyword argument that must be a float: it
      leaves the argument out, passes a float, or passes a value of another
      type (`None`, an `int`, a string). */
  datatype FloatArg = Omitted | PassedFloat(f: Float) | PassedOther

  /** The assertion that a `CloseApproach` constructor raises. */
  datatype ConstructionError = DistanceNotFloat | VelocityNotFloat

  /** A value of a serialized record. */
  datatype Value = NoneValue | StrValue(s: string) | FloatValue(f: Float) | BoolValue(b: bool)

  /** The externally visible fields of an NEO. */
  datatype NeoFields = NeoFields(designation: string, name: Option<string>, diameter: Float, hazardous: bool)

  const UnknownTime: string := "an unknown time"

  /** The keys of a serialized NEO. */
  const NeoKeys: set<string> := {"designation", "name", "diameter_km", "potentially_hazardous"}

  /** The diameter an NEO stores: a missing or falsy diameter becomes NaN. */
  function DiameterOrNaN(diameter: Option<Float>): (d: Float)
    ensures d != Num(0.0)
    ensures diameter.None? || diameter == Some(Num(0.0)) ==> d == NaN
    ensures diameter.Some? && diameter.value != Num(0.0) ==> d == diameter.value
  {
    if diameter.None? || !FloatTruthy(diameter.value) then NaN else diameter.value
  }

  /** The time a close approach stores: a truthy calendar date is parsed, a
      missing or empty one leaves the time absent. */
  function ParsedTime(time: Option<string>): (t: Option<Timestamp>)
    ensures t.Some? <==> Truthy(time)
    ensures t.Some? ==> t.value.calendarDate == time.value
  {
    if Truthy(time) then Some(Timestamp(time.value)) else None
  }

  /** The distance and velocity a close approach stores, or the assertion its
      constructor fails: an omitted value becomes NaN, a float is kept as it
      is (zero included), anything else is rejected, distance first. */
  function ApproachMeasures(distance: FloatArg, velocity: FloatArg): (r: Result<(Float, Float), ConstructionError>)
    ensures r.Success? <==> !distance.PassedOther? && !velocity.PassedOther?
    ensures distance.PassedOther? ==> r == Failure(DistanceNotFloat)
    ensures !distance.PassedOther? && velocity.PassedOther? ==> r == Failure(VelocityNotFloat)
    ensures r.Success? && distance.Omitted? ==> r.value.0 == NaN
    ensures r.Success? && distance.PassedFloat? ==> r.value.0 == distance.f
    ensures r.Success? && velocity.Omitted? ==> r.value.1 == NaN
    ensures r.Success? && velocity.PassedFloat? ==> r.value.1 == velocity.f
  {
    if distance.PassedOther? then Failure(DistanceNotFloat)
    else if velocity.PassedOther? then Failure(VelocityNotFloat)
    else
      var d := if distance.Omitted? then NaN else distance.f;
      var v := if velocity.Omitted? then NaN else velocity.f;
      Success((d, v))
  }

  /** A near-Earth object. Its identifying and physical fields are never
      reassigned; its list of close approaches is appended to by the
      database's linking pass. */
  class NearEarthObject {
    const designation: string
    const name: Option<string>
    const diameter: Float
    const hazardous: bool
    var approaches: seq<CloseApproach>

    constructor (designation: string, name: Option<string> := None, diameter: Option<Float> := None, hazardous: bool := false)
      ensures this.designation == designation && this.name == name
      ensures this.diameter == DiameterOrNaN(diameter) && this.hazardous == hazardous
      ensures approaches == []
    {
      this.designation := designation;
      this.name := name;
      this.diameter := DiameterOrNaN(diameter);
      this.hazardous := hazardous;
      approaches := [];
    }

    /** The designation, followed by the name in parentheses when the NEO has one. */
    function Fullname(): (r: string)
      ensures |designation| <= |r| && r[..|designation|] == designation
      ensures r == designation <==> !Truthy(name)
      ensures Truthy(name) ==> r[|designation|..] == " (" + name.value + ")"
    {
      if Truthy(name) then designation + " (" + name.value + ")" else designation
    }

    /** The record of exactly the four externally visible fields. */
    function Serialize(): (r: map<string, Value>)
      ensures r.Keys == NeoKeys
      ensures r["designation"] == StrValue(designation)
      ensures r["name"] == if name.Some? then StrValue(name.value) else NoneValue
      ensures r["diameter_km"] == FloatValue(diameter)
      ensures r["potentially_hazardous"] == BoolValue(hazardous)
    {
      map["designation" := StrValue(designation),
          "name" := if name.Some? then StrValue(name.value) else NoneValue,
          "diameter_km" := FloatValue(diameter),
          "potentially_hazardous" := BoolValue(hazardous)]
    }
  }

  /** Two NEOs with the same designation and the same full name have the same
      name, up to falsy names: the full name can be read back. */
  lemma {:induction false} FullnameDeterminesName(a: NearEarthObject, b: NearEarthObject)
    requires a.designation == b.designation && a.Fullname() == b.Fullname()
    ensures Truthy(a.name) <==> Truthy(b.name)
    ensures Truthy(a.name) ==> a.name == b.name
  {
    var d := a.designation;
    if Truthy(a.name) && Truthy(b.name) {
      var ta := a.Fullname()[|d|..];
      assert ta == " (" + a.name.value + ")";
      assert ta == " (" + b.name.value + ")";
      assert a.name.value == ta[2..|ta| - 1];
      assert b.name.value == ta[2..|ta| - 1];
    }
  }

  /** Reads a serialized NEO back, or None when the record is not one. */
  function ParseNeoRecord(m: map<string, Value>): (r: Option<NeoFields>)
    ensures r.Some? ==> m.Keys == NeoKeys
  {
    if m.Keys == NeoKeys && m["designation"].StrValue? && (m["name"].StrValue? || m["name"].NoneValue?)
       && m["diameter_km"].FloatValue? && m["potentially_hazardous"].BoolValue?
    then
      var name := if m["name"].StrValue? then Some(m["name"].s) else None;
      Some(NeoFields(m["designation"].s, name, m["diameter_km"].f, m["potentially_hazardous"].b))
    else
      None
  }

  /** Serializing an NEO loses none of its visible fields. */
  lemma SerializeRoundTrip(neo: NearEarthObject)
    ensures ParseNeoRecord(neo.Serialize()) == Some(NeoFields(neo.designation, neo.name, neo.diameter, neo.hazardous))
  {
  }

  /** A close approach of an NEO to Earth. The designation of its NEO is
      fixed at construction and cannot be reassigned; the link to the NEO
      object itself is set by the database's linking pass. */
  class CloseApproach {
    const designation: string
    const time: Option<Timestamp>
    const distance: Float
    const velocity: Float
    var neo: NearEarthObject?

    constructor (designation: string, time: Option<Timestamp>, distance: Float, velocity: Float, neo: NearEarthObject?)
      ensures this.designation == designation && this.time == time
      ensures this.distance == distance && this.velocity == velocity && this.neo == neo
    {
      this.designation := designation;
      this.time := time;
      this.distance := distance;
      this.velocity := velocity;
      this.neo := neo;
    }

    /** The approach time for display; `datetimeToStr` formats a present time. */
    function TimeStr(datetimeToStr: Timestamp -> string): (r: string)
      ensures time.None? ==> r == UnknownTime
      ensures time.Some? ==> r == datetimeToStr(time.value)
    {
      if time.Some? then datetimeToStr(time.value) else UnknownTime
    }
  }

  /** Builds a close approach from keyword arguments, raising when distance
      or velocity is given but is not a float. */
  method NewCloseApproach(designation: string, time: Option<string> := None, distance: FloatArg := Omitted,
                          velocity: FloatArg := Omitted, neo: NearEarthObject? := null)
    returns (r: Result<CloseApproach, ConstructionError>)
    ensures r.Failure? ==> ApproachMeasures(distance, velocity) == Failure(r.error)
    ensures r.Success? ==> ApproachMeasures(distance, velocity).Success? && fresh(r.value)
    ensures r.Success? ==> r.value.designation == designation && r.value.time == ParsedTime(time)
    ensures r.Success? ==> (r.value.distance, r.value.velocity) == ApproachMeasures(distance, velocity).value
    ensures r.Success? ==> r.value.neo == neo
  {
    var measures := ApproachMeasures(distance, velocity);
    if measures.Failure? {
      return Failure(measures.error);
    }
    var approach := new CloseApproach(designation, ParsedTime(time), measures.value.0, measures.value.1, neo);
    r := Success(approach);
  }
}
