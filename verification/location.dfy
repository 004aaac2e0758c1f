/** Geographic locations at which a pass is relevant (wallet/PassProps/Location.py). */
module Locations {
  import opened Wrappers
  import opened Errors
  import opened OrderedMaps
  import opened Values

  datatype Location = Location(
    latitude: real,
    longitude: real,
    altitude: real,
    distance: Option<Json>,   // `None`: the attribute was never set
    relevantText: Json)

  /** `float(kw[name])`, or 0.0 when that raises `KeyError`, `ValueError`
      or `TypeError`; the `OverflowError` of a huge int is not caught. */
  function CoordinateOrZero(kw: Kwargs, name: string, parseText: string -> Option<real>): Result<real, Error> {
    if name !in kw then Success(0.0)
    else match ToFloat(kw[name], parseText)
      case Success(x) => Success(x)
      case Failure(e) => if e == FloatOverflow then Failure(e) else Success(0.0)
  }

  /** A coordinate is the parsed argument when `float()` accepts it and 0.0
      when it is missing or `float()` refuses it with a caught exception. */
  ghost predicate CoordinateFrom(kw: Kwargs, name: string, parseText: string -> Option<real>, x: real) {
    && (name in kw && ToFloat(kw[name], parseText).Success? ==> x == ToFloat(kw[name], parseText).value)
    && (name !in kw || ToFloat(kw[name], parseText) == Failure(NotANumber) ==> x == 0.0)
  }

  /** A coordinate argument that makes the constructor raise. */
  predicate Overflows(kw: Kwargs, name: string) {
    name in kw && TooLargeForFloat(kw[name])
  }

  /** `Location(**kw)`: raises only the `OverflowError` of a coordinate
      too large for a double; every other refused coordinate is 0.0. */
  function NewLocation(kw: Kwargs, parseText: string -> Option<real>): (r: Result<Location, Error>)
    ensures r.Success? <==>
      !Overflows(kw, "latitude") && !Overflows(kw, "longitude") && !Overflows(kw, "altitude")
    ensures r.Failure? ==> r.error == FloatOverflow
    ensures r.Success? ==>
      && CoordinateFrom(kw, "latitude", parseText, r.value.latitude)
      && CoordinateFrom(kw, "longitude", parseText, r.value.longitude)
      && CoordinateFrom(kw, "altitude", parseText, r.value.altitude)
      && (r.value.distance.Some? <==> "distance" in kw)
      && (r.value.distance.Some? ==> r.value.distance.value == kw["distance"])
      && r.value.relevantText == KwGet(kw, "relevant_text", JString(""))
  {
    var latitude :- CoordinateOrZero(kw, "latitude", parseText);
    var longitude :- CoordinateOrZero(kw, "longitude", parseText);
    var altitude :- CoordinateOrZero(kw, "altitude", parseText);
    Success(Location(latitude, longitude, altitude,
                     KwOpt(kw, "distance"),
                     KwGet(kw, "relevant_text", JString(""))))
  }

  /** `location.json_dict()` */
  function LocationJson(l: Location): Json {
    JObject([("latitude", JFloat(l.latitude)), ("longitude", JFloat(l.longitude)),
             ("altitude", JFloat(l.altitude))]
            + OptMember("distance", l.distance)
            + [("relevantText", l.relevantText)])
  }

  /** The three coordinates come first, then `distance` exactly when it was
      given, then `relevantText`. */
  lemma NewLocationLayout(kw: Kwargs, parseText: string -> Option<real>)
    requires NewLocation(kw, parseText).Success?
    ensures ObjectKeys(LocationJson(NewLocation(kw, parseText).value))
         == ["latitude", "longitude", "altitude"]
            + (if "distance" in kw then ["distance"] else []) + ["relevantText"]
  {
    var l := NewLocation(kw, parseText).value;
    var c := [("latitude", JFloat(l.latitude)), ("longitude", JFloat(l.longitude)),
              ("altitude", JFloat(l.altitude))];
    KeysAppend(c, OptMember("distance", l.distance));
    KeysAppend(c + OptMember("distance", l.distance), [("relevantText", l.relevantText)]);
  }

  /** An int latitude past the double range raises, since the constructor
      catches no `OverflowError`. */
  lemma HugeLatitudeRaises(parseText: string -> Option<real>)
    ensures NewLocation(map["latitude" := JInt(FloatOverflowBound)], parseText) == Failure(FloatOverflow)
  {
    assert Overflows(map["latitude" := JInt(FloatOverflowBound)], "latitude");
  }
}
