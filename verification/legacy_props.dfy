/** The value objects of the legacy module (wallet/models.py) where they
    differ from the current ones: the text field ignores
    `attributed_value`, and a location insists on all three coordinates. */
module LegacyProps {
  import opened Wrappers
  import opened Errors
  import opened OrderedMaps
  import opened Values
  import opened Fields
  import opened Locations
  import opened PassInfo

  /** The legacy `Field(**kw)`: `key` and `value` required, `label`
      defaulting to "", `changeMessage` set only when given, alignment
      looked up with left as the default; no `attributedValue`. */
  function LegacyNewField(kw: Kwargs): (r: Result<Field, Error>)
    ensures "key" !in kw ==> r == Failure(MissingArgument("key"))
    ensures "key" in kw && "value" !in kw ==> r == Failure(MissingArgument("value"))
    ensures r.Success? <==>
      "key" in kw && "value" in kw && Hashable(KwGet(kw, "text_alignment", JString("left")))
    ensures r.Success? ==>
      && r.value.key == kw["key"]
      && r.value.value == kw["value"]
      && r.value.labelText == KwGet(kw, "label", JString(""))
      && r.value.attributedValue == None
      && (r.value.changeMessage.Some? <==> "change_message" in kw)
      && (r.value.changeMessage.Some? ==> r.value.changeMessage.value == kw["change_message"])
      && AlignmentOf(KwGet(kw, "text_alignment", JString("left")), r.value.textAlignment)
      && r.value.kind == Text
  {
    if "key" !in kw then Failure(MissingArgument("key"))
    else if "value" !in kw then Failure(MissingArgument("value"))
    else
      var arg := KwGet(kw, "text_alignment", JString("left"));
      if !Hashable(arg) then Failure(Unhashable)
      else
        AlignmentLookup(arg);
        Success(Field(kw["key"], None, kw["value"], KwGet(kw, "label", JString("")),
                      KwOpt(kw, "change_message"), Lookup(AlignmentTable, arg, JNull).value, Text))
  }

  /** The legacy text field is the current one built without `attributed_value`. */
  lemma LegacyFieldIsCurrentWithoutAttributedValue(kw: Kwargs)
    ensures LegacyNewField(kw) == NewField(kw - {"attributed_value"})
  {
    var kw' := kw - {"attributed_value"};
    assert KwGet(kw', "text_alignment", JString("left")) == KwGet(kw, "text_alignment", JString("left"));
    assert KwGet(kw', "label", JString("")) == KwGet(kw, "label", JString(""));
    assert KwOpt(kw', "change_message") == KwOpt(kw, "change_message");
    assert KwOpt(kw', "attributed_value") == None;
  }

  /** The legacy `DateField(**kw)`. */
  function LegacyNewDateField(kw: Kwargs): (r: Result<Field, Error>)
    ensures LegacyNewField(kw).Failure? ==> r == Failure(LegacyNewField(kw).error)
    ensures r.Success? ==> r.value.kind.Date? && r.value.(kind := Text) == LegacyNewField(kw).value
  {
    var f :- LegacyNewField(kw);
    AsDateField(f, kw)
  }

  /** The legacy `NumberField(**kw)`. */
  function LegacyNewNumberField(kw: Kwargs, parseText: string -> Option<real>): (r: Result<Field, Error>)
    ensures LegacyNewField(kw).Failure? ==> r == Failure(LegacyNewField(kw).error)
    ensures r.Success? ==> r.value.kind.Number? && r.value.value.JFloat?
  {
    var f :- LegacyNewField(kw);
    AsNumberField(f, kw, parseText)
  }

  /** The legacy `CurrencyField(**kw)`. */
  function LegacyNewCurrencyField(kw: Kwargs, parseText: string -> Option<real>): (r: Result<Field, Error>)
    ensures LegacyNewField(kw).Failure? ==> r == Failure(LegacyNewField(kw).error)
    ensures r.Success? ==> r.value.kind.Currency? && r.value.value.JFloat?
  {
    var f :- LegacyNewField(kw);
    AsCurrencyField(f, kw, parseText)
  }

  /** The legacy variants behave as the current ones, without `attributed_value`. */
  lemma LegacyVariantsAreCurrent(kw: Kwargs, parseText: string -> Option<real>)
    ensures LegacyNewDateField(kw) == NewDateField(kw - {"attributed_value"})
    ensures LegacyNewNumberField(kw, parseText) == NewNumberField(kw - {"attributed_value"}, parseText)
    ensures LegacyNewCurrencyField(kw, parseText) == NewCurrencyField(kw - {"attributed_value"}, parseText)
  {
    var kw' := kw - {"attributed_value"};
    LegacyFieldIsCurrentWithoutAttributedValue(kw);
    if LegacyNewField(kw).Success? {
      var f := LegacyNewField(kw).value;
      assert AsDateField(f, kw) == AsDateField(f, kw') by {
        assert KwGet(kw', "date_style", JString("short")) == KwGet(kw, "date_style", JString("short"));
        assert KwGet(kw', "time_style", JString("short")) == KwGet(kw, "time_style", JString("short"));
        assert KwGet(kw', "is_relativ", JBool(false)) == KwGet(kw, "is_relativ", JBool(false));
      }
      assert AsNumberField(f, kw, parseText) == AsNumberField(f, kw', parseText) by {
        assert KwGet(kw', "number_style", JString("decimal")) == KwGet(kw, "number_style", JString("decimal"));
      }
      assert AsCurrencyField(f, kw, parseText) == AsCurrencyField(f, kw', parseText) by {
        assert ("currency_code" in kw') == ("currency_code" in kw);
        assert "currency_code" in kw ==> kw'["currency_code"] == kw["currency_code"];
      }
    }
  }

  /** The legacy `add_*_field(**kw)`: append a legacy text field. */
  function LegacyAddField(pi: PassInformation, g: Group, kw: Kwargs): (r: Result<PassInformation, Error>)
    ensures r.Success? <==> LegacyNewField(kw).Success?
    ensures r.Failure? ==> r.error == LegacyNewField(kw).error
    ensures r.Success? ==>
      && GroupFields(r.value, g) == GroupFields(pi, g) + [LegacyNewField(kw).value]
      && (forall g' :: g' != g ==> GroupFields(r.value, g') == GroupFields(pi, g'))
      && r.value.style == pi.style
  {
    var f :- LegacyNewField(kw);
    Success(Append(pi, g, f))
  }

  /** `float(kwargs[name])` in the legacy constructor: a missing name
      raises `KeyError`, a huge int `OverflowError`, and any other value
      `float()` refuses becomes 0.0. */
  function LegacyCoordinate(kw: Kwargs, name: string, parseText: string -> Option<real>): Result<real, Error> {
    if name !in kw then Failure(MissingArgument(name))
    else CoordinateOrZero(kw, name, parseText)
  }

  /** The coordinate `name` is given and `float()` does not overflow on it. */
  predicate LegacyCoordinateOk(kw: Kwargs, name: string) {
    name in kw && !TooLargeForFloat(kw[name])
  }

  /** The legacy `Location(**kw)`: the coordinates are converted in the
      order latitude, longitude, altitude, and the first that is missing
      raises `KeyError` and the first huge int `OverflowError`; a value
      `float()` otherwise refuses becomes 0.0; `distance` is always set. */
  function LegacyNewLocation(kw: Kwargs, parseText: string -> Option<real>): (r: Result<Location, Error>)
    ensures "latitude" !in kw ==> r == Failure(MissingArgument("latitude"))
    ensures Overflows(kw, "latitude") ==> r == Failure(FloatOverflow)
    ensures LegacyCoordinateOk(kw, "latitude") && "longitude" !in kw ==> r == Failure(MissingArgument("longitude"))
    ensures LegacyCoordinateOk(kw, "latitude") && Overflows(kw, "longitude") ==> r == Failure(FloatOverflow)
    ensures (LegacyCoordinateOk(kw, "latitude") && LegacyCoordinateOk(kw, "longitude")
             && "altitude" !in kw) ==> r == Failure(MissingArgument("altitude"))
    ensures (LegacyCoordinateOk(kw, "latitude") && LegacyCoordinateOk(kw, "longitude")
             && Overflows(kw, "altitude")) ==> r == Failure(FloatOverflow)
    ensures r.Success? <==>
      LegacyCoordinateOk(kw, "latitude") && LegacyCoordinateOk(kw, "longitude")
      && LegacyCoordinateOk(kw, "altitude")
    ensures r.Success? ==>
      && CoordinateFrom(kw, "latitude", parseText, r.value.latitude)
      && CoordinateFrom(kw, "longitude", parseText, r.value.longitude)
      && CoordinateFrom(kw, "altitude", parseText, r.value.altitude)
      && r.value.distance == Some(KwGet(kw, "distance", JNull))
      && r.value.relevantText == KwGet(kw, "relevant_text", JString(""))
  {
    var latitude :- LegacyCoordinate(kw, "latitude", parseText);
    var longitude :- LegacyCoordinate(kw, "longitude", parseText);
    var altitude :- LegacyCoordinate(kw, "altitude", parseText);
    Success(Location(latitude, longitude, altitude,
                     Some(KwGet(kw, "distance", JNull)),
                     KwGet(kw, "relevant_text", JString(""))))
  }

  /** Where the legacy location succeeds the current one does too and
      agrees with it, except that `distance` is present even when not given. */
  lemma LegacyLocationAgrees(kw: Kwargs, parseText: string -> Option<real>)
    requires LegacyNewLocation(kw, parseText).Success?
    ensures NewLocation(kw, parseText).Success?
    ensures LegacyNewLocation(kw, parseText).value
         == NewLocation(kw, parseText).value.(distance := Some(KwGet(kw, "distance", JNull)))
  {
  }

  /** The documented-optional altitude is in fact required: latitude and
      longitude alone raise, where the current location defaults it to 0.0. */
  lemma LegacyAltitudeRequired(parseText: string -> Option<real>)
    ensures var kw := map["latitude" := JFloat(1.0), "longitude" := JFloat(2.0)];
      && LegacyNewLocation(kw, parseText) == Failure(MissingArgument("altitude"))
      && NewLocation(kw, parseText).Success?
      && NewLocation(kw, parseText).value.altitude == 0.0
      && NewLocation(kw, parseText).value.latitude == 1.0
  {
    var kw := map["latitude" := JFloat(1.0), "longitude" := JFloat(2.0)];
    assert "altitude" !in kw;
  }
}
