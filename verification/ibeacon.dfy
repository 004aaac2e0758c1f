/** Bluetooth beacons near which a pass is relevant (wallet/PassProps/IBeacon.py). */
module IBeacons {
  import opened Wrappers
  import opened Errors
  import opened OrderedMaps
  import opened Values

  datatype IBeacon = IBeacon(proximityUUID: Json, major: Json, minor: Json, relevantText: Json)

  /** `IBeacon(**kw)`: `proximity_uuid`, `major` and `minor` are required, in that order. */
  function NewIBeacon(kw: Kwargs): (r: Result<IBeacon, Error>)
    ensures "proximity_uuid" !in kw ==> r == Failure(MissingArgument("proximity_uuid"))
    ensures "proximity_uuid" in kw && "major" !in kw ==> r == Failure(MissingArgument("major"))
    ensures ("proximity_uuid" in kw && "major" in kw && "minor" !in kw) ==>
      r == Failure(MissingArgument("minor"))
    ensures r.Success? <==> "proximity_uuid" in kw && "major" in kw && "minor" in kw
    ensures r.Success? ==>
      && r.value.proximityUUID == kw["proximity_uuid"]
      && r.value.major == kw["major"]
      && r.value.minor == kw["minor"]
      && r.value.relevantText == KwGet(kw, "relevant_text", JString(""))
  {
    if "proximity_uuid" !in kw then Failure(MissingArgument("proximity_uuid"))
    else if "major" !in kw then Failure(MissingArgument("major"))
    else if "minor" !in kw then Failure(MissingArgument("minor"))
    else Success(IBeacon(kw["proximity_uuid"], kw["major"], kw["minor"],
                         KwGet(kw, "relevant_text", JString(""))))
  }

  /** `ibeacon.json_dict()` */
  function IBeaconJson(b: IBeacon): Json {
    JObject([("proximityUUID", b.proximityUUID), ("major", b.major), ("minor", b.minor),
             ("relevantText", b.relevantText)])
  }

  /** The emitted beacon holds the arguments unchanged under its four keys. */
  lemma NewIBeaconLayout(kw: Kwargs)
    requires NewIBeacon(kw).Success?
    ensures var j := IBeaconJson(NewIBeacon(kw).value);
      && ObjectKeys(j) == ["proximityUUID", "major", "minor", "relevantText"]
      && Member(j, "proximityUUID") == Some(kw["proximity_uuid"])
      && Member(j, "major") == Some(kw["major"])
      && Member(j, "minor") == Some(kw["minor"])
      && Member(j, "relevantText") == Some(KwGet(kw, "relevant_text", JString("")))
  {
    var m := IBeaconJson(NewIBeacon(kw).value).members;
    assert Keys(m) == ["proximityUUID", "major", "minor", "relevantText"];
    GetAt(m, 0);
    GetAt(m, 1);
    GetAt(m, 2);
    GetAt(m, 3);
  }
}
