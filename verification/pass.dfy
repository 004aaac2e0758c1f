/** A pass and its `pass.json` document (wallet/Pass.py). */
module Passes {
  import opened Wrappers
  import opened Errors
  import opened OrderedMaps
  import opened Values
  import opened Barcodes
  import opened Locations
  import opened IBeacons
  import opened PassStyles
  import opened PassInfo
  import opened BoardingPasses

  /** The attributes of a pass object. Attributes the caller may assign any
      value are `Json`; the lists hold the library's value objects. */
  datatype Pass = Pass(
    files: OMap<string, Bytes>,    // `_files`: asset name to contents
    hashes: OMap<string, string>,  // `_hashes`: kept across calls to `create`
    teamIdentifier: Json,
    passTypeIdentifier: Json,
    organizationName: Json,
    serialNumber: Json,
    description: Json,
    formatVersion: Json,
    backgroundColor: Json,
    foregroundColor: Json,
    labelColor: Json,
    logoText: Json,
    barcode: Option<Barcode>,
    barcodes: seq<Barcode>,
    suppressStripShine: Json,
    webServiceURL: Json,
    authenticationToken: Json,
    locations: seq<Location>,
    ibeacons: seq<IBeacon>,
    relevantDate: Json,
    associatedStoreIdentifiers: Json,
    appLaunchURL: Json,
    userInfo: Json,
    exprirationDate: Json,
    voided: Json,
    passInformation: PassInformation)

  /** `Pass(**kw)`. The field groups are an object, not a JSON value, so they
      are a separate argument; `None` stands for a missing `pass_information`. */
  function NewPass(kw: Kwargs, passInformation: Option<PassInformation>): (r: Result<Pass, Error>)
    ensures "team_identifier" !in kw ==> r == Failure(MissingArgument("team_identifier"))
    ensures "team_identifier" in kw && "pass_type_identifier" !in kw ==>
      r == Failure(MissingArgument("pass_type_identifier"))
    ensures ("team_identifier" in kw && "pass_type_identifier" in kw && "organization_name" !in kw) ==>
      r == Failure(MissingArgument("organization_name"))
    ensures ("team_identifier" in kw && "pass_type_identifier" in kw && "organization_name" in kw
             && passInformation.None?) ==> r == Failure(MissingArgument("pass_information"))
    ensures r.Success? <==>
      "team_identifier" in kw && "pass_type_identifier" in kw && "organization_name" in kw
      && passInformation.Some?
    ensures r.Success? ==>
      && r.value.teamIdentifier == kw["team_identifier"]
      && r.value.passTypeIdentifier == kw["pass_type_identifier"]
      && r.value.organizationName == kw["organization_name"]
      && r.value.passInformation == passInformation.value
      && r.value.files == [] && r.value.hashes == []
      && r.value.serialNumber == JString("") && r.value.description == JString("")
      && r.value.formatVersion == JInt(1)
      && r.value.suppressStripShine == JBool(false)
      && r.value.barcode == None && r.value.barcodes == []
      && r.value.locations == [] && r.value.ibeacons == []
      && r.value.webServiceURL == JNull && r.value.relevantDate == JNull
      && r.value.backgroundColor == JNull && r.value.foregroundColor == JNull
      && r.value.labelColor == JNull && r.value.logoText == JNull
      && r.value.authenticationToken == JNull && r.value.associatedStoreIdentifiers == JNull
      && r.value.appLaunchURL == JNull && r.value.userInfo == JNull
      && r.value.exprirationDate == JNull && r.value.voided == JNull
  {
    if "team_identifier" !in kw then Failure(MissingArgument("team_identifier"))
    else if "pass_type_identifier" !in kw then Failure(MissingArgument("pass_type_identifier"))
    else if "organization_name" !in kw then Failure(MissingArgument("organization_name"))
    else if passInformation.None? then Failure(MissingArgument("pass_information"))
    else
      Success(Pass(
        files := [], hashes := [],
        teamIdentifier := kw["team_identifier"],
        passTypeIdentifier := kw["pass_type_identifier"],
        organizationName := kw["organization_name"],
        serialNumber := JString(""), description := JString(""), formatVersion := JInt(1),
        backgroundColor := JNull, foregroundColor := JNull, labelColor := JNull, logoText := JNull,
        barcode := None, barcodes := [],
        suppressStripShine := JBool(false),
        webServiceURL := JNull, authenticationToken := JNull,
        locations := [], ibeacons := [], relevantDate := JNull,
        associatedStoreIdentifiers := JNull, appLaunchURL := JNull, userInfo := JNull,
        exprirationDate := JNull, voided := JNull,
        passInformation := passInformation.value))
  }

  /** `add_file(name, handle)`, with the handle's contents already read.
      A new name goes last; an existing name keeps its place and gets the
      new contents; nothing else about the pass changes. */
  function AddFile(p: Pass, name: string, contents: Bytes): (r: Pass)
    ensures Keys(r.files) == if name in Keys(p.files) then Keys(p.files) else Keys(p.files) + [name]
    ensures Get(r.files, name) == Some(contents)
    ensures forall n :: n != name ==> Get(r.files, n) == Get(p.files, n)
    ensures r.(files := p.files) == p
  {
    KeysOfPut(p.files, name, contents);
    forall n ensures Get(Put(p.files, name, contents), n) == if n == name then Some(contents) else Get(p.files, n) {
      GetPut(p.files, name, contents, n);
    }
    p.(files := Put(p.files, name, contents))
  }

  /** `passInformation.json_dict()`, dispatched on the style. */
  function InfoJson(pi: PassInformation): Json {
    match pi.style
    case BoardingPass(t) => BoardingPassJson(pi, t)
    case _ => JObject(GroupsJson(pi))
  }

  function BarcodesJson(bs: seq<Barcode>): seq<Json> {
    seq(|bs|, i requires 0 <= i < |bs| => BarcodeJson(bs[i]))
  }

  function LocationsJson(ls: seq<Location>): seq<Json> {
    seq(|ls|, i requires 0 <= i < |ls| => LocationJson(ls[i]))
  }

  function IBeaconsJson(bs: seq<IBeacon>): seq<Json> {
    seq(|bs|, i requires 0 <= i < |bs| => IBeaconJson(bs[i]))
  }

  /** `getattr(p, name)` when `hasattr(p, name)`, as `json.dumps` renders it;
      `None` for a name the pass has no attribute of. */
  function Attr(p: Pass, name: string): Option<Json> {
    if name == "description" then Some(p.description)
    else if name == "formatVersion" then Some(p.formatVersion)
    else if name == "organizationName" then Some(p.organizationName)
    else if name == "passTypeIdentifier" then Some(p.passTypeIdentifier)
    else if name == "serialNumber" then Some(p.serialNumber)
    else if name == "teamIdentifier" then Some(p.teamIdentifier)
    else if name == "suppressStripShine" then Some(p.suppressStripShine)
    else if name == "relevantDate" then Some(p.relevantDate)
    else if name == "backgroundColor" then Some(p.backgroundColor)
    else if name == "foregroundColor" then Some(p.foregroundColor)
    else if name == "labelColor" then Some(p.labelColor)
    else if name == "logoText" then Some(p.logoText)
    else if name == "barcodes" then Some(JArray(BarcodesJson(p.barcodes)))
    else if name == "locations" then Some(JArray(LocationsJson(p.locations)))
    else if name == "ibeacons" then Some(JArray(IBeaconsJson(p.ibeacons)))
    else if name == "userInfo" then Some(p.userInfo)
    else if name == "voided" then Some(p.voided)
    else if name == "associatedStoreIdentifiers" then Some(p.associatedStoreIdentifiers)
    else if name == "appLaunchURL" then Some(p.appLaunchURL)
    else if name == "exprirationDate" then Some(p.exprirationDate)
    else if name == "webServiceURL" then Some(p.webServiceURL)
    else if name == "authenticationToken" then Some(p.authenticationToken)
    else None
  }

  /** The attribute lookup of a pass, as the simple-field loop sees it. */
  function Attrs(p: Pass): string -> Option<Json> {
    name => Attr(p, name)
  }

  /** `hasattr(obj, name) and getattr(obj, name)` is truthy. */
  predicate Shown(getattr: string -> Option<Json>, name: string) {
    getattr(name).Some? && Truthy(getattr(name).value)
  }

  /** The names the simple-field loop visits. Two adjacent literals in the
      list fuse into "suppressStripShinerelevantDate", which names no
      attribute. */
  const SimpleFields: seq<string> := [
    "description", "formatVersion", "organizationName", "passTypeIdentifier",
    "serialNumber", "teamIdentifier", "suppressStripShinerelevantDate",
    "backgroundColor", "foregroundColor", "labelColor", "logoText", "ibeacons",
    "userInfo", "voided", "associatedStoreIdentifiers", "appLaunchURL",
    "exprirationDate", "webServiceURL", "authenticationToken"]

  /** The keys checked last; `organizationName` twice, `passTypeIdentifier` never. */
  const RequiredFields: seq<string> := [
    "description", "formatVersion", "organizationName", "organizationName",
    "serialNumber", "teamIdentifier"]

  /** `for field in names: if hasattr(obj, field) and getattr(obj, field): data[field] = ...` */
  function EmitTruthy(d: OMap<string, Json>, getattr: string -> Option<Json>, names: seq<string>): OMap<string, Json>
    decreases |names|
  {
    if |names| == 0 then d
    else
      var d' := if Shown(getattr, names[0]) then Put(d, names[0], getattr(names[0]).value) else d;
      EmitTruthy(d', getattr, names[1..])
  }

  /** The names of `names` whose attribute is shown, in order: the reference
      for what the simple-field loop emits. */
  function Emitted(getattr: string -> Option<Json>, names: seq<string>): seq<string> {
    if |names| == 0 then []
    else (if Shown(getattr, names[0]) then [names[0]] else []) + Emitted(getattr, names[1..])
  }

  /** `barcodes` and `locations`, each when its list is non-empty. */
  function ArrayKeys(p: Pass): seq<string> {
    (if |p.barcodes| > 0 then ["barcodes"] else [])
    + (if |p.locations| > 0 then ["locations"] else [])
  }

  /** The first name of `names` missing from `present`. */
  function FirstMissing(names: seq<string>, present: seq<string>): (r: Option<string>)
    ensures r.None? <==> forall n :: n in names ==> n in present
    ensures r.Some? ==> r.value in names && r.value !in present
  {
    if |names| == 0 then None
    else if names[0] !in present then Some(names[0])
    else
      assert names == [names[0]] + names[1..];
      FirstMissing(names[1..], present)
  }

  /** The first name of `names` whose attribute is not shown. */
  function FirstHidden(getattr: string -> Option<Json>, names: seq<string>): Option<string> {
    if |names| == 0 then None
    else if !Shown(getattr, names[0]) then Some(names[0])
    else FirstHidden(getattr, names[1..])
  }

  /** The document after the style key: `data[jsonname] = json_dict()`. */
  function StyleStage(p: Pass): OMap<string, Json> {
    [(JsonName(p.passInformation.style), InfoJson(p.passInformation))]
  }

  /** The stages below take the simple-field list as a parameter so that
      facts about them can be stated for any list; `JsonDict` passes
      `SimpleFields`. */
  function SimpleStage(p: Pass, names: seq<string>): OMap<string, Json> {
    EmitTruthy(StyleStage(p), Attrs(p), names)
  }

  function BarcodeStage(p: Pass, names: seq<string>): OMap<string, Json> {
    if |p.barcodes| > 0 then Put(SimpleStage(p, names), "barcodes", JArray(BarcodesJson(p.barcodes)))
    else SimpleStage(p, names)
  }

  function LocationStage(p: Pass, names: seq<string>): OMap<string, Json> {
    if |p.locations| > 0 then Put(BarcodeStage(p, names), "locations", JArray(LocationsJson(p.locations)))
    else BarcodeStage(p, names)
  }

  /** The document the checks of the last step see. */
  function Assembled(p: Pass, names: seq<string>): OMap<string, Json> {
    if |p.ibeacons| > 0 then Put(LocationStage(p, names), "ibeacons", JArray(IBeaconsJson(p.ibeacons)))
    else LocationStage(p, names)
  }

  /** `pass.json_dict()`: ten or more locations are rejected, then every
      required key must be in the document. */
  function JsonDict(p: Pass): Result<Json, Error> {
    if |p.locations| > 0 && |p.locations| >= 10 then
      Failure(PassParameter(TooManyLocations))
    else
      match FirstMissing(RequiredFields, Keys(Assembled(p, SimpleFields)))
      case Some(field) => Failure(PassParameter(MissingField(field)))
      case None => Success(JObject(Assembled(p, SimpleFields)))
  }
}
