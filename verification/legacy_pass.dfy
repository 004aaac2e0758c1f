/** The legacy `PassInformation.json_dict` and `Pass.json_dict`
    (wallet/models.py): the same documents as the current version, but
    checked by `field_checks` while they are built, and without the
    location bound and the required-field check. */
module LegacyPasses {
  import opened Wrappers
  import opened Errors
  import opened OrderedMaps
  import opened Values
  import opened Fields
  import opened Barcodes
  import opened PassStyles
  import opened PassInfo
  import opened BoardingPasses
  import opened Passes
  import opened PassDocument
  import opened LegacyChecks
  import opened Bundles

  // ---------------------------------------------------------------------
  // PassInformation.json_dict

  /** `field_checks(what, field_data)` for one group. */
  function GroupError(pi: PassInformation, g: Group, isDate: string -> bool): Option<Error> {
    FieldChecks(GroupName(g), JArray(FieldsJson(GroupFields(pi, g))), isDate)
  }

  /** The group loop: check a group's serialised list, then store it. */
  function LegacyGroups(pi: PassInformation, d: OMap<string, Json>, gs: seq<Group>,
                        isDate: string -> bool): Result<OMap<string, Json>, Error>
    decreases |gs|
  {
    if |gs| == 0 then Success(d)
    else match GroupError(pi, gs[0], isDate)
      case Some(e) => Failure(e)
      case None => LegacyGroups(pi, Put(d, GroupName(gs[0]), JArray(FieldsJson(GroupFields(pi, gs[0])))),
                                gs[1..], isDate)
  }

  /** The legacy `json_dict` of a style: the checked groups, and for a
      boarding pass the transit type after them. */
  function LegacyInfoJson(pi: PassInformation, isDate: string -> bool): Result<Json, Error> {
    var d :- LegacyGroups(pi, [], GroupOrder, isDate);
    match pi.style
    case BoardingPass(t) => Success(JObject(Put(d, "transitType", JString(TransitTypeName(t)))))
    case _ => Success(JObject(d))
  }

  /** The first group of `gs` whose check fails. */
  function FirstGroupError(pi: PassInformation, gs: seq<Group>, isDate: string -> bool): Option<Error>
    decreases |gs|
  {
    if |gs| == 0 then None
    else if GroupError(pi, gs[0], isDate).Some? then GroupError(pi, gs[0], isDate)
    else FirstGroupError(pi, gs[1..], isDate)
  }

  function GroupEntries(pi: PassInformation, gs: seq<Group>): OMap<string, Json> {
    seq(|gs|, i requires 0 <= i < |gs| => GroupEntry(pi, gs[i]))
  }

  /** The loop stops at the first failing group; otherwise it has assigned
      every group's entry in turn. */
  lemma {:induction false} LegacyGroupsSpec(pi: PassInformation, d: OMap<string, Json>, gs: seq<Group>,
                                            isDate: string -> bool)
    ensures LegacyGroups(pi, d, gs, isDate)
         == match FirstGroupError(pi, gs, isDate)
            case Some(e) => Failure(e)
            case None => Success(PutAll(d, GroupEntries(pi, gs)))
    decreases |gs|
  {
    if |gs| > 0 {
      var e := GroupEntries(pi, gs);
      assert e[0] == GroupEntry(pi, gs[0]);
      assert e[1..] == GroupEntries(pi, gs[1..]);
      LegacyGroupsSpec(pi, Put(d, GroupName(gs[0]), JArray(FieldsJson(GroupFields(pi, gs[0])))), gs[1..], isDate);
    }
  }

  /** Assigning the five entries to an empty dictionary gives the current
      version's group map. */
  lemma GroupEntriesAreGroupsJson(pi: PassInformation)
    ensures PutAll([], GroupEntries(pi, GroupOrder)) == GroupsJson(pi)
  {
    var e := GroupEntries(pi, GroupOrder);
    assert e == GroupsJson(pi);
    GroupsJsonUnique(pi);
    PutAllFresh([], e);
  }

  /** The back group passes whatever it holds, so the groups are checked in
      the order header, primary, secondary, auxiliary. */
  lemma LegacyGroupOrder(pi: PassInformation, isDate: string -> bool)
    ensures FirstGroupError(pi, GroupOrder, isDate)
         == if GroupError(pi, Header, isDate).Some? then GroupError(pi, Header, isDate)
            else if GroupError(pi, Primary, isDate).Some? then GroupError(pi, Primary, isDate)
            else if GroupError(pi, Secondary, isDate).Some? then GroupError(pi, Secondary, isDate)
            else GroupError(pi, Auxiliary, isDate)
  {
    var gs := GroupOrder;
    assert gs[1..] == [Primary, Secondary, Back, Auxiliary];
    assert gs[1..][1..] == [Secondary, Back, Auxiliary];
    assert gs[1..][1..][1..] == [Back, Auxiliary];
    BackGroupPasses(pi, [Back, Auxiliary], isDate);
  }

  lemma BackGroupPasses(pi: PassInformation, gs: seq<Group>, isDate: string -> bool)
    requires |gs| == 2 && gs[0] == Back
    ensures FirstGroupError(pi, gs, isDate) == GroupError(pi, gs[1], isDate)
  {
    BackFieldsUnchecked(JArray(FieldsJson(GroupFields(pi, Back))), isDate);
    assert GroupError(pi, gs[0], isDate) == None;
    assert FirstGroupError(pi, gs, isDate) == FirstGroupError(pi, gs[1..], isDate);
    assert FirstGroupError(pi, gs[1..][1..], isDate) == None;
  }

  /** A group's check in terms of its fields: more than three header fields
      are refused outright; otherwise the first field failing its date check
      decides; the back group is never refused. */
  lemma GroupErrorOfFields(pi: PassInformation, g: Group, isDate: string -> bool)
    ensures GroupError(pi, g, isDate)
         == if g == Back then None
            else if g == Header && |GroupFields(pi, g)| > 3 then Some(PassParameter(TooManyHeaderFields))
            else FirstFieldError(GroupFields(pi, g), isDate)
  {
    match g
    case Header => HeaderCheck(GroupFields(pi, g), isDate);
    case Primary => BodyGroupCheck(GroupName(g), GroupFields(pi, g), isDate);
    case Secondary => BodyGroupCheck(GroupName(g), GroupFields(pi, g), isDate);
    case Auxiliary => BodyGroupCheck(GroupName(g), GroupFields(pi, g), isDate);
    case Back => BackFieldsUnchecked(JArray(FieldsJson(GroupFields(pi, g))), isDate);
  }

  /** The legacy style `json_dict` refuses with the first failing group's
      error, in the order header, primary, secondary, auxiliary; when it
      succeeds its document is the current version's. */
  lemma LegacyInfoVerdict(pi: PassInformation, isDate: string -> bool)
    ensures LegacyInfoJson(pi, isDate).Success?
        <==> GroupError(pi, Header, isDate).None? && GroupError(pi, Primary, isDate).None?
             && GroupError(pi, Secondary, isDate).None? && GroupError(pi, Auxiliary, isDate).None?
    ensures LegacyInfoJson(pi, isDate).Failure? ==>
      LegacyInfoJson(pi, isDate).error == FirstGroupError(pi, GroupOrder, isDate).value
    ensures LegacyInfoJson(pi, isDate).Success? ==> LegacyInfoJson(pi, isDate).value == InfoJson(pi)
  {
    LegacyGroupsSpec(pi, [], GroupOrder, isDate);
    LegacyGroupOrder(pi, isDate);
    GroupEntriesAreGroupsJson(pi);
  }

  // ---------------------------------------------------------------------
  // Pass.json_dict

  /** The names the legacy simple-field loop visits. Two pairs of adjacent
      literals fuse: "suppressStripShinerelevantDate" and
      "locationsibeacons" name no attribute, and `barcodes` is in the list. */
  const LegacyFields: seq<string> := [
    "description", "formatVersion", "organizationName", "passTypeIdentifier",
    "serialNumber", "teamIdentifier", "suppressStripShinerelevantDate",
    "backgroundColor", "foregroundColor", "labelColor", "logoText", "locationsibeacons",
    "userInfo", "voided", "associatedStoreIdentifiers", "appLaunchURL",
    "exprirationDate", "webServiceURL", "authenticationToken", "barcodes"]

  /** The legacy simple-field loop: a shown attribute is passed to
      `field_checks` before it is stored. */
  function LegacyEmit(d: OMap<string, Json>, getattr: string -> Option<Json>, names: seq<string>,
                      isDate: string -> bool): Result<OMap<string, Json>, Error>
    decreases |names|
  {
    if |names| == 0 then Success(d)
    else if !Shown(getattr, names[0]) then LegacyEmit(d, getattr, names[1..], isDate)
    else match FieldChecks(names[0], getattr(names[0]).value, isDate)
      case Some(e) => Failure(e)
      case None => LegacyEmit(Put(d, names[0], getattr(names[0]).value), getattr, names[1..], isDate)
  }

  /** The first shown attribute of `names` that `field_checks` refuses. */
  function FirstCheckError(getattr: string -> Option<Json>, names: seq<string>,
                           isDate: string -> bool): Option<Error>
    decreases |names|
  {
    if |names| == 0 then None
    else if Shown(getattr, names[0]) && FieldChecks(names[0], getattr(names[0]).value, isDate).Some? then
      FieldChecks(names[0], getattr(names[0]).value, isDate)
    else FirstCheckError(getattr, names[1..], isDate)
  }

  /** The document before the attribute loop. */
  function LegacyStyleStage(p: Pass, info: Json): OMap<string, Json> {
    [(JsonName(p.passInformation.style), info)]
  }

  /** `data.update({'barcode': ...})` when a single barcode is set. */
  function LegacyBarcodeStage(p: Pass, d: OMap<string, Json>): OMap<string, Json> {
    if p.barcode.Some? then Put(d, "barcode", BarcodeJson(p.barcode.value)) else d
  }

  /** The legacy `pass.json_dict()`: the style's checked `json_dict`, the
      checked attribute loop, then the single barcode. */
  function LegacyJsonDict(p: Pass, isDate: string -> bool): Result<Json, Error> {
    LegacyDocument(p, LegacyFields, isDate)
  }

  /** The same steps for any attribute list, so that facts about them can
      be stated without unfolding `LegacyFields`. */
  function LegacyDocument(p: Pass, names: seq<string>, isDate: string -> bool): Result<Json, Error> {
    var info :- LegacyInfoJson(p.passInformation, isDate);
    var d :- LegacyEmit(LegacyStyleStage(p, info), Attrs(p), names, isDate);
    Success(JObject(LegacyBarcodeStage(p, d)))
  }

  /** The checked loop stores what the unchecked one does, unless a check
      refuses, and then it fails with the first refusal. */
  lemma {:induction false} LegacyEmitSpec(d: OMap<string, Json>, getattr: string -> Option<Json>,
                                          names: seq<string>, isDate: string -> bool)
    ensures LegacyEmit(d, getattr, names, isDate)
         == match FirstCheckError(getattr, names, isDate)
            case Some(e) => Failure(e)
            case None => Success(EmitTruthy(d, getattr, names))
    decreases |names|
  {
    if |names| > 0 {
      if Shown(getattr, names[0]) {
        LegacyEmitSpec(Put(d, names[0], getattr(names[0]).value), getattr, names[1..], isDate);
      } else {
        LegacyEmitSpec(d, getattr, names[1..], isDate);
      }
    }
  }

  /** A name `field_checks` passes whatever its data. */
  predicate Unchecked(name: string) {
    name != "webServiceURL" && name != "headerFields" && name != "primaryFields"
    && name != "secondaryFields" && name != "auxiliaryFields"
  }

  /** Among names holding no group name, only `webServiceURL` can refuse,
      and only when it is shown. */
  lemma {:induction false} OnlyWebServiceChecked(getattr: string -> Option<Json>, names: seq<string>,
                                                 isDate: string -> bool)
    requires forall i :: 0 <= i < |names| ==> Unchecked(names[i]) || names[i] == "webServiceURL"
    ensures FirstCheckError(getattr, names, isDate)
         == if "webServiceURL" in names && Shown(getattr, "webServiceURL") then
              FieldChecks("webServiceURL", getattr("webServiceURL").value, isDate)
            else None
    decreases |names|
  {
    if |names| > 0 {
      assert names == [names[0]] + names[1..];
      if names[0] != "webServiceURL" {
        OtherNamesUnchecked(names[0], if getattr(names[0]).Some? then getattr(names[0]).value else JNull, isDate);
      }
      OnlyWebServiceChecked(getattr, names[1..], isDate);
    }
  }

  // ---------------------------------------------------------------------
  // The document.

  /** What the document lemmas need of the attribute list. */
  predicate LegacyNamesFit(p: Pass, names: seq<string>) {
    && Distinct(names)
    && JsonName(p.passInformation.style) !in names
    && "barcode" !in names
    && "webServiceURL" in names
    && (forall i :: 0 <= i < |names| ==> Unchecked(names[i]) || names[i] == "webServiceURL")
  }

  /** The attribute loop fails exactly when `webServiceURL` is truthy and
      is not an `https://` string. */
  lemma LegacyWebServiceVerdict(p: Pass, names: seq<string>, d: OMap<string, Json>, isDate: string -> bool)
    requires LegacyNamesFit(p, names)
    ensures !Truthy(p.webServiceURL) ==> LegacyEmit(d, Attrs(p), names, isDate) == Success(EmitTruthy(d, Attrs(p), names))
    ensures Truthy(p.webServiceURL) && !p.webServiceURL.JString? ==>
      LegacyEmit(d, Attrs(p), names, isDate) == Failure(WrongType)
    ensures Truthy(p.webServiceURL) && p.webServiceURL.JString? && !(HttpsPrefix <= p.webServiceURL.s) ==>
      LegacyEmit(d, Attrs(p), names, isDate) == Failure(PassParameter(InsecureWebService))
    ensures Truthy(p.webServiceURL) && p.webServiceURL.JString? && HttpsPrefix <= p.webServiceURL.s ==>
      LegacyEmit(d, Attrs(p), names, isDate) == Success(EmitTruthy(d, Attrs(p), names))
  {
    LegacyEmitSpec(d, Attrs(p), names, isDate);
    OnlyWebServiceChecked(Attrs(p), names, isDate);
    WebServiceAttr(p);
    WebServiceCheck(p.webServiceURL, isDate);
  }

  lemma WebServiceAttr(p: Pass)
    ensures Attrs(p)("webServiceURL") == Some(p.webServiceURL)
  {
  }

  /** `json_dict` refuses with the style's first group error, then with the
      web service check; nothing else is checked. On success the document
      holds the current version's style dictionary, the shown attributes
      and the single barcode. */
  lemma LegacyDocumentVerdict(p: Pass, names: seq<string>, isDate: string -> bool)
    requires LegacyNamesFit(p, names)
    ensures LegacyInfoJson(p.passInformation, isDate).Failure? ==>
      LegacyDocument(p, names, isDate) == Failure(LegacyInfoJson(p.passInformation, isDate).error)
    ensures LegacyInfoJson(p.passInformation, isDate).Success? && Truthy(p.webServiceURL)
            && !p.webServiceURL.JString?
            ==> LegacyDocument(p, names, isDate) == Failure(WrongType)
    ensures LegacyInfoJson(p.passInformation, isDate).Success? && Truthy(p.webServiceURL)
            && p.webServiceURL.JString? && !(HttpsPrefix <= p.webServiceURL.s)
            ==> LegacyDocument(p, names, isDate) == Failure(PassParameter(InsecureWebService))
    ensures LegacyDocument(p, names, isDate).Success?
        <==> LegacyInfoJson(p.passInformation, isDate).Success?
             && (!Truthy(p.webServiceURL) || (p.webServiceURL.JString? && HttpsPrefix <= p.webServiceURL.s))
    ensures LegacyDocument(p, names, isDate).Success? ==>
      LegacyDocument(p, names, isDate).value
      == JObject(LegacyBarcodeStage(p, EmitTruthy(LegacyStyleStage(p, InfoJson(p.passInformation)), Attrs(p), names)))
  {
    LegacyInfoVerdict(p.passInformation, isDate);
    LegacyWebServiceVerdict(p, names, LegacyStyleStage(p, InfoJson(p.passInformation)), isDate);
  }

  /** The keys of the legacy document: the style's name, the shown
      attributes in list order, then `barcode` when one is set. */
  lemma LegacyDocumentKeys(p: Pass, names: seq<string>, isDate: string -> bool)
    requires LegacyNamesFit(p, names)
    requires LegacyDocument(p, names, isDate).Success?
    ensures LegacyDocument(p, names, isDate).value.JObject?
    ensures Keys(LegacyDocument(p, names, isDate).value.members)
         == [JsonName(p.passInformation.style)] + Emitted(Attrs(p), names)
            + (if p.barcode.Some? then ["barcode"] else [])
    ensures UniqueKeys(LegacyDocument(p, names, isDate).value.members)
  {
    LegacyDocumentVerdict(p, names, isDate);
    var pre := LegacyStyleStage(p, InfoJson(p.passInformation));
    var b := if p.barcode.Some? then Some(BarcodeJson(p.barcode.value)) else None;
    LegacyBarcodeStageIs(p, EmitTruthy(pre, Attrs(p), names), b);
    StagedKeys(pre, JsonName(p.passInformation.style), Attrs(p), names, b);
  }

  /** The single-barcode step as an optional assignment. */
  lemma LegacyBarcodeStageIs(p: Pass, d: OMap<string, Json>, b: Option<Json>)
    requires b == if p.barcode.Some? then Some(BarcodeJson(p.barcode.value)) else None
    ensures LegacyBarcodeStage(p, d) == if b.Some? then Put(d, "barcode", b.value) else d
  {
  }

  /** The keys after the style entry, the attribute loop and an optional
      `barcode` assignment, for any attribute lookup. */
  lemma StagedKeys(pre: OMap<string, Json>, style: string, getattr: string -> Option<Json>,
                   names: seq<string>, b: Option<Json>)
    requires Keys(pre) == [style]
    requires Distinct(names) && style !in names && "barcode" !in names && style != "barcode"
    ensures var d := EmitTruthy(pre, getattr, names);
      var r := if b.Some? then Put(d, "barcode", b.value) else d;
      Keys(r) == [style] + Emitted(getattr, names) + (if b.Some? then ["barcode"] else [])
      && UniqueKeys(r)
  {
    EmitTruthyKeys(pre, getattr, names);
    var d := EmitTruthy(pre, getattr, names);
    var a := Emitted(getattr, names);
    EmittedDistinct(getattr, names);
    EmittedMembers(getattr, names, style);
    EmittedMembers(getattr, names, "barcode");
    DistinctAppend([style], a);
    if b.Some? {
      KeysOfPut(d, "barcode", b.value);
      DistinctAppend(Keys(d), ["barcode"]);
    }
  }

  /** Each key holds the style dictionary, the attribute of that name, or
      the single barcode's dictionary. */
  lemma LegacyDocumentValues(p: Pass, names: seq<string>, isDate: string -> bool, k: string)
    requires LegacyNamesFit(p, names)
    requires LegacyDocument(p, names, isDate).Success?
    ensures LegacyDocument(p, names, isDate).value.JObject?
    ensures Get(LegacyDocument(p, names, isDate).value.members, k)
         == if k == JsonName(p.passInformation.style) then Some(InfoJson(p.passInformation))
            else if k in names && Shown(Attrs(p), k) then Attr(p, k)
            else if k == "barcode" && p.barcode.Some? then Some(BarcodeJson(p.barcode.value))
            else None
  {
    LegacyDocumentVerdict(p, names, isDate);
    var pre := LegacyStyleStage(p, InfoJson(p.passInformation));
    var b := if p.barcode.Some? then Some(BarcodeJson(p.barcode.value)) else None;
    LegacyBarcodeStageIs(p, EmitTruthy(pre, Attrs(p), names), b);
    StagedValues(JsonName(p.passInformation.style), InfoJson(p.passInformation), Attrs(p), names, b, k);
    assert Attrs(p)(k) == Attr(p, k);
  }

  /** The values after the same three steps. */
  lemma StagedValues(style: string, info: Json, getattr: string -> Option<Json>,
                     names: seq<string>, b: Option<Json>, k: string)
    requires style !in names && "barcode" !in names && style != "barcode"
    ensures var d := EmitTruthy([(style, info)], getattr, names);
      var r := if b.Some? then Put(d, "barcode", b.value) else d;
      Get(r, k) == if k == style then Some(info)
                   else if k in names && Shown(getattr, k) then getattr(k)
                   else if k == "barcode" && b.Some? then b
                   else None
  {
    var pre: OMap<string, Json> := [(style, info)];
    var d := EmitTruthy(pre, getattr, names);
    EmitTruthyGet(pre, getattr, names, k);
    EmittedMembers(getattr, names, k);
    if b.Some? {
      GetPut(d, "barcode", b.value, k);
    }
  }

  /** A name the document leaves out: an attribute the list does not name
      is never a key. */
  lemma LegacyAbsentKey(p: Pass, names: seq<string>, isDate: string -> bool, x: string)
    requires LegacyNamesFit(p, names)
    requires LegacyDocument(p, names, isDate).Success?
    requires x != JsonName(p.passInformation.style) && x != "barcode" && x !in names
    ensures LegacyDocument(p, names, isDate).value.JObject?
    ensures x !in Keys(LegacyDocument(p, names, isDate).value.members)
  {
    LegacyDocumentKeys(p, names, isDate);
    EmittedMembers(Attrs(p), names, x);
  }

  /** `barcodes` is listed, so it is a key exactly when the list is
      non-empty, and then it holds the serialised list. */
  lemma LegacyBarcodesAssembled(p: Pass, names: seq<string>, isDate: string -> bool)
    requires LegacyNamesFit(p, names)
    requires LegacyDocument(p, names, isDate).Success?
    requires "barcodes" in names
    ensures LegacyDocument(p, names, isDate).value.JObject?
    ensures "barcodes" in Keys(LegacyDocument(p, names, isDate).value.members) <==> |p.barcodes| > 0
    ensures |p.barcodes| > 0 ==>
      Get(LegacyDocument(p, names, isDate).value.members, "barcodes") == Some(JArray(BarcodesJson(p.barcodes)))
  {
    BarcodesShown(p);
    LegacyDocumentKeys(p, names, isDate);
    EmittedMembers(Attrs(p), names, "barcodes");
    LegacyDocumentValues(p, names, isDate, "barcodes");
  }

  // ---------------------------------------------------------------------
  // The facts about the actual list.

  lemma LegacyFieldsDistinct()
    ensures Distinct(LegacyFields)
  {
    LegacyFieldsLowDistinct();
    LegacyFieldsHighDistinct();
    LegacyFieldsHalvesApart();
  }

  lemma LegacyFieldsLowDistinct()
    ensures forall i, j :: 0 <= i < j < 10 ==> LegacyFields[i] != LegacyFields[j]
  {
  }

  lemma LegacyFieldsHighDistinct()
    ensures forall i, j :: 10 <= i < j < 20 ==> LegacyFields[i] != LegacyFields[j]
  {
  }

  lemma LegacyFieldsHalvesApart()
    ensures forall i, j :: 0 <= i < 10 <= j < 20 ==> LegacyFields[i] != LegacyFields[j]
  {
  }

  lemma LegacyGenericApart() ensures "generic" !in LegacyFields {}
  lemma LegacyStoreCardApart() ensures "storeCard" !in LegacyFields {}
  lemma LegacyCouponApart() ensures "coupon" !in LegacyFields {}
  lemma LegacyEventTicketApart() ensures "eventTicket" !in LegacyFields {}
  lemma LegacyBoardingPassApart() ensures "boardingPass" !in LegacyFields {}

  lemma LegacyStyleNameApart(s: Style)
    ensures JsonName(s) !in LegacyFields
  {
    match s
    case Generic => LegacyGenericApart();
    case StoreCard => LegacyStoreCardApart();
    case Coupon => LegacyCouponApart();
    case EventTicket => LegacyEventTicketApart();
    case BoardingPass(_) => LegacyBoardingPassApart();
  }

  lemma SuppressStripShineUnlisted() ensures "suppressStripShine" !in LegacyFields {}
  lemma RelevantDateUnlisted() ensures "relevantDate" !in LegacyFields {}
  lemma LocationsUnlisted() ensures "locations" !in LegacyFields {}
  lemma IBeaconsUnlisted() ensures "ibeacons" !in LegacyFields {}

  lemma LegacyFieldsUnchecked()
    ensures forall i :: 0 <= i < |LegacyFields| ==> Unchecked(LegacyFields[i]) || LegacyFields[i] == "webServiceURL"
  {
  }

  lemma LegacyFieldsFit(p: Pass)
    ensures LegacyNamesFit(p, LegacyFields)
  {
    LegacyFieldsDistinct();
    LegacyStyleNameApart(p.passInformation.style);
    LegacyFieldsUnchecked();
    assert "barcode" !in LegacyFields;
    assert LegacyFields[17] == "webServiceURL";
  }

  // ---------------------------------------------------------------------
  // The legacy pass document.

  /** The legacy `json_dict` refuses the style's first failing group, then
      a truthy `webServiceURL` that is not a string (`WrongType`) or does not
      start with `https://`; it checks no required field and no location
      count. */
  lemma LegacyJsonDictVerdict(p: Pass, isDate: string -> bool)
    ensures LegacyInfoJson(p.passInformation, isDate).Failure? ==>
      LegacyJsonDict(p, isDate) == Failure(LegacyInfoJson(p.passInformation, isDate).error)
    ensures LegacyInfoJson(p.passInformation, isDate).Success? && Truthy(p.webServiceURL)
            && !p.webServiceURL.JString?
            ==> LegacyJsonDict(p, isDate) == Failure(WrongType)
    ensures LegacyInfoJson(p.passInformation, isDate).Success? && Truthy(p.webServiceURL)
            && p.webServiceURL.JString? && !(HttpsPrefix <= p.webServiceURL.s)
            ==> LegacyJsonDict(p, isDate) == Failure(PassParameter(InsecureWebService))
    ensures LegacyJsonDict(p, isDate).Success?
        <==> LegacyInfoJson(p.passInformation, isDate).Success?
             && (!Truthy(p.webServiceURL) || (p.webServiceURL.JString? && HttpsPrefix <= p.webServiceURL.s))
    ensures LegacyJsonDict(p, isDate).Success? ==>
      LegacyJsonDict(p, isDate).value
      == JObject(LegacyBarcodeStage(p, EmitTruthy(LegacyStyleStage(p, InfoJson(p.passInformation)), Attrs(p), LegacyFields)))
  {
    LegacyFieldsFit(p);
    LegacyDocumentVerdict(p, LegacyFields, isDate);
  }

  /** The keys of the legacy `pass.json`, in order, none twice. */
  lemma LegacyJsonDictKeys(p: Pass, isDate: string -> bool)
    requires LegacyJsonDict(p, isDate).Success?
    ensures LegacyJsonDict(p, isDate).value.JObject?
    ensures Keys(LegacyJsonDict(p, isDate).value.members)
         == [JsonName(p.passInformation.style)] + Emitted(Attrs(p), LegacyFields)
            + (if p.barcode.Some? then ["barcode"] else [])
    ensures UniqueKeys(LegacyJsonDict(p, isDate).value.members)
  {
    LegacyFieldsFit(p);
    LegacyDocumentKeys(p, LegacyFields, isDate);
  }

  /** The fused names hide `suppressStripShine`, `relevantDate`,
      `locations` and `ibeacons`: none of them is ever a key. */
  lemma LegacyDroppedAttributes(p: Pass, isDate: string -> bool)
    requires LegacyJsonDict(p, isDate).Success?
    ensures LegacyJsonDict(p, isDate).value.JObject?
    ensures var keys := Keys(LegacyJsonDict(p, isDate).value.members);
      "suppressStripShine" !in keys && "relevantDate" !in keys
      && "locations" !in keys && "ibeacons" !in keys
  {
    LegacyFieldsFit(p);
    SuppressStripShineUnlisted();
    RelevantDateUnlisted();
    LocationsUnlisted();
    IBeaconsUnlisted();
    LegacyAbsentKey(p, LegacyFields, isDate, "suppressStripShine");
    LegacyAbsentKey(p, LegacyFields, isDate, "relevantDate");
    LegacyAbsentKey(p, LegacyFields, isDate, "locations");
    LegacyAbsentKey(p, LegacyFields, isDate, "ibeacons");
  }

  /** A key of the legacy document holds the style's groups, a truthy
      listed attribute, or the single `barcode`; nothing else is a key. */
  lemma LegacyJsonDictValues(p: Pass, isDate: string -> bool, k: string)
    requires LegacyJsonDict(p, isDate).Success?
    ensures LegacyJsonDict(p, isDate).value.JObject?
    ensures Get(LegacyJsonDict(p, isDate).value.members, k)
         == if k == JsonName(p.passInformation.style) then Some(InfoJson(p.passInformation))
            else if k in LegacyFields && Shown(Attrs(p), k) then Attr(p, k)
            else if k == "barcode" && p.barcode.Some? then Some(BarcodeJson(p.barcode.value))
            else None
  {
    LegacyFieldsFit(p);
    LegacyDocumentValues(p, LegacyFields, isDate, k);
  }

  /** `barcodes` appears exactly when the list is non-empty. */
  lemma LegacyBarcodesInDocument(p: Pass, isDate: string -> bool)
    requires LegacyJsonDict(p, isDate).Success?
    ensures LegacyJsonDict(p, isDate).value.JObject?
    ensures "barcodes" in Keys(LegacyJsonDict(p, isDate).value.members) <==> |p.barcodes| > 0
    ensures |p.barcodes| > 0 ==>
      Get(LegacyJsonDict(p, isDate).value.members, "barcodes") == Some(JArray(BarcodesJson(p.barcodes)))
  {
    LegacyFieldsFit(p);
    assert LegacyFields[19] == "barcodes";
    LegacyBarcodesAssembled(p, LegacyFields, isDate);
  }

  /** A freshly constructed pass has no web service URL, so the legacy
      `json_dict` accepts it whenever its style's groups pass, although
      its description is empty. */
  lemma FreshLegacyPassAccepted(kw: Kwargs, pi: PassInformation, isDate: string -> bool)
    requires NewPass(kw, Some(pi)).Success?
    ensures LegacyJsonDict(NewPass(kw, Some(pi)).value, isDate).Success?
        <==> LegacyInfoJson(pi, isDate).Success?
  {
    LegacyJsonDictVerdict(NewPass(kw, Some(pi)).value, isDate);
  }

  /** The legacy `Pass.create` (wallet/models.py): the same manifest,
      signature and archive steps as the current version, over the legacy
      `json_dict`. */
  function LegacyCreate(p: Pass, isDate: string -> bool, certificate: string, key: string,
                        wwdrCertificate: string, password: string, render: Json -> Bytes,
                        sha1: Bytes -> string, signer: (seq<string>, Bytes) -> ProcessResult): Created
  {
    CreateFrom(p, LegacyJsonDict(p, isDate), certificate, key, wwdrCertificate, password, render, sha1, signer)
  }

  /** The legacy `create` stops with the legacy `json_dict`'s exception
      (a pass unchanged), and otherwise records the manifest of the legacy
      document before signing. */
  lemma LegacyCreateRefusals(p: Pass, isDate: string -> bool, certificate: string, key: string,
                             wwdrCertificate: string, password: string, render: Json -> Bytes,
                             sha1: Bytes -> string, signer: (seq<string>, Bytes) -> ProcessResult)
    ensures LegacyJsonDict(p, isDate).Failure? ==>
      LegacyCreate(p, isDate, certificate, key, wwdrCertificate, password, render, sha1, signer)
      == Created(p, Failure(LegacyJsonDict(p, isDate).error))
    ensures LegacyJsonDict(p, isDate).Success? ==>
      LegacyCreate(p, isDate, certificate, key, wwdrCertificate, password, render, sha1, signer).pass.hashes
      == Manifest(p.hashes, render(LegacyJsonDict(p, isDate).value), p.files, sha1)
  {
    if LegacyJsonDict(p, isDate).Success? {
      CreatePipeline(p, LegacyJsonDict(p, isDate), certificate, key, wwdrCertificate, password, render, sha1, signer, signer);
    }
  }
}
