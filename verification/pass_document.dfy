/** What `Pass.json_dict` (wallet/Pass.py) puts into `pass.json`, in which
    order, and when it refuses. */
module PassDocument {
  import opened Wrappers
  import opened Errors
  import opened OrderedMaps
  import opened Values
  import opened PassStyles
  import opened PassInfo
  import opened Passes

  // ---------------------------------------------------------------------
  // The simple-field loop, for any attribute lookup and any name list.

  /** The loop appends the shown names, in list order, after the keys
      already there. */
  lemma {:induction false} EmitTruthyKeys(d: OMap<string, Json>, getattr: string -> Option<Json>,
                                          names: seq<string>)
    requires Distinct(names)
    requires forall n :: n in names ==> n !in Keys(d)
    ensures Keys(EmitTruthy(d, getattr, names)) == Keys(d) + Emitted(getattr, names)
    decreases |names|
  {
    if |names| > 0 {
      var n0 := names[0];
      var rest := names[1..];
      DistinctTail(names);
      var shown := Shown(getattr, n0);
      var v := if shown then getattr(n0).value else JNull;
      EmitStepKeys(d, names, shown, v);
      var d' := if shown then Put(d, n0, v) else d;
      var e: seq<string> := if shown then [n0] else [];
      EmitTruthyKeys(d', getattr, rest);
      assert Keys(d) + e + Emitted(getattr, rest) == Keys(d) + (e + Emitted(getattr, rest));
    }
  }

  /** One step of the loop: the new key, if any, goes last and is not among
      the names still to come. */
  lemma EmitStepKeys(d: OMap<string, Json>, names: seq<string>, shown: bool, v: Json)
    requires |names| > 0 && names[0] !in names[1..]
    requires forall n :: n in names ==> n !in Keys(d)
    ensures Keys(if shown then Put(d, names[0], v) else d) == Keys(d) + (if shown then [names[0]] else [])
    ensures forall n :: n in names[1..] ==> n !in Keys(if shown then Put(d, names[0], v) else d)
  {
    var d' := if shown then Put(d, names[0], v) else d;
    if shown {
      assert names[0] in names;
      KeysOfPut(d, names[0], v);
    }
    forall n | n in names[1..] ensures n !in Keys(d') {
      assert n in names;
    }
  }

  lemma DistinctTail<T>(s: seq<T>)
    requires Distinct(s) && |s| > 0
    ensures Distinct(s[1..]) && s[0] !in s[1..]
  {
    var rest := s[1..];
    forall i, j | 0 <= i < j < |rest| ensures rest[i] != rest[j] {
      assert rest[i] == s[i + 1] && rest[j] == s[j + 1];
    }
    forall j | 0 <= j < |rest| ensures rest[j] != s[0] {
      assert rest[j] == s[j + 1];
    }
  }

  /** After the loop a shown name maps to its attribute, and every other
      key reads as before. */
  lemma {:induction false} EmitTruthyGet(d: OMap<string, Json>, getattr: string -> Option<Json>,
                                         names: seq<string>, k: string)
    ensures Get(EmitTruthy(d, getattr, names), k)
         == if k in Emitted(getattr, names) then getattr(k) else Get(d, k)
    decreases |names|
  {
    if |names| > 0 {
      var n0 := names[0];
      var d' := if Shown(getattr, n0) then Put(d, n0, getattr(n0).value) else d;
      if Shown(getattr, n0) {
        GetPut(d, n0, getattr(n0).value, k);
      }
      EmitTruthyGet(d', getattr, names[1..], k);
    }
  }

  /** The emitted names are exactly the shown names of the list. */
  lemma {:induction false} EmittedMembers(getattr: string -> Option<Json>, names: seq<string>, n: string)
    ensures n in Emitted(getattr, names) <==> n in names && Shown(getattr, n)
    decreases |names|
  {
    if |names| > 0 {
      assert names == [names[0]] + names[1..];
      EmittedMembers(getattr, names[1..], n);
    }
  }

  lemma {:induction false} EmittedDistinct(getattr: string -> Option<Json>, names: seq<string>)
    requires Distinct(names)
    ensures Distinct(Emitted(getattr, names))
    decreases |names|
  {
    if |names| > 0 {
      DistinctTail(names);
      EmittedDistinct(getattr, names[1..]);
      EmittedMembers(getattr, names[1..], names[0]);
      DistinctAppend(if Shown(getattr, names[0]) then [names[0]] else [], Emitted(getattr, names[1..]));
    }
  }

  /** Checking the required names one by one against the document finds
      the first required attribute that is not shown. */
  lemma {:induction false} FirstMissingIsFirstHidden(getattr: string -> Option<Json>,
                                                     names: seq<string>, present: seq<string>)
    requires forall n :: n in names ==> (n in present <==> Shown(getattr, n))
    ensures FirstMissing(names, present) == FirstHidden(getattr, names)
    decreases |names|
  {
    if |names| > 0 {
      assert names[0] in names;
      assert forall n :: n in names[1..] ==> n in names;
      FirstMissingIsFirstHidden(getattr, names[1..], present);
    }
  }

  // ---------------------------------------------------------------------
  // The stages of `json_dict`, for a name list that fits the pass.

  /** What the stage lemmas need of the simple-field list. */
  predicate NamesFit(p: Pass, names: seq<string>) {
    && Distinct(names)
    && JsonName(p.passInformation.style) !in names
    && "barcodes" !in names && "locations" !in names
    && "ibeacons" in names
  }

  lemma SimpleStageKeys(p: Pass, names: seq<string>)
    requires NamesFit(p, names)
    ensures Keys(SimpleStage(p, names)) == [JsonName(p.passInformation.style)] + Emitted(Attrs(p), names)
  {
    assert Keys(StyleStage(p)) == [JsonName(p.passInformation.style)];
    EmitTruthyKeys(StyleStage(p), Attrs(p), names);
  }

  /** An array key is not among the keys the style and the simple-field
      loop produce. */
  lemma ArrayKeyFresh(p: Pass, names: seq<string>, k: string)
    requires NamesFit(p, names)
    requires k == "barcodes" || k == "locations"
    ensures k !in [JsonName(p.passInformation.style)] + Emitted(Attrs(p), names)
  {
    EmittedMembers(Attrs(p), names, k);
    assert JsonName(p.passInformation.style) != k;
  }

  lemma BarcodeStageKeys(p: Pass, names: seq<string>)
    requires NamesFit(p, names)
    ensures Keys(BarcodeStage(p, names))
         == [JsonName(p.passInformation.style)] + Emitted(Attrs(p), names)
            + (if |p.barcodes| > 0 then ["barcodes"] else [])
  {
    SimpleStageKeys(p, names);
    ArrayKeyFresh(p, names, "barcodes");
    if |p.barcodes| > 0 {
      KeysOfPut(SimpleStage(p, names), "barcodes", JArray(BarcodesJson(p.barcodes)));
    }
  }

  lemma LocationStageKeys(p: Pass, names: seq<string>)
    requires NamesFit(p, names)
    ensures Keys(LocationStage(p, names))
         == [JsonName(p.passInformation.style)] + Emitted(Attrs(p), names) + ArrayKeys(p)
  {
    var pre := [JsonName(p.passInformation.style)] + Emitted(Attrs(p), names);
    var b: seq<string> := if |p.barcodes| > 0 then ["barcodes"] else [];
    var l: seq<string> := if |p.locations| > 0 then ["locations"] else [];
    BarcodeStageKeys(p, names);
    ArrayKeyFresh(p, names, "locations");
    assert "locations" !in pre + b;
    if |p.locations| > 0 {
      KeysOfPut(BarcodeStage(p, names), "locations", JArray(LocationsJson(p.locations)));
    }
    assert Keys(LocationStage(p, names)) == (pre + b) + l;
    assert ArrayKeys(p) == b + l;
  }

  /** A list attribute is present, and shown exactly when the list is non-empty. */
  lemma BarcodesShown(p: Pass)
    ensures Attr(p, "barcodes") == Some(JArray(BarcodesJson(p.barcodes)))
    ensures Shown(Attrs(p), "barcodes") <==> |p.barcodes| > 0
  {
  }

  lemma LocationsShown(p: Pass)
    ensures Attr(p, "locations") == Some(JArray(LocationsJson(p.locations)))
    ensures Shown(Attrs(p), "locations") <==> |p.locations| > 0
  {
  }

  lemma IBeaconsShown(p: Pass)
    ensures Attr(p, "ibeacons") == Some(JArray(IBeaconsJson(p.ibeacons)))
    ensures Shown(Attrs(p), "ibeacons") <==> |p.ibeacons| > 0
  {
  }

  lemma ListsShown(p: Pass)
    ensures Attr(p, "barcodes") == Some(JArray(BarcodesJson(p.barcodes)))
    ensures Attr(p, "locations") == Some(JArray(LocationsJson(p.locations)))
    ensures Attr(p, "ibeacons") == Some(JArray(IBeaconsJson(p.ibeacons)))
    ensures Shown(Attrs(p), "barcodes") <==> |p.barcodes| > 0
    ensures Shown(Attrs(p), "locations") <==> |p.locations| > 0
    ensures Shown(Attrs(p), "ibeacons") <==> |p.ibeacons| > 0
  {
    BarcodesShown(p);
    LocationsShown(p);
    IBeaconsShown(p);
  }

  lemma AssembledKeys(p: Pass, names: seq<string>)
    requires NamesFit(p, names)
    ensures Keys(Assembled(p, names))
         == [JsonName(p.passInformation.style)] + Emitted(Attrs(p), names) + ArrayKeys(p)
  {
    LocationStageKeys(p, names);
    if |p.ibeacons| > 0 {
      ListsShown(p);
      EmittedMembers(Attrs(p), names, "ibeacons");
      assert "ibeacons" in Keys(LocationStage(p, names));
      KeysOfPut(LocationStage(p, names), "ibeacons", JArray(IBeaconsJson(p.ibeacons)));
    }
  }

  lemma AssembledDistinct(p: Pass, names: seq<string>)
    requires NamesFit(p, names)
    ensures Distinct([JsonName(p.passInformation.style)] + Emitted(Attrs(p), names) + ArrayKeys(p))
  {
    var style := JsonName(p.passInformation.style);
    var a := Emitted(Attrs(p), names);
    EmittedDistinct(Attrs(p), names);
    EmittedMembers(Attrs(p), names, style);
    DistinctAppend([style], a);
    ArrayKeyFresh(p, names, "barcodes");
    ArrayKeyFresh(p, names, "locations");
    assert forall x :: x in ArrayKeys(p) ==> x == "barcodes" || x == "locations";
    DistinctAppend([style] + a, ArrayKeys(p));
  }

  lemma SimpleStageValues(p: Pass, names: seq<string>, k: string)
    requires NamesFit(p, names)
    ensures Get(SimpleStage(p, names), k) ==
      if k == JsonName(p.passInformation.style) then Some(InfoJson(p.passInformation))
      else if k in Emitted(Attrs(p), names) then Attr(p, k)
      else None
  {
    EmittedMembers(Attrs(p), names, JsonName(p.passInformation.style));
    EmitTruthyGet(StyleStage(p), Attrs(p), names, k);
  }

  lemma BarcodeStageValues(p: Pass, names: seq<string>, k: string)
    requires NamesFit(p, names)
    ensures Get(BarcodeStage(p, names), k) ==
      if k == JsonName(p.passInformation.style) then Some(InfoJson(p.passInformation))
      else if k in Emitted(Attrs(p), names) || (k == "barcodes" && |p.barcodes| > 0) then Attr(p, k)
      else None
  {
    SimpleStageValues(p, names, k);
    if |p.barcodes| > 0 {
      BarcodesShown(p);
      GetPut(SimpleStage(p, names), "barcodes", JArray(BarcodesJson(p.barcodes)), k);
    }
  }

  lemma LocationStageValues(p: Pass, names: seq<string>, k: string)
    requires NamesFit(p, names)
    ensures Get(LocationStage(p, names), k) ==
      if k == JsonName(p.passInformation.style) then Some(InfoJson(p.passInformation))
      else if k in Emitted(Attrs(p), names) || k in ArrayKeys(p) then Attr(p, k)
      else None
  {
    BarcodeStageValues(p, names, k);
    if |p.locations| > 0 {
      LocationsShown(p);
      GetPut(BarcodeStage(p, names), "locations", JArray(LocationsJson(p.locations)), k);
    }
  }

  lemma AssembledValues(p: Pass, names: seq<string>, k: string)
    requires NamesFit(p, names)
    ensures Get(Assembled(p, names), k) ==
      if k == JsonName(p.passInformation.style) then Some(InfoJson(p.passInformation))
      else if k in Emitted(Attrs(p), names) || k in ArrayKeys(p) then Attr(p, k)
      else None
  {
    LocationStageValues(p, names, k);
    if |p.ibeacons| > 0 {
      IBeaconsShown(p);
      EmittedMembers(Attrs(p), names, "ibeacons");
      GetPut(LocationStage(p, names), "ibeacons", JArray(IBeaconsJson(p.ibeacons)), k);
    }
  }

  // ---------------------------------------------------------------------
  // The facts about the actual lists.

  lemma SimpleFieldsDistinct()
    ensures Distinct(SimpleFields)
  {
    SimpleFieldsLowDistinct();
    SimpleFieldsHighDistinct();
    SimpleFieldsHalvesApart();
  }

  lemma SimpleFieldsLowDistinct()
    ensures forall i, j :: 0 <= i < j < 10 ==> SimpleFields[i] != SimpleFields[j]
  {
  }

  lemma SimpleFieldsHighDistinct()
    ensures forall i, j :: 10 <= i < j < 19 ==> SimpleFields[i] != SimpleFields[j]
  {
  }

  lemma SimpleFieldsHalvesApart()
    ensures forall i, j :: 0 <= i < 10 <= j < 19 ==> SimpleFields[i] != SimpleFields[j]
  {
  }

  /** No style name is a simple field. */
  lemma GenericApart() ensures "generic" !in SimpleFields {}
  lemma StoreCardApart() ensures "storeCard" !in SimpleFields {}
  lemma CouponApart() ensures "coupon" !in SimpleFields {}
  lemma EventTicketApart() ensures "eventTicket" !in SimpleFields {}
  lemma BoardingPassApart() ensures "boardingPass" !in SimpleFields {}

  lemma StyleNameApart(s: Style)
    ensures JsonName(s) !in SimpleFields
  {
    match s
    case Generic => GenericApart();
    case StoreCard => StoreCardApart();
    case Coupon => CouponApart();
    case EventTicket => EventTicketApart();
    case BoardingPass(_) => BoardingPassApart();
  }

  lemma SimpleFieldsFit(p: Pass)
    ensures NamesFit(p, SimpleFields)
  {
    SimpleFieldsDistinct();
    StyleNameApart(p.passInformation.style);
    assert SimpleFields[11] == "ibeacons";
  }

  /** Every required name is one of the simple fields. */
  lemma RequiredAreSimple()
    ensures forall n :: n in RequiredFields ==> n in SimpleFields
  {
    assert RequiredFields == [SimpleFields[0], SimpleFields[1], SimpleFields[2], SimpleFields[2],
                              SimpleFields[4], SimpleFields[5]];
  }

  lemma RequiredShown(p: Pass)
    ensures Shown(Attrs(p), "description") == Truthy(p.description)
    ensures Shown(Attrs(p), "formatVersion") == Truthy(p.formatVersion)
    ensures Shown(Attrs(p), "organizationName") == Truthy(p.organizationName)
    ensures Shown(Attrs(p), "serialNumber") == Truthy(p.serialNumber)
    ensures Shown(Attrs(p), "teamIdentifier") == Truthy(p.teamIdentifier)
  {
  }

  // ---------------------------------------------------------------------
  // The document.

  /** The keys of `pass.json`: the style's name, then the shown simple
      fields in list order (`ibeacons` among them), then `barcodes` and
      `locations` when their lists are non-empty; no key twice. */
  lemma DocumentKeys(p: Pass)
    ensures Keys(Assembled(p, SimpleFields))
         == [JsonName(p.passInformation.style)] + Emitted(Attrs(p), SimpleFields) + ArrayKeys(p)
    ensures UniqueKeys(Assembled(p, SimpleFields))
  {
    SimpleFieldsFit(p);
    AssembledKeys(p, SimpleFields);
    AssembledDistinct(p, SimpleFields);
  }

  /** A key of `pass.json` holds the style's group dictionary or the
      attribute of that name. */
  lemma DocumentValues(p: Pass, k: string)
    ensures Get(Assembled(p, SimpleFields), k) ==
      if k == JsonName(p.passInformation.style) then Some(InfoJson(p.passInformation))
      else if (k in SimpleFields && Shown(Attrs(p), k)) || k in ArrayKeys(p) then Attr(p, k)
      else None
  {
    SimpleFieldsFit(p);
    AssembledValues(p, SimpleFields, k);
    EmittedMembers(Attrs(p), SimpleFields, k);
  }

  /** A listed simple field is a key of the document exactly when its
      attribute is shown. */
  lemma SimplePresence(p: Pass, names: seq<string>, n: string)
    requires NamesFit(p, names)
    requires n in names
    ensures n in Keys(Assembled(p, names)) <==> Shown(Attrs(p), n)
  {
    AssembledKeys(p, names);
    EmittedMembers(Attrs(p), names, n);
    assert n != JsonName(p.passInformation.style);
    assert n != "barcodes" && n != "locations";
  }

  /** The required-field check reports the first of the required
      attributes, in list order, that is not truthy. */
  lemma RequiredCheck(p: Pass)
    ensures FirstMissing(RequiredFields, Keys(Assembled(p, SimpleFields)))
         == if !Truthy(p.description) then Some("description")
            else if !Truthy(p.formatVersion) then Some("formatVersion")
            else if !Truthy(p.organizationName) then Some("organizationName")
            else if !Truthy(p.serialNumber) then Some("serialNumber")
            else if !Truthy(p.teamIdentifier) then Some("teamIdentifier")
            else None
  {
    SimpleFieldsFit(p);
    RequiredAreSimple();
    forall n | n in RequiredFields
      ensures n in Keys(Assembled(p, SimpleFields)) <==> Shown(Attrs(p), n)
    {
      SimplePresence(p, SimpleFields, n);
    }
    FirstMissingIsFirstHidden(Attrs(p), RequiredFields, Keys(Assembled(p, SimpleFields)));
    RequiredShown(p);
    var r := RequiredFields;
    assert r[1..] == ["formatVersion", "organizationName", "organizationName", "serialNumber", "teamIdentifier"];
    assert r[1..][1..] == ["organizationName", "organizationName", "serialNumber", "teamIdentifier"];
    assert r[1..][1..][1..] == ["organizationName", "serialNumber", "teamIdentifier"];
    assert r[1..][1..][1..][1..] == ["serialNumber", "teamIdentifier"];
    assert r[1..][1..][1..][1..][1..] == ["teamIdentifier"];
  }

  /** `json_dict` refuses ten or more locations first, then a missing
      required field, and otherwise returns the assembled document. Only
      five attributes decide success: `passTypeIdentifier` is not checked. */
  lemma JsonDictVerdict(p: Pass)
    ensures |p.locations| >= 10 ==> JsonDict(p) == Failure(PassParameter(TooManyLocations))
    ensures |p.locations| < 10 && !Truthy(p.description)
            ==> JsonDict(p) == Failure(PassParameter(MissingField("description")))
    ensures |p.locations| < 10 && Truthy(p.description) && !Truthy(p.formatVersion)
            ==> JsonDict(p) == Failure(PassParameter(MissingField("formatVersion")))
    ensures |p.locations| < 10 && Truthy(p.description) && Truthy(p.formatVersion)
            && !Truthy(p.organizationName)
            ==> JsonDict(p) == Failure(PassParameter(MissingField("organizationName")))
    ensures |p.locations| < 10 && Truthy(p.description) && Truthy(p.formatVersion)
            && Truthy(p.organizationName) && !Truthy(p.serialNumber)
            ==> JsonDict(p) == Failure(PassParameter(MissingField("serialNumber")))
    ensures |p.locations| < 10 && Truthy(p.description) && Truthy(p.formatVersion)
            && Truthy(p.organizationName) && Truthy(p.serialNumber) && !Truthy(p.teamIdentifier)
            ==> JsonDict(p) == Failure(PassParameter(MissingField("teamIdentifier")))
    ensures JsonDict(p).Success?
            <==> |p.locations| < 10 && Truthy(p.description) && Truthy(p.formatVersion)
                 && Truthy(p.organizationName) && Truthy(p.serialNumber) && Truthy(p.teamIdentifier)
    ensures JsonDict(p).Success? ==> JsonDict(p).value == JObject(Assembled(p, SimpleFields))
  {
    RequiredCheck(p);
  }

  /** Changing `passTypeIdentifier` never changes whether `json_dict` succeeds. */
  lemma PassTypeIdentifierUnchecked(p: Pass, v: Json)
    ensures JsonDict(p.(passTypeIdentifier := v)).Success? == JsonDict(p).Success?
  {
    JsonDictVerdict(p);
    JsonDictVerdict(p.(passTypeIdentifier := v));
  }

  // ---------------------------------------------------------------------
  // Attributes that never reach the document.

  /** A name that is neither the style's, nor an array key, nor a shown
      listed name, is not a key of the document. */
  lemma AbsentKey(p: Pass, names: seq<string>, x: string)
    requires NamesFit(p, names)
    requires x != JsonName(p.passInformation.style) && x != "barcodes" && x != "locations"
    requires x !in names || !Shown(Attrs(p), x)
    ensures x !in Keys(Assembled(p, names))
  {
    AssembledKeys(p, names);
    EmittedMembers(Attrs(p), names, x);
  }

  lemma SuppressStripShineApart() ensures "suppressStripShine" !in SimpleFields {}
  lemma RelevantDateApart() ensures "relevantDate" !in SimpleFields {}
  lemma BarcodeApart() ensures "barcode" !in SimpleFields {}
  lemma FusedNameUnknown(p: Pass) ensures Attr(p, "suppressStripShinerelevantDate") == None {}

  /** `suppressStripShine` is never emitted: the list names only its
      fusion with the next literal. */
  lemma SuppressStripShineNeverEmitted(p: Pass)
    ensures "suppressStripShine" !in Keys(Assembled(p, SimpleFields))
  {
    SimpleFieldsFit(p);
    SuppressStripShineApart();
    AbsentKey(p, SimpleFields, "suppressStripShine");
  }

  /** `relevantDate` is never emitted, for the same reason. */
  lemma RelevantDateNeverEmitted(p: Pass)
    ensures "relevantDate" !in Keys(Assembled(p, SimpleFields))
  {
    SimpleFieldsFit(p);
    RelevantDateApart();
    AbsentKey(p, SimpleFields, "relevantDate");
  }

  /** The fused name is listed, but no attribute carries it. */
  lemma FusedNameNeverEmitted(p: Pass)
    ensures "suppressStripShinerelevantDate" !in Keys(Assembled(p, SimpleFields))
  {
    SimpleFieldsFit(p);
    FusedNameUnknown(p);
    AbsentKey(p, SimpleFields, "suppressStripShinerelevantDate");
  }

  /** The single `barcode` attribute is not listed and never emitted. */
  lemma BarcodeNeverEmitted(p: Pass)
    ensures "barcode" !in Keys(Assembled(p, SimpleFields))
  {
    SimpleFieldsFit(p);
    BarcodeApart();
    AbsentKey(p, SimpleFields, "barcode");
  }

  /** A pass fresh from the constructor is refused: its description is
      still the empty string. */
  lemma FreshPassRejected(kw: Kwargs, pi: Option<PassInformation>)
    requires NewPass(kw, pi).Success?
    ensures JsonDict(NewPass(kw, pi).value) == Failure(PassParameter(MissingField("description")))
  {
    JsonDictVerdict(NewPass(kw, pi).value);
  }

  lemma BarcodesAssembled(p: Pass, names: seq<string>)
    requires NamesFit(p, names)
    ensures "barcodes" in Keys(Assembled(p, names)) <==> |p.barcodes| > 0
    ensures |p.barcodes| > 0 ==>
      Get(Assembled(p, names), "barcodes") == Some(JArray(BarcodesJson(p.barcodes)))
  {
    BarcodesShown(p);
    AssembledKeys(p, names);
    EmittedMembers(Attrs(p), names, "barcodes");
    AssembledValues(p, names, "barcodes");
  }

  lemma LocationsAssembled(p: Pass, names: seq<string>)
    requires NamesFit(p, names)
    ensures "locations" in Keys(Assembled(p, names)) <==> |p.locations| > 0
    ensures |p.locations| > 0 ==>
      Get(Assembled(p, names), "locations") == Some(JArray(LocationsJson(p.locations)))
  {
    LocationsShown(p);
    AssembledKeys(p, names);
    EmittedMembers(Attrs(p), names, "locations");
    AssembledValues(p, names, "locations");
  }

  lemma IBeaconsAssembled(p: Pass, names: seq<string>)
    requires NamesFit(p, names)
    ensures "ibeacons" in Keys(Assembled(p, names)) <==> |p.ibeacons| > 0
    ensures |p.ibeacons| > 0 ==>
      Get(Assembled(p, names), "ibeacons") == Some(JArray(IBeaconsJson(p.ibeacons)))
    ensures |p.ibeacons| > 0 ==> "ibeacons" in Emitted(Attrs(p), names)
  {
    IBeaconsShown(p);
    AssembledKeys(p, names);
    EmittedMembers(Attrs(p), names, "ibeacons");
    AssembledValues(p, names, "ibeacons");
  }

  /** `barcodes` is a key exactly when the list is non-empty, and then holds
      the barcodes' dictionaries in order. */
  lemma BarcodesInDocument(p: Pass)
    ensures "barcodes" in Keys(Assembled(p, SimpleFields)) <==> |p.barcodes| > 0
    ensures |p.barcodes| > 0 ==>
      Get(Assembled(p, SimpleFields), "barcodes") == Some(JArray(BarcodesJson(p.barcodes)))
  {
    SimpleFieldsFit(p);
    BarcodesAssembled(p, SimpleFields);
  }

  /** The same for `locations`. */
  lemma LocationsInDocument(p: Pass)
    ensures "locations" in Keys(Assembled(p, SimpleFields)) <==> |p.locations| > 0
    ensures |p.locations| > 0 ==>
      Get(Assembled(p, SimpleFields), "locations") == Some(JArray(LocationsJson(p.locations)))
  {
    SimpleFieldsFit(p);
    LocationsAssembled(p, SimpleFields);
  }

  /** `ibeacons` is a key exactly when the list is non-empty; the key sits
      where the simple-field loop put it, not after `locations`. */
  lemma IBeaconsInDocument(p: Pass)
    ensures "ibeacons" in Keys(Assembled(p, SimpleFields)) <==> |p.ibeacons| > 0
    ensures |p.ibeacons| > 0 ==>
      Get(Assembled(p, SimpleFields), "ibeacons") == Some(JArray(IBeaconsJson(p.ibeacons)))
    ensures |p.ibeacons| > 0 ==> "ibeacons" in Emitted(Attrs(p), SimpleFields)
  {
    SimpleFieldsFit(p);
    IBeaconsAssembled(p, SimpleFields);
  }
}
